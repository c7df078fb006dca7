/**
  The bounded one-tool loop of an agent run: the tool result is captured once, continuations
  are recorded against a cumulative budget, and every change of the loop row must get past
  the trigger of migration 0022.
 */
module ToolLoop {
  import opened Wrappers
  import opened EvidenceLedger

  type Time = int

  // ---------------------------------------------------------------- the guarded row

  datatype LoopState = ToolPending | ResultReady | Complete | Failed | BudgetExhausted

  datatype ToolResult = ToolResult(json: string, hash: string, bytes: nat)

  datatype LoopData = LoopData(reason: string, result: Option<ToolResult>, terminalAt: Option<Time>)

  datatype LoopDetail = LoopDetail(event: string, reason: string)

  type LoopRow = Row<LoopState, LoopData>

  predicate Terminal(state: LoopState) {
    state.Complete? || state.Failed? || state.BudgetExhausted?
  }

  predicate LoopCheck(row: LoopRow) {
    || (row.state.ResultReady? && row.data.result.Some? && row.data.terminalAt.None?)
    || (Terminal(row.state) && row.data.terminalAt.Some?)
    || (row.state.ToolPending? && row.data.result.None? && row.data.terminalAt.None?)
  }

  predicate LoopTransition(before: LoopState, after: LoopState) {
    || (before.ToolPending? && (after.ResultReady? || after.Failed? || after.BudgetExhausted?))
    || (before.ResultReady? && !after.ToolPending?)
  }

  predicate LoopRule(before: LoopRow, after: LoopRow, event: Evidence<LoopState, LoopDetail>) {
    LoopTransition(before.state, after.state) && LoopCheck(after)
  }

  // ---------------------------------------------------------------- budgets

  datatype Usage = Usage(
    inputTokens: nat, outputTokens: nat, totalTokens: nat, cost: nat,
    inputBytes: nat, outputBytes: nat, wallTime: nat)

  datatype Budget = Budget(
    usage: Usage, maxModelTurns: nat, maxModelAttempts: nat, maxResultBytes: nat)

  const NOTHING: Usage := Usage(0, 0, 0, 0, 0, 0, 0)

  function Plus(a: Usage, b: Usage): Usage {
    Usage(a.inputTokens + b.inputTokens, a.outputTokens + b.outputTokens, a.totalTokens + b.totalTokens,
          a.cost + b.cost, a.inputBytes + b.inputBytes, a.outputBytes + b.outputBytes, a.wallTime + b.wallTime)
  }

  predicate Within(a: Usage, max: Usage) {
    && a.inputTokens <= max.inputTokens && a.outputTokens <= max.outputTokens
    && a.totalTokens <= max.totalTokens && a.cost <= max.cost
    && a.inputBytes <= max.inputBytes && a.outputBytes <= max.outputBytes && a.wallTime <= max.wallTime
  }

  datatype Outcome = Succeeded | ProviderError | InvalidOutput | TimedOut | Refused

  predicate Retryable(outcome: Outcome) {
    outcome.ProviderError? || outcome.InvalidOutput? || outcome.TimedOut?
  }

  datatype Attempt = Attempt(provider: string, outcome: Outcome, usage: Usage)

  datatype Report = Report(outcome: Outcome, usage: Usage, toolProposals: bool, safeError: Option<string>)

  datatype Continuation = Continuation(attempt: nat, provider: string, key: string, report: Report)

  function AttemptUsage(attempts: seq<Attempt>): Usage {
    if attempts == [] then NOTHING
    else Plus(AttemptUsage(attempts[..|attempts| - 1]), attempts[|attempts| - 1].usage)
  }

  function ContinuationUsage(continuations: seq<Continuation>): Usage {
    if continuations == [] then NOTHING
    else Plus(ContinuationUsage(continuations[..|continuations| - 1]),
              continuations[|continuations| - 1].report.usage)
  }

  function Total(planner: seq<Attempt>, continuations: seq<Continuation>): Usage {
    Plus(AttemptUsage(planner), ContinuationUsage(continuations))
  }

  /** The reasons a continuation exhausts the budget, in the order the service lists them. */
  function Exhausted(total: Usage, attempt: nat, budget: Budget, pastDeadline: bool): (reasons: seq<string>)
    ensures reasons == [] <==>
              && Within(total, budget.usage) && 2 <= budget.maxModelTurns
              && attempt <= budget.maxModelAttempts && !pastDeadline
  {
    (if total.inputTokens > budget.usage.inputTokens then ["max_input_tokens"] else [])
    + (if total.outputTokens > budget.usage.outputTokens then ["max_output_tokens"] else [])
    + (if total.totalTokens > budget.usage.totalTokens then ["max_total_tokens"] else [])
    + (if total.cost > budget.usage.cost then ["max_cost_microunits"] else [])
    + (if total.inputBytes > budget.usage.inputBytes then ["max_input_bytes"] else [])
    + (if total.outputBytes > budget.usage.outputBytes then ["max_output_bytes"] else [])
    + (if total.wallTime > budget.usage.wallTime then ["max_wall_time_ms"] else [])
    + (if 2 > budget.maxModelTurns then ["max_model_turns"] else [])
    + (if attempt > budget.maxModelAttempts then ["max_model_attempts"] else [])
    + (if pastDeadline then ["deadline"] else [])
  }

  // ---------------------------------------------------------------- the frozen route

  predicate Distinct(route: seq<string>) {
    forall i, j :: 0 <= i < j < |route| ==> route[i] != route[j]
  }

  function LastSuccess(planner: seq<Attempt>): (r: Option<string>)
    ensures r.Some? <==> exists i :: 0 <= i < |planner| && planner[i].outcome.Succeeded?
    ensures r.Some? ==>
              exists i :: 0 <= i < |planner| && planner[i].outcome.Succeeded? && planner[i].provider == r.value
                && forall j :: i < j < |planner| ==> !planner[j].outcome.Succeeded?
  {
    if planner == [] then None
    else if planner[|planner| - 1].outcome.Succeeded? then Some(planner[|planner| - 1].provider)
    else LastSuccess(planner[..|planner| - 1])
  }

  function Min(a: int, b: int): int {
    if a < b then a else b
  }

  /** Where a provider stands on the route. */
  function PlaceOf(route: seq<string>, provider: string): (r: Option<nat>)
    ensures r.Some? ==> r.value < |route| && route[r.value] == provider
    ensures r.None? <==> provider !in route
  {
    PlaceUpTo(route, provider, |route|)
  }

  function PlaceUpTo(route: seq<string>, provider: string, n: nat): (r: Option<nat>)
    requires n <= |route|
    ensures r.Some? ==> r.value < n && route[r.value] == provider
    ensures r.None? <==> forall i :: 0 <= i < n ==> route[i] != provider
  {
    if n == 0 then None
    else if route[n - 1] == provider then Some(n - 1)
    else PlaceUpTo(route, provider, n - 1)
  }

  lemma PlaceIs(route: seq<string>, i: nat)
    requires Distinct(route) && i < |route|
    ensures PlaceOf(route, route[i]) == Some(i)
  {
    SamePlace(route, PlaceOf(route, route[i]).value, i);
  }

  /**
    Who runs the k-th continuation: the k-th in line after the last successful planner's provider,
    or the last in line.
   */
  function Turn(route: seq<string>, planner: seq<Attempt>, k: nat): Option<string> {
    match LastSuccess(planner)
    case None => None
    case Some(provider) =>
      match PlaceOf(route, provider)
      case None => None
      case Some(start) => Some(route[Min(start + k, |route| - 1)])
  }

  predicate OnRoute(route: seq<string>, planner: seq<Attempt>, k: nat, provider: string) {
    Turn(route, planner, k) == Some(provider)
  }

  // ---------------------------------------------------------------- the loop

  /** What the tool invocation looks like when the loop is refreshed. */
  datatype Invocation = Invocation(state: string, terminal: bool, output: Option<ToolResult>)

  /** What the surroundings decide while a continuation is recorded. */
  datatype Surroundings = Surroundings(
    enabled: bool, keyUsedElsewhere: bool, costMatches: bool, pastDeadline: bool,
    invocation: Invocation, now: Time)

  datatype Refusal = Conflict | NotFound | Inconsistent | RolledBack

  datatype Recorded = Recorded(continuation: Continuation, replay: bool)

  predicate Bears(continuation: Continuation, provider: string, key: string) {
    continuation.provider == provider && continuation.key == key
  }

  ghost predicate KeysUnique(continuations: seq<Continuation>) {
    forall i, j :: 0 <= i < j < |continuations| ==>
      !Bears(continuations[i], continuations[j].provider, continuations[j].key)
  }

  /** While a result waits, all that has been tried can be tried again. */
  ghost predicate AllRetryable(continuations: seq<Continuation>) {
    forall k :: 0 <= k < |continuations| ==> Retryable(continuations[k].report.outcome)
  }

  ghost predicate LoopInvariant(
    row: LoopRow, planner: seq<Attempt>, continuations: seq<Continuation>, budget: Budget)
  {
    && (row.state.ToolPending? ==> continuations == [])
    && (row.state.ResultReady? ==>
          && AllRetryable(continuations)
          && (continuations != [] ==> |planner| + |continuations| < budget.maxModelAttempts))
    && (continuations != [] && !row.state.BudgetExhausted? ==>
          && Within(Total(planner, continuations), budget.usage)
          && 2 <= budget.maxModelTurns
          && |planner| + |continuations| <= budget.maxModelAttempts)
    && (continuations != [] ==> row.data.result.Some?)
    && (row.data.result.Some? ==> row.data.result.value.bytes <= budget.maxResultBytes)
    && (|continuations| <= 1 || |planner| + |continuations| <= budget.maxModelAttempts)
  }

  ghost predicate Attributed(route: seq<string>, planner: seq<Attempt>, continuations: seq<Continuation>) {
    forall k :: 0 <= k < |continuations| ==>
      && continuations[k].attempt == |planner| + k + 1
      && OnRoute(route, planner, k, continuations[k].provider)
  }

  lemma AttributedSnoc(route: seq<string>, planner: seq<Attempt>, continuations: seq<Continuation>, next: Continuation)
    requires Attributed(route, planner, continuations)
    requires next.attempt == |planner| + |continuations| + 1
    requires OnRoute(route, planner, |continuations|, next.provider)
    ensures Attributed(route, planner, continuations + [next])
  {
    var longer := continuations + [next];
    forall k | 0 <= k < |longer|
      ensures longer[k].attempt == |planner| + k + 1 && OnRoute(route, planner, k, longer[k].provider)
    {
      if k < |continuations| {
        assert longer[k] == continuations[k];
      }
    }
  }

  predicate Begins(earlier: seq<Continuation>, later: seq<Continuation>) {
    |earlier| <= |later| && later[..|earlier|] == earlier
  }

  /** The continuations at each version: each a beginning of those there are now, which come last. */
  ghost predicate Remembers(past: seq<seq<Continuation>>, continuations: seq<Continuation>) {
    && past != [] && past[|past| - 1] == continuations
    && forall v :: 0 <= v < |past| ==> Begins(past[v], continuations)
  }

  lemma RemembersSame(past: seq<seq<Continuation>>, continuations: seq<Continuation>)
    requires Remembers(past, continuations)
    ensures Remembers(past + [continuations], continuations)
  {
  }

  lemma RemembersMore(past: seq<seq<Continuation>>, continuations: seq<Continuation>, next: Continuation)
    requires Remembers(past, continuations)
    ensures Remembers(past + [continuations + [next]], continuations + [next])
  {
    var longer := continuations + [next];
    forall v | 0 <= v < |past| ensures Begins(past[v], longer) {
      assert longer[..|past[v]|] == continuations[..|past[v]|];
    }
  }

  lemma AttributedBefore(
    route: seq<string>, planner: seq<Attempt>, earlier: seq<Continuation>, later: seq<Continuation>)
    requires Attributed(route, planner, later) && Begins(earlier, later)
    ensures Attributed(route, planner, earlier)
  {
    forall k | 0 <= k < |earlier|
      ensures earlier[k].attempt == |planner| + k + 1 && OnRoute(route, planner, k, earlier[k].provider)
    {
      assert earlier[k] == later[..|earlier|][k] == later[k];
    }
  }

  predicate Taken(continuations: seq<Continuation>, provider: string, key: string) {
    exists k :: 0 <= k < |continuations| && Bears(continuations[k], provider, key)
  }

  lemma KeysUniqueSnoc(continuations: seq<Continuation>, next: Continuation)
    requires KeysUnique(continuations) && !Taken(continuations, next.provider, next.key)
    ensures KeysUnique(continuations + [next])
  {
  }

  /** What holds between the row and the continuations in every reachable state. */
  ghost predicate Sound(
    row: LoopRow, route: seq<string>, planner: seq<Attempt>, continuations: seq<Continuation>, budget: Budget)
  {
    && Distinct(route)
    && Attributed(route, planner, continuations)
    && KeysUnique(continuations)
    && LoopInvariant(row, planner, continuations, budget)
  }

  /** The state the budget and the outcome lead to keeps the loop's invariant. */
  lemma VerdictKeepsInvariant(
    row: LoopRow, row': LoopRow, planner: seq<Attempt>, continuations: seq<Continuation>, next: Continuation,
    budget: Budget, pastDeadline: bool)
    requires LoopInvariant(row, planner, continuations, budget) && row.state.ResultReady? && LoopCheck(row)
    requires row'.state == Verdict(planner, continuations + [next], budget, pastDeadline)
    requires row'.data.result == row.data.result
    ensures LoopInvariant(row', planner, continuations + [next], budget)
  {
  }

  /** A continuation that was due and whose key is new leads from one sound state to the next. */
  lemma ConcludingIsSound(
    row: LoopRow, row': LoopRow, route: seq<string>, planner: seq<Attempt>, continuations: seq<Continuation>,
    next: Continuation, budget: Budget, around: Surroundings)
    requires Sound(row, route, planner, continuations, budget) && row.state.ResultReady? && LoopCheck(row)
    requires next.attempt == |planner| + |continuations| + 1
    requires OnRoute(route, planner, |continuations|, next.provider)
    requires !Taken(continuations, next.provider, next.key)
    requires row' == Concluded(row, planner, continuations + [next], budget, around)
    ensures Sound(row', route, planner, continuations + [next], budget)
  {
    AttributedSnoc(route, planner, continuations, next);
    KeysUniqueSnoc(continuations, next);
    VerdictKeepsInvariant(row, row', planner, continuations, next, budget, around.pastDeadline);
  }

  ghost predicate AllChecked(history: seq<LoopRow>) {
    forall i :: 0 <= i < |history| ==> LoopCheck(history[i])
  }

  /** A captured result is never altered afterwards. */
  ghost predicate ResultFrozen(history: seq<LoopRow>) {
    forall i, j :: 0 <= i < j < |history| && history[i].data.result.Some? ==>
      history[j].data.result == history[i].data.result
  }

  lemma FrozenSnoc(history: seq<LoopRow>, row: LoopRow)
    requires history != [] && ResultFrozen(history)
    requires history[|history| - 1].data.result.Some? ==> row.data.result == history[|history| - 1].data.result
    ensures ResultFrozen(history + [row])
  {
  }

  lemma SamePlace(route: seq<string>, i: nat, j: nat)
    requires Distinct(route) && i < |route| && j < |route| && route[i] == route[j]
    ensures i == j
  {
  }

  lemma TurnIs(route: seq<string>, planner: seq<Attempt>, start: nat, k: nat)
    requires Distinct(route) && start < |route| && LastSuccess(planner) == Some(route[start])
    ensures Turn(route, planner, k) == Some(route[Min(start + k, |route| - 1)])
  {
    PlaceIs(route, start);
  }

  lemma AttributedAt(route: seq<string>, planner: seq<Attempt>, continuations: seq<Continuation>, k: nat)
    requires Attributed(route, planner, continuations) && k < |continuations|
    ensures continuations[k].attempt == |planner| + k + 1
    ensures Turn(route, planner, k) == Some(continuations[k].provider)
  {
    assert OnRoute(route, planner, k, continuations[k].provider);
  }

  /**
    Fallback in closed form: the k-th continuation came from the provider k places after the
    last successful planner's, or from the last in line.
   */
  lemma FallbackClosedForm(
    route: seq<string>, planner: seq<Attempt>, continuations: seq<Continuation>, start: nat, k: nat)
    requires Distinct(route) && Attributed(route, planner, continuations) && k < |continuations|
    requires start < |route| && LastSuccess(planner) == Some(route[start])
    ensures continuations[k].provider == route[Min(start + k, |route| - 1)]
    ensures continuations[k].attempt == |planner| + k + 1
  {
    TurnIs(route, planner, start, k);
    AttributedAt(route, planner, continuations, k);
  }

  /** After a retryable failure the next provider in line takes over. */
  lemma NextOnRoute(route: seq<string>, planner: seq<Attempt>, k: nat, provider: string, index: nat)
    requires Distinct(route) && OnRoute(route, planner, k, provider)
    requires index + 1 < |route| && route[index] == provider
    ensures OnRoute(route, planner, k + 1, route[index + 1])
  {
    SamePlace(route, index, Min(PlaceOf(route, LastSuccess(planner).value).value + k, |route| - 1));
  }

  /** The last provider in line keeps its turn. */
  lemma LastOnRoute(route: seq<string>, planner: seq<Attempt>, k: nat, provider: string, index: nat)
    requires Distinct(route) && OnRoute(route, planner, k, provider)
    requires index + 1 == |route| && route[index] == provider
    ensures OnRoute(route, planner, k + 1, route[index])
  {
    SamePlace(route, index, Min(PlaceOf(route, LastSuccess(planner).value).value + k, |route| - 1));
  }

  function Judged(total: Usage, attempt: nat, outcome: Outcome, budget: Budget, pastDeadline: bool): LoopState {
    if !Within(total, budget.usage) || budget.maxModelTurns < 2 || budget.maxModelAttempts < attempt || pastDeadline
    then BudgetExhausted
    else if outcome.Succeeded? then Complete
    else if Retryable(outcome) && attempt < budget.maxModelAttempts then ResultReady
    else Failed
  }

  /** The state a loop must be in after its last continuation. */
  function Verdict(
    planner: seq<Attempt>, continuations: seq<Continuation>, budget: Budget, pastDeadline: bool): LoopState
    requires continuations != []
  {
    Judged(Total(planner, continuations), |planner| + |continuations|,
           continuations[|continuations| - 1].report.outcome, budget, pastDeadline)
  }

  /** The event and the reason that go with the state a continuation leads to. */
  function Explained(state: LoopState, report: Report): LoopDetail {
    match state
    case BudgetExhausted => LoopDetail("budget_exhaust", "continuation_budget_exhausted")
    case Complete => LoopDetail("complete", "bounded_loop_complete_no_delivery")
    case ResultReady =>
      LoopDetail("model_retry",
                 if report.safeError.Some? then report.safeError.value else "continuation_retry_available")
    case _ => LoopDetail("model_fail", if report.safeError.Some? then report.safeError.value else "continuation_failed")
  }

  /** The row after a continuation has been added. */
  function Concluded(
    row: LoopRow, planner: seq<Attempt>, continuations: seq<Continuation>, budget: Budget, around: Surroundings)
    : LoopRow
    requires continuations != []
  {
    var state := Verdict(planner, continuations, budget, around.pastDeadline);
    Row(state, row.version + 1,
        LoopData(Explained(state, continuations[|continuations| - 1].report).reason, row.data.result,
                 if state.ResultReady? then None else Some(around.now)))
  }

  /** What a refresh makes of the row: nothing, a captured result, or the end of the loop. */
  function Refreshed(row: LoopRow, budget: Budget, invocation: Invocation, now: Time): LoopRow {
    if !row.state.ToolPending? then row
    else if invocation.state == "succeeded" then
      match invocation.output
      case None => row
      case Some(result) =>
        if result.bytes <= budget.maxResultBytes
        then Row(ResultReady, row.version + 1, LoopData("untrusted_result_captured", Some(result), None))
        else Row(BudgetExhausted, row.version + 1, LoopData("max_result_bytes", None, Some(now)))
    else if invocation.terminal
    then Row(Failed, row.version + 1, LoopData("tool_" + invocation.state, None, Some(now)))
    else row
  }

  function RefreshEvent(state: LoopState): string {
    if state.ResultReady? then "tool_result" else if state.BudgetExhausted? then "budget_exhaust" else "tool_fail"
  }

  class AgentToolLoop {
    const planner: seq<Attempt>
    const route: seq<string>
    const budget: Budget
    const table: GuardedTable<LoopState, LoopData, LoopDetail>
    var continuations: seq<Continuation>
    /** The continuations there were at each version of the row. */
    ghost var past: seq<seq<Continuation>>

    ghost predicate Valid()
      reads this, table
    {
      && RowValid() && |past| == |table.history| && Remembers(past, continuations)
      && Sound(table.row, route, planner, continuations, budget)
    }

    /** The row is where its own events say, and no event is waiting under a later number. */
    ghost predicate RowValid()
      reads this, table
    {
      && table.Valid() && table.rule == LoopRule && !table.skipsUnchanged
      && AllChecked(table.history)
      && (forall n :: n in table.events ==> n <= table.row.version)
      && ResultFrozen(table.history)
    }

    /** What a transaction reads: the row and the continuations of one version, maybe no longer the last. */
    ghost predicate Read(at: nat, seen: LoopRow, known: seq<Continuation>)
      reads this, table
    {
      && at < |table.history| && at < |past|
      && seen == table.history[at] && known == past[at]
    }

    ghost predicate Current(at: nat)
      reads this, table
    {
      at + 1 == |table.history|
    }

    /** Promotion inserts the row at version 1 with its first event; a refused invocation fails at once. */
    constructor (planner: seq<Attempt>, route: seq<string>, budget: Budget, executable: bool, reason: string, now: Time)
      requires Distinct(route)
      ensures Valid() && fresh(table) && continuations == []
      ensures this.planner == planner && this.route == route && this.budget == budget
      ensures table.row == Row(if executable then ToolPending else Failed, 1,
                               LoopData(reason, None, if executable then None else Some(now)))
    {
      this.planner := planner;
      this.route := route;
      this.budget := budget;
      var state := if executable then ToolPending else Failed;
      table := new GuardedTable(LoopRule, false, state, LoopData(reason, None, if executable then None else Some(now)),
                                Evidence(None, state, LoopDetail("promote", reason)));
      continuations := [];
      past := [[]];
    }

    /**
      Insert the event, then update the row.  If the row has moved on since it was read, the
      event's number is taken and the transaction comes to nothing; otherwise the trigger
      never objects.
     */
    method Event(
      seen: LoopRow, ghost at: nat, event: string, state: LoopState, reason: string, terminalAt: Option<Time>,
      result: Option<ToolResult>)
      returns (committed: bool)
      requires RowValid() && at < |table.history| && seen == table.history[at]
      requires LoopTransition(seen.state, state)
      requires LoopCheck(Row(state, seen.version + 1, LoopData(reason, result, terminalAt)))
      requires Current(at) && seen.data.result.Some? ==> result == seen.data.result
      modifies table
      ensures RowValid()
      ensures committed <==> old(Current(at))
      ensures table.row == if committed then Row(state, seen.version + 1, LoopData(reason, result, terminalAt))
                           else old(table.row)
      ensures table.events == if committed
                              then old(table.events)[table.row.version :=
                                     Evidence(Some(seen.state), state, LoopDetail(event, reason))]
                              else old(table.events)
      ensures table.history == if committed then old(table.history) + [table.row] else old(table.history)
    {
      VersionsAreNumbered(table.rule, table.View(), table.history, at);
      VersionsAreNumbered(table.rule, table.View(), table.history, if at + 1 < |table.history| then at + 1 else at);
      var next := Row(state, seen.version + 1, LoopData(reason, result, terminalAt));
      committed := table.Append(next.version, Evidence(Some(seen.state), state, LoopDetail(event, reason)));
      if committed {
        FrozenSnoc(table.history, next);
        committed := table.Update(next);
      }
    }

    /** Capture the tool's result once it is there, or close the loop if there will be none. */
    method Refresh(seen: LoopRow, ghost at: nat, invocation: Invocation, now: Time)
      requires Valid() && at < |table.history| && seen == table.history[at]
      modifies table, this`past
      ensures Valid()
      ensures table.row == if old(Current(at)) then Refreshed(old(table.row), budget, invocation, now)
                           else old(table.row)
      ensures table.events == if table.row == old(table.row) then old(table.events)
                              else old(table.events)[table.row.version := Evidence(Some(ToolPending), table.row.state,
                                     LoopDetail(RefreshEvent(table.row.state), table.row.data.reason))]
    {
      var committed := RefreshRow(seen, at, invocation, now);
      if committed {
        RemembersSame(past, continuations);
        past := past + [continuations];
      }
    }

    method RefreshRow(seen: LoopRow, ghost at: nat, invocation: Invocation, now: Time) returns (committed: bool)
      requires RowValid() && at < |table.history| && seen == table.history[at]
      modifies table
      ensures RowValid()
      ensures table.row == if old(Current(at)) then Refreshed(old(table.row), budget, invocation, now)
                           else old(table.row)
      ensures committed ==> old(table.row).state.ToolPending?
      ensures table.history == if committed then old(table.history) + [table.row] else old(table.history)
      ensures table.events == if !committed then old(table.events)
                              else old(table.events)[table.row.version := Evidence(Some(ToolPending), table.row.state,
                                     LoopDetail(RefreshEvent(table.row.state), table.row.data.reason))]
      ensures committed <==> table.row != old(table.row)
    {
      committed := false;
      if !seen.state.ToolPending? {
        return;
      }
      if invocation.state == "succeeded" {
        if invocation.output.None? {
          return;
        }
        var result := invocation.output.value;
        if result.bytes > budget.maxResultBytes {
          committed := Event(seen, at, "budget_exhaust", BudgetExhausted, "max_result_bytes", Some(now), None);
        } else {
          committed := Event(seen, at, "tool_result", ResultReady, "untrusted_result_captured", None, Some(result));
        }
      } else if invocation.terminal {
        committed := Event(seen, at, "tool_fail", Failed, "tool_" + invocation.state, Some(now), None);
      }
    }

    /** Which provider of the frozen route is up next after the continuations known. */
    method ContinuationRouteProfile(known: seq<Continuation>) returns (r: Option<nat>)
      requires Distinct(route) && Attributed(route, planner, known)
      ensures r.Some? ==> r.value < |route|
      ensures r.Some? && AllRetryable(known) ==> OnRoute(route, planner, |known|, route[r.value])
      ensures r.Some? && known != [] && !Retryable(known[|known| - 1].report.outcome) ==>
                route[r.value] == known[|known| - 1].provider
      ensures r.None? <==> LastSuccess(planner).None? || LastSuccess(planner).value !in route
    {
      var success := LastSuccess(planner);
      if success.None? {
        return None;
      }
      var current := success.value;
      if known != [] {
        var last := known[|known| - 1];
        current := last.provider;
        if Retryable(last.report.outcome) {
          r := Successor(current);
          if r.Some? {
            NextOnRoute(route, planner, |known| - 1, current, r.value - 1);
            return;
          }
        }
      }
      r := Place(current);
      if known != [] && r.Some? && Retryable(known[|known| - 1].report.outcome) {
        LastOnRoute(route, planner, |known| - 1, current, r.value);
      }
      if known == [] && r.Some? {
        PlaceIs(route, r.value);
      }
    }

    /** The place after a provider's, if it is not the last in line. */
    method Successor(provider: string) returns (r: Option<nat>)
      ensures r.Some? ==> 0 < r.value < |route| && route[r.value - 1] == provider
      ensures r.None? ==> forall i :: 0 <= i < |route| - 1 ==> route[i] != provider
    {
      for index := 0 to |route|
        invariant forall i :: 0 <= i < index && i + 1 < |route| ==> route[i] != provider
      {
        if route[index] == provider && index + 1 < |route| {
          return Some(index + 1);
        }
      }
      return None;
    }

    /** The place of a provider. */
    method Place(provider: string) returns (r: Option<nat>)
      ensures r.Some? ==> r.value < |route| && route[r.value] == provider
      ensures r.None? <==> provider !in route
    {
      for index := 0 to |route|
        invariant forall i :: 0 <= i < index ==> route[i] != provider
      {
        if route[index] == provider {
          return Some(index);
        }
      }
      return None;
    }

    /** Only the provider whose turn it is may report. */
    method RefuseTurn(known: seq<Continuation>, provider: string) returns (refusal: Option<Refusal>)
      requires Distinct(route) && Attributed(route, planner, known)
      ensures AllRetryable(known) ==> (refusal.None? <==> OnRoute(route, planner, |known|, provider))
    {
      var profile := ContinuationRouteProfile(known);
      if profile.None? {
        return Some(Inconsistent);
      }
      if route[profile.value] != provider {
        return Some(NotFound);
      }
      return None;
    }

    /** A continuation already recorded under this provider and key. */
    method Existing(known: seq<Continuation>, provider: string, key: string) returns (k: Option<nat>)
      ensures k.Some? ==> k.value < |known| && Bears(known[k.value], provider, key)
      ensures k.None? <==> !Taken(known, provider, key)
    {
      for i := 0 to |known|
        invariant forall j :: 0 <= j < i ==> !Bears(known[j], provider, key)
      {
        if Bears(known[i], provider, key) {
          return Some(i);
        }
      }
      return None;
    }

    /**
      A call without interference.  A known key replays or conflicts and changes nothing.  An
      unknown one is recorded exactly when a result waits, the provider is the one whose turn
      it is on the frozen route, and the report is acceptable.
     */
    method RecordContinuation(provider: string, key: string, report: Report, around: Surroundings)
      returns (r: Result<Recorded, Refusal>)
      requires Valid()
      modifies this`continuations, this`past, table
      ensures Valid()
      ensures !around.enabled ==> r == Failure(Conflict)
      ensures forall k ::
                around.enabled && 0 <= k < |old(continuations)| && Bears(old(continuations)[k], provider, key) ==>
                r == if old(continuations)[k].report == report then Success(Recorded(old(continuations)[k], true))
                     else Failure(Conflict)
      ensures !around.enabled || around.keyUsedElsewhere || Taken(old(continuations), provider, key) ==>
                table.row == old(table.row) && continuations == old(continuations)
      ensures around.enabled && !Taken(old(continuations), provider, key) && around.keyUsedElsewhere ==>
                r == Failure(Conflict)
      ensures around.enabled && !Taken(old(continuations), provider, key) && !around.keyUsedElsewhere ==>
                Recording(Refreshed(old(table.row), budget, around.invocation, around.now), old(continuations),
                          provider, key, report, around, r, table.row, continuations)
    {
      if !around.enabled {
        return Failure(Conflict);
      }
      var existing := Existing(continuations, provider, key);
      if existing.Some? {
        var known := continuations[existing.value];
        if known.report != report {
          return Failure(Conflict);
        }
        return Success(Recorded(known, true));
      }
      if around.keyUsedElsewhere {
        return Failure(Conflict);
      }
      Refresh(table.row, |table.history| - 1, around.invocation, around.now);
      r := RecordReady(table.row, continuations, |table.history| - 1, provider, key, report, around);
    }

    /** What recording makes of a refreshed row and the continuations so far. */
    ghost predicate Recording(
      row: LoopRow, known: seq<Continuation>, provider: string, key: string, report: Report, around: Surroundings,
      r: Result<Recorded, Refusal>, row': LoopRow, known': seq<Continuation>)
    {
      var next := Continuation(|planner| + |known| + 1, provider, key, report);
      && (r.Success? <==> Due(row, known, provider, report, around.costMatches))
      && (r.Failure? ==> row' == row && known' == known)
      && (r.Success? ==>
            && r.value == Recorded(next, false) && known' == known + [next]
            && row' == Concluded(row, planner, known', budget, around))
    }

    /**
      The transaction that records a report, on what it read.  If anything was recorded since,
      or the key was used meanwhile, it comes to nothing; otherwise the turn on the route and
      the report decide.
     */
    method RecordReady(
      seen: LoopRow, known: seq<Continuation>, ghost at: nat, provider: string, key: string, report: Report,
      around: Surroundings)
      returns (r: Result<Recorded, Refusal>)
      requires Valid() && Read(at, seen, known)
      modifies this`continuations, this`past, table
      ensures Valid()
      ensures if old(Current(at)) && !Taken(old(continuations), provider, key) && !around.keyUsedElsewhere
              then Recording(old(table.row), old(continuations), provider, key, report, around, r, table.row,
                             continuations)
              else r.Failure? && table.row == old(table.row) && continuations == old(continuations)
    {
      ReadIsAttributed(at, seen, known);
      var refusal := Refuse(seen, known, provider, report, around.costMatches);
      if refusal.Some? {
        return Failure(refusal.value);
      }
      var next := Continuation(|planner| + |known| + 1, provider, key, report);
      var committed := Conclude(seen, known, at, next, around);
      r := if committed then Success(Recorded(next, false)) else Failure(RolledBack);
    }

    /** Whatever version was read, its continuations are attributed; if it is the last, they are all there are. */
    lemma ReadIsAttributed(at: nat, seen: LoopRow, known: seq<Continuation>)
      requires Valid() && Read(at, seen, known)
      ensures Distinct(route) && Attributed(route, planner, known)
      ensures Current(at) ==>
                && seen == table.row && known == continuations
                && (seen.state.ResultReady? ==> AllRetryable(known))
    {
      AttributedBefore(route, planner, known, continuations);
    }

    /** What is wrong with a report on what was read: no result waits, not its turn, or not acceptable. */
    method Refuse(seen: LoopRow, known: seq<Continuation>, provider: string, report: Report, costMatches: bool)
      returns (refusal: Option<Refusal>)
      requires Distinct(route) && Attributed(route, planner, known)
      ensures refusal.None? ==> seen.state.ResultReady?
      ensures (seen.state.ResultReady? ==> AllRetryable(known)) ==>
                (refusal.None? <==> Due(seen, known, provider, report, costMatches))
    {
      if !seen.state.ResultReady? {
        return Some(NotFound);
      }
      refusal := RefuseTurn(known, provider);
      if refusal.None? && (report.toolProposals || !costMatches) {
        refusal := Some(Conflict);
      }
    }

    ghost predicate Due(seen: LoopRow, known: seq<Continuation>, provider: string, report: Report, costMatches: bool) {
      seen.state.ResultReady? && OnRoute(route, planner, |known|, provider) && !report.toolProposals && costMatches
    }

    /**
      Add the continuation to the ledger of usage and let the budget, then the outcome,
      decide.  The provider's key is unique, and so is the number of the event.
     */
    method Conclude(seen: LoopRow, known: seq<Continuation>, ghost at: nat, next: Continuation, around: Surroundings)
      returns (committed: bool)
      requires Valid() && Read(at, seen, known) && seen.state.ResultReady?
      requires next.attempt == |planner| + |known| + 1
      requires Current(at) ==> OnRoute(route, planner, |known|, next.provider)
      modifies this`continuations, this`past, table
      ensures Valid()
      ensures committed <==>
                old(Current(at)) && !Taken(old(continuations), next.provider, next.key) && !around.keyUsedElsewhere
      ensures continuations == if committed then old(continuations) + [next] else old(continuations)
      ensures table.row == if committed then Concluded(old(table.row), planner, continuations, budget, around)
                           else old(table.row)
      ensures committed ==>
                table.events == old(table.events)[table.row.version := Evidence(Some(ResultReady), table.row.state,
                                  Explained(table.row.state, next.report))]
    {
      var existing := Existing(continuations, next.provider, next.key);
      if existing.Some? || around.keyUsedElsewhere {
        return false;
      }
      ghost var before, earlier := table.row, continuations;
      committed := ConcludeRow(seen, known, at, next, around);
      if committed {
        ConcludingIsSound(before, table.row, route, planner, earlier, next, budget, around);
        RemembersMore(past, continuations, next);
        continuations := continuations + [next];
        past := past + [continuations];
      }
    }

    /** The row's half of the transaction. */
    method ConcludeRow(seen: LoopRow, known: seq<Continuation>, ghost at: nat, next: Continuation, around: Surroundings)
      returns (committed: bool)
      requires RowValid() && at < |table.history| && seen == table.history[at] && seen.state.ResultReady?
      requires next.attempt == |planner| + |known| + 1
      modifies table
      ensures RowValid()
      ensures committed <==> old(Current(at))
      ensures table.row == if committed then Concluded(old(table.row), planner, known + [next], budget, around)
                           else old(table.row)
      ensures table.history == if committed then old(table.history) + [table.row] else old(table.history)
      ensures table.events == if committed
                              then old(table.events)[table.row.version := Evidence(Some(ResultReady), table.row.state,
                                     Explained(table.row.state, next.report))]
                              else old(table.events)
    {
      var state, event, reason := Decide(next.report, next.attempt, Total(planner, known + [next]),
                                         around.pastDeadline);
      assert state == Verdict(planner, known + [next], budget, around.pastDeadline);
      var terminalAt := if state == ResultReady then None else Some(around.now);
      committed := Event(seen, at, event, state, reason, terminalAt, seen.data.result);
    }

    /** The budget decides first, then the outcome. */
    method Decide(report: Report, attempt: nat, total: Usage, pastDeadline: bool)
      returns (state: LoopState, event: string, reason: string)
      ensures state == Judged(total, attempt, report.outcome, budget, pastDeadline)
      ensures LoopDetail(event, reason) == Explained(state, report)
    {
      var exhausted := Exhausted(total, attempt, budget, pastDeadline);
      if exhausted != [] {
        state, event, reason := BudgetExhausted, "budget_exhaust", "continuation_budget_exhausted";
      } else if report.outcome.Succeeded? {
        state, event, reason := Complete, "complete", "bounded_loop_complete_no_delivery";
      } else if Retryable(report.outcome) && attempt < budget.maxModelAttempts {
        state, event := ResultReady, "model_retry";
        reason := if report.safeError.Some? then report.safeError.value else "continuation_retry_available";
      } else {
        state, event := Failed, "model_fail";
        reason := if report.safeError.Some? then report.safeError.value else "continuation_failed";
      }
    }
  }
}
