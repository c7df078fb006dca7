/**
  What the bounded tool loop promises, said in plain sums and outcomes: the budget is
  cumulative in every dimension, and the report that goes over it ends the loop.
 */
module LoopLaws {
  import opened Wrappers
  import opened EvidenceLedger
  import opened ToolLoop

  // ---------------------------------------------------------------- the cumulative budget

  datatype Dimension = InputTokens | OutputTokens | TotalTokens | Cost | InputBytes | OutputBytes | WallTime

  function In(usage: Usage, d: Dimension): nat {
    match d
    case InputTokens => usage.inputTokens
    case OutputTokens => usage.outputTokens
    case TotalTokens => usage.totalTokens
    case Cost => usage.cost
    case InputBytes => usage.inputBytes
    case OutputBytes => usage.outputBytes
    case WallTime => usage.wallTime
  }

  function Sum(amounts: seq<nat>): nat {
    if amounts == [] then 0 else Sum(amounts[..|amounts| - 1]) + amounts[|amounts| - 1]
  }

  lemma SumSnoc(amounts: seq<nat>, last: nat)
    ensures Sum(amounts + [last]) == Sum(amounts) + last
  {
    assert (amounts + [last])[..|amounts|] == amounts;
  }

  lemma PlusAdds(a: Usage, b: Usage, d: Dimension)
    ensures In(Plus(a, b), d) == In(a, d) + In(b, d)
  {
  }

  function Planned(planner: seq<Attempt>, d: Dimension): seq<nat> {
    seq(|planner|, i requires 0 <= i < |planner| => In(planner[i].usage, d))
  }

  function Continued(continuations: seq<Continuation>, d: Dimension): seq<nat> {
    seq(|continuations|, k requires 0 <= k < |continuations| => In(continuations[k].report.usage, d))
  }

  /** All that was used in one dimension, by every planner attempt and every continuation. */
  function Spent(planner: seq<Attempt>, continuations: seq<Continuation>, d: Dimension): nat {
    Sum(Planned(planner, d)) + Sum(Continued(continuations, d))
  }

  lemma {:induction false} PlannerUsageIsASum(planner: seq<Attempt>, d: Dimension)
    ensures In(AttemptUsage(planner), d) == Sum(Planned(planner, d))
  {
    if planner != [] {
      var n := |planner| - 1;
      PlannerUsageIsASum(planner[..n], d);
      assert Planned(planner, d) == Planned(planner[..n], d) + [In(planner[n].usage, d)];
      SumSnoc(Planned(planner[..n], d), In(planner[n].usage, d));
      PlusAdds(AttemptUsage(planner[..n]), planner[n].usage, d);
    }
  }

  lemma {:induction false} ContinuationUsageIsASum(continuations: seq<Continuation>, d: Dimension)
    ensures In(ContinuationUsage(continuations), d) == Sum(Continued(continuations, d))
  {
    if continuations != [] {
      var n := |continuations| - 1;
      ContinuationUsageIsASum(continuations[..n], d);
      assert Continued(continuations, d)
             == Continued(continuations[..n], d) + [In(continuations[n].report.usage, d)];
      SumSnoc(Continued(continuations[..n], d), In(continuations[n].report.usage, d));
      PlusAdds(ContinuationUsage(continuations[..n]), continuations[n].report.usage, d);
    }
  }

  lemma TotalIsSpent(planner: seq<Attempt>, continuations: seq<Continuation>, d: Dimension)
    ensures In(Total(planner, continuations), d) == Spent(planner, continuations, d)
  {
    PlannerUsageIsASum(planner, d);
    ContinuationUsageIsASum(continuations, d);
    PlusAdds(AttemptUsage(planner), ContinuationUsage(continuations), d);
  }

  ghost predicate OverBudget(planner: seq<Attempt>, continuations: seq<Continuation>, limits: Usage) {
    exists d :: Spent(planner, continuations, d) > In(limits, d)
  }

  lemma WithinInEveryDimension(total: Usage, limits: Usage)
    ensures Within(total, limits) <==> forall d :: In(total, d) <= In(limits, d)
  {
    if forall d :: In(total, d) <= In(limits, d) {
      assert In(total, InputTokens) <= In(limits, InputTokens) && In(total, OutputTokens) <= In(limits, OutputTokens);
      assert In(total, TotalTokens) <= In(limits, TotalTokens) && In(total, Cost) <= In(limits, Cost);
      assert In(total, InputBytes) <= In(limits, InputBytes) && In(total, OutputBytes) <= In(limits, OutputBytes);
      assert In(total, WallTime) <= In(limits, WallTime);
    }
  }

  ghost predicate TotalOver(total: Usage, limits: Usage) {
    exists d :: In(total, d) > In(limits, d)
  }

  lemma OverIsTotalOver(planner: seq<Attempt>, continuations: seq<Continuation>, limits: Usage)
    ensures OverBudget(planner, continuations, limits) <==> TotalOver(Total(planner, continuations), limits)
  {
    var total := Total(planner, continuations);
    if d :| Spent(planner, continuations, d) > In(limits, d) {
      TotalIsSpent(planner, continuations, d);
      assert In(total, d) > In(limits, d);
    }
    if d :| In(total, d) > In(limits, d) {
      TotalIsSpent(planner, continuations, d);
      assert Spent(planner, continuations, d) > In(limits, d);
    }
  }

  lemma WithinIsNotOver(planner: seq<Attempt>, continuations: seq<Continuation>, limits: Usage)
    ensures Within(Total(planner, continuations), limits) <==> !OverBudget(planner, continuations, limits)
  {
    OverIsTotalOver(planner, continuations, limits);
    WithinInEveryDimension(Total(planner, continuations), limits);
  }

  /**
    In every reachable state: unless the loop is budget_exhausted, all planner attempts and
    all continuations together stay within the limit, in each of the seven dimensions.
   */
  lemma BudgetIsCumulative(loop: AgentToolLoop, d: Dimension)
    requires loop.Valid() && loop.continuations != [] && !loop.table.row.state.BudgetExhausted?
    ensures Spent(loop.planner, loop.continuations, d) <= In(loop.budget.usage, d)
  {
    WithinIsNotOver(loop.planner, loop.continuations, loop.budget.usage);
  }

  /** Attempts are bounded too, and no continuation but the first can come after the last attempt allowed. */
  lemma ContinuationsAreFew(loop: AgentToolLoop)
    requires loop.Valid()
    ensures |loop.continuations| <= 1 || |loop.continuations| <= loop.budget.maxModelAttempts - |loop.planner|
    ensures loop.continuations != [] && !loop.table.row.state.BudgetExhausted? ==>
              |loop.planner| + |loop.continuations| <= loop.budget.maxModelAttempts && 2 <= loop.budget.maxModelTurns
    ensures forall k :: 0 <= k < |loop.continuations| ==> loop.continuations[k].attempt == |loop.planner| + k + 1
  {
    forall k | 0 <= k < |loop.continuations| ensures loop.continuations[k].attempt == |loop.planner| + k + 1 {
      AttributedAt(loop.route, loop.planner, loop.continuations, k);
    }
  }

  /** While a result waits, every continuation so far failed in a way that can be tried again. */
  lemma WaitingMeansRetryable(loop: AgentToolLoop, k: nat)
    requires loop.Valid() && loop.table.row.state.ResultReady? && k < |loop.continuations|
    ensures loop.continuations[k].report.outcome in {ProviderError, InvalidOutput, TimedOut}
  {
  }

  // ---------------------------------------------------------------- what a report leads to

  /**
    Where a report leaves the loop.  Over any limit, in a single-turn or exhausted run or past
    the deadline it is budget_exhausted, whatever the outcome; else success completes it, a
    retryable failure with attempts left keeps the result waiting, and all else fails it.
   */
  lemma ReportDecides(
    row: LoopRow, planner: seq<Attempt>, continuations: seq<Continuation>, budget: Budget, around: Surroundings)
    requires continuations != []
    ensures var row' := Concluded(row, planner, continuations, budget, around);
            var outcome := continuations[|continuations| - 1].report.outcome;
            var attempts := |planner| + |continuations|;
            var over := OverBudget(planner, continuations, budget.usage) || budget.maxModelTurns < 2
                        || attempts > budget.maxModelAttempts || around.pastDeadline;
            && (row'.state.BudgetExhausted? <==> over)
            && (row'.state.Complete? <==> !over && outcome == Succeeded)
            && (row'.state.ResultReady? <==>
                  && !over && outcome in {ProviderError, InvalidOutput, TimedOut}
                  && attempts < budget.maxModelAttempts)
            && (row'.state.Failed? <==>
                  && !over && outcome != Succeeded
                  && (outcome == Refused || attempts == budget.maxModelAttempts))
            && row'.version == row.version + 1 && row'.data.result == row.data.result
            && row'.data.terminalAt == if row'.state.ResultReady? then None else Some(around.now)
  {
    WithinIsNotOver(planner, continuations, budget.usage);
  }

  /** What a refresh does to a pending loop: one of four things, each exactly when it should. */
  lemma RefreshDecides(row: LoopRow, budget: Budget, invocation: Invocation, now: Time)
    requires row.state.ToolPending? && LoopCheck(row)
    ensures var row' := Refreshed(row, budget, invocation, now);
            var fetched := invocation.state == "succeeded" && invocation.output.Some?;
            && (row'.state.ResultReady? <==> fetched && invocation.output.value.bytes <= budget.maxResultBytes)
            && (row'.state.BudgetExhausted? <==> fetched && invocation.output.value.bytes > budget.maxResultBytes)
            && (row'.state.Failed? <==> invocation.state != "succeeded" && invocation.terminal)
            && (row'.state.ToolPending? <==> row' == row)
            && (row'.data.result.Some? <==> row'.state.ResultReady?)
            && (row'.state.ResultReady? ==> row'.data.result == invocation.output)
            && (row' != row ==> row'.version == row.version + 1)
            && (row' != row && !row'.state.ResultReady? ==> row'.data.terminalAt == Some(now))
  {
  }

  // ---------------------------------------------------------------- the row

  /** A terminal loop never changes again, and no loop goes back to waiting for its tool. */
  lemma {:induction false} TerminalLoopIsFinal(tables: seq<Table<LoopState, LoopData, LoopDetail>>, i: nat, j: nat)
    requires Run(LoopRule, tables) && i <= j < |tables|
    ensures tables[i].row.state in {Complete, Failed, BudgetExhausted} ==> tables[j].row == tables[i].row
    ensures tables[i].row.state == ResultReady ==> tables[j].row.state != ToolPending
  {
    if i < j {
      TerminalLoopIsFinal(tables, i, j - 1);
      assert Step(LoopRule, tables[j - 1], tables[j]);
    }
  }

  /** What a loop holds in each state, at every version it went through, and that a result once there stays. */
  lemma LoopHistoryIsChecked(loop: AgentToolLoop, i: nat, j: nat)
    requires loop.Valid() && i <= j < |loop.table.history|
    ensures var before, after := loop.table.history[i], loop.table.history[j];
            && (before.state == ToolPending ==> before.data.result.None?)
            && (before.state == ResultReady ==> before.data.result.Some?)
            && (before.data.terminalAt.Some? <==> before.state in {Complete, Failed, BudgetExhausted})
            && (before.data.result.Some? ==> after.data.result == before.data.result)
            && (after.data.result.Some? && j + 1 == |loop.table.history| ==>
                  after.data.result.value.bytes <= loop.budget.maxResultBytes)
  {
    assert LoopCheck(loop.table.history[i]);
    if i < j && loop.table.history[i].data.result.Some? {
      assert loop.table.history[j].data.result == loop.table.history[i].data.result;
    }
  }

  /** No provider's key is ever recorded twice. */
  lemma KeysAreUsedOnce(loop: AgentToolLoop, i: nat, j: nat)
    requires loop.Valid() && i < j < |loop.continuations|
    ensures loop.continuations[i].provider != loop.continuations[j].provider
            || loop.continuations[i].key != loop.continuations[j].key
  {
    assert !Bears(loop.continuations[i], loop.continuations[j].provider, loop.continuations[j].key);
  }
}
