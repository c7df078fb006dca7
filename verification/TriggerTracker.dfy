/**
  Response attribution across the per-chat task scheduler.  A conversation carries four
  slots that mirror the scheduler; they turn out to be a three-field machine: the task
  token last presented, the source bound to it, and the latest source not bound yet.
 */
module TriggerTracker {
  import opened Wrappers

  type Source = string
  type Token = int
  type Conversation = (string, string)

  // ---------------------------------------------------------------- the machine refined

  datatype Machine = Machine(token: Option<Token>, bound: Option<Source>, unbound: Option<Source>)

  const IDLE: Machine := Machine(None, None, None)

  function Present(m: Machine, token: Option<Token>): Machine {
    if token.None? then Machine(None, None, m.unbound)
    else if m.token == token then m
    else Machine(token, m.unbound, None)
  }

  function Remembered(m: Machine, source: Source, token: Option<Token>): Machine {
    var p := Present(m, token);
    if p.bound == Some(source) then p else p.(unbound := Some(source))
  }

  /** A forgotten source is bound to nothing and waits for nothing, and nothing else is lost. */
  lemma ForgottenIsGone(m: Machine, source: Source)
    ensures var f := Forgotten(m, source);
            && f.token == m.token && f.bound != Some(source) && f.unbound != Some(source)
            && (m.bound != Some(source) ==> f.bound == m.bound)
            && (m.unbound != Some(source) ==> f.unbound == m.unbound)
  {
  }

  function Forgotten(m: Machine, source: Source): Machine {
    m.(bound := if m.bound == Some(source) then None else m.bound,
       unbound := if m.unbound == Some(source) then None else m.unbound)
  }

  /** What reaches one conversation; sources are never empty. */
  datatype Op = Remember(source: Source, token: Option<Token>) | Observe(token: Option<Token>)

  function Apply(m: Machine, op: Op): Machine {
    match op
    case Remember(source, token) => Remembered(m, source, token)
    case Observe(token) => Present(m, token)
  }

  function After(ops: seq<Op>): Machine {
    if ops == [] then IDLE else Apply(After(ops[..|ops| - 1]), ops[|ops| - 1])
  }

  lemma AfterOneMore(ops: seq<Op>, op: Op)
    ensures After(ops + [op]) == Apply(After(ops), op)
  {
    assert (ops + [op])[..|ops|] == ops;
  }

  // ---------------------------------------------------------------- the four slots

  function Noted(ops: Option<seq<Op>>, op: Op): Option<seq<Op>> {
    match ops
    case Some(earlier) => Some(earlier + [op])
    case None => None
  }

  class TriggerState {
    var token: Option<Token>
    var current: Option<Source>
    var next: Option<Source>
    var pending: Option<Source>
    var updatedAt: real
    /** All that reached the entry since it was made, unless a source was forgotten meanwhile. */
    ghost var ops: Option<seq<Op>>

    constructor (now: real)
      ensures Valid() && View() == IDLE && updatedAt == now && ops == Some([])
    {
      token, current, next, pending := None, None, None, None;
      updatedAt := now;
      ops := Some([]);
    }

    /** Idle, only `next` can hold a source; with a task, `next` is empty. */
    ghost predicate Shaped()
      reads this
    {
      if token.None? then current.None? && pending.None? else next.None?
    }

    ghost predicate Valid()
      reads this
    {
      Shaped() && (ops.Some? ==> View() == After(ops.value))
    }

    ghost method Note(op: Op, before: Machine)
      requires Shaped() && View() == Apply(before, op) && (ops.Some? ==> before == After(ops.value))
      modifies this`ops
      ensures Valid() && ops == Noted(old(ops), op)
    {
      if ops.Some? {
        AfterOneMore(ops.value, op);
        ops := Some(ops.value + [op]);
      }
    }

    ghost method Unnote()
      requires Shaped()
      modifies this`ops
      ensures Valid() && ops == None
    {
      ops := None;
    }

    ghost function View(): Machine
      reads this
    {
      Machine(token, current, if token.None? then next else pending)
    }

    method TransitionTask(task: Token)
      requires Shaped()
      modifies this`token, this`current, this`next, this`pending
      ensures Shaped() && View() == Present(old(View()), Some(task))
    {
      if token == Some(task) {
        return;
      }
      if token.None? {
        current := next;
        next := None;
      } else {
        current := pending;
        pending := None;
      }
      token := Some(task);
    }

    method Close()
      requires Shaped()
      modifies this`token, this`current, this`next, this`pending
      ensures Shaped() && View() == Present(old(View()), None)
    {
      token := None;
      current := None;
      if pending.Some? {
        next := pending;
        pending := None;
      }
    }

    method Remember(source: Source, task: Option<Token>)
      requires Shaped()
      modifies this`token, this`current, this`next, this`pending
      ensures Shaped() && View() == Remembered(old(View()), source, task)
    {
      if task.None? {
        Close();
        if next != Some(source) {
          next := Some(source);
        }
        return;
      }
      if token.None? {
        token := task;
        current := next;
        next := None;
        if current == Some(source) {
          return;
        }
      } else if token != task {
        TransitionTask(task.value);
      }
      if Some(source) == current || Some(source) == pending {
        return;
      }
      pending := Some(source);
    }

    method Forget(source: Source)
      requires Shaped()
      modifies this`current, this`next, this`pending
      ensures Shaped() && View() == Forgotten(old(View()), source)
    {
      if current == Some(source) {
        current := None;
      }
      if next == Some(source) {
        next := None;
      }
      if pending == Some(source) {
        pending := None;
      }
    }
  }

  // ---------------------------------------------------------------- the bounded table

  class ResponseTriggerTracker {
    const maxEntries: nat
    const ttl: real
    var states: map<Conversation, TriggerState>

    ghost predicate Valid()
      reads this, states.Values
    {
      && 1 <= maxEntries
      && |states| <= maxEntries
      && (forall c :: c in states ==> states[c].Valid())
      && (forall c, d :: c in states && d in states && c != d ==> states[c] != states[d])
    }

    constructor (maxEntries: nat, ttl: real)
      requires 1 <= maxEntries
      ensures Valid() && states == map[] && this.maxEntries == maxEntries && this.ttl == ttl
    {
      this.maxEntries := maxEntries;
      this.ttl := ttl;
      states := map[];
    }

    /** A conversation without an entry behaves as an idle one. */
    ghost function At(c: Conversation): Machine
      reads this, states.Values
    {
      if c in states then states[c].View() else IDLE
    }

    /** Does the entry outlive a prune at `now`?  The one asked about is kept while it still runs `task`. */
    predicate Survives(state: TriggerState, asked: bool, now: real, task: Option<Token>)
      reads state
    {
      now - state.updatedAt <= ttl || (asked && task.Some? && state.token == task)
    }

    /** Whether there is an entry that is young enough, or still running the task. */
    ghost predicate Lives(c: Conversation, now: real, task: Option<Token>)
      reads this, states.Values
    {
      c in states && (now <= states[c].updatedAt + ttl || (task.Some? && states[c].token == task))
    }

    /** What conversation `c` looks like once expired entries are gone. */
    ghost function Surviving(c: Conversation, now: real, task: Option<Token>): Machine
      reads this, states.Values
    {
      if Lives(c, now, task) then states[c].View() else IDLE
    }

    /** What reached it since its entry was made. */
    ghost function History(c: Conversation, now: real, task: Option<Token>): Option<seq<Op>>
      reads this, states.Values
    {
      if Lives(c, now, task) then states[c].ops else Some([])
    }

    /**
      Every other entry: untouched, or gone because it expired or, when a new entry had to be
      made, because it was the oldest of a full table.
     */
    twostate predicate OthersKept(
      c: Conversation, now: real, creating: bool, new table: map<Conversation, TriggerState>)
      reads this, table.Values
    {
      && (forall d :: d in table && d != c ==>
            && d in old(states) && table[d] == old(states)[d] && unchanged(table[d])
            && now <= table[d].updatedAt + ttl)
      && (forall d :: d in old(states) && d != c && d !in table ==>
            || now - old(states[d].updatedAt) > ttl
            || (&& creating && |table| == maxEntries
                && (forall e :: e in table && e != c ==> old(states[d].updatedAt) <= table[e].updatedAt)))
    }

    method Prune(now: real, c: Conversation, task: Option<Token>)
      requires Valid()
      modifies this`states
      ensures Valid()
      ensures forall d :: d in states <==>
                && d in old(states)
                && (now <= old(states)[d].updatedAt + ttl || (d == c && task.Some? && old(states)[d].token == task))
      ensures forall d :: d in states ==> states[d] == old(states)[d]
    {
      states := map d | d in states && Survives(states[d], d == c, now, task) :: states[d];
      assert states.Keys <= old(states).Keys;
      SubsetIsSmaller(states.Keys, old(states).Keys);
    }

    method EvictOldest()
      requires Valid() && states != map[]
      modifies this`states
      ensures Valid() && |states| == |old(states)| - 1
      ensures exists d :: d in old(states) && states == old(states) - {d}
                && forall e :: e in states ==> old(states)[d].updatedAt <= states[e].updatedAt
    {
      var oldest :| oldest in states;
      var todo := states.Keys;
      while todo != {}
        invariant todo <= states.Keys && oldest in states
        invariant forall e :: e in states && e !in todo ==> states[oldest].updatedAt <= states[e].updatedAt
        decreases todo
      {
        var e :| e in todo;
        if states[e].updatedAt < states[oldest].updatedAt {
          oldest := e;
        }
        todo := todo - {e};
      }
      assert states.Keys - {oldest} == (states - {oldest}).Keys;
      states := states - {oldest};
    }

    /** A new entry, for which the oldest one makes room if it must. */
    method Create(c: Conversation, now: real) returns (state: TriggerState)
      requires Valid() && c !in states
      modifies this`states
      ensures Valid() && fresh(state) && state.View() == IDLE && state.updatedAt == now && state.ops == Some([])
      ensures c in states && states[c] == state
      ensures forall d :: d in states && d != c ==> d in old(states) && states[d] == old(states)[d]
      ensures forall d :: d in old(states) && d !in states ==>
                && |states| == maxEntries
                && (forall e :: e in states && e != c ==> old(states)[d].updatedAt <= states[e].updatedAt)
    {
      if |states| >= maxEntries {
        EvictOldest();
      }
      state := new TriggerState(now);
      states := states[c := state];
    }

    /** The entry of `c`, refreshed; created if asked for and absent. */
    method State(c: Conversation, now: real, create: bool, task: Option<Token>) returns (state: TriggerState?)
      requires Valid()
      modifies this`states, states.Values
      ensures Valid()
      ensures state != null <==> create || old(Lives(c, now, task))
      ensures state != null ==> c in states && states[c] == state && state.updatedAt == now
      ensures state != null ==> state.View() == old(Surviving(c, now, task))
      ensures state != null ==> state.ops == old(History(c, now, task))
      ensures state != null ==> state in old(states.Values) || fresh(state)
      ensures state == null ==> c !in states
      ensures OthersKept(c, now, create, states)
    {
      Prune(now, c, task);
      state := Fetch(c, now, create);
    }

    /** The entry that is there, refreshed, or a new one. */
    method Fetch(c: Conversation, now: real, create: bool) returns (state: TriggerState?)
      requires Valid()
      modifies this`states, states.Values
      ensures Valid()
      ensures state != null <==> create || c in old(states)
      ensures state == null ==> states == old(states)
      ensures state != null ==> c in states && states[c] == state && state.updatedAt == now
      ensures state != null ==> state.View() == old(At(c))
      ensures state != null ==> state.ops == if c in old(states) then old(states[c].ops) else Some([])
      ensures state != null ==> state in old(states.Values) || fresh(state)
      ensures forall d :: d in states && d != c ==>
                d in old(states) && states[d] == old(states)[d] && unchanged(states[d])
      ensures forall d :: d in old(states) && d !in states ==>
                && d != c && create && |states| == maxEntries
                && (forall e :: e in states && e != c ==> old(states[d].updatedAt) <= states[e].updatedAt)
    {
      if c in states {
        state := states[c];
        state.updatedAt := now;
      } else if create {
        state := Create(c, now);
      } else {
        state := null;
      }
    }

    method Remember(c: Conversation, source: Source, task: Option<Token>, now: real)
      requires Valid()
      modifies this`states, states.Values
      ensures Valid()
      ensures source == "" ==> states == old(states) && forall d :: d in states ==> unchanged(states[d])
      ensures source != "" ==>
                && c in states && states[c].updatedAt == now
                && At(c) == Remembered(old(Surviving(c, now, task)), source, task)
                && states[c].ops == Noted(old(History(c, now, task)), Op.Remember(source, task))
                && OthersKept(c, now, true, states)
    {
      if source == "" {
        return;
      }
      var state := State(c, now, true, task);
      ghost var before := state.View();
      state.Remember(source, task);
      state.Note(Op.Remember(source, task), before);
    }

    method ObserveTask(c: Conversation, task: Option<Token>, now: real) returns (source: Option<Source>)
      requires Valid()
      modifies this`states, states.Values
      ensures Valid()
      ensures At(c) == Present(old(Surviving(c, now, task)), task)
      ensures task.None? && c in states ==> c in old(states)
      ensures c in states ==> states[c].ops == Noted(old(History(c, now, task)), Observe(task))
      ensures source == At(c).bound
      ensures OthersKept(c, now, task.Some?, states)
    {
      var state := State(c, now, task.Some?, task);
      if state == null {
        return None;
      }
      ghost var before := state.View();
      if task.None? {
        state.Close();
        state.Note(Observe(None), before);
        return None;
      }
      state.TransitionTask(task.value);
      state.Note(Observe(task), before);
      return state.current;
    }

    method SourceForResponse(c: Conversation, task: Option<Token>, now: real) returns (source: Option<Source>)
      requires Valid()
      modifies this`states, states.Values
      ensures Valid()
      ensures task.None? ==> source == None && states == old(states) && forall d :: d in states ==> unchanged(states[d])
      ensures task.Some? ==>
                && source == At(c).bound
                && At(c) == Present(old(Surviving(c, now, task)), task)
                && OthersKept(c, now, true, states)
    {
      if task.None? {
        return None;
      }
      source := ObserveTask(c, task, now);
    }

    method Forget(c: Conversation, source: Source, now: real)
      requires Valid()
      modifies this`states, states.Values
      ensures Valid()
      ensures source == "" ==> states == old(states) && forall d :: d in states ==> unchanged(states[d])
      ensures source != "" ==>
                && At(c) == Forgotten(old(Surviving(c, now, None)), source)
                && (At(c) == IDLE ==> c !in states)
                && OthersKept(c, now, false, states)
    {
      if source == "" {
        return;
      }
      var empty := Clear(c, source, now);
      if empty {
        Drop(c);
      }
    }

    /** Clear the source from the conversation's entry, if it has one, and see whether anything is left in it. */
    method Clear(c: Conversation, source: Source, now: real) returns (empty: bool)
      requires Valid()
      modifies this`states, states.Values
      ensures Valid()
      ensures At(c) == Forgotten(old(Surviving(c, now, None)), source)
      ensures empty <==> c in states && At(c) == IDLE
      ensures OthersKept(c, now, false, states)
    {
      var state := State(c, now, false, None);
      if state == null {
        return false;
      }
      state.Forget(source);
      state.Unnote();
      return state.token.None? && state.current.None? && state.next.None? && state.pending.None?;
    }

    method Drop(c: Conversation)
      requires Valid() && c in states
      modifies this`states
      ensures Valid() && states == old(states) - {c}
    {
      states := states - {c};
      SubsetIsSmaller(states.Keys, old(states).Keys);
    }

    /**
      What a conversation is attributed to, read off everything that reached it since its
      entry was made: the source bound to its task is the last one remembered since the
      previous binding that differed from the one then in force.
     */
    lemma AttributedByHistory(c: Conversation)
      requires Valid() && c in states && states[c].ops.Some? && states[c].ops.value != []
      ensures var ops := states[c].ops.value; var last := |ops| - 1;
              At(c) == Machine(ops[last].token, Bound(ops, last),
                               LastDiffering(ops, LastBinding(ops, last + 1), last + 1))
    {
      var ops := states[c].ops.value;
      AttributionIsHistory(ops, |ops| - 1);
      assert ops[..|ops|] == ops;
    }

    /** An entry lives for the time to live after its last use, and for its task however long that runs. */
    lemma LivesForItsTime(c: Conversation, now: real, task: Option<Token>)
      requires c in states
      ensures now - states[c].updatedAt <= ttl ==> Surviving(c, now, task) == At(c)
      ensures task.Some? && states[c].token == task ==> Surviving(c, now, task) == At(c)
      ensures now - states[c].updatedAt > ttl && (task.None? || states[c].token != task) ==>
                Surviving(c, now, task) == IDLE
    {
    }
  }

  // ---------------------------------------------------------------- attribution in closed form

  /** Operation `i` presents a task token that was not there before. */
  predicate Binds(ops: seq<Op>, i: nat)
    requires i < |ops|
  {
    ops[i].token.Some? && (i == 0 || ops[i - 1].token != ops[i].token)
  }

  /** Where the latest binding before `i` happened; 0 if there was none. */
  function LastBinding(ops: seq<Op>, i: nat): (b: nat)
    requires i <= |ops|
    ensures b <= i && (i > 0 ==> b < i)
    ensures forall k :: b < k < i ==> !Binds(ops, k)
    ensures b < i ==> b == 0 || Binds(ops, b)
  {
    if i == 0 then 0 else if i == 1 || Binds(ops, i - 1) then i - 1 else LastBinding(ops, i - 1)
  }

  /** The source in force after operation `i`, read off the history. */
  function Bound(ops: seq<Op>, i: nat): Option<Source>
    requires i < |ops|
    decreases i, 1
  {
    if ops[i].token.None? then None
    else if Binds(ops, i) then LastDiffering(ops, LastBinding(ops, i), i)
    else Bound(ops, i - 1)
  }

  /** Operation `k` remembered a source other than the one then in force. */
  predicate Counts(ops: seq<Op>, k: nat)
    requires k < |ops|
    decreases k, 2
  {
    ops[k].Remember? && Bound(ops, k) != Some(ops[k].source)
  }

  /** The last such source in [lo, hi). */
  function LastDiffering(ops: seq<Op>, lo: nat, hi: nat): (r: Option<Source>)
    requires lo <= hi <= |ops|
    ensures r.None? ==> forall k :: lo <= k < hi ==> !Counts(ops, k)
    ensures r.Some? ==> exists k :: lo <= k < hi && Counts(ops, k) && ops[k].source == r.value
                          && forall m :: k < m < hi ==> !Counts(ops, m)
    decreases hi, 0
  {
    if lo == hi then None
    else if Counts(ops, hi - 1) then Some(ops[hi - 1].source)
    else LastDiffering(ops, lo, hi - 1)
  }

  /**
    The three-field machine computes exactly what the history says: a newly presented task
    gets the last source remembered since the previous binding that differed from the one
    then in force, and keeps it until another token, or idle, is presented.
   */
  lemma {:induction false} AttributionIsHistory(ops: seq<Op>, i: nat)
    requires i < |ops|
    ensures After(ops[..i + 1])
            == Machine(ops[i].token, Bound(ops, i), LastDiffering(ops, LastBinding(ops, i + 1), i + 1))
  {
    var before := ops[..i + 1][..i];
    assert before == ops[..i];
    if i > 0 {
      AttributionIsHistory(ops, i - 1);
    }
  }
}
