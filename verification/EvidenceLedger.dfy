/**
  The pattern every guarded table of Core follows: a row whose updates a trigger admits only
  with the next version number and a matching event, and events that can be added but never
  changed.  Stated once, for any states, columns and extra conditions.
 */
module EvidenceLedger {
  import opened Wrappers

  datatype Row<S, D> = Row(state: S, version: nat, data: D)

  datatype Evidence<S, X> = Evidence(previous: Option<S>, state: S, detail: X)

  /** What a table's own trigger and CHECK constraints ask beyond version and event. */
  type Rule<!S, !D, !X> = (Row<S, D>, Row<S, D>, Evidence<S, X>) -> bool

  datatype Table<S, D, X> = Table(row: Row<S, D>, events: map<nat, Evidence<S, X>>)

  predicate Admits<S(==), D, X>(
    rule: Rule<S, D, X>, before: Row<S, D>, after: Row<S, D>, events: map<nat, Evidence<S, X>>)
  {
    && after.version == before.version + 1
    && after.version in events
    && events[after.version].previous == Some(before.state)
    && events[after.version].state == after.state
    && rule(before, after, events[after.version])
  }

  /** A row is inserted at version 1 together with its first event. */
  ghost predicate Started<S, D, X>(t: Table<S, D, X>) {
    t.row.version == 1 && 1 in t.events && t.events[1].state == t.row.state
  }

  /** One statement: add an event under a free number, or update the row past the trigger. */
  ghost predicate Step<S, D, X>(rule: Rule<S, D, X>, t: Table<S, D, X>, t': Table<S, D, X>) {
    || (exists n :: n !in t.events && n in t'.events && t' == t.(events := t.events[n := t'.events[n]]))
    || (t'.events == t.events && Admits(rule, t.row, t'.row, t.events))
    || t' == t
  }

  ghost predicate Run<S, D, X>(rule: Rule<S, D, X>, tables: seq<Table<S, D, X>>) {
    && tables != []
    && Started(tables[0])
    && forall i :: 0 <= i < |tables| - 1 ==> Step(rule, tables[i], tables[i + 1])
  }

  /** The versions the row went through, each admitted by an event that is still there. */
  ghost predicate Evidenced<S, D, X>(rule: Rule<S, D, X>, t: Table<S, D, X>, history: seq<Row<S, D>>) {
    && |history| == t.row.version
    && 1 <= |history|
    && history[|history| - 1] == t.row
    && history[0].version == 1
    && 1 in t.events && t.events[1].state == history[0].state
    && forall i :: 1 <= i < |history| ==> Admits(rule, history[i - 1], history[i], t.events)
  }

  lemma StepKeepsEvidence<S, D, X>(
    rule: Rule<S, D, X>, t: Table<S, D, X>, history: seq<Row<S, D>>, t': Table<S, D, X>)
    returns (history': seq<Row<S, D>>)
    requires Evidenced(rule, t, history) && Step(rule, t, t')
    ensures Evidenced(rule, t', history') && history <= history'
  {
    history' := if t'.events == t.events && Admits(rule, t.row, t'.row, t.events) then history + [t'.row] else history;
    forall i | 1 <= i < |history'| ensures Admits(rule, history'[i - 1], history'[i], t'.events) {
      if i < |history| {
        assert Admits(rule, history[i - 1], history[i], t.events);
      }
    }
  }

  lemma {:induction false} RunIsEvidenced<S, D, X>(rule: Rule<S, D, X>, tables: seq<Table<S, D, X>>, i: nat)
    returns (history: seq<Row<S, D>>)
    requires Run(rule, tables) && i < |tables|
    ensures Evidenced(rule, tables[i], history) && history[0] == tables[0].row
  {
    if i == 0 {
      history := [tables[0].row];
    } else {
      var earlier := RunIsEvidenced(rule, tables, i - 1);
      history := StepKeepsEvidence(rule, tables[i - 1], earlier, tables[i]);
    }
  }

  lemma {:induction false} VersionsAreNumbered<S, D, X>(
    rule: Rule<S, D, X>, t: Table<S, D, X>, history: seq<Row<S, D>>, i: nat)
    requires Evidenced(rule, t, history) && i < |history|
    ensures history[i].version == i + 1
    ensures i + 1 in t.events && t.events[i + 1].state == history[i].state
  {
    if i > 0 {
      VersionsAreNumbered(rule, t, history, i - 1);
      assert Admits(rule, history[i - 1], history[i], t.events);
    }
  }

  ghost predicate EvidenceChain<S, D, X>(t: Table<S, D, X>) {
    && 1 <= t.row.version
    && (forall v :: 1 <= v <= t.row.version ==> v in t.events)
    && (forall v :: 2 <= v <= t.row.version ==> t.events[v].previous == Some(t.events[v - 1].state))
    && t.events[t.row.version].state == t.row.state
  }

  /**
    The evidence-ledger theorem: in every reachable state of every guarded table the events
    2..version are there, each starts where the one before it ended, and the row is in the
    state the event at its version names.
   */
  lemma EvidenceIsAChain<S, D, X>(rule: Rule<S, D, X>, tables: seq<Table<S, D, X>>, i: nat)
    requires Run(rule, tables) && i < |tables|
    ensures EvidenceChain(tables[i]) && tables[i].events[1].state == tables[0].row.state
  {
    var t := tables[i];
    var history := RunIsEvidenced(rule, tables, i);
    forall v | 1 <= v <= t.row.version
      ensures v in t.events && (2 <= v ==> v - 1 in t.events && t.events[v].previous == Some(t.events[v - 1].state))
    {
      VersionsAreNumbered(rule, t, history, v - 1);
      if 2 <= v {
        VersionsAreNumbered(rule, t, history, v - 2);
        assert Admits(rule, history[v - 2], history[v - 1], t.events);
      }
    }
    VersionsAreNumbered(rule, t, history, t.row.version - 1);
    VersionsAreNumbered(rule, t, history, 0);
  }

  /** What holds of a fresh row and survives every admitted update holds of every reachable row. */
  lemma {:induction false} LedgerInduction<S(!new), D(!new), X(!new)>(
    rule: Rule<S, D, X>, holds: Row<S, D> -> bool, tables: seq<Table<S, D, X>>, i: nat)
    requires Run(rule, tables) && i < |tables| && holds(tables[0].row)
    requires forall before: Row<S, D>, after: Row<S, D>, event: Evidence<S, X> ::
               (&& holds(before) && after.version == before.version + 1
                && event.previous == Some(before.state) && event.state == after.state
                && rule(before, after, event)) ==> holds(after)
    ensures holds(tables[i].row)
  {
    if i > 0 {
      LedgerInduction(rule, holds, tables, i - 1);
      assert Step(rule, tables[i - 1], tables[i]);
      if Admits(rule, tables[i - 1].row, tables[i].row, tables[i - 1].events) {
        var event := tables[i - 1].events[tables[i].row.version];
        assert rule(tables[i - 1].row, tables[i].row, event);
      }
    }
  }

  /** The table itself: one row, its events and the triggers in front of them. */
  class GuardedTable<S(==), D(==), X> {
    const rule: Rule<S, D, X>
    /** Some triggers have a WHEN clause and let an update that changes nothing through. */
    const skipsUnchanged: bool
    var row: Row<S, D>
    var events: map<nat, Evidence<S, X>>
    ghost var history: seq<Row<S, D>>

    ghost function View(): Table<S, D, X>
      reads this
    {
      Table(row, events)
    }

    ghost predicate Valid()
      reads this
    {
      Evidenced(rule, View(), history)
    }

    constructor (rule: Rule<S, D, X>, skipsUnchanged: bool, state: S, data: D, first: Evidence<S, X>)
      requires first.state == state
      ensures Valid() && Started(View())
      ensures this.rule == rule && this.skipsUnchanged == skipsUnchanged
      ensures row == Row(state, 1, data) && events == map[1 := first] && history == [row]
    {
      this.rule := rule;
      this.skipsUnchanged := skipsUnchanged;
      row := Row(state, 1, data);
      events := map[1 := first];
      history := [Row(state, 1, data)];
    }

    /** Sequence numbers are unique; events are never changed. */
    method Append(n: nat, event: Evidence<S, X>) returns (accepted: bool)
      requires Valid()
      modifies this`events
      ensures Valid() && Step(rule, old(View()), View())
      ensures accepted <==> 1 <= n && n !in old(events)
      ensures events == if accepted then old(events)[n := event] else old(events)
    {
      if n < 1 || n in events {
        return false;
      }
      events := events[n := event];
      assert forall i :: 1 <= i < |history| ==> Admits(rule, history[i - 1], history[i], old(events));
      return true;
    }

    method Update(next: Row<S, D>) returns (accepted: bool)
      requires Valid()
      modifies this`row, this`history
      ensures Valid() && Step(rule, old(View()), View())
      ensures accepted <==> Admits(rule, old(row), next, events) || (skipsUnchanged && next == old(row))
      ensures row == if accepted then next else old(row)
      ensures history == if row == old(row) then old(history) else old(history) + [row]
    {
      if skipsUnchanged && next == row {
        return true;
      }
      if next.version != row.version + 1 || next.version !in events {
        return false;
      }
      var event := events[next.version];
      if event.previous != Some(row.state) || event.state != next.state || !rule(row, next, event) {
        return false;
      }
      history := history + [next];
      row := next;
      return true;
    }
  }
}
