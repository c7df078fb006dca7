/**
  The bounds on guarded rows are tight: what the triggers are there to let through, they let
  through.  Any row of versions that satisfies a table's rule step by step is reached by a run
  of statements, and the longest lives the tables allow are such rows.
 */
module GuardedLives {
  import opened Wrappers
  import opened EvidenceLedger
  import opened GuardedTables

  /** The row goes through these versions, each with its own event. */
  ghost predicate Lawful<S, D, X>(rule: Rule<S, D, X>, rows: seq<Row<S, D>>, details: seq<X>) {
    && rows != [] && |details| == |rows|
    && (forall k :: 0 <= k < |rows| ==> rows[k].version == k + 1)
    && forall k :: 1 <= k < |rows| ==> Follows(rule, rows[k - 1], rows[k], details[k])
  }

  ghost predicate Follows<S, D, X>(rule: Rule<S, D, X>, before: Row<S, D>, after: Row<S, D>, detail: X) {
    rule(before, after, Evidence(Some(before.state), after.state, detail))
  }

  ghost predicate Reached<S, D, X>(
    rule: Rule<S, D, X>, tables: seq<Table<S, D, X>>, rows: seq<Row<S, D>>)
  {
    && rows != []
    && Run(rule, tables) && tables[0].row == rows[0] && tables[|tables| - 1].row == rows[|rows| - 1]
    && NumberedUpTo(tables[|tables| - 1].events, |rows|)
  }

  ghost predicate NumberedUpTo<E>(events: map<nat, E>, last: nat) {
    forall n :: n in events ==> n <= last
  }

  /** Insert the next event, then update the row. */
  lemma OneVersionMore<S, D, X>(
    rule: Rule<S, D, X>, tables: seq<Table<S, D, X>>, rows: seq<Row<S, D>>, next: Row<S, D>, detail: X)
    returns (longer: seq<Table<S, D, X>>)
    requires Reached(rule, tables, rows) && rows[|rows| - 1].version == |rows| && next.version == |rows| + 1
    requires Follows(rule, rows[|rows| - 1], next, detail)
    ensures Reached(rule, longer, rows + [next])
  {
    var t := tables[|tables| - 1];
    var event := Evidence(Some(t.row.state), next.state, detail);
    var inserted := t.(events := t.events[next.version := event]);
    var updated := inserted.(row := next);
    assert Admits(rule, inserted.row, updated.row, inserted.events);
    assert Step(rule, t, inserted) && Step(rule, inserted, updated);
    longer := tables + [inserted, updated];
    forall i | 0 <= i < |longer| - 1 ensures Step(rule, longer[i], longer[i + 1]) {
      if i < |tables| - 1 {
        assert Step(rule, tables[i], tables[i + 1]);
      }
    }
  }

  lemma {:induction false} LawfulIsReached<S, D, X>(rule: Rule<S, D, X>, rows: seq<Row<S, D>>, details: seq<X>)
    returns (tables: seq<Table<S, D, X>>)
    requires Lawful(rule, rows, details)
    ensures Reached(rule, tables, rows)
  {
    var n := |rows| - 1;
    if n == 0 {
      tables := [Table(rows[0], map[1 := Evidence(None, rows[0].state, details[0])])];
    } else {
      var shorter := LawfulIsReached(rule, rows[..n], details[..n]);
      assert Follows(rule, rows[n - 1], rows[n], details[n]);
      tables := OneVersionMore(rule, shorter, rows[..n], rows[n], details[n]);
      assert rows[..n] + [rows[n]] == rows;
    }
  }

  // ---------------------------------------------------------------- the lives

  /** Each of the three decisions can be taken, at any time. */
  lemma EveryDecisionIsPossible(decision: ConfirmationState, at: Time)
    returns (tables: seq<Table<ConfirmationState, Confirmation, ConfirmationDetail>>)
    requires !decision.Awaiting?
    ensures Run(ConfirmationRule, tables) && tables[|tables| - 1].row.state == decision
    ensures tables[0].row.state.Awaiting? && ConfirmationCheck(tables[0].row)
    ensures tables[|tables| - 1].row.data.updatedAt == at
  {
    var mine := (s: ConfirmationState) => if s == decision then Some(at) else None;
    var first := Row(Awaiting, 1, Confirmation(None, None, None, at));
    var last := Row(decision, 2, Confirmation(mine(Consumed), mine(Rejected), mine(Expired), at));
    var kind := match decision case Consumed => Approve case Rejected => Reject case _ => Expire;
    var details := [ConfirmationDetail(Create, at), ConfirmationDetail(kind, at)];
    assert Follows(ConfirmationRule, first, last, details[1]);
    tables := LawfulIsReached(ConfirmationRule, [first, last], details);
  }

  /** An artifact can be uploaded, finalized, referenced and cleaned up: six versions, as many as there can be. */
  lemma SixVersionsOfAnArtifact(maxBytes: int, at: Time)
    returns (tables: seq<Table<ArtifactState, Artifact, ArtifactDetail>>)
    requires 1 <= maxBytes
    ensures Run(ArtifactRule, tables) && FreshArtifact(tables[0].row)
    ensures var last := tables[|tables| - 1].row;
            last.version == 6 && last.state.Finalized? && last.data.content.Some? && last.data.bytes == Some(maxBytes)
  {
    var a := Artifact("p", 0, maxBytes, None, None, None, None, None, None, None, None, None, None, at);
    var b := a.(content := Some("hash"), bytes := Some(maxBytes), width := Some(1), height := Some(1));
    var c := b.(storage := Some("blob"), finalizedAt := Some(at));
    var d := c.(referencedAt := Some(at));
    var e := d.(deletedAt := Some(at));
    var rows := [Row(Reserved, 1, a), Row(Uploading, 2, a), Row(Uploading, 3, b), Row(Finalized, 4, c),
                 Row(Finalized, 5, d), Row(Finalized, 6, e)];
    var detail := (kind: ArtifactKind) => ArtifactDetail(kind, "p", 0, at);
    var details := [detail(Reserve), detail(UploadStart), detail(UploadComplete), detail(Finalize), detail(Reference),
                    detail(Cleanup)];
    assert Follows(ArtifactRule, rows[0], rows[1], details[1]);
    assert Follows(ArtifactRule, rows[1], rows[2], details[2]);
    assert Follows(ArtifactRule, rows[2], rows[3], details[3]);
    assert Follows(ArtifactRule, rows[3], rows[4], details[4]);
    assert Follows(ArtifactRule, rows[4], rows[5], details[5]);
    tables := LawfulIsReached(ArtifactRule, rows, details);
  }

  /** An upload can be rejected or expire, before it started or after. */
  lemma UploadsCanBeAbandoned(started: bool, expired: bool, maxBytes: int, at: Time)
    returns (tables: seq<Table<ArtifactState, Artifact, ArtifactDetail>>)
    ensures Run(ArtifactRule, tables) && FreshArtifact(tables[0].row)
    ensures var last := tables[|tables| - 1].row;
            && last.state == (if expired then Lapsed else Refused)
            && last.version == (if started then 3 else 2)
  {
    var a := Artifact("p", 0, maxBytes, None, None, None, None, None, None, None, None, None, None, at);
    var b := if expired then a.(expiredAt := Some(at)) else a.(rejectedAt := Some(at));
    var end := if expired then Lapsed else Refused;
    var detail := (kind: ArtifactKind) => ArtifactDetail(kind, "p", 0, at);
    var kind := if expired then ExpireUpload else RejectUpload;
    var rows := if started then [Row(Reserved, 1, a), Row(Uploading, 2, a), Row(end, 3, b)]
                else [Row(Reserved, 1, a), Row(end, 2, b)];
    var details := if started then [detail(Reserve), detail(UploadStart), detail(kind)]
                   else [detail(Reserve), detail(kind)];
    assert Follows(ArtifactRule, rows[0], rows[1], details[1]);
    assert started ==> Follows(ArtifactRule, rows[1], rows[2], details[2]);
    tables := LawfulIsReached(ArtifactRule, rows, details);
  }

  /** An interaction can go through planning, a tool, its continuation and delivery, and succeed at version six. */
  lemma SixVersionsOfAnInteraction(at: Time) returns (tables: seq<Table<InteractionState, Interaction, string>>)
    ensures Run(InteractionRule, tables) && tables[0].row.state.Accepted?
    ensures tables[|tables| - 1].row == Row(Succeeded, 6, Interaction(None, None, Some(at)))
  {
    var i := Interaction(None, None, None);
    var rows := [Row(Accepted, 1, i), Row(Planning, 2, i), Row(ToolPending, 3, i), Row(Continuing, 4, i),
                 Row(DeliveryPending, 5, i), Row(Succeeded, 6, i.(terminalAt := Some(at)))];
    var details := ["", "", "", "", "", ""];
    assert Follows(InteractionRule, rows[0], rows[1], details[1]);
    assert Follows(InteractionRule, rows[1], rows[2], details[2]);
    assert Follows(InteractionRule, rows[2], rows[3], details[3]);
    assert Follows(InteractionRule, rows[3], rows[4], details[4]);
    assert Follows(InteractionRule, rows[4], rows[5], details[5]);
    tables := LawfulIsReached(InteractionRule, rows, details);
  }

  /** A run can make any number of attempts and end in any state a run ends in. */
  lemma AnyNumberOfAttempts(attempts: nat, end: RunState) returns (tables: seq<Table<RunState, AgentRun, string>>)
    requires 1 <= attempts && !end.ModelRunning?
    ensures Run(RunRule, tables) && tables[0].row == Row(ContextReady, 1, AgentRun(0))
    ensures tables[|tables| - 1].row == Row(end, 2 * attempts + 1, AgentRun(attempts))
  {
    var rows := seq(2 * attempts + 1, k requires 0 <= k < 2 * attempts + 1 =>
      Row(if k == 2 * attempts then end else if k % 2 == 0 then ContextReady else ModelRunning,
          k + 1, AgentRun((k + 1) / 2)));
    var details := seq(2 * attempts + 1, _ => "");
    forall k | 1 <= k < |rows| ensures Follows(RunRule, rows[k - 1], rows[k], details[k]) {
    }
    tables := LawfulIsReached(RunRule, rows, details);
  }

  /** A plan can be paused and resumed for ever. */
  lemma AnyVersionOfAPlan(version: nat, at: Time) returns (tables: seq<Table<Lifecycle, Time, string>>)
    requires 1 <= version
    ensures Run(RolloutRule, tables) && tables[0].row.state.Reviewed?
    ensures tables[|tables| - 1].row.version == version
  {
    var rows := seq(version, k requires 0 <= k < version =>
      Row(if k == 0 then Reviewed else if k % 2 == 1 then Active else Paused, k + 1, at));
    var details := seq(version, _ => "");
    forall k | 1 <= k < |rows| ensures Follows(RolloutRule, rows[k - 1], rows[k], details[k]) {
    }
    tables := LawfulIsReached(RolloutRule, rows, details);
  }

  /**
    Where an interaction may go: it may fail or expire until it is terminal, succeed or turn
    ambiguous only out of delivery, come to delivery from anywhere past acceptance, and else
    only take the next step of planning, tool and continuation.
   */
  lemma InteractionMovesOn(before: InteractionState, after: InteractionState, version: nat, at: Time)
    ensures var done := InteractionTerminal(after);
            var was := Interaction(None, None, None);
            Follows(InteractionRule, Row(before, version, was),
                    Row(after, version + 1, was.(terminalAt := if done then Some(at) else None)), "")
            <==> || (after in {InteractionFailed, InteractionExpired} && !InteractionTerminal(before))
                 || (after in {Succeeded, Ambiguous} && before == DeliveryPending)
                 || (after == DeliveryPending && before in {Planning, ToolPending, Continuing})
                 || (!done && after != DeliveryPending && InteractionRank(after) == InteractionRank(before) + 1)
  {
  }
}
