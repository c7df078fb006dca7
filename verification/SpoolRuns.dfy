/**
  Whole runs of the outbox against Core and a network that loses, delays and repeats
  anything.  Two consumers act on the spool: the replay worker, and the claim path, which
  may hold a stale copy of a record for as long as it likes.
 */
module SpoolRuns {
  import opened Wrappers
  import opened Spool

  /**
    `core` is what Core has stored, by (spool id, sequence); `held` are the records some
    consumer has in hand, `posted` the payloads it may have sent, `receipts` the answers in
    flight.  The last three only grow: a message that is never delivered is a lost one, and
    one that is delivered twice is a duplicate.
   */
  datatype Sys = Sys(
    spool: State, retention: real, held: set<Record>,
    posted: set<Fields>, core: map<(string, nat), Fields>, receipts: set<Fields>)

  datatype Act =
    | Append(payload: Fields, key: string, claim: bool, clock: Clock, weather: Weather, answer: Result<Record, Error>)
    | Replay(clock: Clock, next: Option<Record>)
    | CoreStores(payload: Fields)
    | CoreAnswers(receipt: Fields)
    | Deliver(record: Record, receipt: Fields, clock: Clock, outcome: Result<(), Error>)
    | DeliverThenCrash(record: Record, receipt: Fields, wall: real)
    | RetryLater(record: Record, error: string, base: real, wall: real)
    | Refused(record: Record, error: string)
    | Compaction(clock: Clock, force: bool)
    | Restart
    | Corrupt(sequence: nat, stored: Stored)

  /** The spool binding an envelope states, if it states one. */
  function Binding(payload: Fields): Option<(string, nat, Digest)> {
    match Get(payload, "ingress")
    case Some(Object(ingress)) =>
      (match (Get(ingress, "spool_id"), Get(ingress, "sequence"), Get(ingress, "record_sha256"))
       case (Some(Text(id)), Some(Number(n)), Some(Hash(sha))) => if n >= 0 then Some((id, n, sha)) else None
       case _ => None)
    case _ => None
  }

  ghost predicate StoredAtCore(core: map<(string, nat), Fields>, id: string, n: nat, sha: Digest) {
    (id, n) in core && Binding(core[(id, n)]) == Some((id, n, sha))
  }

  /** Core answers `committed` or `duplicate` only for a binding it has stored. */
  ghost predicate HonestReceipt(core: map<(string, nat), Fields>, receipt: Fields) {
    forall id, n: nat, sha ::
      && Get(receipt, "spool_id") == Some(Text(id))
      && Get(receipt, "sequence") == Some(Number(n))
      && Get(receipt, "record_sha256") == Some(Hash(sha))
      && Get(receipt, "outcome") in {Some(Text("committed")), Some(Text("duplicate"))}
      ==> StoredAtCore(core, id, n, sha)
  }

  ghost predicate SpoolStep(s: State, retention: real, act: Act, s': State) {
    match act
    case Append(payload, key, _, clock, weather, answer) =>
      AppendSpec(s, payload, key, clock, retention, weather, s', answer)
    case Replay(clock, next) => NextSpec(s, clock, retention, s', next)
    case CoreStores(_) => s' == s
    case CoreAnswers(_) => s' == s
    case Deliver(record, receipt, clock, outcome) =>
      AcknowledgeSpec(s, record, receipt, clock, retention, s', outcome)
    case DeliverThenCrash(record, receipt, wall) =>
      // The row is committed, the process dies before the success counter is written.
      && Accepts(s.id, record, receipt) && IsPending(s, record.sequence)
      && s' == Settled(s, record.sequence, receipt, wall).(
                 replaySuccesses := s.replaySuccesses, lastError := s.lastError, lost := s.lost + 1)
    case RetryLater(record, error, base, wall) => RetrySpec(s, record, error, base, wall, s')
    case Refused(record, error) => QuarantineSpec(s, record.sequence, error, s')
    case Compaction(clock, force) => s' == Compacted(s, clock, retention, force)
    case Restart => s' == s.(lastCompact := 0.0)
    case Corrupt(n, stored) => n in s.rows && s' == s.(rows := s.rows[n := s.rows[n].(stored := stored)])
  }

  ghost predicate Step(s: Sys, act: Act, s': Sys) {
    && SpoolStep(s.spool, s.retention, act, s'.spool)
    && s'.retention == s.retention
    && match act
       case Append(_, _, claim, _, _, answer) =>
         var sent := claim && answer.Success?;
         && s'.held == (if sent then s.held + {answer.value} else s.held)
         && s'.posted == (if sent then s.posted + {answer.value.payload} else s.posted)
         && s'.core == s.core && s'.receipts == s.receipts
       case Replay(_, next) =>
         && s'.held == (if next.Some? then s.held + {next.value} else s.held)
         && s'.posted == (if next.Some? then s.posted + {next.value.payload} else s.posted)
         && s'.core == s.core && s'.receipts == s.receipts
       case CoreStores(payload) =>
         // Core binds a sequence once; a second posting finds it taken and changes nothing.
         && payload in s.posted && Binding(payload).Some?
         && s'.held == s.held && s'.posted == s.posted && s'.receipts == s.receipts
         && var (id, n, _) := Binding(payload).value;
            s'.core == (if (id, n) in s.core then s.core else s.core[(id, n) := payload])
       case CoreAnswers(receipt) =>
         && HonestReceipt(s.core, receipt)
         && s'.held == s.held && s'.posted == s.posted && s'.core == s.core
         && s'.receipts == s.receipts + {receipt}
       case Deliver(record, receipt, _, _) =>
         && record in s.held && receipt in s.receipts
         && s'.held == s.held && s'.posted == s.posted && s'.core == s.core && s'.receipts == s.receipts
       case DeliverThenCrash(record, receipt, _) =>
         && record in s.held && receipt in s.receipts
         && s'.held == s.held && s'.posted == s.posted && s'.core == s.core && s'.receipts == s.receipts
       case RetryLater(record, _, _, _) =>
         && record in s.held
         && s'.held == s.held && s'.posted == s.posted && s'.core == s.core && s'.receipts == s.receipts
       case Refused(record, _) =>
         && record in s.held
         && s'.held == s.held && s'.posted == s.posted && s'.core == s.core && s'.receipts == s.receipts
       case _ =>
         s'.held == s.held && s'.posted == s.posted && s'.core == s.core && s'.receipts == s.receipts
  }

  ghost predicate Init(s: Sys) {
    && s.spool.rows == map[] && s.spool.identities == map[] && s.spool.next == 1
    && s.spool.replaySuccesses == 0 && s.spool.lost == 0
    && s.held == {} && s.posted == {} && s.core == map[] && s.receipts == {}
  }

  ghost predicate StepAt(states: seq<Sys>, acts: seq<Act>, i: nat)
    requires i < |acts| && i + 1 < |states|
  {
    Step(states[i], acts[i], states[i + 1])
  }

  ghost predicate Run(states: seq<Sys>, acts: seq<Act>) {
    && |states| == |acts| + 1
    && Init(states[0])
    && forall i :: 0 <= i < |acts| ==> StepAt(states, acts, i)
  }

  // ---------------------------------------------------------------- what one step may do to the spool

  /**
    Identities are never rewritten or removed, and a pending or unsettled row was one before or is
    freshly numbered.
   */
  ghost predicate Evolves(s: State, s': State) {
    && s'.id == s.id
    && s.next <= s'.next
    && (forall key :: key in s.identities ==> key in s'.identities && s'.identities[key] == s.identities[key])
    && (forall n :: IsPending(s', n) ==> IsPending(s, n) || s.next <= n)
    && (forall n :: n in Unsettled(s'.rows) ==> n in Unsettled(s.rows) || s.next <= n)
  }

  /** No unsettled row leaves, except number `but`. */
  ghost predicate KeepsUnsettled(s: State, s': State, but: Option<nat>) {
    forall n :: n in Unsettled(s.rows) && but != Some(n) ==> n in Unsettled(s'.rows)
  }

  /** The row, if any, that a step settles. */
  ghost function SettledBy(s: State, act: Act): Option<nat> {
    match act
    case Deliver(record, receipt, _, _) =>
      if Accepts(s.id, record, receipt) && IsPending(s, record.sequence) then Some(record.sequence) else None
    case DeliverThenCrash(record, _, _) => Some(record.sequence)
    case _ => None
  }

  /** Keys that appear belong to rows still to be settled. */
  ghost predicate NewKeysUnsettled(s: State, s': State) {
    forall key :: key in s'.identities && key !in s.identities ==>
      s'.identities[key].sequence in Unsettled(s'.rows)
  }

  /** Every row carries over its payload column, or is one an append has just written. */
  ghost predicate Intact(s: State, s': State) {
    forall n :: n in s'.rows ==>
      || RowHonest(s'.id, n, s'.rows[n])
      || (&& n in s.rows && s'.rows[n].stored == s.rows[n].stored
          && s'.rows[n].sha == s.rows[n].sha && s'.rows[n].capturedAt == s.rows[n].capturedAt)
  }

  ghost predicate Keeps(s: State, s': State, but: Option<nat>) {
    && Evolves(s, s')
    && KeepsUnsettled(s, s', but)
    && NewKeysUnsettled(s, s')
  }

  lemma KeepsNothingThen(s: State, m: State, s': State, but: Option<nat>)
    requires Keeps(s, m, but) && Keeps(m, s', None)
    requires Intact(s, m) && Intact(m, s')
    ensures Keeps(s, s', but) && Intact(s, s')
  {
    forall key | key in s'.identities && key !in s.identities
      ensures s'.identities[key].sequence in Unsettled(s'.rows)
    {
      if key in m.identities {
        assert m.identities[key].sequence in Unsettled(m.rows);
        assert but != Some(m.identities[key].sequence) ==> s'.identities[key] == m.identities[key];
      }
    }
  }

  /** Same identities, and the only row that changes keeps its key, digest and place in the queue. */
  lemma RowChangeKeeps(s: State, n: nat, row: Row, s': State)
    requires n in s.rows && s'.id == s.id && s'.next == s.next && s'.identities == s.identities
    requires s'.rows == s.rows[n := row]
    requires row.state.Pending? ==> s.rows[n].state.Pending?
    requires s.rows[n].state.Committed? ==> row.state.Committed?
    ensures Keeps(s, s', if row.state.Committed? then Some(n) else None)
    ensures (&& row.stored == s.rows[n].stored
             && row.sha == s.rows[n].sha
             && row.capturedAt == s.rows[n].capturedAt) ==> Intact(s, s')
  {
  }

  lemma FewerRowsKeep(s: State, s': State)
    requires s'.id == s.id && s'.next == s.next && s'.identities == s.identities
    requires forall n :: n in s'.rows ==> n in s.rows && s'.rows[n] == s.rows[n]
    requires forall n :: n in s.rows && !s.rows[n].state.Committed? ==> n in s'.rows
    ensures Keeps(s, s', None) && Intact(s, s')
  {
  }

  lemma CompactionKeeps(s: State, clock: Clock, retention: real, force: bool)
    ensures Keeps(s, Compacted(s, clock, retention, force), None) && Intact(s, Compacted(s, clock, retention, force))
  {
    FewerRowsKeep(s, Compacted(s, clock, retention, force));
  }

  lemma FreshRowKeeps(c: State, key: string, identity: Identity, row: Row, s': State)
    requires c.next !in c.rows && key !in c.identities && identity.sequence == c.next && row.state.Pending?
    requires RowHonest(c.id, c.next, row)
    requires s'.id == c.id && s'.next == c.next + 1
    requires s'.identities == c.identities[key := identity] && s'.rows == c.rows[c.next := row]
    ensures Keeps(c, s', None) && Intact(c, s')
  {
    assert c.next in Unsettled(s'.rows);
  }

  lemma AppendedKeeps(c: State, key: string, payload: Fields, iso: string)
    requires Invariant(c) && key !in c.identities
    ensures Keeps(c, Appended(c, key, DigestOf(key, payload), iso), None)
    ensures Intact(c, Appended(c, key, DigestOf(key, payload), iso))
  {
    SequencesBelowNext(c.rows, c.identities, c.next);
    var identity := Identity(c.next, DigestOf(key, payload), iso);
    FreshRowKeeps(c, key, identity, FreshRow(c.id, key, identity), Appended(c, key, DigestOf(key, payload), iso));
  }

  lemma SkippingKeeps(s: State, wall: real, q: State)
    requires SkippedTo(s, wall, q)
    ensures Keeps(s, q, None) && Intact(s, q)
  {
  }

  lemma SkippingKeepsInvariant(s: State, wall: real, q: State)
    requires Invariant(s) && SkippedTo(s, wall, q)
    ensures Invariant(q)
  {
    assert Unsettled(q.rows) == Unsettled(s.rows);
    forall n | n in q.rows ensures RowAgrees(n, q.rows[n], q.identities) {
      assert RowAgrees(n, s.rows[n], s.identities);
    }
  }

  /** Rows nobody tampered with are never skipped. */
  lemma HonestRowsAreNotSkipped(s: State, wall: real, q: State)
    requires Invariant(s) && Honest(s) && SkippedTo(s, wall, q)
    ensures q.rows == s.rows
  {
    forall n | n in s.rows ensures q.rows[n] == s.rows[n] {
      HonestRowVerifies(s, n);
    }
  }

  // ---------------------------------------------------------------- every step

  lemma AdmitStep(
    c: State, payload: Fields, key: string, iso: string, weather: Weather, s': State, r: Result<Record, Error>)
    requires Invariant(c) && key !in c.identities && AdmitSpec(c, payload, key, iso, weather, s', r)
    ensures Invariant(s') && Keeps(c, s', None) && Intact(c, s')
  {
    if r.Success? {
      FreshAppendKeepsInvariant(c, key, payload, iso);
      AppendedKeeps(c, key, payload, iso);
    } else {
      FewerRowsKeep(c, s');
    }
  }

  lemma FreshStep(s: State, retention: real, payload: Fields, key: string, clock: Clock, weather: Weather,
                  s': State, r: Result<Record, Error>)
    requires Invariant(s) && key !in s.identities
    requires FreshSpec(s, payload, key, clock, retention, weather, s', r)
    ensures Invariant(s') && Keeps(s, s', None) && Intact(s, s')
  {
    if weather.tooLarge {
      FewerRowsKeep(s, s');
    } else {
      var c := Compacted(s, clock, retention, false);
      CompactionKeepsInvariant(s, clock, retention, false);
      CompactionKeeps(s, clock, retention, false);
      AdmitStep(c, payload, key, clock.iso, weather, s', r);
      KeepsNothingThen(s, c, s', None);
    }
  }

  lemma AppendStep(s: State, retention: real, act: Act, s': State)
    requires Invariant(s) && act.Append? && SpoolStep(s, retention, act, s')
    ensures Invariant(s') && Keeps(s, s', None) && Intact(s, s')
  {
    if act.key != "" && act.key !in s.identities {
      FreshStep(s, retention, act.payload, act.key, act.clock, act.weather, s', act.answer);
    } else {
      FewerRowsKeep(s, s');
    }
  }

  lemma HeadStep(q: State, clock: Clock, retention: real, s': State, r: Option<Record>)
    requires Invariant(q) && NextHead(q, clock, retention, s', r)
    ensures Invariant(s') && Keeps(q, s', None) && Intact(q, s')
  {
    if s' == q {
      FewerRowsKeep(q, s');
    } else {
      CompactionKeepsInvariant(q, clock, retention, false);
      CompactionKeeps(q, clock, retention, false);
    }
  }

  lemma ReplayStep(s: State, retention: real, act: Act, s': State)
    requires Invariant(s) && act.Replay? && SpoolStep(s, retention, act, s')
    ensures Invariant(s') && Keeps(s, s', None) && Intact(s, s')
  {
    var q :| Passed(s, act.clock.wall, q) && NextHead(q, act.clock, retention, s', act.next);
    SkippingKeepsInvariant(s, act.clock.wall, q);
    SkippingKeeps(s, act.clock.wall, q);
    HeadStep(q, act.clock, retention, s', act.next);
    KeepsNothingThen(s, q, s', None);
  }

  lemma SettleStep(s: State, n: nat, receipt: Fields, wall: real)
    requires Invariant(s) && IsPending(s, n)
    ensures Invariant(Settled(s, n, receipt, wall)) && Intact(s, Settled(s, n, receipt, wall))
    ensures Keeps(s, Settled(s, n, receipt, wall), Some(n))
  {
    RowUpdate(s.rows, s.identities, n, CommittedRow(s.rows[n], receipt, wall));
    RowChangeKeeps(s, n, CommittedRow(s.rows[n], receipt, wall), Settled(s, n, receipt, wall));
  }

  lemma DeliverStep(s: State, retention: real, act: Act, s': State)
    requires Invariant(s) && act.Deliver? && SpoolStep(s, retention, act, s')
    ensures Invariant(s') && Keeps(s, s', SettledBy(s, act)) && Intact(s, s')
  {
    var n := act.record.sequence;
    if SettledBy(s, act) == Some(n) {
      var m := Settled(s, n, act.receipt, act.clock.wall);
      SettleStep(s, n, act.receipt, act.clock.wall);
      CompactionKeepsInvariant(m, act.clock, retention, false);
      CompactionKeeps(m, act.clock, retention, false);
      KeepsNothingThen(s, m, s', Some(n));
    } else {
      FewerRowsKeep(s, s');
    }
  }

  lemma OneRowStep(s: State, n: nat, row: Row, s': State)
    requires Invariant(s) && n in s.rows
    requires row.(state := s.rows[n].state, attempts := s.rows[n].attempts, stored := s.rows[n].stored,
                  nextAttemptAt := s.rows[n].nextAttemptAt, lastError := s.rows[n].lastError) == s.rows[n]
    requires row.state == s.rows[n].state || (s.rows[n].state.Pending? && row.state.Quarantined?)
    requires s' == s.(rows := s.rows[n := row], replayFailures := s'.replayFailures, lastError := s'.lastError)
    ensures Invariant(s') && Keeps(s, s', None)
    ensures row.stored == s.rows[n].stored ==> Intact(s, s')
  {
    RowUpdate(s.rows, s.identities, n, row);
    RowChangeKeeps(s, n, row, s');
  }

  lemma OtherStep(s: State, retention: real, act: Act, s': State)
    requires Invariant(s) && SpoolStep(s, retention, act, s')
    requires act.RetryLater? || act.Refused? || act.Corrupt?
    ensures Invariant(s') && Keeps(s, s', None)
    ensures !act.Corrupt? ==> Intact(s, s')
  {
    var n := if act.Corrupt? then act.sequence else act.record.sequence;
    if s' != s {
      OneRowStep(s, n, s'.rows[n], s');
    } else {
      FewerRowsKeep(s, s');
    }
  }

  lemma CrashStep(s: State, retention: real, act: Act, s': State)
    requires Invariant(s) && act.DeliverThenCrash? && SpoolStep(s, retention, act, s')
    ensures Invariant(s') && Keeps(s, s', SettledBy(s, act)) && Intact(s, s')
  {
    var n := act.record.sequence;
    SettleStep(s, n, act.receipt, act.wall);
    FewerRowsKeep(Settled(s, n, act.receipt, act.wall), s');
    KeepsNothingThen(s, Settled(s, n, act.receipt, act.wall), s', Some(n));
  }

  lemma QuietStep(s: State, retention: real, act: Act, s': State)
    requires Invariant(s) && SpoolStep(s, retention, act, s')
    requires act.Compaction? || act.Restart? || act.CoreStores? || act.CoreAnswers?
    ensures Invariant(s') && Keeps(s, s', None) && Intact(s, s')
  {
    if act.Compaction? {
      CompactionKeepsInvariant(s, act.clock, retention, act.force);
      CompactionKeeps(s, act.clock, retention, act.force);
    } else {
      FewerRowsKeep(s, s');
    }
  }

  /** Every step keeps the invariant, writes identities once and only ever settles what it names. */
  lemma SpoolStepKeeps(s: State, retention: real, act: Act, s': State)
    requires Invariant(s) && SpoolStep(s, retention, act, s')
    ensures Invariant(s') && Keeps(s, s', SettledBy(s, act))
    ensures !act.Corrupt? ==> Intact(s, s')
  {
    match act {
      case Append(_, _, _, _, _, _) => AppendStep(s, retention, act, s');
      case Replay(_, _) => ReplayStep(s, retention, act, s');
      case Deliver(_, _, _, _) => DeliverStep(s, retention, act, s');
      case DeliverThenCrash(_, _, _) => CrashStep(s, retention, act, s');
      case Compaction(_, _) => QuietStep(s, retention, act, s');
      case RetryLater(_, _, _, _) => OtherStep(s, retention, act, s');
      case Refused(_, _) => OtherStep(s, retention, act, s');
      case Corrupt(_, _) => OtherStep(s, retention, act, s');
      case CoreStores(_) => QuietStep(s, retention, act, s');
      case CoreAnswers(_) => QuietStep(s, retention, act, s');
      case Restart => QuietStep(s, retention, act, s');
    }
  }

  /** Only the disk itself can spoil a payload column. */
  lemma SpoolStepKeepsHonesty(s: State, retention: real, act: Act, s': State)
    requires Invariant(s) && Honest(s) && !act.Corrupt? && SpoolStep(s, retention, act, s')
    ensures Honest(s')
  {
    SpoolStepKeeps(s, retention, act, s');
  }

  // ---------------------------------------------------------------- nothing is lost

  ghost predicate Known(identities: map<string, Identity>, record: Record) {
    record.key in identities && identities[record.key] == Identity(record.sequence, record.sha, record.capturedAt)
  }

  /** A record whose row is settled, kept or compacted away, is at Core under its own digest. */
  ghost predicate Safe(s: Sys, key: string)
    requires key in s.spool.identities
  {
    var identity := s.spool.identities[key];
    || identity.sequence in Unsettled(s.spool.rows)
    || StoredAtCore(s.core, s.spool.id, identity.sequence, identity.sha)
  }

  ghost predicate SysInvariant(s: Sys) {
    && Invariant(s.spool)
    && (forall record :: record in s.held ==> Known(s.spool.identities, record))
    && (forall receipt :: receipt in s.receipts ==> HonestReceipt(s.core, receipt))
    && (forall key :: key in s.spool.identities ==> Safe(s, key))
  }

  lemma AppendAnswerIsKnown(s: State, retention: real, act: Act, s': State)
    requires Invariant(s) && act.Append? && SpoolStep(s, retention, act, s') && act.answer.Success?
    ensures Known(s'.identities, act.answer.value)
  {
  }

  lemma ReplayAnswerIsKnown(s: State, retention: real, act: Act, s': State)
    requires Invariant(s) && act.Replay? && SpoolStep(s, retention, act, s') && act.next.Some?
    ensures Known(s'.identities, act.next.value)
  {
    var q :| Passed(s, act.clock.wall, q) && NextHead(q, act.clock, retention, s', act.next);
    SkippingKeepsInvariant(s, act.clock.wall, q);
    LoadedIsKnown(q, act.next.value);
  }

  lemma LoadedIsKnown(s: State, record: Record)
    requires RowsAgree(s.rows, s.identities) && record.sequence in s.rows
    requires Load(record.sequence, s.rows[record.sequence]) == Success(record)
    ensures Known(s.identities, record)
  {
    assert RowAgrees(record.sequence, s.rows[record.sequence], s.identities);
  }

  lemma HeldStayKnown(s: Sys, act: Act, s': Sys)
    requires SysInvariant(s) && Step(s, act, s')
    ensures forall record :: record in s'.held ==> Known(s'.spool.identities, record)
  {
    SpoolStepKeeps(s.spool, s.retention, act, s'.spool);
    forall record | record in s'.held ensures Known(s'.spool.identities, record) {
      if record in s.held {
        assert Known(s.spool.identities, record);
      } else if act.Append? {
        AppendAnswerIsKnown(s.spool, s.retention, act, s'.spool);
      } else {
        ReplayAnswerIsKnown(s.spool, s.retention, act, s'.spool);
      }
    }
  }

  lemma CoreOnlyGrows(s: Sys, act: Act, s': Sys)
    requires Step(s, act, s')
    ensures forall k :: k in s.core ==> k in s'.core && s'.core[k] == s.core[k]
  {
  }

  lemma HonestReceiptStays(core: map<(string, nat), Fields>, core': map<(string, nat), Fields>, receipt: Fields)
    requires HonestReceipt(core, receipt)
    requires forall k :: k in core ==> k in core' && core'[k] == core[k]
    ensures HonestReceipt(core', receipt)
  {
  }

  lemma ReceiptsStayHonest(s: Sys, act: Act, s': Sys)
    requires SysInvariant(s) && Step(s, act, s')
    ensures forall receipt :: receipt in s'.receipts ==> HonestReceipt(s'.core, receipt)
  {
    CoreOnlyGrows(s, act, s');
    forall receipt | receipt in s'.receipts ensures HonestReceipt(s'.core, receipt) {
      HonestReceiptStays(s.core, s'.core, receipt);
    }
  }

  /** A receipt settles only the record it names, and that record is already stored. */
  lemma SettlingIsBacked(s: Sys, act: Act, s': Sys, key: string)
    requires SysInvariant(s) && Step(s, act, s')
    requires key in s.spool.identities && SettledBy(s.spool, act) == Some(s.spool.identities[key].sequence)
    ensures StoredAtCore(s.core, s.spool.id, s.spool.identities[key].sequence, s.spool.identities[key].sha)
  {
    var record := act.record;
    assert Known(s.spool.identities, record);
    assert record.key == key;
    assert HonestReceipt(s.core, act.receipt);
  }

  lemma StepKeepsSysInvariant(s: Sys, act: Act, s': Sys)
    requires SysInvariant(s) && Step(s, act, s')
    ensures SysInvariant(s')
  {
    SpoolStepKeeps(s.spool, s.retention, act, s'.spool);
    HeldStayKnown(s, act, s');
    ReceiptsStayHonest(s, act, s');
    CoreOnlyGrows(s, act, s');
    forall key | key in s'.spool.identities ensures Safe(s', key) {
      if key in s.spool.identities {
        assert Safe(s, key);
        if SettledBy(s.spool, act) == Some(s.spool.identities[key].sequence) {
          SettlingIsBacked(s, act, s', key);
        }
      }
    }
  }

  lemma {:induction false} RunKeepsSysInvariant(states: seq<Sys>, acts: seq<Act>, i: nat)
    requires Run(states, acts) && i <= |acts|
    ensures SysInvariant(states[i])
  {
    if i == 0 {
      assert Unsettled(states[0].spool.rows) == {};
    } else {
      RunKeepsSysInvariant(states, acts, i - 1);
      assert StepAt(states, acts, i - 1);
      StepKeepsSysInvariant(states[i - 1], acts[i - 1], states[i]);
    }
  }

  lemma StepEvolves(states: seq<Sys>, acts: seq<Act>, i: nat)
    requires Run(states, acts) && i < |acts|
    ensures Evolves(states[i].spool, states[i + 1].spool)
  {
    RunKeepsSysInvariant(states, acts, i);
    assert StepAt(states, acts, i);
    SpoolStepKeeps(states[i].spool, states[i].retention, acts[i], states[i + 1].spool);
  }

  lemma EvolvesThenEvolves(a: State, b: State, c: State)
    requires Evolves(a, b) && Evolves(b, c)
    ensures Evolves(a, c)
  {
  }

  /** From any point of a run to any later one. */
  lemma {:induction false} RunEvolves(states: seq<Sys>, acts: seq<Act>, i: nat, j: nat)
    requires Run(states, acts) && i <= j <= |acts|
    ensures Evolves(states[i].spool, states[j].spool)
  {
    if i < j {
      RunEvolves(states, acts, i, j - 1);
      StepEvolves(states, acts, j - 1);
      EvolvesThenEvolves(states[i].spool, states[j - 1].spool, states[j].spool);
    }
  }

  /**
    No loss end to end.  Once an append has answered, then in every later state of every
    run, whatever the network does and even if rows rot on disk, the record is pending, or
    quarantined, or Core has stored that sequence with that digest.
   */
  lemma NothingIsLost(states: seq<Sys>, acts: seq<Act>, i: nat, j: nat)
    requires Run(states, acts) && i < j <= |acts|
    requires acts[i].Append? && acts[i].answer.Success?
    ensures var record := acts[i].answer.value; var spool := states[j].spool;
            || (record.sequence in spool.rows && !spool.rows[record.sequence].state.Committed?
                && spool.rows[record.sequence].key == record.key && spool.rows[record.sequence].sha == record.sha)
            || StoredAtCore(states[j].core, spool.id, record.sequence, record.sha)
  {
    AppendedStaysKnown(states, acts, i, j);
    RunKeepsSysInvariant(states, acts, j);
    KnownIsKept(states[j], acts[i].answer.value);
  }

  lemma AppendedStaysKnown(states: seq<Sys>, acts: seq<Act>, i: nat, j: nat)
    requires Run(states, acts) && i < j <= |acts|
    requires acts[i].Append? && acts[i].answer.Success?
    ensures Known(states[j].spool.identities, acts[i].answer.value)
  {
    AppendedIsKnown(states, acts, i);
    BindingsStay(states, acts, i + 1, j);
  }

  lemma AppendedIsKnown(states: seq<Sys>, acts: seq<Act>, i: nat)
    requires Run(states, acts) && i < |acts| && acts[i].Append? && acts[i].answer.Success?
    ensures Known(states[i + 1].spool.identities, acts[i].answer.value)
  {
    RunKeepsSysInvariant(states, acts, i);
    assert StepAt(states, acts, i);
    AppendAnswerIsKnown(states[i].spool, states[i].retention, acts[i], states[i + 1].spool);
  }

  /** A known record is unsettled under its own key and digest, or at Core. */
  lemma KnownIsKept(s: Sys, record: Record)
    requires SysInvariant(s) && Known(s.spool.identities, record)
    ensures || (record.sequence in s.spool.rows && !s.spool.rows[record.sequence].state.Committed?
                && s.spool.rows[record.sequence].key == record.key && s.spool.rows[record.sequence].sha == record.sha)
            || StoredAtCore(s.core, s.spool.id, record.sequence, record.sha)
  {
    assert Safe(s, record.key);
    if record.sequence in Unsettled(s.spool.rows) {
      var row := s.spool.rows[record.sequence];
      assert RowAgrees(record.sequence, row, s.spool.identities);
      assert row.key == record.key;
    }
  }

  // ---------------------------------------------------------------- ordered replay

  /**
    The replay worker never goes back: over a whole run, with appends and claim receipts in
    between, the sequences it is handed never decrease.
   */
  lemma ReplayIsOrdered(states: seq<Sys>, acts: seq<Act>, i: nat, j: nat)
    requires Run(states, acts) && i < j < |acts|
    requires acts[i].Replay? && acts[i].next.Some? && acts[j].Replay? && acts[j].next.Some?
    ensures acts[i].next.value.sequence <= acts[j].next.value.sequence
  {
    ReplayAnswersHead(states, acts, i);
    ReplayAnswersHead(states, acts, j);
    NothingPendingBelow(states, acts, i + 1, acts[i].next.value.sequence, j + 1);
  }

  /** Below the lowest pending sequence nothing ever becomes pending again. */
  lemma NothingPendingBelow(states: seq<Sys>, acts: seq<Act>, i: nat, a: nat, j: nat)
    requires Run(states, acts) && i <= j <= |acts| && LowestPending(states[i].spool, a)
    ensures forall b :: IsPending(states[j].spool, b) ==> a <= b
  {
    RunEvolves(states, acts, i, j);
    RunKeepsSysInvariant(states, acts, i);
    forall b | IsPending(states[j].spool, b) ensures a <= b {
      LaterHeadIsNotLower(states[i].spool, a, states[j].spool, b);
    }
  }

  /** The record handed out is verified, and no lower row is pending. */
  lemma ReplayAnswersHead(states: seq<Sys>, acts: seq<Act>, i: nat)
    requires Run(states, acts) && i < |acts| && acts[i].Replay? && acts[i].next.Some?
    ensures LowestPending(states[i + 1].spool, acts[i].next.value.sequence)
    ensures Verifies(states[i + 1].spool.id, acts[i].next.value)
  {
    assert StepAt(states, acts, i);
  }

  lemma LaterHeadIsNotLower(s: State, a: nat, s': State, b: nat)
    requires Invariant(s) && Evolves(s, s') && LowestPending(s, a) && IsPending(s', b)
    ensures a <= b
  {
    SequencesBelowNext(s.rows, s.identities, s.next);
  }

  ghost predicate NoCorruption(acts: seq<Act>) {
    forall i :: 0 <= i < |acts| ==> !acts[i].Corrupt?
  }

  lemma {:induction false} RunStaysHonest(states: seq<Sys>, acts: seq<Act>, i: nat)
    requires Run(states, acts) && NoCorruption(acts) && i <= |acts|
    ensures Honest(states[i].spool)
  {
    if i > 0 {
      RunStaysHonest(states, acts, i - 1);
      RunKeepsSysInvariant(states, acts, i - 1);
      assert StepAt(states, acts, i - 1);
      SpoolStepKeepsHonesty(states[i - 1].spool, states[i - 1].retention, acts[i - 1], states[i].spool);
    }
  }

  /** On a sound disk the head of the queue is delivered or waits: replay never quarantines it. */
  lemma ReplayNeverQuarantinesHonestRows(states: seq<Sys>, acts: seq<Act>, i: nat, n: nat)
    requires Run(states, acts) && NoCorruption(acts) && i < |acts| && acts[i].Replay?
    requires IsPending(states[i].spool, n)
    ensures IsPending(states[i + 1].spool, n)
    ensures acts[i].next.Some? ==> acts[i].next.value.sequence <= n
  {
    RunStaysHonest(states, acts, i);
    RunKeepsSysInvariant(states, acts, i);
    var s, s' := states[i].spool, states[i + 1].spool;
    assert StepAt(states, acts, i);
    var clock, retention := acts[i].clock, states[i].retention;
    var q :| Passed(s, clock.wall, q) && NextHead(q, clock, retention, s', acts[i].next);
    HonestRowsAreNotSkipped(s, clock.wall, q);
    assert IsPending(q, n);
  }

  // ---------------------------------------------------------------- what reaches Core

  /** The payload is the very envelope some append sealed. */
  ghost predicate Genuine(s: State, payload: Fields) {
    exists key :: key in s.identities && payload == Sealed(s.id, s.identities[key])
  }

  ghost predicate BoundAt(k: (string, nat), payload: Fields) {
    match Binding(payload)
    case Some((id, n, _)) => k == (id, n)
    case None => false
  }

  ghost predicate ContentInvariant(s: Sys) {
    && (forall payload :: payload in s.posted ==> Genuine(s.spool, payload))
    && (forall k :: k in s.core ==> Genuine(s.spool, s.core[k]) && BoundAt(k, s.core[k]))
  }

  lemma GenuineStays(s: State, s': State, payload: Fields)
    requires Evolves(s, s') && Genuine(s, payload)
    ensures Genuine(s', payload)
  {
    var key :| key in s.identities && payload == Sealed(s.id, s.identities[key]);
    assert s'.identities[key] == s.identities[key];
  }

  lemma AppendPostsGenuine(s: State, retention: real, act: Act, s': State)
    requires Invariant(s) && Honest(s) && act.Append? && SpoolStep(s, retention, act, s') && act.answer.Success?
    requires s'.id == s.id
    ensures Genuine(s', act.answer.value.payload)
  {
    SpoolRefinesLedger(s, retention, act, s');
    assert act.answer.value.payload == Sealed(s.id, s'.identities[act.key]);
  }

  lemma ReplayPostsGenuine(s: State, retention: real, act: Act, s': State)
    requires Invariant(s) && Honest(s) && act.Replay? && SpoolStep(s, retention, act, s') && act.next.Some?
    ensures Genuine(s', act.next.value.payload)
  {
    var record := act.next.value;
    var q :| Passed(s, act.clock.wall, q) && NextHead(q, act.clock, retention, s', act.next);
    HonestRowsAreNotSkipped(s, act.clock.wall, q);
    SkippingKeepsInvariant(s, act.clock.wall, q);
    HonestRowVerifies(q, record.sequence);
    assert RowAgrees(record.sequence, q.rows[record.sequence], q.identities);
  }

  lemma PostedStaysGenuine(s: Sys, act: Act, s': Sys, payload: Fields)
    requires SysInvariant(s) && ContentInvariant(s) && Honest(s.spool) && !act.Corrupt? && Step(s, act, s')
    requires Evolves(s.spool, s'.spool) && payload in s'.posted
    ensures Genuine(s'.spool, payload)
  {
    if payload in s.posted {
      GenuineStays(s.spool, s'.spool, payload);
    } else if act.Append? {
      AppendPostsGenuine(s.spool, s.retention, act, s'.spool);
    } else {
      ReplayPostsGenuine(s.spool, s.retention, act, s'.spool);
    }
  }

  lemma CoreStaysGenuine(s: Sys, act: Act, s': Sys, k: (string, nat))
    requires ContentInvariant(s) && Step(s, act, s') && Evolves(s.spool, s'.spool) && k in s'.core
    ensures Genuine(s'.spool, s'.core[k]) && BoundAt(k, s'.core[k])
  {
    if k in s.core {
      assert s'.core[k] == s.core[k];
    } else {
      assert act.CoreStores? && s'.core[k] == act.payload;
    }
    GenuineStays(s.spool, s'.spool, s'.core[k]);
  }

  lemma StepKeepsContent(s: Sys, act: Act, s': Sys)
    requires SysInvariant(s) && ContentInvariant(s) && Honest(s.spool) && !act.Corrupt? && Step(s, act, s')
    ensures ContentInvariant(s')
  {
    SpoolStepKeeps(s.spool, s.retention, act, s'.spool);
    forall payload | payload in s'.posted ensures Genuine(s'.spool, payload) {
      PostedStaysGenuine(s, act, s', payload);
    }
    forall k | k in s'.core ensures Genuine(s'.spool, s'.core[k]) && BoundAt(k, s'.core[k]) {
      CoreStaysGenuine(s, act, s', k);
    }
  }

  lemma {:induction false} RunKeepsContent(states: seq<Sys>, acts: seq<Act>, i: nat)
    requires Run(states, acts) && NoCorruption(acts) && i <= |acts|
    ensures ContentInvariant(states[i])
  {
    if i > 0 {
      RunKeepsContent(states, acts, i - 1);
      RunKeepsSysInvariant(states, acts, i - 1);
      RunStaysHonest(states, acts, i - 1);
      assert StepAt(states, acts, i - 1);
      StepKeepsContent(states[i - 1], acts[i - 1], states[i]);
    }
  }

  /**
    On a sound disk a settled record is not merely acknowledged: what Core stored under its
    sequence is, byte for byte, the envelope the append sealed.
   */
  lemma CoreHoldsWhatWasAppended(states: seq<Sys>, acts: seq<Act>, i: nat, key: string)
    requires Run(states, acts) && NoCorruption(acts) && i <= |acts|
    requires key in states[i].spool.identities
    requires states[i].spool.identities[key].sequence !in Unsettled(states[i].spool.rows)
    ensures var spool := states[i].spool;
            && (spool.id, spool.identities[key].sequence) in states[i].core
            && states[i].core[(spool.id, spool.identities[key].sequence)] == Sealed(spool.id, spool.identities[key])
  {
    RunKeepsSysInvariant(states, acts, i);
    RunKeepsContent(states, acts, i);
    var s := states[i];
    var identity := s.spool.identities[key];
    assert Safe(s, key);
    var stored := s.core[(s.spool.id, identity.sequence)];
    var other :| other in s.spool.identities && stored == Sealed(s.spool.id, s.spool.identities[other]);
    assert Binding(stored) == Some((s.spool.id, s.spool.identities[other].sequence, s.spool.identities[other].sha));
    assert other == key;
  }

  // ---------------------------------------------------------------- conservation

  function Crashes(acts: seq<Act>): nat {
    if acts == [] then 0
    else Crashes(acts[..|acts| - 1]) + (if acts[|acts| - 1].DeliverThenCrash? then 1 else 0)
  }

  lemma {:induction false} LostCountsCrashes(states: seq<Sys>, acts: seq<Act>, i: nat)
    requires Run(states, acts) && i <= |acts|
    ensures states[i].spool.lost == Crashes(acts[..i])
  {
    if i > 0 {
      LostCountsCrashes(states, acts, i - 1);
      assert acts[..i][..i - 1] == acts[..i - 1];
      assert StepAt(states, acts, i - 1);
    }
  }

  /**
    Every sequence ever issued is pending, quarantined or counted as a replay success, and
    the only ones the counters miss are those whose process died between the two writes of
    an acknowledgement.
   */
  lemma SequencesAreConserved(states: seq<Sys>, acts: seq<Act>, i: nat)
    requires Run(states, acts) && i <= |acts|
    ensures var s := states[i].spool;
            |s.identities| == |Unsettled(s.rows)| + s.replaySuccesses + Crashes(acts[..i])
  {
    RunKeepsSysInvariant(states, acts, i);
    LostCountsCrashes(states, acts, i);
  }

  // ---------------------------------------------------------------- what verification catches

  /**
    A stored payload passes the check exactly when its body is the one that was appended and
    its envelope still names this spool, sequence, digest and capture time.
   */
  lemma VerificationIsExact(s: State, n: nat, payload: Fields)
    requires Invariant(s) && n in s.rows && s.rows[n].stored == Decoded(Object(payload))
    ensures RowVerifies(s.id, n, s.rows[n])
            <==> (&& Body(payload) == Body(Sealed(s.id, s.identities[s.rows[n].key]))
                  && Binding(payload) == Some((s.id, n, s.rows[n].sha))
                  && Get(payload["ingress"].fields, "captured_at") == Some(Text(s.rows[n].capturedAt)))
  {
    assert RowAgrees(n, s.rows[n], s.identities);
    assert IdentityWellFormed(s.rows[n].key, s.identities[s.rows[n].key], s.next);
    SealingKeepsBody(s.id, s.identities[s.rows[n].key]);
  }

  // ---------------------------------------------------------------- compaction is invisible

  /** What a caller can see of an append, the attempt count aside. */
  function Seen(answer: Result<Record, Error>): Result<Record, Error> {
    match answer
    case Success(record) => Success(record.(attempts := 0))
    case Failure(error) => Failure(error)
  }

  /** The map that never forgets: an append either recalls what the key was bound to or binds it. */
  function LedgerAppend(
    id: string, ledger: map<string, Identity>, payload: Fields, key: string, iso: string, weather: Weather)
    : (map<string, Identity>, Result<Record, Error>)
  {
    if key == "" then (ledger, Failure(MissingKey))
    else if key in ledger then
      (ledger, if ledger[key].sha == DigestOf(key, payload) then Success(Original(id, key, ledger[key]))
               else Failure(Conflict))
    else if weather.tooLarge then (ledger, Failure(TooLarge))
    else if weather.overQuota then (ledger, Failure(QuotaExceeded))
    else if weather.failsAt.Some? && weather.failsAt.value < STAGES then (ledger, Failure(RolledBack))
    else
      var identity := Identity(|ledger| + 1, DigestOf(key, payload), iso);
      (ledger[key := identity], Success(Original(id, key, identity)))
  }

  /**
    Compaction is invisible: on a sound disk every step of the spool is an append to the
    map that never forgets, with the map's answer, or does not touch it.  Which rows are
    still there, and in what state, shows in no answer.
   */
  lemma SpoolRefinesLedger(s: State, retention: real, act: Act, s': State)
    requires Invariant(s) && Honest(s) && SpoolStep(s, retention, act, s')
    ensures if act.Append? then
              (s'.identities, Seen(act.answer))
              == LedgerAppend(s.id, s.identities, act.payload, act.key, act.clock.iso, act.weather)
            else s'.identities == s.identities
  {
    if act.Append? {
      AppendRefinesLedger(s, act.payload, act.key, act.clock, retention, act.weather, s', act.answer);
    } else {
      OtherStepsKeepIdentities(s, retention, act, s');
    }
  }

  lemma OtherStepsKeepIdentities(s: State, retention: real, act: Act, s': State)
    requires SpoolStep(s, retention, act, s') && !act.Append?
    ensures s'.identities == s.identities
  {
    if act.Replay? {
      var q :| Passed(s, act.clock.wall, q) && NextHead(q, act.clock, retention, s', act.next);
    }
  }

  lemma AppendRefinesLedger(s: State, payload: Fields, key: string, clock: Clock, retention: real, weather: Weather,
                            s': State, r: Result<Record, Error>)
    requires Invariant(s) && Honest(s) && AppendSpec(s, payload, key, clock, retention, weather, s', r)
    ensures (s'.identities, Seen(r)) == LedgerAppend(s.id, s.identities, payload, key, clock.iso, weather)
  {
    if key != "" && key !in s.identities {
      FreshRefinesLedger(s, payload, key, clock, retention, weather, s', r);
    } else if key != "" && s.identities[key].sha == DigestOf(key, payload) {
      KnownRefinesLedger(s, key, s', r);
    }
  }

  lemma KnownRefinesLedger(s: State, key: string, s': State, r: Result<Record, Error>)
    requires Honest(s) && key in s.identities && KnownSpec(s, key, s', r)
    ensures s'.identities == s.identities && Seen(r) == Success(Original(s.id, key, s.identities[key]))
  {
    var original := Original(s.id, key, s.identities[key]);
    assert r.value.(attempts := 0) == original;
  }

  lemma FreshRefinesLedger(s: State, payload: Fields, key: string, clock: Clock, retention: real, weather: Weather,
                           s': State, r: Result<Record, Error>)
    requires Invariant(s) && key != "" && key !in s.identities
    requires FreshSpec(s, payload, key, clock, retention, weather, s', r)
    ensures (s'.identities, Seen(r)) == LedgerAppend(s.id, s.identities, payload, key, clock.iso, weather)
  {
  }

  /**
    A key is written once.  After an append has answered, every later append of the key, on
    a sound disk, answers with the same envelope if it carries the same payload and is
    refused if it does not, however often the row was retried, settled or compacted between.
   */
  lemma AppendIsWriteOnce(states: seq<Sys>, acts: seq<Act>, i: nat, j: nat)
    requires Run(states, acts) && NoCorruption(acts) && i < j < |acts|
    requires acts[i].Append? && acts[i].answer.Success? && acts[j].Append? && acts[j].key == acts[i].key
    ensures Seen(acts[j].answer)
            == if SameButEnvelope(acts[i].payload, acts[j].payload) then Seen(acts[i].answer) else Failure(Conflict)
  {
    SameBody(acts[i].payload, acts[j].payload);
    AppendBindsItsBody(states, acts, i, j);
  }

  lemma AppendBindsItsBody(states: seq<Sys>, acts: seq<Act>, i: nat, j: nat)
    requires Run(states, acts) && NoCorruption(acts) && i < j < |acts|
    requires acts[i].Append? && acts[i].answer.Success? && acts[j].Append? && acts[j].key == acts[i].key
    ensures Seen(acts[j].answer)
            == if Body(acts[j].payload) == Body(acts[i].payload) then Seen(acts[i].answer) else Failure(Conflict)
  {
    AppendIsAtTheLedger(states, acts, i);
    AppendIsAtTheLedger(states, acts, j);
    BindingsStay(states, acts, i + 1, j);
    OneSpool(states, acts, i);
    OneSpool(states, acts, j);
    LedgerIsWriteOnce(states[0].spool.id, states[i].spool.identities, acts[i], states[i + 1].spool.identities,
                      states[j].spool.identities, states[j + 1].spool.identities, acts[j]);
  }

  /** The two payloads agree on every field but the envelope. */
  ghost predicate SameButEnvelope(a: Fields, b: Fields) {
    forall name :: name != "ingress" ==> Get(a, name) == Get(b, name)
  }

  lemma SameBody(a: Fields, b: Fields)
    ensures Body(a) == Body(b) <==> SameButEnvelope(a, b)
  {
    forall name | name != "ingress" ensures Get(Body(a), name) == Get(a, name) && Get(Body(b), name) == Get(b, name) {
    }
    if SameButEnvelope(a, b) {
      forall name ensures name in Body(a) <==> name in Body(b) {
        assert name != "ingress" ==> Get(a, name) == Get(b, name);
      }
      forall name | name in Body(a) ensures Body(a)[name] == Body(b)[name] {
        assert Get(a, name) == Get(b, name);
      }
    }
  }

  /** What one append of a run does to the map that never forgets. */
  lemma AppendIsAtTheLedger(states: seq<Sys>, acts: seq<Act>, i: nat)
    requires Run(states, acts) && NoCorruption(acts) && i < |acts| && acts[i].Append?
    ensures AppendsTo(states[i].spool.id, states[i].spool.identities, acts[i], states[i + 1].spool.identities)
  {
    RunKeepsSysInvariant(states, acts, i);
    RunStaysHonest(states, acts, i);
    assert StepAt(states, acts, i);
    SpoolRefinesLedger(states[i].spool, states[i].retention, acts[i], states[i + 1].spool);
  }

  ghost predicate AppendsTo(id: string, ledger: map<string, Identity>, act: Act, ledger': map<string, Identity>)
    requires act.Append?
  {
    (ledger', Seen(act.answer)) == LedgerAppend(id, ledger, act.payload, act.key, act.clock.iso, act.weather)
  }

  ghost predicate Extends(ledger: map<string, Identity>, later: map<string, Identity>) {
    forall key :: key in ledger ==> key in later && later[key] == ledger[key]
  }

  lemma BindingsStay(states: seq<Sys>, acts: seq<Act>, i: nat, j: nat)
    requires Run(states, acts) && i <= j <= |acts|
    ensures Extends(states[i].spool.identities, states[j].spool.identities)
  {
    RunEvolves(states, acts, i, j);
  }

  lemma OneSpool(states: seq<Sys>, acts: seq<Act>, i: nat)
    requires Run(states, acts) && i <= |acts|
    ensures states[i].spool.id == states[0].spool.id
  {
    RunEvolves(states, acts, 0, i);
  }

  /** The same fact about the map alone. */
  lemma LedgerIsWriteOnce(
    id: string, ledger: map<string, Identity>, first: Act, bound: map<string, Identity>,
    later: map<string, Identity>, last: map<string, Identity>, second: Act)
    requires first.Append? && second.Append? && first.key == second.key && first.answer.Success?
    requires AppendsTo(id, ledger, first, bound) && Extends(bound, later) && AppendsTo(id, later, second, last)
    ensures Seen(second.answer)
            == if Body(second.payload) == Body(first.payload) then Seen(first.answer) else Failure(Conflict)
  {
    var key := first.key;
    assert key in bound && bound[key].sha == DigestOf(key, first.payload);
    assert key in later && later[key] == bound[key];
    assert DigestOf(key, second.payload) == DigestOf(key, first.payload)
           <==> Body(second.payload) == Body(first.payload);
  }

  lemma SealingKeepsBody(id: string, identity: Identity)
    requires "ingress" !in identity.sha.body
    ensures Body(Sealed(id, identity)) == identity.sha.body
  {
  }

  /**
    An append rewrites the caller's payload in place; appending the rewritten object again
    is the same append, because the envelope is no part of what is hashed.
   */
  lemma RewrittenPayloadIsTheSame(
    id: string, ledger: map<string, Identity>, payload: Fields, key: string, iso: string, weather: Weather)
    requires forall k :: k in ledger ==> "ingress" !in ledger[k].sha.body
    requires LedgerAppend(id, ledger, payload, key, iso, weather).1.Success?
    ensures var (bound, answer) := LedgerAppend(id, ledger, payload, key, iso, weather);
            forall iso', weather' ::
              LedgerAppend(id, bound, answer.value.payload, key, iso', weather') == (bound, answer)
  {
    var (bound, answer) := LedgerAppend(id, ledger, payload, key, iso, weather);
    SealingKeepsBody(id, bound[key]);
  }
}
