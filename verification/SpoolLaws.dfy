/**
  What a user of the outbox can count on, said without the rows an operation writes: when an
  event is handed out, how long a retry waits, how long a settled row is kept, and what makes
  two payloads the same.
 */
module SpoolLaws {
  import opened Wrappers
  import opened Spool
  import opened SpoolRuns

  // ---------------------------------------------------------------- an appended event is replayed

  predicate Retries(act: Act, n: nat) {
    act.RetryLater? && act.record.sequence == n
  }

  /** No retry of the record came between. */
  predicate NoRetry(acts: seq<Act>, n: nat, i: nat, j: nat)
    requires j <= |acts|
  {
    forall k :: i <= k < j ==> !Retries(acts[k], n)
  }

  /** A row that waits afterwards waited before, for the same time. */
  ghost predicate SameWait(s: State, s': State, n: nat) {
    IsPending(s', n) ==>
      && IsPending(s, n)
      && s'.rows[n].nextAttemptAt == s.rows[n].nextAttemptAt
      && s'.rows[n].attempts == s.rows[n].attempts
  }

  lemma SameWaitOn(a: State, b: State, c: State, n: nat)
    requires SameWait(a, b, n) && SameWait(b, c, n)
    ensures SameWait(a, c, n)
  {
  }

  lemma CompactionPostponesNothing(s: State, clock: Clock, retention: real, force: bool, n: nat)
    ensures SameWait(s, Compacted(s, clock, retention, force), n)
  {
  }

  lemma AppendPostponesNothing(s: State, retention: real, act: Act, s': State, n: nat)
    requires act.Append? && SpoolStep(s, retention, act, s') && n != s.next
    ensures SameWait(s, s', n)
  {
    if act.key != "" && act.key !in s.identities && !act.weather.tooLarge {
      var c := Compacted(s, act.clock, retention, false);
      CompactionPostponesNothing(s, act.clock, retention, false, n);
      assert SameWait(c, s', n);
      SameWaitOn(s, c, s', n);
    }
  }

  lemma HeadPostponesNothing(q: State, clock: Clock, retention: real, s': State, r: Option<Record>, n: nat)
    requires NextHead(q, clock, retention, s', r)
    ensures SameWait(q, s', n)
  {
    CompactionPostponesNothing(q, clock, retention, false, n);
  }

  lemma ReplayPostponesNothing(s: State, clock: Clock, retention: real, s': State, r: Option<Record>, n: nat)
    requires NextSpec(s, clock, retention, s', r)
    ensures SameWait(s, s', n)
  {
    var q :| Passed(s, clock.wall, q) && NextHead(q, clock, retention, s', r);
    HeadPostponesNothing(q, clock, retention, s', r, n);
    assert SameWait(s, q, n);
    SameWaitOn(s, q, s', n);
  }

  lemma DeliverPostponesNothing(s: State, retention: real, act: Act, s': State, n: nat)
    requires (act.Deliver? || act.DeliverThenCrash?) && SpoolStep(s, retention, act, s')
    ensures SameWait(s, s', n)
  {
    if act.Deliver? && s' != s {
      var m := Settled(s, act.record.sequence, act.receipt, act.clock.wall);
      CompactionPostponesNothing(m, act.clock, retention, false, n);
      assert SameWait(s, m, n);
      SameWaitOn(s, m, s', n);
    }
  }

  /** A step that is no retry of a row leaves it waiting for the same time. */
  lemma OnlyRetriesPostpone(s: State, retention: real, act: Act, s': State, n: nat)
    requires SpoolStep(s, retention, act, s') && !Retries(act, n) && n != s.next
    ensures SameWait(s, s', n)
  {
    match act
    case Append(_, _, _, _, _, _) => AppendPostponesNothing(s, retention, act, s', n);
    case Replay(clock, next) => ReplayPostponesNothing(s, clock, retention, s', next, n);
    case Deliver(_, _, _, _) => DeliverPostponesNothing(s, retention, act, s', n);
    case DeliverThenCrash(_, _, _) => DeliverPostponesNothing(s, retention, act, s', n);
    case Compaction(clock, force) => CompactionPostponesNothing(s, clock, retention, force, n);
    case RetryLater(_, _, _, _) =>
    case Refused(_, _) =>
    case Corrupt(_, _) =>
    case CoreStores(_) =>
    case CoreAnswers(_) =>
    case Restart =>
  }

  /** A row comes into being due. */
  lemma NewRowsAreDue(s: State, retention: real, act: Act, s': State, n: nat)
    requires Invariant(s) && SpoolStep(s, retention, act, s') && IsPending(s', n) && n == s.next
    ensures s'.rows[n].nextAttemptAt <= 0.0 && s'.rows[n].attempts == 0
  {
    SequencesBelowNext(s.rows, s.identities, s.next);
    if act.Append? {
      AppendedIsDue(s, retention, act, s', n);
    } else {
      StepAddsNoRow(s, retention, act, s', n);
    }
  }

  lemma AppendedIsDue(s: State, retention: real, act: Act, s': State, n: nat)
    requires act.Append? && SpoolStep(s, retention, act, s') && n !in s.rows && IsPending(s', n)
    ensures s'.rows[n].nextAttemptAt <= 0.0 && s'.rows[n].attempts == 0
  {
    if act.key != "" && act.key !in s.identities {
      assert n !in Compacted(s, act.clock, retention, false).rows;
    }
  }

  lemma StepAddsNoRow(s: State, retention: real, act: Act, s': State, n: nat)
    requires SpoolStep(s, retention, act, s') && !act.Append? && n !in s.rows
    ensures n !in s'.rows
  {
    if act.Replay? {
      var q :| Passed(s, act.clock.wall, q) && NextHead(q, act.clock, retention, s', act.next);
    }
  }

  /** In every reachable state a pending row that was never retried is due, whatever a clock past zero says. */
  lemma {:induction false} NeverRetriedIsDue(states: seq<Sys>, acts: seq<Act>, j: nat, n: nat)
    requires Run(states, acts) && j <= |acts| && NoRetry(acts, n, 0, j)
    requires IsPending(states[j].spool, n)
    ensures states[j].spool.rows[n].nextAttemptAt <= 0.0
    ensures states[j].spool.rows[n].attempts == 0
  {
    if j > 0 {
      assert StepAt(states, acts, j - 1);
      var s, s' := states[j - 1].spool, states[j].spool;
      NumberedBelow(states, acts, j, n);
      if n == s.next {
        NewIsDueAt(states, acts, j - 1, n);
      } else {
        OnlyRetriesPostpone(s, states[j - 1].retention, acts[j - 1], s', n);
        NeverRetriedIsDue(states, acts, j - 1, n);
      }
    }
  }

  lemma NewIsDueAt(states: seq<Sys>, acts: seq<Act>, i: nat, n: nat)
    requires Run(states, acts) && i < |acts| && n == states[i].spool.next && IsPending(states[i + 1].spool, n)
    ensures states[i + 1].spool.rows[n].nextAttemptAt <= 0.0 && states[i + 1].spool.rows[n].attempts == 0
  {
    RunKeepsSysInvariant(states, acts, i);
    assert StepAt(states, acts, i);
    NewRowsAreDue(states[i].spool, states[i].retention, acts[i], states[i + 1].spool, n);
  }

  lemma NumberedBelow(states: seq<Sys>, acts: seq<Act>, j: nat, n: nat)
    requires Run(states, acts) && j <= |acts| && n in states[j].spool.rows
    ensures 1 <= n < states[j].spool.next
  {
    RunKeepsSysInvariant(states, acts, j);
    SequencesBelowNext(states[j].spool.rows, states[j].spool.identities, states[j].spool.next);
  }

  /** A row waits as long as its last retry said, and no longer. */
  lemma {:induction false} RetryDecidesTheWait(states: seq<Sys>, acts: seq<Act>, k: nat, j: nat, n: nat)
    requires Run(states, acts) && k < j <= |acts|
    requires Retries(acts[k], n) && NoRetry(acts, n, k + 1, j)
    requires IsPending(states[k].spool, n) && IsPending(states[j].spool, n)
    ensures states[j].spool.rows[n].nextAttemptAt
            == acts[k].wall + Delay(acts[k].record.attempts + 1, acts[k].base)
    ensures states[j].spool.rows[n].attempts == acts[k].record.attempts + 1
    decreases j
  {
    if k + 1 == j {
      assert StepAt(states, acts, k);
    } else {
      NumberedBelow(states, acts, k, n);
      RunEvolves(states, acts, k, j - 1);
      assert StepAt(states, acts, j - 1);
      OnlyRetriesPostpone(states[j - 1].spool, states[j - 1].retention, acts[j - 1], states[j].spool, n);
      RetryDecidesTheWait(states, acts, k, j - 1, n);
    }
  }

  /** The head of the queue is handed out as soon as it is due, if it verifies. */
  lemma HeadIsHandedOut(s: State, clock: Clock, retention: real, s': State, r: Option<Record>, n: nat)
    requires NextSpec(s, clock, retention, s', r)
    requires LowestPending(s, n) && RowVerifies(s.id, n, s.rows[n]) && s.rows[n].nextAttemptAt <= clock.wall
    ensures r.Some? && Load(n, s.rows[n]) == Success(r.value) && r.value.sequence == n
  {
    var q :| Passed(s, clock.wall, q) && NextHead(q, clock, retention, s', r);
    SoundHeadStays(s, clock.wall, q, n);
    DueHeadAnswers(q, clock, retention, s', r, n);
  }

  lemma DueHeadAnswers(q: State, clock: Clock, retention: real, s': State, r: Option<Record>, n: nat)
    requires NextHead(q, clock, retention, s', r) && LowestPending(q, n) && q.rows[n].nextAttemptAt <= clock.wall
    ensures r.Some? && Load(n, q.rows[n]) == Success(r.value) && r.value.sequence == n
  {
    assert IsPending(q, n);
    if r.Some? {
      OneLowest(q, r.value.sequence, n);
    } else {
      forall m | LowestPending(q, m) ensures m == n {
        OneLowest(q, m, n);
      }
    }
  }

  lemma OneLowest(s: State, m: nat, n: nat)
    requires LowestPending(s, m) && LowestPending(s, n)
    ensures m == n
  {
  }

  /** Quarantining spoilt rows does not touch a sound head. */
  lemma SoundHeadStays(s: State, wall: real, q: State, n: nat)
    requires Passed(s, wall, q) && LowestPending(s, n) && RowVerifies(s.id, n, s.rows[n])
    ensures LowestPending(q, n) && q.rows[n] == s.rows[n]
  {
    assert q.rows[n] == s.rows[n];
    forall m | IsPending(q, m) ensures n <= m {
      assert IsPending(s, m);
    }
  }

  /**
    An event once appended is replayed: as long as nobody postponed it, the next look at a
    queue it heads hands out exactly the record its append answered with.
   */
  lemma AppendedEventIsReplayed(states: seq<Sys>, acts: seq<Act>, i: nat, j: nat)
    requires Run(states, acts) && NoCorruption(acts) && i < j < |acts|
    requires acts[i].Append? && acts[i].answer.Success? && acts[i].key !in states[i].spool.identities
    requires NoRetry(acts, acts[i].answer.value.sequence, 0, j)
    requires acts[j].Replay? && 0.0 <= acts[j].clock.wall
    requires LowestPending(states[j].spool, acts[i].answer.value.sequence)
    ensures acts[j].next == Some(acts[i].answer.value)
  {
    var n := acts[i].answer.value.sequence;
    NeverRetriedIsDue(states, acts, j, n);
    PendingHoldsTheAnswer(states, acts, i, j);
    assert StepAt(states, acts, j);
    HeadIsHandedOut(states[j].spool, acts[j].clock, states[j].retention, states[j + 1].spool, acts[j].next, n);
  }

  /** While it waits, a row never retried loads as the record its append answered with, and verifies. */
  lemma PendingHoldsTheAnswer(states: seq<Sys>, acts: seq<Act>, i: nat, j: nat)
    requires Run(states, acts) && NoCorruption(acts) && i < j <= |acts|
    requires acts[i].Append? && acts[i].answer.Success? && acts[i].key !in states[i].spool.identities
    requires NoRetry(acts, acts[i].answer.value.sequence, 0, j)
    requires IsPending(states[j].spool, acts[i].answer.value.sequence)
    ensures var s, n := states[j].spool, acts[i].answer.value.sequence;
            Load(n, s.rows[n]) == Success(acts[i].answer.value) && RowVerifies(s.id, n, s.rows[n])
  {
    var record := acts[i].answer.value;
    NeverRetriedIsDue(states, acts, j, record.sequence);
    RunKeepsSysInvariant(states, acts, j);
    RunStaysHonest(states, acts, j);
    AppendedStaysKnown(states, acts, i, j);
    FreshAnswerIsTheEnvelope(states, acts, i);
    OneSpool(states, acts, i);
    OneSpool(states, acts, j);
    HonestRowLoads(states[j].spool, record);
  }

  lemma HonestRowLoads(s: State, record: Record)
    requires Invariant(s) && Honest(s) && Known(s.identities, record) && record.sequence in s.rows
    requires s.rows[record.sequence].attempts == record.attempts && record.endpoint == EVENTS
    requires record.payload == Sealed(s.id, Identity(record.sequence, record.sha, record.capturedAt))
    ensures Load(record.sequence, s.rows[record.sequence]) == Success(record)
    ensures RowVerifies(s.id, record.sequence, s.rows[record.sequence])
  {
    var row := s.rows[record.sequence];
    assert RowAgrees(record.sequence, row, s.identities);
    OneKeyForASequence(s.identities, s.next, row.key, record.key);
    HonestRowVerifies(s, record.sequence);
  }

  lemma OneKeyForASequence(identities: map<string, Identity>, next: nat, a: string, b: string)
    requires IdentitiesDense(identities, next) && a in identities && b in identities
    requires identities[a].sequence == identities[b].sequence
    ensures a == b
  {
  }

  lemma FreshAnswerIsTheEnvelope(states: seq<Sys>, acts: seq<Act>, i: nat)
    requires Run(states, acts) && i < |acts|
    requires acts[i].Append? && acts[i].answer.Success? && acts[i].key !in states[i].spool.identities
    ensures var r := acts[i].answer.value;
            r == Record(r.sequence, EVENTS, acts[i].key,
                        Sealed(states[i].spool.id, Identity(r.sequence, r.sha, r.capturedAt)), r.sha, r.capturedAt, 0)
  {
    assert StepAt(states, acts, i);
  }

  // ---------------------------------------------------------------- retries

  lemma DoubledOnce(base: real, times: nat)
    ensures Doubled(base, times + 1) == Doubled(base, times) + Doubled(base, times)
  {
  }

  /**
    The wait in full: the first retry waits the base, at least a tenth of a second; each of
    the next ten waits twice as long as the one before; then it stays; and a minute is the most.
   */
  lemma DelayDoublesToAMinute(attempts: nat, base: real)
    requires 1 <= attempts
    ensures Delay(1, base) == if base < 0.1 then 0.1 else if base < 60.0 then base else 60.0
    ensures attempts <= 10 && Delay(attempts, base) < 60.0 ==>
              Delay(attempts + 1, base) == (if Delay(attempts, base) < 30.0 then 2.0 * Delay(attempts, base) else 60.0)
    ensures Delay(attempts, base) == 60.0 ==> Delay(attempts + 1, base) == 60.0
    ensures 11 <= attempts ==> Delay(attempts, base) == Delay(11, base)
  {
    DelayGrowsToAMinute(attempts, base);
    if attempts <= 10 {
      DoubledOnce(if base > 0.1 then base else 0.1, attempts - 1);
    }
  }

  // ---------------------------------------------------------------- receipts and retention

  /** A receipt is accepted for a pending record exactly if it names that record and is itself named. */
  lemma OnlyItsOwnReceiptSettles(
    s: State, record: Record, receipt: Fields, clock: Clock, retention: real, s': State, r: Result<(), Error>)
    requires IsPending(s, record.sequence) && AcknowledgeSpec(s, record, receipt, clock, retention, s', r)
    ensures r.Success? <==>
              && "spool_id" in receipt && receipt["spool_id"] == Text(s.id)
              && "sequence" in receipt && receipt["sequence"] == Number(record.sequence)
              && "record_sha256" in receipt && receipt["record_sha256"] == Hash(record.sha)
              && "outcome" in receipt && receipt["outcome"] in {Text("committed"), Text("duplicate")}
              && "receipt_id" in receipt && receipt["receipt_id"].Text? && receipt["receipt_id"].text != ""
    ensures r.Failure? ==> s' == s
  {
  }

  /** A settled row is kept for the retention time, to the second, and then goes. */
  lemma SettledRowAgesOut(
    s: State, record: Record, receipt: Fields, clock: Clock, retention: real, s': State, r: Result<(), Error>,
    later: Clock)
    requires IsPending(s, record.sequence) && AcknowledgeSpec(s, record, receipt, clock, retention, s', r)
    requires r.Success? && 0.0 <= retention <= clock.wall && retention <= later.wall
    ensures var n := record.sequence;
            && n in s'.rows && s'.rows[n].state.Committed?
            && s'.rows[n].committedAt == Some(clock.wall)
            && Some(Text(s'.rows[n].receiptId.value)) == Get(receipt, "receipt_id")
            && (later.wall <= clock.wall + retention ==> n in Compacted(s', later, retention, true).rows)
            && (later.wall >= clock.wall + retention + 1.0 ==> n !in Compacted(s', later, retention, true).rows)
  {
    var n := record.sequence;
    var row := CommittedRow(s.rows[n], receipt, clock.wall);
    CompactionKeepsTheYoung(Settled(s, n, receipt, clock.wall), clock, retention, false, n);
    assert s'.rows[n] == row;
    if later.wall <= clock.wall + retention {
      CompactionKeepsTheYoung(s', later, retention, true, n);
    }
    if later.wall >= clock.wall + retention + 1.0 {
      CompactionTakesTheOld(s', later, retention, n);
    }
  }

  /** Nothing unsettled and nothing younger than the retention time is ever deleted or changed by a compaction. */
  lemma CompactionKeepsTheYoung(s: State, clock: Clock, retention: real, force: bool, n: nat)
    requires n in s.rows && retention <= clock.wall
    requires !s.rows[n].state.Committed? || s.rows[n].committedAt.None?
             || clock.wall - s.rows[n].committedAt.value <= retention
    ensures n in Compacted(s, clock, retention, force).rows
    ensures Compacted(s, clock, retention, force).rows[n] == s.rows[n]
  {
    TruncateIsWhole(clock.wall - retention);
  }

  lemma CompactionTakesTheOld(s: State, clock: Clock, retention: real, n: nat)
    requires n in s.rows && retention <= clock.wall
    requires s.rows[n].state.Committed? && s.rows[n].committedAt.Some?
    requires clock.wall - s.rows[n].committedAt.value >= retention + 1.0
    ensures n !in Compacted(s, clock, retention, true).rows
  {
    TruncateIsWhole(clock.wall - retention);
  }

  lemma TruncateIsWhole(x: real)
    requires 0.0 <= x
    ensures Truncate(x) as real <= x < Truncate(x) as real + 1.0
  {
  }

  /** Compactions come at most once a minute, unless forced, and then take every row that is old enough. */
  lemma CompactionIsThrottled(s: State, clock: Clock, retention: real, n: nat)
    requires n in s.rows && retention <= clock.wall
    requires s.rows[n].state.Committed? && s.rows[n].committedAt.Some?
    requires clock.wall - s.rows[n].committedAt.value >= retention + 1.0
    ensures n in Compacted(s, clock, retention, false).rows <==> clock.monotonic < s.lastCompact + 60.0
  {
    CompactionTakesTheOld(s, clock, retention, n);
  }

  // ---------------------------------------------------------------- what an envelope says

  /** A sealed payload carries every field that was appended, and beside them only the envelope. */
  lemma SealedSays(id: string, key: string, payload: Fields, n: nat, iso: string, name: string)
    ensures var sealed := Sealed(id, Identity(n, DigestOf(key, payload), iso));
            if name != "ingress" then Get(sealed, name) == Get(payload, name)
            else Get(sealed, name)
                 == Some(Object(map["schema_version" := Text("1.0"), "spool_id" := Text(id), "sequence" := Number(n),
                                    "record_sha256" := Hash(DigestOf(key, payload)), "captured_at" := Text(iso)]))
  {
  }

  /**
    Once Core has answered for a record a consumer holds, the answer is taken, first or
    repeated, compacted or not; only a quarantined row refuses it, and stays as it was.
   */
  lemma AnswerIsTakenUnlessQuarantined(states: seq<Sys>, acts: seq<Act>, i: nat)
    requires Run(states, acts) && i < |acts| && acts[i].Deliver?
    requires Accepts(states[i].spool.id, acts[i].record, acts[i].receipt)
    ensures var s, n := states[i].spool, acts[i].record.sequence;
            && (acts[i].outcome.Success? <==> !(n in s.rows && s.rows[n].state.Quarantined?))
            && (acts[i].outcome.Failure? || !IsPending(s, n) ==> states[i + 1].spool == s)
            && (acts[i].outcome.Success? && n in states[i + 1].spool.rows ==>
                  states[i + 1].spool.rows[n].state.Committed?)
  {
    RunKeepsSysInvariant(states, acts, i);
    assert StepAt(states, acts, i);
    assert Known(states[i].spool.identities, acts[i].record);
  }
}
