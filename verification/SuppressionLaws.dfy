/**
  What the search of the history means, said on the history itself: an entry is born by an
  install that found nothing, lives while somebody installs it again or asks for it in time,
  carries the claim it was born with, and is acknowledged once anybody acknowledged it.
 */
module SuppressionLaws {
  import opened Wrappers
  import opened SuppressionTracker

  /** Operation `i` keeps the key alive: it installs it or asks for it. */
  predicate Refreshes(log: seq<Op>, key: Key, i: nat)
    requires i < |log|
  {
    log[i].key == key && (log[i].Install? || log[i].Match?)
  }

  /** The latest refresh of the key before `j`, looking back no further than `b`. */
  predicate LastRefresh(log: seq<Op>, key: Key, b: nat, j: nat, i: nat)
    requires j <= |log|
  {
    && b <= i < j && Refreshes(log, key, i)
    && forall k :: i < k < j ==> !Refreshes(log, key, k)
  }

  /** Operation `j` came within the time to live of the latest refresh before it. */
  ghost predicate InTime(log: seq<Op>, key: Key, ttl: real, b: nat, j: nat)
    requires j < |log|
  {
    exists i: nat :: LastRefresh(log, key, b, j, i) && log[j].now - log[i].now <= ttl
  }

  /** Install `b` put the key in the table and it has not expired between two operations since. */
  ghost predicate AliveSince(log: seq<Op>, key: Key, ttl: real, b: nat) {
    && b < |log| && log[b].Install? && log[b].key == key
    && forall j :: b < j < |log| && log[j].key == key ==> InTime(log, key, ttl, b, j)
  }

  ghost predicate Born(log: seq<Op>, key: Key, ttl: real, b: nat) {
    AliveSince(log, key, ttl, b) && forall a :: 0 <= a < b ==> !AliveSince(log, key, ttl, a)
  }

  ghost predicate AcknowledgedSince(log: seq<Op>, key: Key, b: nat) {
    exists j :: b < j < |log| && log[j].key == key && log[j].SetAcknowledged? && log[j].acknowledged
  }

  /** The entry is the one born at `b`: its claim, its last refresh, its acknowledgement. */
  ghost predicate Describes(entry: Entry, log: seq<Op>, key: Key, ttl: real, b: nat, t: nat) {
    && Born(log, key, ttl, b) && LastRefresh(log, key, b, |log|, t)
    && entry.touchedAt == log[t].now
    && entry.record.key == key && entry.record.claimId == log[b].claimId && entry.record.reason == log[b].reason
    && (entry.record.acknowledged <==> AcknowledgedSince(log, key, b))
  }

  // ---------------------------------------------------------------- one operation more

  lemma LastRefreshStays(log: seq<Op>, op: Op, key: Key, b: nat, j: nat, i: nat)
    requires j <= |log|
    ensures LastRefresh(log + [op], key, b, j, i) <==> LastRefresh(log, key, b, j, i)
  {
    var longer := log + [op];
    forall k | 0 <= k < |log| ensures Refreshes(longer, key, k) == Refreshes(log, key, k) {
      assert longer[k] == log[k];
    }
  }

  lemma InTimeStays(log: seq<Op>, op: Op, key: Key, ttl: real, b: nat, j: nat)
    requires j < |log|
    ensures InTime(log + [op], key, ttl, b, j) <==> InTime(log, key, ttl, b, j)
  {
    var longer := log + [op];
    assert longer[j] == log[j];
    forall i: nat | i < j
      ensures LastRefresh(longer, key, b, j, i) <==> LastRefresh(log, key, b, j, i)
      ensures longer[i] == log[i]
    {
      LastRefreshStays(log, op, key, b, j, i);
    }
  }

  /** Being alive since `b` survives an operation exactly if that leaves the key alone or comes in time. */
  lemma AliveOneMore(log: seq<Op>, op: Op, key: Key, ttl: real, b: nat)
    requires b < |log|
    ensures AliveSince(log + [op], key, ttl, b)
            <==> AliveSince(log, key, ttl, b) && (op.key == key ==> InTime(log + [op], key, ttl, b, |log|))
  {
    var longer := log + [op];
    assert longer[b] == log[b] && longer[|log|] == op;
    forall j | b < j < |log|
      ensures longer[j] == log[j] && (InTime(longer, key, ttl, b, j) <==> InTime(log, key, ttl, b, j))
    {
      InTimeStays(log, op, key, ttl, b, j);
    }
  }

  /** Whatever chain of refreshes one looks at, the latest refresh is the same. */
  lemma OneLastRefresh(log: seq<Op>, key: Key, b: nat, c: nat, j: nat, t: nat)
    requires j <= |log| && LastRefresh(log, key, b, j, t) && c < j && Refreshes(log, key, c)
    ensures c <= t && LastRefresh(log, key, c, j, t)
  {
  }

  /** An operation on another key changes nothing for this one. */
  lemma OtherKeysDoNotMatter(log: seq<Op>, op: Op, key: Key, ttl: real, b: nat, t: nat)
    requires op.key != key && b < |log|
    ensures AliveSince(log + [op], key, ttl, b) <==> AliveSince(log, key, ttl, b)
    ensures LastRefresh(log + [op], key, b, |log| + 1, t) <==> LastRefresh(log, key, b, |log|, t)
    ensures AcknowledgedSince(log + [op], key, b) <==> AcknowledgedSince(log, key, b)
  {
    var longer := log + [op];
    AliveOneMore(log, op, key, ttl, b);
    LastRefreshStays(log, op, key, b, |log|, t);
    assert longer[|log|] == op;
    assert forall j :: 0 <= j < |log| ==> longer[j] == log[j];
    if AcknowledgedSince(longer, key, b) {
      var j: nat :| b < j < |longer| && longer[j].key == key && longer[j].SetAcknowledged? && longer[j].acknowledged;
      assert log[j] == longer[j];
    }
    if AcknowledgedSince(log, key, b) {
      var j: nat :| b < j < |log| && log[j].key == key && log[j].SetAcknowledged? && log[j].acknowledged;
      assert longer[j] == log[j];
    }
  }

  lemma AcknowledgedOneMore(log: seq<Op>, op: Op, key: Key, b: nat)
    requires b < |log| && op.key == key
    ensures AcknowledgedSince(log + [op], key, b)
            <==> AcknowledgedSince(log, key, b) || (op.SetAcknowledged? && op.acknowledged)
  {
    var longer := log + [op];
    assert longer[|log|] == op;
    if AcknowledgedSince(log, key, b) {
      var j: nat :| b < j < |log| && log[j].key == key && log[j].SetAcknowledged? && log[j].acknowledged;
      assert longer[j] == log[j];
    }
    if AcknowledgedSince(longer, key, b) {
      var j: nat :| b < j < |longer| && longer[j].key == key && longer[j].SetAcknowledged? && longer[j].acknowledged;
      assert j < |log| ==> log[j] == longer[j];
    }
  }

  /** An operation that comes in time finds the entry alive. */
  lemma InTimeKeepsAlive(log: seq<Op>, op: Op, key: Key, ttl: real, b: nat, t: nat, entry: Entry)
    requires Describes(entry, log, key, ttl, b, t) && op.key == key && op.now - entry.touchedAt <= ttl
    ensures Born(log + [op], key, ttl, b)
  {
    var longer := log + [op];
    LastRefreshStays(log, op, key, b, |log|, t);
    assert longer[|log|] == op && longer[t] == log[t];
    assert InTime(longer, key, ttl, b, |log|);
    AliveOneMore(log, op, key, ttl, b);
    forall a | 0 <= a < b ensures !AliveSince(longer, key, ttl, a) {
      AliveOneMore(log, op, key, ttl, a);
    }
  }

  /** One that comes too late finds nothing alive, however far one looks back. */
  lemma TooLateFindsNothing(log: seq<Op>, op: Op, key: Key, ttl: real, b: nat, t: nat, entry: Entry, c: nat)
    requires Describes(entry, log, key, ttl, b, t) && op.key == key && op.now - entry.touchedAt > ttl
    requires c < |log|
    ensures !AliveSince(log + [op], key, ttl, c)
  {
    var longer := log + [op];
    AliveOneMore(log, op, key, ttl, c);
    if AliveSince(log, key, ttl, c) {
      assert Refreshes(log, key, c);
      OneLastRefresh(log, key, b, c, |log|, t);
      forall i: nat | LastRefresh(longer, key, c, |log|, i) ensures longer[|log|].now - longer[i].now > ttl {
        LastRefreshStays(log, op, key, c, |log|, i);
        SameLastRefresh(log, key, c, |log|, i, t);
        assert longer[i] == log[i] && longer[|log|] == op;
      }
    }
  }

  lemma SameLastRefresh(log: seq<Op>, key: Key, b: nat, j: nat, i: nat, t: nat)
    requires j <= |log| && LastRefresh(log, key, b, j, i) && LastRefresh(log, key, b, j, t)
    ensures i == t
  {
  }

  // ---------------------------------------------------------------- the search is the history

  /** Where nothing is alive, an install gives birth, and nothing else does. */
  lemma Birth(log: seq<Op>, op: Op, key: Key, ttl: real)
    requires op.key == key && forall c :: 0 <= c < |log| ==> !AliveSince(log + [op], key, ttl, c)
    ensures op.Install? ==>
              Describes(Entry(op.now, ClaimSuppression(key, op.claimId, op.reason, false)), log + [op], key, ttl,
                        |log|, |log|)
    ensures !op.Install? ==> forall c :: 0 <= c <= |log| ==> !AliveSince(log + [op], key, ttl, c)
  {
    assert (log + [op])[|log|] == op;
  }

  lemma NothingAliveStays(log: seq<Op>, op: Op, key: Key, ttl: real)
    requires forall c :: 0 <= c < |log| ==> !AliveSince(log, key, ttl, c)
    ensures forall c :: 0 <= c < |log| ==> !AliveSince(log + [op], key, ttl, c)
  {
    forall c | 0 <= c < |log| ensures !AliveSince(log + [op], key, ttl, c) {
      AliveOneMore(log, op, key, ttl, c);
    }
  }

  /** A living entry after an operation on its key. */
  lemma LivesOn(log: seq<Op>, op: Op, key: Key, ttl: real, b: nat, t: nat, entry: Entry)
    requires Describes(entry, log, key, ttl, b, t) && op.key == key && op.now - entry.touchedAt <= ttl
    ensures Touch(Some(entry), op).Some?
    ensures Describes(Touch(Some(entry), op).value, log + [op], key, ttl, b, if op.SetAcknowledged? then t else |log|)
  {
    var longer := log + [op];
    InTimeKeepsAlive(log, op, key, ttl, b, t, entry);
    AcknowledgedOneMore(log, op, key, b);
    LastRefreshStays(log, op, key, b, |log|, t);
    assert longer[|log|] == op && longer[t] == log[t] && longer[b] == log[b];
  }

  lemma StaysAsItIs(log: seq<Op>, op: Op, key: Key, ttl: real, b: nat, t: nat, entry: Entry)
    requires Describes(entry, log, key, ttl, b, t) && op.key != key
    ensures Describes(entry, log + [op], key, ttl, b, t)
  {
    var longer := log + [op];
    OtherKeysDoNotMatter(log, op, key, ttl, b, t);
    assert longer[t] == log[t] && longer[b] == log[b];
    forall a | 0 <= a < b ensures !AliveSince(longer, key, ttl, a) {
      OtherKeysDoNotMatter(log, op, key, ttl, a, t);
    }
  }

  /** Does the search of the history say what the history says? */
  ghost predicate Told(log: seq<Op>, key: Key, ttl: real) {
    match Recall(log, key, ttl)
    case None => forall c :: 0 <= c < |log| ==> !AliveSince(log, key, ttl, c)
    case Some(entry) => exists b: nat, t: nat :: Describes(entry, log, key, ttl, b, t)
  }

  lemma OneMoreIsTold(log: seq<Op>, op: Op, key: Key, ttl: real)
    requires Told(log, key, ttl)
    ensures Told(log + [op], key, ttl)
  {
    RecallSnoc(log, op, key, ttl);
    var longer := log + [op];
    match Recall(log, key, ttl) {
      case None =>
        NothingAliveStays(log, op, key, ttl);
        if op.key == key {
          Birth(log, op, key, ttl);
        } else {
          assert longer[|log|] == op;
        }
      case Some(entry) =>
        var b: nat, t: nat :| Describes(entry, log, key, ttl, b, t);
        if op.key != key {
          StaysAsItIs(log, op, key, ttl, b, t, entry);
        } else if op.now - entry.touchedAt <= ttl {
          LivesOn(log, op, key, ttl, b, t, entry);
        } else {
          forall c | 0 <= c < |log| ensures !AliveSince(longer, key, ttl, c) {
            TooLateFindsNothing(log, op, key, ttl, b, t, entry, c);
          }
          Birth(log, op, key, ttl);
        }
    }
  }

  /**
    The search answers with an entry exactly if some install has kept the key alive, and then
    with the claim of the first such install, the time of the last refresh, and whether anyone
    acknowledged it since.
   */
  lemma {:induction false} RecallIsHistory(log: seq<Op>, key: Key, ttl: real)
    ensures Told(log, key, ttl)
  {
    if log != [] {
      var n := |log| - 1;
      RecallIsHistory(log[..n], key, ttl);
      OneMoreIsTold(log[..n], log[n], key, ttl);
      assert log[..n] + [log[n]] == log;
    }
  }

  /** The table's answer to a look-up is the history's own, for every key that was never evicted. */
  lemma TableTellsTheHistory(tracker: OutboundSuppressionTracker, key: Key, now: real)
    requires tracker.Valid() && key !in tracker.evicted && tracker.clock <= now
    ensures key in tracker.entries && now - tracker.entries[key].touchedAt <= tracker.ttl ==>
              exists b: nat, t: nat :: Describes(tracker.entries[key], tracker.log, key, tracker.ttl, b, t)
    ensures key !in tracker.entries || now - tracker.entries[key].touchedAt > tracker.ttl ==>
              forall b: nat, t: nat ::
                AliveSince(tracker.log, key, tracker.ttl, b) && LastRefresh(tracker.log, key, b, |tracker.log|, t) ==>
                  now - tracker.log[t].now > tracker.ttl
  {
    AgreementAges(tracker.entries, tracker.log, tracker.clock, now, tracker.ttl, tracker.evicted);
    assert AgreesOn(tracker.entries, tracker.log, key, now, tracker.ttl);
    RecallIsHistory(tracker.log, key, tracker.ttl);
    if Recall(tracker.log, key, tracker.ttl).Some? {
      var entry := Recall(tracker.log, key, tracker.ttl).value;
      var b0: nat, t0: nat :| Describes(entry, tracker.log, key, tracker.ttl, b0, t0);
      forall b: nat, t: nat |
        AliveSince(tracker.log, key, tracker.ttl, b) && LastRefresh(tracker.log, key, b, |tracker.log|, t)
        ensures t == t0
      {
        assert Refreshes(tracker.log, key, b);
        OneLastRefresh(tracker.log, key, b0, b, |tracker.log|, t0);
        SameLastRefresh(tracker.log, key, b, |tracker.log|, t, t0);
      }
    }
  }

  /** The table never grows past its limit, and every entry carries the claim some install of its key brought. */
  lemma TableIsBounded(tracker: OutboundSuppressionTracker)
    requires tracker.Valid()
    ensures |tracker.entries| <= tracker.maxEntries
    ensures forall key :: key in tracker.entries ==>
              exists i :: 0 <= i < |tracker.log| && tracker.log[i].Install? && tracker.log[i].key == key
                          && tracker.log[i].claimId == tracker.entries[key].record.claimId
                          && tracker.log[i].reason == tracker.entries[key].record.reason
    ensures tracker.evicted != {} ==> tracker.maxEntries < |InstalledKeys(tracker.log)|
  {
    forall key | key in tracker.entries
      ensures exists i :: 0 <= i < |tracker.log| && tracker.log[i].Install? && tracker.log[i].key == key
                          && tracker.log[i].claimId == tracker.entries[key].record.claimId
                          && tracker.log[i].reason == tracker.entries[key].record.reason
    {
      assert SourcedAt(tracker.entries[key].record, tracker.log, key);
    }
  }
}
