/**
  The durable ingress outbox: a write-once identity table, one row per record that has
  not been compacted away, a sequence counter and the health counters.

  Every operation is specified over a `State` value; the class updates the same columns
  in place and is proved against those specifications.  SHA-256 is symbolic: a digest
  carries the material it hashes, so equal digests mean equal material.
 */
module Spool {
  import opened Wrappers

  datatype Json =
    | Null
    | Bool(truth: bool)
    | Number(number: int)
    | Text(text: string)
    | Array(items: seq<Json>)
    | Object(fields: Fields)
    | Hash(digest: Digest)

  type Fields = map<string, Json>

  datatype Digest = Sha256(endpoint: string, key: string, body: Fields)

  const EVENTS: string := "/v1/events"

  datatype Record = Record(
    sequence: nat, endpoint: string, key: string, payload: Fields,
    sha: Digest, capturedAt: string, attempts: nat)

  /** What the payload column decodes to. */
  datatype Stored = Decoded(json: Json) | Undecodable

  datatype RowState = Pending | Committed | Quarantined

  datatype Row = Row(
    endpoint: string, key: string, stored: Stored, sha: Digest, capturedAt: string,
    state: RowState, attempts: nat, nextAttemptAt: real,
    lastError: Option<string>, receiptId: Option<string>, committedAt: Option<real>)

  datatype Identity = Identity(sequence: nat, sha: Digest, capturedAt: string)

  /** `lost` is a history variable: commits whose success counter a crash swallowed. */
  datatype State = State(
    id: string,
    rows: map<nat, Row>,
    identities: map<string, Identity>,
    next: nat,
    captureFailures: nat, quotaRejections: nat, replaySuccesses: nat, replayFailures: nat,
    lastError: string, lastCompact: real, lost: nat)

  datatype Clock = Clock(wall: real, monotonic: real, iso: string)

  datatype Error =
    | MissingKey | Conflict | TooLarge | QuotaExceeded | RolledBack | Unreadable | ReceiptMismatch

  // ---------------------------------------------------------------- envelopes

  function Body(payload: Fields): Fields {
    payload - {"ingress"}
  }

  function DigestOf(key: string, payload: Fields): Digest {
    Sha256(EVENTS, key, Body(payload))
  }

  function Envelope(id: string, sequence: nat, sha: Digest, capturedAt: string): Json {
    Object(map["schema_version" := Text("1.0"), "spool_id" := Text(id), "sequence" := Number(sequence),
               "record_sha256" := Hash(sha), "captured_at" := Text(capturedAt)])
  }

  function Sealed(id: string, identity: Identity): Fields {
    identity.sha.body["ingress" := Envelope(id, identity.sequence, identity.sha, identity.capturedAt)]
  }

  /** The record an append of `key` returned the first time. */
  function Original(id: string, key: string, identity: Identity): Record {
    Record(identity.sequence, EVENTS, key, Sealed(id, identity), identity.sha, identity.capturedAt, 0)
  }

  function Get(fields: Fields, name: string): Option<Json> {
    if name in fields then Some(fields[name]) else None
  }

  function Load(sequence: nat, row: Row): Result<Record, Error> {
    match row.stored
    case Decoded(Object(payload)) =>
      Success(Record(sequence, row.endpoint, row.key, payload, row.sha, row.capturedAt, row.attempts))
    case _ => Failure(Unreadable)
  }

  predicate Verifies(id: string, record: Record) {
    match Get(record.payload, "ingress")
    case Some(Object(ingress)) =>
      && Get(ingress, "spool_id") == Some(Text(id))
      && Get(ingress, "sequence") == Some(Number(record.sequence))
      && Get(ingress, "record_sha256") == Some(Hash(record.sha))
      && Get(ingress, "captured_at") == Some(Text(record.capturedAt))
      && Sha256(record.endpoint, record.key, Body(record.payload)) == record.sha
    case _ => false
  }

  predicate RowVerifies(id: string, sequence: nat, row: Row) {
    var loaded := Load(sequence, row);
    loaded.Success? && Verifies(id, loaded.value)
  }

  // ---------------------------------------------------------------- invariant

  ghost predicate IdentityWellFormed(key: string, identity: Identity, next: nat) {
    && 1 <= identity.sequence < next
    && identity.sha.endpoint == EVENTS
    && identity.sha.key == key
    && "ingress" !in identity.sha.body
  }

  /** Write-once identities: one per sequence issued so far, no sequence shared. */
  ghost predicate IdentitiesDense(identities: map<string, Identity>, next: nat) {
    && next == |identities| + 1
    && (forall key :: key in identities ==> IdentityWellFormed(key, identities[key], next))
    && (forall a, b :: a in identities && b in identities && a != b
          ==> identities[a].sequence != identities[b].sequence)
  }

  ghost predicate RowAgrees(n: nat, row: Row, identities: map<string, Identity>) {
    && row.endpoint == EVENTS
    && row.key in identities
    && identities[row.key] == Identity(n, row.sha, row.capturedAt)
  }

  ghost predicate RowsAgree(rows: map<nat, Row>, identities: map<string, Identity>) {
    forall n :: n in rows ==> RowAgrees(n, rows[n], identities)
  }

  /** Rows still to be settled: pending or quarantined. */
  ghost function Unsettled(rows: map<nat, Row>): set<nat> {
    set n | n in rows && !rows[n].state.Committed?
  }

  ghost predicate Invariant(s: State) {
    Consistent(s.rows, s.identities, s.next, s.replaySuccesses + s.lost)
  }

  /** Over the columns it is about: every sequence issued is unsettled or counted as settled. */
  ghost predicate Consistent(rows: map<nat, Row>, identities: map<string, Identity>, next: nat, settled: nat) {
    && IdentitiesDense(identities, next)
    && RowsAgree(rows, identities)
    && next - 1 == |Unsettled(rows)| + settled
  }

  /** The payload column still holds the bytes the append wrote. */
  ghost predicate RowHonest(id: string, n: nat, row: Row) {
    row.stored == Decoded(Object(Sealed(id, Identity(n, row.sha, row.capturedAt))))
  }

  ghost predicate Honest(s: State) {
    forall n :: n in s.rows ==> RowHonest(s.id, n, s.rows[n])
  }

  ghost predicate IsPending(s: State, n: nat) {
    n in s.rows && s.rows[n].state.Pending?
  }

  ghost function PendingSet(s: State): set<nat> {
    set n | n in s.rows && s.rows[n].state.Pending?
  }

  ghost predicate LowestPending(s: State, n: nat) {
    IsPending(s, n) && forall m :: IsPending(s, m) ==> n <= m
  }

  // ---------------------------------------------------------------- operations

  /** Seconds are compared as SQLite and `int` compare them: whole, floored. */
  predicate Stale(row: Row, cutoff: int) {
    row.state.Committed? && row.committedAt.Some? && row.committedAt.value.Floor < cutoff
  }

  function Truncate(x: real): int {
    if x >= 0.0 then x.Floor else -((-x).Floor)
  }

  function Compacted(s: State, clock: Clock, retention: real, force: bool): State {
    if !force && clock.monotonic - s.lastCompact < 60.0 then s
    else
      var cutoff := Truncate(clock.wall - retention);
      s.(rows := Kept(s.rows, cutoff), lastCompact := clock.monotonic)
  }

  /** What one sweep leaves: everything but the committed rows older than the cutoff. */
  function Kept(rows: map<nat, Row>, cutoff: int): map<nat, Row> {
    map n | n in rows && !Stale(rows[n], cutoff) :: rows[n]
  }

  /** What the outside world decides during an append: sizes, quota, and where a transaction may fail. */
  datatype Weather = Weather(tooLarge: bool, overQuota: bool, failsAt: Option<nat>)

  const STAGES: nat := 4

  function FreshRow(id: string, key: string, identity: Identity): Row {
    Row(EVENTS, key, Decoded(Object(Sealed(id, identity))), identity.sha, identity.capturedAt,
        Pending, 0, 0.0, None, None, None)
  }

  /** The state an append that wins through leaves, given the compacted state it started from. */
  ghost function Appended(c: State, key: string, sha: Digest, iso: string): State {
    var identity := Identity(c.next, sha, iso);
    c.(identities := c.identities[key := identity],
       rows := c.rows[c.next := FreshRow(c.id, key, identity)],
       next := c.next + 1)
  }

  /** The key is taken by other content: only the failure counter moves. */
  ghost predicate ConflictSpec(s: State, s': State, r: Result<Record, Error>) {
    && s' == s.(captureFailures := s.captureFailures + 1, lastError := "idempotency_key_payload_conflict")
    && r == Failure(Conflict)
  }

  /** The key is known: whether its row is still there must not show, except in the attempt count. */
  ghost predicate KnownSpec(s: State, key: string, s': State, r: Result<Record, Error>)
    requires key in s.identities
  {
    var original := Original(s.id, key, s.identities[key]);
    && s' == s
    && (r.Failure? ==> r.error == Unreadable && !Honest(s))
    && (r.Success? ==>
          && r.value.(payload := map[], attempts := 0) == original.(payload := map[])
          && (Honest(s) ==> r.value.payload == original.payload))
  }

  /** From the compacted state `c`, the quota decides, then the transaction. */
  ghost predicate AdmitSpec(
    c: State, payload: Fields, key: string, iso: string, weather: Weather, s': State, r: Result<Record, Error>)
  {
    if weather.overQuota then
      && s' == c.(captureFailures := c.captureFailures + 1, quotaRejections := c.quotaRejections + 1,
                  lastError := "spool_quota_exceeded")
      && r == Failure(QuotaExceeded)
    else if weather.failsAt.Some? && weather.failsAt.value < STAGES then
      s' == c && r == Failure(RolledBack)
    else
      && s' == Appended(c, key, DigestOf(key, payload), iso)
      && r == Success(Original(c.id, key, Identity(c.next, DigestOf(key, payload), iso)))
  }

  ghost predicate FreshSpec(
    s: State, payload: Fields, key: string, clock: Clock, retention: real, weather: Weather,
    s': State, r: Result<Record, Error>)
  {
    if weather.tooLarge then
      && s' == s.(captureFailures := s.captureFailures + 1, lastError := "record_too_large")
      && r == Failure(TooLarge)
    else
      AdmitSpec(Compacted(s, clock, retention, false), payload, key, clock.iso, weather, s', r)
  }

  ghost predicate AppendSpec(
    s: State, payload: Fields, key: string, clock: Clock, retention: real, weather: Weather,
    s': State, r: Result<Record, Error>)
  {
    if key == "" then s' == s && r == Failure(MissingKey)
    else if key !in s.identities then FreshSpec(s, payload, key, clock, retention, weather, s', r)
    else if s.identities[key].sha != DigestOf(key, payload) then ConflictSpec(s, s', r)
    else KnownSpec(s, key, s', r)
  }

  function QuarantinedRow(row: Row, error: string): Row {
    row.(state := Quarantined, lastError := Some(error))
  }

  /** `s'` is `s` after quarantining some due pending rows, all of which fail verification. */
  ghost predicate SkippedTo(s: State, wall: real, s': State) {
    && s'.rows.Keys == s.rows.Keys
    && (forall n :: n in s.rows ==>
          || s'.rows[n] == s.rows[n]
          || (&& IsPending(s, n)
              && s.rows[n].nextAttemptAt <= wall
              && !RowVerifies(s.id, n, s.rows[n])
              && s'.rows[n].lastError.Some?
              && s'.rows[n] == QuarantinedRow(s.rows[n], s'.rows[n].lastError.value)))
    && s.replayFailures <= s'.replayFailures
    && s' == s.(rows := s'.rows, replayFailures := s'.replayFailures, lastError := s'.lastError)
  }

  /** What the head of the queue answers once nothing unverifiable is in front of it. */
  ghost predicate NextHead(q: State, clock: Clock, retention: real, s': State, r: Option<Record>) {
    match r
    case Some(record) =>
      && s' == q
      && LowestPending(q, record.sequence)
      && q.rows[record.sequence].nextAttemptAt <= clock.wall
      && Load(record.sequence, q.rows[record.sequence]) == Success(record)
      && Verifies(q.id, record)
    case None =>
      || (s' == Compacted(q, clock, retention, false) && forall n :: !IsPending(q, n))
      || (s' == q && exists n :: LowestPending(q, n) && q.rows[n].nextAttemptAt > clock.wall)
  }

  /** What was quarantined on the way stood in front of all that still waits. */
  ghost predicate InFront(s: State, q: State) {
    forall n: nat, m: nat :: Skipped(s, q, n) && IsPending(q, m) ==> n < m
  }

  ghost predicate Skipped(s: State, q: State, n: nat) {
    n in s.rows && n in q.rows && q.rows[n] != s.rows[n]
  }

  ghost predicate NextSpec(s: State, clock: Clock, retention: real, s': State, r: Option<Record>) {
    exists q :: Passed(s, clock.wall, q) && NextHead(q, clock, retention, s', r)
  }

  ghost predicate Passed(s: State, wall: real, q: State) {
    SkippedTo(s, wall, q) && InFront(s, q)
  }

  /** The receipt names this very record, in this very spool, as stored. */
  predicate Accepts(id: string, record: Record, receipt: Fields) {
    && Get(receipt, "spool_id") == Some(Text(id))
    && Get(receipt, "sequence") == Some(Number(record.sequence))
    && Get(receipt, "record_sha256") == Some(Hash(record.sha))
    && Get(receipt, "outcome") in {Some(Text("committed")), Some(Text("duplicate"))}
    && match Get(receipt, "receipt_id")
       case Some(Text(name)) => name != ""
       case _ => false
  }

  function CommittedRow(row: Row, receipt: Fields, wall: real): Row {
    row.(state := Committed, committedAt := Some(wall), lastError := None,
         receiptId := match Get(receipt, "receipt_id") case Some(Text(name)) => Some(name) case _ => None)
  }

  ghost function Settled(s: State, n: nat, receipt: Fields, wall: real): State
    requires n in s.rows
  {
    s.(rows := s.rows[n := CommittedRow(s.rows[n], receipt, wall)],
       replaySuccesses := s.replaySuccesses + 1, lastError := "")
  }

  /** A receipt for a record already settled, whether or not its row has been compacted away. */
  predicate AlreadySettled(rows: map<nat, Row>, identities: map<string, Identity>, record: Record) {
    var n := record.sequence;
    if n in rows then rows[n].state.Committed?
    else && record.key in identities
         && identities[record.key].sequence == n
         && identities[record.key].sha == record.sha
  }

  ghost predicate AcknowledgeSpec(
    s: State, record: Record, receipt: Fields, clock: Clock, retention: real,
    s': State, r: Result<(), Error>)
  {
    if !Accepts(s.id, record, receipt) then
      s' == s && r == Failure(ReceiptMismatch)
    else if IsPending(s, record.sequence) then
      && s' == Compacted(Settled(s, record.sequence, receipt, clock.wall), clock, retention, false)
      && r == Success(())
    else
      && s' == s
      && r == if AlreadySettled(s.rows, s.identities, record) then Success(()) else Failure(ReceiptMismatch)
  }

  function Doubled(base: real, times: nat): real {
    if times == 0 then base else 2.0 * Doubled(base, times - 1)
  }

  function Delay(attempts: nat, base: real): real
    requires 1 <= attempts
  {
    var scaled := Doubled(if base > 0.1 then base else 0.1, if attempts - 1 < 10 then attempts - 1 else 10);
    if scaled < 60.0 then scaled else 60.0
  }

  lemma {:induction false} DoubledGrows(base: real, m: nat, n: nat)
    requires 0.0 <= base && m <= n
    ensures 0.0 <= Doubled(base, m) <= Doubled(base, n)
  {
    if n > 0 {
      DoubledGrows(base, if m == n then m - 1 else m, n - 1);
    }
  }

  /** Each retry waits at least as long as the one before, at least a tenth of a second and at most a minute. */
  lemma DelayGrowsToAMinute(attempts: nat, base: real)
    requires 1 <= attempts
    ensures 0.1 <= Delay(attempts, base) <= Delay(attempts + 1, base) <= 60.0
    ensures base <= 60.0 ==> base <= Delay(attempts, base)
  {
    var b := if base > 0.1 then base else 0.1;
    var times := if attempts - 1 < 10 then attempts - 1 else 10;
    DoubledGrows(b, 0, times);
    DoubledGrows(b, times, if attempts < 10 then attempts else 10);
  }

  function Bounded(error: string): (r: string)
    ensures r <= error && |r| <= 4096
    ensures |error| <= 4096 ==> r == error
    ensures |error| > 4096 ==> |r| == 4096
  {
    if |error| <= 4096 then error else error[..4096]
  }

  function RetriedRow(row: Row, attempts: nat, at: real, error: string): Row {
    row.(attempts := attempts, nextAttemptAt := at, lastError := Some(error))
  }

  ghost predicate RetrySpec(s: State, record: Record, error: string, base: real, wall: real, s': State) {
    var attempts := record.attempts + 1;
    s' == if IsPending(s, record.sequence)
          then Postponed(s, record.sequence, attempts, wall + Delay(attempts, base), Bounded(error)) else s
  }

  function Postponed(s: State, n: nat, attempts: nat, at: real, error: string): State
    requires n in s.rows
  {
    s.(rows := s.rows[n := RetriedRow(s.rows[n], attempts, at, error)],
       replayFailures := s.replayFailures + 1, lastError := error)
  }

  ghost predicate QuarantineSpec(s: State, n: nat, error: string, s': State) {
    if IsPending(s, n) then
      s' == s.(rows := s.rows[n := QuarantinedRow(s.rows[n], Bounded(error))],
               replayFailures := s.replayFailures + 1,
               lastError := Bounded(error))
    else s' == s
  }

  // ---------------------------------------------------------------- facts the class relies on

  lemma SweepKeepsConsistency(
    rows: map<nat, Row>, identities: map<string, Identity>, next: nat, settled: nat, cutoff: int)
    requires Consistent(rows, identities, next, settled)
    ensures Consistent(Kept(rows, cutoff), identities, next, settled)
  {
    assert Unsettled(Kept(rows, cutoff)) == Unsettled(rows);
    forall n | n in Kept(rows, cutoff) ensures RowAgrees(n, Kept(rows, cutoff)[n], identities) {
      assert RowAgrees(n, rows[n], identities);
    }
  }

  lemma CompactionKeepsInvariant(s: State, clock: Clock, retention: real, force: bool)
    requires Invariant(s)
    ensures Invariant(Compacted(s, clock, retention, force))
    ensures Honest(s) ==> Honest(Compacted(s, clock, retention, force))
  {
    SweepKeepsConsistency(s.rows, s.identities, s.next, s.replaySuccesses + s.lost, Truncate(clock.wall - retention));
  }

  /** How many unsettled rows a column update settles. */
  function Settles(before: Row, after: Row): nat {
    if after.state.Committed? && !before.state.Committed? then 1 else 0
  }

  /** A row keeps its identity columns, so whatever else a column update does, agreement survives. */
  lemma RowUpdate(rows: map<nat, Row>, identities: map<string, Identity>, n: nat, row: Row)
    requires RowsAgree(rows, identities) && n in rows
    requires row.endpoint == rows[n].endpoint && row.key == rows[n].key
    requires row.sha == rows[n].sha && row.capturedAt == rows[n].capturedAt
    requires rows[n].state.Committed? ==> row.state.Committed?
    ensures RowsAgree(rows[n := row], identities)
    ensures |Unsettled(rows)| == |Unsettled(rows[n := row])| + Settles(rows[n], row)
  {
    var after := rows[n := row];
    if Settles(rows[n], row) == 1 {
      assert Unsettled(rows) == Unsettled(after) + {n};
    } else {
      assert Unsettled(rows) == Unsettled(after);
    }
    forall m | m in after ensures RowAgrees(m, after[m], identities) {
      assert RowAgrees(m, rows[m], identities);
    }
  }

  /** One row moves on, and the success counter with it if that settles the row. */
  lemma RowChangeKeepsInvariant(s: State, n: nat, row: Row, s': State)
    requires Invariant(s) && n in s.rows
    requires row.endpoint == s.rows[n].endpoint && row.key == s.rows[n].key
    requires row.sha == s.rows[n].sha && row.capturedAt == s.rows[n].capturedAt
    requires s.rows[n].state.Committed? ==> row.state.Committed?
    requires s'.identities == s.identities && s'.next == s.next && s'.rows == s.rows[n := row]
    requires s'.replaySuccesses + s'.lost == s.replaySuccesses + s.lost + Settles(s.rows[n], row)
    ensures Invariant(s')
  {
    RowUpdate(s.rows, s.identities, n, row);
  }

  lemma SequencesBelowNext(rows: map<nat, Row>, identities: map<string, Identity>, next: nat)
    requires IdentitiesDense(identities, next) && RowsAgree(rows, identities)
    ensures forall n :: n in rows ==> 1 <= n < next
  {
    forall n | n in rows ensures 1 <= n < next {
      assert RowAgrees(n, rows[n], identities);
      assert IdentityWellFormed(rows[n].key, identities[rows[n].key], next);
    }
  }

  lemma FreshIdentity(identities: map<string, Identity>, next: nat, key: string, identity: Identity)
    requires IdentitiesDense(identities, next) && key !in identities
    requires identity.sequence == next && identity.sha.endpoint == EVENTS
    requires identity.sha.key == key && "ingress" !in identity.sha.body
    ensures IdentitiesDense(identities[key := identity], next + 1)
  {
    var after := identities[key := identity];
    forall k | k in after ensures IdentityWellFormed(k, after[k], next + 1) {
      assert k != key ==> IdentityWellFormed(k, identities[k], next);
    }
    forall a, b | a in after && b in after && a != b ensures after[a].sequence != after[b].sequence {
      assert a != key ==> IdentityWellFormed(a, identities[a], next);
      assert b != key ==> IdentityWellFormed(b, identities[b], next);
    }
  }

  lemma FreshRowAgrees(
    rows: map<nat, Row>, identities: map<string, Identity>, next: nat, key: string, identity: Identity, row: Row)
    requires RowsAgree(rows, identities) && key !in identities
    requires RowAgrees(next, row, map[key := identity])
    ensures RowsAgree(rows[next := row], identities[key := identity])
  {
    var after := rows[next := row];
    forall n | n in after ensures RowAgrees(n, after[n], identities[key := identity]) {
      assert n != next ==> RowAgrees(n, rows[n], identities);
    }
  }

  lemma FreshRowIsUnsettled(rows: map<nat, Row>, next: nat, row: Row)
    requires next !in rows && row.state.Pending?
    ensures |Unsettled(rows[next := row])| == |Unsettled(rows)| + 1
  {
    assert Unsettled(rows[next := row]) == Unsettled(rows) + {next};
  }

  /** A new row under the next sequence, with the identity that goes with it. */
  lemma FreshRowKeepsConsistency(
    rows: map<nat, Row>, identities: map<string, Identity>, next: nat, settled: nat,
    key: string, identity: Identity, row: Row)
    requires Consistent(rows, identities, next, settled) && key !in identities
    requires identity.sequence == next && identity.sha.endpoint == EVENTS
    requires identity.sha.key == key && "ingress" !in identity.sha.body
    requires RowAgrees(next, row, map[key := identity]) && row.state.Pending?
    ensures Consistent(rows[next := row], identities[key := identity], next + 1, settled)
  {
    FreshIdentity(identities, next, key, identity);
    SequencesBelowNext(rows, identities, next);
    FreshRowIsUnsettled(rows, next, row);
    FreshRowAgrees(rows, identities, next, key, identity, row);
  }

  lemma FreshAppendKeepsInvariant(c: State, key: string, payload: Fields, iso: string)
    requires Invariant(c) && key !in c.identities
    ensures Invariant(Appended(c, key, DigestOf(key, payload), iso))
  {
    var identity := Identity(c.next, DigestOf(key, payload), iso);
    FreshRowKeepsConsistency(c.rows, c.identities, c.next, c.replaySuccesses + c.lost, key, identity,
                             FreshRow(c.id, key, identity));
  }

  lemma FreshKeepsInvariant(
    s: State, payload: Fields, key: string, clock: Clock, retention: real, weather: Weather,
    s': State, r: Result<Record, Error>)
    requires Invariant(s) && key !in s.identities
    requires FreshSpec(s, payload, key, clock, retention, weather, s', r)
    ensures Invariant(s')
  {
    if !weather.tooLarge {
      var c := Compacted(s, clock, retention, false);
      CompactionKeepsInvariant(s, clock, retention, false);
      FreshAppendKeepsInvariant(c, key, payload, clock.iso);
    }
  }

  /** An honest row always passes the check `next_pending` makes. */
  lemma HonestRowVerifies(s: State, n: nat)
    requires Invariant(s) && n in s.rows && RowHonest(s.id, n, s.rows[n])
    ensures RowVerifies(s.id, n, s.rows[n])
    ensures Load(n, s.rows[n]).value.payload == Sealed(s.id, s.identities[s.rows[n].key])
  {
    var row := s.rows[n];
    assert RowAgrees(n, row, s.identities);
    assert IdentityWellFormed(row.key, s.identities[row.key], s.next);
    var payload := Sealed(s.id, Identity(n, row.sha, row.capturedAt));
    assert Body(payload) == row.sha.body;
  }

  /** Quarantining the head carries the walk on by one row. */
  lemma SkipOneMore(s: State, wall: real, q: State, n: nat, q': State)
    requires Passed(s, wall, q) && LowestPending(q, n) && q.rows[n].nextAttemptAt <= wall
    requires !RowVerifies(q.id, n, q.rows[n])
    requires QuarantineSpec(q, n, "checksum", q')
    ensures Passed(s, wall, q') && PendingSet(q') < PendingSet(q)
  {
    assert !Skipped(s, q, n);
    assert q'.rows[n] == QuarantinedRow(s.rows[n], Bounded("checksum"));
    forall k: nat, m: nat | Skipped(s, q', k) && IsPending(q', m) ensures k < m {
      assert IsPending(q, m);
      assert k != n ==> Skipped(s, q, k);
    }
    assert n in PendingSet(q) && n !in PendingSet(q');
  }

  lemma NothingSkipped(s: State, wall: real)
    ensures Passed(s, wall, s)
  {
  }

  lemma HeadAnswers(s: State, q: State, clock: Clock, retention: real, s': State, r: Option<Record>)
    requires Passed(s, clock.wall, q) && NextHead(q, clock, retention, s', r)
    ensures NextSpec(s, clock, retention, s', r)
  {
  }

  /** The caller's JSON object, cleared and refilled in place by an append. */
  class Payload {
    var fields: Fields

    constructor (fields: Fields)
      ensures this.fields == fields
    {
      this.fields := fields;
    }
  }

  /** The rows of the meta table that opening a database fills in. */
  datatype Meta = NextSequence | CaptureFailures | QuotaRejections | ReplaySuccesses | ReplayFailures

  predicate HasKey(rows: map<nat, Row>, key: string) {
    exists n :: n in rows && rows[n].key == key
  }

  /** Every row has its identity, none that was there changes, and none comes from nowhere. */
  ghost predicate Backfilled(rows: map<nat, Row>, before: map<string, Identity>, after: map<string, Identity>) {
    && RowsAgree(rows, after)
    && (forall key :: key in before ==> key in after && after[key] == before[key])
    && (forall key :: key in after ==> key in before || HasKey(rows, key))
  }

  /** A database written by this code has every identity already. */
  lemma NothingToBackfill(rows: map<nat, Row>, before: map<string, Identity>, after: map<string, Identity>)
    requires Backfilled(rows, before, after)
    ensures RowsAgree(rows, before) ==> after == before
  {
    if RowsAgree(rows, before) {
      forall key | key in after ensures key in before {
        if HasKey(rows, key) {
          var n :| n in rows && rows[n].key == key;
          assert RowAgrees(n, rows[n], before);
        }
      }
    }
  }

  ghost function LastSequence(rows: map<nat, Row>): (last: nat)
    ensures forall n :: n in rows ==> n <= last
    ensures last == 0 || last in rows
  {
    if rows == map[] then 0
    else
      var n :| n in rows;
      var rest := LastSequence(rows - {n});
      assert forall m :: m in rows ==> m == n || m in rows - {n};
      if rest < n then n else rest
  }

  lemma LastSequenceIs(rows: map<nat, Row>, last: nat)
    requires (last == 0 || last in rows) && forall n :: n in rows ==> n <= last
    ensures last == LastSequence(rows)
  {
  }

  class DurableIngressSpool {
    const spoolId: string
    const retention: real
    var rows: map<nat, Row>
    var identities: map<string, Identity>
    var next: nat
    var captureFailures: nat
    var quotaRejections: nat
    var replaySuccesses: nat
    var replayFailures: nat
    var lastError: string
    var lastCompact: real
    ghost var lost: nat

    ghost function View(): State
      reads this
    {
      State(spoolId, rows, identities, next, captureFailures, quotaRejections,
            replaySuccesses, replayFailures, lastError, lastCompact, lost)
    }

    ghost predicate Valid()
      reads this
    {
      Consistent(rows, identities, next, replaySuccesses + lost)
    }

    constructor (spoolId: string, retention: real)
      ensures Valid() && Honest(View())
      ensures this.spoolId == spoolId && rows == map[] && identities == map[] && next == 1
    {
      this.spoolId := spoolId;
      this.retention := retention;
      rows := map[];
      identities := map[];
      next := 1;
      captureFailures, quotaRejections, replaySuccesses, replayFailures := 0, 0, 0, 0;
      lastError := "";
      lastCompact := 0.0;
      lost := 0;
      new;
      assert Unsettled(rows) == {};
    }

    /**
      Opening a database brings one written before the identity table, or before a counter,
      existed up to date: every row gets the identity it implies, a missing sequence counter
      starts behind the last row and missing health counters at zero.  A database written by
      this code is left exactly as it was.
     */
    method Reopen(missing: set<Meta>)
      requires forall n :: n in rows ==> rows[n].endpoint == EVENTS
      requires forall m, n :: m in rows && n in rows && m != n ==> rows[m].key != rows[n].key
      requires forall n :: n in rows && rows[n].key in identities ==> RowAgrees(n, rows[n], identities)
      modifies this`identities, this`next, this`captureFailures, this`quotaRejections, this`replaySuccesses,
               this`replayFailures
      ensures Backfilled(rows, old(identities), identities)
      ensures next == if NextSequence in missing then LastSequence(rows) + 1 else old(next)
      ensures captureFailures == if CaptureFailures in missing then 0 else old(captureFailures)
      ensures quotaRejections == if QuotaRejections in missing then 0 else old(quotaRejections)
      ensures replaySuccesses == if ReplaySuccesses in missing then 0 else old(replaySuccesses)
      ensures replayFailures == if ReplayFailures in missing then 0 else old(replayFailures)
      ensures RowsAgree(rows, old(identities)) ==> identities == old(identities)
    {
      Backfill();
      DefaultNext(missing);
      DefaultCounters(missing);
    }

    method DefaultNext(missing: set<Meta>)
      modifies this`next
      ensures next == if NextSequence in missing then LastSequence(rows) + 1 else old(next)
    {
      if NextSequence in missing {
        var last := Last();
        next := last + 1;
      }
    }

    method DefaultCounters(missing: set<Meta>)
      modifies this`captureFailures, this`quotaRejections, this`replaySuccesses, this`replayFailures
      ensures captureFailures == if CaptureFailures in missing then 0 else old(captureFailures)
      ensures quotaRejections == if QuotaRejections in missing then 0 else old(quotaRejections)
      ensures replaySuccesses == if ReplaySuccesses in missing then 0 else old(replaySuccesses)
      ensures replayFailures == if ReplayFailures in missing then 0 else old(replayFailures)
    {
      captureFailures := if CaptureFailures in missing then 0 else captureFailures;
      quotaRejections := if QuotaRejections in missing then 0 else quotaRejections;
      replaySuccesses := if ReplaySuccesses in missing then 0 else replaySuccesses;
      replayFailures := if ReplayFailures in missing then 0 else replayFailures;
    }

    /** Give every row that has none its identity. */
    method Backfill()
      requires forall m, n :: m in rows && n in rows && m != n ==> rows[m].key != rows[n].key
      requires forall n :: n in rows ==> rows[n].endpoint == EVENTS
      requires forall n :: n in rows && rows[n].key in identities ==> RowAgrees(n, rows[n], identities)
      modifies this`identities
      ensures Backfilled(rows, old(identities), identities)
      ensures RowsAgree(rows, old(identities)) ==> identities == old(identities)
    {
      var todo := rows.Keys;
      while todo != {}
        invariant todo <= rows.Keys
        invariant forall key :: key in old(identities) ==> key in identities && identities[key] == old(identities[key])
        invariant forall n :: n in rows && n !in todo ==> RowAgrees(n, rows[n], identities)
        invariant forall n :: n in rows && rows[n].key in identities ==> RowAgrees(n, rows[n], identities)
        invariant forall key :: key in identities ==> key in old(identities) || HasKey(rows, key)
        decreases todo
      {
        var n :| n in todo;
        var row := rows[n];
        if row.key !in identities {
          identities := identities[row.key := Identity(n, row.sha, row.capturedAt)];
        }
        todo := todo - {n};
      }
      NothingToBackfill(rows, old(identities), identities);
    }

    /** The highest sequence in the table, 0 if it is empty. */
    method Last() returns (last: nat)
      ensures last == LastSequence(rows)
    {
      last := 0;
      var todo := rows.Keys;
      while todo != {}
        invariant todo <= rows.Keys
        invariant last == 0 || last in rows
        invariant forall n :: n in rows && n !in todo ==> n <= last
        decreases todo
      {
        var n :| n in todo;
        if n > last {
          last := n;
        }
        todo := todo - {n};
      }
      LastSequenceIs(rows, last);
    }

    method Compact(clock: Clock, force: bool)
      requires Valid()
      modifies this`rows, this`lastCompact
      ensures View() == Compacted(old(View()), clock, retention, force)
      ensures Valid()
    {
      CompactionKeepsInvariant(View(), clock, retention, force);
      Sweep(clock, force);
    }

    method Sweep(clock: Clock, force: bool)
      modifies this`rows, this`lastCompact
      ensures View() == Compacted(old(View()), clock, retention, force)
    {
      if force || clock.monotonic - lastCompact >= 60.0 {
        rows := Kept(rows, Truncate(clock.wall - retention));
        lastCompact := clock.monotonic;
      }
    }

    method AppendEvent(payload: Payload, key: string, clock: Clock, weather: Weather)
      returns (r: Result<Record, Error>)
      requires Valid()
      modifies this`rows, this`identities, this`next, this`captureFailures, this`quotaRejections, this`lastError,
               this`lastCompact, payload
      ensures Valid()
      ensures AppendSpec(old(View()), old(payload.fields), key, clock, retention, weather, View(), r)
      ensures payload.fields == if r.Success? then r.value.payload else old(payload.fields)
    {
      if key == "" {
        return Failure(MissingKey);
      }
      var base := Body(payload.fields);
      var sha := Sha256(EVENTS, key, base);
      var held := FindRow(key);
      if held.Some? {
        var n := held.value;
        assert RowAgrees(n, rows[n], identities);
        if rows[n].sha != sha {
          r := RefuseConflict();
        } else {
          r := RecallRow(n);
        }
      } else if key in identities {
        if identities[key].sha != sha {
          r := RefuseConflict();
        } else {
          r := RecallIdentity(key, base);
        }
      } else {
        ghost var before := View();
        r := AppendFresh(payload.fields, key, base, sha, clock, weather);
        FreshKeepsInvariant(before, payload.fields, key, clock, retention, weather, View(), r);
      }
      if r.Success? {
        payload.fields := r.value.payload;
      }
    }

    method RefuseConflict() returns (r: Result<Record, Error>)
      requires Valid()
      modifies this`captureFailures, this`lastError
      ensures Valid() && ConflictSpec(old(View()), View(), r)
    {
      NoteFailure("idempotency_key_payload_conflict");
      r := Failure(Conflict);
    }

    method NoteFailure(error: string)
      modifies this`captureFailures, this`lastError
      ensures View() == old(View()).(captureFailures := old(captureFailures) + 1, lastError := error)
    {
      captureFailures := captureFailures + 1;
      lastError := error;
    }

    method RecallRow(n: nat) returns (r: Result<Record, Error>)
      requires Valid() && n in rows
      ensures rows[n].key in identities && KnownSpec(View(), rows[n].key, View(), r)
    {
      assert RowAgrees(n, rows[n], identities);
      if Honest(View()) {
        HonestRowVerifies(View(), n);
      }
      r := Load(n, rows[n]);
    }

    method RecallIdentity(key: string, base: Fields) returns (r: Result<Record, Error>)
      requires Valid() && key in identities && identities[key].sha == Sha256(EVENTS, key, base)
      ensures KnownSpec(View(), key, View(), r)
    {
      var identity := identities[key];
      assert IdentityWellFormed(key, identity, next);
      var full := base["ingress" := Envelope(spoolId, identity.sequence, identity.sha, identity.capturedAt)];
      r := Success(Record(identity.sequence, EVENTS, key, full, identity.sha, identity.capturedAt, 0));
    }

    method AppendFresh(
      ghost payload: Fields, key: string, base: Fields, sha: Digest, clock: Clock, weather: Weather)
      returns (r: Result<Record, Error>)
      requires key !in identities && base == Body(payload) && sha == DigestOf(key, payload)
      modifies this`rows, this`identities, this`next, this`captureFailures, this`quotaRejections, this`lastError,
               this`lastCompact
      ensures FreshSpec(old(View()), payload, key, clock, retention, weather, View(), r)
    {
      if weather.tooLarge {
        NoteFailure("record_too_large");
        return Failure(TooLarge);
      }
      Sweep(clock, false);
      r := Admit(payload, key, base, sha, clock.iso, weather);
    }

    method Admit(ghost payload: Fields, key: string, base: Fields, sha: Digest, iso: string, weather: Weather)
      returns (r: Result<Record, Error>)
      requires key !in identities && base == Body(payload) && sha == DigestOf(key, payload)
      modifies this`rows, this`identities, this`next, this`captureFailures, this`quotaRejections, this`lastError,
               this`lastCompact
      ensures AdmitSpec(old(View()), payload, key, iso, weather, View(), r)
    {
      if weather.overQuota {
        NoteFailure("spool_quota_exceeded");
        quotaRejections := quotaRejections + 1;
        return Failure(QuotaExceeded);
      }
      r := Write(payload, key, base, sha, iso, weather.failsAt);
    }

    method Write(ghost payload: Fields, key: string, base: Fields, sha: Digest, iso: string, failsAt: Option<nat>)
      returns (r: Result<Record, Error>)
      requires key !in identities && base == Body(payload) && sha == DigestOf(key, payload)
      modifies this`rows, this`identities, this`next
      ensures View() == if r.Success? then Appended(old(View()), key, sha, iso) else old(View())
      ensures r == if failsAt.Some? && failsAt.value < STAGES then Failure(RolledBack)
                   else Success(Original(spoolId, key, Identity(old(next), sha, iso)))
    {
      var committed, full := Insert(key, base, sha, iso, failsAt);
      if !committed {
        return Failure(RolledBack);
      }
      return Success(Record(next - 1, EVENTS, key, full, sha, iso, 0));
    }

    /** The write transaction: wherever it fails, the rollback leaves no trace. */
    method Insert(key: string, base: Fields, sha: Digest, iso: string, failsAt: Option<nat>)
      returns (committed: bool, full: Fields)
      requires sha == Sha256(EVENTS, key, base)
      modifies this`rows, this`identities, this`next
      ensures committed <==> !(failsAt.Some? && failsAt.value < STAGES)
      ensures full == Sealed(spoolId, Identity(old(next), sha, iso))
      ensures View() == if committed then Appended(old(View()), key, sha, iso) else old(View())
    {
      var savedRows, savedIdentities, savedNext := rows, identities, next;
      var sequence := next;
      full := base["ingress" := Envelope(spoolId, sequence, sha, iso)];
      var stage := 0;
      while stage < STAGES && failsAt != Some(stage)
        invariant 0 <= stage <= STAGES
        invariant failsAt.Some? && failsAt.value < STAGES ==> stage <= failsAt.value
        invariant identities == if stage < 1 then old(identities)
                                else old(identities)[key := Identity(sequence, sha, iso)]
        invariant rows == if stage < 2 then old(rows)
                          else old(rows)[sequence := FreshRow(spoolId, key, Identity(sequence, sha, iso))]
        invariant next == if stage < 3 then old(next) else old(next) + 1
      {
        match stage {
          case 0 => identities := identities[key := Identity(sequence, sha, iso)];
          case 1 => rows := rows[sequence :=
              Row(EVENTS, key, Decoded(Object(full)), sha, iso, Pending, 0, 0.0, None, None, None)];
          case 2 => next := sequence + 1;
          case _ =>
        }
        stage := stage + 1;
      }
      committed := stage == STAGES;
      if !committed {
        rows, identities, next := savedRows, savedIdentities, savedNext;
      }
    }

    /** The row of a key, if there is one; the key column is unique. */
    method FindRow(key: string) returns (n: Option<nat>)
      requires Valid()
      ensures n.Some? ==> n.value in rows && rows[n.value].key == key
      ensures n.None? ==> forall m :: m in rows ==> rows[m].key != key
    {
      var todo := rows.Keys;
      while todo != {}
        invariant todo <= rows.Keys
        invariant forall m :: m in rows && m !in todo ==> rows[m].key != key
        decreases todo
      {
        var m :| m in todo;
        if rows[m].key == key {
          return Some(m);
        }
        todo := todo - {m};
      }
      return None;
    }

    /** The pending row with the lowest sequence. */
    method FirstPending() returns (n: Option<nat>)
      ensures n.Some? ==> LowestPending(View(), n.value)
      ensures n.None? ==> forall m :: !IsPending(View(), m)
    {
      var todo := rows.Keys;
      n := None;
      while todo != {}
        invariant todo <= rows.Keys
        invariant n.Some? ==> IsPending(View(), n.value)
        invariant forall m :: IsPending(View(), m) && m !in todo ==> n.Some? && n.value <= m
        decreases todo
      {
        var m :| m in todo;
        if rows[m].state.Pending? && (n.None? || m < n.value) {
          n := Some(m);
        }
        todo := todo - {m};
      }
    }

    method NextPending(clock: Clock) returns (r: Option<Record>)
      requires Valid()
      modifies this`rows, this`lastCompact, this`replayFailures, this`lastError
      ensures Valid()
      ensures NextSpec(old(View()), clock, retention, View(), r)
    {
      ghost var before := View();
      NothingSkipped(before, clock.wall);
      while true
        invariant Valid() && Passed(before, clock.wall, View())
        decreases PendingSet(View())
      {
        ghost var head := View();
        var spoilt;
        spoilt, r := Poll(clock);
        if spoilt.None? {
          HeadAnswers(before, head, clock, retention, View(), r);
          return;
        }
        SkipOneMore(before, clock.wall, head, spoilt.value, View());
      }
    }

    /** One look at the head of the queue: an answer, or one spoilt row fewer. */
    method Poll(clock: Clock) returns (spoilt: Option<nat>, r: Option<Record>)
      requires Valid()
      modifies this`rows, this`lastCompact, this`replayFailures, this`lastError
      ensures Valid()
      ensures spoilt.None? ==> NextHead(old(View()), clock, retention, View(), r)
      ensures spoilt.Some? ==>
                && LowestPending(old(View()), spoilt.value)
                && old(rows)[spoilt.value].nextAttemptAt <= clock.wall
                && !RowVerifies(spoolId, spoilt.value, old(rows)[spoilt.value])
                && QuarantineSpec(old(View()), spoilt.value, "checksum", View())
    {
      spoilt, r := None, None;
      var first := FirstPending();
      if first.None? {
        Compact(clock, false);
        return;
      }
      var n := first.value;
      if rows[n].nextAttemptAt > clock.wall {
        return;
      }
      var loaded := Load(n, rows[n]);
      if loaded.Success? && Verifies(spoolId, loaded.value) {
        return None, Some(loaded.value);
      }
      Quarantine(n, "checksum");
      spoilt := first;
    }

    method Acknowledge(record: Record, receipt: Fields, clock: Clock) returns (r: Result<(), Error>)
      requires Valid()
      modifies this`rows, this`replaySuccesses, this`lastError, this`lastCompact
      ensures Valid()
      ensures AcknowledgeSpec(old(View()), record, receipt, clock, retention, View(), r)
    {
      if !Accepts(spoolId, record, receipt) {
        return Failure(ReceiptMismatch);
      }
      var n := record.sequence;
      if n in rows && rows[n].state.Pending? {
        Settle(n, receipt, clock.wall);
        Compact(clock, false);
        return Success(());
      }
      if n in rows {
        return if rows[n].state.Committed? then Success(()) else Failure(ReceiptMismatch);
      }
      if record.key in identities
         && identities[record.key].sequence == n && identities[record.key].sha == record.sha {
        return Success(());
      }
      return Failure(ReceiptMismatch);
    }

    method Settle(n: nat, receipt: Fields, wall: real)
      requires Valid() && IsPending(View(), n)
      modifies this`rows, this`replaySuccesses, this`lastError
      ensures Valid() && View() == Settled(old(View()), n, receipt, wall)
    {
      ghost var before := View();
      var row := CommittedRow(rows[n], receipt, wall);
      rows := rows[n := row];
      replaySuccesses := replaySuccesses + 1;
      lastError := "";
      RowChangeKeepsInvariant(before, n, row, View());
    }

    method Retry(record: Record, error: string, base: real, clock: Clock)
      requires Valid()
      modifies this`rows, this`replayFailures, this`lastError
      ensures Valid()
      ensures RetrySpec(old(View()), record, error, base, clock.wall, View())
    {
      var attempts := record.attempts + 1;
      var delay := Delay(attempts, base);
      Postpone(record.sequence, attempts, clock.wall + delay, Bounded(error));
    }

    /** The update behind a retry: it reaches the row only while that is pending. */
    method Postpone(n: nat, attempts: nat, at: real, error: string)
      requires Valid()
      modifies this`rows, this`replayFailures, this`lastError
      ensures Valid()
      ensures View() == if IsPending(old(View()), n) then Postponed(old(View()), n, attempts, at, error)
                        else old(View())
    {
      if n in rows && rows[n].state.Pending? {
        ghost var before := View();
        var row := RetriedRow(rows[n], attempts, at, error);
        rows := rows[n := row];
        replayFailures := replayFailures + 1;
        lastError := error;
        RowChangeKeepsInvariant(before, n, row, View());
      }
    }

    method Quarantine(n: nat, error: string)
      requires Valid()
      modifies this`rows, this`replayFailures, this`lastError
      ensures Valid()
      ensures QuarantineSpec(old(View()), n, error, View())
    {
      var bounded := Bounded(error);
      if n in rows && rows[n].state.Pending? {
        ghost var before := View();
        var row := QuarantinedRow(rows[n], bounded);
        rows := rows[n := row];
        replayFailures := replayFailures + 1;
        lastError := bounded;
        RowChangeKeepsInvariant(before, n, row, View());
      }
    }

    /** The counts of the health report add up: nothing is created or dropped between them. */
    method Status() returns (pending: nat, committed: nat, quarantined: nat, highest: nat)
      requires Valid()
      ensures highest == pending + quarantined + replaySuccesses + lost
      ensures highest == |identities|
      ensures pending + committed + quarantined == |rows|
    {
      var p := set n | n in rows && rows[n].state.Pending?;
      var c := set n | n in rows && rows[n].state.Committed?;
      var q := set n | n in rows && rows[n].state.Quarantined?;
      RowsFallInThree(rows, p, c, q);
      return |p|, |c|, |q|, next - 1;
    }
  }

  lemma RowsFallInThree(rows: map<nat, Row>, pending: set<nat>, committed: set<nat>, quarantined: set<nat>)
    requires forall n :: n in pending <==> n in rows && rows[n].state.Pending?
    requires forall n :: n in committed <==> n in rows && rows[n].state.Committed?
    requires forall n :: n in quarantined <==> n in rows && rows[n].state.Quarantined?
    ensures |pending| + |quarantined| == |Unsettled(rows)|
    ensures |pending| + |committed| + |quarantined| == |rows|
  {
    assert Unsettled(rows) == pending + quarantined;
    assert rows.Keys == Unsettled(rows) + committed;
  }

  /** Identities and the sequences 1..next-1 are in bijection: no sequence is skipped or shared. */
  lemma DenseSequences(s: State, n: nat)
    requires Invariant(s)
    requires 1 <= n < s.next
    ensures exists key :: key in s.identities && s.identities[key].sequence == n
  {
    if forall key :: key in s.identities ==> s.identities[key].sequence != n {
      forall key | key in s.identities ensures 1 <= s.identities[key].sequence < s.next {
        assert IdentityWellFormed(key, s.identities[key], s.next);
      }
      MissingSequence(s.identities, s.next, n);
    }
  }

  /** Distinct sequences below `next`, none of them `n`. */
  ghost predicate Avoids(identities: map<string, Identity>, next: nat, n: nat) {
    && (forall key :: key in identities ==> 1 <= identities[key].sequence < next && identities[key].sequence != n)
    && (forall a, b :: a in identities && b in identities && a != b
          ==> identities[a].sequence != identities[b].sequence)
  }

  /** Without the key that has the top sequence, if any has it, all are below the top. */
  lemma WithoutTop(identities: map<string, Identity>, top: nat, n: nat) returns (rest: map<string, Identity>)
    requires Avoids(identities, top + 1, n)
    ensures Avoids(rest, top, n) && |identities| <= |rest| + (if n == top then 0 else 1)
  {
    if key :| key in identities && identities[key].sequence == top {
      rest := identities - {key};
      assert identities.Keys == rest.Keys + {key};
    } else {
      rest := identities;
    }
  }

  /** Pigeonhole: distinct sequences below `next` that all avoid `n` are at most next - 2. */
  lemma {:induction false} MissingSequence(identities: map<string, Identity>, next: nat, n: nat)
    requires 1 <= n < next && Avoids(identities, next, n)
    ensures |identities| <= next - 2
    decreases next
  {
    var top := next - 1;
    if top == 1 {
      assert identities.Keys == {};
    } else {
      var rest := WithoutTop(identities, top, n);
      if n < top {
        MissingSequence(rest, top, n);
      } else {
        var fewer := WithoutTop(rest, top - 1, n);
        assert Avoids(fewer, top, top - 1);
        MissingSequence(fewer, top, top - 1);
      }
    }
  }
}
