/**
  The bounded table of outbound suppressions.  Entries expire, are refreshed by use and may
  be evicted; the reference it is measured against is a search of the whole history.
 */
module SuppressionTracker {
  import opened Wrappers

  /** Conversation type, conversation id, source event id. */
  type Key = (string, string, string)

  datatype ClaimSuppression = ClaimSuppression(key: Key, claimId: string, reason: string, acknowledged: bool)

  datatype Entry = Entry(touchedAt: real, record: ClaimSuppression)

  datatype Op =
    | Install(key: Key, now: real, claimId: string, reason: string)
    | SetAcknowledged(key: Key, now: real, acknowledged: bool)
    | Match(key: Key, now: real)

  // ---------------------------------------------------------------- the history

  function Unexpired(entry: Option<Entry>, now: real, ttl: real): Option<Entry> {
    if entry.Some? && now - entry.value.touchedAt > ttl then None else entry
  }

  /** What one operation on the key makes of the entry it finds. */
  function Touch(found: Option<Entry>, op: Op): Option<Entry> {
    match op
    case Install(key, now, claimId, reason) =>
      if found.Some? then Some(Entry(now, found.value.record))
      else Some(Entry(now, ClaimSuppression(key, claimId, reason, false)))
    case SetAcknowledged(_, _, acknowledged) =>
      if found.Some? then
        var record := found.value.record;
        Some(Entry(found.value.touchedAt, record.(acknowledged := record.acknowledged || acknowledged)))
      else None
    case Match(_, now) =>
      if found.Some? then Some(Entry(now, found.value.record)) else None
  }

  /** Reads the whole history of one key, forgetting nothing but what had expired when next asked for. */
  function Recall(log: seq<Op>, key: Key, ttl: real): Option<Entry> {
    if log == [] then None
    else
      var earlier := Recall(log[..|log| - 1], key, ttl);
      var op := log[|log| - 1];
      if op.key != key then earlier else Touch(Unexpired(earlier, op.now, ttl), op)
  }

  function Answer(entry: Option<Entry>): Option<ClaimSuppression> {
    if entry.Some? then Some(entry.value.record) else None
  }

  ghost predicate Chronological(log: seq<Op>) {
    forall i, j :: 0 <= i < j < |log| ==> log[i].now <= log[j].now
  }

  ghost function InstalledKeys(log: seq<Op>): set<Key> {
    set i | 0 <= i < |log| && log[i].Install? :: log[i].key
  }

  function Lookup(entries: map<Key, Entry>, key: Key): Option<Entry> {
    if key in entries then Some(entries[key]) else None
  }

  /** At time `now` the table and the history tell the same of every key that was never evicted. */
  ghost predicate Agrees(entries: map<Key, Entry>, log: seq<Op>, now: real, ttl: real, evicted: set<Key>) {
    forall key :: key in evicted || AgreesOn(entries, log, key, now, ttl)
  }

  predicate AgreesOn(entries: map<Key, Entry>, log: seq<Op>, key: Key, now: real, ttl: real) {
    Unexpired(Lookup(entries, key), now, ttl) == Unexpired(Recall(log, key, ttl), now, ttl)
  }

  // ---------------------------------------------------------------- facts about the history

  lemma RecallSnoc(log: seq<Op>, op: Op, key: Key, ttl: real)
    ensures Recall(log + [op], key, ttl)
            == if op.key != key then Recall(log, key, ttl)
               else Touch(Unexpired(Recall(log, key, ttl), op.now, ttl), op)
  {
    assert (log + [op])[..|log|] == log;
  }

  lemma KeysSnoc(log: seq<Op>, op: Op)
    ensures InstalledKeys(log + [op]) == InstalledKeys(log) + (if op.Install? then {op.key} else {})
  {
    var longer := log + [op];
    forall key | key in InstalledKeys(log) ensures key in InstalledKeys(longer) {
      var i :| 0 <= i < |log| && log[i].Install? && log[i].key == key;
      assert longer[i] == log[i];
    }
    if op.Install? {
      assert longer[|log|] == op;
    }
  }

  /** The first claim sticks and an acknowledgement is never taken back while the entry lives. */
  lemma LivingEntryKeepsItsClaim(log: seq<Op>, op: Op, ttl: real)
    requires Unexpired(Recall(log, op.key, ttl), op.now, ttl).Some?
    ensures var earlier := Recall(log, op.key, ttl).value;
            var later := Recall(log + [op], op.key, ttl);
            && later.Some?
            && later.value.record.claimId == earlier.record.claimId
            && later.value.record.reason == earlier.record.reason
            && (earlier.record.acknowledged ==> later.value.record.acknowledged)
            && (op.SetAcknowledged? && op.acknowledged ==> later.value.record.acknowledged)
  {
    RecallSnoc(log, op, op.key, ttl);
  }

  /** Once expired, always expired: a later look cannot see what an earlier prune removed. */
  lemma ExpiryIsMonotone(entry: Option<Entry>, earlier: real, later: real, ttl: real)
    requires earlier <= later
    ensures Unexpired(Unexpired(entry, earlier, ttl), later, ttl) == Unexpired(entry, later, ttl)
  {
  }

  lemma AgreementAges(
    entries: map<Key, Entry>, log: seq<Op>, earlier: real, later: real, ttl: real, evicted: set<Key>)
    requires Agrees(entries, log, earlier, ttl, evicted) && earlier <= later
    ensures Agrees(entries, log, later, ttl, evicted)
  {
    forall key | key !in evicted ensures AgreesOn(entries, log, key, later, ttl) {
      assert AgreesOn(entries, log, key, earlier, ttl);
      ExpiryIsMonotone(Lookup(entries, key), earlier, later, ttl);
      ExpiryIsMonotone(Recall(log, key, ttl), earlier, later, ttl);
    }
  }

  // ---------------------------------------------------------------- what an operation makes of the table

  function Pruned(entries: map<Key, Entry>, now: real, ttl: real): map<Key, Entry> {
    map key | key in entries && now - entries[key].touchedAt <= ttl :: entries[key]
  }

  /** Expired entries go, the one asked about is touched, the rest stay as they are. */
  function Acted(entries: map<Key, Entry>, op: Op, ttl: real): map<Key, Entry> {
    var pruned := Pruned(entries, op.now, ttl);
    var touched := Touch(Lookup(pruned, op.key), op);
    if touched.Some? then pruned[op.key := touched.value] else pruned
  }

  /** A new key takes the place of another. */
  function Displaced(entries: map<Key, Entry>, op: Op, ttl: real, oldest: Key): map<Key, Entry>
    requires op.Install?
  {
    (Pruned(entries, op.now, ttl) - {oldest})[op.key := Touch(None, op).value]
  }

  ghost predicate IsOldest(entries: map<Key, Entry>, oldest: Key) {
    oldest in entries && forall key :: key in entries ==> entries[oldest].touchedAt <= entries[key].touchedAt
  }

  /** An install displaces the oldest entry exactly when its key is new and the table full of living entries. */
  ghost predicate Installs(
    entries: map<Key, Entry>, op: Op, ttl: real, maxEntries: nat, displaced: Option<Key>, entries': map<Key, Entry>)
    requires op.Install?
  {
    var pruned := Pruned(entries, op.now, ttl);
    && (displaced.Some? <==> op.key !in pruned && |pruned| == maxEntries)
    && match displaced
       case None => entries' == Acted(entries, op, ttl)
       case Some(oldest) => IsOldest(pruned, oldest) && entries' == Displaced(entries, op, ttl, oldest)
  }

  ghost function Living(entries: map<Key, Entry>, now: real, ttl: real): set<Key> {
    Pruned(entries, now, ttl).Keys
  }

  /** Acting on the table and recording the act keeps the two in step, key by key. */
  lemma ActingKeepsAgreement(entries: map<Key, Entry>, log: seq<Op>, op: Op, ttl: real, key: Key)
    requires AgreesOn(entries, log, key, op.now, ttl) && 0.0 < ttl
    ensures AgreesOn(Acted(entries, op, ttl), log + [op], key, op.now, ttl)
    ensures key == op.key ==> Lookup(Acted(entries, op, ttl), key) == Recall(log + [op], key, ttl)
  {
    RecallSnoc(log, op, key, ttl);
    assert Lookup(Pruned(entries, op.now, ttl), key) == Unexpired(Lookup(entries, key), op.now, ttl);
  }

  /** Displacing one key is acting for all others. */
  lemma DisplacingKeepsAgreement(
    entries: map<Key, Entry>, log: seq<Op>, op: Op, ttl: real, oldest: Key, key: Key)
    requires op.Install? && AgreesOn(entries, log, key, op.now, ttl) && 0.0 < ttl
    requires op.key !in Pruned(entries, op.now, ttl) && key != oldest
    ensures AgreesOn(Displaced(entries, op, ttl, oldest), log + [op], key, op.now, ttl)
    ensures key == op.key ==> Lookup(Displaced(entries, op, ttl, oldest), key) == Recall(log + [op], key, ttl)
  {
    RecallSnoc(log, op, key, ttl);
    assert Lookup(Pruned(entries, op.now, ttl), key) == Unexpired(Lookup(entries, key), op.now, ttl);
  }

  /** Every key the table holds after an operation was there before it or is the one installed. */
  lemma ActedKeys(entries: map<Key, Entry>, op: Op, ttl: real)
    ensures Acted(entries, op, ttl).Keys
            == Living(entries, op.now, ttl) + (if op.Install? then {op.key} else {})
    ensures |Living(entries, op.now, ttl)| <= |entries|
  {
    SubsetIsSmaller(Living(entries, op.now, ttl), entries.Keys);
  }

  lemma DisplacedKeys(entries: map<Key, Entry>, op: Op, ttl: real, oldest: Key)
    requires op.Install? && oldest in Living(entries, op.now, ttl) && op.key !in Living(entries, op.now, ttl)
    ensures Displaced(entries, op, ttl, oldest).Keys == Living(entries, op.now, ttl) - {oldest} + {op.key}
    ensures |Displaced(entries, op, ttl, oldest)| == |Living(entries, op.now, ttl)|
  {
    assert (Pruned(entries, op.now, ttl) - {oldest}).Keys == Living(entries, op.now, ttl) - {oldest};
  }

  // ---------------------------------------------------------------- the table

  class OutboundSuppressionTracker {
    const maxEntries: nat
    const ttl: real
    var entries: map<Key, Entry>
    ghost var log: seq<Op>
    ghost var clock: real
    /** Keys whose entry was dropped while it lived. */
    ghost var evicted: set<Key>

    ghost predicate Valid()
      reads this
    {
      InStep(entries, log, clock, ttl, maxEntries, evicted)
    }

    constructor (maxEntries: nat, ttl: real)
      requires 1 <= maxEntries && 0.0 < ttl
      ensures Valid() && entries == map[] && log == [] && evicted == {}
      ensures this.maxEntries == maxEntries && this.ttl == ttl
    {
      this.maxEntries := maxEntries;
      this.ttl := ttl;
      entries := map[];
      log := [];
      clock := 0.0;
      evicted := {};
    }

    /** The operation is over: the history has one entry more, and maybe one key less to answer for. */
    ghost method Record(op: Op, displaced: Option<Key>, before: map<Key, Entry>)
      requires InStep(before, log, clock, ttl, maxEntries, evicted) && clock <= op.now
      requires Results(before, op, ttl, maxEntries, displaced, entries)
      modifies this`log, this`clock, this`evicted
      ensures Valid() && log == old(log) + [op] && clock == op.now
      ensures evicted == old(evicted) + Gone(displaced)
      ensures op.key !in evicted ==> Lookup(entries, op.key) == Recall(log, op.key, ttl)
    {
      StaysInStep(before, log, clock, op, ttl, evicted, maxEntries, displaced, entries);
      evicted := evicted + Gone(displaced);
      log := log + [op];
      clock := op.now;
    }

    method Prune(now: real)
      modifies this`entries
      ensures entries == Pruned(old(entries), now, ttl)
    {
      entries := map key | key in entries && now - entries[key].touchedAt <= ttl :: entries[key];
    }

    method Oldest() returns (oldest: Key)
      requires entries != map[]
      ensures IsOldest(entries, oldest)
    {
      oldest :| oldest in entries;
      var todo := entries.Keys;
      while todo != {}
        invariant todo <= entries.Keys && oldest in entries
        invariant forall key :: key in entries && key !in todo ==>
                    entries[oldest].touchedAt <= entries[key].touchedAt
        decreases todo
      {
        var key :| key in todo;
        if entries[key].touchedAt < entries[oldest].touchedAt {
          oldest := key;
        }
        todo := todo - {key};
      }
    }

    /**
      The answer is the history's for every key that was never evicted, and eviction needs
      more distinct keys than the table holds.
     */
    method Install(key: Key, claimId: string, reason: string, now: real)
      returns (r: Option<ClaimSuppression>, ghost displaced: Option<Key>)
      requires Valid() && clock <= now
      modifies this
      ensures Valid()
      ensures key.2 == "" || claimId == "" ==>
                r == None && entries == old(entries) && log == old(log) && evicted == old(evicted)
      ensures key.2 != "" && claimId != "" ==>
                && log == old(log) + [Op.Install(key, now, claimId, reason)] && clock == now
                && r == Answer(Lookup(entries, key)) && r.Some?
                && Installs(old(entries), Op.Install(key, now, claimId, reason), ttl, maxEntries, displaced, entries)
                && evicted == old(evicted) + Gone(displaced)
                && (key !in evicted ==> r == Answer(Recall(log, key, ttl)))
                && key in entries && entries[key] == Entry(now, r.value)
                && r.value == (if key in old(entries) && now - old(entries)[key].touchedAt <= ttl
                               then old(entries)[key].record
                               else ClaimSuppression(key, claimId, reason, false))
    {
      displaced := None;
      if key.2 == "" || claimId == "" {
        return None, None;
      }
      Prune(now);
      if key in entries {
        entries := entries[key := Entry(now, entries[key].record)];
      } else {
        ActedKeys(old(entries), Op.Install(key, now, claimId, reason), ttl);
        if |entries| >= maxEntries {
          var oldest := Oldest();
          displaced := Some(oldest);
          entries := entries - {oldest};
        }
        entries := entries[key := Entry(now, ClaimSuppression(key, claimId, reason, false))];
      }
      r := Some(entries[key].record);
      Record(Op.Install(key, now, claimId, reason), displaced, old(entries));
    }

    method SetAcknowledged(key: Key, acknowledged: bool, now: real) returns (r: Option<ClaimSuppression>)
      requires Valid() && clock <= now
      modifies this
      ensures Valid() && evicted == old(evicted)
      ensures log == old(log) + [Op.SetAcknowledged(key, now, acknowledged)] && clock == now
      ensures entries == Acted(old(entries), Op.SetAcknowledged(key, now, acknowledged), ttl)
      ensures r == Answer(Lookup(entries, key))
      ensures key !in evicted ==> r == Answer(Recall(log, key, ttl))
      ensures r.Some? <==> key in old(entries) && now - old(entries)[key].touchedAt <= ttl
      ensures r.Some? ==>
                && r.value == old(entries)[key].record.(
                                acknowledged := old(entries)[key].record.acknowledged || acknowledged)
                && key in entries && entries[key] == Entry(old(entries)[key].touchedAt, r.value)
    {
      Prune(now);
      if key in entries {
        var entry := entries[key];
        var updated := entry.record.(acknowledged := entry.record.acknowledged || acknowledged);
        entries := entries[key := Entry(entry.touchedAt, updated)];
        r := Some(updated);
      } else {
        r := None;
      }
      Record(Op.SetAcknowledged(key, now, acknowledged), None, old(entries));
    }

    method Match(key: Key, now: real) returns (r: Option<ClaimSuppression>)
      requires Valid() && clock <= now
      modifies this
      ensures Valid() && evicted == old(evicted)
      ensures key.2 == "" ==> r == None && entries == old(entries) && log == old(log) && clock == old(clock)
      ensures key.2 != "" ==>
                && log == old(log) + [Op.Match(key, now)] && clock == now
                && entries == Acted(old(entries), Op.Match(key, now), ttl)
                && r == Answer(Lookup(entries, key))
                && (key !in evicted ==> r == Answer(Recall(log, key, ttl)))
                && (r.Some? <==> key in old(entries) && now - old(entries)[key].touchedAt <= ttl)
                && (r.Some? ==> r.value == old(entries)[key].record)
                && (r.Some? ==> key in entries && entries[key] == Entry(now, r.value))
    {
      if key.2 == "" {
        return None;
      }
      Prune(now);
      if key in entries {
        r := Some(entries[key].record);
        entries := entries[key := Entry(now, entries[key].record)];
      } else {
        r := None;
      }
      Record(Op.Match(key, now), None, old(entries));
    }
  }

  function Gone(displaced: Option<Key>): set<Key> {
    if displaced.Some? then {displaced.value} else {}
  }

  /** Never more than the limit, nothing that was not installed, and evictions only of too many keys. */
  ghost predicate Sized(entries: map<Key, Entry>, log: seq<Op>, maxEntries: nat, evicted: set<Key>) {
    && |entries| <= maxEntries
    && entries.Keys <= InstalledKeys(log)
    && (evicted != {} ==> maxEntries < |InstalledKeys(log)|)
  }

  ghost predicate Results(
    entries: map<Key, Entry>, op: Op, ttl: real, maxEntries: nat, displaced: Option<Key>, entries': map<Key, Entry>)
  {
    if op.Install? then Installs(entries, op, ttl, maxEntries, displaced, entries')
    else displaced.None? && entries' == Acted(entries, op, ttl)
  }

  lemma ActingAgrees(entries: map<Key, Entry>, log: seq<Op>, op: Op, ttl: real, evicted: set<Key>)
    requires Agrees(entries, log, op.now, ttl, evicted) && 0.0 < ttl
    ensures Agrees(Acted(entries, op, ttl), log + [op], op.now, ttl, evicted)
    ensures op.key !in evicted ==> Lookup(Acted(entries, op, ttl), op.key) == Recall(log + [op], op.key, ttl)
  {
    forall key | key !in evicted
      ensures AgreesOn(Acted(entries, op, ttl), log + [op], key, op.now, ttl)
      ensures key == op.key ==> Lookup(Acted(entries, op, ttl), key) == Recall(log + [op], key, ttl)
    {
      assert AgreesOn(entries, log, key, op.now, ttl);
      ActingKeepsAgreement(entries, log, op, ttl, key);
    }
  }

  lemma DisplacingAgrees(entries: map<Key, Entry>, log: seq<Op>, op: Op, ttl: real, evicted: set<Key>, oldest: Key)
    requires op.Install? && Agrees(entries, log, op.now, ttl, evicted) && 0.0 < ttl
    requires op.key !in Pruned(entries, op.now, ttl) && op.key != oldest
    ensures Agrees(Displaced(entries, op, ttl, oldest), log + [op], op.now, ttl, evicted + {oldest})
    ensures op.key !in evicted ==>
              Lookup(Displaced(entries, op, ttl, oldest), op.key) == Recall(log + [op], op.key, ttl)
  {
    forall key | key !in evicted + {oldest}
      ensures AgreesOn(Displaced(entries, op, ttl, oldest), log + [op], key, op.now, ttl)
      ensures key == op.key ==> Lookup(Displaced(entries, op, ttl, oldest), key) == Recall(log + [op], key, ttl)
    {
      assert AgreesOn(entries, log, key, op.now, ttl);
      DisplacingKeepsAgreement(entries, log, op, ttl, oldest, key);
    }
  }

  lemma StepAgrees(
    entries: map<Key, Entry>, log: seq<Op>, op: Op, ttl: real, evicted: set<Key>, maxEntries: nat,
    displaced: Option<Key>, entries': map<Key, Entry>)
    requires Agrees(entries, log, op.now, ttl, evicted) && 0.0 < ttl
    requires Results(entries, op, ttl, maxEntries, displaced, entries')
    ensures Agrees(entries', log + [op], op.now, ttl, evicted + Gone(displaced))
    ensures op.key !in evicted + Gone(displaced) ==> Lookup(entries', op.key) == Recall(log + [op], op.key, ttl)
  {
    match displaced
    case None =>
      assert evicted + Gone(displaced) == evicted;
      ActingAgrees(entries, log, op, ttl, evicted);
    case Some(oldest) => DisplacingAgrees(entries, log, op, ttl, evicted, oldest);
  }

  lemma ActingIsSized(entries: map<Key, Entry>, log: seq<Op>, op: Op, ttl: real, evicted: set<Key>, maxEntries: nat)
    requires Sized(entries, log, maxEntries, evicted)
    requires op.Install? && op.key !in Living(entries, op.now, ttl) ==> |Living(entries, op.now, ttl)| < maxEntries
    ensures Sized(Acted(entries, op, ttl), log + [op], maxEntries, evicted)
  {
    KeysSnoc(log, op);
    ActedKeys(entries, op, ttl);
    SubsetIsSmaller(InstalledKeys(log), InstalledKeys(log + [op]));
    assert op.key in Living(entries, op.now, ttl) ==>
             Living(entries, op.now, ttl) + {op.key} == Living(entries, op.now, ttl);
  }

  /** An eviction takes more distinct keys than the table holds. */
  lemma DisplacingIsSized(
    entries: map<Key, Entry>, log: seq<Op>, op: Op, ttl: real, evicted: set<Key>, maxEntries: nat, oldest: Key)
    requires Sized(entries, log, maxEntries, evicted) && op.Install?
    requires oldest in Living(entries, op.now, ttl) && op.key !in Living(entries, op.now, ttl)
    requires |Living(entries, op.now, ttl)| == maxEntries
    ensures Sized(Displaced(entries, op, ttl, oldest), log + [op], maxEntries, evicted + {oldest})
  {
    KeysSnoc(log, op);
    DisplacedKeys(entries, op, ttl, oldest);
    SubsetIsSmaller(Living(entries, op.now, ttl) + {op.key}, InstalledKeys(log + [op]));
  }

  lemma StepIsSized(
    entries: map<Key, Entry>, log: seq<Op>, op: Op, ttl: real, evicted: set<Key>, maxEntries: nat,
    displaced: Option<Key>, entries': map<Key, Entry>)
    requires Sized(entries, log, maxEntries, evicted)
    requires Results(entries, op, ttl, maxEntries, displaced, entries')
    ensures Sized(entries', log + [op], maxEntries, evicted + Gone(displaced))
  {
    ActedKeys(entries, op, ttl);
    match displaced
    case None => ActingIsSized(entries, log, op, ttl, evicted, maxEntries);
    case Some(oldest) => DisplacingIsSized(entries, log, op, ttl, evicted, maxEntries, oldest);
  }

  ghost predicate InStep(
    entries: map<Key, Entry>, log: seq<Op>, clock: real, ttl: real, maxEntries: nat, evicted: set<Key>)
  {
    && 1 <= maxEntries && 0.0 < ttl
    && Sized(entries, log, maxEntries, evicted)
    && Agrees(entries, log, clock, ttl, evicted)
    && Sourced(entries, log)
  }

  /** Every entry carries the claim of an install of its key, evicted before or not. */
  ghost predicate Sourced(entries: map<Key, Entry>, log: seq<Op>) {
    forall key {:trigger SourcedAt(entries[key].record, log, key)} ::
      key in entries ==> SourcedAt(entries[key].record, log, key)
  }

  ghost predicate SourcedAt(record: ClaimSuppression, log: seq<Op>, key: Key) {
    && record.key == key
    && exists i :: 0 <= i < |log| && log[i].Install? && log[i].key == key
                   && log[i].claimId == record.claimId && log[i].reason == record.reason
  }

  lemma SourcedStays(record: ClaimSuppression, after: ClaimSuppression, log: seq<Op>, op: Op, key: Key)
    requires SourcedAt(record, log, key)
    requires after.key == record.key && after.claimId == record.claimId && after.reason == record.reason
    ensures SourcedAt(after, log + [op], key)
  {
    var i :| 0 <= i < |log| && log[i].Install? && log[i].key == key
             && log[i].claimId == record.claimId && log[i].reason == record.reason;
    assert (log + [op])[i] == log[i];
  }

  lemma StepIsSourced(
    entries: map<Key, Entry>, log: seq<Op>, op: Op, ttl: real, maxEntries: nat, displaced: Option<Key>,
    entries': map<Key, Entry>)
    requires Sourced(entries, log) && Results(entries, op, ttl, maxEntries, displaced, entries')
    ensures Sourced(entries', log + [op])
  {
    forall key | key in entries' ensures SourcedAt(entries'[key].record, log + [op], key) {
      assert key in entries ==> SourcedAt(entries[key].record, log, key);
      if key in entries && entries'[key].record.claimId == entries[key].record.claimId
         && entries'[key].record.reason == entries[key].record.reason && entries'[key].record.key == key {
        SourcedStays(entries[key].record, entries'[key].record, log, op, key);
      } else {
        assert (log + [op])[|log|] == op;
        assert op.Install? && op.key == key;
      }
    }
  }

  /** Every operation keeps table and history in step. */
  lemma StaysInStep(
    entries: map<Key, Entry>, log: seq<Op>, clock: real, op: Op, ttl: real, evicted: set<Key>, maxEntries: nat,
    displaced: Option<Key>, entries': map<Key, Entry>)
    requires InStep(entries, log, clock, ttl, maxEntries, evicted) && clock <= op.now
    requires Results(entries, op, ttl, maxEntries, displaced, entries')
    ensures InStep(entries', log + [op], op.now, ttl, maxEntries, evicted + Gone(displaced))
    ensures op.key !in evicted + Gone(displaced) ==> Lookup(entries', op.key) == Recall(log + [op], op.key, ttl)
  {
    AgreementAges(entries, log, clock, op.now, ttl, evicted);
    StepAgrees(entries, log, op, ttl, evicted, maxEntries, displaced, entries');
    StepIsSized(entries, log, op, ttl, evicted, maxEntries, displaced, entries');
    StepIsSourced(entries, log, op, ttl, maxEntries, displaced, entries');
  }

  /** An entry leaves the table only because it expired or because it was the oldest of a full one. */
  lemma LeavesExpiredOrDisplaced(
    entries: map<Key, Entry>, op: Op, ttl: real, maxEntries: nat, displaced: Option<Key>, entries': map<Key, Entry>,
    key: Key)
    requires Results(entries, op, ttl, maxEntries, displaced, entries') && key in entries
    ensures key !in entries' <==>
              || displaced == Some(key)
              || (op.now - entries[key].touchedAt > ttl && !(op.Install? && op.key == key))
  {
  }
}
