/**
  The protocol by which an enforced deny is certified: event hooks, the send guard and the
  installation of a suppression share three tables, and a deny may be acknowledged to Core
  only if no send of the event slipped out, before the installation or after it.
 */
module DenyGuard {
  import opened Wrappers
  import opened SuppressionTracker

  type Conversation = (string, string)
  type EventId = int

  datatype Event = Event(id: EventId, isMessage: bool, conversation: Conversation)

  function KeyOf(conversation: Conversation, source: string): Key {
    (conversation.0, conversation.1, source)
  }

  /** A key is for one source in one conversation. */
  lemma KeyNamesOneSource(a: Conversation, s: string, b: Conversation, t: string)
    ensures KeyOf(a, s) == KeyOf(b, t) <==> a == b && s == t
  {
  }

  /** The record that stands under a key: the table's, unless it has gone unused for too long. */
  function Standing(entries: map<Key, Entry>, key: Key, now: real, ttl: real): Option<ClaimSuppression> {
    if key in entries && now - entries[key].touchedAt <= ttl then Some(entries[key].record) else None
  }

  lemma StandingIsLiving(entries: map<Key, Entry>, key: Key, now: real, ttl: real)
    ensures Standing(entries, key, now, ttl).Some? <==> key in Living(entries, now, ttl)
  {
  }

  /** A look-up changes no record that stands. */
  lemma LookingLeavesRecords(entries: map<Key, Entry>, op: Op, ttl: real, key: Key)
    requires op.Match? && 0.0 < ttl
    ensures Standing(Acted(entries, op, ttl), key, op.now, ttl) == Standing(entries, key, op.now, ttl)
  {
  }

  type Attempts = map<EventId, set<Conversation>>
  type Certified = map<EventId, Conversation>

  /** Every send that left while its event was running is on the record of attempts. */
  ghost predicate EscapesRecorded(escaped: set<(EventId, Conversation)>, active: set<EventId>, attempts: Attempts) {
    forall p :: p in escaped ==> p.0 in active && p.0 in attempts && p.1 in attempts[p.0]
  }

  ghost predicate CertifiedRunning(certified: Certified, active: set<EventId>, suppressions: map<EventId, string>) {
    forall e :: e in certified ==> e in active && e in suppressions && suppressions[e] != ""
  }

  lemma CertifiedIsSuppressed(
    certified: Certified, active: set<EventId>, suppressions: map<EventId, string>, e: EventId)
    requires CertifiedRunning(certified, active, suppressions) && e in certified
    ensures e in suppressions && suppressions[e] != ""
  {
  }

  ghost predicate Truthful(certified: Certified, lapsed: set<EventId>, escaped: set<(EventId, Conversation)>) {
    forall e :: e in certified && e !in lapsed ==> (e, certified[e]) !in escaped
  }

  /** The certified events whose own suppression is gone from the table. */
  ghost function Missing(
    entries: map<Key, Entry>, certified: Certified, suppressions: map<EventId, string>): set<EventId>
  {
    set e | e in certified && e in suppressions && KeyOf(certified[e], suppressions[e]) !in entries
  }

  /** A look-up or acknowledgement decides by what lives, and leaves what lives as it is. */
  lemma ActingKeepsLiving(entries: map<Key, Entry>, op: Op, ttl: real)
    requires !op.Install? && 0.0 < ttl
    ensures Acted(entries, op, ttl).Keys == Living(entries, op.now, ttl)
    ensures Living(Acted(entries, op, ttl), op.now, ttl) == Living(entries, op.now, ttl)
  {
    ActedKeys(entries, op, ttl);
  }

  /** A suppression that lives outlasts every look-up, acknowledgement and install that does not displace it. */
  lemma LivingIsNotMissed(
    entries: map<Key, Entry>, op: Op, ttl: real, maxEntries: nat, displaced: Option<Key>, entries': map<Key, Entry>,
    certified: Certified, suppressions: map<EventId, string>, e: EventId)
    requires Results(entries, op, ttl, maxEntries, displaced, entries')
    requires e in certified && e in suppressions
    requires KeyOf(certified[e], suppressions[e]) in Living(entries, op.now, ttl)
    requires displaced != Some(KeyOf(certified[e], suppressions[e]))
    ensures e !in Missing(entries', certified, suppressions)
  {
    LeavesExpiredOrDisplaced(
      entries, op, ttl, maxEntries, displaced, entries', KeyOf(certified[e], suppressions[e]));
  }

  /** What holds between the bridge's tables and the sends that left, in every reachable state. */
  ghost predicate Sound(
    active: set<EventId>, suppressions: map<EventId, string>, attempts: Attempts, entries: map<Key, Entry>,
    escaped: set<(EventId, Conversation)>, certified: Certified, lapsed: set<EventId>)
  {
    && EscapesRecorded(escaped, active, attempts)
    && CertifiedRunning(certified, active, suppressions)
    && Missing(entries, certified, suppressions) <= lapsed
    && Truthful(certified, lapsed, escaped)
  }

  /** Whatever the table of suppressions does, counting what is gone as lapsed keeps the rest. */
  lemma LapsingIsSound(
    active: set<EventId>, suppressions: map<EventId, string>, attempts: Attempts, entries: map<Key, Entry>,
    escaped: set<(EventId, Conversation)>, certified: Certified, lapsed: set<EventId>, entries': map<Key, Entry>)
    requires Sound(active, suppressions, attempts, entries, escaped, certified, lapsed)
    ensures Sound(active, suppressions, attempts, entries', escaped, certified,
                  lapsed + Missing(entries', certified, suppressions))
  {
  }

  /** An unblocked send of an event that is not certified for this conversation, or has lapsed. */
  lemma EscapingIsSound(
    active: set<EventId>, suppressions: map<EventId, string>, attempts: Attempts, entries: map<Key, Entry>,
    escaped: set<(EventId, Conversation)>, certified: Certified, lapsed: set<EventId>,
    e: EventId, conversation: Conversation)
    requires Sound(active, suppressions, attempts, entries, escaped, certified, lapsed)
    requires e in active && e in attempts && conversation in attempts[e]
    requires e in certified ==> certified[e] != conversation || e in lapsed
    ensures Sound(active, suppressions, attempts, entries, escaped + {(e, conversation)}, certified, lapsed)
  {
  }

  lemma NotingIsSound(
    active: set<EventId>, suppressions: map<EventId, string>, attempts: Attempts, entries: map<Key, Entry>,
    escaped: set<(EventId, Conversation)>, certified: Certified, lapsed: set<EventId>,
    conversation: Conversation, running: Option<EventId>)
    requires Sound(active, suppressions, attempts, entries, escaped, certified, lapsed)
    ensures Sound(active, suppressions, Noted(attempts, conversation, running), entries, escaped, certified, lapsed)
  {
  }

  /** A running event comes under a suppression that is in the table, certified or not. */
  lemma SuppressingIsSound(
    active: set<EventId>, suppressions: map<EventId, string>, attempts: Attempts, entries: map<Key, Entry>,
    escaped: set<(EventId, Conversation)>, certified: Certified, lapsed: set<EventId>,
    e: EventId, conversation: Conversation, source: string)
    requires Sound(active, suppressions, attempts, entries, escaped, certified, lapsed)
    requires source != "" && KeyOf(conversation, source) in entries
    requires e in certified ==> certified[e] == conversation
    ensures Sound(active, suppressions[e := source], attempts, entries, escaped, certified, lapsed)
  {
    var suppressions' := suppressions[e := source];
    forall x | x in Missing(entries, certified, suppressions') ensures x in Missing(entries, certified, suppressions) {
    }
  }

  /** Without an attempt so far there was no escape, so the deny can be certified. */
  lemma CertifyingIsSound(
    active: set<EventId>, suppressions: map<EventId, string>, attempts: Attempts, entries: map<Key, Entry>,
    escaped: set<(EventId, Conversation)>, certified: Certified, lapsed: set<EventId>,
    e: EventId, conversation: Conversation)
    requires Sound(active, suppressions, attempts, entries, escaped, certified, lapsed)
    requires e in active && e in suppressions && suppressions[e] != ""
    requires KeyOf(conversation, suppressions[e]) in entries
    requires !(e in attempts && conversation in attempts[e])
    ensures Sound(active, suppressions, attempts, entries, escaped, certified[e := conversation], lapsed - {e})
    ensures (e, conversation) !in escaped
  {
    var certified' := certified[e := conversation];
    forall x | x in Missing(entries, certified', suppressions)
      ensures x in Missing(entries, certified, suppressions) && x != e
    {
    }
    assert forall p :: p in escaped ==> p.0 in attempts && p.1 in attempts[p.0];
  }

  /** The end of an event takes everything about it away. */
  lemma ClearingIsSound(
    active: set<EventId>, suppressions: map<EventId, string>, attempts: Attempts, entries: map<Key, Entry>,
    escaped: set<(EventId, Conversation)>, certified: Certified, lapsed: set<EventId>, e: EventId)
    requires Sound(active, suppressions, attempts, entries, escaped, certified, lapsed)
    ensures Sound(active - {e}, suppressions - {e}, attempts - {e}, entries, EscapedBut(escaped, e), certified - {e},
                  lapsed - {e})
  {
    var suppressions', certified' := suppressions - {e}, certified - {e};
    forall x | x in Missing(entries, certified', suppressions')
      ensures x in Missing(entries, certified, suppressions) && x != e
    {
    }
  }

  ghost function EscapedBut(escaped: set<(EventId, Conversation)>, e: EventId): set<(EventId, Conversation)> {
    set p | p in escaped && p.0 != e
  }

  /** Every send of a running event is noted, blocked or not. */
  function Noted(attempts: Attempts, conversation: Conversation, running: Option<EventId>): Attempts {
    if running.None? then attempts
    else
      var e := running.value;
      attempts[e := (if e in attempts then attempts[e] else {}) + {conversation}]
  }

  /** Is a send to this conversation under a living suppression of this source? */
  ghost predicate Denied(conversation: Conversation, source: string, living: set<Key>) {
    source != "" && KeyOf(conversation, source) in living
  }

  /** The claim an install answers with: the one that already stands, else its own, not acknowledged yet. */
  function Claimed(
    entries: map<Key, Entry>, conversation: Conversation, source: string, claimId: string, reason: string,
    now: real, ttl: real): (r: ClaimSuppression)
    ensures Standing(entries, KeyOf(conversation, source), now, ttl).None? ==>
              && r.key == (conversation.0, conversation.1, source)
              && r.claimId == claimId && r.reason == reason && !r.acknowledged
    ensures Standing(entries, KeyOf(conversation, source), now, ttl).Some? ==>
              r == entries[KeyOf(conversation, source)].record
  {
    var key := KeyOf(conversation, source);
    match Standing(entries, key, now, ttl)
    case Some(record) => record
    case None => ClaimSuppression(key, claimId, reason, false)
  }

  /** The record a source's deny of a conversation answers a send with. */
  function Deny(
    entries: map<Key, Entry>, conversation: Conversation, source: Option<string>, now: real, ttl: real)
    : Option<ClaimSuppression>
  {
    if source.None? || source.value == "" then None
    else Standing(entries, KeyOf(conversation, source.value), now, ttl)
  }

  class Guard {
    const tracker: OutboundSuppressionTracker
    var active: set<EventId>
    var suppressions: map<EventId, string>
    var attempts: Attempts

    /** Sends that left the bridge in the context of a running event. */
    ghost var escaped: set<(EventId, Conversation)>
    /** Running events whose deny was certified, and for which conversation. */
    ghost var certified: Certified
    /** Certified events whose own suppression expired unused or was evicted. */
    ghost var lapsed: set<EventId>

    ghost predicate Valid()
      reads this, tracker
    {
      tracker.Valid() && Sound(active, suppressions, attempts, tracker.entries, escaped, certified, lapsed)
    }

    constructor (tracker: OutboundSuppressionTracker)
      requires tracker.Valid()
      ensures Valid() && this.tracker == tracker && active == {} && certified == map[] && escaped == {}
    {
      this.tracker := tracker;
      active, suppressions, attempts := {}, map[], map[];
      escaped, certified, lapsed := {}, map[], {};
    }

    method StartEvent(event: Event)
      requires Valid()
      modifies this`active
      ensures Valid() && active == if event.isMessage then old(active) + {event.id} else old(active)
    {
      if event.isMessage {
        active := active + {event.id};
      }
    }

    /** The event is over: its identity may be used again, and nothing of it may remain. */
    method ClearEvent(event: Event)
      requires Valid()
      modifies this
      ensures Valid()
      ensures active == old(active) - {event.id}
      ensures suppressions == old(suppressions) - {event.id} && attempts == old(attempts) - {event.id}
      ensures certified == old(certified) - {event.id} && lapsed == old(lapsed) - {event.id}
      ensures escaped == EscapedBut(old(escaped), event.id)
    {
      ClearingIsSound(active, suppressions, attempts, tracker.entries, escaped, certified, lapsed, event.id);
      active := active - {event.id};
      suppressions := suppressions - {event.id};
      attempts := attempts - {event.id};
      certified := certified - {event.id};
      lapsed := lapsed - {event.id};
      escaped := EscapedBut(escaped, event.id);
    }

    /**
      An acknowledged deny is truthful: in every reachable state a certified event has had no
      unblocked send to its conversation, unless its own suppression expired or was evicted;
      and while it has not, it is in the table under the event's own source.
     */
    lemma CertifiedDenyIsTruthful(e: EventId)
      requires Valid() && e in certified && e !in lapsed
      ensures (e, certified[e]) !in escaped
      ensures e in active && e in suppressions && suppressions[e] != ""
      ensures KeyOf(certified[e], suppressions[e]) in tracker.entries
    {
      CertifiedIsSuppressed(certified, active, suppressions, e);
      assert e !in Missing(tracker.entries, certified, suppressions);
    }

    /** One look-up in the shared table, made on behalf of a send. */
    method Find(conversation: Conversation, source: string, now: real) returns (r: Option<ClaimSuppression>)
      requires Valid() && tracker.clock <= now
      modifies this`lapsed, tracker
      ensures Valid() && tracker.clock <= now
      ensures tracker.entries == if source == "" then old(tracker.entries)
                                 else Acted(old(tracker.entries), Op.Match(KeyOf(conversation, source), now),
                                            tracker.ttl)
      ensures Living(tracker.entries, now, tracker.ttl) == Living(old(tracker.entries), now, tracker.ttl)
      ensures lapsed == old(lapsed) + Missing(tracker.entries, certified, suppressions)
      ensures r.Some? <==> Denied(conversation, source, Living(old(tracker.entries), now, tracker.ttl))
      ensures r == Deny(old(tracker.entries), conversation, Some(source), now, tracker.ttl)
      ensures forall key ::
                Standing(tracker.entries, key, now, tracker.ttl)
                == Standing(old(tracker.entries), key, now, tracker.ttl)
      ensures forall e :: e in certified && e !in lapsed && Own(e, conversation, source) ==> r.Some?
    {
      if source == "" {
        return None;
      }
      var key := KeyOf(conversation, source);
      ActingKeepsLiving(tracker.entries, Op.Match(key, now), tracker.ttl);
      ghost var before := tracker.entries;
      r := tracker.Match(key, now);
      forall k ensures Standing(tracker.entries, k, now, tracker.ttl) == Standing(before, k, now, tracker.ttl) {
        LookingLeavesRecords(before, Op.Match(key, now), tracker.ttl, k);
      }
      LapsingIsSound(active, suppressions, attempts, before, escaped, certified, lapsed, tracker.entries);
      lapsed := lapsed + Missing(tracker.entries, certified, suppressions);
    }

    /** Is this the conversation and source event `e` was certified for? */
    ghost predicate Own(e: EventId, conversation: Conversation, source: string)
      reads this
    {
      e in certified && e in suppressions && certified[e] == conversation && suppressions[e] == source
    }

    /** The suppression a send falls under: that of the running event first, then that of the running task. */
    method MatchClaimSuppression(
      conversation: Conversation, current: Option<EventId>, trigger: Option<string>, now: real)
      returns (blocked: Option<ClaimSuppression>)
      requires Valid() && tracker.clock <= now
      modifies this`lapsed, tracker
      ensures Valid()
      ensures blocked.Some? <==> Blocks(conversation, current, trigger, Living(old(tracker.entries), now, tracker.ttl))
      ensures blocked == Answering(conversation, current, trigger, old(tracker.entries), now)
      ensures lapsed == old(lapsed) + Missing(tracker.entries, certified, suppressions)
      ensures Living(tracker.entries, now, tracker.ttl) == Living(old(tracker.entries), now, tracker.ttl)
      ensures blocked.None? && current.Some? && current.value in certified ==>
                certified[current.value] != conversation || current.value in lapsed
    {
      blocked := ActiveEventSuppression(conversation, current, now);
      if blocked.None? && trigger.Some? {
        blocked := Find(conversation, trigger.value, now);
      }
    }

    /** The suppression of the running event, if it has one and it still lives for this conversation. */
    method ActiveEventSuppression(conversation: Conversation, current: Option<EventId>, now: real)
      returns (blocked: Option<ClaimSuppression>)
      requires Valid() && tracker.clock <= now
      modifies this`lapsed, tracker
      ensures Valid() && tracker.clock <= now
      ensures blocked.Some? <==>
                && current.Some? && current.value in suppressions
                && Denied(conversation, suppressions[current.value], Living(old(tracker.entries), now, tracker.ttl))
      ensures blocked == Deny(old(tracker.entries), conversation, SourceOf(current), now, tracker.ttl)
      ensures forall key ::
                Standing(tracker.entries, key, now, tracker.ttl)
                == Standing(old(tracker.entries), key, now, tracker.ttl)
      ensures lapsed == old(lapsed) + Missing(tracker.entries, certified, suppressions)
      ensures Living(tracker.entries, now, tracker.ttl) == Living(old(tracker.entries), now, tracker.ttl)
      ensures blocked.None? && current.Some? && current.value in certified ==>
                certified[current.value] != conversation || current.value in lapsed
    {
      if current.Some? && current.value in certified {
        CertifiedIsSuppressed(certified, active, suppressions, current.value);
      }
      if current.None? || current.value !in suppressions {
        return None;
      }
      blocked := Find(conversation, suppressions[current.value], now);
    }

    /** The source a running event was denied for. */
    ghost function SourceOf(current: Option<EventId>): Option<string>
      reads this
    {
      if current.Some? && current.value in suppressions then Some(suppressions[current.value]) else None
    }

    /** Which record a send is answered with: the running event's own first, then the running task's. */
    ghost function Answering(
      conversation: Conversation, current: Option<EventId>, trigger: Option<string>, entries: map<Key, Entry>,
      now: real)
      : Option<ClaimSuppression>
      reads this
    {
      var own := Deny(entries, conversation, SourceOf(current), now, tracker.ttl);
      if own.Some? then own else Deny(entries, conversation, trigger, now, tracker.ttl)
    }

    ghost predicate Blocks(
      conversation: Conversation, current: Option<EventId>, trigger: Option<string>, living: set<Key>)
      reads this
    {
      || (current.Some? && current.value in suppressions && Denied(conversation, suppressions[current.value], living))
      || (trigger.Some? && Denied(conversation, trigger.value, living))
    }

    /**
      The hook in front of every send.  A send is let through exactly when neither the
      running event nor the running task is under a suppression that still lives.
     */
    method SuppressDeniedSend(
      conversation: Conversation, current: Option<EventId>, trigger: Option<string>, now: real)
      returns (blocked: Option<ClaimSuppression>)
      requires Valid() && tracker.clock <= now
      modifies this`attempts, this`escaped, this`lapsed, tracker
      ensures Valid()
      ensures blocked.Some? <==> Blocks(conversation, current, trigger, Living(old(tracker.entries), now, tracker.ttl))
      ensures blocked == Answering(conversation, current, trigger, old(tracker.entries), now)
      ensures lapsed == old(lapsed) + Missing(tracker.entries, certified, suppressions)
      ensures Living(tracker.entries, now, tracker.ttl) == Living(old(tracker.entries), now, tracker.ttl)
      ensures escaped == if blocked.None? && current.Some? && current.value in active
                         then old(escaped) + {(current.value, conversation)} else old(escaped)
      ensures attempts == Noted(old(attempts), conversation,
                                if current.Some? && current.value in active then current else None)
    {
      NoteAttempt(conversation, current);
      blocked := MatchClaimSuppression(conversation, current, trigger, now);
      if blocked.None? && current.Some? && current.value in active {
        EscapingIsSound(active, suppressions, attempts, tracker.entries, escaped, certified, lapsed, current.value,
                        conversation);
        escaped := escaped + {(current.value, conversation)};
      }
    }

    method NoteAttempt(conversation: Conversation, current: Option<EventId>)
      requires Valid()
      modifies this`attempts
      ensures Valid()
      ensures attempts == Noted(old(attempts), conversation,
                                if current.Some? && current.value in active then current else None)
    {
      NotingIsSound(active, suppressions, attempts, tracker.entries, escaped, certified, lapsed, conversation,
                    if current.Some? && current.value in active then current else None);
      if current.Some? && current.value in active {
        var e := current.value;
        attempts := attempts[e := (if e in attempts then attempts[e] else {}) + {conversation}];
      }
    }

    /** An event's identity names one event until the event is cleared. */
    ghost predicate SameEvent(event: Event)
      reads this
    {
      event.id in certified ==> certified[event.id] == event.conversation
    }

    /**
      Install the guards for a denied message.  The result is authoritative only for the
      running message event of that very conversation, and only if it has attempted no send
      there so far.
     */
    method InstallClaimSuppression(
      conversation: Conversation, source: string, claimId: string, reason: string,
      current: Option<Event>, now: real)
      returns (r: Option<ClaimSuppression>, authoritative: bool)
      requires Valid() && tracker.clock <= now
      requires current.Some? ==> SameEvent(current.value)
      modifies this`suppressions, this`certified, this`lapsed, tracker
      ensures Valid()
      ensures authoritative <==>
                && source != "" && claimId != ""
                && current.Some? && current.value.isMessage && current.value.id in active
                && current.value.conversation == conversation
                && !(current.value.id in attempts && conversation in attempts[current.value.id])
      ensures r.Some? <==> source != "" && claimId != ""
      ensures r.Some? ==>
                r.value == Claimed(old(tracker.entries), conversation, source, claimId, reason, now, tracker.ttl)
      ensures suppressions == if r.Some? && current.Some? && current.value.isMessage && current.value.id in active
                                 && current.value.conversation == conversation
                              then old(suppressions)[current.value.id := source] else old(suppressions)
      ensures tracker.clock <= now
      ensures lapsed == old(lapsed) + Missing(tracker.entries, old(certified), old(suppressions))
                        - (if authoritative then {current.value.id} else {})
      ensures certified == if authoritative then old(certified)[current.value.id := conversation] else old(certified)
      ensures authoritative ==>
                && current.value.id !in lapsed
                && KeyOf(conversation, source) in tracker.entries
                && tracker.entries[KeyOf(conversation, source)].record == r.value
                && (current.value.id, conversation) !in escaped
    {
      if source == "" || claimId == "" {
        return None, false;
      }
      ghost var displaced;
      r, displaced := InstallShared(conversation, source, claimId, reason, now);
      if current.None? || current.value.id !in active || !current.value.isMessage
         || current.value.conversation != conversation {
        return r, false;
      }
      var e := current.value.id;
      var priorSendSeen := e in attempts && conversation in attempts[e];
      SuppressingIsSound(active, suppressions, attempts, tracker.entries, escaped, certified, lapsed, e, conversation,
                         source);
      suppressions := suppressions[e := source];
      authoritative := !priorSendSeen;
      if authoritative {
        CertifyingIsSound(active, suppressions, attempts, tracker.entries, escaped, certified, lapsed, e, conversation);
        certified := certified[e := conversation];
        lapsed := lapsed - {e};
      }
    }

    /** The entry every later send of the conversation is matched against; it may displace another's. */
    method InstallShared(conversation: Conversation, source: string, claimId: string, reason: string, now: real)
      returns (r: Option<ClaimSuppression>, ghost displaced: Option<Key>)
      requires Valid() && tracker.clock <= now && source != "" && claimId != ""
      modifies this`lapsed, tracker
      ensures Valid() && tracker.clock == now && r.Some?
      ensures Installs(old(tracker.entries), Op.Install(KeyOf(conversation, source), now, claimId, reason),
                       tracker.ttl, tracker.maxEntries, displaced, tracker.entries)
      ensures lapsed == old(lapsed) + Missing(tracker.entries, certified, suppressions)
      ensures KeyOf(conversation, source) in tracker.entries
      ensures tracker.entries[KeyOf(conversation, source)] == Entry(now, r.value)
      ensures r.value == Claimed(old(tracker.entries), conversation, source, claimId, reason, now, tracker.ttl)
    {
      ghost var before := tracker.entries;
      r, displaced := tracker.Install(KeyOf(conversation, source), claimId, reason, now);
      LapsingIsSound(active, suppressions, attempts, before, escaped, certified, lapsed, tracker.entries);
      lapsed := lapsed + Missing(tracker.entries, certified, suppressions);
    }

    /**
      Core's answer to the acknowledgement of an authoritative deny arrives later: sends, other
      installations and the end of the event may all have come between.
     */
    method NoteAcknowledgement(conversation: Conversation, source: string, acknowledged: bool, now: real)
      returns (r: Option<ClaimSuppression>)
      requires Valid() && tracker.clock <= now
      modifies this`lapsed, tracker
      ensures Valid() && tracker.clock <= now
      ensures lapsed == old(lapsed) + Missing(tracker.entries, certified, suppressions)
      ensures r.Some? <==> KeyOf(conversation, source) in Living(old(tracker.entries), now, tracker.ttl)
      ensures r.Some? ==>
                var before := old(tracker.entries)[KeyOf(conversation, source)].record;
                && r.value.claimId == before.claimId && r.value.reason == before.reason
                && (r.value.acknowledged <==> before.acknowledged || acknowledged)
                && KeyOf(conversation, source) in tracker.entries
                && tracker.entries[KeyOf(conversation, source)].record == r.value
      ensures Living(tracker.entries, now, tracker.ttl) == Living(old(tracker.entries), now, tracker.ttl)
    {
      var key := KeyOf(conversation, source);
      ActingKeepsLiving(tracker.entries, Op.SetAcknowledged(key, now, acknowledged), tracker.ttl);
      ghost var before := tracker.entries;
      r := tracker.SetAcknowledged(key, acknowledged, now);
      LapsingIsSound(active, suppressions, attempts, before, escaped, certified, lapsed, tracker.entries);
      lapsed := lapsed + Missing(tracker.entries, certified, suppressions);
    }
  }
}
