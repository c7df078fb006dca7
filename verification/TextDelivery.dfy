/**
  Delivery of an agent's text: Core leases an intent to a bridge under a fence, the bridge
  calls the platform and posts a completion.  Transactions race on stale reads, replies and
  completions get lost or repeated and bridges die; still no interaction is sent twice.
 */
module TextDelivery {
  import opened Wrappers

  datatype Digest = Sha256(text: string)

  datatype DeliveryState = Pending | Leased | Succeeded | Failed | Ambiguous | Expired

  /** The columns no update may touch. */
  datatype Authority = Authority(
    interaction: string, instance: string, conversationType: string, conversation: string, text: string, sha: Digest)

  datatype Intent = Intent(
    authority: Authority, state: DeliveryState, fence: nat, token: Option<Digest>,
    messageId: Option<string>, error: Option<string>)

  datatype Event = Event(previous: Option<DeliveryState>, state: DeliveryState)

  datatype Lease = Lease(intent: string, authority: Authority, fence: nat, token: string)

  datatype Send = Send(intent: string, authority: Authority, messageId: Option<string>)

  datatype Completion = Completion(
    intent: string, instance: string, fence: nat, token: string,
    outcome: DeliveryState, messageId: Option<string>, error: Option<string>)

  type Intents = map<string, Intent>
  type Events = map<(string, nat), Event>

  // ---------------------------------------------------------------- the trigger

  /** The guard in front of every update of an intent's row. */
  predicate Guard(before: Intent, after: Intent, id: string, events: Events) {
    && after.authority == before.authority
    && (|| (before.state.Pending? && after.state.Leased? && before.fence == 0 && after.fence == 1)
        || (before.state.Pending? && after.state.Expired? && before.fence == 0 && after.fence == 0)
        || (before.state.Leased? && (after.state.Succeeded? || after.state.Failed? || after.state.Ambiguous?)
            && after.fence == before.fence))
    && (id, if before.state.Pending? then 2 else 3) in events
    && events[(id, if before.state.Pending? then 2 else 3)] == Event(Some(before.state), after.state)
  }

  // ---------------------------------------------------------------- invariants

  predicate Final(state: DeliveryState) {
    state.Succeeded? || state.Failed? || state.Ambiguous? || state.Expired?
  }

  /** The fence says whether the intent was ever leased. */
  predicate Fenced(intent: Intent) {
    && intent.fence <= 1
    && (intent.fence == 0 <==> intent.state.Pending? || intent.state.Expired?)
    && (intent.token.Some? <==> intent.fence == 1)
    && intent.authority.sha == Sha256(intent.authority.text)
  }

  predicate FencedAt(intents: Intents, id: string) {
    id in intents ==> Fenced(intents[id])
  }

  /** Events are written in order, none ahead of the row. */
  predicate Chained(intents: Intents, events: Events, id: string) {
    && ((id, 2) in events ==> id in intents && !intents[id].state.Pending?)
    && ((id, 3) in events ==> id in intents && intents[id].fence == 1 && Final(intents[id].state))
    && (id in intents && intents[id].fence == 1 ==>
          (id, 2) in events && events[(id, 2)] == Event(Some(Pending), Leased))
    && (id in intents && Final(intents[id].state) ==>
          var last := (id, if intents[id].fence == 1 then 3 else 2);
          var previous := if intents[id].fence == 1 then Leased else Pending;
          last in events && events[last] == Event(Some(previous), intents[id].state))
  }

  ghost predicate Rows(intents: Intents, events: Events) {
    && (forall id :: FencedAt(intents, id))
    && (forall id :: Chained(intents, events, id))
    && (forall a, b :: a in intents && b in intents && a != b ==>
          intents[a].authority.interaction != intents[b].authority.interaction)
  }

  predicate Names(intents: Intents, id: string, authority: Authority) {
    id in intents && intents[id].authority == authority && intents[id].fence == 1
  }

  /** A reply still under way belongs to a leased intent nobody has sent anything for. */
  ghost predicate Outstanding(intents: Intents, replies: set<Lease>, sends: seq<Send>) {
    && (forall l :: l in replies ==> Names(intents, l.intent, l.authority))
    && (forall l, m :: l in replies && m in replies && l.intent == m.intent ==> l == m)
    && (forall l, k :: l in replies && 0 <= k < |sends| ==> sends[k].intent != l.intent)
  }

  ghost predicate SentOnce(intents: Intents, sends: seq<Send>) {
    && (forall k :: 0 <= k < |sends| ==> Names(intents, sends[k].intent, sends[k].authority))
    && (forall j, k :: 0 <= j < k < |sends| ==> sends[j].intent != sends[k].intent)
  }

  predicate Witnessed(sends: seq<Send>, id: string, messageId: Option<string>) {
    exists k :: 0 <= k < |sends| && sends[k].intent == id && sends[k].messageId == messageId && messageId.Some?
  }

  predicate ReportedFailed(completions: set<Completion>, id: string, error: Option<string>) {
    exists c :: c in completions && c.intent == id && c.outcome.Failed? && c.error == error
  }

  /**
    Failure is only ever recorded because a bridge reported it, and success is only ever
    claimed for a send the platform answered.
   */
  ghost predicate Honest(intents: Intents, sends: seq<Send>, completions: set<Completion>) {
    && (forall c :: c in completions && c.outcome.Succeeded? ==> Witnessed(sends, c.intent, c.messageId))
    && (forall id :: id in intents && intents[id].state.Succeeded? ==> Witnessed(sends, id, intents[id].messageId))
    && (forall id :: id in intents && intents[id].state.Failed? ==> ReportedFailed(completions, id, intents[id].error))
  }

  /** At most one platform call for any interaction, with the text and to the conversation of its intent. */
  lemma AtMostOneSend(intents: Intents, events: Events, sends: seq<Send>, j: nat, k: nat)
    requires Rows(intents, events) && SentOnce(intents, sends) && j < |sends| && k < |sends|
    requires sends[j].authority.interaction == sends[k].authority.interaction
    ensures j == k
    ensures sends[j].intent in intents && sends[j].authority == intents[sends[j].intent].authority
  {
    assert Names(intents, sends[j].intent, sends[j].authority);
    assert Names(intents, sends[k].intent, sends[k].authority);
  }

  /** What a final state says about the platform: success is one answered call, expiry is none. */
  lemma FinalStatesAreTrue(
    intents: Intents, events: Events, sends: seq<Send>, completions: set<Completion>, id: string)
    requires Rows(intents, events) && SentOnce(intents, sends) && Honest(intents, sends, completions)
    requires id in intents
    ensures intents[id].state.Succeeded? ==>
              exists k :: 0 <= k < |sends| && sends[k] == Send(id, intents[id].authority, intents[id].messageId)
                && sends[k].messageId.Some?
    ensures intents[id].state.Failed? ==>
              exists c :: c in completions && c.intent == id && c.outcome.Failed? && c.error == intents[id].error
    ensures intents[id].state.Expired? || intents[id].state.Pending? ==>
              forall k :: 0 <= k < |sends| ==> sends[k].authority.interaction != intents[id].authority.interaction
  {
    assert FencedAt(intents, id);
    if intents[id].state.Succeeded? {
      assert Witnessed(sends, id, intents[id].messageId);
      var k :| 0 <= k < |sends| && sends[k].intent == id && sends[k].messageId == intents[id].messageId;
      assert Names(intents, sends[k].intent, sends[k].authority);
    }
    if k :| 0 <= k < |sends| && sends[k].authority.interaction == intents[id].authority.interaction {
      assert Names(intents, sends[k].intent, sends[k].authority);
    }
  }

  // ---------------------------------------------------------------- what an update keeps

  lemma UpdateKeepsRows(intents: Intents, events: Events, id: string, after: Intent, n: nat, event: Event)
    requires Rows(intents, events) && id in intents && Fenced(after)
    requires (id, n) !in events && n == if intents[id].state.Pending? then 2 else 3
    requires event == Event(Some(intents[id].state), after.state)
    requires Guard(intents[id], after, id, events[(id, n) := event])
    ensures Rows(intents[id := after], events[(id, n) := event])
  {
    var intents', events' := intents[id := after], events[(id, n) := event];
    forall x ensures FencedAt(intents', x) {
      assert FencedAt(intents, x);
    }
    forall x ensures Chained(intents', events', x) {
      assert Chained(intents, events, x);
      assert FencedAt(intents, x);
    }
  }

  /** Leases, sends and completions only need the fence and the columns that never change. */
  lemma UpdateKeepsNames(
    intents: Intents, events: Events, id: string, after: Intent, replies: set<Lease>, sends: seq<Send>)
    requires Rows(intents, events) && id in intents && Outstanding(intents, replies, sends) && SentOnce(intents, sends)
    requires after.authority == intents[id].authority && intents[id].fence <= after.fence <= 1
    ensures Outstanding(intents[id := after], replies, sends) && SentOnce(intents[id := after], sends)
  {
    var intents' := intents[id := after];
    forall x, authority | Names(intents, x, authority) ensures Names(intents', x, authority) {
    }
    assert forall l :: l in replies ==> Names(intents, l.intent, l.authority);
    assert forall k :: 0 <= k < |sends| ==> Names(intents, sends[k].intent, sends[k].authority);
  }

  lemma SendKeepsHonesty(intents: Intents, sends: seq<Send>, completions: set<Completion>, more: seq<Send>)
    requires Honest(intents, sends, completions)
    ensures Honest(intents, sends + more, completions)
  {
    forall id, messageId | Witnessed(sends, id, messageId) ensures Witnessed(sends + more, id, messageId) {
      var k :| 0 <= k < |sends| && sends[k].intent == id && sends[k].messageId == messageId;
      assert (sends + more)[k] == sends[k];
    }
  }

  lemma CompletionKeepsHonesty(intents: Intents, sends: seq<Send>, completions: set<Completion>, c: Completion)
    requires Honest(intents, sends, completions)
    requires c.outcome.Succeeded? ==> Witnessed(sends, c.intent, c.messageId)
    ensures Honest(intents, sends, completions + {c})
  {
    forall id | id in intents && intents[id].state.Failed?
      ensures ReportedFailed(completions + {c}, id, intents[id].error)
    {
      var known :| known in completions && known.intent == id && known.outcome.Failed?
                   && known.error == intents[id].error;
      assert known in completions + {c};
    }
  }

  // ---------------------------------------------------------------- the bridge's attempt

  /** What came of the platform call, as the result hook and the waiting coroutine see it. */
  datatype Answer = Blocked | Answered(messageId: Option<string>) | TimedOut | Errored | NoReceipt

  /** The platform may have delivered the text, and nobody can tell: such a send is never called failed. */
  predicate MayHaveArrived(answer: Answer) {
    answer.TimedOut? || answer.NoReceipt? || (answer.Answered? && answer.messageId.None?)
  }

  function Outcome(answer: Answer): (r: (DeliveryState, Option<string>, Option<string>))
    ensures r.0.Succeeded? <==> answer.Answered? && answer.messageId.Some?
    ensures r.0.Succeeded? || r.0.Failed? || r.0.Ambiguous?
    ensures r.1.Some? <==> r.0.Succeeded?
    ensures r.2.Some? <==> !r.0.Succeeded?
    ensures r.0.Ambiguous? <==> MayHaveArrived(answer)
    ensures r.0.Failed? <==> answer.Blocked? || answer.Errored?
    ensures answer.Answered? && answer.messageId.Some? ==> r.1 == answer.messageId
    ensures r.2 == Some("blocked_by_core_claim") <==> answer.Blocked?
    ensures r.2 == Some("platform_completion_unknown") <==> answer.TimedOut? || answer.NoReceipt?
  {
    match answer
    case Blocked => (Failed, None, Some("blocked_by_core_claim"))
    case Answered(Some(messageId)) => (Succeeded, Some(messageId), None)
    case Answered(None) => (Ambiguous, None, Some("platform_message_id_unavailable"))
    case TimedOut => (Ambiguous, None, Some("platform_completion_unknown"))
    case Errored => (Failed, None, Some("platform_send_failed"))
    case NoReceipt => (Ambiguous, None, Some("platform_completion_unknown"))
  }

  /** What happens around the bridge while it works on one lease. */
  datatype Circumstance = Circumstance(
    botReady: bool, conversationParses: bool, answer: Answer, diesBefore: bool, diesAfter: bool)

  /** Whether the platform is called at all. */
  predicate Calls(lease: Lease, c: Circumstance) {
    && !c.diesBefore
    && lease.intent != "" && lease.authority.text != "" && Sha256(lease.authority.text) == lease.authority.sha
    && c.botReady && c.conversationParses
    && (lease.authority.conversationType == "group" || lease.authority.conversationType == "private")
    && !c.answer.Blocked?
  }

  function Reported(lease: Lease, c: Circumstance): (r: (DeliveryState, Option<string>, Option<string>))
    ensures r.0.Succeeded? ==> c.answer == Answered(r.1) && r.1.Some? && (!c.diesBefore ==> Calls(lease, c))
    ensures Calls(lease, c) ==> r == Outcome(c.answer)
    ensures !Calls(lease, c) && !c.diesBefore ==> r.0.Failed? && r.1.None? && r.2.Some?
  {
    if lease.intent == "" || lease.authority.text == "" || Sha256(lease.authority.text) != lease.authority.sha
    then (Failed, None, Some("delivery_payload_invalid"))
    else if !c.botReady then (Failed, None, Some("onebot_unavailable"))
    else if !c.conversationParses
            || (lease.authority.conversationType != "group" && lease.authority.conversationType != "private")
    then (Failed, None, Some("platform_send_failed"))
    else Outcome(c.answer)
  }

  /** The completion that ended the intent, once more. */
  predicate Repeats(c: Completion, intent: Intent) {
    && (intent.state.Succeeded? || intent.state.Failed? || intent.state.Ambiguous?)
    && intent.state == c.outcome && intent.messageId == c.messageId && intent.error == c.error
  }

  /** A completion of the lease in force, saying one thing. */
  predicate Accepts(c: Completion, intent: Intent) {
    && intent.state.Leased? && c.fence == intent.fence && intent.token == Some(Sha256(c.token))
    && (if c.outcome.Succeeded? then c.messageId.Some? && c.messageId.value != "" && c.error.None?
        else (c.outcome.Failed? || c.outcome.Ambiguous?) && c.error.Some? && c.error.value != "" && c.messageId.None?)
  }

  /** A bridge that lives, has a bot and a text for a known kind of conversation, and is not blocked, always calls. */
  lemma LeasedTextIsSent(
    intents: Intents, events: Events, replies: set<Lease>, sends: seq<Send>, lease: Lease, c: Circumstance)
    requires Rows(intents, events) && Outstanding(intents, replies, sends) && lease in replies
    ensures Calls(lease, c) <==>
              && !c.diesBefore && c.botReady && c.conversationParses && !c.answer.Blocked?
              && lease.intent != "" && lease.authority.text != ""
              && lease.authority.conversationType in {"group", "private"}
  {
    assert Names(intents, lease.intent, lease.authority);
    assert FencedAt(intents, lease.intent);
  }

  datatype Refusal = NotFound | Conflict | RolledBack

  // ---------------------------------------------------------------- the whole protocol

  class AgentTextDelivery {
    var intents: Intents
    var events: Events
    /** Lease replies on their way to a bridge, the platform's calls, the completions bridges posted. */
    var replies: set<Lease>
    var sends: seq<Send>
    var completions: set<Completion>

    ghost predicate Valid()
      reads this
    {
      && Rows(intents, events)
      && Outstanding(intents, replies, sends)
      && SentOnce(intents, sends)
      && Honest(intents, sends, completions)
    }

    constructor ()
      ensures Valid() && intents == map[] && sends == []
    {
      intents, events, replies, sends, completions := map[], map[], {}, [], {};
    }

    /** The interaction column is unique, so a second intent for an interaction is refused. */
    method Create(id: string, authority: Authority) returns (created: bool)
      requires Valid() && id !in intents && authority.sha == Sha256(authority.text)
      modifies this`intents, this`events
      ensures Valid()
      ensures created <==>
                forall other :: other in old(intents) ==>
                  old(intents)[other].authority.interaction != authority.interaction
      ensures intents == if created then old(intents)[id := Intent(authority, Pending, 0, None, None, None)]
                         else old(intents)
    {
      if exists other :: other in intents && intents[other].authority.interaction == authority.interaction {
        return false;
      }
      ghost var before, earlier := intents, events;
      intents := intents[id := Intent(authority, Pending, 0, None, None, None)];
      events := events[(id, 1) := Event(None, Pending)];
      forall x ensures FencedAt(intents, x) {
        assert FencedAt(before, x);
      }
      forall x ensures Chained(intents, events, x) {
        assert Chained(before, earlier, x);
      }
      forall x, a | Names(before, x, a) ensures Names(intents, x, a) {
      }
      assert forall l :: l in replies ==> Names(before, l.intent, l.authority);
      assert forall k :: 0 <= k < |sends| ==> Names(before, sends[k].intent, sends[k].authority);
      return true;
    }

    /**
      One transaction: add the event, then update the row past the trigger.  Either both
      happen or neither; `previous` is what an earlier, maybe stale, read said.
     */
    method Transact(id: string, previous: DeliveryState, after: Intent, rest: bool) returns (committed: bool)
      requires Valid() && id in intents && (previous.Pending? || previous.Leased?)
      requires after.authority == intents[id].authority
      requires after.fence == if after.state.Leased? then 1 else intents[id].fence
      requires if after.state.Leased? then after.token.Some? else after.token == intents[id].token
      requires if previous.Pending? then after.state.Leased? || after.state.Expired?
               else after.state.Succeeded? || after.state.Failed? || after.state.Ambiguous?
      requires after.state.Succeeded? ==> Witnessed(sends, id, after.messageId)
      requires after.state.Failed? ==> ReportedFailed(completions, id, after.error)
      modifies this`intents, this`events
      ensures Valid()
      ensures committed <==> old(intents)[id].state == previous && rest
      ensures intents == if committed then old(intents)[id := after] else old(intents)
      ensures events == if committed
                        then old(events)[(id, if previous.Pending? then 2 else 3) := Event(Some(previous), after.state)]
                        else old(events)
    {
      var n := if previous.Pending? then 2 else 3;
      assert Chained(intents, events, id) && FencedAt(intents, id);
      if (id, n) in events || !rest {
        return false;
      }
      var added := events[(id, n) := Event(Some(previous), after.state)];
      if !Guard(intents[id], after, id, added) {
        return false;
      }
      UpdateKeepsRows(intents, events, id, after, n, Event(Some(previous), after.state));
      UpdateKeepsNames(intents, events, id, after, replies, sends);
      events := added;
      intents := intents[id := after];
      return true;
    }

    /**
      Lease an intent that a read saw pending.  However many requests race, it is granted
      exactly if the row is still pending, and the reply goes out once.
     */
    method LeaseIntent(id: string, instance: string, seen: Intent, token: string) returns (lease: Option<Lease>)
      requires Valid() && id in intents && seen.authority == intents[id].authority
      modifies this`intents, this`events, this`replies
      ensures Valid()
      ensures lease.Some? <==>
                seen.state.Pending? && seen.authority.instance == instance && old(intents)[id].state.Pending?
      ensures lease.Some? ==>
                && lease == Some(Lease(id, old(intents)[id].authority, 1, token))
                && old(intents)[id].fence == 0
                && replies == old(replies) + {lease.value}
                && intents == old(intents)[id := old(intents)[id].(state := Leased, fence := 1,
                                                                   token := Some(Sha256(token)))]
      ensures lease.None? ==> intents == old(intents) && replies == old(replies)
    {
      if !seen.state.Pending? || seen.authority.instance != instance {
        return None;
      }
      assert FencedAt(intents, id);
      ghost var before := intents;
      var committed := Transact(id, Pending, intents[id].(state := Leased, fence := 1, token := Some(Sha256(token))),
                                true);
      if !committed {
        return None;
      }
      lease := Some(Lease(id, intents[id].authority, 1, token));
      forall l | l in replies ensures l.intent != id {
        assert Names(before, l.intent, l.authority);
      }
      forall k | 0 <= k < |sends| ensures sends[k].intent != id {
        assert Names(before, sends[k].intent, sends[k].authority);
      }
      replies := replies + {lease.value};
    }

    /** The reaper ends what it read as pending past its deadline or as leased past its expiry. */
    method Reap(
      id: string, seen: Intent, pastDeadline: bool, pastLease: bool, interactionMoves: bool)
      returns (ended: bool)
      requires Valid() && id in intents && seen.authority == intents[id].authority
      modifies this`intents, this`events
      ensures Valid()
      ensures ended <==> seen.state == old(intents)[id].state && interactionMoves
                         && ((seen.state.Leased? && pastLease) || (seen.state.Pending? && pastDeadline))
      ensures ended ==> intents == old(intents)[id := old(intents)[id].(
                                     state := if seen.state.Leased? then Ambiguous else Expired,
                                     messageId := None,
                                     error := Some(if seen.state.Leased? then "lease_expired_completion_unknown"
                                                   else "delivery_deadline"))]
      ensures !ended ==> intents == old(intents)
    {
      assert FencedAt(intents, id);
      if seen.state.Leased? && pastLease {
        ended := Finish(id, Leased, Ambiguous, None, Some("lease_expired_completion_unknown"), interactionMoves);
      } else if seen.state.Pending? && pastDeadline {
        ended := Finish(id, Pending, Expired, None, Some("delivery_deadline"), interactionMoves);
      } else {
        ended := false;
      }
    }

    /** End an intent; its interaction moves along in the same transaction. */
    method Finish(
      id: string, previous: DeliveryState, outcome: DeliveryState, messageId: Option<string>, error: Option<string>,
      interactionMoves: bool)
      returns (committed: bool)
      requires Valid() && id in intents
      requires (previous.Pending? && outcome.Expired?)
               || (previous.Leased? && (outcome.Succeeded? || outcome.Failed? || outcome.Ambiguous?))
      requires outcome.Succeeded? ==> Witnessed(sends, id, messageId)
      requires outcome.Failed? ==> ReportedFailed(completions, id, error)
      modifies this`intents, this`events
      ensures Valid()
      ensures committed <==> old(intents)[id].state == previous && interactionMoves
      ensures intents == if committed
                         then old(intents)[id := old(intents)[id].(state := outcome, messageId := messageId,
                                                                   error := error)]
                         else old(intents)
    {
      assert FencedAt(intents, id);
      committed := Transact(id, previous, intents[id].(state := outcome, messageId := messageId, error := error),
                            interactionMoves);
    }

    /** The bridge works on a lease it received: at most one platform call, then one completion. */
    method Deliver(lease: Lease, c: Circumstance)
      requires Valid() && lease in replies
      modifies this`replies, this`sends, this`completions
      ensures Valid()
      ensures replies == old(replies) - {lease}
      ensures sends == if Calls(lease, c)
                       then old(sends) + [Send(lease.intent, lease.authority,
                                               if c.answer.Answered? then c.answer.messageId else None)]
                       else old(sends)
      ensures completions == if c.diesBefore || c.diesAfter then old(completions)
                             else var (outcome, messageId, error) := Reported(lease, c);
                                  old(completions) + {Completion(lease.intent, lease.authority.instance, lease.fence,
                                                                 lease.token, outcome, messageId, error)}
    {
      assert Names(intents, lease.intent, lease.authority);
      replies := replies - {lease};
      if c.diesBefore {
        return;
      }
      if Calls(lease, c) {
        var send := Send(lease.intent, lease.authority, if c.answer.Answered? then c.answer.messageId else None);
        SendKeepsHonesty(intents, sends, completions, [send]);
        sends := sends + [send];
        assert sends[|sends| - 1] == send;
      }
      if c.diesAfter {
        return;
      }
      var (outcome, messageId, error) := Reported(lease, c);
      var completion := Completion(lease.intent, lease.authority.instance, lease.fence, lease.token, outcome,
                                   messageId, error);
      assert outcome.Succeeded? ==> Witnessed(sends, completion.intent, completion.messageId);
      CompletionKeepsHonesty(intents, sends, completions, completion);
      completions := completions + {completion};
    }

    /** A reply that is lost is lost: nobody else gets the lease. */
    method LoseReply(lease: Lease)
      requires Valid()
      modifies this`replies
      ensures Valid() && replies == old(replies) - {lease}
    {
      replies := replies - {lease};
    }

    /** Core takes a completion, possibly again, possibly after the row it read has moved on. */
    method Complete(c: Completion, instance: string, seen: Option<Intent>, interactionMoves: bool)
      returns (r: Result<Intent, Refusal>)
      requires Valid() && c in completions
      requires seen.Some? <==> c.intent in intents
      requires seen.Some? ==> seen.value.authority == intents[c.intent].authority && Fenced(seen.value)
      modifies this`intents, this`events
      ensures Valid()
      ensures r.Success? <==>
                && c.instance == instance && seen.Some? && seen.value.authority.instance == instance
                && (|| Repeats(c, seen.value)
                    || (Accepts(c, seen.value) && old(intents)[c.intent].state.Leased? && interactionMoves))
      ensures intents == if r.Success? && seen.value.state.Leased?
                         then old(intents)[c.intent := r.value]
                         else old(intents)
      ensures r.Success? && seen.value.state.Leased? ==>
                && seen.value.token == Some(Sha256(c.token)) && seen.value.fence == c.fence == 1
                && (c.messageId.Some? <==> c.outcome.Succeeded?) && (c.error.Some? <==> !c.outcome.Succeeded?)
                && (c.outcome.Succeeded? || c.outcome.Failed? || c.outcome.Ambiguous?)
      ensures r.Success? && !seen.value.state.Leased? ==>
                && r.value == seen.value && seen.value.state == c.outcome
                && seen.value.messageId == c.messageId && seen.value.error == c.error
      ensures r.Success? && seen.value.state.Leased? ==>
                r.value == old(intents)[c.intent].(state := c.outcome, messageId := c.messageId, error := c.error)
    {
      if c.instance != instance {
        return Failure(Conflict);
      }
      if seen.None? || seen.value.authority.instance != instance {
        return Failure(NotFound);
      }
      var intent := seen.value;
      if intent.state.Succeeded? || intent.state.Failed? || intent.state.Ambiguous? {
        if intent.state == c.outcome && intent.messageId == c.messageId && intent.error == c.error {
          return Success(intent);
        }
        return Failure(Conflict);
      }
      if !intent.state.Leased? || c.fence != intent.fence {
        return Failure(Conflict);
      }
      if intent.token.None? || Sha256(c.token) != intent.token.value {
        return Failure(Conflict);
      }
      if c.outcome.Succeeded? {
        if c.messageId.None? || c.messageId.value == "" || c.error.Some? {
          return Failure(Conflict);
        }
      } else if c.error.None? || c.error.value == "" || c.messageId.Some?
                || !(c.outcome.Failed? || c.outcome.Ambiguous?) {
        return Failure(Conflict);
      }
      var committed := Finish(c.intent, Leased, c.outcome, c.messageId, c.error, interactionMoves);
      if !committed {
        return Failure(RolledBack);
      }
      return Success(intents[c.intent]);
    }
  }
}
