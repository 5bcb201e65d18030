/**
 * The pending-response correlator of server/routes.ts: the process-wide map from a
 * message id to the resolver of the `generateAIResponse` call that waits for it, the
 * AgentForce callback that settles an entry, and the 30-second timeout.
 *
 * The event loop runs one handler at a time, so the model is a sequential state
 * machine whose events (a dispatch finishing, a callback arriving, a timer firing)
 * may interleave in any order. Every call of a resolver is recorded in a log, so
 * "each waiting call is resolved exactly once" is a statement about that log.
 */
module Correlator {
  import opened Wrappers
  import Webhook

  const CallbackErrorText: string := "I apologize, but I encountered an error processing your request. Please try again."
  const NoResponseText: string := "I received your message but didn't get a response. Please try again."
  const TimeoutText: string := "I'm taking longer than usual to process your request. Please try asking again."
  const ConnectionFailureText: string := "I'm having trouble connecting to the AI system. Please try again in a moment."
  const ProcessingFailureText: string := "I'm having trouble processing your request right now. Please try again."

  /** The map's value: the conversation, and (implicitly, by its key) the resolver of one waiting call. */
  datatype Waiter = Waiter(conversationId: string)

  /** One resolver call: the waiting call for `messageId` returns `text`. */
  datatype Delivery = Delivery(messageId: string, text: string)

  /** The pending map and the resolutions made so far, oldest first. */
  datatype Pending = Pending(entries: map<string, Waiter>, log: seq<Delivery>)

  /** The callback body `{ message_id, response, error }`; only the truthiness of `error` matters. */
  datatype CallbackBody = CallbackBody(messageId: Option<string>, response: Option<string>, error: bool)

  /** The callback's answer: 400 (no id), 404 (unknown or already settled id), or success. */
  datatype CallbackStatus = MissingMessageId | UnknownMessageId | Delivered

  /** A callback's answer and the state it leaves behind. */
  datatype Handled = Handled(status: CallbackStatus, next: Pending)

  /** What the POST to AgentForce did: an ok response, another response, or a thrown error. */
  datatype FetchOutcome = FetchOk | FetchNotOk(status: int) | FetchThrew

  /** `generateAIResponse`'s value: settled at once, or left to a callback or the timer. */
  datatype Reply = Immediate(text: string) | Awaiting

  datatype Event =
    | Dispatched(messageId: string, conversationId: string, outcome: FetchOutcome)
    | CallbackReceived(body: CallbackBody)
    | TimerFired(messageId: string)

  /** The text a callback resolves its waiter with. */
  function CallbackText(response: Option<string>, error: bool): (t: string)
    ensures t != ""
    ensures error ==> t == CallbackErrorText
    ensures !error && Webhook.Truthy(response) ==> t == response.value
    ensures !error && !Webhook.Truthy(response) ==> t == NoResponseText
  {
    if error then CallbackErrorText
    else if Webhook.Truthy(response) then response.value
    else NoResponseText
  }

  /** A dispatch that fails answers its caller at once; only an ok response makes it wait. */
  function DispatchReply(outcome: FetchOutcome): (r: Reply)
    ensures r == Awaiting <==> outcome == FetchOk
    ensures outcome.FetchNotOk? ==> r == Immediate(ConnectionFailureText)
    ensures outcome == FetchThrew ==> r == Immediate(ProcessingFailureText)
  {
    match outcome
    case FetchOk => Awaiting
    case FetchNotOk(_) => Immediate(ConnectionFailureText)
    case FetchThrew => Immediate(ProcessingFailureText)
  }

  /** The map after `fetch` settles: the waiter is registered only when the response was ok. */
  function AfterDispatch(p: Pending, id: string, conversationId: string, outcome: FetchOutcome): (q: Pending)
    ensures outcome != FetchOk ==> q == p
    ensures outcome == FetchOk ==> q.log == p.log && id in q.entries && q.entries[id] == Waiter(conversationId)
    ensures forall k :: k != id ==> (k in q.entries <==> k in p.entries)
    ensures forall k :: k != id && k in p.entries ==> q.entries[k] == p.entries[k]
  {
    if outcome == FetchOk then Pending(p.entries[id := Waiter(conversationId)], p.log) else p
  }

  /**
   * The callback handler: no id is a 400 and an unknown id a 404, both leaving the
   * state alone; a pending id is removed, and only then is its waiter resolved.
   */
  function AfterCallback(p: Pending, body: CallbackBody): (r: Handled)
    ensures r.status == MissingMessageId <==> !Webhook.Truthy(body.messageId)
    ensures r.status == UnknownMessageId <==>
            Webhook.Truthy(body.messageId) && body.messageId.value !in p.entries
    ensures r.status != Delivered ==> r.next == p
    ensures r.status == Delivered ==>
            var id := body.messageId.value;
            && r.next.entries == p.entries - {id}
            && r.next.log == p.log + [Delivery(id, CallbackText(body.response, body.error))]
  {
    if !Webhook.Truthy(body.messageId) then Handled(MissingMessageId, p)
    else
      var id := body.messageId.value;
      if id !in p.entries then Handled(UnknownMessageId, p)
      else Handled(Delivered, Pending(p.entries - {id}, p.log + [Delivery(id, CallbackText(body.response, body.error))]))
  }

  /** The timer: settles its id with the "taking longer" text if, and only if, it is still pending. */
  function AfterTimeout(p: Pending, id: string): (q: Pending)
    ensures id !in q.entries
    ensures id !in p.entries ==> q == p
    ensures id in p.entries ==> q.entries == p.entries - {id} && q.log == p.log + [Delivery(id, TimeoutText)]
  {
    if id in p.entries then Pending(p.entries - {id}, p.log + [Delivery(id, TimeoutText)]) else p
  }

  function Step(p: Pending, e: Event): Pending {
    match e
    case Dispatched(id, conversationId, outcome) => AfterDispatch(p, id, conversationId, outcome)
    case CallbackReceived(body) => AfterCallback(p, body).next
    case TimerFired(id) => AfterTimeout(p, id)
  }

  function Run(p: Pending, events: seq<Event>): Pending
    decreases |events|
  {
    if events == [] then p else Run(Step(p, events[0]), events[1..])
  }

  /** `id` has been resolved at some point of `log`. */
  ghost predicate Logged(log: seq<Delivery>, id: string) {
    exists i :: 0 <= i < |log| && log[i].messageId == id
  }

  /** No id was resolved twice. */
  ghost predicate DistinctIds(log: seq<Delivery>) {
    forall i, j :: 0 <= i < j < |log| ==> log[i].messageId != log[j].messageId
  }

  /**
   * The correlator's invariant: no id is resolved twice, a pending id has not been
   * resolved, and no pending id is empty (generated ids read `msg_<time>_<random>`).
   */
  ghost predicate Consistent(p: Pending) {
    && DistinctIds(p.log)
    && (forall i :: 0 <= i < |p.log| ==> p.log[i].messageId !in p.entries)
    && "" !in p.entries
  }

  /** The id generator's promise: a new id is neither pending nor ever resolved. */
  ghost predicate Fresh(p: Pending, id: string) {
    id != "" && id !in p.entries && !Logged(p.log, id)
  }

  /** Every dispatch in `events` uses a fresh id. */
  ghost predicate Admissible(p: Pending, events: seq<Event>)
    decreases |events|
  {
    events == [] ||
    ((events[0].Dispatched? ==> Fresh(p, events[0].messageId)) && Admissible(Step(p, events[0]), events[1..]))
  }

  /** The texts the waiting call for `id` has been resolved with, in order. */
  function DeliveriesTo(log: seq<Delivery>, id: string): seq<string> {
    if log == [] then []
    else DeliveriesTo(log[..|log| - 1], id) + (if log[|log| - 1].messageId == id then [log[|log| - 1].text] else [])
  }

  lemma {:induction false} DeliveriesToDistinct(log: seq<Delivery>, id: string)
    requires DistinctIds(log)
    ensures !Logged(log, id) ==> DeliveriesTo(log, id) == []
    ensures forall i :: 0 <= i < |log| && log[i].messageId == id ==> DeliveriesTo(log, id) == [log[i].text]
  {
    if log != [] {
      var init := log[..|log| - 1];
      DeliveriesToDistinct(init, id);
      if log[|log| - 1].messageId == id {
        assert !Logged(init, id);
      } else {
        assert forall i :: 0 <= i < |init| ==> init[i] == log[i];
      }
    }
  }

  /** One event keeps the invariant, keeps what was logged, and settles pending ids only by logging them. */
  lemma StepTracks(p: Pending, e: Event)
    requires Consistent(p)
    requires e.Dispatched? ==> Fresh(p, e.messageId)
    ensures Consistent(Step(p, e))
    ensures p.log <= Step(p, e).log
    ensures forall k :: k in p.entries ==> k in Step(p, e).entries || Logged(Step(p, e).log, k)
  {
    var q := Step(p, e);
    match e
    case Dispatched(id, c, outcome) =>
    case CallbackReceived(body) =>
      var r := AfterCallback(p, body);
      if r.status == Delivered {
        var id := body.messageId.value;
        assert q.log[|p.log|].messageId == id;
      }
    case TimerFired(id) =>
      if id in p.entries {
        assert q.log[|p.log|].messageId == id;
      }
  }

  lemma {:induction false} RunTracks(p: Pending, events: seq<Event>)
    requires Consistent(p) && Admissible(p, events)
    ensures Consistent(Run(p, events))
    ensures p.log <= Run(p, events).log
    ensures forall k :: k in p.entries ==> k in Run(p, events).entries || Logged(Run(p, events).log, k)
    decreases |events|
  {
    if events != [] {
      var p' := Step(p, events[0]);
      StepTracks(p, events[0]);
      RunTracks(p', events[1..]);
      var q := Run(p, events);
      forall k | k in p.entries && k !in q.entries ensures Logged(q.log, k) {
        if k !in p'.entries {
          var i :| 0 <= i < |p'.log| && p'.log[i].messageId == k;
          assert q.log[i] == p'.log[i];
        }
      }
    }
  }

  /**
   * Exactly-once resolution: a call that is waiting now, after any admissible
   * interleaving of dispatches, callbacks and timers, is either still waiting and
   * unresolved, or no longer in the map and resolved exactly once.
   */
  lemma ExactlyOnce(p: Pending, events: seq<Event>, id: string)
    requires Consistent(p) && Admissible(p, events)
    requires id in p.entries
    ensures var q := Run(p, events);
            || (id in q.entries && DeliveriesTo(q.log, id) == [])
            || (id !in q.entries && |DeliveriesTo(q.log, id)| == 1)
  {
    var q := Run(p, events);
    RunTracks(p, events);
    DeliveriesToDistinct(q.log, id);
  }

  /**
   * A resolution is final: whatever arrives later (a repeated or late callback, the
   * timer) neither resolves the call again nor changes its text, and the id stays out
   * of the map.
   */
  lemma ResolutionIsFinal(p: Pending, events: seq<Event>, id: string, text: string)
    requires Consistent(p) && Admissible(p, events)
    requires DeliveriesTo(p.log, id) == [text]
    ensures DeliveriesTo(Run(p, events).log, id) == [text]
    ensures id !in Run(p, events).entries
  {
    var q := Run(p, events);
    RunTracks(p, events);
    DeliveriesToDistinct(p.log, id);
    var i :| 0 <= i < |p.log| && p.log[i].messageId == id;
    assert p.log[i].text == text;
    assert q.log[i] == p.log[i];
    DeliveriesToDistinct(q.log, id);
  }

  lemma {:induction false} RunAppend(p: Pending, a: seq<Event>, b: seq<Event>)
    ensures Run(p, a + b) == Run(Run(p, a), b)
    ensures Admissible(p, a + b) ==> Admissible(p, a) && Admissible(Run(p, a), b)
    decreases |a|
  {
    if a != [] {
      assert (a + b)[0] == a[0];
      assert (a + b)[1..] == a[1..] + b;
      RunAppend(Step(p, a[0]), a[1..], b);
    } else {
      assert a + b == b;
    }
  }

  /**
   * The timer bounds the wait: once the timer of a call that was waiting has fired,
   * at whatever point of an admissible run, the call is no longer in the map at the
   * end of the run, and has been resolved exactly once.
   */
  lemma TimerBoundsTheWait(p: Pending, events: seq<Event>, id: string, i: nat)
    requires Consistent(p) && Admissible(p, events)
    requires id in p.entries
    requires i < |events| && events[i] == TimerFired(id)
    ensures id !in Run(p, events).entries
    ensures |DeliveriesTo(Run(p, events).log, id)| == 1
  {
    var before, after := events[..i + 1], events[i + 1..];
    assert events == before + after;
    RunAppend(p, before, after);
    assert before == events[..i] + [TimerFired(id)];
    RunAppend(p, events[..i], [TimerFired(id)]);
    var q1 := Run(p, events[..i]);
    RunTracks(p, events[..i]);
    var q2 := Run(p, before);
    assert q2 == AfterTimeout(q1, id);
    StepTracks(q1, TimerFired(id));
    assert Logged(q2.log, id) by {
      if id in q1.entries {
        assert q2.log[|q1.log|].messageId == id;
      } else {
        var j :| 0 <= j < |q1.log| && q1.log[j].messageId == id;
        assert q2.log[j] == q1.log[j];
      }
    }
    var q := Run(q2, after);
    RunTracks(q2, after);
    var j :| 0 <= j < |q2.log| && q2.log[j].messageId == id;
    assert q.log[j] == q2.log[j];
    DeliveriesToDistinct(q.log, id);
  }

  /**
   * The callback/timer race on a waiting id: whichever comes first resolves the call
   * and removes the entry, the other changes nothing, and either way exactly one
   * resolution is added and every other entry is untouched.
   */
  lemma CallbackTimeoutRace(p: Pending, id: string, body: CallbackBody)
    requires id in p.entries && id != ""
    requires body.messageId == Some(id)
    ensures var first := AfterCallback(p, body);
            && first.status == Delivered
            && AfterTimeout(first.next, id) == first.next
            && first.next == Pending(p.entries - {id}, p.log + [Delivery(id, CallbackText(body.response, body.error))])
    ensures var timedOut := AfterTimeout(p, id);
            && AfterCallback(timedOut, body) == Handled(UnknownMessageId, timedOut)
            && timedOut == Pending(p.entries - {id}, p.log + [Delivery(id, TimeoutText)])
  {
  }

  /**
   * Registration happens only after `fetch` resolves ok, so a callback that beats it
   * is answered 404 and lost: the call then waits for the timer.
   */
  lemma EarlyCallbackIsLost(p: Pending, id: string, conversationId: string, body: CallbackBody)
    requires Fresh(p, id)
    requires body.messageId == Some(id)
    ensures var early := AfterCallback(p, body);
            && early == Handled(UnknownMessageId, p)
            && var registered := AfterDispatch(early.next, id, conversationId, FetchOk);
               id in registered.entries &&
               AfterTimeout(registered, id).log == p.log + [Delivery(id, TimeoutText)]
  {
  }

  /**
   * The correlator as the source keeps it: one process-wide map, mutated in place by
   * `generateAIResponse`, the callback route and the timers.
   */
  class PendingResponses {
    var entries: map<string, Waiter>
    /** Every resolver call so far; not a field of the source, it records what each caller received. */
    ghost var log: seq<Delivery>

    ghost function State(): Pending
      reads this
    {
      Pending(entries, log)
    }

    ghost predicate Valid()
      reads this
    {
      Consistent(State())
    }

    constructor ()
      ensures Valid() && State() == Pending(map[], [])
    {
      entries := map[];
      log := [];
    }

    /**
     * `generateAIResponse` up to its suspension point: builds the payload that is
     * POSTed to the AgentForce hook, then either answers at once (failed POST) or registers the waiter.
     * The id, the clock reading and the POST's outcome are inputs.
     */
    method GenerateAIResponse(messageId: string, userMessage: string, messageType: Option<string>,
                              conversationId: Option<string>, domain: Option<string>, timestamp: string,
                              outcome: FetchOutcome)
      returns (url: string, payload: Webhook.Payload, reply: Reply)
      requires Valid() && Fresh(State(), messageId)
      modifies this
      ensures Valid()
      ensures url == Webhook.AgentForceUrl
      ensures payload == Webhook.BuildPayload(messageId, userMessage, messageType, conversationId, domain, timestamp)
      ensures reply == DispatchReply(outcome)
      ensures State() == AfterDispatch(old(State()), messageId, conversationId.GetOr(""), outcome)
    {
      url := Webhook.AgentForceUrl;
      payload := Webhook.BuildPayload(messageId, userMessage, messageType, conversationId, domain, timestamp);
      match outcome {
        case FetchThrew =>
          reply := Immediate(ProcessingFailureText);
        case FetchNotOk(_) =>
          reply := Immediate(ConnectionFailureText);
        case FetchOk =>
          entries := entries[messageId := Waiter(conversationId.GetOr(""))];
          reply := Awaiting;
      }
    }

    /** The `/api/agentforce/callback` handler. */
    method HandleCallback(body: CallbackBody) returns (status: CallbackStatus)
      requires Valid()
      modifies this
      ensures Valid()
      ensures Handled(status, State()) == AfterCallback(old(State()), body)
    {
      if !Webhook.Truthy(body.messageId) {
        return MissingMessageId;
      }
      var id := body.messageId.value;
      if id !in entries {
        return UnknownMessageId;
      }
      entries := entries - {id};
      log := log + [Delivery(id, CallbackText(body.response, body.error))];
      status := Delivered;
    }

    /** The timer armed at registration, firing 30 seconds later. */
    method FireTimeout(messageId: string)
      requires Valid()
      modifies this
      ensures Valid()
      ensures State() == AfterTimeout(old(State()), messageId)
    {
      if messageId in entries {
        entries := entries - {messageId};
        log := log + [Delivery(messageId, TimeoutText)];
      }
    }
  }
}
