/** What a channel is told about a response: the channels manager's side of a dispatch. */
module AckLifecycles {
  import opened Options
  import opened Messages

  datatype Update = Update(isResult: bool, content: string)

  datatype Action =
    | AckMessage
    | TypingIndicator
    | ResponseStarted
    | DeliverMessage(update: Update)
    | ResponseCompleted
    | SessionOpened

  /** A notification written to a channel, about the session of `key`. */
  datatype Notification = Notification(key: SessionKey, slot: nat, sessionId: AcpId, action: Action)

  datatype Route = Route(slot: nat, sessionId: AcpId)

  datatype Event =
    // from the agents manager
    | Deliver(key: SessionKey, update: Update)
    | SessionComplete(key: SessionKey)
    | DispatchStarted(key: SessionKey)
    // a channel's message: the session it needs is created or not, and it is enqueued or rejected
    | SessionCreated(key: SessionKey, route: Route)
    | CreationFailed(key: SessionKey, slot: nat, error: string)
    | EnqueueRejected(key: SessionKey, error: string)
    // a command from elsewhere, and channels coming and going
    | DeliverToChannel(key: SessionKey, update: Update)
    | Connection(slot: nat, up: bool)

  datatype State = State(
    routes: map<SessionKey, Route>,
    connected: set<nat>,         // slots with a connection
    acked: set<SessionKey>,
    sent: seq<Notification>)

  const IDLE := State(map[], {}, {}, [])

  predicate Reaches(s: State, k: SessionKey) { k in s.routes && s.routes[k].slot in s.connected }

  /** The notifications of these actions, if the session's channel is there to take them. */
  function Notify(s: State, k: SessionKey, actions: seq<Action>): seq<Notification> {
    if Reaches(s, k)
    then seq(|actions|, i requires 0 <= i < |actions| =>
               Notification(k, s.routes[k].slot, s.routes[k].sessionId, actions[i]))
    else []
  }

  function Rejection(error: string): Action { DeliverMessage(Update(true, "Session recovery failed: " + error)) }

  function Refusal(error: string): Action { DeliverMessage(Update(true, "Failed to create session: " + error)) }

  /** What an event makes the manager send. Only updates from the agents manager are announced by
      response_started; the errors it delivers itself are not. */
  function Emitted(s: State, e: Event): seq<Notification> {
    match e
    case Deliver(k, u) =>
      Notify(s, k, (if k in s.acked then [] else [ResponseStarted]) + [DeliverMessage(u)])
    case SessionComplete(k) => Notify(s, k, [ResponseCompleted])
    case DispatchStarted(k) => Notify(s, k, [AckMessage, TypingIndicator])
    case SessionCreated(k, route) =>
      if k in s.routes then [] else Notify(s.(routes := s.routes[k := route]), k, [SessionOpened])
    case CreationFailed(k, i, error) =>
      if k !in s.routes && i in s.connected then [Notification(k, i, "", Refusal(error))] else []
    case EnqueueRejected(k, error) => Notify(s, k, [Rejection(error)])
    case DeliverToChannel(k, u) => Notify(s, k, [DeliverMessage(u)])
    case Connection(_, _) => []
  }

  /** A session counts as acknowledged from its first routed update on, whether or not the channel
      was connected to hear of it. */
  function Step(s: State, e: Event): State {
    var s' := s.(sent := s.sent + Emitted(s, e));
    match e
    case Deliver(k, _) => if k in s.routes then s'.(acked := s.acked + {k}) else s'
    case SessionComplete(_) => s'
    case DispatchStarted(k) => s'.(acked := s.acked - {k})
    case SessionCreated(k, route) => if k in s.routes then s' else s'.(routes := s.routes[k := route])
    case CreationFailed(_, _, _) => s'
    case EnqueueRejected(_, _) => s'
    case DeliverToChannel(_, _) => s'
    case Connection(i, up) => s'.(connected := if up then s.connected + {i} else s.connected - {i})
  }

  function Run(events: seq<Event>): State {
    if events == [] then IDLE else Step(Run(events[..|events| - 1]), events[|events| - 1])
  }

  class ChannelsManager {
    var routes: map<SessionKey, Route>
    var connected: set<nat>
    var acked: set<SessionKey>
    var sent: seq<Notification>

    ghost function View(): State
      reads this
    {
      State(routes, connected, acked, sent)
    }

    constructor ()
      ensures View() == IDLE
    {
      routes, connected, acked, sent := map[], {}, {}, [];
    }

    /** One notification to the session's channel, if it has one that is connected. */
    method SendNotification(key: SessionKey, action: Action)
      modifies this`sent
      ensures sent == old(sent) + Notify(old(View()), key, [action])
    {
      if key in routes && routes[key].slot in connected {
        sent := sent + [Notification(key, routes[key].slot, routes[key].sessionId, action)];
      }
    }

    /** `handle_deliver_message`. */
    method HandleDeliverMessage(key: SessionKey, update: Update)
      modifies this
      ensures View() == Step(old(View()), Deliver(key, update))
    {
      if key in routes {
        if key !in acked {
          acked := acked + {key};
          SendNotification(key, ResponseStarted);
        }
        SendNotification(key, DeliverMessage(update));
      }
      assert acked == if key in routes then old(acked) + {key} else old(acked);
    }

    /** `handle_session_complete`. */
    method HandleSessionComplete(key: SessionKey)
      modifies this
      ensures View() == Step(old(View()), SessionComplete(key))
    {
      SendNotification(key, ResponseCompleted);
    }

    /** `handle_dispatch_started`. */
    method HandleDispatchStarted(key: SessionKey)
      modifies this
      ensures View() == Step(old(View()), DispatchStarted(key))
    {
      acked := acked - {key};
      SendNotification(key, AckMessage);
      SendNotification(key, TypingIndicator);
    }

    /** `ensure_session_created`, when the session is granted. */
    method CreateRoute(key: SessionKey, route: Route)
      modifies this
      ensures View() == Step(old(View()), SessionCreated(key, route))
    {
      if key in routes { return; }
      routes := routes[key := route];
      SendNotification(key, SessionOpened);
    }

    /** `ensure_session_created`, when it is refused: the channel is told, without a session id. */
    method RefuseSession(key: SessionKey, i: nat, error: string)
      modifies this
      ensures View() == Step(old(View()), CreationFailed(key, i, error))
    {
      if key !in routes && i in connected {
        sent := sent + [Notification(key, i, "", Refusal(error))];
      }
    }

    /** `enqueue_to_agent`, when the agents manager answers with an error. */
    method RejectMessage(key: SessionKey, error: string)
      modifies this
      ensures View() == Step(old(View()), EnqueueRejected(key, error))
    {
      SendNotification(key, Rejection(error));
    }

    /** The `DeliverToChannel` command. */
    method DeliverDirectly(key: SessionKey, update: Update)
      modifies this
      ensures View() == Step(old(View()), DeliverToChannel(key, update))
    {
      SendNotification(key, DeliverMessage(update));
    }

    /** A channel came up, crashed or was disabled. */
    method SetConnection(i: nat, up: bool)
      modifies this
      ensures View() == Step(old(View()), Connection(i, up))
    {
      connected := if up then connected + {i} else connected - {i};
    }

    method RunLoop(events: seq<Event>)
      requires View() == IDLE
      modifies this
      ensures View() == Run(events)
    {
      for i := 0 to |events|
        invariant View() == Run(events[..i])
      {
        assert events[..i + 1][..i] == events[..i];
        match events[i] {
          case Deliver(k, u) => HandleDeliverMessage(k, u);
          case SessionComplete(k) => HandleSessionComplete(k);
          case DispatchStarted(k) => HandleDispatchStarted(k);
          case SessionCreated(k, r) => CreateRoute(k, r);
          case CreationFailed(k, j, error) => RefuseSession(k, j, error);
          case EnqueueRejected(k, error) => RejectMessage(k, error);
          case DeliverToChannel(k, u) => DeliverDirectly(k, u);
          case Connection(j, up) => SetConnection(j, up);
        }
      }
      assert events[..|events|] == events;
    }
  }

  // ----- one response_started for each dispatch -----

  /** The response the channel of `k` saw, as far as it is in these notifications. */
  function ResponseIn(notes: seq<Notification>, k: SessionKey): seq<Action> {
    if notes == [] then []
    else
      var before, last := ResponseIn(notes[..|notes| - 1], k), notes[|notes| - 1];
      if last.key == k && (last.action.ResponseStarted? || last.action.DeliverMessage?)
      then before + [last.action]
      else before
  }

  /** The response the channel of `k` saw since the session's last dispatch. */
  function ResponseSince(events: seq<Event>, k: SessionKey): seq<Action> {
    if events == [] then []
    else
      var init, last := events[..|events| - 1], events[|events| - 1];
      if last == DispatchStarted(k) then []
      else ResponseSince(init, k) + ResponseIn(Emitted(Run(init), last), k)
  }

  /** Whether the first routed update since the last dispatch found the channel connected. */
  function FirstUpdate(events: seq<Event>, k: SessionKey): Option<bool> {
    if events == [] then None
    else
      var init, last := events[..|events| - 1], events[|events| - 1];
      if last == DispatchStarted(k) then None
      else if FirstUpdate(init, k).None? && last.Deliver? && last.key == k && k in Run(init).routes
      then Some(Reaches(Run(init), k))
      else FirstUpdate(init, k)
  }

  /** The message an event has for the channel of `k`, if that is there to take it. */
  function MessageOf(e: Event, k: SessionKey): (a: seq<Action>)
    ensures |a| <= 1
  {
    match e
    case Deliver(j, u) => if j == k then [DeliverMessage(u)] else []
    case EnqueueRejected(j, error) => if j == k then [Rejection(error)] else []
    case DeliverToChannel(j, u) => if j == k then [DeliverMessage(u)] else []
    case _ => []
  }

  function DeliveredBy(s: State, e: Event, k: SessionKey): (a: seq<Action>)
    ensures |a| <= 1
  {
    if e.CreationFailed? then
      if e.key == k && k !in s.routes && e.slot in s.connected then [Refusal(e.error)] else []
    else if Reaches(s, k) then MessageOf(e, k)
    else []
  }

  /** The messages delivered since the last dispatch. */
  function DeliveredSince(events: seq<Event>, k: SessionKey): seq<Action> {
    if events == [] || events[|events| - 1] == DispatchStarted(k) then []
    else
      var init := events[..|events| - 1];
      DeliveredSince(init, k) + DeliveredBy(Run(init), events[|events| - 1], k)
  }

  /** How many of them came before the first routed update. */
  function DeliveredEarly(events: seq<Event>, k: SessionKey): nat {
    if events == [] then 0
    else if FirstUpdate(events, k).None? then |DeliveredSince(events, k)|
    else DeliveredEarly(events[..|events| - 1], k)
  }

  lemma EmittedResponse(s: State, e: Event, k: SessionKey)
    ensures ResponseIn(Emitted(s, e), k) ==
            (if e.Deliver? && e.key == k && Reaches(s, k) && k !in s.acked then [ResponseStarted] else [])
            + DeliveredBy(s, e, k)
  {
    var n := Emitted(s, e);
    assert |n| <= 2;
    assert ResponseIn([], k) == [];
    if n != [] {
      assert n[..|n| - 1][..|n[..|n| - 1]|] == n[..|n| - 1];
      assert |n| == 2 ==> n[..1] == [n[0]] && [n[0]][..0] == [] && [n[0]][0] == n[0];
    }
  }

  lemma {:induction false} AckedMeaning(events: seq<Event>, k: SessionKey)
    ensures k in Run(events).acked <==> FirstUpdate(events, k).Some?
  {
    if events != [] { AckedMeaning(events[..|events| - 1], k); }
  }

  /** A list with response_started put in before position `at`. */
  function WithStart(messages: seq<Action>, at: nat): seq<Action>
    requires at <= |messages|
  {
    messages[..at] + [ResponseStarted] + messages[at..]
  }

  lemma WithStartAdd(messages: seq<Action>, at: nat, more: seq<Action>)
    requires at <= |messages|
    ensures WithStart(messages + more, at) == WithStart(messages, at) + more
    ensures WithStart(messages + more, |messages|) == messages + [ResponseStarted] + more
  {
  }

  lemma StartComesFirst(messages: seq<Action>, at: nat)
    requires at <= |messages| && messages != [] && ResponseStarted !in messages
    ensures WithStart(messages, at)[0] == ResponseStarted <==> at == 0
    ensures WithStart(messages, at) == [ResponseStarted] + messages <==> at == 0
  {
    if at == 0 {
      assert messages[..0] == [] && messages[0..] == messages;
    } else {
      assert WithStart(messages, at)[0] == messages[0];
    }
  }

  lemma {:induction false} EarlyBound(events: seq<Event>, k: SessionKey)
    ensures DeliveredEarly(events, k) <= |DeliveredSince(events, k)|
    ensures FirstUpdate(events, k).None? ==> DeliveredEarly(events, k) == |DeliveredSince(events, k)|
  {
    if events != [] { EarlyBound(events[..|events| - 1], k); }
  }

  predicate Starts(events: seq<Event>, e: Event, k: SessionKey) {
    e.Deliver? && e.key == k && Reaches(Run(events), k) && FirstUpdate(events, k).None?
  }

  lemma ResponseStep(events: seq<Event>, k: SessionKey)
    requires events != [] && events[|events| - 1] != DispatchStarted(k)
    ensures var init, last := events[..|events| - 1], events[|events| - 1];
            ResponseSince(events, k)
            == ResponseSince(init, k)
               + ((if Starts(init, last, k) then [ResponseStarted] else []) + DeliveredBy(Run(init), last, k))
  {
    AckedMeaning(events[..|events| - 1], k);
    EmittedResponse(Run(events[..|events| - 1]), events[|events| - 1], k);
  }

  /** What the channel should see: the messages, and response_started before the first update if
      that found the channel connected. */
  function Announced(first: Option<bool>, messages: seq<Action>, early: nat): seq<Action>
    requires early <= |messages|
  {
    if first == Some(true) then WithStart(messages, early) else messages
  }

  lemma AnnouncedAdd(first: Option<bool>, messages: seq<Action>, early: nat, more: seq<Action>)
    requires early <= |messages|
    ensures Announced(first, messages + more, early) == Announced(first, messages, early) + ([] + more)
    ensures Announced(Some(true), messages + more, |messages|) == messages + ([ResponseStarted] + more)
  {
    WithStartAdd(messages, early, more);
    assert messages + [ResponseStarted] + more == messages + ([ResponseStarted] + more);
  }

  lemma EarlyStep(events: seq<Event>, k: SessionKey)
    requires events != [] && events[|events| - 1] != DispatchStarted(k)
    ensures var init, last := events[..|events| - 1], events[|events| - 1];
            if Starts(init, last, k)
            then FirstUpdate(events, k) == Some(true) && DeliveredEarly(events, k) == |DeliveredSince(init, k)|
            else FirstUpdate(events, k) == Some(true) ==>
                   FirstUpdate(init, k) == Some(true) && DeliveredEarly(events, k) == DeliveredEarly(init, k)
    ensures FirstUpdate(events, k) != Some(true) ==> FirstUpdate(events[..|events| - 1], k) != Some(true)
  {
    EarlyBound(events[..|events| - 1], k);
  }

  /** After each dispatch the channel sees every message that finds it connected, in order. Exactly
      when the first routed update found it connected, one response_started comes with it, directly
      before that update and so after what the manager delivered of its own earlier. */
  lemma {:induction false} ResponseStartsOnce(events: seq<Event>, k: SessionKey)
    ensures DeliveredEarly(events, k) <= |DeliveredSince(events, k)|
    ensures ResponseSince(events, k)
         == Announced(FirstUpdate(events, k), DeliveredSince(events, k), DeliveredEarly(events, k))
  {
    EarlyBound(events, k);
    if events != [] && events[|events| - 1] != DispatchStarted(k) {
      var init, last := events[..|events| - 1], events[|events| - 1];
      ResponseStartsOnce(init, k);
      ResponseStep(events, k);
      EarlyStep(events, k);
      EarlyBound(init, k);
      AnnouncedAdd(FirstUpdate(init, k), DeliveredSince(init, k), DeliveredEarly(init, k),
                   DeliveredBy(Run(init), last, k));
    }
  }

  /** Since the last dispatch the channel got a message of the manager's own before any routed update. */
  predicate Interrupted(events: seq<Event>, k: SessionKey) {
    events != [] && events[|events| - 1] != DispatchStarted(k) &&
    var init, last := events[..|events| - 1], events[|events| - 1];
    (|| Interrupted(init, k)
     || (FirstUpdate(init, k).None? && !last.Deliver? && DeliveredBy(Run(init), last, k) != []))
  }

  lemma {:induction false} InterruptedMeaning(events: seq<Event>, k: SessionKey)
    ensures Interrupted(events, k) <==> DeliveredEarly(events, k) > 0
    ensures FirstUpdate(events, k).None? ==> (Interrupted(events, k) <==> DeliveredSince(events, k) != [])
  {
    if events != [] { InterruptedMeaning(events[..|events| - 1], k); }
  }

  /** The first message of a dispatch is directly preceded by response_started exactly when the first
      routed update found the channel connected and nothing of the manager's own came before it. */
  lemma FirstMessageAnnouncedIff(events: seq<Event>, k: SessionKey)
    requires DeliveredSince(events, k) != []
    ensures ResponseSince(events, k) != []
    ensures ResponseSince(events, k)[0] == ResponseStarted
       <==> FirstUpdate(events, k) == Some(true) && !Interrupted(events, k)
  {
    ResponseStartsOnce(events, k);
    InterruptedMeaning(events, k);
    NoStartAmongDelivered(events, k);
    StartComesFirst(DeliveredSince(events, k), DeliveredEarly(events, k));
  }

  lemma {:induction false} NoStartAmongDelivered(events: seq<Event>, k: SessionKey)
    ensures ResponseStarted !in DeliveredSince(events, k)
  {
    if events != [] { NoStartAmongDelivered(events[..|events| - 1], k); }
  }

  /** Since the last dispatch of `k` its route and connection have been there all along. */
  predicate SteadySince(events: seq<Event>, k: SessionKey) {
    events != [] && Reaches(Run(events), k) &&
    (events[|events| - 1] == DispatchStarted(k) || SteadySince(events[..|events| - 1], k))
  }

  /** The messages since the last dispatch, heard or not. */
  function MessagesSince(events: seq<Event>, k: SessionKey): seq<Action> {
    if events == [] || events[|events| - 1] == DispatchStarted(k) then []
    else MessagesSince(events[..|events| - 1], k) + MessageOf(events[|events| - 1], k)
  }

  predicate UpdatedSince(events: seq<Event>, k: SessionKey) {
    events != [] && events[|events| - 1] != DispatchStarted(k) &&
    (UpdatedSince(events[..|events| - 1], k) || (events[|events| - 1].Deliver? && events[|events| - 1].key == k))
  }

  lemma {:induction false} SteadyMissesNothing(events: seq<Event>, k: SessionKey)
    requires SteadySince(events, k)
    ensures DeliveredSince(events, k) == MessagesSince(events, k)
    ensures FirstUpdate(events, k) == if UpdatedSince(events, k) then Some(true) else None
  {
    if events[|events| - 1] != DispatchStarted(k) { SteadyMissesNothing(events[..|events| - 1], k); }
  }

  /** With route and connection in place since the dispatch the channel sees every message, and one
      response_started directly before the first update, whatever else came earlier. */
  lemma SteadyResponse(events: seq<Event>, k: SessionKey)
    requires SteadySince(events, k)
    ensures var all, early := MessagesSince(events, k), DeliveredEarly(events, k);
            && early <= |all|
            && ResponseSince(events, k) == if UpdatedSince(events, k) then WithStart(all, early) else all
    ensures UpdatedSince(events, k) ==>
              (ResponseSince(events, k) == [ResponseStarted] + MessagesSince(events, k) <==> !Interrupted(events, k))
  {
    ResponseStartsOnce(events, k);
    SteadyMissesNothing(events, k);
    InterruptedMeaning(events, k);
    NoStartAmongDelivered(events, k);
    if UpdatedSince(events, k) {
      UpdatesAreMessages(events, k);
      StartComesFirst(MessagesSince(events, k), DeliveredEarly(events, k));
    }
  }

  lemma {:induction false} UpdatesAreMessages(events: seq<Event>, k: SessionKey)
    requires UpdatedSince(events, k)
    ensures MessagesSince(events, k) != []
  {
    if UpdatedSince(events[..|events| - 1], k) { UpdatesAreMessages(events[..|events| - 1], k); }
  }

  lemma RunSnoc(events: seq<Event>, e: Event)
    ensures Run(events + [e]) == Step(Run(events), e)
  {
    assert (events + [e])[..|events|] == events;
  }

  lemma ResponseSnoc(events: seq<Event>, e: Event, k: SessionKey)
    requires e != DispatchStarted(k)
    ensures ResponseSince(events + [e], k)
         == ResponseSince(events, k)
            + ((if Starts(events, e, k) then [ResponseStarted] else []) + DeliveredBy(Run(events), e, k))
    ensures FirstUpdate(events + [e], k)
         == if FirstUpdate(events, k).None? && e.Deliver? && e.key == k && k in Run(events).routes
            then Some(Reaches(Run(events), k)) else FirstUpdate(events, k)
  {
    assert (events + [e])[..|events|] == events;
    ResponseStep(events + [e], k);
  }

  /** A session has just been dispatched. */
  predicate JustDispatched(events: seq<Event>, k: SessionKey) {
    events != [] && events[|events| - 1] == DispatchStarted(k)
  }

  /** In every run, a channel that is away for the first update after a dispatch and back for the
      second never hears that the response started. */
  lemma MissedStart(events: seq<Event>, k: SessionKey, u: Update, v: Update)
    requires JustDispatched(events, k) && k in Run(events).routes && !Reaches(Run(events), k)
    ensures var back := Connection(Run(events).routes[k].slot, true);
            ResponseSince(events + [Deliver(k, u)] + [back] + [Deliver(k, v)], k) == [DeliverMessage(v)]
  {
    var back := Connection(Run(events).routes[k].slot, true);
    ResponseSnoc(events, Deliver(k, u), k);
    RunSnoc(events, Deliver(k, u));
    var e1 := events + [Deliver(k, u)];
    ResponseSnoc(e1, back, k);
    RunSnoc(e1, back);
    ResponseSnoc(e1 + [back], Deliver(k, v), k);
  }

  /** In every run, a message that is rejected after a dispatch, such as a /new the agent refuses, is
      answered by an error that no response_started precedes; that comes before the next update. */
  lemma RejectionHasNoStart(events: seq<Event>, k: SessionKey, error: string, u: Update)
    requires JustDispatched(events, k) && Reaches(Run(events), k)
    ensures SteadySince(events + [EnqueueRejected(k, error)], k)
    ensures ResponseSince(events + [EnqueueRejected(k, error)], k) == [Rejection(error)]
    ensures ResponseSince(events + [EnqueueRejected(k, error)] + [Deliver(k, u)], k)
         == [Rejection(error), ResponseStarted, DeliverMessage(u)]
  {
    var rejected := EnqueueRejected(k, error);
    ResponseSnoc(events, rejected, k);
    RunSnoc(events, rejected);
    assert (events + [rejected])[..|events|] == events;
    ResponseSnoc(events + [rejected], Deliver(k, u), k);
  }

  lemma StartInEmitted(s: State, e: Event, i: nat)
    requires i < |Emitted(s, e)| && Emitted(s, e)[i].action.ResponseStarted?
    ensures var n := Emitted(s, e);
            i == 0 && |n| == 2 && e.Deliver? && n[1] == n[0].(action := DeliverMessage(e.update))
  {
  }

  /** Over a whole run, a response_started is always directly followed by an update for the same
      session on the same channel. */
  lemma {:induction false} StartThenUpdate(events: seq<Event>, i: nat)
    requires i < |Run(events).sent| && Run(events).sent[i].action.ResponseStarted?
    ensures var sent := Run(events).sent;
            i + 1 < |sent| && exists u :: sent[i + 1] == sent[i].(action := DeliverMessage(u))
  {
    var init, last := events[..|events| - 1], events[|events| - 1];
    var s := Run(init);
    if i < |s.sent| {
      StartThenUpdate(init, i);
    } else {
      assert Run(events).sent == s.sent + Emitted(s, last);
      StartInEmitted(s, last, i - |s.sent|);
    }
  }
}

/** The two managers together: what a channel hears of the agents manager's events. */
module ReplyOrder {
  import opened Messages
  import opened Options
  import opened PlatformCommands
  import opened Histories
  import opened Signals
  import opened AgentSlots
  import Agents
  import AgentsProtocol
  import C = AckLifecycles

  function ReceivedAs(e: C.Event, k: SessionKey): (s: seq<Signal>)
    ensures |s| <= 1
  {
    match e
    case DispatchStarted(j) => if j == k then [Dispatched] else []
    case Deliver(j, u) => if j == k then [Updated(u.isResult)] else []
    case SessionComplete(j) => if j == k then [Completed] else []
    case _ => []
  }

  /** The events about `k` that the channels manager received, in order. */
  function SignalsIn(events: seq<C.Event>, k: SessionKey): seq<Signal> {
    if events == [] then []
    else SignalsIn(events[..|events| - 1], k) + ReceivedAs(events[|events| - 1], k)
  }

  /** What the channel of `k` was told of updates and completions. */
  function ToldTo(notes: seq<C.Notification>, k: SessionKey): seq<Signal> {
    if notes == [] then []
    else
      ToldTo(notes[..|notes| - 1], k) +
      if notes[|notes| - 1].key != k then []
      else
        match notes[|notes| - 1].action
        case DeliverMessage(u) => [Updated(u.isResult)]
        case ResponseCompleted => [Completed]
        case _ => []
  }

  /** Each result for `k` found the session routed and its channel connected. */
  predicate ResultsReach(events: seq<C.Event>, k: SessionKey) {
    events != [] ==>
      && ResultsReach(events[..|events| - 1], k)
      && var last := events[|events| - 1];
         (last.Deliver? && last.key == k && last.update.isResult ==> C.Reaches(C.Run(events[..|events| - 1]), k))
  }

  /** Results lead completions in whatever part of the events has arrived. */
  lemma {:induction false} ArrivedInOrder(h: History, arrived: seq<Signal>, k: SessionKey)
    requires ResultFirst(h, k) && arrived <= SignalsOf(h, k)
    ensures Times(arrived, Completed) <= Times(arrived, Updated(true))
  {
    if arrived == SignalsOf(h, k) {
      HistoryCounts(h, k);
    } else {
      assert |SignalsOf(h, k)| <= |SignalsOf(h.past, k)| + 1;
      ArrivedInOrder(h.past, arrived, k);
    }
  }

  lemma {:induction false} ToldConcat(a: seq<C.Notification>, b: seq<C.Notification>, k: SessionKey)
    ensures ToldTo(a + b, k) == ToldTo(a, k) + ToldTo(b, k)
  {
    if b == [] {
      assert a + b == a;
    } else {
      assert (a + b)[..|a + b| - 1] == a + b[..|b| - 1];
      ToldConcat(a, b[..|b| - 1], k);
    }
  }

  /** Of what arrives, the channel hears the updates and completions while it is there. */
  function Heard(s: C.State, e: C.Event, k: SessionKey): seq<Signal> {
    if IsOwn(e) then Own(s, e, k)
    else if C.Reaches(s, k) && ReceivedAs(e, k) != [Dispatched] then ReceivedAs(e, k)
    else []
  }

  predicate IsOwn(e: C.Event) { e.CreationFailed? || e.EnqueueRejected? || e.DeliverToChannel? }

  /** What the channels manager tells the channel of its own accord. */
  function Own(s: C.State, e: C.Event, k: SessionKey): seq<Signal> {
    match e
    case CreationFailed(j, i, _) => if j == k && k !in s.routes && i in s.connected then [Updated(true)] else []
    case EnqueueRejected(j, _) => if j == k && C.Reaches(s, k) then [Updated(true)] else []
    case DeliverToChannel(j, u) => if j == k && C.Reaches(s, k) then [Updated(u.isResult)] else []
    case _ => []
  }

  function OwnResults(events: seq<C.Event>, k: SessionKey): nat {
    if events == [] then 0
    else
      var init := events[..|events| - 1];
      OwnResults(init, k) + if Own(C.Run(init), events[|events| - 1], k) == [Updated(true)] then 1 else 0
  }

  lemma ToldByOne(s: C.State, e: C.Event, k: SessionKey)
    ensures ToldTo(C.Emitted(s, e), k) == Heard(s, e, k)
  {
    var n := C.Emitted(s, e);
    assert |n| <= 2;
    assert ToldTo([], k) == [];
    if n != [] {
      assert n[..|n| - 1][..|n[..|n| - 1]|] == n[..|n| - 1];
      assert |n| == 2 ==> n[..1] == [n[0]] && [n[0]][..0] == [] && [n[0]][0] == n[0];
    }
  }

  lemma ToldSnoc(events: seq<C.Event>, k: SessionKey)
    requires events != []
    ensures var init, last := events[..|events| - 1], events[|events| - 1];
            ToldTo(C.Run(events).sent, k) == ToldTo(C.Run(init).sent, k) + Heard(C.Run(init), last, k)
  {
    var init, last := events[..|events| - 1], events[|events| - 1];
    ToldConcat(C.Run(init).sent, C.Emitted(C.Run(init), last), k);
    ToldByOne(C.Run(init), last, k);
  }

  /** The channel is told of every result that arrived, of every result the channels manager made
      itself, and of no more completions than arrived. */
  lemma {:induction false} ToldCounts(events: seq<C.Event>, k: SessionKey)
    requires ResultsReach(events, k)
    ensures Times(ToldTo(C.Run(events).sent, k), Completed) <= Times(SignalsIn(events, k), Completed)
    ensures Times(ToldTo(C.Run(events).sent, k), Updated(true))
         == Times(SignalsIn(events, k), Updated(true)) + OwnResults(events, k)
  {
    if events != [] {
      var init, last := events[..|events| - 1], events[|events| - 1];
      var s := C.Run(init);
      ToldCounts(init, k);
      ToldSnoc(events, k);
      HeardMeans(s, last, k);
      var told, arrived := ToldTo(s.sent, k), SignalsIn(init, k);
      TimesAdd(told, Heard(s, last, k), Completed);
      TimesAdd(told, Heard(s, last, k), Updated(true));
      TimesAdd(arrived, ReceivedAs(last, k), Completed);
      TimesAdd(arrived, ReceivedAs(last, k), Updated(true));
    }
  }

  lemma HeardMeans(s: C.State, e: C.Event, k: SessionKey)
    requires e.Deliver? && e.key == k && e.update.isResult ==> C.Reaches(s, k)
    ensures |Heard(s, e, k)| <= 1
    ensures Heard(s, e, k) == [Completed] ==> ReceivedAs(e, k) == [Completed]
    ensures Heard(s, e, k) == [Updated(true)] <==>
            (ReceivedAs(e, k) == [Updated(true)] || Own(s, e, k) == [Updated(true)])
    ensures !(ReceivedAs(e, k) == [Updated(true)] && Own(s, e, k) == [Updated(true)])
  {
  }

  /** Whatever both managers do and however far the channels manager is behind, a channel that is
      connected whenever a result for `k` arrives has never been told of more completions than
      results. */
  lemma CompletionAfterResult(m: Agents.Manager, steps: seq<Agents.Event>, events: seq<C.Event>, k: SessionKey)
    requires Agents.Started(m) && SignalsIn(events, k) <= SignalsOf(Agents.Run(m, steps).history, k)
    requires ResultsReach(events, k)
    ensures var told := ToldTo(C.Run(events).sent, k);
            Times(told, Completed) <= Times(told, Updated(true))
  {
    AgentsProtocol.ProtocolHolds(m, steps, k);
    ArrivedInOrder(Agents.Run(m, steps).history, SignalsIn(events, k), k);
    ToldCounts(events, k);
  }

  /** A /new that the agent refuses is answered with an error and sends the channels manager nothing:
      the rejection is all the channel hears. */
  lemma RefusedNewIsRejected(m: Agents.Manager, i: nat, key: SessionKey, p: Payload, r: Replies, k: SessionKey)
    requires i < |m.slots| && FindSlot(m.slots, m.slots[i].name) == Some(i)
    requires CommandOf(p.content) == Some(New) && r.create.None?
    ensures var (m', ok) := Agents.Enqueue(m, m.slots[i].name, key, p, r);
            !ok && SignalsOf(m'.history, k) == SignalsOf(m.history, k)
  {
  }
}
