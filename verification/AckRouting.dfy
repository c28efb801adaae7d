/** Where a channel's notifications go: everything the channels manager sends, read off the events
    alone. */
module AckRouting {
  import opened Options
  import opened Messages
  import opened AckLifecycles

  /** The route of the session: that of its first creation. */
  function FirstRoute(events: seq<Event>, k: SessionKey): Option<Route> {
    if events == [] then None
    else
      var before, last := FirstRoute(events[..|events| - 1], k), events[|events| - 1];
      if before.Some? then before
      else if last.SessionCreated? && last.key == k then Some(last.route)
      else None
  }

  /** Whether the slot's last connection event says that it is up. */
  predicate IsUp(events: seq<Event>, i: nat) {
    events != [] &&
    var last := events[|events| - 1];
    if last.Connection? && last.slot == i then last.up else IsUp(events[..|events| - 1], i)
  }

  lemma {:induction false} StateMeaning(events: seq<Event>, k: SessionKey, i: nat)
    ensures FirstRoute(events, k) == if k in Run(events).routes then Some(Run(events).routes[k]) else None
    ensures IsUp(events, i) <==> i in Run(events).connected
  {
    if events != [] { StateMeaning(events[..|events| - 1], k, i); }
  }

  function Addressed(k: SessionKey, r: Route, action: Action): Notification {
    Notification(k, r.slot, r.sessionId, action)
  }

  /** What the events so far and the next one make the manager send. Everything about a session goes
      to the channel and the session id of its first route, while that channel is up; only the refusal
      of a session that has no route goes to the channel that asked, without an id. */
  function Wanted(events: seq<Event>, e: Event): seq<Notification> {
    match e
    case Connection(_, _) => []
    case CreationFailed(k, i, error) =>
      if FirstRoute(events, k).None? && IsUp(events, i)
      then [Notification(k, i, "", DeliverMessage(Update(true, "Failed to create session: " + error)))] else []
    case SessionCreated(k, r) =>
      if FirstRoute(events, k).None? && IsUp(events, r.slot) then [Addressed(k, r, SessionOpened)] else []
    case _ =>
      match FirstRoute(events, e.key)
      case None => []
      case Some(r) => if IsUp(events, r.slot) then WantedBy(events, e, r) else []
  }

  function WantedBy(events: seq<Event>, e: Event, r: Route): seq<Notification>
    requires !e.Connection? && !e.CreationFailed? && !e.SessionCreated?
  {
    match e
    case Deliver(k, u) =>
      (if FirstUpdate(events, k).None? then [Addressed(k, r, ResponseStarted)] else [])
      + [Addressed(k, r, DeliverMessage(u))]
    case SessionComplete(k) => [Addressed(k, r, ResponseCompleted)]
    case DispatchStarted(k) => [Addressed(k, r, AckMessage), Addressed(k, r, TypingIndicator)]
    case EnqueueRejected(k, error) =>
      [Addressed(k, r, DeliverMessage(Update(true, "Session recovery failed: " + error)))]
    case DeliverToChannel(k, u) => [Addressed(k, r, DeliverMessage(u))]
  }

  lemma RoutedNotices(events: seq<Event>, e: Event)
    requires !e.Connection? && !e.CreationFailed? && !e.SessionCreated?
    ensures Emitted(Run(events), e) == Wanted(events, e)
  {
    var s := Run(events);
    AckedMeaning(events, e.key);
    StateMeaning(events, e.key, 0);
    if e.key in s.routes {
      StateMeaning(events, e.key, s.routes[e.key].slot);
    }
  }

  /** Over every run, each event adds exactly these notifications. */
  lemma SentExactly(events: seq<Event>, e: Event)
    ensures Run(events + [e]).sent == Run(events).sent + Wanted(events, e)
  {
    RunSnoc(events, e);
    match e
    case Connection(i, _) =>
    case CreationFailed(k, i, _) => StateMeaning(events, k, i);
    case SessionCreated(k, r) => StateMeaning(events, k, r.slot);
    case _ => RoutedNotices(events, e);
  }

  /** The notification belongs where it went, given what happened before the event that caused it. */
  predicate AtHome(before: seq<Event>, e: Event, n: Notification) {
    || (IsUp(before, n.slot) && FirstRoute(before + [e], n.key) == Some(Route(n.slot, n.sessionId)))
    || (e.CreationFailed? && e.key == n.key && e.slot == n.slot && n.sessionId == ""
        && IsUp(before, n.slot) && FirstRoute(before, n.key).None?)
  }

  lemma WantedAtHome(before: seq<Event>, e: Event, x: nat)
    requires x < |Wanted(before, e)|
    ensures AtHome(before, e, Wanted(before, e)[x])
  {
    assert (before + [e])[..|before|] == before;
  }

  /** Over every run, each notification about a session went to the channel and under the session id
      of the session's first route, and that channel was up; or it is the refusal of a session without
      a route, and went without an id to the channel that asked. */
  lemma {:induction false} NotificationsGoHome(events: seq<Event>, x: nat) returns (j: nat)
    requires x < |Run(events).sent|
    ensures j < |events| && |Run(events[..j]).sent| <= x < |Run(events[..j + 1]).sent|
    ensures AtHome(events[..j], events[j], Run(events).sent[x])
  {
    var init, e := events[..|events| - 1], events[|events| - 1];
    assert events == init + [e];
    SentExactly(init, e);
    if x < |Run(init).sent| {
      j := NotificationsGoHome(init, x);
      assert init[..j] == events[..j] && init[..j + 1] == events[..j + 1] && init[j] == events[j];
    } else {
      j := |init|;
      assert events[..j + 1] == events;
      WantedAtHome(init, e, x - |Run(init).sent|);
    }
  }
}
