/** What becomes of every message: the agents manager, seen from any one session, is the small
    machine of SessionViews. */
module AgentsFates {
  import opened Options
  import opened Messages
  import opened PlatformCommands
  import opened SessionQueues
  import opened Histories
  import opened AgentSlots
  import opened Agents
  import opened SessionViews
  import opened AgentsProtocol

  // ----- when a prompt reaches its agent -----

  /** Whether the agent's answers bring a session back that is not live. */
  predicate Healed(s: Slot, key: SessionKey, r: Replies) {
    || (key in s.stale && s.caps.resume && r.resume.Some?)
    || (key in s.stale && !s.caps.resume && s.caps.load && r.load.Some?)
    || r.create.Some?
  }

  /** The agent exists and is connected, the session is live or comes back, and the request can be
      written. */
  predicate Arrives(slots: seq<Slot>, agent: string, key: SessionKey, r: Replies) {
    match FindSlot(slots, agent)
    case None => false
    case Some(i) =>
      slots[i].connected && r.promptSent && (key in slots[i].sessionMap || Healed(slots[i], key, r))
  }

  lemma HealSucceeds(s: Slot, key: SessionKey, r: Replies)
    requires key !in s.sessionMap
    ensures !Heal(s, key, r).1.Failed? <==> s.connected && Healed(s, key, r)
    ensures Heal(s, key, r).0.connected == s.connected
  {
  }

  lemma HealUnseen(m: Manager, i: nat, key: SessionKey, r: Replies, k: SessionKey)
    requires i < |m.slots|
    ensures QueueUntouched(m, HealSession(m, i, key, r).0, k)
  {
    var (slot, how) := Heal(m.slots[i], key, r);
    if how.Reloaded? { NoteUnseen(SetSlot(m, i, slot), Loaded(i, {how.id}), k); }
  }

  /** A prompt for a live session is sent exactly when the agent is connected and takes it. */
  lemma PromptLiveReaches(m: Manager, i: nat, key: SessionKey, r: Replies, k: SessionKey)
    requires i < |m.slots| && key in m.slots[i].sessionMap
    ensures var (m', ok) := PromptLive(m, i, key, r);
            && (ok <==> m.slots[i].connected && r.promptSent)
            && (ok <==> m'.history.Then? && m'.history.last.PromptSent?)
            && m'.outstanding == m.outstanding + (if ok then multiset{key} else multiset{})
            && QueueUntouched(m, m'.(outstanding := m.outstanding), k)
  {
    var slot := m.slots[i];
    var id := slot.sessionMap[key];
    var m1 := SetSlot(m, i, slot.(awaiting := slot.awaiting - {id}));
    NoteUnseen(m1, PromptReady(i, id), k);
    if slot.connected && r.promptSent { NoteUnseen(Note(m1, PromptReady(i, id)), PromptSent(i, id), k); }
  }

  /** A batch reaches an agent, and one more prompt runs, exactly under that condition. */
  lemma PromptReaches(m: Manager, agent: string, key: SessionKey, batch: Payload, r: Replies, k: SessionKey)
    requires CommandOf(batch.content).None?
    ensures var (m', ok) := PromptSession(m, agent, key, batch, r);
            && (ok <==> Arrives(m.slots, agent, key, r))
            && (ok <==> m'.history.Then? && m'.history.last.PromptSent?)
            && m'.outstanding == m.outstanding + (if ok then multiset{key} else multiset{})
            && QueueUntouched(m, m'.(outstanding := m.outstanding), k)
  {
    var m1 := Note(m, Batch(key, batch));
    NoteUnseen(m, Batch(key, batch), k);
    var found := FindSlot(m1.slots, agent);
    if found.Some? {
      var i := found.value;
      if key in m1.slots[i].sessionMap {
        PromptLiveReaches(m1, i, key, r, k);
      } else {
        HealSucceeds(m1.slots[i], key, r);
        HealUnseen(m1, i, key, r, k);
        var (m2, healed) := HealSession(m1, i, key, r);
        if healed { PromptLiveReaches(m2, i, key, r, k); }
      }
    }
  }

  // ----- what each handler means to a session -----

  /** A hand-over is seen by its own session only. */
  lemma HandOverView(m: Manager, agent: string, key: SessionKey, taken: seq<Payload>,
      meta: Option<MessageMetadata>, r: Replies, k: SessionKey)
    requires NoCommands(taken) && Pending(m.queue, key) == [] && key in m.queue.active
    ensures ViewOf(HandOver(m, agent, key, taken, meta, r).0, k)
         == if k == key then HandOverTo(ViewOf(m, k), taken, Arrives(m.slots, agent, key, r)) else ViewOf(m, k)
  {
    CoalescingIsPlain(taken);
    var batch := Payload(Flatten(taken), meta);
    NoteUnseen(m, HandedOver(key, taken), k);
    NoteUnseen(Note(m, HandedOver(key, taken)), DispatchStarted(key), k);
    var m0 := Send(Note(m, HandedOver(key, taken)), DispatchStarted(key));
    PromptReaches(m0, agent, key, batch, r, k);
  }

  lemma ChunkUnseen(m: Manager, key: SessionKey, k: SessionKey)
    ensures QueueUntouched(m, SyntheticChunk(m, key), k)
    ensures QueueUntouched(m, SyntheticResponse(m, key), k)
  {
    NoteUnseen(m, DispatchStarted(key), k);
    NoteUnseen(Send(m, DispatchStarted(key)), Delivered(key, false), k);
    var m1 := SyntheticChunk(m, key);
    NoteUnseen(m1, Delivered(key, true), k);
    NoteUnseen(Send(m1, Delivered(key, true)), SessionComplete(key), k);
  }

  /** Whether the command gets as far as ending the session's turn. */
  predicate EndsTurn(s: Slot, cmd: PlatformCommand, key: SessionKey, r: Replies) {
    match cmd
    case New => s.connected && r.create.Some?
    case Cancel => Cancels(s, key, r)
  }

  lemma IdleDrops(m: Manager, key: SessionKey, k: SessionKey)
    ensures var v := ViewOf(m, k);
            ViewOf(IdleIgnoringResult(m, key), k)
            == if k != key then v
               else if v.waiting == [] then v.(active := false)
               else v.(waiting := v.waiting[1..], settled := v.settled + Labelled(v.waiting[..1], Dropping))
  {
    var waiting := Pending(m.queue, key);
    if waiting != [] { assert waiting[..1] == [waiting[0]]; }
  }

  lemma NewDrops(m: Manager, i: nat, key: SessionKey, r: Replies, k: SessionKey)
    requires i < |m.slots|
    ensures ViewOf(HandleNew(m, i, key, r).0, k)
         == if m.slots[i].connected && r.create.Some? then ViewOf(IdleIgnoringResult(m, key), k) else ViewOf(m, k)
  {
    var m2 := SetSlot(m, i, Create(ForgetSession(m.slots[i], key), key, r.create).0);
    ChunkUnseen(m2, key, k);
    IdleDrops(SyntheticChunk(m2, key), key, k);
    IdleDrops(m, key, k);
  }

  lemma CancelDrops(m: Manager, i: nat, key: SessionKey, r: Replies, k: SessionKey)
    requires i < |m.slots|
    ensures ViewOf(HandleCancel(m, i, key, r), k)
         == if Cancels(m.slots[i], key, r) then ViewOf(IdleIgnoringResult(m, key), k) else ViewOf(m, k)
  {
    ChunkUnseen(m, key, k);
    IdleDrops(SyntheticChunk(m, key), key, k);
    IdleDrops(m, key, k);
  }

  /** A command that ends its session's turn drops the oldest waiting message, if any, and frees
      the session if there is none; nothing else changes for any session. */
  lemma CommandDrops(m: Manager, cmd: PlatformCommand, i: nat, key: SessionKey, r: Replies, k: SessionKey)
    requires i < |m.slots|
    ensures ViewOf(HandlePlatformCommand(m, cmd, i, key, r).0, k)
         == if k == key then After(ViewOf(m, k), Command(EndsTurn(m.slots[i], cmd, key, r))) else ViewOf(m, k)
  {
    var m1 := Note(m, CommandRun(key));
    assert ViewOf(m1, k) == ViewOf(m, k).(commands := ViewOf(m, k).commands + if k == key then 1 else 0);
    NewDrops(m1, i, key, r, k);
    CancelDrops(m1, i, key, r, k);
    IdleDrops(m1, key, k);
  }

  /** After a completion nothing waits: what waited is prompted with, lost if that prompt fails, or
      dropped exactly when the name of the owner is empty, which is so when no slot owns the session,
      and for an owner that has no name. */
  lemma WaitingDrops(m: Manager, key: SessionKey, r: Replies, k: SessionKey)
    requires NoCommands(Pending(m.queue, key)) && (Pending(m.queue, key) != [] ==> key in m.queue.active)
    ensures var owner := OwnerName(m.slots, key);
            ViewOf(DispatchWaiting(m, key, r), k)
            == if k == key then NextTurn(ViewOf(m, k), owner != "", Arrives(m.slots, owner, key, r)) else ViewOf(m, k)
  {
    IdleThenDrain(m.queue, key);
    var waiting := Pending(m.queue, key);
    var idle := m.(queue := AfterMarkIdle(m.queue, key));
    var drained := idle.(queue := AfterDrain(idle.queue, key));
    if waiting != [] && OwnerName(m.slots, key) != "" {
      HandOverView(drained, OwnerName(m.slots, key), key, waiting, LastMetadata(waiting), r, k);
    }
  }

  lemma ReportUnseen(m: Manager, c: Completion, gotResult: bool, k: SessionKey)
    ensures QueueUntouched(m, ReportCompletion(Settle(m, c), c.key, gotResult), k)
    ensures ReportCompletion(Settle(m, c), c.key, gotResult).slots == Settle(m, c).slots
  {
    var m1 := Settle(m, c);
    NoteUnseen(m1, Delivered(c.key, true), k);
    NoteUnseen(if gotResult then m1 else Send(m1, Delivered(c.key, true)), SessionComplete(c.key), k);
  }

  /** The manager after a completion has been reported and before the session's next turn. */
  function Reported(m: Manager, c: Completion, drained: seq<Incoming>): Manager {
    var m1 := HandleAll(m.(outstanding := m.outstanding - multiset{c.key}), drained);
    ReportCompletion(Settle(m1, c), c.key, c.key in m1.streamed)
  }

  lemma ReportedView(m: Manager, c: Completion, drained: seq<Incoming>, k: SessionKey)
    requires Protocol(m, k) && c.key in m.outstanding
    ensures var m0 := m.(outstanding := m.outstanding - multiset{c.key});
            QueueUntouched(m0, Reported(m, c, drained), k)
    ensures Reported(m, c, drained).slots == SettledSlots(m, c, drained)
  {
    var m0 := m.(outstanding := m.outstanding - multiset{c.key});
    assert Protocol(m0, k);
    AllIncomingKeeps(m0, drained, k);
    var m1 := HandleAll(m0, drained);
    ReportUnseen(m1, c, c.key in m1.streamed, k);
  }

  /** A completion ends one prompt and starts the session's next turn. */
  lemma CompletionDrops(m: Manager, c: Completion, drained: seq<Incoming>, r: Replies, k: SessionKey)
    requires Protocol(m, k) && Protocol(m, c.key) && c.key in m.outstanding
    ensures var slots := SettledSlots(m, c, drained);
            var owner := OwnerName(slots, c.key);
            ViewOf(HandleCompletion(m, c, drained, r), k)
            == if k == c.key then After(ViewOf(m, k), Answer(owner != "", Arrives(slots, owner, k, r)))
               else ViewOf(m, k)
  {
    AnswerStep(m, c, drained, r);
    ReportedDrops(m, c, drained, r, k);
  }

  lemma AnswerStep(m: Manager, c: Completion, drained: seq<Incoming>, r: Replies)
    ensures HandleCompletion(m, c, drained, r) == DispatchWaiting(Reported(m, c, drained), c.key, r)
    ensures c.key in m.outstanding ==> Step(m, PromptDone(c, drained, r)) == HandleCompletion(m, c, drained, r)
  {
  }

  lemma ReportedAs(m: Manager, c: Completion, drained: seq<Incoming>, k: SessionKey)
    requires Protocol(m, k) && c.key in m.outstanding
    ensures var v, m' := ViewOf(m, k), Reported(m, c, drained);
            && ViewOf(m', k) == v.(running := if k == c.key then v.running - 1 else v.running)
            && m'.queue == m.queue && m'.slots == SettledSlots(m, c, drained)
  {
    ReportedView(m, c, drained, k);
  }

  lemma ReportedDrops(m: Manager, c: Completion, drained: seq<Incoming>, r: Replies, k: SessionKey)
    requires Protocol(m, k) && Protocol(m, c.key) && c.key in m.outstanding
    ensures var slots := SettledSlots(m, c, drained);
            var owner := OwnerName(slots, c.key);
            ViewOf(DispatchWaiting(Reported(m, c, drained), c.key, r), k)
            == if k == c.key then After(ViewOf(m, k), Answer(owner != "", Arrives(slots, owner, k, r)))
               else ViewOf(m, k)
  {
    ReportedAs(m, c, drained, k);
    ReportedAs(m, c, drained, c.key);
    WaitingDrops(Reported(m, c, drained), c.key, r, k);
  }

  lemma ExpiredIsUnowned(m: Manager, c: Completion, drained: seq<Incoming>)
    requires c.expired
    ensures OwnerName(SettledSlots(m, c, drained), c.key) == ""
  {
    var slots := SettledSlots(m, c, drained);
    assert forall j :: 0 <= j < |slots| ==> c.key !in slots[j].sessionMap;
  }

  /** An expired session has no owner left, so everything that waited for it is dropped; and if
      anything did, the session stays active. */
  lemma ExpiryDropsAll(m: Manager, c: Completion, drained: seq<Incoming>, r: Replies)
    requires Protocol(m, c.key) && c.key in m.outstanding && c.expired
    ensures var m' := HandleCompletion(m, c, drained, r);
            && FatesOf(m'.history, c.key) == FatesOf(m.history, c.key) + Labelled(Pending(m.queue, c.key), Dropping)
            && Pending(m'.queue, c.key) == []
            && (c.key in m'.queue.active <==> Pending(m.queue, c.key) != [])
  {
    ExpiredIsUnowned(m, c, drained);
    CompletionDrops(m, c, drained, r, c.key);
  }

  lemma FlushView(m: Manager, agent: string, key: SessionKey, r: Replies, k: SessionKey)
    requires NoCommands(Pending(m.queue, key)) && Pending(m.queue, key) != [] && key !in m.queue.active
    ensures ViewOf(FlushAndDispatch(m, agent, key, r).0, k)
         == if k == key then HandOverTo(ViewOf(m, k), Pending(m.queue, k), Arrives(m.slots, agent, key, r))
            else ViewOf(m, k)
  {
    var waiting := Pending(m.queue, key);
    HandOverView(m.(queue := AfterFlush(m.queue, key)), agent, key, waiting, FirstMetadata(waiting), r, k);
  }

  lemma QueuedView(m: Manager, key: SessionKey, p: Payload, k: SessionKey)
    ensures var queued, v := Note(m.(queue := Append(m.queue, key, p)), Accepted(key, p)), ViewOf(m, k);
            ViewOf(queued, k) == if k == key then v.(accepted := v.accepted + [p], waiting := v.waiting + [p]) else v
  {
  }

  /** A message waits for a busy session, and is handed over at once for an idle one. */
  lemma MessageView(m: Manager, agent: string, key: SessionKey, p: Payload, r: Replies, k: SessionKey)
    requires CommandOf(p.content).None? && NoCommands(Pending(m.queue, key))
    ensures ViewOf(Enqueue(m, agent, key, p, r).0, k)
         == if k == key then After(ViewOf(m, k), Message(p, Arrives(m.slots, agent, key, r))) else ViewOf(m, k)
  {
    QueuedView(m, key, p, k);
    QueuedView(m, key, p, key);
    var queued := Note(m.(queue := Append(m.queue, key, p)), Accepted(key, p));
    if key !in m.queue.active {
      assert NoCommands(Pending(queued.queue, key));
      FlushView(queued, agent, key, r, k);
    }
  }

  /** When the sender of a message is answered with an error: a command for an unknown agent or a
      /new the agent refuses, and a message for an idle session whose prompt fails. */
  lemma RejectedExactlyWhen(m: Manager, agent: string, key: SessionKey, p: Payload, r: Replies)
    requires NoCommands(Pending(m.queue, key))
    ensures !Enqueue(m, agent, key, p, r).1
       <==> match CommandOf(p.content)
            case None => key !in m.queue.active && !Arrives(m.slots, agent, key, r)
            case Some(cmd) =>
              match FindSlot(m.slots, agent)
              case None => true
              case Some(i) => cmd.New? && !EndsTurn(m.slots[i], cmd, key, r)
  {
    if CommandOf(p.content).None? && key !in m.queue.active {
      var queued := Note(m.(queue := Append(m.queue, key, p)), Accepted(key, p));
      var waiting := Pending(queued.queue, key);
      assert waiting == Pending(m.queue, key) + [p];
      CoalescingIsPlain(waiting);
      var m0 := queued.(queue := AfterFlush(queued.queue, key));
      var m1 := Send(Note(m0, HandedOver(key, waiting)), DispatchStarted(key));
      PromptReaches(m1, agent, key, Payload(Flatten(waiting), FirstMetadata(waiting)), r, key);
    }
  }

  // ----- main results -----

  /** What an event means to session `k`. */
  function CauseOf(m: Manager, e: Event, k: SessionKey): Cause {
    match e
    case EnqueueMessage(agent, key, p, r) =>
      if key != k then Nothing
      else if CommandOf(p.content).None? then Message(p, Arrives(m.slots, agent, k, r))
      else
        (match FindSlot(m.slots, agent)
         case None => Nothing
         case Some(i) => Command(EndsTurn(m.slots[i], CommandOf(p.content).value, k, r)))
    case PromptDone(c, drained, r) =>
      if c.key != k || k !in m.outstanding then Nothing
      else
        var slots := SettledSlots(m, c, drained);
        var owner := OwnerName(slots, k);
        Answer(owner != "", Arrives(slots, owner, k, r))
    case _ => Nothing
  }

  function CausesOf(m: Manager, events: seq<Event>, k: SessionKey): seq<Cause> {
    if events == [] then []
    else
      CausesOf(m, events[..|events| - 1], k) + [CauseOf(Run(m, events[..|events| - 1]), events[|events| - 1], k)]
  }

  lemma MessageIsAfter(m: Manager, agent: string, key: SessionKey, p: Payload, r: Replies, k: SessionKey)
    requires Protocol(m, k) && Protocol(m, key)
    ensures var e := EnqueueMessage(agent, key, p, r);
            ViewOf(Step(m, e), k) == After(ViewOf(m, k), CauseOf(m, e, k))
  {
    if CommandOf(p.content).None? {
      MessageView(m, agent, key, p, r, k);
    } else {
      var slot := FindSlot(m.slots, agent);
      if slot.Some? { CommandDrops(m, CommandOf(p.content).value, slot.value, key, r, k); }
    }
  }

  lemma CallersUnseen(m: Manager, agent: string, key: SessionKey, r: Replies, k: SessionKey)
    requires Protocol(m, k)
    ensures ViewOf(Step(m, CreateSession(agent, key, r)), k) == ViewOf(m, k)
    ensures ViewOf(Step(m, ForkSession(agent, key, r)), k) == ViewOf(m, k)
  {
    var slot := FindSlot(m.slots, agent);
    if slot.Some? { HealUnseen(m, slot.value, key, r, k); }
  }

  lemma AnswerIsAfter(m: Manager, c: Completion, drained: seq<Incoming>, r: Replies, k: SessionKey)
    requires Protocol(m, k) && Protocol(m, c.key)
    ensures var e := PromptDone(c, drained, r);
            ViewOf(Step(m, e), k) == After(ViewOf(m, k), CauseOf(m, e, k))
  {
    if c.key in m.outstanding {
      CompletionDrops(m, c, drained, r, k);
      AnswerStep(m, c, drained, r);
    }
  }

  lemma UpdateUnseen(m: Manager, msg: Incoming, k: SessionKey)
    requires Protocol(m, k)
    ensures ViewOf(Step(m, FromAgent(msg)), k) == ViewOf(m, k)
  {
    IncomingKeeps(m, msg, k);
  }

  /** One step of the manager is one step of the session's machine: it says exactly what leaves the
      queue, in what order, and whether it is prompted with, lost by a failed prompt, or dropped. */
  lemma StepIsAfter(m: Manager, e: Event, k: SessionKey)
    requires Protocol(m, k) && Protocol(m, KeyOf(e))
    ensures ViewOf(Step(m, e), k) == After(ViewOf(m, k), CauseOf(m, e, k))
  {
    match e
    case EnqueueMessage(agent, key, p, r) => MessageIsAfter(m, agent, key, p, r, k);
    case CreateSession(agent, key, r) => CallersUnseen(m, agent, key, r, k);
    case ForkSession(agent, key, r) => CallersUnseen(m, agent, key, r, k);
    case FromAgent(msg) => UpdateUnseen(m, msg, k);
    case PromptDone(c, drained, r) => AnswerIsAfter(m, c, drained, r, k);
  }

  lemma {:induction false} RunIsReplay(m: Manager, events: seq<Event>, k: SessionKey)
    requires Started(m)
    ensures ViewOf(Run(m, events), k) == Replay(NEW_SESSION, CausesOf(m, events, k))
  {
    if events != [] {
      var before, e := events[..|events| - 1], events[|events| - 1];
      RunIsReplay(m, before, k);
      ProtocolHolds(m, before, k);
      ProtocolHolds(m, before, KeyOf(e));
      StepIsAfter(Run(m, before), e, k);
      assert CausesOf(m, events, k)[..|before|] == CausesOf(m, before, k) by { CausesLength(m, before, k); }
      CausesLength(m, events, k);
    }
  }

  lemma {:induction false} CausesLength(m: Manager, events: seq<Event>, k: SessionKey)
    ensures |CausesOf(m, events, k)| == |events|
  {
    if events != [] { CausesLength(m, events[..|events| - 1], k); }
  }

  /** Over every run each accepted message is, in order, prompted with, lost by a failed prompt,
      dropped, or still waiting. */
  lemma EveryMessageAccountedFor(m: Manager, events: seq<Event>, k: SessionKey)
    requires Started(m)
    ensures var s := Run(m, events);
            AcceptedBy(s.history, k) == Payloads(FatesOf(s.history, k)) + Pending(s.queue, k)
  {
    RunIsReplay(m, events, k);
    ReplayIsSound(CausesOf(m, events, k));
  }

  /** A message that is handled as /new or /cancel for `k`. */
  predicate IsCommandFor(e: Event, k: SessionKey) {
    e.EnqueueMessage? && e.key == k && CommandOf(e.payload.content).Some?
  }

  function CommandMessages(events: seq<Event>, k: SessionKey): nat {
    if events == [] then 0
    else CommandMessages(events[..|events| - 1], k) + if IsCommandFor(events[|events| - 1], k) then 1 else 0
  }

  /** At most one prompt per command message, plus one while the session is active. In particular
      without commands a session never has two prompts running. */
  lemma {:induction false} PromptsAreBounded(m: Manager, events: seq<Event>, k: SessionKey)
    requires Started(m)
    ensures Commands(Run(m, events).history, k) <= CommandMessages(events, k)
    ensures Run(m, events).outstanding[k] <= CommandMessages(events, k) + ActiveCount(Run(m, events), k)
  {
    ProtocolHolds(m, events, k);
    if events != [] {
      var before := events[..|events| - 1];
      PromptsAreBounded(m, before, k);
      ProtocolHolds(m, before, k);
      ProtocolHolds(m, before, KeyOf(events[|events| - 1]));
      StepIsAfter(Run(m, before), events[|events| - 1], k);
      CommandsStep(Run(m, before), events[|events| - 1], k);
    }
  }

  lemma CommandsStep(m: Manager, e: Event, k: SessionKey)
    ensures CauseOf(m, e, k).Command? ==> IsCommandFor(e, k)
    ensures After(ViewOf(m, k), CauseOf(m, e, k)).commands
         == ViewOf(m, k).commands + if CauseOf(m, e, k).Command? then 1 else 0
  {
  }

  /** One step from a reachable state. */
  lemma ReachedStep(m: Manager, before: seq<Event>, e: Event, k: SessionKey)
    requires Started(m)
    ensures ViewOf(Run(m, before + [e]), k) == After(ViewOf(Run(m, before), k), CauseOf(Run(m, before), e, k))
    ensures Sound(ViewOf(Run(m, before), k))
  {
    ProtocolHolds(m, before, k);
    ProtocolHolds(m, before, KeyOf(e));
    RunSnoc(m, before, e);
    StepIsAfter(Run(m, before), e, k);
    RunIsReplay(m, before, k);
    ReplayIsSound(CausesOf(m, before, k));
  }

  lemma {:induction false} RunIsReplayFrom(m: Manager, before: seq<Event>, later: seq<Event>, k: SessionKey)
    requires Started(m)
    ensures ViewOf(Run(m, before + later), k)
         == Replay(ViewOf(Run(m, before), k), CausesOf(Run(m, before), later, k))
  {
    if later == [] {
      assert before + later == before;
    } else {
      var init, e := later[..|later| - 1], later[|later| - 1];
      assert later == init + [e] && before + later == before + init + [e];
      RunIsReplayFrom(m, before, init, k);
      ReachedStep(m, before + init, e, k);
      RunConcat(m, before, init);
      CausesSnoc(Run(m, before), init, e, k);
    }
  }

  lemma CausesSnoc(m: Manager, events: seq<Event>, e: Event, k: SessionKey)
    ensures CausesOf(m, events + [e], k) == CausesOf(m, events, k) + [CauseOf(Run(m, events), e, k)]
    ensures CausesOf(m, events + [e], k)[..|CausesOf(m, events + [e], k)| - 1] == CausesOf(m, events, k)
  {
    assert (events + [e])[..|events|] == events;
  }

  /** In every reachable state, exactly when the next event leaves the session stuck. */
  lemma StuckAfterStepIff(m: Manager, before: seq<Event>, e: Event, k: SessionKey)
    requires Started(m)
    ensures var s := Run(m, before);
            Stuck(ViewOf(Run(m, before + [e]), k)) <==> LeavesStuck(ViewOf(s, k), CauseOf(s, e, k))
  {
    ReachedStep(m, before, e, k);
    StuckExactlyWhen(ViewOf(Run(m, before), k), CauseOf(Run(m, before), e, k));
  }

  /** From every reachable state in which the session is stuck, over every run: no message that waits
      there is ever prompted with. They are dropped one by one, by commands, oldest first, and until
      all have left the session stays stuck. */
  lemma StuckSession(m: Manager, before: seq<Event>, later: seq<Event>, k: SessionKey)
    requires Started(m) && Stuck(ViewOf(Run(m, before), k))
    ensures Doomed(ViewOf(Run(m, before), k), ViewOf(Run(m, before + later), k))
  {
    RunIsReplayFrom(m, before, later, k);
    StuckMessagesAreDoomed(ViewOf(Run(m, before), k), CausesOf(Run(m, before), later, k));
  }

  lemma {:induction false} NoCommandCauses(m: Manager, events: seq<Event>, k: SessionKey)
    requires forall i :: 0 <= i < |events| ==> !IsCommandFor(events[i], k)
    ensures forall i :: 0 <= i < |CausesOf(m, events, k)| ==> !CausesOf(m, events, k)[i].Command?
  {
    if events != [] {
      NoCommandCauses(m, events[..|events| - 1], k);
      CommandsStep(Run(m, events[..|events| - 1]), events[|events| - 1], k);
    }
  }

  /** And as long as no command for the session arrives, nothing leaves its queue at all. */
  lemma StuckSessionWaits(m: Manager, before: seq<Event>, later: seq<Event>, k: SessionKey)
    requires Started(m) && Stuck(ViewOf(Run(m, before), k))
    requires forall i :: 0 <= i < |later| ==> !IsCommandFor(later[i], k)
    ensures var s, s' := Run(m, before), Run(m, before + later);
            && Stuck(ViewOf(s', k))
            && FatesOf(s'.history, k) == FatesOf(s.history, k)
            && Pending(s.queue, k) <= Pending(s'.queue, k)
  {
    RunIsReplayFrom(m, before, later, k);
    NoCommandCauses(Run(m, before), later, k);
    StuckUntilCommand(ViewOf(Run(m, before), k), CausesOf(Run(m, before), later, k));
  }

  /** A message whose prompt fails is lost, and with no other prompt running it leaves the session
      stuck. */
  lemma FailedPromptLeavesStuck(m: Manager, before: seq<Event>, e: Event, k: SessionKey)
    requires Started(m) && e.EnqueueMessage? && e.key == k && CommandOf(e.payload.content).None?
    requires var s := Run(m, before);
             k !in s.queue.active && s.outstanding[k] == 0 && !Arrives(s.slots, e.agent, k, e.replies)
    ensures var s, s' := Run(m, before), Run(m, before + [e]);
            Stuck(ViewOf(s', k)) && FatesOf(s'.history, k) == FatesOf(s.history, k) + [Settled(e.payload, Failing)]
  {
    ReachedStep(m, before, e, k);
    assert ViewOf(Run(m, before), k).waiting == [];
    assert Labelled([] + [e.payload], Failing) == [Settled(e.payload, Failing)];
  }

  /** So nothing that comes later is handed over until a command for the session. */
  lemma FailedPromptSticks(m: Manager, before: seq<Event>, e: Event, later: seq<Event>, k: SessionKey)
    requires Started(m) && e.EnqueueMessage? && e.key == k && CommandOf(e.payload.content).None?
    requires var s := Run(m, before);
             k !in s.queue.active && s.outstanding[k] == 0 && !Arrives(s.slots, e.agent, k, e.replies)
    requires forall i :: 0 <= i < |later| ==> !IsCommandFor(later[i], k)
    ensures var s, s' := Run(m, before), Run(m, before + [e] + later);
            && k in s'.queue.active && s'.outstanding[k] == 0
            && FatesOf(s'.history, k) == FatesOf(s.history, k) + [Settled(e.payload, Failing)]
  {
    FailedPromptLeavesStuck(m, before, e, k);
    StuckSessionWaits(m, before + [e], later, k);
  }

  /** The completion of a session's only prompt leaves it stuck as well, if its next batch fails or has
      no owner; the whole batch is lost. */
  lemma FailedTurnSticks(m: Manager, before: seq<Event>, e: Event, k: SessionKey)
    requires Started(m) && e.PromptDone? && e.completion.key == k
    requires var s := Run(m, before);
             && s.outstanding[k] == 1 && Pending(s.queue, k) != []
             && !(CauseOf(s, e, k).Answer? && CauseOf(s, e, k).owned && CauseOf(s, e, k).arrives)
    ensures var s, s' := Run(m, before), Run(m, before + [e]);
            && Stuck(ViewOf(s', k)) && Pending(s'.queue, k) == []
            && FatesOf(s'.history, k) == FatesOf(s.history, k)
               + Labelled(Pending(s.queue, k), if CauseOf(s, e, k).owned then Failing else Dropping)
  {
    ReachedStep(m, before, e, k);
  }
}
