/** What the channels manager is told: for every event, exactly which signals a session's channel is
    sent, in which order, and when a completion is reported. */
module AgentsSignals {
  import opened Options
  import opened Messages
  import opened PlatformCommands
  import opened SessionQueues
  import opened Histories
  import opened Signals
  import opened AgentSlots
  import opened Agents
  import opened SessionViews
  import opened AgentsProtocol
  import opened AgentsFates

  /** The manager remembers exactly the results the log says were forwarded since the last answer. */
  predicate Streams(m: Manager, k: SessionKey) { k in m.streamed <==> StreamedSince(m.history, k) }

  /** From `m` to `m'` the signals `s` about `k` were sent, and nothing else. */
  predicate Tells(m: Manager, m': Manager, k: SessionKey, s: seq<Signal>) {
    && m'.attached == m.attached
    && Extends(m.history, m'.history)
    && (Streams(m, k) ==> Streams(m', k))
    && SignalsOf(m'.history, k) == SignalsOf(m.history, k) + s
  }

  /** Without a sender nothing is told. */
  function Spoken(m: Manager, s: seq<Signal>): seq<Signal> { if m.attached then s else [] }

  lemma TellsChain(m: Manager, m1: Manager, m2: Manager, k: SessionKey, a: seq<Signal>, b: seq<Signal>)
    requires Tells(m, m1, k, a) && Tells(m1, m2, k, b)
    ensures Tells(m, m2, k, a + b)
  {
    ExtendsFurther(m.history, m1.history, m2.history);
    assert SignalsOf(m.history, k) + a + b == SignalsOf(m.history, k) + (a + b);
  }

  lemma Quiet(m: Manager, m': Manager, k: SessionKey)
    requires m'.attached == m.attached && m'.history == m.history && m'.streamed == m.streamed
    ensures Tells(m, m', k, [])
  {
  }

  lemma NoteTells(m: Manager, e: Entry, k: SessionKey)
    requires !e.Forwarded? && !e.Answered?
    ensures Tells(m, Note(m, e), k, SentBy(e, k))
    ensures Tells(m, Send(m, e), k, Spoken(m, SentBy(e, k)))
  {
    assert SignalsOf(m.history, k) + [] == SignalsOf(m.history, k);
    assert Extends(m.history, m.history);
  }

  lemma ChunkTells(m: Manager, key: SessionKey, k: SessionKey)
    ensures Tells(m, SyntheticChunk(m, key), k, Spoken(m, if k == key then [Dispatched, Updated(false)] else []))
  {
    NoteTells(m, DispatchStarted(key), k);
    var m1 := Send(m, DispatchStarted(key));
    NoteTells(m1, Delivered(key, false), k);
    TellsChain(m, m1, SyntheticChunk(m, key), k, Spoken(m, SentBy(DispatchStarted(key), k)),
               Spoken(m, SentBy(Delivered(key, false), k)));
  }

  lemma ResponseTells(m: Manager, key: SessionKey, k: SessionKey)
    ensures Tells(m, SyntheticResponse(m, key), k,
                  Spoken(m, if k == key then [Dispatched, Updated(false), Updated(true), Completed] else []))
  {
    ChunkTells(m, key, k);
    var m1 := SyntheticChunk(m, key);
    var chunk := Spoken(m, if k == key then [Dispatched, Updated(false)] else []);
    NoteTells(m1, Delivered(key, true), k);
    var m2 := Send(m1, Delivered(key, true));
    var result := Spoken(m, SentBy(Delivered(key, true), k));
    TellsChain(m, m1, m2, k, chunk, result);
    NoteTells(m2, SessionComplete(key), k);
    TellsChain(m, m2, SyntheticResponse(m, key), k, chunk + result, Spoken(m, SentBy(SessionComplete(key), k)));
  }

  lemma IdleTells(m: Manager, key: SessionKey, k: SessionKey)
    ensures Tells(m, IdleIgnoringResult(m, key), k, [])
  {
    var idle := m.(queue := AfterMarkIdle(m.queue, key));
    Quiet(m, idle, k);
    var taken := MarkIdleResult(m.queue, key);
    if taken.Some? { NoteTells(idle, Discarded(key, [taken.value]), k); }
  }

  /** What a command for its own session tells the channel. */
  function CommandSignals(s: Slot, cmd: PlatformCommand, k: SessionKey, r: Replies): seq<Signal> {
    match cmd
    case New => if s.connected && r.create.Some? then [Dispatched, Updated(false)] else []
    case Cancel =>
      if k in s.sessionMap && s.connected && r.cancelSent then [Dispatched, Updated(false)]
      else [Dispatched, Updated(false), Updated(true), Completed]
  }

  lemma CommandTells(m: Manager, cmd: PlatformCommand, i: nat, key: SessionKey, r: Replies, k: SessionKey)
    requires i < |m.slots|
    ensures Tells(m, HandlePlatformCommand(m, cmd, i, key, r).0, k,
                  Spoken(m, if k == key then CommandSignals(m.slots[i], cmd, k, r) else []))
  {
    NoteTells(m, CommandRun(key), k);
    var m1 := Note(m, CommandRun(key));
    if cmd.New? {
      NewTells(m1, i, key, r, k);
      TellsChain(m, m1, HandleNew(m1, i, key, r).0, k, [],
                 Spoken(m, if k == key then CommandSignals(m.slots[i], New, k, r) else []));
    } else {
      CancelTells(m1, i, key, r, k);
      TellsChain(m, m1, HandleCancel(m1, i, key, r), k, [],
                 Spoken(m, if k == key then CommandSignals(m.slots[i], Cancel, k, r) else []));
    }
  }

  lemma NewTells(m: Manager, i: nat, key: SessionKey, r: Replies, k: SessionKey)
    requires i < |m.slots|
    ensures Tells(m, HandleNew(m, i, key, r).0, k,
                  Spoken(m, if k == key then CommandSignals(m.slots[i], New, k, r) else []))
  {
    var m2 := SetSlot(m, i, Create(ForgetSession(m.slots[i], key), key, r.create).0);
    Quiet(m, m2, k);
    if m.slots[i].connected && r.create.Some? {
      var told := Spoken(m, if k == key then [Dispatched, Updated(false)] else []);
      ChunkTells(m2, key, k);
      TellsChain(m, m2, SyntheticChunk(m2, key), k, [], told);
      IdleTells(SyntheticChunk(m2, key), key, k);
      TellsChain(m, SyntheticChunk(m2, key), IdleIgnoringResult(SyntheticChunk(m2, key), key), k, told, []);
    }
  }

  lemma CancelTells(m: Manager, i: nat, key: SessionKey, r: Replies, k: SessionKey)
    requires i < |m.slots|
    ensures Tells(m, HandleCancel(m, i, key, r), k,
                  Spoken(m, if k == key then CommandSignals(m.slots[i], Cancel, k, r) else []))
  {
    if Cancels(m.slots[i], key, r) {
      var told := Spoken(m, if k == key then [Dispatched, Updated(false)] else []);
      ChunkTells(m, key, k);
      IdleTells(SyntheticChunk(m, key), key, k);
      TellsChain(m, SyntheticChunk(m, key), IdleIgnoringResult(SyntheticChunk(m, key), key), k, told, []);
    } else {
      ResponseTells(m, key, k);
    }
  }

  lemma HealTells(m: Manager, i: nat, key: SessionKey, r: Replies, k: SessionKey)
    requires i < |m.slots|
    ensures Tells(m, HealSession(m, i, key, r).0, k, [])
  {
    var (s, how) := Heal(m.slots[i], key, r);
    Quiet(m, SetSlot(m, i, s), k);
    if how.Reloaded? { NoteTells(SetSlot(m, i, s), Loaded(i, {how.id}), k); }
  }

  lemma PromptLiveTells(m: Manager, i: nat, key: SessionKey, r: Replies, k: SessionKey)
    requires i < |m.slots| && key in m.slots[i].sessionMap
    ensures Tells(m, PromptLive(m, i, key, r).0, k, [])
  {
    var slot := m.slots[i];
    var id := slot.sessionMap[key];
    var m0 := SetSlot(m, i, slot.(awaiting := slot.awaiting - {id}));
    var m1 := Note(m0, PromptReady(i, id));
    NoteTells(m0, PromptReady(i, id), k);
    if slot.connected && r.promptSent {
      var s1 := m1.slots[i];
      var m2 := SetSlot(m1, i, s1.(activePrompts := s1.activePrompts + {id}));
      NoteTells(m2.(outstanding := m2.outstanding + multiset{key}), PromptSent(i, id), k);
      TellsChain(m0, m1, PromptLive(m, i, key, r).0, k, [], []);
    }
  }

  lemma PromptTells(m: Manager, agent: string, key: SessionKey, batch: Payload, r: Replies, k: SessionKey)
    requires CommandOf(batch.content).None?
    ensures Tells(m, PromptSession(m, agent, key, batch, r).0, k, [])
  {
    NoteTells(m, Batch(key, batch), k);
    var m1 := Note(m, Batch(key, batch));
    var found := FindSlot(m1.slots, agent);
    if found.Some? {
      var i := found.value;
      if key in m1.slots[i].sessionMap {
        PromptLiveTells(m1, i, key, r, k);
        TellsChain(m, m1, PromptLive(m1, i, key, r).0, k, [], []);
      } else {
        HealTells(m1, i, key, r, k);
        var (m2, healed) := HealSession(m1, i, key, r);
        TellsChain(m, m1, m2, k, [], []);
        if healed {
          PromptLiveTells(m2, i, key, r, k);
          TellsChain(m, m2, PromptLive(m2, i, key, r).0, k, [], []);
        }
      }
    }
  }

  lemma HandOverTells(m: Manager, agent: string, key: SessionKey, taken: seq<Payload>,
      meta: Option<MessageMetadata>, r: Replies, k: SessionKey)
    requires NoCommands(taken)
    ensures Tells(m, HandOver(m, agent, key, taken, meta, r).0, k, Spoken(m, if k == key then [Dispatched] else []))
  {
    CoalescingIsPlain(taken);
    var batch := Payload(Flatten(taken), meta);
    var told := Spoken(m, SentBy(DispatchStarted(key), k));
    var m1 := Note(m, HandedOver(key, taken));
    var m2 := Send(m1, DispatchStarted(key));
    NoteTells(m, HandedOver(key, taken), k);
    NoteTells(m1, DispatchStarted(key), k);
    TellsChain(m, m1, m2, k, [], told);
    PromptTells(m2, agent, key, batch, r, k);
    var (m3, ok) := PromptSession(m2, agent, key, batch, r);
    TellsChain(m, m2, m3, k, told, []);
    var end := if ok then Reached(key, taken) else Lost(key, taken);
    NoteTells(m3, end, k);
    TellsChain(m, m3, Note(m3, end), k, told, []);
  }

  // ----- messages from agents -----

  /** What a message from an agent tells the channel of `k`. */
  function IncomingSignals(m: Manager, msg: Incoming, k: SessionKey): seq<Signal> {
    if msg.slot >= |m.slots| then []
    else
      var s := m.slots[msg.slot];
      match msg
      case Update(_, id, isResult) =>
        if id !in s.awaiting && id in s.reverseMap && s.reverseMap[id] == k then [Updated(isResult)] else []
      case Malformed(_, id) =>
        if id.Some? && id.value in s.reverseMap && s.reverseMap[id.value] == k then [Updated(true)] else []
      case Exited(_, c) =>
        if c.restart && k in s.sessionMap && s.sessionMap[k] !in s.activePrompts then [Updated(true)] else []
  }

  lemma CrashTells(m: Manager, i: nat, c: CrashOutcome, k: SessionKey)
    requires i < |m.slots|
    ensures Tells(m, HandleCrash(m, i, c), k, Spoken(m, IncomingSignals(m, Exited(i, c), k)))
  {
    var down := m.slots[i].(connected := false);
    Quiet(m, SetSlot(m, i, down.(disabled := true)), k);
    if c.restart {
      var m0 := SetSlot(m, i, down);
      Quiet(m, m0, k);
      var told := Spoken(m, IncomingSignals(m, Exited(i, c), k));
      NotifyTells(m0, i, k);
      var m1 := NotifyCrash(m0, i);
      TellsChain(m, m0, m1, k, [], told);
      if c.respawned {
        var m2 := SetSlot(m1, i, m1.slots[i].(connected := true, caps := c.caps));
        Quiet(m1, m2, k);
        TellsChain(m, m1, m2, k, told, []);
        RestoreTells(m2, i, c.order, c.replies, k);
        TellsChain(m, m2, RestoreSlot(m2, i, c.order, c.replies), k, told, []);
      }
    }
  }

  lemma NotifyTells(m: Manager, i: nat, k: SessionKey)
    requires i < |m.slots|
    ensures var s := m.slots[i];
            Tells(m, NotifyCrash(m, i), k,
                  Spoken(m, if k in s.sessionMap && s.sessionMap[k] !in s.activePrompts then [Updated(true)] else []))
  {
    var s := m.slots[i];
    var notices := CrashNotices(i, Notified(s));
    NoteTells(m, notices, k);
    var m1 := Send(m, notices);
    var m2 := SetSlot(m1, i, s.(activePrompts := {}));
    Quiet(m1, m2, k);
    TellsChain(m, m1, m2, k, Spoken(m, SentBy(notices, k)), []);
    NoteTells(m2, PromptsForgotten(i), k);
    TellsChain(m, m2, NotifyCrash(m, i), k, Spoken(m, SentBy(notices, k)), []);
  }

  lemma RestoreTells(m: Manager, i: nat, order: HashOrder, r: Replies, k: SessionKey)
    requires i < |m.slots|
    ensures Tells(m, RestoreSlot(m, i, order, r), k, [])
  {
    var (s, how) := Restore(m.slots[i], order, r);
    var m1 := SetSlot(m, i, s);
    Quiet(m, m1, k);
    NoteTells(m1, ReplayWiped(i), k);
    TellsChain(m, m1, Note(m1, ReplayWiped(i)), k, [], []);
    if how.Reloaded? {
      NoteTells(Note(m1, ReplayWiped(i)), Loaded(i, s.sessionMap.Values), k);
      TellsChain(m, Note(m1, ReplayWiped(i)), RestoreSlot(m, i, order, r), k, [], []);
    }
  }

  lemma ForwardTells(m: Manager, i: nat, id: AcpId, isResult: bool, k: SessionKey)
    requires i < |m.slots|
    ensures Tells(m, ForwardUpdate(m, i, id, isResult), k, Spoken(m, IncomingSignals(m, Update(i, id, isResult), k)))
  {
    Quiet(m, m, k);
  }

  lemma IncomingTells(m: Manager, msg: Incoming, k: SessionKey)
    ensures Tells(m, HandleIncoming(m, msg), k, Spoken(m, IncomingSignals(m, msg, k)))
  {
    Quiet(m, m, k);
    if msg.slot < |m.slots| {
      match msg
      case Update(i, id, isResult) => ForwardTells(m, i, id, isResult, k);
      case Malformed(i, id) =>
        if id.Some? && id.value in m.slots[i].reverseMap {
          NoteTells(m, Delivered(m.slots[i].reverseMap[id.value], true), k);
        }
      case Exited(i, c) => CrashTells(m, i, c, k);
    }
  }

  function DrainSignals(m: Manager, msgs: seq<Incoming>, k: SessionKey): seq<Signal> {
    if msgs == [] then []
    else
      var init := msgs[..|msgs| - 1];
      DrainSignals(m, init, k) + IncomingSignals(HandleAll(m, init), msgs[|msgs| - 1], k)
  }

  lemma {:induction false} DrainTells(m: Manager, msgs: seq<Incoming>, k: SessionKey)
    ensures Tells(m, HandleAll(m, msgs), k, Spoken(m, DrainSignals(m, msgs, k)))
  {
    if msgs == [] {
      Quiet(m, m, k);
    } else {
      var init, last := msgs[..|msgs| - 1], msgs[|msgs| - 1];
      var m1 := HandleAll(m, init);
      DrainTells(m, init, k);
      IncomingTells(m1, last, k);
      TellsChain(m, m1, HandleAll(m, msgs), k,
                 Spoken(m, DrainSignals(m, init, k)), Spoken(m, IncomingSignals(m1, last, k)));
    }
  }

  // ----- completions -----

  /** A completion is reported with a result of its own, unless one was forwarded since the session's
      last answer. */
  function ReportSignals(h: History, k: SessionKey): seq<Signal> {
    if StreamedSince(h, k) then [Completed] else [Updated(true), Completed]
  }

  lemma SettleTells(m: Manager, c: Completion, k: SessionKey)
    ensures Tells(m, Settle(m, c), k, [])
  {
    assert SignalsOf(m.history, k) + [] == SignalsOf(m.history, k);
    assert Extends(m.history, m.history);
  }

  lemma ReportTells(m: Manager, c: Completion, k: SessionKey)
    requires Streams(m, c.key)
    ensures Tells(m, ReportCompletion(Settle(m, c), c.key, c.key in m.streamed), k,
                  Spoken(m, if k == c.key then ReportSignals(m.history, k) else []))
  {
    var m1 := Settle(m, c);
    SettleTells(m, c, k);
    var m2 := if c.key in m.streamed then m1 else Send(m1, Delivered(c.key, true));
    NoteTells(m1, Delivered(c.key, true), k);
    Quiet(m1, m1, k);
    var result := if c.key in m.streamed then [] else Spoken(m, SentBy(Delivered(c.key, true), k));
    TellsChain(m, m1, m2, k, [], result);
    NoteTells(m2, SessionComplete(c.key), k);
    TellsChain(m, m2, Send(m2, SessionComplete(c.key)), k, [] + result, Spoken(m, SentBy(SessionComplete(c.key), k)));
  }

  lemma WaitingTells(m: Manager, key: SessionKey, r: Replies, k: SessionKey)
    requires NoCommands(Pending(m.queue, key))
    ensures Tells(m, DispatchWaiting(m, key, r), k,
                  Spoken(m, if k == key && Pending(m.queue, k) != [] && OwnerName(m.slots, k) != ""
                            then [Dispatched] else []))
  {
    var waiting := Pending(m.queue, key);
    var idle := m.(queue := AfterMarkIdle(m.queue, key));
    var drained := idle.(queue := AfterDrain(idle.queue, key));
    Quiet(m, idle, k);
    Quiet(m, drained, k);
    NoteTells(drained, Discarded(key, waiting), k);
    if waiting != [] && OwnerName(m.slots, key) != "" {
      HandOverTells(drained, OwnerName(m.slots, key), key, waiting, LastMetadata(waiting), r, k);
      TellsChain(m, drained, DispatchWaiting(m, key, r), k, [], Spoken(m, if k == key then [Dispatched] else []));
    } else if waiting != [] {
      TellsChain(m, drained, DispatchWaiting(m, key, r), k, [], []);
    }
  }

  /** What the completion of a running prompt tells, after the messages drained before it. */
  function CompletionSignals(m: Manager, c: Completion, drained: seq<Incoming>, k: SessionKey): seq<Signal> {
    var m1 := HandleAll(m.(outstanding := m.outstanding - multiset{c.key}), drained);
    if k != c.key then []
    else ReportSignals(m1.history, k)
         + if Pending(m.queue, k) != [] && OwnerName(SettledSlots(m, c, drained), k) != "" then [Dispatched] else []
  }

  lemma ReportedTells(m: Manager, c: Completion, drained: seq<Incoming>, k: SessionKey)
    requires Streams(m, c.key)
    ensures var m0 := m.(outstanding := m.outstanding - multiset{c.key});
            var m1 := HandleAll(m0, drained);
            Tells(m, Reported(m, c, drained), k,
                  Spoken(m, DrainSignals(m0, drained, k))
                  + Spoken(m, if k == c.key then ReportSignals(m1.history, k) else []))
  {
    var m0 := m.(outstanding := m.outstanding - multiset{c.key});
    Quiet(m, m0, k);
    DrainTells(m0, drained, k);
    DrainTells(m0, drained, c.key);
    var m1 := HandleAll(m0, drained);
    var a := Spoken(m, DrainSignals(m0, drained, k));
    TellsChain(m, m0, m1, k, [], a);
    assert [] + a == a;
    ReportTells(m1, c, k);
    TellsChain(m, m1, Reported(m, c, drained), k,
               a, Spoken(m, if k == c.key then ReportSignals(m1.history, k) else []));
  }

  lemma CompletionTells(m: Manager, c: Completion, drained: seq<Incoming>, r: Replies, k: SessionKey)
    requires Protocol(m, c.key) && c.key in m.outstanding && Streams(m, c.key)
    ensures var m0 := m.(outstanding := m.outstanding - multiset{c.key});
            Tells(m, HandleCompletion(m, c, drained, r), k,
                  Spoken(m, DrainSignals(m0, drained, k) + CompletionSignals(m, c, drained, k)))
  {
    var m0 := m.(outstanding := m.outstanding - multiset{c.key});
    var m1, m2 := HandleAll(m0, drained), Reported(m, c, drained);
    ReportedTells(m, c, drained, k);
    ReportedView(m, c, drained, c.key);
    WaitingTells(m2, c.key, r, k);
    var a := Spoken(m, DrainSignals(m0, drained, k));
    var b := Spoken(m, if k == c.key then ReportSignals(m1.history, k) else []);
    var d := Spoken(m, if k == c.key && Pending(m.queue, k) != [] && OwnerName(m2.slots, k) != ""
                       then [Dispatched] else []);
    TellsChain(m, m2, HandleCompletion(m, c, drained, r), k, a + b, d);
    assert a + b + d == Spoken(m, DrainSignals(m0, drained, k) + CompletionSignals(m, c, drained, k));
  }

  // ----- main results -----

  /** What a step tells the channel of `k`. */
  function StepSignals(m: Manager, e: Event, k: SessionKey): seq<Signal> {
    match e
    case EnqueueMessage(agent, key, p, r) =>
      if key != k then []
      else
        (match CommandOf(p.content)
         case None => if k in m.queue.active then [] else [Dispatched]
         case Some(cmd) =>
           (match FindSlot(m.slots, agent)
            case None => []
            case Some(i) => CommandSignals(m.slots[i], cmd, k, r)))
    case FromAgent(msg) =>
      if msg.Exited? && msg.slot < |m.slots| && m.slots[msg.slot].disabled then [] else IncomingSignals(m, msg, k)
    case PromptDone(c, drained, _) =>
      if c.key !in m.outstanding then []
      else
        DrainSignals(m.(outstanding := m.outstanding - multiset{c.key}), drained, k)
        + CompletionSignals(m, c, drained, k)
    case _ => []
  }

  lemma EnqueueTells(m: Manager, agent: string, key: SessionKey, p: Payload, r: Replies, k: SessionKey)
    requires NoCommands(Pending(m.queue, key))
    ensures Tells(m, Enqueue(m, agent, key, p, r).0, k, Spoken(m, StepSignals(m, EnqueueMessage(agent, key, p, r), k)))
  {
    Quiet(m, m, k);
    if CommandOf(p.content).Some? {
      var found := FindSlot(m.slots, agent);
      if found.Some? { CommandTells(m, CommandOf(p.content).value, found.value, key, r, k); }
    } else {
      var appended := m.(queue := Append(m.queue, key, p));
      var queued := Note(appended, Accepted(key, p));
      Quiet(m, appended, k);
      NoteTells(appended, Accepted(key, p), k);
      TellsChain(m, appended, queued, k, [], []);
      if key !in m.queue.active {
        var waiting := Pending(queued.queue, key);
        assert waiting == Pending(m.queue, key) + [p];
        var flushed := queued.(queue := AfterFlush(queued.queue, key));
        Quiet(queued, flushed, k);
        TellsChain(m, queued, flushed, k, [], []);
        HandOverTells(flushed, agent, key, waiting, FirstMetadata(waiting), r, k);
        TellsChain(m, flushed, HandOver(flushed, agent, key, waiting, FirstMetadata(waiting), r).0, k, [],
                   Spoken(m, if k == key then [Dispatched] else []));
      }
    }
  }

  lemma StepTells(m: Manager, e: Event, k: SessionKey)
    requires Protocol(m, KeyOf(e)) && Streams(m, KeyOf(e))
    ensures Tells(m, Step(m, e), k, Spoken(m, StepSignals(m, e, k)))
  {
    Quiet(m, m, k);
    match e
    case EnqueueMessage(agent, key, p, r) => EnqueueTells(m, agent, key, p, r, k);
    case CreateSession(agent, key, r) =>
      var found := FindSlot(m.slots, agent);
      if found.Some? {
        HealTells(m, found.value, key, r, k);
        Quiet(m, SetSlot(m, found.value, Create(m.slots[found.value], key, r.create).0), k);
      }
    case ForkSession(agent, key, r) =>
      var found := FindSlot(m.slots, agent);
      if found.Some? { Quiet(m, SetSlot(m, found.value, Fork(m.slots[found.value], key, r.fork).0), k); }
    case FromAgent(msg) => IncomingTells(m, msg, k);
    case PromptDone(c, drained, r) => if c.key in m.outstanding { CompletionTells(m, c, drained, r, k); }
  }

  lemma {:induction false} AlwaysStreams(m: Manager, events: seq<Event>, k: SessionKey)
    requires Started(m)
    ensures Streams(Run(m, events), k) && Run(m, events).attached == m.attached
  {
    if events != [] {
      var before, e := events[..|events| - 1], events[|events| - 1];
      AlwaysStreams(m, before, k);
      AlwaysStreams(m, before, KeyOf(e));
      ProtocolHolds(m, before, KeyOf(e));
      StepTells(Run(m, before), e, k);
    }
  }

  /** From every reachable state, with a sender, the next event adds exactly these signals for every
      session; without a sender it adds none. */
  lemma SignalsExactly(m: Manager, before: seq<Event>, e: Event, k: SessionKey)
    requires Started(m)
    ensures var s, s' := Run(m, before), Run(m, before + [e]);
            && SignalsOf(s'.history, k) == SignalsOf(s.history, k) + (if m.attached then StepSignals(s, e, k) else [])
            && Extends(s.history, s'.history)
  {
    ProtocolHolds(m, before, KeyOf(e));
    AlwaysStreams(m, before, KeyOf(e));
    StepTells(Run(m, before), e, k);
    RunSnoc(m, before, e);
  }

  /** The completion of a running prompt, with nothing drained and nothing waiting, reports a result
      and then the completion, or the completion alone if a result was forwarded since the last answer. */
  lemma CompletionIsReported(m: Manager, before: seq<Event>, c: Completion, r: Replies)
    requires Started(m) && m.attached
    requires var s := Run(m, before); c.key in s.outstanding && Pending(s.queue, c.key) == []
    ensures var s, s' := Run(m, before), Run(m, before + [PromptDone(c, [], r)]);
            SignalsOf(s'.history, c.key) == SignalsOf(s.history, c.key)
              + if StreamedSince(s.history, c.key) then [Completed] else [Updated(true), Completed]
  {
    SignalsExactly(m, before, PromptDone(c, [], r), c.key);
    var s := Run(m, before);
    assert HandleAll(s.(outstanding := s.outstanding - multiset{c.key}), []).history == s.history;
    assert [] + (ReportSignals(s.history, c.key) + []) == ReportSignals(s.history, c.key);
  }

  // ----- how many completions are reported -----

  /** The event is the end of a running prompt of `k`. */
  predicate IsAnswer(m: Manager, e: Event, k: SessionKey) {
    e.PromptDone? && e.completion.key == k && k in m.outstanding
  }

  /** The event is a /cancel for `k` that finds nothing it could cancel. */
  predicate IsIdleCancel(m: Manager, e: Event, k: SessionKey) {
    e.EnqueueMessage? && e.key == k && CommandOf(e.payload.content) == Some(Cancel) &&
    match FindSlot(m.slots, e.agent)
    case None => false
    case Some(i) => !(k in m.slots[i].sessionMap && m.slots[i].connected && e.replies.cancelSent)
  }

  function Answers(m: Manager, events: seq<Event>, k: SessionKey): nat {
    if events == [] then 0
    else
      var init := events[..|events| - 1];
      Answers(m, init, k) + if IsAnswer(Run(m, init), events[|events| - 1], k) then 1 else 0
  }

  function IdleCancels(m: Manager, events: seq<Event>, k: SessionKey): nat {
    if events == [] then 0
    else
      var init := events[..|events| - 1];
      IdleCancels(m, init, k) + if IsIdleCancel(Run(m, init), events[|events| - 1], k) then 1 else 0
  }

  lemma {:induction false} DrainsComplete(m: Manager, msgs: seq<Incoming>, k: SessionKey)
    ensures Times(DrainSignals(m, msgs, k), Completed) == 0
  {
    if msgs != [] {
      var init := msgs[..|msgs| - 1];
      DrainsComplete(m, init, k);
      TimesAdd(DrainSignals(m, init, k), IncomingSignals(HandleAll(m, init), msgs[|msgs| - 1], k), Completed);
    }
  }

  lemma ShortTimes(a: Signal, b: Signal, c: Signal, d: Signal)
    ensures Times([a], Completed) == (if a == Completed then 1 else 0)
    ensures Times([a, b], Completed) == (if a == Completed then 1 else 0) + (if b == Completed then 1 else 0)
    ensures Times([a, b, c, d], Completed) == Times([a, b], Completed) + Times([c, d], Completed)
  {
    assert [a][..0] == [] && [a, b][..1] == [a];
    assert [a, b, c, d] == [a, b] + [c, d];
    TimesConcat([a, b], [c, d], Completed);
  }

  lemma CompletionTimes(m: Manager, c: Completion, drained: seq<Incoming>, k: SessionKey)
    ensures Times(CompletionSignals(m, c, drained, k), Completed) == if k == c.key then 1 else 0
  {
    var m1 := HandleAll(m.(outstanding := m.outstanding - multiset{c.key}), drained);
    ShortTimes(Completed, Completed, Completed, Completed);
    ShortTimes(Updated(true), Completed, Completed, Completed);
    ShortTimes(Dispatched, Completed, Completed, Completed);
    TimesConcat(ReportSignals(m1.history, k), [Dispatched], Completed);
    assert ReportSignals(m1.history, k) + [] == ReportSignals(m1.history, k);
  }

  lemma StepTimes(m: Manager, e: Event, k: SessionKey)
    ensures Times(StepSignals(m, e, k), Completed)
         == (if IsAnswer(m, e, k) then 1 else 0) + (if IsIdleCancel(m, e, k) then 1 else 0)
  {
    ShortTimes(Dispatched, Updated(false), Updated(true), Completed);
    ShortTimes(Updated(true), Completed, Completed, Completed);
    ShortTimes(Updated(false), Completed, Completed, Completed);
    if e.PromptDone? && e.completion.key in m.outstanding {
      var m0 := m.(outstanding := m.outstanding - multiset{e.completion.key});
      DrainsComplete(m0, e.drained, k);
      CompletionTimes(m, e.completion, e.drained, k);
      TimesConcat(DrainSignals(m0, e.drained, k), CompletionSignals(m, e.completion, e.drained, k), Completed);
    }
  }

  /** Over every run, with a sender, exactly one completion is reported for each running prompt that
      ends and for each /cancel that finds nothing to cancel. */
  lemma {:induction false} CompletionsExactly(m: Manager, events: seq<Event>, k: SessionKey)
    requires Started(m)
    ensures Completions(Run(m, events).history, k)
         == if m.attached then Answers(m, events, k) + IdleCancels(m, events, k) else 0
  {
    if events != [] {
      var before, e := events[..|events| - 1], events[|events| - 1];
      var s := Run(m, before);
      CompletionsExactly(m, before, k);
      SignalsExactly(m, before, e, k);
      assert before + [e] == events;
      HistoryCounts(s.history, k);
      HistoryCounts(Run(m, events).history, k);
      StepTimes(s, e, k);
      var told := if m.attached then StepSignals(s, e, k) else [];
      TimesConcat(SignalsOf(s.history, k), told, Completed);
    }
  }
}
