/** Replay suppression and crash notices: the slots' bookkeeping agrees with the history. */
module AgentsReplay {
  import opened Options
  import opened Messages
  import opened PlatformCommands
  import opened SessionQueues
  import opened Histories
  import opened AgentSlots
  import opened Agents
  import opened SessionViews
  import opened AgentsProtocol
  import opened AgentsFates

  /** The slot remembers what the history says about slot `j`. */
  predicate Booked(s: Slot, h: History, j: nat) {
    s.awaiting == AwaitingPrompt(h, j) && s.activePrompts == PromptedSinceCrash(h, j)
  }

  predicate AllBooked(slots: seq<Slot>, h: History) {
    forall j :: 0 <= j < |slots| ==> Booked(slots[j], h, j)
  }

  predicate Books(m: Manager) {
    NoReplayForwarded(m.history) && AllBooked(m.slots, m.history)
  }

  /** Entries that are no slot's bookkeeping. */
  predicate Unbooked(e: Entry) {
    !e.Loaded? && !e.PromptReady? && !e.PromptSent? && !e.PromptsForgotten? && !e.ReplayWiped? && !e.Forwarded?
  }

  lemma NoteBooks(m: Manager, e: Entry)
    requires Books(m) && Unbooked(e)
    ensures Books(Note(m, e))
  {
  }

  /** A slot change that leaves the two remembered sets alone. */
  lemma SetSlotBooks(m: Manager, i: nat, s: Slot)
    requires Books(m) && i < |m.slots|
    requires s.awaiting == m.slots[i].awaiting && s.activePrompts == m.slots[i].activePrompts
    ensures Books(SetSlot(m, i, s))
  {
  }

  /** A slot change noted in the history by `e`, which is about slot `i` only. */
  lemma NotedBooks(m: Manager, i: nat, s: Slot, e: Entry)
    requires Books(m) && i < |m.slots| && !Unbooked(e) && !e.Forwarded? && e.slot == i
    requires s.awaiting == AwaitingPrompt(Then(m.history, e), i)
    requires s.activePrompts == PromptedSinceCrash(Then(m.history, e), i)
    ensures Books(Note(SetSlot(m, i, s), e))
  {
  }

  lemma HealBooks(m: Manager, i: nat, key: SessionKey, r: Replies)
    requires Books(m) && i < |m.slots|
    ensures Books(HealSession(m, i, key, r).0)
  {
    var (slot, how) := Heal(m.slots[i], key, r);
    if how.Reloaded? { NotedBooks(m, i, slot, Loaded(i, {how.id})); } else { SetSlotBooks(m, i, slot); }
  }

  lemma PromptLiveBooks(m: Manager, i: nat, key: SessionKey, r: Replies)
    requires Books(m) && i < |m.slots| && key in m.slots[i].sessionMap
    ensures Books(PromptLive(m, i, key, r).0)
  {
    var slot := m.slots[i];
    var id := slot.sessionMap[key];
    NotedBooks(m, i, slot.(awaiting := slot.awaiting - {id}), PromptReady(i, id));
    var m1 := Note(SetSlot(m, i, slot.(awaiting := slot.awaiting - {id})), PromptReady(i, id));
    if slot.connected && r.promptSent {
      var s1 := m1.slots[i].(activePrompts := m1.slots[i].activePrompts + {id});
      NotedBooks(m1.(outstanding := m1.outstanding + multiset{key}), i, s1, PromptSent(i, id));
      assert PromptLive(m, i, key, r).0
        == Note(SetSlot(m1.(outstanding := m1.outstanding + multiset{key}), i, s1), PromptSent(i, id));
    }
  }

  lemma ChunkBooks(m: Manager, key: SessionKey)
    requires Books(m)
    ensures Books(SyntheticChunk(m, key))
    ensures Books(SyntheticResponse(m, key))
    ensures Books(IdleIgnoringResult(SyntheticChunk(m, key), key))
  {
    NoteBooks(m, DispatchStarted(key));
    NoteBooks(Send(m, DispatchStarted(key)), Delivered(key, false));
    var m1 := SyntheticChunk(m, key);
    NoteBooks(m1, Delivered(key, true));
    NoteBooks(Send(m1, Delivered(key, true)), SessionComplete(key));
    var idle := m1.(queue := AfterMarkIdle(m1.queue, key));
    var taken := MarkIdleResult(m1.queue, key);
    if taken.Some? { NoteBooks(idle, Discarded(key, [taken.value])); }
  }

  lemma CommandBooks(m: Manager, cmd: PlatformCommand, i: nat, key: SessionKey, r: Replies)
    requires Books(m) && i < |m.slots|
    ensures Books(HandlePlatformCommand(m, cmd, i, key, r).0)
  {
    NoteBooks(m, CommandRun(key));
    var m1 := Note(m, CommandRun(key));
    if cmd.New? {
      var s := Create(ForgetSession(m1.slots[i], key), key, r.create).0;
      SetSlotBooks(m1, i, s);
      ChunkBooks(SetSlot(m1, i, s), key);
    } else {
      ChunkBooks(m1, key);
    }
  }

  lemma PromptBooks(m: Manager, agent: string, key: SessionKey, batch: Payload, r: Replies)
    requires Books(m)
    ensures Books(PromptSession(m, agent, key, batch, r).0)
  {
    NoteBooks(m, Batch(key, batch));
    var m1 := Note(m, Batch(key, batch));
    var found := FindSlot(m1.slots, agent);
    if found.Some? {
      var i := found.value;
      if CommandOf(batch.content).Some? {
        CommandBooks(m1, CommandOf(batch.content).value, i, key, r);
      } else if key in m1.slots[i].sessionMap {
        PromptLiveBooks(m1, i, key, r);
      } else {
        HealBooks(m1, i, key, r);
        var (m2, healed) := HealSession(m1, i, key, r);
        if healed { PromptLiveBooks(m2, i, key, r); }
      }
    }
  }

  lemma HandOverBooks(m: Manager, agent: string, key: SessionKey, taken: seq<Payload>,
      meta: Option<MessageMetadata>, r: Replies)
    requires Books(m)
    ensures Books(HandOver(m, agent, key, taken, meta, r).0)
  {
    NoteBooks(m, HandedOver(key, taken));
    NoteBooks(Note(m, HandedOver(key, taken)), DispatchStarted(key));
    var m0 := Send(Note(m, HandedOver(key, taken)), DispatchStarted(key));
    PromptBooks(m0, agent, key, Payload(Flatten(taken), meta), r);
    var (m', ok) := PromptSession(m0, agent, key, Payload(Flatten(taken), meta), r);
    NoteBooks(m', if ok then Reached(key, taken) else Lost(key, taken));
  }

  lemma CrashBooks(m: Manager, i: nat, c: CrashOutcome)
    requires Books(m) && i < |m.slots|
    ensures Books(HandleCrash(m, i, c))
  {
    var down := m.slots[i].(connected := false);
    SetSlotBooks(m, i, down.(disabled := true));
    SetSlotBooks(m, i, down);
    if c.restart {
      var m0 := SetSlot(m, i, down);
      NoteBooks(m0, CrashNotices(i, Notified(down)));
      var told := Send(m0, CrashNotices(i, Notified(down)));
      NotedBooks(told, i, down.(activePrompts := {}), PromptsForgotten(i));
      var m1 := NotifyCrash(m0, i);
      if c.respawned {
        SetSlotBooks(m1, i, m1.slots[i].(connected := true, caps := c.caps));
        RestoreBooks(SetSlot(m1, i, m1.slots[i].(connected := true, caps := c.caps)), i, c.order, c.replies);
      }
    }
  }

  lemma RestoreBooks(m: Manager, i: nat, order: HashOrder, r: Replies)
    requires Books(m) && i < |m.slots|
    ensures Books(RestoreSlot(m, i, order, r))
  {
    var (slot, how) := Restore(m.slots[i], order, r);
    NotedBooks(m, i, slot.(awaiting := {}), ReplayWiped(i));
    if how.Reloaded? {
      var wiped := Note(SetSlot(m, i, slot.(awaiting := {})), ReplayWiped(i));
      NotedBooks(wiped, i, slot, Loaded(i, slot.sessionMap.Values));
      assert RestoreSlot(m, i, order, r) == Note(SetSlot(wiped, i, slot), Loaded(i, slot.sessionMap.Values));
    } else {
      assert slot.(awaiting := {}) == slot;
    }
  }

  lemma ForwardBooks(m: Manager, i: nat, id: AcpId, isResult: bool)
    requires Books(m) && i < |m.slots|
    ensures Books(ForwardUpdate(m, i, id, isResult))
  {
  }

  lemma IncomingBooks(m: Manager, msg: Incoming)
    requires Books(m)
    ensures Books(HandleIncoming(m, msg))
  {
    if msg.slot < |m.slots| {
      match msg
      case Update(i, id, isResult) => ForwardBooks(m, i, id, isResult);
      case Malformed(i, id) =>
        if id.Some? && id.value in m.slots[i].reverseMap {
          NoteBooks(m, Delivered(m.slots[i].reverseMap[id.value], true));
        }
      case Exited(i, c) => CrashBooks(m, i, c);
    }
  }

  lemma {:induction false} AllIncomingBooks(m: Manager, msgs: seq<Incoming>)
    requires Books(m)
    ensures Books(HandleAll(m, msgs))
  {
    if msgs != [] {
      AllIncomingBooks(m, msgs[..|msgs| - 1]);
      IncomingBooks(HandleAll(m, msgs[..|msgs| - 1]), msgs[|msgs| - 1]);
    }
  }

  lemma SettleBooks(m: Manager, c: Completion)
    requires Books(m)
    ensures Books(Settle(m, c))
  {
  }

  lemma WaitingBooks(m: Manager, key: SessionKey, r: Replies)
    requires Books(m)
    ensures Books(DispatchWaiting(m, key, r))
  {
    var waiting := Pending(m.queue, key);
    var idle := m.(queue := AfterMarkIdle(m.queue, key));
    var drained := idle.(queue := AfterDrain(idle.queue, key));
    NoteBooks(drained, Discarded(key, waiting));
    HandOverBooks(drained, OwnerName(m.slots, key), key, waiting, LastMetadata(waiting), r);
  }

  lemma CompletionBooks(m: Manager, c: Completion, msgs: seq<Incoming>, r: Replies)
    requires Books(m)
    ensures Books(HandleCompletion(m, c, msgs, r))
  {
    var m0 := m.(outstanding := m.outstanding - multiset{c.key});
    assert Books(m0);
    AllIncomingBooks(m0, msgs);
    var m1 := HandleAll(m0, msgs);
    SettleBooks(m1, c);
    var m2 := Settle(m1, c);
    NoteBooks(m2, Delivered(c.key, true));
    var m3 := if c.key in m1.streamed then m2 else Send(m2, Delivered(c.key, true));
    NoteBooks(m3, SessionComplete(c.key));
    WaitingBooks(Send(m3, SessionComplete(c.key)), c.key, r);
  }

  lemma EnqueueBooks(m: Manager, agent: string, key: SessionKey, p: Payload, r: Replies)
    requires Books(m)
    ensures Books(Enqueue(m, agent, key, p, r).0)
  {
    if CommandOf(p.content).Some? {
      var slot := FindSlot(m.slots, agent);
      if slot.Some? { CommandBooks(m, CommandOf(p.content).value, slot.value, key, r); }
    } else {
      var queued := Note(m.(queue := Append(m.queue, key, p)), Accepted(key, p));
      NoteBooks(m.(queue := Append(m.queue, key, p)), Accepted(key, p));
      HandOverBooks(queued.(queue := AfterFlush(queued.queue, key)), agent, key, Pending(queued.queue, key),
          FirstMetadata(Pending(queued.queue, key)), r);
    }
  }

  lemma StepBooks(m: Manager, e: Event)
    requires Books(m)
    ensures Books(Step(m, e))
  {
    match e
    case EnqueueMessage(agent, key, p, r) => EnqueueBooks(m, agent, key, p, r);
    case CreateSession(agent, key, r) =>
      var found := FindSlot(m.slots, agent);
      if found.Some? {
        HealBooks(m, found.value, key, r);
        SetSlotBooks(m, found.value, Create(m.slots[found.value], key, r.create).0);
      }
    case ForkSession(agent, key, r) =>
      var found := FindSlot(m.slots, agent);
      if found.Some? { SetSlotBooks(m, found.value, Fork(m.slots[found.value], key, r.fork).0); }
    case FromAgent(msg) => IncomingBooks(m, msg);
    case PromptDone(c, drained, r) => CompletionBooks(m, c, drained, r);
  }

  // ----- main results -----

  /** In every run each slot suppresses exactly the ids the history says were restored by
      session/load and since then neither prompted nor wiped, and none of their updates went out. */
  lemma {:induction false} ReplayIsSuppressed(m: Manager, events: seq<Event>)
    requires Started(m)
    ensures Books(Run(m, events))
  {
    if events == [] {
      forall j | 0 <= j < |m.slots| ensures Booked(m.slots[j], m.history, j) { assert Booted(m.slots[j]); }
    } else {
      ReplayIsSuppressed(m, events[..|events| - 1]);
      StepBooks(Run(m, events[..|events| - 1]), events[|events| - 1]);
    }
  }

  /** In every reachable state an update goes out exactly when its id is mapped back to a session
      and is not waiting for its first prompt after a session/load. */
  lemma ForwardedExactlyWhen(m: Manager, events: seq<Event>, i: nat, id: AcpId, isResult: bool)
    requires Started(m)
    requires i < |Run(m, events).slots|
    ensures var s := Run(m, events);
            var key := if id in s.slots[i].reverseMap then s.slots[i].reverseMap[id] else "";
            ForwardUpdate(s, i, id, isResult).history == Then(s.history, Forwarded(i, id, key, isResult))
            <==> s.attached && id in s.slots[i].reverseMap && id !in AwaitingPrompt(s.history, i)
  {
    ReplayIsSuppressed(m, events);
  }

  /** Prompting a session ends the suppression of its updates, even when the prompt is not sent. */
  lemma DeliveryResumes(m: Manager, i: nat, key: SessionKey, r: Replies, isResult: bool)
    requires i < |m.slots| && key in m.slots[i].sessionMap && m.attached
    requires m.slots[i].sessionMap[key] in m.slots[i].reverseMap
    ensures var m' := PromptLive(m, i, key, r).0;
            var id := m.slots[i].sessionMap[key];
            ForwardUpdate(m', i, id, isResult).history
            == Then(m'.history, Forwarded(i, id, m.slots[i].reverseMap[id], isResult))
  {
  }

  /** On a crash a live session is told exactly when its id was never prompted since the slot's
      previous crash; a prompt that is long over still silences the notice. */
  lemma CrashNoticeExactlyWhen(m: Manager, events: seq<Event>, i: nat, key: SessionKey)
    requires Started(m)
    requires i < |Run(m, events).slots| && key in Run(m, events).slots[i].sessionMap
    ensures var s := Run(m, events);
            key in Notified(s.slots[i]) <==> s.slots[i].sessionMap[key] !in PromptedSinceCrash(s.history, i)
  {
    ReplayIsSuppressed(m, events);
  }

  /** A message for an idle session the agent knows is prompted at once. */
  lemma FirstPrompt(m: Manager, i: nat, key: SessionKey, p: Payload, r: Replies)
    requires i < |m.slots| && FindSlot(m.slots, m.slots[i].name) == Some(i) && key in m.slots[i].sessionMap
    requires m.slots[i].connected && r.promptSent && CommandOf(p.content).None?
    requires key !in m.queue.active && Pending(m.queue, key) == []
    ensures var s, slot := Enqueue(m, m.slots[i].name, key, p, r).0, m.slots[i];
            var id := slot.sessionMap[key];
            && ViewOf(s, key) == After(ViewOf(m, key), Message(p, true))
            && s.slots == m.slots[i := slot.(awaiting := slot.awaiting - {id},
                                            activePrompts := slot.activePrompts + {id})]
  {
    MessageView(m, m.slots[i].name, key, p, r, key);
    var queued := Note(m.(queue := Append(m.queue, key, p)), Accepted(key, p));
    assert Pending(queued.queue, key) == [p];
    CoalescingIsPlain([p]);
  }

  /** The completion of a session's last prompt with nothing waiting leaves it idle, and every slot
      as it was. */
  lemma LastAnswer(m: Manager, key: SessionKey, r: Replies)
    requires Pending(m.queue, key) == []
    ensures var s := HandleCompletion(m, Completion(key, false), [], r);
            && s.slots == m.slots && s.queue == AfterMarkIdle(m.queue, key)
            && s.outstanding == m.outstanding - multiset{key} && key !in s.queue.active
  {
    var c := Completion(key, false);
    var m1 := m.(outstanding := m.outstanding - multiset{key});
    assert HandleAll(m1, []) == m1;
    var told := ReportCompletion(Settle(m1, c), key, key in m1.streamed);
    assert told.queue == m.queue && told.slots == m.slots && told.outstanding == m1.outstanding;
  }

  lemma AnsweredSlot(m: Manager, i: nat, key: SessionKey, p: Payload, r: Replies)
    requires i < |m.slots| && FindSlot(m.slots, m.slots[i].name) == Some(i) && key in m.slots[i].sessionMap
    requires m.slots[i].connected && r.promptSent && CommandOf(p.content).None?
    requires key !in m.queue.active && Pending(m.queue, key) == [] && m.outstanding[key] == 0
    ensures var m1 := Enqueue(m, m.slots[i].name, key, p, r).0;
            var s := HandleCompletion(m1, Completion(key, false), [], r);
            && key in m1.outstanding && i < |s.slots| && key in s.slots[i].sessionMap
            && s.outstanding[key] == 0 && key !in s.queue.active && key !in Notified(s.slots[i])
  {
    FirstPrompt(m, i, key, p, r);
    var m1 := Enqueue(m, m.slots[i].name, key, p, r).0;
    assert ViewOf(m1, key).running == 1 && ViewOf(m1, key).waiting == [];
    LastAnswer(m1, key, r);
  }

  /** A session that is idle, is prompted and is answered would get no notice if its agent crashed
      then. */
  lemma AnsweredSessionIsSkipped(m: Manager, i: nat, key: SessionKey, p: Payload, r: Replies)
    requires i < |m.slots| && FindSlot(m.slots, m.slots[i].name) == Some(i) && key in m.slots[i].sessionMap
    requires m.slots[i].connected && r.promptSent && CommandOf(p.content).None?
    requires key !in m.queue.active && Pending(m.queue, key) == [] && m.outstanding[key] == 0
    ensures var hello := EnqueueMessage(m.slots[i].name, key, p, r);
            var s := Step(Step(m, hello), PromptDone(Completion(key, false), [], r));
            && i < |s.slots| && key in s.slots[i].sessionMap
            && s.outstanding[key] == 0 && key !in s.queue.active && key !in Notified(s.slots[i])
  {
    AnsweredSlot(m, i, key, p, r);
    var m1 := Enqueue(m, m.slots[i].name, key, p, r).0;
    assert Step(m, EnqueueMessage(m.slots[i].name, key, p, r)) == m1;
    StepDone(m1, Completion(key, false), r);
  }

  lemma StepDone(m: Manager, c: Completion, r: Replies)
    requires c.key in m.outstanding
    ensures Step(m, PromptDone(c, [], r)) == HandleCompletion(m, c, [], r)
  {
  }

  /** The notice is meant for sessions without a running prompt. Yet from every reachable state, a
      session that is idle, is prompted and is answered is skipped when its agent crashes then. */
  lemma IdleSessionMissesNotice(m: Manager, before: seq<Event>, i: nat, key: SessionKey, p: Payload, r: Replies)
    requires Started(m)
    requires var s := Run(m, before);
             && i < |s.slots| && FindSlot(s.slots, s.slots[i].name) == Some(i) && key in s.slots[i].sessionMap
             && s.slots[i].connected && key !in s.queue.active && s.outstanding[key] == 0
    requires r.promptSent && CommandOf(p.content).None?
    ensures var hello := EnqueueMessage(Run(m, before).slots[i].name, key, p, r);
            var s := Run(m, before + [hello] + [PromptDone(Completion(key, false), [], r)]);
            && i < |s.slots| && key in s.slots[i].sessionMap
            && s.outstanding[key] == 0 && key !in s.queue.active
            && key !in Notified(s.slots[i])
  {
    var s := Run(m, before);
    ProtocolHolds(m, before, key);
    AnsweredSessionIsSkipped(s, i, key, p, r);
    var hello := EnqueueMessage(s.slots[i].name, key, p, r);
    RunSnoc(m, before, hello);
    RunSnoc(m, before + [hello], PromptDone(Completion(key, false), [], r));
  }
}
