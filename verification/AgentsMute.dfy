/** A session that came back from a crash under an id nobody has indexed stays silent: over whole
    runs no update for that id is forwarded until an agent's answer brings the id up again. */
module AgentsMute {
  import opened Options
  import opened Messages
  import opened PlatformCommands
  import opened SessionQueues
  import opened Histories
  import opened AgentSlots
  import opened Agents

  predicate Names(r: Replies, id: AcpId) {
    r.resume == Some(id) || r.load == Some(id) || r.create == Some(id) || r.fork == Some(id)
  }

  predicate NamedIn(msg: Incoming, id: AcpId) { msg.Exited? && Names(msg.outcome.replies, id) }

  /** An answer given by an agent during the step names `id`. */
  predicate NamedBy(e: Event, id: AcpId) {
    match e
    case FromAgent(msg) => NamedIn(msg, id)
    case PromptDone(_, drained, r) => Names(r, id) || exists j :: 0 <= j < |drained| && NamedIn(drained[j], id)
    case _ => Names(e.replies, id)
  }

  /** Not indexed stays not indexed, and nothing is forwarded meanwhile. */
  predicate StaysMute(m: Manager, m': Manager, i: nat, id: AcpId) {
    && |m'.slots| == |m.slots|
    && (i < |m.slots| && id !in m.slots[i].reverseMap ==>
          id !in m'.slots[i].reverseMap && Forwards(m'.history, i, id) == Forwards(m.history, i, id))
  }

  lemma NoteMute(m: Manager, e: Entry, i: nat, id: AcpId)
    requires !e.Forwarded?
    ensures StaysMute(m, Note(m, e), i, id) && StaysMute(m, Send(m, e), i, id)
  {
  }

  lemma SetMute(m: Manager, j: nat, s: Slot, i: nat, id: AcpId)
    requires j < |m.slots| && (id in s.reverseMap ==> id in m.slots[j].reverseMap)
    ensures StaysMute(m, SetSlot(m, j, s), i, id)
  {
  }

  /** No operation on a slot indexes an id that the agent's answers do not name. */
  lemma SlotMute(s: Slot, key: SessionKey, order: HashOrder, r: Replies, id: AcpId)
    requires !Names(r, id) && id !in s.reverseMap
    ensures id !in Heal(s, key, r).0.reverseMap && id !in Create(s, key, r.create).0.reverseMap
    ensures id !in Create(ForgetSession(s, key), key, r.create).0.reverseMap
    ensures id !in Fork(s, key, r.fork).0.reverseMap && id !in Restore(s, order, r).0.reverseMap
  {
  }

  lemma HealMute(m: Manager, j: nat, key: SessionKey, r: Replies, i: nat, id: AcpId)
    requires j < |m.slots| && !Names(r, id)
    ensures StaysMute(m, HealSession(m, j, key, r).0, i, id)
  {
    var (s, how) := Heal(m.slots[j], key, r);
    if id !in m.slots[j].reverseMap { SlotMute(m.slots[j], key, SomeKey, r, id); }
    SetMute(m, j, s, i, id);
    if how.Reloaded? { NoteMute(SetSlot(m, j, s), Loaded(j, {how.id}), i, id); }
  }

  lemma PromptLiveMute(m: Manager, j: nat, key: SessionKey, r: Replies, i: nat, id: AcpId)
    requires j < |m.slots| && key in m.slots[j].sessionMap
    ensures StaysMute(m, PromptLive(m, j, key, r).0, i, id)
  {
    var sid := m.slots[j].sessionMap[key];
    var m1 := SetSlot(m, j, m.slots[j].(awaiting := m.slots[j].awaiting - {sid}));
    NoteMute(m1, PromptReady(j, sid), i, id);
  }

  lemma ChunkMute(m: Manager, key: SessionKey, i: nat, id: AcpId)
    ensures StaysMute(m, SyntheticChunk(m, key), i, id)
    ensures StaysMute(m, SyntheticResponse(m, key), i, id)
    ensures StaysMute(m, IdleIgnoringResult(SyntheticChunk(m, key), key), i, id)
  {
    NoteMute(m, DispatchStarted(key), i, id);
    NoteMute(Send(m, DispatchStarted(key)), Delivered(key, false), i, id);
    var m1 := SyntheticChunk(m, key);
    NoteMute(m1, Delivered(key, true), i, id);
    NoteMute(Send(m1, Delivered(key, true)), SessionComplete(key), i, id);
  }

  lemma CommandMute(m: Manager, cmd: PlatformCommand, j: nat, key: SessionKey, r: Replies, i: nat, id: AcpId)
    requires j < |m.slots| && !Names(r, id)
    ensures StaysMute(m, HandlePlatformCommand(m, cmd, j, key, r).0, i, id)
  {
    NoteMute(m, CommandRun(key), i, id);
    var m1 := Note(m, CommandRun(key));
    if cmd.New? {
      var s := Create(ForgetSession(m.slots[j], key), key, r.create).0;
      if id !in m.slots[j].reverseMap { SlotMute(m.slots[j], key, SomeKey, r, id); }
      SetMute(m1, j, s, i, id);
      ChunkMute(SetSlot(m1, j, s), key, i, id);
    } else {
      ChunkMute(m1, key, i, id);
    }
  }

  lemma PromptMute(m: Manager, agent: string, key: SessionKey, batch: Payload, r: Replies, i: nat, id: AcpId)
    requires !Names(r, id)
    ensures StaysMute(m, PromptSession(m, agent, key, batch, r).0, i, id)
  {
    NoteMute(m, Batch(key, batch), i, id);
    var m1 := Note(m, Batch(key, batch));
    var found := FindSlot(m1.slots, agent);
    if found.Some? {
      var j := found.value;
      if CommandOf(batch.content).Some? {
        CommandMute(m1, CommandOf(batch.content).value, j, key, r, i, id);
      } else if key in m1.slots[j].sessionMap {
        PromptLiveMute(m1, j, key, r, i, id);
      } else {
        HealMute(m1, j, key, r, i, id);
        var (m2, healed) := HealSession(m1, j, key, r);
        if healed { PromptLiveMute(m2, j, key, r, i, id); }
      }
    }
  }

  lemma HandOverMute(m: Manager, agent: string, key: SessionKey, taken: seq<Payload>,
      meta: Option<MessageMetadata>, r: Replies, i: nat, id: AcpId)
    requires !Names(r, id)
    ensures StaysMute(m, HandOver(m, agent, key, taken, meta, r).0, i, id)
  {
    NoteMute(m, HandedOver(key, taken), i, id);
    NoteMute(Note(m, HandedOver(key, taken)), DispatchStarted(key), i, id);
    var m0 := Send(Note(m, HandedOver(key, taken)), DispatchStarted(key));
    PromptMute(m0, agent, key, Payload(Flatten(taken), meta), r, i, id);
    var (m', ok) := PromptSession(m0, agent, key, Payload(Flatten(taken), meta), r);
    NoteMute(m', if ok then Reached(key, taken) else Lost(key, taken), i, id);
  }

  lemma CrashMute(m: Manager, j: nat, c: CrashOutcome, i: nat, id: AcpId)
    requires j < |m.slots| && !Names(c.replies, id)
    ensures StaysMute(m, HandleCrash(m, j, c), i, id)
  {
    var down := m.slots[j].(connected := false);
    var m0 := SetSlot(m, j, down);
    if c.restart {
      NoteMute(m0, CrashNotices(j, Notified(down)), i, id);
      var told := Send(m0, CrashNotices(j, Notified(down)));
      NoteMute(SetSlot(told, j, down.(activePrompts := {})), PromptsForgotten(j), i, id);
      var m1 := NotifyCrash(m0, j);
      assert StaysMute(m, m1, i, id);
      if c.respawned {
        var s := m1.slots[j].(connected := true, caps := c.caps);
        RestoreMute(SetSlot(m1, j, s), j, c.order, c.replies, i, id);
      }
    }
  }

  lemma RestoreMute(m: Manager, j: nat, order: HashOrder, r: Replies, i: nat, id: AcpId)
    requires j < |m.slots| && !Names(r, id)
    ensures StaysMute(m, RestoreSlot(m, j, order, r), i, id)
  {
    var (s, how) := Restore(m.slots[j], order, r);
    if id !in m.slots[j].reverseMap { SlotMute(m.slots[j], "", order, r, id); }
    SetMute(m, j, s, i, id);
    NoteMute(SetSlot(m, j, s), ReplayWiped(j), i, id);
    NoteMute(Note(SetSlot(m, j, s), ReplayWiped(j)), Loaded(j, s.sessionMap.Values), i, id);
  }

  lemma IncomingMute(m: Manager, msg: Incoming, i: nat, id: AcpId)
    requires !NamedIn(msg, id)
    ensures StaysMute(m, HandleIncoming(m, msg), i, id)
  {
    if msg.Exited? && msg.slot < |m.slots| { CrashMute(m, msg.slot, msg.outcome, i, id); }
  }

  lemma {:induction false} AllIncomingMute(m: Manager, msgs: seq<Incoming>, i: nat, id: AcpId)
    requires forall j :: 0 <= j < |msgs| ==> !NamedIn(msgs[j], id)
    ensures StaysMute(m, HandleAll(m, msgs), i, id)
  {
    if msgs != [] {
      AllIncomingMute(m, msgs[..|msgs| - 1], i, id);
      IncomingMute(HandleAll(m, msgs[..|msgs| - 1]), msgs[|msgs| - 1], i, id);
    }
  }

  lemma WaitingMute(m: Manager, key: SessionKey, r: Replies, i: nat, id: AcpId)
    requires !Names(r, id)
    ensures StaysMute(m, DispatchWaiting(m, key, r), i, id)
  {
    var waiting := Pending(m.queue, key);
    var idle := m.(queue := AfterMarkIdle(m.queue, key));
    var drained := idle.(queue := AfterDrain(idle.queue, key));
    NoteMute(drained, Discarded(key, waiting), i, id);
    HandOverMute(drained, OwnerName(m.slots, key), key, waiting, LastMetadata(waiting), r, i, id);
  }

  lemma CompletionMute(m: Manager, c: Completion, drained: seq<Incoming>, r: Replies, i: nat, id: AcpId)
    requires !NamedBy(PromptDone(c, drained, r), id)
    ensures StaysMute(m, HandleCompletion(m, c, drained, r), i, id)
  {
    var m0 := m.(outstanding := m.outstanding - multiset{c.key});
    AllIncomingMute(m0, drained, i, id);
    var m1 := HandleAll(m0, drained);
    var m2 := Settle(m1, c);
    assert StaysMute(m1, m2, i, id);
    NoteMute(m2, Delivered(c.key, true), i, id);
    var m3 := if c.key in m1.streamed then m2 else Send(m2, Delivered(c.key, true));
    NoteMute(m3, SessionComplete(c.key), i, id);
    WaitingMute(Send(m3, SessionComplete(c.key)), c.key, r, i, id);
  }

  lemma EnqueueMute(m: Manager, agent: string, key: SessionKey, p: Payload, r: Replies, i: nat, id: AcpId)
    requires !Names(r, id)
    ensures StaysMute(m, Enqueue(m, agent, key, p, r).0, i, id)
  {
    if CommandOf(p.content).Some? {
      var found := FindSlot(m.slots, agent);
      if found.Some? { CommandMute(m, CommandOf(p.content).value, found.value, key, r, i, id); }
    } else {
      var queued := Note(m.(queue := Append(m.queue, key, p)), Accepted(key, p));
      NoteMute(m.(queue := Append(m.queue, key, p)), Accepted(key, p), i, id);
      var waiting := Pending(queued.queue, key);
      var flushed := queued.(queue := AfterFlush(queued.queue, key));
      HandOverMute(flushed, agent, key, waiting, FirstMetadata(waiting), r, i, id);
    }
  }

  lemma StepMute(m: Manager, e: Event, i: nat, id: AcpId)
    requires !NamedBy(e, id)
    ensures StaysMute(m, Step(m, e), i, id)
  {
    match e
    case EnqueueMessage(agent, key, p, r) => EnqueueMute(m, agent, key, p, r, i, id);
    case CreateSession(agent, key, r) =>
      var found := FindSlot(m.slots, agent);
      if found.Some? {
        var j := found.value;
        HealMute(m, j, key, r, i, id);
        if id !in m.slots[j].reverseMap { SlotMute(m.slots[j], key, SomeKey, r, id); }
        SetMute(m, j, Create(m.slots[j], key, r.create).0, i, id);
      }
    case ForkSession(agent, key, r) =>
      var found := FindSlot(m.slots, agent);
      if found.Some? {
        var j := found.value;
        if id !in m.slots[j].reverseMap { SlotMute(m.slots[j], key, SomeKey, r, id); }
        SetMute(m, j, Fork(m.slots[j], key, r.fork).0, i, id);
      }
    case FromAgent(msg) => IncomingMute(m, msg, i, id);
    case PromptDone(c, drained, r) => CompletionMute(m, c, drained, r, i, id);
  }

  lemma {:induction false} RunMute(m: Manager, events: seq<Event>, i: nat, id: AcpId)
    requires forall j :: 0 <= j < |events| ==> !NamedBy(events[j], id)
    ensures StaysMute(m, Run(m, events), i, id)
  {
    if events != [] {
      RunMute(m, events[..|events| - 1], i, id);
      StepMute(Run(m, events[..|events| - 1]), events[|events| - 1], i, id);
    }
  }

  lemma RestoredIsLive(s: Slot, order: HashOrder, r: Replies)
    requires RestoreReply(s, r).Some?
    ensures var live := Restore(s, order, r).0.sessionMap;
            exists k :: k in live && live[k] == RestoreReply(s, r).value
    ensures Restore(s, order, r).0.reverseMap == s.reverseMap
  {
    assert Merged(s).Keys != {};
    var asked := order(Merged(s).Keys);
    assert Restore(s, order, r).0.sessionMap[asked] == RestoreReply(s, r).value;
  }

  lemma RestoreForwardsNothing(m: Manager, i: nat, order: HashOrder, r: Replies, id: AcpId)
    requires i < |m.slots|
    ensures Forwards(RestoreSlot(m, i, order, r).history, i, id) == Forwards(m.history, i, id)
    ensures RestoreSlot(m, i, order, r).slots == m.slots[i := Restore(m.slots[i], order, r).0]
  {
  }

  /** When the agent restores a session under an id the reverse index does not know, the session
      asked about is live under that id; but from then on, whatever happens, no update for the id
      is forwarded until some agent names it in an answer again. */
  lemma RestoredUnderNewIdIsMute(m: Manager, i: nat, order: HashOrder, r: Replies, events: seq<Event>)
    requires i < |m.slots| && RestoreReply(m.slots[i], r).Some?
    requires RestoreReply(m.slots[i], r).value !in m.slots[i].reverseMap
    requires forall j :: 0 <= j < |events| ==> !NamedBy(events[j], RestoreReply(m.slots[i], r).value)
    ensures var restored := RestoreSlot(m, i, order, r);
            var id := RestoreReply(m.slots[i], r).value;
            && (exists k :: k in restored.slots[i].sessionMap && restored.slots[i].sessionMap[k] == id)
            && Forwards(Run(restored, events).history, i, id) == Forwards(m.history, i, id)
  {
    var id := RestoreReply(m.slots[i], r).value;
    RestoredIsLive(m.slots[i], order, r);
    RestoreForwardsNothing(m, i, order, r, id);
    RunMute(RestoreSlot(m, i, order, r), events, i, id);
  }
}
