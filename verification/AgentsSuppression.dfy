/** Replay suppression over whole runs, from the agent's answer to a session/load on: nothing is
    forwarded for a loaded session before it is prompted or its agent crashes. */
module AgentsSuppression {
  import opened Options
  import opened Messages
  import opened PlatformCommands
  import opened SessionQueues
  import opened Histories
  import opened AgentSlots
  import opened Agents
  import opened AgentsFates
  import opened AgentsReplay
  import opened AgentsSignals
  import opened AgentsOutcomes

  predicate SessionIs(slots: seq<Slot>, i: nat, k: SessionKey, id: AcpId) {
    i < |slots| && k in slots[i].sessionMap && slots[i].sessionMap[k] == id
  }

  predicate ExitsIn(msgs: seq<Incoming>, i: nat) {
    exists j :: 0 <= j < |msgs| && msgs[j].Exited? && msgs[j].slot == i
  }

  /** Whether the step may end the suppression of `id` in slot `i`: the slot crashes, or a session is
      prompted that the step leaves with this id. */
  predicate MayRelease(m: Manager, e: Event, i: nat, id: AcpId) {
    match e
    case EnqueueMessage(_, k, _, _) => SessionIs(Step(m, e).slots, i, k, id)
    case PromptDone(c, drained, _) => ExitsIn(drained, i) || SessionIs(Step(m, e).slots, i, c.key, id)
    case FromAgent(msg) => msg.Exited? && msg.slot == i
    case _ => false
  }

  /** No step of `later` does, from `m` on. */
  predicate Unreleased(m: Manager, later: seq<Event>, i: nat, id: AcpId) {
    forall n :: 0 <= n < |later| ==> !MayRelease(Run(m, later[..n]), later[n], i, id)
  }

  /** How often the log ends the suppression of `id`. */
  function Releases(h: History, i: nat, id: AcpId): nat {
    if h.Start? then 0
    else Releases(h.past, i, id) + if h.last == PromptReady(i, id) || h.last == ReplayWiped(i) then 1 else 0
  }

  lemma LiveReleases(m: Manager, j: nat, k: SessionKey, r: Replies, i: nat, id: AcpId)
    requires j < |m.slots| && k in m.slots[j].sessionMap
    requires !SessionIs(PromptLive(m, j, k, r).0.slots, i, k, id)
    ensures Releases(PromptLive(m, j, k, r).0.history, i, id) == Releases(m.history, i, id)
  {
    var ready := Then(m.history, PromptReady(j, m.slots[j].sessionMap[k]));
    assert Releases(ready, i, id) == Releases(m.history, i, id);
  }

  lemma CommandReleases(m: Manager, cmd: PlatformCommand, j: nat, k: SessionKey, r: Replies, i: nat, id: AcpId)
    requires j < |m.slots|
    ensures Releases(HandlePlatformCommand(m, cmd, j, k, r).0.history, i, id) == Releases(m.history, i, id)
  {
    SyntheticReleases(m, k, i, id);
    SyntheticReleases(Note(m, CommandRun(k)), k, i, id);
    var slot := Create(ForgetSession(m.slots[j], k), k, r.create).0;
    SyntheticReleases(SetSlot(Note(m, CommandRun(k)), j, slot), k, i, id);
  }

  lemma SyntheticReleases(m: Manager, k: SessionKey, i: nat, id: AcpId)
    ensures Releases(SyntheticChunk(m, k).history, i, id) == Releases(m.history, i, id)
    ensures Releases(SyntheticResponse(m, k).history, i, id) == Releases(m.history, i, id)
  {
    var m1 := Send(m, DispatchStarted(k));
    var m2 := Send(m1, Delivered(k, false));
    assert Releases(m2.history, i, id) == Releases(m1.history, i, id);
    assert Releases(Send(m2, Delivered(k, true)).history, i, id) == Releases(m2.history, i, id);
  }

  lemma PromptReleases(m: Manager, agent: string, k: SessionKey, batch: Payload, r: Replies, i: nat, id: AcpId)
    requires !SessionIs(PromptSession(m, agent, k, batch, r).0.slots, i, k, id)
    ensures Releases(PromptSession(m, agent, k, batch, r).0.history, i, id) == Releases(m.history, i, id)
  {
    var m1 := Note(m, Batch(k, batch));
    assert Releases(m1.history, i, id) == Releases(m.history, i, id);
    var found, command := FindSlot(m1.slots, agent), CommandOf(batch.content);
    if found.Some? && command.Some? {
      CommandReleases(m1, command.value, found.value, k, r, i, id);
    } else if found.Some? && k !in m1.slots[found.value].sessionMap {
      var (m2, healed) := HealSession(m1, found.value, k, r);
      assert Releases(m2.history, i, id) == Releases(m1.history, i, id);
      if healed { LiveReleases(m2, found.value, k, r, i, id); }
    } else if found.Some? {
      LiveReleases(m1, found.value, k, r, i, id);
    }
  }

  lemma HandOverReleases(m: Manager, agent: string, k: SessionKey, taken: seq<Payload>,
      meta: Option<MessageMetadata>, r: Replies, i: nat, id: AcpId)
    requires !SessionIs(HandOver(m, agent, k, taken, meta, r).0.slots, i, k, id)
    ensures Releases(HandOver(m, agent, k, taken, meta, r).0.history, i, id) == Releases(m.history, i, id)
  {
    var noted := Note(m, HandedOver(k, taken));
    var announced := Send(noted, DispatchStarted(k));
    assert Releases(announced.history, i, id) == Releases(noted.history, i, id) == Releases(m.history, i, id);
    PromptReleases(announced, agent, k, Payload(Flatten(taken), meta), r, i, id);
  }

  lemma CrashReleases(m: Manager, j: nat, c: CrashOutcome, i: nat, id: AcpId)
    requires j < |m.slots| && j != i
    ensures Releases(HandleCrash(m, j, c).history, i, id) == Releases(m.history, i, id)
  {
    if c.restart {
      var down := SetSlot(m, j, m.slots[j].(connected := false));
      var told := Send(down, CrashNotices(j, Notified(down.slots[j])));
      var m1 := NotifyCrash(down, j);
      assert Releases(m1.history, i, id) == Releases(told.history, i, id) == Releases(m.history, i, id);
      if c.respawned {
        var up := SetSlot(m1, j, m1.slots[j].(connected := true, caps := c.caps));
        assert Releases(RestoreSlot(up, j, c.order, c.replies).history, i, id) == Releases(up.history, i, id);
      }
    }
  }

  lemma IncomingReleases(m: Manager, msg: Incoming, i: nat, id: AcpId)
    requires !(msg.Exited? && msg.slot == i)
    ensures Releases(HandleIncoming(m, msg).history, i, id) == Releases(m.history, i, id)
  {
    if msg.Exited? && msg.slot < |m.slots| { CrashReleases(m, msg.slot, msg.outcome, i, id); }
  }

  lemma {:induction false} DrainReleases(m: Manager, msgs: seq<Incoming>, i: nat, id: AcpId)
    requires !ExitsIn(msgs, i)
    ensures Releases(HandleAll(m, msgs).history, i, id) == Releases(m.history, i, id)
  {
    if msgs != [] {
      var init := msgs[..|msgs| - 1];
      assert forall j :: 0 <= j < |init| ==> init[j] == msgs[j];
      DrainReleases(m, init, i, id);
      IncomingReleases(HandleAll(m, init), msgs[|msgs| - 1], i, id);
    }
  }

  lemma WaitingReleases(m: Manager, k: SessionKey, r: Replies, i: nat, id: AcpId)
    requires !SessionIs(DispatchWaiting(m, k, r).slots, i, k, id)
    ensures Releases(DispatchWaiting(m, k, r).history, i, id) == Releases(m.history, i, id)
  {
    var agent, waiting := OwnerName(m.slots, k), Pending(m.queue, k);
    if waiting != [] && agent != "" {
      var idle := m.(queue := AfterMarkIdle(m.queue, k));
      var taken := idle.(queue := AfterDrain(idle.queue, k));
      HandOverReleases(taken, agent, k, waiting, LastMetadata(waiting), r, i, id);
    }
  }

  lemma ReportReleases(m: Manager, c: Completion, gotResult: bool, i: nat, id: AcpId)
    ensures Releases(ReportCompletion(Settle(m, c), c.key, gotResult).history, i, id) == Releases(m.history, i, id)
  {
    var settled := Settle(m, c);
    assert settled.history == Then(m.history, Answered(c.key));
    var told := if gotResult then settled else Send(settled, Delivered(c.key, true));
    assert Releases(told.history, i, id) == Releases(settled.history, i, id) == Releases(m.history, i, id);
  }

  lemma CompletionReleases(m: Manager, c: Completion, drained: seq<Incoming>, r: Replies, i: nat, id: AcpId)
    requires !ExitsIn(drained, i) && !SessionIs(HandleCompletion(m, c, drained, r).slots, i, c.key, id)
    ensures Releases(HandleCompletion(m, c, drained, r).history, i, id) == Releases(m.history, i, id)
  {
    var m1 := HandleAll(m.(outstanding := m.outstanding - multiset{c.key}), drained);
    DrainReleases(m.(outstanding := m.outstanding - multiset{c.key}), drained, i, id);
    ReportReleases(m1, c, c.key in m1.streamed, i, id);
    WaitingReleases(Reported(m, c, drained), c.key, r, i, id);
  }

  lemma EnqueueReleases(m: Manager, agent: string, k: SessionKey, p: Payload, r: Replies, i: nat, id: AcpId)
    requires !SessionIs(Enqueue(m, agent, k, p, r).0.slots, i, k, id)
    ensures Releases(Enqueue(m, agent, k, p, r).0.history, i, id) == Releases(m.history, i, id)
  {
    var command, found := CommandOf(p.content), FindSlot(m.slots, agent);
    if command.Some? {
      if found.Some? { CommandReleases(m, command.value, found.value, k, r, i, id); }
    } else {
      var queued := Note(m.(queue := Append(m.queue, k, p)), Accepted(k, p));
      assert Releases(queued.history, i, id) == Releases(m.history, i, id);
      if k !in m.queue.active {
        var flushed, waiting := queued.(queue := AfterFlush(queued.queue, k)), Pending(queued.queue, k);
        HandOverReleases(flushed, agent, k, waiting, FirstMetadata(waiting), r, i, id);
      }
    }
  }

  lemma StepReleases(m: Manager, e: Event, i: nat, id: AcpId)
    requires !MayRelease(m, e, i, id)
    ensures Releases(Step(m, e).history, i, id) == Releases(m.history, i, id)
  {
    match e
    case EnqueueMessage(agent, k, p, r) => EnqueueReleases(m, agent, k, p, r, i, id);
    case CreateSession(_, _, _) =>
    case ForkSession(_, _, _) =>
    case FromAgent(msg) => IncomingReleases(m, msg, i, id);
    case PromptDone(c, drained, r) =>
      if c.key in m.outstanding { CompletionReleases(m, c, drained, r, i, id); }
  }

  lemma {:induction false} RunReleases(m: Manager, later: seq<Event>, i: nat, id: AcpId)
    requires Unreleased(m, later, i, id)
    ensures Releases(Run(m, later).history, i, id) == Releases(m.history, i, id)
  {
    if later != [] {
      var init := later[..|later| - 1];
      assert forall n :: 0 <= n < |init| ==> init[n] == later[n] && init[..n] == later[..n];
      RunReleases(m, init, i, id);
      StepReleases(Run(m, init), later[|later| - 1], i, id);
    }
  }

  lemma {:induction false} ReleasesGrow(a: History, b: History, i: nat, id: AcpId)
    requires Extends(a, b)
    ensures Releases(a, i, id) <= Releases(b, i, id)
  {
    if a != b { ReleasesGrow(a, b.past, i, id); }
  }

  lemma {:induction false} StaysSuppressed(a: History, b: History, i: nat, id: AcpId)
    requires Extends(a, b) && NoReplayForwarded(b) && id in AwaitingPrompt(a, i)
    requires Releases(b, i, id) == Releases(a, i, id)
    ensures id in AwaitingPrompt(b, i) && Forwards(b, i, id) == Forwards(a, i, id)
  {
    if a != b {
      ReleasesGrow(a, b.past, i, id);
      StaysSuppressed(a, b.past, i, id);
    }
  }

  lemma {:induction false} RunExtends(m: Manager, before: seq<Event>, later: seq<Event>)
    requires Started(m)
    ensures Extends(Run(m, before).history, Run(m, before + later).history)
  {
    if later == [] {
      assert before + later == before;
    } else {
      var init, e := later[..|later| - 1], later[|later| - 1];
      assert before + later == before + init + [e];
      RunExtends(m, before, init);
      SignalsExactly(m, before + init, e, "");
      ExtendsFurther(Run(m, before).history, Run(m, before + init).history, Run(m, before + later).history);
    }
  }

  /** Updates for an id that a reachable state suppresses are not forwarded, over every run, until a
      session is prompted under it or the slot crashes. */
  lemma SuppressedUntilReleased(m: Manager, before: seq<Event>, later: seq<Event>, i: nat, id: AcpId)
    requires Started(m) && Unreleased(Run(m, before), later, i, id)
    requires i < |Run(m, before).slots| && id in Run(m, before).slots[i].awaiting
    ensures Forwards(Run(m, before + later).history, i, id) == Forwards(Run(m, before).history, i, id)
  {
    ReplayIsSuppressed(m, before);
    ReplayIsSuppressed(m, before + later);
    RunExtends(m, before, later);
    RunConcat(m, before, later);
    RunReleases(Run(m, before), later, i, id);
    StaysSuppressed(Run(m, before).history, Run(m, before + later).history, i, id);
  }

  /** After a CreateSession answered by a session/load, no update for the loaded id is forwarded, over
      every run, until the id is prompted or the slot crashes. */
  lemma LoadSuppresses(m: Manager, before: seq<Event>, agent: string, i: nat, k: SessionKey, r: Replies, id: AcpId,
      later: seq<Event>)
    requires Started(m)
    requires var s := Run(m, before);
             && FindSlot(s.slots, agent) == Some(i) && k in s.slots[i].stale && s.slots[i].connected
             && !s.slots[i].caps.resume && s.slots[i].caps.load && r.load == Some(id)
    requires Unreleased(Run(m, before + [CreateSession(agent, k, r)]), later, i, id)
    ensures var loaded := before + [CreateSession(agent, k, r)];
            Forwards(Run(m, loaded + later).history, i, id) == Forwards(Run(m, loaded).history, i, id)
  {
    RunSnoc(m, before, CreateSession(agent, k, r));
    LoadedOutcome(Run(m, before), agent, i, k, r, id);
    SuppressedUntilReleased(m, before + [CreateSession(agent, k, r)], later, i, id);
  }

  /** After a crash that was answered by a session/load, none is forwarded for any restored session. */
  lemma CrashLoadSuppresses(m: Manager, before: seq<Event>, i: nat, c: CrashOutcome, id: AcpId, later: seq<Event>)
    requires Started(m)
    requires var s := Run(m, before);
             && i < |s.slots| && !s.slots[i].disabled && s.slots[i].stale + s.slots[i].sessionMap != map[]
             && c.restart && c.respawned && !c.caps.resume && c.caps.load && c.replies.load.Some?
    requires var s := Run(m, before + [FromAgent(Exited(i, c))]);
             i < |s.slots| && id in s.slots[i].sessionMap.Values && Unreleased(s, later, i, id)
    ensures var loaded := before + [FromAgent(Exited(i, c))];
            Forwards(Run(m, loaded + later).history, i, id) == Forwards(Run(m, loaded).history, i, id)
  {
    RunSnoc(m, before, FromAgent(Exited(i, c)));
    CrashOutcomeIs(Run(m, before), i, c);
    SuppressedUntilReleased(m, before + [FromAgent(Exited(i, c))], later, i, id);
  }
}
