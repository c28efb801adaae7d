/** Exactly when an agent's slot forgets a session, so that it is neither live nor open to recovery. */
module AgentsForgetting {
  import opened Options
  import opened Messages
  import opened PlatformCommands
  import opened SessionQueues
  import opened Histories
  import opened AgentSlots
  import opened Agents
  import opened AgentsProtocol
  import opened AgentsFates
  import opened AgentsIndex

  /** A heal gives up the stale id before it has another one, and keeps it only when it fails at once
      for want of a connection to ask over. */
  predicate HealLoses(s: Slot, key: SessionKey, r: Replies) {
    && key in s.stale && key !in s.sessionMap
    && !(s.connected && Healed(s, key, r))
    && (s.connected || !(s.caps.resume || s.caps.load))
  }

  lemma HealForgetsIff(s: Slot, key: SessionKey, r: Replies)
    ensures Known(s, key) && !Known(Heal(s, key, r).0, key) <==> HealLoses(s, key, r)
  {
  }

  /** A /new gives up the live session before it has another one. */
  predicate NewLoses(s: Slot, key: SessionKey, r: Replies) { key !in s.stale && !(s.connected && r.create.Some?) }

  lemma NewForgetsIff(s: Slot, key: SessionKey, r: Replies)
    requires Known(s, key)
    ensures !Known(Create(ForgetSession(s, key), key, r.create).0, key) <==> NewLoses(s, key, r)
  {
  }

  /** Whether the step makes slot `j` forget session `k`, if it knows it. */
  predicate Loses(m: Manager, e: Event, j: nat, k: SessionKey)
    requires j < |m.slots|
  {
    match e
    case EnqueueMessage(agent, key, p, r) =>
      key == k && FindSlot(m.slots, agent) == Some(j) &&
      (match CommandOf(p.content)
       case Some(New) => NewLoses(m.slots[j], k, r)
       case Some(Cancel) => false
       case None => k !in m.queue.active && HealLoses(m.slots[j], k, r))
    case CreateSession(agent, key, r) =>
      key == k && FindSlot(m.slots, agent) == Some(j) && HealLoses(m.slots[j], k, r)
    case PromptDone(c, drained, r) =>
      c.key == k && k in m.outstanding && Pending(m.queue, k) != [] &&
      TurnLoses(SettledSlots(m, c, drained), j, k, r)
    case _ => false
  }

  /** The next turn is given to the first slot with the owner's name, which heals if it has to. */
  predicate TurnLoses(slots: seq<Slot>, j: nat, k: SessionKey, r: Replies) {
    var owner := OwnerName(slots, k);
    owner != "" && FindSlot(slots, owner) == Some(j) && HealLoses(slots[j], k, r)
  }

  /** `lost` is what decides whether slot `j`, knowing `k`, still knows it. */
  predicate ForgetsIff(slots: seq<Slot>, slots': seq<Slot>, j: nat, k: SessionKey, lost: bool) {
    && |slots'| == |slots|
    && (j < |slots| && Known(slots[j], k) ==> (!Known(slots'[j], k) <==> lost))
  }

  lemma PromptForgetsIff(m: Manager, agent: string, k: SessionKey, batch: Payload, r: Replies, j: nat)
    requires CommandOf(batch.content).None? && j < |m.slots|
    ensures ForgetsIff(m.slots, PromptSession(m, agent, k, batch, r).0.slots, j, k,
                       FindSlot(m.slots, agent) == Some(j) && HealLoses(m.slots[j], k, r))
  {
    var m1 := Note(m, Batch(k, batch));
    var found := FindSlot(m1.slots, agent);
    if found.Some? && k !in m1.slots[found.value].sessionMap {
      HealForgetsIff(m1.slots[found.value], k, r);
      var (m2, healed) := HealSession(m1, found.value, k, r);
      if healed { PromptLiveRemembers(m2, found.value, k, r, k); }
    } else if found.Some? {
      PromptLiveRemembers(m1, found.value, k, r, k);
    }
  }

  lemma HandOverForgetsIff(m: Manager, agent: string, k: SessionKey, taken: seq<Payload>,
      meta: Option<MessageMetadata>, r: Replies, j: nat)
    requires NoCommands(taken) && j < |m.slots|
    ensures ForgetsIff(m.slots, HandOver(m, agent, k, taken, meta, r).0.slots, j, k,
                       FindSlot(m.slots, agent) == Some(j) && HealLoses(m.slots[j], k, r))
  {
    CoalescingIsPlain(taken);
    var m0 := Send(Note(m, HandedOver(k, taken)), DispatchStarted(k));
    PromptForgetsIff(m0, agent, k, Payload(Flatten(taken), meta), r, j);
  }

  lemma CommandForgetsIff(m: Manager, cmd: PlatformCommand, i: nat, k: SessionKey, r: Replies, j: nat)
    requires i < |m.slots| && j < |m.slots|
    ensures ForgetsIff(m.slots, HandlePlatformCommand(m, cmd, i, k, r).0.slots, j, k,
                       i == j && cmd.New? && NewLoses(m.slots[j], k, r))
  {
    if i == j && Known(m.slots[j], k) { NewForgetsIff(m.slots[j], k, r); }
  }

  lemma EnqueueForgetsIff(m: Manager, agent: string, k: SessionKey, p: Payload, r: Replies, j: nat)
    requires NoCommands(Pending(m.queue, k)) && j < |m.slots|
    ensures ForgetsIff(m.slots, Enqueue(m, agent, k, p, r).0.slots, j, k,
                       Loses(m, EnqueueMessage(agent, k, p, r), j, k))
  {
    var cmd, found := CommandOf(p.content), FindSlot(m.slots, agent);
    if cmd.Some? {
      if found.Some? { CommandForgetsIff(m, cmd.value, found.value, k, r, j); }
    } else if k !in m.queue.active {
      var queued := Note(m.(queue := Append(m.queue, k, p)), Accepted(k, p));
      var waiting := Pending(queued.queue, k);
      assert waiting == Pending(m.queue, k) + [p];
      var flushed := queued.(queue := AfterFlush(queued.queue, k));
      HandOverForgetsIff(flushed, agent, k, waiting, FirstMetadata(waiting), r, j);
    }
  }

  lemma CreateForgetsIff(m: Manager, agent: string, k: SessionKey, r: Replies, j: nat)
    requires j < |m.slots|
    ensures ForgetsIff(m.slots, CreateOrHeal(m, agent, k, r).0.slots, j, k,
                       FindSlot(m.slots, agent) == Some(j) && HealLoses(m.slots[j], k, r))
  {
    var found := FindSlot(m.slots, agent);
    if found.Some? { HealForgetsIff(m.slots[found.value], k, r); }
  }

  lemma WaitingForgetsIff(m: Manager, k: SessionKey, r: Replies, j: nat)
    requires NoCommands(Pending(m.queue, k)) && j < |m.slots|
    ensures ForgetsIff(m.slots, DispatchWaiting(m, k, r).slots, j, k,
                       Pending(m.queue, k) != [] && TurnLoses(m.slots, j, k, r))
  {
    var waiting := Pending(m.queue, k);
    var idle := m.(queue := AfterMarkIdle(m.queue, k));
    var drained := idle.(queue := AfterDrain(idle.queue, k));
    HandOverForgetsIff(drained, OwnerName(m.slots, k), k, waiting, LastMetadata(waiting), r, j);
  }

  lemma SettledKnows(m: Manager, c: Completion, drained: seq<Incoming>, k: SessionKey)
    ensures Remembers(m.slots, SettledSlots(m, c, drained), k)
  {
    var m0 := m.(outstanding := m.outstanding - multiset{c.key});
    AllIncomingRemembers(m0, drained, k);
  }

  lemma CompletionForgetsIff(m: Manager, c: Completion, drained: seq<Incoming>, r: Replies, j: nat)
    requires Protocol(m, c.key) && c.key in m.outstanding && j < |m.slots|
    ensures ForgetsIff(m.slots, HandleCompletion(m, c, drained, r).slots, j, c.key,
                       Loses(m, PromptDone(c, drained, r), j, c.key))
  {
    var k := c.key;
    SettledKnows(m, c, drained, k);
    ReportedView(m, c, drained, k);
    var m2 := Reported(m, c, drained);
    assert HandleCompletion(m, c, drained, r) == DispatchWaiting(m2, k, r);
    assert Pending(m2.queue, k) == Pending(m.queue, k);
    WaitingForgetsIff(m2, k, r, j);
  }

  /** One step, whatever it is about, makes a slot forget a session it knows exactly under that
      condition. */
  lemma StepForgetsIff(m: Manager, e: Event, j: nat, k: SessionKey)
    requires Protocol(m, k) && j < |m.slots|
    ensures ForgetsIff(m.slots, Step(m, e).slots, j, k, Loses(m, e, j, k))
  {
    if e.FromAgent? || KeyOf(e) != k {
      StepRemembers(m, e, k);
    } else {
      match e
      case EnqueueMessage(agent, _, p, r) => EnqueueForgetsIff(m, agent, k, p, r, j);
      case CreateSession(agent, _, r) => CreateForgetsIff(m, agent, k, r, j);
      case ForkSession(agent, _, r) => ForkRemembers(m, agent, k, r, k);
      case PromptDone(c, drained, r) =>
        if k in m.outstanding { CompletionForgetsIff(m, c, drained, r, j); }
    }
  }

  /** So from every reachable state. */
  lemma ForgetsExactlyWhen(m: Manager, before: seq<Event>, e: Event, j: nat, k: SessionKey)
    requires Started(m) && j < |Run(m, before).slots|
    ensures var s, s' := Run(m, before), Run(m, before + [e]);
            ForgetsIff(s.slots, s'.slots, j, k, Loses(s, e, j, k))
  {
    ProtocolHolds(m, before, k);
    RunSnoc(m, before, e);
    StepForgetsIff(Run(m, before), e, j, k);
  }

  /** A disconnected agent that can neither resume nor load loses a stale session as soon as it is
      asked for, whatever would have been answered. */
  lemma DisconnectedAgentForgets(m: Manager, i: nat, k: SessionKey, r: Replies)
    requires i < |m.slots| && FindSlot(m.slots, m.slots[i].name) == Some(i)
    requires !m.slots[i].connected && !m.slots[i].caps.resume && !m.slots[i].caps.load
    requires k in m.slots[i].stale && k !in m.slots[i].sessionMap
    ensures var s := Step(m, CreateSession(m.slots[i].name, k, r));
            i < |s.slots| && !Known(s.slots[i], k)
  {
    CreateForgetsIff(m, m.slots[i].name, k, r, i);
  }

  /** A /new the agent refuses loses a live session. */
  lemma RefusedNewForgets(m: Manager, i: nat, k: SessionKey, p: Payload, r: Replies)
    requires i < |m.slots| && FindSlot(m.slots, m.slots[i].name) == Some(i)
    requires CommandOf(p.content) == Some(New) && r.create.None?
    requires k in m.slots[i].sessionMap && k !in m.slots[i].stale
    ensures var s := Step(m, EnqueueMessage(m.slots[i].name, k, p, r));
            i < |s.slots| && !Known(s.slots[i], k)
  {
    CommandForgetsIff(m, New, i, k, r, i);
  }
}
