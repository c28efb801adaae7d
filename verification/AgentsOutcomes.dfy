/** What the agents' answers do to a slot: for each way a session is created, recovered, renewed,
    forked, expired or lost in a crash, the slot it leaves, field by field. */
module AgentsOutcomes {
  import opened Options
  import opened Messages
  import opened PlatformCommands
  import opened SessionQueues
  import opened Histories
  import opened AgentSlots
  import opened Agents
  import opened AgentsProtocol
  import opened AgentsReplay
  import opened AgentsFates
  import opened AgentsSignals

  // ----- sessions that are asked for -----

  /** A granted session/resume brings a stale session back under the id the agent gives; nothing of it
      is suppressed. */
  lemma ResumedOutcome(m: Manager, agent: string, i: nat, k: SessionKey, r: Replies, id: AcpId)
    requires FindSlot(m.slots, agent) == Some(i) && k in m.slots[i].stale && m.slots[i].connected
    requires m.slots[i].caps.resume && r.resume == Some(id)
    ensures var s := m.slots[i];
            && Step(m, CreateSession(agent, k, r)).slots == m.slots[i := s.(
                 stale := s.stale - {k}, sessionMap := s.sessionMap[k := id], reverseMap := s.reverseMap[id := k])]
            && CreateOrHeal(m, agent, k, r).1 == Some(id)
  {
  }

  /** So does a granted session/load, where the agent has no resume; but its updates are suppressed
      from then on. */
  lemma LoadedOutcome(m: Manager, agent: string, i: nat, k: SessionKey, r: Replies, id: AcpId)
    requires FindSlot(m.slots, agent) == Some(i) && k in m.slots[i].stale && m.slots[i].connected
    requires !m.slots[i].caps.resume && m.slots[i].caps.load && r.load == Some(id)
    ensures var s, m' := m.slots[i], Step(m, CreateSession(agent, k, r));
            && m'.slots == m.slots[i := s.(
                 stale := s.stale - {k}, sessionMap := s.sessionMap[k := id], reverseMap := s.reverseMap[id := k],
                 awaiting := s.awaiting + {id})]
            && CreateOrHeal(m, agent, k, r).1 == Some(id)
            && forall isResult :: Step(m', FromAgent(Update(i, id, isResult))) == m'
  {
  }

  /** Whether the agent is asked to create the session: it is not known, or not brought back although
      the agent could be asked to. */
  predicate AsksToCreate(s: Slot, k: SessionKey, r: Replies) {
    k in s.stale && (s.caps.resume || s.caps.load) ==>
      s.connected && (if s.caps.resume then r.resume.None? else r.load.None?)
  }

  /** A session that is created gives up its stale id; a live one is answered as it is. */
  lemma CreatedOutcome(m: Manager, agent: string, i: nat, k: SessionKey, r: Replies)
    requires FindSlot(m.slots, agent) == Some(i) && AsksToCreate(m.slots[i], k, r)
    ensures var s := m.slots[i].(stale := m.slots[i].stale - {k});
            var (m', answer) := (Step(m, CreateSession(agent, k, r)), CreateOrHeal(m, agent, k, r).1);
            if k in s.sessionMap then m'.slots == m.slots[i := s] && answer == Some(s.sessionMap[k])
            else if s.connected && r.create.Some? then
              && m'.slots == m.slots[i := s.(sessionMap := s.sessionMap[k := r.create.value],
                                             reverseMap := s.reverseMap[r.create.value := k])]
              && answer == r.create
            else m'.slots == m.slots[i := s] && answer == None
  {
    var s := m.slots[i];
    assert k !in s.stale ==> s.(stale := s.stale - {k}) == s;
  }

  /** Otherwise, for want of a connection to ask over, nothing changes and there is no session. */
  lemma UnaskedOutcome(m: Manager, agent: string, i: nat, k: SessionKey, r: Replies)
    requires FindSlot(m.slots, agent) == Some(i) && k in m.slots[i].stale && !m.slots[i].connected
    requires m.slots[i].caps.resume || m.slots[i].caps.load
    ensures Step(m, CreateSession(agent, k, r)).slots == m.slots && CreateOrHeal(m, agent, k, r).1 == None
  {
    assert m.slots[i := m.slots[i]] == m.slots;
  }

  /** A fork is made exactly when the agent can fork, the session is live, and the agent grants it; it
      is then live and indexed under a key of its own. */
  lemma ForkOutcome(m: Manager, agent: string, i: nat, k: SessionKey, r: Replies)
    requires FindSlot(m.slots, agent) == Some(i)
    ensures var s, m' := m.slots[i], Step(m, ForkSession(agent, k, r));
            if s.caps.fork && k in s.sessionMap && s.connected && r.fork.Some? then
              var key := ChannelName(k) + ":fork:" + r.fork.value;
              && m'.slots == m.slots[i := s.(sessionMap := s.sessionMap[key := r.fork.value],
                                             reverseMap := s.reverseMap[r.fork.value := key])]
              && ForkFrom(m, agent, k, r).1 == r.fork
            else m'.slots == m.slots && ForkFrom(m, agent, k, r).1 == None
  {
    assert m.slots[i := m.slots[i]] == m.slots;
    assert NewKey(ChannelName(k), "fork", "") == ChannelName(k) + ":" + "fork" + ":" + "";
    if r.fork.Some? {
      assert NewKey(ChannelName(k), "fork", r.fork.value) == ChannelName(k) + ":fork:" + r.fork.value;
    }
  }

  // ----- sessions that are given up -----

  /** The slot after a /new: neither index knows the old session any more, and both know the new one if
      it was granted; everything else is as it was. */
  ghost predicate Renewed(s: Slot, s': Slot, k: SessionKey, granted: Option<AcpId>) {
    && s' == s.(sessionMap := s'.sessionMap, reverseMap := s'.reverseMap)
    && s'.sessionMap == (s.sessionMap - {k}) + (if granted.Some? then map[k := granted.value] else map[])
    && (forall id :: id in s'.reverseMap <==> granted == Some(id) || (id in s.reverseMap && s.reverseMap[id] != k))
    && (forall id :: id in s'.reverseMap ==>
          s'.reverseMap[id] == if granted == Some(id) then k else s.reverseMap[id])
  }

  lemma RenewedSlot(s: Slot, k: SessionKey, r: Replies)
    ensures Renewed(s, Create(ForgetSession(s, k), k, r.create).0, k, if s.connected then r.create else None)
  {
  }

  lemma NewOutcome(m: Manager, agent: string, i: nat, k: SessionKey, p: Payload, r: Replies)
    requires FindSlot(m.slots, agent) == Some(i) && CommandOf(p.content) == Some(New)
    ensures var s, m' := m.slots[i], Step(m, EnqueueMessage(agent, k, p, r));
            && |m'.slots| == |m.slots| && (forall j :: 0 <= j < |m.slots| && j != i ==> m'.slots[j] == m.slots[j])
            && Renewed(s, m'.slots[i], k, if s.connected then r.create else None)
  {
    var s1 := Create(ForgetSession(m.slots[i], k), k, r.create).0;
    RenewedSlot(m.slots[i], k, r);
    assert HandleNew(Note(m, CommandRun(k)), i, k, r).0.slots == m.slots[i := s1];
    assert Step(m, EnqueueMessage(agent, k, p, r)).slots == m.slots[i := s1];
  }

  /** An expired session leaves both indexes of every slot that had it and is stale there under the id
      it had; other slots are as they were. */
  lemma ExpiredOutcome(m: Manager, k: SessionKey, r: Replies)
    requires k in m.outstanding && Pending(m.queue, k) == []
    ensures var m' := Step(m, PromptDone(Completion(k, true), [], r));
            && |m'.slots| == |m.slots|
            && forall j :: 0 <= j < |m.slots| ==>
                 var s, s' := m.slots[j], m'.slots[j];
                 if k in s.sessionMap then
                   s' == s.(sessionMap := s.sessionMap - {k}, stale := s.stale[k := s.sessionMap[k]],
                            reverseMap := s.reverseMap - {s.sessionMap[k]})
                 else s' == s
  {
    var c := Completion(k, true);
    var m1 := m.(outstanding := m.outstanding - multiset{k});
    assert HandleAll(m1, []) == m1;
    var told := ReportCompletion(Settle(m1, c), k, k in m1.streamed);
    assert told.queue == m.queue && told.slots == ExpireIn(m.slots, k, |m.slots|);
  }

  // ----- crashes -----

  /** The slot a crash leaves: disabled; down, with its prompts forgotten; restored with all sessions it
      knew, the one asked about under the id the agent gave; fresh, with a default session only; or down
      again. Sessions that are not live are stale. */
  function Crashed(s: Slot, c: CrashOutcome): Slot {
    var known := s.stale + s.sessionMap;
    var up := s.(connected := true, caps := c.caps, activePrompts := {});
    if !c.restart then s.(connected := false, disabled := true)
    else if !c.respawned then s.(connected := false, activePrompts := {})
    else Restored(up, known, c.order, c.replies)
  }

  function Restored(up: Slot, known: map<SessionKey, AcpId>, order: HashOrder, r: Replies): Slot {
    var reply :=
      if known == map[] then None
      else if up.caps.resume then r.resume
      else if up.caps.load then r.load
      else None;
    if reply.Some? then
      assert known.Keys != {};
      var attempted := known[order(known.Keys)];
      var live := map k | k in known :: if known[k] == attempted then reply.value else known[k];
      up.(sessionMap := live, stale := map[], awaiting := if up.caps.resume then {} else live.Values)
    else if r.create.Some? then
      var key := up.name + ":default:default";
      up.(sessionMap := map[key := r.create.value], reverseMap := map[r.create.value := key],
          stale := known, awaiting := {})
    else up.(connected := false, sessionMap := map[], stale := known, awaiting := {})
  }

  lemma DefaultKeyIs(name: string)
    ensures NewKey(name, "default", "default") == name + ":default:default"
  {
    assert NewKey(name, "default", "default") == name + (":" + "default" + ":" + "default");
    assert ":" + "default" + ":" + "default" == ":default:default";
  }

  lemma RestoredSlot(s: Slot, order: HashOrder, r: Replies)
    requires s.connected
    ensures Restore(s, order, r).0 == Restored(s, s.stale + s.sessionMap, order, r)
  {
    DefaultKeyIs(s.name);
  }

  lemma CrashOutcomeIs(m: Manager, i: nat, c: CrashOutcome)
    requires i < |m.slots| && !m.slots[i].disabled
    ensures Step(m, FromAgent(Exited(i, c))).slots == m.slots[i := Crashed(m.slots[i], c)]
  {
    var s := m.slots[i];
    if c.restart && c.respawned {
      var down := s.(connected := false);
      var m1 := NotifyCrash(SetSlot(m, i, down), i);
      assert m1.slots == m.slots[i := down.(activePrompts := {})];
      var s1 := m1.slots[i].(connected := true, caps := c.caps);
      RestoredSlot(s1, c.order, c.replies);
      assert HandleCrash(m, i, c).slots == m.slots[i := Restore(s1, c.order, c.replies).0];
    }
  }

  // ----- start, drains, and the batches prompted with -----

  /** A started slot is connected and enabled, and has its default session, live and indexed, and the
      sessions of the store as stale ones. */
  lemma StartOutcome(name: string, caps: Capabilities, id: AcpId, remembered: map<SessionKey, AcpId>)
    ensures var key := name + ":default:default";
            BootSlot(name, caps, id, remembered)
            == Slot(name, true, false, caps, map[key := id], map[id := key], remembered, {}, {})
  {
    DefaultKeyIs(name);
    var empty := Slot(name, true, false, caps, map[], map[], remembered, {}, {});
    var key := name + ":default:default";
    assert DefaultKey(empty) == key;
    assert empty.sessionMap[key := id] == map[key := id] && empty.reverseMap[id := key] == map[id := key];
  }

  /** A drained message is handled as the loop would handle it, except that the loop ignores the exit
      of an agent whose slot is disabled. */
  lemma DrainedAsReceived(m: Manager, msg: Incoming)
    requires !(msg.Exited? && msg.slot < |m.slots| && m.slots[msg.slot].disabled)
    ensures HandleAll(m, [msg]) == Step(m, FromAgent(msg))
  {
    assert [msg][..0] == [];
  }

  /** Drained messages are handled in the order they came. */
  lemma {:induction false} DrainConcat(m: Manager, a: seq<Incoming>, b: seq<Incoming>)
    ensures HandleAll(m, a + b) == HandleAll(HandleAll(m, a), b)
  {
    if b == [] {
      assert a + b == a;
    } else {
      var init := b[..|b| - 1];
      assert (a + b)[..|a + b| - 1] == a + init;
      DrainConcat(m, a, init);
    }
  }

  /** The batch the session was last prompted with, whether or not that worked. */
  function LastBatch(h: History, k: SessionKey): Option<Payload> {
    if h.Start? then None
    else if h.last.Batch? && h.last.key == k then Some(h.last.batch)
    else LastBatch(h.past, k)
  }

  lemma PromptLastBatch(m: Manager, agent: string, k: SessionKey, batch: Payload, r: Replies)
    requires CommandOf(batch.content).None?
    ensures LastBatch(PromptSession(m, agent, k, batch, r).0.history, k) == Some(batch)
  {
    var m1 := Note(m, Batch(k, batch));
    var found := FindSlot(m1.slots, agent);
    if found.Some? && k !in m1.slots[found.value].sessionMap {
      var (m2, healed) := HealSession(m1, found.value, k, r);
      assert LastBatch(m2.history, k) == Some(batch);
      if healed { LiveLastBatch(m2, found.value, k, r); }
    } else if found.Some? {
      LiveLastBatch(m1, found.value, k, r);
    }
  }

  lemma LiveLastBatch(m: Manager, i: nat, k: SessionKey, r: Replies)
    requires i < |m.slots| && k in m.slots[i].sessionMap
    ensures LastBatch(PromptLive(m, i, k, r).0.history, k) == LastBatch(m.history, k)
  {
    var id := m.slots[i].sessionMap[k];
    assert LastBatch(Then(m.history, PromptReady(i, id)), k) == LastBatch(m.history, k);
  }

  lemma HandOverLastBatch(m: Manager, agent: string, k: SessionKey, taken: seq<Payload>,
      meta: Option<MessageMetadata>, r: Replies)
    requires NoCommands(taken)
    ensures LastBatch(HandOver(m, agent, k, taken, meta, r).0.history, k) == Some(Payload(Flatten(taken), meta))
  {
    CoalescingIsPlain(taken);
    var announced := Send(Note(m, HandedOver(k, taken)), DispatchStarted(k));
    PromptLastBatch(announced, agent, k, Payload(Flatten(taken), meta), r);
  }

  /** From every reachable state, a message for an idle session is prompted with as it came. */
  lemma MessageBatch(m: Manager, before: seq<Event>, agent: string, k: SessionKey, p: Payload, r: Replies)
    requires Started(m) && k !in Run(m, before).queue.active && CommandOf(p.content).None?
    ensures LastBatch(Run(m, before + [EnqueueMessage(agent, k, p, r)]).history, k) == Some(p)
  {
    var s := Run(m, before);
    ProtocolHolds(m, before, k);
    RunSnoc(m, before, EnqueueMessage(agent, k, p, r));
    var queued := Note(s.(queue := Append(s.queue, k, p)), Accepted(k, p));
    assert Pending(queued.queue, k) == [p];
    assert [p][..0] == [] && [] + p.content == p.content;
    HandOverLastBatch(queued.(queue := AfterFlush(queued.queue, k)), agent, k, [p], FirstMetadata([p]), r);
    assert Payload(Flatten([p]), FirstMetadata([p])) == p;
  }

  /** What waits when a prompt ends is prompted with as one batch: all its content in order, with the
      last metadata there is. */
  lemma WaitingBatch(m: Manager, before: seq<Event>, c: Completion, drained: seq<Incoming>, r: Replies, i: nat)
    requires Started(m)
    requires var s := Run(m, before);
             && c.key in s.outstanding && OwnerName(SettledSlots(s, c, drained), c.key) != ""
             && i < |Pending(s.queue, c.key)| && Pending(s.queue, c.key)[i].metadata.Some?
             && forall j :: i < j < |Pending(s.queue, c.key)| ==> Pending(s.queue, c.key)[j].metadata.None?
    ensures var waiting := Pending(Run(m, before).queue, c.key);
            LastBatch(Run(m, before + [PromptDone(c, drained, r)]).history, c.key)
            == Some(Payload(Flatten(waiting), waiting[i].metadata))
  {
    var s := Run(m, before);
    ProtocolHolds(m, before, c.key);
    CompletionLastBatch(s, c, drained, r);
    AnswerStep(s, c, drained, r);
    MetadataMeaning(Pending(s.queue, c.key), i);
    RunSnoc(m, before, PromptDone(c, drained, r));
  }

  lemma CompletionLastBatch(m: Manager, c: Completion, drained: seq<Incoming>, r: Replies)
    requires Protocol(m, c.key) && c.key in m.outstanding && NoCommands(Pending(m.queue, c.key))
    requires Pending(m.queue, c.key) != [] && OwnerName(SettledSlots(m, c, drained), c.key) != ""
    ensures var waiting := Pending(m.queue, c.key);
            LastBatch(DispatchWaiting(Reported(m, c, drained), c.key, r).history, c.key)
            == Some(Payload(Flatten(waiting), LastMetadata(waiting)))
  {
    ReportedView(m, c, drained, c.key);
    WaitingLastBatch(Reported(m, c, drained), c.key, r);
  }

  lemma WaitingLastBatch(m: Manager, k: SessionKey, r: Replies)
    requires NoCommands(Pending(m.queue, k)) && Pending(m.queue, k) != [] && OwnerName(m.slots, k) != ""
    ensures LastBatch(DispatchWaiting(m, k, r).history, k)
         == Some(Payload(Flatten(Pending(m.queue, k)), LastMetadata(Pending(m.queue, k))))
  {
    var waiting := Pending(m.queue, k);
    var idle := m.(queue := AfterMarkIdle(m.queue, k));
    var drained := idle.(queue := AfterDrain(idle.queue, k));
    HandOverLastBatch(drained, OwnerName(m.slots, k), k, waiting, LastMetadata(waiting), r);
  }
}
