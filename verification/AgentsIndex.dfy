/** Session maps across every step: the forward and reverse index agree, and crashes forget no
    session. */
module AgentsIndex {
  import opened Options
  import opened Messages
  import opened PlatformCommands
  import opened SessionQueues
  import opened Histories
  import opened AgentSlots
  import opened Agents
  import opened AgentsProtocol

  /** `id` leads back to `key`. */
  predicate Indexed(s: Slot, key: SessionKey, id: AcpId) {
    id in s.reverseMap && s.reverseMap[id] == key
  }

  /** Every live session is found again from its id; hence no id is shared by two sessions. */
  predicate Agrees(s: Slot) {
    forall k :: k in s.sessionMap ==> Indexed(s, k, s.sessionMap[k])
  }

  predicate HeldByOther(s: Slot, key: SessionKey, id: AcpId) {
    exists k :: k in s.sessionMap && k != key && s.sessionMap[k] == id
  }

  // ----- single slots -----

  /** Registering an id keeps the indexes in agreement exactly when no other session holds it. */
  lemma RegisterAgrees(s: Slot, key: SessionKey, id: AcpId)
    requires Agrees(s)
    ensures Agrees(Register(s, key, id)) <==> !HeldByOther(s, key, id)
  {
    var s' := Register(s, key, id);
    if HeldByOther(s, key, id) {
      var k :| k in s.sessionMap && k != key && s.sessionMap[k] == id;
      assert s'.sessionMap[k] == id && s'.reverseMap[id] == key;
    } else {
      forall k | k in s'.sessionMap ensures Indexed(s', k, s'.sessionMap[k]) {
        if k != key { assert Indexed(s, k, s.sessionMap[k]); }
      }
    }
  }

  /** The agent's answers name no id that another live session of the slot holds. */
  predicate FreshReplies(s: Slot, key: SessionKey, r: Replies) {
    && (r.resume.Some? ==> !HeldByOther(s, key, r.resume.value))
    && (r.load.Some? ==> !HeldByOther(s, key, r.load.value))
    && (r.create.Some? ==> !HeldByOther(s, key, r.create.value))
  }

  lemma HealAgrees(s: Slot, key: SessionKey, r: Replies)
    requires Agrees(s) && FreshReplies(s, key, r)
    ensures Agrees(Heal(s, key, r).0)
  {
    var forgotten := s.(stale := s.stale - {key});
    assert Agrees(forgotten);
    assert FreshReplies(forgotten, key, r);
    if r.resume.Some? { RegisterAgrees(forgotten, key, r.resume.value); }
    if r.load.Some? { RegisterAgrees(forgotten, key, r.load.value); }
    if r.create.Some? { RegisterAgrees(forgotten, key, r.create.value); }
  }

  lemma ForgetAgrees(s: Slot, key: SessionKey)
    requires Agrees(s)
    ensures Agrees(ForgetSession(s, key))
    ensures forall id :: HeldByOther(ForgetSession(s, key), key, id) ==> HeldByOther(s, key, id)
  {
    var s' := ForgetSession(s, key);
    forall k | k in s'.sessionMap ensures Indexed(s', k, s'.sessionMap[k]) {
      assert Indexed(s, k, s.sessionMap[k]);
    }
  }

  lemma ExpireAgrees(s: Slot, key: SessionKey)
    requires Agrees(s)
    ensures Agrees(Expire(s, key))
  {
    var s' := Expire(s, key);
    forall k | k in s'.sessionMap ensures Indexed(s', k, s'.sessionMap[k]) {
      assert Indexed(s, k, s.sessionMap[k]);
    }
  }

  // ----- crash recovery -----

  /** What a crash restore that comes back with `id` needs of the reverse index, which it does not
      touch: left-over stale sessions are already indexed under the id they come back with, and a
      live session that was asked about keeps its id or is already indexed under the new one. */
  predicate RestorableAs(s: Slot, attempted: AcpId, id: AcpId) {
    && (forall k :: k in s.stale && k !in s.sessionMap ==>
          Indexed(s, k, if s.stale[k] == attempted then id else s.stale[k]))
    && (forall k :: k in s.sessionMap && s.sessionMap[k] == attempted ==> id == attempted || Indexed(s, k, id))
  }

  /** The slot a successful restore under `id` leaves behind, as far as the indexes go. */
  function RestoredAs(s: Slot, attempted: AcpId, id: AcpId): Slot {
    s.(sessionMap := Remap(Merged(s), attempted, id))
  }

  lemma RestorableIsEnough(s: Slot, att: AcpId, id: AcpId)
    requires Agrees(s) && RestorableAs(s, att, id)
    ensures Agrees(RestoredAs(s, att, id))
  {
    var s' := RestoredAs(s, att, id);
    forall k | k in s'.sessionMap ensures Indexed(s', k, s'.sessionMap[k]) {
      if k in s.sessionMap { assert Indexed(s, k, s.sessionMap[k]); }
    }
  }

  lemma RestorableIsNeeded(s: Slot, att: AcpId, id: AcpId)
    requires Agrees(RestoredAs(s, att, id))
    ensures RestorableAs(s, att, id)
  {
    var s' := RestoredAs(s, att, id);
    forall k | k in s.stale && k !in s.sessionMap
      ensures Indexed(s, k, if s.stale[k] == att then id else s.stale[k])
    {
      assert Indexed(s', k, s'.sessionMap[k]);
    }
    forall k | k in s.sessionMap && s.sessionMap[k] == att
      ensures id == att || Indexed(s, k, id)
    {
      assert Indexed(s', k, s'.sessionMap[k]);
    }
  }

  /** A restore keeps the indexes in agreement exactly under that condition; a fresh start and a
      failed one always do. */
  lemma RestoreAgrees(s: Slot, order: HashOrder, r: Replies)
    requires Agrees(s)
    ensures var reply := RestoreReply(s, r);
            Agrees(Restore(s, order, r).0)
            <==> (reply.Some? ==> RestorableAs(s, Attempted(s, order), reply.value))
  {
    var reply := RestoreReply(s, r);
    if reply.Some? {
      var att := Attempted(s, order);
      var s', s'' := Restore(s, order, r).0, RestoredAs(s, att, reply.value);
      assert s'.sessionMap == s''.sessionMap && s'.reverseMap == s''.reverseMap;
      assert Agrees(s') <==> Agrees(s'') by { SameIndexes(s', s''); }
      if RestorableAs(s, att, reply.value) { RestorableIsEnough(s, att, reply.value); }
      if Agrees(s'') { RestorableIsNeeded(s, att, reply.value); }
    }
  }

  lemma SameIndexes(s: Slot, s': Slot)
    requires s.sessionMap == s'.sessionMap && s.reverseMap == s'.reverseMap
    ensures Agrees(s) <==> Agrees(s')
  {
    if Agrees(s) {
      forall k | k in s'.sessionMap ensures Indexed(s', k, s'.sessionMap[k]) {
        assert Indexed(s, k, s.sessionMap[k]);
      }
    }
    if Agrees(s') {
      forall k | k in s.sessionMap ensures Indexed(s, k, s.sessionMap[k]) {
        assert Indexed(s', k, s'.sessionMap[k]);
      }
    }
  }

  /** In the usual case, when neither left-over stale sessions nor a changed id are indexed, that
      means: nothing stale was left over and the agent echoed the id. */
  lemma UsuallyOnlyEcho(s: Slot, order: HashOrder, id: AcpId)
    requires Agrees(s) && Merged(s) != map[]
    requires forall k :: k in s.stale && k !in s.sessionMap ==> s.stale[k] !in s.reverseMap
    requires id == Attempted(s, order) || id !in s.reverseMap
    ensures RestorableAs(s, Attempted(s, order), id)
       <==> s.stale.Keys <= s.sessionMap.Keys && id == Attempted(s, order)
  {
    assert Merged(s).Keys != {};
    var asked := order(Merged(s).Keys);
    assert asked in Merged(s);
    var att := Attempted(s, order);
    assert forall k :: k in s.stale && k !in s.sessionMap ==>
      !Indexed(s, k, if s.stale[k] == att then id else s.stale[k]);
    if RestorableAs(s, att, id) {
      assert asked in s.sessionMap && s.sessionMap[asked] == att;
    }
  }

  /** Recovery forgets no session. A live id overrides a stale one; after a restore the map is the
      merged one with exactly the id asked about replaced; otherwise the merged map stays stale. */
  lemma RestoreForgetsNothing(s: Slot, order: HashOrder, r: Replies)
    ensures forall k :: k in Merged(s) <==> k in s.sessionMap || k in s.stale
    ensures forall k :: k in Merged(s) ==> Merged(s)[k] == if k in s.sessionMap then s.sessionMap[k] else s.stale[k]
    ensures var (s', how) := Restore(s, order, r);
            match RestoreReply(s, r)
            case None => s'.stale == Merged(s) && s'.sessionMap.Keys <= {DefaultKey(s)}
            case Some(id) =>
              && s'.stale == map[] && s'.sessionMap.Keys == Merged(s).Keys
              && (exists k :: k in Merged(s) && Merged(s)[k] == Attempted(s, order))
              && forall k :: k in Merged(s) ==>
                   s'.sessionMap[k] == if Merged(s)[k] == Attempted(s, order) then id else Merged(s)[k]
  {
    if RestoreReply(s, r).Some? { AttemptedIsKnown(s, order); }
  }

  lemma AttemptedIsKnown(s: Slot, order: HashOrder)
    requires Merged(s) != map[]
    ensures exists k :: k in Merged(s) && Merged(s)[k] == Attempted(s, order)
  {
    assert Merged(s).Keys != {};
    assert order(Merged(s).Keys) in Merged(s);
  }

  // ----- whole steps -----

  predicate AllAgree(slots: seq<Slot>) {
    forall j :: 0 <= j < |slots| ==> Agrees(slots[j])
  }

  predicate FreshPrompt(slots: seq<Slot>, agent: string, key: SessionKey, r: Replies) {
    var found := FindSlot(slots, agent);
    found.Some? ==> FreshReplies(slots[found.value], key, r)
  }

  /** A crash that is restored is restored as the reverse index needs it. */
  predicate SafeCrash(m: Manager, i: nat, c: CrashOutcome)
    requires i < |m.slots|
  {
    var s := m.slots[i].(caps := c.caps);
    c.restart && c.respawned && RestoreReply(s, c.replies).Some? ==>
      RestorableAs(s, Attempted(s, c.order), RestoreReply(s, c.replies).value)
  }

  predicate SafeIncoming(m: Manager, msg: Incoming) {
    msg.Exited? && msg.slot < |m.slots| ==> SafeCrash(m, msg.slot, msg.outcome)
  }

  predicate SafeAll(m: Manager, msgs: seq<Incoming>) {
    msgs != [] ==>
      && SafeAll(m, msgs[..|msgs| - 1])
      && SafeIncoming(HandleAll(m, msgs[..|msgs| - 1]), msgs[|msgs| - 1])
  }

  /** What is asked of the agents in one step: ids they issue are not held by another live
      session, and crash restores are safe. */
  predicate Fresh(m: Manager, e: Event) {
    match e
    case EnqueueMessage(agent, key, _, r) => FreshPrompt(m.slots, agent, key, r)
    case CreateSession(agent, key, r) => FreshPrompt(m.slots, agent, key, r)
    case ForkSession(agent, key, r) =>
      var found := FindSlot(m.slots, agent);
      found.Some? && r.fork.Some? ==>
        !HeldByOther(m.slots[found.value], NewKey(ChannelName(key), "fork", r.fork.value), r.fork.value)
    case FromAgent(msg) => SafeIncoming(m, msg)
    case PromptDone(c, drained, r) =>
      && SafeAll(m.(outstanding := m.outstanding - multiset{c.key}), drained)
      && var slots := SettledSlots(m, c, drained); FreshPrompt(slots, OwnerName(slots, c.key), c.key, r)
  }

  predicate FreshRun(m: Manager, events: seq<Event>) {
    events != [] ==>
      && FreshRun(m, events[..|events| - 1])
      && Fresh(Run(m, events[..|events| - 1]), events[|events| - 1])
  }

  lemma CommandAgrees(m: Manager, cmd: PlatformCommand, i: nat, key: SessionKey, r: Replies)
    requires i < |m.slots| && AllAgree(m.slots) && FreshReplies(m.slots[i], key, r)
    ensures AllAgree(HandlePlatformCommand(m, cmd, i, key, r).0.slots)
  {
    if cmd.New? {
      var s := ForgetSession(m.slots[i], key);
      ForgetAgrees(m.slots[i], key);
      if r.create.Some? { RegisterAgrees(s, key, r.create.value); }
      assert Agrees(Create(s, key, r.create).0);
    }
  }

  /** Replacing one slot by one that agrees, or whose indexes are the same. */
  lemma SetAgrees(slots: seq<Slot>, i: nat, s: Slot)
    requires i < |slots| && AllAgree(slots)
    requires Agrees(s) || (s.sessionMap == slots[i].sessionMap && s.reverseMap == slots[i].reverseMap)
    ensures AllAgree(slots[i := s])
  {
    if !Agrees(s) { SameIndexes(slots[i], s); }
  }

  lemma PromptLiveAgrees(m: Manager, i: nat, key: SessionKey, r: Replies)
    requires i < |m.slots| && key in m.slots[i].sessionMap && AllAgree(m.slots)
    ensures AllAgree(PromptLive(m, i, key, r).0.slots)
  {
    var s := m.slots[i].(awaiting := m.slots[i].awaiting - {m.slots[i].sessionMap[key]});
    SetAgrees(m.slots, i, s);
    SetAgrees(m.slots[i := s], i, s.(activePrompts := s.activePrompts + {s.sessionMap[key]}));
  }

  lemma PromptAgrees(m: Manager, agent: string, key: SessionKey, batch: Payload, r: Replies)
    requires AllAgree(m.slots) && FreshPrompt(m.slots, agent, key, r)
    ensures AllAgree(PromptSession(m, agent, key, batch, r).0.slots)
  {
    var m1 := Note(m, Batch(key, batch));
    var found := FindSlot(m1.slots, agent);
    if found.Some? {
      var i := found.value;
      if CommandOf(batch.content).Some? {
        CommandAgrees(m1, CommandOf(batch.content).value, i, key, r);
      } else if key in m1.slots[i].sessionMap {
        PromptLiveAgrees(m1, i, key, r);
      } else {
        HealAgrees(m1.slots[i], key, r);
        SetAgrees(m1.slots, i, Heal(m1.slots[i], key, r).0);
        var (m2, healed) := HealSession(m1, i, key, r);
        if healed { PromptLiveAgrees(m2, i, key, r); }
      }
    }
  }

  lemma HandOverAgrees(m: Manager, agent: string, key: SessionKey, taken: seq<Payload>,
      meta: Option<MessageMetadata>, r: Replies)
    requires AllAgree(m.slots) && FreshPrompt(m.slots, agent, key, r)
    ensures AllAgree(HandOver(m, agent, key, taken, meta, r).0.slots)
  {
    PromptAgrees(Send(Note(m, HandedOver(key, taken)), DispatchStarted(key)), agent, key,
        Payload(Flatten(taken), meta), r);
  }

  /** A slot that was respawned is restored safely if that was safe for it before. */
  lemma RespawnedAgrees(s: Slot, s': Slot, order: HashOrder, r: Replies)
    requires Agrees(s) && s' == s.(connected := true, activePrompts := {})
    requires RestoreReply(s, r).Some? ==> RestorableAs(s, Attempted(s, order), RestoreReply(s, r).value)
    ensures Agrees(Restore(s', order, r).0)
  {
    SameIndexes(s, s');
    assert Merged(s') == Merged(s);
    RestoreAgrees(s', order, r);
  }

  lemma CrashAgrees(m: Manager, i: nat, c: CrashOutcome)
    requires i < |m.slots| && AllAgree(m.slots) && SafeCrash(m, i, c)
    ensures AllAgree(HandleCrash(m, i, c).slots)
  {
    var down := m.slots[i].(connected := false);
    SetAgrees(m.slots, i, down.(disabled := true));
    SetAgrees(m.slots, i, down.(activePrompts := {}));
    if c.restart {
      var m1 := NotifyCrash(SetSlot(m, i, down), i);
      assert m1.slots == m.slots[i := down.(activePrompts := {})];
      if c.respawned {
        var s := m1.slots[i].(connected := true, caps := c.caps);
        RespawnedAgrees(m.slots[i].(caps := c.caps), s, c.order, c.replies);
        SetAgrees(m1.slots[i := s], i, Restore(s, c.order, c.replies).0);
      }
    }
  }

  lemma {:induction false} AllIncomingAgrees(m: Manager, msgs: seq<Incoming>)
    requires AllAgree(m.slots) && SafeAll(m, msgs)
    ensures AllAgree(HandleAll(m, msgs).slots)
  {
    if msgs != [] {
      var before := HandleAll(m, msgs[..|msgs| - 1]);
      AllIncomingAgrees(m, msgs[..|msgs| - 1]);
      var msg := msgs[|msgs| - 1];
      if msg.Exited? && msg.slot < |before.slots| { CrashAgrees(before, msg.slot, msg.outcome); }
    }
  }

  lemma WaitingAgrees(m: Manager, key: SessionKey, r: Replies)
    requires AllAgree(m.slots) && FreshPrompt(m.slots, OwnerName(m.slots, key), key, r)
    ensures AllAgree(DispatchWaiting(m, key, r).slots)
  {
    var waiting := Pending(m.queue, key);
    var idle := m.(queue := AfterMarkIdle(m.queue, key));
    var drained := idle.(queue := AfterDrain(idle.queue, key));
    HandOverAgrees(drained, OwnerName(m.slots, key), key, waiting, LastMetadata(waiting), r);
  }

  lemma CompletionAgrees(m: Manager, c: Completion, drained: seq<Incoming>, r: Replies)
    requires AllAgree(m.slots) && Fresh(m, PromptDone(c, drained, r))
    ensures AllAgree(HandleCompletion(m, c, drained, r).slots)
  {
    var m0 := m.(outstanding := m.outstanding - multiset{c.key});
    AllIncomingAgrees(m0, drained);
    var m1 := HandleAll(m0, drained);
    forall j | 0 <= j < |m1.slots| ensures Agrees(Expire(m1.slots[j], c.key)) { ExpireAgrees(m1.slots[j], c.key); }
    WaitingAgrees(ReportCompletion(Settle(m1, c), c.key, c.key in m1.streamed), c.key, r);
  }

  lemma EnqueueAgrees(m: Manager, agent: string, key: SessionKey, p: Payload, r: Replies)
    requires AllAgree(m.slots) && FreshPrompt(m.slots, agent, key, r)
    ensures AllAgree(Enqueue(m, agent, key, p, r).0.slots)
  {
    if CommandOf(p.content).Some? {
      var found := FindSlot(m.slots, agent);
      if found.Some? { CommandAgrees(m, CommandOf(p.content).value, found.value, key, r); }
    } else {
      var queued := Note(m.(queue := Append(m.queue, key, p)), Accepted(key, p));
      HandOverAgrees(queued.(queue := AfterFlush(queued.queue, key)), agent, key, Pending(queued.queue, key),
          FirstMetadata(Pending(queued.queue, key)), r);
    }
  }

  lemma StepAgrees(m: Manager, e: Event)
    requires AllAgree(m.slots) && Fresh(m, e)
    ensures AllAgree(Step(m, e).slots)
  {
    match e
    case EnqueueMessage(agent, key, p, r) => EnqueueAgrees(m, agent, key, p, r);
    case CreateSession(agent, key, r) =>
      var found := FindSlot(m.slots, agent);
      if found.Some? {
        HealAgrees(m.slots[found.value], key, r);
        SetAgrees(m.slots, found.value, Heal(m.slots[found.value], key, r).0);
        if r.create.Some? { RegisterAgrees(m.slots[found.value], key, r.create.value); }
        SetAgrees(m.slots, found.value, Create(m.slots[found.value], key, r.create).0);
      }
    case ForkSession(agent, key, r) =>
      var found := FindSlot(m.slots, agent);
      if found.Some? && r.fork.Some? {
        RegisterAgrees(m.slots[found.value], NewKey(ChannelName(key), "fork", r.fork.value), r.fork.value);
      }
    case FromAgent(msg) =>
      if msg.Exited? && msg.slot < |m.slots| { CrashAgrees(m, msg.slot, msg.outcome); }
    case PromptDone(c, drained, r) => CompletionAgrees(m, c, drained, r);
  }

  // ----- main results -----

  /** Over every run with fresh ids and safe restores, each live session is found from its id and
      no id is shared. */
  lemma {:induction false} IndexesAgree(m: Manager, events: seq<Event>)
    requires Started(m) && FreshRun(m, events)
    ensures AllAgree(Run(m, events).slots)
    ensures forall i, j, k :: 0 <= i < |Run(m, events).slots| ==>
              var live := Run(m, events).slots[i].sessionMap;
              j in live && k in live && live[j] == live[k] ==> j == k
  {
    if events == [] {
      forall j | 0 <= j < |m.slots| ensures Agrees(m.slots[j]) { assert Booted(m.slots[j]); }
    } else {
      IndexesAgree(m, events[..|events| - 1]);
      StepAgrees(Run(m, events[..|events| - 1]), events[|events| - 1]);
    }
    var s := Run(m, events);
    forall i, j, k | 0 <= i < |s.slots| && j in s.slots[i].sessionMap && k in s.slots[i].sessionMap
                     && s.slots[i].sessionMap[j] == s.slots[i].sessionMap[k]
      ensures j == k
    {
      assert Agrees(s.slots[i]);
      assert Indexed(s.slots[i], j, s.slots[i].sessionMap[j]) && Indexed(s.slots[i], k, s.slots[i].sessionMap[k]);
    }
  }

  // ----- no session is forgotten on someone else's account -----

  /** The slot can still reach the session: live, or stale and open to recovery. */
  predicate Known(s: Slot, k: SessionKey) { k in s.sessionMap || k in s.stale }

  /** Every session known before in slot `j` is known after. */
  predicate Remembers(slots: seq<Slot>, slots': seq<Slot>, k: SessionKey) {
    && |slots'| == |slots|
    && forall j :: 0 <= j < |slots| ==> Known(slots[j], k) ==> Known(slots'[j], k)
  }

  lemma SetRemembers(slots: seq<Slot>, i: nat, s: Slot, k: SessionKey)
    requires i < |slots| && (Known(slots[i], k) ==> Known(s, k))
    ensures Remembers(slots, slots[i := s], k)
  {
  }

  lemma HealKnows(s: Slot, key: SessionKey, r: Replies, k: SessionKey)
    requires k != key && Known(s, k)
    ensures Known(Heal(s, key, r).0, k) && Known(Create(s, key, r.create).0, k)
  {
  }

  /** Restoring a slot leaves every session it knew live or stale. */
  lemma RestoreKnows(s: Slot, order: HashOrder, r: Replies, k: SessionKey)
    requires Known(s, k)
    ensures Known(Restore(s, order, r).0, k)
  {
    assert k in Merged(s);
    RestoreForgetsNothing(s, order, r);
  }

  lemma CrashRemembers(m: Manager, i: nat, c: CrashOutcome, k: SessionKey)
    requires i < |m.slots|
    ensures Remembers(m.slots, HandleCrash(m, i, c).slots, k)
  {
    if c.restart && c.respawned {
      var down := m.slots[i].(connected := false);
      var m1 := NotifyCrash(SetSlot(m, i, down), i);
      var s := m1.slots[i].(connected := true, caps := c.caps);
      if Known(s, k) { RestoreKnows(s, c.order, c.replies, k); }
    }
  }

  lemma {:induction false} AllIncomingRemembers(m: Manager, msgs: seq<Incoming>, k: SessionKey)
    ensures Remembers(m.slots, HandleAll(m, msgs).slots, k)
  {
    if msgs != [] {
      var before := HandleAll(m, msgs[..|msgs| - 1]);
      AllIncomingRemembers(m, msgs[..|msgs| - 1], k);
      var msg := msgs[|msgs| - 1];
      if msg.Exited? && msg.slot < |before.slots| { CrashRemembers(before, msg.slot, msg.outcome, k); }
    }
  }

  lemma PromptLiveRemembers(m: Manager, i: nat, key: SessionKey, r: Replies, k: SessionKey)
    requires i < |m.slots| && key in m.slots[i].sessionMap
    ensures Remembers(m.slots, PromptLive(m, i, key, r).0.slots, k)
  {
  }

  lemma CommandRemembers(m: Manager, cmd: PlatformCommand, i: nat, key: SessionKey, r: Replies, k: SessionKey)
    requires i < |m.slots| && k != key
    ensures Remembers(m.slots, HandlePlatformCommand(m, cmd, i, key, r).0.slots, k)
  {
    if cmd.New? {
      assert Known(m.slots[i], k) ==> Known(Create(ForgetSession(m.slots[i], key), key, r.create).0, k);
    }
  }

  lemma PromptRemembers(m: Manager, agent: string, key: SessionKey, batch: Payload, r: Replies, k: SessionKey)
    requires k != key
    ensures Remembers(m.slots, PromptSession(m, agent, key, batch, r).0.slots, k)
  {
    var m1 := Note(m, Batch(key, batch));
    var found := FindSlot(m1.slots, agent);
    if found.Some? {
      var i := found.value;
      if CommandOf(batch.content).Some? {
        CommandRemembers(m1, CommandOf(batch.content).value, i, key, r, k);
      } else if key in m1.slots[i].sessionMap {
        PromptLiveRemembers(m1, i, key, r, k);
      } else {
        var (m2, healed) := HealSession(m1, i, key, r);
        if Known(m1.slots[i], k) { HealKnows(m1.slots[i], key, r, k); }
        SetRemembers(m1.slots, i, Heal(m1.slots[i], key, r).0, k);
        if healed { PromptLiveRemembers(m2, i, key, r, k); }
      }
    }
  }

  lemma EnqueueRemembers(m: Manager, agent: string, key: SessionKey, p: Payload, r: Replies, k: SessionKey)
    requires k != key
    ensures Remembers(m.slots, Enqueue(m, agent, key, p, r).0.slots, k)
  {
    if CommandOf(p.content).Some? {
      var found := FindSlot(m.slots, agent);
      if found.Some? { CommandRemembers(m, CommandOf(p.content).value, found.value, key, r, k); }
    } else {
      var queued := Note(m.(queue := Append(m.queue, key, p)), Accepted(key, p));
      var taken := Pending(queued.queue, key);
      var flushed := queued.(queue := AfterFlush(queued.queue, key));
      PromptRemembers(Send(Note(flushed, HandedOver(key, taken)), DispatchStarted(key)), agent, key,
                      Payload(Flatten(taken), FirstMetadata(taken)), r, k);
    }
  }

  lemma WaitingRemembers(m: Manager, key: SessionKey, r: Replies, k: SessionKey)
    requires k != key
    ensures Remembers(m.slots, DispatchWaiting(m, key, r).slots, k)
  {
    var waiting := Pending(m.queue, key);
    var idle := m.(queue := AfterMarkIdle(m.queue, key));
    var drained := idle.(queue := AfterDrain(idle.queue, key));
    PromptRemembers(Send(Note(drained, HandedOver(key, waiting)), DispatchStarted(key)),
                    OwnerName(m.slots, key), key, Payload(Flatten(waiting), LastMetadata(waiting)), r, k);
  }

  lemma CompletionRemembers(m: Manager, c: Completion, drained: seq<Incoming>, r: Replies, k: SessionKey)
    requires k != c.key
    ensures Remembers(m.slots, HandleCompletion(m, c, drained, r).slots, k)
  {
    var m0 := m.(outstanding := m.outstanding - multiset{c.key});
    AllIncomingRemembers(m0, drained, k);
    var m1 := HandleAll(m0, drained);
    var m2 := ReportCompletion(Settle(m1, c), c.key, c.key in m1.streamed);
    assert Remembers(m1.slots, m2.slots, k);
    WaitingRemembers(m2, c.key, r, k);
  }

  lemma CreateRemembers(m: Manager, agent: string, key: SessionKey, r: Replies, k: SessionKey)
    requires k != key
    ensures Remembers(m.slots, CreateOrHeal(m, agent, key, r).0.slots, k)
  {
    var found := FindSlot(m.slots, agent);
    if found.Some? {
      var i := found.value;
      if Known(m.slots[i], k) { HealKnows(m.slots[i], key, r, k); }
      SetRemembers(m.slots, i, Heal(m.slots[i], key, r).0, k);
      SetRemembers(m.slots, i, Create(m.slots[i], key, r.create).0, k);
    }
  }

  lemma ForkRemembers(m: Manager, agent: string, key: SessionKey, r: Replies, k: SessionKey)
    ensures Remembers(m.slots, ForkFrom(m, agent, key, r).0.slots, k)
  {
  }

  /** Crashes, whatever the agent answers, and steps about other sessions forget no session. */
  lemma StepRemembers(m: Manager, e: Event, k: SessionKey)
    requires e.FromAgent? || KeyOf(e) != k
    ensures Remembers(m.slots, Step(m, e).slots, k)
  {
    match e
    case EnqueueMessage(agent, key, p, r) => EnqueueRemembers(m, agent, key, p, r, k);
    case CreateSession(agent, key, r) => CreateRemembers(m, agent, key, r, k);
    case ForkSession(agent, key, r) => ForkRemembers(m, agent, key, r, k);
    case FromAgent(msg) =>
      if msg.Exited? && msg.slot < |m.slots| { CrashRemembers(m, msg.slot, msg.outcome, k); }
    case PromptDone(c, drained, r) => CompletionRemembers(m, c, drained, r, k);
  }
}
