/** The agents manager as the program runs it: one object whose handlers update its fields in
    place. Each handler's postcondition is the matching step of module Agents, so everything proved
    there about steps and runs holds of this object. */
module AgentsManagers {
  import opened Options
  import opened Messages
  import opened PlatformCommands
  import opened SessionQueues
  import opened Histories
  import opened AgentSlots
  import opened Agents
  import AgentsProtocol

  class AgentsManager {
    var slots: seq<Slot>
    const queue: SessionQueue
    var streamed: set<SessionKey>
    var outstanding: multiset<SessionKey>
    const attached: bool
    ghost var history: History  // what the object has done so far, for the specifications

    ghost function View(): Manager
      reads this, queue
    {
      Manager(slots, queue.View(), streamed, outstanding, attached, history)
    }

    /** `start`: every slot has been spawned, initialized and given its default session. */
    constructor (booted: seq<Slot>, attached: bool)
      requires forall i :: 0 <= i < |booted| ==> Booted(booted[i])
      ensures Started(View()) && slots == booted && this.attached == attached
      ensures fresh(queue)
    {
      slots := booted;
      queue := new SessionQueue();
      streamed := {};
      outstanding := multiset{};
      this.attached := attached;
      history := Start;
    }

    method Record(e: Entry)
      modifies this`history
      ensures View() == Note(old(View()), e)
    {
      history := Then(history, e);
    }

    method SendEvent(e: Entry)
      modifies this`history
      ensures View() == Send(old(View()), e)
    {
      if attached { history := Then(history, e); }
    }

    method FindSlotByName(name: string) returns (found: Option<nat>)
      ensures found == FindSlot(slots, name)
    {
      var i := 0;
      while i < |slots|
        invariant 0 <= i <= |slots|
        invariant FindSlot(slots, name) == FindSlotFrom(slots, name, i)
      {
        if slots[i].name == name { return Some(i); }
        i := i + 1;
      }
      found := None;
    }

    /** The name of the first slot holding the session, empty when there is none. */
    method FindOwnerName(key: SessionKey) returns (name: string)
      ensures name == OwnerName(slots, key)
    {
      var i := 0;
      while i < |slots|
        invariant 0 <= i <= |slots|
        invariant OwnerFrom(slots, key, 0) == OwnerFrom(slots, key, i)
      {
        if key in slots[i].sessionMap { return slots[i].name; }
        i := i + 1;
      }
      name := "";
    }

    // ----- sessions -----

    /** `create_session` once the slot is known. */
    method CreateIn(i: nat, key: SessionKey, reply: Option<AcpId>) returns (id: Option<AcpId>)
      requires i < |slots|
      modifies this`slots
      ensures var (s, made) := Create(old(slots[i]), key, reply);
              slots == old(slots)[i := s] && id == made
    {
      var s := slots[i];
      if key in s.sessionMap { return Some(s.sessionMap[key]); }
      if !s.connected || reply.None? { return None; }
      s := s.(sessionMap := s.sessionMap[key := reply.value]);
      s := s.(reverseMap := s.reverseMap[reply.value := key]);
      slots := slots[i := s];
      id := reply;
    }

    /** The index updates shared by a resumed and a loaded session. */
    method RecoverAs(i: nat, key: SessionKey, id: AcpId)
      requires i < |slots|
      modifies this`slots
      ensures slots == old(slots)[i := Register(old(slots[i]).(stale := old(slots[i]).stale - {key}), key, id)]
    {
      var s := slots[i];
      s := s.(stale := s.stale - {key});
      s := s.(sessionMap := s.sessionMap[key := id]);
      s := s.(reverseMap := s.reverseMap[id := key]);
      slots := slots[i := s];
    }

    /** The fallback of a heal: the stale id is given up and a new session asked for. */
    method ForgetAndCreate(i: nat, key: SessionKey, r: Replies) returns (ok: bool)
      requires i < |slots|
      modifies this`slots
      ensures var s := old(slots[i]);
              var (s', how) := Recreate(s.(stale := s.stale - {key}), key, r);
              slots == old(slots)[i := s'] && ok == !how.Failed?
    {
      slots := slots[i := slots[i].(stale := slots[i].stale - {key})];
      var id := CreateIn(i, key, r.create);
      assert slots == old(slots)[i := slots[i]];
      ok := id.Some?;
    }

    method Heal(i: nat, key: SessionKey, r: Replies) returns (ok: bool)
      requires i < |slots|
      modifies this`slots, this`history
      ensures (View(), ok) == HealSession(old(View()), i, key, r)
      ensures |slots| == old(|slots|) && (ok ==> key in slots[i].sessionMap)
    {
      assert slots[i := slots[i]] == slots;
      var known := key in slots[i].stale;
      if slots[i].caps.resume && known {
        if !slots[i].connected { return false; }
        if r.resume.Some? {
          RecoverAs(i, key, r.resume.value);
          return true;
        }
      } else if slots[i].caps.load && known {
        if !slots[i].connected { return false; }
        if r.load.Some? {
          RecoverAs(i, key, r.load.value);
          slots := slots[i := slots[i].(awaiting := slots[i].awaiting + {r.load.value})];
          history := Then(history, Loaded(i, {r.load.value}));
          assert slots == old(slots)[i := slots[i]];
          return true;
        }
      }
      ok := ForgetAndCreate(i, key, r);
    }

    // ----- commands from the channels side -----

    method SendSyntheticChunk(key: SessionKey)
      modifies this`history
      ensures View() == SyntheticChunk(old(View()), key)
    {
      if !attached { return; }
      history := Then(history, DispatchStarted(key));
      history := Then(history, Delivered(key, false));
    }

    method SendSyntheticResponse(key: SessionKey)
      modifies this`history
      ensures View() == SyntheticResponse(old(View()), key)
    {
      SendSyntheticChunk(key);
      if !attached { return; }
      history := Then(history, Delivered(key, true));
      history := Then(history, SessionComplete(key));
    }

    /** `mark_idle` as the platform commands call it: the message it returns is dropped. */
    method MarkIdleIgnoringResult(key: SessionKey)
      modifies this`history, queue
      ensures View() == IdleIgnoringResult(old(View()), key)
    {
      var next := queue.MarkIdle(key);
      if next.Some? { history := Then(history, Discarded(key, [next.value])); }
    }

    method PlatformCommandHandler(cmd: PlatformCommand, i: nat, key: SessionKey, r: Replies) returns (ok: bool)
      requires i < |slots|
      modifies this, queue
      ensures (View(), ok) == HandlePlatformCommand(old(View()), cmd, i, key, r)
    {
      Record(CommandRun(key));
      match cmd {
        case New =>
          var s := slots[i];
          s := s.(sessionMap := s.sessionMap - {key});
          s := s.(reverseMap := map a | a in s.reverseMap && s.reverseMap[a] != key :: s.reverseMap[a]);
          slots := slots[i := s];
          var id := CreateIn(i, key, r.create);
          assert slots == old(slots)[i := slots[i]];
          if id.None? { return false; }
          SendSyntheticChunk(key);
          MarkIdleIgnoringResult(key);
        case Cancel =>
          if key in slots[i].sessionMap && slots[i].connected && r.cancelSent {
            SendSyntheticChunk(key);
            MarkIdleIgnoringResult(key);
          } else {
            SendSyntheticResponse(key);
          }
      }
      ok := true;
    }

    method Prompt(agent: string, key: SessionKey, batch: Payload, r: Replies) returns (ok: bool)
      modifies this, queue
      ensures (View(), ok) == PromptSession(old(View()), agent, key, batch, r)
    {
      Record(Batch(key, batch));
      var found := FindSlotByName(agent);
      if found.None? { return false; }
      var i := found.value;
      var cmd := CommandOf(batch.content);
      if cmd.Some? {
        ok := PlatformCommandHandler(cmd.value, i, key, r);
        return;
      }
      if key !in slots[i].sessionMap {
        var healed := Heal(i, key, r);
        if !healed { return false; }
      }
      var id := slots[i].sessionMap[key];
      slots := slots[i := slots[i].(awaiting := slots[i].awaiting - {id})];
      history := Then(history, PromptReady(i, id));
      if !slots[i].connected || !r.promptSent { return false; }
      slots := slots[i := slots[i].(activePrompts := slots[i].activePrompts + {id})];
      outstanding := outstanding + multiset{key};
      history := Then(history, PromptSent(i, id));
      ok := true;
    }

    method Flush(agent: string, key: SessionKey, r: Replies) returns (ok: bool)
      modifies this, queue
      ensures (View(), ok) == FlushAndDispatch(old(View()), agent, key, r)
    {
      ghost var taken := Pending(queue.View(), key);
      var batch := queue.FlushPending(key);
      if batch.None? { return true; }
      history := Then(history, HandedOver(key, taken));
      SendEvent(DispatchStarted(key));
      ok := Prompt(agent, key, batch.value, r);
      history := Then(history, if ok then Reached(key, taken) else Lost(key, taken));
    }

    method HandleEnqueue(agent: string, key: SessionKey, p: Payload, r: Replies) returns (ok: bool)
      modifies this, queue
      ensures (View(), ok) == Enqueue(old(View()), agent, key, p, r)
    {
      var cmd := CommandOf(p.content);
      if cmd.Some? {
        var found := FindSlotByName(agent);
        if found.None? { return false; }
        ok := PlatformCommandHandler(cmd.value, found.value, key, r);
        return;
      }
      var busy := queue.IsActive(key);
      if busy {
        var _ := queue.Push(key, p);
        history := Then(history, Accepted(key, p));
        return true;
      }
      var _ := queue.PushOnly(key, p);
      history := Then(history, Accepted(key, p));
      ok := Flush(agent, key, r);
    }

    method HandleCreateSession(agent: string, key: SessionKey, r: Replies) returns (id: Option<AcpId>)
      modifies this`slots, this`history
      ensures (View(), id) == CreateOrHeal(old(View()), agent, key, r)
    {
      var found := FindSlotByName(agent);
      if found.None? { return None; }
      if key in slots[found.value].stale {
        var healed := Heal(found.value, key, r);
        id := if healed then Some(slots[found.value].sessionMap[key]) else None;
      } else {
        id := CreateIn(found.value, key, r.create);
      }
    }

    method HandleFork(agent: string, key: SessionKey, r: Replies) returns (id: Option<AcpId>)
      modifies this`slots
      ensures (View(), id) == ForkFrom(old(View()), agent, key, r)
    {
      var found := FindSlotByName(agent);
      if found.None? { return None; }
      var s := slots[found.value];
      if !s.caps.fork || key !in s.sessionMap || !s.connected || r.fork.None? {
        assert slots[found.value := s] == slots;
        return None;
      }
      var forkKey := NewKey(ChannelName(key), "fork", r.fork.value);
      s := s.(sessionMap := s.sessionMap[forkKey := r.fork.value]);
      s := s.(reverseMap := s.reverseMap[r.fork.value := forkKey]);
      slots := slots[found.value := s];
      id := r.fork;
    }

    // ----- messages from agents -----

    method Forward(i: nat, id: AcpId, isResult: bool)
      requires i < |slots|
      modifies this`history, this`streamed
      ensures View() == ForwardUpdate(old(View()), i, id, isResult)
    {
      if id in slots[i].awaiting { return; }
      if id in slots[i].reverseMap && attached {
        var key := slots[i].reverseMap[id];
        history := Then(history, Forwarded(i, id, key, isResult));
        if isResult { streamed := streamed + {key}; }
      }
    }

    method ForwardError(i: nat, id: Option<AcpId>)
      requires i < |slots|
      modifies this`history
      ensures View() == ForwardMalformed(old(View()), i, id)
    {
      if id.None? || id.value !in slots[i].reverseMap || !attached { return; }
      history := Then(history, Delivered(slots[i].reverseMap[id.value], true));
    }

    /** `notify_crash_to_channels`: sessions with a running prompt are skipped. */
    method Notify(i: nat)
      requires i < |slots|
      modifies this`slots, this`history
      ensures View() == NotifyCrash(old(View()), i)
    {
      var s := slots[i];
      var rest := s.sessionMap.Keys;
      var notified: set<SessionKey> := {};
      while rest != {}
        invariant rest <= s.sessionMap.Keys
        invariant notified == set k | k in s.sessionMap && k !in rest && s.sessionMap[k] !in s.activePrompts
        decreases |rest|
      {
        var k :| k in rest;
        rest := rest - {k};
        if s.sessionMap[k] !in s.activePrompts { notified := notified + {k}; }
      }
      assert notified == Notified(s);
      SendEvent(CrashNotices(i, notified));
      slots := slots[i := s.(activePrompts := {})];
      history := Then(history, PromptsForgotten(i));
    }

    /** The loop that drains the stale sessions into the live map, putting `returned` in place of
        `attempted`. */
    method DrainStale(i: nat, attempted: AcpId, returned: AcpId)
      requires i < |slots|
      modifies this`slots
      ensures slots == old(slots)[i := old(slots[i]).(
                sessionMap := old(slots[i]).sessionMap + Remap(old(slots[i]).stale, attempted, returned),
                stale := map[])]
    {
      var s := slots[i];
      var stale, live := s.stale, s.sessionMap;
      var rest := stale.Keys;
      ghost var moved: map<SessionKey, AcpId> := map[];
      while rest != {}
        invariant rest <= stale.Keys
        invariant moved == map k | k in stale && k !in rest :: if stale[k] == attempted then returned else stale[k]
        invariant live == s.sessionMap + moved
        decreases |rest|
      {
        var k :| k in rest;
        rest := rest - {k};
        live := live[k := if stale[k] == attempted then returned else stale[k]];
        moved := moved[k := if stale[k] == attempted then returned else stale[k]];
      }
      assert moved == Remap(stale, attempted, returned);
      slots := slots[i := s.(sessionMap := live, stale := map[])];
    }

    /** `try_restore_session`: ask the agent about whichever stale session the hash map yields first. */
    method TryRestore(i: nat, order: HashOrder, r: Replies) returns (ok: bool)
      requires i < |slots|
      modifies this`slots, this`history
      ensures var (s, how) := RestoreStale(old(slots[i]), order, r);
              && ok == !how.Failed?
              && slots == old(slots)[i := s]
              && history == if how.Reloaded? then Then(old(history), Loaded(i, s.sessionMap.Values)) else old(history)
    {
      var s := slots[i];
      assert slots[i := s] == slots;
      if s.stale == map[] { return false; }
      assert s.stale.Keys != {};
      var attempted := s.stale[order(s.stale.Keys)];
      var reply := if s.caps.resume then r.resume else if s.caps.load then r.load else None;
      if reply.None? { return false; }
      DrainStale(i, attempted, reply.value);
      if !s.caps.resume {
        slots := slots[i := slots[i].(awaiting := slots[i].awaiting + slots[i].sessionMap.Values)];
        history := Then(history, Loaded(i, slots[i].sessionMap.Values));
      }
      assert slots == old(slots)[i := slots[i]];
      ok := true;
    }

    method StartAfresh(i: nat, r: Replies)
      requires i < |slots|
      modifies this`slots
      ensures slots == old(slots)[i := Afresh(old(slots[i]), r)]
    {
      var s := slots[i];
      if s.connected && r.create.Some? {
        s := s.(reverseMap := map[]);
        var key := DefaultKey(s);
        s := s.(sessionMap := s.sessionMap[key := r.create.value]);
        s := s.(reverseMap := s.reverseMap[r.create.value := key]);
      } else {
        s := s.(connected := false);
      }
      slots := slots[i := s];
    }

    /** Every live session becomes a stale one, and replay suppression ends. */
    method DrainLive(i: nat)
      requires i < |slots|
      modifies this`slots, this`history
      ensures slots == old(slots)[i := Drained(old(slots[i]))]
      ensures history == Then(old(history), ReplayWiped(i))
    {
      slots := slots[i := slots[i].(stale := slots[i].stale + slots[i].sessionMap, sessionMap := map[])];
      slots := slots[i := slots[i].(awaiting := {})];
      history := Then(history, ReplayWiped(i));
    }

    /** `restore_or_start_session` on a slot that has just been respawned. */
    method RestoreOrStart(i: nat, order: HashOrder, r: Replies)
      requires i < |slots|
      modifies this`slots, this`history
      ensures View() == RestoreSlot(old(View()), i, order, r)
    {
      ghost var before := slots[i];
      DrainLive(i);
      DrainedRestores(before, order, r);
      var restored := TryRestore(i, order, r);
      if !restored { StartAfresh(i, r); }
      assert slots == old(slots)[i := Restore(before, order, r).0];
    }

    method Crash(i: nat, c: CrashOutcome)
      requires i < |slots|
      modifies this`slots, this`history
      ensures View() == HandleCrash(old(View()), i, c)
    {
      slots := slots[i := slots[i].(connected := false)];
      if !c.restart {
        slots := slots[i := slots[i].(disabled := true)];
        return;
      }
      Notify(i);
      if !c.respawned { return; }
      slots := slots[i := slots[i].(connected := true, caps := c.caps)];
      RestoreOrStart(i, c.order, c.replies);
    }

    method Receive(msg: Incoming)
      modifies this`slots, this`history, this`streamed
      ensures View() == HandleIncoming(old(View()), msg)
    {
      if msg.slot >= |slots| { return; }
      match msg {
        case Update(i, id, isResult) => Forward(i, id, isResult);
        case Malformed(i, id) => ForwardError(i, id);
        case Exited(i, c) => Crash(i, c);
      }
    }

    // ----- prompt completion -----

    method ExpireSession(key: SessionKey)
      modifies this`slots
      ensures slots == ExpireIn(old(slots), key, |old(slots)|)
    {
      var n := 0;
      assert slots == ExpireIn(slots, key, 0);
      while n < |slots|
        invariant 0 <= n <= |slots| == |old(slots)|
        invariant slots == ExpireIn(old(slots), key, n)
      {
        var s := slots[n];
        if key in s.sessionMap {
          var id := s.sessionMap[key];
          s := s.(sessionMap := s.sessionMap - {key});
          s := s.(stale := s.stale[key := id]);
          s := s.(reverseMap := s.reverseMap - {id});
          slots := slots[n := s];
        }
        n := n + 1;
      }
    }

    /** Merges the first waiting message with the rest; the latest metadata wins. */
    method MergeWaiting(first: Payload, rest: seq<Payload>) returns (batch: Payload)
      ensures batch == Payload(Flatten([first] + rest), LastMetadata([first] + rest))
    {
      var content, metadata := first.content, first.metadata;
      assert ([first] + rest)[..1] == [first];
      for n := 0 to |rest|
        invariant content == Flatten(([first] + rest)[..n + 1])
        invariant metadata == LastMetadata(([first] + rest)[..n + 1])
      {
        assert ([first] + rest)[..n + 2][..n + 1] == ([first] + rest)[..n + 1];
        content := content + rest[n].content;
        if rest[n].metadata.Some? { metadata := rest[n].metadata; }
      }
      assert ([first] + rest)[..|rest| + 1] == [first] + rest;
      batch := Payload(content, metadata);
    }

    method DispatchNext(key: SessionKey, r: Replies)
      modifies this, queue
      ensures View() == DispatchWaiting(old(View()), key, r)
    {
      IdleThenDrain(queue.View(), key);
      var first := queue.MarkIdle(key);
      if first.None? { return; }
      var rest := queue.DrainQueued(key);
      var batch := MergeWaiting(first.value, rest);
      ghost var waiting := [first.value] + rest;
      var agent := FindOwnerName(key);
      if agent == "" {
        history := Then(history, Discarded(key, waiting));
        return;
      }
      history := Then(history, HandedOver(key, waiting));
      SendEvent(DispatchStarted(key));
      var ok := Prompt(agent, key, batch, r);
      history := Then(history, if ok then Reached(key, waiting) else Lost(key, waiting));
    }

    method HandlePromptCompletion(c: Completion, pending: seq<Incoming>, r: Replies)
      requires c.key in outstanding
      modifies this, queue
      ensures View() == HandleCompletion(old(View()), c, pending, r)
    {
      outstanding := outstanding - multiset{c.key};
      ghost var m0 := View();
      for n := 0 to |pending|
        invariant View() == HandleAll(m0, pending[..n])
      {
        assert pending[..n + 1][..n] == pending[..n];
        Receive(pending[n]);
      }
      assert pending[..|pending|] == pending;
      var gotResult := c.key in streamed;
      streamed := streamed - {c.key};
      history := Then(history, Answered(c.key));
      if c.expired { ExpireSession(c.key); }
      if attached {
        if !gotResult { history := Then(history, Delivered(c.key, true)); }
        history := Then(history, SessionComplete(c.key));
      }
      DispatchNext(c.key, r);
    }

    // ----- the event loop -----

    method HandleEvent(e: Event)
      modifies this, queue
      ensures View() == Step(old(View()), e)
    {
      match e {
        case EnqueueMessage(agent, key, p, r) => var _ := HandleEnqueue(agent, key, p, r);
        case CreateSession(agent, key, r) => var _ := HandleCreateSession(agent, key, r);
        case ForkSession(agent, key, r) => var _ := HandleFork(agent, key, r);
        case FromAgent(msg) =>
          if !(msg.Exited? && msg.slot < |slots| && slots[msg.slot].disabled) { Receive(msg); }
        case PromptDone(c, drained, r) =>
          if c.key in outstanding { HandlePromptCompletion(c, drained, r); }
      }
    }

    /** The event loop: after every turn the object is in the state the run prescribes, and for
        every session the protocol holds. */
    method RunLoop(events: seq<Event>)
      requires Started(View())
      modifies this, queue
      ensures View() == Run(old(View()), events)
      ensures forall k :: AgentsProtocol.Protocol(View(), k)
    {
      for n := 0 to |events|
        invariant View() == Run(old(View()), events[..n])
      {
        assert events[..n + 1][..n] == events[..n];
        HandleEvent(events[n]);
      }
      assert events[..|events|] == events;
      forall k ensures AgentsProtocol.Protocol(View(), k) {
        AgentsProtocol.ProtocolHolds(old(View()), events, k);
      }
    }
  }
}
