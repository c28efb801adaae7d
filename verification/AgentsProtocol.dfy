/** What every run of the agents manager keeps for every session key: no message is lost or
    reordered unnoticed, prompts per session are bounded, and no completion outruns its result. */
module AgentsProtocol {
  import opened Options
  import opened Messages
  import opened PlatformCommands
  import opened SessionQueues
  import opened Histories
  import opened AgentSlots
  import opened Agents
  import opened SessionViews

  function ActiveCount(m: Manager, k: SessionKey): nat { if k in m.queue.active then 1 else 0 }

  function StreamedCount(m: Manager, k: SessionKey): nat { if k in m.streamed then 1 else 0 }

  /** Accepted messages are the removed ones followed by the waiting ones, in order. */
  predicate Conserved(m: Manager, k: SessionKey) {
    AcceptedBy(m.history, k) == RemovedFrom(m.history, k) + Pending(m.queue, k)
  }

  /** What was handed over is what `prompt_session` was given. */
  predicate Delivers(m: Manager, k: SessionKey) {
    Flatten(HandedTo(m.history, k)) == Prompted(m.history, k)
  }

  predicate Bounded(m: Manager, k: SessionKey) {
    m.outstanding[k] <= Commands(m.history, k) + ActiveCount(m, k)
  }

  predicate ResultsLead(m: Manager, k: SessionKey) {
    && Completions(m.history, k) + StreamedCount(m, k) <= Results(m.history, k)
    && ResultFirst(m.history, k)
  }

  /** The part that holds in the middle of a step as well. */
  predicate Steady(m: Manager, k: SessionKey) {
    && Conserved(m, k)
    && Delivers(m, k)
    && Bounded(m, k)
    && ResultsLead(m, k)
    && NoCommands(Pending(m.queue, k))
    && BatchesArePlain(m.history, k)
  }

  predicate Protocol(m: Manager, k: SessionKey) {
    Steady(m, k) && (Pending(m.queue, k) != [] ==> k in m.queue.active)
  }

  // ----- pieces of steps -----

  /** Entries that neither move messages of `k` nor complete one of its prompts. */
  predicate Harmless(e: Entry, k: SessionKey) {
    match e
    case Accepted(j, _) => j != k
    case HandedOver(j, _) => j != k
    case Discarded(j, _) => j != k
    case Batch(j, _) => j != k
    case SessionComplete(j) => j != k
    case _ => true
  }

  /** Neither the queue nor the running prompts nor anything else `k` can see has changed. */
  predicate QueueUntouched(m: Manager, m': Manager, k: SessionKey) {
    m'.queue == m.queue && m'.outstanding == m.outstanding && ViewOf(m', k) == ViewOf(m, k)
  }

  /** Entries the session of `k` sees nothing of. */
  predicate Unseen(e: Entry, k: SessionKey) {
    match e
    case Accepted(j, _) => j != k
    case Reached(j, _) => j != k
    case Lost(j, _) => j != k
    case Discarded(j, _) => j != k
    case CommandRun(j) => j != k
    case _ => true
  }

  lemma NoteUnseen(m: Manager, e: Entry, k: SessionKey)
    requires Unseen(e, k)
    ensures QueueUntouched(m, Note(m, e), k) && QueueUntouched(m, Send(m, e), k)
  {
  }

  lemma NoteKeeps(m: Manager, e: Entry, k: SessionKey)
    requires Protocol(m, k) && Harmless(e, k)
    ensures Protocol(Note(m, e), k)
    ensures Results(Note(m, e).history, k) == Results(m.history, k) + if IsResultFor(e, k) then 1 else 0
    ensures Unseen(e, k) ==> QueueUntouched(m, Note(m, e), k)
  {
  }

  lemma ChunkKeeps(m: Manager, key: SessionKey, k: SessionKey)
    requires Protocol(m, k)
    ensures Protocol(SyntheticChunk(m, key), k)
    ensures Commands(SyntheticChunk(m, key).history, k) == Commands(m.history, k)
  {
    NoteKeeps(m, DispatchStarted(key), k);
    NoteKeeps(Send(m, DispatchStarted(key)), Delivered(key, false), k);
  }

  lemma ResponseKeeps(m: Manager, key: SessionKey, k: SessionKey)
    requires Protocol(m, k)
    ensures Protocol(SyntheticResponse(m, key), k)
  {
    ChunkKeeps(m, key, k);
    var m1 := SyntheticChunk(m, key);
    NoteKeeps(m1, Delivered(key, true), k);
    if k != key { NoteKeeps(Send(m1, Delivered(key, true)), SessionComplete(key), k); }
  }

  lemma IdleKeeps(m: Manager, key: SessionKey, k: SessionKey)
    requires Protocol(m, k)
    requires k == key ==> m.outstanding[k] <= Commands(m.history, k)
    ensures Protocol(IdleIgnoringResult(m, key), k)
  {
    var waiting := Pending(m.queue, key);
    if key == k && waiting != [] {
      assert waiting == [waiting[0]] + waiting[1..];
      assert RemovedFrom(m.history, k) + ([waiting[0]] + waiting[1..])
          == (RemovedFrom(m.history, k) + [waiting[0]]) + waiting[1..];
      assert Pending(AfterMarkIdle(m.queue, k), k) == waiting[1..];
    }
  }

  lemma CommandKeeps(m: Manager, cmd: PlatformCommand, i: nat, key: SessionKey, r: Replies, k: SessionKey)
    requires i < |m.slots| && Protocol(m, k)
    ensures Protocol(HandlePlatformCommand(m, cmd, i, key, r).0, k)
  {
    var m1 := Note(m, CommandRun(key));
    NoteKeeps(m, CommandRun(key), k);
    match cmd
    case New =>
      var m2 := SetSlot(m1, i, Create(ForgetSession(m1.slots[i], key), key, r.create).0);
      ChunkKeeps(m2, key, k);
      IdleKeeps(SyntheticChunk(m2, key), key, k);
    case Cancel =>
      if Cancels(m1.slots[i], key, r) {
        ChunkKeeps(m1, key, k);
        IdleKeeps(SyntheticChunk(m1, key), key, k);
      } else {
        ResponseKeeps(m1, key, k);
      }
  }

  lemma HealKeeps(m: Manager, i: nat, key: SessionKey, r: Replies, k: SessionKey)
    requires i < |m.slots| && Protocol(m, k)
    ensures var m' := HealSession(m, i, key, r).0;
            && Protocol(m', k)
            && QueueUntouched(m, m', k)
  {
    var (slot, how) := Heal(m.slots[i], key, r);
    if how.Reloaded? { NoteKeeps(SetSlot(m, i, slot), Loaded(i, {how.id}), k); }
  }

  lemma PromptLiveKeeps(m: Manager, i: nat, key: SessionKey, r: Replies, k: SessionKey)
    requires i < |m.slots| && key in m.slots[i].sessionMap
    requires Protocol(m, k)
    requires k == key ==> k in m.queue.active && m.outstanding[k] <= Commands(m.history, k)
    ensures Protocol(PromptLive(m, i, key, r).0, k)
  {
    var slot := m.slots[i];
    var id := slot.sessionMap[key];
    var m0 := SetSlot(m, i, slot.(awaiting := slot.awaiting - {id}));
    NoteKeeps(m0, PromptReady(i, id), k);
    var m1 := Note(m0, PromptReady(i, id));
    if slot.connected && r.promptSent {
      NoteKeeps(m1.(outstanding := m1.outstanding + multiset{key}), PromptSent(i, id), k);
    }
  }

  /** A session that has just given up its queue and has room for one more prompt. */
  predicate Yields(m: Manager, key: SessionKey, taken: seq<Payload>) {
    && AcceptedBy(m.history, key) == RemovedFrom(m.history, key) + taken
    && Pending(m.queue, key) == [] && key in m.queue.active
    && m.outstanding[key] <= Commands(m.history, key)
    && Delivers(m, key) && ResultsLead(m, key) && BatchesArePlain(m.history, key)
  }

  /** `taken` has been noted as handed over, but `prompt_session` has not been called yet. */
  predicate Promised(m: Manager, key: SessionKey, taken: seq<Payload>) {
    && AcceptedBy(m.history, key) == RemovedFrom(m.history, key)
    && Flatten(HandedTo(m.history, key)) == Prompted(m.history, key) + Flatten(taken)
    && Pending(m.queue, key) == [] && key in m.queue.active
    && m.outstanding[key] <= Commands(m.history, key)
    && ResultsLead(m, key) && BatchesArePlain(m.history, key)
  }

  lemma HandedKeeps(m: Manager, key: SessionKey, taken: seq<Payload>)
    requires Yields(m, key, taken)
    ensures Promised(Note(m, HandedOver(key, taken)), key, taken)
  {
    FlattenConcat(HandedTo(m.history, key), taken);
  }

  lemma StartedKeeps(m: Manager, key: SessionKey, taken: seq<Payload>)
    requires Promised(m, key, taken)
    ensures Promised(Send(m, DispatchStarted(key)), key, taken)
  {
  }

  lemma BatchKeeps(m: Manager, key: SessionKey, taken: seq<Payload>, meta: Option<MessageMetadata>)
    requires NoCommands(taken) && Promised(m, key, taken)
    ensures Protocol(Note(m, Batch(key, Payload(Flatten(taken), meta))), key)
    ensures Commands(Note(m, Batch(key, Payload(Flatten(taken), meta))).history, key) == Commands(m.history, key)
  {
    CoalescingIsPlain(taken);
    var m' := Note(m, Batch(key, Payload(Flatten(taken), meta)));
    assert Conserved(m', key) by {
      assert RemovedFrom(m.history, key) + Pending(m.queue, key) == RemovedFrom(m.history, key);
    }
  }

  /** Prompting with a plain batch keeps the protocol, if the session has room for one more prompt. */
  lemma PromptKeeps(m: Manager, agent: string, key: SessionKey, batch: Payload, r: Replies, k: SessionKey)
    requires CommandOf(batch.content).None? && Protocol(Note(m, Batch(key, batch)), k)
    requires k == key ==> k in m.queue.active && m.outstanding[k] <= Commands(m.history, k)
    ensures Protocol(PromptSession(m, agent, key, batch, r).0, k)
  {
    var m1 := Note(m, Batch(key, batch));
    var found := FindSlot(m1.slots, agent);
    if found.Some? {
      var i := found.value;
      if key in m1.slots[i].sessionMap {
        PromptLiveKeeps(m1, i, key, r, k);
      } else {
        HealKeeps(m1, i, key, r, k);
        var (m2, healed) := HealSession(m1, i, key, r);
        if healed { PromptLiveKeeps(m2, i, key, r, k); }
      }
    }
  }

  /** Handing `taken` over keeps the protocol, provided it has just left the queue and the
      session has room for one more prompt. */
  lemma HandOverKeeps(m: Manager, agent: string, key: SessionKey, taken: seq<Payload>,
      meta: Option<MessageMetadata>, r: Replies, k: SessionKey)
    requires NoCommands(taken)
    requires if k == key then Yields(m, key, taken) else Protocol(m, k)
    ensures Protocol(HandOver(m, agent, key, taken, meta, r).0, k)
  {
    var m0 := Send(Note(m, HandedOver(key, taken)), DispatchStarted(key));
    var batch := Payload(Flatten(taken), meta);
    if k != key {
      NoteKeeps(m, HandedOver(key, taken), k);
      NoteKeeps(Note(m, HandedOver(key, taken)), DispatchStarted(key), k);
      NoteKeeps(m0, Batch(key, batch), k);
    } else {
      HandedKeeps(m, key, taken);
      StartedKeeps(Note(m, HandedOver(key, taken)), key, taken);
      BatchKeeps(m0, key, taken, meta);
    }
    CoalescingIsPlain(taken);
    PromptKeeps(m0, agent, key, batch, r, k);
    var (m', ok) := PromptSession(m0, agent, key, batch, r);
    NoteKeeps(m', if ok then Reached(key, taken) else Lost(key, taken), k);
  }

  /** A message on the queue of a busy session stays there. */
  lemma QueuedKeeps(m: Manager, key: SessionKey, p: Payload, k: SessionKey)
    requires Protocol(m, k) && CommandOf(p.content).None?
    ensures var queued := Note(m.(queue := Append(m.queue, key, p)), Accepted(key, p));
            && Steady(queued, k)
            && (k != key || key in m.queue.active ==> Protocol(queued, k))
  {
    var queued := Note(m.(queue := Append(m.queue, key, p)), Accepted(key, p));
    if k == key {
      assert RemovedFrom(m.history, k) + (Pending(m.queue, k) + [p])
          == (RemovedFrom(m.history, k) + Pending(m.queue, k)) + [p];
      assert Pending(queued.queue, k) == Pending(m.queue, k) + [p];
    } else {
      NoteKeeps(m, Accepted(key, p), k);
      assert Pending(queued.queue, k) == Pending(m.queue, k);
    }
  }

  /** A message for an idle session leaves the queue at once. */
  lemma FlushKeeps(m: Manager, agent: string, key: SessionKey, r: Replies, k: SessionKey)
    requires Steady(m, key) && key !in m.queue.active && Pending(m.queue, key) != []
    requires k != key ==> Protocol(m, k)
    ensures Protocol(FlushAndDispatch(m, agent, key, r).0, k)
  {
    var flushed := m.(queue := AfterFlush(m.queue, key));
    assert k != key ==> Pending(flushed.queue, k) == Pending(m.queue, k);
    HandOverKeeps(flushed, agent, key, Pending(m.queue, key), FirstMetadata(Pending(m.queue, key)), r, k);
  }

  lemma EnqueueKeeps(m: Manager, agent: string, key: SessionKey, p: Payload, r: Replies, k: SessionKey)
    requires Protocol(m, k) && Protocol(m, key)
    ensures Protocol(Enqueue(m, agent, key, p, r).0, k)
  {
    if CommandOf(p.content).Some? {
      var slot := FindSlot(m.slots, agent);
      if slot.Some? { CommandKeeps(m, CommandOf(p.content).value, slot.value, key, r, k); }
    } else {
      QueuedKeeps(m, key, p, k);
      if key !in m.queue.active {
        QueuedKeeps(m, key, p, key);
        FlushKeeps(Note(m.(queue := Append(m.queue, key, p)), Accepted(key, p)), agent, key, r, k);
      }
    }
  }

  lemma IncomingKeeps(m: Manager, msg: Incoming, k: SessionKey)
    requires Protocol(m, k)
    ensures Protocol(HandleIncoming(m, msg), k)
    ensures QueueUntouched(m, HandleIncoming(m, msg), k)
  {
    if msg.slot < |m.slots| {
      match msg
      case Update(i, id, isResult) =>
        if id in m.slots[i].reverseMap { NoteKeeps(m, Forwarded(i, id, m.slots[i].reverseMap[id], isResult), k); }
      case Malformed(i, id) =>
        if id.Some? && id.value in m.slots[i].reverseMap {
          NoteKeeps(m, Delivered(m.slots[i].reverseMap[id.value], true), k);
        }
      case Exited(i, c) => CrashKeeps(m, i, c, k);
    }
  }

  lemma CrashKeeps(m: Manager, i: nat, c: CrashOutcome, k: SessionKey)
    requires Protocol(m, k) && i < |m.slots|
    ensures Protocol(HandleCrash(m, i, c), k)
    ensures QueueUntouched(m, HandleCrash(m, i, c), k)
  {
    if c.restart {
      var m0 := SetSlot(m, i, m.slots[i].(connected := false));
      var notices := CrashNotices(i, Notified(m0.slots[i]));
      NoteKeeps(m0, notices, k);
      NoteKeeps(SetSlot(Send(m0, notices), i, m0.slots[i].(activePrompts := {})), PromptsForgotten(i), k);
      var m1 := NotifyCrash(m0, i);
      if c.respawned {
        RestoreKeeps(SetSlot(m1, i, m1.slots[i].(connected := true, caps := c.caps)), i, c.order, c.replies, k);
      }
    }
  }

  lemma RestoreKeeps(m: Manager, i: nat, order: HashOrder, r: Replies, k: SessionKey)
    requires Protocol(m, k) && i < |m.slots|
    ensures Protocol(RestoreSlot(m, i, order, r), k)
    ensures QueueUntouched(m, RestoreSlot(m, i, order, r), k)
  {
    var (slot, how) := Restore(m.slots[i], order, r);
    NoteKeeps(SetSlot(m, i, slot), ReplayWiped(i), k);
    NoteKeeps(Note(SetSlot(m, i, slot), ReplayWiped(i)), Loaded(i, slot.sessionMap.Values), k);
  }

  lemma {:induction false} AllIncomingKeeps(m: Manager, msgs: seq<Incoming>, k: SessionKey)
    requires Protocol(m, k)
    ensures Protocol(HandleAll(m, msgs), k)
    ensures QueueUntouched(m, HandleAll(m, msgs), k)
  {
    if msgs != [] {
      AllIncomingKeeps(m, msgs[..|msgs| - 1], k);
      IncomingKeeps(HandleAll(m, msgs[..|msgs| - 1]), msgs[|msgs| - 1], k);
    }
  }

  lemma CompleteKeeps(m: Manager, k: SessionKey)
    requires Protocol(m, k)
    requires m.attached ==> Completions(m.history, k) + StreamedCount(m, k) < Results(m.history, k)
    ensures Protocol(Send(m, SessionComplete(k)), k)
  {
  }

  /** A completed session has a result to spare: one that was streamed or one made for it. */
  lemma ResultKeeps(m: Manager, c: Completion, k: SessionKey)
    requires Protocol(m, k)
    ensures var m1 := Settle(m, c);
            var m2 := if c.key in m.streamed then m1 else Send(m1, Delivered(c.key, true));
            && Protocol(m2, k) && Commands(m2.history, k) == Commands(m.history, k)
            && (c.key == k && m.attached ==>
                  Completions(m2.history, k) + StreamedCount(m2, k) < Results(m2.history, k))
  {
    var m1 := Settle(m, c);
    assert Commands(m1.history, k) == Commands(m.history, k);
    if c.key !in m.streamed { NoteKeeps(m1, Delivered(c.key, true), k); }
  }

  /** Reporting a completion uses up the streamed result or makes its own. */
  lemma ReportKeeps(m: Manager, c: Completion, k: SessionKey)
    requires Protocol(m, k)
    ensures Protocol(ReportCompletion(Settle(m, c), c.key, c.key in m.streamed), k)
    ensures Commands(ReportCompletion(Settle(m, c), c.key, c.key in m.streamed).history, k) == Commands(m.history, k)
  {
    ResultKeeps(m, c, k);
    var m2 := if c.key in m.streamed then Settle(m, c) else Send(Settle(m, c), Delivered(c.key, true));
    if c.key != k {
      NoteKeeps(m2, SessionComplete(c.key), k);
    } else {
      CompleteKeeps(m2, k);
    }
  }

  lemma WaitingKeeps(m: Manager, key: SessionKey, r: Replies, k: SessionKey)
    requires Protocol(m, k) && Protocol(m, key)
    requires m.outstanding[key] <= Commands(m.history, key)
    ensures Protocol(DispatchWaiting(m, key, r), k)
  {
    IdleThenDrain(m.queue, key);
    var waiting := Pending(m.queue, key);
    var idle := m.(queue := AfterMarkIdle(m.queue, key));
    var drained := idle.(queue := AfterDrain(idle.queue, key));
    if waiting != [] && OwnerName(m.slots, key) != "" {
      HandOverKeeps(drained, OwnerName(m.slots, key), key, waiting, LastMetadata(waiting), r, k);
    }
  }

  lemma CompletionKeeps(m: Manager, c: Completion, msgs: seq<Incoming>, r: Replies, k: SessionKey)
    requires Protocol(m, k) && Protocol(m, c.key) && c.key in m.outstanding
    ensures Protocol(HandleCompletion(m, c, msgs, r), k)
  {
    var m0 := m.(outstanding := m.outstanding - multiset{c.key});
    assert Protocol(m0, k) && Protocol(m0, c.key);
    AllIncomingKeeps(m0, msgs, k);
    AllIncomingKeeps(m0, msgs, c.key);
    var m1 := HandleAll(m0, msgs);
    ReportKeeps(m1, c, k);
    ReportKeeps(m1, c, c.key);
    WaitingKeeps(ReportCompletion(Settle(m1, c), c.key, c.key in m1.streamed), c.key, r, k);
  }

  // ----- main results -----

  function KeyOf(e: Event): SessionKey {
    if e.PromptDone? then e.completion.key else if e.FromAgent? then "" else e.key
  }

  lemma CallersKeep(m: Manager, agent: string, key: SessionKey, r: Replies, k: SessionKey)
    requires Protocol(m, k)
    ensures Protocol(Step(m, CreateSession(agent, key, r)), k)
    ensures Protocol(Step(m, ForkSession(agent, key, r)), k)
  {
    var slot := FindSlot(m.slots, agent);
    if slot.Some? { HealKeeps(m, slot.value, key, r, k); }
  }

  lemma MessageKeeps(m: Manager, agent: string, key: SessionKey, p: Payload, r: Replies, k: SessionKey)
    requires Protocol(m, k) && Protocol(m, key)
    ensures Protocol(Step(m, EnqueueMessage(agent, key, p, r)), k)
  {
    EnqueueKeeps(m, agent, key, p, r, k);
  }

  lemma AgentKeeps(m: Manager, msg: Incoming, k: SessionKey)
    requires Protocol(m, k)
    ensures Protocol(Step(m, FromAgent(msg)), k)
  {
    IncomingKeeps(m, msg, k);
  }

  lemma AnswerKeeps(m: Manager, c: Completion, drained: seq<Incoming>, r: Replies, k: SessionKey)
    requires Protocol(m, k) && Protocol(m, c.key)
    ensures Protocol(Step(m, PromptDone(c, drained, r)), k)
  {
    if c.key in m.outstanding {
      CompletionKeeps(m, c, drained, r, k);
      assert Step(m, PromptDone(c, drained, r)) == HandleCompletion(m, c, drained, r);
    }
  }

  lemma StepKeeps(m: Manager, e: Event, k: SessionKey)
    requires Protocol(m, k) && Protocol(m, KeyOf(e))
    ensures Protocol(Step(m, e), k)
  {
    match e
    case EnqueueMessage(agent, key, p, r) => MessageKeeps(m, agent, key, p, r, k);
    case CreateSession(agent, key, r) => CallersKeep(m, agent, key, r, k);
    case ForkSession(agent, key, r) => CallersKeep(m, agent, key, r, k);
    case FromAgent(msg) => AgentKeeps(m, msg, k);
    case PromptDone(c, drained, r) => AnswerKeeps(m, c, drained, r, k);
  }

  /** Every reachable state keeps the whole protocol for every session key. */
  lemma {:induction false} ProtocolHolds(m: Manager, events: seq<Event>, k: SessionKey)
    requires Started(m)
    ensures Protocol(Run(m, events), k)
  {
    if events != [] {
      var before := events[..|events| - 1];
      ProtocolHolds(m, before, k);
      ProtocolHolds(m, before, KeyOf(events[|events| - 1]));
      StepKeeps(Run(m, before), events[|events| - 1], k);
    }
  }
}
