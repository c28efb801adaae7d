/** The agents manager as a state machine: each handler of its event loop is one step on values.
    The class in AgentsManager.dfy performs the same steps in place. */
module Agents {
  import opened Options
  import opened Messages
  import opened PlatformCommands
  import opened SessionQueues
  import opened Histories
  import opened AgentSlots

  datatype Manager = Manager(
    slots: seq<Slot>,
    queue: Queue,
    streamed: set<SessionKey>,           // streaming_completed
    outstanding: multiset<SessionKey>,   // prompt tasks still running
    attached: bool,                      // a channels sender was configured
    history: History)

  /** How a crashed agent came back: `restart` is the crash tracker's verdict, `order` the hash
      map's iteration order, `caps` what a respawned agent announces. */
  datatype CrashOutcome = CrashOutcome(
    restart: bool, respawned: bool, caps: Capabilities, order: HashOrder, replies: Replies)

  datatype Incoming =
    | Update(slot: nat, id: AcpId, isResult: bool)
    | Malformed(slot: nat, malformedId: Option<AcpId>)
    | Exited(slot: nat, outcome: CrashOutcome)

  datatype Completion = Completion(key: SessionKey, expired: bool)

  datatype Event =
    | EnqueueMessage(agent: string, key: SessionKey, payload: Payload, replies: Replies)
    | CreateSession(agent: string, key: SessionKey, replies: Replies)
    | ForkSession(agent: string, key: SessionKey, replies: Replies)
    | FromAgent(incoming: Incoming)
    | PromptDone(completion: Completion, drained: seq<Incoming>, replies: Replies)

  // ----- single effects -----

  function Note(m: Manager, e: Entry): Manager { m.(history := Then(m.history, e)) }

  /** An event for the channels manager; without a sender nothing is sent. */
  function Send(m: Manager, e: Entry): Manager { if m.attached then Note(m, e) else m }

  function SetSlot(m: Manager, i: nat, s: Slot): Manager
    requires i < |m.slots|
  {
    m.(slots := m.slots[i := s])
  }

  /** `mark_idle` with its result ignored: whatever it takes off the queue is gone. */
  function IdleIgnoringResult(m: Manager, key: SessionKey): Manager {
    var idle := m.(queue := AfterMarkIdle(m.queue, key));
    match MarkIdleResult(m.queue, key)
    case None => idle
    case Some(p) => Note(idle, Discarded(key, [p]))
  }

  function SyntheticChunk(m: Manager, key: SessionKey): Manager {
    Send(Send(m, DispatchStarted(key)), Delivered(key, false))
  }

  function SyntheticResponse(m: Manager, key: SessionKey): Manager {
    Send(Send(SyntheticChunk(m, key), Delivered(key, true)), SessionComplete(key))
  }

  // ----- commands -----

  function HandleNew(m: Manager, i: nat, key: SessionKey, r: Replies): (Manager, bool)
    requires i < |m.slots|
  {
    var (slot, id) := Create(ForgetSession(m.slots[i], key), key, r.create);
    var m' := SetSlot(m, i, slot);
    if id.None? then (m', false) else (IdleIgnoringResult(SyntheticChunk(m', key), key), true)
  }

  predicate Cancels(s: Slot, key: SessionKey, r: Replies) {
    key in s.sessionMap && s.connected && r.cancelSent
  }

  function HandleCancel(m: Manager, i: nat, key: SessionKey, r: Replies): Manager
    requires i < |m.slots|
  {
    if Cancels(m.slots[i], key, r) then IdleIgnoringResult(SyntheticChunk(m, key), key)
    else SyntheticResponse(m, key)
  }

  function HandlePlatformCommand(m: Manager, cmd: PlatformCommand, i: nat, key: SessionKey, r: Replies): (Manager, bool)
    requires i < |m.slots|
  {
    var m' := Note(m, CommandRun(key));
    match cmd
    case New => HandleNew(m', i, key, r)
    case Cancel => (HandleCancel(m', i, key, r), true)
  }

  /** `heal_session` on slot `i`; a replay loaded by session/load is noted. */
  function HealSession(m: Manager, i: nat, key: SessionKey, r: Replies): (Manager, bool)
    requires i < |m.slots|
    ensures var (m', ok) := HealSession(m, i, key, r);
            |m'.slots| == |m.slots| && (ok ==> key in m'.slots[i].sessionMap)
  {
    var (slot, how) := Heal(m.slots[i], key, r);
    var m' := SetSlot(m, i, slot);
    match how
    case Failed => (m', false)
    case Reloaded(id) => (Note(m', Loaded(i, {id})), true)
    case _ => (m', true)
  }

  /** The part of `prompt_session` that talks to a session known to exist. */
  function PromptLive(m: Manager, i: nat, key: SessionKey, r: Replies): (Manager, bool)
    requires i < |m.slots| && key in m.slots[i].sessionMap
  {
    var slot := m.slots[i];
    var id := slot.sessionMap[key];
    var m1 := Note(SetSlot(m, i, slot.(awaiting := slot.awaiting - {id})), PromptReady(i, id));
    if !slot.connected || !r.promptSent then (m1, false)
    else
      var s1 := m1.slots[i];
      var m2 := SetSlot(m1, i, s1.(activePrompts := s1.activePrompts + {id}));
      (Note(m2.(outstanding := m2.outstanding + multiset{key}), PromptSent(i, id)), true)
  }

  function PromptSession(m: Manager, agent: string, key: SessionKey, batch: Payload, r: Replies): (Manager, bool) {
    var m1 := Note(m, Batch(key, batch));
    match FindSlot(m1.slots, agent)
    case None => (m1, false)
    case Some(i) =>
      match CommandOf(batch.content)
      case Some(cmd) => HandlePlatformCommand(m1, cmd, i, key, r)
      case None =>
        if key in m1.slots[i].sessionMap then PromptLive(m1, i, key, r)
        else
          var (m2, healed) := HealSession(m1, i, key, r);
          if healed then PromptLive(m2, i, key, r) else (m2, false)
  }

  /** Announce a dispatch and prompt with what `taken` merges to; if that fails nobody gets it. */
  function HandOver(m: Manager, agent: string, key: SessionKey, taken: seq<Payload>,
      meta: Option<MessageMetadata>, r: Replies): (Manager, bool)
  {
    var announced := Send(Note(m, HandedOver(key, taken)), DispatchStarted(key));
    var (m', ok) := PromptSession(announced, agent, key, Payload(Flatten(taken), meta), r);
    (Note(m', if ok then Reached(key, taken) else Lost(key, taken)), ok)
  }

  function FlushAndDispatch(m: Manager, agent: string, key: SessionKey, r: Replies): (Manager, bool) {
    var flushed := m.(queue := AfterFlush(m.queue, key));
    if FlushResult(m.queue, key).None? then (flushed, true)
    else HandOver(flushed, agent, key, Pending(m.queue, key), FirstMetadata(Pending(m.queue, key)), r)
  }

  function Enqueue(m: Manager, agent: string, key: SessionKey, p: Payload, r: Replies): (Manager, bool) {
    match CommandOf(p.content)
    case Some(cmd) =>
      (match FindSlot(m.slots, agent)
       case Some(i) => HandlePlatformCommand(m, cmd, i, key, r)
       case None => (m, false))
    case None =>
      var queued := Note(m.(queue := Append(m.queue, key, p)), Accepted(key, p));
      if key in m.queue.active then (queued, true) else FlushAndDispatch(queued, agent, key, r)
  }

  /** The `CreateSession` command: heal when a stale id is known, create otherwise. The caller is
      answered with the session's id. */
  function CreateOrHeal(m: Manager, agent: string, key: SessionKey, r: Replies): (Manager, Option<AcpId>) {
    match FindSlot(m.slots, agent)
    case None => (m, None)
    case Some(i) =>
      if key in m.slots[i].stale then
        var (m', healed) := HealSession(m, i, key, r);
        (m', if healed then Some(m'.slots[i].sessionMap[key]) else None)
      else
        var (slot, id) := Create(m.slots[i], key, r.create);
        (SetSlot(m, i, slot), id)
  }

  function ForkFrom(m: Manager, agent: string, key: SessionKey, r: Replies): (Manager, Option<AcpId>) {
    match FindSlot(m.slots, agent)
    case None => (m, None)
    case Some(i) =>
      var (slot, id) := Fork(m.slots[i], key, r.fork);
      (SetSlot(m, i, slot), id)
  }

  // ----- messages from agents -----

  function ForwardUpdate(m: Manager, i: nat, id: AcpId, isResult: bool): Manager
    requires i < |m.slots|
  {
    var s := m.slots[i];
    if id in s.awaiting || id !in s.reverseMap || !m.attached then m
    else
      var key := s.reverseMap[id];
      var sent := Note(m, Forwarded(i, id, key, isResult));
      if isResult then sent.(streamed := sent.streamed + {key}) else sent
  }

  function ForwardMalformed(m: Manager, i: nat, id: Option<AcpId>): Manager
    requires i < |m.slots|
  {
    if id.Some? && id.value in m.slots[i].reverseMap then
      Send(m, Delivered(m.slots[i].reverseMap[id.value], true))
    else m
  }

  /** The sessions `notify_crash_to_channels` sends an error result to. */
  function Notified(s: Slot): set<SessionKey> {
    set k | k in s.sessionMap && s.sessionMap[k] !in s.activePrompts
  }

  function NotifyCrash(m: Manager, i: nat): Manager
    requires i < |m.slots|
  {
    var s := m.slots[i];
    Note(SetSlot(Send(m, CrashNotices(i, Notified(s))), i, s.(activePrompts := {})), PromptsForgotten(i))
  }

  /** `restore_or_start_session` on slot `i`. */
  function RestoreSlot(m: Manager, i: nat, order: HashOrder, r: Replies): Manager
    requires i < |m.slots|
  {
    var (slot, how) := Restore(m.slots[i], order, r);
    var m' := Note(SetSlot(m, i, slot), ReplayWiped(i));
    if how.Reloaded? then Note(m', Loaded(i, slot.sessionMap.Values)) else m'
  }

  function HandleCrash(m: Manager, i: nat, c: CrashOutcome): Manager
    requires i < |m.slots|
  {
    var down := m.slots[i].(connected := false);
    if !c.restart then SetSlot(m, i, down.(disabled := true))
    else
      var m1 := NotifyCrash(SetSlot(m, i, down), i);
      if !c.respawned then m1
      else RestoreSlot(SetSlot(m1, i, m1.slots[i].(connected := true, caps := c.caps)), i, c.order, c.replies)
  }

  function HandleIncoming(m: Manager, msg: Incoming): Manager {
    if msg.slot >= |m.slots| then m
    else match msg
      case Update(i, id, isResult) => ForwardUpdate(m, i, id, isResult)
      case Malformed(i, id) => ForwardMalformed(m, i, id)
      case Exited(i, c) => HandleCrash(m, i, c)
  }

  function HandleAll(m: Manager, msgs: seq<Incoming>): Manager {
    if msgs == [] then m else HandleIncoming(HandleAll(m, msgs[..|msgs| - 1]), msgs[|msgs| - 1])
  }

  // ----- prompt completion -----

  function ExpireIn(slots: seq<Slot>, key: SessionKey, n: nat): seq<Slot>
    requires n <= |slots|
  {
    seq(|slots|, i requires 0 <= i < |slots| => if i < n then Expire(slots[i], key) else slots[i])
  }

  /** Drop the finished task, note whether a result was streamed, expire the session if need be. */
  function Settle(m: Manager, c: Completion): Manager {
    var m1 := Note(m.(streamed := m.streamed - {c.key}), Answered(c.key));
    if c.expired then m1.(slots := ExpireIn(m1.slots, c.key, |m1.slots|)) else m1
  }

  function ReportCompletion(m: Manager, key: SessionKey, gotResult: bool): Manager {
    Send(if gotResult then m else Send(m, Delivered(key, true)), SessionComplete(key))
  }

  /** Everything waiting goes into one batch for the slot that owns the session; without an owner
      it is dropped. */
  function DispatchWaiting(m: Manager, key: SessionKey, r: Replies): Manager {
    var waiting := Pending(m.queue, key);
    var idle := m.(queue := AfterMarkIdle(m.queue, key));
    if waiting == [] then idle
    else
      var drained := idle.(queue := AfterDrain(idle.queue, key));
      var agent := OwnerName(m.slots, key);
      if agent == "" then Note(drained, Discarded(key, waiting))
      else HandOver(drained, agent, key, waiting, LastMetadata(waiting), r).0
  }

  function HandleCompletion(m: Manager, c: Completion, drained: seq<Incoming>, r: Replies): Manager {
    var m1 := HandleAll(m.(outstanding := m.outstanding - multiset{c.key}), drained);
    var m2 := ReportCompletion(Settle(m1, c), c.key, c.key in m1.streamed);
    DispatchWaiting(m2, c.key, r)
  }

  /** The slots as a completion leaves them before it prompts again. */
  function SettledSlots(m: Manager, c: Completion, drained: seq<Incoming>): seq<Slot> {
    Settle(HandleAll(m.(outstanding := m.outstanding - multiset{c.key}), drained), c).slots
  }

  // ----- runs -----

  /** One turn of the event loop. A completion only arrives from a running task, and the loop
      ignores the exit of an agent whose slot is disabled. */
  function Step(m: Manager, e: Event): Manager {
    match e
    case EnqueueMessage(agent, key, p, r) => Enqueue(m, agent, key, p, r).0
    case CreateSession(agent, key, r) => CreateOrHeal(m, agent, key, r).0
    case ForkSession(agent, key, r) => ForkFrom(m, agent, key, r).0
    case FromAgent(msg) =>
      if msg.Exited? && msg.slot < |m.slots| && m.slots[msg.slot].disabled then m else HandleIncoming(m, msg)
    case PromptDone(c, drained, r) =>
      if c.key in m.outstanding then HandleCompletion(m, c, drained, r) else m
  }

  function Run(m: Manager, events: seq<Event>): Manager {
    if events == [] then m else Step(Run(m, events[..|events| - 1]), events[|events| - 1])
  }

  lemma RunSnoc(m: Manager, events: seq<Event>, e: Event)
    ensures Run(m, events + [e]) == Step(Run(m, events), e)
  {
    assert (events + [e])[..|events|] == events;
  }

  lemma {:induction false} RunConcat(m: Manager, a: seq<Event>, b: seq<Event>)
    ensures Run(m, a + b) == Run(Run(m, a), b)
  {
    if b == [] {
      assert a + b == a;
    } else {
      assert (a + b)[..|a + b| - 1] == a + b[..|b| - 1];
      RunConcat(m, a, b[..|b| - 1]);
    }
  }

  /** `build_started_slot` plus the sessions the store remembers: ids it does not know yet. */
  function BootSlot(name: string, caps: Capabilities, id: AcpId, remembered: map<SessionKey, AcpId>): Slot {
    var empty := Slot(name, true, false, caps, map[], map[], remembered, {}, {});
    Register(empty, DefaultKey(empty), id)
  }

  predicate Booted(s: Slot) {
    && s.awaiting == {} && s.activePrompts == {}
    && DefaultKey(s) in s.sessionMap
    && s == BootSlot(s.name, s.caps, s.sessionMap[DefaultKey(s)], s.stale)
  }

  /** The manager when `start` has returned. */
  predicate Started(m: Manager) {
    && m == Manager(m.slots, EMPTY, {}, multiset{}, m.attached, Start)
    && forall i :: 0 <= i < |m.slots| ==> Booted(m.slots[i])
  }
}
