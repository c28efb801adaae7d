/** One agent's session maps, and the operations that rewrite them. */
module AgentSlots {
  import opened Options
  import opened Messages

  /** What the agent said it supports; all false before it has answered `initialize`. */
  datatype Capabilities = Capabilities(resume: bool, load: bool, fork: bool)

  datatype Slot = Slot(
    name: string,
    connected: bool,
    disabled: bool,
    caps: Capabilities,
    sessionMap: map<SessionKey, AcpId>,
    reverseMap: map<AcpId, SessionKey>,
    stale: map<SessionKey, AcpId>,
    awaiting: set<AcpId>,
    activePrompts: set<AcpId>)

  /** What the agent answers to the requests one step may make; None is an error, a timeout or a
      reply without a session id. */
  datatype Replies = Replies(
    resume: Option<AcpId>,
    load: Option<AcpId>,
    create: Option<AcpId>,
    fork: Option<AcpId>,
    promptSent: bool,
    cancelSent: bool)

  /** How `heal_session` and crash recovery ended. */
  datatype Recovery = Failed | Resumed(id: AcpId) | Reloaded(id: AcpId) | Created(id: AcpId)

  ghost predicate Picks(order: set<SessionKey> -> SessionKey) {
    forall s: set<SessionKey> :: s != {} ==> order(s) in s
  }

  ghost function SomeKey(s: set<SessionKey>): SessionKey {
    if s == {} then "" else var k :| k in s; k
  }

  /** Which entry a hash map yields first: any choice of a member. */
  type HashOrder = order: set<SessionKey> -> SessionKey | Picks(order) ghost witness SomeKey

  function FindSlotFrom(slots: seq<Slot>, name: string, from: nat): (found: Option<nat>)
    requires from <= |slots|
    ensures found.Some? ==>
      && from <= found.value < |slots| && slots[found.value].name == name
      && forall j :: from <= j < found.value ==> slots[j].name != name
    ensures found.None? ==> forall j :: from <= j < |slots| ==> slots[j].name != name
    decreases |slots| - from
  {
    if from == |slots| then None
    else if slots[from].name == name then Some(from)
    else FindSlotFrom(slots, name, from + 1)
  }

  /** `find_slot_by_name`: the first slot of that name. */
  function FindSlot(slots: seq<Slot>, name: string): (found: Option<nat>)
    ensures found.Some? ==> found.value < |slots| && slots[found.value].name == name
  {
    FindSlotFrom(slots, name, 0)
  }

  lemma FindsFirst(slots: seq<Slot>, name: string)
    ensures forall i: nat :: FindSlot(slots, name) == Some(i) <==>
              i < |slots| && slots[i].name == name && forall j :: 0 <= j < i ==> slots[j].name != name
    ensures FindSlot(slots, name).None? <==> forall j :: 0 <= j < |slots| ==> slots[j].name != name
  {
    assert FindSlot(slots, name) == FindSlotFrom(slots, name, 0);
  }

  /** The slot that holds a session for `key`, first in order. */
  function OwnerFrom(slots: seq<Slot>, key: SessionKey, from: nat): (found: Option<nat>)
    requires from <= |slots|
    ensures found.Some? ==>
      && from <= found.value < |slots| && key in slots[found.value].sessionMap
      && forall j :: from <= j < found.value ==> key !in slots[j].sessionMap
    ensures found.None? ==> forall j :: from <= j < |slots| ==> key !in slots[j].sessionMap
    decreases |slots| - from
  {
    if from == |slots| then None
    else if key in slots[from].sessionMap then Some(from)
    else OwnerFrom(slots, key, from + 1)
  }

  function OwnerName(slots: seq<Slot>, key: SessionKey): string {
    match OwnerFrom(slots, key, 0)
    case Some(i) => slots[i].name
    case None => ""
  }

  function DefaultKey(s: Slot): SessionKey { NewKey(s.name, "default", "default") }

  /** Both indexes learn that `key` now has session `id`. */
  function Register(s: Slot, key: SessionKey, id: AcpId): Slot {
    s.(sessionMap := s.sessionMap[key := id], reverseMap := s.reverseMap[id := key])
  }

  /** `create_session` on a known slot: an existing session is returned as it is. */
  function Create(s: Slot, key: SessionKey, reply: Option<AcpId>): (Slot, Option<AcpId>) {
    if key in s.sessionMap then (s, Some(s.sessionMap[key]))
    else if s.connected && reply.Some? then (Register(s, key, reply.value), reply)
    else (s, None)
  }

  /** `heal_session`: resume, else load, else create. */
  function Heal(s: Slot, key: SessionKey, r: Replies): (Slot, Recovery) {
    var forgotten := s.(stale := s.stale - {key});
    if s.caps.resume && key in s.stale then
      if !s.connected then (s, Failed)
      else if r.resume.Some? then (Register(forgotten, key, r.resume.value), Resumed(r.resume.value))
      else Recreate(forgotten, key, r)
    else if s.caps.load && key in s.stale then
      if !s.connected then (s, Failed)
      else if r.load.Some? then
        (Register(forgotten, key, r.load.value).(awaiting := s.awaiting + {r.load.value}), Reloaded(r.load.value))
      else Recreate(forgotten, key, r)
    else Recreate(forgotten, key, r)
  }

  function Recreate(s: Slot, key: SessionKey, r: Replies): (Slot, Recovery) {
    var (s', id) := Create(s, key, r.create);
    (s', if id.Some? then Created(id.value) else Failed)
  }

  /** The `/new` command forgets the session under `key` in both directions. */
  function ForgetSession(s: Slot, key: SessionKey): Slot {
    s.(sessionMap := s.sessionMap - {key},
       reverseMap := map a | a in s.reverseMap && s.reverseMap[a] != key :: s.reverseMap[a])
  }

  /** A session the agent no longer knows moves from the live maps to the stale one. */
  function Expire(s: Slot, key: SessionKey): Slot {
    if key in s.sessionMap then
      var id := s.sessionMap[key];
      s.(sessionMap := s.sessionMap - {key}, stale := s.stale[key := id], reverseMap := s.reverseMap - {id})
    else s
  }

  function Fork(s: Slot, key: SessionKey, reply: Option<AcpId>): (Slot, Option<AcpId>) {
    if s.caps.fork && key in s.sessionMap && s.connected && reply.Some? then
      (Register(s, NewKey(ChannelName(key), "fork", reply.value), reply.value), reply)
    else (s, None)
  }

  /** Every entry holding `attempted` gets `returned` instead. */
  function Remap(m: map<SessionKey, AcpId>, attempted: AcpId, returned: AcpId): map<SessionKey, AcpId> {
    map k | k in m :: if m[k] == attempted then returned else m[k]
  }

  /** The stale sessions as a crash leaves them: live ids override stale ones. */
  function Merged(s: Slot): map<SessionKey, AcpId> { s.stale + s.sessionMap }

  /** The id `try_restore_session` asks the agent about. */
  function Attempted(s: Slot, order: HashOrder): AcpId
    requires Merged(s) != map[]
  {
    assert Merged(s).Keys != {};
    Merged(s)[order(Merged(s).Keys)]
  }

  function RestoreReply(s: Slot, r: Replies): Option<AcpId> {
    if Merged(s) == map[] then None
    else if s.caps.resume then r.resume
    else if s.caps.load then r.load
    else None
  }

  /** A new default session replaces whatever was indexed; without one the connection is given up. */
  function Afresh(s: Slot, r: Replies): Slot {
    if s.connected && r.create.Some? then Register(s.(reverseMap := map[]), DefaultKey(s), r.create.value)
    else s.(connected := false)
  }

  /** `restore_or_start_session`, run on a slot that has just been respawned. */
  function Restore(s: Slot, order: HashOrder, r: Replies): (Slot, Recovery) {
    var drained := s.(sessionMap := map[], stale := Merged(s), awaiting := {});
    match RestoreReply(s, r)
    case Some(id) =>
      var live := Remap(Merged(s), Attempted(s, order), id);
      var restored := drained.(sessionMap := live, stale := map[]);
      if s.caps.resume then (restored, Resumed(id))
      else (restored.(awaiting := live.Values), Reloaded(id))
    case None =>
      (Afresh(drained, r), if s.connected && r.create.Some? then Created(r.create.value) else Failed)
  }

  /** The live sessions moved to the stale ones, as the first statements of the restore do it. */
  function Drained(s: Slot): Slot {
    s.(stale := Merged(s), sessionMap := map[], awaiting := {})
  }

  /** `try_restore_session` on a slot as it stands: the stale sessions join the live ones. */
  function RestoreStale(s: Slot, order: HashOrder, r: Replies): (Slot, Recovery) {
    var reply := if s.caps.resume then r.resume else if s.caps.load then r.load else None;
    if s.stale == map[] || reply.None? then (s, Failed)
    else
      assert s.stale.Keys != {};
      var live := s.sessionMap + Remap(s.stale, s.stale[order(s.stale.Keys)], reply.value);
      var restored := s.(sessionMap := live, stale := map[]);
      if s.caps.resume then (restored, Resumed(reply.value))
      else (restored.(awaiting := s.awaiting + live.Values), Reloaded(reply.value))
  }

  /** Recovery drains the slot and restores what is stale, else starts afresh. */
  lemma DrainedRestores(s: Slot, order: HashOrder, r: Replies)
    ensures RestoreStale(Drained(s), order, r).1.Failed? <==> RestoreReply(s, r).None?
    ensures RestoreReply(s, r).Some? ==> RestoreStale(Drained(s), order, r) == Restore(s, order, r)
    ensures RestoreReply(s, r).None? ==>
              Restore(s, order, r).0 == Afresh(Drained(s), r) && !Restore(s, order, r).1.Reloaded?
  {
    var d := Drained(s);
    if RestoreReply(s, r).Some? {
      assert d.stale.Keys != {};
      var live := Remap(Merged(s), Attempted(s, order), RestoreReply(s, r).value);
      assert d.sessionMap + live == live && d.awaiting + live.Values == live.Values;
    }
  }
}
