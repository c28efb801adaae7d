/** Permission requests on their way to a user and back: the agents manager's side. */
module Permissions {
  import opened Options
  import opened Messages
  import opened JsonRpc
  import opened PendingTables

  /** The JSON-RPC id of an agent's request; agents may leave it out. */
  type RpcId = Option<RequestId>

  datatype Slot = Slot(
    connected: bool,
    process: nat,                    // which of the agent's processes is or was the last connected
    askers: map<string, nat>,        // which process asked last under an id
    table: Table<string, RpcId>,
    sent: seq<(string, RpcId)>,      // answers that reached the agent
    dropped: seq<(string, RpcId)>,   // answers for which there was no connection
    approved: seq<(string, RpcId)>,  // requests no channel could take, answered at once
    ignored: seq<(string, RpcId)>)   // requests no channel could take and no connection could answer

  datatype Event =
    | Ask(slot: nat, explicitId: string, rpcId: RpcId, routed: bool)
    | Respond(requestId: string)
    | Connect(slot: nat, up: bool)

  function Digits(n: nat): string {
    if n < 10 then [['0', '1', '2', '3', '4', '5', '6', '7', '8', '9'][n]]
    else Digits(n / 10) + Digits(n % 10)
  }

  function Decimal(n: int): string { if n < 0 then "-" + Digits(-n) else Digits(n) }

  /** The id a permission is known by: the one in the params, else the JSON-RPC id as text. */
  function KeyOf(explicitId: string, rpcId: RpcId): string {
    if explicitId != "" then explicitId
    else match rpcId
      case Some(Number(n)) => Decimal(n)
      case Some(Name(s)) => s
      case None => ""
  }

  predicate AllDigits(s: string) { forall i :: 0 <= i < |s| ==> '0' <= s[i] <= '9' }

  function ReadDigits(s: string): nat
    requires AllDigits(s)
  {
    if s == "" then 0 else 10 * ReadDigits(s[..|s| - 1]) + (s[|s| - 1] as nat - '0' as nat)
  }

  /** Decimal digits without leading zeros that read as `n`. */
  predicate SpellsNat(s: string, n: nat) {
    s != "" && AllDigits(s) && (s[0] == '0' ==> s == "0") && ReadDigits(s) == n
  }

  /** The decimal spelling of `n`, with a minus sign if it is negative. */
  predicate Spells(s: string, n: int) {
    if n < 0 then s != "" && s[0] == '-' && SpellsNat(s[1..], -n) else SpellsNat(s, n)
  }

  lemma {:induction false} DigitsSpell(n: nat)
    ensures SpellsNat(Digits(n), n)
  {
    if n >= 10 {
      DigitsSpell(n / 10);
      var s := Digits(n);
      assert s[..|s| - 1] == Digits(n / 10);
      assert Digits(n % 10) == [s[|s| - 1]] && ReadDigits("") == 0;
      assert s[0] == Digits(n / 10)[0];
    } else {
      assert Digits(n)[..0] == "";
    }
  }

  lemma {:induction false} SpellingOfNat(s: string, n: nat)
    requires SpellsNat(s, n)
    ensures s == Digits(n)
  {
    var init, last := s[..|s| - 1], s[|s| - 1];
    if |s| == 1 {
      assert init == "" && ReadDigits(init) == 0;
      assert n == 0 || n == 1 || n == 2 || n == 3 || n == 4 || n == 5 || n == 6 || n == 7 || n == 8 || n == 9;
      assert s == [last] == Digits(n);
    } else {
      PositiveReading(init);
      SpellingOfNat(init, ReadDigits(init));
      assert s == init + [last];
    }
  }

  lemma {:induction false} PositiveReading(s: string)
    requires s != "" && AllDigits(s) && s[0] != '0'
    ensures ReadDigits(s) > 0
  {
    if |s| > 1 { PositiveReading(s[..|s| - 1]); }
  }

  /** Each number has exactly one spelling, the one that is used. */
  lemma SpellsIff(s: string, n: int)
    ensures Spells(s, n) <==> s == Decimal(n)
  {
    if n < 0 {
      DigitsSpell(-n);
      assert ("-" + Digits(-n))[1..] == Digits(-n);
      if Spells(s, n) {
        SpellingOfNat(s[1..], -n);
        assert s == [s[0]] + s[1..];
      }
    } else {
      DigitsSpell(n);
      if Spells(s, n) { SpellingOfNat(s, n); }
    }
  }

  /** Which text a request is known by: its own id unless that is empty, else the JSON-RPC id, a
      number in its decimal spelling. */
  predicate KnownBy(key: string, explicitId: string, rpcId: RpcId) {
    if explicitId != "" then key == explicitId
    else match rpcId
      case Some(Number(n)) => Spells(key, n)
      case Some(Name(s)) => key == s
      case None => key == ""
  }

  lemma KeyIff(key: string, explicitId: string, rpcId: RpcId)
    ensures KnownBy(key, explicitId, rpcId) <==> key == KeyOf(explicitId, rpcId)
  {
    if explicitId == "" && rpcId.Some? && rpcId.value.Number? { SpellsIff(key, rpcId.value.n); }
  }

  function Asked(s: Slot, key: string, rpcId: RpcId, routed: bool): Slot {
    if routed then s.(table := Apply(s.table, Register(key, rpcId)), askers := s.askers[key := s.process])
    else if s.connected then s.(approved := s.approved + [(key, rpcId)])
    else s.(ignored := s.ignored + [(key, rpcId)])
  }

  function Responded(s: Slot, key: string): Slot
    requires key in s.table.pending
  {
    var answer := (key, s.table.pending[key]);
    var s' := s.(table := Apply(s.table, Resolve(key)));
    if s.connected then s'.(sent := s.sent + [answer]) else s'.(dropped := s.dropped + [answer])
  }

  /** The first slot with a pending permission of that id. */
  function Holder(slots: seq<Slot>, key: string, from: nat): (found: Option<nat>)
    requires from <= |slots|
    ensures found.Some? ==>
      && from <= found.value < |slots| && key in slots[found.value].table.pending
      && forall j :: from <= j < found.value ==> key !in slots[j].table.pending
    ensures found.None? ==> forall j :: from <= j < |slots| ==> key !in slots[j].table.pending
    decreases |slots| - from
  {
    if from == |slots| then None
    else if key in slots[from].table.pending then Some(from)
    else Holder(slots, key, from + 1)
  }

  /** A connection always belongs to a new process; what is pending stays pending. */
  function Connected(s: Slot, up: bool): Slot {
    s.(connected := up, process := if up then s.process + 1 else s.process)
  }

  function Step(slots: seq<Slot>, e: Event): seq<Slot> {
    match e
    case Ask(i, explicitId, rpcId, routed) =>
      if i < |slots| then slots[i := Asked(slots[i], KeyOf(explicitId, rpcId), rpcId, routed)] else slots
    case Respond(key) =>
      var found := Holder(slots, key, 0);
      if found.Some? then slots[found.value := Responded(slots[found.value], key)] else slots
    case Connect(i, up) =>
      if i < |slots| then slots[i := Connected(slots[i], up)] else slots
  }

  /** A request that can be routed is pending under the text it is known by, with the JSON-RPC id the
      answer has to carry, and nothing else is touched. */
  lemma AskIsPending(slots: seq<Slot>, i: nat, explicitId: string, rpcId: RpcId, key: string)
    requires i < |slots| && KnownBy(key, explicitId, rpcId)
    ensures var slots' := Step(slots, Ask(i, explicitId, rpcId, true));
            && |slots'| == |slots| && (forall j :: 0 <= j < |slots| && j != i ==> slots'[j] == slots[j])
            && slots'[i].table.pending == slots[i].table.pending[key := rpcId]
            && slots'[i].sent == slots[i].sent && slots'[i].approved == slots[i].approved
  {
    KeyIff(key, explicitId, rpcId);
  }

  function Fresh(n: nat): seq<Slot> { seq(n, _ => Slot(false, 0, map[], Empty(), [], [], [], [])) }

  function RunAll(n: nat, events: seq<Event>): (slots: seq<Slot>)
    ensures |slots| == n
  {
    if events == [] then Fresh(n) else Step(RunAll(n, events[..|events| - 1]), events[|events| - 1])
  }

  /** What slot `i`'s table went through. */
  function OpsOf(n: nat, events: seq<Event>, i: nat): seq<Op<string, RpcId>>
    requires i < n
  {
    if events == [] then []
    else
      var before, last := OpsOf(n, events[..|events| - 1], i), events[|events| - 1];
      match last
      case Ask(j, explicitId, rpcId, routed) =>
        if j == i && routed then before + [Register(KeyOf(explicitId, rpcId), rpcId)] else before
      case Respond(key) =>
        if Holder(RunAll(n, events[..|events| - 1]), key, 0) == Some(i) then before + [Resolve(key)] else before
      case Connect(_, _) => before
  }

  lemma RunSnoc<K, V>(ops: seq<Op<K, V>>, op: Op<K, V>)
    ensures Run(ops + [op]) == Apply(Run(ops), op)
  {
    assert (ops + [op])[..|ops|] == ops;
  }

  /** What a slot answers is sent or, without a connection, dropped. */
  predicate AnswersSplit(s: Slot, k: string, v: RpcId) {
    Times(s.table.answered, k, v) == Times(s.sent, k, v) + Times(s.dropped, k, v)
  }

  lemma AnswersSplitStep(slots: seq<Slot>, e: Event, i: nat, k: string, v: RpcId)
    requires i < |slots| && AnswersSplit(slots[i], k, v)
    ensures AnswersSplit(Step(slots, e)[i], k, v)
  {
  }

  lemma {:induction false} TableRuns(n: nat, events: seq<Event>, i: nat)
    requires i < n
    ensures RunAll(n, events)[i].table == Run(OpsOf(n, events, i))
  {
    if events != [] {
      var init, last := events[..|events| - 1], events[|events| - 1];
      TableRuns(n, init, i);
      match last
      case Ask(j, explicitId, rpcId, routed) =>
        RunSnoc(OpsOf(n, init, i), Register(KeyOf(explicitId, rpcId), rpcId));
      case Respond(key) => RunSnoc(OpsOf(n, init, i), Resolve(key));
      case Connect(_, _) =>
    }
  }

  lemma {:induction false} AnswersAlwaysSplit(n: nat, events: seq<Event>, i: nat, k: string, v: RpcId)
    requires i < n
    ensures AnswersSplit(RunAll(n, events)[i], k, v)
  {
    if events != [] {
      AnswersAlwaysSplit(n, events[..|events| - 1], i, k, v);
      AnswersSplitStep(RunAll(n, events[..|events| - 1]), events[|events| - 1], i, k, v);
    }
  }

  /** Each slot's table is the run of its own operations, and what it answered was sent or dropped. */
  lemma SlotRuns(n: nat, events: seq<Event>, i: nat)
    requires i < n
    ensures RunAll(n, events)[i].table == Run(OpsOf(n, events, i))
    ensures forall k, v :: AnswersSplit(RunAll(n, events)[i], k, v)
  {
    TableRuns(n, events, i);
    forall k, v ensures AnswersSplit(RunAll(n, events)[i], k, v) { AnswersAlwaysSplit(n, events, i, k, v); }
  }

  /** No two requests of the slot use the same id. */
  predicate DistinctAsks(events: seq<Event>, i: nat) {
    forall a, b :: 0 <= a < b < |events| && AskedBy(events[a], i) && AskedBy(events[b], i) ==>
      KeyOf(events[a].explicitId, events[a].rpcId) != KeyOf(events[b].explicitId, events[b].rpcId)
  }

  predicate AskedBy(e: Event, i: nat) { e.Ask? && e.slot == i }

  predicate Routed(e: Event, i: nat) { e.Ask? && e.slot == i && e.routed }

  predicate WasAsked(events: seq<Event>, i: nat, k: string, v: RpcId) {
    exists a :: 0 <= a < |events| && Routed(events[a], i)
             && KeyOf(events[a].explicitId, events[a].rpcId) == k && events[a].rpcId == v
  }

  lemma AskedSnoc(events: seq<Event>, i: nat, k: string, v: RpcId)
    requires events != []
    ensures var last := events[|events| - 1];
            WasAsked(events, i, k, v) <==>
            (WasAsked(events[..|events| - 1], i, k, v)
             || (Routed(last, i) && KeyOf(last.explicitId, last.rpcId) == k && last.rpcId == v))
  {
    var init := events[..|events| - 1];
    if WasAsked(init, i, k, v) {
      var a :| 0 <= a < |init| && Routed(init[a], i)
            && KeyOf(init[a].explicitId, init[a].rpcId) == k && init[a].rpcId == v;
      assert events[a] == init[a];
    }
  }

  /** The requests in a slot's history are the routed ones. */
  lemma {:induction false} RegistersAreAsks(n: nat, events: seq<Event>, i: nat, k: string, v: RpcId)
    requires i < n
    ensures Register(k, v) in OpsOf(n, events, i) <==> WasAsked(events, i, k, v)
  {
    if events != [] {
      RegistersAreAsks(n, events[..|events| - 1], i, k, v);
      AskedSnoc(events, i, k, v);
    }
  }

  lemma {:induction false} DistinctAsksAreDistinctKeys(n: nat, events: seq<Event>, i: nat)
    requires i < n && DistinctAsks(events, i)
    ensures DistinctKeys(OpsOf(n, events, i))
  {
    if events != [] {
      var init, last := events[..|events| - 1], events[|events| - 1];
      assert forall a :: 0 <= a < |init| ==> init[a] == events[a];
      DistinctAsksAreDistinctKeys(n, init, i);
      var ops := OpsOf(n, init, i);
      if Routed(last, i) {
        forall x | 0 <= x < |ops| && ops[x].Register? ensures ops[x].key != KeyOf(last.explicitId, last.rpcId) {
          RegistersAreAsks(n, init, i, ops[x].key, ops[x].value);
        }
      }
    }
  }

  /** Whether slot `i` received the request, routed or not. */
  predicate Received(events: seq<Event>, i: nat, k: string, v: RpcId) {
    exists a :: 0 <= a < |events| && IsAsk(events[a], i, k, v)
  }

  predicate IsAsk(e: Event, i: nat, k: string, v: RpcId) {
    AskedBy(e, i) && KeyOf(e.explicitId, e.rpcId) == k && e.rpcId == v
  }

  /** How often slot `i` received it. */
  function Asks(events: seq<Event>, i: nat, k: string, v: RpcId): nat {
    if events == [] then 0
    else Asks(events[..|events| - 1], i, k, v) + if IsAsk(events[|events| - 1], i, k, v) then 1 else 0
  }

  /** How often it could not be routed while the agent was, or was not, connected. */
  function Unrouted(n: nat, events: seq<Event>, i: nat, k: string, v: RpcId, up: bool): nat
    requires i < n
  {
    if events == [] then 0
    else
      var init, last := events[..|events| - 1], events[|events| - 1];
      Unrouted(n, init, i, k, v, up)
      + if IsAsk(last, i, k, v) && !last.routed && RunAll(n, init)[i].connected == up then 1 else 0
  }

  lemma UnroutedStep(slots: seq<Slot>, e: Event, i: nat, k: string, v: RpcId)
    requires i < |slots|
    ensures var s, s' := slots[i], Step(slots, e)[i];
            var more := if IsAsk(e, i, k, v) && !e.routed then 1 else 0;
            && Times(s'.approved, k, v) == Times(s.approved, k, v) + (if s.connected then more else 0)
            && Times(s'.ignored, k, v) == Times(s.ignored, k, v) + (if s.connected then 0 else more)
  {
  }

  /** Requests that cannot be routed are answered at once exactly when the agent is connected. */
  lemma {:induction false} AnsweredAtOnce(n: nat, events: seq<Event>, i: nat, k: string, v: RpcId)
    requires i < n
    ensures Times(RunAll(n, events)[i].approved, k, v) == Unrouted(n, events, i, k, v, true)
    ensures Times(RunAll(n, events)[i].ignored, k, v) == Unrouted(n, events, i, k, v, false)
  {
    if events != [] {
      AnsweredAtOnce(n, events[..|events| - 1], i, k, v);
      UnroutedStep(RunAll(n, events[..|events| - 1]), events[|events| - 1], i, k, v);
    }
  }

  lemma {:induction false} AsksSplit(n: nat, events: seq<Event>, i: nat, k: string, v: RpcId)
    requires i < n
    ensures Asks(events, i, k, v) == Registered(OpsOf(n, events, i), k, v)
            + Unrouted(n, events, i, k, v, true) + Unrouted(n, events, i, k, v, false)
  {
    if events != [] {
      var init, last := events[..|events| - 1], events[|events| - 1];
      AsksSplit(n, init, i, k, v);
      var before, after := OpsOf(n, init, i), OpsOf(n, events, i);
      assert after != before ==> after[..|after| - 1] == before;
    }
  }

  /** Every request a slot ever received is pending, answered to the agent, dropped for want of a
      connection, overwritten by a later one of the same id, approved at once, or ignored. */
  lemma RequestsAccountedFor(n: nat, events: seq<Event>, i: nat, k: string, v: RpcId)
    requires i < n
    ensures var s := RunAll(n, events)[i];
            Asks(events, i, k, v)
            == PendingCount(s.table, k, v) + Times(s.sent, k, v) + Times(s.dropped, k, v)
               + Times(s.table.overwritten, k, v) + Times(s.approved, k, v) + Times(s.ignored, k, v)
  {
    TableRuns(n, events, i);
    AnswersAlwaysSplit(n, events, i, k, v);
    Conservation(OpsOf(n, events, i), k, v);
    AnsweredAtOnce(n, events, i, k, v);
    AsksSplit(n, events, i, k, v);
  }

  lemma {:induction false} AskedOnce(events: seq<Event>, i: nat, k: string, v: RpcId)
    requires DistinctAsks(events, i)
    ensures Asks(events, i, k, v) == if Received(events, i, k, v) then 1 else 0
  {
    if events != [] {
      var init := events[..|events| - 1];
      assert forall a :: 0 <= a < |init| ==> init[a] == events[a];
      AskedOnce(init, i, k, v);
      assert Received(events, i, k, v) <==> Received(init, i, k, v) || IsAsk(events[|events| - 1], i, k, v);
    }
  }

  /** With distinct request ids every request is, at every point, exactly one of: pending; answered
      with the JSON-RPC id it came with, or dropped for want of a connection; answered at once; or
      ignored. Nothing else is ever answered. */
  lemma PermissionsAnsweredOnce(n: nat, events: seq<Event>, i: nat, k: string, v: RpcId)
    requires i < n && DistinctAsks(events, i)
    ensures var s := RunAll(n, events)[i];
            && s.table.overwritten == []
            && PendingCount(s.table, k, v) + Times(s.sent, k, v) + Times(s.dropped, k, v)
               + Times(s.approved, k, v) + Times(s.ignored, k, v)
               == if Received(events, i, k, v) then 1 else 0
  {
    TableRuns(n, events, i);
    DistinctAsksAreDistinctKeys(n, events, i);
    AnsweredAtMostOnce(OpsOf(n, events, i), k, v);
    RequestsAccountedFor(n, events, i, k, v);
    AskedOnce(events, i, k, v);
  }

  // ----- which slot an answer goes to -----

  /** An answer changes exactly the first slot that has a request pending under its id. */
  lemma AnswerGoesTo(slots: seq<Slot>, j: nat, key: string)
    requires j < |slots|
    ensures Step(slots, Respond(key))[j] != slots[j]
       <==> key in slots[j].table.pending && forall h :: 0 <= h < j ==> key !in slots[h].table.pending
  {
    var found := Holder(slots, key, 0);
    if found.Some? { assert key !in Step(slots, Respond(key))[found.value].table.pending; }
  }

  /** When two agents have a request pending under the same id, an answer goes to the first of them
      whichever it was meant for, and the other keeps waiting. */
  lemma SameIdGoesToFirstSlot(slots: seq<Slot>, i: nat, j: nat, key: string)
    requires i < j < |slots| && key in slots[i].table.pending && key in slots[j].table.pending
    ensures var slots' := Step(slots, Respond(key));
            && slots'[j] == slots[j]
            && exists h :: 0 <= h <= i && key in slots[h].table.pending && key !in slots'[h].table.pending
  {
    var found := Holder(slots, key, 0);
    assert found.Some?;
    var h := found.value;
    assert h <= i && key !in Step(slots, Respond(key))[h].table.pending;
  }

  predicate NoSharedIds(slots: seq<Slot>) {
    forall i, j :: 0 <= i < j < |slots| ==> slots[i].table.pending.Keys !! slots[j].table.pending.Keys
  }

  /** Each answer reaches every slot waiting for it. */
  predicate AnswersArrive(slots: seq<Slot>) {
    forall i: nat, key :: i < |slots| && key in slots[i].table.pending ==> Step(slots, Respond(key))[i] != slots[i]
  }

  /** Answers reach whoever waits for them exactly when no two slots have an id pending in common. */
  lemma AnswersArriveIff(slots: seq<Slot>)
    ensures AnswersArrive(slots) <==> NoSharedIds(slots)
  {
    if NoSharedIds(slots) {
      forall i: nat, key | i < |slots| && key in slots[i].table.pending
        ensures Step(slots, Respond(key))[i] != slots[i]
      {
        forall h | 0 <= h < i ensures key !in slots[h].table.pending {
          assert slots[h].table.pending.Keys !! slots[i].table.pending.Keys;
        }
        AnswerGoesTo(slots, i, key);
      }
    } else {
      var i, j :| 0 <= i < j < |slots| && !(slots[i].table.pending.Keys !! slots[j].table.pending.Keys);
      var key :| key in slots[i].table.pending.Keys && key in slots[j].table.pending.Keys;
      AnswerGoesTo(slots, j, key);
    }
  }

  /** No id is used by requests of two slots. */
  predicate DisjointIds(events: seq<Event>) {
    forall a, b :: 0 <= a < |events| && 0 <= b < |events| && RoutedAsk(events[a]) && RoutedAsk(events[b])
                   && events[a].slot != events[b].slot ==>
      KeyOf(events[a].explicitId, events[a].rpcId) != KeyOf(events[b].explicitId, events[b].rpcId)
  }

  predicate RoutedAsk(e: Event) { e.Ask? && e.routed }

  lemma PendingWasAsked(n: nat, events: seq<Event>, i: nat, key: string)
    requires i < n && key in RunAll(n, events)[i].table.pending
    ensures exists a :: 0 <= a < |events| && RoutedAsk(events[a]) && events[a].slot == i
                     && KeyOf(events[a].explicitId, events[a].rpcId) == key
  {
    TableRuns(n, events, i);
    var ops := OpsOf(n, events, i);
    KeysComeFromRequests(ops, key);
    var v := Run(ops).pending[key];
    RegistersAreAsks(n, events, i, key, v);
    var a :| 0 <= a < |events| && Routed(events[a], i)
          && KeyOf(events[a].explicitId, events[a].rpcId) == key && events[a].rpcId == v;
    assert RoutedAsk(events[a]);
  }

  /** Over every run in which no two slots use one id, every answer reaches the slot that asked. */
  lemma AnswersReachAsker(n: nat, events: seq<Event>)
    requires DisjointIds(events)
    ensures AnswersArrive(RunAll(n, events))
  {
    var slots := RunAll(n, events);
    forall i, j | 0 <= i < j < n ensures slots[i].table.pending.Keys !! slots[j].table.pending.Keys {
      forall key | key in slots[i].table.pending && key in slots[j].table.pending ensures false {
        PendingWasAsked(n, events, i, key);
        PendingWasAsked(n, events, j, key);
      }
    }
    AnswersArriveIff(slots);
  }

  // ----- which process an answer goes to -----

  /** The answer reaches the very process that asked. */
  predicate ReachesAsker(slots: seq<Slot>, i: nat, key: string)
    requires i < |slots|
  {
    var s := slots[i];
    && key in s.table.pending && Step(slots, Respond(key))[i].sent == s.sent + [(key, s.table.pending[key])]
    && key in s.askers && s.askers[key] == s.process
  }

  /** The agent of slot `i` was respawned after it last asked under the id. */
  predicate RestartedSince(events: seq<Event>, i: nat, key: string) {
    events != [] &&
    var init, last := events[..|events| - 1], events[|events| - 1];
    !(Routed(last, i) && KeyOf(last.explicitId, last.rpcId) == key) &&
    (last == Connect(i, true) || RestartedSince(init, i, key))
  }

  lemma {:induction false} AskerIsCurrent(n: nat, events: seq<Event>, i: nat, key: string)
    requires i < n
    ensures var s := RunAll(n, events)[i];
            && (key in s.table.pending ==> key in s.askers)
            && (key in s.askers ==>
                  s.askers[key] <= s.process && (s.askers[key] == s.process <==> !RestartedSince(events, i, key)))
  {
    if events != [] { AskerIsCurrent(n, events[..|events| - 1], i, key); }
  }

  /** Over every run, an answer reaches the process that asked exactly when the request is pending in
      no slot before, the agent is connected, and it was not respawned since it asked. */
  lemma ReachesAskerIff(n: nat, events: seq<Event>, i: nat, key: string)
    requires i < n
    ensures var slots := RunAll(n, events);
            ReachesAsker(slots, i, key) <==>
            (&& key in slots[i].table.pending && (forall h :: 0 <= h < i ==> key !in slots[h].table.pending)
             && slots[i].connected && !RestartedSince(events, i, key))
  {
    AskerIsCurrent(n, events, i, key);
    AnswerGoesTo(RunAll(n, events), i, key);
  }

  class PermissionDesk {
    var slots: seq<Slot>

    constructor (n: nat)
      ensures slots == Fresh(n)
    {
      slots := seq(n, _ => Slot(false, 0, map[], Empty(), [], [], [], []));
    }

    /** `handle_permission_request`. A request is routed when the session it names is indexed and the
        channels sender, if there is one, takes the event. */
    method HandlePermissionRequest(i: nat, explicitId: string, rpcId: RpcId, sessionId: AcpId,
        reverseMap: map<AcpId, SessionKey>, attached: bool, taken: bool)
      requires i < |slots|
      modifies this
      ensures slots == Step(old(slots), Ask(i, explicitId, rpcId, sessionId in reverseMap && attached && taken))
    {
      var key := KeyOf(explicitId, rpcId);
      var routed := if sessionId in reverseMap && attached then taken else false;
      var s := slots[i];
      if routed {
        s := s.(table := Apply(s.table, Register(key, rpcId)));
        s := s.(askers := s.askers[key := s.process]);
      } else if s.connected {
        s := s.(approved := s.approved + [(key, rpcId)]);
      } else {
        s := s.(ignored := s.ignored + [(key, rpcId)]);
      }
      slots := slots[i := s];
    }

    /** The agent of slot `i` was respawned or went away; nothing pending is forgotten. */
    method SetConnection(i: nat, up: bool)
      requires i < |slots|
      modifies this
      ensures slots == Step(old(slots), Connect(i, up))
    {
      var s := slots[i].(connected := up);
      if up { s := s.(process := s.process + 1); }
      slots := slots[i := s];
    }

    /** `RespondPermission`: the first slot that has the request pending gets the answer. */
    method RespondPermission(key: string)
      modifies this
      ensures slots == Step(old(slots), Respond(key))
    {
      var i := 0;
      while i < |slots|
        invariant 0 <= i <= |slots| && slots == old(slots)
        invariant Holder(slots, key, 0) == Holder(slots, key, i)
      {
        if key in slots[i].table.pending {
          var s := slots[i];
          var answer := (key, s.table.pending[key]);
          s := s.(table := Apply(s.table, Resolve(key)));
          if s.connected {
            s := s.(sent := s.sent + [answer]);
          } else {
            s := s.(dropped := s.dropped + [answer]);
          }
          slots := slots[i := s];
          return;
        }
        i := i + 1;
      }
    }
  }
}

/** The channel harness: requests come in on stdin, answers go out on stdout, and answers that are
    still under way when stdin closes are waited for. */
module ChannelHarness {
  import opened Options
  import opened JsonRpc
  import opened PendingTables

  datatype Input =
    | RequestPermission(requestId: string, rpcId: Option<RequestId>)
    | Answer(requestId: string)

  /** A request without a JSON-RPC id cannot be answered and is not stored. */
  function OpsOf(inputs: seq<Input>): seq<Op<string, RequestId>> {
    if inputs == [] then []
    else
      var before, last := OpsOf(inputs[..|inputs| - 1]), inputs[|inputs| - 1];
      match last
      case RequestPermission(k, Some(id)) => before + [Register(k, id)]
      case RequestPermission(_, None) => before
      case Answer(k) => before + [Resolve(k)]
  }

  function Answers(ids: seq<string>): seq<Op<string, RequestId>> {
    seq(|ids|, i requires 0 <= i < |ids| => Resolve(ids[i]))
  }

  class Harness {
    var pending: map<string, RequestId>
    var written: seq<(string, RequestId)>  // responses on stdout: request id and JSON-RPC id
    ghost var ops: seq<Op<string, RequestId>>

    ghost predicate Valid()
      reads this
    {
      pending == Run(ops).pending && written == Run(ops).answered
    }

    constructor ()
      ensures Valid() && ops == []
    {
      pending, written, ops := map[], [], [];
    }

    method FlushPermission(requestId: string)
      requires Valid()
      modifies this
      ensures Valid() && ops == old(ops) + [Resolve(requestId)]
    {
      if requestId in pending {
        written := written + [(requestId, pending[requestId])];
        pending := pending - {requestId};
      }
      assert (ops + [Resolve(requestId)])[..|ops|] == ops;
      ops := ops + [Resolve(requestId)];
    }

    method DispatchRequest(requestId: string, rpcId: Option<RequestId>)
      requires Valid()
      modifies this
      ensures Valid()
      ensures ops == if rpcId.Some? then old(ops) + [Register(requestId, rpcId.value)] else old(ops)
    {
      if rpcId.Some? {
        pending := pending[requestId := rpcId.value];
        assert (ops + [Register(requestId, rpcId.value)])[..|ops|] == ops;
        ops := ops + [Register(requestId, rpcId.value)];
      }
    }

    method MainLoop(inputs: seq<Input>)
      requires Valid() && ops == []
      modifies this
      ensures Valid() && ops == OpsOf(inputs)
    {
      for i := 0 to |inputs|
        invariant Valid() && ops == OpsOf(inputs[..i])
      {
        assert inputs[..i + 1][..i] == inputs[..i];
        match inputs[i] {
          case RequestPermission(k, id) => DispatchRequest(k, id);
          case Answer(k) => FlushPermission(k);
        }
      }
      assert inputs[..|inputs|] == inputs;
    }

    /** Takes late answers until nothing is pending or no more come. */
    method DrainLoop(late: seq<string>) returns (n: nat)
      requires Valid()
      modifies this
      ensures Valid() && n <= |late| && ops == old(ops) + Answers(late[..n])
      ensures pending == map[] || n == |late|
    {
      n := 0;
      assert old(ops) + Answers(late[..0]) == old(ops);
      while pending != map[] && n < |late|
        invariant n <= |late| && Valid() && ops == old(ops) + Answers(late[..n])
      {
        FlushPermission(late[n]);
        assert Answers(late[..n + 1]) == Answers(late[..n]) + [Resolve(late[n])];
        n := n + 1;
      }
    }

    /** The main loop over `inputs`, then the drain loop over `late` answers, which stops as soon as
        nothing is pending. Stopping early loses nothing: the outcome is that of all inputs. */
    method RunLoops(inputs: seq<Input>, late: seq<string>)
      requires Valid() && ops == []
      modifies this
      ensures pending == Run(OpsOf(inputs) + Answers(late)).pending
      ensures written == Run(OpsOf(inputs) + Answers(late)).answered
    {
      MainLoop(inputs);
      var n := DrainLoop(late);
      if pending == map[] { EmptyIgnoresAnswers(ops, Answers(late[n..])); }
      assert Answers(late) == Answers(late[..n]) + Answers(late[n..]);
      assert OpsOf(inputs) + Answers(late) == ops + Answers(late[n..]);
      assert n == |late| ==> ops + Answers(late[n..]) == ops;
    }
  }

  predicate DistinctRequests(inputs: seq<Input>) {
    forall i, j :: 0 <= i < j < |inputs| && inputs[i].RequestPermission? && inputs[j].RequestPermission? ==>
      inputs[i].requestId != inputs[j].requestId
  }

  lemma {:induction false} RegistersAreRequests(inputs: seq<Input>)
    ensures forall k, id :: Register(k, id) in OpsOf(inputs) <==> RequestPermission(k, Some(id)) in inputs
  {
    if inputs != [] {
      var init, last := inputs[..|inputs| - 1], inputs[|inputs| - 1];
      RegistersAreRequests(init);
      assert inputs == init + [last];
    }
  }

  lemma {:induction false} DistinctRequestsAreDistinctKeys(inputs: seq<Input>)
    requires DistinctRequests(inputs)
    ensures DistinctKeys(OpsOf(inputs))
  {
    if inputs != [] {
      var init, last := inputs[..|inputs| - 1], inputs[|inputs| - 1];
      assert forall i :: 0 <= i < |init| ==> init[i] == inputs[i];
      DistinctRequestsAreDistinctKeys(init);
      RegistersAreRequests(init);
      var ops := OpsOf(init);
      if last.RequestPermission? && last.rpcId.Some? {
        forall x | 0 <= x < |ops| && ops[x].Register? ensures ops[x].key != last.requestId {
          assert Register(ops[x].key, ops[x].value) in ops;
          var a :| 0 <= a < |init| && init[a] == RequestPermission(ops[x].key, Some(ops[x].value));
          assert inputs[a] == init[a] && inputs[|inputs| - 1] == last;
        }
      }
    }
  }

  /** Through both loops each request that can be answered is pending or answered exactly once, and
      the answer carries the request's own JSON-RPC id. */
  lemma HarnessAnswersOnce(inputs: seq<Input>, late: seq<string>, k: string, id: RequestId)
    requires DistinctRequests(inputs)
    ensures var t := Run(OpsOf(inputs) + Answers(late));
            PendingCount(t, k, id) + Times(t.answered, k, id)
            == if RequestPermission(k, Some(id)) in inputs then 1 else 0
  {
    RegistersAreRequests(inputs);
    DistinctRequestsAreDistinctKeys(inputs);
    var ops := OpsOf(inputs) + Answers(late);
    assert DistinctKeys(ops);
    AnsweredAtMostOnce(ops, k, id);
    if RequestPermission(k, Some(id)) in inputs {
      var x :| 0 <= x < |OpsOf(inputs)| && OpsOf(inputs)[x] == Register(k, id);
      assert ops[x] == Register(k, id);
    }
    assert forall x :: 0 <= x < |ops| && ops[x] == Register(k, id) ==>
      x < |OpsOf(inputs)| && OpsOf(inputs)[x] == Register(k, id);
  }

  /** The input replaces or answers what waits under `k`. */
  predicate Ends(input: Input, k: string) {
    input.requestId == k && (input.RequestPermission? ==> input.rpcId.Some?)
  }

  /** The request came in and nothing since then ended it. */
  predicate StillOpen(inputs: seq<Input>, k: string, id: RequestId) {
    exists a :: 0 <= a < |inputs| && inputs[a] == RequestPermission(k, Some(id))
             && forall b :: a < b < |inputs| ==> !Ends(inputs[b], k)
  }

  lemma OpenSnoc(init: seq<Input>, last: Input, k: string, id: RequestId)
    ensures StillOpen(init + [last], k, id)
       <==> last == RequestPermission(k, Some(id)) || (StillOpen(init, k, id) && !Ends(last, k))
  {
    var inputs := init + [last];
    if last == RequestPermission(k, Some(id)) {
      assert inputs[|init|] == RequestPermission(k, Some(id));
    } else if StillOpen(init, k, id) && !Ends(last, k) {
      var a :| 0 <= a < |init| && init[a] == RequestPermission(k, Some(id))
            && forall b :: a < b < |init| ==> !Ends(init[b], k);
      assert inputs[a] == RequestPermission(k, Some(id));
    }
    if StillOpen(inputs, k, id) && last != RequestPermission(k, Some(id)) {
      var a :| 0 <= a < |inputs| && inputs[a] == RequestPermission(k, Some(id))
            && forall b :: a < b < |inputs| ==> !Ends(inputs[b], k);
      assert a < |init| && inputs[|init|] == last;
      assert init[a] == RequestPermission(k, Some(id)) && forall b :: a < b < |init| ==> init[b] == inputs[b];
    }
  }

  lemma {:induction false} OpenIff(inputs: seq<Input>, k: string, id: RequestId)
    ensures (k in Run(OpsOf(inputs)).pending && Run(OpsOf(inputs)).pending[k] == id) <==> StillOpen(inputs, k, id)
  {
    if inputs != [] {
      var init, last := inputs[..|inputs| - 1], inputs[|inputs| - 1];
      OpenIff(init, k, id);
      OpenSnoc(init, last, k, id);
      assert inputs == init + [last];
      var before, after := OpsOf(init), OpsOf(inputs);
      assert after != before ==> after[..|after| - 1] == before;
    }
  }

  lemma {:induction false} LateAnswers(ops: seq<Op<string, RequestId>>, late: seq<string>, k: string)
    ensures var before, after := Run(ops).pending, Run(ops + Answers(late)).pending;
            k in after <==> k in before && k !in late
    ensures var before, after := Run(ops).pending, Run(ops + Answers(late)).pending;
            k in after ==> after[k] == before[k]
  {
    if late == [] {
      assert ops + Answers(late) == ops;
    } else {
      var init, last := late[..|late| - 1], late[|late| - 1];
      LateAnswers(ops, init, k);
      assert (ops + Answers(late))[..|ops| + |late| - 1] == ops + Answers(init);
      assert late == init + [last];
    }
  }

  /** When both loops are over, a request was answered exactly when an answer to it came after it,
      from the channel in time or late, and it waits otherwise. */
  lemma HarnessAnswersIff(inputs: seq<Input>, late: seq<string>, k: string, id: RequestId)
    requires DistinctRequests(inputs) && RequestPermission(k, Some(id)) in inputs
    ensures Times(Run(OpsOf(inputs) + Answers(late)).answered, k, id)
         == if k in late || !StillOpen(inputs, k, id) then 1 else 0
  {
    HarnessAnswersOnce(inputs, late, k, id);
    OpenIff(inputs, k, id);
    LateAnswers(OpsOf(inputs), late, k);
  }
}
