/** Requests to an agent and the responses that resolve them. Senders run concurrently: each takes
    an id in one atomic step and stores its waiter in a second one; the reader handles responses in
    between. */
module Connections {
  import opened Options
  import opened JsonRpc

  const TWO_63 := 0x8000_0000_0000_0000
  const TWO_64 := 0x1_0000_0000_0000_0000

  /** Waiters are numbered in the order they took their ids. */
  datatype State = State(
    nextId: nat,                  // the 64-bit counter
    issued: nat,                  // how many ids were handed out
    holding: map<nat, nat>,       // waiters that have an id but are not stored yet
    pending: map<nat, nat>,       // id -> waiter
    resolved: seq<(nat, Option<RequestId>)>)  // waiter and the id its response carried

  datatype Event = Allocate | Insert(waiter: nat) | Respond(id: Option<RequestId>)

  const INITIAL := State(1, 0, map[], map[], [])

  /** `*n as u64` for a numeric id, 0 for a string id or none. */
  function ResponseKey(id: Option<RequestId>): nat {
    match id
    case Some(Number(n)) => if n >= 0 then n else n + TWO_64
    case _ => 0
  }

  function Step(s: State, e: Event): State {
    match e
    case Allocate =>
      s.(nextId := (s.nextId + 1) % TWO_64, issued := s.issued + 1, holding := s.holding[s.issued := s.nextId])
    case Insert(w) =>
      if w in s.holding
      then s.(holding := s.holding - {w}, pending := s.pending[s.holding[w] := w])
      else s
    case Respond(id) =>
      var key := ResponseKey(id);
      if key in s.pending
      then s.(pending := s.pending - {key}, resolved := s.resolved + [(s.pending[key], id)])
      else s
  }

  function Run(events: seq<Event>): State {
    if events == [] then INITIAL else Step(Run(events[..|events| - 1]), events[|events| - 1])
  }

  /** How often waiter `w` was resolved. */
  function Resolutions(resolved: seq<(nat, Option<RequestId>)>, w: nat): nat {
    if resolved == [] then 0
    else Resolutions(resolved[..|resolved| - 1], w) + if resolved[|resolved| - 1].0 == w then 1 else 0
  }

  /** Waiter w owns id w + 1, and nobody else does. */
  predicate OwnIds(s: State) {
    && s.nextId == s.issued + 1
    && (forall w :: w in s.holding ==> s.holding[w] == w + 1)
    && (forall id :: id in s.pending ==> 1 <= id && s.pending[id] == id - 1)
  }

  /** A waiter that took an id is holding it, stored, or resolved: exactly one of these, once. */
  predicate OneStage(s: State, w: nat) {
    (if w in s.holding then 1 else 0) + (if w + 1 in s.pending then 1 else 0) + Resolutions(s.resolved, w)
    == if w < s.issued then 1 else 0
  }

  /** Each response that resolved a waiter carried that waiter's own number. */
  predicate OwnResponses(s: State) {
    forall i :: 0 <= i < |s.resolved| ==>
      var (w, id) := s.resolved[i]; id.Some? && id.value.Number? && id.value.n == w + 1
  }

  lemma OwnIdsStep(s: State, e: Event)
    requires OwnIds(s) && Step(s, e).issued < TWO_63
    ensures OwnIds(Step(s, e))
  {
  }

  lemma OneStageStep(s: State, e: Event, w: nat)
    requires OwnIds(s) && OneStage(s, w) && OneStage(s, s.issued)
    ensures OneStage(Step(s, e), w)
  {
    match e
    case Allocate =>
    case Insert(v) => if v in s.holding { assert s.holding[v] == v + 1; }
    case Respond(id) =>
      var key := ResponseKey(id);
      if key in s.pending {
        assert (s.resolved + [(s.pending[key], id)])[..|s.resolved|] == s.resolved;
      }
  }

  /** A stored id is a small number, so only the same non-negative number leads to it. */
  lemma OnlyOwnNumber(s: State, id: Option<RequestId>)
    requires OwnIds(s) && s.issued < TWO_63 && forall w :: OneStage(s, w)
    ensures ResponseKey(id) in s.pending
       <==> id.Some? && id.value.Number? && id.value.n >= 0 && id.value.n in s.pending
  {
    var key := ResponseKey(id);
    if key in s.pending {
      assert OneStage(s, key - 1);
      assert key - 1 < s.issued;
    }
  }

  lemma OwnResponsesStep(s: State, e: Event)
    requires OwnIds(s) && s.issued < TWO_63 && OwnResponses(s) && forall w :: OneStage(s, w)
    ensures OwnResponses(Step(s, e))
  {
    if e.Respond? { OnlyOwnNumber(s, e.id); }
  }

  /** In every interleaving of senders and the reader with fewer than 2^63 ids issued: no id is
      used twice, stored ids lie between 1 and the counter, every waiter is waiting or resolved
      exactly once, and only by a response with its own numeric id. */
  lemma {:induction false} RequestsCorrelate(events: seq<Event>)
    requires Run(events).issued < TWO_63
    ensures var s := Run(events);
            && OwnIds(s) && OwnResponses(s)
            && (forall w :: OneStage(s, w))
            && (forall id :: id in s.pending ==> 1 <= id < s.nextId)
  {
    if events != [] {
      var before, e := Run(events[..|events| - 1]), events[|events| - 1];
      RequestsCorrelate(events[..|events| - 1]);
      OwnIdsStep(before, e);
      OwnResponsesStep(before, e);
      forall w ensures OneStage(Run(events), w) { OneStageStep(before, e, w); }
    }
    var s := Run(events);
    forall id | id in s.pending ensures id < s.nextId { assert OneStage(s, id - 1); }
  }

  /** A response resolves somebody exactly when it carries the number of a stored waiter; string,
      missing, negative and unknown ids resolve nobody. */
  lemma ResolvesExactlyWhen(events: seq<Event>, id: Option<RequestId>)
    requires Run(events).issued < TWO_63
    ensures Step(Run(events), Respond(id)) != Run(events)
       <==> id.Some? && id.value.Number? && id.value.n >= 0 && id.value.n in Run(events).pending
  {
    RequestsCorrelate(events);
    var s := Run(events);
    OnlyOwnNumber(s, id);
    if ResponseKey(id) in s.pending {
      assert |Step(s, Respond(id)).resolved| == |s.resolved| + 1;
    }
  }

  class AgentConnection {
    var nextId: nat
    var pending: map<nat, nat>
    ghost var issued: nat
    ghost var holding: map<nat, nat>
    ghost var resolved: seq<(nat, Option<RequestId>)>

    ghost function View(): State
      reads this
    {
      State(nextId, issued, holding, pending, resolved)
    }

    constructor ()
      ensures View() == INITIAL
    {
      nextId, pending := 1, map[];
      issued, holding, resolved := 0, map[], [];
    }

    /** The atomic fetch-and-add. */
    method AllocateId() returns (id: nat, ghost waiter: nat)
      modifies this
      ensures View() == Step(old(View()), Allocate)
      ensures id == old(nextId) && waiter == old(issued)
    {
      id, waiter := nextId, issued;
      nextId := (nextId + 1) % TWO_64;
      holding := holding[issued := id];
      issued := issued + 1;
    }

    method InsertPending(id: nat, waiter: nat)
      requires waiter in holding && holding[waiter] == id
      modifies this
      ensures View() == Step(old(View()), Insert(waiter))
    {
      pending := pending[id := waiter];
      holding := holding - {waiter};
    }

    /** Returns the waiter whose channel gets the response, if any. */
    method HandlePendingResponse(response: JsonRpcResponse) returns (waiter: Option<nat>)
      modifies this
      ensures View() == Step(old(View()), Respond(response.id))
      ensures waiter == if ResponseKey(response.id) in old(pending)
                        then Some(old(pending)[ResponseKey(response.id)]) else None
    {
      var id := 0;
      if response.id.Some? && response.id.value.Number? {
        var n := response.id.value.n;
        id := if n >= 0 then n else n + TWO_64;
      }
      if id !in pending { return None; }
      waiter := Some(pending[id]);
      resolved := resolved + [(pending[id], response.id)];
      pending := pending - {id};
    }
  }
}
