/** Everything the agents manager has done, oldest first, and what can be read off it. */
module Histories {
  import opened Messages
  import opened PlatformCommands

  datatype Entry =
    // the message queue
    | Accepted(key: SessionKey, payload: Payload)           // put on the queue
    | HandedOver(key: SessionKey, payloads: seq<Payload>)   // taken off the queue for a prompt
    | Discarded(key: SessionKey, payloads: seq<Payload>)    // taken off the queue and dropped
    | Batch(key: SessionKey, batch: Payload)                 // prompt_session was called
    | Reached(key: SessionKey, payloads: seq<Payload>)      // and the agent was prompted with them
    | Lost(key: SessionKey, payloads: seq<Payload>)         // or failed, and they are gone
    | CommandRun(key: SessionKey)                           // /new or /cancel was processed
    | Answered(key: SessionKey)                             // a running prompt is over
    // events sent to the channels manager
    | DispatchStarted(key: SessionKey)
    | Delivered(key: SessionKey, isResult: bool)            // made by the manager itself
    | Forwarded(slot: nat, id: AcpId, key: SessionKey, isResult: bool)  // an agent's update
    | CrashNotices(slot: nat, keys: set<SessionKey>)        // one error result for each key
    | SessionComplete(key: SessionKey)
    // per-slot bookkeeping
    | Loaded(slot: nat, ids: set<AcpId>)                    // restored by session/load
    | PromptReady(slot: nat, id: AcpId)                     // the session is about to be prompted
    | PromptSent(slot: nat, id: AcpId)                      // the agent got the prompt
    | PromptsForgotten(slot: nat)                           // crash: running prompts are forgotten
    | ReplayWiped(slot: nat)                                // crash: replay suppression is cleared

  datatype History = Start | Then(past: History, last: Entry)

  /** Nothing that was noted is ever taken back. */
  predicate Extends(earlier: History, later: History) {
    later == earlier || (later.Then? && Extends(earlier, later.past))
  }

  lemma {:induction false} ExtendsFurther(a: History, b: History, c: History)
    requires Extends(a, b) && Extends(b, c)
    ensures Extends(a, c)
  {
    if b != c { ExtendsFurther(a, b, c.past); }
  }

  function AcceptedBy(h: History, k: SessionKey): seq<Payload> {
    if h.Start? then []
    else if h.last.Accepted? && h.last.key == k then AcceptedBy(h.past, k) + [h.last.payload]
    else AcceptedBy(h.past, k)
  }

  function HandedTo(h: History, k: SessionKey): seq<Payload> {
    if h.Start? then []
    else if h.last.HandedOver? && h.last.key == k then HandedTo(h.past, k) + h.last.payloads
    else HandedTo(h.past, k)
  }

  datatype Fate = Prompting | Failing | Dropping

  /** A message that left the queue, and how it ended. */
  datatype Settled = Settled(payload: Payload, fate: Fate)

  function Labelled(ps: seq<Payload>, fate: Fate): (s: seq<Settled>)
    ensures |s| == |ps| && forall i :: 0 <= i < |s| ==> s[i] == Settled(ps[i], fate)
  {
    seq(|ps|, i requires 0 <= i < |ps| => Settled(ps[i], fate))
  }

  /** How every message ended that left the queue, in the order they left. */
  function FatesOf(h: History, k: SessionKey): seq<Settled> {
    if h.Start? then []
    else if h.last.Reached? && h.last.key == k then FatesOf(h.past, k) + Labelled(h.last.payloads, Prompting)
    else if h.last.Lost? && h.last.key == k then FatesOf(h.past, k) + Labelled(h.last.payloads, Failing)
    else if h.last.Discarded? && h.last.key == k then FatesOf(h.past, k) + Labelled(h.last.payloads, Dropping)
    else FatesOf(h.past, k)
  }

  /** Everything taken off the queue, in the order it left. */
  function RemovedFrom(h: History, k: SessionKey): seq<Payload> {
    if h.Start? then []
    else if (h.last.HandedOver? || h.last.Discarded?) && h.last.key == k then RemovedFrom(h.past, k) + h.last.payloads
    else RemovedFrom(h.past, k)
  }

  /** The content of every batch given to `prompt_session`, joined in order. */
  function Prompted(h: History, k: SessionKey): seq<ContentPart> {
    if h.Start? then []
    else if h.last.Batch? && h.last.key == k then Prompted(h.past, k) + h.last.batch.content
    else Prompted(h.past, k)
  }

  predicate BatchesArePlain(h: History, k: SessionKey) {
    h.Then? ==>
      && (h.last.Batch? && h.last.key == k ==> CommandOf(h.last.batch.content).None?)
      && BatchesArePlain(h.past, k)
  }

  function Commands(h: History, k: SessionKey): nat {
    if h.Start? then 0
    else if h.last == CommandRun(k) then Commands(h.past, k) + 1
    else Commands(h.past, k)
  }

  predicate IsResultFor(e: Entry, k: SessionKey) {
    || e == Delivered(k, true)
    || (e.Forwarded? && e.key == k && e.isResult)
    || (e.CrashNotices? && k in e.keys)
  }

  function Results(h: History, k: SessionKey): nat {
    if h.Start? then 0
    else if IsResultFor(h.last, k) then Results(h.past, k) + 1
    else Results(h.past, k)
  }

  function Completions(h: History, k: SessionKey): nat {
    if h.Start? then 0
    else if h.last == SessionComplete(k) then Completions(h.past, k) + 1
    else Completions(h.past, k)
  }

  /** At no point had more completions than results been sent for `k`. */
  predicate ResultFirst(h: History, k: SessionKey) {
    Completions(h, k) <= Results(h, k) && (h.Then? ==> ResultFirst(h.past, k))
  }

  /** A result of `k` was forwarded since a prompt of it was last answered. */
  predicate StreamedSince(h: History, k: SessionKey) {
    h.Then? && h.last != Answered(k) &&
    ((h.last.Forwarded? && h.last.key == k && h.last.isResult) || StreamedSince(h.past, k))
  }

  /** Ids of slot `i` restored by session/load and since then neither prompted nor wiped. */
  function AwaitingPrompt(h: History, i: nat): set<AcpId> {
    if h.Start? then {}
    else
      var before := AwaitingPrompt(h.past, i);
      match h.last
      case Loaded(j, ids) => if j == i then before + ids else before
      case PromptReady(j, id) => if j == i then before - {id} else before
      case ReplayWiped(j) => if j == i then {} else before
      case _ => before
  }

  /** Ids of slot `i` prompted since the slot's last crash, whether or not the prompt is over. */
  function PromptedSinceCrash(h: History, i: nat): set<AcpId> {
    if h.Start? then {}
    else
      var before := PromptedSinceCrash(h.past, i);
      match h.last
      case PromptSent(j, id) => if j == i then before + {id} else before
      case PromptsForgotten(j) => if j == i then {} else before
      case _ => before
  }

  /** How many updates of slot `i` for `id` were forwarded. */
  function Forwards(h: History, i: nat, id: AcpId): nat {
    if h.Start? then 0
    else Forwards(h.past, i, id) + if h.last.Forwarded? && h.last.slot == i && h.last.id == id then 1 else 0
  }

  /** No update was ever forwarded for an id whose replay was being suppressed. */
  predicate NoReplayForwarded(h: History) {
    h.Then? ==>
      && (h.last.Forwarded? ==> h.last.id !in AwaitingPrompt(h.past, h.last.slot))
      && NoReplayForwarded(h.past)
  }
}
