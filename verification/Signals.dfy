/** The agents manager's events to the channels manager, as one session's channel would see them. */
module Signals {
  import opened Messages
  import opened Histories

  datatype Signal = Dispatched | Updated(isResult: bool) | Completed

  function SentBy(e: Entry, k: SessionKey): (s: seq<Signal>)
    ensures |s| <= 1
  {
    match e
    case DispatchStarted(j) => if j == k then [Dispatched] else []
    case Delivered(j, isResult) => if j == k then [Updated(isResult)] else []
    case Forwarded(_, _, j, isResult) => if j == k then [Updated(isResult)] else []
    case CrashNotices(_, keys) => if k in keys then [Updated(true)] else []
    case SessionComplete(j) => if j == k then [Completed] else []
    case _ => []
  }

  /** The events about `k` that the agents manager sent, in order. */
  function SignalsOf(h: History, k: SessionKey): seq<Signal> {
    if h.Start? then [] else SignalsOf(h.past, k) + SentBy(h.last, k)
  }

  function Times(s: seq<Signal>, x: Signal): nat {
    if s == [] then 0 else Times(s[..|s| - 1], x) + if s[|s| - 1] == x then 1 else 0
  }

  lemma TimesAdd(a: seq<Signal>, b: seq<Signal>, x: Signal)
    requires |b| <= 1
    ensures Times(a + b, x) == Times(a, x) + if b == [x] then 1 else 0
  {
    if b == [] {
      assert a + b == a;
    } else {
      assert (a + b)[..|a + b| - 1] == a;
    }
  }

  lemma {:induction false} TimesConcat(a: seq<Signal>, b: seq<Signal>, x: Signal)
    ensures Times(a + b, x) == Times(a, x) + Times(b, x)
  {
    if b == [] {
      assert a + b == a;
    } else {
      assert (a + b)[..|a + b| - 1] == a + b[..|b| - 1];
      TimesConcat(a, b[..|b| - 1], x);
    }
  }

  lemma SentAs(e: Entry, k: SessionKey)
    ensures SentBy(e, k) == [Completed] <==> e == SessionComplete(k)
    ensures SentBy(e, k) == [Updated(true)] <==> IsResultFor(e, k)
  {}

  lemma LastSignal(past: History, e: Entry, k: SessionKey)
    ensures Times(SignalsOf(Then(past, e), k), Completed)
         == Times(SignalsOf(past, k), Completed) + if e == SessionComplete(k) then 1 else 0
    ensures Times(SignalsOf(Then(past, e), k), Updated(true))
         == Times(SignalsOf(past, k), Updated(true)) + if IsResultFor(e, k) then 1 else 0
  {
    var before, last := SignalsOf(past, k), SentBy(e, k);
    assert SignalsOf(Then(past, e), k) == before + last;
    TimesAdd(before, last, Completed);
    TimesAdd(before, last, Updated(true));
    SentAs(e, k);
  }

  lemma {:induction false} HistoryCounts(h: History, k: SessionKey)
    ensures Times(SignalsOf(h, k), Completed) == Completions(h, k)
    ensures Times(SignalsOf(h, k), Updated(true)) == Results(h, k)
  {
    if h.Then? {
      HistoryCounts(h.past, k);
      LastSignal(h.past, h.last, k);
    }
  }
}
