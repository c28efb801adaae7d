/** Restart delays and crash-loop detection. Durations and instants are counted in nanoseconds. */
module Backoff {
  function Min(a: nat, b: nat): nat { if a <= b then a else b }

  function Max(a: nat, b: nat): nat { if a <= b then b else a }

  function Pow2(n: nat): (p: nat)
    ensures p >= 1
  {
    if n == 0 then 1 else 2 * Pow2(n - 1)
  }

  /** The n-th delay since the last reset. */
  function DelayAt(base: nat, max: nat, n: nat): nat {
    if n == 0 then base else Min(base * Pow2(n), max)
  }

  /** Doubling the n-th delay and capping it gives the next one. */
  lemma DoublingIsNext(base: nat, max: nat, n: nat)
    ensures Min(DelayAt(base, max, n) * 2, max) == DelayAt(base, max, n + 1)
  {
    assert base * Pow2(n + 1) == 2 * (base * Pow2(n)) by { assert Pow2(n + 1) == 2 * Pow2(n); }
    if n == 0 { assert Pow2(0) == 1; }
  }

  /** Delays never shrink exactly when the base does not exceed the cap. */
  lemma NonDecreasingIff(base: nat, max: nat)
    ensures (forall n: nat :: DelayAt(base, max, n) <= DelayAt(base, max, n + 1)) <==> base <= max
  {
    if base <= max {
      forall n: nat ensures DelayAt(base, max, n) <= DelayAt(base, max, n + 1) {
        DoublingIsNext(base, max, n);
        assert DelayAt(base, max, n) <= max;
      }
    } else {
      assert DelayAt(base, max, 0) > DelayAt(base, max, 0 + 1);
    }
  }

  /** The doubled value, before it is capped, stays within twice the larger of base and cap, so it
      fits whenever that does. */
  lemma DoubledBound(base: nat, max: nat, n: nat)
    ensures DelayAt(base, max, n) * 2 <= 2 * Max(base, max)
  {
    if n > 0 { assert DelayAt(base, max, n) <= max; }
  }

  class ExponentialBackoff {
    var current: nat
    const max: nat
    const base: nat
    var attempts: nat

    ghost predicate Valid()
      reads this
    {
      current == DelayAt(base, max, attempts)
    }

    constructor (base: nat, max: nat)
      ensures Valid() && attempts == 0 && this.base == base && this.max == max
    {
      this.base, this.max := base, max;
      current, attempts := base, 0;
    }

    method NextDelay() returns (delay: nat)
      requires Valid()
      modifies this
      ensures Valid() && attempts == old(attempts) + 1
      ensures delay == DelayAt(base, max, old(attempts))
    {
      delay := current;
      DoublingIsNext(base, max, attempts);
      current := Min(current * 2, max);
      attempts := attempts + 1;
    }

    method Reset()
      modifies this
      ensures Valid() && attempts == 0
    {
      current := base;
      attempts := 0;
    }
  }
}

module CrashTracking {
  /** `duration_since`: zero when the other instant lies ahead. */
  function Elapsed(now: nat, t: nat): nat { if now >= t then now - t else 0 }

  function Count(ts: seq<nat>, now: nat, window: nat): (n: nat)
    ensures n <= |ts|
  {
    if ts == [] then 0
    else Count(ts[..|ts| - 1], now, window) + if Elapsed(now, ts[|ts| - 1]) < window then 1 else 0
  }

  function Retained(ts: seq<nat>, now: nat, window: nat): seq<nat> {
    if ts == [] then []
    else Retained(ts[..|ts| - 1], now, window)
         + if Elapsed(now, ts[|ts| - 1]) < window then [ts[|ts| - 1]] else []
  }

  datatype Limits = Limits(maxCrashes: nat, window: nat, longMaxCrashes: nat, longWindow: nat)

  predicate Looping(l: Limits, ts: seq<nat>, now: nat) {
    Count(ts, now, l.window) >= l.maxCrashes || Count(ts, now, l.longWindow) >= l.longMaxCrashes
  }

  /** The timestamps the tracker holds after crashes at these instants. */
  function Tracked(times: seq<nat>, longWindow: nat): seq<nat> {
    if times == [] then []
    else Retained(Tracked(times[..|times| - 1], longWindow), times[|times| - 1], longWindow) + [times[|times| - 1]]
  }

  predicate Monotone(times: seq<nat>) { forall i, j :: 0 <= i <= j < |times| ==> times[i] <= times[j] }

  predicate NoneAfter(times: seq<nat>, now: nat) { forall i :: 0 <= i < |times| ==> times[i] <= now }

  lemma {:induction false} CountConcat(a: seq<nat>, b: seq<nat>, now: nat, window: nat)
    ensures Count(a + b, now, window) == Count(a, now, window) + Count(b, now, window)
  {
    if b == [] {
      assert a + b == a;
    } else {
      assert (a + b)[..|a + b| - 1] == a + b[..|b| - 1];
      CountConcat(a, b[..|b| - 1], now, window);
    }
  }

  lemma CountSnoc(a: seq<nat>, t: nat, now: nat, window: nat)
    ensures Count(a + [t], now, window) == Count(a, now, window) + if Elapsed(now, t) < window then 1 else 0
  {
    assert (a + [t])[..|a|] == a;
  }

  /** What was pruned at the instant `pruned` is outside every window that is not longer, from then on. */
  lemma {:induction false} RetainedCount(ts: seq<nat>, pruned: nat, now: nat, window: nat, longWindow: nat)
    requires NoneAfter(ts, pruned) && pruned <= now && window <= longWindow
    ensures Count(Retained(ts, pruned, longWindow), now, window) == Count(ts, now, window)
    ensures NoneAfter(Retained(ts, pruned, longWindow), pruned)
  {
    if ts != [] {
      var before, last := ts[..|ts| - 1], ts[|ts| - 1];
      RetainedCount(before, pruned, now, window, longWindow);
      CountSnoc(Retained(before, pruned, longWindow), last, now, window);
      assert Retained(before, pruned, longWindow) + [] == Retained(before, pruned, longWindow);
    }
  }

  /** Pruning cannot be seen: at every later instant both windows count as if nothing was pruned. */
  lemma {:induction false} PruningIsInvisible(times: seq<nat>, now: nat, window: nat, longWindow: nat)
    requires Monotone(times) && NoneAfter(times, now) && window <= longWindow
    ensures Count(Tracked(times, longWindow), now, window) == Count(times, now, window)
    ensures times != [] ==> NoneAfter(Tracked(times, longWindow), times[|times| - 1])
  {
    if times != [] {
      var before, last := times[..|times| - 1], times[|times| - 1];
      PruningIsInvisible(before, now, window, longWindow);
      assert NoneAfter(Tracked(before, longWindow), last);
      RetainedCount(Tracked(before, longWindow), last, now, window, longWindow);
      CountSnoc(Retained(Tracked(before, longWindow), last, longWindow), last, now, window);
    }
  }

  /** That holds of all histories exactly when the short window is not the longer one. */
  lemma PruningIsInvisibleIff(window: nat, longWindow: nat)
    ensures (forall times, now :: Monotone(times) && NoneAfter(times, now) ==>
               Count(Tracked(times, longWindow), now, window) == Count(times, now, window))
       <==> window <= longWindow
  {
    if window <= longWindow {
      forall times, now | Monotone(times) && NoneAfter(times, now)
        ensures Count(Tracked(times, longWindow), now, window) == Count(times, now, window)
      {
        PruningIsInvisible(times, now, window, longWindow);
      }
    } else {
      var times, now := [0, longWindow], longWindow;
      assert times[..1] == [0] && [0][..0] == [] && [longWindow][..0] == [];
      assert Retained([], 0, longWindow) == [] && Tracked([0], longWindow) == [0];
      assert Retained([0], now, longWindow) == [];
      assert Tracked(times, longWindow) == [longWindow];
      assert Count([longWindow], now, window) == 1 && Count([0], now, window) == 1;
      assert Count(times, now, window) == 2;
      assert Monotone(times) && NoneAfter(times, now);
    }
  }

  /** Which of the crashes lie within the window at `now`. */
  function Recent(times: seq<nat>, now: nat, window: nat): set<nat> {
    set i: nat | i < |times| && now < times[i] + window
  }

  /** Counting is taking the size of that set. */
  lemma {:induction false} CountIsSize(times: seq<nat>, now: nat, window: nat)
    requires NoneAfter(times, now)
    ensures Count(times, now, window) == |Recent(times, now, window)|
  {
    if times != [] {
      var n := |times| - 1;
      CountIsSize(times[..n], now, window);
      assert Recent(times, now, window)
        == Recent(times[..n], now, window) + if now < times[n] + window then {n} else {};
    }
  }

  class CrashTracker {
    var timestamps: seq<nat>
    const limits: Limits
    var totalCrashes: nat
    ghost var crashes: seq<nat>  // every crash since the last reset

    ghost predicate Valid()
      reads this
    {
      && timestamps == Tracked(crashes, limits.longWindow)
      && totalCrashes == |crashes|
      && Monotone(crashes)
    }

    constructor (limits: Limits)
      ensures Valid() && crashes == [] && this.limits == limits
    {
      this.limits := limits;
      timestamps, totalCrashes, crashes := [], 0, [];
    }

    method RecordCrash(now: nat)
      requires Valid() && NoneAfter(crashes, now)
      modifies this
      ensures Valid() && crashes == old(crashes) + [now]
    {
      var kept: seq<nat> := [];
      for i := 0 to |timestamps|
        invariant kept == Retained(timestamps[..i], now, limits.longWindow)
      {
        assert timestamps[..i + 1][..i] == timestamps[..i];
        if Elapsed(now, timestamps[i]) < limits.longWindow { kept := kept + [timestamps[i]]; }
      }
      assert timestamps[..|timestamps|] == timestamps;
      timestamps := kept + [now];
      totalCrashes := totalCrashes + 1;
      assert (crashes + [now])[..|crashes|] == crashes;
      crashes := crashes + [now];
    }

    method CountWithin(now: nat, window: nat) returns (n: nat)
      ensures n == Count(timestamps, now, window)
    {
      n := 0;
      for i := 0 to |timestamps|
        invariant n == Count(timestamps[..i], now, window)
      {
        assert timestamps[..i + 1][..i] == timestamps[..i];
        if Elapsed(now, timestamps[i]) < window { n := n + 1; }
      }
      assert timestamps[..|timestamps|] == timestamps;
    }

    /** The verdict on the pruned list is the verdict on all crashes since the last reset. */
    method IsCrashLoop(now: nat) returns (looping: bool)
      requires Valid()
      ensures looping == Looping(limits, timestamps, now)
      ensures limits.window <= limits.longWindow && NoneAfter(crashes, now) ==>
                looping == Looping(limits, crashes, now)
      ensures limits.window <= limits.longWindow && NoneAfter(crashes, now) ==>
                (looping <==> || |Recent(crashes, now, limits.window)| >= limits.maxCrashes
                              || |Recent(crashes, now, limits.longWindow)| >= limits.longMaxCrashes)
    {
      if limits.window <= limits.longWindow && NoneAfter(crashes, now) {
        PruningIsInvisible(crashes, now, limits.window, limits.longWindow);
        PruningIsInvisible(crashes, now, limits.longWindow, limits.longWindow);
        CountIsSize(crashes, now, limits.window);
        CountIsSize(crashes, now, limits.longWindow);
      }
      var shortRecent := CountWithin(now, limits.window);
      if shortRecent >= limits.maxCrashes { return true; }
      var longRecent := CountWithin(now, limits.longWindow);
      looping := longRecent >= limits.longMaxCrashes;
    }

    method Reset()
      modifies this
      ensures Valid() && crashes == []
    {
      timestamps := [];
      totalCrashes := 0;
      crashes := [];
    }
  }
}

module SlotLifecycles {
  import opened Backoff
  import opened CrashTracking

  datatype CrashAction = Disabled | RestartAfter(delay: nat)

  /** One crash: when it was recorded, when it was judged, and whether it was answered by a restart. */
  datatype Call = Call(recorded: nat, judged: nat, restarted: bool)

  function Times(calls: seq<Call>): (ts: seq<nat>)
    ensures |ts| == |calls| && forall i :: 0 <= i < |ts| ==> ts[i] == calls[i].recorded
  {
    seq(|calls|, i requires 0 <= i < |calls| => calls[i].recorded)
  }

  /** The clock never runs backwards. */
  predicate InOrder(calls: seq<Call>) {
    && (forall i :: 0 <= i < |calls| ==> calls[i].recorded <= calls[i].judged)
    && (forall i, j :: 0 <= i < j < |calls| ==> calls[i].judged <= calls[j].recorded)
  }

  /** The last answer is the tracker's verdict on all crashes so far. */
  predicate LastJudged(l: Limits, calls: seq<Call>)
    requires calls != []
  {
    var last := calls[|calls| - 1];
    last.restarted == !Looping(l, Tracked(Times(calls), l.longWindow), last.judged)
  }

  predicate Judged(l: Limits, calls: seq<Call>) {
    forall j :: 0 < j <= |calls| ==> LastJudged(l, calls[..j])
  }

  lemma {:induction false} CountAll(ts: seq<nat>, now: nat, window: nat)
    requires forall i :: 0 <= i < |ts| ==> Elapsed(now, ts[i]) < window
    ensures Count(ts, now, window) == |ts|
  {
    if ts != [] { CountAll(ts[..|ts| - 1], now, window); }
  }

  /** From entry i on, everything lies within the window. */
  lemma RecentTimes(times: seq<nat>, i: nat, now: nat, window: nat)
    requires Monotone(times) && NoneAfter(times, now) && i < |times| && now - times[i] < window
    ensures |times| - i <= Count(times, now, window)
  {
    assert times == times[..i] + times[i..];
    CountConcat(times[..i], times[i..], now, window);
    CountAll(times[i..], now, window);
  }

  lemma TimesInOrder(calls: seq<Call>, j: nat)
    requires InOrder(calls) && j < |calls|
    ensures Monotone(Times(calls[..j + 1])) && NoneAfter(Times(calls[..j + 1]), calls[j].judged)
  {
  }

  lemma RecentCount(calls: seq<Call>, i: nat, j: nat, window: nat, longWindow: nat)
    requires InOrder(calls) && i <= j < |calls| && window <= longWindow
    requires calls[j].judged - calls[i].recorded < window
    ensures j - i + 1 <= Count(Tracked(Times(calls[..j + 1]), longWindow), calls[j].judged, window)
  {
    TimesInOrder(calls, j);
    PruningIsInvisible(Times(calls[..j + 1]), calls[j].judged, window, longWindow);
    RecentTimes(Times(calls[..j + 1]), i, calls[j].judged, window);
  }

  /** Restarts are rate-limited over every run: if crashes i..j were recorded and the last of them
      judged within one window, and that one was answered by a restart, they are fewer than the
      window's limit. The short window must not be the longer one. */
  lemma RestartRateBound(l: Limits, calls: seq<Call>, i: nat, j: nat)
    requires InOrder(calls) && Judged(l, calls) && i <= j < |calls| && calls[j].restarted
    ensures l.window <= l.longWindow && calls[j].judged - calls[i].recorded < l.window ==> j - i + 1 < l.maxCrashes
    ensures calls[j].judged - calls[i].recorded < l.longWindow ==> j - i + 1 < l.longMaxCrashes
  {
    assert LastJudged(l, calls[..j + 1]);
    if l.window <= l.longWindow && calls[j].judged - calls[i].recorded < l.window {
      RecentCount(calls, i, j, l.window, l.longWindow);
    }
    if calls[j].judged - calls[i].recorded < l.longWindow {
      RecentCount(calls, i, j, l.longWindow, l.longWindow);
    }
  }

  /** The crashes up to call `j` that lie within the window when it is judged. */
  function RecentCalls(calls: seq<Call>, j: nat, window: nat): set<nat>
    requires j < |calls|
  {
    set i: nat | i <= j && calls[j].judged - calls[i].recorded < window
  }

  lemma RecentCallsCounted(calls: seq<Call>, j: nat, window: nat, longWindow: nat)
    requires InOrder(calls) && j < |calls| && window <= longWindow
    ensures Count(Tracked(Times(calls[..j + 1]), longWindow), calls[j].judged, window)
         == |RecentCalls(calls, j, window)|
  {
    TimesInOrder(calls, j);
    var times := Times(calls[..j + 1]);
    PruningIsInvisible(times, calls[j].judged, window, longWindow);
    CountIsSize(times, calls[j].judged, window);
    assert Recent(times, calls[j].judged, window) == RecentCalls(calls, j, window);
  }

  /** Over every run, a crash is answered by a restart exactly when fewer crashes than the limit, itself
      included, lie within the window, for both windows. */
  lemma RestartedExactlyWhen(l: Limits, calls: seq<Call>, j: nat)
    requires InOrder(calls) && Judged(l, calls) && j < |calls| && l.window <= l.longWindow
    ensures calls[j].restarted <==>
            (&& |RecentCalls(calls, j, l.window)| < l.maxCrashes
             && |RecentCalls(calls, j, l.longWindow)| < l.longMaxCrashes)
  {
    assert LastJudged(l, calls[..j + 1]);
    RecentCallsCounted(calls, j, l.window, l.longWindow);
    RecentCallsCounted(calls, j, l.longWindow, l.longWindow);
  }

  lemma JudgedSnoc(l: Limits, calls: seq<Call>, c: Call)
    requires InOrder(calls) && Judged(l, calls) && c.recorded <= c.judged
    requires forall i :: 0 <= i < |calls| ==> calls[i].judged <= c.recorded
    requires c.restarted == !Looping(l, Tracked(Times(calls) + [c.recorded], l.longWindow), c.judged)
    ensures InOrder(calls + [c]) && Judged(l, calls + [c]) && Times(calls + [c]) == Times(calls) + [c.recorded]
  {
    var all := calls + [c];
    assert Times(all) == Times(calls) + [c.recorded];
    forall j | 0 < j <= |all| ensures LastJudged(l, all[..j]) {
      if j <= |calls| { assert all[..j] == calls[..j]; } else { assert all[..j] == all; }
    }
  }

  class SlotLifecycle {
    const backoff: ExponentialBackoff
    const crashTracker: CrashTracker
    var disabled: bool
    ghost var calls: seq<Call>

    ghost predicate Valid()
      reads this, backoff, crashTracker
    {
      && backoff.Valid() && crashTracker.Valid()
      && InOrder(calls) && crashTracker.crashes == Times(calls)
      && Judged(crashTracker.limits, calls)
    }

    constructor (base: nat, max: nat, limits: Limits)
      ensures Valid() && !disabled && calls == [] && crashTracker.limits == limits
      ensures fresh(backoff) && fresh(crashTracker)
    {
      backoff := new ExponentialBackoff(base, max);
      crashTracker := new CrashTracker(limits);
      disabled, calls := false, [];
    }

    method RecordCrashAndCheck(recorded: nat, judged: nat) returns (action: CrashAction)
      requires Valid() && recorded <= judged
      requires forall i :: 0 <= i < |calls| ==> calls[i].judged <= recorded
      modifies this, backoff, crashTracker
      ensures Valid() && calls == old(calls) + [Call(recorded, judged, action.RestartAfter?)]
      ensures disabled <==> old(disabled) || action.Disabled?
      ensures action.RestartAfter? ==>
                action.delay == DelayAt(backoff.base, backoff.max, old(backoff.attempts))
                && backoff.attempts == old(backoff.attempts) + 1
      ensures action.Disabled? ==> backoff.attempts == old(backoff.attempts)
      ensures var (l, last) := (crashTracker.limits, |old(calls)|);
              l.window <= l.longWindow ==>
                (action.RestartAfter? <==>
                 (&& |RecentCalls(calls, last, l.window)| < l.maxCrashes
                  && |RecentCalls(calls, last, l.longWindow)| < l.longMaxCrashes))
    {
      crashTracker.RecordCrash(recorded);
      var looping := crashTracker.IsCrashLoop(judged);
      if looping {
        disabled := true;
        action := Disabled;
      } else {
        var delay := backoff.NextDelay();
        action := RestartAfter(delay);
      }
      JudgedSnoc(crashTracker.limits, calls, Call(recorded, judged, !looping));
      calls := calls + [Call(recorded, judged, !looping)];
      if crashTracker.limits.window <= crashTracker.limits.longWindow {
        RestartedExactlyWhen(crashTracker.limits, calls, |calls| - 1);
      }
    }
  }
}
