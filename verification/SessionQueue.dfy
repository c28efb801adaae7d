/** Per-session FIFO queues with at most one dispatch in progress per session. */
module SessionQueues {
  import opened Options
  import opened Messages

  datatype Queue = Queue(queues: map<SessionKey, seq<Payload>>, active: set<SessionKey>)

  datatype QueueAction = Dispatch(payload: Payload) | Enqueued

  const EMPTY := Queue(map[], {})

  /** What waits for `key`, oldest first. */
  function Pending(q: Queue, key: SessionKey): seq<Payload> {
    if key in q.queues then q.queues[key] else []
  }

  function Append(q: Queue, key: SessionKey, p: Payload): Queue {
    q.(queues := q.queues[key := Pending(q, key) + [p]])
  }

  function AfterPush(q: Queue, key: SessionKey, p: Payload): Queue {
    if key in q.active then Append(q, key, p) else q.(active := q.active + {key})
  }

  function AfterMarkIdle(q: Queue, key: SessionKey): Queue {
    var waiting := Pending(q, key);
    if |waiting| > 1 then q.(queues := q.queues[key := waiting[1..]])
    else if |waiting| == 1 then q.(queues := q.queues - {key})
    else Queue(q.queues - {key}, q.active - {key})
  }

  function MarkIdleResult(q: Queue, key: SessionKey): Option<Payload> {
    var waiting := Pending(q, key);
    if waiting == [] then None else Some(waiting[0])
  }

  function AfterFlush(q: Queue, key: SessionKey): Queue {
    if key in q.active then q
    else Queue(q.queues - {key}, if Pending(q, key) == [] then q.active else q.active + {key})
  }

  function FlushResult(q: Queue, key: SessionKey): Option<Payload> {
    var waiting := Pending(q, key);
    if key in q.active || waiting == [] then None
    else Some(Payload(Flatten(waiting), FirstMetadata(waiting)))
  }

  function AfterDrain(q: Queue, key: SessionKey): Queue {
    q.(queues := q.queues - {key})
  }

  /** `mark_idle` followed by `drain_queued` empties the session's queue, in order, and
      leaves the session active exactly when something was taken out. */
  lemma IdleThenDrain(q: Queue, key: SessionKey)
    ensures var q1 := AfterMarkIdle(q, key);
            var first := MarkIdleResult(q, key);
            && Pending(AfterDrain(q1, key), key) == []
            && (first.Some? ==> [first.value] + Pending(q1, key) == Pending(q, key))
            && (first.None? ==> Pending(q, key) == [] && key !in q1.active)
            && (first.Some? ==> q1.active == q.active)
  {
    var waiting := Pending(q, key);
    if |waiting| >= 1 {
      assert waiting == [waiting[0]] + waiting[1..];
      if |waiting| == 1 { assert waiting[1..] == []; }
    }
  }

  /** An idle session's flush merges all that waits, with the first metadata there is. */
  lemma FlushMeaning(q: Queue, key: SessionKey, i: nat)
    requires key !in q.active && i < |Pending(q, key)| && Pending(q, key)[i].metadata.Some?
    requires forall j :: 0 <= j < i ==> Pending(q, key)[j].metadata.None?
    ensures FlushResult(q, key) == Some(Payload(Flatten(Pending(q, key)), Pending(q, key)[i].metadata))
    ensures Pending(AfterFlush(q, key), key) == [] && key in AfterFlush(q, key).active
  {
    MetadataMeaning(Pending(q, key), i);
  }

  function PushAll(q: Queue, key: SessionKey, ps: seq<Payload>): Queue {
    if ps == [] then q else AfterPush(PushAll(q, key, ps[..|ps| - 1]), key, ps[|ps| - 1])
  }

  /** The queue after `mark_idle` was called until it had nothing more to give, and what it gave. */
  function IdleUntilEmpty(q: Queue, key: SessionKey): (Queue, seq<Payload>)
    decreases |Pending(q, key)|
  {
    match MarkIdleResult(q, key)
    case None => (AfterMarkIdle(q, key), [])
    case Some(p) =>
      var (q', rest) := IdleUntilEmpty(AfterMarkIdle(q, key), key);
      (q', [p] + rest)
  }

  lemma {:induction false} PushAllAppends(q: Queue, key: SessionKey, ps: seq<Payload>)
    requires key in q.active
    ensures var q' := PushAll(q, key, ps);
            && q'.active == q.active && Pending(q', key) == Pending(q, key) + ps
            && q'.queues - {key} == q.queues - {key}
  {
    if ps != [] { PushAllAppends(q, key, ps[..|ps| - 1]); }
  }

  lemma {:induction false} IdleGivesAll(q: Queue, key: SessionKey)
    ensures IdleUntilEmpty(q, key) == (Queue(q.queues - {key}, q.active - {key}), Pending(q, key))
    decreases |Pending(q, key)|
  {
    var waiting := Pending(q, key);
    if waiting != [] {
      var q1 := AfterMarkIdle(q, key);
      IdleGivesAll(q1, key);
      assert q1.queues - {key} == q.queues - {key} && q1.active == q.active;
      assert [waiting[0]] + Pending(q1, key) == waiting;
    }
  }

  /** One at a time and in order: of the messages pushed to an idle session the first is dispatched,
      `mark_idle` gives the others in the order they came, and then the session is idle again and no
      other session was touched. */
  lemma OneAtATime(q: Queue, key: SessionKey, first: Payload, later: seq<Payload>)
    requires key !in q.active && key !in q.queues
    ensures IdleUntilEmpty(PushAll(AfterPush(q, key, first), key, later), key) == (q, later)
  {
    var busy := AfterPush(q, key, first);
    var q' := PushAll(busy, key, later);
    PushAllAppends(busy, key, later);
    IdleGivesAll(q', key);
    assert busy == Queue(q.queues, q.active + {key}) && Pending(busy, key) == [];
    assert q.queues - {key} == q.queues;
    assert q'.active - {key} == q.active;
    assert [] + later == later;
  }

  class SessionQueue {
    var queues: map<SessionKey, seq<Payload>>
    var active: set<SessionKey>

    function View(): Queue
      reads this
    {
      Queue(queues, active)
    }

    constructor ()
      ensures View() == EMPTY
    {
      queues := map[];
      active := {};
    }

    method Push(key: SessionKey, p: Payload) returns (action: QueueAction)
      modifies this
      ensures View() == AfterPush(old(View()), key, p)
      ensures action == if old(key in active) then Enqueued else Dispatch(p)
    {
      if key in active {
        var waiting := if key in queues then queues[key] else [];
        queues := queues[key := waiting + [p]];
        action := Enqueued;
      } else {
        active := active + {key};
        action := Dispatch(p);
      }
    }

    method MarkIdle(key: SessionKey) returns (next: Option<Payload>)
      modifies this
      ensures View() == AfterMarkIdle(old(View()), key)
      ensures next == MarkIdleResult(old(View()), key)
    {
      if key in queues {
        var queue := queues[key];
        if queue != [] {
          next := Some(queue[0]);
          queue := queue[1..];
          queues := if queue == [] then queues - {key} else queues[key := queue];
          return;
        }
        queues := queues - {key};
      }
      assert queues - {key} == queues;
      active := active - {key};
      next := None;
    }

    method IsActive(key: SessionKey) returns (b: bool)
      ensures b <==> key in View().active
    {
      b := key in active;
    }

    method PushOnly(key: SessionKey, p: Payload) returns (wasIdle: bool)
      modifies this
      ensures View() == Append(old(View()), key, p)
      ensures wasIdle <==> key !in old(active)
    {
      wasIdle := key !in active;
      var waiting := if key in queues then queues[key] else [];
      queues := queues[key := waiting + [p]];
    }

    method FlushPending(key: SessionKey) returns (batch: Option<Payload>)
      modifies this
      ensures View() == AfterFlush(old(View()), key)
      ensures batch == FlushResult(old(View()), key)
    {
      if key in active { return None; }
      if key !in queues {
        assert queues - {key} == queues;
        return None;
      }
      var queue := queues[key];
      queues := queues - {key};
      if queue == [] { return None; }
      active := active + {key};
      var merged: seq<ContentPart> := [];
      var firstMetadata: Option<MessageMetadata> := None;
      for i := 0 to |queue|
        invariant merged == Flatten(queue[..i])
        invariant firstMetadata == FirstMetadata(queue[..i])
      {
        assert queue[..i + 1][..i] == queue[..i];
        merged := merged + queue[i].content;
        if firstMetadata.None? && queue[i].metadata.Some? {
          firstMetadata := queue[i].metadata;
        }
      }
      assert queue[..|queue|] == queue;
      batch := Some(Payload(merged, firstMetadata));
    }

    method DrainQueued(key: SessionKey) returns (drained: seq<Payload>)
      modifies this
      ensures View() == AfterDrain(old(View()), key)
      ensures drained == Pending(old(View()), key)
    {
      if key in queues {
        drained := queues[key];
        queues := queues - {key};
      } else {
        assert queues - {key} == queues;
        drained := [];
      }
    }
  }
}
