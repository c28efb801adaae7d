/** Requests waiting for an answer, keyed by an id: where every registered request ends up. */
module PendingTables {
  datatype Op<K, V> = Register(key: K, value: V) | Resolve(key: K)

  /** `answered` left the table with an answer; `overwritten` was replaced by a later request under
      the same key and can never be answered. */
  datatype Table<K, V> = Table(pending: map<K, V>, answered: seq<(K, V)>, overwritten: seq<(K, V)>)

  function Empty<K, V>(): Table<K, V> { Table(map[], [], []) }

  function Apply<K, V>(t: Table<K, V>, op: Op<K, V>): Table<K, V> {
    match op
    case Register(k, v) =>
      var lost := if k in t.pending then [(k, t.pending[k])] else [];
      t.(pending := t.pending[k := v], overwritten := t.overwritten + lost)
    case Resolve(k) =>
      if k in t.pending
      then t.(pending := t.pending - {k}, answered := t.answered + [(k, t.pending[k])])
      else t
  }

  function Run<K, V>(ops: seq<Op<K, V>>): Table<K, V> {
    if ops == [] then Empty() else Apply(Run(ops[..|ops| - 1]), ops[|ops| - 1])
  }

  /** How often `v` was registered under `k`. */
  function Registered<K(==), V(==)>(ops: seq<Op<K, V>>, k: K, v: V): nat {
    if ops == [] then 0
    else Registered(ops[..|ops| - 1], k, v) + if ops[|ops| - 1] == Register(k, v) then 1 else 0
  }

  function PendingCount<K, V(==)>(t: Table<K, V>, k: K, v: V): nat {
    if k in t.pending && t.pending[k] == v then 1 else 0
  }

  /** How often the pair occurs in a list. */
  function Times<K(==), V(==)>(s: seq<(K, V)>, k: K, v: V): nat { multiset(s)[(k, v)] }

  predicate DistinctKeys<K(==), V>(ops: seq<Op<K, V>>) {
    forall i, j :: 0 <= i < j < |ops| && ops[i].Register? && ops[j].Register? ==> ops[i].key != ops[j].key
  }

  /** Every registered request is pending, answered or overwritten: none appears twice and none
      disappears. */
  lemma {:induction false} Conservation<K, V>(ops: seq<Op<K, V>>, k: K, v: V)
    ensures var t := Run(ops);
            Registered(ops, k, v) == PendingCount(t, k, v) + Times(t.answered, k, v) + Times(t.overwritten, k, v)
  {
    if ops != [] { Conservation(ops[..|ops| - 1], k, v); }
  }

  /** A request is lost exactly when a key was registered while it was still pending. */
  lemma {:induction false} NothingOverwritten<K, V>(ops: seq<Op<K, V>>)
    ensures Run(ops).overwritten == [] <==>
            forall i :: 0 <= i < |ops| && ops[i].Register? ==> ops[i].key !in Run(ops[..i]).pending
  {
    if ops != [] {
      var before := ops[..|ops| - 1];
      NothingOverwritten(before);
      assert forall i :: 0 <= i < |before| ==> before[i] == ops[i] && before[..i] == ops[..i];
    }
  }

  /** Pending and answered keys were registered. */
  lemma {:induction false} KeysComeFromRequests<K, V>(ops: seq<Op<K, V>>, k: K)
    requires k in Run(ops).pending
    ensures exists i :: 0 <= i < |ops| && ops[i] == Register(k, Run(ops).pending[k])
  {
    var before, last := ops[..|ops| - 1], ops[|ops| - 1];
    if last.Register? && last.key == k {
      assert ops[|ops| - 1] == Register(k, Run(ops).pending[k]);
    } else {
      KeysComeFromRequests(before, k);
      var i :| 0 <= i < |before| && before[i] == Register(k, Run(before).pending[k]);
      assert ops[i] == Register(k, Run(ops).pending[k]);
    }
  }

  lemma {:induction false} RegisteredOnce<K, V>(ops: seq<Op<K, V>>, k: K, v: V)
    requires DistinctKeys(ops)
    ensures Registered(ops, k, v) <= 1
    ensures Registered(ops, k, v) > 0 <==> exists i :: 0 <= i < |ops| && ops[i] == Register(k, v)
  {
    if ops != [] {
      var before, last := ops[..|ops| - 1], ops[|ops| - 1];
      assert DistinctKeys(before);
      RegisteredOnce(before, k, v);
      assert forall i :: 0 <= i < |before| ==> before[i] == ops[i];
      if last == Register(k, v) { assert ops[|ops| - 1] == Register(k, v); }
      if Registered(before, k, v) > 0 {
        var i :| 0 <= i < |before| && before[i] == Register(k, v);
        assert ops[i] == Register(k, v);
      }
    }
  }

  /** With distinct keys nothing is overwritten, and every request is either pending or answered
      exactly once; what was never requested is neither. */
  lemma AnsweredAtMostOnce<K, V>(ops: seq<Op<K, V>>, k: K, v: V)
    requires DistinctKeys(ops)
    ensures Run(ops).overwritten == []
    ensures PendingCount(Run(ops), k, v) + Times(Run(ops).answered, k, v)
         == if exists i :: 0 <= i < |ops| && ops[i] == Register(k, v) then 1 else 0
  {
    forall i | 0 <= i < |ops| && ops[i].Register? ensures ops[i].key !in Run(ops[..i]).pending {
      if ops[i].key in Run(ops[..i]).pending {
        KeysComeFromRequests(ops[..i], ops[i].key);
      }
    }
    NothingOverwritten(ops);
    Conservation(ops, k, v);
    RegisteredOnce(ops, k, v);
  }

  /** An empty table ignores answers, so a reader may stop as soon as nothing is pending. */
  lemma {:induction false} EmptyIgnoresAnswers<K, V>(ops: seq<Op<K, V>>, more: seq<Op<K, V>>)
    requires Run(ops).pending == map[] && forall i :: 0 <= i < |more| ==> more[i].Resolve?
    ensures Run(ops + more) == Run(ops)
  {
    if more == [] {
      assert ops + more == ops;
    } else {
      assert (ops + more)[..|ops + more| - 1] == ops + more[..|more| - 1];
      EmptyIgnoresAnswers(ops, more[..|more| - 1]);
    }
  }
}
