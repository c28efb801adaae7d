/** The group-chat context buffer: a table with growing row ids, trimmed and emptied by SQL. */
module ContextStore {
  datatype ContextMessage = ContextMessage(groupKey: string, sender: string, content: string, timestamp: int)

  datatype Row = Row(id: nat, message: ContextMessage)

  datatype Table = Table(rows: seq<Row>, nextId: nat)

  const UNLIMITED := 0x8000_0000_0000_0000

  /** Ids grow from row to row, starting at `lo` or above and staying below `hi`. */
  predicate Growing(rows: seq<Row>, lo: nat, hi: nat) {
    rows == [] || (lo <= rows[0].id < hi && Growing(rows[1..], rows[0].id + 1, hi))
  }

  predicate WellFormed(t: Table) { Growing(t.rows, 0, t.nextId) }

  /** The messages of one group, in row order. */
  function Group(rows: seq<Row>, g: string): seq<ContextMessage> {
    if rows == [] then []
    else if rows[0].message.groupKey == g then [rows[0].message] + Group(rows[1..], g)
    else Group(rows[1..], g)
  }

  /** How many rows of the group have a larger id. */
  function Newer(rows: seq<Row>, g: string, id: nat): nat {
    if rows == [] then 0
    else Newer(rows[1..], g, id) + if rows[0].message.groupKey == g && rows[0].id > id then 1 else 0
  }

  /** The row survives `DELETE ... WHERE group_key = g AND id NOT IN (SELECT id ... WHERE group_key
      = g ORDER BY id DESC LIMIT limit)`. A limit that does not fit a signed 64-bit integer turns
      negative, which SQL reads as no limit. */
  predicate Survives(all: seq<Row>, row: Row, g: string, limit: nat) {
    row.message.groupKey != g || limit >= UNLIMITED || Newer(all, g, row.id) < limit
  }

  function Trimmed(rows: seq<Row>, all: seq<Row>, g: string, limit: nat): seq<Row> {
    if rows == [] then []
    else if Survives(all, rows[0], g, limit) then [rows[0]] + Trimmed(rows[1..], all, g, limit)
    else Trimmed(rows[1..], all, g, limit)
  }

  function Without(rows: seq<Row>, g: string): seq<Row> {
    if rows == [] then []
    else if rows[0].message.groupKey != g then [rows[0]] + Without(rows[1..], g)
    else Without(rows[1..], g)
  }

  function AfterStore(t: Table, m: ContextMessage, limit: nat): Table {
    if limit == 0 then t
    else
      var rows := t.rows + [Row(t.nextId, m)];
      Table(Trimmed(rows, rows, m.groupKey, limit), t.nextId + 1)
  }

  function AfterTake(t: Table, g: string): Table { t.(rows := Without(t.rows, g)) }

  class ContextTable {
    var rows: seq<Row>
    var nextId: nat

    function View(): Table
      reads this
    {
      Table(rows, nextId)
    }

    constructor ()
      ensures View() == Table([], 1)
    {
      rows, nextId := [], 1;
    }

    method StoreContext(m: ContextMessage, limit: nat)
      modifies this
      ensures View() == AfterStore(old(View()), m, limit)
    {
      if limit == 0 { return; }
      rows := rows + [Row(nextId, m)];
      nextId := nextId + 1;
      var all, kept, i := rows, [], 0;
      while i < |all|
        invariant 0 <= i <= |all|
        invariant kept + Trimmed(all[i..], all, m.groupKey, limit) == Trimmed(all, all, m.groupKey, limit)
      {
        assert all[i..][1..] == all[i + 1..];
        if Survives(all, all[i], m.groupKey, limit) {
          assert kept + ([all[i]] + Trimmed(all[i + 1..], all, m.groupKey, limit))
              == (kept + [all[i]]) + Trimmed(all[i + 1..], all, m.groupKey, limit);
          kept := kept + [all[i]];
        }
        i := i + 1;
      }
      rows := kept;
    }

    method TakeContext(g: string) returns (messages: seq<ContextMessage>)
      modifies this
      ensures messages == Group(old(rows), g)
      ensures View() == AfterTake(old(View()), g)
    {
      messages := [];
      var kept, i := [], 0;
      while i < |rows|
        invariant 0 <= i <= |rows| && rows == old(rows)
        invariant messages + Group(rows[i..], g) == Group(rows, g)
        invariant kept + Without(rows[i..], g) == Without(rows, g)
      {
        assert rows[i..][1..] == rows[i + 1..];
        if rows[i].message.groupKey == g {
          messages := messages + [rows[i].message];
        } else {
          kept := kept + [rows[i]];
        }
        i := i + 1;
      }
      rows := kept;
    }
  }

  // ----- the reference: one bounded queue per group -----

  datatype Operation = Store(message: ContextMessage, limit: nat) | Take(group: string)

  /** The last `limit` messages. */
  function Last(s: seq<ContextMessage>, limit: nat): seq<ContextMessage> {
    if limit >= UNLIMITED || |s| <= limit then s else s[|s| - limit..]
  }

  /** What the queue of `g` holds after these operations. */
  function Fifo(ops: seq<Operation>, g: string): seq<ContextMessage> {
    if ops == [] then []
    else
      var before := Fifo(ops[..|ops| - 1], g);
      match ops[|ops| - 1]
      case Store(m, limit) => if m.groupKey == g && limit > 0 then Last(before + [m], limit) else before
      case Take(k) => if k == g then [] else before
  }

  function RunAll(ops: seq<Operation>): Table {
    if ops == [] then Table([], 1)
    else
      var before := RunAll(ops[..|ops| - 1]);
      match ops[|ops| - 1]
      case Store(m, limit) => AfterStore(before, m, limit)
      case Take(g) => AfterTake(before, g)
  }

  // ----- proofs -----

  lemma {:induction false} GroupConcat(a: seq<Row>, b: seq<Row>, g: string)
    ensures Group(a + b, g) == Group(a, g) + Group(b, g)
  {
    if a == [] { assert a + b == b; } else { assert (a + b)[1..] == a[1..] + b; GroupConcat(a[1..], b, g); }
  }

  lemma {:induction false} NewerConcat(a: seq<Row>, b: seq<Row>, g: string, id: nat)
    ensures Newer(a + b, g, id) == Newer(a, g, id) + Newer(b, g, id)
  {
    if a == [] { assert a + b == b; } else { assert (a + b)[1..] == a[1..] + b; NewerConcat(a[1..], b, g, id); }
  }

  lemma {:induction false} NewerAll(rows: seq<Row>, g: string, id: nat)
    ensures (forall i :: 0 <= i < |rows| ==> rows[i].id <= id) ==> Newer(rows, g, id) == 0
    ensures (forall i :: 0 <= i < |rows| ==> rows[i].id > id) ==> Newer(rows, g, id) == |Group(rows, g)|
  {
    if rows != [] { NewerAll(rows[1..], g, id); }
  }

  lemma {:induction false} GrowingIds(rows: seq<Row>, lo: nat, hi: nat)
    requires Growing(rows, lo, hi)
    ensures forall i :: 0 <= i < |rows| ==> lo <= rows[i].id < hi
    ensures forall i, j :: 0 <= i < j < |rows| ==> rows[i].id < rows[j].id
  {
    if rows != [] {
      GrowingIds(rows[1..], rows[0].id + 1, hi);
      assert forall i :: 0 < i < |rows| ==> rows[i] == rows[1..][i - 1];
    }
  }

  lemma {:induction false} GrowingSnoc(rows: seq<Row>, lo: nat, hi: nat, m: ContextMessage)
    requires Growing(rows, lo, hi) && lo <= hi
    ensures Growing(rows + [Row(hi, m)], lo, hi + 1)
  {
    if rows != [] {
      GrowingSnoc(rows[1..], rows[0].id + 1, hi, m);
      assert (rows + [Row(hi, m)])[1..] == rows[1..] + [Row(hi, m)];
    } else {
      assert (rows + [Row(hi, m)])[1..] == [];
    }
  }

  lemma GrowingBelow(rows: seq<Row>, lo: nat, lower: nat, hi: nat)
    requires Growing(rows, lo, hi) && lower <= lo
    ensures Growing(rows, lower, hi)
  {
  }

  /** Among rows with growing ids the newer ones are the later ones. */
  lemma NewerIsLater(rows: seq<Row>, g: string, i: nat, hi: nat)
    requires Growing(rows, 0, hi) && i < |rows|
    ensures Newer(rows, g, rows[i].id) == |Group(rows[i + 1..], g)|
  {
    GrowingIds(rows, 0, hi);
    assert rows == rows[..i + 1] + rows[i + 1..];
    NewerConcat(rows[..i + 1], rows[i + 1..], g, rows[i].id);
    NewerAll(rows[..i + 1], g, rows[i].id);
    NewerAll(rows[i + 1..], g, rows[i].id);
  }

  /** Trimming keeps the last `limit` messages of its group and all of any other. */
  lemma {:induction false} TrimKeepsLast(all: seq<Row>, i: nat, g: string, limit: nat, k: string, hi: nat)
    requires Growing(all, 0, hi) && i <= |all|
    ensures Group(Trimmed(all[i..], all, g, limit), k)
         == if k == g then Last(Group(all[i..], g), limit) else Group(all[i..], k)
    decreases |all| - i
  {
    if i < |all| {
      TrimKeepsLast(all, i + 1, g, limit, k, hi);
      NewerIsLater(all, g, i, hi);
      var kept := Trimmed(all[i + 1..], all, g, limit);
      assert all[i..] == [all[i]] + all[i + 1..];
      GroupConcat([all[i]], all[i + 1..], k);
      GroupConcat([all[i]], kept, k);
      LastCons(all[i].message, Group(all[i + 1..], g), limit);
      assert Trimmed(all[i..], all, g, limit) == if Survives(all, all[i], g, limit) then [all[i]] + kept else kept;
    }
  }

  lemma LastCons(m: ContextMessage, s: seq<ContextMessage>, limit: nat)
    ensures Last([m] + s, limit) == if limit >= UNLIMITED || |s| < limit then [m] + s else Last(s, limit)
  {
  }

  /** Dropping rows keeps the ids growing. */
  lemma {:induction false} TrimmedGrowing(rows: seq<Row>, all: seq<Row>, g: string, limit: nat, lo: nat, hi: nat)
    requires Growing(rows, lo, hi)
    ensures Growing(Trimmed(rows, all, g, limit), lo, hi)
  {
    if rows != [] {
      var rest := Trimmed(rows[1..], all, g, limit);
      TrimmedGrowing(rows[1..], all, g, limit, rows[0].id + 1, hi);
      GrowingBelow(rest, rows[0].id + 1, lo, hi);
      assert ([rows[0]] + rest)[1..] == rest;
    }
  }

  lemma {:induction false} WithoutGrowing(rows: seq<Row>, g: string, lo: nat, hi: nat)
    requires Growing(rows, lo, hi)
    ensures Growing(Without(rows, g), lo, hi)
  {
    if rows != [] {
      var rest := Without(rows[1..], g);
      WithoutGrowing(rows[1..], g, rows[0].id + 1, hi);
      GrowingBelow(rest, rows[0].id + 1, lo, hi);
      assert ([rows[0]] + rest)[1..] == rest;
    }
  }

  /** Deleting a group empties it and leaves the others as they were. */
  lemma {:induction false} WithoutGroup(rows: seq<Row>, g: string, k: string)
    ensures Group(Without(rows, g), k) == if k == g then [] else Group(rows, k)
  {
    if rows != [] {
      WithoutGroup(rows[1..], g, k);
      assert ([rows[0]] + Without(rows[1..], g))[1..] == Without(rows[1..], g);
    }
  }

  lemma StoreRefines(t: Table, m: ContextMessage, limit: nat, g: string)
    requires WellFormed(t)
    ensures WellFormed(AfterStore(t, m, limit))
    ensures Group(AfterStore(t, m, limit).rows, g)
         == if m.groupKey == g && limit > 0 then Last(Group(t.rows, g) + [m], limit) else Group(t.rows, g)
  {
    if limit > 0 {
      var row := Row(t.nextId, m);
      var rows := t.rows + [row];
      GrowingSnoc(t.rows, 0, t.nextId, m);
      assert rows[0..] == rows;
      TrimKeepsLast(rows, 0, m.groupKey, limit, g, t.nextId + 1);
      TrimmedGrowing(rows, rows, m.groupKey, limit, 0, t.nextId + 1);
      GroupConcat(t.rows, [row], g);
      assert Group([row], g) == if m.groupKey == g then [m] else [];
    }
  }

  /** For every interleaving of stores and takes, over any groups and limits, the table holds for
      each group exactly what a queue bounded to its last messages would; a take therefore returns
      that queue, empties it and leaves the others alone. */
  lemma {:induction false} TableRefinesFifo(ops: seq<Operation>, g: string)
    ensures WellFormed(RunAll(ops))
    ensures Group(RunAll(ops).rows, g) == Fifo(ops, g)
  {
    if ops != [] {
      var before := RunAll(ops[..|ops| - 1]);
      TableRefinesFifo(ops[..|ops| - 1], g);
      match ops[|ops| - 1]
      case Store(m, limit) => StoreRefines(before, m, limit, g);
      case Take(k) =>
        WithoutGrowing(before.rows, k, 0, before.nextId);
        WithoutGroup(before.rows, k, g);
    }
  }
}
