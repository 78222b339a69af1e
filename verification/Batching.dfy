/** Sorting, chunking and bulk statements against the plain meaning: row at a time, in the
    caller's order. */
module Batching {
  import opened Prelude
  import opened Models
  import opened Sorting
  import opened UtxoTable

  /** The chunk loop of an upsert: None once a chunk holds the same key twice. */
  function UpsertChunks(t: Table, us: seq<Utxo>, size: nat): Option<Table>
    requires size > 0
    decreases |us|
  {
    if |us| == 0 then Some(t)
    else
      var m := Min(size, |us|);
      if DistinctOps(us[..m]) then UpsertChunks(UpsertAll(t, us[..m]), us[m..], size) else None
  }

  /** The chunk loop of mark-spent: every chunk takes the stamp of its first entry. */
  function MarkChunks(t: Table, us: seq<Utxo>, size: nat): Table
    requires size > 0
  {
    if |us| == 0 then t
    else
      var m := Min(size, |us|);
      MarkChunks(MarkMany(t, OpsOf(us[..m]), StampOf(us[0])), us[m..], size)
  }

  lemma {:induction false} UpsertChunksIsUpsertAll(t: Table, us: seq<Utxo>, size: nat)
    requires size > 0
    ensures var r := UpsertChunks(t, us, size); r.Some? ==> r.value == UpsertAll(t, us)
    decreases |us|
  {
    if |us| > 0 {
      var m := Min(size, |us|);
      UpsertChunksIsUpsertAll(UpsertAll(t, us[..m]), us[m..], size);
      UpsertAllConcat(t, us[..m], us[m..]);
      assert us[..m] + us[m..] == us;
    }
  }

  /** Position i starts a chunk. */
  predicate StartsChunk(i: nat, size: nat)
    requires size > 0
  {
    if i < size then i == 0 else StartsChunk(i - size, size)
  }

  /** No two neighbours inside one chunk have the same key. */
  predicate NoRepeatInChunk(us: seq<Utxo>, size: nat)
    requires size > 0
  {
    forall i :: 0 < i < |us| && !StartsChunk(i, size) ==> us[i - 1].op != us[i].op
  }

  /** Whatever the sort does with ties, no chunk of the sorted list repeats a key. */
  ghost predicate Insertable(us: seq<Utxo>, size: nat)
    requires size > 0
  {
    forall sorted :: IsSortOf(sorted, us) ==> NoRepeatInChunk(sorted, size)
  }

  lemma InsertableByOneSort(us: seq<Utxo>, sorted: seq<Utxo>, size: nat)
    requires size > 0 && IsSortOf(sorted, us)
    ensures Insertable(us, size) <==> NoRepeatInChunk(sorted, size)
  {
    if NoRepeatInChunk(sorted, size) {
      forall other: seq<Utxo> | IsSortOf(other, us) ensures NoRepeatInChunk(other, size) {
        SortsAgreeOnKeys(other, sorted, us);
        assert |other| == |Ops(other)| == |Ops(sorted)| == |sorted|;
        assert forall i :: 0 <= i < |other| ==> other[i].op == Ops(other)[i] == sorted[i].op;
      }
    }
  }

  lemma DistinctIsInsertable(us: seq<Utxo>, size: nat)
    requires size > 0 && DistinctOps(us)
    ensures Insertable(us, size)
  {
    forall sorted | IsSortOf(sorted, us) ensures NoRepeatInChunk(sorted, size) {
      SortKeepsDistinct(sorted, us);
    }
  }

  lemma {:induction false} StartsChunkIs(i: nat)
    ensures StartsChunk(i, 5000) <==> i % 5000 == 0
  {
    if i >= 5000 { StartsChunkIs(i - 5000); }
  }

  /** No key stands at two positions of one statement of five thousand rows. */
  ghost predicate DistinctPer5000(us: seq<Utxo>) {
    forall i, j :: 0 <= i < j < |us| && i / 5000 == j / 5000 ==> us[i].op != us[j].op
  }

  lemma RepeatsAreNeighbours(us: seq<Utxo>)
    requires Sorted(us)
    ensures NoRepeatInChunk(us, 5000) <==> DistinctPer5000(us)
  {
    hide StartsChunk, Leq;
    forall j: nat ensures StartsChunk(j, 5000) <==> j % 5000 == 0 { StartsChunkIs(j); }
    if NoRepeatInChunk(us, 5000) {
      forall i, j | 0 <= i < j < |us| && i / 5000 == j / 5000 ensures us[i].op != us[j].op {
        assert us[j - 1].op != us[j].op;
        if us[i].op == us[j].op && i < j - 1 {
          assert Leq(us[i].op, us[j - 1].op) && Leq(us[j - 1].op, us[j].op);
          LeqAntisymmetric(us[j - 1].op, us[j].op);
        }
      }
    }
    if DistinctPer5000(us) {
      forall i | 0 < i < |us| && !StartsChunk(i, 5000) ensures us[i - 1].op != us[i].op {
        assert (i - 1) / 5000 == i / 5000;
      }
    }
  }

  /** Whatever the sort does with ties. */
  lemma InsertableIs(us: seq<Utxo>)
    ensures Insertable(us, 5000) <==> forall sorted :: IsSortOf(sorted, us) ==> DistinctPer5000(sorted)
  {
    forall sorted | IsSortOf(sorted, us) ensures NoRepeatInChunk(sorted, 5000) <==> DistinctPer5000(sorted) {
      RepeatsAreNeighbours(sorted);
    }
  }

  /** A sorted bulk upsert goes through exactly when no chunk repeats a key. */
  lemma {:induction false} UpsertChunksSucceeds(t: Table, us: seq<Utxo>, size: nat)
    requires size > 0 && Sorted(us)
    ensures UpsertChunks(t, us, size).Some? <==> NoRepeatInChunk(us, size)
    decreases |us|
  {
    if |us| > 0 {
      var m := Min(size, |us|);
      var head, tail := us[..m], us[m..];
      SortedDistinct(head);
      UpsertChunksSucceeds(UpsertAll(t, head), tail, size);
      RepeatSplit(us, size);
    }
  }

  lemma RepeatSplit(us: seq<Utxo>, size: nat)
    requires size > 0 && |us| > 0 && Sorted(us)
    ensures var m := Min(size, |us|);
            NoRepeatInChunk(us, size) <==> DistinctOps(us[..m]) && NoRepeatInChunk(us[m..], size)
  {
    var m := Min(size, |us|);
    var head, tail := us[..m], us[m..];
    SortedDistinct(head);
    if NoRepeatInChunk(us, size) {
      forall i | 0 < i < |head| ensures head[i - 1].op != head[i].op {
        assert !StartsChunk(i, size);
      }
      forall i | 0 < i < |tail| && !StartsChunk(i, size) ensures tail[i - 1].op != tail[i].op {
        assert !StartsChunk(i + m, size);
        assert us[i + m] == tail[i] && us[i + m - 1] == tail[i - 1];
      }
    }
    if DistinctOps(head) && NoRepeatInChunk(tail, size) {
      assert |us| > size ==> StartsChunk(m, size) by { assert StartsChunk(0, size); }
      forall i | 0 < i < |us| && !StartsChunk(i, size) ensures us[i - 1].op != us[i].op {
        if i > m { assert us[i] == tail[i - m] && us[i - 1] == tail[i - m - 1]; }
        if i < m { assert us[i] == head[i] && us[i - 1] == head[i - 1]; }
      }
    }
  }

  lemma SameOps(us: seq<Utxo>, vs: seq<Utxo>, o: OutPoint)
    requires multiset(us) == multiset(vs)
    ensures HasOp(us, o) <==> HasOp(vs, o)
  {
    SameMembers(us, vs);
    if HasOp(us, o) { var i :| 0 <= i < |us| && us[i].op == o; assert us[i] in vs; }
    if HasOp(vs, o) { var i :| 0 <= i < |vs| && vs[i].op == o; assert vs[i] in us; }
  }

  /** Without repeated keys, the order of an upsert list does not matter in any column. */
  lemma UpsertAllPermutes(t: Table, us: seq<Utxo>, vs: seq<Utxo>)
    requires DistinctOps(us) && multiset(us) == multiset(vs)
    ensures UpsertAll(t, us) == UpsertAll(t, vs)
  {
    SortKeepsDistinct(vs, us);
    SameMembers(us, vs);
    var a, b := UpsertAll(t, us), UpsertAll(t, vs);
    forall o ensures o in a <==> o in b
             ensures o in a ==> a[o] == b[o]
    {
      SameOps(us, vs, o);
      if HasOp(us, o) {
        var i :| 0 <= i < |us| && us[i].op == o;
        assert us[i] in vs;
        var j :| 0 <= j < |vs| && vs[j] == us[i];
        UpsertAllHit(t, us, i);
        UpsertAllHit(t, vs, j);
      } else {
        UpsertAllMiss(t, us, o);
        UpsertAllMiss(t, vs, o);
      }
    }
  }

  /** Row by row, column by column: what an upsert without repeats leaves. */
  lemma UpsertAllColumns(t: Table, us: seq<Utxo>)
    requires DistinctOps(us)
    ensures forall o :: o in UpsertAll(t, us) <==> o in t || HasOp(us, o)
    ensures forall o :: o in t && o in UpsertAll(t, us) && !HasOp(us, o) ==> UpsertAll(t, us)[o] == t[o]
    ensures forall u :: u in us && u.op in t && u.op in UpsertAll(t, us) ==>
      UpsertAll(t, us)[u.op] == t[u.op].(status := u.row.status, blockHeight := u.row.blockHeight, blockHash := u.row.blockHash)
    ensures forall u :: u in us && u.op !in t && u.op in UpsertAll(t, us) ==>
      UpsertAll(t, us)[u.op] == u.row.(spentAt := None, spentByTxid := None)
  {
    forall u | u in us ensures u.op in UpsertAll(t, us) && UpsertAll(t, us)[u.op] == Merged(t, u) {
      var i :| 0 <= i < |us| && us[i] == u;
      UpsertAllHit(t, us, i);
    }
    forall o ensures o in UpsertAll(t, us) <==> o in t || HasOp(us, o)
             ensures o in t && !HasOp(us, o) ==> UpsertAll(t, us)[o] == t[o]
    {
      UpsertAllKeys(t, us, o);
      if !HasOp(us, o) { UpsertAllMiss(t, us, o); }
    }
  }

  /** Bulk upsert, whatever order the unstable sort gives ties and whatever the batch size,
      equals row-at-a-time in the original order on every column; rows that were there
      keep everything but status, height and hash. */
  lemma BulkUpsertEqualsRowAtATime(t: Table, us: seq<Utxo>, sorted: seq<Utxo>, size: nat)
    requires size > 0 && IsSortOf(sorted, us) && DistinctOps(us)
    ensures UpsertChunks(t, sorted, size) == Some(UpsertAll(t, us))
    ensures forall o :: o in UpsertAll(t, us) <==> o in t || HasOp(us, o)
    ensures forall o :: o in t && o in UpsertAll(t, us) && !HasOp(us, o) ==> UpsertAll(t, us)[o] == t[o]
    ensures forall u :: u in us && u.op in t && u.op in UpsertAll(t, us) ==>
      UpsertAll(t, us)[u.op] == t[u.op].(status := u.row.status, blockHeight := u.row.blockHeight, blockHash := u.row.blockHash)
    ensures forall u :: u in us && u.op !in t && u.op in UpsertAll(t, us) ==>
      UpsertAll(t, us)[u.op] == u.row.(spentAt := None, spentByTxid := None)
  {
    SortKeepsDistinct(sorted, us);
    UpsertChunksSucceeds(t, sorted, size);
    UpsertChunksIsUpsertAll(t, sorted, size);
    UpsertAllPermutes(t, us, sorted);
    UpsertAllColumns(t, us);
  }

  // ----- mark-spent

  /** A row without the two columns that say when and by whom it was spent. */
  function Unspend(r: Row): Row { r.(spentAt := None, spentByTxid := None) }

  function WithoutStamps(t: Table): Table { map o | o in t :: Unspend(t[o]) }

  lemma HasOpSplit(us: seq<Utxo>, m: nat, o: OutPoint)
    requires m <= |us|
    ensures HasOp(us, o) <==> HasOp(us[..m], o) || HasOp(us[m..], o)
  {
    if HasOp(us, o) {
      var i :| 0 <= i < |us| && us[i].op == o;
      if i < m { assert us[..m][i].op == o; } else { assert us[m..][i - m].op == o; }
    }
  }

  lemma {:induction false} MarkChunksStatus(t: Table, us: seq<Utxo>, size: nat, o: OutPoint)
    requires size > 0
    ensures o in MarkChunks(t, us, size) <==> o in t
    ensures o in t ==>
      Unspend(MarkChunks(t, us, size)[o]) == Unspend(if HasOp(us, o) then t[o].(status := Spent) else t[o])
  {
    if |us| > 0 {
      var m := Min(size, |us|);
      var t' := MarkMany(t, OpsOf(us[..m]), StampOf(us[0]));
      MarkChunksStatus(t', us[m..], size, o);
      HasOpSplit(us, m, o);
      assert o in OpsOf(us[..m]) <==> HasOp(us[..m], o);
    }
  }

  /** For every list, with repeats and absent rows, bulk mark-spent over the sorted list gives
      every row the status, and every other column but the stamps, that marking the rows one
      at a time in the original order gives it. */
  lemma BulkMarkEqualsRowAtATimeOnStatus(t: Table, us: seq<Utxo>, sorted: seq<Utxo>, size: nat)
    requires size > 0 && IsSortOf(sorted, us)
    ensures WithoutStamps(MarkChunks(t, sorted, size)) == WithoutStamps(MarkAll(t, us))
  {
    var bulk, plain := MarkChunks(t, sorted, size), MarkAll(t, us);
    forall o ensures o in bulk <==> o in plain
             ensures o in bulk ==> Unspend(bulk[o]) == Unspend(plain[o])
    {
      MarkChunksStatus(t, sorted, size, o);
      MarkAllAt(t, us, o);
      SameOps(us, sorted, o);
    }
  }

  /** The position whose stamp the chunk of position i takes. */
  function ChunkStart(i: nat, size: nat): (h: nat)
    requires size > 0
    ensures h <= i
  {
    if i < size then 0 else size + ChunkStart(i - size, size)
  }

  lemma {:induction false} MarkChunksStamp(t: Table, us: seq<Utxo>, size: nat, i: nat)
    requires size > 0 && DistinctOps(us) && i < |us|
    ensures us[i].op in MarkChunks(t, us, size) <==> us[i].op in t
    ensures us[i].op in t ==>
      MarkChunks(t, us, size)[us[i].op] == Marked(t[us[i].op], StampOf(us[ChunkStart(i, size)]))
  {
    var o := us[i].op;
    var m := Min(size, |us|);
    var t' := MarkMany(t, OpsOf(us[..m]), StampOf(us[0]));
    assert o in t' <==> o in t;
    if i < m {
      assert us[..m][i].op == o;
      assert o in t ==> t'[o] == Marked(t[o], StampOf(us[0]));
      assert !HasOp(us[m..], o);
      hide MarkMany, OpsOf, HasOp, DistinctOps;
      MarkChunksMiss(t', us[m..], size, o);
    } else {
      assert us[m..][i - m] == us[i];
      assert o !in OpsOf(us[..m]);
      assert o in t ==> t'[o] == t[o];
      assert DistinctOps(us[m..]);
      hide MarkMany, OpsOf, DistinctOps, HasOp, Marked;
      MarkChunksStamp(t', us[m..], size, i - m);
    }
  }

  lemma {:induction false} MarkChunksMiss(t: Table, us: seq<Utxo>, size: nat, o: OutPoint)
    requires size > 0 && !HasOp(us, o)
    ensures o in MarkChunks(t, us, size) <==> o in t
    ensures o in t ==> MarkChunks(t, us, size)[o] == t[o]
  {
    if |us| > 0 {
      var m := Min(size, |us|);
      HasOpSplit(us, m, o);
      assert o in OpsOf(us[..m]) <==> HasOp(us[..m], o);
      MarkChunksMiss(MarkMany(t, OpsOf(us[..m]), StampOf(us[0])), us[m..], size, o);
    }
  }

  lemma {:induction false} ChunkStartIs(i: nat)
    ensures ChunkStart(i, 1000) == i - i % 1000
  {
    if i >= 1000 { ChunkStartIs(i - 1000); }
  }

  /** A row that is marked takes the spend of some entry of the list. */
  lemma {:induction false} MarkedByChunk(t: Table, us: seq<Utxo>, size: nat, o: OutPoint) returns (u: Utxo)
    requires size > 0 && HasOp(us, o) && o in t
    ensures u in us && o in MarkChunks(t, us, size) && MarkChunks(t, us, size)[o] == Marked(t[o], StampOf(u))
  {
    var m := Min(size, |us|);
    var t' := MarkMany(t, OpsOf(us[..m]), StampOf(us[0]));
    HasOpSplit(us, m, o);
    assert o in OpsOf(us[..m]) <==> HasOp(us[..m], o);
    if HasOp(us[m..], o) {
      u := MarkedByChunk(t', us[m..], size, o);
    } else {
      MarkChunksMiss(t', us[m..], size, o);
      u := us[0];
    }
  }

  /** Every entry whose row exists carries the same spend as the first entry of its chunk. */
  predicate OneSpendPerChunk(t: Table, us: seq<Utxo>, size: nat)
    requires size > 0
  {
    forall i :: 0 <= i < |us| && us[i].op in t ==> StampOf(us[i]) == StampOf(us[ChunkStart(i, size)])
  }

  /** When no key repeats, bulk mark-spent records the spend time and the spender that row
      at a time would record if and only if each chunk of the sorted list has one spend. */
  lemma BulkMarkEqualsRowAtATimeIff(t: Table, us: seq<Utxo>, sorted: seq<Utxo>, size: nat)
    requires size > 0 && IsSortOf(sorted, us) && DistinctOps(us)
    ensures MarkChunks(t, sorted, size) == MarkAll(t, us) <==> OneSpendPerChunk(t, sorted, size)
  {
    SortKeepsDistinct(sorted, us);
    SameMembers(us, sorted);
    var bulk, plain := MarkChunks(t, sorted, size), MarkAll(t, us);
    forall o ensures o in bulk <==> o in plain {
      MarkChunksStatus(t, sorted, size, o);
      MarkAllAt(t, us, o);
    }
    forall i | 0 <= i < |sorted| && sorted[i].op in t
      ensures sorted[i].op in bulk && sorted[i].op in plain
      ensures bulk[sorted[i].op] == Marked(t[sorted[i].op], StampOf(sorted[ChunkStart(i, size)]))
      ensures plain[sorted[i].op] == Marked(t[sorted[i].op], StampOf(sorted[i]))
    {
      MarkChunksStamp(t, sorted, size, i);
      assert sorted[i] in us;
      var j :| 0 <= j < |us| && us[j] == sorted[i];
      LastStampDistinct(us, j);
      MarkAllAt(t, us, us[j].op);
    }
    if OneSpendPerChunk(t, sorted, size) {
      forall o | o in bulk ensures bulk[o] == plain[o] {
        MarkAllAt(t, us, o);
        MarkChunksStatus(t, sorted, size, o);
        if HasOp(sorted, o) {
          var i :| 0 <= i < |sorted| && sorted[i].op == o;
        } else {
          SameOps(us, sorted, o);
          MarkChunksMiss(t, sorted, size, o);
        }
      }
    }
  }

  /** The code's claim that the spends of a chunk "should be the same" fails for a block in which
      two transactions each spend one old output: the second row gets the first one's spender. */
  lemma BulkMarkMixesSpenders()
    ensures var row := Row("addr", "51", 7, Confirmed, Some(1), Some("h1"), 0, None, None);
            var a, b := OutPoint("a", 0), OutPoint("b", 0);
            var us := [Utxo(a, row.(status := Spent, spentAt := Some(9), spentByTxid := Some("t1"))),
                       Utxo(b, row.(status := Spent, spentAt := Some(9), spentByTxid := Some("t2")))];
            var t: Table := map[a := row, b := row];
            && IsSortOf(us, us) && DistinctOps(us)
            && b in MarkAll(t, us) && MarkAll(t, us)[b].spentByTxid == Some("t2")
            && b in MarkChunks(t, us, 1000) && MarkChunks(t, us, 1000)[b].spentByTxid == Some("t1")
  {
    var row := Row("addr", "51", 7, Confirmed, Some(1), Some("h1"), 0, None, None);
    var a, b := OutPoint("a", 0), OutPoint("b", 0);
    var us := [Utxo(a, row.(status := Spent, spentAt := Some(9), spentByTxid := Some("t1"))),
               Utxo(b, row.(status := Spent, spentAt := Some(9), spentByTxid := Some("t2")))];
    var t: Table := map[a := row, b := row];
    assert a.txid[0] == 'a' && b.txid[0] == 'b';
    MarkAllAt(t, us, b);
    MarkChunksStamp(t, us, 1000, 1);
  }
}
