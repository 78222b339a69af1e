/** What committing parsed blocks does to the set of unspent rows and to their contents. */
module Commits {
  import opened Prelude
  import opened Models
  import opened Sorting
  import opened Statements
  import opened UtxoTable
  import opened Batching
  import opened Database
  import opened Parser

  // ----- the outpoints of a block

  function TxOuts(tx: Tx): set<OutPoint> {
    set i | 0 <= i < |tx.vout| :: OutPoint(tx.txid, tx.vout[i].n)
  }

  function TxIns(tx: Tx): set<OutPoint> {
    set j | 0 <= j < |tx.vin| && Spends(tx.vin[j]) :: OpOf(tx.vin[j])
  }

  function Outs(txs: seq<Tx>): set<OutPoint> {
    if |txs| == 0 then {} else Outs(txs[..|txs| - 1]) + TxOuts(txs[|txs| - 1])
  }

  function Ins(txs: seq<Tx>): set<OutPoint> {
    if |txs| == 0 then {} else Ins(txs[..|txs| - 1]) + TxIns(txs[|txs| - 1])
  }

  /** The outpoints a range of blocks creates, and those it spends. */
  function AllOuts(blocks: seq<Block>): set<OutPoint> {
    if |blocks| == 0 then {} else AllOuts(blocks[..|blocks| - 1]) + Outs(blocks[|blocks| - 1].txs)
  }

  function AllIns(blocks: seq<Block>): set<OutPoint> {
    if |blocks| == 0 then {} else AllIns(blocks[..|blocks| - 1]) + Ins(blocks[|blocks| - 1].txs)
  }

  /** What creating an output means: the txid and the output's own number. */
  lemma {:induction false} OutsAre(txs: seq<Tx>, o: OutPoint)
    ensures o in Outs(txs) <==> exists i :: 0 <= i < |txs| && Creates(txs[i], o)
  {
    if |txs| > 0 {
      var init, tx := txs[..|txs| - 1], txs[|txs| - 1];
      OutsAre(init, o);
      assert o in TxOuts(tx) <==> Creates(tx, o);
      hide TxOuts, Creates;
      assert txs == init + [tx];
    }
  }

  predicate Creates(tx: Tx, o: OutPoint) {
    o.txid == tx.txid && exists j :: 0 <= j < |tx.vout| && o.vout == tx.vout[j].n
  }

  /** What spending one means: an input that names it, coinbase inputs apart. */
  lemma {:induction false} InsAre(txs: seq<Tx>, o: OutPoint)
    ensures o in Ins(txs) <==> exists i :: 0 <= i < |txs| && NamesAsInput(txs[i], o)
  {
    if |txs| > 0 {
      var init, tx := txs[..|txs| - 1], txs[|txs| - 1];
      InsAre(init, o);
      assert o in TxIns(tx) <==> NamesAsInput(tx, o);
      hide TxIns, NamesAsInput;
      assert txs == init + [tx];
    }
  }

  predicate NamesAsInput(tx: Tx, o: OutPoint) {
    o.txid != "" && o.vout >= 0 && exists j :: 0 <= j < |tx.vin| && tx.vin[j].txid == o.txid && tx.vin[j].vout == o.vout
  }

  lemma OpsOfConcat(a: seq<Utxo>, b: seq<Utxo>)
    ensures OpsOf(a + b) == OpsOf(a) + OpsOf(b)
  {
    forall o ensures o in OpsOf(a + b) <==> o in OpsOf(a) + OpsOf(b) {
      if o in OpsOf(a) { var i :| 0 <= i < |a| && a[i].op == o; assert (a + b)[i].op == o; }
      if o in OpsOf(b) { var i :| 0 <= i < |b| && b[i].op == o; assert (a + b)[|a| + i].op == o; }
    }
  }

  lemma OpsOfOne(u: Utxo)
    ensures OpsOf([u]) == {u.op}
  {
    assert [u][0].op in OpsOf([u]);
  }

  lemma CreatedOps(b: Block, tx: Tx, addr: AddressFn)
    ensures OpsOf(TxCreated(b, tx, addr)) == TxOuts(tx)
  {
    var us := TxCreated(b, tx, addr);
    forall o ensures o in OpsOf(us) <==> o in TxOuts(tx) {
      if o in OpsOf(us) { var i :| 0 <= i < |us| && us[i].op == o; assert o == OutPoint(tx.txid, tx.vout[i].n); }
      if o in TxOuts(tx) { var i :| 0 <= i < |tx.vout| && OutPoint(tx.txid, tx.vout[i].n) == o; assert us[i].op == o; }
    }
  }

  lemma {:induction false} TxSpentOps(b: Block, tx: Tx, n: nat, found: Table)
    requires n <= |tx.vin|
    ensures OpsOf(TxSpent(b, tx, tx.vin[..n], found))
         == set j | 0 <= j < n && Spends(tx.vin[j]) && OpOf(tx.vin[j]) in found :: OpOf(tx.vin[j])
  {
    if n > 0 {
      var v := tx.vin[n - 1];
      assert tx.vin[..n][..n - 1] == tx.vin[..n - 1];
      TxSpentOps(b, tx, n - 1, found);
      var last := if Spends(v) && OpOf(v) in found then [SpentUtxo(b, tx, Utxo(OpOf(v), found[OpOf(v)]))] else [];
      OpsOfConcat(TxSpent(b, tx, tx.vin[..n - 1], found), last);
      if Spends(v) && OpOf(v) in found { OpsOfOne(last[0]); }
    }
  }

  /** A block's created list names exactly its outputs, its spent list exactly those of its
      inputs whose row was found. */
  lemma {:induction false} ParsedOps(b: Block, txs: seq<Tx>, found: Table, watched: set<string>, addr: AddressFn)
    ensures OpsOf(ParseTxs(b, txs, found, watched, addr).created) == Outs(txs)
    ensures OpsOf(ParseTxs(b, txs, found, watched, addr).spent) == Ins(txs) * found.Keys
  {
    if |txs| > 0 {
      var tx, acc := txs[|txs| - 1], ParseTxs(b, txs[..|txs| - 1], found, watched, addr);
      ParsedOps(b, txs[..|txs| - 1], found, watched, addr);
      OpsOfConcat(acc.created, TxCreated(b, tx, addr));
      OpsOfConcat(acc.spent, TxSpent(b, tx, tx.vin, found));
      TxSpentOps(b, tx, |tx.vin|, found);
      assert tx.vin[..|tx.vin|] == tx.vin;
      CreatedOps(b, tx, addr);
      assert OpsOf(TxSpent(b, tx, tx.vin, found)) == TxIns(tx) * found.Keys;
    }
  }

  /** Everything created is confirmed, at the block's height. */
  ghost predicate AllConfirmed(us: seq<Utxo>) {
    forall i :: 0 <= i < |us| ==> us[i].row.status == Confirmed && us[i].row.blockHeight.Some?
  }

  lemma {:induction false} ParsedConfirmed(b: Block, txs: seq<Tx>, found: Table, watched: set<string>, addr: AddressFn)
    ensures AllConfirmed(ParseTxs(b, txs, found, watched, addr).created)
  {
    if |txs| > 0 { ParsedConfirmed(b, txs[..|txs| - 1], found, watched, addr); }
  }

  // ----- the effect on the table

  lemma {:induction false} UpsertConfirmedStatus(t: Table, us: seq<Utxo>, o: OutPoint)
    requires AllConfirmed(us)
    ensures o in UpsertAll(t, us) <==> o in t || o in OpsOf(us)
    ensures o in UpsertAll(t, us) ==>
      UpsertAll(t, us)[o].status == if o in OpsOf(us) then Confirmed else t[o].status
  {
    if |us| > 0 {
      var init := us[..|us| - 1];
      UpsertConfirmedStatus(t, init, o);
      OpsOfConcat(init, [us[|us| - 1]]);
      assert us == init + [us[|us| - 1]];
    }
  }

  lemma OpsOfSort(sorted: seq<Utxo>, us: seq<Utxo>)
    requires multiset(sorted) == multiset(us)
    ensures OpsOf(sorted) == OpsOf(us)
  {
    forall o ensures o in OpsOf(sorted) <==> o in OpsOf(us) {
      SameOps(sorted, us, o);
      assert o in OpsOf(sorted) <==> HasOp(sorted, o);
      assert o in OpsOf(us) <==> HasOp(us, o);
    }
  }

  /** Upserting confirmed rows and then marking rows spent, sorted and chunked in any way the
      code may do it: which rows exist, and which are unspent. */
  lemma UnspentAfter(t: Table, created: seq<Utxo>, spent: seq<Utxo>, p: Parsed, size: nat)
    requires size > 0 && AllConfirmed(p.created)
    requires IsSortOf(created, p.created) && IsSortOf(spent, p.spent)
    ensures var t' := MarkChunks(UpsertAll(t, created), spent, size);
            t'.Keys == t.Keys + OpsOf(p.created) && Unspent(t') == (Unspent(t) + OpsOf(p.created)) - OpsOf(p.spent)
  {
    var t1 := UpsertAll(t, created);
    var t' := MarkChunks(t1, spent, size);
    SameMembers(created, p.created);
    assert AllConfirmed(created) by {
      forall i | 0 <= i < |created| ensures created[i].row.status == Confirmed && created[i].row.blockHeight.Some? {
        assert created[i] in p.created;
      }
    }
    OpsOfSort(created, p.created);
    OpsOfSort(spent, p.spent);
    forall o ensures o in t' <==> o in t || o in OpsOf(p.created)
             ensures o in Unspent(t') <==> (o in Unspent(t) || o in OpsOf(p.created)) && o !in OpsOf(p.spent)
    {
      UpsertConfirmedStatus(t, created, o);
      MarkChunksStatus(t1, spent, size, o);
      assert o in OpsOf(spent) <==> HasOp(spent, o);
      if o in t' { assert Unspend(t'[o]).status == t'[o].status; }
    }
  }

  lemma CommitUnspent(before: DbState, p: Parsed, height: int, hash: string, after: DbState)
    requires AllConfirmed(p.created) && BlockCommitted(before, p, height, hash, after)
    ensures after.utxo.Keys == before.utxo.Keys + OpsOf(p.created)
    ensures Unspent(after.utxo) == (Unspent(before.utxo) + OpsOf(p.created)) - OpsOf(p.spent)
    ensures after.progress == Some(Progress(height, hash))
  {
    var created, spent :| IsSortOf(created, p.created) && IsSortOf(spent, p.spent)
      && after == Applied(before, created, spent, p.refs, height, hash);
    UnspentAfter(before.utxo, created, spent, p, MARK_BATCH);
  }

  /** One committed block: its outputs appear, and those of its inputs that were unspent when
      they were looked up become spent. */
  lemma BlockEffect(before: DbState, b: Block, found: Table, watched: set<string>, height: int, hash: string, after: DbState)
    requires BlockCommitted(before, Parse(b, found, watched, AddressOf), height, hash, after)
    ensures after.utxo.Keys == before.utxo.Keys + Outs(b.txs)
    ensures Unspent(after.utxo) == (Unspent(before.utxo) + Outs(b.txs)) - (Ins(b.txs) * found.Keys)
    ensures after.progress == Some(Progress(height, hash))
  {
    var p := Parse(b, found, watched, AddressOf);
    ParsedOps(b, b.txs, found, watched, AddressOf);
    ParsedConfirmed(b, b.txs, found, watched, AddressOf);
    CommitUnspent(before, p, height, hash, after);
  }

  // ----- contents

  /** Row r is still the output it was made from: only its status and its spend may differ. */
  predicate SameOutput(r: Row, made: Row) {
    r.(status := made.status, spentAt := made.spentAt, spentByTxid := made.spentByTxid) == made
  }

  /** A committed block stores each new output as it is, and leaves every other row's output alone. */
  lemma ContentsAfter(t: Table, created: seq<Utxo>, spent: seq<Utxo>, p: Parsed, size: nat, o: OutPoint)
    requires size > 0 && DistinctOps(p.created)
    requires IsSortOf(created, p.created) && IsSortOf(spent, p.spent)
    requires OpsOf(p.created) !! t.Keys
    ensures var t' := MarkChunks(UpsertAll(t, created), spent, size);
            && (o in t ==> o in t' && SameOutput(t'[o], t[o]))
            && (forall i :: 0 <= i < |p.created| && p.created[i].op == o ==>
                  o in t' && SameOutput(t'[o], p.created[i].row.(spentAt := None, spentByTxid := None)))
  {
    var t1 := UpsertAll(t, created);
    UpsertAllPermutes(t, p.created, created);
    MarkChunksStatus(t1, spent, size, o);
    var t' := MarkChunks(t1, spent, size);
    if o in t {
      assert !HasOp(p.created, o) by { assert o !in OpsOf(p.created); }
      UpsertAllMiss(t, p.created, o);
      StatusOnly(t'[o], t[o]);
    }
    forall i | 0 <= i < |p.created| && p.created[i].op == o
      ensures o in t' && SameOutput(t'[o], p.created[i].row.(spentAt := None, spentByTxid := None))
    {
      UpsertAllHit(t, p.created, i);
      assert o in OpsOf(p.created);
      StatusOnly(t'[o], t1[o]);
    }
  }

  lemma StatusOnly(r: Row, q: Row)
    requires Unspend(r) == Unspend(q) || Unspend(r) == Unspend(q.(status := Spent))
    ensures SameOutput(r, q)
  {}

  /** A row that a block spends and does not create keeps its output and takes the time and the
      transaction of a spend of that block. */
  lemma SpendIsRecorded(before: DbState, p: Parsed, height: int, hash: string, after: DbState, o: OutPoint) returns (u: Utxo)
    requires BlockCommitted(before, p, height, hash, after)
    requires o in before.utxo && o in OpsOf(p.spent) && o !in OpsOf(p.created)
    ensures u in p.spent && o in after.utxo
    ensures after.utxo[o] == before.utxo[o].(status := Spent, spentAt := u.row.spentAt, spentByTxid := u.row.spentByTxid)
  {
    var created, spent :| IsSortOf(created, p.created) && IsSortOf(spent, p.spent)
      && after == Applied(before, created, spent, p.refs, height, hash);
    SameMembers(spent, p.spent);
    SameOps(created, p.created, o);
    SameOps(spent, p.spent, o);
    assert HasOp(p.spent, o) <==> o in OpsOf(p.spent);
    assert HasOp(p.created, o) <==> o in OpsOf(p.created);
    UpsertAllMiss(before.utxo, created, o);
    u := MarkedByChunk(UpsertAll(before.utxo, created), spent, MARK_BATCH, o);
  }

  /** Which spend: that of the first entry of the row's thousand, in lock order. */
  lemma SpendsComeByThousands(before: DbState, p: Parsed, height: int, hash: string, after: DbState) returns (order: seq<Utxo>)
    requires BlockCommitted(before, p, height, hash, after) && DistinctOps(p.spent)
    ensures IsSortOf(order, p.spent)
    ensures forall i :: 0 <= i < |order| && order[i].op in after.utxo ==>
      && after.utxo[order[i].op].spentAt == order[i - i % 1000].row.spentAt
      && after.utxo[order[i].op].spentByTxid == order[i - i % 1000].row.spentByTxid
  {
    var created, spent :| IsSortOf(created, p.created) && IsSortOf(spent, p.spent)
      && after == Applied(before, created, spent, p.refs, height, hash);
    order := spent;
    SortKeepsDistinct(order, p.spent);
    forall i | 0 <= i < |order| && order[i].op in after.utxo
      ensures after.utxo[order[i].op].spentAt == order[i - i % 1000].row.spentAt
      ensures after.utxo[order[i].op].spentByTxid == order[i - i % 1000].row.spentByTxid
    {
      MarkChunksStamp(UpsertAll(before.utxo, created), order, MARK_BATCH, i);
      ChunkStartIs(i);
    }
  }

  /** A row that a block neither creates nor spends is left alone, in every column. */
  lemma OtherRowStays(before: DbState, p: Parsed, height: int, hash: string, after: DbState, o: OutPoint)
    requires BlockCommitted(before, p, height, hash, after)
    requires o in before.utxo && o !in OpsOf(p.spent) && o !in OpsOf(p.created)
    ensures o in after.utxo && after.utxo[o] == before.utxo[o]
  {
    var created, spent :| IsSortOf(created, p.created) && IsSortOf(spent, p.spent)
      && after == Applied(before, created, spent, p.refs, height, hash);
    SameOps(created, p.created, o);
    SameOps(spent, p.spent, o);
    assert HasOp(p.spent, o) <==> o in OpsOf(p.spent);
    assert HasOp(p.created, o) <==> o in OpsOf(p.created);
    UpsertAllMiss(before.utxo, created, o);
    MarkChunksMiss(UpsertAll(before.utxo, created), spent, MARK_BATCH, o);
  }
}
