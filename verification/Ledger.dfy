/** The true ledger of a chain of blocks, and what sequential indexing makes of it. */
module Ledger {
  import opened Prelude
  import opened Models
  import opened Float64
  import opened Sorting
  import opened Statements
  import opened UtxoTable
  import opened Batching
  import opened Database
  import opened Parser
  import opened Commits

  // ----- the ledger, transaction by transaction

  function LedgerTxs(live: set<OutPoint>, txs: seq<Tx>): set<OutPoint> {
    if |txs| == 0 then live
    else (LedgerTxs(live, txs[..|txs| - 1]) - TxIns(txs[|txs| - 1])) + TxOuts(txs[|txs| - 1])
  }

  /** A transaction spends live outputs, none of them twice, and creates outputs that never existed. */
  ghost predicate ValidTx(live: set<OutPoint>, ever: set<OutPoint>, tx: Tx) {
    && TxIns(tx) <= live
    && TxOuts(tx) !! ever
    && (forall i, j :: 0 <= i < j < |tx.vin| && Spends(tx.vin[i]) && Spends(tx.vin[j]) ==> OpOf(tx.vin[i]) != OpOf(tx.vin[j]))
    && (forall i, j :: 0 <= i < j < |tx.vout| ==> tx.vout[i].n != tx.vout[j].n)
  }

  ghost predicate ValidTxs(live: set<OutPoint>, ever: set<OutPoint>, txs: seq<Tx>) {
    |txs| == 0 ||
    (ValidTxs(live, ever, txs[..|txs| - 1])
     && ValidTx(LedgerTxs(live, txs[..|txs| - 1]), ever + Outs(txs[..|txs| - 1]), txs[|txs| - 1]))
  }

  /** The UTXO set after a range of blocks, from the set `live` before it. */
  function LedgerFrom(live: set<OutPoint>, blocks: seq<Block>): set<OutPoint> {
    if |blocks| == 0 then live
    else LedgerTxs(LedgerFrom(live, blocks[..|blocks| - 1]), blocks[|blocks| - 1].txs)
  }

  /** The range is valid on top of a chain whose live outputs are `live` and which has created
      the outputs `ever`. */
  ghost predicate ValidFrom(live: set<OutPoint>, ever: set<OutPoint>, blocks: seq<Block>) {
    |blocks| == 0 ||
    (ValidFrom(live, ever, blocks[..|blocks| - 1])
     && ValidTxs(LedgerFrom(live, blocks[..|blocks| - 1]), ever + AllOuts(blocks[..|blocks| - 1]), blocks[|blocks| - 1].txs))
  }

  /** The UTXO set of a whole chain, and what makes the chain valid. */
  function LedgerOf(blocks: seq<Block>): set<OutPoint> { LedgerFrom({}, blocks) }

  ghost predicate ValidChain(blocks: seq<Block>) { ValidFrom({}, {}, blocks) }

  /** Outputs that are created and spent inside one block. */
  function SameBlock(blocks: seq<Block>): set<OutPoint> {
    if |blocks| == 0 then {}
    else SameBlock(blocks[..|blocks| - 1]) + (Outs(blocks[|blocks| - 1].txs) * Ins(blocks[|blocks| - 1].txs))
  }

  // ----- facts about valid blocks

  /** Taken as a whole, a valid block adds its outputs and then removes its inputs. */
  lemma {:induction false} BlockLedger(live: set<OutPoint>, ever: set<OutPoint>, txs: seq<Tx>)
    requires live <= ever && ValidTxs(live, ever, txs)
    ensures LedgerTxs(live, txs) == (live + Outs(txs)) - Ins(txs)
    ensures Outs(txs) !! ever
    ensures Ins(txs) <= live + Outs(txs)
  {
    if |txs| > 0 { BlockLedger(live, ever, txs[..|txs| - 1]); }
  }

  lemma {:induction false} CreatedDistinct(live: set<OutPoint>, ever: set<OutPoint>, b: Block, txs: seq<Tx>,
                                           found: Table, watched: set<string>, addr: AddressFn)
    requires live <= ever && ValidTxs(live, ever, txs)
    ensures DistinctOps(ParseTxs(b, txs, found, watched, addr).created)
  {
    if |txs| > 0 {
      var init, tx := txs[..|txs| - 1], txs[|txs| - 1];
      CreatedDistinct(live, ever, b, init, found, watched, addr);
      ParsedOps(b, init, found, watched, addr);
      var earlier, latest := ParseTxs(b, init, found, watched, addr).created, TxCreated(b, tx, addr);
      CreatedOps(b, tx, addr);
      assert OpsOf(earlier) !! OpsOf(latest);
      DisjointConcat(earlier, latest);
    }
  }

  lemma DisjointConcat(a: seq<Utxo>, b: seq<Utxo>)
    requires DistinctOps(a) && DistinctOps(b) && OpsOf(a) !! OpsOf(b)
    ensures DistinctOps(a + b)
  {
    forall i, j | 0 <= i < j < |a + b| ensures (a + b)[i].op != (a + b)[j].op {
      if i < |a| <= j { assert a[i].op in OpsOf(a) && b[j - |a|].op in OpsOf(b); }
    }
  }

  /** A valid range as a whole adds all its outputs and removes all its inputs; no input is
      spent twice in it and no output is created twice. */
  lemma {:induction false} RangeLedger(live: set<OutPoint>, ever: set<OutPoint>, blocks: seq<Block>)
    requires live <= ever && ValidFrom(live, ever, blocks)
    ensures LedgerFrom(live, blocks) == (live + AllOuts(blocks)) - AllIns(blocks)
    ensures AllOuts(blocks) !! ever && AllIns(blocks) <= live + AllOuts(blocks)
    ensures LedgerFrom(live, blocks) <= ever + AllOuts(blocks)
  {
    if |blocks| > 0 {
      var init, b := blocks[..|blocks| - 1], blocks[|blocks| - 1];
      RangeLedger(live, ever, init);
      BlockLedger(LedgerFrom(live, init), ever + AllOuts(init), b.txs);
    }
  }

  // ----- sequential indexing

  /** Block b was parsed against the committed table and then committed. */
  ghost predicate BlockIndexed(before: DbState, b: Block, watched: set<string>, after: DbState) {
    exists height, hash :: BlockCommitted(before, Parse(b, Visible(before.utxo), watched, AddressOf), height, hash, after)
  }

  /** A run in which every height commits: states[k] is the database after k blocks. */
  ghost predicate SequentialRun(states: seq<DbState>, blocks: seq<Block>, watched: seq<set<string>>) {
    && |states| == |blocks| + 1 && |watched| == |blocks|
    && forall k :: 0 <= k < |blocks| ==> BlockIndexed(states[k], blocks[k], watched[k], states[k + 1])
  }

  /** The index holds the live outputs and, apart from them, some extra ones; its keys are all
      the outputs there ever were. */
  ghost predicate Tracks(t: Table, live: set<OutPoint>, extra: set<OutPoint>, ever: set<OutPoint>) {
    && Unspent(t) == live + extra && live !! extra
    && t.Keys == ever && live <= ever && extra <= ever
  }

  /** One valid block: the extra outputs grow by those it both creates and spends. */
  lemma IndexedStep(before: DbState, b: Block, watched: set<string>, after: DbState,
                    live: set<OutPoint>, extra: set<OutPoint>, ever: set<OutPoint>)
    requires Tracks(before.utxo, live, extra, ever) && ValidTxs(live, ever, b.txs)
    requires BlockIndexed(before, b, watched, after)
    ensures Tracks(after.utxo, LedgerTxs(live, b.txs), extra + (Outs(b.txs) * Ins(b.txs)), ever + Outs(b.txs))
  {
    var height, hash :| BlockCommitted(before, Parse(b, Visible(before.utxo), watched, AddressOf), height, hash, after);
    BlockEffect(before, b, Visible(before.utxo), watched, height, hash, after);
    BlockLedger(live, ever, b.txs);
    assert Visible(before.utxo).Keys == Unspent(before.utxo);
    BlockAlgebra(Unspent(before.utxo), live, extra, ever, Outs(b.txs), Ins(b.txs));
  }

  lemma BlockAlgebra(u: set<OutPoint>, live: set<OutPoint>, extra: set<OutPoint>, ever: set<OutPoint>,
                     outs: set<OutPoint>, ins: set<OutPoint>)
    requires u == live + extra && live !! extra && live <= ever && extra <= ever
    requires outs !! ever && ins <= live + outs
    ensures (u + outs) - (ins * u) == ((live + outs) - ins) + (extra + (outs * ins))
    ensures ((live + outs) - ins) !! (extra + (outs * ins))
  {}

  /** From any database that is in step with the chain so far, after every further block the
      unspent rows are the ledger plus, apart from it, the outputs created and spent inside one
      same block. */
  lemma {:induction false} SequentialRunTracksLedger(states: seq<DbState>, blocks: seq<Block>, watched: seq<set<string>>, k: nat,
                                                     live: set<OutPoint>, extra: set<OutPoint>, ever: set<OutPoint>)
    requires SequentialRun(states, blocks, watched) && k <= |blocks|
    requires Tracks(states[0].utxo, live, extra, ever) && ValidFrom(live, ever, blocks[..k])
    ensures Tracks(states[k].utxo, LedgerFrom(live, blocks[..k]), extra + SameBlock(blocks[..k]), ever + AllOuts(blocks[..k]))
  {
    if k > 0 {
      var init, b := blocks[..k - 1], blocks[k - 1];
      assert blocks[..k][..k - 1] == init;
      SequentialRunTracksLedger(states, blocks, watched, k - 1, live, extra, ever);
      hide BlockIndexed, Tracks, LedgerTxs, ValidTxs, Outs, Ins;
      assert BlockIndexed(states[k - 1], b, watched[k - 1], states[k]);
      IndexedStep(states[k - 1], b, watched[k - 1], states[k],
                  LedgerFrom(live, init), extra + SameBlock(init), ever + AllOuts(init));
      assert extra + SameBlock(blocks[..k]) == extra + SameBlock(init) + (Outs(b.txs) * Ins(b.txs));
      assert ever + AllOuts(blocks[..k]) == ever + AllOuts(init) + Outs(b.txs);
    } else {
      assert extra + SameBlock(blocks[..0]) == extra && ever + AllOuts(blocks[..0]) == ever;
    }
  }

  /** From an empty database: the index is exact after k blocks if and only if none of them
      spends an output of its own. */
  lemma SequentialIndexIsExactIff(states: seq<DbState>, blocks: seq<Block>, watched: seq<set<string>>, k: nat)
    requires SequentialRun(states, blocks, watched) && k <= |blocks|
    requires states[0].utxo == map[] && ValidChain(blocks[..k])
    ensures Unspent(states[k].utxo) == LedgerOf(blocks[..k]) + SameBlock(blocks[..k])
    ensures Unspent(states[k].utxo) == LedgerOf(blocks[..k]) <==>
      forall n :: 0 <= n < k ==> Outs(blocks[n].txs) !! Ins(blocks[n].txs)
  {
    SequentialRunTracksLedger(states, blocks, watched, k, {}, {}, {});
    assert {} + SameBlock(blocks[..k]) == SameBlock(blocks[..k]);
    ExtraIsTheDifference(Unspent(states[k].utxo), LedgerOf(blocks[..k]), SameBlock(blocks[..k]));
    SameBlockEmptyIff(blocks[..k]);
    assert forall n :: 0 <= n < k ==> blocks[..k][n] == blocks[n];
  }

  lemma {:induction false} SameBlockEmptyIff(blocks: seq<Block>)
    ensures SameBlock(blocks) == {} <==> forall n :: 0 <= n < |blocks| ==> Outs(blocks[n].txs) !! Ins(blocks[n].txs)
  {
    if |blocks| > 0 {
      var init, b := blocks[..|blocks| - 1], blocks[|blocks| - 1];
      SameBlockEmptyIff(init);
      EmptyMeetIff(Outs(b.txs), Ins(b.txs));
      assert forall n :: 0 <= n < |init| ==> init[n] == blocks[n];
      assert SameBlock(blocks) == {} <==> SameBlock(init) == {} && Outs(b.txs) * Ins(b.txs) == {};
    }
  }

  lemma EmptyMeetIff<T>(a: set<T>, b: set<T>)
    ensures a * b == {} <==> a !! b
  {
    if a * b == {} {
      forall x | x in a ensures x !in b { assert x in a * b <==> x in a && x in b; }
    }
  }

  lemma ExtraIsTheDifference(u: set<OutPoint>, live: set<OutPoint>, extra: set<OutPoint>)
    requires u == live + extra && live !! extra
    ensures u == live <==> extra == {}
  {
    assert extra == u - live;
  }

  /** One valid block leaves the outputs stored before it alone. */
  lemma IndexedKeepsOutput(before: DbState, b: Block, watched: set<string>, after: DbState,
                           live: set<OutPoint>, ever: set<OutPoint>, o: OutPoint)
    requires before.utxo.Keys == ever && live <= ever && ValidTxs(live, ever, b.txs)
    requires BlockIndexed(before, b, watched, after)
    ensures o in before.utxo ==> o in after.utxo && SameOutput(after.utxo[o], before.utxo[o])
    ensures forall u :: u in ParseTxs(b, b.txs, Visible(before.utxo), watched, AddressOf).created && u.op == o ==>
      o in after.utxo && SameOutput(after.utxo[o], u.row.(spentAt := None, spentByTxid := None))
  {
    var found := Visible(before.utxo);
    var p := Parse(b, found, watched, AddressOf);
    var height, hash :| BlockCommitted(before, p, height, hash, after);
    var created, spent :| IsSortOf(created, p.created) && IsSortOf(spent, p.spent)
      && after == Applied(before, created, spent, p.refs, height, hash);
    BlockLedger(live, ever, b.txs);
    CreatedDistinct(live, ever, b, b.txs, found, watched, AddressOf);
    ParsedOps(b, b.txs, found, watched, AddressOf);
    hide ParseTxs, ValidTxs, LedgerTxs, UpsertAll, MarkChunks, SameOutput;
    ContentsAfter(before.utxo, created, spent, p, MARK_BATCH, o);
  }

  /** The rows hold what the chain says: each output of each indexed block is stored with the
      address, script, value, height, hash and time of its block, whatever happened since. */
  lemma SequentialRunKeepsOutputs(states: seq<DbState>, blocks: seq<Block>, watched: seq<set<string>>, k: nat,
                                  n: nat, i: nat, j: nat)
    requires SequentialRun(states, blocks, watched) && k <= |blocks|
    requires states[0].utxo == map[] && ValidChain(blocks[..k])
    requires n < k && i < |blocks[n].txs| && j < |blocks[n].txs[i].vout|
    ensures var tx, v := blocks[n].txs[i], blocks[n].txs[i].vout[j];
            var o := OutPoint(tx.txid, v.n);
            && o in states[k].utxo
            && var row := states[k].utxo[o];
               && row.scriptHex == v.script.hex && row.valueSats == ToSats(v.value)
               && row.blockHeight == Some(blocks[n].height) && row.blockHash == Some(blocks[n].hash)
               && row.firstSeenAt == blocks[n].time
               && IsAddressOf(v.script, row.address)
  {
    SequentialRunKeepsNewRows(states, blocks, watched, k, n, i, j);
    var tx, v := blocks[n].txs[i], blocks[n].txs[i].vout[j];
    ParsedRow(blocks[n], tx, v);
    hide ParseTxs, LedgerTxs, ValidTxs, SameBlock, BlockIndexed;
  }

  lemma ParsedRow(b: Block, tx: Tx, v: Vout)
    ensures IsOutput(b, tx, v, AddressOf, NewUtxo(b, tx, v, AddressOf)) && IsAddressOf(v.script, AddressOf(v.script))
  {}

  lemma {:induction false} SequentialRunKeepsNewRows(states: seq<DbState>, blocks: seq<Block>, watched: seq<set<string>>, k: nat,
                                                     n: nat, i: nat, j: nat)
    requires SequentialRun(states, blocks, watched) && k <= |blocks|
    requires states[0].utxo == map[] && ValidChain(blocks[..k])
    requires n < k && i < |blocks[n].txs| && j < |blocks[n].txs[i].vout|
    ensures var u := NewUtxo(blocks[n], blocks[n].txs[i], blocks[n].txs[i].vout[j], AddressOf);
            u.op in states[k].utxo && SameOutput(states[k].utxo[u.op], u.row)
  {
    hide SameOutput, ParseTxs, LedgerTxs, ValidTxs, SameBlock, BlockIndexed;
    var u := NewUtxo(blocks[n], blocks[n].txs[i], blocks[n].txs[i].vout[j], AddressOf);
    var init, b := blocks[..k - 1], blocks[k - 1];
    assert blocks[..k][..k - 1] == init;
    var before, after := states[k - 1], states[k];
    assert BlockIndexed(before, b, watched[k - 1], after);
    SequentialRunTracksLedger(states, blocks, watched, k - 1, {}, {}, {});
    assert {} + AllOuts(init) == AllOuts(init);
    IndexedKeepsOutput(before, b, watched[k - 1], after, LedgerOf(init), AllOuts(init), u.op);
    if n < k - 1 {
      SequentialRunKeepsNewRows(states, blocks, watched, k - 1, n, i, j);
      SameOutputTransitive(after.utxo[u.op], before.utxo[u.op], u.row);
    } else {
      var m := CreatedAt(b, b.txs, i, j, Visible(before.utxo), watched[k - 1], AddressOf);
    }
  }

  lemma SameOutputTransitive(a: Row, b: Row, c: Row)
    requires SameOutput(a, b) && SameOutput(b, c)
    ensures SameOutput(a, c)
  {}

  lemma {:induction false} CreatedAt(b: Block, txs: seq<Tx>, i: nat, j: nat, found: Table, watched: set<string>, addr: AddressFn) returns (m: nat)
    requires i < |txs| && j < |txs[i].vout|
    ensures var created := ParseTxs(b, txs, found, watched, addr).created;
            m < |created| && created[m] == NewUtxo(b, txs[i], txs[i].vout[j], addr)
  {
    var init := txs[..|txs| - 1];
    if i < |txs| - 1 {
      m := CreatedAt(b, init, i, j, found, watched, addr);
    } else {
      m := |ParseTxs(b, init, found, watched, addr).created| + j;
    }
  }

  /** One block that spends an output it does not create: the row says when, and names a
      transaction of that block. */
  lemma IndexedSpend(before: DbState, b: Block, watched: set<string>, after: DbState, o: OutPoint)
    requires BlockIndexed(before, b, watched, after)
    requires o in Unspent(before.utxo) && o in Ins(b.txs) && o !in Outs(b.txs)
    ensures o in after.utxo && SpentIn(b, before.utxo[o], after.utxo[o])
  {
    var found := Visible(before.utxo);
    var p := Parse(b, found, watched, AddressOf);
    var height, hash :| BlockCommitted(before, p, height, hash, after);
    ParsedOps(b, b.txs, found, watched, AddressOf);
    ParseDescribes(b, b.txs, found, watched, AddressOf);
    var u := SpendIsRecorded(before, p, height, hash, after, o);
    var i :| 0 <= i < |b.txs| && HasSpend(b, b.txs[i], b.txs[i].vin, found, u);
  }

  /** Row r is row q, spent at the time of block b by a transaction of it. */
  ghost predicate SpentIn(b: Block, q: Row, r: Row) {
    && r.status == Spent && r.spentAt == Some(b.time)
    && (exists i :: 0 <= i < |b.txs| && r.spentByTxid == Some(b.txs[i].txid))
    && r.address == q.address && r.scriptHex == q.scriptHex && r.valueSats == q.valueSats
    && r.blockHeight == q.blockHeight && r.blockHash == q.blockHash && r.firstSeenAt == q.firstSeenAt
  }

  lemma IndexedLeavesRow(before: DbState, b: Block, watched: set<string>, after: DbState, o: OutPoint)
    requires BlockIndexed(before, b, watched, after)
    requires o in before.utxo && o !in Ins(b.txs) && o !in Outs(b.txs)
    ensures o in after.utxo && after.utxo[o] == before.utxo[o]
  {
    var found := Visible(before.utxo);
    var p := Parse(b, found, watched, AddressOf);
    var height, hash :| BlockCommitted(before, p, height, hash, after);
    ParsedOps(b, b.txs, found, watched, AddressOf);
    OtherRowStays(before, p, height, hash, after, o);
  }

  lemma {:induction false} InsGrow(blocks: seq<Block>, n: nat)
    requires n < |blocks|
    ensures Ins(blocks[n].txs) <= AllIns(blocks)
  {
    if n < |blocks| - 1 {
      assert blocks[..|blocks| - 1][n] == blocks[n];
      InsGrow(blocks[..|blocks| - 1], n);
    }
  }

  /** The spend of every output the index held unspent is recorded with the time and a transaction
      of the block that spends it, and stays so along any valid continuation of the chain. */
  lemma {:induction false} SequentialRunRecordsSpends(states: seq<DbState>, blocks: seq<Block>, watched: seq<set<string>>, k: nat, n: nat, o: OutPoint,
                                                      live: set<OutPoint>, extra: set<OutPoint>, ever: set<OutPoint>)
    requires SequentialRun(states, blocks, watched) && n < k <= |blocks|
    requires Tracks(states[0].utxo, live, extra, ever) && ValidFrom(live, ever, blocks[..k])
    requires o in Unspent(states[n].utxo) && o in Ins(blocks[n].txs)
    ensures o in states[k].utxo && SpentIn(blocks[n], states[n].utxo[o], states[k].utxo[o])
  {
    var init, b := blocks[..k - 1], blocks[k - 1];
    assert blocks[..k][..k - 1] == init;
    SequentialRunTracksLedger(states, blocks, watched, k - 1, live, extra, ever);
    RangeLedger(live, ever, init);
    BlockLedger(LedgerFrom(live, init), ever + AllOuts(init), b.txs);
    assert BlockIndexed(states[k - 1], b, watched[k - 1], states[k]);
    hide BlockIndexed, SpentIn, LedgerTxs, ValidTxs, ValidFrom, SameBlock;
    if n == k - 1 {
      assert o in states[n].utxo.Keys;
      IndexedSpend(states[n], b, watched[n], states[k], o);
    } else {
      SequentialRunRecordsSpends(states, blocks, watched, k - 1, n, o, live, extra, ever);
      assert o in states[k - 1].utxo.Keys;
      assert init[n] == blocks[n];
      InsGrow(init, n);
      assert o !in LedgerFrom(live, init);
      IndexedLeavesRow(states[k - 1], b, watched[k - 1], states[k], o);
    }
  }
}
