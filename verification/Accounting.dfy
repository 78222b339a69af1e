/** The references a block yields account for the change it makes to the watched balance. */
module Accounting {
  import opened Prelude
  import opened Models
  import opened Float64
  import opened Sorting
  import opened Statements
  import opened UtxoTable
  import opened Batching
  import opened Database
  import opened Parser
  import opened Commits
  import opened Ledger
  import opened Sums

  /** Incoming minus outgoing, over a list of references. */
  function Net(refs: seq<TxReference>): int {
    if |refs| == 0 then 0
    else Net(refs[..|refs| - 1]) + (if refs[|refs| - 1].direction == In then refs[|refs| - 1].valueSats else 0 - refs[|refs| - 1].valueSats)
  }

  /** The value of the listed rows that pay a watched script. */
  function WatchedSum(us: seq<Utxo>, watched: set<string>): int {
    if |us| == 0 then 0
    else WatchedSum(us[..|us| - 1], watched) + (if us[|us| - 1].row.scriptHex in watched then us[|us| - 1].row.valueSats else 0)
  }

  lemma {:induction false} NetConcat(a: seq<TxReference>, b: seq<TxReference>)
    ensures Net(a + b) == Net(a) + Net(b)
  {
    if |b| == 0 {
      assert a + b == a;
    } else {
      assert (a + b)[..|a + b| - 1] == a + b[..|b| - 1];
      NetConcat(a, b[..|b| - 1]);
    }
  }

  lemma {:induction false} WatchedConcat(a: seq<Utxo>, b: seq<Utxo>, watched: set<string>)
    ensures WatchedSum(a + b, watched) == WatchedSum(a, watched) + WatchedSum(b, watched)
  {
    if |b| == 0 {
      assert a + b == a;
    } else {
      assert (a + b)[..|a + b| - 1] == a + b[..|b| - 1];
      WatchedConcat(a, b[..|b| - 1], watched);
    }
  }

  lemma {:induction false} NetIn(b: Block, tx: Tx, n: nat, found: Table, watched: set<string>, addr: AddressFn)
    requires n <= |tx.vout|
    ensures Net(RefsIn(b, tx, tx.vout[..n], found, watched, addr)) == WatchedSum(TxCreated(b, tx, addr)[..n], watched)
  {
    NoOutputs(b, tx, found, watched, addr);
    assert tx.vout[..0] == [];
    if n > 0 {
      hide RefsIn, TxCreated, Net, WatchedSum, Sender;
      NetIn(b, tx, n - 1, found, watched, addr);
      NextOutput(b, tx, n - 1, found, watched, addr);
      var v := tx.vout[n - 1];
      var ref := if v.script.hex in watched then [RefIn(b, tx, v, found, addr)] else [];
      NetConcat(RefsIn(b, tx, tx.vout[..n - 1], found, watched, addr), ref);
      WatchedConcat(TxCreated(b, tx, addr)[..n - 1], [NewUtxo(b, tx, v, addr)], watched);
      OneNet(ref);
      OneWatched(NewUtxo(b, tx, v, addr), watched);
    }
  }

  lemma OneNet(refs: seq<TxReference>)
    ensures refs == [] ==> Net(refs) == 0
    ensures |refs| == 1 ==> Net(refs) == if refs[0].direction == In then refs[0].valueSats else 0 - refs[0].valueSats
  {
    if |refs| == 1 { assert refs[..0] == []; }
  }

  lemma OneWatched(u: Utxo, watched: set<string>)
    ensures WatchedSum([u], watched) == if u.row.scriptHex in watched then u.row.valueSats else 0
  {
    assert [u][..0] == [];
  }

  lemma {:induction false} NetOut(b: Block, tx: Tx, n: nat, found: Table, watched: set<string>, addr: AddressFn)
    requires n <= |tx.vin|
    ensures Net(RefsOut(b, tx, tx.vin[..n], found, watched, addr)) == 0 - WatchedSum(TxSpent(b, tx, tx.vin[..n], found), watched)
  {
    NoInputs(b, tx, found, watched, addr);
    assert tx.vin[..0] == [];
    if n > 0 {
      hide RefsOut, TxSpent, Net, WatchedSum, Receiver;
      NetOut(b, tx, n - 1, found, watched, addr);
      NextInput(b, tx, n - 1, found, watched, addr);
      var v := tx.vin[n - 1];
      if Spends(v) && OpOf(v) in found {
        var row := found[OpOf(v)];
        var u := SpentUtxo(b, tx, Utxo(OpOf(v), row));
        var ref := if row.scriptHex in watched then [RefOut(b, tx, row, addr)] else [];
        NetConcat(RefsOut(b, tx, tx.vin[..n - 1], found, watched, addr), ref);
        WatchedConcat(TxSpent(b, tx, tx.vin[..n - 1], found), [u], watched);
        OneNet(ref);
        OneWatched(u, watched);
      } else {
        assert TxSpent(b, tx, tx.vin[..n - 1], found) + [] == TxSpent(b, tx, tx.vin[..n - 1], found);
        assert RefsOut(b, tx, tx.vin[..n - 1], found, watched, addr) + [] == RefsOut(b, tx, tx.vin[..n - 1], found, watched, addr);
      }
    }
  }

  /** The references of a block are worth its created rows less its spent rows, on watched scripts. */
  lemma {:induction false} NetOfBlock(b: Block, txs: seq<Tx>, found: Table, watched: set<string>, addr: AddressFn)
    ensures var p := ParseTxs(b, txs, found, watched, addr);
            Net(p.refs) == WatchedSum(p.created, watched) - WatchedSum(p.spent, watched)
  {
    if |txs| > 0 {
      var tx, acc := txs[|txs| - 1], ParseTxs(b, txs[..|txs| - 1], found, watched, addr);
      NetOfBlock(b, txs[..|txs| - 1], found, watched, addr);
      NetIn(b, tx, |tx.vout|, found, watched, addr);
      NetOut(b, tx, |tx.vin|, found, watched, addr);
      assert tx.vout[..|tx.vout|] == tx.vout && tx.vin[..|tx.vin|] == tx.vin;
      var created, spent := TxCreated(b, tx, addr), TxSpent(b, tx, tx.vin, found);
      assert created[..|tx.vout|] == created;
      var refsIn, refsOut := RefsIn(b, tx, tx.vout, found, watched, addr), RefsOut(b, tx, tx.vin, found, watched, addr);
      hide RefsIn, RefsOut, TxCreated, TxSpent, Net, WatchedSum;
      NetConcat(refsIn, refsOut);
      NetConcat(acc.refs, refsIn + refsOut);
      WatchedConcat(acc.created, created, watched);
      WatchedConcat(acc.spent, spent, watched);
    }
  }

  // ----- the table's side

  function WatchedValue(t: Table, watched: set<string>): OutPoint -> int {
    o => if o in t && t[o].scriptHex in watched then t[o].valueSats else 0
  }

  /** The unspent value on watched scripts. */
  ghost function WatchedBalance(t: Table, watched: set<string>): int {
    Sum(WatchedValue(t, watched), Unspent(t))
  }

  /** A list of rows that all stand in the table with their script and value, each once, is
      worth what the table says of its outpoints. */
  lemma {:induction false} ListIsSet(us: seq<Utxo>, t: Table, watched: set<string>)
    requires DistinctOps(us)
    requires forall i :: 0 <= i < |us| ==>
      us[i].op in t && t[us[i].op].scriptHex == us[i].row.scriptHex && t[us[i].op].valueSats == us[i].row.valueSats
    ensures WatchedSum(us, watched) == Sum(WatchedValue(t, watched), OpsOf(us))
  {
    if |us| > 0 {
      var init, last := us[..|us| - 1], us[|us| - 1];
      ListIsSet(init, t, watched);
      assert us == init + [last];
      OpsOfConcat(init, [last]);
      OpsOfOne(last);
      forall i | 0 <= i < |init| ensures init[i].op != last.op { assert us[i].op != us[|us| - 1].op; }
      assert last.op !in OpsOf(init) && OpsOf(us) == OpsOf(init) + {last.op};
      hide OpsOf;
      SumTake(WatchedValue(t, watched), OpsOf(us), last.op);
      assert OpsOf(us) - {last.op} == OpsOf(init);
    }
  }

  /** What a commit keeps of a row as far as accounting is concerned. */
  predicate SameWorth(r: Row, q: Row) { r.scriptHex == q.scriptHex && r.valueSats == q.valueSats }

  /** Row by row: old rows keep their script and value, new rows have those of the block. */
  lemma CommitKeepsWorth(before: DbState, p: Parsed, height: int, hash: string, after: DbState)
    requires BlockCommitted(before, p, height, hash, after)
    requires DistinctOps(p.created) && OpsOf(p.created) !! before.utxo.Keys
    ensures forall o :: o in before.utxo ==> o in after.utxo && SameWorth(after.utxo[o], before.utxo[o])
    ensures forall i :: 0 <= i < |p.created| ==>
      p.created[i].op in after.utxo && SameWorth(after.utxo[p.created[i].op], p.created[i].row)
  {
    var created, spent :| IsSortOf(created, p.created) && IsSortOf(spent, p.spent)
      && after == Applied(before, created, spent, p.refs, height, hash);
    forall o | o in before.utxo ensures o in after.utxo && SameWorth(after.utxo[o], before.utxo[o]) {
      ContentsAfter(before.utxo, created, spent, p, MARK_BATCH, o);
    }
    forall i | 0 <= i < |p.created|
      ensures p.created[i].op in after.utxo && SameWorth(after.utxo[p.created[i].op], p.created[i].row)
    {
      ContentsAfter(before.utxo, created, spent, p, MARK_BATCH, p.created[i].op);
    }
  }

  /** What the parser says of a row it spends is what the table says of it. */
  lemma {:induction false} SpentRows(b: Block, txs: seq<Tx>, found: Table, watched: set<string>, addr: AddressFn, i: nat)
    requires i < |ParseTxs(b, txs, found, watched, addr).spent|
    ensures var u := ParseTxs(b, txs, found, watched, addr).spent[i];
            u.op in found && SameWorth(found[u.op], u.row)
  {
    var tx, acc := txs[|txs| - 1], ParseTxs(b, txs[..|txs| - 1], found, watched, addr);
    if i < |acc.spent| {
      SpentRows(b, txs[..|txs| - 1], found, watched, addr, i);
    } else {
      TxSpentRows(b, tx, tx.vin, found, i - |acc.spent|);
    }
  }

  lemma {:induction false} TxSpentRows(b: Block, tx: Tx, vin: seq<Vin>, found: Table, i: nat)
    requires i < |TxSpent(b, tx, vin, found)|
    ensures var u := TxSpent(b, tx, vin, found)[i]; u.op in found && SameWorth(found[u.op], u.row)
  {
    if i < |TxSpent(b, tx, vin[..|vin| - 1], found)| { TxSpentRows(b, tx, vin[..|vin| - 1], found, i); }
  }

  /** The sets: the balance gains what is created and loses what is spent. */
  lemma BalanceMoves(t: Table, t': Table, created: set<OutPoint>, spent: set<OutPoint>, watched: set<string>)
    requires created !! t.Keys && spent <= Unspent(t) && created <= t'.Keys
    requires Unspent(t') == (Unspent(t) + created) - spent
    requires forall o :: o in t ==> o in t' && SameWorth(t'[o], t[o])
    ensures WatchedBalance(t', watched) - WatchedBalance(t, watched)
         == Sum(WatchedValue(t', watched), created) - Sum(WatchedValue(t, watched), spent)
  {
    var f, f', u := WatchedValue(t, watched), WatchedValue(t', watched), Unspent(t);
    assert u <= t.Keys;
    assert Unspent(t') == (u - spent) + created;
    SumUnion(f', u - spent, created);
    SumSame(f', f, u - spent);
    SumUnion(f, u - spent, spent);
    assert (u - spent) + spent == u;
  }

  /** For any block whose outputs are new and whose inputs are distinct: the "in" references
      less the "out" references are the change in unspent value on the watched scripts. */
  lemma ReferencesAccountForBalance(before: DbState, b: Block, watched: set<string>, height: int, hash: string, after: DbState)
    requires var p := Parse(b, Visible(before.utxo), watched, AddressOf);
             && BlockCommitted(before, p, height, hash, after)
             && DistinctOps(p.created) && OpsOf(p.created) !! before.utxo.Keys && DistinctOps(p.spent)
    ensures Net(Parse(b, Visible(before.utxo), watched, AddressOf).refs)
         == WatchedBalance(after.utxo, watched) - WatchedBalance(before.utxo, watched)
  {
    var found := Visible(before.utxo);
    var p := Parse(b, found, watched, AddressOf);
    NetOfBlock(b, b.txs, found, watched, AddressOf);
    ParsedConfirmed(b, b.txs, found, watched, AddressOf);
    CommitUnspent(before, p, height, hash, after);
    CommitKeepsWorth(before, p, height, hash, after);
    forall i | 0 <= i < |p.spent| ensures p.spent[i].op in found && SameWorth(found[p.spent[i].op], p.spent[i].row) {
      SpentRows(b, b.txs, found, watched, AddressOf, i);
    }
    hide ParseTxs, BlockCommitted, Net, WatchedSum, WatchedBalance;
    ListIsSet(p.created, after.utxo, watched);
    ListIsSet(p.spent, before.utxo, watched);
    assert OpsOf(p.spent) <= Unspent(before.utxo);
    BalanceMoves(before.utxo, after.utxo, OpsOf(p.created), OpsOf(p.spent), watched);
  }

  // ----- valid blocks meet the conditions

  lemma {:induction false} TxSpentDistinct(b: Block, tx: Tx, n: nat, found: Table)
    requires n <= |tx.vin|
    requires forall i, j :: 0 <= i < j < |tx.vin| && Spends(tx.vin[i]) && Spends(tx.vin[j]) ==> OpOf(tx.vin[i]) != OpOf(tx.vin[j])
    ensures DistinctOps(TxSpent(b, tx, tx.vin[..n], found))
  {
    if n > 0 {
      TxSpentDistinct(b, tx, n - 1, found);
      TxSpentOps(b, tx, n - 1, found);
      NextInput(b, tx, n - 1, found, {}, AddressOf);
      var v := tx.vin[n - 1];
      if Spends(v) && OpOf(v) in found {
        var u := SpentUtxo(b, tx, Utxo(OpOf(v), found[OpOf(v)]));
        OpsOfOne(u);
        DisjointConcat(TxSpent(b, tx, tx.vin[..n - 1], found), [u]);
      }
    }
  }

  lemma {:induction false} SpentDistinct(live: set<OutPoint>, ever: set<OutPoint>, b: Block, txs: seq<Tx>,
                                         found: Table, watched: set<string>, addr: AddressFn)
    requires live <= ever && ValidTxs(live, ever, txs)
    ensures DistinctOps(ParseTxs(b, txs, found, watched, addr).spent)
  {
    if |txs| > 0 {
      var init, tx := txs[..|txs| - 1], txs[|txs| - 1];
      SpentDistinct(live, ever, b, init, found, watched, addr);
      ParsedOps(b, init, found, watched, addr);
      BlockLedger(live, ever, init);
      TxSpentDistinct(b, tx, |tx.vin|, found);
      TxSpentOps(b, tx, |tx.vin|, found);
      assert tx.vin[..|tx.vin|] == tx.vin;
      var earlier, latest := ParseTxs(b, init, found, watched, addr).spent, TxSpent(b, tx, tx.vin, found);
      assert OpsOf(latest) <= TxIns(tx);
      assert OpsOf(earlier) !! OpsOf(latest);
      DisjointConcat(earlier, latest);
    }
  }

  /** So along a valid chain every indexed block's references account for its change, even
      when the block spends its own outputs. */
  lemma ValidBlockAccounts(before: DbState, b: Block, watched: set<string>, height: int, hash: string, after: DbState,
                           live: set<OutPoint>, extra: set<OutPoint>, ever: set<OutPoint>)
    requires Tracks(before.utxo, live, extra, ever) && ValidTxs(live, ever, b.txs)
    requires BlockCommitted(before, Parse(b, Visible(before.utxo), watched, AddressOf), height, hash, after)
    ensures Net(Parse(b, Visible(before.utxo), watched, AddressOf).refs)
         == WatchedBalance(after.utxo, watched) - WatchedBalance(before.utxo, watched)
  {
    var found := Visible(before.utxo);
    CreatedDistinct(live, ever, b, b.txs, found, watched, AddressOf);
    SpentDistinct(live, ever, b, b.txs, found, watched, AddressOf);
    ParsedOps(b, b.txs, found, watched, AddressOf);
    BlockLedger(live, ever, b.txs);
    hide ParseTxs, ValidTxs, LedgerTxs, BlockCommitted, Net, WatchedBalance;
    ReferencesAccountForBalance(before, b, watched, height, hash, after);
  }
}
