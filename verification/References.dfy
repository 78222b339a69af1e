/** When the references of a block can be stored: one multi-row statement may not name a
    (txid, address, direction) twice. */
module References {
  import opened Prelude
  import opened Models
  import opened Float64
  import opened Sorting
  import opened Statements
  import opened UtxoTable
  import opened ReferenceTable
  import opened Batching
  import opened Retry
  import opened Database
  import opened Parser
  import opened Ledger

  predicate Pays(v: Vout, watched: set<string>) { v.script.hex in watched }

  predicate Takes(v: Vin, found: Table, watched: set<string>) {
    Spends(v) && OpOf(v) in found && found[OpOf(v)].scriptHex in watched
  }

  /** No two of the first n outputs that pay watched scripts have one address. */
  ghost predicate PaysOnce(tx: Tx, n: nat, watched: set<string>, addr: AddressFn)
    requires n <= |tx.vout|
  {
    forall i, j :: 0 <= i < j < n && Pays(tx.vout[i], watched) && Pays(tx.vout[j], watched) ==>
      addr(tx.vout[i].script) != addr(tx.vout[j].script)
  }

  /** No two of the first n inputs that spend watched rows have one address. */
  ghost predicate TakesOnce(tx: Tx, n: nat, found: Table, watched: set<string>)
    requires n <= |tx.vin|
  {
    forall i, j :: 0 <= i < j < n && Takes(tx.vin[i], found, watched) && Takes(tx.vin[j], found, watched) ==>
      found[OpOf(tx.vin[i])].address != found[OpOf(tx.vin[j])].address
  }

  ghost predicate OneReferencePerAddress(tx: Tx, found: Table, watched: set<string>, addr: AddressFn) {
    PaysOnce(tx, |tx.vout|, watched, addr) && TakesOnce(tx, |tx.vin|, found, watched)
  }

  ghost predicate AllOneReference(txs: seq<Tx>, found: Table, watched: set<string>, addr: AddressFn) {
    forall k :: 0 <= k < |txs| ==> OneReferencePerAddress(txs[k], found, watched, addr)
  }

  predicate DistinctTxids(txs: seq<Tx>) {
    forall i, j :: 0 <= i < j < |txs| ==> txs[i].txid != txs[j].txid
  }

  function Keys(rs: seq<TxReference>): set<RefKey> {
    set i | 0 <= i < |rs| :: RefKeyOf(rs[i])
  }

  lemma KeysConcat(a: seq<TxReference>, b: seq<TxReference>)
    ensures Keys(a + b) == Keys(a) + Keys(b)
  {
    forall k ensures k in Keys(a + b) <==> k in Keys(a) + Keys(b) {
      if k in Keys(a) { var i :| 0 <= i < |a| && RefKeyOf(a[i]) == k; assert (a + b)[i] == a[i]; }
      if k in Keys(b) { var i :| 0 <= i < |b| && RefKeyOf(b[i]) == k; assert (a + b)[|a| + i] == b[i]; }
    }
  }

  lemma KeysOne(r: TxReference)
    ensures Keys([r]) == {RefKeyOf(r)} && DistinctRefs([r])
  {
    assert RefKeyOf([r][0]) in Keys([r]);
  }

  /** A concatenation is free of repeats when its parts are, and share no key. */
  lemma DistinctConcat(a: seq<TxReference>, b: seq<TxReference>)
    ensures DistinctRefs(a + b) <==> DistinctRefs(a) && DistinctRefs(b) && Keys(a) !! Keys(b)
  {
    var s := a + b;
    if DistinctRefs(s) {
      forall i, j | 0 <= i < j < |a| ensures RefKeyOf(a[i]) != RefKeyOf(a[j]) { assert s[i] == a[i] && s[j] == a[j]; }
      forall i, j | 0 <= i < j < |b| ensures RefKeyOf(b[i]) != RefKeyOf(b[j]) { assert s[|a| + i] == b[i] && s[|a| + j] == b[j]; }
      forall k | k in Keys(a) ensures k !in Keys(b) {
        var i :| 0 <= i < |a| && RefKeyOf(a[i]) == k;
        forall j | 0 <= j < |b| ensures RefKeyOf(b[j]) != k { assert s[i] == a[i] && s[|a| + j] == b[j]; }
      }
    }
    if DistinctRefs(a) && DistinctRefs(b) && Keys(a) !! Keys(b) {
      forall i, j | 0 <= i < j < |s| ensures RefKeyOf(s[i]) != RefKeyOf(s[j]) {
        if i < |a| <= j { assert RefKeyOf(a[i]) in Keys(a) && RefKeyOf(b[j - |a|]) in Keys(b); }
      }
    }
  }

  // ----- one transaction

  function PaidKeys(tx: Tx, n: nat, watched: set<string>, addr: AddressFn): set<RefKey>
    requires n <= |tx.vout|
  {
    set i | 0 <= i < n && Pays(tx.vout[i], watched) :: RefKey(tx.txid, addr(tx.vout[i].script), In)
  }

  lemma PaidNext(tx: Tx, n: nat, watched: set<string>, addr: AddressFn)
    requires 0 < n <= |tx.vout|
    ensures var v := tx.vout[n - 1];
            var key := RefKey(tx.txid, addr(v.script), In);
            && PaidKeys(tx, n, watched, addr) == PaidKeys(tx, n - 1, watched, addr) + (if Pays(v, watched) then {key} else {})
            && (PaysOnce(tx, n, watched, addr) <==>
                  PaysOnce(tx, n - 1, watched, addr) && (Pays(v, watched) ==> key !in PaidKeys(tx, n - 1, watched, addr)))
  {}

  lemma NoInKeys(b: Block, tx: Tx, found: Table, watched: set<string>, addr: AddressFn)
    ensures Keys(RefsIn(b, tx, [], found, watched, addr)) == PaidKeys(tx, 0, watched, addr)
    ensures DistinctRefs(RefsIn(b, tx, [], found, watched, addr)) && PaysOnce(tx, 0, watched, addr)
  {}

  lemma {:induction false} InKeys(b: Block, tx: Tx, n: nat, found: Table, watched: set<string>, addr: AddressFn)
    requires n <= |tx.vout|
    ensures Keys(RefsIn(b, tx, tx.vout[..n], found, watched, addr)) == PaidKeys(tx, n, watched, addr)
    ensures DistinctRefs(RefsIn(b, tx, tx.vout[..n], found, watched, addr)) <==> PaysOnce(tx, n, watched, addr)
  {
    NoInKeys(b, tx, found, watched, addr);
    hide RefsIn, TxCreated, Sender, PaidKeys, PaysOnce, Keys, DistinctRefs, ToSats;
    assert tx.vout[..0] == [];
    if n > 0 {
      InKeys(b, tx, n - 1, found, watched, addr);
      NextOutput(b, tx, n - 1, found, watched, addr);
      PaidNext(tx, n, watched, addr);
      var v, before := tx.vout[n - 1], RefsIn(b, tx, tx.vout[..n - 1], found, watched, addr);
      if Pays(v, watched) {
        var ref := RefIn(b, tx, v, found, addr);
        KeysOne(ref);
        KeysConcat(before, [ref]);
        DistinctConcat(before, [ref]);
      } else {
        assert before + [] == before;
      }
    }
  }

  function TakenKeys(tx: Tx, n: nat, found: Table, watched: set<string>): set<RefKey>
    requires n <= |tx.vin|
  {
    set i | 0 <= i < n && Takes(tx.vin[i], found, watched) :: RefKey(tx.txid, found[OpOf(tx.vin[i])].address, Out)
  }

  lemma TakenNext(tx: Tx, n: nat, found: Table, watched: set<string>)
    requires 0 < n <= |tx.vin|
    ensures var v := tx.vin[n - 1];
            var now := if Takes(v, found, watched) then {RefKey(tx.txid, found[OpOf(v)].address, Out)} else {};
            && TakenKeys(tx, n, found, watched) == TakenKeys(tx, n - 1, found, watched) + now
            && (TakesOnce(tx, n, found, watched) <==>
                  TakesOnce(tx, n - 1, found, watched) && now !! TakenKeys(tx, n - 1, found, watched))
  {}

  lemma {:induction false} OutKeys(b: Block, tx: Tx, n: nat, found: Table, watched: set<string>, addr: AddressFn)
    requires n <= |tx.vin|
    ensures Keys(RefsOut(b, tx, tx.vin[..n], found, watched, addr)) == TakenKeys(tx, n, found, watched)
    ensures DistinctRefs(RefsOut(b, tx, tx.vin[..n], found, watched, addr)) <==> TakesOnce(tx, n, found, watched)
  {
    if n > 0 {
      OutKeys(b, tx, n - 1, found, watched, addr);
      NextInput(b, tx, n - 1, found, watched, addr);
      TakenNext(tx, n, found, watched);
      var v, before := tx.vin[n - 1], RefsOut(b, tx, tx.vin[..n - 1], found, watched, addr);
      hide RefsOut, TxSpent, Receiver, TakenKeys, TakesOnce, Keys, DistinctRefs;
      if Takes(v, found, watched) {
        var ref := RefOut(b, tx, found[OpOf(v)], addr);
        KeysOne(ref);
        KeysConcat(before, [ref]);
        DistinctConcat(before, [ref]);
      } else {
        assert before + [] == before;
      }
    }
  }

  lemma TxReferences(b: Block, tx: Tx, found: Table, watched: set<string>, addr: AddressFn)
    ensures var rs := RefsIn(b, tx, tx.vout, found, watched, addr) + RefsOut(b, tx, tx.vin, found, watched, addr);
            && (DistinctRefs(rs) <==> OneReferencePerAddress(tx, found, watched, addr))
            && (forall k :: k in Keys(rs) ==> k.txid == tx.txid)
  {
    InKeys(b, tx, |tx.vout|, found, watched, addr);
    OutKeys(b, tx, |tx.vin|, found, watched, addr);
    assert tx.vout[..|tx.vout|] == tx.vout && tx.vin[..|tx.vin|] == tx.vin;
    var a, c := RefsIn(b, tx, tx.vout, found, watched, addr), RefsOut(b, tx, tx.vin, found, watched, addr);
    hide RefsIn, RefsOut, DistinctRefs, PaysOnce, TakesOnce, Keys;
    KeysConcat(a, c);
    DistinctConcat(a, c);
  }

  // ----- the block

  function Txids(txs: seq<Tx>): set<string> {
    set k | 0 <= k < |txs| :: txs[k].txid
  }

  lemma NextTx(txs: seq<Tx>, found: Table, watched: set<string>, addr: AddressFn)
    requires |txs| > 0
    ensures var init, tx := txs[..|txs| - 1], txs[|txs| - 1];
            && Txids(txs) == Txids(init) + {tx.txid}
            && (DistinctTxids(txs) ==> DistinctTxids(init) && tx.txid !in Txids(init))
            && (AllOneReference(txs, found, watched, addr) <==>
                  AllOneReference(init, found, watched, addr) && OneReferencePerAddress(tx, found, watched, addr))
  {
    hide OneReferencePerAddress;
    var n := |txs| - 1;
    assert forall k :: 0 <= k < n ==> txs[..n][k] == txs[k];
  }

  lemma {:induction false} BlockReferences(b: Block, txs: seq<Tx>, found: Table, watched: set<string>, addr: AddressFn)
    requires DistinctTxids(txs)
    ensures DistinctRefs(ParseTxs(b, txs, found, watched, addr).refs) <==> AllOneReference(txs, found, watched, addr)
    ensures forall key :: key in Keys(ParseTxs(b, txs, found, watched, addr).refs) ==> key.txid in Txids(txs)
  {
    if |txs| > 0 {
      var init, tx := txs[..|txs| - 1], txs[|txs| - 1];
      var before := ParseTxs(b, init, found, watched, addr).refs;
      var now := RefsIn(b, tx, tx.vout, found, watched, addr) + RefsOut(b, tx, tx.vin, found, watched, addr);
      assert ParseTxs(b, txs, found, watched, addr).refs == before + now;
      hide ParseTxs, RefsIn, RefsOut, OneReferencePerAddress, DistinctRefs, Keys, Txids, DistinctTxids, AllOneReference;
      NextTx(txs, found, watched, addr);
      BlockReferences(b, init, found, watched, addr);
      TxReferences(b, tx, found, watched, addr);
      KeysConcat(before, now);
      DistinctConcat(before, now);
    }
  }

  /** References come in the order of the block: transaction by transaction, and within one what
      is paid before what is taken. `at` says which transaction each belongs to. */
  ghost predicate InBlockOrder(txs: seq<Tx>, refs: seq<TxReference>, at: seq<nat>) {
    && |at| == |refs|
    && (forall m :: 0 <= m < |refs| ==> at[m] < |txs| && refs[m].txid == txs[at[m]].txid)
    && (forall m, n :: 0 <= m < n < |refs| ==> at[m] < at[n] || (at[m] == at[n] && (refs[m].direction == Out ==> refs[n].direction == Out)))
  }

  lemma OrderNext(txs: seq<Tx>, before: seq<TxReference>, at: seq<nat>, paid: seq<TxReference>, taken: seq<TxReference>)
    requires |txs| > 0 && InBlockOrder(txs[..|txs| - 1], before, at)
    requires forall r :: r in paid ==> r.txid == txs[|txs| - 1].txid && r.direction == In
    requires forall r :: r in taken ==> r.txid == txs[|txs| - 1].txid && r.direction == Out
    ensures InBlockOrder(txs, before + (paid + taken), at + seq(|paid + taken|, k => |txs| - 1))
  {
    var n := |txs| - 1;
    var now, refs, at' := paid + taken, before + (paid + taken), at + seq(|paid + taken|, k => n);
    assert forall r :: r in now ==> r in paid || r in taken;
    forall m | 0 <= m < |refs| ensures at'[m] < |txs| && refs[m].txid == txs[at'[m]].txid {
      if m < |before| {
        assert refs[m] == before[m] && at'[m] == at[m] && txs[..n][at[m]] == txs[at[m]];
      } else {
        assert refs[m] == now[m - |before|] && now[m - |before|] in now;
      }
    }
    forall m, k | 0 <= m < k < |refs|
      ensures at'[m] < at'[k] || (at'[m] == at'[k] && (refs[m].direction == Out ==> refs[k].direction == Out))
    {
      if k < |before| {
        assert refs[m] == before[m] && refs[k] == before[k] && at'[m] == at[m] && at'[k] == at[k];
      } else if m < |before| {
        assert at'[m] == at[m] < n;
      } else {
        var x, y := m - |before|, k - |before|;
        assert refs[m] == now[x] && refs[k] == now[y];
        if x >= |paid| { assert now[y] == taken[y - |paid|]; } else { assert now[x] == paid[x]; }
      }
    }
  }

  lemma {:induction false} RefsAreInOrder(b: Block, txs: seq<Tx>, found: Table, watched: set<string>, addr: AddressFn) returns (at: seq<nat>)
    ensures InBlockOrder(txs, ParseTxs(b, txs, found, watched, addr).refs, at)
  {
    at := [];
    if |txs| > 0 {
      var init, tx := txs[..|txs| - 1], txs[|txs| - 1];
      var earlier := RefsAreInOrder(b, init, found, watched, addr);
      var before := ParseTxs(b, init, found, watched, addr).refs;
      var paid, taken := RefsIn(b, tx, tx.vout, found, watched, addr), RefsOut(b, tx, tx.vin, found, watched, addr);
      assert ParseTxs(b, txs, found, watched, addr).refs == before + (paid + taken);
      hide ParseTxs, RefsIn, RefsOut, InBlockOrder;
      PaidAreIn(b, tx, tx.vout, found, watched, addr);
      TakenAreOut(b, tx, tx.vin, found, watched, addr);
      OrderNext(txs, before, earlier, paid, taken);
      at := earlier + seq(|paid + taken|, k => |txs| - 1);
    }
  }

  lemma {:induction false} PaidAreIn(b: Block, tx: Tx, vout: seq<Vout>, found: Table, watched: set<string>, addr: AddressFn)
    ensures forall r :: r in RefsIn(b, tx, vout, found, watched, addr) ==> r.txid == tx.txid && r.direction == In
  {
    if |vout| > 0 { PaidAreIn(b, tx, vout[..|vout| - 1], found, watched, addr); }
  }

  lemma {:induction false} TakenAreOut(b: Block, tx: Tx, vin: seq<Vin>, found: Table, watched: set<string>, addr: AddressFn)
    ensures forall r :: r in RefsOut(b, tx, vin, found, watched, addr) ==> r.txid == tx.txid && r.direction == Out
  {
    if |vin| > 0 { TakenAreOut(b, tx, vin[..|vin| - 1], found, watched, addr); }
  }

  /** Free of repeats as a whole means free of repeats in every chunk. */
  lemma {:induction false} DistinctInChunks(rs: seq<TxReference>, size: nat)
    requires size > 0
    ensures DistinctRefs(rs) ==> RefChunksDistinct(rs, size)
    ensures |rs| <= size ==> (RefChunksDistinct(rs, size) <==> DistinctRefs(rs))
    decreases |rs|
  {
    if |rs| > 0 {
      var m := Min(size, |rs|);
      if |rs| <= size { assert rs[..m] == rs && rs[m..] == []; }
      DistinctInChunks(rs[m..], size);
    }
  }

  /** Two references in one statement never have one key. */
  predicate DistinctPerStatement(rs: seq<TxReference>) {
    forall i, j :: 0 <= i < j < |rs| && i / REFS_BATCH == j / REFS_BATCH ==> RefKeyOf(rs[i]) != RefKeyOf(rs[j])
  }

  lemma {:induction false} ChunksDistinctIff(rs: seq<TxReference>)
    ensures RefChunksDistinct(rs, REFS_BATCH) <==> DistinctPerStatement(rs)
  {
    if |rs| > 0 {
      var m := Min(REFS_BATCH, |rs|);
      var head, tail := rs[..m], rs[m..];
      ChunksDistinctIff(tail);
      HeadAndTail(rs, m);
    }
  }

  lemma HeadAndTail(rs: seq<TxReference>, m: nat)
    requires m == Min(REFS_BATCH, |rs|)
    ensures DistinctPerStatement(rs) <==> DistinctRefs(rs[..m]) && DistinctPerStatement(rs[m..])
  {
    hide RefKeyOf;
    var head, tail := rs[..m], rs[m..];
    if DistinctPerStatement(rs) {
      forall i, j | 0 <= i < j < m ensures RefKeyOf(head[i]) != RefKeyOf(head[j]) {
        assert i / REFS_BATCH == 0 == j / REFS_BATCH && head[i] == rs[i] && head[j] == rs[j];
      }
      forall i, j | 0 <= i < j < |tail| && i / REFS_BATCH == j / REFS_BATCH ensures RefKeyOf(tail[i]) != RefKeyOf(tail[j]) {
        assert m == REFS_BATCH && (i + m) / REFS_BATCH == i / REFS_BATCH + 1 && (j + m) / REFS_BATCH == j / REFS_BATCH + 1;
        assert tail[i] == rs[i + m] && tail[j] == rs[j + m];
      }
    }
    if DistinctRefs(head) && DistinctPerStatement(tail) {
      forall i, j | 0 <= i < j < |rs| && i / REFS_BATCH == j / REFS_BATCH ensures RefKeyOf(rs[i]) != RefKeyOf(rs[j]) {
        if j < m {
          assert head[i] == rs[i] && head[j] == rs[j];
        } else {
          assert m == REFS_BATCH && i >= m;
          assert (i - m) / REFS_BATCH == i / REFS_BATCH - 1 && (j - m) / REFS_BATCH == j / REFS_BATCH - 1;
          assert tail[i - m] == rs[i] && tail[j - m] == rs[j];
        }
      }
    }
  }

  /** Any block goes through if and only if no call fails, no statement of its sorted outputs
      repeats a key, and no two of its references in one statement agree in transaction, address
      and direction. Statements carry 5000 outputs, 1000 spends or 5000 references. It takes hold
      also when its commit does so without being acknowledged. */
  lemma BlockGoesThroughIff(b: Block, found: Table, watched: set<string>, f: TxFaults)
    ensures var p := Parse(b, found, watched, AddressOf);
            var reaches :=
              && f.begin == None && f.transactions == None && f.progress == None
              && (forall k: nat :: k < (|p.created| + 4999) / 5000 ==> f.upsert(k) == None)
              && (forall k: nat :: k < (|p.spent| + 999) / 1000 ==> f.mark(k) == None)
              && (forall k: nat :: k < (|p.refs| + 4999) / 5000 ==> f.refs(k) == None)
              && (forall sorted :: IsSortOf(sorted, p.created) ==> DistinctPer5000(sorted))
              && (forall i, j :: 0 <= i < j < |p.refs| && i / 5000 == j / 5000 ==>
                    p.refs[i].txid != p.refs[j].txid || p.refs[i].address != p.refs[j].address || p.refs[i].direction != p.refs[j].direction);
            && (GoesThrough(f, p) <==> reaches && f.commit.Commits?)
            && (TakesHold(f, p) <==> reaches && (f.commit.Commits? || f.commit.tookEffect))
  {
    var p := Parse(b, found, watched, AddressOf);
    ChunksDistinctIff(p.refs);
    InsertableIs(p.created);
    ClearIs(f, p);
    hide Parse, Insertable, Clear, DistinctPer5000, IsSortOf;
  }

  lemma ClearIs(f: TxFaults, p: Parsed)
    ensures Clear(f, p) <==>
      && f.begin == None && f.transactions == None && f.progress == None
      && (forall k: nat :: k < (|p.created| + 4999) / 5000 ==> f.upsert(k) == None)
      && (forall k: nat :: k < (|p.spent| + 999) / 1000 ==> f.mark(k) == None)
      && (forall k: nat :: k < (|p.refs| + 4999) / 5000 ==> f.refs(k) == None)
  {}

  /** Along a valid chain the outputs never stand in the way: a block goes through if and only
      if no call fails and its references are distinct within each statement. They are if no
      transaction pays one address by two watched outputs or spends from one address by two
      watched inputs, and, in a block whose references fit one statement, only then. */
  lemma ValidBlockGoesThroughIff(b: Block, found: Table, watched: set<string>, f: TxFaults, live: set<OutPoint>, ever: set<OutPoint>)
    requires live <= ever && ValidTxs(live, ever, b.txs) && DistinctTxids(b.txs)
    ensures var p := Parse(b, found, watched, AddressOf);
            && (GoesThrough(f, p) <==> Clear(f, p) && f.commit.Commits? && DistinctPerStatement(p.refs))
            && (AllOneReference(b.txs, found, watched, AddressOf) ==> DistinctPerStatement(p.refs))
            && (|p.refs| <= REFS_BATCH ==>
                  (DistinctPerStatement(p.refs) <==> AllOneReference(b.txs, found, watched, AddressOf)))
  {
    var p := Parse(b, found, watched, AddressOf);
    CreatedDistinct(live, ever, b, b.txs, found, watched, AddressOf);
    DistinctIsInsertable(p.created, UPSERT_BATCH);
    BlockReferences(b, b.txs, found, watched, AddressOf);
    DistinctInChunks(p.refs, REFS_BATCH);
    ChunksDistinctIff(p.refs);
    hide Clear, Insertable, AllOneReference, DistinctRefs, ParseTxs, DistinctPerStatement, RefChunksDistinct, ValidTxs;
  }
}
