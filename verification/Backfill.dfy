/** Parallel backfill: blocks are looked up and committed by different workers, in any order and
    at any time. What the table holds then, for every interleaving. */
module Backfill {
  import opened Prelude
  import opened Models
  import opened UtxoTable
  import opened Database
  import opened Parser
  import opened Commits
  import opened Ledger

  /** Blocks are named by their position in the range. A lookup parses the block against the
      committed table; the commit applies what the lookup found. Anything else leaves the rows
      of the range alone. */
  datatype Event = Lookup(i: nat) | Commit(i: nat) | Other

  /** The committed database and the work items prepared so far. */
  datatype Shared = Shared(db: DbState, items: map<nat, Parsed>)

  /** One event. Workers parse with the map of watched scripts they were created with, which
      is empty and which nothing fills. `outside` are outpoints that other activity may touch. */
  ghost predicate Step(blocks: seq<Block>, outside: set<OutPoint>, s: Shared, e: Event, s': Shared) {
    match e
    case Lookup(i) =>
      i < |blocks| && s' == s.(items := s.items[i := Parse(blocks[i], Visible(s.db.utxo), {}, AddressOf)])
    case Commit(i) =>
      && i < |blocks| && i in s.items && s'.items == s.items
      && exists height, hash :: BlockCommitted(s.db, s.items[i], height, hash, s'.db)
    case Other =>
      s'.items == s.items && SameRows(s.db.utxo, s'.db.utxo, outside)
  }

  ghost predicate SameRows(t: Table, t': Table, outside: set<OutPoint>) {
    forall o :: o !in outside ==> (o in t <==> o in t') && (o in t ==> t[o] == t'[o])
  }

  /** Every block is looked up at most once and committed at most once. */
  ghost predicate OnceEach(trace: seq<Event>) {
    forall m, n :: 0 <= m < n < |trace| && trace[m] == trace[n] ==> trace[m] == Other
  }

  ghost predicate Run(blocks: seq<Block>, outside: set<OutPoint>, states: seq<Shared>, trace: seq<Event>) {
    && |states| == |trace| + 1 && states[0].items == map[] && OnceEach(trace)
    && forall n :: 0 <= n < |trace| ==> Step(blocks, outside, states[n], trace[n], states[n + 1])
  }

  ghost predicate Precedes(trace: seq<Event>, a: Event, b: Event) {
    exists m, n :: 0 <= m < n < |trace| && trace[m] == a && trace[n] == b
  }

  /** Block i could see output o when it was looked up: o was there from the start, or the
      block that creates it had committed. */
  ghost predicate Seen(blocks: seq<Block>, u0: set<OutPoint>, trace: seq<Event>, o: OutPoint, i: nat) {
    o in u0 || exists c :: 0 <= c < |blocks| && o in Outs(blocks[c].txs) && Precedes(trace, Commit(c), Lookup(i))
  }

  ghost predicate Created(blocks: seq<Block>, trace: seq<Event>, o: OutPoint) {
    exists c :: 0 <= c < |blocks| && o in Outs(blocks[c].txs) && Commit(c) in trace
  }

  /** A block that spends o has committed, and saw o when it was looked up. */
  ghost predicate SpentSeen(blocks: seq<Block>, u0: set<OutPoint>, trace: seq<Event>, o: OutPoint) {
    exists i :: 0 <= i < |blocks| && o in Ins(blocks[i].txs) && Commit(i) in trace && Seen(blocks, u0, trace, o, i)
  }

  ghost predicate CreatedOnce(blocks: seq<Block>) {
    forall i, j, o :: 0 <= i < |blocks| && 0 <= j < |blocks| && o in Outs(blocks[i].txs) && o in Outs(blocks[j].txs) ==> i == j
  }

  ghost predicate SpentOnce(blocks: seq<Block>) {
    forall i, j, o :: 0 <= i < |blocks| && 0 <= j < |blocks| && o in Ins(blocks[i].txs) && o in Ins(blocks[j].txs) ==> i == j
  }

  /** No output is created twice, or was there before, and none is spent by two blocks. */
  ghost predicate OncePerOutput(blocks: seq<Block>, keys: set<OutPoint>) {
    && CreatedOnce(blocks) && SpentOnce(blocks)
    && (forall i, o :: 0 <= i < |blocks| && o in Outs(blocks[i].txs) ==> o !in keys)
  }

  lemma {:induction false} AllOutsHas(blocks: seq<Block>, o: OutPoint)
    ensures o in AllOuts(blocks) <==> exists i :: 0 <= i < |blocks| && o in Outs(blocks[i].txs)
  {
    if |blocks| > 0 {
      var init := blocks[..|blocks| - 1];
      AllOutsHas(init, o);
      assert forall i :: 0 <= i < |init| ==> init[i] == blocks[i];
    }
  }

  lemma {:induction false} AllInsHas(blocks: seq<Block>, o: OutPoint)
    ensures o in AllIns(blocks) <==> exists i :: 0 <= i < |blocks| && o in Ins(blocks[i].txs)
  {
    if |blocks| > 0 {
      var init := blocks[..|blocks| - 1];
      AllInsHas(init, o);
      assert forall i :: 0 <= i < |init| ==> init[i] == blocks[i];
    }
  }

  lemma CreatedOnceMore(blocks: seq<Block>)
    requires |blocks| > 0 && CreatedOnce(blocks[..|blocks| - 1])
    requires Outs(blocks[|blocks| - 1].txs) !! AllOuts(blocks[..|blocks| - 1])
    ensures CreatedOnce(blocks)
  {
    hide Outs, AllOuts;
    var n := |blocks| - 1;
    forall i, o | 0 <= i < n && o in Outs(blocks[i].txs) ensures blocks[..n][i] == blocks[i] && o !in Outs(blocks[n].txs) {
      assert blocks[..n][i] == blocks[i];
      AllOutsHas(blocks[..n], o);
    }
  }

  lemma SpentOnceMore(blocks: seq<Block>)
    requires |blocks| > 0 && SpentOnce(blocks[..|blocks| - 1])
    requires Ins(blocks[|blocks| - 1].txs) !! AllIns(blocks[..|blocks| - 1])
    ensures SpentOnce(blocks)
  {
    hide Ins, AllIns;
    var n := |blocks| - 1;
    forall i, o | 0 <= i < n && o in Ins(blocks[i].txs) ensures blocks[..n][i] == blocks[i] && o !in Ins(blocks[n].txs) {
      assert blocks[..n][i] == blocks[i];
      AllInsHas(blocks[..n], o);
    }
  }

  /** A valid continuation of the chain creates and spends each output once. */
  lemma {:induction false} ValidIsOnce(live: set<OutPoint>, ever: set<OutPoint>, blocks: seq<Block>)
    requires live <= ever && ValidFrom(live, ever, blocks)
    ensures OncePerOutput(blocks, ever)
  {
    if |blocks| > 0 {
      var init, b := blocks[..|blocks| - 1], blocks[|blocks| - 1];
      ValidIsOnce(live, ever, init);
      RangeLedger(live, ever, init);
      BlockLedger(LedgerFrom(live, init), ever + AllOuts(init), b.txs);
      hide ValidTxs, LedgerTxs, Outs, Ins, CreatedOnce, SpentOnce;
      assert AllIns(init) <= ever + AllOuts(init);
      CreatedOnceMore(blocks);
      SpentOnceMore(blocks);
      assert forall i :: 0 <= i < |init| ==> init[i] == blocks[i];
    }
  }

  // ----- how one more event changes the predicates

  lemma MemberSnoc(trace: seq<Event>, e: Event, a: Event)
    ensures a in trace + [e] <==> a in trace || a == e
  {}

  lemma PrecedesSnoc(trace: seq<Event>, e: Event, a: Event, b: Event)
    ensures Precedes(trace + [e], a, b) <==> Precedes(trace, a, b) || (e == b && a in trace)
  {
    var t := trace + [e];
    if Precedes(t, a, b) {
      var m, n :| 0 <= m < n < |t| && t[m] == a && t[n] == b;
      assert trace[m] == a;
      if n < |trace| { assert trace[n] == b; }
    }
    if Precedes(trace, a, b) {
      var m, n :| 0 <= m < n < |trace| && trace[m] == a && trace[n] == b;
      assert t[m] == a && t[n] == b;
    }
    if e == b && a in trace {
      var m :| 0 <= m < |trace| && trace[m] == a;
      assert t[m] == a && t[|trace|] == b;
    }
  }

  lemma SeenSnoc(blocks: seq<Block>, u0: set<OutPoint>, trace: seq<Event>, e: Event, o: OutPoint, i: nat)
    ensures Seen(blocks, u0, trace + [e], o, i) <==>
      Seen(blocks, u0, trace, o, i) || (e == Lookup(i) && Created(blocks, trace, o))
  {
    forall c: nat ensures Precedes(trace + [e], Commit(c), Lookup(i)) <==>
      Precedes(trace, Commit(c), Lookup(i)) || (e == Lookup(i) && Commit(c) in trace)
    {
      PrecedesSnoc(trace, e, Commit(c), Lookup(i));
    }
  }

  lemma PrecedesMembers(trace: seq<Event>, a: Event, b: Event)
    ensures Precedes(trace, a, b) ==> a in trace && b in trace
  {}

  /** What is seen has been created, and was looked up. */
  lemma SeenWas(blocks: seq<Block>, u0: set<OutPoint>, trace: seq<Event>, o: OutPoint, i: nat)
    ensures Seen(blocks, u0, trace, o, i) ==> o in u0 || (Created(blocks, trace, o) && Lookup(i) in trace)
  {
    forall c: nat ensures Precedes(trace, Commit(c), Lookup(i)) ==> Commit(c) in trace && Lookup(i) in trace {
      PrecedesMembers(trace, Commit(c), Lookup(i));
    }
  }

  // ----- the invariant

  /** A work item holds the outputs of its block and those of its inputs that were seen. */
  ghost predicate ItemOk(blocks: seq<Block>, u0: set<OutPoint>, outside: set<OutPoint>, trace: seq<Event>, i: nat, p: Parsed)
    requires i < |blocks|
  {
    && AllConfirmed(p.created) && OpsOf(p.created) == Outs(blocks[i].txs)
    && OpsOf(p.spent) <= Ins(blocks[i].txs)
    && forall o :: o in Ins(blocks[i].txs) && o !in outside ==> (o in OpsOf(p.spent) <==> Seen(blocks, u0, trace, o, i))
  }

  ghost predicate ItemsOk(blocks: seq<Block>, u0: set<OutPoint>, outside: set<OutPoint>, trace: seq<Event>, items: map<nat, Parsed>) {
    && (forall i :: i in items ==> i < |blocks| && ItemOk(blocks, u0, outside, trace, i, items[i]))
    && (forall i: nat :: i in items <==> Lookup(i) in trace)
    && (forall i: nat :: Commit(i) in trace ==> i in items)
  }

  /** Exactly when o has a row, and exactly when that row is unspent. */
  ghost predicate RowOk(blocks: seq<Block>, keys: set<OutPoint>, u0: set<OutPoint>, trace: seq<Event>, t: Table, o: OutPoint) {
    && (o in t <==> o in keys || Created(blocks, trace, o))
    && (o in Unspent(t) <==> (o in u0 || Created(blocks, trace, o)) && !SpentSeen(blocks, u0, trace, o))
  }

  ghost predicate RowsOk(blocks: seq<Block>, keys: set<OutPoint>, u0: set<OutPoint>, outside: set<OutPoint>, trace: seq<Event>, t: Table) {
    forall o :: o !in outside ==> RowOk(blocks, keys, u0, trace, t, o)
  }

  /** The range neither creates nor spends what other activity touches. */
  ghost predicate Apart(blocks: seq<Block>, outside: set<OutPoint>) {
    forall i :: 0 <= i < |blocks| ==> Outs(blocks[i].txs) !! outside && Ins(blocks[i].txs) !! outside
  }

  lemma LookupItem(blocks: seq<Block>, keys: set<OutPoint>, u0: set<OutPoint>, outside: set<OutPoint>, trace: seq<Event>, s: Shared, i: nat)
    requires OncePerOutput(blocks, keys) && u0 <= keys && i < |blocks| && Lookup(i) !in trace
    requires ItemsOk(blocks, u0, outside, trace, s.items) && RowsOk(blocks, keys, u0, outside, trace, s.db.utxo)
    ensures ItemOk(blocks, u0, outside, trace + [Lookup(i)], i, Parse(blocks[i], Visible(s.db.utxo), {}, AddressOf))
  {
    var b, found := blocks[i], Visible(s.db.utxo);
    var p := Parse(b, found, {}, AddressOf);
    ParsedOps(b, b.txs, found, {}, AddressOf);
    ParsedConfirmed(b, b.txs, found, {}, AddressOf);
    assert found.Keys == Unspent(s.db.utxo);
    forall o | o in Ins(b.txs) && o !in outside
      ensures o in OpsOf(p.spent) <==> Seen(blocks, u0, trace + [Lookup(i)], o, i)
    {
      SeenSnoc(blocks, u0, trace, Lookup(i), o, i);
      SeenWas(blocks, u0, trace, o, i);
      assert RowOk(blocks, keys, u0, trace, s.db.utxo, o);
      assert !SpentSeen(blocks, u0, trace, o);
    }
  }

  lemma OldItem(blocks: seq<Block>, u0: set<OutPoint>, outside: set<OutPoint>, trace: seq<Event>, e: Event, i: nat, p: Parsed)
    requires i < |blocks| && ItemOk(blocks, u0, outside, trace, i, p) && e != Lookup(i)
    ensures ItemOk(blocks, u0, outside, trace + [e], i, p)
  {
    forall o | o in Ins(blocks[i].txs) && o !in outside
      ensures o in OpsOf(p.spent) <==> Seen(blocks, u0, trace + [e], o, i)
    {
      SeenSnoc(blocks, u0, trace, e, o, i);
    }
  }

  lemma ItemsStep(blocks: seq<Block>, keys: set<OutPoint>, u0: set<OutPoint>, outside: set<OutPoint>, trace: seq<Event>,
                  s: Shared, e: Event, s': Shared)
    requires OncePerOutput(blocks, keys) && u0 <= keys
    requires ItemsOk(blocks, u0, outside, trace, s.items) && RowsOk(blocks, keys, u0, outside, trace, s.db.utxo)
    requires Step(blocks, outside, s, e, s') && (e != Other ==> e !in trace)
    ensures ItemsOk(blocks, u0, outside, trace + [e], s'.items)
  {
    hide ItemOk, RowsOk, BlockCommitted, SameRows, OncePerOutput;
    if e.Lookup? { LookupItem(blocks, keys, u0, outside, trace, s, e.i); }
    forall i | i in s'.items ensures i < |blocks| && ItemOk(blocks, u0, outside, trace + [e], i, s'.items[i]) {
      if e != Lookup(i) {
        assert i in s.items;
        OldItem(blocks, u0, outside, trace, e, i, s.items[i]);
      }
    }
    forall i: nat ensures i in s'.items <==> Lookup(i) in trace + [e]
                  ensures Commit(i) in trace + [e] ==> i in s'.items
    {
      MemberSnoc(trace, e, Lookup(i));
      MemberSnoc(trace, e, Commit(i));
    }
  }

  lemma CreatedSnoc(blocks: seq<Block>, trace: seq<Event>, e: Event, o: OutPoint)
    ensures Created(blocks, trace + [e], o) <==>
      Created(blocks, trace, o) || (e.Commit? && e.i < |blocks| && o in Outs(blocks[e.i].txs))
  {
    forall c: nat ensures Commit(c) in trace + [e] <==> Commit(c) in trace || e == Commit(c) {}
  }

  /** Without a lookup of a committed block, what has been spent grows only by a commit. */
  lemma SpentSnoc(blocks: seq<Block>, u0: set<OutPoint>, trace: seq<Event>, e: Event, o: OutPoint)
    requires e.Lookup? ==> Commit(e.i) !in trace
    ensures SpentSeen(blocks, u0, trace + [e], o) <==>
      SpentSeen(blocks, u0, trace, o)
      || (e.Commit? && e.i < |blocks| && o in Ins(blocks[e.i].txs) && Seen(blocks, u0, trace, o, e.i))
  {
    forall i: nat ensures Commit(i) in trace + [e] <==> Commit(i) in trace || e == Commit(i)
                  ensures Seen(blocks, u0, trace + [e], o, i) <==>
                    Seen(blocks, u0, trace, o, i) || (e == Lookup(i) && Created(blocks, trace, o))
    {
      SeenSnoc(blocks, u0, trace, e, o, i);
    }
    if SpentSeen(blocks, u0, trace, o) {
      var i :| 0 <= i < |blocks| && o in Ins(blocks[i].txs) && Commit(i) in trace && Seen(blocks, u0, trace, o, i);
      assert Commit(i) in trace + [e] && Seen(blocks, u0, trace + [e], o, i);
    }
    if e.Commit? && e.i < |blocks| && o in Ins(blocks[e.i].txs) && Seen(blocks, u0, trace, o, e.i) {
      assert Commit(e.i) in trace + [e] && Seen(blocks, u0, trace + [e], o, e.i);
    }
  }

  /** An output whose block has not committed has not been spent. */
  lemma NotYetSpent(blocks: seq<Block>, keys: set<OutPoint>, u0: set<OutPoint>, trace: seq<Event>, o: OutPoint, c: nat)
    requires OncePerOutput(blocks, keys) && u0 <= keys
    requires c < |blocks| && o in Outs(blocks[c].txs) && Commit(c) !in trace
    ensures !SpentSeen(blocks, u0, trace, o)
  {
    forall i | 0 <= i < |blocks| ensures !Seen(blocks, u0, trace, o, i) {
      SeenWas(blocks, u0, trace, o, i);
    }
  }

  lemma CommitRow(blocks: seq<Block>, keys: set<OutPoint>, u0: set<OutPoint>, outside: set<OutPoint>, trace: seq<Event>,
                  s: Shared, i: nat, s': Shared, o: OutPoint)
    requires OncePerOutput(blocks, keys) && u0 <= keys && Apart(blocks, outside)
    requires ItemsOk(blocks, u0, outside, trace, s.items) && RowOk(blocks, keys, u0, trace, s.db.utxo, o)
    requires Step(blocks, outside, s, Commit(i), s') && Commit(i) !in trace
    ensures RowOk(blocks, keys, u0, trace + [Commit(i)], s'.db.utxo, o)
  {
    var p := s.items[i];
    var height, hash :| BlockCommitted(s.db, p, height, hash, s'.db);
    CommitUnspent(s.db, p, height, hash, s'.db);
    assert ItemOk(blocks, u0, outside, trace, i, p);
    CreatedSnoc(blocks, trace, Commit(i), o);
    SpentSnoc(blocks, u0, trace, Commit(i), o);
    assert o in OpsOf(p.spent) <==> o in Ins(blocks[i].txs) && Seen(blocks, u0, trace, o, i);
    if o in Outs(blocks[i].txs) { NotYetSpent(blocks, keys, u0, trace, o, i); }
  }

  lemma RowsStep(blocks: seq<Block>, keys: set<OutPoint>, u0: set<OutPoint>, outside: set<OutPoint>, trace: seq<Event>,
                 s: Shared, e: Event, s': Shared)
    requires OncePerOutput(blocks, keys) && u0 <= keys && Apart(blocks, outside)
    requires ItemsOk(blocks, u0, outside, trace, s.items) && RowsOk(blocks, keys, u0, outside, trace, s.db.utxo)
    requires Step(blocks, outside, s, e, s') && (e != Other ==> e !in trace)
    ensures RowsOk(blocks, keys, u0, outside, trace + [e], s'.db.utxo)
  {
    forall o | o !in outside ensures RowOk(blocks, keys, u0, trace + [e], s'.db.utxo, o) {
      assert RowOk(blocks, keys, u0, trace, s.db.utxo, o);
      if e.Commit? {
        CommitRow(blocks, keys, u0, outside, trace, s, e.i, s', o);
      } else {
        CreatedSnoc(blocks, trace, e, o);
        SpentSnoc(blocks, u0, trace, e, o);
      }
    }
  }

  lemma {:induction false} RunKeepsInvariant(blocks: seq<Block>, outside: set<OutPoint>, states: seq<Shared>, trace: seq<Event>, n: nat)
    requires Run(blocks, outside, states, trace) && n <= |trace|
    requires OncePerOutput(blocks, states[0].db.utxo.Keys) && Apart(blocks, outside)
    ensures var keys, u0 := states[0].db.utxo.Keys, Unspent(states[0].db.utxo);
            && ItemsOk(blocks, u0, outside, trace[..n], states[n].items)
            && RowsOk(blocks, keys, u0, outside, trace[..n], states[n].db.utxo)
  {
    var keys, u0 := states[0].db.utxo.Keys, Unspent(states[0].db.utxo);
    if n > 0 {
      RunKeepsInvariant(blocks, outside, states, trace, n - 1);
      var before, e := trace[..n - 1], trace[n - 1];
      assert trace[..n] == before + [e];
      assert Step(blocks, outside, states[n - 1], e, states[n]);
      assert e != Other ==> e !in before;
      hide ItemsOk, RowsOk, Step, OncePerOutput, Apart, OnceEach;
      ItemsStep(blocks, keys, u0, outside, before, states[n - 1], e, states[n]);
      RowsStep(blocks, keys, u0, outside, before, states[n - 1], e, states[n]);
    }
  }

  // ----- the theorems

  /** After any number of events of any interleaving: an output has a row exactly when it had
      one or the block creating it has committed, and the row is spent exactly when a block
      spending it has committed that was looked up after the output was in the table. */
  lemma EveryInterleaving(blocks: seq<Block>, outside: set<OutPoint>, states: seq<Shared>, trace: seq<Event>, n: nat, o: OutPoint,
                          live: set<OutPoint>, ever: set<OutPoint>)
    requires Run(blocks, outside, states, trace) && n <= |trace|
    requires live <= ever && ever == states[0].db.utxo.Keys && ValidFrom(live, ever, blocks)
    requires Apart(blocks, outside) && o !in outside
    ensures var t0, t := states[0].db.utxo, states[n].db.utxo;
            && (o in t <==> o in t0 || Created(blocks, trace[..n], o))
            && (o in Unspent(t) <==>
                  (o in Unspent(t0) || Created(blocks, trace[..n], o)) && !SpentSeen(blocks, Unspent(t0), trace[..n], o))
  {
    ValidIsOnce(live, ever, blocks);
    RunKeepsInvariant(blocks, outside, states, trace, n);
    assert RowOk(blocks, ever, Unspent(states[0].db.utxo), trace[..n], states[n].db.utxo, o);
  }

  /** In particular nothing that is unspent in the chain is ever lost: once in the table, an
      output that no block of the range spends stays unspent. */
  lemma NothingUnspentIsLost(blocks: seq<Block>, outside: set<OutPoint>, states: seq<Shared>, trace: seq<Event>, n: nat, o: OutPoint,
                             live: set<OutPoint>, ever: set<OutPoint>)
    requires Run(blocks, outside, states, trace) && n <= |trace|
    requires live <= ever && ever == states[0].db.utxo.Keys && ValidFrom(live, ever, blocks)
    requires live <= Unspent(states[0].db.utxo)
    requires Apart(blocks, outside) && o !in outside
    requires o in LedgerFrom(live, blocks)
    ensures o in live || Created(blocks, trace[..n], o) <==> o in Unspent(states[n].db.utxo)
  {
    EveryInterleaving(blocks, outside, states, trace, n, o, live, ever);
    RangeLedger(live, ever, blocks);
    AllInsHas(blocks, o);
    AllOutsHas(blocks, o);
  }

  /** Outputs of the range that a block of the range spends without having seen them. */
  ghost function Missed(blocks: seq<Block>, trace: seq<Event>): set<OutPoint> {
    set o | o in AllOuts(blocks) && o in AllIns(blocks) && !Ordered(blocks, trace, o)
  }

  /** The block that spends o was looked up after the block that creates o had committed. */
  ghost predicate Ordered(blocks: seq<Block>, trace: seq<Event>, o: OutPoint) {
    forall c, i :: 0 <= c < |blocks| && 0 <= i < |blocks| && o in Outs(blocks[c].txs) && o in Ins(blocks[i].txs) ==>
      Precedes(trace, Commit(c), Lookup(i))
  }

  ghost predicate AllCommitted(blocks: seq<Block>, trace: seq<Event>) {
    forall i: nat :: i < |blocks| ==> Commit(i) in trace
  }

  lemma UnspentAtTheEnd(blocks: seq<Block>, outside: set<OutPoint>, states: seq<Shared>, trace: seq<Event>,
                        live: set<OutPoint>, extra: set<OutPoint>, ever: set<OutPoint>, o: OutPoint)
    requires Run(blocks, outside, states, trace) && AllCommitted(blocks, trace)
    requires Tracks(states[0].db.utxo, live, extra, ever) && ValidFrom(live, ever, blocks)
    requires Apart(blocks, outside) && o !in outside
    ensures o in Unspent(states[|trace|].db.utxo) <==> o in LedgerFrom(live, blocks) || o in extra || o in Missed(blocks, trace)
    ensures o in states[|trace|].db.utxo <==> o in ever || o in AllOuts(blocks)
  {
    var u0 := Unspent(states[0].db.utxo);
    assert trace[..|trace|] == trace;
    EveryInterleaving(blocks, outside, states, trace, |trace|, o, live, ever);
    ValidIsOnce(live, ever, blocks);
    RangeLedger(live, ever, blocks);
    AllInsHas(blocks, o);
    AllOutsHas(blocks, o);
    assert Created(blocks, trace, o) <==> o in AllOuts(blocks);
    SpentIff(blocks, u0, ever, trace, o);
  }

  lemma SpentIff(blocks: seq<Block>, u0: set<OutPoint>, keys: set<OutPoint>, trace: seq<Event>, o: OutPoint)
    requires OncePerOutput(blocks, keys) && u0 <= keys && AllCommitted(blocks, trace)
    ensures SpentSeen(blocks, u0, trace, o) <==>
      o in AllIns(blocks) && (o in u0 || (o in AllOuts(blocks) && Ordered(blocks, trace, o)))
  {
    AllInsHas(blocks, o);
    AllOutsHas(blocks, o);
    if SpentSeen(blocks, u0, trace, o) && o !in u0 {
      var i :| 0 <= i < |blocks| && o in Ins(blocks[i].txs) && Seen(blocks, u0, trace, o, i);
      var c :| 0 <= c < |blocks| && o in Outs(blocks[c].txs) && Precedes(trace, Commit(c), Lookup(i));
      assert Ordered(blocks, trace, o);
    }
    if o in AllIns(blocks) {
      var i :| 0 <= i < |blocks| && o in Ins(blocks[i].txs);
      if o in u0 {
        assert Seen(blocks, u0, trace, o, i);
      } else if o in AllOuts(blocks) && Ordered(blocks, trace, o) {
        var c :| 0 <= c < |blocks| && o in Outs(blocks[c].txs);
        assert Precedes(trace, Commit(c), Lookup(i));
        assert Seen(blocks, u0, trace, o, i);
      }
    }
  }

  /** When every block of the range has committed, the unspent rows are the ledger, what was
      extra before, and the outputs whose spender did not see them. */
  lemma BackfillTracksLedger(blocks: seq<Block>, outside: set<OutPoint>, states: seq<Shared>, trace: seq<Event>,
                             live: set<OutPoint>, extra: set<OutPoint>, ever: set<OutPoint>)
    requires Run(blocks, outside, states, trace) && AllCommitted(blocks, trace)
    requires Tracks(states[0].db.utxo, live, extra, ever) && ValidFrom(live, ever, blocks)
    requires Apart(blocks, outside)
    ensures var u := Unspent(states[|trace|].db.utxo);
            u - outside == (LedgerFrom(live, blocks) + extra + Missed(blocks, trace)) - outside
    ensures Missed(blocks, trace) !! LedgerFrom(live, blocks) + extra + outside
  {
    forall o | o !in outside
      ensures o in Unspent(states[|trace|].db.utxo) <==> o in LedgerFrom(live, blocks) || o in extra || o in Missed(blocks, trace)
    {
      UnspentAtTheEnd(blocks, outside, states, trace, live, extra, ever, o);
    }
    RangeLedger(live, ever, blocks);
    forall o | o in Missed(blocks, trace) ensures o !in LedgerFrom(live, blocks) + extra + outside {
      AllInsHas(blocks, o);
    }
  }

  /** A backfill that committed every block ends exactly at the ledger (apart from what was
      extra before) if and only if every block that spends an output of the range was looked
      up after the commit of the block that creates it. */
  lemma BackfillIsExactIff(blocks: seq<Block>, outside: set<OutPoint>, states: seq<Shared>, trace: seq<Event>,
                           live: set<OutPoint>, extra: set<OutPoint>, ever: set<OutPoint>)
    requires Run(blocks, outside, states, trace) && AllCommitted(blocks, trace)
    requires Tracks(states[0].db.utxo, live, extra, ever) && ValidFrom(live, ever, blocks)
    requires Apart(blocks, outside)
    ensures Unspent(states[|trace|].db.utxo) - outside == (LedgerFrom(live, blocks) + extra) - outside
       <==> forall o :: o in AllOuts(blocks) * AllIns(blocks) ==> Ordered(blocks, trace, o)
  {
    BackfillTracksLedger(blocks, outside, states, trace, live, extra, ever);
    var u, l, m := Unspent(states[|trace|].db.utxo) - outside, LedgerFrom(live, blocks) + extra, Missed(blocks, trace);
    hide LedgerFrom, Unspent, Ordered, Missed, Run, AllCommitted, Tracks, ValidFrom, Apart, AllOuts, AllIns;
    MissedMatters(u, l, m, outside);
    MissedNothing(blocks, trace);
  }

  lemma MissedNothing(blocks: seq<Block>, trace: seq<Event>)
    ensures Missed(blocks, trace) == {} <==> forall o :: o in AllOuts(blocks) * AllIns(blocks) ==> Ordered(blocks, trace, o)
  {
    if o :| o in AllOuts(blocks) * AllIns(blocks) && !Ordered(blocks, trace, o) {
      assert o in Missed(blocks, trace);
    }
  }

  lemma MissedMatters(u: set<OutPoint>, l: set<OutPoint>, m: set<OutPoint>, outside: set<OutPoint>)
    requires u == (l + m) - outside && m !! l + outside
    ensures u == l - outside <==> m == {}
  {
    if m != {} { var o :| o in m; assert o in u && o !in l; }
  }

  /** No order of events helps an output that is spent in the block that creates it. */
  lemma SameBlockIsNeverOrdered(blocks: seq<Block>, outside: set<OutPoint>, states: seq<Shared>, trace: seq<Event>, o: OutPoint, i: nat)
    requires Run(blocks, outside, states, trace) && OncePerOutput(blocks, states[0].db.utxo.Keys) && Apart(blocks, outside)
    requires i < |blocks| && o in Outs(blocks[i].txs) && o in Ins(blocks[i].txs)
    ensures !Ordered(blocks, trace, o)
  {
    forall m, n | 0 <= m < n < |trace| && trace[m] == Commit(i) ensures trace[n] != Lookup(i) {
      RunKeepsInvariant(blocks, outside, states, trace, n);
      assert trace[..n][m] == Commit(i);
      assert Lookup(i) in trace[..n];
    }
  }

  /** The outpoints whose rows a work item writes. */
  function Writes(p: Parsed): set<OutPoint> { OpsOf(p.created) + OpsOf(p.spent) }

  /** Transactions that overlap do not meet on a row: of two blocks that have both been looked up,
      neither being committed, the work items write disjoint rows. So running their statements
      side by side is running them at their commits. */
  lemma OverlappingBlocksWriteApart(blocks: seq<Block>, outside: set<OutPoint>, states: seq<Shared>, trace: seq<Event>, n: nat, i: nat, j: nat)
    requires Run(blocks, outside, states, trace) && n <= |trace|
    requires OncePerOutput(blocks, states[0].db.utxo.Keys) && Apart(blocks, outside)
    requires i < |blocks| && j < |blocks| && i != j
    requires i in states[n].items && j in states[n].items && Commit(i) !in trace[..n] && Commit(j) !in trace[..n]
    ensures Writes(states[n].items[i]) !! Writes(states[n].items[j])
  {
    var u0 := Unspent(states[0].db.utxo);
    RunKeepsInvariant(blocks, outside, states, trace, n);
    var p, q := states[n].items[i], states[n].items[j];
    assert ItemOk(blocks, u0, outside, trace[..n], i, p) && ItemOk(blocks, u0, outside, trace[..n], j, q);
    SpendsNothingOf(blocks, states[0].db.utxo.Keys, u0, outside, trace[..n], i, p, j, q);
    SpendsNothingOf(blocks, states[0].db.utxo.Keys, u0, outside, trace[..n], j, q, i, p);
  }

  /** A block whose outputs have not been committed has none of them on another's spent list, nor
      does it share an output or a spend with it. */
  lemma SpendsNothingOf(blocks: seq<Block>, keys: set<OutPoint>, u0: set<OutPoint>, outside: set<OutPoint>, trace: seq<Event>,
                        i: nat, p: Parsed, j: nat, q: Parsed)
    requires OncePerOutput(blocks, keys) && u0 <= keys && Apart(blocks, outside)
    requires i < |blocks| && j < |blocks| && i != j && Commit(i) !in trace
    requires ItemOk(blocks, u0, outside, trace, i, p) && ItemOk(blocks, u0, outside, trace, j, q)
    ensures OpsOf(p.created) !! OpsOf(q.created) && OpsOf(p.spent) !! OpsOf(q.spent) && OpsOf(p.created) !! OpsOf(q.spent)
  {
    forall o | o in OpsOf(p.created) ensures o !in OpsOf(q.spent) && o !in OpsOf(q.created) {
      SeenWas(blocks, u0, trace, o, j);
      assert o in Outs(blocks[i].txs) && o !in outside;
    }
    forall o | o in OpsOf(p.spent) ensures o !in OpsOf(q.spent) {
      assert o in Ins(blocks[i].txs);
    }
  }

  /** A worker that knows no watched script collects no references. */
  lemma {:induction false} NoReferences(b: Block, txs: seq<Tx>, found: Table, addr: AddressFn)
    ensures ParseTxs(b, txs, found, {}, addr).refs == []
  {
    if |txs| > 0 {
      var tx := txs[|txs| - 1];
      NoReferences(b, txs[..|txs| - 1], found, addr);
      NoRefsIn(b, tx, tx.vout, found, addr);
      NoRefsOut(b, tx, tx.vin, found, addr);
    }
  }

  lemma {:induction false} NoRefsIn(b: Block, tx: Tx, vout: seq<Vout>, found: Table, addr: AddressFn)
    ensures RefsIn(b, tx, vout, found, {}, addr) == []
  {
    if |vout| > 0 { NoRefsIn(b, tx, vout[..|vout| - 1], found, addr); }
  }

  lemma {:induction false} NoRefsOut(b: Block, tx: Tx, vin: seq<Vin>, found: Table, addr: AddressFn)
    ensures RefsOut(b, tx, vin, found, {}, addr) == []
  {
    if |vin| > 0 { NoRefsOut(b, tx, vin[..|vin| - 1], found, addr); }
  }
}
