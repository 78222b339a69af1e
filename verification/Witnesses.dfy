/** Concrete chains, runs and polls on which the conditions proved elsewhere fail. */
module Witnesses {
  import opened Prelude
  import opened Models
  import opened Sorting
  import opened Statements
  import opened UtxoTable
  import opened ReferenceTable
  import opened Retry
  import opened Database
  import opened Parser
  import opened Commits
  import opened Ledger
  import opened BulkBlocks
  import opened References
  import Backfill
  import Indexer

  const PAY := ScriptPubKey("51", "addr", [], "")
  const A := OutPoint("a", 0)
  const B := OutPoint("b", 0)

  /** A transaction that creates output A, and one that spends it and creates B. */
  const CREATES := Tx("a", [], [Vout(1.0, 0, PAY)])
  const SPENDS := Tx("b", [Vin("a", 0)], [Vout(1.0, 0, PAY)])

  /** In one block, and in two. */
  const TOGETHER := Block("h1", 1, 100, [CREATES, SPENDS])
  const FIRST := Block("h1", 1, 100, [CREATES])
  const SECOND := Block("h2", 2, 200, [SPENDS])

  const NONE: set<OutPoint> := {}
  const EMPTY := DbState(map[], map[], None)

  lemma Transactions()
    ensures TxOuts(CREATES) == {A} && TxIns(CREATES) == {}
    ensures TxOuts(SPENDS) == {B} && TxIns(SPENDS) == {A}
    ensures Outs([CREATES]) == {A} && Ins([CREATES]) == {}
    ensures Outs([SPENDS]) == {B} && Ins([SPENDS]) == {A}
    ensures Outs([CREATES, SPENDS]) == {A, B} && Ins([CREATES, SPENDS]) == {A}
  {
    assert CREATES.vout[0].n == 0 && SPENDS.vout[0].n == 0;
    assert A in TxOuts(CREATES) && B in TxOuts(SPENDS);
    assert Spends(SPENDS.vin[0]) && OpOf(SPENDS.vin[0]) == A && A in TxIns(SPENDS);
    assert [CREATES][..0] == [] && [SPENDS][..0] == [] && [CREATES, SPENDS][..1] == [CREATES];
  }

  /** Some commit of any parsed block is possible on any database. */
  lemma SomeCommit(before: DbState, p: Parsed, height: int, hash: string) returns (after: DbState)
    ensures BlockCommitted(before, p, height, hash, after)
  {
    after := Applied(before, SortOf(p.created), SortOf(p.spent), p.refs, height, hash);
  }

  lemma SomeIndexing(before: DbState, b: Block, watched: set<string>) returns (after: DbState)
    ensures BlockIndexed(before, b, watched, after)
  {
    after := SomeCommit(before, Parse(b, Visible(before.utxo), watched, AddressOf), b.height, b.hash);
  }

  lemma OneTx(b: Block, tx: Tx, found: Table, watched: set<string>, addr: AddressFn)
    ensures ParseTxs(b, [tx], found, watched, addr)
         == Parsed(TxCreated(b, tx, addr), TxSpent(b, tx, tx.vin, found),
                   RefsIn(b, tx, tx.vout, found, watched, addr) + RefsOut(b, tx, tx.vin, found, watched, addr))
  {
    hide TxCreated, TxSpent, RefsIn, RefsOut;
    assert [tx][..0] == [];
    assert ParseTxs(b, [tx][..0], found, watched, addr) == Parsed([], [], []);
    var refs := RefsIn(b, tx, tx.vout, found, watched, addr) + RefsOut(b, tx, tx.vin, found, watched, addr);
    assert [] + refs == refs && [] + TxCreated(b, tx, addr) == TxCreated(b, tx, addr);
    assert [] + TxSpent(b, tx, tx.vin, found) == TxSpent(b, tx, tx.vin, found);
  }

  lemma OneBlock(b: Block, addr: AddressFn)
    ensures CreatedRows([b], addr) == Parse(b, map[], {}, addr).created
  {
    hide Parse;
    assert [b][..0] == [];
    assert BulkParse([b][..0], map[], {}, addr) == Parsed([], [], []);
    assert [] + Parse(b, map[], {}, addr).created == Parse(b, map[], {}, addr).created;
  }

  lemma OneValidTx(live: set<OutPoint>, ever: set<OutPoint>, tx: Tx)
    ensures ValidTxs(live, ever, [tx]) <==> ValidTx(live, ever, tx)
    ensures LedgerTxs(live, [tx]) == (live - TxIns(tx)) + TxOuts(tx)
  {
    hide ValidTx, TxIns, TxOuts;
    assert [tx][..0] == [] && Outs([]) == {};
    assert ever + Outs([]) == ever;
  }

  lemma TwoValidTxs(live: set<OutPoint>, ever: set<OutPoint>, tx: Tx, ty: Tx)
    ensures ValidTxs(live, ever, [tx, ty]) <==>
      ValidTx(live, ever, tx) && ValidTx(LedgerTxs(live, [tx]), ever + TxOuts(tx), ty)
    ensures LedgerTxs(live, [tx, ty]) == (LedgerTxs(live, [tx]) - TxIns(ty)) + TxOuts(ty)
  {
    hide ValidTx, TxIns, TxOuts;
    assert [tx, ty][..1] == [tx] && [tx][..0] == [];
    OneValidTx(live, ever, tx);
    assert Outs([tx]) == Outs([]) + TxOuts(tx) == TxOuts(tx);
  }

  lemma OneValidBlock(live: set<OutPoint>, ever: set<OutPoint>, b: Block)
    ensures ValidFrom(live, ever, [b]) <==> ValidTxs(live, ever, b.txs)
    ensures LedgerFrom(live, [b]) == LedgerTxs(live, b.txs)
    ensures AllOuts([b]) == Outs(b.txs) && AllIns([b]) == Ins(b.txs) && SameBlock([b]) == Outs(b.txs) * Ins(b.txs)
  {
    hide ValidTxs, LedgerTxs, Outs, Ins;
    assert [b][..0] == [] && AllOuts([]) == {} && ever + AllOuts([]) == ever;
  }

  lemma TwoValidBlocks(live: set<OutPoint>, ever: set<OutPoint>, b: Block, c: Block)
    ensures ValidFrom(live, ever, [b, c]) <==>
      ValidTxs(live, ever, b.txs) && ValidTxs(LedgerTxs(live, b.txs), ever + Outs(b.txs), c.txs)
    ensures LedgerFrom(live, [b, c]) == LedgerTxs(LedgerTxs(live, b.txs), c.txs)
    ensures AllOuts([b, c]) == Outs(b.txs) + Outs(c.txs) && AllIns([b, c]) == Ins(b.txs) + Ins(c.txs)
  {
    hide ValidTxs, LedgerTxs, Outs, Ins;
    OneValidBlock(live, ever, b);
    assert [b, c][..1] == [b];
  }

  lemma TheTwoAreValid()
    ensures ValidTx({}, {}, CREATES) && LedgerTxs({}, [CREATES]) == {A}
    ensures ValidTx({A}, {A}, SPENDS) && LedgerTxs({A}, [SPENDS]) == {B}
  {
    Transactions();
    OneValidTx({}, {}, CREATES);
    OneValidTx({A}, {A}, SPENDS);
    assert A.txid != B.txid;
  }

  lemma TogetherIsValid()
    ensures ValidChain([TOGETHER]) && LedgerOf([TOGETHER]) == {B}
    ensures SameBlock([TOGETHER]) == {A}
  {
    Transactions();
    TheTwoAreValid();
    assert A.txid != B.txid && NONE + {A} == {A};
    hide ValidTx, LedgerTxs, ValidTxs, TxOuts, TxIns, Outs, Ins, ValidFrom, LedgerFrom, SameBlock;
    TwoValidTxs({}, {}, CREATES, SPENDS);
    OneValidBlock({}, {}, TOGETHER);
  }

  /** A valid chain whose block spends its own output: indexed, the output stays unspent. */
  lemma SameBlockSpendIsMissed() returns (states: seq<DbState>)
    ensures ValidChain([TOGETHER]) && SequentialRun(states, [TOGETHER], [{}]) && states[0] == EMPTY
    ensures A in Unspent(states[1].utxo) && A !in LedgerOf([TOGETHER])
  {
    TogetherIsValid();
    var after := SomeIndexing(EMPTY, TOGETHER, {});
    states := [EMPTY, after];
    hide BlockIndexed;
    assert [TOGETHER][..1] == [TOGETHER];
    SequentialIndexIsExactIff(states, [TOGETHER], [{}], 1);
  }

  lemma TwoBlocksAreValid()
    ensures ValidChain([FIRST, SECOND]) && LedgerOf([FIRST, SECOND]) == {B}
    ensures AllOuts([FIRST, SECOND]) == {A, B} && AllIns([FIRST, SECOND]) == {A}
  {
    Transactions();
    TheTwoAreValid();
    assert NONE + {A} == {A};
    hide ValidTx, LedgerTxs, ValidTxs, TxOuts, TxIns, Outs, Ins, ValidFrom, LedgerFrom, AllOuts, AllIns;
    OneValidTx({}, {}, CREATES);
    OneValidTx({A}, {A}, SPENDS);
    TwoValidBlocks({}, {}, FIRST, SECOND);
  }

  /** A backfill that looks the second block up before the first is committed: both commit, and
      the spent output stays unspent. */
  lemma EarlyLookupIsMissed() returns (states: seq<Backfill.Shared>, trace: seq<Backfill.Event>)
    ensures ValidChain([FIRST, SECOND]) && Backfill.Run([FIRST, SECOND], {}, states, trace) && states[0].db == EMPTY
    ensures Backfill.AllCommitted([FIRST, SECOND], trace)
    ensures A in Unspent(states[|trace|].db.utxo) && A !in LedgerOf([FIRST, SECOND])
  {
    TwoBlocksAreValid();
    var blocks := [FIRST, SECOND];
    var p0, p1 := Parse(FIRST, Visible(map[]), {}, AddressOf), Parse(SECOND, Visible(map[]), {}, AddressOf);
    var one := SomeCommit(EMPTY, p0, 1, "h1");
    var two := SomeCommit(one, p1, 2, "h2");
    hide Parse, BlockCommitted, ValidFrom, LedgerFrom;
    var none: map<nat, Parsed> := map[];
    var first, both: map<nat, Parsed> := none[0 := p0], none[0 := p0][1 := p1];
    trace := [Backfill.Lookup(0), Backfill.Lookup(1), Backfill.Commit(0), Backfill.Commit(1)];
    states := [Backfill.Shared(EMPTY, none), Backfill.Shared(EMPTY, first), Backfill.Shared(EMPTY, both),
               Backfill.Shared(one, both), Backfill.Shared(two, both)];
    assert Backfill.Step(blocks, {}, states[0], trace[0], states[1]);
    assert Backfill.Step(blocks, {}, states[1], trace[1], states[2]);
    assert states[2].items[0] == p0 && states[3].items[1] == p1;
    assert BlockCommitted(states[2].db, states[2].items[0], 1, "h1", states[3].db);
    assert BlockCommitted(states[3].db, states[3].items[1], 2, "h2", states[4].db);
    assert Backfill.Step(blocks, {}, states[2], trace[2], states[3]);
    assert Backfill.Step(blocks, {}, states[3], trace[3], states[4]);
    forall n | 0 <= n < |trace| ensures Backfill.Step(blocks, {}, states[n], trace[n], states[n + 1]) {
      assert n == 0 || n == 1 || n == 2 || n == 3;
    }
    assert Backfill.Commit(0) == trace[2] && Backfill.Commit(1) == trace[3];
    hide Backfill.Step;
    assert Tracks(states[0].db.utxo, {}, {}, {});
    Backfill.BackfillTracksLedger(blocks, {}, states, trace, {}, {}, {});
    NotOrdered(trace);
    hide Backfill.Ordered;
    assert A in Backfill.Missed(blocks, trace);
    var u := Unspent(states[4].db.utxo);
    assert A in u - NONE;
  }

  lemma NotOrdered(trace: seq<Backfill.Event>)
    requires trace == [Backfill.Lookup(0), Backfill.Lookup(1), Backfill.Commit(0), Backfill.Commit(1)]
    ensures !Backfill.Ordered([FIRST, SECOND], trace, A)
  {
    Transactions();
    assert [FIRST, SECOND][0] == FIRST && [FIRST, SECOND][1] == SECOND;
    assert A in Outs([FIRST, SECOND][0].txs) && A in Ins([FIRST, SECOND][1].txs);
    assert !Backfill.Precedes(trace, Backfill.Commit(0), Backfill.Lookup(1));
  }

  lemma OneRow(b: Block, tx: Tx)
    requires b.txs == [tx] && |tx.vout| == 1 && tx.vout[0].n == 0
    ensures var us := Parse(b, map[], {}, AddressOf).created; |us| == 1 && us[0].op == OutPoint(tx.txid, 0)
  {
    OneTx(b, tx, map[], {}, AddressOf);
    hide ParseTxs;
    assert TxCreated(b, tx, AddressOf)[0] == NewUtxo(b, tx, tx.vout[0], AddressOf);
  }

  lemma TwoBlocksCreateApart()
    ensures DistinctOps(CreatedRows([FIRST, SECOND], AddressOf))
  {
    CreateApart(FIRST, CREATES, SECOND, SPENDS);
  }

  lemma CreateApart(b: Block, tx: Tx, c: Block, ty: Tx)
    requires b.txs == [tx] && |tx.vout| == 1 && tx.vout[0].n == 0
    requires c.txs == [ty] && |ty.vout| == 1 && ty.vout[0].n == 0 && tx.txid != ty.txid
    ensures DistinctOps(CreatedRows([b, c], AddressOf))
  {
    hide Parse, CreatedRows, DistinctOps, AddressOf;
    OneRow(b, tx);
    OneRow(c, ty);
    OneBlock(b, AddressOf);
    assert [b, c] == [b] + [c];
    OneMoreBlock([b], c, AddressOf);
    TwoRows(Parse(b, map[], {}, AddressOf).created, Parse(c, map[], {}, AddressOf).created);
  }

  lemma OneMoreBlock(blocks: seq<Block>, b: Block, addr: AddressFn)
    ensures CreatedRows(blocks + [b], addr) == CreatedRows(blocks, addr) + Parse(b, map[], {}, addr).created
  {
    hide Parse;
    assert (blocks + [b])[..|blocks|] == blocks;
  }

  lemma TwoRows(us: seq<Utxo>, vs: seq<Utxo>)
    requires |us| == |vs| == 1 && us[0].op != vs[0].op
    ensures DistinctOps(us + vs)
  {}

  /** Two blocks in bulk: the spend of the first one's output by the second is missed, which one
      block at a time would have seen. */
  lemma ForwardSpendIsMissed() returns (states: seq<DbState>, bulk: DbState)
    ensures SequentialRun(states, [FIRST, SECOND], [{}, {}]) && states[0] == EMPTY
    ensures CommittedTimes(1, EMPTY, BulkParse([FIRST, SECOND], Visible(EMPTY.utxo), {}, BulkAddressOf), 2, "h2", bulk)
    ensures A in Unspent(bulk.utxo) && A !in Unspent(states[2].utxo) && Core(bulk.utxo) != Core(states[2].utxo)
  {
    var blocks := [FIRST, SECOND];
    TwoBlocksAreValid();
    TwoBlocksCreateApart();
    SpendsForwardA();
    hide BlockIndexed, CommittedTimes, BulkParse, CreatedRows, Core, BlockCommitted, LedgerFrom, ValidFrom, AllOuts, AllIns;
    bulk := SomeBulk(blocks);
    var one := SomeIndexing(EMPTY, FIRST, {});
    var two := SomeIndexing(one, SECOND, {});
    states := [EMPTY, one, two];
    assert SequentialRun(states, blocks, [{}, {}]);
    DistinctIsFresh(blocks);
    ForwardSpendEndsSpent(states, blocks, [{}, {}], A);
    BulkUnspent(1, EMPTY, blocks, {}, 2, "h2", bulk);
    ForwardSpendSeparates(states, blocks, [{}, {}], 1, {}, 2, "h2", bulk, A);
  }

  lemma SpendsForwardA()
    ensures SpendsForward([FIRST, SECOND], A)
  {
    Transactions();
    assert [FIRST, SECOND][..1] == [FIRST] && [FIRST][..0] == [] && AllOuts([]) == {};
    assert AllOuts([FIRST]) == {A};
  }

  lemma SomeBulk(blocks: seq<Block>) returns (bulk: DbState)
    ensures CommittedTimes(1, EMPTY, BulkParse(blocks, Visible(EMPTY.utxo), {}, BulkAddressOf), 2, "h2", bulk)
  {
    var p := BulkParse(blocks, Visible(EMPTY.utxo), {}, BulkAddressOf);
    bulk := SomeCommit(EMPTY, p, 2, "h2");
    hide BlockCommitted, BulkParse;
    assert CommittedTimes(0, EMPTY, p, 2, "h2", EMPTY);
  }

  // ----- references

  const TWICE := Tx("t", [], [Vout(1.0, 0, PAY), Vout(2.0, 1, PAY)])
  const PAYS_TWICE := Block("h1", 1, 100, [TWICE])

  /** A block that pays one watched address twice in one transaction never goes through. */
  lemma PayingTwiceBlocksTheBlock(f: TxFaults)
    ensures !GoesThrough(f, Parse(PAYS_TWICE, map[], {"51"}, AddressOf))
  {
    var p := Parse(PAYS_TWICE, map[], {"51"}, AddressOf);
    var vout := TWICE.vout;
    assert vout[..1][..0] == [] && vout[..2] == vout && [TWICE][..0] == [];
    assert vout[..2][..1] == vout[..1];
    assert vout[0].script.hex == "51" && vout[1].script.hex == "51";
    var one, two := RefIn(PAYS_TWICE, TWICE, vout[0], map[], AddressOf), RefIn(PAYS_TWICE, TWICE, vout[1], map[], AddressOf);
    assert RefsIn(PAYS_TWICE, TWICE, vout[..1], map[], {"51"}, AddressOf) == [one];
    assert RefsIn(PAYS_TWICE, TWICE, vout, map[], {"51"}, AddressOf) == [one, two];
    assert RefsOut(PAYS_TWICE, TWICE, [], map[], {"51"}, AddressOf) == [];
    OneTx(PAYS_TWICE, TWICE, map[], {"51"}, AddressOf);
    assert p.refs == [one, two];
    assert RefKeyOf(p.refs[0]) == RefKeyOf(p.refs[1]);
    BlockGoesThroughIff(PAYS_TWICE, map[], {"51"}, f);
  }

  // ----- addresses

  const DATA := ScriptPubKey("6a", "", [], "OP_RETURN")
  const CARRIES_DATA := Block("h1", 1, 100, [Tx("t", [], [Vout(0.0, 0, DATA)])])

  /** An output for which the parser derives an identifier and the bulk path stores nothing. */
  lemma AddressColumnsDiffer()
    ensures var p, q := CreatedRows([CARRIES_DATA], AddressOf), CreatedRows([CARRIES_DATA], BulkAddressOf);
            |p| == |q| == 1 && p[0].row.address == "OP_RETURN" && q[0].row.address == "" && p != q
  {
    var txs := CARRIES_DATA.txs;
    OneBlock(CARRIES_DATA, AddressOf);
    OneBlock(CARRIES_DATA, BulkAddressOf);
    OneTx(CARRIES_DATA, txs[0], map[], {}, AddressOf);
    OneTx(CARRIES_DATA, txs[0], map[], {}, BulkAddressOf);
    assert txs == [txs[0]] && txs[0].vout[0].script == DATA;
    var p, q := CreatedRows([CARRIES_DATA], AddressOf), CreatedRows([CARRIES_DATA], BulkAddressOf);
    assert p == TxCreated(CARRIES_DATA, txs[0], AddressOf) && q == TxCreated(CARRIES_DATA, txs[0], BulkAddressOf);
  }

  // ----- a skipped height

  const SETTINGS := Indexer.Env(false, 1, 10)
  const AT_ONE := DbState(map[], map[], Some(Progress(1, "h1")))

  /** The node answers every question but one: it fails to deliver the block. */
  function BlockFails(): Indexer.Conditions {
    var nothing := Database.TxFaults(None, None, k => None, k => None, k => None, None, CommitFate.Commits, 0);
    Indexer.Conditions(Success("h2"), None, None, k => None, None, CommitFate.Commits, Failure(Error(true)), None, nothing)
  }

  function FailingPoll(): Indexer.Poll {
    Indexer.Poll(Success(2), None, h => Success(map[]), h => BlockFails())
  }

  lemma MovesWithoutBlock()
    ensures Indexer.ReorgMoves(SETTINGS, AT_ONE, 2, "h2", BlockFails())
    ensures Indexer.Checked(SETTINGS, AT_ONE, 2, BlockFails()) == Indexer.Advanced(AT_ONE, 2)
  {
    assert "h1"[1] != "h2"[1];
    assert Indexer.WalkLength(SETTINGS, 2) == 2;
    assert FirstFault(BlockFails().walk, 2) == None;
  }

  /** An indexer at height 1 and one poll at tip 2: progress ends at height 2, nothing has been
      committed, and the error names the height. */
  lemma PollThatSkips(o: Indexer.Outcome, s: DbState, l: Indexer.Log)
    ensures Indexer.PollStep(SETTINGS, FailingPoll(), AT_ONE, Indexer.Beginning(AT_ONE), o, s, l) <==>
      o == Indexer.Failed(Some(2)) && s == Indexer.Advanced(AT_ONE, 2) && l == Indexer.Named(Indexer.Beginning(AT_ONE), 2)
    ensures Indexer.LastHeight(Indexer.Advanced(AT_ONE, 2)) == 2
  {
    MovesWithoutBlock();
    hide Indexer.ReorgMoves, Indexer.CheckPasses, TakesHold, GoesThrough;
    var p, l0 := FailingPoll(), Indexer.Beginning(AT_ONE);
    var after, c := Indexer.Advanced(AT_ONE, 2), p.at(2);
    assert c == BlockFails() && p.scripts(2) == Success(map[]) && Indexer.ChunkStart(2, 2) == 2;
    assert forall s', l', ok :: Indexer.HeightStep(SETTINGS, p, 2, 2, AT_ONE, l0, ok, s', l') <==> !ok && s' == after && l' == l0;
    assert Indexer.Blocks(SETTINGS, p, 2, 0, AT_ONE, l0, AT_ONE, l0);
    assert Indexer.HeightStep(SETTINGS, p, 2, 2, AT_ONE, l0, false, after, l0);
    assert Indexer.FailedAt(SETTINGS, p, 2, 2, AT_ONE, l0, after, l0);
    OneHeight(p, l0, s, l);
  }

  /** With one height in the poll, success means that height succeeded. */
  lemma OneHeight(p: Indexer.Poll, l0: Indexer.Log, s: DbState, l: Indexer.Log)
    ensures Indexer.Blocks(SETTINGS, p, 2, 1, AT_ONE, l0, s, l) <==> Indexer.HeightStep(SETTINGS, p, 2, 2, AT_ONE, l0, true, s, l)
  {
    hide Indexer.HeightStep;
    if Indexer.HeightStep(SETTINGS, p, 2, 2, AT_ONE, l0, true, s, l) {
      assert Indexer.BlocksVia(SETTINGS, p, 2, 1, AT_ONE, l0, AT_ONE, l0, s, l);
    }
    if Indexer.Blocks(SETTINGS, p, 2, 1, AT_ONE, l0, s, l) {
      var s1, l1 :| Indexer.BlocksVia(SETTINGS, p, 2, 1, AT_ONE, l0, s1, l1, s, l);
    }
  }
}
