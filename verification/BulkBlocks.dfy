/** Many blocks in one transaction, against the same blocks one transaction each. */
module BulkBlocks {
  import opened Prelude
  import opened Models
  import opened Sorting
  import opened Statements
  import opened UtxoTable
  import opened Batching
  import opened Retry
  import opened Database
  import opened Parser
  import opened Commits
  import opened Ledger

  /** The indexer's own address column, which differs from the parser's: it never derives an
      identifier and takes the first listed address even when empty. */
  function BulkAddressOf(s: ScriptPubKey): string {
    if s.address != "" then s.address else if |s.addresses| > 0 then s.addresses[0] else ""
  }

  function Append(a: Parsed, b: Parsed): Parsed {
    Parsed(a.created + b.created, a.spent + b.spent, a.refs + b.refs)
  }

  /** All blocks parsed against one and the same lookup. */
  function BulkParse(blocks: seq<Block>, found: Table, watched: set<string>, addr: AddressFn): Parsed {
    if |blocks| == 0 then Parsed([], [], [])
    else Append(BulkParse(blocks[..|blocks| - 1], found, watched, addr), Parse(blocks[|blocks| - 1], found, watched, addr))
  }

  /** The references of the blocks one after the other, in the order of the range; and so the rows. */
  lemma {:induction false} BulkIsInOrder(blocks: seq<Block>, found: Table, watched: set<string>, addr: AddressFn, parts: seq<Parsed>)
    requires |parts| == |blocks| && forall k :: 0 <= k < |blocks| ==> parts[k] == Parse(blocks[k], found, watched, addr)
    ensures BulkParse(blocks, found, watched, addr).refs == Flatten(seq(|parts|, k requires 0 <= k < |parts| => parts[k].refs))
    ensures BulkParse(blocks, found, watched, addr).created == Flatten(seq(|parts|, k requires 0 <= k < |parts| => parts[k].created))
    ensures BulkParse(blocks, found, watched, addr).spent == Flatten(seq(|parts|, k requires 0 <= k < |parts| => parts[k].spent))
  {
    if |blocks| > 0 {
      var n := |blocks| - 1;
      BulkIsInOrder(blocks[..n], found, watched, addr, parts[..n]);
      hide Parse;
      FlattenParts(parts);
    }
  }

  lemma FlattenParts(parts: seq<Parsed>)
    requires |parts| > 0
    ensures var n := |parts| - 1;
            && Flatten(seq(n + 1, k requires 0 <= k < n + 1 => parts[k].refs))
               == Flatten(seq(n, k requires 0 <= k < n => parts[..n][k].refs)) + parts[n].refs
            && Flatten(seq(n + 1, k requires 0 <= k < n + 1 => parts[k].created))
               == Flatten(seq(n, k requires 0 <= k < n => parts[..n][k].created)) + parts[n].created
            && Flatten(seq(n + 1, k requires 0 <= k < n + 1 => parts[k].spent))
               == Flatten(seq(n, k requires 0 <= k < n => parts[..n][k].spent)) + parts[n].spent
  {
    hide Flatten;
    var n := |parts| - 1;
    FlattenAppend(seq(n, k requires 0 <= k < n => parts[..n][k].refs), parts[n].refs);
    FlattenAppend(seq(n, k requires 0 <= k < n => parts[..n][k].created), parts[n].created);
    FlattenAppend(seq(n, k requires 0 <= k < n => parts[..n][k].spent), parts[n].spent);
    assert seq(n + 1, k requires 0 <= k < n + 1 => parts[k].refs)
        == seq(n, k requires 0 <= k < n => parts[..n][k].refs) + [parts[n].refs];
    assert seq(n + 1, k requires 0 <= k < n + 1 => parts[k].created)
        == seq(n, k requires 0 <= k < n => parts[..n][k].created) + [parts[n].created];
    assert seq(n + 1, k requires 0 <= k < n + 1 => parts[k].spent)
        == seq(n, k requires 0 <= k < n => parts[..n][k].spent) + [parts[n].spent];
  }

  lemma {:induction false} BulkParsedOps(blocks: seq<Block>, found: Table, watched: set<string>, addr: AddressFn)
    ensures OpsOf(BulkParse(blocks, found, watched, addr).created) == AllOuts(blocks)
    ensures OpsOf(BulkParse(blocks, found, watched, addr).spent) == AllIns(blocks) * found.Keys
    ensures AllConfirmed(BulkParse(blocks, found, watched, addr).created)
  {
    if |blocks| > 0 {
      var init, b := blocks[..|blocks| - 1], blocks[|blocks| - 1];
      BulkParsedOps(init, found, watched, addr);
      ParsedOps(b, b.txs, found, watched, addr);
      ParsedConfirmed(b, b.txs, found, watched, addr);
      OpsOfConcat(BulkParse(init, found, watched, addr).created, Parse(b, found, watched, addr).created);
      OpsOfConcat(BulkParse(init, found, watched, addr).spent, Parse(b, found, watched, addr).spent);
    }
  }

  // ----- the code

  /** bulkUpdateIndexProgressInTx: the block with the greatest height above zero. */
  method LatestBlock(hashes: seq<string>, heights: map<string, int>) returns (maxHeight: int, latest: string)
    requires forall h :: h in hashes ==> h in heights
    ensures maxHeight >= 0 && forall h :: h in hashes ==> heights[h] <= maxHeight
    ensures maxHeight > 0 ==> latest in hashes && heights[latest] == maxHeight
    ensures maxHeight == 0 ==> latest == ""
  {
    maxHeight, latest := 0, "";
    for i := 0 to |hashes|
      invariant maxHeight >= 0 && forall k :: 0 <= k < i ==> heights[hashes[k]] <= maxHeight
      invariant maxHeight > 0 ==> latest in hashes && heights[latest] == maxHeight
      invariant maxHeight == 0 ==> latest == ""
    {
      if heights[hashes[i]] > maxHeight {
        maxHeight, latest := heights[hashes[i]], hashes[i];
      }
    }
  }

  /** The transaction ran to its commit n times, each on top of the one before. */
  ghost predicate CommittedTimes(n: nat, before: DbState, p: Parsed, height: int, hash: string, after: DbState) {
    if n == 0 then before == after
    else exists mid :: CommittedTimes(n - 1, before, p, height, hash, mid) && BlockCommitted(mid, p, height, hash, after)
  }

  function TransactionOutcomes(attempts: nat -> TxFaults, p: Parsed): nat -> Result<()> {
    (k: nat) => CommitResult(attempts(k), p)
  }

  /** How many of the first n attempts take hold, acknowledged or not. */
  ghost function Holds(attempts: nat -> TxFaults, p: Parsed, n: nat): nat {
    if n == 0 then 0 else Holds(attempts, p, n - 1) + if TakesHold(attempts(n - 1), p) then 1 else 0
  }

  predicate Nothing(transactions: nat, p: Parsed) { transactions == 0 && p == Parsed([], [], []) }

  /** ExecuteBulkOperations: up to six attempts at the one transaction. The result is that of the
      retries, and the transaction is applied once for every attempt that took hold. */
  method ExecuteBulkOperations(db: DB, transactions: nat, p: Parsed, hashes: seq<string>, heights: map<string, int>,
                               attempts: nat -> TxFaults) returns (r: Result<()>, ghost times: nat, ghost height: int, ghost hash: string)
    requires |hashes| > 0 && forall h :: h in hashes ==> h in heights
    modifies db`state
    ensures CommittedTimes(times, old(db.state), p, height, hash, db.state)
    ensures Nothing(transactions, p) ==> r == Success(()) && times == 0
    ensures !Nothing(transactions, p) ==>
      && r == RetryResult(TransactionOutcomes(attempts, p), 0, 5)
      && times == Holds(attempts, p, AttemptsMade(TransactionOutcomes(attempts, p), 0, 5))
    ensures r.Success? && !Nothing(transactions, p) ==> times > 0
    ensures height >= 0 && (forall h :: h in hashes ==> heights[h] <= height)
    ensures if height > 0 then hash in hashes && heights[hash] == height else hash == ""
  {
    hide BlockCommitted, ReachesCommit, CommitResult;
    var maxHeight, latest := LatestBlock(hashes, heights);
    height, hash, times := maxHeight, latest, 0;
    if transactions == 0 && |p.created| == 0 && |p.spent| == 0 && |p.refs| == 0 { return Success(()), times, height, hash; }
    ghost var outcomes := TransactionOutcomes(attempts, p);
    var attempt := 0;
    while attempt <= 5
      invariant attempt <= 5
      invariant CommittedTimes(times, old(db.state), p, height, hash, db.state) && times == Holds(attempts, p, attempt)
      invariant RetryResult(outcomes, 0, 5) == RetryResult(outcomes, attempt, 5)
      invariant AttemptsMade(outcomes, 0, 5) == AttemptsMade(outcomes, attempt, 5)
      decreases 6 - attempt
    {
      ghost var mid := db.state;
      r := db.CommitBlock(p, maxHeight, latest, attempts(attempt));
      assert r == outcomes(attempt);
      if TakesHold(attempts(attempt), p) {
        assert BlockCommitted(mid, p, height, hash, db.state);
        assert CommittedTimes(times + 1, old(db.state), p, height, hash, db.state);
        times := times + 1;
      }
      if r.Success? { return; }
      if !r.error.retryable || attempt == 5 { return; }
      attempt := attempt + 1;
    }
  }

  method CollectAllRefs(blocks: seq<Block>) returns (refs: seq<OutPoint>)
    ensures Distinct(refs)
    ensures forall o :: o in refs <==> exists k :: 0 <= k < |blocks| && SpentBy(blocks[k].txs, o)
  {
    var refMap: map<string, nat>;
    refs, refMap := [], map[];
    for i := 0 to |blocks|
      invariant Indexed(refs, refMap)
      invariant forall o :: o in refs <==> exists k :: 0 <= k < i && SpentBy(blocks[k].txs, o)
    {
      hide SpentBy;
      refs, refMap := CollectRefs(blocks[i].txs, refs, refMap);
    }
  }

  method ParseAllBlocks(blocks: seq<Block>, existing: map<string, Utxo>, ghost found: Table, watched: set<string>)
    returns (all: Parsed, transactions: nat)
    requires forall i, j :: 0 <= i < |blocks| && 0 <= j < |blocks[i].txs| ==> Answers(existing, found, blocks[i].txs[j].vin)
    ensures all == BulkParse(blocks, found, watched, BulkAddressOf)
    ensures transactions == 0 <==> NoTransactions(blocks)
  {
    all, transactions := Parsed([], [], []), 0;
    for i := 0 to |blocks|
      invariant transactions == 0 <==> forall k :: 0 <= k < i ==> blocks[k].txs == []
      invariant all == BulkParse(blocks[..i], found, watched, BulkAddressOf)
    {
      assert blocks[..i + 1][..i] == blocks[..i];
      var parsed := ParseTransactions(blocks[i], existing, found, watched, BulkAddressOf, k => None);
      all := Append(all, parsed.value);
      transactions := transactions + |blocks[i].txs|;
    }
    assert blocks[..|blocks|] == blocks;
  }

  ghost predicate NoTransactions(blocks: seq<Block>) {
    forall i :: 0 <= i < |blocks| ==> blocks[i].txs == []
  }

  /** Some input of the range names an output to look up. */
  ghost predicate Searched(blocks: seq<Block>) {
    exists i, o :: 0 <= i < |blocks| && SpentBy(blocks[i].txs, o)
  }

  lemma {:induction false} NoTransactionsNothing(blocks: seq<Block>, found: Table, watched: set<string>, addr: AddressFn)
    requires NoTransactions(blocks)
    ensures BulkParse(blocks, found, watched, addr) == Parsed([], [], [])
  {
    if |blocks| > 0 {
      NoTransactionsNothing(blocks[..|blocks| - 1], found, watched, addr);
    }
  }

  /** First pass: one list of outpoints for all blocks. Second pass: parse every block against
      the one lookup. Then everything in one transaction. */
  method ProcessBlocksBulkData(db: DB, blocks: seq<Block>, hashes: seq<string>, heights: map<string, int>,
                               watched: map<string, WatchedScript>, fault: Option<Error>, attempts: nat -> TxFaults)
    returns (r: Result<()>, ghost times: nat, ghost height: int, ghost hash: string)
    requires |blocks| == |hashes| > 0 && forall h :: h in hashes ==> h in heights
    modifies db`state
    ensures var p := BulkParse(blocks, Visible(old(db.state).utxo), watched.Keys, BulkAddressOf);
            && CommittedTimes(times, old(db.state), p, height, hash, db.state)
            && (Searched(blocks) && fault.Some? ==> r == Failure(fault.value) && times == 0)
            && ((!Searched(blocks) || fault.None?) && NoTransactions(blocks) ==> r == Success(()) && times == 0)
            && ((!Searched(blocks) || fault.None?) && !NoTransactions(blocks) ==>
                  && r == RetryResult(TransactionOutcomes(attempts, p), 0, 5)
                  && times == Holds(attempts, p, AttemptsMade(TransactionOutcomes(attempts, p), 0, 5))
                  && (r.Success? ==> times > 0))
    ensures times > 0 ==> height >= 0 && (forall h :: h in hashes ==> heights[h] <= height)
    ensures times > 0 ==> if height > 0 then hash in hashes && heights[hash] == height else hash == ""
  {
    times, height, hash := 0, 0, "";
    var refs := CollectAllRefs(blocks);
    if Searched(blocks) { var i, o :| 0 <= i < |blocks| && SpentBy(blocks[i].txs, o); assert o in refs; }
    if |refs| > 0 { assert refs[0] in refs; }
    assert |refs| > 0 <==> Searched(blocks);
    hide SpentBy, BulkParse, CommittedTimes, CommitResult, RetryResult, AttemptsMade, Holds, Answers;
    var existing := db.BatchGetUTXOs(refs, fault);
    if existing.Failure? { return Failure(existing.error), times, height, hash; }
    forall i | 0 <= i < |blocks|
      ensures forall j :: 0 <= j < |blocks[i].txs| ==> Answers(existing.value, Visible(db.state.utxo), blocks[i].txs[j].vin)
    {
      AnswersAll(blocks[i], refs, existing.value, db.state.utxo);
    }
    var all, transactions := ParseAllBlocks(blocks, existing.value, Visible(db.state.utxo), watched.Keys);
    if NoTransactions(blocks) { NoTransactionsNothing(blocks, Visible(db.state.utxo), watched.Keys, BulkAddressOf); }
    r, times, height, hash := ExecuteBulkOperations(db, transactions, all, hashes, heights, attempts);
  }

  // ----- what the bulk transaction means

  /** Bulk indexing of any range leaves unspent what was unspent or created in the range, less
      the inputs that were already unspent rows before it. Repeating the transaction after a
      commit of unknown fate changes nothing about that. */
  lemma {:induction false} BulkUnspent(n: nat, before: DbState, blocks: seq<Block>, watched: set<string>, height: int, hash: string, after: DbState)
    requires n > 0
    requires CommittedTimes(n, before, BulkParse(blocks, Visible(before.utxo), watched, BulkAddressOf), height, hash, after)
    ensures after.utxo.Keys == before.utxo.Keys + AllOuts(blocks)
    ensures Unspent(after.utxo) == (Unspent(before.utxo) + AllOuts(blocks)) - (AllIns(blocks) * Unspent(before.utxo))
    ensures after.progress == Some(Progress(height, hash))
  {
    var p := BulkParse(blocks, Visible(before.utxo), watched, BulkAddressOf);
    BulkParsedOps(blocks, Visible(before.utxo), watched, BulkAddressOf);
    assert Visible(before.utxo).Keys == Unspent(before.utxo);
    RepeatedUnspent(n, before, p, height, hash, after);
  }

  lemma {:induction false} RepeatedUnspent(n: nat, before: DbState, p: Parsed, height: int, hash: string, after: DbState)
    requires n > 0 && AllConfirmed(p.created) && CommittedTimes(n, before, p, height, hash, after)
    ensures after.utxo.Keys == before.utxo.Keys + OpsOf(p.created)
    ensures Unspent(after.utxo) == (Unspent(before.utxo) + OpsOf(p.created)) - OpsOf(p.spent)
    ensures after.progress == Some(Progress(height, hash))
  {
    var mid :| CommittedTimes(n - 1, before, p, height, hash, mid) && BlockCommitted(mid, p, height, hash, after);
    CommitUnspent(mid, p, height, hash, after);
    if n > 1 { RepeatedUnspent(n - 1, before, p, height, hash, mid); }
  }

  /** That is the old set minus the inputs plus the outputs exactly when no output of the range
      was an unspent row before and is an input of the range. */
  lemma BulkUnspentIsMinusInputsPlusOutputs(u: set<OutPoint>, blocks: seq<Block>)
    ensures (u + AllOuts(blocks)) - (AllIns(blocks) * u) == (u - AllIns(blocks)) + AllOuts(blocks)
       <==> AllOuts(blocks) * AllIns(blocks) * u == {}
  {
    var o, i := AllOuts(blocks), AllIns(blocks);
    var left, right := (u + o) - (i * u), (u - i) + o;
    if o * i * u == {} {
      forall x ensures x in left <==> x in right {
        assert x !in o * i * u;
      }
    } else {
      var x :| x in o * i * u;
      assert x in right && x !in left;
    }
  }

  // ----- against one block at a time

  /** The columns on which the two ways of indexing agree: all but the address and the spend. */
  function CoreRow(r: Row): Row { r.(address := "", spentAt := None, spentByTxid := None) }

  function Core(t: Table): Table { map o | o in t :: CoreRow(t[o]) }

  /** In words: the same rows, alike in script, value, status, height, hash and first-seen time. */
  lemma CoreIs(a: Table, b: Table)
    ensures Core(a) == Core(b) <==>
      a.Keys == b.Keys
      && forall o :: o in a && o in b ==>
           && a[o].scriptHex == b[o].scriptHex && a[o].valueSats == b[o].valueSats && a[o].status == b[o].status
           && a[o].blockHeight == b[o].blockHeight && a[o].blockHash == b[o].blockHash && a[o].firstSeenAt == b[o].firstSeenAt
  {
    assert Core(a).Keys == a.Keys && Core(b).Keys == b.Keys;
    if Core(a) == Core(b) {
      forall o | o in a && o in b ensures CoreRow(a[o]) == CoreRow(b[o]) { assert Core(a)[o] == Core(b)[o]; }
    }
  }

  function SpendIf(r: Row, c: bool): Row { if c then r.(status := Spent) else r }

  predicate AsBefore(t0: Table, ins: set<OutPoint>, t: Table, o: OutPoint)
    requires o in t0
  {
    o in t && CoreRow(t[o]) == CoreRow(SpendIf(t0[o], o in ins && o in Unspent(t0)))
  }

  predicate AsUpserted(t0: Table, ins: set<OutPoint>, t: Table, u: Utxo) {
    u.op in t && CoreRow(t[u.op]) == CoreRow(SpendIf(Merged(t0, u), u.op in ins && u.op in Unspent(t0)))
  }

  /** Table t is t0 with the rows us upserted and, of the outpoints `ins`, those that were unspent
      in t0 marked spent, on the common columns. */
  ghost predicate Matches(t0: Table, us: seq<Utxo>, ins: set<OutPoint>, t: Table) {
    && t.Keys == t0.Keys + OpsOf(us)
    && (forall o :: o in t0 && !HasOp(us, o) ==> AsBefore(t0, ins, t, o))
    && (forall i :: 0 <= i < |us| ==> AsUpserted(t0, ins, t, us[i]))
  }

  /** One committed block, row by row. */
  lemma CommitRow(before: DbState, p: Parsed, height: int, hash: string, after: DbState, o: OutPoint)
    requires BlockCommitted(before, p, height, hash, after) && DistinctOps(p.created)
    ensures o in after.utxo <==> o in before.utxo || HasOp(p.created, o)
    ensures o in before.utxo && !HasOp(p.created, o) ==>
      CoreRow(after.utxo[o]) == CoreRow(SpendIf(before.utxo[o], o in OpsOf(p.spent)))
    ensures forall i :: 0 <= i < |p.created| && p.created[i].op == o ==>
      CoreRow(after.utxo[o]) == CoreRow(SpendIf(Merged(before.utxo, p.created[i]), o in OpsOf(p.spent)))
  {
    var created, spent :| IsSortOf(created, p.created) && IsSortOf(spent, p.spent)
      && after == Applied(before, created, spent, p.refs, height, hash);
    var t1 := UpsertAll(before.utxo, p.created);
    UpsertAllPermutes(before.utxo, p.created, created);
    MarkChunksStatus(t1, spent, MARK_BATCH, o);
    UpsertAllKeys(before.utxo, p.created, o);
    SameOps(spent, p.spent, o);
    assert HasOp(p.spent, o) <==> o in OpsOf(p.spent);
    if o in t1 { CoreOfUnspend(after.utxo[o], SpendIf(t1[o], HasOp(p.spent, o))); }
    if !HasOp(p.created, o) { UpsertAllMiss(before.utxo, p.created, o); }
    forall i | 0 <= i < |p.created| && p.created[i].op == o
      ensures CoreRow(after.utxo[o]) == CoreRow(SpendIf(Merged(before.utxo, p.created[i]), o in OpsOf(p.spent)))
    {
      UpsertAllHit(before.utxo, p.created, i);
    }
  }

  lemma CoreOfUnspend(a: Row, b: Row)
    requires Unspend(a) == Unspend(b)
    ensures CoreRow(a) == CoreRow(b)
  {
    assert CoreRow(a) == CoreRow(Unspend(a)) && CoreRow(b) == CoreRow(Unspend(b));
  }

  lemma SpendIfCore(a: Row, b: Row, c: bool)
    requires CoreRow(a) == CoreRow(b)
    ensures CoreRow(SpendIf(a, c)) == CoreRow(SpendIf(b, c)) && a.status == b.status
  {
    assert CoreRow(a).status == a.status && CoreRow(b).status == b.status;
  }

  lemma MergedCore(t: Table, t': Table, u: Utxo)
    requires u.op in t <==> u.op in t'
    requires u.op in t ==> CoreRow(Fixed(t[u.op])) == CoreRow(Fixed(t'[u.op]))
    ensures CoreRow(Merged(t, u)) == CoreRow(Merged(t', u))
  {}

  /** What is known when one more block is committed: it spends nothing the earlier blocks
      created, and creates nothing they spent or created. */
  ghost predicate NextBlock(t0: Table, us: seq<Utxo>, ins: set<OutPoint>, before: DbState, p: Parsed, blockIns: set<OutPoint>, after: DbState) {
    && Matches(t0, us, ins, before.utxo)
    && (exists height, hash :: BlockCommitted(before, p, height, hash, after))
    && DistinctOps(p.created) && OpsOf(us) !! OpsOf(p.created)
    && OpsOf(p.spent) == blockIns * Unspent(before.utxo)
    && blockIns !! OpsOf(us) && (ins * Unspent(t0)) !! OpsOf(p.created)
  }

  lemma UntouchedRow(t0: Table, us: seq<Utxo>, ins: set<OutPoint>, before: DbState, p: Parsed, blockIns: set<OutPoint>, after: DbState, o: OutPoint)
    requires NextBlock(t0, us, ins, before, p, blockIns, after)
    requires o in t0 && !HasOp(us, o) && !HasOp(p.created, o)
    ensures AsBefore(t0, ins + blockIns, after.utxo, o)
  {
    var height, hash :| BlockCommitted(before, p, height, hash, after);
    assert AsBefore(t0, ins, before.utxo, o);
    CommitRow(before, p, height, hash, after, o);
    SpendIfCore(before.utxo[o], SpendIf(t0[o], o in ins && o in Unspent(t0)), o in OpsOf(p.spent));
  }

  lemma OldOutput(t0: Table, us: seq<Utxo>, ins: set<OutPoint>, before: DbState, p: Parsed, blockIns: set<OutPoint>, after: DbState, u: Utxo)
    requires NextBlock(t0, us, ins, before, p, blockIns, after) && u in us
    ensures AsUpserted(t0, ins + blockIns, after.utxo, u)
  {
    var height, hash :| BlockCommitted(before, p, height, hash, after);
    var i :| 0 <= i < |us| && us[i] == u;
    assert AsUpserted(t0, ins, before.utxo, us[i]) && u.op in OpsOf(us);
    assert u.op !in OpsOf(p.created);
    assert HasOp(p.created, u.op) <==> u.op in OpsOf(p.created);
    CommitRow(before, p, height, hash, after, u.op);
  }

  lemma NewOutput(t0: Table, us: seq<Utxo>, ins: set<OutPoint>, before: DbState, p: Parsed, blockIns: set<OutPoint>, after: DbState, u: Utxo)
    requires NextBlock(t0, us, ins, before, p, blockIns, after) && u in p.created
    ensures AsUpserted(t0, ins + blockIns, after.utxo, u)
  {
    var height, hash :| BlockCommitted(before, p, height, hash, after);
    var i :| 0 <= i < |p.created| && p.created[i] == u;
    var o := u.op;
    assert o in OpsOf(p.created) && o !in OpsOf(us);
    assert HasOp(us, o) <==> o in OpsOf(us);
    CommitRow(before, p, height, hash, after, o);
    if o in t0 {
      assert AsBefore(t0, ins, before.utxo, o);
      SpendIfCore(before.utxo[o], t0[o], false);
      SameFixedCore(before.utxo[o], t0[o]);
    }
    MergedCore(before.utxo, t0, u);
    SpendIfCore(Merged(before.utxo, u), Merged(t0, u), o in OpsOf(p.spent));
  }

  /** Indexing one more block keeps the match. */
  lemma MatchesStep(t0: Table, us: seq<Utxo>, ins: set<OutPoint>, before: DbState, p: Parsed, blockIns: set<OutPoint>, after: DbState)
    requires NextBlock(t0, us, ins, before, p, blockIns, after)
    requires after.utxo.Keys == before.utxo.Keys + OpsOf(p.created)
    ensures Matches(t0, us + p.created, ins + blockIns, after.utxo)
  {
    hide AsBefore, AsUpserted;
    var all := us + p.created;
    OpsOfConcat(us, p.created);
    forall o | o in t0 && !HasOp(all, o) ensures AsBefore(t0, ins + blockIns, after.utxo, o) {
      HasOpSplit(all, |us|, o);
      assert all[..|us|] == us && all[|us|..] == p.created;
      UntouchedRow(t0, us, ins, before, p, blockIns, after, o);
    }
    forall i | 0 <= i < |all| ensures AsUpserted(t0, ins + blockIns, after.utxo, all[i]) {
      if i < |us| {
        OldOutput(t0, us, ins, before, p, blockIns, after, all[i]);
      } else {
        NewOutput(t0, us, ins, before, p, blockIns, after, all[i]);
      }
    }
  }

  lemma SameFixedCore(a: Row, b: Row)
    requires CoreRow(a) == CoreRow(b)
    ensures CoreRow(Fixed(a)) == CoreRow(Fixed(b))
  {
    assert CoreRow(Fixed(a)) == Fixed(CoreRow(a)) && CoreRow(Fixed(b)) == Fixed(CoreRow(b));
  }

  lemma {:induction false} CreatedIndependent(b: Block, txs: seq<Tx>, f: Table, g: Table, v: set<string>, w: set<string>, addr: AddressFn)
    ensures ParseTxs(b, txs, f, v, addr).created == ParseTxs(b, txs, g, w, addr).created
  {
    if |txs| > 0 { CreatedIndependent(b, txs[..|txs| - 1], f, g, v, w, addr); }
  }

  /** All rows a range of blocks creates. */
  function CreatedRows(blocks: seq<Block>, addr: AddressFn): seq<Utxo> {
    BulkParse(blocks, map[], {}, addr).created
  }

  lemma {:induction false} BulkCreated(blocks: seq<Block>, found: Table, watched: set<string>, addr: AddressFn)
    ensures BulkParse(blocks, found, watched, addr).created == CreatedRows(blocks, addr)
  {
    if |blocks| > 0 {
      var b := blocks[|blocks| - 1];
      BulkCreated(blocks[..|blocks| - 1], found, watched, addr);
      CreatedIndependent(b, b.txs, found, map[], watched, {}, addr);
    }
  }

  /** The two address columns are the only difference between what the two paths create. */
  lemma {:induction false} SameButAddress(blocks: seq<Block>)
    ensures |CreatedRows(blocks, AddressOf)| == |CreatedRows(blocks, BulkAddressOf)|
    ensures forall i :: 0 <= i < |CreatedRows(blocks, AddressOf)| ==>
      DifferInAddress(CreatedRows(blocks, AddressOf)[i], CreatedRows(blocks, BulkAddressOf)[i])
  {
    if |blocks| > 0 {
      SameButAddress(blocks[..|blocks| - 1]);
      var b := blocks[|blocks| - 1];
      BlockSameButAddress(b, b.txs);
    }
  }

  predicate DifferInAddress(u: Utxo, v: Utxo) { u.op == v.op && u.row.(address := v.row.address) == v.row }

  /** The two address columns of an output agree. */
  predicate SameAddress(s: ScriptPubKey) {
    s.address != "" || (|s.addresses| > 0 && s.addresses[0] != "") || s.identifier == ""
  }

  lemma AddressesAgreeIff(s: ScriptPubKey)
    ensures AddressOf(s) == BulkAddressOf(s) <==> SameAddress(s)
    ensures s.address != "" ==> BulkAddressOf(s) == s.address
    ensures s.address == "" && |s.addresses| > 0 ==> BulkAddressOf(s) == s.addresses[0]
    ensures s.address == "" && |s.addresses| == 0 ==> BulkAddressOf(s) == ""
  {}

  ghost predicate OutputsAgree(tx: Tx) { forall j :: 0 <= j < |tx.vout| ==> SameAddress(tx.vout[j].script) }

  ghost predicate BlockAgrees(txs: seq<Tx>) { forall i :: 0 <= i < |txs| ==> OutputsAgree(txs[i]) }

  ghost predicate RangeAgrees(blocks: seq<Block>) { forall k :: 0 <= k < |blocks| ==> BlockAgrees(blocks[k].txs) }

  lemma EqualParts<T>(a: seq<T>, b: seq<T>, c: seq<T>, d: seq<T>)
    requires |a| == |c|
    ensures a + b == c + d <==> a == c && b == d
  {
    if a + b == c + d {
      assert a == (a + b)[..|a|] && c == (c + d)[..|c|];
      assert b == (a + b)[|a|..] && d == (c + d)[|c|..];
    }
  }

  lemma TxAgreesIff(b: Block, tx: Tx)
    ensures TxCreated(b, tx, AddressOf) == TxCreated(b, tx, BulkAddressOf) <==> OutputsAgree(tx)
  {
    var us, vs := TxCreated(b, tx, AddressOf), TxCreated(b, tx, BulkAddressOf);
    forall j | 0 <= j < |tx.vout| ensures us[j] == vs[j] <==> SameAddress(tx.vout[j].script) {
      AddressesAgreeIff(tx.vout[j].script);
      assert us[j].row.address == AddressOf(tx.vout[j].script) && vs[j].row.address == BulkAddressOf(tx.vout[j].script);
    }
    if us == vs { assert forall j :: 0 <= j < |us| ==> us[j] == vs[j]; }
  }

  lemma {:induction false} BlockAgreesIff(b: Block, txs: seq<Tx>)
    ensures ParseTxs(b, txs, map[], {}, AddressOf).created == ParseTxs(b, txs, map[], {}, BulkAddressOf).created <==> BlockAgrees(txs)
  {
    if |txs| > 0 {
      var init, tx := txs[..|txs| - 1], txs[|txs| - 1];
      BlockAgreesIff(b, init);
      BlockSameButAddress(b, init);
      TxAgreesIff(b, tx);
      EqualParts(ParseTxs(b, init, map[], {}, AddressOf).created, TxCreated(b, tx, AddressOf),
                 ParseTxs(b, init, map[], {}, BulkAddressOf).created, TxCreated(b, tx, BulkAddressOf));
      hide OutputsAgree;
      assert forall i :: 0 <= i < |init| ==> init[i] == txs[i];
      assert BlockAgrees(txs) <==> BlockAgrees(init) && OutputsAgree(tx);
    }
  }

  /** The two paths create the same rows if and only if every output of the range has an address
      from the node, or no identifier derived from its script. */
  lemma {:induction false} CreatedAgreeIff(blocks: seq<Block>)
    ensures CreatedRows(blocks, AddressOf) == CreatedRows(blocks, BulkAddressOf) <==> RangeAgrees(blocks)
  {
    if |blocks| > 0 {
      var init, b := blocks[..|blocks| - 1], blocks[|blocks| - 1];
      CreatedAgreeIff(init);
      SameButAddress(init);
      BlockAgreesIff(b, b.txs);
      EqualParts(CreatedRows(init, AddressOf), Parse(b, map[], {}, AddressOf).created,
                 CreatedRows(init, BulkAddressOf), Parse(b, map[], {}, BulkAddressOf).created);
      hide BlockAgrees;
      assert forall k :: 0 <= k < |init| ==> init[k] == blocks[k];
      assert RangeAgrees(blocks) <==> RangeAgrees(init) && BlockAgrees(b.txs);
    }
  }

  lemma {:induction false} BlockSameButAddress(b: Block, txs: seq<Tx>)
    ensures var a, c := ParseTxs(b, txs, map[], {}, AddressOf).created, ParseTxs(b, txs, map[], {}, BulkAddressOf).created;
            |a| == |c| && forall i :: 0 <= i < |a| ==> DifferInAddress(a[i], c[i])
  {
    if |txs| > 0 {
      BlockSameButAddress(b, txs[..|txs| - 1]);
      var tx := txs[|txs| - 1];
      var a, c := TxCreated(b, tx, AddressOf), TxCreated(b, tx, BulkAddressOf);
      forall i | 0 <= i < |a| ensures DifferInAddress(a[i], c[i]) {}
    }
  }

  lemma ConcatDistinct(a: seq<Utxo>, b: seq<Utxo>)
    requires DistinctOps(a + b)
    ensures DistinctOps(a) && DistinctOps(b) && OpsOf(a) !! OpsOf(b)
  {
    var s := a + b;
    forall i, j | 0 <= i < |a| && 0 <= j < |b| ensures a[i].op != b[j].op {
      assert s[i] == a[i] && s[|a| + j] == b[j];
    }
    forall i, j | 0 <= i < j < |b| ensures b[i].op != b[j].op {
      assert s[|a| + i] == b[i] && s[|a| + j] == b[j];
    }
    forall i, j | 0 <= i < j < |a| ensures a[i].op != a[j].op {
      assert s[i] == a[i] && s[j] == a[j];
    }
  }

  /** No block spends an output of an earlier block of the range, or re-creates an output that
      an earlier block of the range has spent. */
  ghost predicate Independent(blocks: seq<Block>, u: set<OutPoint>) {
    |blocks| == 0 ||
    (Independent(blocks[..|blocks| - 1], u)
     && Ins(blocks[|blocks| - 1].txs) !! AllOuts(blocks[..|blocks| - 1])
     && (AllIns(blocks[..|blocks| - 1]) * u) !! Outs(blocks[|blocks| - 1].txs))
  }

  /** In particular, a range none of whose inputs refers to an output created in it. */
  lemma {:induction false} NoInternalSpendIsIndependent(blocks: seq<Block>, u: set<OutPoint>)
    requires AllIns(blocks) !! AllOuts(blocks)
    ensures Independent(blocks, u)
  {
    if |blocks| > 0 { NoInternalSpendIsIndependent(blocks[..|blocks| - 1], u); }
  }

  lemma RunPrefix(states: seq<DbState>, blocks: seq<Block>, watched: seq<set<string>>)
    requires SequentialRun(states, blocks, watched) && |blocks| > 0
    ensures SequentialRun(states[..|blocks|], blocks[..|blocks| - 1], watched[..|blocks| - 1])
  {
    var n := |blocks| - 1;
    forall k | 0 <= k < n
      ensures BlockIndexed(states[..n + 1][k], blocks[..n][k], watched[..n][k], states[..n + 1][k + 1])
    {
      assert BlockIndexed(states[k], blocks[k], watched[k], states[k + 1]);
    }
  }

  lemma {:induction false} SequentialMatches(states: seq<DbState>, blocks: seq<Block>, watched: seq<set<string>>)
    requires SequentialRun(states, blocks, watched) && DistinctOps(CreatedRows(blocks, AddressOf))
    requires Independent(blocks, Unspent(states[0].utxo))
    ensures Matches(states[0].utxo, CreatedRows(blocks, AddressOf), AllIns(blocks), states[|blocks|].utxo)
  {
    if |blocks| > 0 {
      var n := |blocks| - 1;
      var init, b, before, after := blocks[..n], blocks[n], states[n], states[n + 1];
      var t0, us := states[0].utxo, CreatedRows(init, AddressOf);
      RunPrefix(states, blocks, watched);
      assert BlockIndexed(before, b, watched[n], after);
      var p := Parse(b, Visible(before.utxo), watched[n], AddressOf);
      var height, hash :| BlockCommitted(before, p, height, hash, after);
      CreatedIndependent(b, b.txs, Visible(before.utxo), map[], watched[n], {}, AddressOf);
      assert CreatedRows(blocks, AddressOf) == us + p.created;
      ConcatDistinct(us, p.created);
      SequentialMatches(states[..n + 1], init, watched[..n]);
      BulkParsedOps(init, map[], {}, AddressOf);
      ParsedOps(b, b.txs, Visible(before.utxo), watched[n], AddressOf);
      BlockEffect(before, b, Visible(before.utxo), watched[n], height, hash, after);
      assert Visible(before.utxo).Keys == Unspent(before.utxo);
      assert NextBlock(t0, us, AllIns(init), before, p, Ins(b.txs), after);
      MatchesStep(t0, us, AllIns(init), before, p, Ins(b.txs), after);
    }
  }

  /** The bulk transaction, committed once or more often, also matches. */
  lemma {:induction false} RepeatedMatches(n: nat, before: DbState, p: Parsed, ins: set<OutPoint>, height: int, hash: string, after: DbState)
    requires n > 0 && CommittedTimes(n, before, p, height, hash, after)
    requires DistinctOps(p.created) && AllConfirmed(p.created) && OpsOf(p.spent) == ins * Unspent(before.utxo)
    ensures Matches(before.utxo, p.created, ins, after.utxo)
  {
    var mid :| CommittedTimes(n - 1, before, p, height, hash, mid) && BlockCommitted(mid, p, height, hash, after);
    assert n > 1 || mid == before;
    hide CommittedTimes, BlockCommitted, AllConfirmed, Matches, DistinctOps, MarkChunks;
    if n > 1 { RepeatedMatches(n - 1, before, p, ins, height, hash, mid); }
    MatchesAgain(n, before, p, ins, height, hash, mid, after);
  }

  lemma MatchesAgain(n: nat, before: DbState, p: Parsed, ins: set<OutPoint>, height: int, hash: string, mid: DbState, after: DbState)
    requires BlockCommitted(mid, p, height, hash, after) && DistinctOps(p.created) && AllConfirmed(p.created)
    requires OpsOf(p.spent) == ins * Unspent(before.utxo)
    requires if n > 1 then Matches(before.utxo, p.created, ins, mid.utxo) else mid == before
    ensures Matches(before.utxo, p.created, ins, after.utxo)
  {
    CommitUnspent(mid, p, height, hash, after);
    assert after.utxo.Keys == before.utxo.Keys + OpsOf(p.created);
    hide BlockCommitted, AllConfirmed, AsBefore, AsUpserted, DistinctOps, OpsOf, Unspent;
    forall o | o in before.utxo && !HasOp(p.created, o) ensures AsBefore(before.utxo, ins, after.utxo, o) {
      RepeatedOld(n, before, p, ins, height, hash, mid, after, o);
    }
    forall i | 0 <= i < |p.created| ensures AsUpserted(before.utxo, ins, after.utxo, p.created[i]) {
      RepeatedNew(n, before, p, ins, height, hash, mid, after, p.created[i]);
    }
  }

  lemma RepeatedOld(n: nat, before: DbState, p: Parsed, ins: set<OutPoint>, height: int, hash: string, mid: DbState, after: DbState, o: OutPoint)
    requires BlockCommitted(mid, p, height, hash, after) && DistinctOps(p.created) && OpsOf(p.spent) == ins * Unspent(before.utxo)
    requires if n > 1 then Matches(before.utxo, p.created, ins, mid.utxo) else mid == before
    requires o in before.utxo && !HasOp(p.created, o)
    ensures AsBefore(before.utxo, ins, after.utxo, o)
  {
    if n > 1 { assert AsBefore(before.utxo, ins, mid.utxo, o); }
    CommitRow(mid, p, height, hash, after, o);
    hide BlockCommitted, Matches, HasOp, DistinctOps;
    if n > 1 {
      SpendIfCore(mid.utxo[o], SpendIf(before.utxo[o], o in OpsOf(p.spent)), o in OpsOf(p.spent));
    }
  }

  lemma RepeatedNew(n: nat, before: DbState, p: Parsed, ins: set<OutPoint>, height: int, hash: string, mid: DbState, after: DbState, u: Utxo)
    requires BlockCommitted(mid, p, height, hash, after) && DistinctOps(p.created) && OpsOf(p.spent) == ins * Unspent(before.utxo)
    requires if n > 1 then Matches(before.utxo, p.created, ins, mid.utxo) else mid == before
    requires u in p.created
    ensures AsUpserted(before.utxo, ins, after.utxo, u)
  {
    var i :| 0 <= i < |p.created| && p.created[i] == u;
    assert HasOp(p.created, u.op);
    if n > 1 { assert AsUpserted(before.utxo, ins, mid.utxo, p.created[i]); }
    CommitRow(mid, p, height, hash, after, u.op);
    hide BlockCommitted, Matches, HasOp, DistinctOps;
    if n > 1 {
      var m, c := Merged(before.utxo, u), u.op in OpsOf(p.spent);
      AgainMerged(mid.utxo, m, c, u);
      SpendIfCore(Merged(mid.utxo, u), m, c);
    }
  }

  /** Upserting again a row that was upserted before, spent or not. */
  lemma AgainMerged(t: Table, m: Row, c: bool, u: Utxo)
    requires u.op in t && CoreRow(t[u.op]) == CoreRow(SpendIf(m, c))
    requires m.status == u.row.status && m.blockHeight == u.row.blockHeight && m.blockHash == u.row.blockHash
    ensures CoreRow(Merged(t, u)) == CoreRow(m)
  {
    SameFixedCore(t[u.op], SpendIf(m, c));
    assert Fixed(SpendIf(m, c)) == Fixed(m);
    assert CoreRow(Merged(t, u)).(status := Confirmed, blockHeight := None, blockHash := None) == CoreRow(Fixed(t[u.op]));
    assert CoreRow(m).(status := Confirmed, blockHeight := None, blockHash := None) == CoreRow(Fixed(m));
  }

  lemma SameOpsButAddress(us: seq<Utxo>, vs: seq<Utxo>)
    requires |us| == |vs| && forall i :: 0 <= i < |us| ==> DifferInAddress(us[i], vs[i])
    ensures OpsOf(us) == OpsOf(vs)
  {
    forall o ensures o in OpsOf(us) <==> o in OpsOf(vs) {
      if o in OpsOf(us) { var i :| 0 <= i < |us| && us[i].op == o; assert vs[i].op == o; }
      if o in OpsOf(vs) { var i :| 0 <= i < |vs| && vs[i].op == o; assert us[i].op == o; }
    }
  }

  lemma UpsertedAlike(t0: Table, u: Utxo, v: Utxo, ins: set<OutPoint>, a: Table, b: Table)
    requires DifferInAddress(u, v) && AsUpserted(t0, ins, a, u) && AsUpserted(t0, ins, b, v)
    ensures u.op in a && u.op in b && CoreRow(a[u.op]) == CoreRow(b[u.op])
  {
    assert CoreRow(Merged(t0, u)) == CoreRow(Merged(t0, v));
    SpendIfCore(Merged(t0, u), Merged(t0, v), u.op in ins && u.op in Unspent(t0));
  }

  lemma MatchesDetermines(t0: Table, us: seq<Utxo>, vs: seq<Utxo>, ins: set<OutPoint>, a: Table, b: Table)
    requires Matches(t0, us, ins, a) && Matches(t0, vs, ins, b)
    requires |us| == |vs| && forall i :: 0 <= i < |us| ==> DifferInAddress(us[i], vs[i])
    ensures Core(a) == Core(b)
  {
    SameOpsButAddress(us, vs);
    assert a.Keys == b.Keys;
    forall o | o in a ensures CoreRow(a[o]) == CoreRow(b[o]) {
      assert HasOp(us, o) <==> o in OpsOf(us);
      assert HasOp(vs, o) <==> o in OpsOf(vs);
      if HasOp(us, o) {
        var i :| 0 <= i < |us| && us[i].op == o;
        assert AsUpserted(t0, ins, a, us[i]) && AsUpserted(t0, ins, b, vs[i]);
        UpsertedAlike(t0, us[i], vs[i], ins, a, b);
      } else {
        assert o in t0;
        assert AsBefore(t0, ins, a, o) && AsBefore(t0, ins, b, o);
      }
    }
  }

  /** Bulk refines block by block: over a range in which no block depends on an earlier one, the
      one big transaction leaves the same rows, with the same script, value, status, height,
      hash and first-seen time, as indexing the blocks one at a time. */
  lemma BulkRefinesBlockByBlock(states: seq<DbState>, blocks: seq<Block>, watched: seq<set<string>>,
                                n: nat, w: set<string>, height: int, hash: string, bulk: DbState)
    requires SequentialRun(states, blocks, watched) && DistinctOps(CreatedRows(blocks, AddressOf))
    requires n > 0
    requires CommittedTimes(n, states[0], BulkParse(blocks, Visible(states[0].utxo), w, BulkAddressOf), height, hash, bulk)
    requires Independent(blocks, Unspent(states[0].utxo))
    ensures Core(bulk.utxo) == Core(states[|blocks|].utxo)
  {
    var t0 := states[0].utxo;
    var p := BulkParse(blocks, Visible(t0), w, BulkAddressOf);
    BulkParsedOps(blocks, Visible(t0), w, BulkAddressOf);
    BulkCreated(blocks, Visible(t0), w, BulkAddressOf);
    SameButAddress(blocks);
    assert DistinctOps(p.created) by {
      forall i, j | 0 <= i < j < |p.created| ensures p.created[i].op != p.created[j].op {
        assert DifferInAddress(CreatedRows(blocks, AddressOf)[i], p.created[i]);
        assert DifferInAddress(CreatedRows(blocks, AddressOf)[j], p.created[j]);
      }
    }
    assert Visible(t0).Keys == Unspent(t0);
    SequentialMatches(states, blocks, watched);
    RepeatedMatches(n, states[0], p, AllIns(blocks), height, hash, bulk);
    MatchesDetermines(t0, CreatedRows(blocks, AddressOf), p.created, AllIns(blocks), states[|blocks|].utxo, bulk.utxo);
  }

  /** Each block creates outputs that no earlier block of the range created. */
  ghost predicate FreshOuts(blocks: seq<Block>) {
    |blocks| == 0 || (FreshOuts(blocks[..|blocks| - 1]) && AllOuts(blocks[..|blocks| - 1]) !! Outs(blocks[|blocks| - 1].txs))
  }

  lemma {:induction false} DistinctIsFresh(blocks: seq<Block>)
    requires DistinctOps(CreatedRows(blocks, AddressOf))
    ensures FreshOuts(blocks)
  {
    if |blocks| > 0 {
      var init, b := blocks[..|blocks| - 1], blocks[|blocks| - 1];
      ConcatDistinct(CreatedRows(init, AddressOf), Parse(b, map[], {}, AddressOf).created);
      BulkParsedOps(init, map[], {}, AddressOf);
      ParsedOps(b, b.txs, map[], {}, AddressOf);
      DistinctIsFresh(init);
    }
  }

  lemma RunStep(states: seq<DbState>, blocks: seq<Block>, watched: seq<set<string>>, m: nat)
    requires SequentialRun(states, blocks, watched) && m < |blocks|
    ensures Unspent(states[m + 1].utxo)
         == (Unspent(states[m].utxo) + Outs(blocks[m].txs)) - (Ins(blocks[m].txs) * Unspent(states[m].utxo))
  {
    var before, b, after := states[m], blocks[m], states[m + 1];
    assert BlockIndexed(before, b, watched[m], after);
    var height, hash :| BlockCommitted(before, Parse(b, Visible(before.utxo), watched[m], AddressOf), height, hash, after);
    BlockEffect(before, b, Visible(before.utxo), watched[m], height, hash, after);
    assert Visible(before.utxo).Keys == Unspent(before.utxo);
  }

  /** Some block of the range spends o after an earlier block of the range created it. */
  ghost predicate SpendsForward(blocks: seq<Block>, o: OutPoint) {
    |blocks| > 0 &&
    (SpendsForward(blocks[..|blocks| - 1], o) || (o in AllOuts(blocks[..|blocks| - 1]) && o in Ins(blocks[|blocks| - 1].txs)))
  }

  lemma {:induction false} ForwardSpendEndsSpent(states: seq<DbState>, blocks: seq<Block>, watched: seq<set<string>>, o: OutPoint)
    requires SequentialRun(states, blocks, watched) && FreshOuts(blocks) && SpendsForward(blocks, o)
    ensures o in AllOuts(blocks) && o !in Unspent(states[|blocks|].utxo)
  {
    var n := |blocks| - 1;
    RunStep(states, blocks, watched, n);
    RunPrefix(states, blocks, watched);
    if SpendsForward(blocks[..n], o) {
      ForwardSpendEndsSpent(states[..n + 1], blocks[..n], watched[..n], o);
    }
  }

  /** No block of the range spends an output of an earlier block of the range. */
  ghost predicate NoForwardSpend(blocks: seq<Block>) {
    forall o :: !SpendsForward(blocks, o)
  }

  lemma {:induction false} IndependentHasNoForwardSpend(blocks: seq<Block>, u: set<OutPoint>)
    requires Independent(blocks, u)
    ensures NoForwardSpend(blocks)
  {
    if |blocks| > 0 {
      IndependentHasNoForwardSpend(blocks[..|blocks| - 1], u);
      forall o ensures !SpendsForward(blocks, o) {
        assert !SpendsForward(blocks[..|blocks| - 1], o);
      }
    }
  }

  lemma {:induction false} DependentHasForwardSpend(blocks: seq<Block>, u: set<OutPoint>) returns (o: OutPoint)
    requires !Independent(blocks, u) && AllOuts(blocks) !! u
    ensures SpendsForward(blocks, o) && !NoForwardSpend(blocks)
  {
    var init, b := blocks[..|blocks| - 1], blocks[|blocks| - 1];
    if !Independent(init, u) {
      o := DependentHasForwardSpend(init, u);
    } else {
      assert Outs(b.txs) <= AllOuts(blocks);
      assert (AllIns(init) * u) !! Outs(b.txs);
      EmptyMeetIff(Ins(b.txs), AllOuts(init));
      o :| o in Ins(b.txs) * AllOuts(init);
      assert o in Ins(b.txs) && o in AllOuts(init);
      assert SpendsForward(blocks, o);
    }
    OneForwardSpend(blocks, o);
  }

  lemma OneForwardSpend(blocks: seq<Block>, o: OutPoint)
    requires SpendsForward(blocks, o)
    ensures !NoForwardSpend(blocks)
  {}

  /** When the outputs of the range are new to the table, the two ways of indexing agree if and
      only if no block of the range spends an output of an earlier block of the range. */
  lemma BulkRefinesBlockByBlockIff(states: seq<DbState>, blocks: seq<Block>, watched: seq<set<string>>,
                                   n: nat, w: set<string>, height: int, hash: string, bulk: DbState)
    requires SequentialRun(states, blocks, watched) && DistinctOps(CreatedRows(blocks, AddressOf))
    requires AllOuts(blocks) !! states[0].utxo.Keys
    requires n > 0
    requires CommittedTimes(n, states[0], BulkParse(blocks, Visible(states[0].utxo), w, BulkAddressOf), height, hash, bulk)
    ensures Core(bulk.utxo) == Core(states[|blocks|].utxo) <==> NoForwardSpend(blocks)
  {
    hide CommittedTimes, BulkParse, CreatedRows, NoForwardSpend, Independent, Core, AllOuts, DistinctOps, BlockIndexed;
    var u := Unspent(states[0].utxo);
    assert u <= states[0].utxo.Keys;
    if Independent(blocks, u) {
      IndependentHasNoForwardSpend(blocks, u);
      BulkRefinesBlockByBlock(states, blocks, watched, n, w, height, hash, bulk);
    } else {
      var o := DependentHasForwardSpend(blocks, u);
      ForwardSpendSeparates(states, blocks, watched, n, w, height, hash, bulk, o);
    }
  }

  lemma ForwardSpendSeparates(states: seq<DbState>, blocks: seq<Block>, watched: seq<set<string>>,
                              n: nat, w: set<string>, height: int, hash: string, bulk: DbState, o: OutPoint)
    requires SequentialRun(states, blocks, watched) && DistinctOps(CreatedRows(blocks, AddressOf))
    requires AllOuts(blocks) !! states[0].utxo.Keys
    requires n > 0
    requires CommittedTimes(n, states[0], BulkParse(blocks, Visible(states[0].utxo), w, BulkAddressOf), height, hash, bulk)
    requires SpendsForward(blocks, o)
    ensures Core(bulk.utxo) != Core(states[|blocks|].utxo)
  {
    DistinctIsFresh(blocks);
    ForwardSpendEndsSpent(states, blocks, watched, o);
    BulkUnspent(n, states[0], blocks, w, height, hash, bulk);
    CoreKeepsStatus(bulk.utxo, states[|blocks|].utxo, o);
  }

  lemma CoreKeepsStatus(a: Table, b: Table, o: OutPoint)
    ensures Core(a) == Core(b) ==> (o in Unspent(a) <==> o in Unspent(b))
  {
    assert o in a <==> o in Core(a);
    assert o in b <==> o in Core(b);
    if o in a && o in b { assert Core(a)[o].status == a[o].status && Core(b)[o].status == b[o].status; }
  }
}
