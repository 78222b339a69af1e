/** What one RPC worker and one DB worker do with one block, and how results are counted. */
module Workers {
  import opened Prelude
  import opened Models
  import opened UtxoTable
  import opened Database
  import opened Parser

  datatype WorkItem = WorkItem(height: int, hash: string, parsed: Parsed)
  datatype WorkResult = WorkResult(height: int, success: bool)

  const SCRIPT_UPDATE_INTERVAL := 300

  const QUEUE_TIMEOUT := Error(false)

  class RPCWorker {
    var watchedScripts: map<string, WatchedScript>
    var lastScriptUpdate: int
    var blocksProcessed: nat

    /** No code path of a worker ever adds a script to its map. */
    ghost predicate Valid() reads this { watchedScripts == map[] }

    constructor ()
      ensures Valid() && blocksProcessed == 0
    {
      watchedScripts, lastScriptUpdate, blocksProcessed := map[], 0, 0;
    }

    /** Only the time of the update is recorded. */
    method UpdateWatchedScripts(now: int)
      modifies `lastScriptUpdate
      ensures lastScriptUpdate == now
    {
      lastScriptUpdate := now;
    }

    /** One height: the node's answers, the lookup, and whether the queue took the item in time. */
    method ProcessBlock(db: DB, height: int, now: int, hash: Result<string>, block: Result<Block>,
                        fault: Option<Error>, queued: bool) returns (r: Result<WorkItem>)
      requires Valid()
      modifies this
      ensures Valid()
      ensures r.Success? <==>
        hash.Success? && block.Success? && queued && (fault.None? || forall o :: !SpentBy(block.value.txs, o))
      ensures r.Success? ==> r.value == WorkItem(height, hash.value, Parse(block.value, Visible(db.state.utxo), {}, AddressOf))
      ensures blocksProcessed == old(blocksProcessed) + if r.Success? then 1 else 0
      ensures lastScriptUpdate == if now - old(lastScriptUpdate) > 5 * 60 then now else old(lastScriptUpdate)
    {
      if now - lastScriptUpdate > SCRIPT_UPDATE_INTERVAL { UpdateWatchedScripts(now); }
      if hash.Failure? { return Failure(hash.error); }
      if block.Failure? { return Failure(block.error); }
      var parsed := ParseBlockWithCache(db, block.value, watchedScripts, fault);
      if parsed.Failure? { return Failure(parsed.error); }
      assert watchedScripts.Keys == {};
      if !queued { return Failure(QUEUE_TIMEOUT); }
      blocksProcessed := blocksProcessed + 1;
      r := Success(WorkItem(height, hash.value, parsed.value));
    }
  }

  class DBWorker {
    var blocksProcessed: nat

    constructor ()
      ensures blocksProcessed == 0
    {
      blocksProcessed := 0;
    }

    /** One work item: the result says whether the commit was acknowledged, which is not quite
        whether it took effect. */
    method ProcessWorkItem(db: DB, item: WorkItem, f: TxFaults) returns (result: WorkResult)
      modifies `blocksProcessed, db`state
      ensures result == WorkResult(item.height, result.success) && (result.success <==> GoesThrough(f, item.parsed))
      ensures result.success ==> BlockCommitted(old(db.state), item.parsed, item.height, item.hash, db.state)
      ensures db.state == old(db.state) || BlockCommitted(old(db.state), item.parsed, item.height, item.hash, db.state)
      ensures blocksProcessed == old(blocksProcessed) + 1
    {
      var r := db.CommitBlock(item.parsed, item.height, item.hash, f);
      blocksProcessed := blocksProcessed + 1;
      result := WorkResult(item.height, r.Success?);
    }
  }

  function IsFailure(): WorkResult -> bool { (r: WorkResult) => !r.success }

  /** The result loop of ProcessBlocks, over the results it receives before the channel closes. */
  method CollectResults(received: seq<WorkResult>) returns (processed: nat, failed: nat, ok: bool)
    ensures processed == |received| && failed == Count(IsFailure(), received)
    ensures ok <==> forall i :: 0 <= i < |received| ==> received[i].success
  {
    processed, failed := 0, 0;
    for i := 0 to |received|
      invariant processed == i && failed == Count(IsFailure(), received[..i])
      invariant failed == 0 <==> forall k :: 0 <= k < i ==> received[k].success
    {
      processed := processed + 1;
      if !received[i].success { failed := failed + 1; }
      assert received[..i + 1] == received[..i] + [received[i]];
      CountSnoc(IsFailure(), received[..i], received[i]);
    }
    assert received[..|received|] == received;
    ok := failed == 0;
  }
}
