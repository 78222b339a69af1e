/** The backfill pipeline: a dispatcher, RPC workers, DB workers and two consumers of results,
    joined by channels. One step of any of them at a time, in any order, before Stop. */
module WorkerPool {
  import opened Prelude
  import opened Models
  import opened Statements
  import opened UtxoTable
  import opened Batching
  import opened Database
  import opened Parser
  import opened Commits
  import opened Workers
  import Ledger
  import Sorting
  import Backfill

  /** What an RPC worker is doing: waiting, fetching a block, or offering a work item. */
  datatype RpcJob = Idle | Fetching(height: int) | Offering(item: WorkItem)

  /** What a DB worker is doing: waiting, writing a block, or offering a result. */
  datatype DbJob = Free | Writing(item: WorkItem) | Reporting(result: WorkResult)

  /** One call of ProcessBlocks: the heights, the queue size, and the chain the node serves. */
  datatype Config = Config(start: int, end: int, queueSize: nat, chain: int -> Block)

  /** The channels, the workers, the consumers' books and the database. `zeros` counts the
      heights read from the closed channel; `items` is the lookup made for each block;
      `lookups` and `commits` count them by height. */
  datatype Pool = Pool(next: int, closed: bool, heights: seq<int>, rpc: seq<RpcJob>, dropped: seq<int>,
                       queue: seq<WorkItem>, db: seq<DbJob>, results: seq<WorkResult>, lost: seq<WorkResult>,
                       inBlocks: seq<WorkResult>, inResults: seq<WorkResult>, processed: nat, failed: nat, zeros: nat,
                       data: DbState, items: map<nat, Parsed>, lookups: multiset<int>, commits: multiset<int>)

  datatype Event =
    | Dispatch | CloseHeights
    | RpcTake(w: nat) | RpcFail(w: nat) | RpcLookup(w: nat, hash: string) | RpcSend(w: nat) | RpcTimeout(w: nat)
    | DbTake(w: nat) | DbCommit(w: nat, reported: bool) | DbFail(w: nat) | DbSend(w: nat) | DbTimeout(w: nat)
    | CountInBlocks | CountInResults

  predicate InRange(cfg: Config, h: int) { cfg.start <= h <= cfg.end }

  // ----- the steps

  predicate Enabled(cfg: Config, s: Pool, e: Event) {
    match e
    case Dispatch => s.next <= cfg.end && !s.closed && |s.heights| < cfg.queueSize
    case CloseHeights => s.next > cfg.end && !s.closed
    case RpcTake(w) => w < |s.rpc| && s.rpc[w].Idle? && (|s.heights| > 0 || s.closed)
    case RpcFail(w) => w < |s.rpc| && s.rpc[w].Fetching?
    case RpcLookup(w, hash) => w < |s.rpc| && s.rpc[w].Fetching?
    case RpcSend(w) => w < |s.rpc| && s.rpc[w].Offering? && |s.queue| < cfg.queueSize
    case RpcTimeout(w) => w < |s.rpc| && s.rpc[w].Offering?
    case DbTake(w) => w < |s.db| && s.db[w].Free? && |s.queue| > 0
    case DbCommit(w, _) => w < |s.db| && s.db[w].Writing?
    case DbFail(w) => w < |s.db| && s.db[w].Writing?
    case DbSend(w) => w < |s.db| && s.db[w].Reporting? && |s.results| < cfg.queueSize
    case DbTimeout(w) => w < |s.db| && s.db[w].Reporting?
    case CountInBlocks => |s.results| > 0
    case CountInResults => |s.results| > 0
  }

  /** The height an RPC worker receives: a closed, drained channel yields zeros. */
  function Received(s: Pool): int { if |s.heights| > 0 then s.heights[0] else 0 }

  function ItemFor(cfg: Config, s: Pool, h: int, hash: string): WorkItem {
    WorkItem(h, hash, Parse(cfg.chain(h), Visible(s.data.utxo), {}, AddressOf))
  }

  predicate OfRpc(e: Event) {
    e.Dispatch? || e.CloseHeights? || e.RpcTake? || e.RpcFail? || e.RpcLookup? || e.RpcSend? || e.RpcTimeout?
  }

  predicate OfCount(e: Event) { e.CountInBlocks? || e.CountInResults? }

  /** The dispatcher and the RPC workers. */
  function NextRpc(cfg: Config, s: Pool, e: Event): Pool
    requires Enabled(cfg, s, e) && OfRpc(e)
  {
    match e
    case Dispatch => s.(heights := s.heights + [s.next], next := s.next + 1)
    case CloseHeights => s.(closed := true)
    case RpcTake(w) =>
      if |s.heights| > 0 then s.(heights := s.heights[1..], rpc := s.rpc[w := Fetching(Received(s))])
      else s.(zeros := s.zeros + 1, rpc := s.rpc[w := Fetching(Received(s))])
    case RpcFail(w) => s.(rpc := s.rpc[w := Idle], dropped := s.dropped + [s.rpc[w].height])
    case RpcLookup(w, hash) => LookedUp(cfg, s, w, ItemFor(cfg, s, s.rpc[w].height, hash))
    case RpcSend(w) => s.(rpc := s.rpc[w := Idle], queue := s.queue + [s.rpc[w].item])
    case RpcTimeout(w) => s.(rpc := s.rpc[w := Idle], dropped := s.dropped + [s.rpc[w].item.height])
  }

  function LookedUp(cfg: Config, s: Pool, w: nat, item: WorkItem): Pool
    requires w < |s.rpc|
  {
    s.(rpc := s.rpc[w := Offering(item)], lookups := s.lookups + multiset{item.height},
       items := if InRange(cfg, item.height) then s.items[item.height - cfg.start := item.parsed] else s.items)
  }

  /** The DB workers. */
  function NextDb(cfg: Config, s: Pool, e: Event): Pool
    requires Enabled(cfg, s, e) && !OfRpc(e) && !OfCount(e)
  {
    match e
    case DbTake(w) => s.(queue := s.queue[1..], db := s.db[w := Writing(s.queue[0])])
    case DbCommit(w, reported) =>
      var h := s.db[w].item.height;
      s.(db := s.db[w := Reporting(WorkResult(h, reported))], commits := s.commits + multiset{h})
    case DbFail(w) => s.(db := s.db[w := Reporting(WorkResult(s.db[w].item.height, false))])
    case DbSend(w) => s.(db := s.db[w := Free], results := s.results + [s.db[w].result])
    case DbTimeout(w) => s.(db := s.db[w := Free], lost := s.lost + [s.db[w].result])
  }

  /** The two consumers of results. */
  function NextCount(cfg: Config, s: Pool, e: Event): Pool
    requires Enabled(cfg, s, e) && OfCount(e)
  {
    match e
    case CountInBlocks =>
      s.(results := s.results[1..], inBlocks := s.inBlocks + [s.results[0]], processed := s.processed + 1,
         failed := if s.results[0].success then s.failed else s.failed + 1)
    case CountInResults => s.(results := s.results[1..], inResults := s.inResults + [s.results[0]])
  }

  function Next(cfg: Config, s: Pool, e: Event): Pool
    requires Enabled(cfg, s, e)
  {
    if OfRpc(e) then NextRpc(cfg, s, e) else if OfCount(e) then NextCount(cfg, s, e) else NextDb(cfg, s, e)
  }

  /** Only a commit changes the database; whether the worker is told so is another matter. */
  ghost predicate Step(cfg: Config, s: Pool, e: Event, s': Pool) {
    && Enabled(cfg, s, e)
    && s' == Next(cfg, s, e).(data := s'.data)
    && if e.DbCommit?
       then BlockCommitted(s.data, s.db[e.w].item.parsed, s.db[e.w].item.height, s.db[e.w].item.hash, s'.data)
       else s'.data == s.data
  }

  predicate Initial(cfg: Config, s: Pool) {
    && s.next == cfg.start && !s.closed && s.heights == [] && s.dropped == [] && s.queue == []
    && s.results == [] && s.lost == [] && s.inBlocks == [] && s.inResults == []
    && s.processed == 0 && s.failed == 0 && s.zeros == 0
    && s.items == map[] && s.lookups == multiset{} && s.commits == multiset{}
    && (forall w :: 0 <= w < |s.rpc| ==> s.rpc[w] == Idle)
    && (forall w :: 0 <= w < |s.db| ==> s.db[w] == Free)
  }

  ghost predicate Run(cfg: Config, states: seq<Pool>, events: seq<Event>) {
    && |states| == |events| + 1 && Initial(cfg, states[0])
    && forall n :: 0 <= n < |events| ==> Step(cfg, states[n], events[n], states[n + 1])
  }

  /** What the dispatcher and the RPC workers leave alone. */
  lemma RpcFrame(cfg: Config, s: Pool, e: Event)
    requires Enabled(cfg, s, e) && OfRpc(e)
    ensures var s' := NextRpc(cfg, s, e);
            && s'.results == s.results && s'.inBlocks == s.inBlocks && s'.inResults == s.inResults && s'.commits == s.commits
            && s'.processed == s.processed && s'.failed == s.failed
            && s'.next == s.next + (if e.Dispatch? then 1 else 0)
            && (!e.RpcLookup? ==> s'.items == s.items && s'.lookups == s.lookups)
  {
    hide ItemFor;
  }

  // ----- counting

  function Is(h: int): int -> bool { x => x == h }
  function IsFetching(h: int): RpcJob -> bool { (j: RpcJob) => j.Fetching? && j.height == h }
  function IsOffering(h: int): RpcJob -> bool { (j: RpcJob) => j.Offering? && j.item.height == h }
  function ItemAt(h: int): WorkItem -> bool { (i: WorkItem) => i.height == h }
  function IsWriting(h: int): DbJob -> bool { (j: DbJob) => j.Writing? && j.item.height == h }
  function IsReporting(h: int): DbJob -> bool { (j: DbJob) => j.Reporting? && j.result.height == h }
  function ResultAt(h: int): WorkResult -> bool { (r: WorkResult) => r.height == h }
  function ReportingSuccess(h: int): DbJob -> bool { (j: DbJob) => j.Reporting? && j.result == WorkResult(h, true) }
  function SuccessAt(h: int): WorkResult -> bool { (r: WorkResult) => r == WorkResult(h, true) }

  /** Height h before its block is looked up: pending, in the height channel, being fetched. */
  function Early(cfg: Config, s: Pool, h: int): nat {
    (if s.next <= h <= cfg.end then 1 else 0) + Count(Is(h), s.heights) + Count(IsFetching(h), s.rpc)
  }

  /** Offered, dropped with an error, in the work queue, being written. */
  function Middle(s: Pool, h: int): nat {
    Count(IsOffering(h), s.rpc) + Count(Is(h), s.dropped) + Count(ItemAt(h), s.queue) + Count(IsWriting(h), s.db)
  }

  /** Written, successfully or not: result offered, in the result channel, dropped, or counted
      by one of the two consumers. */
  function Finished(s: Pool, h: int): nat {
    Count(IsReporting(h), s.db) + Count(ResultAt(h), s.results) + Count(ResultAt(h), s.lost)
    + Count(ResultAt(h), s.inBlocks) + Count(ResultAt(h), s.inResults)
  }

  function Successes(s: Pool, h: int): nat {
    Count(ReportingSuccess(h), s.db) + Count(SuccessAt(h), s.results) + Count(SuccessAt(h), s.lost)
    + Count(SuccessAt(h), s.inBlocks) + Count(SuccessAt(h), s.inResults)
  }

  /** Each height of the range once, and as many zeros as were read from the closed channel. */
  function Expected(cfg: Config, zeros: nat, h: int): nat {
    (if InRange(cfg, h) then 1 else 0) + (if h == 0 then zeros else 0)
  }

  ghost predicate Conserved(cfg: Config, s: Pool, h: int) {
    && Early(cfg, s, h) + Middle(s, h) + Finished(s, h) == Expected(cfg, s.zeros, h)
    && s.lookups[h] <= Middle(s, h) + Finished(s, h)
    && Successes(s, h) <= s.commits[h] <= Finished(s, h)
  }

  ghost predicate Dispatching(cfg: Config, s: Pool) {
    cfg.start <= s.next && (s.next <= cfg.end + 1 || s.next == cfg.start)
  }

  lemma SameEarly(cfg: Config, s: Pool, s': Pool, h: int)
    requires s'.next == s.next && s'.heights == s.heights && s'.rpc == s.rpc
    ensures Early(cfg, s', h) == Early(cfg, s, h)
  {}

  lemma SameMiddle(s: Pool, s': Pool, h: int)
    requires s'.rpc == s.rpc && s'.dropped == s.dropped && s'.queue == s.queue && s'.db == s.db
    ensures Middle(s', h) == Middle(s, h)
  {}

  lemma SameFinished(s: Pool, s': Pool, h: int)
    requires s'.db == s.db && s'.results == s.results && s'.lost == s.lost && s'.inBlocks == s.inBlocks && s'.inResults == s.inResults
    ensures Finished(s', h) == Finished(s, h) && Successes(s', h) == Successes(s, h)
  {}

  /** Conservation, height by height, is kept by every step. The cases are grouped by the
      stages they touch. */
  lemma DispatchConserves(cfg: Config, s: Pool, e: Event, s': Pool, h: int)
    requires Step(cfg, s, e, s') && Conserved(cfg, s, h) && Dispatching(cfg, s)
    requires e.Dispatch? || e.CloseHeights?
    ensures Conserved(cfg, s', h)
  {
    hide Count, NextDb, NextCount, LookedUp, ItemFor, Finished, Successes;
    SameFinished(s, s', h);
    if e.Dispatch? { CountSnoc(Is(h), s.heights, s.next); }
  }

  lemma FetchStepConserves(cfg: Config, s: Pool, e: Event, s': Pool, h: int)
    requires Step(cfg, s, e, s') && Conserved(cfg, s, h)
    requires e.RpcTake? || e.RpcFail?
    ensures Conserved(cfg, s', h)
  {
    hide Count, NextDb, NextCount, LookedUp, ItemFor, Finished, Successes;
    SameFinished(s, s', h);
    CountUpdate(IsFetching(h), s.rpc, e.w, s'.rpc[e.w]);
    CountUpdate(IsOffering(h), s.rpc, e.w, s'.rpc[e.w]);
    if e.RpcFail? {
      CountSnoc(Is(h), s.dropped, s.rpc[e.w].height);
    } else if |s.heights| > 0 {
      CountTail(Is(h), s.heights);
    }
  }

  lemma LookupStepConserves(cfg: Config, s: Pool, e: Event, s': Pool, h: int)
    requires Step(cfg, s, e, s') && Conserved(cfg, s, h) && e.RpcLookup?
    ensures Conserved(cfg, s', h)
  {
    hide Count, NextDb, NextCount, Parse, Finished, Successes;
    SameFinished(s, s', h);
    CountUpdate(IsFetching(h), s.rpc, e.w, s'.rpc[e.w]);
    CountUpdate(IsOffering(h), s.rpc, e.w, s'.rpc[e.w]);
  }

  lemma OfferStepConserves(cfg: Config, s: Pool, e: Event, s': Pool, h: int)
    requires Step(cfg, s, e, s') && Conserved(cfg, s, h)
    requires e.RpcSend? || e.RpcTimeout?
    ensures Conserved(cfg, s', h)
  {
    hide Count, NextDb, NextCount, LookedUp, ItemFor, Finished, Successes;
    SameFinished(s, s', h);
    CountUpdate(IsFetching(h), s.rpc, e.w, s'.rpc[e.w]);
    CountUpdate(IsOffering(h), s.rpc, e.w, s'.rpc[e.w]);
    if e.RpcSend? { CountSnoc(ItemAt(h), s.queue, s.rpc[e.w].item); }
    if e.RpcTimeout? { CountSnoc(Is(h), s.dropped, s.rpc[e.w].item.height); }
  }

  lemma TakeStepConserves(cfg: Config, s: Pool, e: Event, s': Pool, h: int)
    requires Step(cfg, s, e, s') && Conserved(cfg, s, h) && e.DbTake?
    ensures Conserved(cfg, s', h)
  {
    hide Count, BlockCommitted, NextRpc, NextCount, Early;
    SameEarly(cfg, s, s', h);
    CountUpdate(IsWriting(h), s.db, e.w, s'.db[e.w]);
    CountUpdate(IsReporting(h), s.db, e.w, s'.db[e.w]);
    CountUpdate(ReportingSuccess(h), s.db, e.w, s'.db[e.w]);
    CountTail(ItemAt(h), s.queue);
  }

  lemma WriteStepConserves(cfg: Config, s: Pool, e: Event, s': Pool, h: int)
    requires Step(cfg, s, e, s') && Conserved(cfg, s, h)
    requires e.DbCommit? || e.DbFail?
    ensures Conserved(cfg, s', h)
  {
    hide Count, BlockCommitted, NextRpc, NextCount, Early;
    SameEarly(cfg, s, s', h);
    CountUpdate(IsWriting(h), s.db, e.w, s'.db[e.w]);
    CountUpdate(IsReporting(h), s.db, e.w, s'.db[e.w]);
    CountUpdate(ReportingSuccess(h), s.db, e.w, s'.db[e.w]);
  }

  lemma ReportStepConserves(cfg: Config, s: Pool, e: Event, s': Pool, h: int)
    requires Step(cfg, s, e, s') && Conserved(cfg, s, h)
    requires e.DbSend? || e.DbTimeout?
    ensures Conserved(cfg, s', h)
  {
    hide Count, NextRpc, NextCount, Early;
    SameEarly(cfg, s, s', h);
    var r := s.db[e.w].result;
    CountUpdate(IsWriting(h), s.db, e.w, Free);
    CountUpdate(IsReporting(h), s.db, e.w, Free);
    CountUpdate(ReportingSuccess(h), s.db, e.w, Free);
    if e.DbSend? {
      CountSnoc(ResultAt(h), s.results, r);
      CountSnoc(SuccessAt(h), s.results, r);
    } else {
      CountSnoc(ResultAt(h), s.lost, r);
      CountSnoc(SuccessAt(h), s.lost, r);
    }
  }

  lemma CountStepConserves(cfg: Config, s: Pool, e: Event, s': Pool, h: int)
    requires Step(cfg, s, e, s') && Conserved(cfg, s, h)
    requires e.CountInBlocks? || e.CountInResults?
    ensures Conserved(cfg, s', h)
  {
    hide Count, NextRpc, NextDb, Early, Middle;
    SameEarly(cfg, s, s', h);
    SameMiddle(s, s', h);
    var r := s.results[0];
    CountTail(ResultAt(h), s.results);
    CountTail(SuccessAt(h), s.results);
    if e.CountInBlocks? {
      CountSnoc(ResultAt(h), s.inBlocks, r);
      CountSnoc(SuccessAt(h), s.inBlocks, r);
    } else {
      CountSnoc(ResultAt(h), s.inResults, r);
      CountSnoc(SuccessAt(h), s.inResults, r);
    }
  }

  // ----- the books of the consumers, and the work items

  predicate Books(s: Pool) {
    s.processed == |s.inBlocks| && s.failed == Count(IsFailure(), s.inBlocks)
  }

  /** The item for a height of the range is the lookup recorded for it; any other item is
      for the block at height 0. */
  ghost predicate Known(cfg: Config, items: map<nat, Parsed>, item: WorkItem) {
    if InRange(cfg, item.height) then item.height - cfg.start in items && items[item.height - cfg.start] == item.parsed
    else OpsOf(item.parsed.created) + OpsOf(item.parsed.spent) <= Outside(cfg)
  }

  /** The outpoints of the block that the zeros fetch. */
  function Outside(cfg: Config): set<OutPoint> { Outs(cfg.chain(0).txs) + Ins(cfg.chain(0).txs) }

  ghost predicate RpcKnown(cfg: Config, items: map<nat, Parsed>, rpc: seq<RpcJob>) {
    forall w :: 0 <= w < |rpc| && rpc[w].Offering? ==> Known(cfg, items, rpc[w].item)
  }

  ghost predicate QueueKnown(cfg: Config, items: map<nat, Parsed>, queue: seq<WorkItem>) {
    forall k :: 0 <= k < |queue| ==> Known(cfg, items, queue[k])
  }

  ghost predicate DbKnown(cfg: Config, items: map<nat, Parsed>, db: seq<DbJob>) {
    forall w :: 0 <= w < |db| && db[w].Writing? ==> Known(cfg, items, db[w].item)
  }

  ghost predicate ItemsCounted(cfg: Config, items: map<nat, Parsed>, lookups: multiset<int>) {
    forall i :: i in items ==> lookups[cfg.start + i] > 0
  }

  ghost predicate ItemsKnown(cfg: Config, s: Pool) {
    && RpcKnown(cfg, s.items, s.rpc) && QueueKnown(cfg, s.items, s.queue) && DbKnown(cfg, s.items, s.db)
    && ItemsCounted(cfg, s.items, s.lookups)
  }

  ghost predicate Inv(cfg: Config, s: Pool) {
    Dispatching(cfg, s) && Books(s) && ItemsKnown(cfg, s) && forall h :: Conserved(cfg, s, h)
  }

  /** A height that is being fetched has not been looked up. */
  lemma FetchingIsNew(cfg: Config, s: Pool, w: nat)
    requires cfg.start > 0 && w < |s.rpc| && s.rpc[w].Fetching? && Conserved(cfg, s, s.rpc[w].height)
    ensures InRange(cfg, s.rpc[w].height) ==> s.lookups[s.rpc[w].height] == 0
    ensures !InRange(cfg, s.rpc[w].height) ==> s.rpc[w].height == 0
  {
    CountSome(IsFetching(s.rpc[w].height), s.rpc, w);
  }

  /** A height that is being written has not been committed. */
  lemma WritingIsNew(cfg: Config, s: Pool, w: nat)
    requires cfg.start > 0 && w < |s.db| && s.db[w].Writing? && Conserved(cfg, s, s.db[w].item.height)
    ensures InRange(cfg, s.db[w].item.height) ==> s.commits[s.db[w].item.height] == 0
  {
    CountSome(IsWriting(s.db[w].item.height), s.db, w);
  }

  lemma KnownStays(cfg: Config, items: map<nat, Parsed>, i: nat, p: Parsed, item: WorkItem)
    requires Known(cfg, items, item) && i !in items
    ensures Known(cfg, items[i := p], item)
  {}

  lemma FreshItemKnown(cfg: Config, s: Pool, h: int, hash: string)
    requires !InRange(cfg, h) ==> h == 0
    ensures var item := ItemFor(cfg, s, h, hash);
            Known(cfg, if InRange(cfg, h) then s.items[h - cfg.start := item.parsed] else s.items, item)
  {
    var b := cfg.chain(h);
    ParsedOps(b, b.txs, Visible(s.data.utxo), {}, AddressOf);
  }

  /** Recording a lookup for a new height leaves every known item known. */
  lemma LookupKeepsOthers(cfg: Config, s: Pool, i: nat, p: Parsed)
    requires ItemsKnown(cfg, s) && i !in s.items
    ensures RpcKnown(cfg, s.items[i := p], s.rpc) && QueueKnown(cfg, s.items[i := p], s.queue) && DbKnown(cfg, s.items[i := p], s.db)
  {
    hide Known;
    forall item | Known(cfg, s.items, item) ensures Known(cfg, s.items[i := p], item) {
      KnownStays(cfg, s.items, i, p, item);
    }
  }

  lemma RpcKnownUpdate(cfg: Config, items: map<nat, Parsed>, rpc: seq<RpcJob>, w: nat, job: RpcJob)
    requires RpcKnown(cfg, items, rpc) && w < |rpc| && (job.Offering? ==> Known(cfg, items, job.item))
    ensures RpcKnown(cfg, items, rpc[w := job])
  {
    hide Known;
  }

  lemma DbKnownUpdate(cfg: Config, items: map<nat, Parsed>, db: seq<DbJob>, w: nat, job: DbJob)
    requires DbKnown(cfg, items, db) && w < |db| && (job.Writing? ==> Known(cfg, items, job.item))
    ensures DbKnown(cfg, items, db[w := job])
  {
    hide Known;
  }

  lemma LookupKeepsItems(cfg: Config, s: Pool, w: nat, hash: string)
    requires ItemsKnown(cfg, s) && w < |s.rpc| && s.rpc[w].Fetching?
    requires if InRange(cfg, s.rpc[w].height) then s.lookups[s.rpc[w].height] == 0 else s.rpc[w].height == 0
    ensures ItemsKnown(cfg, LookedUp(cfg, s, w, ItemFor(cfg, s, s.rpc[w].height, hash)))
  {
    var h := s.rpc[w].height;
    var item := ItemFor(cfg, s, h, hash);
    FreshItemKnown(cfg, s, h, hash);
    assert item.height == h;
    hide Known, ItemFor, RpcKnown, QueueKnown, DbKnown;
    var items := LookedUp(cfg, s, w, item).items;
    if InRange(cfg, h) { LookupKeepsOthers(cfg, s, h - cfg.start, item.parsed); }
    RpcKnownUpdate(cfg, items, s.rpc, w, Offering(item));
  }

  lemma RpcStepKeepsItems(cfg: Config, s: Pool, e: Event)
    requires Enabled(cfg, s, e) && Inv(cfg, s) && cfg.start > 0 && OfRpc(e)
    ensures ItemsKnown(cfg, NextRpc(cfg, s, e))
  {
    hide Known, LookedUp, ItemFor, Books, Dispatching, DbKnown, ItemsCounted;
    if e.RpcLookup? {
      hide RpcKnown, QueueKnown, Conserved;
      FetchingIsNew(cfg, s, e.w);
      LookupKeepsItems(cfg, s, e.w, e.hash);
    } else {
      hide Conserved;
    }
  }

  lemma DbStepKeepsItems(cfg: Config, s: Pool, e: Event)
    requires Enabled(cfg, s, e) && ItemsKnown(cfg, s) && !OfRpc(e) && !OfCount(e)
    ensures ItemsKnown(cfg, NextDb(cfg, s, e))
  {
    hide Known, RpcKnown, ItemsCounted, DbKnown;
    if e.DbTake? {
      DbKnownUpdate(cfg, s.items, s.db, e.w, Writing(s.queue[0]));
    } else {
      DbKnownUpdate(cfg, s.items, s.db, e.w, NextDb(cfg, s, e).db[e.w]);
    }
  }

  lemma StepKeepsItems(cfg: Config, s: Pool, e: Event, s': Pool)
    requires Step(cfg, s, e, s') && Inv(cfg, s) && cfg.start > 0
    ensures ItemsKnown(cfg, s')
  {
    hide RpcKnown, QueueKnown, DbKnown, ItemsCounted, Conserved, BlockCommitted;
    if OfRpc(e) {
      hide NextDb, NextCount, NextRpc;
      RpcStepKeepsItems(cfg, s, e);
    } else if !OfCount(e) {
      hide NextRpc, NextCount, NextDb;
      DbStepKeepsItems(cfg, s, e);
    } else {
      hide NextRpc, NextDb;
    }
  }

  lemma StepConserves(cfg: Config, s: Pool, e: Event, s': Pool, h: int)
    requires Step(cfg, s, e, s') && Conserved(cfg, s, h) && Dispatching(cfg, s)
    ensures Conserved(cfg, s', h)
  {
    hide Conserved, Step, Dispatching;
    if e.Dispatch? || e.CloseHeights? {
      DispatchConserves(cfg, s, e, s', h);
    } else if e.RpcTake? || e.RpcFail? {
      FetchStepConserves(cfg, s, e, s', h);
    } else if e.RpcLookup? {
      LookupStepConserves(cfg, s, e, s', h);
    } else if e.RpcSend? || e.RpcTimeout? {
      OfferStepConserves(cfg, s, e, s', h);
    } else if e.CountInBlocks? || e.CountInResults? {
      CountStepConserves(cfg, s, e, s', h);
    } else if e.DbSend? || e.DbTimeout? {
      ReportStepConserves(cfg, s, e, s', h);
    } else if e.DbTake? {
      TakeStepConserves(cfg, s, e, s', h);
    } else {
      WriteStepConserves(cfg, s, e, s', h);
    }
  }

  lemma StepKeepsBooks(cfg: Config, s: Pool, e: Event, s': Pool)
    requires Step(cfg, s, e, s') && Books(s) && Dispatching(cfg, s)
    ensures Books(s') && Dispatching(cfg, s')
  {
    hide Count, LookedUp, ItemFor, BlockCommitted;
    if OfRpc(e) { RpcFrame(cfg, s, e); hide NextRpc, NextDb, NextCount; } else { hide NextRpc; }
    if e.CountInBlocks? { CountSnoc(IsFailure(), s.inBlocks, s.results[0]); }
  }

  lemma StepKeepsInv(cfg: Config, s: Pool, e: Event, s': Pool)
    requires Step(cfg, s, e, s') && Inv(cfg, s) && cfg.start > 0
    ensures Inv(cfg, s')
  {
    StepKeepsItems(cfg, s, e, s');
    StepKeepsBooks(cfg, s, e, s');
    hide Step, Conserved, Dispatching, Books, ItemsKnown;
    forall h ensures Conserved(cfg, s', h) { StepConserves(cfg, s, e, s', h); }
  }

  lemma InitialInv(cfg: Config, s: Pool)
    requires Initial(cfg, s)
    ensures Inv(cfg, s)
  {
    forall h ensures Conserved(cfg, s, h) {
      CountNone(IsFetching(h), s.rpc);
      CountNone(IsOffering(h), s.rpc);
      CountNone(IsWriting(h), s.db);
      CountNone(IsReporting(h), s.db);
      CountNone(ReportingSuccess(h), s.db);
    }
  }

  lemma {:induction false} RunKeepsInv(cfg: Config, states: seq<Pool>, events: seq<Event>, n: nat)
    requires Run(cfg, states, events) && cfg.start > 0 && n <= |events|
    ensures Inv(cfg, states[n])
  {
    if n == 0 {
      InitialInv(cfg, states[0]);
    } else {
      RunKeepsInv(cfg, states, events, n - 1);
      assert Step(cfg, states[n - 1], events[n - 1], states[n]);
      StepKeepsInv(cfg, states[n - 1], events[n - 1], states[n]);
    }
  }

  // ----- the theorems

  /** At every moment of every interleaving each height of the range is in exactly one stage,
      is looked up and committed at most once, and is reported as a success only if it was
      committed; a height outside the range is nowhere, except for the zeros. */
  lemma PipelineConserves(cfg: Config, states: seq<Pool>, events: seq<Event>, n: nat, h: int)
    requires Run(cfg, states, events) && cfg.start > 0 && n <= |events|
    ensures var s := states[n];
            && Early(cfg, s, h) + Middle(s, h) + Finished(s, h) == Expected(cfg, s.zeros, h)
            && (InRange(cfg, h) ==> s.lookups[h] <= 1 && s.commits[h] <= 1)
            && Successes(s, h) <= s.commits[h] <= Finished(s, h)
  {
    RunKeepsInv(cfg, states, events, n);
    assert Conserved(cfg, states[n], h);
  }

  /** Nothing is in flight: what remains of a height is one entry in one of the four places
      where a height can end. */
  predicate Drained(cfg: Config, s: Pool) {
    && s.next > cfg.end && s.heights == [] && s.queue == [] && s.results == []
    && (forall w :: 0 <= w < |s.rpc| ==> s.rpc[w] == Idle)
    && (forall w :: 0 <= w < |s.db| ==> s.db[w] == Free)
  }

  lemma DrainedPipeline(cfg: Config, states: seq<Pool>, events: seq<Event>, n: nat, h: int)
    requires Run(cfg, states, events) && cfg.start > 0 && n <= |events| && Drained(cfg, states[n]) && InRange(cfg, h)
    ensures var s := states[n];
            && Count(Is(h), s.dropped) + Count(ResultAt(h), s.lost) + Count(ResultAt(h), s.inBlocks) + Count(ResultAt(h), s.inResults) == 1
            && (s.failed == 0 && Count(ResultAt(h), s.inBlocks) == 1 ==> s.commits[h] == 1)
  {
    PipelineConserves(cfg, states, events, n, h);
    RunKeepsInv(cfg, states, events, n);
    var s := states[n];
    CountNone(IsFetching(h), s.rpc);
    CountNone(IsOffering(h), s.rpc);
    CountNone(IsWriting(h), s.db);
    CountNone(IsReporting(h), s.db);
    if Count(IsFailure(), s.inBlocks) == 0 { NoFailures(s.inBlocks, h); }
  }

  lemma {:induction false} NoFailures(rs: seq<WorkResult>, h: int)
    requires Count(IsFailure(), rs) == 0
    ensures Count(SuccessAt(h), rs) == Count(ResultAt(h), rs)
  {
    if |rs| > 0 { NoFailures(rs[1..], h); }
  }

  /** Every result a DB worker sent is in the result channel or counted by exactly one consumer:
      the two books and the channel make up what was sent. */
  function Sent(events: seq<Event>): nat {
    if |events| == 0 then 0 else Sent(events[..|events| - 1]) + if events[|events| - 1].DbSend? then 1 else 0
  }

  lemma SentNext(events: seq<Event>, n: nat)
    requires 0 < n <= |events|
    ensures Sent(events[..n]) == Sent(events[..n - 1]) + if events[n - 1].DbSend? then 1 else 0
  {
    assert events[..n][..n - 1] == events[..n - 1];
  }

  lemma {:induction false} ResultsAreCountedOnce(cfg: Config, states: seq<Pool>, events: seq<Event>, n: nat)
    requires Run(cfg, states, events) && n <= |events|
    ensures var s := states[n]; |s.results| + |s.inBlocks| + |s.inResults| == Sent(events[..n])
  {
    if n == 0 {
      hide Step;
    } else {
      hide Step, Initial, Sent;
      ResultsAreCountedOnce(cfg, states, events, n - 1);
      SentNext(events, n);
      var s, e, s' := states[n - 1], events[n - 1], states[n];
      assert Step(cfg, s, e, s');
      hide Run;
      ResultsStep(cfg, s, e, s');
    }
  }

  lemma ResultsStep(cfg: Config, s: Pool, e: Event, s': Pool)
    requires Step(cfg, s, e, s')
    ensures |s'.results| + |s'.inBlocks| + |s'.inResults| == |s.results| + |s.inBlocks| + |s.inResults| + if e.DbSend? then 1 else 0
  {
    hide LookedUp, ItemFor, BlockCommitted;
    if OfRpc(e) { RpcFrame(cfg, s, e); hide NextRpc, NextDb, NextCount; } else { hide NextRpc; }
  }

  /** No channel holds more than its capacity, no worker appears or disappears, and heights are
      handed out up to the last before the channel is closed and zeros can be read from it. */
  ghost predicate Orderly(cfg: Config, s: Pool) {
    && |s.heights| <= cfg.queueSize && |s.queue| <= cfg.queueSize && |s.results| <= cfg.queueSize
    && (s.closed ==> s.next > cfg.end) && (s.zeros > 0 ==> s.closed)
  }

  lemma {:induction false} RunIsOrderly(cfg: Config, states: seq<Pool>, events: seq<Event>, n: nat)
    requires Run(cfg, states, events) && n <= |events|
    ensures Orderly(cfg, states[n]) && |states[n].rpc| == |states[0].rpc| && |states[n].db| == |states[0].db|
  {
    if n > 0 {
      hide Step, Initial, Orderly;
      RunIsOrderly(cfg, states, events, n - 1);
      StepIsOrderly(cfg, states[n - 1], events[n - 1], states[n]);
    }
  }

  lemma StepIsOrderly(cfg: Config, s: Pool, e: Event, s': Pool)
    requires Step(cfg, s, e, s') && Orderly(cfg, s)
    ensures Orderly(cfg, s') && |s'.rpc| == |s.rpc| && |s'.db| == |s.db|
  {
    hide ItemFor, BlockCommitted;
    if OfRpc(e) { hide NextDb, NextCount; } else { hide NextRpc, LookedUp; }
  }

  // ----- the pipeline as a parallel backfill

  function Blocks(cfg: Config): (bs: seq<Block>)
    ensures |bs| == if cfg.end < cfg.start then 0 else cfg.end - cfg.start + 1
    ensures forall i :: 0 <= i < |bs| ==> bs[i] == cfg.chain(cfg.start + i)
  {
    seq(if cfg.end < cfg.start then 0 else cfg.end - cfg.start + 1, i => cfg.chain(cfg.start + i))
  }

  function Abs(s: Pool): Backfill.Shared { Backfill.Shared(s.data, s.items) }

  function AbsEvent(cfg: Config, s: Pool, e: Event): Backfill.Event
    requires Enabled(cfg, s, e)
  {
    if e.RpcLookup? && InRange(cfg, s.rpc[e.w].height) then Backfill.Lookup(s.rpc[e.w].height - cfg.start)
    else if e.DbCommit? && InRange(cfg, s.db[e.w].item.height) then Backfill.Commit(s.db[e.w].item.height - cfg.start)
    else Backfill.Other
  }

  /** Committing the block that the zeros fetch touches only its own outpoints. */
  lemma OtherRows(before: DbState, p: Parsed, height: int, hash: string, after: DbState, outside: set<OutPoint>)
    requires BlockCommitted(before, p, height, hash, after) && OpsOf(p.created) + OpsOf(p.spent) <= outside
    ensures Backfill.SameRows(before.utxo, after.utxo, outside)
  {
    var created, spent :| Sorting.IsSortOf(created, p.created) && Sorting.IsSortOf(spent, p.spent)
      && after == Applied(before, created, spent, p.refs, height, hash);
    OpsOfSort(created, p.created);
    OpsOfSort(spent, p.spent);
    forall o | o !in outside
      ensures (o in before.utxo <==> o in after.utxo) && (o in before.utxo ==> before.utxo[o] == after.utxo[o])
    {
      assert HasOp(created, o) <==> o in OpsOf(created);
      assert HasOp(spent, o) <==> o in OpsOf(spent);
      UpsertAllMiss(before.utxo, created, o);
      MarkChunksMiss(UpsertAll(before.utxo, created), spent, MARK_BATCH, o);
    }
  }

  lemma AbsStep(cfg: Config, s: Pool, e: Event, s': Pool)
    requires Step(cfg, s, e, s') && Inv(cfg, s) && cfg.start > 0
    ensures Backfill.Step(Blocks(cfg), Outside(cfg), Abs(s), AbsEvent(cfg, s, e), Abs(s'))
  {
    if e.DbCommit? {
      AbsCommit(cfg, s, e, s');
    } else if e.RpcLookup? {
      AbsLookup(cfg, s, e, s');
    } else {
      hide Inv, LookedUp, ItemFor, BlockCommitted, Blocks, Outside;
      if OfRpc(e) { RpcFrame(cfg, s, e); hide NextRpc, NextDb, NextCount; } else { hide NextRpc; }
    }
  }

  lemma AbsLookup(cfg: Config, s: Pool, e: Event, s': Pool)
    requires Step(cfg, s, e, s') && e.RpcLookup?
    ensures Backfill.Step(Blocks(cfg), Outside(cfg), Abs(s), AbsEvent(cfg, s, e), Abs(s'))
  {
    hide NextDb, NextCount, Outside, Parse;
  }

  lemma AbsCommit(cfg: Config, s: Pool, e: Event, s': Pool)
    requires Step(cfg, s, e, s') && ItemsKnown(cfg, s) && e.DbCommit?
    ensures Backfill.Step(Blocks(cfg), Outside(cfg), Abs(s), AbsEvent(cfg, s, e), Abs(s'))
  {
    hide NextRpc, NextCount, Outside, BlockCommitted, RpcKnown, QueueKnown, ItemsCounted;
    var item := s.db[e.w].item;
    assert Known(cfg, s.items, item);
    if !InRange(cfg, item.height) {
      OtherRows(s.data, item.parsed, item.height, item.hash, s'.data, Outside(cfg));
    }
  }

  /** The counters say which abstract events have happened: each only once. */
  ghost predicate Recorded(start: int, lookups: multiset<int>, commits: multiset<int>, trace: seq<Backfill.Event>) {
    && (forall i :: Backfill.Lookup(i) in trace ==> lookups[start + i] > 0)
    && (forall i :: Backfill.Commit(i) in trace ==> commits[start + i] > 0)
  }

  lemma RecordedSnoc(start: int, lookups: multiset<int>, commits: multiset<int>, lookups': multiset<int>, commits': multiset<int>,
                     trace: seq<Backfill.Event>, a: Backfill.Event)
    requires Recorded(start, lookups, commits, trace)
    requires forall h :: lookups[h] <= lookups'[h] && commits[h] <= commits'[h]
    requires a.Lookup? ==> lookups[start + a.i] == 0 < lookups'[start + a.i]
    requires a.Commit? ==> commits[start + a.i] == 0 < commits'[start + a.i]
    ensures Recorded(start, lookups', commits', trace + [a])
    ensures a != Backfill.Other ==> a !in trace
  {
    forall i | Backfill.Lookup(i) in trace + [a] ensures lookups'[start + i] > 0 {
      if Backfill.Lookup(i) in trace { assert lookups[start + i] > 0; } else { assert a == Backfill.Lookup(i); }
    }
    forall i | Backfill.Commit(i) in trace + [a] ensures commits'[start + i] > 0 {
      if Backfill.Commit(i) in trace { assert commits[start + i] > 0; } else { assert a == Backfill.Commit(i); }
    }
  }

  /** A lookup or commit is recorded under its height, and nothing recorded is forgotten. */
  lemma CountersGrow(cfg: Config, s: Pool, e: Event, s': Pool)
    requires Step(cfg, s, e, s')
    ensures forall h :: s.lookups[h] <= s'.lookups[h] && s.commits[h] <= s'.commits[h]
    ensures var a := AbsEvent(cfg, s, e);
            && (a.Lookup? ==> s'.lookups[cfg.start + a.i] > 0)
            && (a.Commit? ==> s'.commits[cfg.start + a.i] > 0)
  {
    hide Parse, BlockCommitted;
    if OfRpc(e) { RpcFrame(cfg, s, e); hide NextDb, NextCount; } else { hide NextRpc, LookedUp; }
  }

  lemma AbsIsNew(cfg: Config, s: Pool, e: Event, s': Pool)
    requires Step(cfg, s, e, s') && Inv(cfg, s) && cfg.start > 0
    ensures var a := AbsEvent(cfg, s, e);
            && (a.Lookup? ==> s.lookups[cfg.start + a.i] == 0)
            && (a.Commit? ==> s.commits[cfg.start + a.i] == 0)
  {
    hide ItemFor, BlockCommitted, ItemsKnown, Next;
    if e.RpcLookup? { FetchingIsNew(cfg, s, e.w); }
    if e.DbCommit? { WritingIsNew(cfg, s, e.w); }
    hide Conserved;
  }

  lemma RecordedStep(cfg: Config, s: Pool, e: Event, s': Pool, trace: seq<Backfill.Event>)
    requires Step(cfg, s, e, s') && Inv(cfg, s) && cfg.start > 0 && Recorded(cfg.start, s.lookups, s.commits, trace)
    ensures Recorded(cfg.start, s'.lookups, s'.commits, trace + [AbsEvent(cfg, s, e)])
    ensures AbsEvent(cfg, s, e) != Backfill.Other ==> AbsEvent(cfg, s, e) !in trace
  {
    var a := AbsEvent(cfg, s, e);
    hide Recorded, Inv, Step, AbsEvent;
    CountersGrow(cfg, s, e, s');
    AbsIsNew(cfg, s, e, s');
    RecordedSnoc(cfg.start, s.lookups, s.commits, s'.lookups, s'.commits, trace, a);
  }

  ghost function AbsStates(states: seq<Pool>): seq<Backfill.Shared> {
    seq(|states|, n requires 0 <= n < |states| => Abs(states[n]))
  }

  ghost function AbsTrace(cfg: Config, states: seq<Pool>, events: seq<Event>, n: nat): (trace: seq<Backfill.Event>)
    requires Run(cfg, states, events) && n <= |events|
    ensures |trace| == n
    ensures forall m :: 0 <= m < n ==> Enabled(cfg, states[m], events[m]) && trace[m] == AbsEvent(cfg, states[m], events[m])
  {
    if n == 0 then []
    else
      assert Step(cfg, states[n - 1], events[n - 1], states[n]);
      AbsTrace(cfg, states, events, n - 1) + [AbsEvent(cfg, states[n - 1], events[n - 1])]
  }

  lemma {:induction false} AbsTraceOnce(cfg: Config, states: seq<Pool>, events: seq<Event>, n: nat)
    requires Run(cfg, states, events) && cfg.start > 0 && n <= |events|
    ensures Recorded(cfg.start, states[n].lookups, states[n].commits, AbsTrace(cfg, states, events, n))
    ensures Backfill.OnceEach(AbsTrace(cfg, states, events, n))
  {
    if n > 0 {
      AbsTraceOnce(cfg, states, events, n - 1);
      RunKeepsInv(cfg, states, events, n - 1);
      assert Step(cfg, states[n - 1], events[n - 1], states[n]);
      var trace, e := AbsTrace(cfg, states, events, n - 1), AbsEvent(cfg, states[n - 1], events[n - 1]);
      RecordedStep(cfg, states[n - 1], events[n - 1], states[n], trace);
      assert AbsTrace(cfg, states, events, n) == trace + [e];
      hide Recorded, Step, Run;
    }
  }

  /** Every run of the pool is a run of the parallel backfill, so what is proved of every
      interleaving there holds of the table the pool leaves. */
  lemma PoolRefinesBackfill(cfg: Config, states: seq<Pool>, events: seq<Event>)
    requires Run(cfg, states, events) && cfg.start > 0
    ensures Backfill.Run(Blocks(cfg), Outside(cfg), AbsStates(states), AbsTrace(cfg, states, events, |events|))
  {
    AbsTraceOnce(cfg, states, events, |events|);
    var trace := AbsTrace(cfg, states, events, |events|);
    forall n | 0 <= n < |trace|
      ensures Backfill.Step(Blocks(cfg), Outside(cfg), AbsStates(states)[n], trace[n], AbsStates(states)[n + 1])
    {
      RunKeepsInv(cfg, states, events, n);
      assert Step(cfg, states[n], events[n], states[n + 1]);
      AbsStep(cfg, states[n], events[n], states[n + 1]);
    }
  }

  lemma {:induction false} CommitHappened(cfg: Config, states: seq<Pool>, events: seq<Event>, n: nat, h: int) returns (m: nat)
    requires Run(cfg, states, events) && n <= |events| && states[n].commits[h] > 0
    ensures m < n && Enabled(cfg, states[m], events[m]) && events[m].DbCommit? && states[m].db[events[m].w].item.height == h
  {
    if n > 0 {
      assert Step(cfg, states[n - 1], events[n - 1], states[n]);
      hide Next, BlockCommitted;
      if states[n - 1].commits[h] > 0 {
        m := CommitHappened(cfg, states, events, n - 1, h);
      } else {
        NewCommit(cfg, states[n - 1], events[n - 1], states[n], h);
        m := n - 1;
      }
    }
  }

  lemma CommitIsInTrace(cfg: Config, states: seq<Pool>, events: seq<Event>, n: nat, h: int)
    requires Run(cfg, states, events) && n <= |events| && InRange(cfg, h) && states[n].commits[h] > 0
    ensures Backfill.Commit(h - cfg.start) in AbsTrace(cfg, states, events, n)
  {
    hide AbsTrace, Step, Initial, Next;
    var m := CommitHappened(cfg, states, events, n, h);
    var trace := AbsTrace(cfg, states, events, n);
    assert trace[m] == AbsEvent(cfg, states[m], events[m]);
    hide Run;
    assert AbsEvent(cfg, states[m], events[m]) == Backfill.Commit(h - cfg.start);
  }

  lemma NewCommit(cfg: Config, s: Pool, e: Event, s': Pool, h: int)
    requires Step(cfg, s, e, s') && s.commits[h] == 0 < s'.commits[h]
    ensures e.DbCommit? && s.db[e.w].item.height == h
  {
    hide LookedUp, ItemFor, BlockCommitted;
    if OfRpc(e) { RpcFrame(cfg, s, e); hide NextRpc, NextDb, NextCount; } else { hide NextRpc; }
  }

  lemma EveryCommitIsInTrace(cfg: Config, states: seq<Pool>, events: seq<Event>)
    requires Run(cfg, states, events)
    requires forall h :: InRange(cfg, h) ==> states[|events|].commits[h] > 0
    ensures Backfill.AllCommitted(Blocks(cfg), AbsTrace(cfg, states, events, |events|))
  {
    hide Step, Initial;
    forall i: nat | i < |Blocks(cfg)| ensures Backfill.Commit(i) in AbsTrace(cfg, states, events, |events|) {
      CommitIsInTrace(cfg, states, events, |events|, cfg.start + i);
    }
  }

  lemma AbsStatesAt(states: seq<Pool>)
    ensures |AbsStates(states)| == |states|
    ensures forall n :: 0 <= n < |states| ==> AbsStates(states)[n] == Abs(states[n])
  {}

  /** Once every height of the range has committed, the table is the ledger of the chain (apart
      from what was extra before) if and only if every block that spends an output of the range
      was looked up after the commit of the block that creates it. */
  lemma PoolEndsAtLedgerIff(cfg: Config, states: seq<Pool>, events: seq<Event>,
                            live: set<OutPoint>, extra: set<OutPoint>, ever: set<OutPoint>)
    requires Run(cfg, states, events) && cfg.start > 0
    requires Ledger.Tracks(states[0].data.utxo, live, extra, ever) && Ledger.ValidFrom(live, ever, Blocks(cfg))
    requires Backfill.Apart(Blocks(cfg), Outside(cfg))
    requires forall h :: InRange(cfg, h) ==> states[|events|].commits[h] > 0
    ensures Unspent(states[|events|].data.utxo) - Outside(cfg) == (Ledger.LedgerFrom(live, Blocks(cfg)) + extra) - Outside(cfg)
       <==> forall o :: o in AllOuts(Blocks(cfg)) * AllIns(Blocks(cfg)) ==>
              Backfill.Ordered(Blocks(cfg), AbsTrace(cfg, states, events, |events|), o)
  {
    var trace := AbsTrace(cfg, states, events, |events|);
    hide AbsStates, AllOuts, AllIns, Unspent, Outside, Initial, Step, Backfill.AllCommitted, Backfill.Run,
      Ledger.ValidFrom, Ledger.LedgerFrom, Ledger.Tracks, Backfill.Apart, Backfill.Ordered, AbsTrace;
    assert AbsStates(states)[0] == Abs(states[0]) && AbsStates(states)[|trace|] == Abs(states[|events|]) by { AbsStatesAt(states); }
    PoolRefinesBackfill(cfg, states, events);
    EveryCommitIsInTrace(cfg, states, events);
    Backfill.BackfillIsExactIff(Blocks(cfg), Outside(cfg), AbsStates(states), trace, live, extra, ever);
  }
}
