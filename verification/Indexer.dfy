/** The sequential poller: polls, chunks, one block at a time, and the reorg branch, against a
    node and a database that may fail at any call. */
module Indexer {
  import opened Prelude
  import opened Models
  import opened UtxoTable
  import opened Retry
  import opened Database
  import opened Parser
  import opened Commits
  import opened Ledger
  import Sorting

  const CHUNK_SIZE := 10
  const BACKFILL_GAP := 1000
  const DEFAULT_REORG_DEPTH := 10

  /** What goes well and what does not while one height is processed: the node's answers and the
      fate of each call. A panic in a call is recovered and reported like a failure of it. */
  datatype Conditions = Conditions(hash: Result<string>, progress: Option<Error>, walkProgress: Option<Error>, walk: Faults,
                                   rollbackProgress: Option<Error>, update: CommitFate, block: Result<Block>,
                                   lookup: Option<Error>, tx: TxFaults)

  /** One tick of the poller: the node's tip, the watched scripts as each chunk gets them, and the
      conditions met at each height. */
  datatype Poll = Poll(tip: Result<int>, progress: Option<Error>, scripts: int -> Result<map<string, WatchedScript>>, at: int -> Conditions)

  /** How a poll ends. An error names the height it is about, unless no block was begun. */
  datatype Outcome = Done | Failed(named: Option<int>) | HandedOver(from: int, to: int)

  datatype Env = Env(inBackfill: bool, backfillWorkers: int, maxReorgDepth: int)

  function LastHeight(s: DbState): int { ProgressOf(s).lastHeight }

  /** The history of an indexer: the blocks it committed with their heights, the database after
      each, the conditions each was committed under, and the heights its errors have named. */
  datatype Log = Log(states: seq<DbState>, blocks: seq<Block>, watched: seq<set<string>>, heights: seq<int>,
                     asked: seq<Conditions>, named: set<int>)

  function Beginning(origin: DbState): Log { Log([origin], [], [], [], [], {}) }

  /** An error that names h has been returned. */
  function Named(l: Log, h: int): Log { l.(named := l.named + {h}) }

  // ----- one height

  /** checkReorg takes the reorg branch: it compares the new block's hash with the last one's. */
  predicate ReorgDue(env: Env, s: DbState, height: int, hash: string) {
    && !env.inBackfill
    && height > LastHeight(s) && LastHeight(s) != 0 && height != 0
    && height == LastHeight(s) + 1 && hash != ProgressOf(s).lastBlockHash
  }

  /** The hashes the walk back asks for. */
  function WalkLength(env: Env, height: int): nat {
    var depth := if env.maxReorgDepth <= 0 then DEFAULT_REORG_DEPTH else env.maxReorgDepth;
    if height <= 0 then 0 else if height <= depth then height else depth
  }

  /** The branch comes to its update of the progress row. */
  predicate ReorgUpdates(env: Env, s: DbState, height: int, hash: string, c: Conditions) {
    && ReorgDue(env, s, height, hash) && c.progress == None && c.walkProgress == None
    && FirstFault(c.walk, WalkLength(env, height)) == None && c.rollbackProgress == None
  }

  /** The update takes effect, acknowledged or not: progress moves to a height that has not
      been processed. */
  predicate ReorgMoves(env: Env, s: DbState, height: int, hash: string, c: Conditions) {
    ReorgUpdates(env, s, height, hash, c) && (c.update.Commits? || c.update.tookEffect)
  }

  predicate CheckPasses(env: Env, s: DbState, height: int, hash: string, c: Conditions) {
    env.inBackfill
    || (c.progress == None && (ReorgDue(env, s, height, hash) ==> ReorgUpdates(env, s, height, hash, c) && c.update.Commits?))
  }

  function Advanced(s: DbState, height: int): DbState { s.(progress := Some(Progress(height, ""))) }

  /** The database after the reorg check. */
  function AfterCheck(env: Env, s: DbState, height: int, hash: string, c: Conditions): DbState {
    if ReorgMoves(env, s, height, hash, c) then Advanced(s, height) else s
  }

  /** And when the transaction begins, or the height is given up. */
  function Checked(env: Env, s: DbState, height: int, c: Conditions): DbState {
    if c.hash.Success? then AfterCheck(env, s, height, c.hash.value, c) else s
  }

  /** The block is fetched and parsed. */
  ghost predicate Reads(env: Env, s: DbState, height: int, c: Conditions) {
    && c.hash.Success? && CheckPasses(env, s, height, c.hash.value, c) && c.block.Success?
    && (c.lookup.None? || forall o :: !SpentBy(c.block.value.txs, o))
  }

  function ParsedBlock(s: DbState, watched: set<string>, b: Block): Parsed {
    Parse(b, Visible(s.utxo), watched, AddressOf)
  }

  /** The block is committed. */
  ghost predicate BlockCommits(env: Env, s: DbState, height: int, watched: set<string>, c: Conditions) {
    Reads(env, s, height, c) && TakesHold(c.tx, ParsedBlock(s, watched, c.block.value))
  }

  /** And the commit is acknowledged. */
  ghost predicate BlockSucceeds(env: Env, s: DbState, height: int, watched: set<string>, c: Conditions) {
    Reads(env, s, height, c) && GoesThrough(c.tx, ParsedBlock(s, watched, c.block.value))
  }

  /** Exactly what one call of processBlockWithCache does. Only the order the sorts give equal
      keys is left open. */
  ghost predicate BlockStep(env: Env, s: DbState, l: Log, height: int, watched: set<string>, c: Conditions,
                            ok: bool, s': DbState, l': Log) {
    && (ok <==> BlockSucceeds(env, s, height, watched, c))
    && if BlockCommits(env, s, height, watched, c)
       then BlockCommitted(Checked(env, s, height, c), ParsedBlock(s, watched, c.block.value), height, c.hash.value, s')
            && l' == Log(l.states + [s'], l.blocks + [c.block.value], l.watched + [watched], l.heights + [height], l.asked + [c], l.named)
       else s' == Checked(env, s, height, c) && l' == l
  }

  lemma CommittedProgress(mid: DbState, p: Parsed, height: int, hash: string, after: DbState)
    requires BlockCommitted(mid, p, height, hash, after)
    ensures after.progress == Some(Progress(height, hash)) && LastHeight(after) == height
  {}

  /** When the reorg branch moves progress, in the words of the code: not in a backfill, after a
      first block, at the height right after the last one, for a hash that is not the last one's
      hash, with the reads answered, as many hashes as the depth allows (10 if none is set), and
      the update taking effect. */
  lemma ReorgMovesIff(env: Env, s: DbState, height: int, hash: string, c: Conditions)
    ensures ReorgMoves(env, s, height, hash, c) <==>
      && !env.inBackfill && s.progress.Some? && s.progress.value.lastHeight != 0 && height != 0
      && height == s.progress.value.lastHeight + 1 && hash != s.progress.value.lastBlockHash
      && c.progress == None && c.walkProgress == None && c.rollbackProgress == None
      && (forall d: nat :: d < height && d < (if env.maxReorgDepth <= 0 then 10 else env.maxReorgDepth) ==> c.walk(d) == None)
      && (c.update.Commits? || c.update.tookEffect)
    ensures AfterCheck(env, s, height, hash, c)
         == if ReorgMoves(env, s, height, hash, c) then s.(progress := Some(Progress(height, ""))) else s
  {}

  /** When the block of a height is committed, and when the commit is acknowledged, in the same
      words: the check lets it pass, the block arrives, its inputs can be looked up, and the
      transaction takes hold or goes through. */
  lemma HeightSucceedsIff(env: Env, s: DbState, height: int, watched: set<string>, c: Conditions)
    ensures var read :=
              && c.hash.Success? && c.block.Success? && (c.lookup.None? || forall o :: !SpentBy(c.block.value.txs, o))
              && (|| env.inBackfill
                  || (&& c.progress == None
                      && (|| s.progress.None? || s.progress.value.lastHeight == 0 || height == 0
                          || height != s.progress.value.lastHeight + 1 || c.hash.value == s.progress.value.lastBlockHash
                          || (&& c.walkProgress == None && c.rollbackProgress == None && c.update.Commits?
                              && (forall d: nat :: d < height && d < (if env.maxReorgDepth <= 0 then 10 else env.maxReorgDepth) ==> c.walk(d) == None)))));
            && (BlockCommits(env, s, height, watched, c) <==> read && TakesHold(c.tx, ParsedBlock(s, watched, c.block.value)))
            && (BlockSucceeds(env, s, height, watched, c) <==> read && GoesThrough(c.tx, ParsedBlock(s, watched, c.block.value)))
  {
    hide TakesHold, GoesThrough, Parse;
  }

  /** When a height is skipped: progress stands at the next height and its block has not been
      committed if and only if the reorg branch moved progress and the block's transaction did
      not take hold. */
  lemma SkipsIff(env: Env, s: DbState, l: Log, height: int, watched: set<string>, c: Conditions, ok: bool, s': DbState, l': Log)
    requires BlockStep(env, s, l, height, watched, c, ok, s', l') && height == LastHeight(s) + 1
    ensures LastHeight(s') == height && l' == l <==>
      && !env.inBackfill && s.progress.Some? && s.progress.value.lastHeight != 0 && height != 0
      && c.hash.Success? && c.hash.value != s.progress.value.lastBlockHash
      && c.progress == None && c.walkProgress == None && c.rollbackProgress == None
      && (forall d: nat :: d < height && d < (if env.maxReorgDepth <= 0 then 10 else env.maxReorgDepth) ==> c.walk(d) == None)
      && (c.update.Commits? || c.update.tookEffect)
      && !(&& c.update.Commits? && c.block.Success? && (c.lookup.None? || forall o :: !SpentBy(c.block.value.txs, o))
           && TakesHold(c.tx, ParsedBlock(s, watched, c.block.value)))
    ensures LastHeight(s') == height - 1 <==>
      !(c.hash.Success? && ReorgMoves(env, s, height, c.hash.value, c)) && !BlockCommits(env, s, height, watched, c)
  {
    if c.hash.Success? { ReorgMovesIff(env, s, height, c.hash.value, c); }
    HeightSucceedsIff(env, s, height, watched, c);
    hide ReorgMoves, CheckPasses, TakesHold, BlockCommitted, Parse;
    if BlockCommits(env, s, height, watched, c) {
      CommittedProgress(Checked(env, s, height, c), ParsedBlock(s, watched, c.block.value), height, c.hash.value, s');
      assert |l'.heights| == |l.heights| + 1;
    }
  }

  // ----- a poll

  /** The chunk a height belongs to, by its first height. */
  function ChunkStart(first: int, h: int): int { first + ((h - first) / CHUNK_SIZE) * CHUNK_SIZE }

  /** Height h in a poll that began at `first`: its chunk got the watched scripts. */
  ghost predicate HeightStep(env: Env, p: Poll, first: int, h: int, s: DbState, l: Log, ok: bool, s': DbState, l': Log) {
    && p.scripts(ChunkStart(first, h)).Success?
    && BlockStep(env, s, l, h, p.scripts(ChunkStart(first, h)).value.Keys, p.at(h), ok, s', l')
  }

  /** The first n heights of a poll succeeded, one after the other. */
  ghost predicate Blocks(env: Env, p: Poll, first: int, n: nat, s: DbState, l: Log, s': DbState, l': Log)
    decreases n, 1
  {
    if n == 0 then s' == s && l' == l else exists s1, l1 :: BlocksVia(env, p, first, n, s, l, s1, l1, s', l')
  }

  ghost predicate BlocksVia(env: Env, p: Poll, first: int, n: nat, s: DbState, l: Log, s1: DbState, l1: Log, s': DbState, l': Log)
    requires n > 0
    decreases n, 0
  {
    Blocks(env, p, first, n - 1, s, l, s1, l1) && HeightStep(env, p, first, first + n - 1, s1, l1, true, s', l')
  }

  /** Then height h failed. */
  ghost predicate FailedAt(env: Env, p: Poll, first: int, h: int, s: DbState, l: Log, s': DbState, l': Log) {
    h >= first &&
    exists s1, l1 :: Blocks(env, p, first, h - first, s, l, s1, l1) && HeightStep(env, p, first, h, s1, l1, false, s', l')
  }

  /** Exactly what one poll does. */
  ghost predicate PollStep(env: Env, p: Poll, s: DbState, l: Log, o: Outcome, s': DbState, l': Log) {
    var first := LastHeight(s) + 1;
    if p.tip.Failure? || p.progress.Some? then o == Failed(None) && s' == s && l' == l
    else if p.tip.value - LastHeight(s) > BACKFILL_GAP && env.backfillWorkers > 1
    then o == HandedOver(first, p.tip.value) && s' == s && l' == l
    else
      match o
      case Done => Blocks(env, p, first, if p.tip.value < first then 0 else p.tip.value - first + 1, s, l, s', l')
      case Failed(None) =>
        exists h :: first <= h <= p.tip.value && h == ChunkStart(first, h) && p.scripts(h).Failure?
          && Blocks(env, p, first, h - first, s, l, s', l')
      case Failed(Some(h)) =>
        h <= p.tip.value && exists l1 :: FailedAt(env, p, first, h, s, l, s', l1) && l' == Named(l1, h)
      case HandedOver(_, _) => false
  }

  // ----- the history is consistent

  ghost predicate Increasing(hs: seq<int>) {
    forall i, j :: 0 <= i < j < |hs| ==> hs[i] < hs[j]
  }

  /** The i-th commit: the block is the node's answer for its height, was parsed against the rows
      before it, and was committed together with that height and the node's hash. */
  ghost predicate CommittedAt(l: Log, i: nat)
    requires |l.states| == |l.blocks| + 1 == |l.watched| + 1 == |l.heights| + 1 == |l.asked| + 1 && i < |l.blocks|
  {
    && l.asked[i].block == Success(l.blocks[i]) && l.asked[i].hash.Success?
    && BlockCommitted(l.states[i], ParsedBlock(l.states[i], l.watched[i], l.blocks[i]), l.heights[i], l.asked[i].hash.value, l.states[i + 1])
  }

  ghost predicate WellFormed(l: Log) {
    && |l.states| == |l.blocks| + 1 == |l.watched| + 1 == |l.heights| + 1 == |l.asked| + 1
    && forall i :: 0 <= i < |l.blocks| ==> CommittedAt(l, i)
  }

  /** From the state the indexer began with: every logged commit happened at its height and led
      to the rows there are now, no height was committed twice, and every height up to the last
      one was committed or named in an error. */
  ghost predicate Consistent(origin: DbState, l: Log, s: DbState) {
    && WellFormed(l) && l.states[0] == origin
    && l.states[|l.blocks|].utxo == s.utxo && l.states[|l.blocks|].refs == s.refs
    && Covered(LastHeight(origin), LastHeight(s), l.heights, l.named)
  }

  ghost predicate Covered(low: int, high: int, heights: seq<int>, named: set<int>) {
    && Increasing(heights) && low <= high
    && (forall h :: h in heights ==> low < h <= high)
    && (forall h :: low < h <= high ==> h in heights || h in named)
  }

  lemma BeginConsistent(origin: DbState)
    ensures Consistent(origin, Beginning(origin), origin)
  {}

  /** What is committed depends on the rows and references before it, not on the progress row. */
  lemma ProgressIsIgnored(before: DbState, mid: DbState, p: Parsed, height: int, hash: string, after: DbState)
    requires BlockCommitted(mid, p, height, hash, after) && before.utxo == mid.utxo && before.refs == mid.refs
    ensures BlockCommitted(before, p, height, hash, after)
  {
    var created, spent :| Sorting.IsSortOf(created, p.created) && Sorting.IsSortOf(spent, p.spent)
      && after == Applied(mid, created, spent, p.refs, height, hash);
    assert after == Applied(before, created, spent, p.refs, height, hash);
  }

  /** Between two moments of one indexer: the log has grown, and what was committed since is above
      what was the last height then. */
  ghost predicate Continues(l: Log, s: DbState, l': Log) {
    l.heights <= l'.heights && forall i :: |l.heights| <= i < |l'.heights| ==> l'.heights[i] > LastHeight(s)
  }

  lemma ContinuesFurther(l: Log, s: DbState, l1: Log, s1: DbState, l2: Log)
    requires Continues(l, s, l1) && LastHeight(s) <= LastHeight(s1) && Continues(l1, s1, l2)
    ensures Continues(l, s, l2)
  {}

  predicate Aligned(l: Log) { |l.heights| == |l.asked| == |l.watched| }

  /** The i-th commit was made with the answer poll p got for its height, and with the watched
      scripts p got for the first of the ten heights it belongs to, counted from `first`. */
  ghost predicate AnsweredIn(p: Poll, first: int, l: Log, i: nat)
    requires Aligned(l) && i < |l.heights|
  {
    var h := l.heights[i];
    l.asked[i] == p.at(h) && p.scripts(h - (h - first) % 10).Success? && l.watched[i] == p.scripts(h - (h - first) % 10).value.Keys
  }

  /** Every commit since was made with answers of this poll. */
  ghost predicate AskedIn(p: Poll, first: int, l: Log, l': Log)
    requires Aligned(l) && Aligned(l')
  {
    && l.asked <= l'.asked && l.watched <= l'.watched
    && forall i :: |l.asked| <= i < |l'.asked| ==> AnsweredIn(p, first, l', i)
  }

  lemma NextCovered(low: int, height: int, heights: seq<int>, named: set<int>)
    requires Covered(low, height - 1, heights, named)
    ensures Covered(low, height, heights + [height], named)
    ensures Covered(low, height, heights, named + {height})
    ensures Covered(low, height - 1, heights, named + {height})
  {
    assert forall i :: 0 <= i < |heights| ==> heights[i] in heights;
    forall h ensures h in heights + [height] <==> h in heights || h == height {}
  }

  /** One more commit keeps the log well formed. */
  lemma CommitKeepsLog(l: Log, mid: DbState, height: int, hash: string, watched: set<string>, c: Conditions, b: Block, s': DbState)
    requires WellFormed(l) && c.block == Success(b) && c.hash == Success(hash)
    requires var before := l.states[|l.blocks|]; before.utxo == mid.utxo && before.refs == mid.refs
    requires BlockCommitted(mid, ParsedBlock(mid, watched, b), height, hash, s')
    ensures WellFormed(Log(l.states + [s'], l.blocks + [b], l.watched + [watched], l.heights + [height], l.asked + [c], l.named))
  {
    var before := l.states[|l.blocks|];
    ProgressIsIgnored(before, mid, ParsedBlock(mid, watched, b), height, hash, s');
    hide BlockCommitted, Parse;
    var l' := Log(l.states + [s'], l.blocks + [b], l.watched + [watched], l.heights + [height], l.asked + [c], l.named);
    forall i | 0 <= i < |l'.blocks| ensures CommittedAt(l', i) {
      if i < |l.blocks| { assert CommittedAt(l, i); }
    }
  }

  lemma NamedWellFormed(l: Log, h: int)
    requires WellFormed(l)
    ensures WellFormed(Named(l, h))
  {
    hide BlockCommitted, ParsedBlock;
    forall i | 0 <= i < |l.blocks| ensures CommittedAt(Named(l, h), i) { assert CommittedAt(l, i); }
  }

  /** The next height is committed, or its number goes into the error. */
  lemma BlockStepKeepsConsistent(origin: DbState, env: Env, l: Log, s: DbState, height: int, watched: set<string>, c: Conditions,
                                 ok: bool, s': DbState, l': Log)
    requires Consistent(origin, l, s) && height == LastHeight(s) + 1
    requires BlockStep(env, s, l, height, watched, c, ok, s', l')
    ensures LastHeight(s) <= LastHeight(s') <= height && l'.named == l.named && Continues(l, s, l')
    ensures Aligned(l) && Aligned(l') && l.asked <= l'.asked && l.watched <= l'.watched
    ensures forall i :: |l.asked| <= i < |l'.asked| ==> l'.asked[i] == c && l'.heights[i] == height && l'.watched[i] == watched
    ensures ok ==> Consistent(origin, l', s') && LastHeight(s') == height
    ensures Consistent(origin, Named(l', height), s')
  {
    NextCovered(LastHeight(origin), height, l.heights, l.named);
    SkipsIff(env, s, l, height, watched, c, ok, s', l');
    var mid := Checked(env, s, height, c);
    if BlockCommits(env, s, height, watched, c) {
      CommittedProgress(mid, ParsedBlock(s, watched, c.block.value), height, c.hash.value, s');
      hide BlockCommitted, ReorgMoves, CheckPasses, TakesHold, Parse, CommittedAt, Covered;
      CommitKeepsLog(l, mid, height, c.hash.value, watched, c, c.block.value, s');
      NextCovered(LastHeight(origin), height, l.heights, l.named);
      CoveredMore(LastHeight(origin), height, l'.heights, l.named, height);
    }
    hide BlockStep, Covered, CommittedAt;
    NamedWellFormed(l', height);
  }

  lemma CoveredMore(low: int, high: int, heights: seq<int>, named: set<int>, h: int)
    requires Covered(low, high, heights, named)
    ensures Covered(low, high, heights, named + {h})
  {}

  lemma {:induction false} BlocksKeepConsistent(origin: DbState, env: Env, p: Poll, first: int, n: nat, s: DbState, l: Log, s': DbState, l': Log)
    requires Consistent(origin, l, s) && first == LastHeight(s) + 1
    requires Blocks(env, p, first, n, s, l, s', l')
    ensures Consistent(origin, l', s') && LastHeight(s') == first + n - 1
    ensures l'.named == l.named && Continues(l, s, l') && Aligned(l) && Aligned(l') && AskedIn(p, first, l, l')
  {
    ConsistentLog(origin, l, s);
    hide Consistent, HeightStep, Continues, AskedIn;
    NothingAsked(p, first, l);
    if n > 0 {
      var s1, l1 :| BlocksVia(env, p, first, n, s, l, s1, l1, s', l');
      BlocksKeepConsistent(origin, env, p, first, n - 1, s, l, s1, l1);
      HeightKeepsConsistent(origin, env, p, first, first + n - 1, s, l, s1, l1, true, s', l');
    }
  }

  lemma NothingAsked(p: Poll, first: int, l: Log)
    requires Aligned(l)
    ensures AskedIn(p, first, l, l)
  {}

  lemma HeightKeepsConsistent(origin: DbState, env: Env, p: Poll, first: int, h: int, s: DbState, l: Log, s1: DbState, l1: Log,
                              ok: bool, s': DbState, l': Log)
    requires Consistent(origin, l, s) && Consistent(origin, l1, s1) && LastHeight(s) <= LastHeight(s1) == h - 1
    requires Aligned(l) && Aligned(l1) && first <= h
    requires l1.named == l.named && Continues(l, s, l1) && AskedIn(p, first, l, l1)
    requires HeightStep(env, p, first, h, s1, l1, ok, s', l')
    ensures LastHeight(s1) <= LastHeight(s') <= h && l'.named == l.named && Continues(l, s, l')
    ensures Aligned(l') && AskedIn(p, first, l, l')
    ensures ok ==> Consistent(origin, l', s') && LastHeight(s') == h
    ensures Consistent(origin, Named(l', h), s')
  {
    hide Consistent, BlockStep;
    ConsistentLog(origin, l1, s1);
    BlockStepKeepsConsistent(origin, env, l1, s1, h, p.scripts(ChunkStart(first, h)).value.Keys, p.at(h), ok, s', l');
    ContinuesFurther(l, s, l1, s1, l');
    AskedFurther(p, first, l, l1, s1, l', h);
  }

  lemma AskedFurther(p: Poll, first: int, l: Log, l1: Log, s1: DbState, l': Log, h: int)
    requires Aligned(l) && Aligned(l1) && Aligned(l')
    requires AskedIn(p, first, l, l1) && Continues(l1, s1, l') && l1.asked <= l'.asked && l1.watched <= l'.watched
    requires first <= h && p.scripts(ChunkStart(first, h)).Success?
    requires forall i :: |l1.asked| <= i < |l'.asked| ==>
      l'.asked[i] == p.at(h) && l'.heights[i] == h && l'.watched[i] == p.scripts(ChunkStart(first, h)).value.Keys
    ensures AskedIn(p, first, l, l')
  {
    assert ChunkStart(first, h) == h - (h - first) % 10;
    forall i | |l.asked| <= i < |l'.asked| ensures AnsweredIn(p, first, l', i) {
      if i < |l1.asked| {
        assert AnsweredIn(p, first, l1, i);
        assert l'.asked[i] == l1.asked[i] && l'.heights[i] == l1.heights[i] && l'.watched[i] == l1.watched[i];
      }
    }
  }

  /** What a poll keeps, and what it adds. */
  lemma PollKeepsConsistent(origin: DbState, env: Env, p: Poll, s: DbState, l: Log, o: Outcome, s': DbState, l': Log)
    requires Consistent(origin, l, s) && PollStep(env, p, s, l, o, s', l')
    ensures Consistent(origin, l', s') && LastHeight(s) <= LastHeight(s')
    ensures Aligned(l) && Aligned(l')
    ensures Continues(l, s, l') && AskedIn(p, LastHeight(s) + 1, l, l')
    ensures l'.named == l.named + if o.Failed? && o.named.Some? then {o.named.value} else {}
    ensures o.Done? ==>
      LastHeight(s') == if p.tip.value < LastHeight(s) then LastHeight(s) else p.tip.value
  {
    var first := LastHeight(s) + 1;
    ConsistentLog(origin, l, s);
    NothingAsked(p, first, l);
    hide Consistent, Blocks, HeightStep, Continues, AskedIn, ChunkStart;
    if o.Failed? && o.named.Some? {
      var h := o.named.value;
      var l1 :| FailedAt(env, p, first, h, s, l, s', l1) && l' == Named(l1, h);
      var s2, l2 :| Blocks(env, p, first, h - first, s, l, s2, l2) && HeightStep(env, p, first, h, s2, l2, false, s', l1);
      BlocksKeepConsistent(origin, env, p, first, h - first, s, l, s2, l2);
      HeightKeepsConsistent(origin, env, p, first, h, s, l, s2, l2, false, s', l1);
      NamingChangesNothing(p, first, s, l, l1, h);
    } else if p.tip.Success? && p.progress.None? && !o.HandedOver? {
      if o.Done? {
        BlocksKeepConsistent(origin, env, p, first, if p.tip.value < first then 0 else p.tip.value - first + 1, s, l, s', l');
      } else {
        var h :| first <= h <= p.tip.value && h == ChunkStart(first, h) && p.scripts(h).Failure?
          && Blocks(env, p, first, h - first, s, l, s', l');
        BlocksKeepConsistent(origin, env, p, first, h - first, s, l, s', l');
      }
    }
  }

  lemma NamingChangesNothing(p: Poll, first: int, s: DbState, l: Log, l1: Log, h: int)
    requires Aligned(l) && Aligned(l1) && Continues(l, s, l1) && AskedIn(p, first, l, l1)
    ensures Continues(l, s, Named(l1, h)) && AskedIn(p, first, l, Named(l1, h))
  {
    var l' := Named(l1, h);
    forall i | |l.asked| <= i < |l'.asked| ensures AnsweredIn(p, first, l', i) { assert AnsweredIn(p, first, l1, i); }
  }

  lemma ConsistentLog(origin: DbState, l: Log, s: DbState)
    requires Consistent(origin, l, s)
    ensures Aligned(l) && Continues(l, s, l)
  {}

  // ----- every run of polls

  /** Poll after poll, going on after errors. */
  ghost predicate Run(env: Env, polls: seq<Poll>, outcomes: seq<Outcome>, states: seq<DbState>, logs: seq<Log>) {
    && |outcomes| <= |polls| && |states| == |logs| == |outcomes| + 1 && logs[0] == Beginning(states[0])
    && forall n :: 0 <= n < |outcomes| ==> PollStep(env, polls[n], states[n], logs[n], outcomes[n], states[n + 1], logs[n + 1])
  }

  /** The i-th commit was made with answers of one of the first n polls, which began after the
      height the database then stood at. */
  ghost predicate AnsweredBy(polls: seq<Poll>, states: seq<DbState>, n: nat, l: Log, i: nat)
    requires n <= |polls| && n <= |states| && Aligned(l) && i < |l.heights|
  {
    exists k :: 0 <= k < n && AnsweredIn(polls[k], LastHeight(states[k]) + 1, l, i)
  }

  lemma AnsweredFurther(polls: seq<Poll>, states: seq<DbState>, m: nat, n: nat, l: Log, s: DbState, l': Log)
    requires m + 1 == n <= |polls| && n <= |states| && states[m] == s && Aligned(l) && Aligned(l')
    requires forall i :: 0 <= i < |l.heights| ==> AnsweredBy(polls, states, m, l, i)
    requires Continues(l, s, l') && AskedIn(polls[m], LastHeight(s) + 1, l, l')
    ensures forall i :: 0 <= i < |l'.heights| ==> AnsweredBy(polls, states, n, l', i)
  {
    forall i | 0 <= i < |l'.heights| ensures AnsweredBy(polls, states, n, l', i) {
      if i < |l.heights| {
        assert AnsweredBy(polls, states, m, l, i);
        var k :| 0 <= k < m && AnsweredIn(polls[k], LastHeight(states[k]) + 1, l, i);
        assert l'.asked[i] == l.asked[i] && l'.heights[i] == l.heights[i] && l'.watched[i] == l.watched[i];
        assert AnsweredIn(polls[k], LastHeight(states[k]) + 1, l', i);
      } else {
        assert AnsweredIn(polls[m], LastHeight(states[m]) + 1, l', i);
      }
    }
  }

  lemma {:induction false} RunIsConsistent(env: Env, polls: seq<Poll>, outcomes: seq<Outcome>, states: seq<DbState>, logs: seq<Log>, n: nat)
    requires Run(env, polls, outcomes, states, logs) && n <= |outcomes|
    ensures Consistent(states[0], logs[n], states[n])
    ensures forall h :: h in logs[n].named <==> exists k :: 0 <= k < n && outcomes[k] == Failed(Some(h))
    ensures Aligned(logs[n]) && forall i :: 0 <= i < |logs[n].heights| ==> AnsweredBy(polls, states, n, logs[n], i)
  {
    if n == 0 {
      BeginConsistent(states[0]);
    } else {
      RunIsConsistent(env, polls, outcomes, states, logs, n - 1);
      var p, o, l, l' := polls[n - 1], outcomes[n - 1], logs[n - 1], logs[n];
      assert PollStep(env, p, states[n - 1], l, o, states[n], l');
      hide Consistent, PollStep, Run, AskedIn, AnsweredBy, Continues;
      PollKeepsConsistent(states[0], env, p, states[n - 1], l, o, states[n], l');
      ConsistentLog(states[0], l', states[n]);
      AnsweredFurther(polls, states, n - 1, n, l, states[n - 1], l');
      forall h ensures h in l'.named <==> exists k :: 0 <= k < n && outcomes[k] == Failed(Some(h)) {
        if h in l.named { var k :| 0 <= k < n - 1 && outcomes[k] == Failed(Some(h)); }
      }
    }
  }

  /** No silent gap and no double commit, in every run of polls with any failures: progress never
      goes down; each height up to the last one was committed, exactly once, with the rows of the
      block the node answered for it, or a returned error named it. */
  lemma NoSilentGap(env: Env, polls: seq<Poll>, outcomes: seq<Outcome>, states: seq<DbState>, logs: seq<Log>, n: nat, h: int)
    requires Run(env, polls, outcomes, states, logs) && n <= |outcomes|
    ensures n > 0 ==> LastHeight(states[n - 1]) <= LastHeight(states[n])
    ensures WellFormed(logs[n]) && logs[n].states[0] == states[0] && logs[n].states[|logs[n].blocks|].utxo == states[n].utxo
    ensures forall i, j :: 0 <= i < |logs[n].heights| && 0 <= j < |logs[n].heights| && logs[n].heights[i] == logs[n].heights[j] ==> i == j
    ensures forall i :: 0 <= i < |logs[n].heights| ==>
      LastHeight(states[0]) < logs[n].heights[i] <= LastHeight(states[n])
      && CommittedAt(logs[n], i) && AnsweredBy(polls, states, n, logs[n], i)
    ensures LastHeight(states[0]) < h <= LastHeight(states[n]) ==>
      h in logs[n].heights || exists k :: 0 <= k < n && outcomes[k] == Failed(Some(h))
  {
    RunIsConsistent(env, polls, outcomes, states, logs, n);
    if n > 0 { OnePollGrows(env, polls, outcomes, states, logs, n); }
    hide CommittedAt, PollStep;
    assert forall i :: 0 <= i < |logs[n].heights| ==> logs[n].heights[i] in logs[n].heights;
  }

  /** A height that was passed without a commit is never committed by a later poll. */
  lemma {:induction false} SkippedForever(env: Env, polls: seq<Poll>, outcomes: seq<Outcome>, states: seq<DbState>, logs: seq<Log>,
                                          m: nat, n: nat, h: int)
    requires Run(env, polls, outcomes, states, logs) && m <= n <= |outcomes|
    requires h <= LastHeight(states[m]) && h !in logs[m].heights
    ensures h !in logs[n].heights
    decreases n - m
  {
    if m < n {
      OnePollGrows(env, polls, outcomes, states, logs, n);
      hide PollStep, Continues;
      LastHeightGrows(env, polls, outcomes, states, logs, m, n - 1);
      SkippedForever(env, polls, outcomes, states, logs, m, n - 1, h);
      StaysOut(logs[n - 1], states[n - 1], logs[n], h);
    }
  }

  lemma StaysOut(l: Log, s: DbState, l': Log, h: int)
    requires Continues(l, s, l') && h <= LastHeight(s) && h !in l.heights
    ensures h !in l'.heights
  {
    forall i | 0 <= i < |l'.heights| ensures l'.heights[i] != h {
      if i < |l.heights| { assert l'.heights[i] == l.heights[i] && l.heights[i] in l.heights; }
    }
  }

  lemma OnePollGrows(env: Env, polls: seq<Poll>, outcomes: seq<Outcome>, states: seq<DbState>, logs: seq<Log>, n: nat)
    requires Run(env, polls, outcomes, states, logs) && 0 < n <= |outcomes|
    ensures LastHeight(states[n - 1]) <= LastHeight(states[n]) && Continues(logs[n - 1], states[n - 1], logs[n])
  {
    hide Consistent, PollStep, Continues, AnsweredBy;
    RunIsConsistent(env, polls, outcomes, states, logs, n - 1);
    assert PollStep(env, polls[n - 1], states[n - 1], logs[n - 1], outcomes[n - 1], states[n], logs[n]);
    hide Run, AskedIn;
    PollKeepsConsistent(states[0], env, polls[n - 1], states[n - 1], logs[n - 1], outcomes[n - 1], states[n], logs[n]);
  }

  lemma {:induction false} LastHeightGrows(env: Env, polls: seq<Poll>, outcomes: seq<Outcome>, states: seq<DbState>, logs: seq<Log>,
                                           m: nat, n: nat)
    requires Run(env, polls, outcomes, states, logs) && m <= n <= |outcomes|
    ensures LastHeight(states[m]) <= LastHeight(states[n])
    decreases n - m
  {
    if m < n {
      OnePollGrows(env, polls, outcomes, states, logs, n);
      hide PollStep;
      LastHeightGrows(env, polls, outcomes, states, logs, m, n - 1);
    }
  }

  /** When no error has named a height, exactly the heights since the origin were committed,
      in order: the database after the i-th commit stands at the i-th of them. */
  lemma NoErrorNoGap(origin: DbState, l: Log, s: DbState)
    requires Consistent(origin, l, s) && l.named == {}
    ensures |l.blocks| == LastHeight(s) - LastHeight(origin)
    ensures forall i :: 0 <= i < |l.blocks| ==>
      l.heights[i] == LastHeight(l.states[i + 1]) == LastHeight(origin) + 1 + i
  {
    ConsecutiveHeights(l.heights, LastHeight(origin), LastHeight(s));
    forall i | 0 <= i < |l.blocks| ensures l.heights[i] == LastHeight(l.states[i + 1]) {
      assert CommittedAt(l, i);
      CommittedProgress(l.states[i], ParsedBlock(l.states[i], l.watched[i], l.blocks[i]), l.heights[i], l.asked[i].hash.value, l.states[i + 1]);
    }
  }

  lemma {:induction false} ConsecutiveHeights(hs: seq<int>, low: int, high: int)
    requires Increasing(hs) && low <= high
    requires forall h :: h in hs <==> low < h <= high
    ensures hs == seq(high - low, i => low + 1 + i)
  {
    if low < high {
      assert high in hs;
      var n :| 0 <= n < |hs| && hs[n] == high;
      assert hs[|hs| - 1] in hs;
      assert n == |hs| - 1;
      var init := hs[..n];
      forall h ensures h in init <==> low < h <= high - 1 {
        if low < h <= high - 1 { assert h in hs; }
        if h in init { var k :| 0 <= k < n && init[k] == h; assert hs[k] == h && h in hs; }
      }
      ConsecutiveHeights(init, low, high - 1);
      assert hs == init + [high];
    } else {
      HasMember(hs);
      assert high - low == 0 == |hs|;
    }
  }

  lemma HasMember(s: seq<int>)
    ensures |s| == 0 || exists x :: x in s
  {
    if |s| > 0 { var x := s[0]; assert x in s; }
  }

  lemma LogIsRun(l: Log)
    requires WellFormed(l)
    ensures SequentialRun(l.states, l.blocks, l.watched)
  {
    forall k | 0 <= k < |l.blocks| ensures BlockIndexed(l.states[k], l.blocks[k], l.watched[k], l.states[k + 1]) {
      assert CommittedAt(l, k);
    }
  }

  /** The table tracks the ledger of the blocks since the origin, plus the outputs those blocks
      create and spend inside one block. */
  lemma CommittedBlocksTrackLedger(origin: DbState, l: Log, s: DbState, live: set<OutPoint>, extra: set<OutPoint>, ever: set<OutPoint>)
    requires Consistent(origin, l, s)
    requires Tracks(origin.utxo, live, extra, ever) && ValidFrom(live, ever, l.blocks)
    ensures Tracks(s.utxo, LedgerFrom(live, l.blocks), extra + SameBlock(l.blocks), ever + AllOuts(l.blocks))
  {
    LogIsRun(l);
    assert l.blocks[..|l.blocks|] == l.blocks;
    hide WellFormed, Covered, SequentialRun, Tracks, ValidFrom, LedgerFrom;
    SequentialRunTracksLedger(l.states, l.blocks, l.watched, |l.blocks|, live, extra, ever);
    TracksTable(l.states[|l.blocks|].utxo, s.utxo, LedgerFrom(live, l.blocks), extra + SameBlock(l.blocks), ever + AllOuts(l.blocks));
  }

  lemma TracksTable(t: Table, t': Table, live: set<OutPoint>, extra: set<OutPoint>, ever: set<OutPoint>)
    requires Tracks(t, live, extra, ever) && t == t'
    ensures Tracks(t', live, extra, ever)
  {}

  // ----- the code

  class Indexer {
    const db: DB
    const backfillWorkers: int
    const maxReorgDepth: int
    var inBackfillMode: bool
    ghost var log: Log

    ghost function Settings(): Env
      reads this
    {
      Env(inBackfillMode, backfillWorkers, maxReorgDepth)
    }

    constructor (db: DB, backfillWorkers: int, maxReorgDepth: int)
      ensures this.db == db && log == Beginning(db.state)
      ensures Settings() == Env(false, backfillWorkers, maxReorgDepth)
    {
      this.db, this.backfillWorkers, this.maxReorgDepth := db, backfillWorkers, maxReorgDepth;
      inBackfillMode := false;
      log := Beginning(db.state);
    }

    /** rollbackUTXOs: whatever its name, it only rewrites the progress row, and upwards. */
    method RollbackUTXOs(fromHeight: int, progress: Option<Error>, update: CommitFate) returns (r: Result<()>)
      modifies db`state
      ensures db.state == if progress == None && (update.Commits? || update.tookEffect)
                          then old(db.state).(progress := Some(Progress(fromHeight, ""))) else old(db.state)
      ensures r.Success? <==> progress == None && update.Commits?
    {
      var p := db.GetIndexProgress(progress);
      if p.Failure? { return Failure(p.error); }
      r := db.UpdateIndexProgress(fromHeight, "", update);
    }

    /** handleReorg: a walk back that asks the node for at most the configured number of hashes
        and uses none of the answers, then the rollback. */
    method HandleReorg(fromHeight: int, c: Conditions) returns (r: Result<()>, commonHeight: int)
      modifies db`state
      ensures var walked := c.walkProgress == None && FirstFault(c.walk, WalkLength(Settings(), fromHeight)) == None;
              && (r.Success? <==> walked && c.rollbackProgress == None && c.update.Commits?)
              && db.state == (if walked && c.rollbackProgress == None && (c.update.Commits? || c.update.tookEffect)
                              then Advanced(old(db.state), fromHeight) else old(db.state))
              && fromHeight - WalkLength(Settings(), fromHeight) <= commonHeight <= fromHeight
              && (walked ==> commonHeight == fromHeight - WalkLength(Settings(), fromHeight))
      ensures r.Success? ==>
        var depth := if maxReorgDepth <= 0 then 10 else maxReorgDepth;
        commonHeight == if fromHeight <= 0 then fromHeight else if fromHeight <= depth then 0 else fromHeight - depth
    {
      commonHeight := fromHeight;
      var maxDepth := maxReorgDepth;
      if maxDepth <= 0 { maxDepth := DEFAULT_REORG_DEPTH; }
      var p := db.GetIndexProgress(c.walkProgress);
      if p.Failure? { return Failure(p.error), commonHeight; }
      var depth := 0;
      while depth < maxDepth && commonHeight > 0
        invariant 0 <= depth <= WalkLength(Settings(), fromHeight) && commonHeight == fromHeight - depth
        invariant FirstFault(c.walk, depth) == None
      {
        if c.walk(depth).Some? {
          FirstFaultIs(c.walk, depth, WalkLength(Settings(), fromHeight));
          return Failure(c.walk(depth).value), commonHeight;
        }
        commonHeight := commonHeight - 1;
        depth := depth + 1;
      }
      r := RollbackUTXOs(fromHeight, c.rollbackProgress, c.update);
    }

    /** checkReorg. */
    method CheckReorg(height: int, blockHash: string, c: Conditions) returns (r: Result<()>)
      modifies db`state
      ensures r.Success? <==> CheckPasses(Settings(), old(db.state), height, blockHash, c)
      ensures db.state == AfterCheck(Settings(), old(db.state), height, blockHash, c)
      ensures db.state == old(db.state) || db.state == old(db.state).(progress := Some(Progress(height, "")))
      ensures db.state != old(db.state) <==>
        && !inBackfillMode && old(db.state).progress.Some? && old(db.state).progress.value.lastHeight != 0 && height != 0
        && height == old(db.state).progress.value.lastHeight + 1 && blockHash != old(db.state).progress.value.lastBlockHash
        && c.progress == None && c.walkProgress == None && c.rollbackProgress == None
        && (forall d: nat :: d < height && d < (if maxReorgDepth <= 0 then 10 else maxReorgDepth) ==> c.walk(d) == None)
        && (c.update.Commits? || c.update.tookEffect)
    {
      ReorgMovesIff(Settings(), db.state, height, blockHash, c);
      if inBackfillMode { return Success(()); }
      var progress := db.GetIndexProgress(c.progress);
      if progress.Failure? { return Failure(progress.error); }
      if height <= progress.value.lastHeight { return Success(()); }
      if progress.value.lastHeight == 0 || height == 0 { return Success(()); }
      if height == progress.value.lastHeight + 1 {
        if blockHash != progress.value.lastBlockHash {
          var commonHeight;
          r, commonHeight := HandleReorg(height, c);
          return;
        }
      }
      r := Success(());
    }

    /** processBlockWithCache, with the single transaction at its end. */
    method ProcessBlockWithCache(height: int, watched: map<string, WatchedScript>, c: Conditions) returns (r: Result<()>)
      modifies db`state, `log
      ensures BlockStep(Settings(), old(db.state), old(log), height, watched.Keys, c, r.Success?, db.state, log)
    {
      hide BlockCommitted, Parse, CheckPasses, ReorgMoves, ReachesCommit;
      ghost var s := db.state;
      if c.hash.Failure? { return Failure(c.hash.error); }
      var hash := c.hash.value;
      var checked := CheckReorg(height, hash, c);
      if checked.Failure? { return Failure(checked.error); }
      if c.block.Failure? { return Failure(c.block.error); }
      var block := c.block.value;
      assert db.state.utxo == s.utxo;
      var parsed := ParseBlockWithCache(db, block, watched, c.lookup);
      if parsed.Failure? { return Failure(parsed.error); }
      r := db.CommitBlock(parsed.value, height, hash, c.tx);
      if TakesHold(c.tx, parsed.value) {
        log := Log(log.states + [db.state], log.blocks + [block], log.watched + [watched.Keys], log.heights + [height], log.asked + [c], log.named);
      }
    }

    /** processBlockChunk: stops at the first block that fails, and names it. The poll says what
        the cache of watched scripts and the node answer. */
    method ProcessBlockChunk(startHeight: int, endHeight: int, p: Poll, ghost first: int, ghost s0: DbState, ghost l0: Log)
      returns (o: Outcome)
      requires first <= startHeight == ChunkStart(first, startHeight) && endHeight < startHeight + CHUNK_SIZE
      requires Blocks(Settings(), p, first, startHeight - first, s0, l0, db.state, log)
      modifies db`state, `log
      ensures Settings() == old(Settings())
      ensures o.Done? ==>
        Blocks(Settings(), p, first, (if endHeight < startHeight then startHeight else endHeight + 1) - first, s0, l0, db.state, log)
      ensures o == Failed(None) ==> p.scripts(startHeight).Failure? && db.state == old(db.state) && log == old(log)
      ensures o.Failed? && o.named.Some? ==>
        startHeight <= o.named.value <= endHeight && FailedAt(Settings(), p, first, o.named.value, s0, l0, db.state, log)
      ensures !o.HandedOver?
    {
      hide BlockStep, Blocks, ChunkStart;
      var scripts := p.scripts(startHeight);
      if scripts.Failure? { return Failed(None); }
      var height := startHeight;
      while height <= endHeight
        invariant startHeight <= height && (height <= endHeight + 1 || height == startHeight)
        invariant Settings() == old(Settings())
        invariant Blocks(Settings(), p, first, height - first, s0, l0, db.state, log)
      {
        ghost var s, l := db.state, log;
        var r := ProcessBlockWithCache(height, scripts.value, p.at(height));
        SameChunk(first, startHeight, height);
        assert HeightStep(Settings(), p, first, height, s, l, r.Success?, db.state, log);
        if r.Failure? { return Failed(Some(height)); }
        NextBlocks(Settings(), p, first, height - first, s0, l0, s, l, db.state, log);
        height := height + 1;
      }
      o := Done;
    }

    /** processBlocks: one poll. Large gaps go to the worker pool if there is one. */
    method ProcessBlocks(p: Poll) returns (o: Outcome)
      modifies db`state, `log
      ensures Settings() == old(Settings())
      ensures PollStep(Settings(), p, old(db.state), old(log), o, db.state, log)
      ensures var last := if old(db.state).progress.None? then 0 else old(db.state).progress.value.lastHeight;
              && (o.HandedOver? <==> p.tip.Success? && p.progress == None && backfillWorkers > 1 && p.tip.value - last > 1000)
              && (o.HandedOver? ==> o == HandedOver(last + 1, p.tip.value))
              && (o == Failed(None) && p.tip.Success? && p.progress.None? ==>
                    exists h :: last < h <= p.tip.value && (h - last - 1) % 10 == 0 && p.scripts(h).Failure?)
    {
      hide Blocks, ChunkStart, FailedAt;
      if p.tip.Failure? { return Failed(None); }
      var currentHeight := p.tip.value;
      var progress := db.GetIndexProgress(p.progress);
      if progress.Failure? { return Failed(None); }
      ghost var first := LastHeight(db.state) + 1;
      NoBlocks(Settings(), p, first, db.state, log);
      var last := progress.value.lastHeight;
      if currentHeight - last > BACKFILL_GAP && backfillWorkers > 1 { return HandedOver(last + 1, currentHeight); }
      var height := last + 1;
      ghost var done := 0;
      NextChunk(first, 0);
      while height <= currentHeight
        invariant height == first + done * CHUNK_SIZE == ChunkStart(first, height) && done >= 0
        invariant Settings() == old(Settings())
        invariant Blocks(Settings(), p, first, if height <= currentHeight then height - first else if currentHeight < first then 0 else currentHeight - first + 1,
                         old(db.state), old(log), db.state, log)
        decreases currentHeight - height
      {
        var endHeight := height + CHUNK_SIZE - 1;
        if endHeight > currentHeight { endHeight := currentHeight; }
        o := ProcessBlockChunk(height, endHeight, p, first, old(db.state), old(log));
        if o.Failed? {
          if o.named.Some? { log := Named(log, o.named.value); }
          return;
        }
        done := done + 1;
        NextChunk(first, done);
        height := height + CHUNK_SIZE;
      }
      o := Done;
    }

    /** blockPoller: poll after poll, going on after errors, up to the first one that goes to
        the worker pool. */
    method BlockPoller(polls: seq<Poll>) returns (outcomes: seq<Outcome>, ghost states: seq<DbState>, ghost logs: seq<Log>)
      requires log == Beginning(db.state)
      modifies db`state, `log
      ensures Run(old(Settings()), polls, outcomes, states, logs)
      ensures states[0] == old(db.state) && states[|outcomes|] == db.state && logs[|outcomes|] == log
      ensures |outcomes| < |polls| ==> |outcomes| > 0 && outcomes[|outcomes| - 1].HandedOver?
    {
      hide PollStep;
      outcomes, states, logs := [], [db.state], [log];
      for n := 0 to |polls|
        invariant |outcomes| == n && Settings() == old(Settings())
        invariant Run(Settings(), polls, outcomes, states, logs)
        invariant states[0] == old(db.state) && states[n] == db.state && logs[n] == log
      {
        var o := ProcessBlocks(polls[n]);
        outcomes, states, logs := outcomes + [o], states + [db.state], logs + [log];
        if o.HandedOver? { return; }
      }
    }
  }

  lemma SameChunk(first: int, start: int, h: int)
    requires first <= start == ChunkStart(first, start) && start <= h < start + CHUNK_SIZE
    ensures ChunkStart(first, h) == start
  {}

  lemma NextChunk(first: int, done: nat)
    ensures ChunkStart(first, first + done * CHUNK_SIZE) == first + done * CHUNK_SIZE
  {}

  lemma NoBlocks(env: Env, p: Poll, first: int, s: DbState, l: Log)
    ensures Blocks(env, p, first, 0, s, l, s, l)
  {}

  lemma NextBlocks(env: Env, p: Poll, first: int, n: nat, s: DbState, l: Log, s1: DbState, l1: Log, s': DbState, l': Log)
    requires Blocks(env, p, first, n, s, l, s1, l1) && HeightStep(env, p, first, first + n, s1, l1, true, s', l')
    ensures Blocks(env, p, first, n + 1, s, l, s', l')
  {
    hide HeightStep;
    assert BlocksVia(env, p, first, n + 1, s, l, s1, l1, s', l');
  }

  /** The whole property, for an indexer made on any database and polled any number of times. */
  method RunPoller(db: DB, backfillWorkers: int, maxReorgDepth: int, polls: seq<Poll>)
    returns (outcomes: seq<Outcome>, ghost states: seq<DbState>, ghost l: Log)
    modifies db`state
    ensures LastHeight(old(db.state)) <= LastHeight(db.state)
    ensures WellFormed(l) && l.states[0] == old(db.state) && l.states[|l.blocks|].utxo == db.state.utxo
    ensures Increasing(l.heights)
    ensures forall i :: 0 <= i < |l.heights| ==>
      LastHeight(old(db.state)) < l.heights[i] == LastHeight(l.states[i + 1]) <= LastHeight(db.state)
    ensures |outcomes| <= |polls| && |states| == |outcomes| + 1 && states[0] == old(db.state) && states[|outcomes|] == db.state
    ensures forall i :: 0 <= i < |l.heights| ==> AnsweredBy(polls, states, |outcomes|, l, i)
    ensures forall h :: LastHeight(old(db.state)) < h <= LastHeight(db.state) ==> h in l.heights || Failed(Some(h)) in outcomes
  {
    var i := new Indexer(db, backfillWorkers, maxReorgDepth);
    ghost var logs;
    outcomes, states, logs := i.BlockPoller(polls);
    l := i.log;
    RunIsConsistent(i.Settings(), polls, outcomes, states, logs, |outcomes|);
    hide Run;
    forall i | 0 <= i < |l.heights| ensures LastHeight(old(db.state)) < l.heights[i] == LastHeight(l.states[i + 1]) <= LastHeight(db.state) {
      assert CommittedAt(l, i) && l.heights[i] in l.heights;
      CommittedProgress(l.states[i], ParsedBlock(l.states[i], l.watched[i], l.blocks[i]), l.heights[i], l.asked[i].hash.value, l.states[i + 1]);
    }
  }
}
