/** The database: committed state, and the methods that change it. A transaction works on its
    own copy of the state; only a commit replaces the committed one. */
module Database {
  import opened Prelude
  import opened Models
  import opened Sorting
  import opened Statements
  import opened UtxoTable
  import opened Batching
  import opened ReferenceTable
  import opened Retry

  datatype DbState = DbState(utxo: Table, refs: RefTable, progress: Option<Progress>)

  /** Error messages the server sends for a malformed or self-conflicting statement are not
      among those a retry helps with. */
  const SERVER_ERROR := Error(false)

  function Chunks(n: nat, size: nat): nat
    requires size > 0
  {
    (n + size - 1) / size
  }

  // ----- the bulk operations inside a transaction

  /** The first thing that goes wrong in the chunk loop over a sorted list, if anything does. */
  function UpsertFailure(faults: Faults, sorted: seq<Utxo>, k: nat): Option<Error>
    decreases |sorted|
  {
    if |sorted| == 0 then None
    else if faults(k).Some? then faults(k)
    else
      var m := Min(UPSERT_BATCH, |sorted|);
      if DistinctOps(sorted[..m]) then UpsertFailure(faults, sorted[m..], k + 1) else Some(SERVER_ERROR)
  }

  /** It does not depend on what the sort does with ties. */
  lemma {:induction false} UpsertFailureOfSorts(faults: Faults, a: seq<Utxo>, b: seq<Utxo>, k: nat)
    requires Ops(a) == Ops(b)
    ensures UpsertFailure(faults, a, k) == UpsertFailure(faults, b, k)
    decreases |a|
  {
    assert |a| == |Ops(a)| == |b|;
    forall i | 0 <= i < |a| ensures a[i].op == b[i].op { assert Ops(a)[i] == Ops(b)[i]; }
    if |a| > 0 {
      var m := Min(UPSERT_BATCH, |a|);
      assert Ops(a[m..]) == Ops(b[m..]);
      UpsertFailureOfSorts(faults, a[m..], b[m..], k + 1);
    }
  }

  ghost predicate NoFaultFrom(faults: Faults, k: nat, calls: nat) {
    forall j: nat :: k <= j < k + calls ==> faults(j) == None
  }

  /** Nothing goes wrong exactly when no statement fails and no chunk repeats a key. */
  lemma {:induction false} UpsertFailureNone(faults: Faults, sorted: seq<Utxo>, k: nat)
    requires Sorted(sorted)
    ensures UpsertFailure(faults, sorted, k) == None <==>
      NoFaultFrom(faults, k, Chunks(|sorted|, UPSERT_BATCH)) && NoRepeatInChunk(sorted, UPSERT_BATCH)
    decreases |sorted|
  {
    if |sorted| > 0 {
      var m := Min(UPSERT_BATCH, |sorted|);
      UpsertFailureNone(faults, sorted[m..], k + 1);
      RepeatSplit(sorted, UPSERT_BATCH);
      hide NoRepeatInChunk;
      assert Chunks(|sorted|, UPSERT_BATCH) == 1 + Chunks(|sorted| - m, UPSERT_BATCH);
      NoFaultFromNext(faults, k, Chunks(|sorted|, UPSERT_BATCH));
    }
  }

  lemma NoFaultFromNext(faults: Faults, k: nat, calls: nat)
    requires calls > 0
    ensures NoFaultFrom(faults, k, calls) <==> faults(k) == None && NoFaultFrom(faults, k + 1, calls - 1)
  {}

  method BulkUpsertUTXOsInTx(work: Table, utxos: seq<Utxo>, faults: Faults)
    returns (r: Result<Table>, ghost sorted: seq<Utxo>)
    ensures IsSortOf(sorted, utxos)
    ensures r.Success? <==> NoFault(faults, Chunks(|utxos|, 5000)) && Insertable(utxos, 5000)
    ensures r.Success? ==> r.value == UpsertAll(work, sorted)
    ensures UpsertFailure(faults, SortOf(utxos), 0) == if r.Success? then None else Some(r.error)
  {
    hide ExecUpsert, UpsertAll, NoRepeatInChunk, Insertable, Groups, UpsertRows, Flatten, UpsertFailure, SortOf, IsSortOf, DistinctOps;
    var rows := SortedCopy(utxos);
    sorted := rows;
    UpsertFailureMeaning(faults, utxos, rows);
    NoUpsertChunk(work, rows);
    var t, i, k := work, 0, 0;
    while i < |rows|
      invariant 0 <= i <= |rows|
      invariant UpsertFailure(faults, rows, 0) == UpsertFailure(faults, rows[i..], k)
      invariant t == UpsertAll(work, rows[..i])
      decreases |rows| - i
    {
      var end := i + UPSERT_BATCH;
      if end > |rows| { end := |rows|; }
      var batch := rows[i..end];
      var s := BuildStatement(UpsertRows(batch), 9);
      UpsertStatementMeaning(t, batch, s);
      NextUpsertChunk(work, faults, rows, i, end, k);
      if faults(k).Some? { return Failure(faults(k).value), sorted; }
      var after := ExecUpsert(t, s);
      if after.None? { return Failure(SERVER_ERROR), sorted; }
      t, i, k := after.value, end, k + 1;
    }
    AllUpsertChunks(faults, k);
    assert rows[..i] == rows && rows[i..] == [];
    r := Success(t);
  }

  lemma UpsertFailureMeaning(faults: Faults, utxos: seq<Utxo>, sorted: seq<Utxo>)
    requires IsSortOf(sorted, utxos)
    ensures UpsertFailure(faults, SortOf(utxos), 0) == UpsertFailure(faults, sorted, 0)
    ensures UpsertFailure(faults, sorted, 0) == None <==>
      NoFault(faults, Chunks(|utxos|, UPSERT_BATCH)) && Insertable(utxos, UPSERT_BATCH)
  {
    SameMembers(sorted, utxos);
    SortsAgreeOnKeys(SortOf(utxos), sorted, utxos);
    UpsertFailureOfSorts(faults, SortOf(utxos), sorted, 0);
    UpsertFailureNone(faults, sorted, 0);
    InsertableByOneSort(utxos, sorted, UPSERT_BATCH);
    hide NoRepeatInChunk, Insertable, UpsertFailure;
    assert NoFaultFrom(faults, 0, Chunks(|utxos|, UPSERT_BATCH)) <==> NoFault(faults, Chunks(|utxos|, UPSERT_BATCH));
  }

  lemma NextUpsertChunk(work: Table, faults: Faults, rows: seq<Utxo>, i: nat, end: nat, k: nat)
    requires i < |rows| && end == Min(i + UPSERT_BATCH, |rows|)
    ensures UpsertFailure(faults, rows[i..], k)
         == if faults(k).Some? then faults(k)
            else if DistinctOps(rows[i..end]) then UpsertFailure(faults, rows[end..], k + 1) else Some(SERVER_ERROR)
    ensures UpsertAll(work, rows[..end]) == UpsertAll(UpsertAll(work, rows[..i]), rows[i..end])
  {
    var m := Min(UPSERT_BATCH, |rows[i..]|);
    assert rows[i..][..m] == rows[i..end];
    assert rows[i..][m..] == rows[end..];
    assert rows[..end] == rows[..i] + rows[i..end];
    UpsertAllConcat(work, rows[..i], rows[i..end]);
  }

  lemma NoUpsertChunk(work: Table, rows: seq<Utxo>)
    ensures UpsertAll(work, rows[..0]) == work && rows[0..] == rows
  {}

  lemma AllUpsertChunks(faults: Faults, k: nat)
    ensures UpsertFailure(faults, [], k) == None
  {}

  lemma UpsertStatementMeaning(t: Table, batch: seq<Utxo>, s: Statement<Arg>)
    requires s == Statement(Groups(|batch|, 9), Flatten(UpsertRows(batch)))
    ensures ExecUpsert(t, s) == if Sendable(batch) then Some(UpsertAll(t, batch)) else None
  {
    hide UpsertColumns, RowFromColumns, UpsertAll;
    FlattenLength(UpsertRows(batch), 9);
    if 0 < |batch| && |batch| * 9 <= MAX_PARAMETERS {
      BindingRoundTrip(UpsertRows(batch), 9);
      ExecUpsertMeaning(t, batch, s);
    }
  }

  /** A statement the server accepts: it has rows, not too many, and no key twice. */
  predicate Sendable(batch: seq<Utxo>) {
    0 < |batch| && |batch| * 9 <= MAX_PARAMETERS && DistinctOps(batch)
  }

  method BulkMarkUTXOsSpentInTx(work: Table, spent: seq<Utxo>, faults: Faults)
    returns (r: Result<Table>, ghost sorted: seq<Utxo>)
    ensures IsSortOf(sorted, spent)
    ensures FirstFault(faults, Chunks(|spent|, 1000)) == if r.Success? then None else Some(r.error)
    ensures r.Success? ==> r.value == MarkChunks(work, sorted, 1000)
  {
    hide MarkChunks, ExecMark, Groups, Flatten, KeyRows, FirstFault, IsSortOf;
    NoMarkChunk(work, faults);
    var rows := SortedCopy(spent);
    sorted := rows;
    SameMembers(rows, spent);
    SortKeepsLength(rows, spent);
    var t, i, k := work, 0, 0;
    assert rows[0..] == rows;
    while i < |rows|
      invariant 0 <= i <= |rows| && (i == k * MARK_BATCH || i == |rows|)
      invariant k == Chunks(i, MARK_BATCH) && FirstFault(faults, k) == None
      invariant MarkChunks(work, rows, MARK_BATCH) == MarkChunks(t, rows[i..], MARK_BATCH)
      decreases |rows| - i
    {
      var end := i + MARK_BATCH;
      if end > |rows| { end := |rows|; }
      var batch := rows[i..end];
      var s := BuildStatement(KeyRows(batch), 2);
      var args := s.args + [OptNum(batch[0].row.spentAt), OptText(batch[0].row.spentByTxid)];
      MarkStatementMeaning(t, batch, s);
      FirstFaultIs(faults, k, Chunks(|rows|, MARK_BATCH));
      FirstFaultIs(faults, k, k + 1);
      if faults(k).Some? { return Failure(faults(k).value), sorted; }
      var after := ExecMark(t, Statement(s.values, args), |args| - 1, |args|);
      NextMarkChunk(t, rows, i, end);
      t, i, k := after.value, end, k + 1;
    }
    assert rows[i..] == [];
    NoMarkChunk(t, faults);
    r := Success(t);
  }

  lemma SortKeepsLength(sorted: seq<Utxo>, us: seq<Utxo>)
    requires IsSortOf(sorted, us)
    ensures |sorted| == |us|
  {
    SameMembers(sorted, us);
  }

  lemma NoMarkChunk(t: Table, faults: Faults)
    ensures MarkChunks(t, [], MARK_BATCH) == t && FirstFault(faults, 0) == None
  {}

  lemma NextMarkChunk(t: Table, rows: seq<Utxo>, i: nat, end: nat)
    requires i < |rows| && end == Min(i + MARK_BATCH, |rows|)
    ensures MarkChunks(t, rows[i..], MARK_BATCH)
         == MarkChunks(MarkMany(t, OpsOf(rows[i..end]), StampOf(rows[i])), rows[end..], MARK_BATCH)
  {
    hide MarkMany, OpsOf;
    var m := Min(MARK_BATCH, |rows[i..]|);
    assert rows[i..][..m] == rows[i..end];
    assert rows[i..][m..] == rows[end..];
  }

  lemma MarkStatementMeaning(t: Table, batch: seq<Utxo>, s: Statement<Arg>)
    requires 0 < |batch| <= MARK_BATCH
    requires s == Statement(Groups(|batch|, 2), Flatten(KeyRows(batch)))
    ensures var args := s.args + [OptNum(batch[0].row.spentAt), OptText(batch[0].row.spentByTxid)];
            ExecMark(t, Statement(s.values, args), |args| - 1, |args|) == Some(MarkMany(t, OpsOf(batch), StampOf(batch[0])))
  {
    BindingRoundTrip(KeyRows(batch), 2);
    ExecMarkMeaning(t, batch, s, StampOf(batch[0]));
  }

  /** The first thing that goes wrong in the loop over the references, which are not sorted. */
  function RefFailure(faults: Faults, rs: seq<TxReference>, k: nat): Option<Error>
    decreases |rs|
  {
    if |rs| == 0 then None
    else if faults(k).Some? then faults(k)
    else
      var m := Min(REFS_BATCH, |rs|);
      if DistinctRefs(rs[..m]) then RefFailure(faults, rs[m..], k + 1) else Some(SERVER_ERROR)
  }

  lemma {:induction false} RefFailureNone(faults: Faults, rs: seq<TxReference>, k: nat)
    ensures RefFailure(faults, rs, k) == None <==>
      NoFaultFrom(faults, k, Chunks(|rs|, REFS_BATCH)) && RefChunksDistinct(rs, REFS_BATCH)
    decreases |rs|
  {
    if |rs| > 0 {
      var m := Min(REFS_BATCH, |rs|);
      RefFailureNone(faults, rs[m..], k + 1);
      assert Chunks(|rs|, REFS_BATCH) == 1 + Chunks(|rs| - m, REFS_BATCH);
      NoFaultFromNext(faults, k, Chunks(|rs|, REFS_BATCH));
    }
  }

  method BulkUpsertTxReferencesInTx(work: RefTable, refs: seq<TxReference>, createdAt: int, faults: Faults) returns (r: Result<RefTable>)
    ensures r.Success? <==> NoFault(faults, Chunks(|refs|, 5000)) && RefChunksDistinct(refs, 5000)
    ensures r.Success? ==> r.value == UpsertRefs(work, refs)
    ensures RefFailure(faults, refs, 0) == if r.Success? then None else Some(r.error)
  {
    RefFailureNone(faults, refs, 0);
    assert NoFaultFrom(faults, 0, Chunks(|refs|, REFS_BATCH)) <==> NoFault(faults, Chunks(|refs|, REFS_BATCH));
    hide RefChunksDistinct, UpsertRefs, DistinctRefs, ExecRefs, RefFailure, Groups, Flatten, RefRows, NoFault, NoFaultFrom;
    NoRefs(work);
    var t, i, k := work, 0, 0;
    assert refs[0..] == refs && refs[..0] == [];
    while i < |refs|
      invariant 0 <= i <= |refs|
      invariant RefFailure(faults, refs, 0) == RefFailure(faults, refs[i..], k)
      invariant t == UpsertRefs(work, refs[..i])
      decreases |refs| - i
    {
      var end := i + REFS_BATCH;
      if end > |refs| { end := |refs|; }
      var batch := refs[i..end];
      var s := BuildStatement(RefRows(batch, createdAt), 9);
      RefStatementMeaning(t, batch, createdAt, s);
      NextRefChunk(work, faults, refs, i, end, k);
      if faults(k).Some? { return Failure(faults(k).value); }
      var after := ExecRefs(t, s);
      if after.None? { return Failure(SERVER_ERROR); }
      t, i, k := after.value, end, k + 1;
    }
    AllRefChunks(faults, k);
    assert refs[..i] == refs && refs[i..] == [];
    r := Success(t);
  }

  lemma RefStatementMeaning(t: RefTable, batch: seq<TxReference>, createdAt: int, s: Statement<Arg>)
    requires 0 < |batch| <= REFS_BATCH
    requires s == Statement(Groups(|batch|, 9), Flatten(RefRows(batch, createdAt)))
    ensures ExecRefs(t, s) == if DistinctRefs(batch) then Some(UpsertRefs(t, batch)) else None
  {
    hide RefColumns, RefFromColumns, UpsertRefs;
    BindingRoundTrip(RefRows(batch, createdAt), 9);
    ExecRefsMeaning(t, batch, createdAt, s);
  }

  lemma NoRefs(t: RefTable)
    ensures UpsertRefs(t, []) == t
  {}

  lemma AllRefChunks(faults: Faults, k: nat)
    ensures RefFailure(faults, [], k) == None
  {}

  lemma NextRefChunk(work: RefTable, faults: Faults, refs: seq<TxReference>, i: nat, end: nat, k: nat)
    requires i < |refs| && end == Min(i + REFS_BATCH, |refs|)
    ensures RefFailure(faults, refs[i..], k)
         == if faults(k).Some? then faults(k)
            else if DistinctRefs(refs[i..end]) then RefFailure(faults, refs[end..], k + 1) else Some(SERVER_ERROR)
    ensures UpsertRefs(work, refs[..end]) == UpsertRefs(UpsertRefs(work, refs[..i]), refs[i..end])
  {
    var m := Min(REFS_BATCH, |refs[i..]|);
    assert refs[i..][..m] == refs[i..end];
    assert refs[i..][m..] == refs[end..];
    assert refs[..end] == refs[..i] + refs[i..end];
    UpsertRefsConcat(work, refs[..i], refs[i..end]);
  }

  // ----- committed state

  /** The fate of every call of one block's transaction, and the creation time of its references. */
  datatype TxFaults = TxFaults(begin: Option<Error>, transactions: Option<Error>, upsert: Faults, mark: Faults,
                               refs: Faults, progress: Option<Error>, commit: CommitFate, createdAt: int)

  /** No call before the commit fails. */
  predicate Clear(f: TxFaults, p: Parsed) {
    && f.begin == None && f.transactions == None && f.progress == None
    && FirstFault(f.upsert, Chunks(|p.created|, UPSERT_BATCH)) == None
    && FirstFault(f.mark, Chunks(|p.spent|, MARK_BATCH)) == None
    && FirstFault(f.refs, Chunks(|p.refs|, REFS_BATCH)) == None
  }

  /** The transaction comes to its commit: no call fails before, and no multi-row statement
      names a key twice. */
  ghost predicate ReachesCommit(f: TxFaults, p: Parsed) {
    Clear(f, p) && Insertable(p.created, UPSERT_BATCH) && RefChunksDistinct(p.refs, REFS_BATCH)
  }

  ghost predicate GoesThrough(f: TxFaults, p: Parsed) { ReachesCommit(f, p) && f.commit.Commits? }

  /** It changes the database, acknowledged or not. */
  ghost predicate TakesHold(f: TxFaults, p: Parsed) {
    ReachesCommit(f, p) && (f.commit.Commits? || f.commit.tookEffect)
  }

  /** What the transaction reports: the first failure, in the order of its calls. */
  function CommitResult(f: TxFaults, p: Parsed): Result<()> {
    if f.begin.Some? then Failure(f.begin.value)
    else if f.transactions.Some? then Failure(f.transactions.value)
    else if UpsertFailure(f.upsert, SortOf(p.created), 0).Some? then Failure(UpsertFailure(f.upsert, SortOf(p.created), 0).value)
    else if FirstFault(f.mark, Chunks(|p.spent|, MARK_BATCH)).Some? then Failure(FirstFault(f.mark, Chunks(|p.spent|, MARK_BATCH)).value)
    else if RefFailure(f.refs, p.refs, 0).Some? then Failure(RefFailure(f.refs, p.refs, 0).value)
    else if f.progress.Some? then Failure(f.progress.value)
    else if f.commit.Commits? then Success(())
    else Failure(f.commit.error)
  }

  /** It reports success exactly when it goes through. */
  lemma CommitResultSucceedsIff(f: TxFaults, p: Parsed)
    ensures CommitResult(f, p).Success? <==> GoesThrough(f, p)
  {
    hide UpsertFailure, RefFailure, Insertable, RefChunksDistinct, SortOf;
    UpsertFailureMeaning(f.upsert, p.created, SortOf(p.created));
    RefFailureNone(f.refs, p.refs, 0);
    assert NoFaultFrom(f.refs, 0, Chunks(|p.refs|, REFS_BATCH)) <==> NoFault(f.refs, Chunks(|p.refs|, REFS_BATCH));
  }

  lemma {:induction false} OnlyRepeats(faults: Faults, sorted: seq<Utxo>, k: nat)
    requires NoFaultFrom(faults, k, Chunks(|sorted|, UPSERT_BATCH))
    ensures UpsertFailure(faults, sorted, k) == None || UpsertFailure(faults, sorted, k) == Some(Error(false))
    decreases |sorted|
  {
    if |sorted| > 0 {
      var m := Min(UPSERT_BATCH, |sorted|);
      assert Chunks(|sorted|, UPSERT_BATCH) == 1 + Chunks(|sorted| - m, UPSERT_BATCH);
      NoFaultFromNext(faults, k, Chunks(|sorted|, UPSERT_BATCH));
      OnlyRepeats(faults, sorted[m..], k + 1);
    }
  }

  lemma {:induction false} OnlyRepeatedRefs(faults: Faults, rs: seq<TxReference>, k: nat)
    requires NoFaultFrom(faults, k, Chunks(|rs|, REFS_BATCH))
    ensures RefFailure(faults, rs, k) == None || RefFailure(faults, rs, k) == Some(Error(false))
    decreases |rs|
  {
    if |rs| > 0 {
      var m := Min(REFS_BATCH, |rs|);
      assert Chunks(|rs|, REFS_BATCH) == 1 + Chunks(|rs| - m, REFS_BATCH);
      NoFaultFromNext(faults, k, Chunks(|rs|, REFS_BATCH));
      OnlyRepeatedRefs(faults, rs[m..], k + 1);
    }
  }

  /** A block that no failing call stops, but a repeated key does, is refused for good: the error
      is not one that a retry helps with. */
  lemma RepeatedKeyIsFinal(f: TxFaults, p: Parsed)
    requires Clear(f, p) && !ReachesCommit(f, p)
    ensures CommitResult(f, p) == Failure(Error(false))
  {
    var sorted := SortOf(p.created);
    UpsertFailureMeaning(f.upsert, p.created, sorted);
    RefFailureNone(f.refs, p.refs, 0);
    SameMembers(sorted, p.created);
    assert NoFault(f.upsert, Chunks(|p.created|, UPSERT_BATCH)) && NoFault(f.refs, Chunks(|p.refs|, REFS_BATCH));
    OnlyRepeats(f.upsert, sorted, 0);
    OnlyRepeatedRefs(f.refs, p.refs, 0);
  }

  lemma NoAttempt(attempts: nat -> Attempt, n: nat)
    ensures !SomeTakesEffect(attempts, n, 0)
  {}

  /** `after` is what committing a parsed block on top of `before` leaves, for some order
      the sorts may have chosen. */
  ghost predicate BlockCommitted(before: DbState, p: Parsed, height: int, hash: string, after: DbState) {
    exists created, spent ::
      IsSortOf(created, p.created) && IsSortOf(spent, p.spent) && after == Applied(before, created, spent, p.refs, height, hash)
  }

  function Applied(s: DbState, created: seq<Utxo>, spent: seq<Utxo>, refs: seq<TxReference>, height: int, hash: string): DbState {
    DbState(MarkChunks(UpsertAll(s.utxo, created), spent, MARK_BATCH), UpsertRefs(s.refs, refs), Some(Progress(height, hash)))
  }

  /** No row yet reads as height 0. */
  function ProgressOf(s: DbState): Progress {
    if s.progress.None? then Progress(0, "") else s.progress.value
  }

  /** No chunk of the list, as it stands, names a key twice. */
  predicate ChunksDistinct(us: seq<Utxo>, size: nat)
    requires size > 0
    decreases |us|
  {
    |us| == 0 || (DistinctOps(us[..Min(size, |us|)]) && ChunksDistinct(us[Min(size, |us|)..], size))
  }

  /** What an attempt at one multi-row statement reports. */
  function StatementResult(a: Attempt, sendable: bool): Result<()> {
    if a.begin.Some? then Failure(a.begin.value)
    else if a.statement(0).Some? then Failure(a.statement(0).value)
    else if !sendable then Failure(SERVER_ERROR)
    else if a.commit.Commits? then Success(())
    else Failure(a.commit.error)
  }

  lemma StatementIs(a: Attempt, sendable: bool)
    ensures StatementResult(a, sendable).Success? <==> a.begin == None && a.statement(0) == None && sendable && a.commit.Commits?
    ensures sendable ==> StatementResult(a, sendable) == AttemptResult(a, 1)
    ensures a.begin == None && a.statement(0) == None && !sendable ==> StatementResult(a, sendable) == Failure(Error(false))
  {
    assert FirstFault(a.statement, 1) == a.statement(0);
  }

  function StatementOutcomes(attempts: nat -> Attempt, sendable: bool): nat -> Result<()> {
    (k: nat) => StatementResult(attempts(k), sendable)
  }

  /** What one pass over the chunks reports: the retries of one chunk after the other, up to the
      first that gives up. */
  function PassResult(us: seq<Utxo>, attempts: nat -> (nat -> Attempt), k: nat): Result<()>
    decreases |us|
  {
    if |us| == 0 then Success(())
    else
      var m := Min(OPTIMIZED_BATCH, |us|);
      var r := RetryResult(StatementOutcomes(attempts(k), Sendable(us[..m])), 0, 5);
      if r.Failure? then r else PassResult(us[m..], attempts, k + 1)
  }

  /** The results of pass after pass. */
  function PassOutcomes(us: seq<Utxo>, attempts: nat -> (nat -> (nat -> Attempt))): nat -> Result<()> {
    (pass: nat) => PassResult(us, attempts(pass), 0)
  }

  /** A pass succeeds exactly when no chunk of a thousand repeats a key and the attempts at every
      chunk end in success. */
  lemma {:induction false} PassSucceedsIff(us: seq<Utxo>, attempts: nat -> (nat -> Attempt), k: nat)
    ensures PassResult(us, attempts, k).Success? <==>
      && ChunksDistinct(us, 1000)
      && forall j: nat :: k <= j < k + (|us| + 999) / 1000 ==> RetryResult(StatementOutcomes(attempts(j), true), 0, 5).Success?
    decreases |us|
  {
    if |us| > 0 {
      var m := Min(OPTIMIZED_BATCH, |us|);
      PassSucceedsIff(us[m..], attempts, k + 1);
      assert Sendable(us[..m]) <==> DistinctOps(us[..m]);
      assert (|us| + 999) / 1000 == 1 + (|us| - m + 999) / 1000;
      RetrySucceedsIff(StatementOutcomes(attempts(k), false), 0, 5);
      forall n: nat ensures StatementOutcomes(attempts(k), false)(n).Failure? { StatementIs(attempts(k)(n), false); }
      hide DistinctOps, StatementResult;
    }
  }

  lemma NextDistinctChunk(us: seq<Utxo>, i: nat, end: nat, attempts: nat -> (nat -> Attempt), k: nat)
    requires i < |us| && end == Min(i + OPTIMIZED_BATCH, |us|)
    ensures ChunksDistinct(us[i..], OPTIMIZED_BATCH) <==> DistinctOps(us[i..end]) && ChunksDistinct(us[end..], OPTIMIZED_BATCH)
    ensures var r := RetryResult(StatementOutcomes(attempts(k), Sendable(us[i..end])), 0, 5);
            PassResult(us[i..], attempts, k) == if r.Failure? then r else PassResult(us[end..], attempts, k + 1)
  {
    var m := Min(OPTIMIZED_BATCH, |us[i..]|);
    assert us[i..][..m] == us[i..end];
    assert us[i..][m..] == us[end..];
  }

  lemma KeysInjective()
    ensures forall a, b :: Key(a) == Key(b) ==> a == b
  {
    forall a, b | Key(a) == Key(b) ensures a == b { KeyInjective(a, b); }
  }

  /** The loop over the result rows, which come in no particular order. */
  method ScanRows(t: Table, rows: set<OutPoint>) returns (result: map<string, Utxo>)
    requires rows <= t.Keys
    ensures forall o :: o in rows ==> Key(o) in result && result[Key(o)] == Utxo(o, t[o])
    ensures forall k :: k in result ==> exists o :: o in rows && k == Key(o)
  {
    KeysInjective();
    hide Key;
    var left := rows;
    result := map[];
    while left != {}
      invariant left <= rows
      invariant forall o :: o in rows && o !in left ==> Key(o) in result && result[Key(o)] == Utxo(o, t[o])
      invariant forall k :: k in result ==> exists o :: o in rows && k == Key(o)
      decreases |left|
    {
      var o :| o in left;
      var k := Key(o);
      result := result[k := Utxo(o, t[o])];
      left := left - {o};
    }
  }

  class DB {
    var state: DbState
    /** The watched_script table, by its unique script_hex. */
    var watched: map<string, WatchedScript>

    constructor ()
      ensures state == DbState(map[], map[], None) && watched == map[]
    {
      state := DbState(map[], map[], None);
      watched := map[];
    }

    method GetIndexProgress(fault: Option<Error>) returns (r: Result<Progress>)
      ensures fault.Some? ==> r == Failure(fault.value)
      ensures fault.None? ==> r == Success(ProgressOf(state))
      ensures fault.None? ==> r == Success(if state.progress.None? then Progress(0, "") else state.progress.value)
    {
      if fault.Some? { return Failure(fault.value); }
      if state.progress.None? { return Success(Progress(0, "")); }
      r := Success(state.progress.value);
    }

    /** An autocommitted statement: an error may be reported although it took effect. */
    method UpdateIndexProgress(height: int, hash: string, fate: CommitFate) returns (r: Result<()>)
      modifies `state
      ensures r == if fate.Commits? then Success(()) else Failure(fate.error)
      ensures state == if fate.Commits? || fate.tookEffect
                       then old(state).(progress := Some(Progress(height, hash))) else old(state)
    {
      if fate.Commits? || fate.tookEffect {
        state := state.(progress := Some(Progress(height, hash)));
      }
      r := if fate.Commits? then Success(()) else Failure(fate.error);
    }

    method AddWatchedScript(script: WatchedScript)
      modifies `watched
      ensures script.scriptHex in watched
      ensures forall h :: h in old(watched) ==> h in watched && watched[h] == old(watched)[h]
      ensures forall h :: h in watched ==> h in old(watched) || (h == script.scriptHex && watched[h] == script)
    {
      if script.scriptHex !in watched {
        watched := watched[script.scriptHex := script];
      }
    }

    /** A single row, if it is there and unspent. */
    function GetUTXO(o: OutPoint): Option<Utxo>
      reads `state
    {
      if o in state.utxo && IsUnspent(state.utxo[o]) then Some(Utxo(o, state.utxo[o])) else None
    }

    /** One query for many rows. The result, keyed by "txid:vout", has an entry for a
        reference exactly when looking it up alone finds a row, and then it is that row;
        nothing else is in it. */
    method BatchGetUTXOs(refs: seq<OutPoint>, fault: Option<Error>) returns (r: Result<map<string, Utxo>>)
      ensures |refs| > 0 && fault.Some? ==> r == Failure(fault.value)
      ensures |refs| == 0 || fault.None? ==> r.Success?
      ensures r.Success? ==> forall o :: o in refs ==>
        if GetUTXO(o).Some? then Key(o) in r.value && r.value[Key(o)] == GetUTXO(o).value else Key(o) !in r.value
      ensures r.Success? ==> forall o :: o in refs ==>
        if o in state.utxo && (state.utxo[o].status == Mempool || state.utxo[o].status == Confirmed)
        then Key(o) in r.value && r.value[Key(o)] == Utxo(o, state.utxo[o]) else Key(o) !in r.value
      ensures r.Success? ==> forall k :: k in r.value ==> exists o :: o in refs && k == Key(o)
    {
      if |refs| == 0 { return Success(map[]); }
      var txids, vouts := seq(|refs|, i requires 0 <= i < |refs| => refs[i].txid), seq(|refs|, i requires 0 <= i < |refs| => refs[i].vout);
      if fault.Some? { return Failure(fault.value); }
      // The two arrays are unnested side by side.
      var wanted := set i | 0 <= i < |refs| :: OutPoint(txids[i], vouts[i]);
      assert forall i :: 0 <= i < |refs| ==> OutPoint(txids[i], vouts[i]) == refs[i];
      assert forall o :: o in wanted <==> o in refs;
      var rows := set o | o in wanted && o in state.utxo && IsUnspent(state.utxo[o]);
      var result := ScanRows(state.utxo, rows);
      KeysInjective();
      hide Key;
      r := Success(result);
    }

    /** The single transaction of a block: rows, spends, references and progress together, or
        nothing of it. It goes through exactly when no call fails and no multi-row statement
        names a key twice. */
    method CommitBlock(p: Parsed, height: int, hash: string, f: TxFaults) returns (r: Result<()>)
      modifies `state
      ensures r == CommitResult(f, p) && (r.Success? <==> GoesThrough(f, p))
      ensures TakesHold(f, p) ==> BlockCommitted(old(state), p, height, hash, state)
      ensures !TakesHold(f, p) ==> state == old(state)
    {
      hide UpsertFailure, RefFailure, Insertable, RefChunksDistinct, SortOf, MarkChunks, UpsertAll, UpsertRefs;
      CommitResultSucceedsIff(f, p);
      if f.begin.Some? { return Failure(f.begin.value); }
      if f.transactions.Some? { return Failure(f.transactions.value); }
      var upserted, created := BulkUpsertUTXOsInTx(state.utxo, p.created, f.upsert);
      if upserted.Failure? { return Failure(upserted.error); }
      var marked, spent := BulkMarkUTXOsSpentInTx(upserted.value, p.spent, f.mark);
      if marked.Failure? { return Failure(marked.error); }
      var refs := BulkUpsertTxReferencesInTx(state.refs, p.refs, f.createdAt, f.refs);
      if refs.Failure? { return Failure(refs.error); }
      if f.progress.Some? { return Failure(f.progress.value); }
      ghost var before := state;
      if f.commit.Commits? || f.commit.tookEffect {
        state := DbState(marked.value, refs.value, Some(Progress(height, hash)));
        assert state == Applied(before, created, spent, p.refs, height, hash);
        assert BlockCommitted(before, p, height, hash, state);
      }
      r := if f.commit.Commits? then Success(()) else Failure(f.commit.error);
    }

    // ----- batches with retry

    /** One run of the closure handed to executeWithRetry by BatchUpsertUTXOs. */
    method UpsertAttempt(rows: seq<Utxo>, a: Attempt) returns (r: Result<()>)
      modifies `state
      ensures r == AttemptResult(a, |rows|)
      ensures state == if TakesEffect(a, |rows|) then old(state).(utxo := UpsertAll(old(state).utxo, rows)) else old(state)
    {
      if a.begin.Some? { return Failure(a.begin.value); }
      var work, i := state.utxo, 0;
      while i < |rows|
        invariant 0 <= i <= |rows| && FirstFault(a.statement, i) == None
        invariant work == UpsertAll(state.utxo, rows[..i])
        invariant state == old(state)
      {
        if a.statement(i).Some? {
          FirstFaultIs(a.statement, i, |rows|);
          return Failure(a.statement(i).value);
        }
        assert rows[..i + 1][..i] == rows[..i];
        work, i := UpsertRow(work, rows[i]), i + 1;
      }
      assert rows[..|rows|] == rows;
      if a.commit.Commits? || a.commit.tookEffect { state := state.(utxo := work); }
      r := if a.commit.Commits? then Success(()) else Failure(a.commit.error);
    }

    /** One run of the closure of BatchMarkUTXOsSpent. */
    method MarkAttempt(rows: seq<Utxo>, a: Attempt) returns (r: Result<()>)
      modifies `state
      ensures r == AttemptResult(a, |rows|)
      ensures state == if TakesEffect(a, |rows|) then old(state).(utxo := MarkAll(old(state).utxo, rows)) else old(state)
    {
      if a.begin.Some? { return Failure(a.begin.value); }
      var work, i := state.utxo, 0;
      while i < |rows|
        invariant 0 <= i <= |rows| && FirstFault(a.statement, i) == None
        invariant work == MarkAll(state.utxo, rows[..i])
        invariant state == old(state)
      {
        if a.statement(i).Some? {
          FirstFaultIs(a.statement, i, |rows|);
          return Failure(a.statement(i).value);
        }
        assert rows[..i + 1][..i] == rows[..i];
        work, i := MarkRow(work, rows[i]), i + 1;
      }
      assert rows[..|rows|] == rows;
      if a.commit.Commits? || a.commit.tookEffect { state := state.(utxo := work); }
      r := if a.commit.Commits? then Success(()) else Failure(a.commit.error);
    }

    /** Up to six attempts at one transaction of single-row upserts, in lock order. */
    method BatchUpsertUTXOs(utxos: seq<Utxo>, attempts: nat -> Attempt) returns (r: Result<()>, ghost order: seq<Utxo>)
      modifies `state
      ensures IsSortOf(order, utxos)
      ensures |utxos| == 0 ==> r == Success(()) && state == old(state)
      ensures |utxos| > 0 ==> r == RetryResult(Outcomes(attempts, |utxos|), 0, 5)
      ensures r.Success? ==> state == old(state).(utxo := UpsertAll(old(state).utxo, order))
      ensures |utxos| > 0 ==>
        state == if SomeTakesEffect(attempts, |utxos|, AttemptsMade(Outcomes(attempts, |utxos|), 0, 5))
                 then old(state).(utxo := UpsertAll(old(state).utxo, order)) else old(state)
    {
      if |utxos| == 0 { return Success(()), utxos; }
      var rows := SortedCopy(utxos);
      order := rows;
      SameMembers(rows, utxos);
      ghost var outcomes := Outcomes(attempts, |utxos|);
      ghost var done := UpsertAll(old(state).utxo, rows);
      UpsertAllIdempotent(old(state).utxo, rows);
      hide SomeTakesEffect;
      NoAttempt(attempts, |utxos|);
      var attempt := 0;
      while attempt <= 5
        invariant attempt <= 5
        invariant RetryResult(outcomes, 0, 5) == RetryResult(outcomes, attempt, 5)
        invariant AttemptsMade(outcomes, 0, 5) == AttemptsMade(outcomes, attempt, 5)
        invariant state == if SomeTakesEffect(attempts, |utxos|, attempt) then old(state).(utxo := done) else old(state)
        decreases 6 - attempt
      {
        r := UpsertAttempt(rows, attempts(attempt));
        OneMoreAttempt(attempts, |utxos|, attempt);
        if r.Success? { return; }
        if !r.error.retryable || attempt == 5 { return; }
        attempt := attempt + 1;
      }
    }

    /** Up to six attempts at one transaction of single-row updates, in lock order. */
    method BatchMarkUTXOsSpent(spent: seq<Utxo>, attempts: nat -> Attempt) returns (r: Result<()>, ghost order: seq<Utxo>)
      modifies `state
      ensures IsSortOf(order, spent)
      ensures |spent| == 0 ==> r == Success(()) && state == old(state)
      ensures |spent| > 0 ==> r == RetryResult(Outcomes(attempts, |spent|), 0, 5)
      ensures r.Success? ==> state == old(state).(utxo := MarkAll(old(state).utxo, order))
      ensures |spent| > 0 ==>
        state == if SomeTakesEffect(attempts, |spent|, AttemptsMade(Outcomes(attempts, |spent|), 0, 5))
                 then old(state).(utxo := MarkAll(old(state).utxo, order)) else old(state)
    {
      if |spent| == 0 { return Success(()), spent; }
      var rows := SortedCopy(spent);
      order := rows;
      SameMembers(rows, spent);
      ghost var outcomes := Outcomes(attempts, |spent|);
      ghost var done := MarkAll(old(state).utxo, rows);
      MarkAllIdempotent(old(state).utxo, rows);
      hide SomeTakesEffect;
      NoAttempt(attempts, |spent|);
      var attempt := 0;
      while attempt <= 5
        invariant attempt <= 5
        invariant RetryResult(outcomes, 0, 5) == RetryResult(outcomes, attempt, 5)
        invariant AttemptsMade(outcomes, 0, 5) == AttemptsMade(outcomes, attempt, 5)
        invariant state == if SomeTakesEffect(attempts, |spent|, attempt) then old(state).(utxo := done) else old(state)
        decreases 6 - attempt
      {
        r := MarkAttempt(rows, attempts(attempt));
        OneMoreAttempt(attempts, |spent|, attempt);
        if r.Success? { return; }
        if !r.error.retryable || attempt == 5 { return; }
        attempt := attempt + 1;
      }
    }

    /** One chunk as one multi-row statement, in up to six attempts. */
    method BatchUpsertUTXOsBatch(batch: seq<Utxo>, attempts: nat -> Attempt) returns (r: Result<()>)
      modifies `state
      ensures r == RetryResult(StatementOutcomes(attempts, Sendable(batch)), 0, 5)
      ensures r.Success? ==> 0 < |batch| && |batch| * 9 <= 65535 && forall i, j :: 0 <= i < j < |batch| ==> batch[i].op != batch[j].op
      ensures !Sendable(batch) && attempts(0).begin == None && attempts(0).statement(0) == None ==> r == Failure(Error(false))
      ensures r.Success? ==> Sendable(batch) && state == old(state).(utxo := UpsertAll(old(state).utxo, batch))
      ensures state == if Sendable(batch) && SomeTakesEffect(attempts, 1, AttemptsMade(StatementOutcomes(attempts, Sendable(batch)), 0, 5))
                       then old(state).(utxo := UpsertAll(old(state).utxo, batch)) else old(state)
    {
      var rows := SortedCopy(batch);
      SortIsAsSendable(old(state).utxo, rows, batch);
      ghost var outcomes := StatementOutcomes(attempts, Sendable(batch));
      ghost var done := UpsertAll(old(state).utxo, rows);
      UpsertAllIdempotent(old(state).utxo, rows);
      hide Sendable, UpsertAll, IsSortOf, SomeTakesEffect;
      NoAttempt(attempts, 1);
      var attempt := 0;
      while attempt <= 5
        invariant attempt <= 5
        invariant RetryResult(outcomes, 0, 5) == RetryResult(outcomes, attempt, 5)
        invariant AttemptsMade(outcomes, 0, 5) == AttemptsMade(outcomes, attempt, 5)
        invariant state == if Sendable(batch) && SomeTakesEffect(attempts, 1, attempt) then old(state).(utxo := done) else old(state)
        decreases 6 - attempt
      {
        r := StatementAttempt(rows, attempts(attempt));
        OneMoreAttempt(attempts, 1, attempt);
        assert r == outcomes(attempt);
        if r.Success? { return; }
        if !r.error.retryable || attempt == 5 { return; }
        attempt := attempt + 1;
      }
    }

    /** Nested retries: a pass over the chunks, each with its own attempts, and up to four passes.
        When it reports success the table is one clean pass over the list, whatever was
        committed, lost or replayed on the way; when it does not, the table is still one
        that replays can have left, and no row outside the list has moved. */
    method BatchUpsertUTXOsOptimized(utxos: seq<Utxo>, attempts: nat -> (nat -> (nat -> Attempt))) returns (r: Result<()>)
      modifies `state
      ensures state.refs == old(state).refs && state.progress == old(state).progress
      ensures r.Success? ==> ChunksDistinct(utxos, 1000) && state.utxo == UpsertAll(old(state).utxo, utxos)
      ensures Replayed(old(state).utxo, utxos, state.utxo)
      ensures r == RetryResult(PassOutcomes(utxos, attempts), 0, 3)
    {
      ghost var t0, outcomes := state.utxo, PassOutcomes(utxos, attempts);
      if |utxos| == 0 {
        StartOfPass(t0, utxos, t0);
        assert PassResult(utxos, attempts(0), 0) == Success(()) == outcomes(0);
        return Success(());
      }
      hide PassResult, Replayed, Written, ChunksDistinct;
      var attempt := 0;
      while attempt <= 3
        invariant attempt <= 3
        invariant state.refs == old(state).refs && state.progress == old(state).progress
        invariant state.utxo == t0 || Replayed(t0, utxos, state.utxo)
        invariant RetryResult(outcomes, 0, 3) == RetryResult(outcomes, attempt, 3)
        decreases 4 - attempt
      {
        StartOfPass(t0, utxos, state.utxo);
        r := UpsertPass(utxos, attempts(attempt), t0);
        if r.Success? { return; }
        if !r.error.retryable || attempt == 3 { return; }
        attempt := attempt + 1;
      }
    }

    /** One run of the outer closure: chunk after chunk until one gives up. */
    method UpsertPass(utxos: seq<Utxo>, attempts: nat -> (nat -> Attempt), ghost t0: Table) returns (r: Result<()>)
      requires Written(t0, utxos, 0, state.utxo)
      modifies `state
      ensures state.refs == old(state).refs && state.progress == old(state).progress
      ensures Replayed(t0, utxos, state.utxo)
      ensures r.Success? ==> ChunksDistinct(utxos, 1000) && state.utxo == UpsertAll(t0, utxos)
      ensures r == PassResult(utxos, attempts, 0)
    {
      var i, k := 0, 0;
      while i < |utxos|
        invariant 0 <= i <= |utxos|
        invariant state.refs == old(state).refs && state.progress == old(state).progress
        invariant Written(t0, utxos, i, state.utxo)
        invariant ChunksDistinct(utxos, OPTIMIZED_BATCH) == ChunksDistinct(utxos[i..], OPTIMIZED_BATCH)
        invariant PassResult(utxos, attempts, 0) == PassResult(utxos[i..], attempts, k)
        decreases |utxos| - i
      {
        var end := i + OPTIMIZED_BATCH;
        if end > |utxos| { end := |utxos|; }
        var batch := utxos[i..end];
        if DistinctOps(batch) { WriteChunk(t0, utxos, i, end, state.utxo); }
        NextDistinctChunk(utxos, i, end, attempts, k);
        r := BatchUpsertUTXOsBatch(batch, attempts(k));
        if r.Failure? { return; }
        i, k := end, k + 1;
      }
      FullPass(t0, utxos, state.utxo);
      assert utxos[i..] == [];
      r := Success(());
    }

    method StatementAttempt(rows: seq<Utxo>, a: Attempt) returns (r: Result<()>)
      modifies `state
      ensures r == StatementResult(a, Sendable(rows))
      ensures r.Success? ==> state == old(state).(utxo := UpsertAll(old(state).utxo, rows))
      ensures state == if Sendable(rows) && TakesEffect(a, 1) then old(state).(utxo := UpsertAll(old(state).utxo, rows)) else old(state)
    {
      hide ExecUpsert, UpsertAll, Sendable, Groups, Flatten, UpsertRows;
      if a.begin.Some? { return Failure(a.begin.value); }
      var s := BuildStatement(UpsertRows(rows), 9);
      UpsertStatementMeaning(state.utxo, rows, s);
      if a.statement(0).Some? { return Failure(a.statement(0).value); }
      var after := ExecUpsert(state.utxo, s);
      if after.None? { return Failure(SERVER_ERROR); }
      if a.commit.Commits? || a.commit.tookEffect { state := state.(utxo := after.value); }
      r := if a.commit.Commits? then Success(()) else Failure(a.commit.error);
    }
  }

  lemma SortIsAsSendable(t: Table, sorted: seq<Utxo>, batch: seq<Utxo>)
    requires IsSortOf(sorted, batch)
    ensures Sendable(sorted) <==> Sendable(batch)
    ensures Sendable(batch) ==> UpsertAll(t, sorted) == UpsertAll(t, batch)
  {
    SameMembers(sorted, batch);
    if DistinctOps(batch) {
      UpsertAllPermutes(t, batch, sorted);
      SortKeepsDistinct(sorted, batch);
    }
    if DistinctOps(sorted) { SortKeepsDistinct(batch, sorted); }
  }

  lemma {:induction false} FirstFaultIs(faults: Faults, i: nat, n: nat)
    requires i < n && FirstFault(faults, i) == None
    ensures faults(i).Some? ==> FirstFault(faults, n) == faults(i)
    ensures n == i + 1 ==> FirstFault(faults, n) == faults(i)
  {
    if i + 1 < n && faults(i).Some? { FirstFaultIs(faults, i, n - 1); }
  }
}
