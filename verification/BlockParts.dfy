/** A block's rows in three transactions, as ProcessUTXOs writes them, against the one
    transaction of the other paths. */
module BlockParts {
  import opened Prelude
  import opened Models
  import opened Sorting
  import opened Statements
  import opened UtxoTable
  import opened ReferenceTable
  import opened Batching
  import opened Retry
  import opened Database
  import opened Commits

  // ----- references one row at a time

  /** One run of the closure of BatchUpsertTransactionReferences. */
  method RefsAttempt(db: DB, refs: seq<TxReference>, a: Attempt) returns (r: Result<()>)
    modifies db`state
    ensures r == AttemptResult(a, |refs|)
    ensures db.state == if TakesEffect(a, |refs|) then old(db.state).(refs := UpsertRefs(old(db.state).refs, refs)) else old(db.state)
  {
    if a.begin.Some? { return Failure(a.begin.value); }
    var work, i := db.state.refs, 0;
    while i < |refs|
      invariant 0 <= i <= |refs| && FirstFault(a.statement, i) == None
      invariant work == UpsertRefs(db.state.refs, refs[..i])
      invariant db.state == old(db.state)
    {
      if a.statement(i).Some? {
        FirstFaultIs(a.statement, i, |refs|);
        return Failure(a.statement(i).value);
      }
      assert refs[..i + 1][..i] == refs[..i];
      work, i := work[RefKeyOf(refs[i]) := refs[i]], i + 1;
    }
    assert refs[..|refs|] == refs;
    if a.commit.Commits? || a.commit.tookEffect { db.state := db.state.(refs := work); }
    r := if a.commit.Commits? then Success(()) else Failure(a.commit.error);
  }

  /** Up to four attempts; row by row, so that a repeated key is no error here. */
  method BatchUpsertTransactionReferences(db: DB, refs: seq<TxReference>, attempts: nat -> Attempt) returns (r: Result<()>)
    modifies db`state
    ensures |refs| == 0 ==> r == Success(()) && db.state == old(db.state)
    ensures |refs| > 0 ==> r == RetryResult(Outcomes(attempts, |refs|), 0, 3)
    ensures r.Success? ==> db.state == old(db.state).(refs := UpsertRefs(old(db.state).refs, refs))
    ensures |refs| > 0 ==>
      db.state == if SomeTakesEffect(attempts, |refs|, AttemptsMade(Outcomes(attempts, |refs|), 0, 3))
                  then old(db.state).(refs := UpsertRefs(old(db.state).refs, refs)) else old(db.state)
  {
    if |refs| == 0 { return Success(()); }
    ghost var outcomes, done := Outcomes(attempts, |refs|), UpsertRefs(old(db.state).refs, refs);
    UpsertRefsIdempotent(old(db.state).refs, refs);
    hide SomeTakesEffect;
    NoAttempt(attempts, |refs|);
    var attempt := 0;
    while attempt <= 3
      invariant attempt <= 3
      invariant RetryResult(outcomes, 0, 3) == RetryResult(outcomes, attempt, 3)
      invariant AttemptsMade(outcomes, 0, 3) == AttemptsMade(outcomes, attempt, 3)
      invariant db.state == if SomeTakesEffect(attempts, |refs|, attempt) then old(db.state).(refs := done) else old(db.state)
      decreases 4 - attempt
    {
      r := RefsAttempt(db, refs, attempts(attempt));
      OneMoreAttempt(attempts, |refs|, attempt);
      if r.Success? { return; }
      if !r.error.retryable || attempt == 3 { return; }
      attempt := attempt + 1;
    }
  }

  // ----- the three phases

  function Upserted(s: DbState, created: seq<Utxo>): DbState { s.(utxo := UpsertAll(s.utxo, created)) }
  function MarkedSpent(s: DbState, spent: seq<Utxo>): DbState { s.(utxo := MarkAll(s.utxo, spent)) }
  function Referenced(s: DbState, refs: seq<TxReference>): DbState { s.(refs := UpsertRefs(s.refs, refs)) }

  /** Whether the retries of one phase end well. */
  predicate PhaseSucceeds(attempts: nat -> Attempt, rows: nat, retries: nat) {
    rows == 0 || RetryResult(Outcomes(attempts, rows), 0, retries).Success?
  }

  /** Whether it changed the database all the same: some attempt made took effect. */
  ghost predicate PhaseApplied(attempts: nat -> Attempt, rows: nat, retries: nat) {
    SomeTakesEffect(attempts, rows, AttemptsMade(Outcomes(attempts, rows), 0, retries))
  }

  /** ProcessUTXOs: upsert, then mark, then references, each its own retried transaction. It
      succeeds iff all three do. When one fails the later ones are not begun, and what it did is
      there if one of its attempts took effect. */
  method ProcessUTXOs(db: DB, p: Parsed, up: nat -> Attempt, mark: nat -> Attempt, refs: nat -> Attempt)
    returns (r: Result<()>, ghost created: seq<Utxo>, ghost spent: seq<Utxo>)
    modifies db`state
    ensures IsSortOf(created, p.created) && IsSortOf(spent, p.spent)
    ensures r.Success? <==>
      PhaseSucceeds(up, |p.created|, 5) && PhaseSucceeds(mark, |p.spent|, 5) && PhaseSucceeds(refs, |p.refs|, 3)
    ensures var s1 := Upserted(old(db.state), created);
            var s2 := MarkedSpent(s1, spent);
            var s3 := Referenced(s2, p.refs);
            db.state ==
              if !PhaseSucceeds(up, |p.created|, 5) then if PhaseApplied(up, |p.created|, 5) then s1 else old(db.state)
              else if !PhaseSucceeds(mark, |p.spent|, 5) then if PhaseApplied(mark, |p.spent|, 5) then s2 else s1
              else if !PhaseSucceeds(refs, |p.refs|, 3) then if PhaseApplied(refs, |p.refs|, 3) then s3 else s2
              else s3
  {
    spent := SortOf(p.spent);
    r, created := db.BatchUpsertUTXOs(p.created, up);
    if r.Failure? { return; }
    r, spent := db.BatchMarkUTXOsSpent(p.spent, mark);
    if r.Failure? { return; }
    r := BatchUpsertTransactionReferences(db, p.refs, refs);
  }

  // ----- against one transaction

  /** Three transactions leave the rows one transaction leaves, on every column but the two of
      the spend, and the same references. */
  lemma PartsMatchOneTransaction(before: DbState, p: Parsed, created: seq<Utxo>, spent: seq<Utxo>, height: int, hash: string, after: DbState)
    requires BlockCommitted(before, p, height, hash, after) && DistinctOps(p.created)
    requires IsSortOf(created, p.created) && IsSortOf(spent, p.spent)
    ensures var parts := Referenced(MarkedSpent(Upserted(before, created), spent), p.refs);
            WithoutStamps(parts.utxo) == WithoutStamps(after.utxo) && parts.refs == after.refs
  {
    var c, s :| IsSortOf(c, p.created) && IsSortOf(s, p.spent) && after == Applied(before, c, s, p.refs, height, hash);
    UpsertAllPermutes(before.utxo, p.created, created);
    UpsertAllPermutes(before.utxo, p.created, c);
    BulkMarkEqualsRowAtATimeOnStatus(UpsertAll(before.utxo, created), spent, s, MARK_BATCH);
  }

  /** In particular the same outputs are unspent. */
  lemma PartsUnspent(before: DbState, p: Parsed, created: seq<Utxo>, spent: seq<Utxo>)
    requires AllConfirmed(p.created) && IsSortOf(created, p.created) && IsSortOf(spent, p.spent)
    ensures var parts := MarkedSpent(Upserted(before, created), spent);
            Unspent(parts.utxo) == (Unspent(before.utxo) + OpsOf(p.created)) - OpsOf(p.spent)
  {
    var t1 := UpsertAll(before.utxo, created);
    SameMembers(created, p.created);
    assert AllConfirmed(created) by {
      forall i | 0 <= i < |created| ensures created[i].row.status == Confirmed && created[i].row.blockHeight.Some? {
        assert created[i] in p.created;
      }
    }
    OpsOfSort(created, p.created);
    OpsOfSort(spent, p.spent);
    forall o ensures o in Unspent(MarkAll(t1, spent)) <==> (o in Unspent(before.utxo) || o in OpsOf(p.created)) && o !in OpsOf(p.spent) {
      UpsertConfirmedStatus(before.utxo, created, o);
      MarkAllAt(t1, spent, o);
      assert o in OpsOf(spent) <==> HasOp(spent, o);
    }
  }
}
