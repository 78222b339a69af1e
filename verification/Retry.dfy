/** Replaying upserts: what retries and commits of unknown fate leave in the table. */
module Retry {
  import opened Prelude
  import opened Models
  import opened UtxoTable

  /** How the commit of an attempt ends. A commit whose acknowledgement is lost reports an
      error although it took effect. */
  datatype CommitFate = Commits | CommitFails(error: Error, tookEffect: bool)

  /** One attempt at a transaction: its begin, its statements, its commit. */
  datatype Attempt = Attempt(begin: Option<Error>, statement: Faults, commit: CommitFate)

  function FirstFault(faults: Faults, calls: nat): (r: Option<Error>)
    ensures r == None <==> NoFault(faults, calls)
  {
    if calls == 0 then None
    else if FirstFault(faults, calls - 1).Some? then FirstFault(faults, calls - 1)
    else faults(calls - 1)
  }

  /** What an attempt at n statements reports. */
  function AttemptResult(a: Attempt, n: nat): Result<()> {
    if a.begin.Some? then Failure(a.begin.value)
    else if FirstFault(a.statement, n).Some? then Failure(FirstFault(a.statement, n).value)
    else if a.commit.Commits? then Success(())
    else Failure(a.commit.error)
  }

  /** Whether it changes the table, which is not the same thing. */
  predicate TakesEffect(a: Attempt, n: nat) {
    a.begin == None && FirstFault(a.statement, n) == None && (a.commit.Commits? || a.commit.tookEffect)
  }

  /** `executeWithRetry` from a given attempt on: the first outcome that is a success, or not
      retryable, or the last one allowed. */
  function RetryResult(outcomes: nat -> Result<()>, attempt: nat, maxRetries: nat): Result<()>
    decreases maxRetries - attempt
  {
    if outcomes(attempt).Success? || !outcomes(attempt).error.retryable || attempt >= maxRetries
    then outcomes(attempt)
    else RetryResult(outcomes, attempt + 1, maxRetries)
  }

  /** How many attempts have been made by the time it stops. */
  function AttemptsMade(outcomes: nat -> Result<()>, attempt: nat, maxRetries: nat): nat
    decreases maxRetries - attempt
  {
    if outcomes(attempt).Success? || !outcomes(attempt).error.retryable || attempt >= maxRetries
    then attempt + 1
    else AttemptsMade(outcomes, attempt + 1, maxRetries)
  }

  /** The results of repeated attempts at n statements. */
  function Outcomes(attempts: nat -> Attempt, n: nat): nat -> Result<()> {
    (k: nat) => AttemptResult(attempts(k), n)
  }

  /** Success is reported exactly when some attempt within the limit succeeds and every earlier
      one failed in a way worth retrying. */
  lemma {:induction false} RetrySucceedsIff(outcomes: nat -> Result<()>, attempt: nat, maxRetries: nat)
    requires attempt <= maxRetries
    ensures RetryResult(outcomes, attempt, maxRetries).Success? <==>
      exists n: nat :: attempt <= n <= maxRetries && outcomes(n).Success?
        && forall m: nat :: attempt <= m < n ==> outcomes(m).Failure? && outcomes(m).error.retryable
    decreases maxRetries - attempt
  {
    if outcomes(attempt).Success? || !outcomes(attempt).error.retryable || attempt >= maxRetries {
    } else {
      RetrySucceedsIff(outcomes, attempt + 1, maxRetries);
      if RetryResult(outcomes, attempt + 1, maxRetries).Success? {
        var n: nat :| attempt + 1 <= n <= maxRetries && outcomes(n).Success?
          && forall m: nat :: attempt + 1 <= m < n ==> outcomes(m).Failure? && outcomes(m).error.retryable;
        assert forall m: nat :: attempt <= m < n ==> outcomes(m).Failure? && outcomes(m).error.retryable;
      }
    }
  }

  /** Where it stops: at the first attempt that succeeds, fails for good or is the last one allowed.
      That attempt is the result, and no other follows. */
  lemma {:induction false} RetryStopsAt(outcomes: nat -> Result<()>, attempt: nat, maxRetries: nat) returns (n: nat)
    requires attempt <= maxRetries
    ensures attempt <= n <= maxRetries && (outcomes(n).Success? || !outcomes(n).error.retryable || n == maxRetries)
    ensures forall m :: attempt <= m < n ==> outcomes(m).Failure? && outcomes(m).error.retryable
    ensures RetryResult(outcomes, attempt, maxRetries) == outcomes(n) && AttemptsMade(outcomes, attempt, maxRetries) == n + 1
    decreases maxRetries - attempt
  {
    if outcomes(attempt).Success? || !outcomes(attempt).error.retryable || attempt >= maxRetries {
      n := attempt;
    } else {
      n := RetryStopsAt(outcomes, attempt + 1, maxRetries);
    }
  }

  lemma {:induction false} FirstFaultIsFirst(faults: Faults, calls: nat, k: nat)
    requires k < calls && faults(k).Some? && NoFault(faults, k)
    ensures FirstFault(faults, calls) == faults(k)
  {
    if k < calls - 1 { FirstFaultIsFirst(faults, calls - 1, k); }
  }

  /** What one attempt at n statements reports and does, call by call. */
  lemma AttemptIs(a: Attempt, n: nat)
    ensures AttemptResult(a, n).Success? <==> a.begin == None && (forall k: nat :: k < n ==> a.statement(k) == None) && a.commit.Commits?
    ensures TakesEffect(a, n) <==>
      a.begin == None && (forall k: nat :: k < n ==> a.statement(k) == None) && (a.commit.Commits? || a.commit.tookEffect)
    ensures a.begin.Some? ==> AttemptResult(a, n) == Failure(a.begin.value)
    ensures forall k: nat :: k < n && a.begin == None && a.statement(k).Some? && NoFault(a.statement, k) ==>
      AttemptResult(a, n) == Failure(a.statement(k).value)
    ensures a.begin == None && NoFault(a.statement, n) && !a.commit.Commits? ==> AttemptResult(a, n) == Failure(a.commit.error)
  {
    forall k: nat | k < n && a.begin == None && a.statement(k).Some? && NoFault(a.statement, k)
      ensures AttemptResult(a, n) == Failure(a.statement(k).value)
    {
      FirstFaultIsFirst(a.statement, n, k);
    }
  }

  /** Among the first attempts there is one whose transaction begins, runs its statements and
      commits, acknowledged or not. */
  ghost predicate SomeTakesEffect(attempts: nat -> Attempt, n: nat, made: nat) {
    exists k: nat :: k < made && attempts(k).begin == None && (forall j: nat :: j < n ==> attempts(k).statement(j) == None)
      && (attempts(k).commit.Commits? || attempts(k).commit.tookEffect)
  }

  lemma OneMoreAttempt(attempts: nat -> Attempt, n: nat, made: nat)
    ensures SomeTakesEffect(attempts, n, made + 1) <==> SomeTakesEffect(attempts, n, made) || TakesEffect(attempts(made), n)
  {
    AttemptIs(attempts(made), n);
  }

  /** The columns an upsert never changes once the row exists. */
  function Fixed(r: Row): Row { r.(status := Confirmed, blockHeight := None, blockHash := None) }

  lemma {:induction false} UpsertAllKeepsFixed(t: Table, us: seq<Utxo>, o: OutPoint)
    requires o in t
    ensures o in UpsertAll(t, us) && Fixed(UpsertAll(t, us)[o]) == Fixed(t[o])
  {
    if |us| > 0 { UpsertAllKeepsFixed(t, us[..|us| - 1], o); }
  }

  lemma FixedFromPrefix(t: Table, us: seq<Utxo>, i: nat, o: OutPoint)
    requires i <= |us| && o in UpsertAll(t, us[..i])
    ensures o in UpsertAll(t, us) && Fixed(UpsertAll(t, us)[o]) == Fixed(UpsertAll(t, us[..i])[o])
  {
    assert us == us[..i] + us[i..];
    UpsertAllConcat(t, us[..i], us[i..]);
    UpsertAllKeepsFixed(UpsertAll(t, us[..i]), us[i..], o);
  }

  /** A table some replay of us from t0 can have left: nothing outside the list moved, and rows
      of the list that are there have the fixed columns a clean pass gives them. */
  ghost predicate Replayed(t0: Table, us: seq<Utxo>, t: Table) {
    && (forall o :: o in t0 ==> o in t)
    && (forall o :: o in t ==> o in UpsertAll(t0, us) && Fixed(t[o]) == Fixed(UpsertAll(t0, us)[o]))
    && (forall o :: o in t && !HasOp(us, o) ==> o in t0 && t[o] == t0[o])
  }

  /** In addition the first i entries have just been written by the current pass. */
  ghost predicate Written(t0: Table, us: seq<Utxo>, i: nat, t: Table)
    requires i <= |us|
  {
    Replayed(t0, us, t) && forall o :: HasOp(us[..i], o) ==> o in t && o in UpsertAll(t0, us[..i]) && t[o] == UpsertAll(t0, us[..i])[o]
  }

  lemma StartOfPass(t0: Table, us: seq<Utxo>, t: Table)
    requires t == t0 || Replayed(t0, us, t)
    ensures Written(t0, us, 0, t)
  {
    if t == t0 {
      forall o | o in t ensures o in UpsertAll(t0, us) && Fixed(t[o]) == Fixed(UpsertAll(t0, us)[o]) {
        UpsertAllKeepsFixed(t0, us, o);
      }
    }
  }

  /** Writing the next chunk, for the first time or again, advances the pass. */
  lemma WriteChunk(t0: Table, us: seq<Utxo>, i: nat, end: nat, t: Table)
    requires i <= end <= |us| && Written(t0, us, i, t) && DistinctOps(us[i..end])
    ensures Written(t0, us, end, UpsertAll(t, us[i..end]))
  {
    var batch, final := us[i..end], UpsertAll(t0, us);
    var clean, next, t' := UpsertAll(t0, us[..i]), UpsertAll(t0, us[..end]), UpsertAll(t, batch);
    forall o | o in t' ensures o in final && Fixed(t'[o]) == Fixed(final[o]) {
      WriteRow(t0, us, i, end, t, o);
    }
    forall o | HasOp(us[..end], o) ensures o in t' && o in next && t'[o] == next[o] {
      WriteRow(t0, us, i, end, t, o);
    }
    forall o | o in t0 ensures o in t' { UpsertAllKeys(t, batch, o); }
    forall o | o in t' && !HasOp(us, o) ensures o in t0 && t'[o] == t0[o] {
      SliceOps(us, i, end, o);
      UpsertAllMiss(t, batch, o);
    }
  }

  lemma SliceOps(us: seq<Utxo>, i: nat, end: nat, o: OutPoint)
    requires i <= end <= |us|
    ensures HasOp(us[i..end], o) ==> HasOp(us, o)
    ensures HasOp(us[..end], o) <==> HasOp(us[..i], o) || HasOp(us[i..end], o)
  {
    if HasOp(us[i..end], o) {
      var j :| 0 <= j < end - i && us[i..end][j].op == o;
      assert us[i + j].op == o && us[..end][i + j].op == o;
    }
    if HasOp(us[..end], o) {
      var j :| 0 <= j < end && us[..end][j].op == o;
      if j < i { assert us[..i][j].op == o; } else { assert us[i..end][j - i].op == o; }
    }
    if HasOp(us[..i], o) {
      var j :| 0 <= j < i && us[..i][j].op == o;
      assert us[..end][j].op == o;
    }
  }

  lemma WriteRow(t0: Table, us: seq<Utxo>, i: nat, end: nat, t: Table, o: OutPoint)
    requires i <= end <= |us| && Written(t0, us, i, t) && DistinctOps(us[i..end])
    ensures var t' := UpsertAll(t, us[i..end]);
            var next := UpsertAll(t0, us[..end]);
            && (o in t' ==> o in UpsertAll(t0, us) && Fixed(t'[o]) == Fixed(UpsertAll(t0, us)[o]))
            && (HasOp(us[..end], o) ==> o in t' && o in next && t'[o] == next[o])
  {
    var batch, clean := us[i..end], UpsertAll(t0, us[..i]);
    assert us[..end] == us[..i] + batch;
    UpsertAllConcat(t0, us[..i], batch);
    SliceOps(us, i, end, o);
    if HasOp(batch, o) {
      var j :| 0 <= j < |batch| && batch[j].op == o;
      UpsertAllHit(t, batch, j);
      UpsertAllHit(clean, batch, j);
      FixedFromPrefix(t0, us, end, o);
      if o in clean {
        FixedFromPrefix(t0, us, i, o);
        UpsertAllKeys(t0, us[..i], o);
      }
    } else {
      UpsertAllMiss(t, batch, o);
      UpsertAllMiss(clean, batch, o);
    }
  }

  /** A full pass, however many replays came before it, is one clean pass. */
  lemma FullPass(t0: Table, us: seq<Utxo>, t: Table)
    requires Written(t0, us, |us|, t)
    ensures t == UpsertAll(t0, us)
  {
    assert us[..|us|] == us;
    var final := UpsertAll(t0, us);
    forall o ensures o in t <==> o in final
             ensures o in t ==> t[o] == final[o]
    {
      UpsertAllKeys(t0, us, o);
      if !HasOp(us, o) { UpsertAllMiss(t0, us, o); }
    }
  }

  lemma {:induction false} PassByRows(t0: Table, us: seq<Utxo>, i: nat, t: Table)
    requires i <= |us| && Written(t0, us, i, t)
    ensures Written(t0, us, |us|, UpsertAll(t, us[i..]))
    decreases |us| - i
  {
    if i < |us| {
      var u := us[i..i + 1];
      WriteChunk(t0, us, i, i + 1, t);
      PassByRows(t0, us, i + 1, UpsertAll(t, u));
      assert us[i..] == u + us[i + 1..];
      UpsertAllConcat(t, u, us[i + 1..]);
    } else {
      assert us[i..] == [];
    }
  }

  /** Upserting a list twice is upserting it once, repeated keys and all. */
  lemma UpsertAllIdempotent(t: Table, us: seq<Utxo>)
    ensures UpsertAll(UpsertAll(t, us), us) == UpsertAll(t, us)
  {
    assert us[0..] == us;
    StartOfPass(t, us, t);
    PassByRows(t, us, 0, t);
    StartOfPass(t, us, UpsertAll(t, us));
    PassByRows(t, us, 0, UpsertAll(t, us));
    FullPass(t, us, UpsertAll(UpsertAll(t, us), us));
  }

  lemma MarkAllIdempotent(t: Table, us: seq<Utxo>)
    ensures MarkAll(MarkAll(t, us), us) == MarkAll(t, us)
  {
    var once, twice := MarkAll(t, us), MarkAll(MarkAll(t, us), us);
    forall o ensures o in once <==> o in twice
             ensures o in once ==> once[o] == twice[o]
    {
      MarkAllAt(t, us, o);
      MarkAllAt(once, us, o);
    }
  }
}
