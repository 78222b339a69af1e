/** Row locks of concurrent batch transactions: one lock at a time, in sorted order, all
    released at commit or rollback. */
module Locks {
  import opened Prelude
  import opened Models
  import opened Sorting

  /** A transaction of BatchUpsertUTXOs or BatchMarkUTXOsSpent. Statements before `pos` have run.
      A row that does not exist is not locked by an UPDATE, so only upserts lock every key. */
  datatype Txn = Txn(keys: seq<OutPoint>, isUpsert: bool, pos: nat, held: set<OutPoint>, finished: bool, retries: nat)

  datatype Event = Acquire(i: nat) | Skip(i: nat) | Commit(i: nat) | Abort(i: nat)

  type Txns = seq<Txn>

  predicate Waiting(t: Txn) { !t.finished && t.pos < |t.keys| }

  /** Nobody else holds k. */
  predicate FreeFor(s: Txns, i: nat, k: OutPoint) {
    forall j :: 0 <= j < |s| && j != i ==> k !in s[j].held
  }

  predicate Enabled(s: Txns, e: Event) {
    && e.i < |s|
    && match e
       case Acquire(i) => Waiting(s[i]) && FreeFor(s, i, s[i].keys[s[i].pos])
       case Skip(i) => Waiting(s[i]) && !s[i].isUpsert
       case Commit(i) => !s[i].finished && s[i].pos >= |s[i].keys|
       case Abort(i) => !s[i].finished
  }

  /** After a rollback the transaction starts over while retries are left, and gives up then. */
  function Next(s: Txns, e: Event): Txns
    requires Enabled(s, e)
  {
    var t := s[e.i];
    s[e.i := match e
             case Acquire(_) => t.(pos := t.pos + 1, held := t.held + {t.keys[t.pos]})
             case Skip(_) => t.(pos := t.pos + 1)
             case Commit(_) => t.(held := {}, finished := true)
             case Abort(_) => if t.retries > 0 then t.(pos := 0, held := {}, retries := t.retries - 1)
                              else t.(held := {}, finished := true)]
  }

  /** The transactions begin with the sorted lists the batch methods hand to the server. */
  ghost predicate Initial(s: Txns, lists: seq<seq<Utxo>>) {
    && |s| == |lists|
    && forall i :: 0 <= i < |s| ==>
         s[i].pos == 0 && s[i].held == {} && !s[i].finished
         && exists order :: IsSortOf(order, lists[i]) && s[i].keys == Ops(order)
  }

  ghost predicate Run(states: seq<Txns>, events: seq<Event>, lists: seq<seq<Utxo>>) {
    && |states| == |events| + 1 && Initial(states[0], lists)
    && forall n :: 0 <= n < |events| ==> Enabled(states[n], events[n]) && states[n + 1] == Next(states[n], events[n])
  }

  // ----- the invariant

  /** What is held was locked by a statement that has run. */
  ghost predicate TxnOk(t: Txn) {
    SortedKeys(t.keys) && t.pos <= |t.keys| && (t.finished ==> t.held == {})
    && (forall k :: k in t.held ==> k in t.keys[..t.pos])
    && (t.isUpsert && !t.finished ==> forall k :: k in t.keys[..t.pos] ==> k in t.held)
  }

  ghost predicate Exclusive(s: Txns) {
    forall i, j :: 0 <= i < j < |s| ==> s[i].held !! s[j].held
  }

  ghost predicate Inv(s: Txns) {
    (forall i :: 0 <= i < |s| ==> TxnOk(s[i])) && Exclusive(s)
  }

  lemma TxnStep(s: Txns, e: Event)
    requires Inv(s) && Enabled(s, e)
    ensures TxnOk(Next(s, e)[e.i])
  {
    var t, t' := s[e.i], Next(s, e)[e.i];
    assert TxnOk(t);
    if e.Acquire? || e.Skip? {
      assert t.keys[..t.pos + 1] == t.keys[..t.pos] + [t.keys[t.pos]];
    }
  }

  lemma StepKeepsInv(s: Txns, e: Event)
    requires Inv(s) && Enabled(s, e)
    ensures Inv(Next(s, e))
  {
    TxnStep(s, e);
    var s' := Next(s, e);
    hide TxnOk;
    forall j | 0 <= j < |s| && j != e.i ensures s'[j] == s[j] && s'[e.i].held !! s'[j].held {
      assert s[j].held !! s[e.i].held;
    }
  }

  lemma InitialInv(s: Txns, lists: seq<seq<Utxo>>)
    requires Initial(s, lists)
    ensures Inv(s)
  {
    forall i | 0 <= i < |s| ensures TxnOk(s[i]) {
      var order :| IsSortOf(order, lists[i]) && s[i].keys == Ops(order);
      assert SortedKeys(Ops(order));
    }
  }

  lemma {:induction false} RunKeepsInv(states: seq<Txns>, events: seq<Event>, lists: seq<seq<Utxo>>, n: nat)
    requires Run(states, events, lists) && n <= |events|
    ensures Inv(states[n])
  {
    if n == 0 {
      InitialInv(states[0], lists);
    } else {
      RunKeepsInv(states, events, lists, n - 1);
      assert Enabled(states[n - 1], events[n - 1]);
      StepKeepsInv(states[n - 1], events[n - 1]);
    }
  }

  /** What the locks are for: no row has two holders; a transaction that upserts holds every row
      its statements have reached, until it rolls back or, having reached all, commits; one that updates holds only
      such rows, and each row it locked; a finished one holds nothing. */
  lemma LocksAreExclusive(states: seq<Txns>, events: seq<Event>, lists: seq<seq<Utxo>>, n: nat, i: nat, k: OutPoint)
    requires Run(states, events, lists) && n <= |events| && i < |states[n]|
    ensures k in states[n][i].held ==> forall j :: 0 <= j < |states[n]| && j != i ==> k !in states[n][j].held
    ensures states[n][i].pos <= |states[n][i].keys|
    ensures k in states[n][i].held ==> !states[n][i].finished && k in states[n][i].keys[..states[n][i].pos]
    ensures states[n][i].isUpsert && !states[n][i].finished && k in states[n][i].keys[..states[n][i].pos] ==> k in states[n][i].held
    ensures n > 0 ==> |states[n]| == |states[n - 1]|
    ensures n > 0 && events[n - 1] == Acquire(i) ==>
      var t := states[n - 1][i]; t.pos < |t.keys| && t.keys[t.pos] in states[n][i].held
    ensures n > 0 && events[n - 1] == Commit(i) ==> states[n - 1][i].pos == |states[n - 1][i].keys|
    ensures n > 0 && events[n - 1].i != i ==> states[n][i] == states[n - 1][i]
  {
    RunKeepsInv(states, events, lists, n);
    assert TxnOk(states[n][i]);
    if n > 0 {
      assert Enabled(states[n - 1], events[n - 1]) && states[n] == Next(states[n - 1], events[n - 1]);
      RunKeepsInv(states, events, lists, n - 1);
      assert TxnOk(states[n - 1][i]);
    }
  }

  // ----- waiting

  /** The row transaction i needs next, if it is waiting. */
  function Awaited(s: Txns, i: nat): OutPoint {
    if i < |s| && Waiting(s[i]) then s[i].keys[s[i].pos] else OutPoint("", 0)
  }

  /** Transaction i cannot go on because j holds the row it needs next. */
  predicate WaitsFor(s: Txns, i: nat, j: nat) {
    i < |s| && j < |s| && j != i && Waiting(s[i]) && Awaited(s, i) in s[j].held
  }

  /** Along a chain of waits the awaited keys strictly increase. */
  lemma WaitsIncrease(s: Txns, i: nat, j: nat, m: nat)
    requires Inv(s) && WaitsFor(s, i, j) && WaitsFor(s, j, m)
    ensures Less(Awaited(s, i), Awaited(s, j))
  {
    var k, l := Awaited(s, i), Awaited(s, j);
    assert TxnOk(s[j]);
    var n :| 0 <= n < s[j].pos && s[j].keys[..s[j].pos][n] == k;
    assert s[j].keys[n] == k && Leq(k, l);
    assert s[j].held !! s[m].held;
    LessTotal(k, l);
  }

  ghost predicate WaitChain(s: Txns, path: seq<nat>) {
    forall n :: 0 <= n < |path| - 1 ==> WaitsFor(s, path[n], path[n + 1])
  }

  lemma {:induction false} ChainIncreases(s: Txns, path: seq<nat>, a: nat, b: nat)
    requires Inv(s) && WaitChain(s, path) && a < b < |path| - 1
    ensures Less(Awaited(s, path[a]), Awaited(s, path[b]))
    decreases b - a
  {
    assert WaitsFor(s, path[b - 1], path[b]) && WaitsFor(s, path[b], path[b + 1]);
    WaitsIncrease(s, path[b - 1], path[b], path[b + 1]);
    if a < b - 1 {
      ChainIncreases(s, path, a, b - 1);
      LessTransitive(Awaited(s, path[a]), Awaited(s, path[b - 1]), Awaited(s, path[b]));
    }
  }

  /** No cyclic wait, of any length, in any reachable state. */
  lemma NoCyclicWait(states: seq<Txns>, events: seq<Event>, lists: seq<seq<Utxo>>, n: nat, path: seq<nat>)
    requires Run(states, events, lists) && n <= |events|
    requires |path| > 1 && WaitChain(states[n], path)
    ensures path[0] != path[|path| - 1]
  {
    var s := states[n];
    RunKeepsInv(states, events, lists, n);
    var last := |path| - 1;
    assert WaitsFor(s, path[0], path[1]) && WaitsFor(s, path[last - 1], path[last]);
    if WaitsFor(s, path[last], path[1]) {
      var longer := path + [path[1]];
      assert WaitChain(s, longer) by {
        forall m | 0 <= m < |longer| - 1 ensures WaitsFor(s, longer[m], longer[m + 1]) {
          if m < last { assert WaitsFor(s, path[m], path[m + 1]); }
        }
      }
      ChainIncreases(s, longer, 0, last);
      LessIrreflexive(Awaited(s, path[0]));
    }
  }

  // ----- progress

  /** A step forward: a lock or a commit, not a rollback. */
  predicate CanGoOn(s: Txns, i: nat) {
    Enabled(s, Acquire(i)) || Enabled(s, Commit(i))
  }

  /** The waiting transactions whose next key is greater than that of i. */
  function Above(s: Txns, i: nat): set<nat>
    requires i < |s| && Waiting(s[i])
  {
    set j: nat | j < |s| && Waiting(s[j]) && Less(Awaited(s, i), Awaited(s, j))
  }

  /** Whoever has not finished can go on, or waits, directly or through others, for someone
      who can. */
  lemma {:induction false} EndOfWaits(s: Txns, i: nat) returns (path: seq<nat>)
    requires Inv(s) && i < |s| && !s[i].finished
    ensures |path| > 0 && path[0] == i && WaitChain(s, path) && CanGoOn(s, path[|path| - 1])
    decreases if Waiting(s[i]) then 1 + |Above(s, i)| else 0
  {
    if CanGoOn(s, i) { return [i]; }
    var k := Awaited(s, i);
    var j :| 0 <= j < |s| && j != i && k in s[j].held;
    assert TxnOk(s[j]) && !s[j].finished && WaitsFor(s, i, j);
    var rest: seq<nat>;
    if CanGoOn(s, j) {
      rest := [j];
    } else {
      var m :| 0 <= m < |s| && m != j && Awaited(s, j) in s[m].held;
      WaitsIncrease(s, i, j, m);
      AboveShrinks(s, i, j);
      hide Above, Inv, Awaited;
      rest := EndOfWaits(s, j);
    }
    hide Inv, CanGoOn, WaitsFor;
    path := [i] + rest;
    LongerChain(s, i, rest);
  }

  lemma LongerChain(s: Txns, i: nat, rest: seq<nat>)
    requires |rest| > 0 && WaitChain(s, rest) && WaitsFor(s, i, rest[0])
    ensures WaitChain(s, [i] + rest)
  {
    hide WaitsFor;
    var path := [i] + rest;
    forall n | 0 <= n < |path| - 1 ensures WaitsFor(s, path[n], path[n + 1]) {
      if n > 0 { assert WaitsFor(s, rest[n - 1], rest[n]); }
    }
  }

  lemma AboveShrinks(s: Txns, i: nat, j: nat)
    requires i < |s| && j < |s| && Waiting(s[i]) && Waiting(s[j]) && Less(Awaited(s, i), Awaited(s, j))
    ensures |Above(s, j)| < |Above(s, i)|
  {
    var k, l := Awaited(s, i), Awaited(s, j);
    forall m | m in Above(s, j) ensures m in Above(s, i) && m != j {
      LessTransitive(k, l, Awaited(s, m));
      LessIrreflexive(l);
    }
    Subset(Above(s, j), Above(s, i) - {j});
  }

  lemma {:induction false} Subset<T>(a: set<T>, b: set<T>)
    requires a <= b
    ensures |a| <= |b|
  {
    if a != {} {
      var x :| x in a;
      Subset(a - {x}, b - {x});
    }
  }

  /** Deadlock freedom: in every reachable state in which some transaction has not finished,
      some transaction can take its next lock or commit. */
  lemma SomeoneCanGoOn(states: seq<Txns>, events: seq<Event>, lists: seq<seq<Utxo>>, n: nat)
    requires Run(states, events, lists) && n <= |events|
    ensures (exists i :: 0 <= i < |states[n]| && CanGoOn(states[n], i))
       <==> (exists i :: 0 <= i < |states[n]| && !states[n][i].finished)
  {
    var s := states[n];
    RunKeepsInv(states, events, lists, n);
    if i: nat :| i < |s| && !s[i].finished {
      var path := EndOfWaits(s, i);
      assert CanGoOn(s, path[|path| - 1]);
    }
  }

  // ----- termination

  /** What is left to do for one transaction, retries included. */
  function Work(t: Txn): nat {
    if t.finished then 0 else (if t.pos <= |t.keys| then |t.keys| - t.pos + 1 else 1) + Budget(|t.keys|, t.retries)
  }

  function Budget(keys: nat, retries: nat): nat {
    if retries == 0 then 0 else keys + 1 + Budget(keys, retries - 1)
  }

  function TotalWork(s: Txns): nat {
    if |s| == 0 then 0 else Work(s[0]) + TotalWork(s[1..])
  }

  lemma {:induction false} TotalWorkUpdate(s: Txns, i: nat, t: Txn)
    requires i < |s|
    ensures TotalWork(s[i := t]) == TotalWork(s) - Work(s[i]) + Work(t)
  {
    if i == 0 {
      assert s[i := t][1..] == s[1..];
    } else {
      assert s[i := t][1..] == s[1..][i - 1 := t];
      TotalWorkUpdate(s[1..], i - 1, t);
    }
  }

  /** Every step, rollbacks included, leaves less to do. */
  lemma WorkDecreases(s: Txns, e: Event)
    requires Inv(s) && Enabled(s, e)
    ensures TotalWork(Next(s, e)) < TotalWork(s)
  {
    assert TxnOk(s[e.i]);
    TotalWorkUpdate(s, e.i, Next(s, e)[e.i]);
  }

  /** So no run is longer than the work it began with, and when nothing more can happen every
      transaction has finished. */
  lemma {:induction false} RunsAreBounded(states: seq<Txns>, events: seq<Event>, lists: seq<seq<Utxo>>, n: nat)
    requires Run(states, events, lists) && n <= |events|
    ensures n + TotalWork(states[n]) <= TotalWork(states[0])
    ensures (forall e :: !Enabled(states[n], e)) <==> (forall i :: 0 <= i < |states[n]| ==> states[n][i].finished)
  {
    if n > 0 {
      RunsAreBounded(states, events, lists, n - 1);
      RunKeepsInv(states, events, lists, n - 1);
      assert Enabled(states[n - 1], events[n - 1]);
      WorkDecreases(states[n - 1], events[n - 1]);
    }
    SomeoneCanGoOn(states, events, lists, n);
    if i :| 0 <= i < |states[n]| && CanGoOn(states[n], i) {
      assert Enabled(states[n], Acquire(i)) || Enabled(states[n], Commit(i));
    }
  }
}
