/** The lock order of the batch methods: rows sorted by (txid, vout). */
module Sorting {
  import opened Prelude
  import opened Models

  /** Go's `<` on strings. */
  predicate TextLess(a: string, b: string) {
    if |b| == 0 then false
    else if |a| == 0 then true
    else a[0] < b[0] || (a[0] == b[0] && TextLess(a[1..], b[1..]))
  }

  /** The comparison handed to sort.Slice. */
  predicate Less(a: OutPoint, b: OutPoint) {
    if a.txid != b.txid then TextLess(a.txid, b.txid) else a.vout < b.vout
  }

  lemma {:induction false} TextLessIrreflexive(a: string)
    ensures !TextLess(a, a)
  {
    if |a| > 0 { TextLessIrreflexive(a[1..]); }
  }

  lemma {:induction false} TextLessTransitive(a: string, b: string, c: string)
    requires TextLess(a, b) && TextLess(b, c)
    ensures TextLess(a, c)
  {
    if |a| > 0 && a[0] == b[0] == c[0] { TextLessTransitive(a[1..], b[1..], c[1..]); }
  }

  lemma {:induction false} TextLessTotal(a: string, b: string)
    ensures TextLess(a, b) || TextLess(b, a) || a == b
  {
    if |a| > 0 && |b| > 0 && a[0] == b[0] {
      TextLessTotal(a[1..], b[1..]);
      assert a == [a[0]] + a[1..] && b == [b[0]] + b[1..];
    }
  }

  lemma LessIrreflexive(a: OutPoint)
    ensures !Less(a, a)
  {}

  lemma LessTransitive(a: OutPoint, b: OutPoint, c: OutPoint)
    requires Less(a, b) && Less(b, c)
    ensures Less(a, c)
  {
    TextLessIrreflexive(a.txid);
    if a.txid != b.txid && b.txid != c.txid {
      TextLessTransitive(a.txid, b.txid, c.txid);
    }
  }

  lemma LessTotal(a: OutPoint, b: OutPoint)
    ensures Less(a, b) || Less(b, a) || a == b
  {
    TextLessTotal(a.txid, b.txid);
  }

  /** `Leq(a, b)`: a may stand before b in a sorted list. */
  predicate Leq(a: OutPoint, b: OutPoint) { !Less(b, a) }

  lemma LeqTransitive(a: OutPoint, b: OutPoint, c: OutPoint)
    requires Leq(a, b) && Leq(b, c)
    ensures Leq(a, c)
  {
    LessTotal(a, b);
    LessTotal(b, c);
    if Less(c, a) {
      if Less(a, b) { LessTransitive(c, a, b); }
    }
  }

  /** At position k the two texts differ for the first time: a ends there, or has the smaller
      character. */
  predicate TextBefore(a: string, b: string, k: nat) {
    && k <= |a| && k < |b| && a[..k] == b[..k]
    && (k < |a| ==> a[k] < b[k])
  }

  lemma SamePrefix(a: string, b: string, k: nat)
    requires k <= |a| && k <= |b| && a[..k] == b[..k]
    ensures k > 0 ==> a[0] == b[0]
  {
    if k > 0 { assert a[..k][0] == b[..k][0]; }
  }

  lemma {:induction false} TextLessIs(a: string, b: string)
    ensures TextLess(a, b) <==> exists k :: TextBefore(a, b, k)
  {
    if |a| > 0 && |b| > 0 && a[0] == b[0] {
      var x, y := a[1..], b[1..];
      TextLessIs(x, y);
      if TextLess(x, y) {
        var k: nat :| TextBefore(x, y, k);
        assert a[..k + 1] == [a[0]] + x[..k] && b[..k + 1] == [b[0]] + y[..k];
        assert TextBefore(a, b, k + 1);
      }
      if k: nat :| TextBefore(a, b, k) {
        assert a[..k] == b[..k] && k > 0;
        assert x[..k - 1] == a[..k][1..] && y[..k - 1] == b[..k][1..];
        assert TextBefore(x, y, k - 1);
      }
    } else if |b| > 0 {
      assert |a| == 0 || a[0] < b[0] ==> TextBefore(a, b, 0);
      if k: nat :| TextBefore(a, b, k) { SamePrefix(a, b, k); }
    }
  }

  /** What the lock order is: by txid as text, and within one txid by output number. */
  ghost predicate InLockOrder(a: OutPoint, b: OutPoint) {
    if a.txid == b.txid then a.vout <= b.vout else exists k :: TextBefore(a.txid, b.txid, k)
  }

  lemma LeqIs(a: OutPoint, b: OutPoint)
    ensures Leq(a, b) <==> InLockOrder(a, b)
  {
    TextLessIs(a.txid, b.txid);
    LessTotal(a, b);
    LessIrreflexive(a);
    if Less(a, b) && Less(b, a) { LessTransitive(a, b, a); }
  }

  /** A sorted list is in lock order, from any position to any later one. */
  lemma SortedIs(us: seq<Utxo>)
    ensures Sorted(us) <==> forall i, j :: 0 <= i < j < |us| ==> InLockOrder(us[i].op, us[j].op)
  {
    forall i, j | 0 <= i < j < |us| ensures Leq(us[i].op, us[j].op) <==> InLockOrder(us[i].op, us[j].op) {
      LeqIs(us[i].op, us[j].op);
    }
  }

  ghost predicate Sorted(us: seq<Utxo>) {
    forall i, j :: 0 <= i < j < |us| ==> Leq(us[i].op, us[j].op)
  }

  /** What sort.Slice promises: it is not stable, so any sorted permutation may come out. */
  ghost predicate IsSortOf(sorted: seq<Utxo>, us: seq<Utxo>) {
    Sorted(sorted) && multiset(sorted) == multiset(us)
  }

  /** In a sorted list equal keys are neighbours: one look-back decides whether a key repeats. */
  lemma SortedDistinct(us: seq<Utxo>)
    requires Sorted(us)
    ensures DistinctOps(us) <==> forall i :: 0 < i < |us| ==> us[i - 1].op != us[i].op
  {
    if forall i :: 0 < i < |us| ==> us[i - 1].op != us[i].op {
      forall i, j | 0 <= i < j < |us| ensures us[i].op != us[j].op {
        assert us[j - 1].op != us[j].op && Leq(us[j - 1].op, us[j].op);
        LessTotal(us[j - 1].op, us[j].op);
        LessTotal(us[i].op, us[j - 1].op);
        LessIrreflexive(us[i].op);
        if i < j - 1 {
          assert Leq(us[i].op, us[j - 1].op);
          if us[i].op != us[j - 1].op { LessTransitive(us[i].op, us[j - 1].op, us[j].op); }
        }
      }
    }
  }

  lemma SortKeepsDistinct(sorted: seq<Utxo>, us: seq<Utxo>)
    requires multiset(sorted) == multiset(us)
    requires DistinctOps(us)
    ensures DistinctOps(sorted)
  {
    assert Distinct(us);
    DistinctCounts(us);
    SameMembers(us, sorted);
    DistinctCounts(sorted);
    forall i, j | 0 <= i < j < |sorted| ensures sorted[i].op != sorted[j].op {
      assert sorted[i] in us && sorted[j] in us;
      var a :| 0 <= a < |us| && us[a] == sorted[i];
      var b :| 0 <= b < |us| && us[b] == sorted[j];
      assert sorted[i] != sorted[j];
    }
  }

  ghost predicate SortedKeys(s: seq<OutPoint>) {
    forall i, j :: 0 <= i < j < |s| ==> Leq(s[i], s[j])
  }

  lemma LeqAntisymmetric(a: OutPoint, b: OutPoint)
    requires Leq(a, b) && Leq(b, a)
    ensures a == b
  {
    LessTotal(a, b);
  }

  lemma FirstIsLeast(s: seq<OutPoint>, k: OutPoint)
    requires SortedKeys(s) && k in s
    ensures Leq(s[0], k)
  {
    LessIrreflexive(k);
    var i :| 0 <= i < |s| && s[i] == k;
  }

  lemma WithoutFirst<T>(s: seq<T>)
    requires |s| > 0
    ensures multiset(s[1..]) == multiset(s) - multiset{s[0]}
  {
    assert s == [s[0]] + s[1..];
  }

  /** A sorted list is determined by its elements. */
  lemma {:induction false} SortedKeysUnique(s: seq<OutPoint>, t: seq<OutPoint>)
    requires SortedKeys(s) && SortedKeys(t) && multiset(s) == multiset(t)
    ensures s == t
  {
    SameMembers(s, t);
    if |s| > 0 {
      FirstIsLeast(s, t[0]);
      FirstIsLeast(t, s[0]);
      LeqAntisymmetric(s[0], t[0]);
      hide Leq;
      WithoutFirst(s);
      WithoutFirst(t);
      SortedKeysUnique(s[1..], t[1..]);
      assert s == [s[0]] + s[1..] && t == [t[0]] + t[1..];
    }
  }

  lemma OpsConcat(a: seq<Utxo>, b: seq<Utxo>)
    ensures Ops(a + b) == Ops(a) + Ops(b)
  {}

  lemma {:induction false} SameKeys(us: seq<Utxo>, vs: seq<Utxo>)
    requires multiset(us) == multiset(vs)
    ensures multiset(Ops(us)) == multiset(Ops(vs))
  {
    SameMembers(us, vs);
    if |us| > 0 {
      var u := us[0];
      assert u in vs;
      var k :| 0 <= k < |vs| && vs[k] == u;
      var left, right := vs[..k], vs[k + 1..];
      assert us == [u] + us[1..] && vs == left + ([u] + right);
      WithoutFirst(us);
      Without(vs, k);
      hide Ops;
      SameKeys(us[1..], left + right);
      KeysAround(u, [], us[1..]);
      KeysAround(u, left, right);
      assert [] + ([u] + us[1..]) == us && [] + us[1..] == us[1..];
    }
  }

  lemma Without<T>(s: seq<T>, k: nat)
    requires k < |s|
    ensures multiset(s[..k] + s[k + 1..]) == multiset(s) - multiset{s[k]}
  {
    assert s == s[..k] + ([s[k]] + s[k + 1..]);
  }

  lemma KeysAround(u: Utxo, left: seq<Utxo>, right: seq<Utxo>)
    ensures multiset(Ops(left + ([u] + right))) == multiset(Ops(left + right)) + multiset{u.op}
  {
    assert Ops([u]) == [u.op];
    OpsConcat([u], right);
    OpsConcat(left, right);
    OpsConcat(left, [u] + right);
  }

  /** Two sorts of one list may order equal keys differently, but they list the same keys. */
  lemma SortsAgreeOnKeys(a: seq<Utxo>, b: seq<Utxo>, us: seq<Utxo>)
    requires IsSortOf(a, us) && IsSortOf(b, us)
    ensures Ops(a) == Ops(b)
  {
    SameKeys(a, us);
    SameKeys(b, us);
    SortedKeysUnique(Ops(a), Ops(b));
  }

  /** u placed before the first entry that must not precede it. */
  function Insert(s: seq<Utxo>, u: Utxo): (r: seq<Utxo>)
    ensures multiset(r) == multiset(s) + multiset{u}
    ensures |r| == |s| + 1
  {
    if |s| == 0 || Less(u.op, s[0].op) then [u] + s
    else
      assert s == [s[0]] + s[1..];
      [s[0]] + Insert(s[1..], u)
  }

  lemma {:induction false} InsertKeepsSorted(s: seq<Utxo>, u: Utxo)
    requires Sorted(s)
    ensures Sorted(Insert(s, u))
  {
    var r := Insert(s, u);
    if |s| == 0 {
    } else if Less(u.op, s[0].op) {
      LessIsLeq(u.op, s[0].op);
      forall i | 0 <= i < |s| ensures Leq(u.op, s[i].op) {
        if i > 0 { LeqTransitive(u.op, s[0].op, s[i].op); }
      }
    } else {
      InsertKeepsSorted(s[1..], u);
      forall j | 0 < j < |r| ensures Leq(s[0].op, r[j].op) {
        assert r[j] == Insert(s[1..], u)[j - 1];
        assert r[j] in multiset(s[1..]) + multiset{u};
        if r[j] in s[1..] { var k :| 0 <= k < |s[1..]| && s[1..][k] == r[j]; assert s[k + 1] == r[j]; }
      }
    }
  }

  lemma LessIsLeq(a: OutPoint, b: OutPoint)
    requires Less(a, b)
    ensures Leq(a, b)
  {
    LessIrreflexive(a);
    if Less(b, a) { LessTransitive(a, b, a); }
  }

  /** One sort there is. */
  function SortOf(us: seq<Utxo>): (sorted: seq<Utxo>)
    ensures IsSortOf(sorted, us)
  {
    if |us| == 0 then []
    else
      var init, last := us[..|us| - 1], us[|us| - 1];
      assert us == init + [last];
      InsertKeepsSorted(SortOf(init), last);
      Insert(SortOf(init), last)
  }

  /** sort.Slice over the slice, in place. */
  method SortUtxosByTxidVout(utxos: array<Utxo>)
    modifies utxos
    ensures IsSortOf(utxos[..], old(utxos[..]))
    ensures forall i, j :: 0 <= i < j < utxos.Length ==> InLockOrder(utxos[i].op, utxos[j].op)
  {
    var sorted: seq<Utxo> := [];
    for n := 0 to utxos.Length
      invariant Sorted(sorted) && |sorted| == n
      invariant multiset(sorted) == multiset(utxos[..n])
      invariant utxos[..] == old(utxos[..])
    {
      assert utxos[..n + 1] == utxos[..n] + [utxos[n]];
      InsertKeepsSorted(sorted, utxos[n]);
      sorted := Insert(sorted, utxos[n]);
    }
    assert utxos[..utxos.Length] == utxos[..];
    forall i | 0 <= i < utxos.Length {
      utxos[i] := sorted[i];
    }
    assert utxos[..] == sorted;
    SortedIs(sorted);
  }

  /** Every batch method sorts a copy and leaves its caller's list alone. */
  method SortedCopy(us: seq<Utxo>) returns (sorted: seq<Utxo>)
    ensures IsSortOf(sorted, us)
  {
    var copy := new Utxo[|us|](i requires 0 <= i < |us| => us[i]);
    assert copy[..] == us;
    SortUtxosByTxidVout(copy);
    sorted := copy[..];
  }
}
