/** Sums over finite sets of outpoints, as SQL's SUM computes them: in no particular order. */
module Sums {
  import opened Models

  ghost function Sum(f: OutPoint -> int, s: set<OutPoint>): int {
    if s == {} then 0 else var o :| o in s; f(o) + Sum(f, s - {o})
  }

  /** Any element may be taken out first. */
  lemma {:induction false} SumTake(f: OutPoint -> int, s: set<OutPoint>, x: OutPoint)
    requires x in s
    ensures Sum(f, s) == f(x) + Sum(f, s - {x})
    decreases |s|
  {
    var o :| o in s && Sum(f, s) == f(o) + Sum(f, s - {o});
    if o != x {
      SumTake(f, s - {o}, x);
      SumTake(f, s - {x}, o);
      assert s - {o} - {x} == s - {x} - {o};
    }
  }

  lemma {:induction false} SumUnion(f: OutPoint -> int, a: set<OutPoint>, b: set<OutPoint>)
    requires a !! b
    ensures Sum(f, a + b) == Sum(f, a) + Sum(f, b)
    decreases |a|
  {
    if a == {} {
      assert a + b == b;
    } else {
      var x :| x in a;
      SumTake(f, a, x);
      SumTake(f, a + b, x);
      assert (a + b) - {x} == (a - {x}) + b;
      SumUnion(f, a - {x}, b);
    }
  }

  lemma {:induction false} SumSame(f: OutPoint -> int, g: OutPoint -> int, s: set<OutPoint>)
    requires forall o :: o in s ==> f(o) == g(o)
    ensures Sum(f, s) == Sum(g, s)
    decreases |s|
  {
    if s != {} {
      var x :| x in s;
      SumTake(f, s, x);
      SumTake(g, s, x);
      SumSame(f, g, s - {x});
    }
  }

  lemma {:induction false} SumZero(f: OutPoint -> int, s: set<OutPoint>)
    requires forall o :: o in s ==> f(o) == 0
    ensures Sum(f, s) == 0
    decreases |s|
  {
    if s != {} {
      var x :| x in s;
      SumTake(f, s, x);
      SumZero(f, s - {x});
    }
  }

  /** Adding zero outside a part does not change the sum over the part. */
  lemma SumPart(f: OutPoint -> int, g: OutPoint -> int, s: set<OutPoint>, part: set<OutPoint>)
    requires part <= s
    requires forall o :: o in s ==> f(o) == if o in part then g(o) else 0
    ensures Sum(f, s) == Sum(g, part)
  {
    SumUnion(f, part, s - part);
    assert part + (s - part) == s;
    SumSame(f, g, part);
    SumZero(f, s - part);
  }
}
