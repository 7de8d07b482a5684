/** Median and P95 of src/worker/runners/gpu-benchmark.py, over the reals. */
module Percentile {

  ghost predicate Sorted(s: seq<real>) {
    forall i, j | 0 <= i <= j < |s| :: s[i] <= s[j]
  }

  function Insert(s: seq<real>, x: real): seq<real> {
    if s == [] || x <= s[0] then [x] + s else [s[0]] + Insert(s[1..], x)
  }

  /** sorted(timings). */
  function Sort(xs: seq<real>): seq<real> {
    if xs == [] then [] else Insert(Sort(xs[1..]), xs[0])
  }

  lemma {:induction false} InsertedAbove(s: seq<real>, x: real, low: real)
    requires low <= x && forall i | 0 <= i < |s| :: low <= s[i]
    ensures forall i | 0 <= i < |Insert(s, x)| :: low <= Insert(s, x)[i]
  {
    if s != [] { InsertedAbove(s[1..], x, low); }
  }

  lemma {:induction false} InsertedOnce(s: seq<real>, x: real)
    ensures multiset(Insert(s, x)) == multiset(s) + multiset{x}
  {
    if s != [] {
      InsertedOnce(s[1..], x);
      assert s == [s[0]] + s[1..];
    }
  }

  lemma {:induction false} Inserted(s: seq<real>, x: real)
    requires Sorted(s)
    ensures Sorted(Insert(s, x))
  {
    if s != [] && x > s[0] {
      Inserted(s[1..], x);
      InsertedAbove(s[1..], x, s[0]);
    }
  }

  lemma {:induction false} SortSorts(xs: seq<real>)
    ensures Sorted(Sort(xs)) && multiset(Sort(xs)) == multiset(xs) && |Sort(xs)| == |xs|
  {
    if xs != [] {
      SortSorts(xs[1..]);
      Inserted(Sort(xs[1..]), xs[0]);
      InsertedOnce(Sort(xs[1..]), xs[0]);
      assert xs == [xs[0]] + xs[1..];
    }
    assert |Sort(xs)| == |multiset(Sort(xs))| && |xs| == |multiset(xs)|;
  }

  lemma FirstIsLeast(s: seq<real>, t: seq<real>)
    requires Sorted(s) && s != [] && t != [] && multiset(s) == multiset(t)
    ensures s[0] <= t[0]
  {
    assert t[0] in multiset(t);
    assert t[0] in s;
  }

  lemma TailOf(s: seq<real>)
    requires s != []
    ensures multiset(s[1..]) == multiset(s) - multiset{s[0]}
    ensures Sorted(s) ==> Sorted(s[1..])
  {
    assert s == [s[0]] + s[1..];
  }

  lemma {:induction false} SortedIsUnique(s: seq<real>, t: seq<real>)
    requires Sorted(s) && Sorted(t) && multiset(s) == multiset(t)
    ensures s == t
  {
    assert |s| == |multiset(s)| == |multiset(t)| == |t|;
    if s != [] {
      FirstIsLeast(s, t);
      FirstIsLeast(t, s);
      TailOf(s);
      TailOf(t);
      SortedIsUnique(s[1..], t[1..]);
      assert s == [s[0]] + s[1..] && t == [t[0]] + t[1..];
    }
  }

  function Median(s: seq<real>): real
    requires s != []
  {
    if |s| % 2 == 1 then s[|s| / 2] else (s[|s| / 2 - 1] + s[|s| / 2]) / 2.0
  }

  function Position(n: nat): real { (n as real - 1.0) * 0.95 }

  function Ceiling(x: real): int { -(-x).Floor }

  /** Linear interpolation. */
  function Blend(a: real, b: real, w: real): real { a * (1.0 - w) + b * w }

  /** statistics.median and the interpolation between the neighbours of position 0.95 (n - 1). */
  method Summarize(timings: seq<real>) returns (median: real, p95: real, lower: int, upper: int)
    requires timings != []
    ensures 0 <= lower <= upper < |timings| && lower as real <= Position(|timings|) <= upper as real && upper <= lower + 1
    ensures var s := Sort(timings);
      && |s| == |timings| && median == Median(s)
      && p95 == Blend(s[lower], s[upper], Position(|timings|) - lower as real)
      && s[0] <= median <= p95 <= s[|s| - 1] && s[lower] <= p95 <= s[upper]
    ensures forall i | 0 <= i < |timings| :: Sort(timings)[0] <= timings[i] <= Sort(timings)[|timings| - 1]
  {
    SortSorts(timings);
    var s := Sort(timings);
    hide Sort, Median, Blend, Position;
    median := Median(s);
    var position := Position(|s|);
    lower := position.Floor;
    upper := Ceiling(position);
    var weight := position - lower as real;
    PositionInRange(|s|);
    p95 := Blend(s[lower], s[upper], weight);
    Between(s[lower], s[upper], weight);
    MedianBelow(s, lower, upper, weight);
    assert s[upper] <= s[|s| - 1];
    ExtremesBound(timings);
  }

  lemma PositionInRange(n: nat)
    requires n > 0
    ensures 0 <= Position(n).Floor <= Ceiling(Position(n)) < n && Ceiling(Position(n)) <= Position(n).Floor + 1
    ensures Position(n).Floor as real <= Position(n) <= Ceiling(Position(n)) as real
    ensures n != 2 ==> n / 2 <= Position(n).Floor
  {
  }

  lemma Product(a: real, b: real)
    requires a >= 0.0 && b >= 0.0
    ensures a * b >= 0.0
  {
  }

  lemma Between(a: real, b: real, w: real)
    requires a <= b && 0.0 <= w < 1.0
    ensures a <= Blend(a, b, w) <= b
    ensures w >= 0.5 ==> (a + b) / 2.0 <= Blend(a, b, w)
  {
    Product(b - a, w);
    Product(b - a, 1.0 - w);
    assert Blend(a, b, w) == a + (b - a) * w == b - (b - a) * (1.0 - w);
    if w >= 0.5 {
      Product(b - a, w - 0.5);
      assert (b - a) * (w - 0.5) == (b - a) * w - (b - a) / 2.0;
    }
  }

  lemma MedianInMiddle(s: seq<real>)
    requires Sorted(s) && s != []
    ensures s[0] <= Median(s) <= s[|s| / 2]
  {
    if |s| % 2 == 0 { assert s[0] <= s[|s| / 2 - 1] <= s[|s| / 2]; }
  }

  lemma ExtremesBound(xs: seq<real>)
    requires xs != []
    ensures |Sort(xs)| == |xs| && forall i | 0 <= i < |xs| :: Sort(xs)[0] <= xs[i] <= Sort(xs)[|xs| - 1]
  {
    SortSorts(xs);
    var s := Sort(xs);
    forall i | 0 <= i < |xs| ensures s[0] <= xs[i] <= s[|xs| - 1] {
      assert xs[i] in multiset(xs);
      assert xs[i] in s;
    }
  }

  /** Two timings need the weight itself: 0.95 is above one half. */
  lemma MedianBelow(s: seq<real>, lower: int, upper: int, w: real)
    requires Sorted(s) && s != [] && lower == Position(|s|).Floor && upper == Ceiling(Position(|s|)) && w == Position(|s|) - lower as real
    ensures 0 <= lower <= upper < |s| && s[0] <= Median(s) <= Blend(s[lower], s[upper], w)
  {
    PositionInRange(|s|);
    Between(s[lower], s[upper], w);
    hide Blend;
    if |s| == 2 {
      assert lower == 0 && upper == 1 && w == 0.95;
    } else {
      MedianInMiddle(s);
      assert s[|s| / 2] <= s[lower];
    }
  }

  /** The figures depend on the multiset of timings alone. */
  lemma {:induction false} OrderDoesNotMatter(xs: seq<real>, ys: seq<real>)
    requires multiset(xs) == multiset(ys)
    ensures Sort(xs) == Sort(ys) && |xs| == |ys|
  {
    SortSorts(xs);
    SortSorts(ys);
    SortedIsUnique(Sort(xs), Sort(ys));
  }
}
