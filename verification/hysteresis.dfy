/** The per-channel hysteresis window: a newest-first sequence of normalised
    percentages, capped at the configured window size, whose arithmetic mean
    is the smoothed value the pipeline stores. */
module Hysteresis {
  import opened Numeric

  /** Sum of a window, accumulated front to back as `normalizeRecent`'s summing loop does. */
  function Sum(w: seq<real>): real
    decreases |w|
  {
    if |w| == 0 then 0.0 else Sum(w[..|w| - 1]) + w[|w| - 1]
  }

  /** Every element of `w` lies in [lo, hi]. */
  predicate Within(w: seq<real>, lo: real, hi: real)
  {
    forall i :: 0 <= i < |w| ==> lo <= w[i] <= hi
  }

  function SeqMin(w: seq<real>): (m: real)
    requires |w| > 0
    ensures m in w
    ensures forall i :: 0 <= i < |w| ==> m <= w[i]
  {
    if |w| == 1 then w[0] else Min(w[0], SeqMin(w[1..]))
  }

  function SeqMax(w: seq<real>): (m: real)
    requires |w| > 0
    ensures m in w
    ensures forall i :: 0 <= i < |w| ==> w[i] <= m
  {
    if |w| == 1 then w[0] else Max(w[0], SeqMax(w[1..]))
  }

  /** A window whose elements lie in [lo, hi] sums to between |w|*lo and |w|*hi. */
  lemma {:induction false} SumBounds(w: seq<real>, lo: real, hi: real)
    requires Within(w, lo, hi)
    ensures |w| as real * lo <= Sum(w) <= |w| as real * hi
  {
    if |w| > 0 {
      var init := w[..|w| - 1];
      assert Within(init, lo, hi) by {
        forall i | 0 <= i < |init| ensures lo <= init[i] <= hi {
          assert init[i] == w[i];
        }
      }
      SumBounds(init, lo, hi);
      assert |w| as real * lo == |init| as real * lo + lo;
      assert |w| as real * hi == |init| as real * hi + hi;
    }
  }

  lemma QuotientBounds(s: real, n: real, lo: real, hi: real)
    requires n > 0.0
    requires n * lo <= s <= n * hi
    ensures lo <= s / n <= hi
  {
    assert s / n * n == s;
  }

  /** The smoothed value: the arithmetic mean of a non-empty window. It always
      lies between the window's smallest and largest entry. */
  function Mean(w: seq<real>): (m: real)
    requires |w| > 0
    ensures SeqMin(w) <= m <= SeqMax(w)
  {
    SumBounds(w, SeqMin(w), SeqMax(w));
    QuotientBounds(Sum(w), |w| as real, SeqMin(w), SeqMax(w));
    Sum(w) / (|w| as real)
  }

  lemma MeanOfTwo(a: real, b: real)
    ensures Mean([a, b]) == (a + b) / 2.0
  {
    assert [a, b][..1] == [a];
    assert [a][..0] == [];
    assert Sum([a]) == a;
    assert Sum([a, b]) == a + b;
  }

  /** A window of percentages in [0, 1] smooths to a percentage in [0, 1]. */
  lemma MeanOfUnitWindow(w: seq<real>)
    requires |w| > 0
    requires Within(w, 0.0, 1.0)
    ensures 0.0 <= Mean(w) <= 1.0
  {
  }

  /** Records percentage `p` into window `w`: insert at the front, then drop
      the last element once if the window has grown past `size`. */
  function Record(w: seq<real>, p: real, size: int): (r: seq<real>)
    ensures |r| > 0 ==> r[0] == p
    ensures r <= [p] + w
    ensures |w| < size ==> r == [p] + w
    ensures |w| == size ==> r == ([p] + w)[..size]
    ensures size >= 1 ==> |r| >= 1
    ensures |w| <= size ==> |r| <= size
  {
    var h := [p] + w;
    if |h| > size then h[..|h| - 1] else h
  }

  /** Recording into a full window evicts exactly its oldest entry. */
  lemma RecordEvictsOldest(w: seq<real>, p: real, size: int)
    requires 1 <= |w| == size
    ensures Record(w, p, size) == [p] + w[..size - 1]
  {
    assert ([p] + w)[..size] == [p] + w[..size - 1];
  }

  /** How many entries a window of capacity `size` holds once `n` percentages
      have been recorded into it from empty: all of them until it fills. */
  function Occupancy(n: nat, size: nat): (r: nat)
    ensures n <= size ==> r == n
    ensures size <= n ==> r == size
  {
    if n <= size then n else size
  }

  /** Recording into a window within its capacity puts the new percentage in
      front of a prefix of the old window and grows it by one, up to the
      capacity. */
  lemma RecordShape(w: seq<real>, p: real, size: int)
    requires 1 <= size && |w| <= size
    ensures var r := Record(w, p, size);
      && r[0] == p
      && r[1..] <= w
      && |r| == Occupancy(|w| + 1, size)
  {
    var r := Record(w, p, size);
    assert r[1..] <= ([p] + w)[1..];
    assert ([p] + w)[1..] == w;
  }

  /** One more recording into a window holding the occupancy after `n`
      gives the occupancy after n + 1. */
  lemma OccupancyStep(n: nat, size: nat)
    ensures Occupancy(Occupancy(n, size) + 1, size) == Occupancy(n + 1, size)
  {
  }

  /** Records the percentages `ps` into `w` in order, oldest first. */
  function RecordAll(w: seq<real>, ps: seq<real>, size: int): seq<real>
    decreases |ps|
  {
    if |ps| == 0 then w
    else Record(RecordAll(w, ps[..|ps| - 1], size), ps[|ps| - 1], size)
  }

  function Reverse(s: seq<real>): (r: seq<real>)
    ensures |r| == |s|
    decreases |s|
  {
    if |s| == 0 then [] else [s[|s| - 1]] + Reverse(s[..|s| - 1])
  }

  /** Starting from an empty window, recording any run of percentages leaves
      exactly the newest `size` of them (all of them while fewer have been
      recorded), newest first. */
  lemma {:induction false} RecordAllKeepsNewest(ps: seq<real>, size: int)
    requires size >= 1
    ensures RecordAll([], ps, size) == Reverse(ps)[..Occupancy(|ps|, size)]
  {
    if |ps| > 0 {
      var n := |ps|;
      var init := ps[..n - 1];
      var p := ps[n - 1];
      RecordAllKeepsNewest(init, size);
      var w := Reverse(init)[..Occupancy(n - 1, size)];
      assert RecordAll([], ps, size) == Record(w, p, size);
      assert Reverse(ps) == [p] + Reverse(init);
      if n - 1 < size {
        assert w == Reverse(init);
        assert Record(w, p, size) == [p] + w;
        assert Reverse(ps)[..Occupancy(n, size)] == Reverse(ps);
      } else {
        assert |w| == size;
        assert Record(w, p, size) == ([p] + w)[..size];
        assert ([p] + w)[..size] == ([p] + Reverse(init))[..size];
      }
    }
  }

  /** Once `size` percentages have been recorded the window stays full. */
  lemma RecordAllSaturates(ps: seq<real>, size: int)
    requires size >= 1
    ensures |RecordAll([], ps, size)| == Occupancy(|ps|, size)
  {
    RecordAllKeepsNewest(ps, size);
  }

  /** `normalizeRecent`'s summing loop, divided by the count, computes the same mean. */
  method MeanInOrder(w: seq<real>) returns (m: real)
    requires |w| > 0
    ensures m == Mean(w)
  {
    var sum := 0.0;
    var i := 0;
    while i < |w|
      invariant 0 <= i <= |w|
      invariant sum == Sum(w[..i])
    {
      assert w[..i + 1][..i] == w[..i];
      sum := sum + w[i];
      i := i + 1;
    }
    assert w[..|w|] == w;
    m := sum / (|w| as real);
  }
}
