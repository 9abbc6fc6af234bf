/**
  Image sizes of a split (yolo_dataset_stats.py:19-28, :42-43, :63-70).
  Decoding is not modelled: each directory entry comes with the result of
  `cv2.imread`, the pixel shape of a decoded image or None when decoding
  failed, and a failed entry is skipped without error.
 */
module ImageSizes {
  import opened Outcomes

  /** `img.shape[0]` and `img.shape[1]`. */
  datatype Shape = Shape(height: nat, width: nat)

  /** The shapes of the entries that decoded, in listing order. */
  function Decoded(entries: seq<Option<Shape>>): (shapes: seq<Shape>)
    ensures |shapes| + multiset(entries)[None] == |entries|
    ensures forall i :: 0 <= i < |shapes| ==> Some(shapes[i]) in entries
    decreases |entries|
  {
    if entries == [] then []
    else
      var front := entries[..|entries| - 1];
      assert entries == front + [entries[|entries| - 1]];
      match entries[|entries| - 1]
      case None => Decoded(front)
      case Some(shape) => Decoded(front) + [shape]
  }

  lemma {:induction false} DecodedAppend(a: seq<Option<Shape>>, b: seq<Option<Shape>>)
    ensures Decoded(a + b) == Decoded(a) + Decoded(b)
    decreases |b|
  {
    if b == [] {
      assert a + b == a;
    } else {
      var front := b[..|b| - 1];
      DecodedAppend(a, front);
      assert (a + b)[..|a + b| - 1] == a + front;
      assert (a + b)[|a + b| - 1] == b[|b| - 1];
    }
  }

  function Widths(shapes: seq<Shape>): (ws: seq<nat>)
    ensures |ws| == |shapes|
  {
    seq(|shapes|, i requires 0 <= i < |shapes| => shapes[i].width)
  }

  function Heights(shapes: seq<Shape>): (hs: seq<nat>)
    ensures |hs| == |shapes|
  {
    seq(|shapes|, i requires 0 <= i < |shapes| => shapes[i].height)
  }

  lemma WidthsHeightsAppend(a: seq<Shape>, b: seq<Shape>)
    ensures Widths(a + b) == Widths(a) + Widths(b)
    ensures Heights(a + b) == Heights(a) + Heights(b)
  {
  }

  /** Python's `sum` over a list of ints. */
  function Sum(xs: seq<nat>): nat
    decreases |xs|
  {
    if xs == [] then 0 else Sum(xs[..|xs| - 1]) + xs[|xs| - 1]
  }

  lemma {:induction false} SumAppend(a: seq<nat>, b: seq<nat>)
    ensures Sum(a + b) == Sum(a) + Sum(b)
    decreases |b|
  {
    if b == [] {
      assert a + b == a;
    } else {
      var front := b[..|b| - 1];
      SumAppend(a, front);
      assert (a + b)[..|a + b| - 1] == a + front;
    }
  }

  /**
    `m` added up `n` times, i.e. `m * n` (see `TimesIsProduct`). Weighted
    sums are stated with it so that they read as repeated additions.
   */
  function Times(m: real, n: nat): real
    decreases n
  {
    if n == 0 then 0.0 else Times(m, n - 1) + m
  }

  lemma {:induction false} TimesIsProduct(m: real, n: nat)
    ensures Times(m, n) == m * (n as real)
    decreases n
  {
    if n > 0 {
      TimesIsProduct(m, n - 1);
      assert m * ((n - 1) as real) + m == m * (n as real);
    }
  }

  /**
    `sum(xs) / len(xs) if xs else 0`: the exact mean, and 0 rather than a
    division by zero when nothing decoded. Counted `len(xs)` times, the mean
    gives back the sum.
   */
  function Mean(xs: seq<nat>): (m: real)
    ensures xs == [] ==> m == 0.0
    ensures Times(m, |xs|) == Sum(xs) as real
  {
    if xs == [] then 0.0
    else
      var m := (Sum(xs) as real) / (|xs| as real);
      TimesIsProduct(m, |xs|);
      m
  }

  lemma {:induction false} SumBounds(xs: seq<nat>, lo: nat, hi: nat)
    requires forall i :: 0 <= i < |xs| ==> lo <= xs[i] <= hi
    ensures |xs| * lo <= Sum(xs) <= |xs| * hi
    decreases |xs|
  {
    if xs != [] {
      var n := |xs| - 1;
      SumBounds(xs[..n], lo, hi);
      assert |xs| * lo == n * lo + lo;
      assert |xs| * hi == n * hi + hi;
    }
  }

  lemma BetweenBounds(m: real, n: real, total: real, lo: real, hi: real)
    requires n > 0.0 && m * n == total
    requires lo * n <= total <= hi * n
    ensures lo <= m <= hi
  {
    assert (m - lo) * n >= 0.0;
    assert (hi - m) * n >= 0.0;
  }

  /** The mean lies between the smallest and the largest size. */
  lemma MeanBounds(xs: seq<nat>, lo: nat, hi: nat)
    requires xs != []
    requires forall i :: 0 <= i < |xs| ==> lo <= xs[i] <= hi
    ensures lo as real <= Mean(xs) <= hi as real
  {
    SumBounds(xs, lo, hi);
    TimesIsProduct(Mean(xs), |xs|);
    BetweenBounds(Mean(xs), |xs| as real, Sum(xs) as real, lo as real, hi as real);
  }

  /**
    The mean over three lists of sizes put together is the average of their
    means weighted by their lengths.
   */
  lemma PooledMean(a: seq<nat>, b: seq<nat>, c: seq<nat>)
    ensures Times(Mean(a + b + c), |a + b + c|)
         == Times(Mean(a), |a|) + Times(Mean(b), |b|) + Times(Mean(c), |c|)
  {
    SumAppend(a, b);
    SumAppend(a + b, c);
  }

  /** The mean width of three splits' images together, weighted by image count. */
  lemma PooledWidths(s0: seq<Shape>, s1: seq<Shape>, s2: seq<Shape>)
    ensures Times(Mean(Widths(s0 + s1 + s2)), |s0 + s1 + s2|)
      == Times(Mean(Widths(s0)), |s0|) + Times(Mean(Widths(s1)), |s1|) + Times(Mean(Widths(s2)), |s2|)
  {
    WidthsHeightsAppend(s0, s1);
    WidthsHeightsAppend(s0 + s1, s2);
    PooledMean(Widths(s0), Widths(s1), Widths(s2));
  }

  /** The mean height of three splits' images together, weighted by image count. */
  lemma PooledHeights(s0: seq<Shape>, s1: seq<Shape>, s2: seq<Shape>)
    ensures Times(Mean(Heights(s0 + s1 + s2)), |s0 + s1 + s2|)
      == Times(Mean(Heights(s0)), |s0|) + Times(Mean(Heights(s1)), |s1|) + Times(Mean(Heights(s2)), |s2|)
  {
    WidthsHeightsAppend(s0, s1);
    WidthsHeightsAppend(s0 + s1, s2);
    PooledMean(Heights(s0), Heights(s1), Heights(s2));
  }
}
