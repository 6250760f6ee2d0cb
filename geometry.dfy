/** The geometry `gridrec()` derives itself: the padded sinogram width
    (tomopy/recon/gridrec.py:113-121), the default projection angles
    (lines 159-162) and the per-slice rotation centres (lines 174-181). */
module Geometry {
  import opened Common

  function Pow2(k: nat): (r: nat)
    ensures r >= 1
  {
    if k == 0 then 1 else 2 * Pow2(k - 1)
  }

  predicate IsPowerOfTwo(x: int)
    decreases x
  {
    x == 1 || (x >= 2 && x % 2 == 0 && IsPowerOfTwo(x / 2))
  }

  /** The width the doubling search settles on, as the smallest admissible
      power of two: at least 2, at least `n`, and its half (when it is above 2)
      falls short of `n`. */
  predicate IsPaddedWidthFor(w: int, n: int) {
    IsPowerOfTwo(w) && 2 <= w && n <= w && (w == 2 || w / 2 < n)
  }

  /** Reference definition of the default width, by halving instead of
      doubling: none for an empty row, otherwise the least power of two above
      1 that holds `n` pixels. */
  function PaddedWidthFor(n: int): (w: int)
    decreases n
  {
    if n <= 0 then 0
    else if n <= 2 then 2
    else 2 * PaddedWidthFor((n + 1) / 2)
  }

  lemma {:induction false} Pow2IsPowerOfTwo(k: nat)
    ensures IsPowerOfTwo(Pow2(k))
  {
    if k > 0 {
      Pow2IsPowerOfTwo(k - 1);
      assert Pow2(k) / 2 == Pow2(k - 1);
    }
  }

  /** Two distinct powers of two are at least a factor of two apart. */
  lemma {:induction false} PowersOfTwoApart(p: int, q: int)
    requires IsPowerOfTwo(p) && IsPowerOfTwo(q) && p < q
    ensures q >= 2 && p <= q / 2
    decreases p
  {
    if p >= 2 {
      PowersOfTwoApart(p / 2, q / 2);
    }
  }

  lemma {:induction false} PaddedWidthForIsPaddedWidth(n: int)
    requires n > 0
    ensures IsPaddedWidthFor(PaddedWidthFor(n), n)
    decreases n
  {
    if n > 2 {
      var h := (n + 1) / 2;
      PaddedWidthForIsPaddedWidth(h);
      var w := PaddedWidthFor(h);
      assert PaddedWidthFor(n) == 2 * w;
      assert (2 * w) / 2 == w;
      assert IsPowerOfTwo(2 * w);
    }
  }

  /** At most one width meets the characterisation. */
  lemma PaddedWidthUnique(w: int, v: int, n: int)
    requires IsPaddedWidthFor(w, n) && IsPaddedWidthFor(v, n)
    ensures w == v
  {
    if w < v {
      PowersOfTwoApart(w, v);
    } else if v < w {
      PowersOfTwoApart(v, w);
    }
  }

  /** The default width is the smallest power of two 2^k with k >= 1 that is
      at least `n`, and 0 when `n` is not positive. */
  lemma PaddedWidthIsSmallestPowerOfTwo(n: int)
    ensures n <= 0 ==> PaddedWidthFor(n) == 0
    ensures n > 0 ==> IsPowerOfTwo(PaddedWidthFor(n)) && 2 <= PaddedWidthFor(n) && n <= PaddedWidthFor(n)
    ensures n > 0 ==> forall p :: IsPowerOfTwo(p) && 2 <= p && n <= p ==> PaddedWidthFor(n) <= p
  {
    if n > 0 {
      PaddedWidthForIsPaddedWidth(n);
      var w := PaddedWidthFor(n);
      forall p | IsPowerOfTwo(p) && 2 <= p && n <= p ensures w <= p {
        if p < w {
          PowersOfTwoApart(p, w);
        }
      }
    }
  }

  lemma {:induction false} Pow2Add(a: nat, b: nat)
    ensures Pow2(a + b) == Pow2(a) * Pow2(b)
  {
    if a > 0 {
      Pow2Add(a - 1, b);
      assert Pow2(a + b) == 2 * Pow2(a - 1 + b);
    }
  }

  /** A pixel count above 2^(k-1) and at most 2^k gets width 2^k. */
  lemma PaddedWidthBetweenPowers(n: int, k: nat)
    requires 1 <= k && Pow2(k - 1) < n <= Pow2(k)
    ensures PaddedWidthFor(n) == Pow2(k)
  {
    Pow2IsPowerOfTwo(k);
    assert Pow2(k) / 2 == Pow2(k - 1);
    assert IsPaddedWidthFor(Pow2(k), n);
    PaddedWidthForIsPaddedWidth(n);
    PaddedWidthUnique(PaddedWidthFor(n), Pow2(k), n);
  }

  /** The doubling loop of lines 113-118 for a caller that passed no width. */
  method PadWidth(numPixels: int) returns (width: int)
    ensures width == PaddedWidthFor(numPixels)
  {
    width := 0;
    var powerN: nat := 1;
    while width < numPixels
      invariant (powerN == 1 && width == 0) || (powerN >= 2 && width == Pow2(powerN - 1))
      invariant powerN >= 2 ==> 0 < numPixels && (width == 2 || width / 2 < numPixels)
      decreases numPixels - width
    {
      width := Pow2(powerN);
      powerN := powerN + 1;
    }
    if numPixels > 0 {
      Pow2IsPowerOfTwo(powerN - 1);
      PaddedWidthForIsPaddedWidth(numPixels);
      PaddedWidthUnique(width, PaddedWidthFor(numPixels), numPixels);
    }
  }

  /** Lines 113-121 as a whole: no width means the doubling default; an
      explicit width below the pixel count is a ValueError; any other one is
      kept as given, power of two or not. */
  function PaddingFor(numPixels: int, requested: Option<int>): (r: Result<int>)
    ensures requested.None? ==> r == Ok(PaddedWidthFor(numPixels))
    ensures requested.Some? ==> (r.Err? <==> requested.value < numPixels)
    ensures requested.Some? && r.Ok? ==> r.value == requested.value
    ensures r.Err? ==> r.error == PaddedWidthTooSmall
  {
    match requested
    case None => Ok(PaddedWidthFor(numPixels))
    case Some(w) => if w < numPixels then Err(PaddedWidthTooSmall) else Ok(w)
  }

  /** `np.linspace(start, stop, num)`: `num` evenly spaced samples, both end
      points included, in exact arithmetic. */
  function Linspace(start: real, stop: real, num: nat): (r: seq<real>)
    ensures |r| == num
    ensures num >= 1 ==> r[0] == start
    ensures num >= 2 ==> r[num - 1] == stop
    ensures forall i :: 0 <= i < num - 1 ==> r[i + 1] - r[i] == (stop - start) / (num - 1) as real
  {
    if num <= 1 then seq(num, _ => start)
    else
      var step := (stop - start) / (num - 1) as real;
      var r := seq(num, i requires 0 <= i < num => start + i as real * step);
      assert r[num - 1] == start + (num - 1) as real * step;
      r
  }

  /** Lines 160-162: the angles used when the dataset has none,
      `linspace(0, N, N) * 180 / N`. */
  function DefaultTheta(numProjections: nat): (theta: seq<real>)
    ensures |theta| == numProjections
  {
    var n := numProjections;
    var samples := Linspace(0.0, n as real, n);
    seq(n, i requires 0 <= i < n => samples[i] * 180.0 / n as real)
  }

  /** The default angles start at 0 degrees; with two or more projections
      they sweep to 180 degrees, both included, in equal steps. */
  lemma DefaultThetaEvenlySpaced(n: nat)
    requires n >= 1
    ensures DefaultTheta(n)[0] == 0.0
    ensures n >= 2 ==> DefaultTheta(n)[n - 1] == 180.0
    ensures forall i :: 0 <= i < n - 1 ==>
              DefaultTheta(n)[i + 1] - DefaultTheta(n)[i] == 180.0 / (n - 1) as real
  {
    var samples := Linspace(0.0, n as real, n);
    var theta := DefaultTheta(n);
    assert theta[n - 1] == samples[n - 1] * 180.0 / n as real;
    if n >= 2 {
      ScaleCancels(n as real);
    }
    forall i | 0 <= i < n - 1
      ensures theta[i + 1] - theta[i] == 180.0 / (n - 1) as real
    {
      SpacingScales(samples[i], samples[i + 1], n as real, (n - 1) as real);
    }
  }

  lemma ScaleCancels(n: real)
    requires n > 0.0
    ensures n * 180.0 / n == 180.0
  {
  }

  lemma SpacingScales(a: real, b: real, n: real, m: real)
    requires n > 0.0 && m > 0.0 && b - a == n / m
    ensures b * 180.0 / n - a * 180.0 / n == 180.0 / m
  {
    calc {
      b * 180.0 / n - a * 180.0 / n;
      (b - a) * 180.0 / n;
      (n / m) * 180.0 / n;
      180.0 / m;
    }
  }

  /** Lines 174-181: one rotation centre per slice of the job. No centre means
      half the pixel count for every slice; a single value is broadcast; any
      other array (of the right length or not) is passed on as it is. */
  function ResolveCenters(numSlices: nat, numPixels: int, center: Option<seq<real>>): (r: seq<real>)
    ensures center.None? ==> |r| == numSlices && forall i :: 0 <= i < numSlices ==> r[i] == numPixels as real / 2.0
    ensures center.Some? && |center.value| == 1 ==>
              |r| == numSlices && forall i :: 0 <= i < numSlices ==> r[i] == center.value[0]
    ensures center.Some? && |center.value| != 1 ==> r == center.value
  {
    match center
    case None => seq(numSlices, _ => numPixels as real / 2.0)
    case Some(c) => if |c| == 1 then seq(numSlices, _ => c[0]) else c
  }

  /** The job gets exactly one centre per slice precisely when no centre was
      given, a single one was given, or one per slice was given. */
  lemma CentersMatchSlices(numSlices: nat, numPixels: int, center: Option<seq<real>>)
    ensures |ResolveCenters(numSlices, numPixels, center)| == numSlices <==>
              (center.None? || |center.value| == 1 || |center.value| == numSlices)
  {
  }
}
