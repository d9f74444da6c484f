/**
 * The byte buffers the analyser fills and the primitives every engine builds on:
 * sums of byte slices (`slice(...).reduce((a, b) => a + b, 0)`), band levels
 * (that sum divided by a fixed count and by 255) and the exponential-smoothing
 * step `value += (target - value) * factor`.
 */
module Spectrum {

  /** The analyser's FFT window; the frequency and time-domain buffers hold half as many bins. */
  const FftSize: nat := 2048
  const BinCount: nat := FftSize / 2

  predicate IsByte(x: int) { 0 <= x <= 255 }

  /** What a `Uint8Array` guarantees of its elements. */
  predicate AllBytes(s: seq<int>) { forall i :: 0 <= i < |s| ==> IsByte(s[i]) }

  /** A buffer as created by the audio provider and refreshed by the analyser. */
  predicate IsFrame(s: seq<int>) { |s| == BinCount && AllBytes(s) }

  function Min(a: int, b: int): int { if a <= b then a else b }
  function Max(a: int, b: int): int { if a <= b then b else a }
  function MinReal(a: real, b: real): real { if a <= b then a else b }
  function MaxReal(a: real, b: real): real { if a <= b then b else a }
  function AbsReal(a: real): real { if a < 0.0 then -a else a }

  /** What `Math.random()` returns: a value in [0, 1). */
  predicate IsUnit(u: real) { 0.0 <= u < 1.0 }

  /** `r` lies between `a` and `b`, whichever order they come in. */
  predicate Between(r: real, a: real, b: real) { MinReal(a, b) <= r <= MaxReal(a, b) }

  /** `reduce((a, b) => a + b, 0)`. */
  function Sum(s: seq<int>): (r: int)
    ensures s == [] ==> r == 0
  {
    if s == [] then 0 else s[0] + Sum(s[1..])
  }

  lemma {:induction false} SumBounds(s: seq<int>)
    requires AllBytes(s)
    ensures 0 <= Sum(s) <= 255 * |s|
  {
    if s != [] {
      assert AllBytes(s[1..]);
      SumBounds(s[1..]);
    }
  }

  /** Adding one more element at the end adds it to the sum. */
  lemma {:induction false} SumSnoc(s: seq<int>, x: int)
    ensures Sum(s + [x]) == Sum(s) + x
  {
    if s != [] {
      assert (s + [x])[1..] == s[1..] + [x];
      SumSnoc(s[1..], x);
    }
  }

  /** A slice in which every byte has the same value `v` sums to `v` times its length. */
  lemma {:induction false} SumConstant(s: seq<int>, v: int)
    requires forall i :: 0 <= i < |s| ==> s[i] == v
    ensures Sum(s) == v * |s|
  {
    if s != [] {
      SumConstant(s[1..], v);
    }
  }

  /** `slice(lo, hi)` of an array or string, for non-negative bounds: both ends clamped to the length. */
  function Slice<T>(s: seq<T>, lo: nat, hi: nat): (r: seq<T>)
    ensures lo <= hi ==> |r| <= hi - lo
    ensures hi <= |s| && lo <= hi ==> |r| == hi - lo
    ensures |r| == if lo <= hi && lo < |s| then Min(hi, |s|) - lo else 0
    ensures forall k :: 0 <= k < |r| ==> lo + k < |s| && r[k] == s[lo + k]
  {
    var a := Min(lo, |s|);
    var b := Min(hi, |s|);
    if a <= b then s[a..b] else []
  }

  lemma SliceOfBytes(s: seq<int>, lo: nat, hi: nat)
    requires AllBytes(s)
    ensures AllBytes(Slice(s, lo, hi))
  {
  }

  /**
   * Sum of the bins [lo, hi) divided by `count` and by 255, as each engine computes a
   * band: `frequencyData.slice(lo, hi).reduce(...) / count / 255`. When `count` is at
   * least the width of the range, the level is a fraction of full scale.
   */
  function BandLevel(bins: seq<int>, lo: nat, hi: nat, count: nat): (r: real)
    requires AllBytes(bins) && count > 0
    ensures 0.0 <= r
    ensures lo <= hi && hi - lo <= count ==> r <= 1.0
  {
    var slice := Slice(bins, lo, hi);
    SliceOfBytes(bins, lo, hi);
    SumBounds(slice);
    if lo <= hi && hi - lo <= count then
      BandFraction(Sum(slice) as real, count as real);
      Sum(slice) as real / count as real / 255.0
    else
      Sum(slice) as real / count as real / 255.0
  }

  lemma BandFraction(sum: real, count: real)
    requires 0.0 <= sum <= 255.0 * count && 0.0 < count
    ensures sum / count / 255.0 <= 1.0
  {
    var q := sum / count;
    assert q * count == sum;
    if q > 255.0 {
      assert q * count > 255.0 * count;
    }
  }

  /** Bins [lo, hi) all at full scale give a band level of exactly 1 when divided by the range's width. */
  lemma BandLevelFullScale(bins: seq<int>, lo: nat, hi: nat)
    requires AllBytes(bins) && lo < hi <= |bins|
    requires forall i :: lo <= i < hi ==> bins[i] == 255
    ensures BandLevel(bins, lo, hi, hi - lo) == 1.0
  {
    SumConstant(Slice(bins, lo, hi), 255);
  }

  /** Bins [lo, hi) all silent give a band level of 0. */
  lemma BandLevelSilent(bins: seq<int>, lo: nat, hi: nat, count: nat)
    requires AllBytes(bins) && count > 0
    requires forall i :: lo <= i < hi && i < |bins| ==> bins[i] == 0
    ensures BandLevel(bins, lo, hi, count) == 0.0
  {
    SumConstant(Slice(bins, lo, hi), 0);
  }

  /** `part / whole` for `0 <= part <= whole`: a fraction in [0, 1]. */
  function Fraction(part: real, whole: real): (r: real)
    requires 0.0 <= part <= whole && whole > 0.0
    ensures 0.0 <= r <= 1.0
    ensures part == whole ==> r == 1.0
  {
    var q := part / whole;
    assert q * whole == part;
    if q > 1.0 then
      assert q * whole > whole;
      q
    else
      q
  }

  /** The product of two non-negative reals is non-negative; the engines' range proofs lean on it. */
  lemma NonNegativeProduct(a: real, b: real)
    ensures a >= 0.0 && b >= 0.0 ==> a * b >= 0.0
  {
  }

  /** Arithmetic mean `sum / length` of a non-empty byte sequence. */
  function Mean(s: seq<int>): (r: real)
    requires AllBytes(s) && |s| > 0
    ensures 0.0 <= r <= 255.0
  {
    SumBounds(s);
    Sum(s) as real / |s| as real
  }

  /**
   * One exponential-smoothing step, `value += (target - value) * factor`. With a factor
   * in [0, 1] the new value lies between the old value and the target, and any
   * positive factor strictly closes the gap.
   */
  function Ease(value: real, target: real, factor: real): (r: real)
    ensures 0.0 <= factor <= 1.0 ==> Between(r, value, target)
    ensures 0.0 < factor <= 1.0 && value != target ==> AbsReal(r - target) < AbsReal(value - target)
    ensures factor == 1.0 ==> r == target
    ensures value == target ==> r == target
  {
    value + Scale(target - value, factor)
  }

  /**
   * `r` is `gap` scaled by `factor`, as far as a factor in [0, 1] decides it: the result
   * keeps the gap's sign and is no larger, is non-zero for a positive factor and a
   * non-zero gap, is the gap itself for factor 1, and is 0 for a zero gap.
   */
  predicate ShrinksGap(gap: real, factor: real, r: real)
  {
    && (0.0 <= factor <= 1.0 && gap >= 0.0 ==> 0.0 <= r <= gap)
    && (0.0 <= factor <= 1.0 && gap <= 0.0 ==> gap <= r <= 0.0)
    && (0.0 < factor <= 1.0 && gap > 0.0 ==> r > 0.0)
    && (0.0 < factor <= 1.0 && gap < 0.0 ==> r < 0.0)
    && (factor == 1.0 ==> r == gap)
    && (gap == 0.0 ==> r == 0.0)
  }

  /** The product itself shrinks the gap; kept apart so that the nonlinear step is proved on its own. */
  lemma ProductShrinksGap(gap: real, factor: real, r: real)
    requires r == gap * factor
    ensures ShrinksGap(gap, factor, r)
  {
  }

  /** `gap * factor`, with what a factor in [0, 1] does to the sign and size of the gap. */
  function Scale(gap: real, factor: real): (r: real)
    ensures ShrinksGap(gap, factor, r)
  {
    var r := gap * factor;
    ProductShrinksGap(gap, factor, r);
    r
  }

  /** Smoothing never leaves an interval that holds both the old value and the target. */
  lemma EaseWithin(value: real, target: real, factor: real, lo: real, hi: real)
    requires 0.0 <= factor <= 1.0
    requires lo <= value <= hi && lo <= target <= hi
    ensures lo <= Ease(value, target, factor) <= hi
  {
  }

  /** `level * gain` for a level in [0, 1] and a non-negative gain (a sensitivity or intensity): at most the gain. */
  function Amplify(level: real, gain: real): (r: real)
    ensures 0.0 <= level <= 1.0 && gain >= 0.0 ==> 0.0 <= r <= gain
    ensures level == 0.0 ==> r == 0.0
    ensures level == 1.0 ==> r == gain
  {
    Scale(gain, level)
  }
}
