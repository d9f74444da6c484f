/**
 * The retro-equalizer engine: 32 bar heights kept across frames, each eased toward a
 * target read from one spectrum bin; each bar is drawn at least 4 pixels high, as
 * 8-pixel segments coloured by how far up the bar they sit.
 */
module RetroEqualizer {
  import opened Wrappers
  import opened Spectrum
  import opened Visualizer

  const NumBars: nat := 32
  const SegmentHeight: real := 8.0
  const MinBarHeight: real := 4.0

  /**
   * `Math.floor((i / numBars) * length * 0.5)` for bar `i`: the bins sampled are spread
   * over the lower half of the buffer.
   */
  function BinIndex(i: nat, len: nat): (r: nat)
    requires i < NumBars
    ensures len > 0 ==> 2 * r < len
  {
    if len == 0 then 0
    else
      BinIndexBound(i, len);
      (i * len) / 64
  }

  lemma BinIndexBound(i: nat, len: nat)
    requires i < NumBars && len > 0
    ensures 2 * ((i * len) / 64) < len
  {
    var q := (i * len) / 64;
    assert q * 64 <= i * len;
    assert i * len <= 31 * len by {
      assert i <= 31;
    }
  }

  /** Later bars never read an earlier bin. */
  lemma BinIndexMonotone(i: nat, j: nat, len: nat)
    requires i <= j < NumBars
    ensures BinIndex(i, len) <= BinIndex(j, len)
  {
    assert i * len <= j * len by {
      assert (j - i) * len >= 0;
    }
  }

  /** `value`: 0 without an analyser, otherwise the sampled bin over 255, times the sensitivity. */
  function BarValue(frame: Option<seq<int>>, i: nat, sensitivity: real): (r: real)
    requires i < NumBars
    requires frame.Some? ==> AllBytes(frame.value) && |frame.value| > 0
    ensures frame.None? ==> r == 0.0
    ensures sensitivity >= 0.0 ==> 0.0 <= r <= sensitivity
  {
    if frame.None? then 0.0
    else
      var f := frame.value;
      var index := BinIndex(i, |f|);
      Amplify(f[index] as real / 255.0, sensitivity)
  }

  /** `targetHeight = value * (height * 0.85) * intensity`. */
  function TargetHeight(frame: Option<seq<int>>, i: nat, settings: Settings, height: real): (r: real)
    requires i < NumBars
    requires frame.Some? ==> AllBytes(frame.value) && |frame.value| > 0
    ensures frame.None? ==> r == 0.0
    ensures settings.sensitivity >= 0.0 && settings.intensity >= 0.0 && height >= 0.0 ==> r >= 0.0
  {
    var value := BarValue(frame, i, settings.sensitivity);
    var maxHeight := height * 0.85;
    NonNegativeProduct(value, maxHeight);
    NonNegativeProduct(value * maxHeight, settings.intensity);
    value * maxHeight * settings.intensity
  }

  /** The easing factor of the "smooth fall", `0.3 * speed`. */
  function EaseFactor(settings: Settings): (r: real)
    ensures settings.speed > 0.0 ==> r > 0.0
    ensures 0.0 <= settings.speed <= 10.0 / 3.0 ==> 0.0 <= r <= 1.0
  {
    0.3 * settings.speed
  }

  /** The bar heights after one frame: bar `i` eased toward its own target, each independently. */
  function EasedBars(bars: seq<real>, frame: Option<seq<int>>, settings: Settings, height: real): (r: seq<real>)
    requires |bars| == NumBars
    requires frame.Some? ==> AllBytes(frame.value) && |frame.value| > 0
    ensures |r| == NumBars
    ensures forall i :: 0 <= i < NumBars ==>
      r[i] == Ease(bars[i], TargetHeight(frame, i, settings, height), EaseFactor(settings))
  {
    seq(NumBars, i requires 0 <= i < NumBars => Ease(bars[i], TargetHeight(frame, i, settings, height), EaseFactor(settings)))
  }

  /**
   * With a speed for which the factor is in (0, 1], every bar moves toward its target
   * and never past it.
   */
  lemma EasedBarsApproachTargets(bars: seq<real>, frame: Option<seq<int>>, settings: Settings, height: real, i: nat)
    requires |bars| == NumBars && i < NumBars
    requires frame.Some? ==> AllBytes(frame.value) && |frame.value| > 0
    requires 0.0 < EaseFactor(settings) <= 1.0
    ensures var t := TargetHeight(frame, i, settings, height);
      Between(EasedBars(bars, frame, settings, height)[i], bars[i], t)
      && (bars[i] != t ==> AbsReal(EasedBars(bars, frame, settings, height)[i] - t) < AbsReal(bars[i] - t))
  {
  }

  /** Bars never go negative while the sensitivity, intensity and height are non-negative. */
  lemma EasedBarsStayNonNegative(bars: seq<real>, frame: Option<seq<int>>, settings: Settings, height: real)
    requires |bars| == NumBars && forall i :: 0 <= i < NumBars ==> bars[i] >= 0.0
    requires frame.Some? ==> AllBytes(frame.value) && |frame.value| > 0
    requires 0.0 <= EaseFactor(settings) <= 1.0
    requires settings.sensitivity >= 0.0 && settings.intensity >= 0.0 && height >= 0.0
    ensures forall i :: 0 <= i < NumBars ==> EasedBars(bars, frame, settings, height)[i] >= 0.0
  {
    forall i | 0 <= i < NumBars
      ensures EasedBars(bars, frame, settings, height)[i] >= 0.0
    {
      var t := TargetHeight(frame, i, settings, height);
      assert Between(Ease(bars[i], t, EaseFactor(settings)), bars[i], t);
    }
  }

  /** The engine's `barsRef`: empty until the first effect run. */
  class EqualizerState {
    var bars: array<real>

    constructor ()
      ensures bars.Length == 0
    {
      bars := new real[0];
    }

    /** The effect's seeding: 32 zero bars the first time, and never again. */
    method SeedBars()
      modifies this
      ensures old(bars.Length) == 0 ==> fresh(bars) && bars.Length == NumBars && forall i :: 0 <= i < NumBars ==> bars[i] == 0.0
      ensures old(bars.Length) != 0 ==> bars == old(bars)
    {
      if bars.Length == 0 {
        bars := new real[NumBars](_ => 0.0);
      }
    }

    /**
     * The bar loop of one `draw` call: bar `i` is eased in place at step `i`, and no
     * other bar changes at that step.
     */
    method DrawFrame(frame: Option<seq<int>>, settings: Settings, height: real)
      requires bars.Length == NumBars
      requires frame.Some? ==> AllBytes(frame.value) && |frame.value| > 0
      modifies bars
      ensures bars[..] == EasedBars(old(bars[..]), frame, settings, height)
    {
      ghost var before := bars[..];
      var i := 0;
      while i < NumBars
        invariant 0 <= i <= NumBars
        invariant forall k :: 0 <= k < i ==>
          bars[k] == Ease(before[k], TargetHeight(frame, k, settings, height), EaseFactor(settings))
        invariant forall k :: i <= k < NumBars ==> bars[k] == before[k]
      {
        var target := TargetHeight(frame, i, settings, height);
        bars[i] := Ease(bars[i], target, EaseFactor(settings));
        i := i + 1;
      }
      assert bars[..] == EasedBars(before, frame, settings, height);
    }
  }

  /** `Math.max(4, bar)`: never below 4 nor below the bar. */
  function DrawnHeight(bar: real): (h: real)
    ensures h >= MinBarHeight && h >= bar
    ensures h == MinBarHeight || h == bar
  {
    MaxReal(MinBarHeight, bar)
  }

  /** `Math.ceil(barHeight / 8)`: the fewest 8-pixel segments that cover the bar. */
  function SegmentCount(barHeight: real): (n: int)
    ensures barHeight > 0.0 ==> n >= 1
    ensures ((n - 1) * 8) as real < barHeight <= (n * 8) as real
  {
    -((-barHeight / SegmentHeight).Floor)
  }

  datatype SegmentColour = Red | Yellow | Primary

  /** Segment `s` of `n` (counted from the bottom): red above 80% of the bar, yellow above 60%. */
  function ColourOf(s: nat, n: nat): (r: SegmentColour)
    requires n > 0
    ensures r == Red <==> 5 * s > 4 * n
    ensures r == Primary <==> 5 * s <= 3 * n
  {
    var level := s as real / n as real;
    LevelAbove(s, n, 4, 5);
    LevelAbove(s, n, 3, 5);
    if level > 0.8 then Red else if level > 0.6 then Yellow else Primary
  }

  /** The fraction `s / n` exceeds `a / b` exactly when `b * s > a * n`. */
  lemma LevelAbove(s: nat, n: nat, a: nat, b: nat)
    requires n > 0 && b > 0
    ensures s as real / n as real > a as real / b as real <==> b * s > a * n
  {
    var level := s as real / n as real;
    var bound := a as real / b as real;
    assert level * n as real == s as real;
    assert bound * b as real == a as real;
    var scale := (n * b) as real;
    assert level * scale == (s * b) as real;
    assert bound * scale == (a * n) as real;
    if level > bound {
      assert (level - bound) * scale > 0.0;
    } else {
      NonNegativeProduct(bound - level, scale);
    }
  }

  function Rank(c: SegmentColour): (r: nat)
  {
    match c
    case Primary => 0
    case Yellow => 1
    case Red => 2
  }

  /** Colours only get hotter going up a bar. */
  lemma ColourMonotone(s: nat, t: nat, n: nat)
    requires s <= t && n > 0
    ensures Rank(ColourOf(s, n)) <= Rank(ColourOf(t, n))
  {
    FractionMonotone(s, t, n);
  }

  lemma FractionMonotone(s: nat, t: nat, n: nat)
    requires s <= t && n > 0
    ensures s as real / n as real <= t as real / n as real
  {
    var qs := s as real / n as real;
    var qt := t as real / n as real;
    assert qs * n as real == s as real;
    assert qt * n as real == t as real;
  }

  /** The bottom segment always takes the primary colour. */
  lemma BottomSegmentPrimary(n: nat)
    requires n > 0
    ensures ColourOf(0, n) == Primary
  {
  }

  /** The top segment of a bar is red exactly when the bar has at least 6 segments. */
  lemma {:induction false} TopSegmentRed(n: nat)
    requires n > 0
    ensures ColourOf(n - 1, n) == Red <==> n >= 6
  {
    var q := (n - 1) as real / n as real;
    assert q * n as real == (n - 1) as real;
    if n >= 6 {
      assert (q - 0.8) * n as real == 0.2 * n as real - 1.0;
      assert 0.2 * n as real - 1.0 > 0.0;
    } else {
      assert (q - 0.8) * n as real == 0.2 * n as real - 1.0;
      assert 0.2 * n as real - 1.0 <= 0.0;
    }
  }
}
