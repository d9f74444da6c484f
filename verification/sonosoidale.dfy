/**
 * The pulse-mirror-spectrum engine: 64 bars, each smoothing one spectrum bin and
 * easing its height toward a target boosted by a smoothed bass level and a beat
 * envelope. The envelope jumps by seven times a sharp bass rise (over 0.1 from one
 * frame to the next), is capped at 1, and decays by a factor 0.88 every frame.
 */
module Sonosoidale {
  import opened Wrappers
  import opened Spectrum
  import opened Visualizer

  const BarCount: nat := 64
  const BassBins: nat := 8
  const BassSmoothing: real := 0.16
  const ValueSmoothing: real := 0.26
  const HeightEasing: real := 0.2
  const BeatThreshold: real := 0.1
  const BeatGain: real := 7.0
  const BeatDecay: real := 0.88

  /** A frame's bass: the first 8 bins (missing ones count as 0) over `8 * 255`; 0 without a spectrum. */
  function FrameBass(spectrum: Option<seq<int>>): (b: real)
    requires spectrum.Some? ==> AllBytes(spectrum.value)
    ensures 0.0 <= b <= 1.0
    ensures spectrum.None? ==> b == 0.0
  {
    if spectrum.None? then 0.0 else BandLevel(spectrum.value, 0, BassBins, BassBins)
  }

  /**
   * The bass loop `for (b = 0; b < 8; b++) bass += spectrum[b] || 0`, then the division;
   * it computes the band level of the first 8 bins.
   */
  method BassLevel(spectrum: Option<seq<int>>) returns (bass: real)
    requires spectrum.Some? ==> AllBytes(spectrum.value)
    ensures bass == FrameBass(spectrum)
    ensures 0.0 <= bass <= 1.0
  {
    bass := 0.0;
    if spectrum.Some? {
      var s := spectrum.value;
      var total := 0;
      var b := 0;
      while b < BassBins
        invariant 0 <= b <= BassBins
        invariant total == Sum(Slice(s, 0, b))
      {
        if b < |s| {
          assert Slice(s, 0, b + 1) == Slice(s, 0, b) + [s[b]];
          SumSnoc(Slice(s, 0, b), s[b]);
          total := total + s[b];
        } else {
          assert Slice(s, 0, b + 1) == Slice(s, 0, b);
        }
        b := b + 1;
      }
      bass := total as real / (BassBins * 255) as real;
    }
  }

  /**
   * One frame of the beat detector: a rise of the raw bass over 0.1 since the previous
   * frame adds seven times the rise (capped at 1); then the envelope decays by 0.88.
   */
  function BeatStep(beat: real, bass: real, prevBass: real): (r: real)
    ensures 0.0 <= beat <= 1.0 ==> 0.0 <= r <= BeatDecay
    ensures bass - prevBass <= BeatThreshold ==> r == beat * BeatDecay
  {
    var delta := bass - prevBass;
    var raised := if delta > BeatThreshold then MinReal(1.0, beat + delta * BeatGain) else beat;
    raised * BeatDecay
  }

  /** Without a spike the envelope strictly decays (while it is positive). */
  lemma BeatDecaysWithoutSpike(beat: real, bass: real, prevBass: real)
    requires bass - prevBass <= BeatThreshold && beat > 0.0
    ensures 0.0 < BeatStep(beat, bass, prevBass) < beat
  {
  }

  /** The envelope only grows on a frame with a spike. */
  lemma BeatGrowsOnlyOnSpike(beat: real, bass: real, prevBass: real)
    requires beat >= 0.0
    requires BeatStep(beat, bass, prevBass) > beat
    ensures bass - prevBass > BeatThreshold
  {
  }

  /** A rise of at least 1/7 saturates the envelope: after the frame it is exactly 0.88. */
  lemma StrongSpikeSaturates(beat: real, bass: real, prevBass: real)
    requires beat >= 0.0 && bass - prevBass >= 1.0 / 7.0
    ensures BeatStep(beat, bass, prevBass) == BeatDecay
  {
  }

  /** The envelope after a run of frames with raw bass readings `basses`. */
  function BeatAfter(beat: real, prevBass: real, basses: seq<real>): (r: real)
    decreases |basses|
  {
    if basses == [] then beat else BeatAfter(BeatStep(beat, basses[0], prevBass), basses[0], basses[1..])
  }

  /** However the bass moves, after at least one frame the envelope lies in [0, 0.88]. */
  lemma {:induction false} BeatAlwaysBounded(beat: real, prevBass: real, basses: seq<real>)
    requires 0.0 <= beat <= 1.0
    ensures 0.0 <= BeatAfter(beat, prevBass, basses) <= 1.0
    ensures basses != [] ==> BeatAfter(beat, prevBass, basses) <= BeatDecay
    decreases |basses|
  {
    if basses != [] {
      var next := BeatStep(beat, basses[0], prevBass);
      BeatAlwaysBounded(next, basses[0], basses[1..]);
      if basses[1..] == [] {
        assert BeatAfter(beat, prevBass, basses) == next;
      }
    }
  }

  /**
   * Bass 0.1 then 0.3 then 0.3 from rest: the first frame's rise is not over the
   * threshold, the second saturates the envelope at 0.88, the third only decays it.
   */
  lemma BeatScenario()
    ensures BeatStep(0.0, 0.1, 0.0) == 0.0
    ensures BeatStep(0.0, 0.3, 0.1) == 0.88
    ensures BeatStep(0.88, 0.3, 0.3) == 0.7744
  {
  }

  /** `min(floor(i / 64 * length), length - 1)`: the bin bar `i` reads. */
  function SpecIndex(i: nat, len: nat): (r: nat)
    requires i < BarCount && len > 0
    ensures r < len
  {
    Min((i * len) / 64, len - 1)
  }

  /** For bars below 64 the clamp never applies: the index is already below the length. */
  lemma SpecIndexUnclamped(i: nat, len: nat)
    requires i < BarCount && len > 0
    ensures SpecIndex(i, len) == (i * len) / 64
  {
    assert i * len < 64 * len by {
      assert (64 - i) * len > 0;
    }
  }

  /** `rawValue`: the bin bar `i` reads over 255, or 0 without a spectrum. */
  function RawValue(spectrum: Option<seq<int>>, i: nat): (v: real)
    requires i < BarCount
    requires spectrum.Some? ==> AllBytes(spectrum.value) && |spectrum.value| > 0
    ensures 0.0 <= v <= 1.0
    ensures spectrum.None? ==> v == 0.0
  {
    if spectrum.None? then 0.0
    else
      var s := spectrum.value;
      s[SpecIndex(i, |s|)] as real / 255.0
  }

  datatype SpectrumBar = SpectrumBar(frequency: int, targetHeight: real, currentHeight: real, smoothedValue: real)

  /** `1.2 + smoothedBass * 1.8 + beat * 1.5`: at least 1.2 for a non-negative bass and beat. */
  function BassBoost(smoothedBass: real, beat: real): (r: real)
    ensures smoothedBass >= 0.0 && beat >= 0.0 ==> r >= 1.2
  {
    1.2 + smoothedBass * 1.8 + beat * 1.5
  }

  /**
   * One bar's update: its smoothed value moves 26% toward the raw value, its target is
   * the smoothed value times the intensity and the boost, and its height moves 20% of the
   * way to the target. The frequency is kept.
   */
  function UpdatedBar(bar: SpectrumBar, raw: real, intensity: real, smoothedBass: real, beat: real): (r: SpectrumBar)
    ensures r.frequency == bar.frequency
    ensures r.smoothedValue == Ease(bar.smoothedValue, raw, ValueSmoothing)
    ensures r.targetHeight == r.smoothedValue * intensity * BassBoost(smoothedBass, beat)
    ensures r.currentHeight == Ease(bar.currentHeight, r.targetHeight, HeightEasing)
    ensures Between(r.currentHeight, bar.currentHeight, r.targetHeight)
    ensures 0.0 <= raw <= 1.0 && 0.0 <= bar.smoothedValue <= 1.0 ==> 0.0 <= r.smoothedValue <= 1.0
  {
    var smoothed := Ease(bar.smoothedValue, raw, ValueSmoothing);
    var target := smoothed * intensity * BassBoost(smoothedBass, beat);
    SpectrumBar(bar.frequency, target, Ease(bar.currentHeight, target, HeightEasing), smoothed)
  }

  /** The engine's refs: the bar array, the smoothed bass, the beat envelope and the previous raw bass. */
  class PulseMirrorState {
    var bars: array<SpectrumBar>
    var smoothedBass: real
    var beat: real
    var prevBass: real

    /** 64 bars, bar `i` for frequency `i`, with levels in [0, 1]. */
    ghost predicate Valid()
      reads this, bars
    {
      && bars.Length == BarCount
      && (forall i :: 0 <= i < BarCount ==> bars[i].frequency == i && 0.0 <= bars[i].smoothedValue <= 1.0)
      && 0.0 <= smoothedBass <= 1.0 && 0.0 <= beat <= 1.0 && 0.0 <= prevBass <= 1.0
    }

    constructor ()
      ensures Valid() && fresh(bars)
      ensures forall i :: 0 <= i < BarCount ==> bars[i] == SpectrumBar(i, 0.0, 0.0, 0.0)
      ensures smoothedBass == 0.0 && beat == 0.0 && prevBass == 0.0
    {
      bars := new SpectrumBar[BarCount](i => SpectrumBar(i, 0.0, 0.0, 0.0));
      smoothedBass, beat, prevBass := 0.0, 0.0, 0.0;
    }

    /**
     * The `forEach` over the bars: every bar is updated in place from its own bin with
     * the current smoothed bass and beat; nothing else changes.
     */
    method UpdateBars(spectrum: Option<seq<int>>, intensity: real)
      requires Valid()
      requires spectrum.Some? ==> AllBytes(spectrum.value) && |spectrum.value| > 0
      modifies bars
      ensures Valid()
      ensures forall i :: 0 <= i < BarCount ==>
        bars[i] == UpdatedBar(old(bars[i]), RawValue(spectrum, i), intensity, smoothedBass, beat)
    {
      var i := 0;
      while i < BarCount
        invariant 0 <= i <= BarCount
        invariant Valid()
        invariant forall k :: 0 <= k < i ==>
          bars[k] == UpdatedBar(old(bars[k]), RawValue(spectrum, k), intensity, smoothedBass, beat)
        invariant forall k :: i <= k < BarCount ==> bars[k] == old(bars[k])
      {
        var next := UpdatedBar(bars[i], RawValue(spectrum, i), intensity, smoothedBass, beat);
        bars[i] := next;
        i := i + 1;
      }
    }

    /**
     * One `draw` call's state update: the smoothed bass moves 16% toward the frame's bass,
     * the beat envelope steps, the previous bass becomes the raw one, and every bar is
     * updated in place from its own bin with the new smoothed bass and beat.
     */
    method DrawFrame(spectrum: Option<seq<int>>, settings: Settings)
      requires Valid()
      requires spectrum.Some? ==> AllBytes(spectrum.value) && |spectrum.value| > 0
      modifies this, bars
      ensures Valid() && bars == old(bars)
      ensures var bass := FrameBass(spectrum);
        smoothedBass == Ease(old(smoothedBass), bass, BassSmoothing)
        && beat == BeatStep(old(beat), bass, old(prevBass))
        && prevBass == bass
      ensures forall i :: 0 <= i < BarCount ==>
        bars[i] == UpdatedBar(old(bars[i]), RawValue(spectrum, i), settings.intensity, smoothedBass, beat)
    {
      var bass := BassLevel(spectrum);
      EaseWithin(smoothedBass, bass, BassSmoothing, 0.0, 1.0);
      smoothedBass := Ease(smoothedBass, bass, BassSmoothing);
      beat := BeatStep(beat, bass, prevBass);
      prevBass := bass;
      UpdateBars(spectrum, settings.intensity);
    }
  }
}
