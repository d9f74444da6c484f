/**
 * The dual-pulse-waves engine: per frame it advances a time accumulator, reads three
 * bands from the spectrum, eases a smoothed bass and mid level toward them, and draws
 * two pulses of eight rings each, skipping any ring whose radius reaches the larger
 * canvas side.
 *
 * The ring radius involves `Math.sin` of the time-dependent phase; those sine values
 * are taken as inputs (`sines[8 * pulse + wave]`, each in [-1, 1]).
 */
module NeonTunnel {
  import opened Wrappers
  import opened Spectrum
  import opened Visualizer

  datatype Bands = Bands(bass: real, mid: real, high: real)

  /**
   * Bass from bins [0, 10) divided by 10, mid from [50, 150) by 100, high from
   * [150, 256) by 106, each divided by 255 and then multiplied by the sensitivity.
   * All three are 0 without an analyser.
   */
  function DualPulseBands(frame: Option<seq<int>>, sensitivity: real): (b: Bands)
    requires frame.Some? ==> AllBytes(frame.value)
    ensures frame.None? ==> b == Bands(0.0, 0.0, 0.0)
    ensures sensitivity >= 0.0 ==>
      0.0 <= b.bass <= sensitivity && 0.0 <= b.mid <= sensitivity && 0.0 <= b.high <= sensitivity
  {
    if frame.None? then Bands(0.0, 0.0, 0.0)
    else
      var f := frame.value;
      Bands(Amplify(BandLevel(f, 0, 10, 10), sensitivity),
            Amplify(BandLevel(f, 50, 150, 100), sensitivity),
            Amplify(BandLevel(f, 150, 256, 106), sensitivity))
  }

  /** A frame whose first ten bins are at full scale gives a bass of exactly the sensitivity. */
  lemma FullScaleBassIsSensitivity(frame: seq<int>, sensitivity: real)
    requires AllBytes(frame) && |frame| >= 10
    requires forall i :: 0 <= i < 10 ==> frame[i] == 255
    ensures DualPulseBands(Some(frame), sensitivity).bass == sensitivity
  {
    BandLevelFullScale(frame, 0, 10);
  }

  const SmoothingFactor: real := 0.18
  const PulseCount: nat := 2
  const WaveCount: nat := 8

  /** `40 + w * 35 + smoothedBass * 80`. */
  function BaseRadius(wave: nat, smoothedBass: real): (r: real)
    ensures smoothedBass >= 0.0 ==> r >= 40.0
  {
    40.0 + (wave * 35) as real + smoothedBass * 80.0
  }

  /** Outer waves start further out: the base radius grows by 35 per wave. */
  lemma BaseRadiusIncreasing(w1: nat, w2: nat, smoothedBass: real)
    requires w1 < w2
    ensures BaseRadius(w1, smoothedBass) + 35.0 <= BaseRadius(w2, smoothedBass)
  {
  }

  /** One ring of one pulse, with the radius it is drawn at. */
  datatype Ring = Ring(pulse: nat, wave: nat, radius: real)

  /** The ring of pulse `p`, wave `w`, given the sine of its phase. */
  function RingAt(p: nat, w: nat, smoothedBass: real, smoothedMid: real, sine: real): (r: Ring)
    ensures r.pulse == p && r.wave == w
    ensures sine == 0.0 ==> r.radius == BaseRadius(w, smoothedBass)
    ensures smoothedMid >= 0.0 && -1.0 <= sine <= 1.0 ==>
      AbsReal(r.radius - BaseRadius(w, smoothedBass)) <= 40.0 * (0.5 + smoothedMid)
  {
    var swing := 40.0 * (0.5 + smoothedMid);
    assert sine * 40.0 * (0.5 + smoothedMid) == sine * swing;
    NonNegativeProduct(1.0 - sine, swing);
    NonNegativeProduct(1.0 + sine, swing);
    Ring(p, w, BaseRadius(w, smoothedBass) + sine * 40.0 * (0.5 + smoothedMid))
  }

  /** The ring of pulse `p`, wave `w` of a frame, with its sine taken from `sines`. */
  function Candidate(p: nat, w: nat, smoothedBass: real, smoothedMid: real, sines: seq<real>): (r: Ring)
    requires ValidSines(sines) && p < PulseCount && w < WaveCount
    ensures r.pulse == p && r.wave == w && Order(r) < |sines|
  {
    RingAt(p, w, smoothedBass, smoothedMid, sines[8 * p + w])
  }

  /** Position of a ring in the drawing order (pulse-major). */
  function Order(r: Ring): (res: nat)
  {
    8 * r.pulse + r.wave
  }

  predicate ValidSines(sines: seq<real>)
  {
    |sines| == PulseCount * WaveCount && forall k :: 0 <= k < |sines| ==> -1.0 <= sines[k] <= 1.0
  }

  /** No ring of the frame has a negative radius. */
  predicate NoNegativeRing(smoothedBass: real, smoothedMid: real, sines: seq<real>)
    requires ValidSines(sines)
  {
    forall p: nat, w: nat :: p < PulseCount && w < WaveCount ==>
      Candidate(p, w, smoothedBass, smoothedMid, sines).radius >= 0.0
  }

  /**
   * The nested ring loops. A ring is drawn when its radius is below `max(width, height)`;
   * the code checks no lower bound, and `ctx.arc` throws on a negative radius. The
   * exception ends the `draw` call before it schedules the next frame. `failed` is that
   * ring when it happens; `drawn` holds the rings stroked before it, in loop order.
   */
  method VisibleRings(smoothedBass: real, smoothedMid: real, sines: seq<real>, width: nat, height: nat)
    returns (drawn: seq<Ring>, failed: Option<Ring>)
    requires ValidSines(sines)
    ensures |drawn| <= PulseCount * WaveCount
    ensures forall k :: 0 <= k < |drawn| ==>
      drawn[k].pulse < PulseCount && drawn[k].wave < WaveCount
      && drawn[k] == RingAt(drawn[k].pulse, drawn[k].wave, smoothedBass, smoothedMid, sines[Order(drawn[k])])
      && 0.0 <= drawn[k].radius < Max(width, height) as real
    ensures failed.None? <==> NoNegativeRing(smoothedBass, smoothedMid, sines)
    ensures failed.Some? ==>
      failed.value.pulse < PulseCount && failed.value.wave < WaveCount
      && failed.value == Candidate(failed.value.pulse, failed.value.wave, smoothedBass, smoothedMid, sines)
      && failed.value.radius < 0.0
      && forall k :: 0 <= k < |drawn| ==> Order(drawn[k]) < Order(failed.value)
    ensures forall p: nat, w: nat ::
      (p < PulseCount && w < WaveCount && (failed.None? || 8 * p + w < Order(failed.value))) ==>
      Candidate(p, w, smoothedBass, smoothedMid, sines).radius >= 0.0
      && (Candidate(p, w, smoothedBass, smoothedMid, sines).radius < Max(width, height) as real
          ==> Candidate(p, w, smoothedBass, smoothedMid, sines) in drawn)
    ensures forall i, j :: 0 <= i < j < |drawn| ==> Order(drawn[i]) < Order(drawn[j])
  {
    var bound := Max(width, height) as real;
    drawn, failed := [], None;
    var pulse: nat := 0;
    while pulse < PulseCount
      invariant pulse <= PulseCount
      invariant |drawn| <= 8 * pulse
      invariant forall k :: 0 <= k < |drawn| ==>
        drawn[k].pulse < pulse && drawn[k].wave < WaveCount
        && drawn[k] == RingAt(drawn[k].pulse, drawn[k].wave, smoothedBass, smoothedMid, sines[Order(drawn[k])])
        && 0.0 <= drawn[k].radius < bound
      invariant forall p: nat, w: nat :: p < pulse && w < WaveCount ==>
        Candidate(p, w, smoothedBass, smoothedMid, sines).radius >= 0.0
        && (Candidate(p, w, smoothedBass, smoothedMid, sines).radius < bound
            ==> Candidate(p, w, smoothedBass, smoothedMid, sines) in drawn)
      invariant forall i, j :: 0 <= i < j < |drawn| ==> Order(drawn[i]) < Order(drawn[j])
    {
      var wave: nat := 0;
      while wave < WaveCount
        invariant wave <= WaveCount
        invariant |drawn| <= 8 * pulse + wave
        invariant forall k :: 0 <= k < |drawn| ==>
          Order(drawn[k]) < 8 * pulse + wave && drawn[k].pulse <= pulse && drawn[k].wave < WaveCount
          && drawn[k] == RingAt(drawn[k].pulse, drawn[k].wave, smoothedBass, smoothedMid, sines[Order(drawn[k])])
          && 0.0 <= drawn[k].radius < bound
        invariant forall p: nat, w: nat :: (p < pulse || (p == pulse && w < wave)) && w < WaveCount ==>
          Candidate(p, w, smoothedBass, smoothedMid, sines).radius >= 0.0
          && (Candidate(p, w, smoothedBass, smoothedMid, sines).radius < bound
              ==> Candidate(p, w, smoothedBass, smoothedMid, sines) in drawn)
        invariant forall i, j :: 0 <= i < j < |drawn| ==> Order(drawn[i]) < Order(drawn[j])
      {
        var ring := Candidate(pulse, wave, smoothedBass, smoothedMid, sines);
        if ring.radius < bound {
          if ring.radius < 0.0 {
            failed := Some(ring);
            return;
          }
          drawn := drawn + [ring];
        }
        wave := wave + 1;
      }
      pulse := pulse + 1;
    }
  }

  /** The engine's refs: the time accumulator and the two smoothed levels. */
  class DualPulseState {
    var time: real
    var smoothedBass: real
    var smoothedMid: real

    constructor ()
      ensures time == 0.0 && smoothedBass == 0.0 && smoothedMid == 0.0
    {
      time, smoothedBass, smoothedMid := 0.0, 0.0, 0.0;
    }

    /**
     * One `draw` call: time advances by `0.016 * speed`, both smoothed levels move 18%
     * of the way toward the new bands, and the visible rings are computed from the new
     * smoothed levels. `failed` is the ring whose negative radius makes the call throw,
     * after the state was updated and before the next frame is requested.
     */
    method DrawFrame(frame: Option<seq<int>>, settings: Settings, sines: seq<real>, width: nat, height: nat)
      returns (rings: seq<Ring>, failed: Option<Ring>)
      requires frame.Some? ==> AllBytes(frame.value)
      requires ValidSines(sines)
      modifies this
      ensures time == old(time) + 0.016 * settings.speed
      ensures var b := DualPulseBands(frame, settings.sensitivity);
        smoothedBass == Ease(old(smoothedBass), b.bass, SmoothingFactor)
        && smoothedMid == Ease(old(smoothedMid), b.mid, SmoothingFactor)
      ensures settings.sensitivity >= 0.0 && 0.0 <= old(smoothedBass) <= settings.sensitivity ==>
        0.0 <= smoothedBass <= settings.sensitivity
      ensures settings.sensitivity >= 0.0 && 0.0 <= old(smoothedMid) <= settings.sensitivity ==>
        0.0 <= smoothedMid <= settings.sensitivity
      ensures |rings| <= PulseCount * WaveCount
      ensures forall k :: 0 <= k < |rings| ==> 0.0 <= rings[k].radius < Max(width, height) as real
      ensures failed.None? <==> NoNegativeRing(smoothedBass, smoothedMid, sines)
    {
      time := time + 0.016 * settings.speed;
      var bands := DualPulseBands(frame, settings.sensitivity);
      var oldBass, oldMid := smoothedBass, smoothedMid;
      smoothedBass := Ease(smoothedBass, bands.bass, SmoothingFactor);
      smoothedMid := Ease(smoothedMid, bands.mid, SmoothingFactor);
      if settings.sensitivity >= 0.0 && 0.0 <= oldBass <= settings.sensitivity {
        EaseWithin(oldBass, bands.bass, SmoothingFactor, 0.0, settings.sensitivity);
      }
      if settings.sensitivity >= 0.0 && 0.0 <= oldMid <= settings.sensitivity {
        EaseWithin(oldMid, bands.mid, SmoothingFactor, 0.0, settings.sensitivity);
      }
      rings, failed := VisibleRings(smoothedBass, smoothedMid, sines, width, height);
    }
  }

  /** From rest, one frame of full-scale bass at sensitivity 1 brings the smoothed bass to 0.18. */
  lemma FirstFrameOfFullBass(frame: seq<int>)
    requires AllBytes(frame) && |frame| >= 10
    requires forall i :: 0 <= i < 10 ==> frame[i] == 255
    ensures Ease(0.0, DualPulseBands(Some(frame), 1.0).bass, SmoothingFactor) == 0.18
  {
    FullScaleBassIsSensitivity(frame, 1.0);
  }

  /**
   * The abort is reachable. From rest, one frame with silent bass bins and full-scale mid
   * bins at sensitivity 3 brings the smoothed mid to 0.54 while the smoothed bass stays 0;
   * the innermost ring of the first pulse, at a sine of -1, then has radius -1.6.
   */
  lemma NegativeRadiusReachable(frame: seq<int>, sines: seq<real>)
    requires AllBytes(frame) && |frame| >= 150
    requires forall i :: 0 <= i < 10 ==> frame[i] == 0
    requires forall i :: 50 <= i < 150 ==> frame[i] == 255
    requires ValidSines(sines) && sines[0] == -1.0
    ensures var b := DualPulseBands(Some(frame), 3.0);
      var smoothedBass := Ease(0.0, b.bass, SmoothingFactor);
      var smoothedMid := Ease(0.0, b.mid, SmoothingFactor);
      smoothedBass == 0.0 && smoothedMid == 0.54
      && Candidate(0, 0, smoothedBass, smoothedMid, sines).radius < 0.0
      && !NoNegativeRing(smoothedBass, smoothedMid, sines)
  {
    MidOnlyBands(frame);
    EaseFromRest();
    InnermostRingNegative(0.54, sines);
  }

  /** Silent bass bins and full-scale mid bins at sensitivity 3 give a bass of 0 and a mid of 3. */
  lemma MidOnlyBands(frame: seq<int>)
    requires AllBytes(frame) && |frame| >= 150
    requires forall i :: 0 <= i < 10 ==> frame[i] == 0
    requires forall i :: 50 <= i < 150 ==> frame[i] == 255
    ensures DualPulseBands(Some(frame), 3.0).bass == 0.0
    ensures DualPulseBands(Some(frame), 3.0).mid == 3.0
  {
    BandLevelSilent(frame, 0, 10, 10);
    BandLevelFullScale(frame, 50, 150);
  }

  /** From rest, one easing step towards 0 stays at 0 and one towards 3 reaches 0.54. */
  lemma EaseFromRest()
    ensures Ease(0.0, 0.0, SmoothingFactor) == 0.0
    ensures Ease(0.0, 3.0, SmoothingFactor) == 0.54
  {
    assert Ease(0.0, 3.0, SmoothingFactor) == 0.0 + Scale(3.0, 0.18);
    assert Scale(3.0, 0.18) == 3.0 * 0.18;
  }

  /** With no bass, a smoothed mid of 0.54 and a sine of -1, the first ring's radius is -1.6. */
  lemma InnermostRingNegative(smoothedMid: real, sines: seq<real>)
    requires ValidSines(sines) && sines[0] == -1.0 && smoothedMid == 0.54
    ensures Candidate(0, 0, 0.0, smoothedMid, sines).radius < 0.0
    ensures !NoNegativeRing(0.0, smoothedMid, sines)
  {
    var ring := RingAt(0, 0, 0.0, 0.54, -1.0);
    assert BaseRadius(0, 0.0) == 40.0;
    assert ring.radius == -1.6;
    assert Candidate(0, 0, 0.0, smoothedMid, sines) == ring;
  }
}
