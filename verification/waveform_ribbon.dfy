/**
 * The waveform-ribbon engine: each frame samples 128 points of the time-domain buffer
 * (or, without audio, of a synthetic sine), pushes them at the front of a history of
 * at most 30 frames, and draws every history entry as a ribbon that recedes, shrinks
 * and fades with its depth.
 *
 * The synthetic wave is `Math.sin(i * 0.1 + time * 2) * 0.3`; the 128 sine values are
 * taken as inputs in [-1, 1].
 */
module WaveformRibbon {
  import opened Wrappers
  import opened Spectrum
  import opened Visualizer

  const SampleCount: nat := 128
  const HistoryDepth: nat := 30

  /** `Math.floor((i / 128) * length)`: the buffer position sample `i` reads. */
  function SampleIndex(i: nat, len: nat): (r: nat)
    requires i < SampleCount && len > 0
    ensures r < len
  {
    var gap: nat := (127 - i) * len;
    assert i * len + len + gap == 128 * len;
    (i * len) / 128
  }

  /** `(byte - 128) / 128`: a centred sample in [-1, 127/128]. */
  function SampleValue(b: int): (v: real)
    requires IsByte(b)
    ensures -1.0 <= v <= 127.0 / 128.0
    ensures b == 128 ==> v == 0.0
  {
    (b - 128) as real / 128.0
  }

  /** The 128 samples read from a time-domain buffer. */
  function SampledWave(timeDomain: seq<int>): (w: seq<real>)
    requires AllBytes(timeDomain) && |timeDomain| > 0
    ensures |w| == SampleCount
    ensures forall i :: 0 <= i < SampleCount ==> -1.0 <= w[i] <= 127.0 / 128.0
  {
    seq(SampleCount, i requires 0 <= i < SampleCount => SampleValue(timeDomain[SampleIndex(i, |timeDomain|)]))
  }

  predicate ValidSines(sines: seq<real>)
  {
    |sines| == SampleCount && forall i :: 0 <= i < |sines| ==> -1.0 <= sines[i] <= 1.0
  }

  /** The fallback wave: each sine scaled by 0.3, so no sample exceeds 0.3 in size. */
  function SyntheticWave(sines: seq<real>): (w: seq<real>)
    requires ValidSines(sines)
    ensures |w| == SampleCount
    ensures forall i :: 0 <= i < SampleCount ==> -0.3 <= w[i] <= 0.3
  {
    seq(SampleCount, i requires 0 <= i < SampleCount => sines[i] * 0.3)
  }

  /** The sampling loop: 128 pushes, sample `i` read at `SampleIndex(i, length)`. */
  method SampleWaveform(timeDomain: seq<int>) returns (wave: seq<real>)
    requires AllBytes(timeDomain) && |timeDomain| > 0
    ensures |wave| == SampleCount
    ensures forall i :: 0 <= i < SampleCount ==>
      wave[i] == SampleValue(timeDomain[SampleIndex(i, |timeDomain|)]) && -1.0 <= wave[i] <= 127.0 / 128.0
    ensures wave == SampledWave(timeDomain)
  {
    wave := [];
    var i := 0;
    while i < SampleCount
      invariant 0 <= i <= SampleCount && |wave| == i
      invariant forall k :: 0 <= k < i ==> wave[k] == SampleValue(timeDomain[SampleIndex(k, |timeDomain|)])
    {
      var index := SampleIndex(i, |timeDomain|);
      wave := wave + [SampleValue(timeDomain[index])];
      i := i + 1;
    }
  }

  /** The fallback loop: 128 pushes of a scaled sine, none larger than 0.3 in size. */
  method SyntheticWaveform(sines: seq<real>) returns (wave: seq<real>)
    requires ValidSines(sines)
    ensures |wave| == SampleCount
    ensures forall i :: 0 <= i < SampleCount ==> -0.3 <= wave[i] <= 0.3
    ensures wave == SyntheticWave(sines)
  {
    wave := [];
    var i := 0;
    while i < SampleCount
      invariant 0 <= i <= SampleCount && |wave| == i
      invariant forall k :: 0 <= k < i ==> wave[k] == sines[k] * 0.3
    {
      wave := wave + [sines[i] * 0.3];
      i := i + 1;
    }
  }

  /** `unshift(wave)` and then one `pop()` if the history got longer than 30. */
  function Pushed(history: seq<seq<real>>, wave: seq<real>): (h: seq<seq<real>>)
    ensures |h| >= 1 && h[0] == wave
  {
    var grown := [wave] + history;
    if |grown| > HistoryDepth then grown[..|grown| - 1] else grown
  }

  /** A history of at most 30 frames stays at most 30 frames long. */
  lemma PushedBounded(history: seq<seq<real>>, wave: seq<real>)
    requires |history| <= HistoryDepth
    ensures |Pushed(history, wave)| <= HistoryDepth
    ensures |Pushed(history, wave)| == Min(|history| + 1, HistoryDepth)
  {
  }

  /** Older frames shift back by one; only the oldest one can fall off. */
  lemma PushedShifts(history: seq<seq<real>>, wave: seq<real>)
    requires |history| <= HistoryDepth
    ensures forall k :: 0 <= k < |history| && k + 1 < HistoryDepth ==> Pushed(history, wave)[k + 1] == history[k]
    ensures |history| < HistoryDepth ==> Pushed(history, wave) == [wave] + history
    ensures |history| == HistoryDepth ==> Pushed(history, wave) == [wave] + history[..HistoryDepth - 1]
  {
  }

  /** Where history entry `k` of `len` is drawn: its depth, scale and opacity. */
  datatype Layer = Layer(depth: real, scale: real, alpha: real)

  /** `depth = k / len`, `scale = 1 - depth * 0.5`, `alpha = (1 - depth) * 0.8`. */
  function RibbonLayer(k: nat, len: nat): (l: Layer)
    requires k < len
    ensures 0.0 <= l.depth < 1.0
    ensures 0.5 < l.scale <= 1.0
    ensures 0.0 < l.alpha <= 0.8
    ensures k == 0 ==> l == Layer(0.0, 1.0, 0.8)
  {
    var depth := k as real / len as real;
    assert depth * len as real == k as real;
    if depth >= 1.0 then
      assert depth * len as real >= len as real;
      Layer(depth, 1.0 - depth * 0.5, (1.0 - depth) * 0.8)
    else
      Layer(depth, 1.0 - depth * 0.5, (1.0 - depth) * 0.8)
  }

  /** Deeper layers are smaller and fainter. */
  lemma LayersRecede(j: nat, k: nat, len: nat)
    requires j < k < len
    ensures RibbonLayer(j, len).scale > RibbonLayer(k, len).scale
    ensures RibbonLayer(j, len).alpha > RibbonLayer(k, len).alpha
  {
    var dj := j as real / len as real;
    var dk := k as real / len as real;
    assert dj * len as real == j as real;
    assert dk * len as real == k as real;
    assert (dk - dj) * len as real == (k - j) as real;
    NonNegativeProduct(dj - dk, len as real);
    assert dk > dj;
    assert RibbonLayer(j, len).depth == dj && RibbonLayer(k, len).depth == dk;
  }

  /** The engine's refs: the time accumulator and the history of sampled frames, newest first. */
  class RibbonState {
    var time: real
    var history: seq<seq<real>>

    ghost predicate Valid()
      reads this
    {
      |history| <= HistoryDepth && forall k :: 0 <= k < |history| ==> |history[k]| == SampleCount
    }

    constructor ()
      ensures Valid() && time == 0.0 && history == []
    {
      time, history := 0.0, [];
    }

    /**
     * One `draw` call. `buffers` holds the time-domain and frequency buffers when the
     * analyser is there; `sines` are the fallback's sine values. Time advances by
     * `0.03 * speed`, the new frame goes to the front of the history, and the returned
     * bass is 0 without audio.
     */
    method DrawFrame(buffers: Option<(seq<int>, seq<int>)>, settings: Settings, sines: seq<real>) returns (bass: real)
      requires Valid()
      requires buffers.Some? ==>
        AllBytes(buffers.value.0) && |buffers.value.0| > 0 && AllBytes(buffers.value.1)
      requires ValidSines(sines)
      modifies this
      ensures Valid()
      ensures time == old(time) + 0.03 * settings.speed
      ensures buffers.Some? ==> history == Pushed(old(history), SampledWave(buffers.value.0))
      ensures buffers.None? ==> history == Pushed(old(history), SyntheticWave(sines)) && bass == 0.0
      ensures buffers.Some? ==> bass == Amplify(BandLevel(buffers.value.1, 0, 10, 10), settings.sensitivity)
      ensures buffers.Some? && settings.sensitivity >= 0.0 ==> 0.0 <= bass <= settings.sensitivity
    {
      time := time + 0.03 * settings.speed;
      var wave: seq<real>;
      bass := 0.0;
      if buffers.Some? {
        wave := SampleWaveform(buffers.value.0);
        bass := BandLevel(buffers.value.1, 0, 10, 10);
      } else {
        wave := SyntheticWaveform(sines);
      }
      bass := Amplify(bass, settings.sensitivity);
      PushedBounded(history, wave);
      PushedShifts(history, wave);
      history := Pushed(history, wave);
    }
  }
}
