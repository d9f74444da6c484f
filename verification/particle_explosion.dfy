/**
 * The pixel-shockwave engine (also exported as `Spiderweb` and `ParticleExplosion`):
 * the `hexToRgba` colour helper, the band and amplitude readings scaled by sensitivity
 * and intensity, the contour resolution, the back-to-front ring order with each ring's
 * normalised position, and the engine's initial state.
 */
module ParticleExplosion {
  import opened Wrappers
  import opened Spectrum
  import opened Text

  /**
   * The four components of the `rgba(...)` string `hexToRgba` builds. A channel that
   * `parseInt` cannot read is `None` (it prints as `NaN`).
   */
  datatype Rgba = Rgba(r: Option<nat>, g: Option<nat>, b: Option<nat>, alpha: real)

  /** `Math.max(0, Math.min(1, alpha))`. */
  function ClampUnit(a: real): (r: real)
    ensures 0.0 <= r <= 1.0
    ensures 0.0 <= a <= 1.0 ==> r == a
  {
    MaxReal(0.0, MinReal(1.0, a))
  }

  /**
   * The digits channel `k` (0 red, 1 green, 2 blue) is read from: a three-digit colour
   * doubles digit `k`, anything else takes the pair at `2k` (clamped like `slice`).
   */
  function ChannelDigits(h: string, k: nat): (d: string)
    requires k < 3
    ensures |d| <= 2
    ensures |h| == 3 ==> d == [h[k], h[k]]
    ensures |h| == 6 ==> d == [h[2 * k], h[2 * k + 1]]
  {
    if |h| == 3 then [h[k], h[k]] else Slice(h, 2 * k, 2 * k + 2)
  }

  /** Channel `k` of the digits `h`, as `parseInt(..., 16)` reads it. */
  function Channel(h: string, k: nat): (r: Option<nat>)
    requires k < 3
    ensures r.Some? ==> r.value < 256
  {
    ParseHexInt(ChannelDigits(h, k))
  }

  /** The colour the digits `h` give, with the alpha clamped to [0, 1]. */
  function Channels(h: string, alpha: real): (c: Rgba)
    ensures 0.0 <= c.alpha <= 1.0 && (0.0 <= alpha <= 1.0 ==> c.alpha == alpha)
  {
    Rgba(Channel(h, 0), Channel(h, 1), Channel(h, 2), ClampUnit(alpha))
  }

  /**
   * `hexToRgba(hex, alpha)`: the empty string gives white with the alpha passed through
   * as is; otherwise the first `#` is removed, the channels are read and the alpha is
   * clamped to [0, 1].
   */
  function HexToRgba(hex: string, alpha: real): (c: Rgba)
    ensures hex == "" ==> c == Rgba(Some(255), Some(255), Some(255), alpha)
    ensures hex != "" ==> 0.0 <= c.alpha <= 1.0 && (0.0 <= alpha <= 1.0 ==> c.alpha == alpha)
  {
    if hex == "" then Rgba(Some(255), Some(255), Some(255), alpha)
    else
      Channels(ReplaceFirst(hex, '#', ""), alpha)
  }

  /** The `#rrggbb` spelling of a colour, in lower-case digits. */
  function FormatHex(r: nat, g: nat, b: nat): (s: string)
    requires r < 256 && g < 256 && b < 256
    ensures |s| == 7 && s[0] == '#'
  {
    "#" + HexByte(r) + HexByte(g) + HexByte(b)
  }

  /** Removing the first `#` of `#digits` leaves the digits. */
  lemma StripLeadingHash(digits: string)
    ensures ReplaceFirst("#" + digits, '#', "") == digits
  {
    var hex := "#" + digits;
    assert hex[0] == '#';
    assert FirstIndexOf(hex, '#') == 0;
    assert hex[1..] == digits;
  }

  /** Of six hexadecimal digits, channel `k` is the pair at `2k`. */
  lemma SixDigitChannel(h: string, k: nat, v: nat)
    requires |h| == 6 && AllHexDigits(h) && k < 3
    requires 16 * HexValue(h[2 * k]) + HexValue(h[2 * k + 1]) == v
    ensures Channel(h, k) == Some(v)
  {
    ParseTwoHexDigits(h[2 * k], h[2 * k + 1]);
  }

  /** Of three hexadecimal digits, channel `k` is digit `k` doubled: 17 times its value. */
  lemma ThreeDigitChannel(h: string, k: nat, v: nat)
    requires |h| == 3 && AllHexDigits(h) && k < 3 && 17 * HexValue(h[k]) == v
    ensures Channel(h, k) == Some(v)
  {
    ParseTwoHexDigits(h[k], h[k]);
  }

  /** A `#` followed by digits reads its channels from the digits, with the alpha clamped. */
  lemma HashedChannels(digits: string, alpha: real)
    ensures HexToRgba("#" + digits, alpha) == Channels(digits, alpha)
  {
    StripLeadingHash(digits);
  }

  /** Six digits read as the three pairs of digits. */
  lemma SixDigitsRead(digits: string, r: nat, g: nat, b: nat, alpha: real)
    requires |digits| == 6 && AllHexDigits(digits)
    requires 16 * HexValue(digits[0]) + HexValue(digits[1]) == r
    requires 16 * HexValue(digits[2]) + HexValue(digits[3]) == g
    requires 16 * HexValue(digits[4]) + HexValue(digits[5]) == b
    ensures Channels(digits, alpha) == Rgba(Some(r), Some(g), Some(b), ClampUnit(alpha))
  {
    SixDigitChannel(digits, 0, r);
    SixDigitChannel(digits, 1, g);
    SixDigitChannel(digits, 2, b);
  }

  /** A `#` and six digits read as the three pairs of digits. */
  lemma HashSixDigitsRead(hex: string, digits: string, r: nat, g: nat, b: nat, alpha: real)
    requires hex == "#" + digits && |digits| == 6 && AllHexDigits(digits)
    requires 16 * HexValue(digits[0]) + HexValue(digits[1]) == r
    requires 16 * HexValue(digits[2]) + HexValue(digits[3]) == g
    requires 16 * HexValue(digits[4]) + HexValue(digits[5]) == b
    ensures HexToRgba(hex, alpha) == Rgba(Some(r), Some(g), Some(b), ClampUnit(alpha))
  {
    HashedChannels(digits, alpha);
    SixDigitsRead(digits, r, g, b, alpha);
  }

  /** `#rrggbb` is a `#` and six digits whose pairs are the three channels. */
  lemma FormatHexDigits(r: nat, g: nat, b: nat)
    requires r < 256 && g < 256 && b < 256
    ensures var d := HexByte(r) + HexByte(g) + HexByte(b);
      && FormatHex(r, g, b) == "#" + d && |d| == 6 && AllHexDigits(d)
      && 16 * HexValue(d[0]) + HexValue(d[1]) == r
      && 16 * HexValue(d[2]) + HexValue(d[3]) == g
      && 16 * HexValue(d[4]) + HexValue(d[5]) == b
  {
    var hr, hg, hb := HexByte(r), HexByte(g), HexByte(b);
    var digits := hr + hg + hb;
    assert forall i :: 0 <= i < 2 ==> digits[i] == hr[i] && digits[i + 2] == hg[i] && digits[i + 4] == hb[i];
  }

  /** Reading back a `#rrggbb` colour gives its three channels. */
  lemma HexRoundTrip(r: nat, g: nat, b: nat, alpha: real)
    requires r < 256 && g < 256 && b < 256
    ensures HexToRgba(FormatHex(r, g, b), alpha) == Rgba(Some(r), Some(g), Some(b), ClampUnit(alpha))
  {
    FormatHexDigits(r, g, b);
    HashSixDigitsRead(FormatHex(r, g, b), HexByte(r) + HexByte(g) + HexByte(b), r, g, b, alpha);
  }

  /** A `#` and three digits read as each digit doubled. */
  lemma HashThreeDigitsRead(hex: string, digits: string, r: nat, g: nat, b: nat, alpha: real)
    requires hex == "#" + digits && |digits| == 3 && AllHexDigits(digits)
    requires 17 * HexValue(digits[0]) == r && 17 * HexValue(digits[1]) == g && 17 * HexValue(digits[2]) == b
    ensures HexToRgba(hex, alpha) == Rgba(Some(r), Some(g), Some(b), ClampUnit(alpha))
  {
    HashedChannels(digits, alpha);
    ThreeDigitChannel(digits, 0, r);
    ThreeDigitChannel(digits, 1, g);
    ThreeDigitChannel(digits, 2, b);
  }

  /** A three-digit colour `#xyz` doubles each digit: channel value 17 times the digit. */
  lemma ShortHexDoubles(x: char, y: char, z: char, alpha: real)
    requires IsHexDigit(x) && IsHexDigit(y) && IsHexDigit(z)
    ensures HexToRgba("#" + [x, y, z], alpha)
      == Rgba(Some(17 * HexValue(x)), Some(17 * HexValue(y)), Some(17 * HexValue(z)), ClampUnit(alpha))
  {
    HashThreeDigitsRead("#" + [x, y, z], [x, y, z], 17 * HexValue(x), 17 * HexValue(y), 17 * HexValue(z), alpha);
  }

  /** For instance `#f0a` reads as (255, 0, 170). */
  lemma ShortHexExample()
    ensures HexToRgba("#f0a", 0.5) == Rgba(Some(255), Some(0), Some(170), 0.5)
  {
    var digits := "f0a";
    assert "#f0a" == "#" + digits;
    assert HexValue(digits[0]) == 15 && HexValue(digits[1]) == 0 && HexValue(digits[2]) == 10;
    HashThreeDigitsRead("#f0a", digits, 255, 0, 170, 0.5);
  }

  /** A lone `#` leaves no digits: every channel is NaN. */
  lemma BareHashIsNaN(alpha: real)
    ensures HexToRgba("#", alpha) == Rgba(None, None, None, ClampUnit(alpha))
  {
    assert FirstIndexOf("#", '#') == 0;
    assert ReplaceFirst("#", '#', "") == "";
  }

  datatype ShockBands = ShockBands(bass: real, mid: real, high: real, amplitude: real)

  /**
   * Bass from bins [0, 8) divided by 8, mid from [8, 120) by 112, high from [120, 256)
   * by 136, each divided by 255 and multiplied by `sensitivity * intensity`; amplitude
   * is the sum of all bins over `length * 255`, not scaled. All are 0 without an analyser.
   */
  function ShockwaveBands(frame: Option<seq<int>>, sensitivity: real, intensity: real): (b: ShockBands)
    requires frame.Some? ==> AllBytes(frame.value) && |frame.value| > 0
    ensures frame.None? ==> b == ShockBands(0.0, 0.0, 0.0, 0.0)
    ensures 0.0 <= b.amplitude <= 1.0
    ensures sensitivity >= 0.0 && intensity >= 0.0 ==>
      var gain := sensitivity * intensity;
      0.0 <= b.bass <= gain && 0.0 <= b.mid <= gain && 0.0 <= b.high <= gain
  {
    NonNegativeProduct(sensitivity, intensity);
    if frame.None? then ShockBands(0.0, 0.0, 0.0, 0.0)
    else
      var f := frame.value;
      var gain := sensitivity * intensity;
      SumBounds(f);
      ShockBands(Amplify(BandLevel(f, 0, 8, 8), gain),
                 Amplify(BandLevel(f, 8, 120, 112), gain),
                 Amplify(BandLevel(f, 120, 256, 136), gain),
                 Fraction(Sum(f) as real, (|f| * 255) as real))
  }

  /** A buffer at full scale everywhere has amplitude exactly 1. */
  lemma FullScaleAmplitude(f: seq<int>, sensitivity: real, intensity: real)
    requires AllBytes(f) && |f| > 0
    requires forall i :: 0 <= i < |f| ==> f[i] == 255
    ensures ShockwaveBands(Some(f), sensitivity, intensity).amplitude == 1.0
  {
    SumConstant(f, 255);
  }

  /** `Math.max(24, Math.floor(width / 12))`: at least 24 contour points. */
  function Resolution(width: nat): (n: nat)
    ensures n >= 24
    ensures width >= 288 ==> n == width / 12
    ensures width < 288 ==> n == 24
  {
    Max(24, width / 12)
  }

  const Rings: nat := 3

  /** `r / Math.max(1, rings - 1)`: the ring's position from innermost (0) to outermost (1). */
  function RingNorm(r: nat, rings: nat): (n: real)
    requires r < rings
    ensures 0.0 <= n <= 1.0
    ensures r == 0 ==> n == 0.0
    ensures r == rings - 1 && rings > 1 ==> n == 1.0
  {
    Fraction(r as real, Max(1, rings - 1) as real)
  }

  /**
   * The ring loop `for (r = rings - 1; r >= 0; r--)`: rings are visited outermost first,
   * each exactly once, with their normalised position.
   */
  method RingOrder(rings: nat) returns (order: seq<nat>, norms: seq<real>)
    ensures |order| == rings && |norms| == rings
    ensures forall k :: 0 <= k < rings ==> order[k] == rings - 1 - k
    ensures forall k :: 0 <= k < rings ==> order[k] < rings && norms[k] == RingNorm(order[k], rings)
    ensures forall k :: 0 <= k < rings ==> 0.0 <= norms[k] <= 1.0
    ensures forall r :: 0 <= r < rings ==> r in order
  {
    order, norms := [], [];
    var r: int := rings - 1;
    while r >= 0
      invariant -1 <= r < rings
      invariant |order| == rings - 1 - r && |norms| == |order|
      invariant forall k :: 0 <= k < |order| ==> order[k] == rings - 1 - k
      invariant forall k :: 0 <= k < |order| ==> order[k] < rings && norms[k] == RingNorm(order[k], rings)
    {
      order := order + [r];
      norms := norms + [RingNorm(r, rings)];
      r := r - 1;
    }
    forall q | 0 <= q < rings
      ensures q in order
    {
      assert q == order[rings - 1 - q];
    }
  }

  /** With the engine's three rings the positions are 1, 1/2 and 0, drawn in that order. */
  lemma ThreeRingNorms()
    ensures RingNorm(2, Rings) == 1.0 && RingNorm(1, Rings) == 0.5 && RingNorm(0, Rings) == 0.0
  {
  }

  datatype Mountain = Mountain(x: real, height: real, targetHeight: real, age: real, maxAge: real, intensity: real)

  datatype GridPixel = GridPixel(x: real, y: real, vx: real, vy: real, life: real, originalColor: string)

  datatype ShockwaveState = ShockwaveState(mountains: seq<Mountain>, lastShockTime: real, pixelGrid: seq<GridPixel>)

  const MountainCount: nat := 16

  /** The state the engine's ref starts with: 16 flat mountains spread across the width. */
  function InitialShockwave(width: real): (s: ShockwaveState)
    ensures |s.mountains| == MountainCount && s.pixelGrid == [] && s.lastShockTime == 0.0
    ensures forall i :: 0 <= i < MountainCount ==>
      s.mountains[i] == Mountain((i as real / 16.0) * width, 0.0, 0.0, 0.0, 120.0, 0.0)
  {
    ShockwaveState(seq(MountainCount, i => Mountain((i as real / 16.0) * width, 0.0, 0.0, 0.0, 120.0, 0.0)), 0.0, [])
  }

  /** The mountains are evenly spaced, one sixteenth of the width apart, from 0 up to below the width. */
  lemma MountainsSpanWidth(width: real, i: nat)
    requires width > 0.0 && i < MountainCount
    ensures var m := InitialShockwave(width).mountains;
      0.0 <= m[i].x < width
      && (i + 1 < MountainCount ==> m[i + 1].x - m[i].x == width / 16.0)
  {
    var m := InitialShockwave(width).mountains;
    assert m[i].x == (i as real) * (width / 16.0);
    assert (i as real) * (width / 16.0) < 16.0 * (width / 16.0) by {
      assert (16.0 - i as real) * (width / 16.0) > 0.0;
    }
    if i + 1 < MountainCount {
      assert m[i + 1].x == (i as real + 1.0) * (width / 16.0);
    }
  }
}
