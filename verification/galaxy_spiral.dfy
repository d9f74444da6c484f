/**
 * The galaxy-spiral engine: a pool of 300 stars created once from random draws, whose
 * angles advance every frame at a rate that grows with the bass; a time accumulator;
 * three bands; and the size of the central black hole.
 *
 * Each star takes six `Math.random()` results, given here as a `StarDraw` of six values
 * in [0, 1). `TwoPi` stands for `Math.PI * 2`.
 */
module GalaxySpiral {
  import opened Wrappers
  import opened Spectrum
  import opened Visualizer

  const StarCount: nat := 300
  const TwoPi: real := 6.283185307179586

  datatype Star = Star(angle: real, radius: real, speed: real, size: real, brightness: real, color: string)

  /** The six random values one star is made from, in the order they are drawn. */
  datatype StarDraw = StarDraw(angle: real, radius: real, speed: real, size: real, brightness: real, color: real)

  predicate ValidDraw(d: StarDraw)
  {
    IsUnit(d.angle) && IsUnit(d.radius) && IsUnit(d.speed) && IsUnit(d.size) && IsUnit(d.brightness) && IsUnit(d.color)
  }

  /** The five colours a star may take: the two theme colours, then white, yellow and pink. */
  function StarColours(settings: Settings): (cs: seq<string>)
    ensures |cs| == 5
  {
    [settings.primaryColor, settings.secondaryColor, "#ffffff", "#ffff00", "#ff88ff"]
  }

  /** `offset + u * span` for `u` in [0, 1): at least the offset and below `offset + span`. */
  function Spread(offset: real, u: real, span: real): (r: real)
    requires IsUnit(u) && span >= 0.0
    ensures offset <= r <= offset + span
    ensures span > 0.0 ==> r < offset + span
  {
    NonNegativeProduct(u, span);
    assert span - u * span == (1.0 - u) * span;
    NonNegativeProduct(1.0 - u, span);
    offset + u * span
  }

  /** `Math.floor(u * 5)`: an index into the five colours. */
  function ColourIndex(u: real): (i: int)
    requires IsUnit(u)
    ensures 0 <= i < 5
  {
    (u * 5.0).Floor
  }

  /** One seeded star, for the canvas's larger side `maxSide`. */
  function MakeStar(d: StarDraw, settings: Settings, maxSide: real): (s: Star)
    requires ValidDraw(d) && maxSide >= 0.0
    ensures 0.0 <= s.angle < TwoPi
    ensures 20.0 <= s.radius <= 20.0 + maxSide * 0.5 && (maxSide > 0.0 ==> s.radius < 20.0 + maxSide * 0.5)
    ensures 0.001 <= s.speed < 0.004
    ensures 1.0 <= s.size < 4.0
    ensures 0.3 <= s.brightness < 1.0
    ensures s.color in StarColours(settings)
  {
    Star(Spread(0.0, d.angle, TwoPi),
         Spread(20.0, d.radius, maxSide * 0.5),
         Spread(0.001, d.speed, 0.003),
         Spread(1.0, d.size, 3.0),
         Spread(0.3, d.brightness, 0.7),
         StarColours(settings)[ColourIndex(d.color)])
  }

  /** `star.angle += star.speed * (1 + bass * 3) * speed`; nothing else about the star changes. */
  function Advanced(s: Star, bass: real, speed: real): (t: Star)
    ensures t == s.(angle := t.angle)
    ensures s.speed >= 0.0 && bass >= 0.0 && speed >= 0.0 ==> t.angle >= s.angle
    ensures bass == 0.0 && speed == 1.0 ==> t.angle == s.angle + s.speed
  {
    var rate := s.speed * (1.0 + bass * 3.0);
    NonNegativeProduct(s.speed, 1.0 + bass * 3.0);
    NonNegativeProduct(rate, speed);
    s.(angle := s.angle + rate * speed)
  }

  /**
   * Bass from bins [0, 10) divided by 10, mid from [10, 100) by 90, high from
   * [100, 256) by 156, each over 255 and times the sensitivity; 0 without an analyser.
   */
  function GalaxyBands(frame: Option<seq<int>>, sensitivity: real): (b: (real, real, real))
    requires frame.Some? ==> AllBytes(frame.value)
    ensures frame.None? ==> b == (0.0, 0.0, 0.0)
    ensures sensitivity >= 0.0 ==>
      0.0 <= b.0 <= sensitivity && 0.0 <= b.1 <= sensitivity && 0.0 <= b.2 <= sensitivity
  {
    if frame.None? then (0.0, 0.0, 0.0)
    else
      var f := frame.value;
      (Amplify(BandLevel(f, 0, 10, 10), sensitivity),
       Amplify(BandLevel(f, 10, 100, 90), sensitivity),
       Amplify(BandLevel(f, 100, 256, 156), sensitivity))
  }

  /** `40 + bass * 30 * intensity`: never smaller than 40 for a non-negative bass and intensity. */
  function HoleSize(bass: real, intensity: real): (r: real)
    ensures bass >= 0.0 && intensity >= 0.0 ==> r >= 40.0
    ensures bass == 0.0 ==> r == 40.0
  {
    NonNegativeProduct(bass * 30.0, intensity);
    40.0 + bass * 30.0 * intensity
  }

  /** The engine's refs: the star pool and the time accumulator. */
  class GalaxyState {
    var stars: seq<Star>
    var time: real

    /** The pool is either not yet seeded or holds exactly 300 stars. */
    ghost predicate Valid()
      reads this
    {
      |stars| == 0 || |stars| == StarCount
    }

    constructor ()
      ensures Valid() && stars == [] && time == 0.0
    {
      stars, time := [], 0.0;
    }

    /**
     * The effect's seeding: when the pool is empty, push 300 stars made from `draws`;
     * a pool that already has stars is left alone.
     */
    method SeedStars(draws: seq<StarDraw>, settings: Settings, width: real, height: real)
      requires Valid()
      requires |draws| == StarCount && forall i :: 0 <= i < StarCount ==> ValidDraw(draws[i])
      requires width >= 0.0 && height >= 0.0
      modifies this
      ensures Valid() && time == old(time)
      ensures old(stars) != [] ==> stars == old(stars)
      ensures old(stars) == [] ==>
        |stars| == StarCount
        && (forall i :: 0 <= i < StarCount ==> stars[i] == MakeStar(draws[i], settings, MaxReal(width, height)))
    {
      if |stars| == 0 {
        var maxSide := MaxReal(width, height);
        var i := 0;
        while i < StarCount
          invariant 0 <= i <= StarCount && |stars| == i && time == old(time)
          invariant forall k :: 0 <= k < i ==> stars[k] == MakeStar(draws[k], settings, maxSide)
        {
          stars := stars + [MakeStar(draws[i], settings, maxSide)];
          i := i + 1;
        }
      }
    }

    /**
     * The star update of one `draw` call: every star's angle advances, in place, and the
     * pool keeps its size and every other field of every star.
     */
    method AdvanceStars(bass: real, speed: real)
      requires Valid()
      modifies this
      ensures Valid() && time == old(time)
      ensures |stars| == |old(stars)|
      ensures forall i :: 0 <= i < |stars| ==> stars[i] == Advanced(old(stars)[i], bass, speed)
    {
      var i := 0;
      while i < |stars|
        invariant 0 <= i <= |stars| && |stars| == |old(stars)| && time == old(time)
        invariant forall k :: 0 <= k < i ==> stars[k] == Advanced(old(stars)[k], bass, speed)
        invariant forall k :: i <= k < |stars| ==> stars[k] == old(stars)[k]
      {
        stars := stars[i := Advanced(stars[i], bass, speed)];
        i := i + 1;
      }
    }

    /** One `draw` call: time advances by `0.01 * speed`, the stars move, and the hole size is returned. */
    method DrawFrame(frame: Option<seq<int>>, settings: Settings) returns (holeSize: real)
      requires Valid()
      requires frame.Some? ==> AllBytes(frame.value)
      modifies this
      ensures Valid()
      ensures time == old(time) + 0.01 * settings.speed
      ensures var bass := GalaxyBands(frame, settings.sensitivity).0;
        |stars| == |old(stars)|
        && (forall i :: 0 <= i < |stars| ==> stars[i] == Advanced(old(stars)[i], bass, settings.speed))
        && holeSize == HoleSize(bass, settings.intensity)
    {
      time := time + 0.01 * settings.speed;
      var bands := GalaxyBands(frame, settings.sensitivity);
      AdvanceStars(bands.0, settings.speed);
      holeSize := HoleSize(bands.0, settings.intensity);
    }
  }
}
