/**
 * The pixel-fireworks engine: a list of at most 15 fireworks that rise, explode into
 * 30 to 59 pixels and fade; a beat detector with a 200 ms debounce that spawns them;
 * and the 4-pixel grid every position is snapped to when drawn.
 *
 * Every `Math.random()` result is an input in [0, 1), `Date.now()` is the input `now`
 * (in milliseconds), and the cosine and sine of each pixel's angle are inputs in [-1, 1].
 */
module PixelFireworks {
  import opened Wrappers
  import opened Spectrum
  import opened Visualizer

  const MaxFireworks: nat := 15
  const BeatLevel: real := 0.7
  const BeatInterval: real := 200.0
  const LifeStep: real := 0.015
  const Rise: real := 0.1
  const Gravity: real := 0.15
  const GridSize: int := 4

  datatype Pixel = Pixel(x: real, y: real, vx: real, vy: real, color: string, life: real, size: int)

  datatype Firework = Firework(x: real, y: real, targetY: real, vy: real, color: string, exploded: bool, pixels: seq<Pixel>)

  /** The seven colours a firework may take: the two theme colours, then red, green, yellow, magenta and cyan. */
  function FireworkColours(settings: Settings): (cs: seq<string>)
    ensures |cs| == 7 && cs[0] == settings.primaryColor && cs[1] == settings.secondaryColor
  {
    [settings.primaryColor, settings.secondaryColor, "#ff0000", "#00ff00", "#ffff00", "#ff00ff", "#00ffff"]
  }

  /** `Math.floor(u * n)` for a draw `u` in [0, 1): an index below `n`. */
  function RandomIndex(u: real, n: nat): (i: int)
    requires IsUnit(u) && n > 0
    ensures 0 <= i < n
  {
    var p := u * n as real;
    assert p < n as real by {
      assert (1.0 - u) * n as real > 0.0;
    }
    assert p >= 0.0 by {
      NonNegativeProduct(u, n as real);
    }
    p.Floor
  }

  /** The four draws `createFirework` makes, in order: position, target, speed, colour. */
  datatype FireworkDraw = FireworkDraw(x: real, target: real, speed: real, colour: real)

  predicate ValidFireworkDraw(d: FireworkDraw)
  {
    IsUnit(d.x) && IsUnit(d.target) && IsUnit(d.speed) && IsUnit(d.colour)
  }

  /**
   * `createFirework`: a firework on the bottom edge, not yet exploded and without pixels,
   * heading for a height in the band [0.2, 0.6) of the canvas at a speed in (-12, -8].
   */
  function CreateFirework(d: FireworkDraw, settings: Settings, width: real, height: real): (fw: Firework)
    requires ValidFireworkDraw(d) && width >= 0.0 && height >= 0.0
    ensures fw.y == height && !fw.exploded && fw.pixels == []
    ensures 0.0 <= fw.x <= width
    ensures height * 0.2 <= fw.targetY <= height * 0.6 && (height > 0.0 ==> fw.targetY < height * 0.6)
    ensures -12.0 < fw.vy <= -8.0
    ensures fw.color in FireworkColours(settings)
  {
    var colours := FireworkColours(settings);
    var span := height * 0.4;
    assert height * 0.2 + span == height * 0.6;
    var rise := Rate(d.speed, 4.0);
    Firework(Rate(d.x, width), height, height * 0.2 + Rate(d.target, span), -8.0 - rise, colours[RandomIndex(d.colour, 7)], false, [])
  }

  /** `u * span` for a draw `u` in [0, 1) and a non-negative span: in [0, span), or 0 when the span is. */
  function Rate(u: real, span: real): (r: real)
    requires IsUnit(u) && span >= 0.0
    ensures 0.0 <= r <= span && (span > 0.0 ==> r < span)
  {
    NonNegativeProduct(u, span);
    assert span - u * span == (1.0 - u) * span;
    NonNegativeProduct(1.0 - u, span);
    u * span
  }

  /** `30 + Math.floor(u * 30)`: an explosion has 30 to 59 pixels. */
  function PixelCount(u: real): (n: nat)
    requires IsUnit(u)
    ensures 30 <= n < 60
  {
    30 + RandomIndex(u, 30)
  }

  /** One pixel's draws: the cosine and sine of its angle, then its speed, colour and size draws. */
  datatype PixelDraw = PixelDraw(cos: real, sin: real, speed: real, colour: real, size: real)

  predicate ValidPixelDraw(d: PixelDraw)
  {
    -1.0 <= d.cos <= 1.0 && -1.0 <= d.sin <= 1.0 && IsUnit(d.speed) && IsUnit(d.colour) && IsUnit(d.size)
  }

  /** Everything one explosion draws: the pixel-count draw and enough pixel draws. */
  datatype ExplosionDraw = ExplosionDraw(count: real, pixels: seq<PixelDraw>)

  predicate ValidExplosion(e: ExplosionDraw)
  {
    IsUnit(e.count) && |e.pixels| >= PixelCount(e.count)
    && forall i :: 0 <= i < |e.pixels| ==> ValidPixelDraw(e.pixels[i])
  }

  predicate ValidExplosions(es: seq<ExplosionDraw>)
  {
    forall i :: 0 <= i < |es| ==> ValidExplosion(es[i])
  }

  /**
   * One pixel of an explosion: at the firework's position, moving at `2 + 4u` times the
   * animation speed along its angle, in the firework's colour unless the colour draw is
   * at most 0.3 (then white), with full life and a size of 4 to 7.
   */
  function NewPixel(fw: Firework, d: PixelDraw, speed: real): (p: Pixel)
    requires ValidPixelDraw(d)
    ensures p.x == fw.x && p.y == fw.y && p.life == 1.0
    ensures 4 <= p.size <= 7
    ensures p.color == (if d.colour > 0.3 then fw.color else "#ffffff")
  {
    var pace := 2.0 + d.speed * 4.0;
    Pixel(fw.x, fw.y, d.cos * pace * speed, d.sin * pace * speed,
          if d.colour > 0.3 then fw.color else "#ffffff", 1.0, 4 + RandomIndex(d.size, 4))
  }

  /** The pixels `explodeFirework` appends. */
  function Burst(fw: Firework, e: ExplosionDraw, speed: real): (ps: seq<Pixel>)
    requires ValidExplosion(e)
    ensures |ps| == PixelCount(e.count) && 30 <= |ps| < 60
    ensures forall k :: 0 <= k < |ps| ==> ps[k] == NewPixel(fw, e.pixels[k], speed)
    ensures forall k :: 0 <= k < |ps| ==> ps[k].life == 1.0 && 4 <= ps[k].size <= 7
  {
    seq(PixelCount(e.count), k requires 0 <= k < PixelCount(e.count) => NewPixel(fw, e.pixels[k], speed))
  }

  /**
   * `explodeFirework`: the burst is appended to the firework's pixels and it is marked
   * exploded; its position, target, speed and colour stay.
   */
  method ExplodeFirework(fw: Firework, e: ExplosionDraw, speed: real) returns (out: Firework)
    requires ValidExplosion(e)
    ensures out == fw.(exploded := true, pixels := fw.pixels + Burst(fw, e, speed))
    ensures out.exploded && 30 <= |out.pixels| - |fw.pixels| < 60 && out.pixels[..|fw.pixels|] == fw.pixels
  {
    var count := PixelCount(e.count);
    var pixels := fw.pixels;
    var i := 0;
    while i < count
      invariant 0 <= i <= count
      invariant pixels == fw.pixels + Burst(fw, e, speed)[..i]
    {
      assert Burst(fw, e, speed)[..i + 1] == Burst(fw, e, speed)[..i] + [NewPixel(fw, e.pixels[i], speed)];
      pixels := pixels + [NewPixel(fw, e.pixels[i], speed)];
      i := i + 1;
    }
    assert Burst(fw, e, speed)[..count] == Burst(fw, e, speed);
    out := fw.(exploded := true, pixels := pixels);
  }

  /** One frame of a pixel's motion: it moves by its velocity, gravity pulls it down, and it loses 0.015 of life. */
  function MovedPixel(p: Pixel): (q: Pixel)
    ensures q.life == p.life - LifeStep && q.vy == p.vy + Gravity
    ensures q == p.(x := q.x, y := q.y, vy := q.vy, life := q.life)
  {
    p.(x := p.x + p.vx, y := p.y + p.vy, vy := p.vy + Gravity, life := p.life - LifeStep)
  }

  /** The pixels' `filter`: every pixel moves, and those whose life is then at most 0 are dropped. */
  function LivePixels(ps: seq<Pixel>): (r: seq<Pixel>)
    ensures |r| <= |ps|
    ensures forall k :: 0 <= k < |r| ==> r[k].life > 0.0
  {
    if ps == [] then []
    else
      var q := MovedPixel(ps[0]);
      (if q.life > 0.0 then [q] else []) + LivePixels(ps[1..])
  }

  /** A pixel whose life exceeded 0.015 survives the frame, moved. */
  lemma {:induction false} LivePixelsKeepSurvivors(ps: seq<Pixel>)
    ensures forall k :: 0 <= k < |ps| && ps[k].life > LifeStep ==> MovedPixel(ps[k]) in LivePixels(ps)
  {
    if ps != [] {
      var tail := ps[1..];
      LivePixelsKeepSurvivors(tail);
      forall k | 0 <= k < |ps| && ps[k].life > LifeStep
        ensures MovedPixel(ps[k]) in LivePixels(ps)
      {
        if k > 0 {
          assert ps[k] == tail[k - 1];
        }
      }
    }
  }

  /** Every survivor is a moved pixel of the list. */
  lemma {:induction false} LivePixelsOnlyMoved(ps: seq<Pixel>)
    ensures forall q :: q in LivePixels(ps) ==> exists k :: 0 <= k < |ps| && q == MovedPixel(ps[k])
  {
    if ps != [] {
      var tail := ps[1..];
      LivePixelsOnlyMoved(tail);
      forall q | q in LivePixels(ps)
        ensures exists k :: 0 <= k < |ps| && q == MovedPixel(ps[k])
      {
        if q != MovedPixel(ps[0]) {
          assert q in LivePixels(tail);
          var j :| 0 <= j < |tail| && q == MovedPixel(tail[j]);
          assert ps[j + 1] == tail[j];
        }
      }
    }
  }

  /** When every pixel had more than 0.015 of life, none is dropped. */
  lemma {:induction false} LivePixelsAllSurvive(ps: seq<Pixel>)
    requires forall k :: 0 <= k < |ps| ==> ps[k].life > LifeStep
    ensures |LivePixels(ps)| == |ps|
  {
    if ps != [] {
      var tail := ps[1..];
      assert forall k :: 0 <= k < |tail| ==> tail[k] == ps[k + 1];
      LivePixelsAllSurvive(tail);
    }
  }

  /** When no pixel had more than 0.015 of life, the list empties. */
  lemma {:induction false} LivePixelsNoneSurvive(ps: seq<Pixel>)
    requires forall k :: 0 <= k < |ps| ==> ps[k].life <= LifeStep
    ensures LivePixels(ps) == []
  {
    if ps != [] {
      var tail := ps[1..];
      assert forall k :: 0 <= k < |tail| ==> tail[k] == ps[k + 1];
      LivePixelsNoneSurvive(tail);
    }
  }

  /** A pixel after `frames` frames of motion. */
  function MovedFor(p: Pixel, frames: nat): (r: Pixel)
  {
    if frames == 0 then p else MovedPixel(MovedFor(p, frames - 1))
  }

  lemma {:induction false} MovedForLife(p: Pixel, frames: nat)
    ensures MovedFor(p, frames).life == p.life - LifeStep * frames as real
  {
    if frames > 0 {
      MovedForLife(p, frames - 1);
    }
  }

  /** A pixel born with full life is still alive after 66 frames and gone after the 67th. */
  lemma PixelLifetime(p: Pixel)
    requires p.life == 1.0
    ensures MovedFor(p, 66).life > 0.0
    ensures MovedFor(p, 67).life <= 0.0
  {
    MovedForLife(p, 66);
    MovedForLife(p, 67);
  }

  /** A rocket after one frame's climb: moved by its velocity, which gravity then slows. */
  function Climbed(fw: Firework, speed: real): (r: Firework)
    ensures r == fw.(y := r.y, vy := r.vy)
    ensures r.vy == fw.vy + Rise
    ensures speed >= 0.0 && fw.vy <= 0.0 ==> r.y <= fw.y
  {
    NonNegativeProduct(-fw.vy, speed);
    fw.(y := fw.y + fw.vy * speed, vy := fw.vy + Rise)
  }

  /** A rocket explodes once it reaches its target height or stops rising. */
  predicate AtTop(fw: Firework)
    ensures !AtTop(fw) ==> fw.y > fw.targetY && fw.vy < 0.0
    ensures fw.vy >= 0.0 ==> AtTop(fw)
  {
    fw.y <= fw.targetY || fw.vy >= 0.0
  }

  /**
   * One firework's frame in the list's `filter`: a rising firework moves by its speed
   * times the animation speed, slows by 0.1, explodes once it reaches its target or stops
   * rising, and is always kept; an exploded one updates its pixels and is kept only while
   * some are left.
   */
  function Step(fw: Firework, speed: real, e: ExplosionDraw): (r: Option<Firework>)
    requires ValidExplosion(e)
    ensures !fw.exploded ==> (
      && r.Some?
      && r.value.y == fw.y + fw.vy * speed && r.value.vy == fw.vy + Rise
      && (r.value.exploded <==> (r.value.y <= fw.targetY || r.value.vy >= 0.0)))
    ensures fw.exploded ==> (
      && (r.Some? <==> LivePixels(fw.pixels) != [])
      && (r.Some? ==> r.value == fw.(pixels := LivePixels(fw.pixels))))
  {
    if !fw.exploded then
      var moved := Climbed(fw, speed);
      if AtTop(moved) then
        Some(moved.(exploded := true, pixels := moved.pixels + Burst(moved, e, speed)))
      else
        Some(moved)
    else
      var live := LivePixels(fw.pixels);
      if |live| > 0 then Some(fw.(pixels := live)) else None
  }

  /** The list after the frame's `filter`, firework `i` exploding with draws `es[i]`. */
  function Updated(fws: seq<Firework>, speed: real, es: seq<ExplosionDraw>): (r: seq<Firework>)
    requires |es| >= |fws| && ValidExplosions(es)
    ensures |r| <= |fws|
    decreases |fws|
  {
    if fws == [] then []
    else
      var n := |fws| - 1;
      var prefix := Updated(fws[..n], speed, es);
      match Step(fws[n], speed, es[n])
      case None => prefix
      case Some(f) => prefix + [f]
  }

  /** A firework that has not exploded is never dropped: its stepped self is in the new list. */
  lemma {:induction false} RisingKept(fws: seq<Firework>, speed: real, es: seq<ExplosionDraw>)
    requires |es| >= |fws| && ValidExplosions(es)
    ensures forall i :: 0 <= i < |fws| && !fws[i].exploded ==>
      Step(fws[i], speed, es[i]).value in Updated(fws, speed, es)
    decreases |fws|
  {
    if fws != [] {
      var n := |fws| - 1;
      RisingKept(fws[..n], speed, es);
      forall i | 0 <= i < |fws| && !fws[i].exploded
        ensures Step(fws[i], speed, es[i]).value in Updated(fws, speed, es)
      {
        if i < n {
          assert fws[i] == fws[..n][i];
        }
      }
    }
  }

  /** The body of the list's `filter` for one firework: its new state, or `None` when it is dropped. */
  method StepFirework(fw: Firework, speed: real, e: ExplosionDraw) returns (r: Option<Firework>)
    requires ValidExplosion(e)
    ensures r == Step(fw, speed, e)
  {
    if !fw.exploded {
      var moved := Climbed(fw, speed);
      if AtTop(moved) {
        moved := ExplodeFirework(moved, e, speed);
      }
      return Some(moved);
    }
    var live := LivePixels(fw.pixels);
    if |live| > 0 {
      return Some(fw.(pixels := live));
    }
    return None;
  }

  /** An exploded firework whose pixels have all burnt out is dropped. */
  lemma BurntOutDropped(fw: Firework, speed: real, e: ExplosionDraw)
    requires ValidExplosion(e) && fw.exploded
    requires forall k :: 0 <= k < |fw.pixels| ==> fw.pixels[k].life <= LifeStep
    ensures Step(fw, speed, e) == None
  {
    LivePixelsNoneSurvive(fw.pixels);
  }

  /** The frame's spawn: on a beat, or when the chance draw is below `0.02 * intensity`, one new firework unless 15 are up. */
  function Spawned(fws: seq<Firework>, beat: bool, chance: real, d: FireworkDraw, settings: Settings, width: real, height: real): (r: seq<Firework>)
    requires ValidFireworkDraw(d) && width >= 0.0 && height >= 0.0
    ensures |fws| <= MaxFireworks ==> |r| <= MaxFireworks
    ensures |fws| >= MaxFireworks ==> r == fws
    ensures !beat && chance >= 0.02 * settings.intensity ==> r == fws
    ensures r == fws || r == fws + [CreateFirework(d, settings, width, height)]
  {
    if (beat || chance < 0.02 * settings.intensity) && |fws| < MaxFireworks then
      fws + [CreateFirework(d, settings, width, height)]
    else
      fws
  }

  /** A beat: a raw bass level above 0.7 more than 200 ms after the last beat. */
  predicate IsBeat(bass: real, now: real, lastBeat: real)
    ensures IsBeat(bass, now, lastBeat) ==> now > lastBeat + BeatInterval
    ensures bass <= BeatLevel ==> !IsBeat(bass, now, lastBeat)
  {
    bass > BeatLevel && now - lastBeat > BeatInterval
  }

  /** The beat times a run of (raw bass, clock) readings produces, each one becoming the new last beat. */
  function BeatTimes(lastBeat: real, readings: seq<(real, real)>): (r: seq<real>)
    decreases |readings|
  {
    if readings == [] then []
    else if IsBeat(readings[0].0, readings[0].1, lastBeat) then [readings[0].1] + BeatTimes(readings[0].1, readings[1..])
    else BeatTimes(lastBeat, readings[1..])
  }

  /** However loud the bass, beats are more than 200 ms apart, and the first is more than 200 ms after the last one. */
  lemma {:induction false} BeatsDebounced(lastBeat: real, readings: seq<(real, real)>)
    ensures var b := BeatTimes(lastBeat, readings);
      (b != [] ==> b[0] > lastBeat + BeatInterval)
      && forall i :: 0 <= i < |b| - 1 ==> b[i + 1] > b[i] + BeatInterval
    decreases |readings|
  {
    if readings != [] {
      var t := readings[0].1;
      if IsBeat(readings[0].0, t, lastBeat) {
        BeatsDebounced(t, readings[1..]);
        var rest := BeatTimes(t, readings[1..]);
        var b := BeatTimes(lastBeat, readings);
        assert b == [t] + rest;
        forall i | 0 <= i < |b| - 1
          ensures b[i + 1] > b[i] + BeatInterval
        {
          if i > 0 {
            assert b[i] == rest[i - 1] && b[i + 1] == rest[i];
          }
        }
      } else {
        BeatsDebounced(lastBeat, readings[1..]);
      }
    }
  }

  /** `Math.floor(x / 4) * 4`: the grid line at or below `x`. */
  function Snap(x: real): (r: int)
    ensures r % GridSize == 0
    ensures r as real <= x < r as real + 4.0
  {
    var cell := (x / 4.0).Floor;
    cell * GridSize
  }

  /** The engine's refs: the firework list and the time of the last beat. */
  class FireworksState {
    var fireworks: seq<Firework>
    var lastBeat: real

    ghost predicate Valid()
      reads this
    {
      |fireworks| <= MaxFireworks
    }

    constructor ()
      ensures Valid() && fireworks == [] && lastBeat == 0.0
    {
      fireworks, lastBeat := [], 0.0;
    }

    /** The beat test on the frame's raw bass (bins [0, 10) over 10 and 255); a beat records `now`. */
    method DetectBeat(frame: Option<seq<int>>, now: real) returns (beat: bool)
      requires frame.Some? ==> AllBytes(frame.value)
      modifies this
      ensures fireworks == old(fireworks)
      ensures beat <==> frame.Some? && IsBeat(BandLevel(frame.value, 0, 10, 10), now, old(lastBeat))
      ensures lastBeat == if beat then now else old(lastBeat)
    {
      beat := false;
      if frame.Some? {
        var bass := BandLevel(frame.value, 0, 10, 10);
        if bass > BeatLevel && now - lastBeat > BeatInterval {
          beat := true;
          lastBeat := now;
        }
      }
    }

    /** The spawn step: at most one firework pushed, never beyond 15. */
    method Spawn(beat: bool, chance: real, d: FireworkDraw, settings: Settings, width: real, height: real)
      requires Valid() && ValidFireworkDraw(d) && width >= 0.0 && height >= 0.0
      modifies this
      ensures Valid() && lastBeat == old(lastBeat)
      ensures fireworks == Spawned(old(fireworks), beat, chance, d, settings, width, height)
    {
      if beat || chance < 0.02 * settings.intensity {
        if |fireworks| < MaxFireworks {
          fireworks := fireworks + [CreateFirework(d, settings, width, height)];
        }
      }
    }

    /** The list's `filter`: each firework steps in turn, and the list is replaced by the kept ones. */
    method UpdateFireworks(speed: real, es: seq<ExplosionDraw>)
      requires Valid() && |es| >= |fireworks| && ValidExplosions(es)
      modifies this
      ensures Valid() && lastBeat == old(lastBeat)
      ensures fireworks == Updated(old(fireworks), speed, es)
    {
      var kept := [];
      var i := 0;
      while i < |fireworks|
        invariant 0 <= i <= |fireworks| && fireworks == old(fireworks) && lastBeat == old(lastBeat)
        invariant kept == Updated(fireworks[..i], speed, es)
      {
        assert fireworks[..i + 1][..i] == fireworks[..i];
        assert fireworks[..i + 1][i] == fireworks[i];
        var step := StepFirework(fireworks[i], speed, es[i]);
        if step.Some? {
          kept := kept + [step.value];
        }
        i := i + 1;
      }
      assert fireworks[..|fireworks|] == fireworks;
      fireworks := kept;
    }

    /** One `draw` call: beat detection, the spawn, then the update of every firework. */
    method DrawFrame(frame: Option<seq<int>>, settings: Settings, now: real, chance: real, d: FireworkDraw,
                     es: seq<ExplosionDraw>, width: real, height: real)
      requires Valid() && (frame.Some? ==> AllBytes(frame.value))
      requires IsUnit(chance) && ValidFireworkDraw(d) && width >= 0.0 && height >= 0.0
      requires |es| >= MaxFireworks && ValidExplosions(es)
      modifies this
      ensures Valid()
      ensures var beat := frame.Some? && IsBeat(BandLevel(frame.value, 0, 10, 10), now, old(lastBeat));
        lastBeat == (if beat then now else old(lastBeat))
        && fireworks == Updated(Spawned(old(fireworks), beat, chance, d, settings, width, height), settings.speed, es)
    {
      var beat := DetectBeat(frame, now);
      Spawn(beat, chance, d, settings, width, height);
      UpdateFireworks(settings.speed, es);
    }
  }
}
