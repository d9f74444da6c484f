/**
 * The visualizer settings store: the settings record and its defaults, the partial
 * merge behind `updateSettings`, `setTheme`, the list of theme ids and
 * `randomizeTheme`, which retries random draws until the index differs from the
 * current theme's.
 *
 * A theme id is kept as a string: the settings field is typed as one of six ids, but
 * nothing stops a stored or hand-made value from being another string, and the store
 * and the dispatch both have a path for that case.
 */
module Visualizer {
  import opened Wrappers

  const DualPulseWavesId: string := "dual-pulse-waves"
  const RetroEqualizerId: string := "retro-equalizer"
  const PixelShockwaveId: string := "pixel-shockwave"
  const GalaxySpiralId: string := "galaxy-spiral"
  const WaveformRibbonId: string := "waveform-ribbon"
  const PulseMirrorSpectrumId: string := "pulse-mirror-spectrum"

  /** The theme list, in the order `randomizeTheme` indexes it. */
  const Themes: seq<string> :=
    [DualPulseWavesId, RetroEqualizerId, PixelShockwaveId, GalaxySpiralId, WaveformRibbonId, PulseMirrorSpectrumId]

  datatype Settings = Settings(
    theme: string,
    primaryColor: string,
    secondaryColor: string,
    backgroundColor: string,
    intensity: real,
    speed: real,
    sensitivity: real)

  const DefaultSettings: Settings :=
    Settings(DualPulseWavesId, "#00ffff", "#ff00ff", "#000000", 1.0, 1.0, 1.0)

  /** A `Partial<VisualizerSettings>`: each field present or absent. */
  datatype SettingsPatch = SettingsPatch(
    theme: Option<string>,
    primaryColor: Option<string>,
    secondaryColor: Option<string>,
    backgroundColor: Option<string>,
    intensity: Option<real>,
    speed: Option<real>,
    sensitivity: Option<real>)

  const EmptyPatch: SettingsPatch := SettingsPatch(None, None, None, None, None, None, None)

  /** The patch `setTheme(t)` sends: `{ theme: t }`. */
  function ThemePatch(t: string): (r: SettingsPatch)
    ensures r.theme == Some(t)
    ensures r.(theme := None) == EmptyPatch
  {
    EmptyPatch.(theme := Some(t))
  }

  function Pick<T>(present: Option<T>, otherwise: T): (r: T)
  {
    if present.Some? then present.value else otherwise
  }

  /**
   * `{ ...prev, ...patch }`: a field present in the patch replaces the old value,
   * every absent field keeps it.
   */
  function Merge(s: Settings, p: SettingsPatch): (r: Settings)
    ensures p.theme.Some? ==> r.theme == p.theme.value
    ensures p.theme.None? ==> r.theme == s.theme
    ensures p.primaryColor.Some? ==> r.primaryColor == p.primaryColor.value
    ensures p.primaryColor.None? ==> r.primaryColor == s.primaryColor
    ensures p.secondaryColor.Some? ==> r.secondaryColor == p.secondaryColor.value
    ensures p.secondaryColor.None? ==> r.secondaryColor == s.secondaryColor
    ensures p.backgroundColor.Some? ==> r.backgroundColor == p.backgroundColor.value
    ensures p.backgroundColor.None? ==> r.backgroundColor == s.backgroundColor
    ensures p.intensity.Some? ==> r.intensity == p.intensity.value
    ensures p.intensity.None? ==> r.intensity == s.intensity
    ensures p.speed.Some? ==> r.speed == p.speed.value
    ensures p.speed.None? ==> r.speed == s.speed
    ensures p.sensitivity.Some? ==> r.sensitivity == p.sensitivity.value
    ensures p.sensitivity.None? ==> r.sensitivity == s.sensitivity
  {
    Settings(
      Pick(p.theme, s.theme),
      Pick(p.primaryColor, s.primaryColor),
      Pick(p.secondaryColor, s.secondaryColor),
      Pick(p.backgroundColor, s.backgroundColor),
      Pick(p.intensity, s.intensity),
      Pick(p.speed, s.speed),
      Pick(p.sensitivity, s.sensitivity))
  }

  /** Two patches applied one after the other, the later one winning field by field. */
  function Then(p: SettingsPatch, q: SettingsPatch): (r: SettingsPatch)
  {
    SettingsPatch(
      if q.theme.Some? then q.theme else p.theme,
      if q.primaryColor.Some? then q.primaryColor else p.primaryColor,
      if q.secondaryColor.Some? then q.secondaryColor else p.secondaryColor,
      if q.backgroundColor.Some? then q.backgroundColor else p.backgroundColor,
      if q.intensity.Some? then q.intensity else p.intensity,
      if q.speed.Some? then q.speed else p.speed,
      if q.sensitivity.Some? then q.sensitivity else p.sensitivity)
  }

  /** An empty partial changes nothing. */
  lemma MergeEmpty(s: Settings)
    ensures Merge(s, EmptyPatch) == s
  {
  }

  /** Applying the same partial twice is the same as applying it once. */
  lemma MergeIdempotent(s: Settings, p: SettingsPatch)
    ensures Merge(Merge(s, p), p) == Merge(s, p)
  {
  }

  /** Two successive updates equal one update with the combined partial. */
  lemma MergeThen(s: Settings, p: SettingsPatch, q: SettingsPatch)
    ensures Merge(Merge(s, p), q) == Merge(s, Then(p, q))
  {
  }

  /** `setTheme(t)` changes the theme to `t` and nothing else. */
  lemma SetThemeOnlyTheme(s: Settings, t: string)
    ensures Merge(s, ThemePatch(t)) == s.(theme := t)
  {
  }

  /** Six themes, pairwise distinct, starting with the default one. */
  lemma ThemesDistinct()
    ensures |Themes| == 6 && Themes[0] == DefaultSettings.theme
    ensures forall i, j :: 0 <= i < j < |Themes| ==> Themes[i] != Themes[j]
  {
  }

  /** `Array.prototype.indexOf`: the first position holding `x`, or -1 when there is none. */
  function IndexOf(list: seq<string>, x: string): (r: int)
    ensures -1 <= r < |list|
    ensures r == -1 <==> x !in list
    ensures r >= 0 ==> list[r] == x && forall j :: 0 <= j < r ==> list[j] != x
  {
    if list == [] then -1
    else if list[0] == x then 0
    else
      var rest := IndexOf(list[1..], x);
      if rest == -1 then -1 else rest + 1
  }

  /** `Math.floor(u * themes.length)` for a draw `u` of `Math.random()` in [0, 1). */
  function DrawIndex(u: real): (i: int)
    requires 0.0 <= u < 1.0
    ensures 0 <= i < |Themes|
  {
    (u * 6.0).Floor
  }

  predicate AllDraws(draws: seq<real>)
  {
    forall k :: 0 <= k < |draws| ==> 0.0 <= draws[k] < 1.0
  }

  /**
   * The retry loop of `randomizeTheme`: draw, and draw again while the index equals
   * `current`. `draws` are the successive `Math.random()` results; some draw must
   * eventually give another index, or the loop would not end. `used` is the position of
   * the accepted draw: every earlier draw hit `current`.
   */
  method PickNewIndex(current: int, draws: seq<real>) returns (idx: int, used: nat)
    requires AllDraws(draws)
    requires exists k :: 0 <= k < |draws| && DrawIndex(draws[k]) != current
    ensures 0 <= idx < |Themes| && idx != current
    ensures used < |draws| && idx == DrawIndex(draws[used])
    ensures forall j :: 0 <= j < used ==> DrawIndex(draws[j]) == current
  {
    used := 0;
    idx := DrawIndex(draws[0]);
    while idx == current
      invariant 0 <= used < |draws| && idx == DrawIndex(draws[used])
      invariant forall j :: 0 <= j < used ==> DrawIndex(draws[j]) == current
      decreases |draws| - used
    {
      used := used + 1;
      idx := DrawIndex(draws[used]);
    }
  }

  /** The settings provider. */
  class VisualizerStore {
    var settings: Settings

    constructor ()
      ensures settings == DefaultSettings
    {
      settings := DefaultSettings;
    }

    method UpdateSettings(patch: SettingsPatch)
      modifies this
      ensures settings == Merge(old(settings), patch)
    {
      settings := Merge(settings, patch);
    }

    method SetTheme(t: string)
      modifies this
      ensures settings == old(settings).(theme := t)
    {
      UpdateSettings(ThemePatch(t));
      SetThemeOnlyTheme(old(settings), t);
    }

    /**
     * `randomizeTheme`: the new theme is one of the six and differs from the current
     * one; no other field changes.
     */
    method RandomizeTheme(draws: seq<real>)
      requires AllDraws(draws)
      requires exists k :: 0 <= k < |draws| && DrawIndex(draws[k]) != IndexOf(Themes, settings.theme)
      modifies this
      ensures settings.theme in Themes && settings.theme != old(settings.theme)
      ensures settings == old(settings).(theme := settings.theme)
    {
      var currentIndex := IndexOf(Themes, settings.theme);
      var newIndex, _ := PickNewIndex(currentIndex, draws);
      SetTheme(Themes[newIndex]);
    }
  }
}
