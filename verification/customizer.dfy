/**
 * The theme customizer page: the list of saved custom themes (mirrored in the
 * `customThemes` storage slot), saving the settings being edited under a name,
 * deleting by id, loading a saved theme, the preview chosen for a theme, the theme list
 * offered, and the label shown for the theme id.
 */
module Customizer {
  import opened Wrappers
  import opened Text
  import opened Visualizer

  /** A saved theme: an id, a name and the seven settings fields, flat as stored. */
  datatype CustomTheme = CustomTheme(
    id: string,
    name: string,
    theme: string,
    primaryColor: string,
    secondaryColor: string,
    backgroundColor: string,
    intensity: real,
    speed: real,
    sensitivity: real)

  /** The theme list the page offers: the store's six themes, in the same order. */
  const AvailableThemes: seq<string> :=
    ["dual-pulse-waves", "retro-equalizer", "pixel-shockwave", "galaxy-spiral", "waveform-ribbon", "pulse-mirror-spectrum"]

  lemma AvailableThemesAreThemes()
    ensures AvailableThemes == Themes
  {
  }

  /** The seven settings fields of a saved theme. */
  function SettingsOf(t: CustomTheme): (s: Settings)
    ensures s.theme == t.theme && s.primaryColor == t.primaryColor && s.secondaryColor == t.secondaryColor
    ensures s.backgroundColor == t.backgroundColor
    ensures s.intensity == t.intensity && s.speed == t.speed && s.sensitivity == t.sensitivity
  {
    Settings(t.theme, t.primaryColor, t.secondaryColor, t.backgroundColor, t.intensity, t.speed, t.sensitivity)
  }

  /** The theme a save creates: the id and name given and a copy of the settings. */
  function ThemeFrom(id: string, name: string, s: Settings): (t: CustomTheme)
    ensures t.id == id && t.name == name && SettingsOf(t) == s
  {
    CustomTheme(id, name, s.theme, s.primaryColor, s.secondaryColor, s.backgroundColor, s.intensity, s.speed, s.sensitivity)
  }

  /** A patch with all seven fields present, as `updateSettings(theme)` sends for a saved theme. */
  function FullPatch(s: Settings): (r: SettingsPatch)
  {
    SettingsPatch(Some(s.theme), Some(s.primaryColor), Some(s.secondaryColor), Some(s.backgroundColor),
                  Some(s.intensity), Some(s.speed), Some(s.sensitivity))
  }

  /** Merging a full patch replaces every field, whatever the settings were. */
  lemma MergeFullPatch(old_: Settings, s: Settings)
    ensures Merge(old_, FullPatch(s)) == s
  {
  }

  /**
   * The characters `String.prototype.trim` removes: the white space characters (tab,
   * vertical tab, form feed, the byte order mark and the space separators) and the line
   * terminators.
   */
  predicate IsTrimmed(c: char)
    ensures ('a' <= c <= 'z' || 'A' <= c <= 'Z' || '0' <= c <= '9' || c == '-') ==> !IsTrimmed(c)
  {
    || c == '\t' || c == '\U{000B}' || c == '\U{000C}' || c == ' ' || c == '\U{00A0}' || c == '\U{FEFF}'
    || c == '\U{1680}' || ('\U{2000}' <= c <= '\U{200A}') || c == '\U{202F}' || c == '\U{205F}' || c == '\U{3000}'
    || c == '\n' || c == '\r' || c == '\U{2028}' || c == '\U{2029}'
  }

  predicate Blank(s: string)
  {
    forall i :: 0 <= i < |s| ==> IsTrimmed(s[i])
  }

  function TrimStart(s: string): (r: string)
    ensures |r| <= |s|
  {
    if s != [] && IsTrimmed(s[0]) then TrimStart(s[1..]) else s
  }

  function TrimEnd(s: string): (r: string)
    ensures |r| <= |s| && r == s[..|r|]
    ensures r != [] ==> !IsTrimmed(r[|r| - 1])
  {
    if s != [] && IsTrimmed(s[|s| - 1]) then TrimEnd(s[..|s| - 1]) else s
  }

  /** `trim()`: both ends stripped, so a non-empty result starts and ends with a kept character. */
  function Trim(s: string): (r: string)
    ensures |r| <= |s|
    ensures r != [] ==> !IsTrimmed(r[0]) && !IsTrimmed(r[|r| - 1])
  {
    TrimStartEmpty(s);
    TrimEnd(TrimStart(s))
  }

  lemma {:induction false} TrimStartEmpty(s: string)
    ensures TrimStart(s) == [] <==> Blank(s)
    ensures TrimStart(s) != [] ==> !IsTrimmed(TrimStart(s)[0])
  {
    if s != [] && IsTrimmed(s[0]) {
      TrimStartEmpty(s[1..]);
      if Blank(s[1..]) {
        forall i | 0 <= i < |s|
          ensures IsTrimmed(s[i])
        {
          if i > 0 {
            assert s[i] == s[1..][i - 1];
          }
        }
      }
    }
  }

  lemma {:induction false} TrimEndKeepsHead(s: string)
    requires s != [] && !IsTrimmed(s[0])
    ensures TrimEnd(s) != []
  {
    if IsTrimmed(s[|s| - 1]) {
      TrimEndKeepsHead(s[..|s| - 1]);
    }
  }

  /** A name trims to the empty string exactly when it consists of white space only. */
  lemma TrimEmptyIffBlank(s: string)
    ensures Trim(s) == [] <==> Blank(s)
  {
    TrimStartEmpty(s);
    if !Blank(s) {
      TrimEndKeepsHead(TrimStart(s));
    }
  }

  /** The list `filter(t => t.id !== id)` leaves. */
  function Without(themes: seq<CustomTheme>, id: string): (r: seq<CustomTheme>)
    ensures |r| <= |themes|
    ensures forall k :: 0 <= k < |r| ==> r[k].id != id && r[k] in themes
    decreases |themes|
  {
    if themes == [] then []
    else Kept(themes[0], id) + Without(themes[1..], id)
  }

  /** What the delete filter keeps of one theme: the theme itself, unless it has the id. */
  function Kept(theme: CustomTheme, id: string): (r: seq<CustomTheme>)
  {
    if theme.id != id then [theme] else []
  }

  /** Every theme with another id survives a delete. */
  lemma {:induction false} WithoutKeepsOthers(themes: seq<CustomTheme>, id: string)
    ensures forall k :: 0 <= k < |themes| && themes[k].id != id ==> themes[k] in Without(themes, id)
    decreases |themes|
  {
    if themes != [] {
      WithoutKeepsOthers(themes[1..], id);
      forall k | 0 <= k < |themes| && themes[k].id != id
        ensures themes[k] in Without(themes, id)
      {
        if k > 0 {
          assert themes[k] == themes[1..][k - 1];
        }
      }
    }
  }

  /** Deleting distributes over the parts of a list, so the kept themes keep their order. */
  lemma {:induction false} WithoutConcat(a: seq<CustomTheme>, b: seq<CustomTheme>, id: string)
    ensures Without(a + b, id) == Without(a, id) + Without(b, id)
    decreases |a|
  {
    if a == [] {
      assert a + b == b;
    } else {
      var c := a + b;
      assert c[0] == a[0] && c[1..] == a[1..] + b;
      WithoutConcat(a[1..], b, id);
      calc {
        Without(c, id);
        Kept(a[0], id) + Without(a[1..] + b, id);
        Kept(a[0], id) + (Without(a[1..], id) + Without(b, id));
        (Kept(a[0], id) + Without(a[1..], id)) + Without(b, id);
        Without(a, id) + Without(b, id);
      }
    }
  }

  /** A head with another id stays at the head. */
  lemma KeptHead(themes: seq<CustomTheme>, id: string)
    requires themes != [] && themes[0].id != id
    ensures Without(themes, id) == [themes[0]] + Without(themes[1..], id)
  {
    assert Kept(themes[0], id) == [themes[0]];
  }

  /** Deleting an id nobody has changes nothing. */
  lemma {:induction false} WithoutAbsent(themes: seq<CustomTheme>, id: string)
    requires forall k :: 0 <= k < |themes| ==> themes[k].id != id
    ensures Without(themes, id) == themes
    decreases |themes|
  {
    if themes != [] {
      var rest := themes[1..];
      forall k | 0 <= k < |rest|
        ensures rest[k].id != id
      {
        assert rest[k] == themes[k + 1];
      }
      WithoutAbsent(rest, id);
      KeptHead(themes, id);
    }
  }

  /** Deleting twice is deleting once. */
  lemma WithoutIdempotent(themes: seq<CustomTheme>, id: string)
    ensures Without(Without(themes, id), id) == Without(themes, id)
  {
    WithoutAbsent(Without(themes, id), id);
  }

  datatype Preview = EqualizerPreview | TunnelPreview | SpiralPreview | SpiderwebPreview | WaveformPreview

  /** `renderPreview`'s switch: the pulse mirror and any unknown theme show the equalizer preview. */
  function PreviewFor(theme: string): (p: Preview)
    ensures theme == DualPulseWavesId ==> p == TunnelPreview
    ensures theme == GalaxySpiralId ==> p == SpiralPreview
    ensures theme == PixelShockwaveId ==> p == SpiderwebPreview
    ensures theme == WaveformRibbonId ==> p == WaveformPreview
    ensures theme !in [DualPulseWavesId, GalaxySpiralId, PixelShockwaveId, WaveformRibbonId] ==> p == EqualizerPreview
  {
    if theme == RetroEqualizerId then EqualizerPreview
    else if theme == DualPulseWavesId then TunnelPreview
    else if theme == GalaxySpiralId then SpiralPreview
    else if theme == PixelShockwaveId then SpiderwebPreview
    else if theme == WaveformRibbonId then WaveformPreview
    else if theme == PulseMirrorSpectrumId then EqualizerPreview
    else EqualizerPreview
  }

  /** The equalizer preview is shared: three different theme values give it. */
  lemma EqualizerPreviewShared()
    ensures PreviewFor(RetroEqualizerId) == EqualizerPreview
    ensures PreviewFor(PulseMirrorSpectrumId) == EqualizerPreview
    ensures PreviewFor("neon-tunnel") == EqualizerPreview
  {
  }

  /** `theme.toUpperCase().replace('-', ' ')`: upper case, with only the first hyphen made a space. */
  function ThemeLabel(theme: string): (shown: string)
    ensures |shown| == |theme|
  {
    ReplaceFirst(UpperCase(theme), '-', " ")
  }

  /** Upper-casing moves no hyphen: the first one stays where it was. */
  lemma UpperKeepsHyphens(s: string)
    ensures FirstIndexOf(UpperCase(s), '-') == FirstIndexOf(s, '-')
  {
    var i := FirstIndexOf(s, '-');
    if i != -1 {
      FirstIndexOfAt(UpperCase(s), '-', i);
    }
  }

  /**
   * The label letter by letter: the first hyphen, if any, reads as a space and every
   * other character is upper-cased.
   */
  lemma ThemeLabelLetters(theme: string)
    ensures var i := FirstIndexOf(theme, '-'); var shown := ThemeLabel(theme);
      forall j :: 0 <= j < |theme| ==> shown[j] == (if j == i then ' ' else AsciiUpper(theme[j]))
  {
    UpperKeepsHyphens(theme);
  }

  /** The page's state: the saved themes, the new-theme form and the settings being edited. */
  class CustomizerPage {
    var customThemes: seq<CustomTheme>
    var showNewThemeForm: bool
    var newThemeName: string
    var tempSettings: Settings

    /** The page's initial state: the stored list, or an empty one when nothing is stored. */
    constructor (saved: Option<seq<CustomTheme>>, settings: Settings)
      ensures customThemes == (if saved.Some? then saved.value else [])
      ensures !showNewThemeForm && newThemeName == "" && tempSettings == settings
    {
      customThemes := if saved.Some? then saved.value else [];
      showNewThemeForm, newThemeName, tempSettings := false, "", settings;
    }

    /**
     * `handleSaveCurrentTheme`, with the clock reading as the new id: a blank name is
     * refused and nothing changes; otherwise the edited settings are appended under the
     * name, the name is cleared and the form hidden.
     */
    method SaveCurrentTheme(clock: nat) returns (ok: bool)
      modifies this
      ensures ok <==> !Blank(old(newThemeName))
      ensures !ok ==> unchanged(this)
      ensures ok ==> (
        && customThemes == old(customThemes) + [ThemeFrom(DecimalString(clock), old(newThemeName), old(tempSettings))]
        && newThemeName == "" && !showNewThemeForm && tempSettings == old(tempSettings))
    {
      TrimEmptyIffBlank(newThemeName);
      if Trim(newThemeName) == "" {
        return false;
      }
      var newTheme := ThemeFrom(DecimalString(clock), newThemeName, tempSettings);
      customThemes := customThemes + [newTheme];
      newThemeName := "";
      showNewThemeForm := false;
      ok := true;
    }

    /** `handleDeleteTheme`: every theme with the id goes; the others stay, in order. */
    method DeleteTheme(id: string)
      modifies this
      ensures customThemes == Without(old(customThemes), id)
      ensures showNewThemeForm == old(showNewThemeForm) && newThemeName == old(newThemeName)
      ensures tempSettings == old(tempSettings)
    {
      customThemes := Without(customThemes, id);
    }

    /** `handleLoadTheme`: both the edited settings and the store's settings become the theme's seven fields. */
    method LoadTheme(theme: CustomTheme, store: VisualizerStore)
      modifies this, store
      ensures tempSettings == SettingsOf(theme) && store.settings == SettingsOf(theme)
      ensures customThemes == old(customThemes)
      ensures showNewThemeForm == old(showNewThemeForm) && newThemeName == old(newThemeName)
    {
      tempSettings := SettingsOf(theme);
      store.UpdateSettings(FullPatch(SettingsOf(theme)));
      MergeFullPatch(old(store.settings), SettingsOf(theme));
    }
  }
}
