/**
 * The canvas host: the dimensions it keeps (800 x 600 until the container is measured)
 * and the total mapping from the settings' theme to the engine it renders, with the
 * dual-pulse-waves engine as the fallback for any other value.
 */
module Canvas {
  import opened Wrappers
  import opened Visualizer

  /**
   * The drawing engines. The particle-explosion file exports its engine under a second
   * name, `Spiderweb`, which is the one the dispatch uses; both denote `PixelShockwave`.
   */
  datatype Engine =
    | DualPulseWaves
    | RetroEqualizer
    | PixelShockwave
    | GalaxySpiral
    | WaveformRibbon
    | PulseMirrorSpectrum

  /** What `renderVisualizer` returns: an engine element with the current size as props. */
  datatype Rendered = Rendered(engine: Engine, width: nat, height: nat)

  /** The `switch` in `renderVisualizer`. */
  function SelectEngine(theme: string): (e: Engine)
    ensures theme !in Themes ==> e == DualPulseWaves
    ensures theme == PixelShockwaveId ==> e == PixelShockwave
  {
    if theme == DualPulseWavesId then DualPulseWaves
    else if theme == RetroEqualizerId then RetroEqualizer
    else if theme == PixelShockwaveId then PixelShockwave
    else if theme == GalaxySpiralId then GalaxySpiral
    else if theme == WaveformRibbonId then WaveformRibbon
    else if theme == PulseMirrorSpectrumId then PulseMirrorSpectrum
    else DualPulseWaves
  }

  /** The theme id each engine is selected by. */
  function EngineTheme(e: Engine): (t: string)
    ensures t in Themes
  {
    match e
    case DualPulseWaves => DualPulseWavesId
    case RetroEqualizer => RetroEqualizerId
    case PixelShockwave => PixelShockwaveId
    case GalaxySpiral => GalaxySpiralId
    case WaveformRibbon => WaveformRibbonId
    case PulseMirrorSpectrum => PulseMirrorSpectrumId
  }

  /** Every engine is reachable, through its own theme id. */
  lemma EngineReachable(e: Engine)
    ensures SelectEngine(EngineTheme(e)) == e
  {
  }

  /** Each listed theme selects its own engine: the six ids map to six different engines. */
  lemma ThemeSelectsOwnEngine(t: string)
    requires t in Themes
    ensures EngineTheme(SelectEngine(t)) == t
  {
  }

  /** The component's dimensions state and the element it renders. */
  class CanvasHost {
    var width: nat
    var height: nat

    constructor ()
      ensures width == 800 && height == 600
    {
      width, height := 800, 600;
    }

    /**
     * `updateDimensions`: take the container's client size, or do nothing when the
     * container is not mounted (`container` is `None`).
     */
    method UpdateDimensions(container: Option<(nat, nat)>)
      modifies this
      ensures container.None? ==> width == old(width) && height == old(height)
      ensures container.Some? ==> width == container.value.0 && height == container.value.1
    {
      if container.Some? {
        width, height := container.value.0, container.value.1;
      }
    }

    /** `renderVisualizer`: the selected engine, given exactly the current width and height. */
    function RenderVisualizer(theme: string): (r: Rendered)
      reads this
      ensures r.width == width && r.height == height
      ensures theme in Themes ==> EngineTheme(r.engine) == theme
      ensures theme !in Themes ==> r.engine == DualPulseWaves
    {
      Rendered(SelectEngine(theme), width, height)
    }
  }
}
