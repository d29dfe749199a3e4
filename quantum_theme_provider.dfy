/** The quantum theme: one theme record held by the provider, replaced by
    warping to a temporal layer (which also picks the energy of that
    layer) or by setting the energy level directly (clamped). */
module QuantumThemeProvider {
  import opened Common

  datatype Base = Cyberpunk | Holographic
  datatype TemporalLayer = Past | Present | Future
  datatype Colors = Colors(cyberBlue: string, neonPink: string, quantumPurple: string)
  datatype ThemeState = ThemeState(base: Base, energyLevel: real, temporalLayer: TemporalLayer, colors: Colors)

  /** The highest energy level the theme accepts. */
  const MaxEnergy: real := 1.5

  /** `defaultThemeState`. */
  const Default: ThemeState :=
    ThemeState(Cyberpunk, 0.7, Present, Colors("#00fff2", "#ff00ff", "#b042ff"))

  /** The energy a warp to each layer sets. */
  function LayerEnergy(layer: TemporalLayer): real
  {
    match layer
    case Future => 1.2
    case Past => 0.5
    case Present => 0.7
  }

  /** `warpTheme`: the layer is replaced and the energy set to that
      layer's. */
  function Warped(t: ThemeState, layer: TemporalLayer): ThemeState
  {
    t.(temporalLayer := layer, energyLevel := LayerEnergy(layer))
  }

  /** `setEnergyLevel`: the energy is replaced by the level clamped to
      [0, 1.5]. */
  function WithEnergy(t: ThemeState, level: real): ThemeState
  {
    t.(energyLevel := Clamp(level, 0.0, MaxEnergy))
  }

  /** What every theme the provider holds satisfies: the base and the
      colors are the defaults and the energy lies in [0, 1.5]. */
  predicate Valid(t: ThemeState)
  {
    t.base == Default.base && t.colors == Default.colors && 0.0 <= t.energyLevel <= MaxEnergy
  }

  /** The default theme is valid; its layer and energy are those a warp to
      the present sets. */
  lemma DefaultIsPresent()
    ensures Valid(Default)
    ensures Default.base == Cyberpunk && Default.temporalLayer == Present
    ensures Warped(Default, Present) == Default
  {
  }

  /** A warp moves to the layer asked for with energy 1.2 for the future,
      0.5 for the past and 0.7 for the present, keeps base and colors,
      and keeps a valid theme valid. */
  lemma WarpEffect(t: ThemeState, layer: TemporalLayer)
    ensures var w := Warped(t, layer);
      && w.temporalLayer == layer && w.base == t.base && w.colors == t.colors
      && (layer == Future ==> w.energyLevel == 1.2)
      && (layer == Past ==> w.energyLevel == 0.5)
      && (layer == Present ==> w.energyLevel == 0.7)
      && (Valid(t) ==> Valid(w))
  {
  }

  /** Setting the energy keeps base, colors and layer, stores a level
      inside [0, 1.5] as given and any other level as the nearer bound,
      and keeps a valid theme valid. */
  lemma WithEnergyEffect(t: ThemeState, level: real)
    ensures var e := WithEnergy(t, level);
      && e.base == t.base && e.colors == t.colors && e.temporalLayer == t.temporalLayer
      && 0.0 <= e.energyLevel <= MaxEnergy
      && (0.0 <= level <= MaxEnergy ==> e.energyLevel == level)
      && (level < 0.0 ==> e.energyLevel == 0.0)
      && (level > MaxEnergy ==> e.energyLevel == MaxEnergy)
      && (Valid(t) ==> Valid(e))
  {
  }

  /** A warp overrides any energy set before it, and setting the same
      level twice is the same as setting it once. */
  lemma LastWriteWins(t: ThemeState, level: real, layer: TemporalLayer)
    ensures Warped(WithEnergy(t, level), layer) == Warped(t, layer)
    ensures WithEnergy(WithEnergy(t, level), level) == WithEnergy(t, level)
    ensures WithEnergy(Warped(t, layer), level).temporalLayer == layer
  {
  }

  /** Right after a warp the energy tells which layer was chosen. */
  lemma {:induction false} EnergyIdentifiesLayer(t: ThemeState, a: TemporalLayer, b: TemporalLayer)
    ensures Warped(t, a).energyLevel == Warped(t, b).energyLevel <==> a == b
  {
    if a != b {
      assert LayerEnergy(a) != LayerEnergy(b) by {
        match a
        case Future =>
        case Past =>
        case Present =>
      }
    }
  }

  class ThemeProvider {
    var theme: ThemeState

    /** The provider starts from the default theme. */
    constructor ()
      ensures theme == Default && Valid(theme)
    {
      theme := Default;
    }

    /** `warpTheme(temporalLayer)`. */
    method WarpTheme(layer: TemporalLayer)
      modifies this
      ensures theme == Warped(old(theme), layer)
      ensures theme.base == old(theme).base && theme.colors == old(theme).colors
      ensures Valid(old(theme)) ==> Valid(theme)
    {
      var energy := if layer == Future then 1.2 else if layer == Past then 0.5 else 0.7;
      theme := theme.(temporalLayer := layer, energyLevel := energy);
    }

    /** `setEnergyLevel(level)`. */
    method SetEnergyLevel(level: real)
      modifies this
      ensures theme == WithEnergy(old(theme), level)
      ensures theme.base == old(theme).base && theme.colors == old(theme).colors
      ensures 0.0 <= theme.energyLevel <= MaxEnergy
      ensures Valid(old(theme)) ==> Valid(theme)
    {
      var clamped := if level > MaxEnergy then MaxEnergy else level;
      clamped := if clamped < 0.0 then 0.0 else clamped;
      theme := theme.(energyLevel := clamped);
    }
  }
}
