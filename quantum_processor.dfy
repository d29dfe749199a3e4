/** The quantum pattern processor: from an energy signature, a list of
    energy patterns and a neural state it derives a theme (base,
    entanglement, temporal layer and energy level). Numbers are reals;
    the empty signature and a zero `max + min` (NaN in the program) are
    excluded by preconditions. */
module QuantumProcessor {
  import opened Common
  import opened QuantumThemeProvider

  datatype QuantumPattern = QuantumPattern(energySignature: seq<real>, temporalDissonance: real, kind: string)
  datatype NeuralState = NeuralState(temporalDissonance: real, temporalBias: real)
  datatype ProcessedTheme = ProcessedTheme(base: Base, quantumEntanglement: real, temporalLayer: TemporalLayer,
                                           energyLevel: real)

  /** Thresholds of the layer mapping and of the holographic base. */
  const PastBelow: real := 0.3
  const FutureAbove: real := 0.7
  const HolographicAbove: real := 0.7

  // ---------------------------------------------------------------------
  // Sums, mean and variance

  function Sum(s: seq<real>): real
  {
    if s == [] then 0.0 else s[0] + Sum(s[1..])
  }

  /** The sum of the squared deviations of `s` from `m`. */
  function SquaredDeviations(s: seq<real>, m: real): real
  {
    if s == [] then 0.0 else Square(s[0] - m) + SquaredDeviations(s[1..], m)
  }

  /** `Math.pow(x, 2)`. */
  function Square(x: real): real
  {
    x * x
  }

  function Mean(s: seq<real>): real
    requires |s| > 0
  {
    Sum(s) / (|s| as real)
  }

  /** The variance is never negative. */
  function Variance(s: seq<real>): (v: real)
    requires |s| > 0
    ensures v >= 0.0
  {
    SquaredDeviationsZero(s, Mean(s));
    SquaredDeviations(s, Mean(s)) / (|s| as real)
  }

  lemma SquareNonNegative(x: real)
    ensures Square(x) >= 0.0
  {
    if x != 0.0 {
      SquarePositive(x);
    }
  }

  lemma SquarePositive(x: real)
    requires x != 0.0
    ensures Square(x) > 0.0
  {
    ProductOfLikeSigns(x, x, Square(x));
  }

  /** The product `p` of two numbers of the same strict sign is positive. */
  lemma ProductOfLikeSigns(a: real, b: real, p: real)
    requires (a > 0.0 && b > 0.0) || (a < 0.0 && b < 0.0)
    requires p == a * b
    ensures p > 0.0
  {
  }

  /** Squared deviations are never negative; they are zero when every
      value equals `m` and positive as soon as one value differs. */
  lemma {:induction false} SquaredDeviationsZero(s: seq<real>, m: real)
    ensures SquaredDeviations(s, m) >= 0.0
    ensures (forall i :: 0 <= i < |s| ==> s[i] == m) ==> SquaredDeviations(s, m) == 0.0
    ensures (exists i :: 0 <= i < |s| && s[i] != m) ==> SquaredDeviations(s, m) > 0.0
  {
    if s != [] {
      var tail := s[1..];
      SquaredDeviationsZero(tail, m);
      SquareNonNegative(s[0] - m);
      if forall i :: 0 <= i < |s| ==> s[i] == m {
        forall i | 0 <= i < |tail|
          ensures tail[i] == m
        {
          assert tail[i] == s[i + 1];
        }
        assert s[0] - m == 0.0;
      }
      if exists i :: 0 <= i < |s| && s[i] != m {
        var i :| 0 <= i < |s| && s[i] != m;
        if i == 0 {
          SquarePositive(s[0] - m);
        } else {
          assert tail[i - 1] != m;
        }
      }
    }
  }

  /** A sequence of `n` copies of `c` sums to `n * c`. */
  lemma {:induction false} SumConstant(s: seq<real>, c: real)
    requires forall i :: 0 <= i < |s| ==> s[i] == c
    ensures Sum(s) == (|s| as real) * c
  {
    if s != [] {
      assert forall i :: 0 <= i < |s[1..]| ==> s[1..][i] == c by {
        forall i | 0 <= i < |s[1..]|
          ensures s[1..][i] == c
        {
          assert s[1..][i] == s[i + 1];
        }
      }
      SumConstant(s[1..], c);
    }
  }

  // ---------------------------------------------------------------------
  // The four measures

  /** `calculateCoherence`: `1 / (1 + variance)` of the signature. */
  function Coherence(signature: seq<real>): real
    requires |signature| > 0
  {
    1.0 / (1.0 + Variance(signature))
  }

  /** The variance is never negative, so coherence lies in (0, 1]; it is
      1 exactly when every value of the signature is the same. */
  lemma CoherenceBounds(signature: seq<real>)
    requires |signature| > 0
    ensures 0.0 <= Variance(signature)
    ensures 0.0 < Coherence(signature) <= 1.0
    ensures Coherence(signature) == 1.0 <==> forall i :: 0 <= i < |signature| ==> signature[i] == signature[0]
  {
    var m := Mean(signature);
    var n := |signature| as real;
    SquaredDeviationsZero(signature, m);
    var v := Variance(signature);
    var c := Coherence(signature);
    assert c * (1.0 + v) == 1.0;
    if forall i :: 0 <= i < |signature| ==> signature[i] == signature[0] {
      SumConstant(signature, signature[0]);
      assert m == signature[0];
    } else {
      var i :| 0 <= i < |signature| && signature[i] != signature[0];
      assert signature[i] != m || signature[0] != m;
      if signature[i] == m {
        assert signature[0] != m;
      }
      assert v == SquaredDeviations(signature, m) / n;
      PositiveVarianceLowersCoherence(SquaredDeviations(signature, m), n);
    }
  }

  lemma PositiveVarianceLowersCoherence(deviations: real, n: real)
    requires deviations > 0.0 && n > 0.0
    ensures 1.0 / (1.0 + deviations / n) < 1.0
  {
  }

  function MaxOf(s: seq<real>): (r: real)
    requires |s| > 0
    ensures r in s && forall i :: 0 <= i < |s| ==> s[i] <= r
  {
    if |s| == 1 then s[0] else if s[0] >= MaxOf(s[1..]) then s[0] else MaxOf(s[1..])
  }

  function MinOf(s: seq<real>): (r: real)
    requires |s| > 0
    ensures r in s && forall i :: 0 <= i < |s| ==> r <= s[i]
  {
    if |s| == 1 then s[0] else if s[0] <= MinOf(s[1..]) then s[0] else MinOf(s[1..])
  }

  /** The case where resonance is a number: no patterns, or extremes that
      do not cancel. */
  predicate ResonanceDefined(patterns: seq<real>)
  {
    |patterns| == 0 || MaxOf(patterns) + MinOf(patterns) != 0.0
  }

  /** `calculateResonance`: 0.5 without patterns, else the spread of the
      extremes over their sum. */
  function Resonance(patterns: seq<real>): real
    requires ResonanceDefined(patterns)
  {
    if |patterns| == 0 then 0.5
    else (MaxOf(patterns) - MinOf(patterns)) / (MaxOf(patterns) + MinOf(patterns))
  }

  /** No patterns give 0.5; equal patterns give 0; positive patterns give
      a resonance in [0, 1). */
  lemma ResonanceRange(patterns: seq<real>)
    requires ResonanceDefined(patterns)
    ensures |patterns| == 0 ==> Resonance(patterns) == 0.5
    ensures |patterns| > 0 && (forall i :: 0 <= i < |patterns| ==> patterns[i] == patterns[0]) ==>
      Resonance(patterns) == 0.0
    ensures |patterns| > 0 && (forall i :: 0 <= i < |patterns| ==> patterns[i] > 0.0) ==>
      0.0 <= Resonance(patterns) < 1.0
  {
    if |patterns| > 0 {
      var hi := MaxOf(patterns);
      var lo := MinOf(patterns);
      if forall i :: 0 <= i < |patterns| ==> patterns[i] == patterns[0] {
        assert hi == lo;
        assert Resonance(patterns) == 0.0 / (hi + lo);
      }
      if forall i :: 0 <= i < |patterns| ==> patterns[i] > 0.0 {
        SpreadRatio(hi, lo);
      }
    }
  }

  /** For extremes `0 < lo <= hi`, the spread over the sum lies in [0, 1). */
  lemma SpreadRatio(hi: real, lo: real)
    requires 0.0 < lo <= hi
    ensures 0.0 <= (hi - lo) / (hi + lo) < 1.0
  {
    var r := (hi - lo) / (hi + lo);
    assert r * (hi + lo) == hi - lo;
    if r >= 1.0 {
      ScaleMonotone(r, 1.0, hi + lo);
    }
  }

  lemma ScaleMonotone(a: real, b: real, c: real)
    requires a >= b && c >= 0.0
    ensures a * c >= b * c
  {
    assert a * c - b * c == (a - b) * c;
  }

  /** `determineTemporalLayer`. */
  function DetermineLayer(stability: real): TemporalLayer
  {
    if stability < PastBelow then Past else if stability > FutureAbove then Future else Present
  }

  /** Past below 0.3, future above 0.7, present in between with both
      bounds included; and the layer never goes back as stability grows. */
  lemma LayerThresholds(stability: real, higher: real)
    ensures DetermineLayer(stability) == Past <==> stability < 0.3
    ensures DetermineLayer(stability) == Future <==> stability > 0.7
    ensures DetermineLayer(stability) == Present <==> 0.3 <= stability <= 0.7
    ensures DetermineLayer(0.3) == Present && DetermineLayer(0.7) == Present
    ensures stability <= higher && DetermineLayer(stability) == Future ==> DetermineLayer(higher) == Future
    ensures stability <= higher && DetermineLayer(higher) == Past ==> DetermineLayer(stability) == Past
  {
  }

  /** `calculateEnergyLevel`: the mean of the signature scaled by
      `1 + (bias - 0.5)`, clamped to [0, 1.5]. */
  function EnergyLevel(signature: seq<real>, temporalBias: real): real
    requires |signature| > 0
  {
    Clamp(Mean(signature) * (1.0 + (temporalBias - 0.5)), 0.0, MaxEnergy)
  }

  /** The energy level lies in [0, 1.5]; with the neutral bias 0.5 it is
      the mean itself whenever the mean lies in that range. */
  lemma EnergyLevelRange(signature: seq<real>, temporalBias: real)
    requires |signature| > 0
    ensures 0.0 <= EnergyLevel(signature, temporalBias) <= MaxEnergy
    ensures temporalBias == 0.5 && 0.0 <= Mean(signature) <= MaxEnergy ==>
      EnergyLevel(signature, temporalBias) == Mean(signature)
  {
  }

  /** `1 - |temporalDissonance|`. */
  function TemporalStability(temporalDissonance: real): real
  {
    1.0 - (if temporalDissonance < 0.0 then -temporalDissonance else temporalDissonance)
  }

  // ---------------------------------------------------------------------
  // processPatterns

  /** `quantumProcessor.processPatterns`. */
  function ProcessPatterns(patterns: QuantumPattern, energyPatterns: seq<real>, neuralState: NeuralState)
    : ProcessedTheme
    requires |patterns.energySignature| > 0 && ResonanceDefined(energyPatterns)
  {
    var coherence := Coherence(patterns.energySignature);
    ProcessedTheme(if coherence > HolographicAbove then Holographic else Cyberpunk,
                   Resonance(energyPatterns),
                   DetermineLayer(TemporalStability(neuralState.temporalDissonance)),
                   EnergyLevel(patterns.energySignature, neuralState.temporalBias))
  }

  /** The theme derived: holographic exactly when coherence exceeds 0.7;
      the entanglement is the resonance; the layer is that of the
      stability `1 - |dissonance|` (so the dissonance's sign does not
      matter); the energy lies in [0, 1.5]. */
  lemma ProcessPatternsEffect(patterns: QuantumPattern, energyPatterns: seq<real>, neuralState: NeuralState)
    requires |patterns.energySignature| > 0 && ResonanceDefined(energyPatterns)
    ensures var t := ProcessPatterns(patterns, energyPatterns, neuralState);
      && (t.base == Holographic <==> Coherence(patterns.energySignature) > 0.7)
      && (t.base == Cyberpunk <==> Coherence(patterns.energySignature) <= 0.7)
      && t.quantumEntanglement == Resonance(energyPatterns)
      && TemporalStability(neuralState.temporalDissonance) <= 1.0
      && TemporalStability(neuralState.temporalDissonance) == TemporalStability(-neuralState.temporalDissonance)
      && t.temporalLayer == DetermineLayer(TemporalStability(neuralState.temporalDissonance))
      && 0.0 <= t.energyLevel <= MaxEnergy
  {
  }

  /** A signature whose values are all the same is fully coherent, so the
      base is holographic; no dissonance puts the theme in the future and
      a dissonance beyond 0.7 either way in the past. */
  lemma {:induction false} SteadySignatureIsHolographic(patterns: QuantumPattern, energyPatterns: seq<real>,
                                                        neuralState: NeuralState)
    requires |patterns.energySignature| > 0 && ResonanceDefined(energyPatterns)
    requires forall i :: 0 <= i < |patterns.energySignature| ==>
      patterns.energySignature[i] == patterns.energySignature[0]
    ensures ProcessPatterns(patterns, energyPatterns, neuralState).base == Holographic
    ensures neuralState.temporalDissonance == 0.0 ==>
      ProcessPatterns(patterns, energyPatterns, neuralState).temporalLayer == Future
    ensures (neuralState.temporalDissonance > 0.7 || neuralState.temporalDissonance < -0.7) ==>
      ProcessPatterns(patterns, energyPatterns, neuralState).temporalLayer == Past
  {
    CoherenceBounds(patterns.energySignature);
  }
}
