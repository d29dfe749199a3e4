/** The reality distortion engine: a state of coordinates, a quantum state
    and stability metrics, moved by a distortion of some intensity in some
    direction and kept only when the result is stable. Numbers are reals;
    NaN and infinities do not arise. */
module RealityDistortionEngine {
  import opened Common

  datatype Coordinates = Coordinates(x: real, y: real, z: real)
  datatype QuantumState = QuantumState(entanglement: real, coherence: real, energyLevel: real)
  datatype StabilityMetrics = StabilityMetrics(temporalIntegrity: real, realityConsistency: real,
                                               paradoxProbability: real)
  datatype RealityState = RealityState(temporalCoordinates: Coordinates, quantumState: QuantumState,
                                       stabilityMetrics: StabilityMetrics)
  datatype DistortionParams = DistortionParams(intensity: real, direction: Coordinates)

  function Min(a: real, b: real): (m: real)
    ensures m <= a && m <= b && (m == a || m == b)
  {
    if a <= b then a else b
  }

  function Max(a: real, b: real): (m: real)
    ensures m >= a && m >= b && (m == a || m == b)
  {
    if a >= b then a else b
  }

  /** `initializeReality`. */
  const Initial: RealityState :=
    RealityState(Coordinates(0.0, 0.0, 0.0), QuantumState(0.5, 1.0, 0.7), StabilityMetrics(1.0, 1.0, 0.0))

  /** `isStable`: integrity above 0.3, consistency above 0.4 and paradox
      probability below 0.7. */
  predicate IsStable(r: RealityState)
  {
    r.stabilityMetrics.temporalIntegrity > 0.3 &&
    r.stabilityMetrics.realityConsistency > 0.4 &&
    r.stabilityMetrics.paradoxProbability < 0.7
  }

  /** `calculateStabilityMetrics`: the stress is the intensity times the
      entanglement of the state given, and the coherence impact
      `1 - intensity * (1 - coherence)`; integrity never drops below 0 and
      the paradox probability never exceeds 1. */
  function StabilityAfter(r: RealityState, p: DistortionParams): (m: StabilityMetrics)
    ensures m.temporalIntegrity >= 0.0 && m.paradoxProbability <= 1.0
  {
    var stress := p.intensity * r.quantumState.entanglement;
    var coherenceImpact := 1.0 - p.intensity * (1.0 - r.quantumState.coherence);
    StabilityMetrics(Max(0.0, r.stabilityMetrics.temporalIntegrity - stress),
                     r.stabilityMetrics.realityConsistency * coherenceImpact,
                     Min(1.0, r.stabilityMetrics.paradoxProbability + stress * 0.1))
  }

  /** `calculateNewReality`: every coordinate moves by the direction times
      the intensity, entanglement rises (at most to 1), coherence falls (at
      least to 0), energy grows by a fifth of the intensity, and the
      metrics are those computed from the state before the move. */
  function NewReality(r: RealityState, p: DistortionParams): (n: RealityState)
    ensures n.temporalCoordinates.x == r.temporalCoordinates.x + p.direction.x * p.intensity
    ensures n.temporalCoordinates.y == r.temporalCoordinates.y + p.direction.y * p.intensity
    ensures n.temporalCoordinates.z == r.temporalCoordinates.z + p.direction.z * p.intensity
    ensures n.quantumState.entanglement <= 1.0 && n.quantumState.coherence >= 0.0
    ensures n.stabilityMetrics.temporalIntegrity >= 0.0 && n.stabilityMetrics.paradoxProbability <= 1.0
    ensures n.stabilityMetrics == StabilityAfter(r, p)
  {
    var c := r.temporalCoordinates;
    var q := r.quantumState;
    RealityState(
      Coordinates(c.x + p.direction.x * p.intensity, c.y + p.direction.y * p.intensity,
                  c.z + p.direction.z * p.intensity),
      QuantumState(Min(1.0, q.entanglement + p.intensity * 0.1), Max(0.0, q.coherence - p.intensity * 0.05),
                   q.energyLevel * (1.0 + p.intensity * 0.2)),
      StabilityAfter(r, p))
  }

  /** The metrics of the new state depend only on the old state: two
      states with the same metrics, entanglement and coherence give the
      same new metrics, whatever their coordinates and energy. */
  lemma MetricsFromOldState(a: RealityState, b: RealityState, p: DistortionParams)
    requires a.stabilityMetrics == b.stabilityMetrics
    requires a.quantumState.entanglement == b.quantumState.entanglement
    requires a.quantumState.coherence == b.quantumState.coherence
    ensures NewReality(a, p).stabilityMetrics == NewReality(b, p).stabilityMetrics
  {
    var stress := p.intensity * a.quantumState.entanglement;
    assert stress == p.intensity * b.quantumState.entanglement;
    var impact := 1.0 - p.intensity * (1.0 - a.quantumState.coherence);
    assert impact == 1.0 - p.intensity * (1.0 - b.quantumState.coherence);
    assert StabilityAfter(a, p) == StabilityAfter(b, p);
  }

  /** The bounds a reachable state keeps. */
  predicate InBounds(r: RealityState)
  {
    r.quantumState.entanglement <= 1.0 && r.quantumState.coherence >= 0.0 &&
    r.stabilityMetrics.temporalIntegrity >= 0.0 && r.stabilityMetrics.paradoxProbability <= 1.0
  }

  /** A distortion of intensity 0 leaves a state within bounds as it is. */
  lemma ZeroIntensityKeepsState(r: RealityState, direction: Coordinates)
    requires InBounds(r)
    ensures NewReality(r, DistortionParams(0.0, direction)) == r
  {
  }

  /** For a non-negative intensity and entanglement, a distortion never
      raises integrity and never lowers the paradox probability. */
  lemma StressNeverHelps(r: RealityState, p: DistortionParams)
    requires InBounds(r) && p.intensity >= 0.0 && r.quantumState.entanglement >= 0.0
    ensures NewReality(r, p).stabilityMetrics.temporalIntegrity <= r.stabilityMetrics.temporalIntegrity
    ensures NewReality(r, p).stabilityMetrics.paradoxProbability >= r.stabilityMetrics.paradoxProbability
  {
    ProductNonNegative(p.intensity, r.quantumState.entanglement);
  }

  lemma ProductNonNegative(a: real, b: real)
    requires a >= 0.0 && b >= 0.0
    ensures a * b >= 0.0
  {
  }

  /** The initial state is within bounds and stable. */
  lemma InitialStable()
    ensures InBounds(Initial) && IsStable(Initial)
  {
  }

  class Engine {
    var currentReality: RealityState

    /** The engine starts from the initial state. */
    constructor ()
      ensures currentReality == Initial
      ensures IsStable(currentReality) && InBounds(currentReality)
    {
      currentReality := Initial;
    }

    /** `distortReality`: the new state replaces the current one exactly
        when it is stable; otherwise the call fails and nothing changes. So
        the current state is always stable and within bounds. */
    method DistortReality(params: DistortionParams) returns (r: Result<RealityState>)
      modifies this
      ensures var n := NewReality(old(currentReality), params);
        && (IsStable(n) ==> r == Ok(n) && currentReality == n)
        && (!IsStable(n) ==> r.Err? && currentReality == old(currentReality))
      ensures IsStable(old(currentReality)) ==> IsStable(currentReality)
      ensures InBounds(old(currentReality)) ==> InBounds(currentReality)
    {
      var n := NewReality(currentReality, params);
      if IsStable(n) {
        currentReality := n;
        r := Ok(n);
      } else {
        r := Err("Reality distortion would create unstable state");
      }
    }
  }
}
