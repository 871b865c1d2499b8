/** The numeric outputs of the calculator: recommended pit depth, expected
    resistance and cost estimate. The inputs' lower limits (soil resistivity
    at least 1 ohm-metre, desired resistance at least 0.1 ohm) are the ones
    the input form enforces; the calculation itself has no error path. */
module EarthpitCalc {
  import opened EarthpitTables
  import opened Rounding

  /** The value of math.pi as a decimal literal, taken exactly. */
  const Pi: real := 3.141592653589793

  /** The input form's limits on the two numeric inputs the formulas use.
      Within them both inputs are strictly positive, so the depth formula
      never divides by zero. */
  predicate WithinInputLimits(resistivity: real, desiredResistance: real): (ok: bool)
    ensures ok ==> resistivity > 0.0 && 4.0 * Pi * desiredResistance > 0.0
  {
    resistivity >= 1.0 && desiredResistance >= 0.1
  }

  /** Depth before the pit-type factor:
      resistivity * material factor * soil factor / (4 * pi * desired resistance). */
  function BaseDepth(m: PlateMaterial, s: SoilType, resistivity: real, desiredResistance: real): (d: real)
    requires WithinInputLimits(resistivity, desiredResistance)
    ensures d > 0.0
    ensures d * (4.0 * Pi * desiredResistance) == resistivity * MaterialFactor(m) * SoilFactor(s)
  {
    (resistivity * MaterialFactor(m) * SoilFactor(s)) / (4.0 * Pi * desiredResistance)
  }

  /** The pit depth before rounding to centimetres. */
  function UnroundedDepth(p: PitType, m: PlateMaterial, s: SoilType, resistivity: real, desiredResistance: real): (d: real)
    requires WithinInputLimits(resistivity, desiredResistance)
    ensures 0.0 < d <= BaseDepth(m, s, resistivity, desiredResistance)
    ensures p == Regular ==> d == BaseDepth(m, s, resistivity, desiredResistance)
  {
    BaseDepth(m, s, resistivity, desiredResistance) * DepthFactor(p)
  }

  /** Recommended pit depth in metres, rounded to two decimals. */
  function PitDepth(p: PitType, m: PlateMaterial, s: SoilType, resistivity: real, desiredResistance: real): (d: real)
    requires WithinInputLimits(resistivity, desiredResistance)
    ensures d >= 0.0
    ensures UnroundedDepth(p, m, s, resistivity, desiredResistance) - 0.005 <= d
    ensures d <= UnroundedDepth(p, m, s, resistivity, desiredResistance) + 0.005
  {
    Round2(UnroundedDepth(p, m, s, resistivity, desiredResistance))
  }

  /** With everything else fixed, a higher soil resistivity never asks for
      a deeper pit, before rounding. */
  lemma UnroundedDepthMonotoneInResistivity(p: PitType, m: PlateMaterial, s: SoilType, r1: real, r2: real, desiredResistance: real)
    requires WithinInputLimits(r1, desiredResistance) && r1 <= r2
    ensures UnroundedDepth(p, m, s, r1, desiredResistance) <= UnroundedDepth(p, m, s, r2, desiredResistance)
  {
    // Numerator and denominator of the base depth for the two resistivities.
    var q := 4.0 * Pi * desiredResistance;
    var n1, n2 := r1 * MaterialFactor(m) * SoilFactor(s), r2 * MaterialFactor(m) * SoilFactor(s);
    // Both factors are positive, so the numerators keep the order of r1, r2.
    MulMonotone(r1, r2, MaterialFactor(m));
    MulMonotone(r1 * MaterialFactor(m), r2 * MaterialFactor(m), SoilFactor(s));
    DivMonotone(n1, n2, q);
    assert BaseDepth(m, s, r1, desiredResistance) == n1 / q;
    assert BaseDepth(m, s, r2, desiredResistance) == n2 / q;
    MulMonotone(n1 / q, n2 / q, DepthFactor(p));
  }

  /** With everything else fixed, a higher desired resistance never asks for
      a deeper pit, before rounding. */
  lemma UnroundedDepthAntitoneInDesired(p: PitType, m: PlateMaterial, s: SoilType, resistivity: real, d1: real, d2: real)
    requires WithinInputLimits(resistivity, d1) && d1 <= d2
    ensures UnroundedDepth(p, m, s, resistivity, d2) <= UnroundedDepth(p, m, s, resistivity, d1)
  {
  }

  // Order facts about multiplying and dividing by non-negative reals.
  lemma MulMonotone(a: real, b: real, k: real)
    requires a <= b && k >= 0.0
    ensures a * k <= b * k
  {
  }

  lemma DivMonotone(a: real, b: real, q: real)
    requires a <= b && q > 0.0
    ensures a / q <= b / q
  {
  }

  /** The rounded depth inherits monotonicity in the soil resistivity. */
  lemma PitDepthMonotoneInResistivity(p: PitType, m: PlateMaterial, s: SoilType, r1: real, r2: real, desiredResistance: real)
    requires WithinInputLimits(r1, desiredResistance) && r1 <= r2
    ensures PitDepth(p, m, s, r1, desiredResistance) <= PitDepth(p, m, s, r2, desiredResistance)
  {
    UnroundedDepthMonotoneInResistivity(p, m, s, r1, r2, desiredResistance);
    Round2Monotone(UnroundedDepth(p, m, s, r1, desiredResistance), UnroundedDepth(p, m, s, r2, desiredResistance));
  }

  /** The rounded depth inherits antitonicity in the desired resistance. */
  lemma PitDepthAntitoneInDesired(p: PitType, m: PlateMaterial, s: SoilType, resistivity: real, d1: real, d2: real)
    requires WithinInputLimits(resistivity, d1) && d1 <= d2
    ensures PitDepth(p, m, s, resistivity, d2) <= PitDepth(p, m, s, resistivity, d1)
  {
    UnroundedDepthAntitoneInDesired(p, m, s, resistivity, d1, d2);
    Round2Monotone(UnroundedDepth(p, m, s, resistivity, d2), UnroundedDepth(p, m, s, resistivity, d1));
  }

  /** The displayed "expected resistance": the desired resistance scaled by
      the pit's depth factor and rounded to two decimals. It never exceeds
      the desired resistance rounded the same way, and equals it for a
      regular pit. */
  function ExpectedResistance(p: PitType, desiredResistance: real): (e: real)
    requires desiredResistance >= 0.1
    ensures 0.0 <= e <= Round2(desiredResistance)
    ensures p == Regular ==> e == Round2(desiredResistance)
  {
    Round2Monotone(desiredResistance * DepthFactor(p), desiredResistance);
    Round2(desiredResistance * DepthFactor(p))
  }

  /** Before rounding, the expected resistance is at most the desired one,
      for every pit type. */
  lemma UnroundedExpectedResistanceBound(p: PitType, desiredResistance: real)
    requires desiredResistance >= 0.1
    ensures 0.0 < desiredResistance * DepthFactor(p) <= desiredResistance
  {
  }

  /** Depth-dependent cost: 1000 rupees per metre of (rounded) depth. */
  function DepthCost(pitDepth: real): (c: real)
    requires pitDepth >= 0.0
    ensures c >= 0.0
    ensures c == 0.0 <==> pitDepth == 0.0
  {
    pitDepth * 1000.0
  }

  /** Estimated total cost: the base cost plus the depth cost scaled by the
      soil's complexity. The depth-dependent surcharge is never negative and
      is at least the depth cost itself, since the complexity is at least 1. */
  function TotalCost(p: PitType, m: PlateMaterial, s: SoilType, resistivity: real, desiredResistance: real): (c: real)
    requires WithinInputLimits(resistivity, desiredResistance)
    ensures c >= BaseCost(p, m) as real
    ensures c - BaseCost(p, m) as real >= DepthCost(PitDepth(p, m, s, resistivity, desiredResistance))
    ensures s == Loamy ==> c == BaseCost(p, m) as real + DepthCost(PitDepth(p, m, s, resistivity, desiredResistance))
  {
    var depthCost := DepthCost(PitDepth(p, m, s, resistivity, desiredResistance));
    assert depthCost * SoilComplexity(s) >= depthCost * 1.0;
    BaseCost(p, m) as real + depthCost * SoilComplexity(s)
  }

  /** A higher resistivity never lowers the estimated total cost. */
  lemma TotalCostMonotoneInResistivity(p: PitType, m: PlateMaterial, s: SoilType, r1: real, r2: real, desiredResistance: real)
    requires WithinInputLimits(r1, desiredResistance) && r1 <= r2
    ensures TotalCost(p, m, s, r1, desiredResistance) <= TotalCost(p, m, s, r2, desiredResistance)
  {
    PitDepthMonotoneInResistivity(p, m, s, r1, r2, desiredResistance);
    var d1, d2 := PitDepth(p, m, s, r1, desiredResistance), PitDepth(p, m, s, r2, desiredResistance);
    assert DepthCost(d1) * SoilComplexity(s) <= DepthCost(d2) * SoilComplexity(s);
  }

  /** A higher desired resistance never raises the estimated total cost. */
  lemma TotalCostAntitoneInDesired(p: PitType, m: PlateMaterial, s: SoilType, resistivity: real, d1: real, d2: real)
    requires WithinInputLimits(resistivity, d1) && d1 <= d2
    ensures TotalCost(p, m, s, resistivity, d2) <= TotalCost(p, m, s, resistivity, d1)
  {
    PitDepthAntitoneInDesired(p, m, s, resistivity, d1, d2);
    var e1, e2 := PitDepth(p, m, s, resistivity, d1), PitDepth(p, m, s, resistivity, d2);
    assert DepthCost(e2) * SoilComplexity(s) <= DepthCost(e1) * SoilComplexity(s);
  }

  /** The form's default inputs (100 ohm-metres, 5 ohms, regular pit,
      galvanized-iron plate, loamy soil): 100 / (20 pi) = 1.5915... metres,
      shown as 1.59, for a total of 15000 + 1590 = 16590 rupees. */
  lemma DefaultScenario()
    ensures PitDepth(Regular, GalvanizedIron, Loamy, 100.0, 5.0) == 1.59
    ensures TotalCost(Regular, GalvanizedIron, Loamy, 100.0, 5.0) == 16590.0
  {
    var y := UnroundedDepth(Regular, GalvanizedIron, Loamy, 100.0, 5.0) * 100.0;
    assert y == 500.0 / Pi;
    assert 159.0 <= y < 159.5;
    assert y.Floor == 159;
    assert RoundHalfEven(y) == 159;
  }
}
