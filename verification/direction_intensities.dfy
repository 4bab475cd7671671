/**
 Direction intensities from the gyroscope: the x rate splits into forward and
 backward, the y rate into left and right, each normalized by 5000.
 */
module DirectionIntensities {
  import opened RealMath

  /** Divisor that brings gyroscope rates into the plotted range. */
  const NormalizationFactor: real := 5000.0

  /** Intensities per direction, before rounding to two decimals. */
  datatype Intensities = Intensities(forward: real, backward: real, left: real, right: real)

  /**
   `calculate_direction_intensities` on gyroscope rates `g` (the z rate is
   not used): a negative x rate is forward motion, a positive one backward; a
   positive y rate is left motion, a negative one right.
   */
  function CalculateDirectionIntensities(g: Vec3): (r: Intensities)
    ensures 0.0 <= r.forward && 0.0 <= r.backward && 0.0 <= r.left && 0.0 <= r.right
    ensures r.forward == 0.0 || r.backward == 0.0
    ensures r.left == 0.0 || r.right == 0.0
    ensures 0.0 < r.forward <==> g.x < 0.0
    ensures 0.0 < r.backward <==> 0.0 < g.x
    ensures 0.0 < r.left <==> 0.0 < g.y
    ensures 0.0 < r.right <==> g.y < 0.0
    ensures (r.backward - r.forward) * NormalizationFactor == g.x
    ensures (r.left - r.right) * NormalizationFactor == g.y
  {
    Intensities(
      Max(0.0, -g.x) / NormalizationFactor,
      Max(0.0, g.x) / NormalizationFactor,
      Max(0.0, g.y) / NormalizationFactor,
      Max(0.0, -g.y) / NormalizationFactor)
  }

  /** The x and y rates an intensity reading stands for. */
  function Rates(i: Intensities): (real, real) {
    ((i.backward - i.forward) * NormalizationFactor, (i.left - i.right) * NormalizationFactor)
  }

  /** Before rounding, the intensities lose nothing of the x and y rates. */
  lemma RatesRoundTrip(g: Vec3)
    ensures Rates(CalculateDirectionIntensities(g)) == (g.x, g.y)
  {
  }

  /** Each intensity is the magnitude of its rate component over 5000. */
  lemma IntensityMagnitudes(g: Vec3)
    ensures var r := CalculateDirectionIntensities(g);
      r.forward + r.backward == Abs(g.x) / NormalizationFactor
      && r.left + r.right == Abs(g.y) / NormalizationFactor
  {
  }
}
