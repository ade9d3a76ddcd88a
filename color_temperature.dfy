/** `blackbody_to_rgb`: the piecewise-linear Kelvin to RGB approximation. */
module ColorTemperature {
  import opened LightDescriptors

  /**
   * The colour of a light of the given temperature in Kelvin. Red is always full; up to
   * 4000 K blue rises twice as fast as green from (0.7, 0.4) at 2700 K; above it green is
   * full and blue gains 0.2 per 2500 K from 0.8. Nothing is clamped.
   */
  function BlackbodyToRgb(temperature: real): (c: Rgb)
    ensures c.r == 1.0
    ensures temperature <= 4000.0 ==> c.b - 0.4 == 2.0 * (c.g - 0.7)
    ensures temperature <= 4000.0 ==> 1300.0 * (c.g - 0.7) == 0.3 * (temperature - 2700.0)
    ensures temperature > 4000.0 ==> c.g == 1.0 && 2500.0 * (c.b - 0.8) == 0.2 * (temperature - 4000.0)
  {
    if temperature <= 4000.0 then
      Rgb(1.0,
          0.7 + 0.3 * (temperature - 2700.0) / 1300.0,
          0.4 + 0.6 * (temperature - 2700.0) / 1300.0)
    else
      Rgb(1.0, 1.0, 0.8 + 0.2 * (temperature - 4000.0) / 2500.0)
  }

  /** The temperature bands the generator draws from. */
  datatype Band = Band(low: real, high: real)

  const Warm := Band(2700.0, 3500.0)
  const Neutral := Band(4000.0, 5500.0)
  const Cool := Band(6000.0, 7500.0)

  predicate InBand(t: real, band: Band) {
    band.low <= t <= band.high
  }

  /** Red is full whatever the temperature, inside or outside the bands. */
  lemma RedIsAlwaysFull(t: real)
    ensures BlackbodyToRgb(t).r == 1.0
  {
  }

  /** The three anchor colours: 2700 K, the 4000 K edge of the lower branch, 6500 K. */
  lemma AnchorColors()
    ensures BlackbodyToRgb(2700.0) == Rgb(1.0, 0.7, 0.4)
    ensures BlackbodyToRgb(4000.0) == Rgb(1.0, 1.0, 1.0)
    ensures BlackbodyToRgb(6500.0) == Rgb(1.0, 1.0, 1.0)
  {
  }

  /**
   * The `<=` test puts 4000 K in the lower branch, which ends at full blue; just
   * above it the upper branch starts again at 0.8, so blue drops at 4000 K and only
   * climbs back to 1.0 at 6500 K.
   */
  lemma BlueDropsAbove4000(t: real)
    requires 4000.0 < t < 6500.0
    ensures BlackbodyToRgb(t).b < BlackbodyToRgb(4000.0).b
    ensures 0.8 < BlackbodyToRgb(t).b
  {
  }

  /** Without clamping, blue exceeds 1 above 6500 K, reaching 1.08 at the top of the cool band. */
  lemma BlueExceedsOneAbove6500(t: real)
    ensures t > 6500.0 ==> BlackbodyToRgb(t).b > 1.0
    ensures BlackbodyToRgb(Cool.high).b == 1.08
  {
  }

  /** Colours of the three bands: green and blue stay within these bounds. */
  lemma BandColors(t: real)
    ensures InBand(t, Warm) ==>
      0.7 <= BlackbodyToRgb(t).g < 1.0 && 0.4 <= BlackbodyToRgb(t).b < 1.0
    ensures InBand(t, Neutral) ==>
      BlackbodyToRgb(t).g == 1.0 && 0.8 <= BlackbodyToRgb(t).b <= 1.0
    ensures InBand(t, Cool) ==>
      BlackbodyToRgb(t).g == 1.0 && 0.96 <= BlackbodyToRgb(t).b <= 1.08
  {
  }

  /** Within each branch both green and blue are non-decreasing in the temperature. */
  lemma MonotoneWithinBranches(s: real, t: real)
    requires s <= t
    requires t <= 4000.0 || 4000.0 < s
    ensures BlackbodyToRgb(s).g <= BlackbodyToRgb(t).g
    ensures BlackbodyToRgb(s).b <= BlackbodyToRgb(t).b
  {
  }
}
