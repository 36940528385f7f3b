/**
 * Calibration of raw 16-bit sensor codes into physical units, in exact real
 * arithmetic (flower-power-history.py evaluates the same polynomials in IEEE doubles).
 * The sunlight power law has a non-integer exponent and is not modelled; only
 * its domain error on a zero code is (see History.DecodeRecord).
 */
module Calibration {

  const MinTemperature: real := -10.0
  const MaxTemperature: real := 55.0

  /** Saturation of a temperature reading to the sensor's valid range. */
  function ClampTemperature(v: real): (r: real)
    ensures MinTemperature <= r <= MaxTemperature
    ensures MinTemperature <= v <= MaxTemperature ==> r == v
    ensures v < MinTemperature ==> r == MinTemperature
    ensures v > MaxTemperature ==> r == MaxTemperature
  {
    if v < MinTemperature then MinTemperature
    else if v > MaxTemperature then MaxTemperature
    else v
  }

  /** The cubic temperature fit, before clamping. */
  function TemperaturePolynomial(raw: nat): real
  {
    var x := raw as real;
    0.00000003044 * x * x * x - 0.00008038 * x * x + 0.1149 * x - 30.449999999999999
  }

  /** Air and soil temperature in degrees Celsius. */
  function Temperature(raw: nat): (r: real)
    ensures MinTemperature <= r <= MaxTemperature
    ensures MinTemperature <= TemperaturePolynomial(raw) <= MaxTemperature ==>
      r == TemperaturePolynomial(raw)
  {
    ClampTemperature(TemperaturePolynomial(raw))
  }

  /** The two-stage soil moisture fit, in percent and unclamped. */
  function SoilMoisture(raw: nat): real
  {
    var x := raw as real;
    var s := 0.0000000010698 * x * x * x * x - 0.00000152538 * x * x * x
             + 0.000866976 * x * x - 0.169422 * x + 11.4293;
    100.0 * (0.0000045 * s * s * s - 0.00055 * s * s + 0.0292 * s - 0.053)
  }
}
