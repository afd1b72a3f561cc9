/**
 * The charge-threshold and climate-temperature controls (number.py). Their
 * values are defaulted lookups; setting one issues one client command and
 * then requests a refresh, whatever the command returned.
 */
module Number {
  import opened Json
  import opened Entity
  import Api
  import Sensor

  /** The range the threshold control declares. */
  const ThresholdMin: int := 50
  const ThresholdMax: int := 100
  const ThresholdStep: int := 5

  /** The range the climate-temperature control declares. */
  const ClimateMin: real := 16.0
  const ClimateMax: real := 28.0
  const ClimateStep: real := 0.5

  /** The threshold control shows `charge_threshold`, 100 when absent. */
  function ThresholdValue(rec: Record): (r: Json)
    requires ChargingReadable(rec)
    ensures r == PathOr(Obj(rec), ChargingPath("charge_threshold"), Int(100))
  {
    ChargeThreshold(rec)
  }

  /** The threshold control and the threshold sensor always agree. */
  lemma ThresholdAgreesWithSensor(rec: Record)
    requires ChargingReadable(rec)
    ensures ThresholdValue(rec) == Sensor.ChargeThresholdValue(rec)
  {
  }

  /** The climate control shows the air-conditioning temperature, 21.0 when absent. */
  function ClimateTemperatureValue(rec: Record): (r: Json)
    requires ClimateReadable(rec)
    ensures r == PathOr(Obj(rec), AirConditioningPath("temperature"), Real(21.0))
  {
    Get(AirConditioning(rec), "temperature", Real(21.0))
  }

  /** Python's `int(x)` on a float: truncation toward zero. */
  function Truncate(x: real): (r: int)
    ensures 0.0 <= x ==> r as real <= x < r as real + 1.0
    ensures x < 0.0 ==> r as real - 1.0 < x <= r as real
  {
    if x >= 0.0 then x.Floor else -((-x).Floor)
  }

  /** Setting the threshold sends `int(value)` for the VIN, then requests a refresh. */
  function SetThreshold(vin: string, value: real): (r: seq<Action>)
    ensures Calls(r) == [Api.SetChargeThreshold(vin, Truncate(value))]
    ensures |r| == 2 && r[1] == RequestRefresh
  {
    CommandThenRefresh(Api.SetChargeThreshold(vin, Truncate(value)));
    [Call(Api.SetChargeThreshold(vin, Truncate(value))), RequestRefresh]
  }

  /** Every value the threshold control offers (50 to 100 in steps of 5)
      is sent unchanged. */
  lemma ThresholdGridSentExactly(vin: string, k: nat)
    requires ThresholdMin + k * ThresholdStep <= ThresholdMax
    ensures var v := ThresholdMin + k * ThresholdStep;
      Calls(SetThreshold(vin, v as real)) == [Api.SetChargeThreshold(vin, v)]
  {
  }

  /** Setting the temperature starts climate at that temperature, then requests a refresh. */
  function SetTemperature(vin: string, value: real): (r: seq<Action>)
    ensures Calls(r) == [Api.StartClimate(vin, value)]
    ensures |r| == 2 && r[1] == RequestRefresh
  {
    CommandThenRefresh(Api.StartClimate(vin, value));
    [Call(Api.StartClimate(vin, value)), RequestRefresh]
  }

  /** Every value the temperature control offers (16.0 to 28.0 in steps of
      0.5) starts climate at exactly that temperature: unlike the threshold,
      nothing is truncated. */
  lemma ClimateGridSentExactly(vin: string, k: nat)
    requires ClimateMin + k as real * ClimateStep <= ClimateMax
    ensures var v := ClimateMin + k as real * ClimateStep;
      Calls(SetTemperature(vin, v)) == [Api.StartClimate(vin, v)]
  {
  }

  /** Off the whole numbers, the threshold that is sent differs from the
      value chosen: `int()` drops the fraction. */
  lemma ThresholdFractionDropped(vin: string, value: real)
    requires 0.0 <= value && value.Floor as real != value
    ensures Calls(SetThreshold(vin, value)) == [Api.SetChargeThreshold(vin, value.Floor)]
    ensures value.Floor as real < value
  {
  }

  /** The chosen temperature reaches the climate-start endpoint unchanged. */
  lemma SetTemperatureEndpoint(vin: string, value: real)
    ensures Api.CommandEndpoint(Calls(SetTemperature(vin, value))[0]) == Api.ClimateStartPath(vin, value)
  {
  }
}
