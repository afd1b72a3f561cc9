/**
 * The charging and climate switches (switch.py). Their states are lookups in
 * the vehicle record; turning them on or off issues one client command and
 * then asks the coordinator for a refresh, whatever the command returned.
 */
module Switch {
  import opened Json
  import opened Entity
  import Api
  import BinarySensor

  /** The charging switch is on iff the charging status is "InProgress". */
  function ChargingSwitchIsOn(rec: Record): (r: bool)
    requires ChargingReadable(rec)
    ensures r <==> PathOr(Obj(rec), ChargingPath("status"), Null) == Str("InProgress")
  {
    ChargingStatus(rec) == Str("InProgress")
  }

  /** The charging switch is available iff the car is plugged (False when absent). */
  function ChargingSwitchAvailable(rec: Record): (r: Json)
    requires ChargingReadable(rec)
    ensures r == PathOr(Obj(rec), ChargingPath("plugged"), Bool(false))
  {
    Plugged(rec)
  }

  /** The climate switch is on iff the air-conditioning status is "Enabled" or "InProgress". */
  function ClimateSwitchIsOn(rec: Record): (r: bool)
    requires ClimateReadable(rec)
    ensures r <==> PathOr(Obj(rec), AirConditioningPath("status"), Null) in {Str("Enabled"), Str("InProgress")}
  {
    ClimateActive(rec)
  }

  /** Each switch shows the same state as the binary sensor for the same thing. */
  lemma SwitchesAgreeWithBinarySensors(rec: Record)
    requires ChargingReadable(rec) && ClimateReadable(rec)
    ensures ChargingSwitchIsOn(rec) == BinarySensor.ChargingIsOn(rec)
    ensures ClimateSwitchIsOn(rec) == BinarySensor.ClimateIsOn(rec)
    ensures ChargingSwitchAvailable(rec) == BinarySensor.PluggedIsOn(rec)
  {
  }

  /** Turning charging on: start charging, then request a refresh. */
  function ChargingTurnOn(vin: string): (r: seq<Action>)
    ensures Calls(r) == [Api.StartCharge(vin)] && |r| == 2 && r[|r| - 1] == RequestRefresh
  {
    CommandThenRefresh(Api.StartCharge(vin));
    [Call(Api.StartCharge(vin)), RequestRefresh]
  }

  /** Turning charging off: stop charging, then request a refresh. */
  function ChargingTurnOff(vin: string): (r: seq<Action>)
    ensures Calls(r) == [Api.StopCharge(vin)] && |r| == 2 && r[|r| - 1] == RequestRefresh
  {
    CommandThenRefresh(Api.StopCharge(vin));
    [Call(Api.StopCharge(vin)), RequestRefresh]
  }

  /** Turning climate on always asks for 21.0 degrees, then requests a refresh. */
  function ClimateTurnOn(vin: string): (r: seq<Action>)
    ensures Calls(r) == [Api.StartClimate(vin, 21.0)] && |r| == 2 && r[|r| - 1] == RequestRefresh
  {
    CommandThenRefresh(Api.StartClimate(vin, 21.0));
    [Call(Api.StartClimate(vin, 21.0)), RequestRefresh]
  }

  /** Turning climate off: stop climate, then request a refresh. */
  function ClimateTurnOff(vin: string): (r: seq<Action>)
    ensures Calls(r) == [Api.StopClimate(vin)] && |r| == 2 && r[|r| - 1] == RequestRefresh
  {
    CommandThenRefresh(Api.StopClimate(vin));
    [Call(Api.StopClimate(vin)), RequestRefresh]
  }

  /** Turning climate on posts to the climate-start endpoint with 21.0 degrees. */
  lemma ClimateTurnOnEndpoint(vin: string)
    ensures Api.CommandEndpoint(Calls(ClimateTurnOn(vin))[0]) == Api.ClimateStartPath(vin, 21.0)
  {
  }
}
