/**
 * The ten read-only sensors of a vehicle (sensor.py). Each `native_value` is a
 * nested lookup in the vehicle record; each is specified here by the `Path`
 * it reads and the value it falls back to.
 */
module Sensor {
  import opened Json
  import opened Entity

  datatype SensorKind =
    | BatteryLevel | RangeElectric | RangeTotal | Mileage | ChargingPower
    | ChargingTime | Consumption | TemperatureExterior | ChargeThresholdLevel | LastUpdate

  /** The suffix each sensor appends to the VIN for its unique id. */
  function Suffix(kind: SensorKind): string {
    match kind
    case BatteryLevel => "_battery_level"
    case RangeElectric => "_range_electric"
    case RangeTotal => "_range_total"
    case Mileage => "_mileage"
    case ChargingPower => "_charging_power"
    case ChargingTime => "_charging_time"
    case Consumption => "_consumption"
    case TemperatureExterior => "_temperature_exterior"
    case ChargeThresholdLevel => "_charge_threshold"
    case LastUpdate => "_last_update"
  }

  function SensorUniqueId(vin: string, kind: SensorKind): string {
    UniqueId(vin, Suffix(kind))
  }

  /** For a fixed VIN, the ten sensors have ten different unique ids. */
  lemma SensorUniqueIdsDistinct(vin: string, kind1: SensorKind, kind2: SensorKind)
    requires kind1 != kind2
    ensures SensorUniqueId(vin, kind1) != SensorUniqueId(vin, kind2)
  {
    if SensorUniqueId(vin, kind1) == SensorUniqueId(vin, kind2) {
      UniqueIdInjective(vin, Suffix(kind1), Suffix(kind2));
      assert false;
    }
  }

  /** Battery level: `energy[0].level`, None when absent. */
  function BatteryLevelValue(rec: Record): (r: Json)
    requires EnergyReadable(rec)
    ensures r == PathOr(Obj(rec), EnergyPath(0, "level"), Null)
  {
    Get(FirstEnergy(rec), "level", Null)
  }

  /** Electric range: `energy[0].autonomy`, None when absent. */
  function ElectricRangeValue(rec: Record): (r: Json)
    requires EnergyReadable(rec)
    ensures r == PathOr(Obj(rec), EnergyPath(0, "autonomy"), Null)
  {
    Get(FirstEnergy(rec), "autonomy", Null)
  }

  /** The electric part of the total range: the first autonomy, or 0 when falsy. */
  function ElectricPart(rec: Record): (r: Json)
    requires EnergyReadable(rec)
    ensures var a := PathOr(Obj(rec), EnergyPath(0, "autonomy"), Int(0));
      (Truthy(a) ==> r == a) && (!Truthy(a) ==> r == Int(0))
  {
    var autonomy := Get(FirstEnergy(rec), "autonomy", Int(0));
    if Truthy(autonomy) then autonomy else Int(0)
  }

  predicate SecondEnergyReadable(rec: Record) {
    EnergyReadable(rec) && (EnergyCount(rec) > 1 ==> rec["energy"].items[1].Obj?)
  }

  /** The fuel part: the second autonomy (default 0), counted only with more than one entry. */
  function FuelPart(rec: Record): (r: Json)
    requires SecondEnergyReadable(rec)
    ensures EnergyCount(rec) > 1 ==> r == PathOr(Obj(rec), EnergyPath(1, "autonomy"), Int(0))
    ensures EnergyCount(rec) <= 1 ==> r == Int(0)
  {
    EnergyPathAt(rec, 1, "autonomy");
    if EnergyCount(rec) > 1 then Get(rec["energy"].items[1].fields, "autonomy", Int(0)) else Int(0)
  }

  /** Total range neither indexes out of range nor adds values `+` rejects
      (an `autonomy: None` beside a non-zero range raises TypeError). */
  predicate TotalRangeReadable(rec: Record) {
    && SecondEnergyReadable(rec)
    && (Truthy(ElectricPart(rec)) || Truthy(FuelPart(rec)) ==> Addable(ElectricPart(rec), FuelPart(rec)))
  }

  /** Total range: electric plus fuel part, None when both are 0 or absent. */
  function TotalRangeValue(rec: Record): (r: Json)
    requires TotalRangeReadable(rec)
    ensures r.Null? <==> !Truthy(ElectricPart(rec)) && !Truthy(FuelPart(rec))
    ensures !r.Null? ==> r == Add(ElectricPart(rec), FuelPart(rec))
  {
    var electric := ElectricPart(rec);
    var fuel := FuelPart(rec);
    if Truthy(electric) || Truthy(fuel) then Add(electric, fuel) else Null
  }

  /** With two integer autonomies (absent counts as 0), the total is their sum,
      or None when both are 0. */
  lemma TotalRangeOfIntegers(rec: Record, electric: int, fuel: int)
    requires SecondEnergyReadable(rec) && EnergyCount(rec) > 1
    requires PathOr(Obj(rec), EnergyPath(0, "autonomy"), Int(0)) == Int(electric)
    requires PathOr(Obj(rec), EnergyPath(1, "autonomy"), Int(0)) == Int(fuel)
    ensures TotalRangeReadable(rec)
    ensures TotalRangeValue(rec) == if electric == 0 && fuel == 0 then Null else Int(electric + fuel)
  {
    assert ElectricPart(rec) == Int(electric);
    assert FuelPart(rec) == Int(fuel);
  }

  /** With a single energy entry the fuel part does not count: the total is the
      electric range, or None when that is 0 or absent. */
  lemma TotalRangeSingleEntry(rec: Record, electric: int)
    requires EnergyReadable(rec) && EnergyCount(rec) <= 1
    requires PathOr(Obj(rec), EnergyPath(0, "autonomy"), Int(0)) == Int(electric)
    ensures TotalRangeReadable(rec)
    ensures TotalRangeValue(rec) == if electric == 0 then Null else ElectricRangeValue(rec)
  {
  }

  predicate OdometerReadable(rec: Record) {
    SubReadable(rec, "odometer")
  }

  /** Mileage: `odometer.mileage`, None when absent. */
  function MileageValue(rec: Record): (r: Json)
    requires OdometerReadable(rec)
    ensures r == PathOr(Obj(rec), [Key("odometer"), Key("mileage")], Null)
  {
    Get(Sub(rec, "odometer"), "mileage", Null)
  }

  /** Charging power: the rate while charging is in progress, 0 otherwise. */
  function ChargingPowerValue(rec: Record): (r: Json)
    requires ChargingReadable(rec)
    ensures PathOr(Obj(rec), ChargingPath("status"), Null) == Str("InProgress") ==>
      r == PathOr(Obj(rec), ChargingPath("rate"), Null)
    ensures PathOr(Obj(rec), ChargingPath("status"), Null) != Str("InProgress") ==> r == Int(0)
  {
    if ChargingStatus(rec) == Str("InProgress") then Get(Charging(rec), "rate", Null) else Int(0)
  }

  /** Charging time: the remaining time while charging is in progress, None otherwise. */
  function ChargingTimeValue(rec: Record): (r: Json)
    requires ChargingReadable(rec)
    ensures PathOr(Obj(rec), ChargingPath("status"), Null) == Str("InProgress") ==>
      r == PathOr(Obj(rec), ChargingPath("remaining_time"), Null)
    ensures PathOr(Obj(rec), ChargingPath("status"), Null) != Str("InProgress") ==> r == Null
  {
    if ChargingStatus(rec) == Str("InProgress") then Get(Charging(rec), "remaining_time", Null) else Null
  }

  predicate EnvironmentReadable(rec: Record) {
    SubReadable(rec, "environment")
  }

  /** Average consumption: `environment.consumption`. */
  function ConsumptionValue(rec: Record): (r: Json)
    requires EnvironmentReadable(rec)
    ensures r == PathOr(Obj(rec), [Key("environment"), Key("consumption")], Null)
  {
    Get(Sub(rec, "environment"), "consumption", Null)
  }

  /** Exterior temperature: `environment.temperature`. */
  function ExteriorTemperatureValue(rec: Record): (r: Json)
    requires EnvironmentReadable(rec)
    ensures r == PathOr(Obj(rec), [Key("environment"), Key("temperature")], Null)
  {
    Get(Sub(rec, "environment"), "temperature", Null)
  }

  /** Charge threshold: `charging.charge_threshold`, 100 when absent. */
  function ChargeThresholdValue(rec: Record): (r: Json)
    requires ChargingReadable(rec)
    ensures r == PathOr(Obj(rec), ChargingPath("charge_threshold"), Int(100))
  {
    ChargeThreshold(rec)
  }

  /** Last update: the record's top-level `updatedAt`. */
  function LastUpdateValue(rec: Record): (r: Json)
    ensures r == PathOr(Obj(rec), [Key("updatedAt")], Null)
  {
    PathKey(Obj(rec), "updatedAt", []);
    Get(rec, "updatedAt", Null)
  }

  /** A VIN the coordinator has no record for reads as `{}`: every sensor is
      None, except charging power (0) and the threshold (100). */
  lemma EmptyRecordSensors()
    ensures BatteryLevelValue(map[]) == Null && ElectricRangeValue(map[]) == Null
    ensures TotalRangeReadable(map[]) && TotalRangeValue(map[]) == Null
    ensures MileageValue(map[]) == Null && ConsumptionValue(map[]) == Null
    ensures ExteriorTemperatureValue(map[]) == Null && LastUpdateValue(map[]) == Null
    ensures ChargingPowerValue(map[]) == Int(0) && ChargingTimeValue(map[]) == Null
    ensures ChargeThresholdValue(map[]) == Int(100)
  {
  }
}
