/**
 * The ten binary sensors of a vehicle (binary_sensor.py): equality and
 * membership tests on nested lookups of the vehicle record.
 */
module BinarySensor {
  import opened Json
  import opened Entity

  /** The four doors, the hood and the trunk, by the `doors` field they read. */
  datatype Opening = Driver | Passenger | RearLeft | RearRight | Hood | Trunk

  function OpeningField(o: Opening): string {
    match o
    case Driver => "driver"
    case Passenger => "passenger"
    case RearLeft => "rear_left"
    case RearRight => "rear_right"
    case Hood => "hood"
    case Trunk => "trunk"
  }

  datatype BinarySensorKind =
    | ChargingSensor | PluggedSensor | DoorsLockedSensor | OpeningSensor(opening: Opening) | ClimateSensor

  function Suffix(kind: BinarySensorKind): string {
    match kind
    case ChargingSensor => "_charging"
    case PluggedSensor => "_plugged"
    case DoorsLockedSensor => "_doors_locked"
    case OpeningSensor(Driver) => "_door_driver"
    case OpeningSensor(Passenger) => "_door_passenger"
    case OpeningSensor(RearLeft) => "_door_rear_left"
    case OpeningSensor(RearRight) => "_door_rear_right"
    case OpeningSensor(Hood) => "_hood"
    case OpeningSensor(Trunk) => "_trunk"
    case ClimateSensor => "_climate"
  }

  /** For a fixed VIN, the ten binary sensors have ten different unique ids. */
  lemma BinarySensorUniqueIdsDistinct(vin: string, kind1: BinarySensorKind, kind2: BinarySensorKind)
    requires kind1 != kind2
    ensures UniqueId(vin, Suffix(kind1)) != UniqueId(vin, Suffix(kind2))
  {
    if UniqueId(vin, Suffix(kind1)) == UniqueId(vin, Suffix(kind2)) {
      UniqueIdInjective(vin, Suffix(kind1), Suffix(kind2));
      assert false;
    }
  }

  /** Charging: on iff the charging status is "InProgress". */
  function ChargingIsOn(rec: Record): (r: bool)
    requires ChargingReadable(rec)
    ensures r <==> PathOr(Obj(rec), ChargingPath("status"), Null) == Str("InProgress")
  {
    ChargingStatus(rec) == Str("InProgress")
  }

  /** Plugged: the raw `plugged` value, False when absent. */
  function PluggedIsOn(rec: Record): (r: Json)
    requires ChargingReadable(rec)
    ensures r == PathOr(Obj(rec), ChargingPath("plugged"), Bool(false))
  {
    Plugged(rec)
  }

  /** "Doors locked": on iff the AIR-CONDITIONING status is "Enabled"; no lock field is read. */
  function DoorsLockedIsOn(rec: Record): (r: bool)
    requires ClimateReadable(rec)
    ensures r <==> PathOr(Obj(rec), AirConditioningPath("status"), Null) == Str("Enabled")
  {
    ClimateStatus(rec) == Str("Enabled")
  }

  predicate DoorsReadable(rec: Record) {
    SubReadable(rec, "doors")
  }

  /** A door, the hood or the trunk: on iff its field is exactly "Open". */
  function OpeningIsOn(rec: Record, o: Opening): (r: bool)
    requires DoorsReadable(rec)
    ensures r <==> Path(Obj(rec), [Key("doors"), Key(OpeningField(o))]) == Some(Str("Open"))
  {
    Get(Sub(rec, "doors"), OpeningField(o), Null) == Str("Open")
  }

  /** Climate: on iff the air-conditioning status is "Enabled" or "InProgress". */
  function ClimateIsOn(rec: Record): (r: bool)
    requires ClimateReadable(rec)
    ensures r <==> PathOr(Obj(rec), AirConditioningPath("status"), Null) in {Str("Enabled"), Str("InProgress")}
  {
    ClimateActive(rec)
  }

  /** Since both read the climate status, "doors locked" on implies climate on. */
  lemma DoorsLockedImpliesClimate(rec: Record)
    requires ClimateReadable(rec)
    ensures DoorsLockedIsOn(rec) ==> ClimateIsOn(rec)
  {
  }

  /** For an empty record every binary sensor is off. */
  lemma EmptyRecordAllOff(o: Opening)
    ensures !ChargingIsOn(map[]) && PluggedIsOn(map[]) == Bool(false)
    ensures !DoorsLockedIsOn(map[]) && !OpeningIsOn(map[], o) && !ClimateIsOn(map[])
  {
  }
}
