/**
 * What every entity platform shares: reading sub-objects of a vehicle record
 * the way the entities' nested `.get` chains do, the device description, the
 * unique-id scheme, and the trace of what an entity action does (client
 * commands and refresh requests).
 *
 * A vehicle record is what `get_vehicle_data(vin)` returns. Each accessor
 * requires what the Python chain needs in order not to raise: a `.get` on a
 * value that is not a dict raises AttributeError, `[0]` on an empty list
 * raises IndexError.
 */
module Entity {
  import opened Json
  import Api

  /** `m.get(k)` as an optional value. */
  function Lookup(m: Record, k: string): Option<Json> {
    if k in m then Some(m[k]) else None
  }

  /** `rec.get(key, {})` can be followed by another `.get`. */
  predicate SubReadable(rec: Record, key: string) {
    key !in rec || rec[key].Obj?
  }

  /** `rec.get(key, {})`. */
  function Sub(rec: Record, key: string): (r: Record)
    requires SubReadable(rec, key)
    ensures forall k :: Path(Obj(rec), [Key(key), Key(k)]) == Lookup(r, k)
  {
    assert forall k :: Path(Obj(rec), [Key(key), Key(k)]) == Lookup(Get(rec, key, Obj(map[])).fields, k) by {
      forall k ensures Path(Obj(rec), [Key(key), Key(k)]) == Lookup(Get(rec, key, Obj(map[])).fields, k) {
        PathKey(Obj(rec), key, [Key(k)]);
        if key in rec {
          PathKey(rec[key], k, []);
        }
      }
    }
    Get(rec, key, Obj(map[])).fields
  }

  /** `rec.get("energy", [{}])[0]` neither raises nor yields a non-dict. */
  predicate EnergyReadable(rec: Record) {
    "energy" !in rec ||
      (rec["energy"].Arr? && |rec["energy"].items| > 0 && rec["energy"].items[0].Obj?)
  }

  /** The number of energy entries, `len(rec.get("energy", []))`. */
  function EnergyCount(rec: Record): nat
    requires EnergyReadable(rec)
  {
    if "energy" in rec then |rec["energy"].items| else 0
  }

  function EnergyPath(i: nat, k: string): seq<Step> {
    [Key("energy"), Index(i), Key(k)]
  }

  /** The field `k` of energy entry `i`, when the record has such an entry. */
  lemma EnergyPathAt(rec: Record, i: nat, k: string)
    ensures Path(Obj(rec), EnergyPath(i, k)) ==
      if "energy" in rec && rec["energy"].Arr? && i < |rec["energy"].items| && rec["energy"].items[i].Obj?
      then Lookup(rec["energy"].items[i].fields, k) else None
  {
    PathKey(Obj(rec), "energy", [Index(i), Key(k)]);
    if "energy" in rec {
      PathIndex(rec["energy"], i, [Key(k)]);
      if rec["energy"].Arr? && i < |rec["energy"].items| {
        PathKey(rec["energy"].items[i], k, []);
      }
    }
  }

  /** `rec.get("energy", [{}])[0]`: the first (electric) energy entry. */
  function FirstEnergy(rec: Record): (r: Record)
    requires EnergyReadable(rec)
    ensures forall k :: Path(Obj(rec), EnergyPath(0, k)) == Lookup(r, k)
  {
    var first := Get(rec, "energy", Arr([Obj(map[])])).items[0];
    assert forall k :: Path(Obj(rec), EnergyPath(0, k)) == Lookup(first.fields, k) by {
      forall k ensures Path(Obj(rec), EnergyPath(0, k)) == Lookup(first.fields, k) {
        EnergyPathAt(rec, 0, k);
      }
    }
    first.fields
  }

  predicate ChargingReadable(rec: Record) {
    EnergyReadable(rec) && SubReadable(FirstEnergy(rec), "charging")
  }

  function ChargingPath(k: string): seq<Step> {
    [Key("energy"), Index(0), Key("charging"), Key(k)]
  }

  /** `rec.get("energy", [{}])[0].get("charging", {})`. */
  function Charging(rec: Record): (r: Record)
    requires ChargingReadable(rec)
    ensures forall k :: Path(Obj(rec), ChargingPath(k)) == Lookup(r, k)
  {
    Sub(FirstEnergy(rec), "charging")
  }

  /** The charging status, as read by the charging sensors, binary sensor and switch. */
  function ChargingStatus(rec: Record): (r: Json)
    requires ChargingReadable(rec)
    ensures r == PathOr(Obj(rec), ChargingPath("status"), Null)
  {
    Get(Charging(rec), "status", Null)
  }

  /** `charging.get("plugged", False)`, read by the plugged sensor and for availability. */
  function Plugged(rec: Record): (r: Json)
    requires ChargingReadable(rec)
    ensures r == PathOr(Obj(rec), ChargingPath("plugged"), Bool(false))
  {
    Get(Charging(rec), "plugged", Bool(false))
  }

  /** `charging.get("charge_threshold", 100)`. */
  function ChargeThreshold(rec: Record): (r: Json)
    requires ChargingReadable(rec)
    ensures r == PathOr(Obj(rec), ChargingPath("charge_threshold"), Int(100))
  {
    Get(Charging(rec), "charge_threshold", Int(100))
  }

  predicate ClimateReadable(rec: Record) {
    SubReadable(rec, "preconditionning")
      && SubReadable(Sub(rec, "preconditionning"), "airConditioning")
  }

  function AirConditioningPath(k: string): seq<Step> {
    [Key("preconditionning"), Key("airConditioning"), Key(k)]
  }

  /** `rec.get("preconditionning", {}).get("airConditioning", {})`. */
  function AirConditioning(rec: Record): (r: Record)
    requires ClimateReadable(rec)
    ensures forall k :: Path(Obj(rec), AirConditioningPath(k)) == Lookup(r, k)
  {
    Sub(Sub(rec, "preconditionning"), "airConditioning")
  }

  /** The air-conditioning status, read by the climate and "doors locked" entities. */
  function ClimateStatus(rec: Record): (r: Json)
    requires ClimateReadable(rec)
    ensures r == PathOr(Obj(rec), AirConditioningPath("status"), Null)
  {
    Get(AirConditioning(rec), "status", Null)
  }

  /** Climate is active: the status is one of "Enabled" and "InProgress". */
  predicate ClimateActive(rec: Record)
    requires ClimateReadable(rec)
  {
    ClimateStatus(rec) in [Str("Enabled"), Str("InProgress")]
  }

  /** What an entity action does, in order. */
  datatype Action = Call(command: Api.Command) | RequestRefresh

  /** The client commands of a trace, in order. */
  function Calls(trace: seq<Action>): (r: seq<Api.Command>)
    ensures |r| <= |trace|
    ensures forall c :: c in r <==> Call(c) in trace
  {
    if trace == [] then []
    else (if trace[0].Call? then [trace[0].command] else []) + Calls(trace[1..])
  }

  /** A command then a refresh request, the shape of every setter and toggle. */
  lemma CommandThenRefresh(cmd: Api.Command)
    ensures Calls([Call(cmd), RequestRefresh]) == [cmd]
  {
    assert [Call(cmd), RequestRefresh][1..] == [RequestRefresh];
    assert [RequestRefresh][1..] == [];
  }

  /** Python's `str()` of the brand and model values the device name is made of. */
  predicate Displayable(v: Json) {
    v.Str? || v.Null?
  }

  function Display(v: Json): string
    requires Displayable(v)
  {
    if v.Str? then v.s else "None"
  }

  predicate DeviceReadable(rec: Record) {
    ("brand" in rec ==> Displayable(rec["brand"])) && ("model" in rec ==> Displayable(rec["model"]))
  }

  /** The `device_info` of every entity; the domain of the identifier and the
      manufacturer are constants of const.py. */
  datatype DeviceInfo = DeviceInfo(identifier: string, name: string, model: Json, swVersion: Json)

  function Device(vin: string, rec: Record): (r: DeviceInfo)
    requires DeviceReadable(rec)
    ensures r.identifier == vin
    ensures r.name ==
      Display(PathOr(Obj(rec), [Key("brand")], Str("PSA"))) + " " + Display(PathOr(Obj(rec), [Key("model")], Str("Car")))
    ensures "brand" !in rec && "model" !in rec ==> r.name == "PSA Car"
    ensures "model" !in rec ==> r.model == Str("Connected Car")
    ensures "model" in rec ==> r.model == rec["model"]
    ensures "brand" in rec && "model" in rec && rec["brand"].Str? && rec["model"].Str? ==>
      r.name == rec["brand"].s + " " + rec["model"].s
    ensures r.swVersion == Get(rec, "firmware_version", Null)
  {
    DeviceInfo(
      vin,
      Display(Get(rec, "brand", Str("PSA"))) + " " + Display(Get(rec, "model", Str("Car"))),
      Get(rec, "model", Str("Connected Car")),
      Get(rec, "firmware_version", Null))
  }

  /** Every unique id is the VIN followed by an entity-specific suffix. */
  function UniqueId(vin: string, suffix: string): (r: string)
    ensures |r| == |vin| + |suffix| && r[..|vin|] == vin && r[|vin|..] == suffix
  {
    vin + suffix
  }

  /** For one VIN, different suffixes give different unique ids. */
  lemma UniqueIdInjective(vin: string, suffix1: string, suffix2: string)
    requires UniqueId(vin, suffix1) == UniqueId(vin, suffix2)
    ensures suffix1 == suffix2
  {
    assert suffix1 == UniqueId(vin, suffix1)[|vin|..];
  }
}
