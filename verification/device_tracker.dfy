/**
 * The GPS device tracker (device_tracker.py): the position's GeoJSON
 * coordinates are [longitude, latitude, ...], read only when there are at
 * least two of them.
 */
module DeviceTracker {
  import opened Json
  import opened Entity

  /** The host's kinds of tracker source. */
  datatype SourceType = Gps | Router | Bluetooth | BluetoothLe

  /** The tracker always reports a GPS source, whatever the record holds. */
  function Source(rec: Record): (r: SourceType)
    ensures r == Gps
  {
    Gps
  }

  /** The accuracy in meters is a fixed 50, whatever the record holds. */
  function LocationAccuracy(rec: Record): (r: int)
    ensures r == 50
  {
    50
  }

  function TrackerUniqueId(vin: string): (r: string)
    ensures r == UniqueId(vin, "_location")
  {
    vin + "_location"
  }

  function CoordinatesPath(): seq<Step> {
    [Key("position"), Key("geometry"), Key("coordinates")]
  }

  /** `len(coordinates)` and `coordinates[i]` work on lists and on strings. */
  predicate Sized(v: Json) {
    v.Arr? || v.Str?
  }

  function Length(v: Json): nat
    requires Sized(v)
  {
    if v.Arr? then |v.items| else |v.s|
  }

  function At(v: Json, i: nat): Json
    requires Sized(v) && i < Length(v)
  {
    if v.Arr? then v.items[i] else Str([v.s[i]])
  }

  predicate CoordinatesReadable(rec: Record) {
    && SubReadable(rec, "position")
    && SubReadable(Sub(rec, "position"), "geometry")
    && Sized(Get(Sub(Sub(rec, "position"), "geometry"), "coordinates", Arr([])))
  }

  /** `position.get("geometry", {}).get("coordinates", [])`. */
  function Coordinates(rec: Record): (r: Json)
    requires CoordinatesReadable(rec)
    ensures Sized(r) && r == PathOr(Obj(rec), CoordinatesPath(), Arr([]))
  {
    var geometry := Sub(Sub(rec, "position"), "geometry");
    CoordinatesAt(rec);
    Get(geometry, "coordinates", Arr([]))
  }

  /** The coordinates path reads the `coordinates` field of the geometry record. */
  lemma CoordinatesAt(rec: Record)
    requires CoordinatesReadable(rec)
    ensures Path(Obj(rec), CoordinatesPath()) == Lookup(Sub(Sub(rec, "position"), "geometry"), "coordinates")
  {
    PathKey(Obj(rec), "position", [Key("geometry"), Key("coordinates")]);
    if "position" in rec {
      PathKey(rec["position"], "geometry", [Key("coordinates")]);
      if "geometry" in rec["position"].fields {
        PathKey(rec["position"].fields["geometry"], "coordinates", []);
      }
    }
  }

  /** Latitude: the second coordinate, None with fewer than two. */
  function Latitude(rec: Record): (r: Json)
    requires CoordinatesReadable(rec)
    ensures var c := Coordinates(rec);
      (Length(c) >= 2 ==> r == At(c, 1)) && (Length(c) < 2 ==> r == Null)
  {
    var c := Coordinates(rec);
    if Length(c) >= 2 then At(c, 1) else Null
  }

  /** Longitude: the first coordinate, None with fewer than two. */
  function Longitude(rec: Record): (r: Json)
    requires CoordinatesReadable(rec)
    ensures var c := Coordinates(rec);
      (Length(c) >= 2 ==> r == At(c, 0)) && (Length(c) < 2 ==> r == Null)
  {
    var c := Coordinates(rec);
    if Length(c) >= 2 then At(c, 0) else Null
  }

  /** Both coordinates are present or both are None, unless the server sends a null coordinate. */
  lemma LatitudeNullIffLongitudeNull(rec: Record)
    requires CoordinatesReadable(rec)
    requires Length(Coordinates(rec)) >= 2 ==>
      At(Coordinates(rec), 0) != Null && At(Coordinates(rec), 1) != Null
    ensures Latitude(rec).Null? <==> Longitude(rec).Null?
    ensures Latitude(rec).Null? <==> Length(Coordinates(rec)) < 2
  {
  }

  function PropertiesPath(k: string): seq<Step> {
    [Key("position"), Key("properties"), Key(k)]
  }

  predicate PropertiesReadable(rec: Record) {
    SubReadable(rec, "position") && SubReadable(Sub(rec, "position"), "properties")
  }

  /** The extra attributes: exactly four keys, each read from `position.properties`. */
  function ExtraAttributes(rec: Record): (r: map<string, Json>)
    requires PropertiesReadable(rec)
    ensures r.Keys == {"altitude", "heading", "updated_at", "signal_quality"}
    ensures r["altitude"] == PathOr(Obj(rec), PropertiesPath("altitude"), Null)
    ensures r["heading"] == PathOr(Obj(rec), PropertiesPath("heading"), Null)
    ensures r["updated_at"] == PathOr(Obj(rec), PropertiesPath("updatedAt"), Null)
    ensures r["signal_quality"] == PathOr(Obj(rec), PropertiesPath("signalQuality"), Null)
  {
    var properties := Sub(Sub(rec, "position"), "properties");
    forall k ensures Path(Obj(rec), PropertiesPath(k)) == Lookup(properties, k) {
      PathKey(Obj(rec), "position", [Key("properties"), Key(k)]);
    }
    map[
      "altitude" := Get(properties, "altitude", Null),
      "heading" := Get(properties, "heading", Null),
      "updated_at" := Get(properties, "updatedAt", Null),
      "signal_quality" := Get(properties, "signalQuality", Null)]
  }
}
