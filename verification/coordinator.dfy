/**
 * The refresh-and-merge coordinator (coordinator.py). It keeps two maps keyed
 * by VIN: `vehicles`, the static metadata filled once from the vehicle
 * listing, and `data`, the records of the last refresh cycle. One cycle
 * builds a fresh map: a VIN whose status call returned gets its metadata
 * overlaid by the status, a VIN whose status call raised keeps its previous
 * record, or is left out when it has none.
 *
 * The listing result and the per-VIN status calls are inputs of a cycle:
 * `listing` is what `get_vehicles` returned (it always returns a list) and
 * `status(vin)` is the outcome of `get_vehicle_status(vin)`.
 */
module Coordinator {
  import opened Json
  import opened Api

  type StatusCall = string -> Outcome<Json>

  /** A listing entry the loop at coordinator.py:41-44 can read without raising:
      a dict whose "vin", when truthy, is a string usable as a key. */
  predicate EntryReadable(entry: Json) {
    entry.Obj? && ("vin" in entry.fields && Truthy(entry.fields["vin"]) ==> entry.fields["vin"].Str?)
  }

  predicate ListingReadable(listing: seq<Json>) {
    forall i :: 0 <= i < |listing| ==> EntryReadable(listing[i])
  }

  /** `vehicle.get("vin")` when it is truthy, the key the entry is cached under. */
  function VinOf(entry: Json): (r: Option<string>)
    requires EntryReadable(entry)
    ensures r.Some? <==> "vin" in entry.fields && Truthy(entry.fields["vin"])
    ensures r.Some? ==> r.value != [] && entry.fields["vin"] == Str(r.value)
  {
    var vin := Get(entry.fields, "vin", Null);
    if Truthy(vin) then Some(vin.s) else None
  }

  /** Entry `i` of the listing carries `vin` and is the record `rec`. */
  predicate Cached(listing: seq<Json>, i: int, vin: string, rec: Record)
    requires ListingReadable(listing) && 0 <= i < |listing|
  {
    VinOf(listing[i]) == Some(vin) && listing[i].fields == rec
  }

  /** The vehicle cache built from a listing, entry by entry in order. */
  function Catalogue(listing: seq<Json>): (r: map<string, Record>)
    requires ListingReadable(listing)
    ensures forall vin :: vin in r ==> vin != [] && exists i :: 0 <= i < |listing| && Cached(listing, i, vin, r[vin])
  {
    if listing == [] then map[]
    else
      var n := |listing| - 1;
      var last := listing[n];
      var before := Catalogue(listing[..n]);
      assert forall vin :: vin in before ==> exists i :: 0 <= i < |listing| && Cached(listing, i, vin, before[vin]) by {
        forall vin | vin in before
          ensures exists i :: 0 <= i < |listing| && Cached(listing, i, vin, before[vin])
        {
          var i :| 0 <= i < n && Cached(listing[..n], i, vin, before[vin]);
          assert listing[..n][i] == listing[i];
          assert Cached(listing, i, vin, before[vin]);
        }
      }
      match VinOf(last)
      case Some(vin) =>
        assert Cached(listing, n, vin, last.fields);
        before[vin := last.fields]
      case None => before
  }

  /** The VINs are exactly the truthy "vin" values of the listing. */
  lemma {:induction false} CatalogueKeys(listing: seq<Json>, vin: string)
    requires ListingReadable(listing)
    ensures vin in Catalogue(listing) <==> exists i :: 0 <= i < |listing| && VinOf(listing[i]) == Some(vin)
  {
    if listing != [] {
      var n := |listing| - 1;
      var front := listing[..n];
      CatalogueKeys(front, vin);
      if vin in Catalogue(listing) && VinOf(listing[n]) != Some(vin) {
        var i :| 0 <= i < |front| && VinOf(front[i]) == Some(vin);
        assert listing[i] == front[i];
      }
      if exists i :: 0 <= i < |listing| && VinOf(listing[i]) == Some(vin) {
        var i :| 0 <= i < |listing| && VinOf(listing[i]) == Some(vin);
        if i < n {
          assert front[i] == listing[i];
        }
      }
    }
  }

  /** A VIN is cached with the LAST listing entry that carries it. */
  lemma {:induction false} CatalogueLastWins(listing: seq<Json>, vin: string, i: nat)
    requires ListingReadable(listing)
    requires i < |listing| && VinOf(listing[i]) == Some(vin)
    requires forall j :: i < j < |listing| ==> VinOf(listing[j]) != Some(vin)
    ensures vin in Catalogue(listing) && Catalogue(listing)[vin] == listing[i].fields
  {
    var n := |listing| - 1;
    if i < n {
      var front := listing[..n];
      assert front[i] == listing[i];
      forall j | i < j < |front| ensures VinOf(front[j]) != Some(vin) {
        assert front[j] == listing[j];
      }
      CatalogueLastWins(front, vin, i);
    }
  }

  /** A status call the merge at coordinator.py:51-54 can use: a returned status is a dict. */
  predicate StatusReadable(vins: set<string>, status: StatusCall) {
    forall vin :: vin in vins && status(vin).Returned? ==> status(vin).value.Obj?
  }

  /** The record map one cycle produces from the cached metadata, the previous
      cycle's records and this cycle's status calls. */
  function NextData(vehicles: map<string, Record>, previous: map<string, Record>,
                    status: StatusCall): (r: map<string, Record>)
    requires StatusReadable(vehicles.Keys, status)
    ensures r.Keys <= vehicles.Keys
  {
    map vin | vin in vehicles && (status(vin).Returned? || vin in previous) ::
      if status(vin).Returned? then vehicles[vin] + status(vin).value.fields
      else previous[vin]
  }

  /** Only cached VINs appear, and a cached VIN appears iff its call returned
      or it had a previous record. */
  lemma NextDataKeys(vehicles: map<string, Record>, previous: map<string, Record>,
                     status: StatusCall, vin: string)
    requires StatusReadable(vehicles.Keys, status)
    ensures NextData(vehicles, previous, status).Keys <= vehicles.Keys
    ensures vin in NextData(vehicles, previous, status) <==>
      vin in vehicles && (status(vin).Returned? || vin in previous)
  {
  }

  /** A returned status is overlaid on the metadata: status keys win,
      metadata-only keys survive. */
  lemma NextDataOverlay(vehicles: map<string, Record>, previous: map<string, Record>,
                        status: StatusCall, vin: string, key: string)
    requires StatusReadable(vehicles.Keys, status)
    requires vin in vehicles && status(vin).Returned?
    ensures var r := NextData(vehicles, previous, status)[vin];
      var s := status(vin).value.fields;
      && r.Keys == vehicles[vin].Keys + s.Keys
      && (key in s ==> r[key] == s[key])
      && (key !in s && key in vehicles[vin] ==> r[key] == vehicles[vin][key])
  {
  }

  /** A raised status call keeps the previous record verbatim, or leaves the
      VIN out; there is no empty placeholder. */
  lemma NextDataStale(vehicles: map<string, Record>, previous: map<string, Record>,
                      status: StatusCall, vin: string)
    requires StatusReadable(vehicles.Keys, status)
    requires vin in vehicles && status(vin).Raised?
    ensures vin in previous ==>
      vin in NextData(vehicles, previous, status) && NextData(vehicles, previous, status)[vin] == previous[vin]
    ensures vin !in previous ==> vin !in NextData(vehicles, previous, status)
  {
  }

  /** A VIN's entry depends on its own status call only: changing another
      VIN's outcome changes nothing for it. */
  lemma NextDataIsolation(vehicles: map<string, Record>, previous: map<string, Record>,
                          status1: StatusCall, status2: StatusCall, vin: string)
    requires StatusReadable(vehicles.Keys, status1) && StatusReadable(vehicles.Keys, status2)
    requires status1(vin) == status2(vin)
    ensures vin in NextData(vehicles, previous, status1) <==> vin in NextData(vehicles, previous, status2)
    ensures vin in NextData(vehicles, previous, status1) ==>
      NextData(vehicles, previous, status1)[vin] == NextData(vehicles, previous, status2)[vin]
  {
  }

  /** A cached VIN that had a record keeps one: records are replaced or left stale, never evicted. */
  lemma NextDataNeverEvicts(vehicles: map<string, Record>, previous: map<string, Record>,
                            status: StatusCall)
    requires StatusReadable(vehicles.Keys, status)
    requires previous.Keys <= vehicles.Keys
    ensures previous.Keys <= NextData(vehicles, previous, status).Keys
  {
  }

  /** A listing without a truthy VIN caches nothing, and the cycle yields `{}`. */
  lemma {:induction false} EmptyListing(listing: seq<Json>, previous: map<string, Record>, status: StatusCall)
    requires ListingReadable(listing)
    requires forall i :: 0 <= i < |listing| ==> VinOf(listing[i]).None?
    ensures Catalogue(listing) == map[]
    ensures NextData(Catalogue(listing), previous, status) == map[]
  {
    if listing != [] {
      EmptyListing(listing[..|listing| - 1], previous, status);
    }
  }

  /** The status loop of coordinator.py:47-59: one status call per cached VIN,
      in any order, each VIN's entry computed on its own. */
  method CollectStatuses(vehicles: map<string, Record>, previous: map<string, Record>,
                         status: StatusCall) returns (data: map<string, Record>)
    requires StatusReadable(vehicles.Keys, status)
    ensures data == NextData(vehicles, previous, status)
  {
    data := map[];
    var pending := vehicles.Keys;
    while pending != {}
      invariant pending <= vehicles.Keys
      invariant data == NextData(vehicles - pending, previous, status)
      decreases pending
    {
      var vin :| vin in pending;
      var outcome := status(vin);
      match outcome {
        case Returned(s) =>
          data := data[vin := vehicles[vin] + s.fields];
        case Raised(_) =>
          if vin in previous {
            data := data[vin := previous[vin]];
          }
      }
      pending := pending - {vin};
    }
    assert vehicles - {} == vehicles;
  }

  /** The coordinator object: its two caches and the number of listing calls made. */
  class DataUpdateCoordinator {
    var vehicles: map<string, Record>
    var data: map<string, Record>
    ghost var listings: nat

    /** Every record belongs to a cached VIN. */
    ghost predicate Valid()
      reads this
    {
      data.Keys <= vehicles.Keys
    }

    /** A new coordinator: both caches empty, no listing made yet. */
    constructor ()
      ensures Valid()
      ensures vehicles == map[] && data == map[] && listings == 0
    {
      vehicles := map[];
      data := map[];
      listings := 0;
    }

    /** `_async_update_data`: list the vehicles when none are cached, then
        collect one status per cached VIN. The result becomes `data` only once
        the host stores it (see Refresh). */
    method UpdateData(listing: seq<Json>, status: StatusCall) returns (result: map<string, Record>)
      requires vehicles == map[] ==> ListingReadable(listing)
      requires StatusReadable(if vehicles == map[] then Catalogue(listing).Keys else vehicles.Keys, status)
      modifies this
      ensures vehicles == if old(vehicles) == map[] then Catalogue(listing) else old(vehicles)
      ensures listings == old(listings) + if old(vehicles) == map[] then 1 else 0
      ensures data == old(data)
      ensures result == NextData(vehicles, data, status)
    {
      if vehicles == map[] {
        listings := listings + 1;
        var i := 0;
        while i < |listing|
          invariant 0 <= i <= |listing|
          invariant vehicles == Catalogue(listing[..i])
          invariant data == old(data) && listings == old(listings) + 1
        {
          assert listing[..i + 1][..i] == listing[..i];
          var vin := VinOf(listing[i]);
          if vin.Some? {
            vehicles := vehicles[vin.value := listing[i].fields];
          }
          i := i + 1;
        }
        assert listing[..i] == listing;
      }
      result := CollectStatuses(vehicles, data, status);
    }

    /** One refresh as the host runs it: the cycle's result replaces `data` at once. */
    method Refresh(listing: seq<Json>, status: StatusCall)
      requires Valid()
      requires vehicles == map[] ==> ListingReadable(listing)
      requires StatusReadable(if vehicles == map[] then Catalogue(listing).Keys else vehicles.Keys, status)
      modifies this
      ensures Valid()
      ensures vehicles == if old(vehicles) == map[] then Catalogue(listing) else old(vehicles)
      ensures listings == old(listings) + if old(vehicles) == map[] then 1 else 0
      ensures data == NextData(vehicles, old(data), status)
      ensures old(data).Keys <= data.Keys
    {
      var result := UpdateData(listing, status);
      NextDataNeverEvicts(vehicles, data, status);
      data := result;
    }

    /** `get_vehicle_data`: the cached record, or `{}` for an unknown VIN. */
    function GetVehicleData(vin: string): (r: Record)
      reads this
      ensures vin in data ==> r == data[vin]
      ensures vin !in data ==> r == map[]
    {
      if vin in data then data[vin] else map[]
    }

    /** `get_all_vehicles`: the whole record map, unchanged. */
    function GetAllVehicles(): (r: map<string, Record>)
      reads this
      ensures r == data
    {
      data
    }
  }

  /** Two listing entries of the scenario below. */
  const EntryA: Json := Obj(map["vin" := Str("VF1AAA"), "brand" := Str("X")])
  const EntryB: Json := Obj(map["vin" := Str("VF1BBB"), "brand" := Str("Y")])

  /** Listing the two entries caches each under its own VIN. */
  lemma TwoEntryCatalogue()
    ensures ListingReadable([EntryA, EntryB])
    ensures Catalogue([EntryA, EntryB]) == map["VF1AAA" := EntryA.fields, "VF1BBB" := EntryB.fields]
  {
    assert [EntryA, EntryB][..1] == [EntryA] && [EntryA][..0] == [];
  }

  /** The status calls of the two cycles: in each, one vehicle's call times out. */
  function FirstStatus(vin: string): Outcome<Json> {
    if vin == "VF1AAA" then Returned(Obj(map["level" := Int(72)]))
    else Raised(ConnectionError("Timeout connecting to API"))
  }

  function SecondStatus(vin: string): Outcome<Json> {
    if vin == "VF1BBB" then Returned(Obj(map["level" := Int(50)]))
    else Raised(ConnectionError("Timeout connecting to API"))
  }

  /** First cycle: only the vehicle whose call returned gets a record. */
  lemma FirstCycleData()
    ensures var cached := map["VF1AAA" := EntryA.fields, "VF1BBB" := EntryB.fields];
      StatusReadable(cached.Keys, FirstStatus) &&
      NextData(cached, map[], FirstStatus) == map["VF1AAA" := EntryA.fields + map["level" := Int(72)]]
  {
  }

  /** Second cycle: the failed vehicle keeps its first-cycle record. */
  lemma SecondCycleData()
    ensures var cached := map["VF1AAA" := EntryA.fields, "VF1BBB" := EntryB.fields];
      var recordA := EntryA.fields + map["level" := Int(72)];
      StatusReadable(cached.Keys, SecondStatus) &&
      NextData(cached, map["VF1AAA" := recordA], SecondStatus) ==
        map["VF1AAA" := recordA, "VF1BBB" := EntryB.fields + map["level" := Int(50)]]
  {
  }

  /** Two cycles: the first lists two vehicles, one status call fails; in the
      second the other fails, and keeps its first-cycle record. The run starts
      from the modelled empty `data`; in the host `data` is still None during
      the first cycle, where the failed call would make `vin in self.data`
      (coordinator.py:58) raise TypeError. */
  method TwoCycles()
  {
    var cached := map["VF1AAA" := EntryA.fields, "VF1BBB" := EntryB.fields];
    var recordA := EntryA.fields + map["level" := Int(72)];
    var recordB := EntryB.fields + map["level" := Int(50)];
    TwoEntryCatalogue();
    FirstCycleData();
    SecondCycleData();

    var c := new DataUpdateCoordinator();
    c.Refresh([EntryA, EntryB], FirstStatus);
    assert c.vehicles == cached && "VF1AAA" in c.vehicles;
    assert c.data == map["VF1AAA" := recordA];

    c.Refresh([], SecondStatus);
    assert c.listings == 1;
    assert c.data == map["VF1AAA" := recordA, "VF1BBB" := recordB];
  }
}
