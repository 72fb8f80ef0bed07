/** Stop lookup by name: for each queried name, the first `/locations`
    result of type "stop", reduced to `{name, id, lat, lon}`. */
module FetchStops {
  import opened Common

  /** A `location` object; either coordinate may be missing or null. */
  datatype GeoPoint = GeoPoint(latitude: Option<real>, longitude: Option<real>)

  /** One item of a `/locations?query=...` result list. `location` is None when
      it is missing, null or empty; `name` keeps the difference between a
      missing key and an explicit null, which `stop.get("name", name)` treats differently. */
  datatype LocationItem = LocationItem(
    kind: Option<string>,
    id: Option<string>,
    name: Field<string>,
    location: Option<GeoPoint>)

  /** An output record; `None` is written as JSON `null`. */
  datatype StopRecord = StopRecord(
    name: Option<string>,
    id: Option<string>,
    lat: Option<real>,
    lon: Option<real>)

  predicate IsStop(item: LocationItem)
  {
    item.kind == Some("stop")
  }

  /** The index of the first item of type "stop", if any. */
  function FirstStopIndex(items: seq<LocationItem>): (r: Option<nat>)
    ensures r.Some? ==> r.value < |items| && IsStop(items[r.value])
    ensures r.Some? ==> forall j :: 0 <= j < r.value ==> !IsStop(items[j])
    ensures r.None? ==> forall j :: 0 <= j < |items| ==> !IsStop(items[j])
  {
    if items == [] then None
    else if IsStop(items[0]) then Some(0)
    else match FirstStopIndex(items[1..])
      case None => None
      case Some(k) => Some(k + 1)
  }

  /** The record for a found stop: its name (or the query name when the key is
      missing), its id, and the coordinates of its location. */
  function FoundRecord(query: string, stop: LocationItem): StopRecord
  {
    var name := match stop.name
      case Absent => Some(query)
      case Null => None
      case Present(s) => Some(s);
    var loc := if stop.location.Some? then stop.location.value else GeoPoint(None, None);
    StopRecord(name, stop.id, loc.latitude, loc.longitude)
  }

  /** The placeholder for a name with no stop among its results. */
  function Placeholder(query: string): StopRecord
  {
    StopRecord(Some(query), None, None, None)
  }

  /** The record one queried name produces, given its result list. */
  function RecordFor(query: string, items: seq<LocationItem>): StopRecord
  {
    match FirstStopIndex(items)
    case None => Placeholder(query)
    case Some(k) => FoundRecord(query, items[k])
  }

  /** Every queried name has a result list. */
  predicate Covers(names: seq<string>, lookup: map<string, seq<LocationItem>>)
  {
    forall i :: 0 <= i < |names| ==> names[i] in lookup
  }

  /** The specification of the lookup loop: one record per name, appended in order. */
  function StopRecords(names: seq<string>, lookup: map<string, seq<LocationItem>>): seq<StopRecord>
    requires Covers(names, lookup)
  {
    if names == [] then []
    else
      var last := names[|names| - 1];
      StopRecords(names[..|names| - 1], lookup) + [RecordFor(last, lookup[last])]
  }

  /** `fetch_stops_for_names` with the `/locations` responses given as `lookup`:
      an outer loop over the names that appends, and an inner search that breaks
      at the first stop. */
  method FetchStopsForNames(names: seq<string>, lookup: map<string, seq<LocationItem>>)
    returns (results: seq<StopRecord>)
    requires Covers(names, lookup)
    ensures results == StopRecords(names, lookup)
  {
    results := [];
    for i := 0 to |names|
      invariant results == StopRecords(names[..i], lookup)
    {
      assert names[..i + 1][..i] == names[..i];
      var name := names[i];
      var data := lookup[name];

      var stop: Option<LocationItem> := None;
      var j := 0;
      while j < |data|
        invariant 0 <= j <= |data|
        invariant stop.None? && forall k :: 0 <= k < j ==> !IsStop(data[k])
      {
        if IsStop(data[j]) {
          stop := Some(data[j]);
          break;
        }
        j := j + 1;
      }
      assert stop.Some? ==> FirstStopIndex(data) == Some(j) && stop.value == data[j];

      if stop.None? {
        results := results + [Placeholder(name)];
        continue;
      }

      var loc := if stop.value.location.Some? then stop.value.location.value else GeoPoint(None, None);
      var recordName := match stop.value.name
        case Absent => Some(name)
        case Null => None
        case Present(s) => Some(s);
      results := results + [StopRecord(recordName, stop.value.id, loc.latitude, loc.longitude)];
    }
    assert names[..|names|] == names;
  }

  // ---------------------------------------------------------------------------
  // Properties of the lookup

  /** Exactly one record per name, at the name's own position. */
  lemma {:induction false} StopRecordsAt(names: seq<string>, lookup: map<string, seq<LocationItem>>)
    requires Covers(names, lookup)
    ensures |StopRecords(names, lookup)| == |names|
    ensures forall i :: 0 <= i < |names| ==>
      StopRecords(names, lookup)[i] == RecordFor(names[i], lookup[names[i]])
  {
    if names != [] {
      var init := names[..|names| - 1];
      StopRecordsAt(init, lookup);
    }
  }

  /** Records are only appended: looking up more names never changes the
      records of the names before them. */
  lemma {:induction false} StopRecordsAppend(a: seq<string>, b: seq<string>, lookup: map<string, seq<LocationItem>>)
    requires Covers(a, lookup) && Covers(b, lookup)
    ensures Covers(a + b, lookup)
    ensures StopRecords(a + b, lookup) == StopRecords(a, lookup) + StopRecords(b, lookup)
    decreases |b|
  {
    assert Covers(a + b, lookup) by {
      forall i | 0 <= i < |a + b| ensures (a + b)[i] in lookup {
        if i < |a| { assert (a + b)[i] == a[i]; } else { assert (a + b)[i] == b[i - |a|]; }
      }
    }
    if b == [] {
      assert a + b == a;
    } else {
      var b' := b[..|b| - 1];
      assert Covers(b', lookup) by {
        forall i | 0 <= i < |b'| ensures b'[i] in lookup { assert b'[i] == b[i]; }
      }
      StopRecordsAppend(a, b', lookup);
      assert (a + b)[..|a + b| - 1] == a + b';
      assert (a + b)[|a + b| - 1] == b[|b| - 1];
    }
  }

  /** No item of type "stop": the record carries the query name and nulls. */
  lemma NoStopGivesPlaceholder(query: string, items: seq<LocationItem>)
    requires forall j :: 0 <= j < |items| ==> !IsStop(items[j])
    ensures RecordFor(query, items) == StopRecord(Some(query), None, None, None)
  {
  }

  /** The first item of type "stop" is the one chosen: its id, the coordinates
      of its location (both null without one), and its name, falling back to
      the query name only when the key is missing (an explicit null stays null). */
  lemma FirstStopChosen(query: string, items: seq<LocationItem>, k: nat)
    requires k < |items| && IsStop(items[k])
    requires forall j :: 0 <= j < k ==> !IsStop(items[j])
    ensures var r := RecordFor(query, items);
      && r.id == items[k].id
      && (items[k].location.None? ==> r.lat.None? && r.lon.None?)
      && (items[k].location.Some? ==>
            r.lat == items[k].location.value.latitude && r.lon == items[k].location.value.longitude)
      && (items[k].name.Absent? ==> r.name == Some(query))
      && (items[k].name.Null? ==> r.name.None?)
      && (items[k].name.Present? ==> r.name == Some(items[k].name.value))
  {
  }

  /** Items after the first stop are ignored. */
  lemma LaterItemsIgnored(query: string, items: seq<LocationItem>, k: nat, rest: seq<LocationItem>)
    requires k < |items| && IsStop(items[k])
    requires forall j :: 0 <= j < k ==> !IsStop(items[j])
    ensures RecordFor(query, items[..k + 1] + rest) == RecordFor(query, items)
  {
    var longer := items[..k + 1] + rest;
    assert longer[k] == items[k];
    assert forall j :: 0 <= j < k ==> longer[j] == items[j];
    var f1 := FirstStopIndex(longer);
    var f2 := FirstStopIndex(items);
    assert f1 == Some(k);
    assert f2 == Some(k);
  }
}
