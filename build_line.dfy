/** The M2 line builder: pick an example trip towards Alexanderplatz from the
    departures at a seed stop, assemble the line record from the stop lookup and
    the trip's shape, and write `m2.json` and `lines.json`. */
module BuildLine {
  import opened Common
  import FetchShape
  import FetchStops

  // ---------------------------------------------------------------------------
  // Substring test (Python's `needle in hay` on strings)

  predicate OccursAt(hay: string, needle: string, i: nat)
  {
    i + |needle| <= |hay| && hay[i..i + |needle|] == needle
  }

  /** Occurrences in `hay[1..]` are the occurrences in `hay` shifted by one. */
  lemma OccursShift(hay: string, needle: string)
    requires |hay| > 0
    ensures forall i: nat :: OccursAt(hay[1..], needle, i) <==> OccursAt(hay, needle, i + 1)
    ensures (exists i: nat :: OccursAt(hay, needle, i)) ==>
      OccursAt(hay, needle, 0) || exists i: nat :: OccursAt(hay[1..], needle, i)
  {
    forall i: nat ensures OccursAt(hay[1..], needle, i) <==> OccursAt(hay, needle, i + 1) {
      if i + 1 + |needle| <= |hay| {
        assert hay[1..][i..i + |needle|] == hay[i + 1..i + 1 + |needle|];
      }
    }
    if exists i: nat :: OccursAt(hay, needle, i) {
      var i: nat :| OccursAt(hay, needle, i);
      if i > 0 {
        assert OccursAt(hay[1..], needle, i - 1);
      }
    }
  }

  function Contains(hay: string, needle: string): (b: bool)
    ensures b <==> exists i: nat :: OccursAt(hay, needle, i)
    decreases |hay|
  {
    if |hay| < |needle| then false
    else if hay[..|needle|] == needle then (assert OccursAt(hay, needle, 0); true)
    else (OccursShift(hay, needle); Contains(hay[1..], needle))
  }

  // ---------------------------------------------------------------------------
  // find_example_m2_trip_id

  /** The `line` object of a departure. */
  datatype LineObj = LineObj(name: Option<string>)

  /** One departure. `direction` and `tripId` are None when missing or null;
      `line` keeps the difference, since a null `line` makes `find_example_m2_trip_id` raise. */
  datatype Departure = Departure(line: Field<LineObj>, direction: Option<string>, tripId: Option<string>)

  /** The decoded `/stops/{id}/departures` response. */
  datatype DeparturesResponse = DeparturesResponse(departures: Field<seq<Departure>>)

  datatype BuildError =
    | NoM2Trip                                // `find_example_m2_trip_id`'s RuntimeError
    | MalformedDepartures                     // a null that the search iterates over or calls `.get` on
    | ShapeFailed(cause: FetchShape.ShapeError)

  /** `dep.get("line", {}).get("name")` for a departure whose `line` is not null. */
  function LineName(d: Departure): Option<string>
  {
    if d.line.Present? then d.line.value.name else None
  }

  /** `dep.get("direction", "") or ""`. */
  function DirectionText(d: Departure): string
  {
    if d.direction.Some? then d.direction.value else ""
  }

  predicate HeadsToAlexanderplatz(d: Departure)
  {
    LineName(d) == Some("M2") && Contains(DirectionText(d), "Alexanderplatz")
  }

  /** `tripId` is truthy: present and non-empty. */
  predicate HasTripId(d: Departure)
  {
    d.tripId.Some? && d.tripId.value != ""
  }

  predicate Qualifies(d: Departure)
  {
    HeadsToAlexanderplatz(d) && HasTripId(d)
  }

  /** The specification of the search loop over a departure list. */
  function SelectTrip(ds: seq<Departure>): Result<string, BuildError>
  {
    if ds == [] then Err(NoM2Trip)
    else if ds[0].line.Null? then Err(MalformedDepartures)
    else if Qualifies(ds[0]) then Ok(ds[0].tripId.value)
    else SelectTrip(ds[1..])
  }

  /** `data.get("departures", [])`, then the search. */
  function SelectFromResponse(resp: DeparturesResponse): Result<string, BuildError>
  {
    match resp.departures
    case Absent => SelectTrip([])
    case Null => Err(MalformedDepartures)
    case Present(ds) => SelectTrip(ds)
  }

  /** `find_example_m2_trip_id` after the request: a linear search with an early return. */
  method FindExampleM2TripId(resp: DeparturesResponse) returns (r: Result<string, BuildError>)
    ensures r == SelectFromResponse(resp)
  {
    if resp.departures.Null? {
      return Err(MalformedDepartures);
    }
    var departures := if resp.departures.Present? then resp.departures.value else [];
    for i := 0 to |departures|
      invariant SelectTrip(departures[i..]) == SelectFromResponse(resp)
    {
      var dep := departures[i];
      assert departures[i..][1..] == departures[i + 1..];
      if dep.line.Null? {
        return Err(MalformedDepartures);
      }
      var line := if dep.line.Present? then dep.line.value.name else None;
      var direction := if dep.direction.Some? then dep.direction.value else "";
      if line == Some("M2") && Contains(direction, "Alexanderplatz") {
        var tripId := dep.tripId;
        if tripId.Some? && tripId.value != "" {
          return Ok(tripId.value);
        }
      }
    }
    return Err(NoM2Trip);
  }

  /** Departure k is the first qualifying one, and none before it raises. */
  predicate FirstMatchAt(ds: seq<Departure>, k: nat)
  {
    k < |ds| && Qualifies(ds[k]) &&
    forall j :: 0 <= j < k ==> !ds[j].line.Null? && !Qualifies(ds[j])
  }

  /** The selection returns the trip id of the first qualifying departure. */
  lemma {:induction false} SelectTripFindsFirst(ds: seq<Departure>, k: nat)
    requires FirstMatchAt(ds, k)
    ensures SelectTrip(ds) == Ok(ds[k].tripId.value)
  {
    if k > 0 {
      assert FirstMatchAt(ds[1..], k - 1) by {
        forall j | 0 <= j < k - 1 ensures !ds[1..][j].line.Null? && !Qualifies(ds[1..][j]) {
          assert ds[1..][j] == ds[j + 1];
        }
      }
      SelectTripFindsFirst(ds[1..], k - 1);
    }
  }

  /** A successful selection always comes from the first qualifying departure. */
  lemma {:induction false} SelectTripOkIsFirst(ds: seq<Departure>)
    requires SelectTrip(ds).Ok?
    ensures exists k: nat :: FirstMatchAt(ds, k) && SelectTrip(ds).value == ds[k].tripId.value
  {
    if !Qualifies(ds[0]) {
      SelectTripOkIsFirst(ds[1..]);
      var k: nat :| FirstMatchAt(ds[1..], k) && SelectTrip(ds[1..]).value == ds[1..][k].tripId.value;
      assert FirstMatchAt(ds, k + 1) by {
        forall j | 0 <= j < k + 1 ensures !ds[j].line.Null? && !Qualifies(ds[j]) {
          if j > 0 { assert ds[j] == ds[1..][j - 1]; }
        }
      }
    } else {
      assert FirstMatchAt(ds, 0);
    }
  }

  /** The selection reports "no M2 trip" exactly when no departure qualifies
      and none has a null `line`: there is no fallback to other M2 departures. */
  lemma {:induction false} SelectTripNotFound(ds: seq<Departure>)
    ensures SelectTrip(ds) == Err(NoM2Trip) <==>
      forall k :: 0 <= k < |ds| ==> !ds[k].line.Null? && !Qualifies(ds[k])
  {
    if ds != [] {
      SelectTripNotFound(ds[1..]);
      assert forall k :: 1 <= k < |ds| ==> ds[k] == ds[1..][k - 1];
    }
  }

  /** A departure to Alexanderplatz without a usable `tripId` is passed over
      and the search goes on. */
  lemma MissingTripIdSkipped(d: Departure, ds: seq<Departure>)
    requires !d.line.Null? && HeadsToAlexanderplatz(d) && !HasTripId(d)
    ensures SelectTrip([d] + ds) == SelectTrip(ds)
  {
  }

  /** A missing or null direction reads as "" and never matches; a missing
      `line` object has no name and never matches. */
  lemma MissingFieldsNeverMatch(d: Departure)
    requires d.direction.None? || d.line.Absent?
    ensures !Qualifies(d)
  {
  }

  /** M2 departures in other directions do not help: if no direction contains
      "Alexanderplatz", the selection fails. */
  lemma NoFallbackToOtherDirections(ds: seq<Departure>)
    requires forall k :: 0 <= k < |ds| ==> !ds[k].line.Null?
    requires forall k :: 0 <= k < |ds| ==> !Contains(DirectionText(ds[k]), "Alexanderplatz")
    ensures SelectTrip(ds) == Err(NoM2Trip)
  {
  }

  // ---------------------------------------------------------------------------
  // build_m2_json

  /** The stop names of the M2, north to south. */
  const M2StopNames: seq<string> := [
    "Heinersdorf",
    "Rothenbachstr.",
    "Heinersdorf Kirche",
    "Am Wasserturm",
    "Tino-Schwierzina-Str.",
    "Am Steinberg",
    "Prenzlauer Prom./Am Steinberg",
    "Prenzlauer Allee/Ostseestr.",
    "Erich-Weinert-Str.",
    "S Prenzlauer Allee",
    "Fröbelstr.",
    "Prenzlauer Allee/Danziger Str.",
    "Marienburger Str.",
    "Knaackstr.",
    "Prenzlauer Allee/Metzer Str.",
    "Mollstr./Prenzlauer Allee",
    "S+U Alexanderplatz/Memhardstr.",
    "S+U Alexanderplatz/Dircksenstr."
  ]

  /** The content of `m2.json`. */
  datatype LineRecord = LineRecord(
    id: string,
    name: string,
    color: string,
    stops: seq<FetchStops.StopRecord>,
    shape: FetchShape.Shape)

  /** The one `/trips/{id}` response that `build_m2_json` fetches, that of the
      selected trip, is one the extractor can read; no other response is read. */
  predicate SelectedTripWellFormed(departures: DeparturesResponse, trips: string -> FetchShape.TripResponse)
  {
    SelectFromResponse(departures).Ok? ==>
      FetchShape.ResponseWellFormed(trips(SelectFromResponse(departures).value))
  }

  /** The specification of `build_m2_json`, given the gateway's `/locations`
      results per name, the seed stop's departures, and the `/trips/{id}`
      response for each trip id. */
  function M2Line(
    locations: map<string, seq<FetchStops.LocationItem>>,
    departures: DeparturesResponse,
    trips: string -> FetchShape.TripResponse): (r: Result<LineRecord, BuildError>)
    requires FetchStops.Covers(M2StopNames, locations)
    requires SelectedTripWellFormed(departures, trips)
    ensures r.Ok? ==> r.value.id == "M2" && r.value.name == "Tram M2" && r.value.color == "#7AB929"
    ensures r.Ok? ==> |r.value.stops| == |M2StopNames| == 18
    ensures r.Ok? ==> forall i :: 0 <= i < |M2StopNames| ==>
      r.value.stops[i] == FetchStops.RecordFor(M2StopNames[i], locations[M2StopNames[i]])
    ensures r.Ok? ==> r.value.shape.kind == "LineString" && r.value.shape.coordinates != []
    ensures r.Ok? <==>
      SelectFromResponse(departures).Ok? &&
      FetchShape.FetchTripShape(trips(SelectFromResponse(departures).value)).Ok?
    ensures r.Ok? ==>
      r.value.shape == FetchShape.FetchTripShape(trips(SelectFromResponse(departures).value)).value
  {
    FetchStops.StopRecordsAt(M2StopNames, locations);
    var stops := FetchStops.StopRecords(M2StopNames, locations);
    match SelectFromResponse(departures)
    case Err(e) => Err(e)
    case Ok(tripId) =>
      match FetchShape.FetchTripShape(trips(tripId))
      case Err(e) => Err(ShapeFailed(e))
      case Ok(shape) => Ok(LineRecord("M2", "Tram M2", "#7AB929", stops, shape))
  }

  /** `build_m2_json`: the stop lookup, the trip search, the shape, then the record. */
  method BuildM2Json(
    locations: map<string, seq<FetchStops.LocationItem>>,
    departures: DeparturesResponse,
    trips: string -> FetchShape.TripResponse) returns (r: Result<LineRecord, BuildError>)
    requires FetchStops.Covers(M2StopNames, locations)
    requires SelectedTripWellFormed(departures, trips)
    ensures r == M2Line(locations, departures, trips)
  {
    var stops := FetchStops.FetchStopsForNames(M2StopNames, locations);
    var tripId := FindExampleM2TripId(departures);
    if tripId.Err? {
      return Err(tripId.error);
    }
    var shape := FetchShape.FetchTripShape(trips(tripId.value));
    if shape.Err? {
      return Err(ShapeFailed(shape.error));
    }
    r := Ok(LineRecord("M2", "Tram M2", "#7AB929", stops, shape.value));
  }

  // ---------------------------------------------------------------------------
  // main: what is written to the data directory

  /** One entry of `lines.json`. */
  datatype IndexEntry = IndexEntry(id: string, name: string, file: string, color: string)

  /** What a file of the data directory holds. */
  datatype FileContent =
    | LineFile(line: LineRecord)
    | LineIndex(entries: seq<IndexEntry>)
    | OtherContent(text: string)

  const M2Entry: IndexEntry := IndexEntry("M2", "Tram M2", "m2.json", "#7AB929")

  /** The data directory after a successful build: `m2.json` holds the record,
      `lines.json` holds the single M2 entry, whatever either held before. */
  function Published(files: map<string, FileContent>, line: LineRecord): (r: map<string, FileContent>)
    ensures r.Keys == files.Keys + {"m2.json", "lines.json"}
    ensures r["m2.json"] == LineFile(line)
    ensures r["lines.json"] == LineIndex([M2Entry])
    ensures forall p :: p in files && p != "m2.json" && p != "lines.json" ==> r[p] == files[p]
  {
    files["m2.json" := LineFile(line)]["lines.json" := LineIndex([M2Entry])]
  }

  /** Writing the same record again changes nothing: a rebuild from the same
      responses leaves the directory as the first build left it. */
  lemma PublishedIdempotent(files: map<string, FileContent>, line: LineRecord)
    ensures Published(Published(files, line), line) == Published(files, line)
  {
  }

  /** The prior content of `lines.json` is never read: it is overwritten. */
  lemma IndexOverwritten(files: map<string, FileContent>, others: map<string, FileContent>, line: LineRecord)
    ensures Published(files, line)["lines.json"] == Published(others, line)["lines.json"]
  {
  }

  /** The `public/data` directory of the project. */
  class DataDir {
    var files: map<string, FileContent>

    constructor (files: map<string, FileContent>)
      ensures this.files == files
    {
      this.files := files;
    }

    /** `main`: build the record first, then write `m2.json`, then `lines.json`.
        A failing build raises before a file is opened. */
    method BuildAndWrite(
      locations: map<string, seq<FetchStops.LocationItem>>,
      departures: DeparturesResponse,
      trips: string -> FetchShape.TripResponse) returns (r: Result<LineRecord, BuildError>)
      requires FetchStops.Covers(M2StopNames, locations)
      requires SelectedTripWellFormed(departures, trips)
      modifies this
      ensures r == M2Line(locations, departures, trips)
      ensures r.Err? ==> files == old(files)
      ensures r.Ok? ==> files == Published(old(files), r.value)
    {
      r := BuildM2Json(locations, departures, trips);
      if r.Err? {
        return;
      }
      files := files["m2.json" := LineFile(r.value)];
      files := files["lines.json" := LineIndex([M2Entry])];
    }
  }
}
