# KiezTransit line data, modelled in Dafny

KiezTransit is a set of Python scripts around a local transit-data gateway (a
`vbb-rest` instance). The scripts turn the gateway's JSON into files for a map
UI, and they count the minutes left before a departure for a console board. This
project models their deterministic core, with each decoded HTTP response taken
as an input value:

- `fetch_shape.dfy` (module `FetchShape`) models `scripts/helpers/fetch_shape.py`.
  `_features_to_latlon` is an imperative method with nested loops. It is proved
  equal to the specification function `LatLonOf`, and the lemmas cover its axis
  swap, skip rules and ordering. `fetch_trip_shape` chooses between the top-level
  `polyline` and `trip.polyline`; it is a function over a response datatype.
- `fetch_stops.dfy` (module `FetchStops`) models `scripts/helpers/fetch_stops.py`.
  `fetch_stops_for_names` is an outer loop that appends one record per name, with
  an inner search that breaks at the first item of type `"stop"`. It is proved
  equal to `StopRecords`.
- `build_line.dfy` (module `BuildLine`) models `scripts/build_line.py`:
  - the trip search of `find_example_m2_trip_id`, as a loop with an early return;
  - the record built by `build_m2_json`;
  - the two files `main` writes, held in the `files` map of the class `DataDir`.
- `vbb.dfy` (module `Vbb`) models `src/api/vbb.py`: the envelope unwrapping in
  `get_departures`, and `minutes_until` over whole seconds.
- `common.dfy` (module `Common`) holds `Option`, `Result` and `Field`. A `Field`
  is a JSON member that is missing, `null`, or present. The scripts raise when they
  iterate over a `null` member or call `.get` on one, and the model returns an
  error value (`MalformedResponse`, `MalformedDepartures`) at exactly those points.

Coordinates are `real`s that are only copied and swapped. Nothing computes on them.

A few facts about the code that the model keeps as written:

- `minutes_until` subtracts 60 seconds before it rounds up.
- The trip search matches the fixed line `"M2"` and the substring
  `"Alexanderplatz"`; when nothing matches it raises, with no other choice tried.
- `lines.json` is rewritten with one fixed entry; its earlier content is not read.
- The line record holds `id`, `name`, `color`, `stops` and `shape`, nothing more.
- Stop coordinates are copied from the `/locations` item's `location` as they come.

## Model

| member | source | states |
|---|---|---|
| `FetchShape.FeaturesToLatLon` | scripts/helpers/fetch_shape.py:55-81 | the nested loops, with their `continue`s, produce exactly `LatLonOf(features)` |
| `FetchShape.LatLonOfAppend` | scripts/helpers/fetch_shape.py:62-79 | output order is feature order: extracting `a + b` gives the vertices of `a`, then those of `b` |
| `FetchShape.EmptyFeatureSkipped` | scripts/helpers/fetch_shape.py:63-66 | a null feature, a missing or null geometry, or missing, null or empty coordinates contribute nothing, and the following features are still processed |
| `FetchShape.SinglePointOneVertex` | scripts/helpers/fetch_shape.py:76-79 | a single point `[lon, lat, ...]` contributes exactly the one vertex `[lat, lon]`, in place |
| `FetchShape.PairVerticesAppend` | scripts/helpers/fetch_shape.py:71-75 | within a nested feature, vertices come out in pair order |
| `FetchShape.MalformedPairSkipped` | scripts/helpers/fetch_shape.py:71-73 | a nested entry that is not a list, or has fewer than two elements, is skipped and the later pairs still count |
| `FetchShape.PairVerticesSwapAxes` | scripts/helpers/fetch_shape.py:74-75 | when every entry is a list of at least two numbers, there is one vertex per entry at the same index, equal to `[pair[1], pair[0]]` |
| `FetchShape.PairVerticesMembers` | scripts/helpers/fetch_shape.py:69-75 | a vertex is emitted if and only if some entry is a list of at least two numbers whose first two elements, swapped, give it |
| `FetchShape.ExtraElementsDropped` | scripts/helpers/fetch_shape.py:74 | only `pair[:2]` is read: cutting every pair to two elements leaves the output unchanged |
| `FetchShape.SinglePointExample` | scripts/helpers/fetch_shape.py:76-79 | `[13.4, 52.5]` gives `[[52.5, 13.4]]` |
| `FetchShape.NestedExample` | scripts/helpers/fetch_shape.py:69-75 | `[[13.4, 52.5], [13.41, 52.51]]` gives `[[52.5, 13.4], [52.51, 13.41]]` |
| `FetchShape.FetchTripShape` | scripts/helpers/fetch_shape.py:30-52 | a success has type `"LineString"` and a non-empty coordinate list that is exactly the extraction of one of the two polyline locations, and that location yields a vertex; "no polyline" only when neither location yields one |
| `FetchShape.TopLevelPreferred` | scripts/helpers/fetch_shape.py:31-38 | whenever the top-level polyline yields a vertex, its extraction is the result, whatever `trip` holds |
| `FetchShape.TripFallback` | scripts/helpers/fetch_shape.py:40-50 | when the top level yields nothing without raising, the result is `trip.polyline`'s extraction if that is non-empty, and otherwise the "no polyline" error |
| `FetchShape.NoVertexNoShape` | scripts/helpers/fetch_shape.py:46-52 | an empty coordinate list is never returned: if neither location yields a vertex, the call fails |
| `FetchStops.FirstStopIndex` | scripts/helpers/fetch_stops.py:20-24 | the chosen index holds the first item whose type is `"stop"`, with none before it; there is no index only when no item is a stop |
| `FetchStops.FetchStopsForNames` | scripts/helpers/fetch_stops.py:6-50 | the outer loop and the breaking inner search build exactly `StopRecords(names, lookup)` |
| `FetchStops.StopRecordsAt` | scripts/helpers/fetch_stops.py:14-48 | exactly one record per name, and record `i` is the record for `names[i]` |
| `FetchStops.StopRecordsAppend` | scripts/helpers/fetch_stops.py:28-45 | records are only appended: the records of earlier names do not depend on later names |
| `FetchStops.NoStopGivesPlaceholder` | scripts/helpers/fetch_stops.py:26-36 | with no item of type `"stop"`, the record is `{name: query, id: null, lat: null, lon: null}` |
| `FetchStops.FirstStopChosen` | scripts/helpers/fetch_stops.py:38-45 | a found stop gives its id and its location's latitude and longitude (both null without a location); a missing name key falls back to the query name, and an explicit null name stays null |
| `FetchStops.LaterItemsIgnored` | scripts/helpers/fetch_stops.py:20-24 | items after the first stop do not change the record |
| `BuildLine.Contains` | scripts/build_line.py:65 | Python's substring test: true if and only if the needle occurs at some index |
| `BuildLine.FindExampleM2TripId` | scripts/build_line.py:45-71 | the search loop with its early return computes `SelectFromResponse`; missing `departures` reads as an empty list |
| `BuildLine.SelectTripFindsFirst` | scripts/build_line.py:62-69 | if departure `k` is the first with line `"M2"`, a direction containing `"Alexanderplatz"` and a non-empty `tripId`, and nothing before it raises, then its `tripId` is returned |
| `BuildLine.SelectTripOkIsFirst` | scripts/build_line.py:62-69 | every successful selection is the `tripId` of such a first qualifying departure |
| `BuildLine.SelectTripNotFound` | scripts/build_line.py:62-71 | the "no M2 trip" error occurs if and only if no departure qualifies and none has a null `line` |
| `BuildLine.MissingTripIdSkipped` | scripts/build_line.py:66-67 | a departure that matches line and direction but has a missing or empty `tripId` is passed over, and the search continues |
| `BuildLine.MissingFieldsNeverMatch` | scripts/build_line.py:63-65 | a missing or null direction (read as `""`) or a missing `line` object never matches |
| `BuildLine.NoFallbackToOtherDirections` | scripts/build_line.py:65-71 | when no direction contains `"Alexanderplatz"`, selection fails, even if M2 departures exist |
| `BuildLine.M2Line` | scripts/build_line.py:74-99 | a built record has id `"M2"`, name `"Tram M2"` and color `"#7AB929"`; its 18 stops are the lookups of `M2StopNames`, in order; its shape is the selected trip's non-empty LineString; the build succeeds if and only if trip selection and shape extraction both succeed |
| `BuildLine.BuildM2Json` | scripts/build_line.py:85-99 | stop lookup, trip search, then shape fetch and assembly compute exactly `M2Line` |
| `BuildLine.Published` | scripts/build_line.py:119-130 | afterwards `m2.json` holds the record and `lines.json` holds only `{M2, Tram M2, m2.json, #7AB929}`; other files are unchanged |
| `BuildLine.PublishedIdempotent` | scripts/build_line.py:109-130 | writing the same record a second time leaves the directory as the first write did |
| `BuildLine.IndexOverwritten` | scripts/build_line.py:119-130 | the new `lines.json` does not depend on what the directory held before |
| `BuildLine.DataDir.BuildAndWrite` | scripts/build_line.py:102-132 | the record is built before any file is written: on failure no file changes, and on success the directory becomes `Published(old files, record)` |
| `Vbb.GetDepartures` | src/api/vbb.py:31-34 | the result is the response itself or, when the response is an object with a `departures` member, that member |
| `Vbb.EnvelopeUnwrapped` | src/api/vbb.py:32-33 | an object with a `departures` member gives that member, whatever its value (a list, `null`, an object) and whatever else the object carries |
| `Vbb.OtherResponsesUnchanged` | src/api/vbb.py:32-34 | any other response (a list, an object without `departures`, a scalar) is returned unchanged |
| `Vbb.MinutesUntil` | src/api/vbb.py:37-64 | never negative; 0 when the departure is at most 60 s away or already past; otherwise the smallest `m` with `60·m ≥ seconds − 60` |
| `Vbb.MinutesUntilIsLeast` | src/api/vbb.py:62-63 | no smaller whole number of minutes covers the time left after the offset |
| `Vbb.MinutesUntilMonotone` | src/api/vbb.py:56-64 | a later departure never shows fewer minutes |
| `Vbb.MinutesUntilExamples` | src/api/vbb.py:56-63 | at most 60 s gives 0, a value in (60, 120] s gives 1, and 300 s gives 4 |

## Left out

- HTTP: every `requests.get` and `raise_for_status`. Each decoded response is an input. The `/locations` results are a map from query name to item list. The departures response is a `DeparturesResponse`. The `/trips/{id}` responses are a total function from trip id to `TripResponse`. Transport failures are not modelled.
- File-system work in `main`: `os.makedirs`, paths, and the JSON encoding, indentation and `ensure_ascii` of `json.dump`. Only the values written and the order of writing are modelled. A failure between the two writes is not modelled.
- All `print` logging in the four files.
- `src/ui/console.py` and `src/main.py` only render and print. They import functions that `src/lines/m2.py` does not define, so they are not part of this model.
- `src/lines/m2.py` holds only constants that the modelled files do not use.
- `Vbb.MinutesUntil`: takes whole seconds until departure. ISO-8601 parsing, reading the clock and fractional seconds are not modelled.
- JSON values of a type the scripts do not expect are excluded by the datatypes, apart from the `null`s modelled by `Field`. Examples are a non-object departure or location item, coordinates that are a number or a string, and pairs nested three deep (MultiLineString).
- `FetchShape.FeaturesToLatLon`: requires each single-point feature to start with two numbers, because `_features_to_latlon` raises on unpacking fewer. It does not model a non-number copied into a vertex.
- `FetchStops.FetchStopsForNames`: requires a result list for every name. A failed `/locations` request is a transport failure, which is not modelled.
