/** Route geometry of one trip: the GeoJSON-like `polyline` payload of the
    gateway's `/trips/{id}` response, flattened into `[lat, lon]` vertices. */
module FetchShape {
  import opened Common

  /** One element of a `coordinates` array. */
  datatype Entry =
    | Num(value: real)         // a bare number (a single point's lon or lat)
    | List(items: seq<real>)   // a nested `[lon, lat, ...]` list
    | NonList                  // any other JSON value: null, a string, an object

  /** `geometry`; `coordinates` is None when the key is missing or null. */
  datatype Geometry = Geometry(coordinates: Option<seq<Entry>>)

  /** A feature is `null` or an object whose `geometry` may be missing or null. */
  datatype Feature = NullFeature | Feature(geometry: Option<Geometry>)

  /** An output vertex, latitude first. */
  datatype LatLon = LatLon(lat: real, lon: real)

  /** The `coordinates` a feature holds, with missing, null and empty all read as []. */
  function CoordsOf(f: Feature): seq<Entry>
  {
    match f
    case NullFeature => []
    case Feature(g) =>
      if g.Some? && g.value.coordinates.Some? then g.value.coordinates.value else []
  }

  /** A feature whose first coordinate is not a list is a single point, and the
      `_features_to_latlon` unpacks its first two elements: it needs two numbers there. */
  predicate WellFormed(f: Feature)
  {
    var cs := CoordsOf(f);
    |cs| > 0 && !cs[0].List? ==> |cs| >= 2 && cs[0].Num? && cs[1].Num?
  }

  predicate AllWellFormed(fs: seq<Feature>)
  {
    forall i :: 0 <= i < |fs| ==> WellFormed(fs[i])
  }

  /** A nested entry yields one swapped vertex if it is a list of at least two numbers. */
  function PairVertex(e: Entry): seq<LatLon>
  {
    if e.List? && |e.items| >= 2 then [LatLon(e.items[1], e.items[0])] else []
  }

  /** The vertices of a nested coordinate list, in entry order. */
  function PairVertices(cs: seq<Entry>): seq<LatLon>
  {
    if cs == [] then [] else PairVertices(cs[..|cs| - 1]) + PairVertex(cs[|cs| - 1])
  }

  /** The vertices one feature contributes. A single point that does not
      start with two numbers makes `_features_to_latlon` raise; every caller excludes it
      with `WellFormed`, so the empty value given for it here is never used. */
  function FeatureVertices(f: Feature): seq<LatLon>
  {
    var cs := CoordsOf(f);
    if cs == [] then []
    else if cs[0].List? then PairVertices(cs)
    else if |cs| >= 2 && cs[0].Num? && cs[1].Num? then [LatLon(cs[1].value, cs[0].value)]
    else []
  }

  /** The specification of the extractor: feature after feature. */
  function LatLonOf(fs: seq<Feature>): seq<LatLon>
  {
    if fs == [] then [] else LatLonOf(fs[..|fs| - 1]) + FeatureVertices(fs[|fs| - 1])
  }

  /** `_features_to_latlon`: nested loops that append to the output and skip
      empty features and malformed pairs. */
  method FeaturesToLatLon(features: seq<Feature>) returns (coords: seq<LatLon>)
    requires AllWellFormed(features)
    ensures coords == LatLonOf(features)
  {
    coords := [];
    for i := 0 to |features|
      invariant coords == LatLonOf(features[..i])
    {
      assert features[..i + 1][..i] == features[..i];
      var cs := CoordsOf(features[i]);
      if cs == [] {
        continue;
      }
      if cs[0].List? {
        for j := 0 to |cs|
          invariant coords == LatLonOf(features[..i]) + PairVertices(cs[..j])
        {
          assert cs[..j + 1][..j] == cs[..j];
          var pair := cs[j];
          if !pair.List? || |pair.items| < 2 {
            continue;
          }
          coords := coords + [LatLon(pair.items[1], pair.items[0])];
        }
        assert cs[..|cs|] == cs;
      } else {
        coords := coords + [LatLon(cs[1].value, cs[0].value)];
      }
    }
    assert features[..|features|] == features;
  }

  // ---------------------------------------------------------------------------
  // Properties of the extractor

  lemma {:induction false} LatLonOfAppend(a: seq<Feature>, b: seq<Feature>)
    ensures LatLonOf(a + b) == LatLonOf(a) + LatLonOf(b)
    decreases |b|
  {
    if b == [] {
      assert a + b == a;
    } else {
      var b', last := b[..|b| - 1], b[|b| - 1];
      var vs := FeatureVertices(last);
      var x, y, z := LatLonOf(a), LatLonOf(b'), LatLonOf(a + b');
      assert z == x + y by {
        LatLonOfAppend(a, b');
      }
      assert LatLonOf(a + b) == z + vs by {
        assert (a + b)[..|a + b| - 1] == a + b';
        assert (a + b)[|a + b| - 1] == last;
      }
      assert LatLonOf(b) == y + vs;
      assert (x + y) + vs == x + (y + vs);
    }
  }

  /** A feature with missing or empty coordinates contributes nothing, and the
      features after it are still processed. */
  lemma EmptyFeatureSkipped(a: seq<Feature>, f: Feature, b: seq<Feature>)
    requires CoordsOf(f) == []
    ensures LatLonOf(a + [f] + b) == LatLonOf(a + b)
  {
    assert LatLonOf([f]) == [] by {
      assert [f][..0] == [];
    }
    LatLonOfAppend(a, [f]);
    LatLonOfAppend(a + [f], b);
    LatLonOfAppend(a, b);
  }

  /** A single-point feature `[lon, lat, ...]` contributes exactly one vertex,
      `[lat, lon]`, between the vertices of the features around it. */
  lemma SinglePointOneVertex(a: seq<Feature>, lon: real, lat: real, rest: seq<Entry>, b: seq<Feature>)
    ensures var f := Feature(Some(Geometry(Some([Num(lon), Num(lat)] + rest))));
      LatLonOf(a + [f] + b) == LatLonOf(a) + [LatLon(lat, lon)] + LatLonOf(b)
  {
    var f := Feature(Some(Geometry(Some([Num(lon), Num(lat)] + rest))));
    assert LatLonOf([f]) == [LatLon(lat, lon)] by {
      assert [f][..0] == [];
    }
    LatLonOfAppend(a, [f]);
    LatLonOfAppend(a + [f], b);
  }

  lemma {:induction false} PairVerticesAppend(a: seq<Entry>, b: seq<Entry>)
    ensures PairVertices(a + b) == PairVertices(a) + PairVertices(b)
    decreases |b|
  {
    if b == [] {
      assert a + b == a;
    } else {
      var b' := b[..|b| - 1];
      assert (a + b)[..|a + b| - 1] == a + b';
      PairVerticesAppend(a, b');
    }
  }

  /** In a nested coordinate list, an entry that is not a list, or has fewer
      than two elements, is skipped and the entries after it still count. */
  lemma MalformedPairSkipped(a: seq<Entry>, e: Entry, b: seq<Entry>)
    requires !e.List? || |e.items| < 2
    ensures PairVertices(a + [e] + b) == PairVertices(a + b)
  {
    assert PairVertices([e]) == PairVertices([]) + PairVertex(e);
    PairVerticesAppend(a, [e]);
    PairVerticesAppend(a + [e], b);
    PairVerticesAppend(a, b);
  }

  /** Every well-formed pair of a nested list becomes one vertex, at the same
      position, with its axes swapped: `[lon, lat]` in, `[lat, lon]` out. */
  lemma {:induction false} PairVerticesSwapAxes(cs: seq<Entry>)
    requires forall k :: 0 <= k < |cs| ==> cs[k].List? && |cs[k].items| >= 2
    ensures |PairVertices(cs)| == |cs|
    ensures forall k :: 0 <= k < |cs| ==>
      PairVertices(cs)[k] == LatLon(cs[k].items[1], cs[k].items[0])
  {
    if cs != [] {
      PairVerticesSwapAxes(cs[..|cs| - 1]);
    }
  }

  /** A vertex comes out of a nested list exactly when some entry of it is a
      list of at least two numbers whose first two, swapped, give the vertex. */
  lemma {:induction false} PairVerticesMembers(cs: seq<Entry>, v: LatLon)
    ensures v in PairVertices(cs) <==>
      exists k :: 0 <= k < |cs| && cs[k].List? && |cs[k].items| >= 2 &&
                  v == LatLon(cs[k].items[1], cs[k].items[0])
  {
    if cs != [] {
      var init := cs[..|cs| - 1];
      PairVerticesMembers(init, v);
      if v in PairVertices(cs) && v !in PairVertices(init) {
        var k := |cs| - 1;
        assert cs[k].List? && |cs[k].items| >= 2 && v == LatLon(cs[k].items[1], cs[k].items[0]);
      }
      if v !in PairVertices(cs) {
        forall k | 0 <= k < |cs| && cs[k].List? && |cs[k].items| >= 2
          ensures v != LatLon(cs[k].items[1], cs[k].items[0])
        {
          if k < |cs| - 1 {
            assert cs[k] == init[k];
          }
        }
      }
    }
  }

  /** Only the first two elements of a nested pair are read: dropping the rest
      (an altitude, say) does not change the extractor's output. */
  function Truncated(cs: seq<Entry>): (r: seq<Entry>)
    ensures |r| == |cs|
    ensures forall k :: 0 <= k < |cs| ==>
      r[k] == if cs[k].List? && |cs[k].items| > 2 then List(cs[k].items[..2]) else cs[k]
  {
    if cs == [] then []
    else
      var e := cs[|cs| - 1];
      Truncated(cs[..|cs| - 1]) + [if e.List? && |e.items| > 2 then List(e.items[..2]) else e]
  }

  lemma {:induction false} ExtraElementsDropped(cs: seq<Entry>)
    ensures PairVertices(Truncated(cs)) == PairVertices(cs)
  {
    if cs != [] {
      var init := cs[..|cs| - 1];
      var t := Truncated(cs);
      assert t[..|t| - 1] == Truncated(init);
      ExtraElementsDropped(init);
    }
  }

  /** The two concrete extractions: a single point and a nested list. */
  lemma SinglePointExample()
    ensures LatLonOf([Feature(Some(Geometry(Some([Num(13.4), Num(52.5)]))))]) == [LatLon(52.5, 13.4)]
  {
    var f := Feature(Some(Geometry(Some([Num(13.4), Num(52.5)]))));
    assert [f][..0] == [];
  }

  lemma NestedExample()
    ensures
      var f := Feature(Some(Geometry(Some([List([13.4, 52.5]), List([13.41, 52.51])]))));
      LatLonOf([f]) == [LatLon(52.5, 13.4), LatLon(52.51, 13.41)]
  {
    var cs := [List([13.4, 52.5]), List([13.41, 52.51])];
    PairVerticesSwapAxes(cs);
    var f := Feature(Some(Geometry(Some(cs))));
    assert [f][..0] == [];
  }

  // ---------------------------------------------------------------------------
  // fetch_trip_shape: choosing between the two places a polyline can be

  /** A `polyline` object; `features` may be missing, null or a list. */
  datatype Polyline = Polyline(features: Field<seq<Feature>>)

  /** The `trip` object of the response. */
  datatype Trip = Trip(polyline: Field<Polyline>)

  /** The decoded `/trips/{id}?polyline=true` response. */
  datatype TripResponse = TripResponse(polyline: Field<Polyline>, trip: Field<Trip>)

  /** The shape handed to the map: `{type, coordinates}`. */
  datatype Shape = Shape(kind: string, coordinates: seq<LatLon>)

  datatype ShapeError =
    | NoPolyline          // neither location yields a vertex (`fetch_trip_shape`'s ValueError)
    | MalformedResponse   // a null that `fetch_trip_shape` iterates over or searches for a key

  predicate PolylineWellFormed(p: Field<Polyline>)
  {
    p.Present? && p.value.features.Present? ==> AllWellFormed(p.value.features.value)
  }

  /** Single points are well formed wherever `fetch_trip_shape` extracts them:
      at the top level always, under `trip` only when the top level yields nothing. */
  predicate ResponseWellFormed(data: TripResponse)
  {
    PolylineWellFormed(data.polyline) &&
    (data.trip.Present? && !TopLevelYields(data) ==> PolylineWellFormed(data.trip.value.polyline))
  }

  /** The vertices of a polyline whose `features` are present. */
  function PolylineVertices(p: Polyline): seq<LatLon>
    requires p.features.Present?
  {
    LatLonOf(p.features.value)
  }

  /** True when the top-level polyline exists, has features, and they yield a vertex. */
  predicate TopLevelYields(data: TripResponse)
  {
    data.polyline.Present? && data.polyline.value.features.Present? &&
    PolylineVertices(data.polyline.value) != []
  }

  /** True when `trip.polyline` exists, has features, and they yield a vertex. */
  predicate TripYields(data: TripResponse)
  {
    data.trip.Present? && data.trip.value.polyline.Present? &&
    data.trip.value.polyline.value.features.Present? &&
    PolylineVertices(data.trip.value.polyline.value) != []
  }

  /** `fetch_trip_shape` after the request: try the top-level polyline, then
      `trip.polyline`, else raise. */
  function FetchTripShape(data: TripResponse): (r: Result<Shape, ShapeError>)
    requires ResponseWellFormed(data)
    ensures r.Ok? ==> r.value.kind == "LineString" && r.value.coordinates != []
    ensures r.Ok? ==>
      (TopLevelYields(data) && r.value.coordinates == PolylineVertices(data.polyline.value)) ||
      (TripYields(data) && r.value.coordinates == PolylineVertices(data.trip.value.polyline.value))
    ensures r == Err(NoPolyline) ==> !TopLevelYields(data) && !TripYields(data)
  {
    // Variant A: `"polyline" in data and "features" in data["polyline"]`
    if data.polyline.Null? then Err(MalformedResponse)
    else if data.polyline.Present? && data.polyline.value.features.Null? then Err(MalformedResponse)
    else if TopLevelYields(data) then
      Ok(Shape("LineString", PolylineVertices(data.polyline.value)))
    // Variant B: `data.get("trip", {}).get("polyline")`
    else if data.trip.Null? then Err(MalformedResponse)
    else if data.trip.Absent? || !data.trip.value.polyline.Present? then Err(NoPolyline)
    else if data.trip.value.polyline.value.features.Null? then Err(MalformedResponse)
    else if TripYields(data) then
      Ok(Shape("LineString", PolylineVertices(data.trip.value.polyline.value)))
    else Err(NoPolyline)
  }

  /** The top-level polyline wins whenever it yields a vertex, whatever `trip` holds. */
  lemma TopLevelPreferred(data: TripResponse)
    requires ResponseWellFormed(data)
    requires data.polyline.Present? && data.polyline.value.features.Present?
    requires LatLonOf(data.polyline.value.features.value) != []
    ensures FetchTripShape(data) == Ok(Shape("LineString", LatLonOf(data.polyline.value.features.value)))
  {
  }

  /** `trip.polyline` is used only when the top level yields nothing without
      raising: it is missing, has no `features`, or its features give no vertex. */
  lemma TripFallback(data: TripResponse)
    requires ResponseWellFormed(data)
    requires data.polyline.Absent? ||
      (data.polyline.Present? && !data.polyline.value.features.Null? && !TopLevelYields(data))
    requires data.trip.Present? && data.trip.value.polyline.Present?
    requires data.trip.value.polyline.value.features.Present?
    ensures FetchTripShape(data) ==
      var gs := LatLonOf(data.trip.value.polyline.value.features.value);
      if gs != [] then Ok(Shape("LineString", gs)) else Err(NoPolyline)
  {
  }

  /** A successful result is never empty: when neither location yields a
      vertex, the result is an error. */
  lemma NoVertexNoShape(data: TripResponse)
    requires ResponseWellFormed(data)
    requires !TopLevelYields(data) && !TripYields(data)
    ensures FetchTripShape(data).Err?
  {
  }
}
