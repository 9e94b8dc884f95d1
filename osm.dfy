/** The `/fetch` route of server/routes/osm.js: the bounds check, the
    default feature types and the tag filter applied to the converted
    OpenStreetMap features. The HTTP fetch and the OSM-to-GeoJSON conversion
    are not modelled: their outcome is a parameter. */
module Osm {
  import opened Common
  import opened GeoJson

  /** `!bounds || !bounds.north || ...`: every side must be present and
      truthy, so a side equal to 0 is rejected like a missing one. */
  predicate BoundsPresent(bounds: Option<map<string, Json>>)
  {
    bounds.Some? &&
    TruthyAt(bounds.value, "north") && TruthyAt(bounds.value, "south") &&
    TruthyAt(bounds.value, "east") && TruthyAt(bounds.value, "west")
  }

  /** A bound exactly at the equator or the prime meridian is refused. */
  lemma ZeroBoundRejected(bounds: map<string, Json>, side: string)
    requires side in {"north", "south", "east", "west"}
    requires side in bounds && bounds[side] == JNum(0.0)
    ensures !BoundsPresent(Some(bounds))
  {
  }

  /** `req.body.features || ['buildings']`; None stands for a missing or
      falsy value. An empty array is truthy and is kept as it is. */
  function RequestedTypes(features: Option<seq<string>>): (types: seq<string>)
    ensures features.None? ==> types == ["buildings"]
    ensures features.Some? ==> types == features.value
  {
    if features.None? then ["buildings"] else features.value
  }

  /** `props.natural === 'water' || props.waterway`. */
  predicate IsWater(props: map<string, Json>)
  {
    ("natural" in props && props["natural"] == JStr("water")) || TruthyAt(props, "waterway")
  }

  /** `props.leisure === 'park' || props.landuse === 'recreation_ground'`. */
  predicate IsPark(props: map<string, Json>)
  {
    ("leisure" in props && props["leisure"] == JStr("park")) ||
    ("landuse" in props && props["landuse"] == JStr("recreation_ground"))
  }

  /** The `filter` callback: a feature without properties is dropped; one
      with properties is kept when one of the requested types matches its
      tags. */
  predicate Keep(types: seq<string>, f: Feature)
  {
    f.properties.Some? &&
    var props := f.properties.value;
    ("buildings" in types && TruthyAt(props, "building")) ||
    ("roads" in types && TruthyAt(props, "highway")) ||
    ("water" in types && IsWater(props)) ||
    ("parks" in types && IsPark(props))
  }

  /** `filterFeaturesByType`; `requestedTypes` may be missing (None). */
  function FilterFeaturesByType(features: seq<Feature>, requestedTypes: Option<seq<string>>): (r: seq<Feature>)
    ensures requestedTypes.None? || requestedTypes.value == [] ==> r == features
    ensures requestedTypes.Some? && requestedTypes.value != [] ==>
      forall f :: f in r <==> f in features && Keep(requestedTypes.value, f)
    ensures |r| <= |features|
  {
    if requestedTypes.None? || requestedTypes.value == [] then features
    else Filtered(features, requestedTypes.value)
  }

  /** `features.filter(Keep)`. */
  function Filtered(features: seq<Feature>, types: seq<string>): (r: seq<Feature>)
    ensures forall f :: f in r <==> f in features && Keep(types, f)
    ensures |r| <= |features|
  {
    if features == [] then []
    else
      var init := features[..|features| - 1];
      var last := features[|features| - 1];
      assert features == init + [last];
      Filtered(init, types) + if Keep(types, last) then [last] else []
  }

  /** The filter keeps the order of the features it keeps. */
  lemma {:induction false} FilteredIsSubseq(features: seq<Feature>, types: seq<string>)
    ensures Subseq(Filtered(features, types), features)
  {
    if features != [] {
      var init := features[..|features| - 1];
      var last := features[|features| - 1];
      var r := Filtered(features, types);
      FilteredIsSubseq(init, types);
      if Keep(types, last) {
        assert r[..|r| - 1] == Filtered(init, types);
      } else {
        assert r == Filtered(init, types);
        if r != [] {
          assert Subseq(r, init);
        }
      }
    }
  }

  /** A feature without properties never survives a non-empty type list. */
  lemma NoPropertiesDropped(features: seq<Feature>, types: seq<string>, f: Feature)
    requires types != [] && f.properties.None?
    ensures f !in FilterFeaturesByType(features, Some(types))
  {
  }

  /** Filtering twice with the same types is filtering once. */
  lemma {:induction false} FilteredIdempotent(features: seq<Feature>, types: seq<string>)
    ensures Filtered(Filtered(features, types), types) == Filtered(features, types)
  {
    if features != [] {
      var init := features[..|features| - 1];
      var last := features[|features| - 1];
      FilteredIdempotent(init, types);
      FilteredAppend(Filtered(init, types), if Keep(types, last) then [last] else [], types);
    }
  }

  /** The filter distributes over concatenation. */
  lemma {:induction false} FilteredAppend(a: seq<Feature>, b: seq<Feature>, types: seq<string>)
    ensures Filtered(a + b, types) == Filtered(a, types) + Filtered(b, types)
    decreases |b|
  {
    if b == [] {
      assert a + b == a;
    } else {
      var init := b[..|b| - 1];
      var last := b[|b| - 1];
      assert (a + b)[..|a + b| - 1] == a + init;
      assert (a + b)[|a + b| - 1] == last;
      FilteredAppend(a, init, types);
    }
  }

  /** What the OpenStreetMap request gave back, already converted to
      GeoJSON: an abort (the timeout), another failure, or a response with
      its `ok` flag, the number of raw `elements` (None when the field is
      missing) and the converted features (None when missing). */
  datatype Upstream =
    | Aborted
    | Failed
    | Reply(ok: bool, elements: Option<nat>, features: Option<seq<Feature>>)

  datatype OsmResponse =
    | InvalidBounds                                  // 400
    | Timeout                                        // 408
    | ServerError                                    // 500
    | FeatureCollection(features: seq<Feature>, requestedFeatures: seq<string>,
                        featureCount: nat, totalElements: nat)

  /** `POST /fetch`. */
  function FetchRoute(bounds: Option<map<string, Json>>, requested: Option<seq<string>>, upstream: Upstream): (resp: OsmResponse)
    ensures resp.InvalidBounds? <==> !BoundsPresent(bounds)
    ensures resp.Timeout? <==> BoundsPresent(bounds) && upstream.Aborted?
    ensures resp.FeatureCollection? ==>
      upstream.Reply? && upstream.ok && upstream.elements.Some? &&
      resp.requestedFeatures == RequestedTypes(requested) &&
      resp.featureCount == |resp.features| &&
      resp.totalElements == upstream.elements.value &&
      Subseq(resp.features, if upstream.features.Some? then upstream.features.value else [])
    ensures resp.FeatureCollection? ==>
      resp.features == FilterFeaturesByType(if upstream.features.Some? then upstream.features.value else [],
                                            Some(RequestedTypes(requested)))
    ensures BoundsPresent(bounds) && upstream.Reply? && upstream.ok && upstream.elements.Some? ==>
      resp.FeatureCollection?
    ensures resp.ServerError? <==>
      BoundsPresent(bounds) &&
      (upstream.Failed? || (upstream.Reply? && (!upstream.ok || upstream.elements.None?)))
  {
    if !BoundsPresent(bounds) then InvalidBounds
    else
      match upstream
      case Aborted => Timeout
      case Failed => ServerError
      case Reply(ok, elements, features) =>
        if !ok || elements.None? then ServerError
        else
          var converted := if features.Some? then features.value else [];
          var types := RequestedTypes(requested);
          var kept := FilterFeaturesByType(converted, Some(types));
          assert Subseq(kept, converted) by {
            if types == [] {
              SubseqReflexive(converted);
            } else {
              FilteredIsSubseq(converted, types);
            }
          }
          FeatureCollection(kept, types, |kept|, elements.value)
  }
}
