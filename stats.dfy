/** The `/stats` route of server/routes/process.js: one pass over the
    features counting geometry kinds, summing area and vertex counts and
    tallying building types. */
module Stats {
  import opened Common
  import opened GeoJson

  /** The counters the loop updates. Building types are keyed by the
      property value itself. */
  datatype Tally = Tally(
    polygons: nat, lines: nat, points: nat,
    totalArea: real, totalVertices: nat,
    buildingTypes: map<Json, nat>)

  /** The response body. */
  datatype Summary = Summary(
    totalFeatures: nat, polygons: nat, lines: nat, points: nat,
    totalArea: real, averageVertices: real,
    buildingTypes: map<Json, nat>, totalVertices: nat)

  const Empty := Tally(0, 0, 0, 0.0, 0, map[])

  /** A feature the loop can read without throwing: not `null`, and a
      polygon has an outer ring. */
  predicate Readable(f: Option<Feature>)
  {
    f.Some? &&
    (f.value.geometry.Some? && f.value.geometry.value.Polygon? ==> f.value.geometry.value.rings != [])
  }

  /** The building type the loop counts for a feature: only features with a
      geometry and a truthy `properties.building` have one. */
  function BuildingOf(f: Feature): (b: Option<Json>)
    ensures b.Some? ==> Truthy(b.value)
  {
    if f.geometry.Some? && f.properties.Some? && TruthyAt(f.properties.value, "building")
    then Some(f.properties.value["building"])
    else None
  }

  function CountOf(m: map<Json, nat>, key: Json): nat
  {
    if key in m then m[key] else 0
  }

  /** One iteration of the `forEach` body; None where it throws. */
  function AddFeature(area: seq<Ring> -> real, t: Tally, f: Option<Feature>): (r: Option<Tally>)
    ensures r.Some? <==> Readable(f)
  {
    if !Readable(f) then None
    else
      var feature := f.value;
      if feature.geometry.None? then Some(t)
      else
        var counted :=
          match feature.geometry.value
          case Polygon(rings) =>
            t.(polygons := t.polygons + 1, totalArea := t.totalArea + area(rings),
               totalVertices := t.totalVertices + |rings[0]|)
          case LineString(line) =>
            t.(lines := t.lines + 1, totalVertices := t.totalVertices + |line|)
          case PointGeometry(_) =>
            t.(points := t.points + 1)
          case OtherGeometry(_) => t;
        var building := BuildingOf(feature);
        if building.None? then Some(counted)
        else
          var key := building.value;
          Some(counted.(buildingTypes := counted.buildingTypes[key := CountOf(counted.buildingTypes, key) + 1]))
  }

  /** The counters after the loop has visited `fs`; None when some feature
      made it throw. */
  function Tallied(area: seq<Ring> -> real, fs: seq<Option<Feature>>): Option<Tally>
  {
    if fs == [] then Some(Empty)
    else
      match Tallied(area, fs[..|fs| - 1])
      case None => None
      case Some(t) => AddFeature(area, t, fs[|fs| - 1])
  }

  /** The average over ALL features (not just the ones with vertices), 0
      for an empty list. */
  function Average(totalVertices: nat, totalFeatures: nat): (avg: real)
    ensures totalFeatures == 0 ==> avg == 0.0
    ensures totalFeatures > 0 ==> avg * totalFeatures as real == totalVertices as real
    ensures avg >= 0.0
  {
    if totalFeatures > 0 then totalVertices as real / totalFeatures as real else 0.0
  }

  /** The route's answer for a features array; None is the 500 response. */
  function StatsOf(area: seq<Ring> -> real, fs: seq<Option<Feature>>): Option<Summary>
  {
    match Tallied(area, fs)
    case None => None
    case Some(t) =>
      Some(Summary(|fs|, t.polygons, t.lines, t.points, t.totalArea,
                   Average(t.totalVertices, |fs|), t.buildingTypes, t.totalVertices))
  }

  /** The loop as the source writes it, over a mutable tally. */
  method ComputeStats(area: seq<Ring> -> real, features: seq<Option<Feature>>) returns (r: Option<Summary>)
    ensures r == StatsOf(area, features)
  {
    var stats := Empty;
    for i := 0 to |features|
      invariant Tallied(area, features[..i]) == Some(stats)
    {
      assert features[..i + 1][..i] == features[..i];
      var f := features[i];
      if f.None? {
        TalliedSucceeds(area, features);
        return None;
      }
      var feature := f.value;
      if feature.geometry.Some? {
        match feature.geometry.value {
          case Polygon(rings) =>
            stats := stats.(polygons := stats.polygons + 1);
            stats := stats.(totalArea := stats.totalArea + area(rings));
            if rings == [] {
              TalliedSucceeds(area, features);
              return None;
            }
            stats := stats.(totalVertices := stats.totalVertices + |rings[0]|);
          case LineString(line) =>
            stats := stats.(lines := stats.lines + 1);
            stats := stats.(totalVertices := stats.totalVertices + |line|);
          case PointGeometry(_) =>
            stats := stats.(points := stats.points + 1);
          case OtherGeometry(_) =>
        }
        if feature.properties.Some? && TruthyAt(feature.properties.value, "building") {
          var buildingType := feature.properties.value["building"];
          stats := stats.(buildingTypes := stats.buildingTypes[buildingType := CountOf(stats.buildingTypes, buildingType) + 1]);
        }
      }
    }
    assert features[..|features|] == features;
    var avg := if |features| > 0 then stats.totalVertices as real / |features| as real else 0.0;
    r := Some(Summary(|features|, stats.polygons, stats.lines, stats.points, stats.totalArea,
                      avg, stats.buildingTypes, stats.totalVertices));
  }

  /** The route answers exactly when every feature is readable. */
  lemma {:induction false} TalliedSucceeds(area: seq<Ring> -> real, fs: seq<Option<Feature>>)
    ensures Tallied(area, fs).Some? <==> forall i :: 0 <= i < |fs| ==> Readable(fs[i])
  {
    if fs != [] {
      var init := fs[..|fs| - 1];
      TalliedSucceeds(area, init);
      assert forall i :: 0 <= i < |init| ==> init[i] == fs[i];
    }
  }

  /** Features counted per geometry kind never outnumber the features. */
  lemma {:induction false} TalliedKindsBound(area: seq<Ring> -> real, fs: seq<Option<Feature>>)
    requires Tallied(area, fs).Some?
    ensures var t := Tallied(area, fs).value; t.polygons + t.lines + t.points <= |fs|
  {
    if fs != [] {
      TalliedKindsBound(area, fs[..|fs| - 1]);
    }
  }

  /** The geometry kinds with a counter of their own. */
  datatype Kind = PolygonKind | LineKind | PointKind

  /** The counter the `switch` increments for a feature, if any. */
  function KindOf(f: Option<Feature>): Option<Kind>
  {
    if f.Some? && f.value.geometry.Some? then
      match f.value.geometry.value
      case Polygon(_) => Some(PolygonKind)
      case LineString(_) => Some(LineKind)
      case PointGeometry(_) => Some(PointKind)
      case OtherGeometry(_) => None
    else None
  }

  /** The features of kind `k`. */
  function CountKind(fs: seq<Option<Feature>>, k: Kind): nat
  {
    if fs == [] then 0
    else CountKind(fs[..|fs| - 1], k) + if KindOf(fs[|fs| - 1]) == Some(k) then 1 else 0
  }

  /** The area a feature adds to `totalArea`: that of a polygon, 0 for the rest. */
  function AreaOf(area: seq<Ring> -> real, f: Option<Feature>): real
  {
    if f.Some? && f.value.geometry.Some? && f.value.geometry.value.Polygon?
    then area(f.value.geometry.value.rings) else 0.0
  }

  function SumArea(area: seq<Ring> -> real, fs: seq<Option<Feature>>): real
  {
    if fs == [] then 0.0 else SumArea(area, fs[..|fs| - 1]) + AreaOf(area, fs[|fs| - 1])
  }

  /** Each kind counter is the number of features of that kind, and
      `totalArea` is the sum of the polygons' areas. */
  lemma {:induction false} TalliedKinds(area: seq<Ring> -> real, fs: seq<Option<Feature>>)
    requires Tallied(area, fs).Some?
    ensures var t := Tallied(area, fs).value;
      t.polygons == CountKind(fs, PolygonKind) && t.lines == CountKind(fs, LineKind) &&
      t.points == CountKind(fs, PointKind) && t.totalArea == SumArea(area, fs)
  {
    if fs != [] {
      TalliedKinds(area, fs[..|fs| - 1]);
    }
  }

  /** The features whose building type is `key`. */
  function CountBuilding(fs: seq<Option<Feature>>, key: Json): nat
  {
    if fs == [] then 0
    else
      var last := fs[|fs| - 1];
      CountBuilding(fs[..|fs| - 1], key) + if last.Some? && BuildingOf(last.value) == Some(key) then 1 else 0
  }

  /** Each entry of `buildingTypes` is the number of features of that type,
      and only truthy types appear. */
  lemma {:induction false} TalliedBuildingTypes(area: seq<Ring> -> real, fs: seq<Option<Feature>>)
    requires Tallied(area, fs).Some?
    ensures var bt := Tallied(area, fs).value.buildingTypes;
      (forall key :: CountOf(bt, key) == CountBuilding(fs, key)) &&
      (forall key :: key in bt ==> Truthy(key) && bt[key] >= 1)
  {
    if fs != [] {
      TalliedBuildingTypes(area, fs[..|fs| - 1]);
    }
  }

  /** The vertex total sums the outer ring lengths of polygons and the
      lengths of lines. */
  function VerticesOf(f: Option<Feature>): nat
  {
    if f.Some? && f.value.geometry.Some? then
      match f.value.geometry.value
      case Polygon(rings) => if rings != [] then |rings[0]| else 0
      case LineString(line) => |line|
      case _ => 0
    else 0
  }

  function SumVertices(fs: seq<Option<Feature>>): nat
  {
    if fs == [] then 0 else SumVertices(fs[..|fs| - 1]) + VerticesOf(fs[|fs| - 1])
  }

  lemma {:induction false} TalliedVertices(area: seq<Ring> -> real, fs: seq<Option<Feature>>)
    requires Tallied(area, fs).Some?
    ensures Tallied(area, fs).value.totalVertices == SumVertices(fs)
  {
    if fs != [] {
      TalliedVertices(area, fs[..|fs| - 1]);
    }
  }

  /** What `POST /stats` answers. */
  datatype StatsResponse = StatsBadRequest | StatsFailed | StatsOk(summary: Summary)

  /** 400 when `features` is missing or not an array, 500 when the loop
      throws. */
  function StatsRoute(area: seq<Ring> -> real, features: Option<seq<Option<Feature>>>): (resp: StatsResponse)
    ensures resp.StatsBadRequest? <==> features.None?
    ensures resp.StatsFailed? <==>
      features.Some? && exists i :: 0 <= i < |features.value| && !Readable(features.value[i])
    ensures resp.StatsOk? ==>
      resp.summary.totalFeatures == |features.value| &&
      resp.summary.polygons + resp.summary.lines + resp.summary.points <= resp.summary.totalFeatures &&
      resp.summary.totalVertices == SumVertices(features.value)
    ensures resp.StatsOk? ==>
      var fs, s := features.value, resp.summary;
      s.polygons == CountKind(fs, PolygonKind) && s.lines == CountKind(fs, LineKind) &&
      s.points == CountKind(fs, PointKind) && s.totalArea == SumArea(area, fs) &&
      s.averageVertices == Average(SumVertices(fs), |fs|)
    ensures resp.StatsOk? ==>
      var bt := resp.summary.buildingTypes;
      (forall key :: CountOf(bt, key) == CountBuilding(features.value, key)) &&
      (forall key :: key in bt ==> Truthy(key) && bt[key] >= 1)
  {
    if features.None? then StatsBadRequest
    else
      var fs := features.value;
      TalliedSucceeds(area, fs);
      match StatsOf(area, fs)
      case None => StatsFailed
      case Some(summary) =>
        TalliedKindsBound(area, fs);
        TalliedKinds(area, fs);
        TalliedVertices(area, fs);
        TalliedBuildingTypes(area, fs);
        StatsOk(summary)
  }
}
