# mapbit footprint pipeline and renderers, in Dafny

mapbit turns OpenStreetMap data into pixel-art maps. This project models
the parts of it that compute something:

- **The server's `/orthogonalize` pipeline** (module `Process`). Each polygon's
  outer ring goes through these steps:
  - it is snapped to a grid;
  - one angle-correction sweep nudges or aligns vertices whose corner is far
    from a right angle;
  - one forward pass forces every edge except the closing one to be
    horizontal or vertical;
  - the ring is decimated by a fixed stride when it has too many positions;
  - complex shapes are replaced by their bounding box.

  At batch level, non-polygons pass through unchanged, small features are
  dropped and a failing feature comes back as it was.
- **The `/stats` counting loop** (module `Stats`).
- **The client-side geometry helpers** (module `ProcessingService`):
  one-pass simplification against the original neighbours, point-to-segment
  distance (compared squared), grid snapping and the bounding rectangle.
- **The `/fetch` route of the OSM proxy** (module `Osm`): the bounds check,
  the default feature types and the tag filter.
- **The sprite atlas** (module `SpriteAtlas`): constant tables and the
  case-insensitive lookups with their fallbacks.
- **The pattern renderer** (module `PatternRendering`, class
  `PatternRenderer`):
  - its state (pattern, properties, scale, sprite sheet) and the setters that
    change it;
  - the even-odd point-in-polygon test;
  - the step and sprite-index arithmetic of its fill.
- **The building renderer** (module `BuildingRendering`, class
  `BuildingRenderer`):
  - style selection with its fallback to `basic`;
  - the bounds loop;
  - the fill grid, including the filtering of undefined fill sprites;
  - the edge sprites along a side;
  - the bucketing of corner turns.

Shared vocabulary is in `Common`: JSON values with JavaScript truthiness,
points, `Math.round`, grid snapping, bounding boxes, subsequences, ASCII
upper-casing and the even-odd rule. GeoJSON features are in `GeoJson`.

Loops that update variables or arrays in the source are methods. Each is
proved equal to a specification function, and the properties are proved
about that function. Calls into turf.js, `Math.sqrt`, `Math.acos` and
`Math.atan2` are parameters of the model (function-typed values, or the
angle itself). Every fact that rests on them is stated under explicit
assumptions about those parameters (`SoundTrig`).

## Model

| member | source | states |
|---|---|---|
| Common.Round | server/routes/process.js:115-118 | `Math.round(v)` is an integer within half a unit of v, halves going up |
| Common.Snap | server/routes/process.js:115-118 | for any non-zero grid size, positive or negative, a snapped coordinate is a multiple of the grid size and at most half a cell (half of its absolute value) from the input |
| Common.SnapIdempotent | server/routes/process.js:115-118 | snapping a snapped coordinate again leaves it unchanged |
| Common.SnapToGrid | client/js/ProcessingService.js:114-119 | `snapToGrid` keeps the length; for any non-zero grid size every output coordinate is on the grid and within half a cell (half the grid size's absolute value) of its input |
| Common.SnapToGridIdempotent | client/js/ProcessingService.js:114-119 | snapping a snapped list again changes nothing |
| Common.BoundsContain | client/js/BuildingRenderer.js:306-318 | every point lies inside the running min/max bounds |
| Common.BoundsAttained | client/js/BuildingRenderer.js:306-318 | each of the four bounds is a coordinate of some input point |
| Common.ToUpperIdempotent | client/js/SpriteAtlas.js:189-195 | upper-casing an upper-cased key changes nothing |
| Common.JsRem | client/js/BuildingRenderer.js:516 | JavaScript `%` takes the sign of the dividend: in [0, n) for a non-negative dividend and in (-n, 0] for a negative one |
| Common.GridSpriteIndexInRange | client/js/PatternRenderer.js:439-440 | inside the fill loops the position-based sprite index lies in [0, count) |
| Common.GridSpriteIndexOfCell | client/js/BuildingRenderer.js:516-517 | the cell i columns and j rows from the corner gets sprite (i + j) mod count |
| Common.RayCast | client/js/PatternRenderer.js:360-374 | the two-index loop computes the even-odd parity of the edges whose crossing lies right of the point |
| Common.OutsideBoundsNotInside | client/js/PatternRenderer.js:360-374 | a point at or right of the box, below it or at or above its top is never inside |
| Process.WithDefaults | server/routes/process.js:17-25 | each missing option takes its default (tolerance 0.0001, gridSize 0.0001, minArea 0.000001, maxVertices 20, angleTolerance 15, forceOrthogonal true, preserveShape false); each supplied option is passed through unchanged |
| Process.CalculateAngleRange | server/routes/process.js:175-203 | with sound sqrt/acos the corner angle lies in [0, 360] and is 0 at a zero-length edge |
| Process.Rem360 | server/routes/process.js:209 | JavaScript `% 360` keeps the dividend's sign and stays within one turn |
| Process.NormalizeAngle | server/routes/process.js:209 | `((a % 360) + 360) % 360` lies in [0, 360) and differs from a by whole turns |
| Process.Rem360OfSmall | server/routes/process.js:209 | the outer `% 360`, applied to a value in [0, 720), removes at most one turn |
| Process.SnapToRightAngle | server/routes/process.js:208-215 | the target is always one of 0, 90, 180 or 270 |
| Process.SnapToRightAngleNearest | server/routes/process.js:208-215 | the target is a right angle nearest to the normalised angle, within 45 degrees of it round the circle |
| Process.SnapToRightAnglePeriodic | server/routes/process.js:208-215 | adding whole turns to the angle does not change the target |
| Process.Deviation | server/routes/process.js:150-156 | the deviation is non-negative, at most 45 degrees for angles up to 315, and above 315 for angles in (315, 360), because it is measured linearly |
| Process.DeviationAtMostFullTurn | server/routes/process.js:150-156 | with sound trigonometry no corner deviates by more than 360 degrees |
| Process.AlignVertexToGrid | server/routes/process.js:259-271 | exactly one coordinate is snapped, the one that moves less, with ties going to y; the move is the smaller snap distance and at most half a cell, for a grid size of either sign |
| Process.AlignFixesGridPoint | server/routes/process.js:259-271 | a vertex already on the grid is not moved |
| Process.AdjustVertexForAngle | server/routes/process.js:220-254 | below 30 degrees of difference the result is the nudged point snapped to the grid (within half a cell of it); otherwise it is `alignVertexToGrid(curr)`: the coordinate nearer its grid line is aligned, ties going to y, and the other is kept |
| Process.CorrectVertex | server/routes/process.js:150-161 | a corner within the tolerance is left alone; one beyond it is replaced by `adjustVertexForAngle` towards the snapped target |
| Process.PrevIndex | server/routes/process.js:145 | the cyclic predecessor index: the last index for 0, i - 1 otherwise |
| Process.NextIndex | server/routes/process.js:147 | the cyclic successor index: 0 for the last index, i + 1 otherwise |
| Process.SweepStep | server/routes/process.js:144-162 | one loop iteration rewrites only vertex i, with the correction computed from its current neighbours |
| Process.Sweep | server/routes/process.js:144-162 | a left-to-right sweep over a working copy keeps the number of vertices |
| Process.SweepAhead | server/routes/process.js:144-162 | vertices the sweep has not reached yet are untouched |
| Process.SweepStable | server/routes/process.js:144-162 | vertices the sweep has passed are never revisited |
| Process.SweepFixed | server/routes/process.js:144-162 | a sweep whose every iteration would keep its vertex changes nothing |
| Process.SweepVertex | server/routes/process.js:144-162 | iteration i sees its predecessor already swept (the original last vertex, for vertex 0) and its successor not yet swept (the swept vertex 0, for the last vertex) |
| Process.CorrectorAt | server/routes/process.js:145-161 | the sweep's correction at vertex i is `CorrectVertex` against i's cyclic neighbours in the working copy |
| Process.AngleSweep | server/routes/process.js:144-162 | the correction sweep keeps the number of vertices |
| Process.AngleSweepStep | server/routes/process.js:144-162 | iteration k - 1 turns the copy after k - 1 iterations into the copy after k |
| Process.AngleSweepVertex | server/routes/process.js:144-162 | each final vertex is corrected against its already corrected predecessor (the original last vertex for vertex 0) and its original successor (the corrected vertex 0 for the last one) |
| Process.AngleSweepMovesOnlyDeviating | server/routes/process.js:156-161 | a vertex is rewritten only when its corner, as the sweep saw it, deviated by more than `angleTolerance` |
| Process.AngleSweepIdentity | server/routes/process.js:144-162 | when no corner deviates beyond the tolerance the sweep changes nothing |
| Process.FullTurnToleranceIsIdentity | server/routes/process.js:144-162 | a tolerance of 360 degrees or more switches the sweep off |
| Process.ForceNext | server/routes/process.js:287-298 | the forced edge is straight within the absolute tolerance (a negative tolerance, from a negative grid, forces every edge exactly straight); the end is moved exactly when the edge was diagonal; a moved end keeps one of its own coordinates, takes the start's y when dx > dy and the start's x otherwise (so a tie becomes vertical) |
| Process.ForcedEdges | server/routes/process.js:276-303 | the pass keeps the length and the first vertex |
| Process.ForcedEdgesShape | server/routes/process.js:276-303 | after the pass every vertex keeps one of its own coordinates, and every edge (i, i+1) is straight within the absolute tolerance |
| Process.ClosingEdgeMayStayDiagonal | server/routes/process.js:279 | the closing edge is never examined: a concrete triangle keeps a diagonal from its last vertex back to its first |
| Process.ForcedEdgesExtend | server/routes/process.js:279-300 | each iteration forces vertex i+1 against the already forced vertex i |
| Process.ForcedPrefixStep | server/routes/process.js:279-300 | one iteration on a copy forced up to position i leaves it forced up to position i+1 |
| Process.ForceInPlace | server/routes/process.js:280-299 | the loop body rewrites only `result[i+1]`, to its forced position |
| Process.ForceEdgesInPlace | server/routes/process.js:279-300 | the in-place loop computes the forced-edges pass of the array's contents |
| Process.EnsureOrthogonalEdges | server/routes/process.js:276-303 | the copy-then-loop computes the forced-edges pass with a tolerance of a tenth of the grid size |
| Process.OrthogonalizedVertices | server/routes/process.js:137-170 | fewer than 3 vertices come back unchanged; otherwise the count is kept |
| Process.OrthogonalizedStraight | server/routes/process.js:137-170 | with `forceOrthogonal` and at least 3 vertices, every non-closing edge of the result is straight within a tenth of the grid size |
| Process.CorrectInPlace | server/routes/process.js:145-161 | the loop body on the array is one sweep step |
| Process.SweepInPlace | server/routes/process.js:144-162 | the correction loop on the array computes the whole sweep |
| Process.SweptCopy | server/routes/process.js:140-162 | the correction loop run on an array copy computes the whole sweep |
| Process.OrthogonalizedFromSwept | server/routes/process.js:164-169 | past the length guard the result is the swept copy, edge-forced exactly when `forceOrthogonal` is set |
| Process.OrthogonalizeVertices | server/routes/process.js:137-170 | the method computes `OrthogonalizedVertices` |
| Process.OrthogonalizePolygon | server/routes/process.js:104-132 | an outer ring of fewer than 4 positions comes back unchanged, holes included; otherwise one closed ring of the same length replaces the rings; a polygon without rings throws |
| Process.OrthogonalizePolygonStraightEdges | server/routes/process.js:104-132 | with `forceOrthogonal`, every edge of the output ring is straight except possibly the one before the closing position |
| Process.OrthogonalizePolygonSnapOnly | server/routes/process.js:115-126 | with the sweep and the edge pass off, the output ring is the snapped vertices closed again |
| Process.StepSize | server/routes/process.js:316 | `Math.ceil(n / m)` is the least stride whose m steps cover n positions, and at least 2 when n > m |
| Process.Stride | server/routes/process.js:316-319 | the stride is at least 1; a cap of 0 (stride `Infinity`) gives a stride of at least n, so only position 0 is kept; otherwise it is `Math.ceil(n / m)` |
| Process.Strided | server/routes/process.js:319-321 | the stride loop always keeps the first position |
| Process.StridedAt | server/routes/process.js:319-321 | the k-th kept position is input position k * step |
| Process.StridedFrom | server/routes/process.js:319-321 | decimating from index i keeps position i and continues `step` positions further on |
| Process.StridedPush | server/routes/process.js:319-321 | pushing position i keeps the loop invariant: what is pushed so far plus the decimation from the next index is the whole decimation |
| Process.StridedLength | server/routes/process.js:319-321 | the loop stops once the index leaves the ring: (kept - 1) * step < n |
| Process.KeptOf | server/routes/process.js:316-321 | the stride loop keeps at least one position, the first |
| Process.LastKept | server/routes/process.js:324 | `reduced[reduced.length - 1]` is input position `(kept - 1) * step`, which is 0 exactly when one position is kept |
| Process.ReducedRing | server/routes/process.js:308-332 | a ring within the cap is unchanged; otherwise the result is the kept positions, plus the first position again exactly when the last kept position is a different array from the first (so its length is the kept count, plus one in that case); the result is closed and starts with the input's first position |
| Process.ReducedRingLength | server/routes/process.js:308-332 | a decimated ring has at most `maxVertices` + 1 positions, including with a cap of 0 |
| Process.ReducedRingAt | server/routes/process.js:316-321 | each kept position k of a decimated ring is input position k * step, in order, for any cap from 0 up |
| Process.TakeEvery | server/routes/process.js:319-321 | the stride loop pushes exactly the decimated positions |
| Process.ReduceVertices | server/routes/process.js:308-332 | the stride loop with the `!==` closing step computes `ReducedRing` |
| Process.LimitVertices | server/routes/process.js:80-82 | an outer ring over the cap is replaced by its `ReducedRing`, one closed ring of at most `maxVertices` + 1 positions; otherwise nothing changes |
| Process.IsComplexShape | server/routes/process.js:337-355 | complex exactly when the outer ring has more than 15 positions or the squared perimeter exceeds 50 times a positive area |
| Process.ProcessedProperties | server/routes/process.js:89-98 | the three bookkeeping entries are set; every other input property is kept with its value; no other key appears |
| Process.Simplified | server/routes/process.js:65-68 | simplification runs only for a positive tolerance |
| Process.ProcessFeature | server/routes/process.js:55-99 | a non-polygon is returned unchanged; a polygon is dropped only when its ORIGINAL area is below `minArea`; it throws exactly when simplification fails or leaves no ring; a kept polygon's geometry is the orthogonalised, vertex-limited ring, replaced by its bounding box when complex, its properties are the input's with `_processed`, the original area and `_processedArea` = area of that final geometry, and a ring that is not complex has at most `maxVertices` + 1 positions |
| Process.ResultOf | server/routes/process.js:27-33 | a null input stays null; a non-polygon passes through; a feature whose processing throws comes back as it was; a dropped one becomes null and a kept one its processed feature; null comes only from a null input or a drop |
| Process.Present | server/routes/process.js:34 | the null filter never lengthens the list |
| Process.PresentAppend | server/routes/process.js:34 | the filter distributes over concatenation, so survivors keep their order |
| Process.PresentMembers | server/routes/process.js:34 | a value survives the filter exactly when it was a non-null entry |
| Process.PresentAll | server/routes/process.js:34 | with no null entries, nothing is removed |
| Process.Results | server/routes/process.js:27-33 | the map processes each feature independently |
| Process.BatchAppend | server/routes/process.js:27-34 | the batch of a concatenation is the concatenation of the batches, so output order follows input order |
| Process.BatchPassesNonPolygons | server/routes/process.js:27-34 | a batch of non-polygons comes back unchanged |
| Process.BatchMembers | server/routes/process.js:27-34 | the output holds exactly the non-null per-feature results |
| Process.BatchAt | server/routes/process.js:27-34 | each non-null result sits in the output right after the results of the features before it |
| Process.BatchKeepsThrown | server/routes/process.js:27-34 | a feature whose processing throws is its own result, and comes back unchanged in its place in the output |
| Process.OrthogonalizeRoute | server/routes/process.js:9-50 | 400 exactly when `features` is missing; otherwise 500 exactly when `options` is `null` (its destructuring throws); otherwise the processed batch with the original count and a processed count no larger; any non-zero grid size and any cap from 0 up are accepted |
| Stats.BuildingOf | server/routes/process.js:406-409 | only features with a geometry and a truthy `building` property are counted, under that value |
| Stats.AddFeature | server/routes/process.js:389-411 | an iteration throws exactly on a null feature or a polygon without rings |
| Stats.Average | server/routes/process.js:414 | the average is 0 for no features, and otherwise times the feature count gives the vertex total |
| Stats.ComputeStats | server/routes/process.js:370-416 | the counting loop over a mutable tally computes the summary, or the failure |
| Stats.TalliedSucceeds | server/routes/process.js:389-411 | the loop completes exactly when every feature is readable |
| Stats.TalliedKindsBound | server/routes/process.js:389-404 | polygons + lines + points never exceed the number of features |
| Stats.TalliedKinds | server/routes/process.js:389-404 | `polygons`, `lines` and `points` are the numbers of features of each geometry type, and `totalArea` is the sum of the polygons' areas |
| Stats.TalliedBuildingTypes | server/routes/process.js:406-409 | each `buildingTypes` entry is the number of features of that type, and only truthy types appear |
| Stats.TalliedVertices | server/routes/process.js:392-400 | the vertex total is the sum of outer-ring lengths of polygons and lengths of lines |
| Stats.StatsRoute | server/routes/process.js:370-422 | 400 exactly when `features` is missing, 500 exactly when some feature is unreadable; otherwise the summary counts every feature, each geometry type, the polygons' total area and the vertex total, its average is that total over all features, and each building-type entry counts the features of that type |
| ProcessingService.DistSq | client/js/ProcessingService.js:79-111 | the squared distance is non-negative and zero exactly between equal points |
| ProcessingService.DistSqZero | client/js/ProcessingService.js:79-111 | only a point is at distance zero from itself |
| ProcessingService.PointToLineDistSq | client/js/ProcessingService.js:79-112 | the distance is non-negative, is the distance to `lineStart` for a zero-length segment, and is 0 when the point is an endpoint |
| ProcessingService.ParamAtEnds | client/js/ProcessingService.js:94-108 | at either end of a segment of positive length the projection parameter is 0 or 1, and the point there is that end |
| ProcessingService.PointToLineDistSqAt | client/js/ProcessingService.js:94-108 | for a proper segment the measured point is the one at the projection parameter clamped to [0, 1] |
| ProcessingService.PointToLineDistIsMinimal | client/js/ProcessingService.js:79-112 | the clamped projection is a nearest point of the segment: no point of the segment is closer |
| ProcessingService.KeptIndices | client/js/ProcessingService.js:62-72 | the surviving interior indices are increasing, and index i is among them exactly when point i is farther than `tolerance` from the segment between its original neighbours |
| ProcessingService.SimplifiedIndices | client/js/ProcessingService.js:56-77 | the kept indices are increasing, in range, and start with the first index and end with the last |
| ProcessingService.SimplifiedPolygon | client/js/ProcessingService.js:56-77 | up to 3 points come back unchanged; otherwise the output starts with the first input point and ends with the last |
| ProcessingService.SimplifiedIsSubseq | client/js/ProcessingService.js:56-77 | the output is an in-order subsequence of the input, so it is never longer |
| ProcessingService.SimplifiedKeepsExactly | client/js/ProcessingService.js:62-72 | interior point i is kept exactly when it is farther than `tolerance` from the segment between its ORIGINAL neighbours |
| ProcessingService.SimplifiedPolygonParts | client/js/ProcessingService.js:60-76 | the output is the first point, then the kept interior points in order, then the last point |
| ProcessingService.IsKept | client/js/ProcessingService.js:63-70 | the loop body's test is the keep condition for point i |
| ProcessingService.SimplifyPolygon | client/js/ProcessingService.js:56-77 | the push loop computes `SimplifiedPolygon` |
| ProcessingService.Rectangle | client/js/ProcessingService.js:132-138 | the box has five corners, the last repeating the first |
| ProcessingService.CreateBoundingBox | client/js/ProcessingService.js:121-139 | for a non-empty input, five corners (min,min), (max,min), (max,max), (min,max), (min,min) whose box contains every point and whose bounds are attained by points |
| Osm.ZeroBoundRejected | server/routes/osm.js:16-18 | a side equal to 0 is falsy, so the request is refused |
| Osm.RequestedTypes | server/routes/osm.js:48 | a missing type list defaults to `['buildings']`; a given one, even empty, is used as it is |
| Osm.FilterFeaturesByType | server/routes/osm.js:99-129 | a missing or empty type list returns the input; otherwise a feature is in the output exactly when it is in the input and one requested type matches its tags |
| Osm.Filtered | server/routes/osm.js:103-128 | the filter keeps exactly the features that match, and never lengthens the list |
| Osm.FilteredIsSubseq | server/routes/osm.js:103-128 | the output keeps the input order |
| Osm.NoPropertiesDropped | server/routes/osm.js:104 | a feature without properties is never kept |
| Osm.FilteredIdempotent | server/routes/osm.js:103-128 | filtering twice with the same types is filtering once |
| Osm.FilteredAppend | server/routes/osm.js:103-128 | the filter distributes over concatenation |
| Osm.FetchRoute | server/routes/osm.js:12-79 | 400 exactly when a side of the bounds is missing or falsy; 408 exactly on an abort; a collection only for an ok reply with `elements`, carrying the requested types, the count of kept features and an order-preserving subsequence of the converted features, namely `filterFeaturesByType` of them with the requested types; an ok reply with `elements` always gives a collection, and 500 comes exactly from a failed fetch, a non-ok reply or a reply without `elements` |
| SpriteAtlas.Lookup | client/js/SpriteAtlas.js:189 | keyed access finds nothing exactly when no entry has the key, and otherwise a stored entry |
| SpriteAtlas.LookupFindsEntry | client/js/SpriteAtlas.js:189 | with distinct keys the lookup returns exactly the stored value |
| SpriteAtlas.AtlasFitsSheet | client/js/SpriteAtlas.js:5-105 | every atlas rectangle lies inside the 96 x 88 sheet |
| SpriteAtlas.GetSprite | client/js/SpriteAtlas.js:188-202 | null exactly when the upper-cased category, or the upper-cased name within it, is missing; otherwise the stored entry, which fits the sheet |
| SpriteAtlas.GetSpriteIgnoresCase | client/js/SpriteAtlas.js:188-202 | any casing of a category and name finds what the upper-case spelling finds |
| SpriteAtlas.GetBuildingPattern | client/js/SpriteAtlas.js:209-217 | never null: an unknown name gives `BASIC_HOUSE`, and the result is always a table entry |
| SpriteAtlas.KnownPatternsFound | client/js/SpriteAtlas.js:209-217 | each named pattern is found under any casing of its name |
| SpriteAtlas.Values | client/js/SpriteAtlas.js:231 | `Object.values` gives the entries in declaration order |
| SpriteAtlas.GetCategorySprites | client/js/SpriteAtlas.js:224-232 | an unknown category gives [], a known one all of its sprites |
| SpriteAtlas.GetSpriteInCategory | client/js/SpriteAtlas.js:188-232 | every sprite `getSprite` finds is among its category's sprites |
| PatternRendering.EffectiveStep | client/js/PatternRenderer.js:423-429 | the effective step is at least `spriteSize * scale` and at least the property step, and equals one of them |
| PatternRendering.PatternRenderer.constructor | client/js/PatternRenderer.js:8-118 | the renderer starts with pattern `basic`, the initial properties, scale 1, sprite size 8 and an image element attached |
| PatternRendering.PatternRenderer.UseFallbackSheet | client/js/PatternRenderer.js:182-227 | when every path has failed, the canvas replaces the image and nothing else changes |
| PatternRendering.PatternRenderer.SetPatternProperties | client/js/PatternRenderer.js:233-236 | the supplied keys take the supplied values; every other key keeps its value |
| PatternRendering.PatternRenderer.SetPattern | client/js/PatternRenderer.js:241-253 | a known name sets the pattern and merges its properties; an unknown one changes nothing |
| PatternRendering.PatternRenderer.SetScale | client/js/PatternRenderer.js:258-261 | `scale` and `patternProperties.scale` get the same value |
| PatternRendering.PatternRenderer.IsReady | client/js/PatternRenderer.js:273-275 | ready exactly when a sprite sheet is attached |
| PatternRendering.PatternRenderer.GetCurrentPatternProperties | client/js/PatternRenderer.js:613-615 | the result equals the properties, as a value that changing cannot reach the renderer |
| PatternRendering.PatternRenderer.IsPointInPolygon | client/js/PatternRenderer.js:360-374 | the test is the even-odd rule |
| PatternRendering.PatternRenderer.Mode | client/js/PatternRenderer.js:379-409 | fewer than 3 points draw nothing; sprites are drawn only with an image or canvas sheet, and colored rectangles only without one |
| PatternRendering.CoercedAt | client/js/PatternRenderer.js:423-424 | the number `*` makes of a property: a number is itself, `null` is 0, a boolean 0 or 1; NaN exactly for a missing property (or an unconverted string) |
| PatternRendering.PatternRenderer.Step | client/js/PatternRenderer.js:423-429 | the fill step is never below `spriteSize * scale`, and is NaN exactly when size, spacing or scale is missing (or a string) |
| PatternRendering.ValidRendererFillsWithSprites | client/js/PatternRenderer.js:379-409 | in a valid renderer a polygon is filled with sprites exactly when it has 3 or more points |
| PatternRendering.InitialStep | client/js/PatternRenderer.js:17-43 | with the initial properties the fill step is 8 |
| PatternRendering.NullSizeStep | client/js/PatternRenderer.js:423-429 | after `size` is set to `null` the step is still 8: the null size counts as 0 |
| PatternRendering.FillSpriteIndexInRange | client/js/PatternRenderer.js:439-440 | the sprite chosen for a cell is a valid index into the pattern's sprites |
| BuildingRendering.GetStyleInfo | client/js/BuildingRenderer.js:705-707 | null exactly for an unknown style; otherwise the stored style |
| BuildingRendering.GetAvailableStyles | client/js/BuildingRenderer.js:696-698 | the style keys in declaration order |
| BuildingRendering.AvailableStylesAreKnown | client/js/BuildingRenderer.js:696-707 | the list is exactly the six styles, and a name is listed exactly when `getStyleInfo` knows it |
| BuildingRendering.FillSprites | client/js/BuildingRenderer.js:506-512 | the filter keeps exactly the defined slots and never lengthens the list |
| BuildingRendering.Slots | client/js/BuildingRenderer.js:506-512 | slot k of the fill list is the atlas entry its reference names |
| BuildingRendering.FillSpritesDropsMissing | client/js/BuildingRenderer.js:506-512 | an undefined slot makes the filtered list strictly shorter |
| BuildingRendering.TexturedTileMissing | client/js/BuildingRenderer.js:54 | `TEXTURED_01` is not a building tile, so the reference is undefined |
| BuildingRendering.TexturedSlotDropped | client/js/BuildingRenderer.js:51-58 | a fill list naming `TEXTURED_01` (the basic, cottage and modern styles do) fills with fewer sprites than it lists |
| BuildingRendering.StylesHaveFillSprites | client/js/BuildingRenderer.js:22-234 | every style has at least one defined fill sprite |
| BuildingRendering.CellSprite | client/js/BuildingRenderer.js:514-528 | a cell shows one of the defined fill sprites, or the 8 x 8 fallback wall when there are none |
| BuildingRendering.BuildingRenderer.constructor | client/js/BuildingRenderer.js:9-17 | the renderer starts with style `basic` |
| BuildingRendering.BuildingRenderer.SetStyle | client/js/BuildingRenderer.js:241-249 | a known style is selected; any other name selects `basic` |
| BuildingRendering.BuildingRenderer.CurrentPattern | client/js/BuildingRenderer.js:255-257 | the current pattern is the table entry of the current style |
| BuildingRendering.BuildingRenderer.CalculateBounds | client/js/BuildingRenderer.js:306-318 | the loop computes the bounds of a non-empty list, which contain every point |
| BuildingRendering.BuildingRenderer.IsPointInPolygonSimple | client/js/BuildingRenderer.js:544-558 | the same even-odd rule as the pattern renderer's test |
| BuildingRendering.BuildingRenderer.FillPolygonWithPattern | client/js/BuildingRenderer.js:485-534 | every placement is a grid cell inside the box and the polygon showing that cell's sprite, and every such cell is placed |
| BuildingRendering.BuildingRenderer.FillBuildingWithPattern | client/js/BuildingRenderer.js:433-442 | fewer than 3 points draw nothing; otherwise the fill is sound and complete over the bounding box (`GridFilled`); every placement lies inside the polygon and shows a defined fill sprite of the style |
| BuildingRendering.FillGrid | client/js/BuildingRenderer.js:501-531 | the column loop places exactly the inside cells of the box |
| BuildingRendering.FillColumn | client/js/BuildingRenderer.js:502-530 | the row loop of one column places exactly the inside cells of that column |
| BuildingRendering.ValidStyleFills | client/js/BuildingRenderer.js:514-528 | for every valid renderer the fallback wall is never drawn |
| BuildingRendering.EdgeKindOf | client/js/BuildingRenderer.js:579-591 | an edge is vertical exactly when abs(dy) > abs(dx), so a tie is horizontal |
| BuildingRendering.EdgeKindSymmetry | client/js/BuildingRenderer.js:579-591 | swapping the axes swaps the kind except on a tie; axis-aligned edges get their own kind |
| BuildingRendering.EdgeSprite | client/js/BuildingRenderer.js:579-591 | the vertical sprite exactly for a vertical edge, the horizontal one otherwise |
| BuildingRendering.Ceil | client/js/BuildingRenderer.js:595 | `Math.ceil` is the least integer not below its argument |
| BuildingRendering.NumSteps | client/js/BuildingRenderer.js:594-595 | at least one step; the steps of 0.8 sprite covering the edge, and no more than needed |
| BuildingRendering.StepParameter | client/js/BuildingRenderer.js:601 | the parameter lies in [0, 1], is 0 at the first step and 1 at the last |
| BuildingRendering.Lerp | client/js/BuildingRenderer.js:602-603 | parameter 0 gives the start and 1 the end |
| BuildingRendering.DrawEdgeSprites | client/js/BuildingRenderer.js:569-607 | one sprite per step, the first at the start, the last at the end when there are several, each at its interpolated position |
| BuildingRendering.EdgePositionOnSegment | client/js/BuildingRenderer.js:600-606 | every edge sprite lies within the box of the edge's ends |
| BuildingRendering.CornerKindOf | client/js/BuildingRenderer.js:633-650 | below 45 or above 315 is top-left, then top-right below 135, bottom-right below 225 and bottom-left below 315; exactly 315 keeps the top-left default |
| BuildingRendering.CornerBuckets | client/js/BuildingRenderer.js:638-650 | on [0, 360) the buckets are exactly the four sectors, the top-left one closed at 315 |
| BuildingRendering.NormalizeAngle | client/js/BuildingRenderer.js:628-630 | the two loops end with the same turn in [0, 2 pi) |
| BuildingRendering.CornerSprite | client/js/BuildingRenderer.js:619-656 | the degrees lie in [0, 360) and equal the turn up to whole turns; the sprite is the corner of the kind the degrees bucket to |

## Left out

- turf.js (`simplify`, `area`, `length`, `bbox`, `bboxPolygon`) is a parameter of the model. So the perimeter/area branch of `isComplexShape` and `createBoundingBoxApproximation` are stated only in terms of those functions.
- `Math.sqrt` and `Math.acos` in `calculateAngle` are parameters. Facts that need their ranges require `SoundTrig`.
- Process.CalculateAngle: the angle value itself is not characterised, only its range.
- `Math.atan2` in `drawCornerSprite` is left out. `CornerSprite` takes the two angles as inputs, with `Math.PI` as a positive parameter.
- ProcessingService.PointToLineDistSq: compares squared distances and takes no square root. Accordingly, `distance > tolerance` becomes `distSq > tolerance²`, and a negative tolerance is exceeded by every point.
- IEEE floating point (rounding, NaN, Infinity) is not modelled: coordinates are exact reals.
- Process.WithDefaults: `maxVertices` is an integer, where the JSON option may be fractional (a cap of 2.5 compares as `4 > 2.5` and strides by `Math.ceil(4 / 2.5)`).
- Process.WithDefaults: `forceOrthogonal` and `preserveShape` are booleans, where the source tests any value's truthiness.
- Process.WithDefaults: an explicit `null` option is not modelled. Only `undefined` takes the default, so `null` reaches the pipeline and is coerced to 0 there.
- Process.OrthogonalizeRoute: options of a type the model does not have (strings, objects) are not modelled; the route sees numbers, booleans or a missing value per option.
- PatternRendering.PatternRenderer.Step: a string property is not converted to a number (`"10"` becomes 10 in JavaScript); the model treats it like NaN.
- Process.ValidOptions: requires a non-zero `gridSize` and `maxVertices >= 0`. A zero grid makes every snapped coordinate NaN (`Math.round(x / 0) * 0`), which exact reals cannot represent. A negative cap makes the stride 0 or negative, so the stride loop never ends.
- BuildingRendering.BuildingRenderer.FillPolygonWithPattern: requires a positive sprite size. The source loops forever otherwise.
- BuildingRendering.BuildingRenderer.FillBuildingWithPattern: takes the scaled sprite size as a parameter instead of reading the sprite renderer's fields.
- BuildingRendering.DrawEdgeSprites: requires a positive sprite size, and takes the edge length as an input (the source computes it with `Math.sqrt`).
- Process.ReducedRing: models `!==` on positions through `SameArray`, which assumes that every position is an array of its own except the closing position `orthogonalizePolygon` pushes. That holds for parsed request bodies and for the rings the pipeline builds. Whether the arrays turf.simplify returns share references is not modelled.
- Common.JsRem: states only the sign and range of JavaScript's `%`, not its congruence with the dividend.
- Common.ToUpper: upper-cases ASCII letters only, not the full Unicode case mapping of `toUpperCase`.
- BuildingRendering.BuildingRenderer.CalculateBounds: returns None for an empty list, where the source returns the infinite start values. `ProcessingService.CreateBoundingBox` does the same.
- Keys of the prototype chain are not modelled: `setPattern('toString')` and `setStyle('toString')` would find an inherited function.
- Stats.BuildingOf: counts building types under the property value itself, where JavaScript converts it to a string key.
- A `features` value that is present but not an array is not modelled separately: the routes see a sequence or nothing.
- The echoed `options` and `bounds` metadata, the timestamp and the OSM version fields of the responses are not modelled.
- Canvas drawing is not modelled: `drawSprite`, outlines, roofs, borders, `fillBuildingInterior` and `drawBuildingStructure`. `SpriteRenderer` is not part of this model.
- `fillPolygonWithColoredRectangles` is not modelled beyond the decision to call it (`PatternRenderer.Mode`).
- `renderBuilding` and `renderBuildings` are not modelled: they only sequence drawing calls and pick styles with `Math.random`.
- Sprite-sheet loading (`onload`/`onerror` retries over the path list) is reduced to its two outcomes: the image assigned at construction and the fallback canvas.
- `getSprites`, `getAvailablePatterns` and `getPatternInfo` of the pattern renderer are not modelled: they are not part of the fill or the state.
- Network access is not modelled: the OSM fetch, `osmtogeojson`, the `fetch` methods of the processing service, the Express plumbing and `/location`. The outcome of the fetch is a parameter of `Osm.FetchRoute`.
- ProcessingService.SimplifiedPolygon: a 4-point input can come back as 2 points, and collinear points are dropped even at tolerance 0. There is no lower bound of three points and no identity at tolerance 0 to state.
- ProcessingService.SimplifyPolygon: the default `tolerance = 0.0001` of `simplifyPolygon` (client/js/ProcessingService.js:56) is not modelled; the tolerance is always an explicit parameter.
- The pattern renderer's `isReady` holds right after construction, because loading assigns the image element before it has arrived. The model follows that.
