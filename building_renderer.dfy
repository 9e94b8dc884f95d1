/** The style state and the geometry of client/js/BuildingRenderer.js: the
    style table, style selection with its fallback to 'basic', the bounds
    loop, the even-odd test, the grid of fill sprites, and the classification
    of edges and corners. Each `drawSprite` call is modelled as a placement
    the methods return; the canvas itself is not modelled. */
module BuildingRendering {
  import opened Common
  import SpriteAtlas

  type Sprite = SpriteAtlas.Sprite

  /** A reference into the atlas as the style table writes it:
      `SPRITE_ATLAS.BUILDING_TILES.<key>` or `SPRITE_ATLAS.ROOF_ELEMENTS.<key>`. */
  datatype SpriteRef = BuildingTile(key: string) | RoofElement(key: string)

  /** The sprite a reference denotes; None (undefined) for a missing key. */
  function Resolve(r: SpriteRef): Option<Sprite>
  {
    match r
    case BuildingTile(key) => SpriteAtlas.Lookup(SpriteAtlas.BuildingTiles, key)
    case RoofElement(key) => SpriteAtlas.Lookup(SpriteAtlas.RoofElements, key)
  }

  datatype Corners = Corners(tl: SpriteRef, tr: SpriteRef, bl: SpriteRef, br: SpriteRef)
  datatype Edges = Edges(h: SpriteRef, v: SpriteRef)

  /** An entry of `this.buildingPatterns`; `fill` lists the slots wall,
      wall2, wall3, roof and roof2 in that order. */
  datatype Style = Style(name: string, walls: seq<SpriteRef>, corners: Corners, edges: Edges,
                         fill: seq<SpriteRef>)

  const HouseCorners := Corners(BuildingTile("CORNER_TL"), BuildingTile("CORNER_TR"),
                                BuildingTile("CORNER_BL"), BuildingTile("CORNER_BR"))
  const HouseEdges := Edges(BuildingTile("EDGE_H"), BuildingTile("EDGE_V"))

  /** The `fill` slots of each style: wall, wall2, wall3, roof, roof2. */
  const BasicFill := [BuildingTile("SOLID"), BuildingTile("BRICK_01"), BuildingTile("TEXTURED_01"),
                      RoofElement("TILE_01"), RoofElement("SHINGLE_01")]
  const StoneFill := [BuildingTile("STONE_01"), BuildingTile("STONE_02"), BuildingTile("SOLID"),
                      RoofElement("TILE_02"), RoofElement("SHINGLE_02")]
  const WoodenFill := [BuildingTile("WOOD_01"), BuildingTile("WOOD_02"), BuildingTile("BRICK_01"),
                       RoofElement("SHINGLE_01"), RoofElement("SHINGLE_02")]
  const CastleFill := [BuildingTile("STONE_01"), BuildingTile("STONE_02"), BuildingTile("SOLID"),
                       RoofElement("TILE_01"), RoofElement("TILE_02")]
  const CottageFill := [BuildingTile("WOOD_01"), BuildingTile("BRICK_01"), BuildingTile("TEXTURED_01"),
                        RoofElement("SHINGLE_01"), RoofElement("SHINGLE_02")]
  const ModernFill := [BuildingTile("SOLID"), BuildingTile("TEXTURED_01"), BuildingTile("BRICK_02"),
                       RoofElement("TILE_01"), RoofElement("TILE_02")]

  /** `this.buildingPatterns`, in declaration order. `TEXTURED_01` is not a
      key of the building tiles (the tile is called `TEXTURED`), so those
      references resolve to nothing. */
  const Styles: SpriteAtlas.Table<Style> := [
    ("basic", Style("Basic House", [BuildingTile("SOLID"), BuildingTile("BRICK_01")], HouseCorners, HouseEdges, BasicFill)),
    ("stone", Style("Stone House", [BuildingTile("STONE_01"), BuildingTile("STONE_02")], HouseCorners, HouseEdges, StoneFill)),
    ("wooden", Style("Wooden House", [BuildingTile("WOOD_01"), BuildingTile("WOOD_02")], HouseCorners, HouseEdges, WoodenFill)),
    ("castle", Style("Castle", [BuildingTile("STONE_01"), BuildingTile("STONE_02")], HouseCorners, HouseEdges, CastleFill)),
    ("cottage", Style("Cottage", [BuildingTile("WOOD_01"), BuildingTile("BRICK_01")], HouseCorners, HouseEdges, CottageFill)),
    ("modern", Style("Modern House", [BuildingTile("SOLID"), BuildingTile("TEXTURED_01")], HouseCorners, HouseEdges, ModernFill))
  ]

  /** `getStyleInfo`: the style, or None (null) for an unknown name. */
  function GetStyleInfo(style: string): (info: Option<Style>)
    ensures info.None? <==> forall i :: 0 <= i < |Styles| ==> Styles[i].0 != style
    ensures info.Some? ==> (style, info.value) in Styles
  {
    SpriteAtlas.Lookup(Styles, style)
  }

  /** `Object.keys(this.buildingPatterns)`. */
  function GetAvailableStyles(): (names: seq<string>)
    ensures |names| == |Styles| && forall i :: 0 <= i < |Styles| ==> names[i] == Styles[i].0
  {
    seq(|Styles|, i requires 0 <= i < |Styles| => Styles[i].0)
  }

  /** The listed names are exactly the ones `getStyleInfo` knows: the six
      styles, in declaration order. */
  lemma AvailableStylesAreKnown(style: string)
    ensures GetAvailableStyles() == ["basic", "stone", "wooden", "castle", "cottage", "modern"]
    ensures style in GetAvailableStyles() <==> GetStyleInfo(style).Some?
  {
    var names := GetAvailableStyles();
    if style in names {
      var i :| 0 <= i < |names| && names[i] == style;
      assert Styles[i].0 == style;
    }
    assert names == ["basic", "stone", "wooden", "castle", "cottage", "modern"];
  }

  /** `[...].filter(sprite => sprite)`: the defined slots, in order. */
  function FillSprites(fill: seq<Option<Sprite>>): (sprites: seq<Sprite>)
    ensures |sprites| <= |fill|
    ensures forall s :: s in sprites <==> Some(s) in fill
  {
    if fill == [] then []
    else
      var init := fill[..|fill| - 1];
      var last := fill[|fill| - 1];
      assert fill == init + [last];
      FillSprites(init) + if last.Some? then [last.value] else []
  }

  /** The slots of a fill list, resolved against the atlas. */
  function Slots(fill: seq<SpriteRef>): (slots: seq<Option<Sprite>>)
    ensures |slots| == |fill| && forall k :: 0 <= k < |fill| ==> slots[k] == Resolve(fill[k])
  {
    seq(|fill|, k requires 0 <= k < |fill| => Resolve(fill[k]))
  }

  /** A missing slot costs the filtered list its place: with an undefined
      slot the list is strictly shorter than the slots. */
  lemma {:induction false} FillSpritesDropsMissing(slots: seq<Option<Sprite>>)
    requires None in slots
    ensures |FillSprites(slots)| < |slots|
  {
    var init := slots[..|slots| - 1];
    var last := slots[|slots| - 1];
    assert slots == init + [last];
    if last != None {
      assert None in init;
      FillSpritesDropsMissing(init);
    }
  }

  // Proof helpers for TexturedTileMissing: a key longer than every table
  // key is not found, and the building-tile keys are at most nine letters.
  // They state nothing about the renderer.
  lemma KeysShorterThan<V>(table: SpriteAtlas.Table<V>, key: string)
    requires forall i :: 0 <= i < |table| ==> |table[i].0| < |key|
    ensures SpriteAtlas.Lookup(table, key).None?
  {
  }

  lemma BuildingTileKeyLengths()
    ensures forall i :: 0 <= i < |SpriteAtlas.BuildingTiles| ==> |SpriteAtlas.BuildingTiles[i].0| <= 9
  {
  }

  /** The building tiles have no `TEXTURED_01`. */
  lemma TexturedTileMissing()
    ensures Resolve(BuildingTile("TEXTURED_01")).None?
  {
    BuildingTileKeyLengths();
    KeysShorterThan(SpriteAtlas.BuildingTiles, "TEXTURED_01");
  }

  /** A fill list naming `TEXTURED_01` (those of the basic, cottage and
      modern styles do) fills with fewer sprites than it lists. */
  lemma TexturedSlotDropped(fill: seq<SpriteRef>)
    requires BuildingTile("TEXTURED_01") in fill
    ensures |FillSprites(Slots(fill))| < |fill|
  {
    TexturedTileMissing();
    var k :| 0 <= k < |fill| && fill[k] == BuildingTile("TEXTURED_01");
    assert Slots(fill)[k] == None;
    FillSpritesDropsMissing(Slots(fill));
  }

  /** Every style's first fill slot resolves, so every style fills with at
      least one sprite and the fallback wall is never drawn. */
  lemma StylesHaveFillSprites()
    ensures forall e :: e in Styles ==> FillSprites(Slots(e.1.fill)) != []
  {
    var tiles := SpriteAtlas.BuildingTiles;
    assert tiles[0].0 == "SOLID" && tiles[10].0 == "STONE_01" && tiles[12].0 == "WOOD_01";
    forall e | e in Styles
      ensures FillSprites(Slots(e.1.fill)) != []
    {
      var i :| 0 <= i < |Styles| && Styles[i] == e;
      var fill := e.1.fill;
      assert fill[0] in {BuildingTile("SOLID"), BuildingTile("STONE_01"), BuildingTile("WOOD_01")};
      var s := Resolve(fill[0]).value;
      assert Slots(fill)[0] == Some(s);
      assert s in FillSprites(Slots(fill));
    }
  }

  /** The sprite drawn when no fill sprite is defined. */
  const FallbackWall := SpriteAtlas.Sprite(0, 0, 8, 8, "")

  /** One `drawSprite` call of the fill: the grid cell (column, row), its
      canvas position and the sprite. */
  datatype Placement = Placement(col: nat, row: nat, at: Point, sprite: Sprite)

  /** The position of grid cell (i, j) of a box filled with the given step. */
  function Cell(b: Bounds, step: real, i: nat, j: nat): Point
  {
    Point(b.minX + i as real * step, b.minY + j as real * step)
  }

  /** The sprite a cell shows: the position-based choice among the defined
      fill sprites, or the fallback wall when there are none. */
  function CellSprite(fill: seq<Option<Sprite>>, i: nat, j: nat): (s: Sprite)
    ensures FillSprites(fill) != [] ==> s in FillSprites(fill)
    ensures FillSprites(fill) == [] ==> s == FallbackWall
  {
    var sprites := FillSprites(fill);
    if |sprites| > 0 then sprites[(i + j) % |sprites|] else FallbackWall
  }

  // Proof helper (real arithmetic) for the fill loops FillGrid and
  // FillColumn and for NumSteps; not part of the model.
  lemma MulMonotone(a: real, b: real, step: real)
    requires a <= b && step > 0.0
    ensures a * step <= b * step
  {
  }

  class BuildingRenderer {
    var currentStyle: string

    /** The current style is a key of the table. */
    predicate Valid()
      reads this
    {
      GetStyleInfo(currentStyle).Some?
    }

    constructor ()
      ensures currentStyle == "basic" && Valid()
    {
      currentStyle := "basic";
    }

    /** A known style is selected; any other name selects 'basic'. */
    method SetStyle(style: string)
      modifies this
      ensures GetStyleInfo(style).Some? ==> currentStyle == style
      ensures GetStyleInfo(style).None? ==> currentStyle == "basic"
      ensures Valid()
    {
      if GetStyleInfo(style).Some? {
        currentStyle := style;
      } else {
        currentStyle := "basic";
      }
    }

    /** `getCurrentPattern`. */
    function CurrentPattern(): (s: Style)
      reads this
      requires Valid()
      ensures (currentStyle, s) in Styles
    {
      GetStyleInfo(currentStyle).value
    }

    /** `calculateBounds`, the running min/max loop; None for an empty list,
      where the source would return the infinite start values. */
    method CalculateBounds(coordinates: seq<Point>) returns (bounds: Option<Bounds>)
      ensures bounds.None? <==> coordinates == []
      ensures bounds.Some? ==> bounds.value == BoundsOf(coordinates)
      ensures bounds.Some? ==> forall i :: 0 <= i < |coordinates| ==> Within(coordinates[i], bounds.value)
    {
      bounds := None;
      for i := 0 to |coordinates|
        invariant i == 0 <==> bounds.None?
        invariant i > 0 ==> bounds == Some(BoundsOf(coordinates[..i]))
      {
        var p := coordinates[i];
        if bounds.None? {
          bounds := Some(Bounds(p.x, p.y, p.x, p.y));
        } else {
          var b := bounds.value;
          bounds := Some(Bounds(Min(b.minX, p.x), Min(b.minY, p.y), Max(b.maxX, p.x), Max(b.maxY, p.y)));
          assert coordinates[..i + 1][..i] == coordinates[..i];
        }
      }
      if bounds.Some? {
        assert coordinates[..|coordinates|] == coordinates;
        BoundsContain(coordinates);
      }
    }

    /** `isPointInPolygonSimple`: the same even-odd rule as the pattern
      renderer's test. */
    method IsPointInPolygonSimple(point: Point, polygon: seq<Point>) returns (inside: bool)
      ensures inside == InsidePolygon(point, polygon)
    {
      inside := RayCast(point, polygon);
    }

    /** `fillPolygonWithPattern`: walks the grid of the bounding box with
        the given step, column by column, and places a sprite of the current
        style at every cell inside the polygon. */
    method FillPolygonWithPattern(coordinates: seq<Point>, spriteSize: real) returns (placed: seq<Placement>)
      requires Valid() && spriteSize > 0.0
      ensures coordinates == [] ==> placed == []
      ensures coordinates != [] ==>
        GridFilled(coordinates, BoundsOf(coordinates), spriteSize, Slots(CurrentPattern().fill), placed)
    {
      var bounds := CalculateBounds(coordinates);
      if bounds.None? {
        return [];
      }
      var b := bounds.value;
      assert Within(coordinates[0], b);
      placed := FillGrid(coordinates, b, spriteSize, Slots(CurrentPattern().fill));
    }

    /** `fillBuildingWithPattern`: nothing for fewer than three points,
        otherwise the fill with the scaled sprite size. */
    method FillBuildingWithPattern(coordinates: seq<Point>, spriteSize: real) returns (placed: seq<Placement>)
      requires Valid() && spriteSize > 0.0
      ensures |coordinates| < 3 ==> placed == []
      ensures |coordinates| >= 3 ==>
        GridFilled(coordinates, BoundsOf(coordinates), spriteSize, Slots(CurrentPattern().fill), placed)
      ensures forall k :: 0 <= k < |placed| ==>
        InsidePolygon(placed[k].at, coordinates) && placed[k].sprite in FillSprites(Slots(CurrentPattern().fill))
    {
      if |coordinates| < 3 {
        return [];
      }
      placed := FillPolygonWithPattern(coordinates, spriteSize);
      ValidStyleFills(this);
    }
  }

  /** The placements of a fill: each is a grid cell inside the box and the
      polygon, showing the cell's sprite, and every such cell is placed. */
  ghost predicate GridFilled(coordinates: seq<Point>, b: Bounds, step: real, fill: seq<Option<Sprite>>, placed: seq<Placement>)
  {
    (forall k :: 0 <= k < |placed| ==>
      placed[k].at == Cell(b, step, placed[k].col, placed[k].row) &&
      Within(placed[k].at, b) && InsidePolygon(placed[k].at, coordinates) &&
      placed[k].sprite == CellSprite(fill, placed[k].col, placed[k].row)) &&
    (forall i: nat, j: nat ::
      Within(Cell(b, step, i, j), b) && InsidePolygon(Cell(b, step, i, j), coordinates) ==>
      Placement(i, j, Cell(b, step, i, j), CellSprite(fill, i, j)) in placed)
  }

  /** The outer loop of the fill: columns from the left of the box while
      still inside it. */
  method FillGrid(coordinates: seq<Point>, b: Bounds, spriteSize: real, fill: seq<Option<Sprite>>)
    returns (placed: seq<Placement>)
    requires spriteSize > 0.0 && b.minY <= b.maxY
    ensures GridFilled(coordinates, b, spriteSize, fill, placed)
  {
    placed := [];
    var x, i := b.minX, 0;
    while x <= b.maxX
      invariant x == b.minX + i as real * spriteSize
      invariant forall k :: 0 <= k < |placed| ==>
        placed[k].col < i &&
        placed[k].at == Cell(b, spriteSize, placed[k].col, placed[k].row) &&
        Within(placed[k].at, b) && InsidePolygon(placed[k].at, coordinates) &&
        placed[k].sprite == CellSprite(fill, placed[k].col, placed[k].row)
      invariant forall i': nat, j': nat ::
        i' < i && Within(Cell(b, spriteSize, i', j'), b) && InsidePolygon(Cell(b, spriteSize, i', j'), coordinates) ==>
        Placement(i', j', Cell(b, spriteSize, i', j'), CellSprite(fill, i', j')) in placed
      decreases ((b.maxX - x) / spriteSize).Floor + 1
    {
      var column := FillColumn(coordinates, b, spriteSize, fill, i);
      placed := placed + column;
      StepCount(b.maxX - x, spriteSize);
      x, i := x + spriteSize, i + 1;
    }
    forall i': nat, j': nat | i' >= i
      ensures !Within(Cell(b, spriteSize, i', j'), b)
    {
      MulMonotone(i as real, i' as real, spriteSize);
    }
  }

  /** The inner loop of the fill: column `i`, rows from the top of the box
      down while still inside it. */
  method FillColumn(coordinates: seq<Point>, b: Bounds, spriteSize: real, fill: seq<Option<Sprite>>, i: nat)
    returns (placed: seq<Placement>)
    requires spriteSize > 0.0 && b.minY <= b.maxY
    requires b.minX + i as real * spriteSize <= b.maxX
    ensures forall k :: 0 <= k < |placed| ==>
      placed[k].col == i &&
      placed[k].at == Cell(b, spriteSize, i, placed[k].row) &&
      Within(placed[k].at, b) && InsidePolygon(placed[k].at, coordinates) &&
      placed[k].sprite == CellSprite(fill, i, placed[k].row)
    ensures forall j': nat ::
      Within(Cell(b, spriteSize, i, j'), b) && InsidePolygon(Cell(b, spriteSize, i, j'), coordinates) ==>
      Placement(i, j', Cell(b, spriteSize, i, j'), CellSprite(fill, i, j')) in placed
  {
    placed := [];
    var x := b.minX + i as real * spriteSize;
    var sprites := FillSprites(fill);
    var y, j := b.minY, 0;
    while y <= b.maxY
      invariant y == b.minY + j as real * spriteSize
      invariant forall k :: 0 <= k < |placed| ==>
        placed[k].col == i && placed[k].row < j &&
        placed[k].at == Cell(b, spriteSize, i, placed[k].row) &&
        Within(placed[k].at, b) && InsidePolygon(placed[k].at, coordinates) &&
        placed[k].sprite == CellSprite(fill, i, placed[k].row)
      invariant forall j': nat ::
        j' < j && Within(Cell(b, spriteSize, i, j'), b) && InsidePolygon(Cell(b, spriteSize, i, j'), coordinates) ==>
        Placement(i, j', Cell(b, spriteSize, i, j'), CellSprite(fill, i, j')) in placed
      decreases ((b.maxY - y) / spriteSize).Floor + 1
    {
      var p := Point(x, y);
      assert p == Cell(b, spriteSize, i, j);
      MulNonneg(i as real, spriteSize);
      MulNonneg(j as real, spriteSize);
      var inside := RayCast(p, coordinates);
      if inside {
        var sprite;
        if |sprites| > 0 {
          var index := GridSpriteIndex(x, y, b.minX, b.minY, spriteSize, |sprites|);
          GridSpriteIndexOfCell(b.minX, b.minY, spriteSize, |sprites|, i, j);
          sprite := sprites[index];
        } else {
          sprite := FallbackWall;
        }
        placed := placed + [Placement(i, j, p, sprite)];
      }
      StepCount(b.maxY - y, spriteSize);
      y, j := y + spriteSize, j + 1;
    }
    forall j': nat | j' >= j
      ensures !Within(Cell(b, spriteSize, i, j'), b)
    {
      MulMonotone(j as real, j' as real, spriteSize);
    }
  }

  /** Every style has fill sprites, so the fill never draws the fallback. */
  lemma ValidStyleFills(r: BuildingRenderer)
    requires r.Valid()
    ensures FillSprites(Slots(r.CurrentPattern().fill)) != []
  {
    StylesHaveFillSprites();
  }

  // Proof helper (real arithmetic) for StepCount, the termination measure
  // of NormalizeAngle's loops; not part of the model.
  lemma DivUnique(x: real, step: real, y: real)
    requires step > 0.0 && y * step == x
    ensures x / step == y
  {
  }

  /** Taking one step off a distance takes one off the number of whole
      steps in it. */
  lemma StepCount(d: real, step: real)
    requires step > 0.0
    ensures ((d - step) / step).Floor == (d / step).Floor - 1
    ensures d >= 0.0 ==> (d / step).Floor >= 0
  {
    var q := d / step;
    assert q * step == d;
    assert (q - 1.0) * step == d - step;
    DivUnique(d - step, step, q - 1.0);
    if d >= 0.0 {
      RatioNonneg(d, step);
    }
  }

  // ---------------------------------------------------------------------------
  // Edges

  datatype EdgeKind = Horizontal | Vertical

  /** The classification of `drawEdgeSprites`: vertical only when |dy| is
      strictly larger, so a diagonal tie is horizontal. */
  function EdgeKindOf(dx: real, dy: real): (k: EdgeKind)
    ensures k == Vertical <==> Abs(dy) > Abs(dx)
  {
    if Abs(dx) > Abs(dy) then Horizontal
    else if Abs(dy) > Abs(dx) then Vertical
    else Horizontal
  }

  /** Swapping the axes swaps the kind, except on a tie; an axis-aligned
      edge gets its own kind. */
  lemma EdgeKindSymmetry(dx: real, dy: real)
    ensures Abs(dx) != Abs(dy) ==> EdgeKindOf(dx, dy) != EdgeKindOf(dy, dx)
    ensures Abs(dx) == Abs(dy) ==> EdgeKindOf(dx, dy) == EdgeKindOf(dy, dx) == Horizontal
    ensures dy == 0.0 ==> EdgeKindOf(dx, dy) == Horizontal
    ensures dx == 0.0 && dy != 0.0 ==> EdgeKindOf(dx, dy) == Vertical
  {
  }

  /** The sprite of the edge kind. */
  function EdgeSprite(edges: Edges, dx: real, dy: real): (s: SpriteRef)
    ensures s == (if Abs(dy) > Abs(dx) then edges.v else edges.h)
  {
    match EdgeKindOf(dx, dy)
    case Horizontal => edges.h
    case Vertical => edges.v
  }

  /** `Math.ceil`. */
  function Ceil(v: real): (c: int)
    ensures c as real >= v && (c - 1) as real < v
  {
    -((-v).Floor)
  }

  /** `Math.max(1, Math.ceil(length / stepSize))` with stepSize = 0.8 of the
      sprite size: at least one step, and enough steps of that size to cover
      the edge. */
  function NumSteps(length: real, spriteSize: real): (n: nat)
    requires spriteSize > 0.0
    ensures n >= 1
    ensures n as real * (spriteSize * 0.8) >= length
    ensures n > 1 ==> (n - 1) as real * (spriteSize * 0.8) < length
  {
    var c := Ceil(length / (spriteSize * 0.8));
    MulMonotone(length / (spriteSize * 0.8), c as real, spriteSize * 0.8);
    if c > 1 then
      assert (c - 1) as real * (spriteSize * 0.8) < length by {
        LessTimesPositive((c - 1) as real, length / (spriteSize * 0.8), spriteSize * 0.8);
      }
      c
    else 1
  }

  // Proof helper (real arithmetic) for NumSteps; not part of the model.
  lemma LessTimesPositive(a: real, b: real, step: real)
    requires a < b && step > 0.0
    ensures a * step < b * step
  {
  }

  /** The interpolation parameter of step i: i / (n - 1), or 0 for a single
      step. */
  function StepParameter(i: nat, n: nat): (t: real)
    requires i < n
    ensures 0.0 <= t <= 1.0
    ensures i == 0 ==> t == 0.0
    ensures n > 1 && i == n - 1 ==> t == 1.0
  {
    if n > 1 then
      RatioInUnit(i as real, (n - 1) as real);
      i as real / (n - 1) as real
    else 0.0
  }

  /** The point a fraction t of the way from start to end. */
  function Lerp(start: Point, end: Point, t: real): (p: Point)
    ensures t == 0.0 ==> p == start
    ensures t == 1.0 ==> p == end
  {
    Point(start.x + (end.x - start.x) * t, start.y + (end.y - start.y) * t)
  }

  /** `drawEdgeSprites`: the positions of the edge sprites, evenly spaced
      from the start to the end of the edge. `length` is the edge length the
      source computes with a square root. */
  method DrawEdgeSprites(start: Point, end: Point, length: real, spriteSize: real) returns (positions: seq<Point>)
    requires spriteSize > 0.0
    ensures |positions| == NumSteps(length, spriteSize)
    ensures positions[0] == start
    ensures |positions| > 1 ==> positions[|positions| - 1] == end
    ensures forall k :: 0 <= k < |positions| ==> positions[k] == Lerp(start, end, StepParameter(k, |positions|))
  {
    var numSteps := NumSteps(length, spriteSize);
    positions := [];
    for i := 0 to numSteps
      invariant |positions| == i
      invariant forall k :: 0 <= k < i ==> positions[k] == Lerp(start, end, StepParameter(k, numSteps))
    {
      var t := if numSteps > 1 then i as real / (numSteps - 1) as real else 0.0;
      assert t == StepParameter(i, numSteps);
      positions := positions + [Lerp(start, end, t)];
    }
    assert StepParameter(0, numSteps) == 0.0;
    if numSteps > 1 {
      assert StepParameter(numSteps - 1, numSteps) == 1.0;
    }
  }

  /** Every edge sprite lies on the segment: inside the box of its ends. */
  lemma EdgePositionOnSegment(start: Point, end: Point, t: real)
    requires 0.0 <= t <= 1.0
    ensures var p := Lerp(start, end, t);
      Min(start.x, end.x) <= p.x <= Max(start.x, end.x) &&
      Min(start.y, end.y) <= p.y <= Max(start.y, end.y)
  {
    BetweenEnds(start.x, end.x, t);
    BetweenEnds(start.y, end.y, t);
  }

  lemma BetweenEnds(a: real, b: real, t: real)
    requires 0.0 <= t <= 1.0
    ensures Min(a, b) <= a + (b - a) * t <= Max(a, b)
  {
    if a <= b {
      MulNonneg(b - a, t);
      MulNonneg(b - a, 1.0 - t);
      assert (b - a) * (1.0 - t) == (b - a) - (b - a) * t;
    } else {
      MulNonneg(a - b, t);
      MulNonneg(a - b, 1.0 - t);
      assert (a - b) * (1.0 - t) == (a - b) - (a - b) * t;
      assert (b - a) * t == -((a - b) * t);
    }
  }

  // ---------------------------------------------------------------------------
  // Corners

  datatype CornerKind = TopLeft | TopRight | BottomRight | BottomLeft

  /** The bucketing of `drawCornerSprite` on the turn in degrees. A turn of
      exactly 315 degrees matches none of the tests and keeps the default,
      the top-left sprite. */
  function CornerKindOf(degrees: real): (k: CornerKind)
    ensures degrees < 45.0 || degrees > 315.0 ==> k == TopLeft
    ensures 45.0 <= degrees < 135.0 ==> k == TopRight
    ensures 135.0 <= degrees < 225.0 ==> k == BottomRight
    ensures 225.0 <= degrees < 315.0 ==> k == BottomLeft
    ensures degrees == 315.0 ==> k == TopLeft
  {
    if degrees < 45.0 || degrees > 315.0 then TopLeft
    else if degrees < 135.0 then TopRight
    else if degrees < 225.0 then BottomRight
    else if degrees < 315.0 then BottomLeft
    else TopLeft
  }

  /** On a normalised turn the buckets are the quarter-turn sectors, with
      the top-left one closed at 315 degrees on the left. */
  lemma CornerBuckets(degrees: real)
    requires 0.0 <= degrees < 360.0
    ensures CornerKindOf(degrees) == TopLeft <==> degrees < 45.0 || degrees >= 315.0
    ensures CornerKindOf(degrees) == TopRight <==> 45.0 <= degrees < 135.0
    ensures CornerKindOf(degrees) == BottomRight <==> 135.0 <= degrees < 225.0
    ensures CornerKindOf(degrees) == BottomLeft <==> 225.0 <= degrees < 315.0
  {
  }

  /** The two normalising loops of `drawCornerSprite`: add full turns while
      negative, subtract them while a full turn or more. `pi` stands for
      `Math.PI`; the result is the same turn in [0, 2 pi). */
  method NormalizeAngle(angleDiff: real, pi: real) returns (a: real, ghost turns: int)
    requires pi > 0.0
    ensures 0.0 <= a < 2.0 * pi
    ensures a == angleDiff + turns as real * (2.0 * pi)
  {
    var full := 2.0 * pi;
    a, turns := angleDiff, 0;
    while a < 0.0
      invariant a == angleDiff + turns as real * full
      decreases (-a / full).Floor + 1
    {
      StepCount(-a, full);
      a, turns := a + full, turns + 1;
    }
    while a >= full
      invariant a >= 0.0
      invariant a == angleDiff + turns as real * full
      decreases (a / full).Floor
    {
      StepCount(a, full);
      a, turns := a - full, turns - 1;
    }
  }

  /** `drawCornerSprite`: the corner kind for the turn from the incoming to
      the outgoing direction. The angles are the source's `Math.atan2`
      results, in radians. */
  method CornerSprite(corners: Corners, angle1: real, angle2: real, pi: real)
    returns (kind: CornerKind, sprite: SpriteRef, degrees: real, ghost turns: int)
    requires pi > 0.0
    ensures 0.0 <= degrees < 360.0
    ensures degrees * pi == ((angle2 - angle1) + turns as real * (2.0 * pi)) * 180.0
    ensures kind == CornerKindOf(degrees)
    ensures sprite == match kind
      case TopLeft => corners.tl
      case TopRight => corners.tr
      case BottomRight => corners.br
      case BottomLeft => corners.bl
  {
    var normalized;
    normalized, turns := NormalizeAngle(angle2 - angle1, pi);
    degrees := (normalized * 180.0) / pi;
    DegreesInRange(normalized, pi);
    kind := CornerKindOf(degrees);
    sprite := match kind
      case TopLeft => corners.tl
      case TopRight => corners.tr
      case BottomRight => corners.br
      case BottomLeft => corners.bl;
  }

  lemma DegreesInRange(a: real, pi: real)
    requires pi > 0.0 && 0.0 <= a < 2.0 * pi
    ensures 0.0 <= (a * 180.0) / pi < 360.0
    ensures ((a * 180.0) / pi) * pi == a * 180.0
  {
    var d := (a * 180.0) / pi;
    assert d * pi == a * 180.0;
    assert 360.0 * pi == 2.0 * pi * 180.0;
  }
}
