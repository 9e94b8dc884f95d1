/** The sprite atlas of client/js/SpriteAtlas.js: constant tables of
    sprite rectangles and building patterns, and the keyed lookups over them.
    A JavaScript object literal is modelled as an association list in
    declaration order, which is also the order `Object.values` returns. */
module SpriteAtlas {
  import opened Common

  /** A rectangle of the sprite sheet, in pixels, with its sprite name. */
  datatype Sprite = Sprite(x: nat, y: nat, width: nat, height: nat, name: string)

  type Table<V> = seq<(string, V)>
  type Category = Table<Sprite>

  /** Keyed access on an object literal: the value stored under `key`. */
  function Lookup<V>(table: Table<V>, key: string): (r: Option<V>)
    ensures r.None? <==> forall i :: 0 <= i < |table| ==> table[i].0 != key
    ensures r.Some? ==> (key, r.value) in table
  {
    if table == [] then None
    else if table[0].0 == key then Some(table[0].1)
    else Lookup(table[1..], key)
  }

  /** An object literal never repeats a key. */
  predicate DistinctKeys<V>(table: Table<V>)
  {
    forall i, j :: 0 <= i < j < |table| ==> table[i].0 != table[j].0
  }

  /** With distinct keys, the lookup finds exactly the stored entry. */
  lemma LookupFindsEntry<V>(table: Table<V>, key: string, v: V)
    requires DistinctKeys(table) && (key, v) in table
    ensures Lookup(table, key) == Some(v)
  {
    var i :| 0 <= i < |table| && table[i] == (key, v);
    if i > 0 {
      assert (key, v) in table[1..] by { assert table[1..][i - 1] == table[i]; }
      assert DistinctKeys(table[1..]) by {
        forall k, l | 0 <= k < l < |table[1..]|
          ensures table[1..][k].0 != table[1..][l].0
        {
          assert table[1..][k] == table[k + 1] && table[1..][l] == table[l + 1];
        }
      }
      LookupFindsEntry(table[1..], key, v);
    }
  }

  /** `SPRITE_SHEET_INFO.totalWidth` and `totalHeight`. */
  const SheetWidth: nat := 96
  const SheetHeight: nat := 88

  const BuildingTiles: Category := [
      ("SOLID", Sprite(0, 0, 8, 8, "tile_solid_01")),
      ("TEXTURED", Sprite(8, 0, 8, 8, "tile_textured_01")),
      ("CORNER_TL", Sprite(16, 0, 8, 8, "tile_corner_tl")),
      ("CORNER_TR", Sprite(24, 0, 8, 8, "tile_corner_tr")),
      ("CORNER_BL", Sprite(32, 0, 8, 8, "tile_corner_bl")),
      ("CORNER_BR", Sprite(40, 0, 8, 8, "tile_corner_br")),
      ("EDGE_H", Sprite(48, 0, 8, 8, "tile_edge_h")),
      ("EDGE_V", Sprite(56, 0, 8, 8, "tile_edge_v")),
      ("BRICK_01", Sprite(16, 8, 8, 8, "tile_brick_01")),
      ("BRICK_02", Sprite(24, 8, 8, 8, "tile_brick_02")),
      ("STONE_01", Sprite(32, 8, 8, 8, "tile_stone_01")),
      ("STONE_02", Sprite(40, 8, 8, 8, "tile_stone_02")),
      ("WOOD_01", Sprite(48, 8, 8, 8, "tile_wood_01")),
      ("WOOD_02", Sprite(56, 8, 8, 8, "tile_wood_02"))
  ]

  const RoofElements: Category := [
      ("PEAK_01", Sprite(0, 32, 8, 8, "roof_peak_01")),
      ("PEAK_02", Sprite(8, 32, 8, 8, "roof_peak_02")),
      ("SLOPE_L", Sprite(16, 32, 8, 8, "roof_slope_l")),
      ("SLOPE_R", Sprite(24, 32, 8, 8, "roof_slope_r")),
      ("TILE_01", Sprite(32, 32, 8, 8, "roof_tile_01")),
      ("TILE_02", Sprite(40, 32, 8, 8, "roof_tile_02")),
      ("SHINGLE_01", Sprite(48, 32, 8, 8, "roof_shingle_01")),
      ("SHINGLE_02", Sprite(56, 32, 8, 8, "roof_shingle_02"))
  ]

  const BorderElements: Category := [
      ("FRAME_THIN", Sprite(64, 0, 8, 8, "frame_square_thin")),
      ("FRAME_THICK", Sprite(72, 0, 8, 8, "frame_square_thick")),
      ("FRAME_OCTAGON", Sprite(80, 0, 8, 8, "frame_octagon")),
      ("CORNER_TL_THIN", Sprite(64, 16, 8, 8, "corner_tl_thin")),
      ("CORNER_TR_THIN", Sprite(72, 16, 8, 8, "corner_tr_thin")),
      ("CORNER_BL_THIN", Sprite(80, 16, 8, 8, "corner_bl_thin")),
      ("CORNER_BR_THIN", Sprite(88, 16, 8, 8, "corner_br_thin")),
      ("EDGE_H_THIN", Sprite(64, 24, 8, 8, "edge_h_thin")),
      ("EDGE_V_THIN", Sprite(72, 24, 8, 8, "edge_v_thin")),
      ("JUNCTION_T", Sprite(80, 24, 8, 8, "junction_t")),
      ("JUNCTION_L", Sprite(88, 24, 8, 8, "junction_l"))
  ]

  const Structural: Category := [
      ("BLOCK_SMALL", Sprite(0, 24, 4, 4, "block_small")),
      ("BLOCK_MEDIUM", Sprite(4, 24, 6, 6, "block_medium")),
      ("BLOCK_LARGE", Sprite(10, 24, 8, 8, "block_large")),
      ("LINE_H_SHORT", Sprite(0, 16, 8, 2, "line_h_short")),
      ("LINE_H_MEDIUM", Sprite(8, 16, 8, 2, "line_h_medium")),
      ("LINE_H_LONG", Sprite(16, 16, 8, 2, "line_h_long"))
  ]

  const UiElements: Category := [
      ("CIRCLE_SOLID", Sprite(0, 48, 8, 8, "circle_solid")),
      ("CIRCLE_RING_01", Sprite(8, 48, 8, 8, "circle_ring_01")),
      ("CIRCLE_RING_02", Sprite(16, 48, 8, 8, "circle_ring_02")),
      ("CIRCLE_RADIAL", Sprite(24, 48, 8, 8, "circle_radial")),
      ("SQUARE_SOLID", Sprite(0, 56, 8, 8, "square_solid")),
      ("SQUARE_BORDER", Sprite(8, 56, 8, 8, "square_border")),
      ("SQUARE_CROSS", Sprite(16, 56, 8, 8, "square_cross")),
      ("SYMBOL_PLUS", Sprite(24, 56, 8, 8, "symbol_plus"))
  ]

  const Numbers: Category := [
      ("0", Sprite(0, 72, 8, 8, "number_0")),
      ("1", Sprite(8, 72, 8, 8, "number_1")),
      ("2", Sprite(16, 72, 8, 8, "number_2")),
      ("3", Sprite(24, 72, 8, 8, "number_3")),
      ("4", Sprite(32, 72, 8, 8, "number_4")),
      ("5", Sprite(40, 72, 8, 8, "number_5")),
      ("6", Sprite(48, 72, 8, 8, "number_6")),
      ("7", Sprite(56, 72, 8, 8, "number_7")),
      ("8", Sprite(0, 80, 8, 8, "number_8")),
      ("9", Sprite(8, 80, 8, 8, "number_9"))
  ]

  const Decorative: Category := [
      ("SHAPE_CIRCLE_SMALL", Sprite(64, 32, 4, 4, "shape_circle_small")),
      ("SHAPE_OVAL", Sprite(68, 32, 6, 4, "shape_oval")),
      ("SHAPE_DIAMOND", Sprite(72, 32, 4, 4, "shape_diamond")),
      ("SHAPE_CROSS", Sprite(76, 32, 4, 4, "shape_cross")),
      ("TEXTURE_DOTS", Sprite(64, 40, 8, 8, "texture_dots")),
      ("TEXTURE_LINES", Sprite(72, 40, 8, 8, "texture_lines")),
      ("TEXTURE_CHECKER", Sprite(80, 40, 8, 8, "texture_checker"))
  ]

  const Navigation: Category := [
      ("ARROW_UP", Sprite(64, 48, 4, 4, "arrow_up")),
      ("ARROW_DOWN", Sprite(68, 48, 4, 4, "arrow_down")),
      ("ARROW_LEFT", Sprite(72, 48, 4, 4, "arrow_left")),
      ("ARROW_RIGHT", Sprite(76, 48, 4, 4, "arrow_right"))
  ]

  const Atlas: Table<Category> := [
    ("BUILDING_TILES", BuildingTiles),
    ("ROOF_ELEMENTS", RoofElements),
    ("BORDER_ELEMENTS", BorderElements),
    ("STRUCTURAL", Structural),
    ("UI_ELEMENTS", UiElements),
    ("NUMBERS", Numbers),
    ("DECORATIVE", Decorative),
    ("NAVIGATION", Navigation)
  ]

  /** A building style: the sprite names used for each part. */
  datatype Pattern = Pattern(walls: seq<string>, corners: seq<string>, edges: seq<string>,
                             roof: seq<string>, border: seq<string>)

  const HouseCorners: seq<string> := ["tile_corner_tl", "tile_corner_tr", "tile_corner_bl", "tile_corner_br"]
  const HouseEdges: seq<string> := ["tile_edge_h", "tile_edge_v"]

  const BasicHouse := Pattern(["tile_solid_01", "tile_brick_01"], HouseCorners, HouseEdges,
    ["roof_peak_01", "roof_tile_01"],
    ["corner_tl_thin", "corner_tr_thin", "corner_bl_thin", "corner_br_thin"])
  const StoneHouse := Pattern(["tile_stone_01", "tile_stone_02"], HouseCorners, HouseEdges,
    ["roof_peak_02", "roof_shingle_01"],
    ["corner_tl_thick", "corner_tr_thick", "corner_bl_thick", "corner_br_thick"])
  const WoodenHouse := Pattern(["tile_wood_01", "tile_wood_02"], HouseCorners, HouseEdges,
    ["roof_slope_l", "roof_slope_r", "roof_shingle_02"],
    ["edge_h_thin", "edge_v_thin"])
  const ModernHouse := Pattern(["tile_solid_01", "tile_textured_01"], HouseCorners, HouseEdges,
    ["roof_peak_01", "roof_tile_02"],
    ["frame_square_thin"])

  const BuildingPatterns: Table<Pattern> := [
    ("BASIC_HOUSE", BasicHouse),
    ("STONE_HOUSE", StoneHouse),
    ("WOODEN_HOUSE", WoodenHouse),
    ("MODERN_HOUSE", ModernHouse)
  ]

  /** Every rectangle of a category lies inside the sheet. */
  predicate FitsSheet(c: Category)
  {
    forall i :: 0 <= i < |c| ==>
      c[i].1.x + c[i].1.width <= SheetWidth && c[i].1.y + c[i].1.height <= SheetHeight
  }

  /** The whole atlas fits the 96 x 88 sheet. */
  lemma AtlasFitsSheet()
    ensures forall k :: 0 <= k < |Atlas| ==> FitsSheet(Atlas[k].1)
  {
    assert FitsSheet(BuildingTiles);
    assert FitsSheet(RoofElements);
    assert FitsSheet(BorderElements);
    assert FitsSheet(Structural);
    assert FitsSheet(UiElements);
    assert FitsSheet(Numbers);
    assert FitsSheet(Decorative);
    assert FitsSheet(Navigation);
  }

  /** The category stored under the upper-cased name. */
  function CategoryOf(category: string): Option<Category>
  {
    Lookup(Atlas, ToUpper(category))
  }

  /** `getSprite`: None (null) when the upper-cased category or the
      upper-cased sprite name within it is missing. */
  function GetSprite(category: string, spriteName: string): (r: Option<Sprite>)
    ensures r.None? <==> (CategoryOf(category).None? ||
      forall i :: 0 <= i < |CategoryOf(category).value| ==> CategoryOf(category).value[i].0 != ToUpper(spriteName))
    ensures r.Some? ==>
      (ToUpper(category), CategoryOf(category).value) in Atlas &&
      (ToUpper(spriteName), r.value) in CategoryOf(category).value
    ensures r.Some? ==> r.value.x + r.value.width <= SheetWidth && r.value.y + r.value.height <= SheetHeight
  {
    match CategoryOf(category)
    case None => None
    case Some(c) =>
      var s := Lookup(c, ToUpper(spriteName));
      if s.None? then None
      else
        AtlasFitsSheet();
        ghost var k :| 0 <= k < |Atlas| && Atlas[k] == (ToUpper(category), c);
        assert FitsSheet(Atlas[k].1);
        ghost var i :| 0 <= i < |c| && c[i] == (ToUpper(spriteName), s.value);
        s
  }

  /** The lookup ignores ASCII case: any spelling finds what the upper-case
      spelling finds. */
  lemma GetSpriteIgnoresCase(category: string, spriteName: string)
    ensures GetSprite(category, spriteName) == GetSprite(ToUpper(category), ToUpper(spriteName))
  {
    ToUpperIdempotent(category);
    ToUpperIdempotent(spriteName);
  }

  /** `getBuildingPattern`: never null; an unknown name gives BASIC_HOUSE. */
  function GetBuildingPattern(patternName: string): (p: Pattern)
    ensures (forall i :: 0 <= i < |BuildingPatterns| ==> BuildingPatterns[i].0 != ToUpper(patternName)) ==>
      p == BasicHouse
    ensures exists i :: 0 <= i < |BuildingPatterns| && BuildingPatterns[i].1 == p
  {
    match Lookup(BuildingPatterns, ToUpper(patternName))
    case None =>
      assert BuildingPatterns[0].1 == BasicHouse;
      BasicHouse
    case Some(p) => p
  }

  /** The four named patterns are found under any casing of their names. */
  lemma KnownPatternsFound(patternName: string)
    ensures ToUpper(patternName) == "STONE_HOUSE" ==> GetBuildingPattern(patternName) == StoneHouse
    ensures ToUpper(patternName) == "WOODEN_HOUSE" ==> GetBuildingPattern(patternName) == WoodenHouse
    ensures ToUpper(patternName) == "MODERN_HOUSE" ==> GetBuildingPattern(patternName) == ModernHouse
    ensures ToUpper(patternName) == "BASIC_HOUSE" ==> GetBuildingPattern(patternName) == BasicHouse
  {
    assert DistinctKeys(BuildingPatterns);
    LookupFindsEntry(BuildingPatterns, "STONE_HOUSE", StoneHouse);
    LookupFindsEntry(BuildingPatterns, "WOODEN_HOUSE", WoodenHouse);
    LookupFindsEntry(BuildingPatterns, "MODERN_HOUSE", ModernHouse);
  }

  /** The values of a category, in declaration order (`Object.values`). */
  function Values(c: Category): (vs: seq<Sprite>)
    ensures |vs| == |c| && forall i :: 0 <= i < |c| ==> vs[i] == c[i].1
  {
    if c == [] then [] else [c[0].1] + Values(c[1..])
  }

  /** `getCategorySprites`: [] for an unknown category, otherwise all of its
      sprites. */
  function GetCategorySprites(category: string): (r: seq<Sprite>)
    ensures CategoryOf(category).None? ==> r == []
    ensures CategoryOf(category).Some? ==> r == Values(CategoryOf(category).value)
  {
    match CategoryOf(category)
    case None => []
    case Some(c) => Values(c)
  }

  /** Every sprite `getSprite` finds is among its category's sprites. */
  lemma GetSpriteInCategory(category: string, spriteName: string)
    requires GetSprite(category, spriteName).Some?
    ensures GetSprite(category, spriteName).value in GetCategorySprites(category)
  {
    var c := CategoryOf(category).value;
    var s := GetSprite(category, spriteName).value;
    var i :| 0 <= i < |c| && c[i] == (ToUpper(spriteName), s);
    assert GetCategorySprites(category)[i] == s;
  }
}
