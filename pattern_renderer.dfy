/** The state of client/js/PatternRenderer.js: the selected pattern, the
    CSS-like pattern properties, the scale and the sprite sheet, with the
    setters that update them, and the arithmetic of the pattern fill. Canvas
    drawing is not modelled. */
module PatternRendering {
  import opened Common
  import SpriteAtlas

  type Sprite = SpriteAtlas.Sprite

  /** The sprite sheet element: an `<img>` while loading from a path, or the
      `<canvas>` drawn as a fallback. */
  datatype Sheet = Sheet(tagName: string)

  /** An entry of `this.patterns`. */
  datatype PatternSpec = PatternSpec(name: string, sprites: seq<Sprite>, properties: map<string, Json>)

  /** The sprites every pattern uses (`this.fallbackSprites`). */
  const FallbackSprites: seq<Sprite> := [
    SpriteAtlas.Sprite(0, 0, 16, 16, "solid"),
    SpriteAtlas.Sprite(16, 0, 16, 16, "brick"),
    SpriteAtlas.Sprite(0, 16, 16, 16, "stone"),
    SpriteAtlas.Sprite(16, 16, 16, 16, "wood"),
    SpriteAtlas.Sprite(0, 0, 16, 16, "textured")
  ]

  const PatternDefaults: map<string, Json> :=
    map["size" := JNum(8.0), "spacing" := JNum(0.0), "repeat" := JStr("repeat")]

  /** `this.patterns`, in declaration order. */
  const Patterns: SpriteAtlas.Table<PatternSpec> := [
    ("basic", PatternSpec("Basic House", FallbackSprites, PatternDefaults)),
    ("stone", PatternSpec("Stone House", FallbackSprites, PatternDefaults)),
    ("wooden", PatternSpec("Wooden House", FallbackSprites, PatternDefaults)),
    ("castle", PatternSpec("Castle", FallbackSprites, PatternDefaults)),
    ("cottage", PatternSpec("Cottage", FallbackSprites, PatternDefaults)),
    ("modern", PatternSpec("Modern House", FallbackSprites, PatternDefaults))
  ]

  /** The properties the constructor starts from. */
  const InitialProperties: map<string, Json> := map[
    "type" := JStr("sprite"), "sprite" := JNull,
    "size" := JNum(8.0), "spacing" := JNum(0.0), "scale" := JNum(1.0),
    "offsetX" := JNum(0.0), "offsetY" := JNum(0.0), "align" := JStr("center"),
    "repeat" := JStr("repeat"), "opacity" := JNum(1.0), "blendMode" := JStr("normal"),
    "color" := JNull, "colorOpacity" := JNum(0.0)]

  /** What `fillPolygonWithPattern` does with a polygon. */
  datatype FillMode = NoFill | ColoredRectangles | SpriteFill

  /** The numeric value of a property, None when it is not a number. */
  function NumberAt(props: map<string, Json>, key: string): Option<real>
  {
    if key in props && props[key].JNum? then Some(props[key].n) else None
  }

  /** The number JavaScript's `*` makes of a property: `null` is 0 and a
      boolean 0 or 1. None stands for NaN (a missing property) and for a
      string, whose conversion is not modelled. */
  function CoercedAt(props: map<string, Json>, key: string): (n: Option<real>)
    ensures key in props && props[key].JNum? ==> n == Some(props[key].n)
    ensures key in props && props[key].JNull? ==> n == Some(0.0)
    ensures key in props && props[key].JBool? ==> n == Some(if props[key].b then 1.0 else 0.0)
    ensures n.None? <==> key !in props || props[key].JStr?
  {
    if key !in props then None
    else
      match props[key]
      case JNull => Some(0.0)
      case JBool(b) => Some(if b then 1.0 else 0.0)
      case JNum(v) => Some(v)
      case JStr(_) => None
  }

  /** `Math.max(stepSize, spriteSize * scale)` with
      stepSize = size * propScale + spacing * propScale. */
  function EffectiveStep(size: real, spacing: real, propScale: real, spriteSize: real, scale: real): (step: real)
    ensures step >= spriteSize * scale
    ensures step >= size * propScale + spacing * propScale
    ensures step == spriteSize * scale || step == size * propScale + spacing * propScale
  {
    Max(size * propScale + spacing * propScale, spriteSize * scale)
  }

  class PatternRenderer {
    var currentPattern: string
    var patternProperties: map<string, Json>
    var scale: real
    var spriteSheet: Option<Sheet>
    const spriteSize: real

    /** The current pattern is one of the table's, and a sprite sheet element
        of a usable kind is attached. */
    predicate Valid()
      reads this
    {
      SpriteAtlas.Lookup(Patterns, currentPattern).Some? &&
      spriteSheet.Some? && spriteSheet.value.tagName in {"IMG", "CANVAS"}
    }

    /** The constructor; it starts loading the sheet, which assigns an
        `<img>` element before the image has arrived. */
    constructor ()
      ensures currentPattern == "basic" && patternProperties == InitialProperties
      ensures scale == 1.0 && spriteSize == 8.0
      ensures spriteSheet == Some(Sheet("IMG"))
      ensures Valid()
    {
      currentPattern := "basic";
      patternProperties := InitialProperties;
      scale := 1.0;
      spriteSize := 8.0;
      spriteSheet := Some(Sheet("IMG"));
    }

    /** Every path failed: the fallback canvas replaces the image. */
    method UseFallbackSheet()
      requires Valid()
      modifies this
      ensures spriteSheet == Some(Sheet("CANVAS"))
      ensures currentPattern == old(currentPattern) && patternProperties == old(patternProperties)
      ensures scale == old(scale)
      ensures Valid()
    {
      spriteSheet := Some(Sheet("CANVAS"));
    }

    /** `Object.assign(this.patternProperties, properties)`: the supplied
        keys take the supplied values, every other key keeps its value. */
    method SetPatternProperties(properties: map<string, Json>)
      requires Valid()
      modifies this
      ensures patternProperties == old(patternProperties) + properties
      ensures forall k :: k in properties ==> k in patternProperties && patternProperties[k] == properties[k]
      ensures forall k :: k !in properties ==>
        (k in patternProperties <==> k in old(patternProperties)) &&
        (k in patternProperties ==> patternProperties[k] == old(patternProperties)[k])
      ensures currentPattern == old(currentPattern) && scale == old(scale) && spriteSheet == old(spriteSheet)
      ensures Valid()
    {
      patternProperties := patternProperties + properties;
    }

    /** A known name selects the pattern and merges its properties; an
        unknown one changes nothing. */
    method SetPattern(patternName: string)
      requires Valid()
      modifies this
      ensures match SpriteAtlas.Lookup(Patterns, patternName)
        case Some(p) =>
          currentPattern == patternName && patternProperties == old(patternProperties) + p.properties
        case None =>
          currentPattern == old(currentPattern) && patternProperties == old(patternProperties)
      ensures scale == old(scale) && spriteSheet == old(spriteSheet)
      ensures Valid()
    {
      var pattern := SpriteAtlas.Lookup(Patterns, patternName);
      if pattern.Some? {
        currentPattern := patternName;
        SetPatternProperties(pattern.value.properties);
      }
    }

    /** The scale is stored twice: as a field and as a property. */
    method SetScale(s: real)
      requires Valid()
      modifies this
      ensures scale == s && patternProperties == old(patternProperties)["scale" := JNum(s)]
      ensures NumberAt(patternProperties, "scale") == Some(scale)
      ensures currentPattern == old(currentPattern) && spriteSheet == old(spriteSheet)
      ensures Valid()
    {
      scale := s;
      patternProperties := patternProperties["scale" := JNum(s)];
    }

    /** `spriteSheet !== null`. */
    method IsReady() returns (ready: bool)
      ensures ready <==> spriteSheet.Some?
    {
      ready := spriteSheet.Some?;
    }

    /** A copy of the properties: a map is a value here, so what the caller
        does with it cannot reach the renderer. */
    method GetCurrentPatternProperties() returns (props: map<string, Json>)
      ensures props == patternProperties
    {
      props := patternProperties;
    }

    /** `isPointInPolygon`, the even-odd rule. */
    method IsPointInPolygon(point: Point, polygon: seq<Point>) returns (inside: bool)
      ensures inside == InsidePolygon(point, polygon)
    {
      inside := RayCast(point, polygon);
    }

    /** Which branch `fillPolygonWithPattern` takes. */
    function Mode(coordinates: seq<Point>): (m: FillMode)
      reads this
      ensures |coordinates| < 3 ==> m == NoFill
      ensures m == SpriteFill ==>
        spriteSheet.Some? && spriteSheet.value.tagName in {"IMG", "CANVAS"}
      ensures m == ColoredRectangles ==>
        spriteSheet.None? || spriteSheet.value.tagName !in {"IMG", "CANVAS"}
    {
      if |coordinates| < 3 then NoFill
      else
        match SpriteAtlas.Lookup(Patterns, currentPattern)
        case None => NoFill
        case Some(p) =>
          if p.sprites == [] then NoFill
          else if spriteSheet.None? then ColoredRectangles
          else if spriteSheet.value.tagName != "IMG" && spriteSheet.value.tagName != "CANVAS" then ColoredRectangles
          else SpriteFill
    }

    /** The step of the fill grid from the current properties; None when
        one of them is not a number. */
    function Step(): (step: Option<real>)
      reads this
      ensures step.Some? ==> step.value >= spriteSize * scale
      ensures step.None? <==>
        CoercedAt(patternProperties, "size").None? || CoercedAt(patternProperties, "spacing").None? ||
        CoercedAt(patternProperties, "scale").None?
    {
      match (CoercedAt(patternProperties, "size"), CoercedAt(patternProperties, "spacing"), CoercedAt(patternProperties, "scale"))
      case (Some(size), Some(spacing), Some(propScale)) =>
        Some(EffectiveStep(size, spacing, propScale, spriteSize, scale))
      case _ => None
    }
  }

  /** In a valid renderer a polygon of three or more points is always
      filled with sprites: the colored-rectangle fallback is never reached,
      since the sheet is assigned as soon as loading starts. */
  lemma ValidRendererFillsWithSprites(r: PatternRenderer, coordinates: seq<Point>)
    requires r.Valid()
    ensures r.Mode(coordinates) == SpriteFill <==> |coordinates| >= 3
  {
    var p := SpriteAtlas.Lookup(Patterns, r.currentPattern).value;
    assert (r.currentPattern, p) in Patterns;
    assert p.sprites == FallbackSprites;
  }

  /** A fresh renderer fills on a grid of step 8. */
  lemma InitialStep(r: PatternRenderer)
    requires r.patternProperties == InitialProperties && r.scale == 1.0 && r.spriteSize == 8.0
    ensures r.Step() == Some(8.0)
  {
  }

  /** A `null` size counts as 0, so the sprite size alone sets the step. */
  lemma NullSizeStep(r: PatternRenderer)
    requires r.patternProperties == InitialProperties["size" := JNull] && r.scale == 1.0 && r.spriteSize == 8.0
    ensures r.Step() == Some(8.0)
  {
  }

  /** The sprite chosen for a grid cell of a valid renderer is one of the
      pattern's sprites. */
  lemma FillSpriteIndexInRange(r: PatternRenderer, x: real, y: real, minX: real, minY: real, step: real)
    requires r.Valid() && step > 0.0 && x >= minX && y >= minY
    ensures var sprites := SpriteAtlas.Lookup(Patterns, r.currentPattern).value.sprites;
      |sprites| > 0 && 0 <= GridSpriteIndex(x, y, minX, minY, step, |sprites|) < |sprites|
  {
    var p := SpriteAtlas.Lookup(Patterns, r.currentPattern).value;
    assert (r.currentPattern, p) in Patterns;
    GridSpriteIndexInRange(x, y, minX, minY, step, |p.sprites|);
  }
}
