/** ReactViewBackgroundDrawableUtils, in its two Android variants: the one
    for React Native 0.75 and later, which looks for a CSSBackgroundDrawable,
    and the legacy one, which looks for a ReactViewBackgroundDrawable. It
    finds the React background among a view's drawables and turns it into a
    session-replay shape style and border. */
module ReactBackground {

  import opened Wrappers

  /** Which React Native architecture the utilities are compiled for. */
  datatype Variant = Rn75 | RnLegacy

  /** The parts of a background drawable the utilities read. `color` is the
      private `mColor` field read by reflection (null when absent),
      `borderColor` the colour of the full border, `borderWidth` the full
      border width after density normalisation, and `cornerRadius` the
      corner radius the variant derives from the drawable. */
  datatype Background = Background(color: Option<int>, borderColor: int, borderWidth: int, cornerRadius: real)

  datatype Drawable =
    | CssBackgroundDrawable(background: Background)
    | ReactViewBackgroundDrawable(background: Background)
    | InsetDrawable(inner: Option<Drawable>)
    | LayerDrawable(layers: seq<Option<Drawable>>)
    | OtherDrawable

  /** The drawable class each variant is looking for. */
  predicate IsReactBackground(variant: Variant, d: Drawable) {
    match variant
    case Rn75 => d.CssBackgroundDrawable?
    case RnLegacy => d.ReactViewBackgroundDrawable?
  }

  /** MobileSegment.ShapeStyle and MobileSegment.ShapeBorder; colours are
      the strings formatAsRgba makes. */
  datatype ShapeStyle = ShapeStyle(backgroundColor: string, opacity: real, cornerRadius: real)
  datatype ShapeBorder = ShapeBorder(color: string, width: int)

  // ----- finding the background -----

  /** The first layer, from index `i` on, that is the background the
      variant is looking for; layers are not unwrapped. */
  function FirstBackgroundLayer(variant: Variant, layers: seq<Option<Drawable>>, i: nat): (r: Option<Drawable>)
    requires i <= |layers|
    decreases |layers| - i
    ensures r.Some? ==> IsReactBackground(variant, r.value)
    ensures r.Some? <==> exists k :: i <= k < |layers| && layers[k].Some? && IsReactBackground(variant, layers[k].value)
    ensures r.Some? ==>
      exists k :: i <= k < |layers| && layers[k] == r
                  && forall j :: i <= j < k ==> !(layers[j].Some? && IsReactBackground(variant, layers[j].value))
  {
    if i == |layers| then None
    else if layers[i].Some? && IsReactBackground(variant, layers[i].value) then layers[i]
    else FirstBackgroundLayer(variant, layers, i + 1)
  }

  /** What getReactBackgroundFromDrawable finds: the drawable itself, what
      an inset drawable wraps, or a layer drawable's first direct background
      layer; null otherwise. */
  function ReactBackgroundOf(variant: Variant, drawable: Option<Drawable>): (r: Option<Drawable>)
    decreases drawable
    ensures r.None? || IsReactBackground(variant, r.value)
    ensures drawable.None? || drawable.value.OtherDrawable? ==> r.None?
    ensures drawable.Some? && IsReactBackground(variant, drawable.value) ==> r == drawable
    ensures drawable.Some? && drawable.value.InsetDrawable? ==> r == ReactBackgroundOf(variant, drawable.value.inner)
    ensures drawable.Some? && drawable.value.LayerDrawable? ==> r == FirstBackgroundLayer(variant, drawable.value.layers, 0)
  {
    match drawable
    case None => None
    case Some(d) =>
      if IsReactBackground(variant, d) then drawable
      else match d
        case InsetDrawable(inner) => ReactBackgroundOf(variant, inner)
        case LayerDrawable(layers) => FirstBackgroundLayer(variant, layers, 0)
        case _ => None
  }

  /** getReactBackgroundFromDrawable, with its recursion and its loop. */
  method GetReactBackgroundFromDrawable(variant: Variant, drawable: Option<Drawable>) returns (r: Option<Drawable>)
    decreases drawable
    ensures r == ReactBackgroundOf(variant, drawable)
  {
    if drawable.Some? && IsReactBackground(variant, drawable.value) {
      return drawable;
    }
    if drawable.Some? && drawable.value.InsetDrawable? {
      r := GetReactBackgroundFromDrawable(variant, drawable.value.inner);
      return;
    }
    if drawable.Some? && drawable.value.LayerDrawable? {
      var layers := drawable.value.layers;
      var layerNumber := 0;
      while layerNumber < |layers|
        invariant 0 <= layerNumber <= |layers|
        invariant FirstBackgroundLayer(variant, layers, 0) == FirstBackgroundLayer(variant, layers, layerNumber)
      {
        var layer := layers[layerNumber];
        if layer.Some? && IsReactBackground(variant, layer.value) {
          return layer;
        }
        layerNumber := layerNumber + 1;
      }
    }
    return None;
  }

  // ----- shape and border -----

  /** resolveBorder: the full border's colour and width. */
  function ResolveBorder(b: Background, formatAsRgba: int -> string): (border: ShapeBorder)
    ensures border.color == formatAsRgba(b.borderColor) && border.width == b.borderWidth
  {
    ShapeBorder(formatAsRgba(b.borderColor), b.borderWidth)
  }

  /** resolveShapeAndBorder: nothing for a drawable that is not the
      variant's background; otherwise the border, and a style when the
      background has a colour. */
  function ResolveShapeAndBorder(variant: Variant, d: Drawable, opacity: real,
                                 formatAsRgba: int -> string): (r: (Option<ShapeStyle>, Option<ShapeBorder>))
    ensures !IsReactBackground(variant, d) ==> r == (None, None)
    ensures IsReactBackground(variant, d) ==> r.1 == Some(ResolveBorder(d.background, formatAsRgba))
    ensures IsReactBackground(variant, d) && d.background.color.None? ==> r.0.None?
    ensures IsReactBackground(variant, d) && d.background.color.Some? ==>
      r.0 == Some(ShapeStyle(formatAsRgba(d.background.color.value), opacity, d.background.cornerRadius))
  {
    if !IsReactBackground(variant, d) then (None, None)
    else
      var borderProps := ResolveBorder(d.background, formatAsRgba);
      match d.background.color
      case None => (None, Some(borderProps))
      case Some(color) =>
        (Some(ShapeStyle(formatAsRgba(color), opacity, d.background.cornerRadius)), Some(borderProps))
  }

  // ----- properties -----

  /** A border comes back exactly for the variant's background, and a style
      only together with a border and only when the background has a colour. */
  lemma BorderIffBackground(variant: Variant, d: Drawable, opacity: real, formatAsRgba: int -> string)
    ensures var r := ResolveShapeAndBorder(variant, d, opacity, formatAsRgba);
      && (r.1.Some? <==> IsReactBackground(variant, d))
      && (r.0.Some? <==> IsReactBackground(variant, d) && d.background.color.Some?)
      && (r.0.Some? ==> r.0.value.opacity == opacity)
  {
  }

  /** Inset drawables are unwrapped, however deeply they nest. */
  lemma {:induction false} InsetsAreUnwrapped(variant: Variant, background: Drawable, depth: nat)
    requires IsReactBackground(variant, background)
    ensures ReactBackgroundOf(variant, Some(Insets(background, depth))) == Some(background)
    decreases depth
  {
    if depth > 0 {
      InsetsAreUnwrapped(variant, background, depth - 1);
    }
  }

  /** `drawable` wrapped in `depth` inset drawables. */
  function Insets(drawable: Drawable, depth: nat): Drawable {
    if depth == 0 then drawable else InsetDrawable(Some(Insets(drawable, depth - 1)))
  }

  /** Layers are not unwrapped: a background inside an inset drawable inside
      a layer drawable is not found. */
  lemma InsetInsideLayerIsNotFound(variant: Variant, background: Drawable)
    requires IsReactBackground(variant, background)
    ensures ReactBackgroundOf(variant, Some(LayerDrawable([Some(InsetDrawable(Some(background)))]))).None?
  {
    var layers := [Some(InsetDrawable(Some(background)))];
    assert !IsReactBackground(variant, layers[0].value);
    assert FirstBackgroundLayer(variant, layers, 1).None?;
  }

  /** The first background layer wins over later ones. */
  lemma FirstLayerWins(variant: Variant, first: Drawable, second: Drawable)
    requires IsReactBackground(variant, first) && IsReactBackground(variant, second)
    ensures ReactBackgroundOf(variant, Some(LayerDrawable([Some(first), Some(second)]))) == Some(first)
  {
  }

  /** The two variants look for different classes: what one finds, the
      other does not. */
  lemma VariantsAreDisjoint(b: Background, opacity: real, formatAsRgba: int -> string)
    ensures ReactBackgroundOf(RnLegacy, Some(CssBackgroundDrawable(b))).None?
    ensures ReactBackgroundOf(Rn75, Some(ReactViewBackgroundDrawable(b))).None?
    ensures ResolveShapeAndBorder(RnLegacy, CssBackgroundDrawable(b), opacity, formatAsRgba) == (None, None)
  {
  }
}
