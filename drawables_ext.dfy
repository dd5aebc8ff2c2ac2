/** The Android drawable extensions used by session replay
    (ReactDrawablesExt.kt): the Fresco-to-ImageView scale-type table, the
    ScaleTypeDrawable layer search, and bitmap extraction, which dispatches
    on the drawable's class. */
module DrawablesExt {

  import opened Wrappers

  /** A Kotlin `Int`. */
  type Int32 = x: int | -0x8000_0000 <= x < 0x8000_0000

  /** Kotlin `Int` multiplication, which wraps around modulo 2^32. */
  function Wrap32(x: int): Int32 {
    (x + 0x8000_0000) % 0x1_0000_0000 - 0x8000_0000
  }

  /** ScalingUtils.ScaleType: the seven standard types, and the rest
      (FIT_BOTTOM_START, FOCUS_CROP and custom types). */
  datatype FrescoScaleType =
    | Center | CenterCrop | CenterInside | FitCenter | FitStart | FitEnd | FitXY
    | FitBottomStart | FocusCrop | CustomScaleType

  /** ImageView.ScaleType. */
  datatype ImageViewScaleType =
    | IvCenter | IvCenterCrop | IvCenterInside | IvFitCenter | IvFitStart | IvFitEnd | IvFitXY | IvMatrix

  type BitmapId = nat

  /** A bitmap: one a drawable already holds, one derived from it at a given
      size, or one rendered from a drawable at a given size. */
  datatype Bitmap =
    | Original(id: BitmapId)
    | FromBitmap(source: BitmapId, width: Int32, height: Int32)
    | Rendered(width: Int32, height: Int32)

  /** The drawable classes the extraction distinguishes. Every drawable has
      an intrinsic width and height. An ArrayDrawable's layers may be null;
      a ForwardingDrawable (and its subclass ScaleTypeDrawable) may forward
      to nothing; `privateBitmap` is what reading RoundedBitmapDrawable's
      `mBitmap` by reflection gives; `constantState` is the drawable that
      BitmapDrawable's constant state creates, if there is a constant state. */
  datatype Drawable =
    | ArrayDrawable(layers: seq<Option<Drawable>>, intrinsicWidth: Int32, intrinsicHeight: Int32)
    | ScaleTypeDrawable(scaleType: FrescoScaleType, inner: Option<Drawable>, intrinsicWidth: Int32, intrinsicHeight: Int32)
    | ForwardingDrawable(inner: Option<Drawable>, intrinsicWidth: Int32, intrinsicHeight: Int32)
    | RoundedBitmapDrawable(privateBitmap: Option<BitmapId>, intrinsicWidth: Int32, intrinsicHeight: Int32)
    | BitmapDrawable(bitmap: Option<BitmapId>, constantState: Option<Drawable>, intrinsicWidth: Int32, intrinsicHeight: Int32)
    | VectorDrawable(intrinsicWidth: Int32, intrinsicHeight: Int32)
    | ShapeDrawable(intrinsicWidth: Int32, intrinsicHeight: Int32)
    | DrawerArrowDrawable(intrinsicWidth: Int32, intrinsicHeight: Int32)
    | OtherDrawable(intrinsicWidth: Int32, intrinsicHeight: Int32)
  {
    /** `is ForwardingDrawable`: ScaleTypeDrawable is a ForwardingDrawable. */
    predicate IsForwarding() {
      ScaleTypeDrawable? || ForwardingDrawable?
    }
  }

  // ----- scale types -----

  /** imageViewScaleType: the seven standard types map one to one; the rest
      have no ImageView equivalent. */
  function ImageViewScaleTypeOf(scaleType: FrescoScaleType): (r: Option<ImageViewScaleType>)
    ensures r.None? <==> scaleType in {FitBottomStart, FocusCrop, CustomScaleType}
    ensures r != Some(IvMatrix)
  {
    match scaleType
    case Center => Some(IvCenter)
    case CenterCrop => Some(IvCenterCrop)
    case CenterInside => Some(IvCenterInside)
    case FitCenter => Some(IvFitCenter)
    case FitStart => Some(IvFitStart)
    case FitEnd => Some(IvFitEnd)
    case FitXY => Some(IvFitXY)
    case _ => None
  }

  /** The Fresco type an ImageView type corresponds to, if any. */
  function FrescoScaleTypeOf(scaleType: ImageViewScaleType): Option<FrescoScaleType> {
    match scaleType
    case IvCenter => Some(Center)
    case IvCenterCrop => Some(CenterCrop)
    case IvCenterInside => Some(CenterInside)
    case IvFitCenter => Some(FitCenter)
    case IvFitStart => Some(FitStart)
    case IvFitEnd => Some(FitEnd)
    case IvFitXY => Some(FitXY)
    case IvMatrix => None
  }

  lemma ImageViewScaleTypeIsOneToOne(a: FrescoScaleType, b: FrescoScaleType)
    ensures ImageViewScaleTypeOf(a).Some? && ImageViewScaleTypeOf(a) == ImageViewScaleTypeOf(b) ==> a == b
    ensures ImageViewScaleTypeOf(a).Some? ==> FrescoScaleTypeOf(ImageViewScaleTypeOf(a).value) == Some(a)
  {
  }

  // ----- layers -----

  /** getDrawableOrNull: the layer at `index`, and null rather than an
      exception for an index outside the layers. */
  function GetDrawableOrNull(layers: seq<Option<Drawable>>, index: int): (r: Option<Drawable>)
    ensures !(0 <= index < |layers|) ==> r.None?
    ensures 0 <= index < |layers| ==> r == layers[index]
  {
    if 0 <= index < |layers| then layers[index] else None
  }

  predicate IsScaleTypeLayer(layer: Option<Drawable>) {
    layer.Some? && layer.value.ScaleTypeDrawable?
  }

  /** getScaleTypeDrawable: the lowest-index ScaleTypeDrawable layer, or null. */
  method GetScaleTypeDrawable(d: Drawable) returns (r: Option<Drawable>)
    requires d.ArrayDrawable?
    ensures r.None? <==> forall i :: 0 <= i < |d.layers| ==> !IsScaleTypeLayer(d.layers[i])
    ensures r.Some? ==>
      exists i :: 0 <= i < |d.layers| && d.layers[i] == r && IsScaleTypeLayer(r)
                  && forall j :: 0 <= j < i ==> !IsScaleTypeLayer(d.layers[j])
  {
    var i := 0;
    while i < |d.layers|
      invariant 0 <= i <= |d.layers|
      invariant forall j :: 0 <= j < i ==> !IsScaleTypeLayer(d.layers[j])
    {
      var drawable := GetDrawableOrNull(d.layers, i);
      if drawable.Some? && drawable.value.ScaleTypeDrawable? {
        return drawable;
      }
      i := i + 1;
    }
    return None;
  }

  /** The index of the first ScaleTypeDrawable layer at or after `i`. */
  function FirstScaleTypeFrom(layers: seq<Option<Drawable>>, i: nat): (k: Option<nat>)
    requires i <= |layers|
    decreases |layers| - i
    ensures k.Some? ==> i <= k.value < |layers| && IsScaleTypeLayer(layers[k.value])
                        && forall j :: i <= j < k.value ==> !IsScaleTypeLayer(layers[j])
    ensures k.None? ==> forall j :: i <= j < |layers| ==> !IsScaleTypeLayer(layers[j])
  {
    if i == |layers| then None
    else if IsScaleTypeLayer(layers[i]) then Some(i)
    else FirstScaleTypeFrom(layers, i + 1)
  }

  /** The signed 32-bit product of a width and a height. */
  function SizeArea(width: Int32, height: Int32): Int32 {
    Wrap32(width * height)
  }

  /** The area the extraction compares for a layer. */
  function Area(d: Drawable): Int32 {
    SizeArea(d.intrinsicWidth, d.intrinsicHeight)
  }

  /** The width and height the extraction holds after the first `n` layers:
      a non-null layer replaces them when its area exceeds theirs. */
  function ChosenSize(layers: seq<Option<Drawable>>, n: nat): (Int32, Int32)
    requires n <= |layers|
  {
    if n == 0 then (0, 0)
    else
      var previous := ChosenSize(layers, n - 1);
      var layer := layers[n - 1];
      if layer.Some? && Area(layer.value) > SizeArea(previous.0, previous.1)
      then (layer.value.intrinsicWidth, layer.value.intrinsicHeight)
      else previous
  }

  function ChosenArea(layers: seq<Option<Drawable>>, n: nat): Int32
    requires n <= |layers|
  {
    SizeArea(ChosenSize(layers, n).0, ChosenSize(layers, n).1)
  }

  /** Layer `j` is the first of the first `n` layers with the largest area. */
  predicate IsFirstMaximum(layers: seq<Option<Drawable>>, n: nat, j: nat)
    requires n <= |layers|
  {
    && j < n && layers[j].Some?
    && (forall k :: 0 <= k < n && layers[k].Some? ==> Area(layers[k].value) <= Area(layers[j].value))
    && (forall k :: 0 <= k < j && layers[k].Some? ==> Area(layers[k].value) < Area(layers[j].value))
  }

  // ----- bitmap extraction -----

  /** toBitmapOrNull: null for a BitmapDrawable without a bitmap; otherwise
      the bitmap toBitmap makes at the given size. */
  function ToBitmapOrNull(d: Drawable, width: Int32, height: Int32): (r: Option<Bitmap>)
    ensures r.None? <==> d.BitmapDrawable? && d.bitmap.None?
    ensures r.Some? && !d.BitmapDrawable? ==> r.value == Rendered(width, height)
  {
    if d.BitmapDrawable? then
      if d.bitmap.None? then None else Some(FromBitmap(d.bitmap.value, width, height))
    else Some(Rendered(width, height))
  }

  /** Drawable.tryToExtractBitmap: the dispatch on the drawable's class, in
      the order Array, Forwarding, RoundedBitmap, Bitmap, then the vector,
      shape and drawer-arrow drawables; any other drawable gives null. */
  function ExtractBitmap(d: Drawable): (r: Option<Bitmap>)
    decreases d, 2
    ensures d.ArrayDrawable? ==> r == ArrayExtract(d)
    ensures d.ScaleTypeDrawable? || d.ForwardingDrawable? ==> r == ForwardingExtract(d)
    ensures d.RoundedBitmapDrawable? ==> r == RoundedBitmapExtract(d)
    ensures d.BitmapDrawable? ==> r == BitmapExtract(d)
    ensures d.OtherDrawable? ==> r.None?
    ensures d.VectorDrawable? || d.ShapeDrawable? || d.DrawerArrowDrawable? ==>
      r == Some(Rendered(d.intrinsicWidth, d.intrinsicHeight))
    ensures d.RoundedBitmapDrawable? ==> r.Some?
  {
    match d
    case ArrayDrawable(_, _, _) => ArrayExtract(d)
    case ScaleTypeDrawable(_, _, _, _) => ForwardingExtract(d)
    case ForwardingDrawable(_, _, _) => ForwardingExtract(d)
    case RoundedBitmapDrawable(_, _, _) => RoundedBitmapExtract(d)
    case BitmapDrawable(_, _, _, _) => BitmapExtract(d)
    case VectorDrawable(w, h) => ToBitmapOrNull(d, w, h)
    case ShapeDrawable(w, h) => ToBitmapOrNull(d, w, h)
    case DrawerArrowDrawable(w, h) => ToBitmapOrNull(d, w, h)
    case OtherDrawable(_, _) => None
  }

  /** ForwardingDrawable.tryToExtractBitmap: the forwarded drawable's bitmap,
      or this drawable rendered at its intrinsic size. */
  function ForwardingExtract(d: Drawable): (r: Option<Bitmap>)
    requires d.IsForwarding()
    decreases d, 1
    ensures d.inner.None? ==> r == Some(Rendered(d.intrinsicWidth, d.intrinsicHeight))
  {
    if d.inner.Some? then ExtractBitmap(d.inner.value)
    else ToBitmapOrNull(d, d.intrinsicWidth, d.intrinsicHeight)
  }

  /** RoundedBitmapDrawable.tryToExtractBitmap: the private bitmap, or the
      drawable rendered at its intrinsic size; never null. */
  function RoundedBitmapExtract(d: Drawable): (r: Option<Bitmap>)
    requires d.RoundedBitmapDrawable?
    ensures d.privateBitmap.Some? ==> r == Some(Original(d.privateBitmap.value))
    ensures d.privateBitmap.None? ==> r == Some(Rendered(d.intrinsicWidth, d.intrinsicHeight))
  {
    if d.privateBitmap.Some? then Some(Original(d.privateBitmap.value))
    else ToBitmapOrNull(d, d.intrinsicWidth, d.intrinsicHeight)
  }

  /** BitmapDrawable.tryToExtractBitmap: its bitmap; else the bitmap of a
      copy made from its constant state, or the copy rendered at this
      drawable's intrinsic size; null without a constant state. */
  function BitmapExtract(d: Drawable): (r: Option<Bitmap>)
    requires d.BitmapDrawable?
    ensures d.bitmap.Some? ==> r == Some(Original(d.bitmap.value))
    ensures d.bitmap.None? && d.constantState.None? ==> r.None?
    ensures d.bitmap.None? && d.constantState.Some? && d.constantState.value.BitmapDrawable? ==>
      r == (if d.constantState.value.bitmap.Some? then Some(Original(d.constantState.value.bitmap.value)) else None)
    ensures d.bitmap.None? && d.constantState.Some? && !d.constantState.value.BitmapDrawable? ==>
      r == Some(Rendered(d.intrinsicWidth, d.intrinsicHeight))
  {
    if d.bitmap.Some? then Some(Original(d.bitmap.value))
    else if d.constantState.Some? then
      var copy := d.constantState.value;
      if copy.BitmapDrawable? && copy.bitmap.Some? then Some(Original(copy.bitmap.value))
      else ToBitmapOrNull(copy, d.intrinsicWidth, d.intrinsicHeight)
    else None
  }

  /** What ArrayDrawable.tryToExtractBitmap computes: the first
      ScaleTypeDrawable layer's bitmap if there is one; otherwise the array
      rendered at the chosen size if both its sides are positive; else null. */
  function ArrayExtract(d: Drawable): (r: Option<Bitmap>)
    requires d.ArrayDrawable?
    decreases d, 1
    ensures FirstScaleTypeFrom(d.layers, 0).Some? ==>
      var k := FirstScaleTypeFrom(d.layers, 0).value;
      d.layers[k].Some? && r == ExtractBitmap(d.layers[k].value)
    ensures FirstScaleTypeFrom(d.layers, 0).None? ==>
      var (width, height) := ChosenSize(d.layers, |d.layers|);
      r == (if width > 0 && height > 0 then Some(Rendered(width, height)) else None)
  {
    match FirstScaleTypeFrom(d.layers, 0)
    case Some(k) => ForwardingExtract(d.layers[k].value)
    case None =>
      var (width, height) := ChosenSize(d.layers, |d.layers|);
      if width > 0 && height > 0 then ToBitmapOrNull(d, width, height) else None
  }

  /** ArrayDrawable.tryToExtractBitmap, as the loop it is. */
  method ArrayTryToExtractBitmap(d: Drawable) returns (r: Option<Bitmap>)
    requires d.ArrayDrawable?
    ensures r == ArrayExtract(d)
  {
    var width: Int32 := 0;
    var height: Int32 := 0;
    var index := 0;
    while index < |d.layers|
      invariant 0 <= index <= |d.layers|
      invariant (width, height) == ChosenSize(d.layers, index)
      invariant FirstScaleTypeFrom(d.layers, 0) == FirstScaleTypeFrom(d.layers, index)
    {
      var drawable := GetDrawableOrNull(d.layers, index);
      if drawable.None? {
        index := index + 1;
        continue;
      }
      if drawable.value.ScaleTypeDrawable? {
        return ForwardingExtract(drawable.value);
      }
      if Wrap32(drawable.value.intrinsicWidth * drawable.value.intrinsicHeight) > Wrap32(width * height) {
        width := drawable.value.intrinsicWidth;
        height := drawable.value.intrinsicHeight;
      }
      index := index + 1;
    }
    if width > 0 && height > 0 {
      r := ToBitmapOrNull(d, width, height);
    } else {
      r := None;
    }
  }

  // ----- properties -----

  /** The area of the size the extraction holds is the largest layer area
      seen so far, or 0 when none is positive. */
  lemma {:induction false} ChosenAreaIsMaximum(layers: seq<Option<Drawable>>, n: nat)
    requires n <= |layers|
    ensures ChosenArea(layers, n) >= 0
    ensures forall k :: 0 <= k < n && layers[k].Some? ==> Area(layers[k].value) <= ChosenArea(layers, n)
    ensures ChosenArea(layers, n) == 0
            || exists k :: 0 <= k < n && layers[k].Some? && Area(layers[k].value) == ChosenArea(layers, n)
  {
    if n == 0 {
      assert ChosenArea(layers, 0) == Wrap32(0);
    } else {
      ChosenAreaIsMaximum(layers, n - 1);
      var previous := ChosenSize(layers, n - 1);
      var layer := layers[n - 1];
      if layer.Some? && Area(layer.value) > SizeArea(previous.0, previous.1) {
        assert ChosenArea(layers, n) == Area(layer.value);
      } else {
        assert ChosenSize(layers, n) == previous;
        assert ChosenArea(layers, n) == ChosenArea(layers, n - 1);
      }
    }
  }

  /** The size the extraction settles on is that of the first layer with the
      largest area, or (0, 0) when no area is positive. */
  lemma {:induction false} ChosenIsFirstMaximum(layers: seq<Option<Drawable>>, n: nat)
    requires n <= |layers|
    ensures (forall k :: 0 <= k < n && layers[k].Some? ==> Area(layers[k].value) <= 0) ==> ChosenSize(layers, n) == (0, 0)
    ensures forall j: nat :: IsFirstMaximum(layers, n, j) && Area(layers[j].value) > 0 ==>
      ChosenSize(layers, n) == (layers[j].value.intrinsicWidth, layers[j].value.intrinsicHeight)
  {
    if n > 0 {
      ChosenIsFirstMaximum(layers, n - 1);
      ChosenAreaIsMaximum(layers, n - 1);
      var previous := ChosenSize(layers, n - 1);
      var layer := layers[n - 1];
      if (forall k :: 0 <= k < n && layers[k].Some? ==> Area(layers[k].value) <= 0) {
        assert ChosenSize(layers, n - 1) == (0, 0);
        assert SizeArea(0, 0) == 0;
      }
      forall j: nat | IsFirstMaximum(layers, n, j) && Area(layers[j].value) > 0
        ensures ChosenSize(layers, n) == (layers[j].value.intrinsicWidth, layers[j].value.intrinsicHeight)
      {
        if j < n - 1 {
          assert IsFirstMaximum(layers, n - 1, j);
          assert ChosenArea(layers, n - 1) == Area(layers[j].value);
        } else {
          assert Area(layer.value) > ChosenArea(layers, n - 1);
        }
      }
    }
  }

  /** Without a ScaleTypeDrawable layer, an array whose first largest layer
      has a positive area yields a bitmap exactly when that layer's width and
      height are both positive, and then at that layer's size. */
  lemma ArrayExtractUsesFirstMaximum(d: Drawable, j: nat)
    requires d.ArrayDrawable?
    requires forall i :: 0 <= i < |d.layers| ==> !IsScaleTypeLayer(d.layers[i])
    requires IsFirstMaximum(d.layers, |d.layers|, j) && Area(d.layers[j].value) > 0
    ensures var layer := d.layers[j].value;
      ArrayExtract(d) == if layer.intrinsicWidth > 0 && layer.intrinsicHeight > 0
                         then Some(Rendered(layer.intrinsicWidth, layer.intrinsicHeight)) else None
  {
    ChosenIsFirstMaximum(d.layers, |d.layers|);
  }

  /** Without a layer of positive area, an array yields null. */
  lemma ArrayWithoutPositiveAreaIsNull(d: Drawable)
    requires d.ArrayDrawable?
    requires forall i :: 0 <= i < |d.layers| ==> !IsScaleTypeLayer(d.layers[i])
    requires forall k :: 0 <= k < |d.layers| && d.layers[k].Some? ==> Area(d.layers[k].value) <= 0
    ensures ArrayExtract(d).None?
  {
    ChosenIsFirstMaximum(d.layers, |d.layers|);
  }

  /** The first ScaleTypeDrawable layer decides, and later layers do not
      matter: appending layers to an array that has one changes nothing. */
  lemma ScaleTypeLayerDecides(layers: seq<Option<Drawable>>, more: seq<Option<Drawable>>, w: Int32, h: Int32,
                              w2: Int32, h2: Int32)
    requires exists i :: 0 <= i < |layers| && IsScaleTypeLayer(layers[i])
    ensures ArrayExtract(ArrayDrawable(layers + more, w2, h2)) == ArrayExtract(ArrayDrawable(layers, w, h))
  {
    FirstScaleTypeAgrees(layers, more, 0);
  }

  lemma {:induction false} FirstScaleTypeAgrees(layers: seq<Option<Drawable>>, more: seq<Option<Drawable>>, i: nat)
    requires i <= |layers|
    requires exists k :: i <= k < |layers| && IsScaleTypeLayer(layers[k])
    ensures FirstScaleTypeFrom(layers + more, i) == FirstScaleTypeFrom(layers, i)
    decreases |layers| - i
  {
    assert (layers + more)[i] == layers[i];
    if !IsScaleTypeLayer(layers[i]) {
      FirstScaleTypeAgrees(layers, more, i + 1);
    }
  }

  /** The layer area is a 32-bit product: a 65536 by 65536 layer wraps to 0
      and never becomes the chosen size. */
  lemma OverflowingLayerIsIgnored()
    ensures ArrayExtract(ArrayDrawable([Some(OtherDrawable(65536, 65536))], 0, 0)).None?
  {
    assert Area(OtherDrawable(65536, 65536)) == 0;
  }

  /** A drawable wrapped in forwarding drawables, ScaleTypeDrawable
      included, gives the wrapped drawable's bitmap. */
  lemma ForwardingIsTransparent(inner: Drawable, t: FrescoScaleType, w: Int32, h: Int32)
    ensures ExtractBitmap(ForwardingDrawable(Some(inner), w, h)) == ExtractBitmap(inner)
    ensures ExtractBitmap(ScaleTypeDrawable(t, Some(inner), w, h)) == ExtractBitmap(inner)
  {
  }

  /** A BitmapDrawable's own bitmap is used even when it has a constant state. */
  lemma OwnBitmapWins(b: BitmapId, state: Option<Drawable>, w: Int32, h: Int32)
    ensures ExtractBitmap(BitmapDrawable(Some(b), state, w, h)) == Some(Original(b))
  {
  }
}
