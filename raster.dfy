/**
 * The raster as `plt.imread` returns it (height x width x channels) and the
 * crop policy applied before drawing.
 */
module Raster {

  /** One pixel: its channel values. */
  type Pixel = seq<real>

  /** A raster of `|rows|` rows of `width` pixels each; `width` survives when there are no rows. */
  datatype Image = Image(width: nat, rows: seq<seq<Pixel>>) {
    predicate Valid() {
      forall i :: 0 <= i < |rows| ==> |rows[i]| == width
    }

    function Height(): nat {
      |rows|
    }
  }

  function Min(a: int, b: int): int {
    if a <= b then a else b
  }

  function Max(a: int, b: int): int {
    if a <= b then b else a
  }

  /** The length of `s[0:stop]` for `|s| == len`: a negative stop counts from the end; both are clamped. */
  function SliceLength(stop: int, len: nat): nat {
    if stop < 0 then Max(0, len + stop) else Min(stop, len)
  }

  /**
   * `image[0:new_height, 0:new_width]` when the raster's height differs from
   * the declared height, the raster itself otherwise.
   */
  function Crop(img: Image, declaredWidth: int, declaredHeight: int): (r: Image)
    requires img.Valid()
    ensures r.Valid()
    ensures img.Height() == declaredHeight ==> r == img
    ensures img.Height() != declaredHeight ==>
      r.Height() == SliceLength(declaredHeight, img.Height()) && r.width == SliceLength(declaredWidth, img.width)
    ensures r.Height() <= img.Height() && r.width <= img.width
    ensures forall i, j :: 0 <= i < r.Height() && 0 <= j < r.width ==> r.rows[i][j] == img.rows[i][j]
  {
    if img.Height() != declaredHeight then
      var h := SliceLength(declaredHeight, img.Height());
      var w := SliceLength(declaredWidth, img.width);
      Image(w, seq(h, i requires 0 <= i < h => img.rows[i][..w]))
    else img
  }

  /**
   * With non-negative declared sizes, a raster whose height differs is cut to
   * `min(h, new_height)` by `min(w, new_width)`, anchored at the top-left
   * corner; a footer strip below the declared height is removed exactly.
   */
  lemma CropToDeclared(img: Image, declaredWidth: int, declaredHeight: int)
    requires img.Valid() && 0 <= declaredWidth && 0 <= declaredHeight
    requires img.Height() != declaredHeight
    ensures Crop(img, declaredWidth, declaredHeight).Height() == Min(img.Height(), declaredHeight)
    ensures Crop(img, declaredWidth, declaredHeight).width == Min(img.width, declaredWidth)
    ensures declaredHeight < img.Height() && declaredWidth <= img.width ==>
      Crop(img, declaredWidth, declaredHeight).Height() == declaredHeight &&
      Crop(img, declaredWidth, declaredHeight).width == declaredWidth
  {
  }

  /** A negative declared height drops that many rows from the bottom, as Python slicing does. */
  lemma CropNegativeHeight(img: Image, declaredWidth: int, declaredHeight: int)
    requires img.Valid() && declaredHeight < 0
    ensures Crop(img, declaredWidth, declaredHeight).Height() == Max(0, img.Height() + declaredHeight)
  {
  }
}
