/**
 * The annotation renderer: the artists the labeler puts on the axes, one
 * marker and one label per matched row, then the scale bar and its label.
 */
module Render {
  import opened Config
  import opened Text
  import opened Metadata
  import opened Matcher
  import opened Transform
  import opened Raster

  /**
   * What the axes hold: markers from `scatter`, texts from `text` (all bold
   * and horizontally centred; `boxed` is the semi-opaque white box of
   * `set_bbox`), and lines from `plot`.
   */
  datatype Artist =
    | Marker(at: Point, size: int, color: Color)
    | Label(at: Point, text: string, fontSize: int, color: Color, boxed: bool)
    | Segment(from: Point, to: Point, color: Color, lineWidth: int)

  /** The vectorised `x`, `y` columns: one pixel position per matched row. */
  function Positions(m: ImageMetadata, width: nat, height: nat, matched: seq<IndexedRow>): (ps: seq<Point>)
    ensures |ps| == |matched|
  {
    seq(|matched|, i requires 0 <= i < |matched| => ToPixel(m, width, height, matched[i].row.x, matched[i].row.y))
  }

  /** Where the label of a point at `p` is anchored. */
  function LabelAnchor(p: Point, cfg: AnnotatorConfig): Point {
    Point(p.x + cfg.textOffsetX as real, p.y + cfg.textOffsetY as real)
  }

  /** The marker and the label drawn in one iteration of the drawing loop. */
  function RowArtists(p: Point, sampleId: string, cfg: AnnotatorConfig, showBbox: bool): seq<Artist> {
    [Marker(p, cfg.pointSize, cfg.pointColor),
     Label(LabelAnchor(p, cfg), sampleId, cfg.fontSize, cfg.textColor, showBbox)]
  }

  /** The artists of the drawing loop over the matched rows. */
  function PointArtists(points: seq<Point>, matched: seq<IndexedRow>, cfg: AnnotatorConfig, showBbox: bool): seq<Artist>
    requires |points| == |matched|
    decreases |matched|
  {
    if matched == [] then []
    else
      PointArtists(points[..|points| - 1], matched[..|matched| - 1], cfg, showBbox)
      + RowArtists(points[|points| - 1], matched[|matched| - 1].row.sampleId, cfg, showBbox)
  }

  /**
   * Exactly one marker and one label per matched row, in matched-row order:
   * artist `2i` is the marker at point `i`, artist `2i+1` the label at point
   * `i` plus the text offset, holding that row's sample ID, boxed iff
   * `show_bbox`.
   */
  lemma {:induction false} PointArtistsLayout(points: seq<Point>, matched: seq<IndexedRow>, cfg: AnnotatorConfig, showBbox: bool)
    requires |points| == |matched|
    ensures |PointArtists(points, matched, cfg, showBbox)| == 2 * |matched|
    ensures forall i :: 0 <= i < |matched| ==>
      && PointArtists(points, matched, cfg, showBbox)[2 * i] == Marker(points[i], cfg.pointSize, cfg.pointColor)
      && PointArtists(points, matched, cfg, showBbox)[2 * i + 1] ==
           Label(LabelAnchor(points[i], cfg), matched[i].row.sampleId, cfg.fontSize, cfg.textColor, showBbox)
    decreases |matched|
  {
    if matched != [] {
      var n := |matched| - 1;
      PointArtistsLayout(points[..n], matched[..n], cfg, showBbox);
    }
  }

  /** `str(int(microns4pixels)) + " µm"`. */
  function BarLabel(m: ImageMetadata): string {
    IntToString(Trunc(m.barMicrons)) + " \U{B5}m"
  }

  /** The bar length as the labeler computes it: `int(pixels * scale_px_per_micron)`. */
  function BarLengthAsWritten(m: ImageMetadata): int {
    Trunc(m.barPixels * m.scale)
  }

  /** The bar length for the label's micron value at the image's scale: `int(microns4pixels * scale_px_per_micron)`. */
  function BarLength(m: ImageMetadata): int {
    Trunc(m.barMicrons * m.scale)
  }

  /** The segment from `scalebar_xy` to the right by `length` pixels, and its label 20 pixels above its middle. */
  function ScaleBarArtists(length: int, text: string, cfg: AnnotatorConfig, showBbox: bool): seq<Artist> {
    [Segment(Point(cfg.scalebarX as real, cfg.scalebarY as real),
             Point((cfg.scalebarX + length) as real, cfg.scalebarY as real),
             cfg.scalebarColor, cfg.scalebarThickness),
     Label(Point(cfg.scalebarX as real + length as real / 2.0, (cfg.scalebarY - 20) as real),
           text, cfg.fontSize, cfg.scalebarTextColor, showBbox)]
  }

  /**
   * The scale bar is horizontal, starts at the configured anchor, spans
   * `length` pixels to the right, and its label is centred over it, 20 pixels
   * higher on the screen.
   */
  lemma ScaleBarGeometry(length: int, text: string, cfg: AnnotatorConfig, showBbox: bool)
    ensures var bar := ScaleBarArtists(length, text, cfg, showBbox);
      && |bar| == 2 && bar[0].Segment? && bar[1].Label?
      && bar[0].from == Point(cfg.scalebarX as real, cfg.scalebarY as real)
      && bar[0].to.y == bar[0].from.y
      && bar[0].to.x - bar[0].from.x == length as real
      && bar[1].at.x == (bar[0].from.x + bar[0].to.x) / 2.0
      && bar[1].at.y == bar[0].from.y - 20.0
      && bar[1].text == text && bar[1].boxed == showBbox
  {
  }

  /**
   * As written, the bar is `int(pixels * s)` pixels long: at the scale of
   * `s` pixels per micron that the point transform uses, it spans `pixels`
   * microns, while its label states `microns4pixels`.
   */
  lemma BarAsWrittenSpansPixelsMicrons(m: ImageMetadata)
    requires m.scale > 0.0 && m.barPixels >= 0.0
    ensures BarLengthAsWritten(m) as real / m.scale <= m.barPixels < (BarLengthAsWritten(m) as real + 1.0) / m.scale
  {
    var l := BarLengthAsWritten(m) as real;
    assert l <= m.barPixels * m.scale < l + 1.0;
    assert l / m.scale <= m.barPixels by {
      assert (m.barPixels * m.scale) / m.scale == m.barPixels;
    }
    assert m.barPixels < (l + 1.0) / m.scale by {
      assert (m.barPixels * m.scale) / m.scale == m.barPixels;
    }
  }

  /** The metadata of a 50-pixel bar marked `10u`: a 250-pixel bar labelled "10 µm", where 10 µm is 50 pixels. */
  lemma BarAsWrittenExample()
    ensures var m := ImageMetadata(1024, 768, 10.0, 20.0, 50.0, 10.0, 5.0);
      && BarLengthAsWritten(m) == 250
      && BarLabel(m) == "10 \U{B5}m"
      && BarLength(m) == 50
      && BarLengthAsWritten(m) != BarLength(m)
  {
    var m := ImageMetadata(1024, 768, 10.0, 20.0, 50.0, 10.0, 5.0);
    assert Trunc(10.0) == 10;
    assert NatToString(10) == NatToString(1) + [DigitChar(0)];
    assert NatToString(10) == "10";
  }

  /**
   * The corrected bar: its length in pixels is the labelled micron value at
   * `s` pixels per micron, to within one pixel, and equals the sidecar's own
   * bar length truncated.
   */
  lemma BarLengthMatchesLabel(m: ImageMetadata)
    requires m.scale * m.barMicrons == m.barPixels && m.barPixels >= 0.0
    ensures BarLength(m) == Trunc(m.barPixels)
    ensures BarLength(m) as real <= m.barMicrons * m.scale < BarLength(m) as real + 1.0
  {
    assert m.barMicrons * m.scale == m.barPixels;
  }

  /** The figure: the raster shown by `imshow`, the artists on its axes, and whether the axis is off. */
  class Figure {
    var shown: Image
    var artists: seq<Artist>
    var axisOff: bool

    /** `plt.subplots()` followed by `ax.imshow(img)`. */
    constructor (img: Image)
      ensures shown == img && artists == [] && !axisOff
    {
      shown := img;
      artists := [];
      axisOff := false;
    }

    method Scatter(p: Point, size: int, color: Color)
      modifies this
      ensures artists == old(artists) + [Marker(p, size, color)]
      ensures shown == old(shown) && axisOff == old(axisOff)
    {
      artists := artists + [Marker(p, size, color)];
    }

    /** `ax.text(...)`, returning the new text's handle. */
    method Text(p: Point, text: string, fontSize: int, color: Color) returns (handle: nat)
      modifies this
      ensures handle == |old(artists)|
      ensures artists == old(artists) + [Label(p, text, fontSize, color, false)]
      ensures shown == old(shown) && axisOff == old(axisOff)
    {
      handle := |artists|;
      artists := artists + [Label(p, text, fontSize, color, false)];
    }

    /** `text.set_bbox(...)` on a text already on the axes. */
    method SetBbox(handle: nat)
      requires handle < |artists| && artists[handle].Label?
      modifies this
      ensures artists == old(artists)[handle := old(artists)[handle].(boxed := true)]
      ensures shown == old(shown) && axisOff == old(axisOff)
    {
      artists := artists[handle := artists[handle].(boxed := true)];
    }

    method Plot(from: Point, to: Point, color: Color, lineWidth: int)
      modifies this
      ensures artists == old(artists) + [Segment(from, to, color, lineWidth)]
      ensures shown == old(shown) && axisOff == old(axisOff)
    {
      artists := artists + [Segment(from, to, color, lineWidth)];
    }

    /** `plt.axis('off')`. */
    method AxisOff()
      modifies this
      ensures axisOff && artists == old(artists) && shown == old(shown)
    {
      axisOff := true;
    }
  }

  /** One turn of the drawing loop: the marker, the label above it, and its box when asked. */
  method DrawRow(fig: Figure, p: Point, sampleId: string, cfg: AnnotatorConfig, showBbox: bool)
    modifies fig
    ensures fig.artists == old(fig.artists) + RowArtists(p, sampleId, cfg, showBbox)
    ensures fig.shown == old(fig.shown) && fig.axisOff == old(fig.axisOff)
  {
    fig.Scatter(p, cfg.pointSize, cfg.pointColor);
    var text := fig.Text(LabelAnchor(p, cfg), sampleId, cfg.fontSize, cfg.textColor);
    if showBbox {
      fig.SetBbox(text);
    }
  }

  /** The scale-bar segment and its label, boxed when asked. */
  method DrawScaleBar(fig: Figure, barLength: int, barText: string, cfg: AnnotatorConfig, showBbox: bool)
    modifies fig
    ensures fig.artists == old(fig.artists) + ScaleBarArtists(barLength, barText, cfg, showBbox)
    ensures fig.shown == old(fig.shown) && fig.axisOff == old(fig.axisOff)
  {
    var x0 := cfg.scalebarX as real;
    var y0 := cfg.scalebarY as real;
    fig.Plot(Point(x0, y0), Point((cfg.scalebarX + barLength) as real, y0), cfg.scalebarColor, cfg.scalebarThickness);
    var sctext := fig.Text(Point(x0 + barLength as real / 2.0, (cfg.scalebarY - 20) as real),
                           barText, cfg.fontSize, cfg.scalebarTextColor);
    if showBbox {
      fig.SetBbox(sctext);
    }
  }

  /** The drawing loop over the matched rows, then the scale bar and its label. */
  method DrawAnnotations(fig: Figure, points: seq<Point>, matched: seq<IndexedRow>,
                         barLength: int, barText: string, cfg: AnnotatorConfig, showBbox: bool)
    requires |points| == |matched|
    modifies fig
    ensures fig.artists == old(fig.artists) + PointArtists(points, matched, cfg, showBbox)
                           + ScaleBarArtists(barLength, barText, cfg, showBbox)
    ensures fig.shown == old(fig.shown) && fig.axisOff == old(fig.axisOff)
  {
    var i := 0;
    while i < |points|
      invariant 0 <= i <= |points|
      invariant fig.artists == old(fig.artists) + PointArtists(points[..i], matched[..i], cfg, showBbox)
      invariant fig.shown == old(fig.shown) && fig.axisOff == old(fig.axisOff)
    {
      ghost var done := PointArtists(points[..i], matched[..i], cfg, showBbox);
      ghost var row := RowArtists(points[i], matched[i].row.sampleId, cfg, showBbox);
      DrawRow(fig, points[i], matched[i].row.sampleId, cfg, showBbox);
      assert points[..i + 1][..i] == points[..i];
      assert matched[..i + 1][..i] == matched[..i];
      assert PointArtists(points[..i + 1], matched[..i + 1], cfg, showBbox) == done + row;
      assert (old(fig.artists) + done) + row == old(fig.artists) + (done + row);
      i := i + 1;
    }
    assert points[..i] == points && matched[..i] == matched;
    DrawScaleBar(fig, barLength, barText, cfg, showBbox);
  }

  /** A new figure over `img`, the drawing loop and the scale bar, then `plt.axis('off')`. */
  method DrawFigure(img: Image, points: seq<Point>, matched: seq<IndexedRow>,
                    barLength: int, barText: string, cfg: AnnotatorConfig, showBbox: bool)
    returns (shown: Image, artists: seq<Artist>, axisOff: bool)
    requires |points| == |matched|
    ensures shown == img && axisOff
    ensures artists == PointArtists(points, matched, cfg, showBbox) + ScaleBarArtists(barLength, barText, cfg, showBbox)
  {
    var fig := new Figure(img);
    DrawAnnotations(fig, points, matched, barLength, barText, cfg, showBbox);
    fig.AxisOff();
    ghost var drawn := PointArtists(points, matched, cfg, showBbox) + ScaleBarArtists(barLength, barText, cfg, showBbox);
    assert [] + drawn == drawn;
    shown, artists, axisOff := fig.shown, fig.artists, fig.axisOff;
  }
}
