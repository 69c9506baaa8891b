/**
 * The stage-to-pixel transform: a sample's stage offset from the stage
 * position, in thousandths of a stage unit (microns), times the scale factor,
 * measured from the centre of the cropped raster.
 */
module Transform {
  import opened Metadata

  datatype Point = Point(x: real, y: real)

  /** `(width // 2, height // 2)`. */
  function Center(width: nat, height: nat): Point {
    Point((width / 2) as real, (height / 2) as real)
  }

  /**
   * `x = center_x + 1000 * (stage_x - X) * s` and
   * `y = center_y - 1000 * (stage_y - Y) * s`.
   */
  function ToPixel(m: ImageMetadata, width: nat, height: nat, sampleX: real, sampleY: real): Point {
    var c := Center(width, height);
    var dx := 1000.0 * (m.stageX - sampleX);
    var dy := 1000.0 * (m.stageY - sampleY);
    Point(c.x + dx * m.scale, c.y - dy * m.scale)
  }

  /** The stage position a pixel stands for: the inverse of `ToPixel` for a non-zero scale. */
  function ToStage(m: ImageMetadata, width: nat, height: nat, p: Point): (real, real)
    requires m.scale != 0.0
  {
    var c := Center(width, height);
    (m.stageX - (p.x - c.x) / (1000.0 * m.scale), m.stageY + (p.y - c.y) / (1000.0 * m.scale))
  }

  /** `ToStage` undoes `ToPixel`, and `ToPixel` undoes `ToStage`. */
  lemma PixelStageRoundTrip(m: ImageMetadata, width: nat, height: nat, sampleX: real, sampleY: real, p: Point)
    requires m.scale != 0.0
    ensures ToStage(m, width, height, ToPixel(m, width, height, sampleX, sampleY)) == (sampleX, sampleY)
    ensures var s := ToStage(m, width, height, p); ToPixel(m, width, height, s.0, s.1) == p
  {
    var c := Center(width, height);
    var k := 1000.0 * m.scale;
    var q := ToPixel(m, width, height, sampleX, sampleY);
    assert q.x - c.x == (m.stageX - sampleX) * k;
    assert q.y - c.y == (sampleY - m.stageY) * k;
    assert (q.x - c.x) / k == m.stageX - sampleX;
    assert (q.y - c.y) / k == sampleY - m.stageY;
    var s := ToStage(m, width, height, p);
    assert (p.x - c.x) / k * k == p.x - c.x;
    assert (p.y - c.y) / k * k == p.y - c.y;
    assert 1000.0 * (m.stageX - s.0) * m.scale == (p.x - c.x) / k * k;
    assert 1000.0 * (m.stageY - s.1) * m.scale == -((p.y - c.y) / k * k);
  }

  /** A sample at the stage position lands on the centre of the cropped raster. */
  lemma StagePositionIsCenter(m: ImageMetadata, width: nat, height: nat)
    ensures ToPixel(m, width, height, m.stageX, m.stageY) == Center(width, height)
    ensures Center(1024, 768) == Point(512.0, 384.0)
  {
  }

  /**
   * One stage unit more in X moves the pixel `1000 * s` to the LEFT; one
   * stage unit more in Y moves it `1000 * s` DOWN (pixel rows grow downward).
   */
  lemma AxisDirections(m: ImageMetadata, width: nat, height: nat, sampleX: real, sampleY: real, d: real)
    ensures ToPixel(m, width, height, sampleX + d, sampleY) ==
      Point(ToPixel(m, width, height, sampleX, sampleY).x - 1000.0 * m.scale * d, ToPixel(m, width, height, sampleX, sampleY).y)
    ensures ToPixel(m, width, height, sampleX, sampleY + d) ==
      Point(ToPixel(m, width, height, sampleX, sampleY).x, ToPixel(m, width, height, sampleX, sampleY).y + 1000.0 * m.scale * d)
  {
  }
}
