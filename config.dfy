/**
 * The annotator's configuration (`ImageAnnotatorConfig`): set once, read by every call.
 */
module Config {

  /** A colour as the configuration gives it: a Matplotlib colour name or an RGB triple. */
  datatype Color = Named(name: string) | Rgb(r: real, g: real, b: real)

  datatype AnnotatorConfig = AnnotatorConfig(
    pointColor: Color,
    textColor: Color,
    scalebarColor: Color,
    scalebarTextColor: Color,
    pointSize: int,
    textOffsetX: int,
    textOffsetY: int,
    fontSize: int,
    fontThickness: int,
    scalebarX: int,
    scalebarY: int,
    scalebarThickness: int,
    /** The characters of the sample-ID suffix class, `[-_.]` by default. */
    separators: seq<char>,
    metaExtension: string,
    sampleIdColumn: string,
    xColumn: string,
    yColumn: string)

  /** The constructor's defaults. */
  function DefaultConfig(): AnnotatorConfig {
    AnnotatorConfig(
      Named("royalblue"), Named("royalblue"), Named("k"), Named("k"),
      5, 0, -30, 7, 2,
      100, 900, 2,
      ['-', '_', '.'], ".txt", "SAMPLE", "X_POS", "Y_POS")
  }
}
