# ProbeLabeler in Dafny

ProbeLabeler annotates JEOL electron-probe micrographs with the analysis
spots of a sample table. For one micrograph, `annotate_image` does the
following:

- it reads the `.txt` sidecar that the microscope writes next to the image;
- it picks out the declared image size, the stage position and the
  scale-bar calibration;
- it keeps the table rows whose sample ID contains the image's base name
  followed by a separator;
- it crops the raster to the declared size, which drops the data bar;
- it converts each row's stage coordinates to pixels;
- it draws a marker and a label for every row, then a scale bar;
- it saves the figure as the formats the export selector names, into
  `labeled_images` beside the image.

`process_images` runs that operation once for every file in a directory that
ends with a given extension.

The model follows `src/ProbeLabeler/jeol_labeler.py` step by step:

- `text.dfy`: the Python string and number operations the labeler uses.
  This covers `str.startswith`, `str.split()` on Python whitespace, and
  `split(c)[0]`. It also covers `int()` and `float()` on decimal tokens,
  `str(int)`, and `int(float)` as truncation toward zero.
- `config.dfy`: `ImageAnnotatorConfig` as an immutable record with its
  defaults.
- `metadata.dfy`: the sidecar scan. `Metadata.Scan` is the loop, with one
  local per variable group. It is proved equal to the function
  `Metadata.ScanSpec`. `Metadata.Resolve` adds the division and the
  variables Python would find unbound. `MetadataFacts` proves what the scan
  guarantees: the last line wins, other keys do not interfere, and the first
  faulty line raises.
- `selection.dfy` and `matcher.dfy`: the `str.contains` filter and the
  `reset_index` that follows it.
- `raster.dfy`: the crop, with Python's slice clamping.
- `transform.dfy`: the stage-to-pixel conversion and its inverse.
- `render.dfy`:
  - the figure as a class whose methods append artists;
  - the drawing loop as a method proved against the function
    `PointArtists`;
  - the scale-bar geometry.
- `export.dfy`: the `save_fig` dispatch, `os.path.join` on POSIX, and the
  names of the output files.
- `pipeline.dfy`: one call of `annotate_image` and the batch loop. The file
  system is modelled as maps from paths to contents, and the effects are
  modelled as a list. The figure of a call carries the scale bar as the
  labeler draws it, `int(pixels * scale_px_per_micron)` pixels long
  (`Pipeline.DrawingOf`). `Pipeline.CorrectedDrawingOf` is the same figure
  with the bar as long as its label, and `Pipeline.CorrectedBarOnly` proves
  that the two differ only in the bar.

The two exceptions of the labeler are modelled explicitly:

- The `except FileNotFoundError` at line 220 covers lines 83-219. In the
  model only the sidecar `open` raises it (`Pipeline.Outcome.SidecarMissing`);
  `os.mkdir` and `savefig` always succeed.
- Every other failure propagates out of `annotate_image`, and out of
  `process_images`, which stops at that file (`Pipeline.Outcome.Raised`).
  These failures are:
  - a missing image (`plt.imread` sits outside the `try`);
  - a short or malformed sidecar line (`IndexError`, `ValueError`);
  - a key that never appears (`UnboundLocalError` at the line where the
    variable is first read);
  - a marker of zero (`ZeroDivisionError`).

**Axis directions.** The labeler computes
`y = center_y - 1000 * (stage_y - Y) * s`, so a larger sample Y gives a larger
pixel row, further down the picture, while a larger sample X moves the spot
to the left (`Transform.AxisDirections`).

## Model

| member | source | states |
|---|---|---|
| Text.IsSpace | src/ProbeLabeler/jeol_labeler.py:87 | the characters Python's `str.isspace` accepts, on which `str.split()` cuts; `Text.Split` states that no token holds one |
| Text.StartsWith | src/ProbeLabeler/jeol_labeler.py:86-97 | `str.startswith`; `Metadata.KeyOf` and `Metadata.PrefixesExclusive` state how it classifies sidecar lines |
| Text.EndsWith | src/ProbeLabeler/jeol_labeler.py:237 | `str.endswith`; `Selection.Filter` and `Pipeline.BatchVisitsInOrder` state which listing entries it keeps |
| Text.Contains | src/ProbeLabeler/jeol_labeler.py:111 | substring containment at some position, as `str.contains` tests it; `Matcher.MatchNotAnchored` shows the match is not anchored |
| Config.DefaultConfig | src/ProbeLabeler/jeol_labeler.py:12-14 | `ImageAnnotatorConfig()` with every default: royal blue points and labels, a black bar at (100, 900), point size 5, text offset (0, -30), font size 7, font thickness 2, bar thickness 2, separators `-`, `_`, `.`, the `.txt` sidecar and the columns `SAMPLE`, `X_POS`, `Y_POS` |
| Text.BeforeFirst | src/ProbeLabeler/jeol_labeler.py:83 | `s.split(c)[0]` is a prefix of `s` without `c`, and it ends just before the first `c` when there is one |
| Text.Split | src/ProbeLabeler/jeol_labeler.py:87 | every token of `line.split()` is a non-empty run of non-whitespace characters |
| Text.SplitUnsplit | src/ProbeLabeler/jeol_labeler.py:87 | splitting words joined by single spaces gives those words back |
| Text.SplitTrailingSpace | src/ProbeLabeler/jeol_labeler.py:84-87 | the newline `readlines` keeps on each line does not change its tokens |
| Text.IntToStringRoundTrip | src/ProbeLabeler/jeol_labeler.py:183 | `int(str(n)) == n` for every integer, so the printed bar label reads back as the integer `int(microns4pixels)` |
| Text.IntToString | src/ProbeLabeler/jeol_labeler.py:183 | `str(n)` for a Python int: a minus sign for negatives, then the decimal digits. `Text.IntToStringRoundTrip` and `Text.IntToStringParsesAsReal` state that it reads back |
| Text.Trunc | src/ProbeLabeler/jeol_labeler.py:177 | `int(x)` on a float is the integer between 0 and `x` that lies less than 1 from `x` |
| Text.ParseInt | src/ProbeLabeler/jeol_labeler.py:88-89 | `int(tok)` on a token: an optional sign and decimal digits, and `None` for the `ValueError`. `Text.IntToStringRoundTrip` proves it reads back every printed integer |
| Text.ParseReal | src/ProbeLabeler/jeol_labeler.py:92-99 | `float(tok)` on a token: an optional sign and a plain decimal, and `None` for the `ValueError`. `Text.IntToStringParsesAsReal` and `Text.MarkerValueExample` state what it reads |
| Text.IntToStringParsesAsReal | src/ProbeLabeler/jeol_labeler.py:92-99 | `float(str(n)) == n` for every integer |
| Text.MarkerValueExample | src/ProbeLabeler/jeol_labeler.py:99 | `"10um".split("u")[0]` is `"10"`, and `float` of it is 10 |
| Metadata.Prefix | src/ProbeLabeler/jeol_labeler.py:86-97 | the four literal prefixes `$CM_FULL_SIZE`, `$CM_STAGE_POS`, `$$SM_MICRON_BAR` and `$$SM_MICRON_MARKER`; `Metadata.PrefixesExclusive` states that no line starts with two of them |
| Metadata.PrefixesExclusive | src/ProbeLabeler/jeol_labeler.py:86-97 | no line starts with two of the four prefixes, so at most one of the four tests fires on a line |
| Metadata.KeyOf | src/ProbeLabeler/jeol_labeler.py:86-97 | a line is classified as key `k` exactly when it starts with `k`'s prefix |
| Metadata.ParseField | src/ProbeLabeler/jeol_labeler.py:87-99 | a parsed value always has the shape of its key: two integers, two reals or one real |
| Metadata.Step | src/ProbeLabeler/jeol_labeler.py:86-99 | one turn of the loop over the sidecar lines: the line's key group is reassigned, or the line raises. `MetadataFacts.StepOutcome` states both cases |
| Metadata.ScanFrom | src/ProbeLabeler/jeol_labeler.py:85-99 | the loop from line `i` on. `MetadataFacts.ScanFromFields` and `MetadataFacts.ScanFromErrors` state its result |
| Metadata.ScanSpec | src/ProbeLabeler/jeol_labeler.py:85-99 | the whole scan from all groups unbound, which `Metadata.Scan` computes. `MetadataFacts.ScanLastLineWins`, `MetadataFacts.ScanFirstFaultRaises` and `MetadataFacts.ScanOrderAcrossKeys` state its promises |
| Metadata.ParseFullSize | src/ProbeLabeler/jeol_labeler.py:87-89 | `int(parts[1])`, then `int(parts[2])`: a missing token is the `IndexError` and a bad one the `ValueError`, in that order. `MetadataFacts.StepOutcome` states the outcome per line |
| Metadata.ParseStagePos | src/ProbeLabeler/jeol_labeler.py:91-93 | `float(parts[1])`, then `float(parts[2])`, with the same error order |
| Metadata.ParseMicronBar | src/ProbeLabeler/jeol_labeler.py:95-96 | `float(parts[1])` |
| Metadata.ParseMicronMarker | src/ProbeLabeler/jeol_labeler.py:98-99 | `float(parts[1].split("u")[0])`: the token is cut at its first `u` before it is read |
| Metadata.Scan | src/ProbeLabeler/jeol_labeler.py:85-99 | the loop with four independent prefix tests computes the scan function, including the line and key of the first failing conversion |
| Metadata.Resolve | src/ProbeLabeler/jeol_labeler.py:101-115 | metadata exists exactly when all four groups are bound and the marker is non-zero. Otherwise it is the first error Python meets, in the order `pixels`, `microns4pixels`, division by zero, `stage_x`, `new_height`. The scale is `pixels / microns4pixels`, and the other fields are the scanned values |
| MetadataFacts.Project | src/ProbeLabeler/jeol_labeler.py:86-97 | the lines of one key are exactly the lines that start with its prefix |
| MetadataFacts.ProjectAppend | src/ProbeLabeler/jeol_labeler.py:85 | the lines of one key in a concatenation are the concatenation of its lines in each part |
| MetadataFacts.PutGet | src/ProbeLabeler/jeol_labeler.py:88-99 | assigning one group changes that group and no other |
| MetadataFacts.StepOutcome | src/ProbeLabeler/jeol_labeler.py:86-99 | a line raises exactly when it starts with a prefix and lacks a value, and the error names its position and key. Otherwise only the group of the line's key changes, to the line's value |
| MetadataFacts.ScanFromFields | src/ProbeLabeler/jeol_labeler.py:85-99 | after a successful scan, each group holds the value of its last line, or the value it started with when no line has its prefix |
| MetadataFacts.FirstFault | src/ProbeLabeler/jeol_labeler.py:85-99 | the position of the first line that raises, if any. No earlier line raises, and the line there does |
| MetadataFacts.ScanFromErrors | src/ProbeLabeler/jeol_labeler.py:85-99 | the scan raises exactly when some line from the start position on raises, and it reports the first such line |
| MetadataFacts.ScanLastLineWins | src/ProbeLabeler/jeol_labeler.py:85-99 | each group comes from the last line with its prefix. A group is set exactly when some line has its prefix |
| MetadataFacts.LastValueDefined | src/ProbeLabeler/jeol_labeler.py:85-99 | the last line of a key in a successful scan has a value |
| MetadataFacts.ScanFirstFaultRaises | src/ProbeLabeler/jeol_labeler.py:85-99 | the scan raises exactly when some line is short or malformed for its key, and the error names the first such line and its key |
| MetadataFacts.ProjectSingle | src/ProbeLabeler/jeol_labeler.py:86-97 | a single line belongs to a key's lines exactly when it starts with that key's prefix |
| MetadataFacts.SwapKeepsProject | src/ProbeLabeler/jeol_labeler.py:85-97 | swapping neighbouring lines of different keys leaves every key's lines unchanged |
| MetadataFacts.SwapKeepsFaultless | src/ProbeLabeler/jeol_labeler.py:85-99 | swapping neighbouring lines keeps a sidecar free of lines that raise |
| MetadataFacts.ScanOrderAcrossKeys | src/ProbeLabeler/jeol_labeler.py:85-99 | swapping neighbouring lines of different keys does not change a successful scan, so the groups are independent of line order across keys |
| Selection.SelectFrom | src/ProbeLabeler/jeol_labeler.py:111 | the kept positions lie between `i` and the end of the input, and there are no more of them than elements from `i` on |
| Selection.SelectFromSound | src/ProbeLabeler/jeol_labeler.py:111 | every kept position holds an element the mask accepts |
| Selection.SelectFromComplete | src/ProbeLabeler/jeol_labeler.py:111 | every position whose element the mask accepts is kept |
| Selection.SelectFromIncreasing | src/ProbeLabeler/jeol_labeler.py:111 | the kept positions strictly increase, so the selection keeps table order |
| Selection.Filter | src/ProbeLabeler/jeol_labeler.py:237 | the kept elements, in the order of their positions in the input; an element is kept exactly when it is in the input and satisfies the predicate |
| Matcher.Reindex | src/ProbeLabeler/jeol_labeler.py:111 | `frame[mask].reset_index()` keeps exactly the rows the mask accepts, each once, in table order, each with its original position |
| Matcher.BaseName | src/ProbeLabeler/jeol_labeler.py:83 | `image_file_name.split('.')[0]`; `Text.BeforeFirst` states what it keeps |
| Matcher.Matches | src/ProbeLabeler/jeol_labeler.py:111 | the sample ID contains the base name followed by one separator, anywhere in the ID; `Matcher.MatchExample` and `Matcher.MatchNotAnchored` state examples |
| Matcher.Matched | src/ProbeLabeler/jeol_labeler.py:111 | the result never adds rows; each row matches and carries its original index; the indices strictly increase (order kept); every matching row is included; position `i` is the new index `i` |
| Matcher.MatchedIsFilter | src/ProbeLabeler/jeol_labeler.py:111 | the matched rows are exactly the rows that contain `base + c` for some separator `c` |
| Matcher.MatchExample | src/ProbeLabeler/jeol_labeler.py:111 | the base of `img1.tif` is `img1`; `img1-001` matches it and `img10-001` does not |
| Matcher.MatchNotAnchored | src/ProbeLabeler/jeol_labeler.py:111 | `str.contains` is not anchored: `xyimg1_7` matches `img1` |
| Raster.Crop | src/ProbeLabeler/jeol_labeler.py:113-124 | the raster is unchanged when the heights agree, even if the widths differ. Otherwise it is the clamped top-left slice, and every kept pixel equals the original at the same row and column |
| Raster.CropToDeclared | src/ProbeLabeler/jeol_labeler.py:115-122 | for non-negative declared sizes the crop is `min(h, new_height) x min(w, new_width)`. A declared size inside the raster cuts off exactly the rows below it |
| Raster.CropNegativeHeight | src/ProbeLabeler/jeol_labeler.py:120-122 | a negative declared height counts from the bottom, as a Python slice does |
| Transform.PixelStageRoundTrip | src/ProbeLabeler/jeol_labeler.py:108-109 | the stage-to-pixel map and its inverse undo each other when the scale is non-zero |
| Transform.Center | src/ProbeLabeler/jeol_labeler.py:126-128 | `(width // 2, height // 2)` of the cropped raster; `Transform.StagePositionIsCenter` states it |
| Transform.ToPixel | src/ProbeLabeler/jeol_labeler.py:129-133 | the stage-to-pixel transform `x = cx + 1000 * (stage_x - X) * s`, `y = cy - 1000 * (stage_y - Y) * s`. `Transform.PixelStageRoundTrip`, `Transform.StagePositionIsCenter` and `Transform.AxisDirections` state its properties |
| Transform.ToStage | src/ProbeLabeler/jeol_labeler.py:129-133 | the inverse of the transform for a non-zero scale, proved so by `Transform.PixelStageRoundTrip` |
| Transform.StagePositionIsCenter | src/ProbeLabeler/jeol_labeler.py:126-133 | a sample at the stage position lands on `(w // 2, h // 2)` of the cropped raster; 1024 x 768 gives (512, 384) |
| Transform.AxisDirections | src/ProbeLabeler/jeol_labeler.py:108-109 | a unit more of sample X moves the pixel `1000 * s` left; a unit more of sample Y moves it `1000 * s` down |
| Render.Positions | src/ProbeLabeler/jeol_labeler.py:129-133 | one pixel position per matched row |
| Render.PointArtistsLayout | src/ProbeLabeler/jeol_labeler.py:161-174 | there is one marker and one label per matched row, in row order. Label `i` sits at point `i` plus the text offset and shows that row's sample ID. It is boxed exactly when `show_bbox` is set |
| Render.ScaleBarGeometry | src/ProbeLabeler/jeol_labeler.py:176-194 | the bar is a horizontal segment from the configured corner, as long as the given length. Its label is centred above it, 20 pixels up, and boxed exactly when `show_bbox` is set |
| Render.LabelAnchor | src/ProbeLabeler/jeol_labeler.py:164-166 | the label position: the point plus `(text_offset_x, text_offset_y)`. `Render.PointArtistsLayout` states where each label sits |
| Render.RowArtists | src/ProbeLabeler/jeol_labeler.py:162-174 | one turn of the drawing loop: the marker, then the label, boxed exactly when `show_bbox` is set. `Render.DrawRow` appends it |
| Render.PointArtists | src/ProbeLabeler/jeol_labeler.py:161-174 | the artists of the drawing loop. `Render.PointArtistsLayout` states one marker and one label per row, in order |
| Render.ScaleBarArtists | src/ProbeLabeler/jeol_labeler.py:176-194 | the bar segment and its label for a given length. `Render.ScaleBarGeometry` states its geometry |
| Render.BarLabel | src/ProbeLabeler/jeol_labeler.py:183 | `str(int(microns4pixels)) + " µm"`; `Render.BarAsWrittenExample` gives "10 µm" for a marker of 10 |
| Render.BarLengthAsWritten | src/ProbeLabeler/jeol_labeler.py:177 | `int(pixels * scale_px_per_micron)`, the bar length the labeler draws, used by `Pipeline.DrawingOf`. `Render.BarAsWrittenSpansPixelsMicrons` states what it spans |
| Render.BarLength | src/ProbeLabeler/jeol_labeler.py:177-183 | the corrected bar length, `int(microns4pixels * scale_px_per_micron)`. `Render.BarLengthMatchesLabel` states that it matches the label |
| Render.BarAsWrittenSpansPixelsMicrons | src/ProbeLabeler/jeol_labeler.py:177 | the bar the code draws, measured at `s` pixels per micron, spans `pixels` microns, not the `microns4pixels` of its label |
| Render.BarAsWrittenExample | src/ProbeLabeler/jeol_labeler.py:177-183 | bar 50 and marker 10u give a 250-pixel bar labelled "10 µm". The label calls for 50 pixels |
| Render.BarLengthMatchesLabel | src/ProbeLabeler/jeol_labeler.py:177-183 | the corrected bar is `int(pixels)` long, and it spans the labelled number of microns to within one pixel |
| Render.Figure.constructor | src/ProbeLabeler/jeol_labeler.py:158-159 | a new figure shows the raster, with no artists and the axis on |
| Render.Figure.Scatter | src/ProbeLabeler/jeol_labeler.py:162 | appends one marker and changes nothing else |
| Render.Figure.Text | src/ProbeLabeler/jeol_labeler.py:164-172 | appends one unboxed label and returns its handle |
| Render.Figure.SetBbox | src/ProbeLabeler/jeol_labeler.py:173-174 | boxes the label behind the handle and changes nothing else |
| Render.Figure.Plot | src/ProbeLabeler/jeol_labeler.py:176-181 | appends one segment and changes nothing else |
| Render.Figure.AxisOff | src/ProbeLabeler/jeol_labeler.py:202 | turns the axis off and keeps the artists |
| Render.DrawRow | src/ProbeLabeler/jeol_labeler.py:162-174 | one turn of the drawing loop appends the row's marker and its label, boxed exactly when asked, and changes nothing else |
| Render.DrawScaleBar | src/ProbeLabeler/jeol_labeler.py:176-194 | appends the bar segment and its label, and changes nothing else |
| Render.DrawAnnotations | src/ProbeLabeler/jeol_labeler.py:161-194 | the drawing loop followed by the scale bar appends exactly the point artists of the matched rows and then the bar, and it keeps the raster and the axis |
| Render.DrawFigure | src/ProbeLabeler/jeol_labeler.py:158-202 | a new figure over the cropped raster ends with the point artists, then the bar, and the axis off |
| Export.FormatsSelectorRoundTrip | src/ProbeLabeler/jeol_labeler.py:204-215 | `pdf&tif` gives [tif, pdf]; `png` gives [png]; `tif` gives [tif]; `pdf` gives [pdf]. Any other selector saves nothing, and each selector is recovered from its formats |
| Export.PathJoinInjective | src/ProbeLabeler/jeol_labeler.py:197-206 | joining one folder with two different relative names never gives the same path |
| Export.Extension | src/ProbeLabeler/jeol_labeler.py:205-215 | the extension of each saved format, `tif`, `png` or `pdf`; `Export.OutputPathsExtensions` states that each path ends with it |
| Export.OutputFolder | src/ProbeLabeler/jeol_labeler.py:197 | `os.path.join(image_path, 'labeled_images')`; `Export.OutputPathsInFolder` states that the saved files lie under it |
| Export.OutputName | src/ProbeLabeler/jeol_labeler.py:205-215 | `image_file_name.split('.')[0] + "_labeled.<ext>"`; `Export.OutputNameEnds` states its suffix |
| Export.Formats | src/ProbeLabeler/jeol_labeler.py:204-215 | the formats saved for a selector, in saving order. `Export.FormatsSelectorRoundTrip` states it for every selector |
| Export.PathJoin | src/ProbeLabeler/jeol_labeler.py:197 | POSIX `os.path.join` of two parts. `Export.PathJoinInjective` and `Export.PathJoinEnds` state its properties |
| Export.OutputPaths | src/ProbeLabeler/jeol_labeler.py:204-215 | the paths `savefig` writes, in order. `Export.OutputPathsExtensions`, `Export.OutputPathsDistinct` and `Export.OutputPathsInFolder` state its properties |
| Export.OutputNameEnds | src/ProbeLabeler/jeol_labeler.py:205-215 | each output name is the image's base name followed by `_labeled.<ext>` |
| Export.PathJoinEnds | src/ProbeLabeler/jeol_labeler.py:205 | joining keeps a name's suffix at the end of the path |
| Export.OutputPathsExtensions | src/ProbeLabeler/jeol_labeler.py:204-215 | one path per saved format, in order, each ending in `_labeled.<ext>` of that format |
| Export.EndsDistinguish | src/ProbeLabeler/jeol_labeler.py:204-206 | two paths with different suffixes of one length differ |
| Export.OutputPathsDistinct | src/ProbeLabeler/jeol_labeler.py:204-206 | no two saved files share a path |
| Export.OutputPathsInFolder | src/ProbeLabeler/jeol_labeler.py:197-215 | when the image's base name is relative, every saved file lies under `image_path/labeled_images`. The names `process_images` passes come from `os.listdir` (line 237), so they are always relative there |
| Pipeline.Annotate | src/ProbeLabeler/jeol_labeler.py:78-221 | the call computes the specified outcome: an error raised, a missing sidecar reported, or the drawing and its effects |
| Pipeline.ImageFile | src/ProbeLabeler/jeol_labeler.py:78 | the path `plt.imread` opens, `os.path.join(image_path, image_file_name)`; `Pipeline.AnnotatedOutcome` states that the call needs it to exist |
| Pipeline.SidecarFile | src/ProbeLabeler/jeol_labeler.py:83 | the sidecar path, `os.path.join(image_path, base + meta_extension)`; `Pipeline.MissingSidecarIsSkipped` states what happens when it is absent |
| Pipeline.AnnotateSpec | src/ProbeLabeler/jeol_labeler.py:78-221 | what one call does: the raised error, the missing sidecar, or the drawing and the effects. `Pipeline.AnnotatedOutcome`, `Pipeline.MissingSidecarIsSkipped` and `Pipeline.MissingKeyRaises` state its cases |
| Pipeline.DrawingWithBar | src/ProbeLabeler/jeol_labeler.py:113-202 | the figure over the cropped raster for a given bar length |
| Pipeline.DrawingOf | src/ProbeLabeler/jeol_labeler.py:113-202 | the figure the labeler draws, with the bar `int(pixels * scale_px_per_micron)` long. `Pipeline.DrawingLayout` and `Pipeline.DrawingBarAsWritten` state its layout |
| Pipeline.CorrectedDrawingOf | src/ProbeLabeler/jeol_labeler.py:177-185 | the same figure with the corrected bar length. `Pipeline.CorrectedBarOnly` states how it differs |
| Pipeline.SaveEffects | src/ProbeLabeler/jeol_labeler.py:205-215 | one `savefig` effect per output path, in order; `Pipeline.EffectsSaveExactly` states that exactly these paths are saved |
| Pipeline.Effects | src/ProbeLabeler/jeol_labeler.py:197-219 | the export effects of a successful call. `Pipeline.EffectsSaveExactly` states them |
| Pipeline.Draw | src/ProbeLabeler/jeol_labeler.py:113-202 | crops, transforms the matched rows and draws on a fresh figure, giving the specified drawing |
| Pipeline.Save | src/ProbeLabeler/jeol_labeler.py:197-219 | the statement-level form of `Pipeline.Effects`: the export steps, one after another, produce exactly its effects, about which `Pipeline.EffectsSaveExactly` is proved |
| Pipeline.MissingSidecarIsSkipped | src/ProbeLabeler/jeol_labeler.py:220-221 | the `FileNotFoundError` of the sidecar `open` is caught: a missing sidecar is reported, with its path, exactly when the image exists and the sidecar does not; nothing is drawn or written |
| Pipeline.MissingKeyRaises | src/ProbeLabeler/jeol_labeler.py:101-115 | a key with no line in the sidecar makes the call raise before any figure or file |
| Pipeline.AnnotatedOutcome | src/ProbeLabeler/jeol_labeler.py:78-219 | a call succeeds exactly when the image and sidecar exist, the scan succeeds and the metadata resolves. On success it draws over the resolved metadata and performs the export effects |
| Pipeline.DrawingLayout | src/ProbeLabeler/jeol_labeler.py:113-174 | the figure shows the cropped raster with the axis off. It holds a marker at the transformed position of each matched row, followed by its label, and then two more artists |
| Pipeline.DrawingBarAsWritten | src/ProbeLabeler/jeol_labeler.py:176-194 | the figure ends with the bar as the labeler draws it: from `scalebar_xy` to `int(pixels * scale_px_per_micron)` pixels to its right, then its label |
| Pipeline.CorrectedBarOnly | src/ProbeLabeler/jeol_labeler.py:177-185 | the corrected figure keeps the raster, the axis and every point artist, and differs from the labeler's only in the bar, exactly when the two bar lengths differ |
| Pipeline.EffectsSaveExactly | src/ProbeLabeler/jeol_labeler.py:197-219 | `labeled_images` is created exactly when absent, and exactly the selector's files are saved. The figure is shown exactly when asked, and it is closed last |
| Pipeline.BatchStep | src/ProbeLabeler/jeol_labeler.py:240-241 | one turn of the batch loop: a raised error ends the batch, and any other outcome continues with the next file |
| Pipeline.ImageList | src/ProbeLabeler/jeol_labeler.py:237 | the listing entries that end with the extension, in listing order. `Pipeline.BatchVisitsInOrder` states which entries these are |
| Pipeline.BatchFrom | src/ProbeLabeler/jeol_labeler.py:240-241 | the batch loop from one file on. `Pipeline.BatchFromFollows` and `Pipeline.BatchFromRaisedLast` state its visits |
| Pipeline.After | src/ProbeLabeler/jeol_labeler.py:199-200 | the directories left for the next file: a call that succeeds has made `labeled_images`. Its ensures keeps the environment well formed, and `Pipeline.NoFolderOnceCreated` states its effect |
| Pipeline.BatchSpec | src/ProbeLabeler/jeol_labeler.py:237-241 | `process_images`: the batch over the listing entries that end with the extension. `Pipeline.ProcessImages` computes it and `Pipeline.BatchVisitsInOrder` states its visits |
| Pipeline.ProcessImages | src/ProbeLabeler/jeol_labeler.py:237-241 | the loop computes the batch function over the filtered listing |
| Pipeline.BatchFromUnfold | src/ProbeLabeler/jeol_labeler.py:240-241 | the first visit is the call on the first file. A raised error ends the batch there, and otherwise the remaining visits are those of the rest of the files |
| Pipeline.BatchFromFollows | src/ProbeLabeler/jeol_labeler.py:240-241 | the visits follow the files in order, one call each. A batch that raises nothing visits every file |
| Pipeline.BatchFromRaisedLast | src/ProbeLabeler/jeol_labeler.py:240-241 | no visit raises except possibly the last, and a batch that records an error ends with the visit that raised it |
| Pipeline.BatchVisitsInOrder | src/ProbeLabeler/jeol_labeler.py:237-241 | every listing entry ending in the extension is visited, in listing order, unless a call raises. A missing sidecar does not stop the batch |
| Pipeline.NoFolderOnceCreated | src/ProbeLabeler/jeol_labeler.py:199-200 | once `labeled_images` exists, no later call creates it |
| Pipeline.FolderCreatedAtMostOnce | src/ProbeLabeler/jeol_labeler.py:199-200 | at most one call of a batch creates `labeled_images` |

## Left out

- Matplotlib: the figure is modelled as the list of artists placed on it. Fonts, font weight, alignment, DPI, `bbox_inches`, the box style and pixel rendering are not modelled. `plt.savefig`, `plt.show` and `plt.close` become entries of a list of effects.
- Colour resolution (`named_color_to_rgb`, `mcolors.to_rgba`, lines 51-61 and 149-156) is a palette lookup in Matplotlib. Colours are carried as the configured names or triples.
- File and directory reads (`plt.imread`, `pd.read_excel`, `open`/`readlines`, `os.listdir`, `os.path.exists`) are inputs: maps from paths to contents, and a set of existing directories. `os.mkdir` is an effect that adds the folder for the next call.
- The table read (`pd.read_excel`, line 79) is given as rows. Its failures, and the `KeyError` for a missing column (line 105), are not modelled.
- Sample IDs are taken to be strings. A blank (NaN) sample-ID cell makes `str.contains` give NaN, and the boolean indexing at line 111 then raises `ValueError`. An all-numeric ID column makes `.str` raise `AttributeError`. Neither is modelled.
- `image.shape` unpacking into three values (lines 113, 124): the raster is a grid of pixels. A two-dimensional raster, which makes Python raise, is not modelled.
- `float()` accepts only an optional sign and a plain decimal in the model. Exponents, `inf`, `nan`, underscores and non-ASCII Unicode digits count as a `ValueError`. `int()` likewise takes no underscores and only the ASCII digits.
- Floating point is modelled as exact `real` arithmetic, so rounding in the transform and in `int(pixels * s)` is not modelled.
- The pandas regular expression `base + "[-_.]"` is modelled as the base followed by one literal separator character. Regex metacharacters in the base are taken literally.
- `os.path.join` is modelled for POSIX paths only.
- Export.OutputPathsInFolder: stated only for a relative base name. An absolute `image_file_name` given straight to `annotate_image` makes `os.path.join` at lines 205-215 drop `labeled_images`, so the file is saved at the absolute path. `Export.PathJoin` models that case, but no lemma places such files.
- `print(e)`, `print(image_list)` and the `tqdm` progress bar produce console output only.
- `font_thickness` is read into a local at line 145 and never used after that. The model keeps it in the configuration and does not use it either.
- `os.mkdir` (line 200) and `savefig` (lines 205-215) can raise `FileNotFoundError`, for instance when the image name holds a directory part. The `except` at line 220 would catch it after the figure is drawn. The model lets both succeed.
- Default arguments are not modelled: every call gives all its arguments. The defaults are `plot_result=True`, `save_fig='pdf'` and `show_bbox=True` for `annotate_image` (line 63), and `image_extension='.tif'`, `plot_result=False`, `save_fig='pdf'` and `show_bbox=True` for `process_images` (line 223).
- The example driver scripts only set literals and call the library.

## Findings

| source | as written | input that shows it | evidently intended | confidence | as-written member | corrected member |
|---|---|---|---|---|---|---|
| src/ProbeLabeler/jeol_labeler.py:177-185 | The bar is `int(pixels * scale_px_per_micron)` pixels long. With `s = pixels / microns4pixels` pixels per micron, that is pixels squared per micron, and the bar is labelled `microns4pixels` µm. | `$$SM_MICRON_BAR 50` and `$$SM_MICRON_MARKER 10um` give a 250-pixel bar labelled "10 µm". At 5 pixels per micron, 10 µm is 50 pixels. | The bar is `int(microns4pixels * s)`, which is `int(pixels)` pixels long. | medium, not executed | Render.BarLengthAsWritten, Render.BarAsWrittenExample | Render.BarLength, Render.BarLengthMatchesLabel, Pipeline.CorrectedBarOnly |
