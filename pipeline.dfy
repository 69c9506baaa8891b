/**
 * One call of `annotate_image` and the batch loop of `process_images`, with
 * the file system they read abstracted as maps from paths to contents.
 */
module Pipeline {
  import opened Wrappers
  import opened Text
  import opened Config
  import opened Metadata
  import opened MetadataFacts
  import opened Selection
  import opened Matcher
  import opened Raster
  import opened Transform
  import opened Render
  import opened Export

  /** The rasters and sidecar files that exist, by path, and the directories that exist. */
  datatype Env = Env(images: map<string, Image>, sidecars: map<string, seq<string>>, dirs: set<string>) {
    predicate Valid() {
      forall p :: p in images ==> images[p].Valid()
    }
  }

  /** The arguments of one `annotate_image` call; `rows` is the table `read_excel` returns. */
  datatype Request = Request(
    imagePath: string,
    fileName: string,
    rows: seq<Row>,
    cfg: AnnotatorConfig,
    plotResult: bool,
    saveFig: string,
    showBbox: bool)

  /** What a successful call does to the outside world, in order. */
  datatype Effect = MakeDir(path: string) | SaveFig(path: string) | Show | CloseFig

  /** The finished figure: the raster shown, the artists on the axes, whether the axis is off. */
  datatype Drawing = Drawing(shown: Image, artists: seq<Artist>, axisOff: bool)

  /** The exceptions that leave `annotate_image`. */
  datatype Failure =
    | ImageNotFound(path: string)      // `plt.imread`, outside the `try`
    | ScanFailed(scan: ScanError)      // IndexError or ValueError on a sidecar line
    | ReadFailed(read: Unresolved)     // UnboundLocalError or ZeroDivisionError

  datatype Outcome =
    | Annotated(drawing: Drawing, effects: seq<Effect>)
    | SidecarMissing(path: string)     // FileNotFoundError caught and printed: nothing drawn or written
    | Raised(failure: Failure)

  function ImageFile(req: Request): string {
    PathJoin(req.imagePath, req.fileName)
  }

  function SidecarFile(req: Request): string {
    PathJoin(req.imagePath, BaseName(req.fileName) + req.cfg.metaExtension)
  }

  function SaveEffects(paths: seq<string>): seq<Effect> {
    seq(|paths|, i requires 0 <= i < |paths| => SaveFig(paths[i]))
  }

  /** Create `labeled_images` if absent, save each requested format, show if asked, close. */
  function Effects(env: Env, req: Request): seq<Effect> {
    var folder := OutputFolder(req.imagePath);
    (if folder in env.dirs then [] else [MakeDir(folder)])
    + SaveEffects(OutputPaths(req.imagePath, req.fileName, req.saveFig))
    + (if req.plotResult then [Show] else [])
    + [CloseFig]
  }

  /** The figure for resolved metadata `m` over the raster `image`, with a scale bar `barLength` pixels long. */
  function DrawingWithBar(m: ImageMetadata, image: Image, req: Request, barLength: int): Drawing
    requires image.Valid()
  {
    var cropped := Crop(image, m.width, m.height);
    var matched := Matched(req.rows, BaseName(req.fileName), req.cfg.separators);
    var points := Positions(m, cropped.width, cropped.Height(), matched);
    Drawing(cropped,
            PointArtists(points, matched, req.cfg, req.showBbox)
            + ScaleBarArtists(barLength, BarLabel(m), req.cfg, req.showBbox),
            true)
  }

  /** The figure the labeler draws: its bar is `int(pixels * scale_px_per_micron)` pixels long. */
  function DrawingOf(m: ImageMetadata, image: Image, req: Request): Drawing
    requires image.Valid()
  {
    DrawingWithBar(m, image, req, BarLengthAsWritten(m))
  }

  /** The figure with the bar as long as its label: `int(microns4pixels * scale_px_per_micron)` pixels. */
  function CorrectedDrawingOf(m: ImageMetadata, image: Image, req: Request): Drawing
    requires image.Valid()
  {
    DrawingWithBar(m, image, req, BarLength(m))
  }

  /** What one `annotate_image` call does. */
  function AnnotateSpec(env: Env, req: Request): Outcome
    requires env.Valid()
  {
    var imageFile := ImageFile(req);
    var sidecar := SidecarFile(req);
    if imageFile !in env.images then Raised(ImageNotFound(imageFile))
    else if sidecar !in env.sidecars then SidecarMissing(sidecar)
    else match ScanSpec(env.sidecars[sidecar])
      case Err(e) => Raised(ScanFailed(e))
      case Ok(f) =>
        match Resolve(f)
        case Err(u) => Raised(ReadFailed(u))
        case Ok(m) => Annotated(DrawingOf(m, env.images[imageFile], req), Effects(env, req))
  }

  /** `annotate_image`: read, scan, match, crop, transform, draw, export. */
  method Annotate(env: Env, req: Request) returns (out: Outcome)
    requires env.Valid()
    ensures out == AnnotateSpec(env, req)
  {
    var imageFile := ImageFile(req);
    if imageFile !in env.images {
      return Raised(ImageNotFound(imageFile));
    }
    var image := env.images[imageFile];
    var base := BaseName(req.fileName);
    var sidecar := SidecarFile(req);
    if sidecar !in env.sidecars {
      return SidecarMissing(sidecar);
    }
    var scanned := Scan(env.sidecars[sidecar]);
    if scanned.Err? {
      return Raised(ScanFailed(scanned.error));
    }
    var resolved := Resolve(scanned.value);
    if resolved.Err? {
      return Raised(ReadFailed(resolved.error));
    }
    var drawing := Draw(resolved.value, image, req);
    var effects := Save(env, req);
    out := Annotated(drawing, effects);
  }

  /** The drawing steps: crop, transform the matched rows, draw points, labels and bar, axis off. */
  method Draw(m: ImageMetadata, image: Image, req: Request) returns (d: Drawing)
    requires image.Valid()
    ensures d == DrawingOf(m, image, req)
  {
    var matched := Matched(req.rows, BaseName(req.fileName), req.cfg.separators);
    var cropped := Crop(image, m.width, m.height);
    var points := Positions(m, cropped.width, cropped.Height(), matched);
    var shown, artists, axisOff := DrawFigure(cropped, points, matched, BarLengthAsWritten(m), BarLabel(m), req.cfg, req.showBbox);
    d := Drawing(shown, artists, axisOff);
  }

  /** The export steps: `mkdir` when absent, `savefig` per selected format, `show`, `close`. */
  method Save(env: Env, req: Request) returns (effects: seq<Effect>)
    ensures effects == Effects(env, req)
  {
    var folder := OutputFolder(req.imagePath);
    effects := if folder in env.dirs then [] else [MakeDir(folder)];
    effects := effects + SaveEffects(OutputPaths(req.imagePath, req.fileName, req.saveFig));
    if req.plotResult {
      effects := effects + [Show];
    }
    effects := effects + [CloseFig];
  }

  /** A missing sidecar file is reported and the call ends with nothing drawn or written. */
  lemma MissingSidecarIsSkipped(env: Env, req: Request)
    requires env.Valid()
    ensures AnnotateSpec(env, req).SidecarMissing? <==> ImageFile(req) in env.images && SidecarFile(req) !in env.sidecars
    ensures AnnotateSpec(env, req).SidecarMissing? ==> AnnotateSpec(env, req).path == SidecarFile(req)
  {
  }

  /**
   * When no sidecar line starts with the prefix of some key, the call raises
   * before anything is drawn or written.
   */
  lemma MissingKeyRaises(env: Env, req: Request, k: Key)
    requires env.Valid()
    requires ImageFile(req) in env.images && SidecarFile(req) in env.sidecars
    requires forall l :: l in env.sidecars[SidecarFile(req)] ==> !StartsWith(l, Prefix(k))
    ensures AnnotateSpec(env, req).Raised?
  {
    var lines := env.sidecars[SidecarFile(req)];
    if ScanSpec(lines).Ok? {
      ScanLastLineWins(lines, ScanSpec(lines).value);
    }
  }

  /**
   * A call succeeds exactly when the raster and the sidecar exist, the scan
   * succeeds and every value reads; it then draws over the resolved metadata
   * and performs the export effects.
   */
  lemma AnnotatedOutcome(env: Env, req: Request)
    requires env.Valid()
    ensures AnnotateSpec(env, req).Annotated? <==>
      && ImageFile(req) in env.images && SidecarFile(req) in env.sidecars
      && ScanSpec(env.sidecars[SidecarFile(req)]).Ok?
      && Resolve(ScanSpec(env.sidecars[SidecarFile(req)]).value).Ok?
    ensures AnnotateSpec(env, req).Annotated? ==>
      var m := Resolve(ScanSpec(env.sidecars[SidecarFile(req)]).value).value;
      && AnnotateSpec(env, req).drawing == DrawingOf(m, env.images[ImageFile(req)], req)
      && AnnotateSpec(env, req).effects == Effects(env, req)
  {
  }

  /**
   * The figure shows the cropped raster with the axis off, and one marker and
   * one label per matched row at its transformed position, before the bar.
   */
  lemma DrawingLayout(m: ImageMetadata, image: Image, req: Request)
    requires image.Valid()
    ensures var d := DrawingOf(m, image, req);
      var cropped := Crop(image, m.width, m.height);
      var matched := Matched(req.rows, BaseName(req.fileName), req.cfg.separators);
      && d.shown == cropped && d.axisOff
      && |d.artists| == 2 * |matched| + 2
      && (forall i :: 0 <= i < |matched| ==>
            var p := ToPixel(m, cropped.width, cropped.Height(), matched[i].row.x, matched[i].row.y);
            && d.artists[2 * i] == Marker(p, req.cfg.pointSize, req.cfg.pointColor)
            && d.artists[2 * i + 1] == Label(LabelAnchor(p, req.cfg), matched[i].row.sampleId, req.cfg.fontSize,
                                            req.cfg.textColor, req.showBbox))
  {
    var cropped := Crop(image, m.width, m.height);
    var matched := Matched(req.rows, BaseName(req.fileName), req.cfg.separators);
    var points := Positions(m, cropped.width, cropped.Height(), matched);
    PointArtistsLayout(points, matched, req.cfg, req.showBbox);
    var pa := PointArtists(points, matched, req.cfg, req.showBbox);
    var bar := ScaleBarArtists(BarLengthAsWritten(m), BarLabel(m), req.cfg, req.showBbox);
    var d := DrawingOf(m, image, req);
    assert d == Drawing(cropped, pa + bar, true);
    forall i | 0 <= i < |matched|
      ensures d.artists[2 * i] == pa[2 * i] && d.artists[2 * i + 1] == pa[2 * i + 1]
      ensures points[i] == ToPixel(m, cropped.width, cropped.Height(), matched[i].row.x, matched[i].row.y)
    {
    }
  }

  /**
   * The figure ends with the bar as the labeler draws it: from `scalebar_xy`
   * to `int(pixels * scale_px_per_micron)` pixels to its right, then its label.
   */
  lemma DrawingBarAsWritten(m: ImageMetadata, image: Image, req: Request)
    requires image.Valid()
    ensures var d := DrawingOf(m, image, req);
      && |d.artists| >= 2
      && d.artists[|d.artists| - 2..] == ScaleBarArtists(BarLengthAsWritten(m), BarLabel(m), req.cfg, req.showBbox)
      && d.artists[|d.artists| - 2].to ==
           Point((req.cfg.scalebarX + Trunc(m.barPixels * m.scale)) as real, req.cfg.scalebarY as real)
  {
    var cropped := Crop(image, m.width, m.height);
    var matched := Matched(req.rows, BaseName(req.fileName), req.cfg.separators);
    var pa := PointArtists(Positions(m, cropped.width, cropped.Height(), matched), matched, req.cfg, req.showBbox);
    var bar := ScaleBarArtists(BarLengthAsWritten(m), BarLabel(m), req.cfg, req.showBbox);
    assert DrawingOf(m, image, req).artists == pa + bar;
    assert (pa + bar)[|pa + bar| - 2..] == bar;
    assert (pa + bar)[|pa + bar| - 2] == bar[0];
    assert BarLengthAsWritten(m) == Trunc(m.barPixels * m.scale);
  }

  /**
   * The corrected figure differs from the labeler's only in the scale bar's
   * segment end and label position, and it differs exactly when the two bar
   * lengths do.
   */
  lemma CorrectedBarOnly(m: ImageMetadata, image: Image, req: Request)
    requires image.Valid()
    ensures var d, c := DrawingOf(m, image, req), CorrectedDrawingOf(m, image, req);
      && c.shown == d.shown && c.axisOff == d.axisOff && |c.artists| == |d.artists| >= 2
      && c.artists[..|c.artists| - 2] == d.artists[..|d.artists| - 2]
      && c.artists[|c.artists| - 2..] == ScaleBarArtists(BarLength(m), BarLabel(m), req.cfg, req.showBbox)
      && (c == d <==> BarLength(m) == BarLengthAsWritten(m))
  {
    var cropped := Crop(image, m.width, m.height);
    var matched := Matched(req.rows, BaseName(req.fileName), req.cfg.separators);
    var points := Positions(m, cropped.width, cropped.Height(), matched);
    var pa := PointArtists(points, matched, req.cfg, req.showBbox);
    var bd := ScaleBarArtists(BarLengthAsWritten(m), BarLabel(m), req.cfg, req.showBbox);
    var bc := ScaleBarArtists(BarLength(m), BarLabel(m), req.cfg, req.showBbox);
    assert DrawingOf(m, image, req).artists == pa + bd;
    assert CorrectedDrawingOf(m, image, req).artists == pa + bc;
    assert (pa + bd)[..|pa|] == pa && (pa + bc)[..|pa|] == pa;
    assert (pa + bc)[|pa|..] == bc;
    if BarLength(m) != BarLengthAsWritten(m) {
      assert (pa + bc)[|pa|] == bc[0] && (pa + bd)[|pa|] == bd[0];
      assert bc[0].to.x != bd[0].to.x;
    }
  }

  /**
   * `labeled_images` is created only when absent, exactly the selector's
   * files are saved, the figure is shown only when asked, and it is closed last.
   */
  lemma EffectsSaveExactly(env: Env, req: Request)
    ensures var effects := Effects(env, req);
      var folder := OutputFolder(req.imagePath);
      var paths := OutputPaths(req.imagePath, req.fileName, req.saveFig);
      && (forall p :: MakeDir(p) in effects <==> p == folder && folder !in env.dirs)
      && (forall p :: SaveFig(p) in effects <==> p in paths)
      && (Show in effects <==> req.plotResult)
      && effects[|effects| - 1] == CloseFig
  {
    var folder := OutputFolder(req.imagePath);
    var paths := OutputPaths(req.imagePath, req.fileName, req.saveFig);
    var saves := SaveEffects(paths);
    var effects := Effects(env, req);
    forall p ensures SaveFig(p) in effects <==> p in paths {
      if p in paths {
        var i :| 0 <= i < |paths| && paths[i] == p;
        assert saves[i] == SaveFig(p);
      }
    }
    assert forall e :: e in saves ==> e.SaveFig?;
  }

  /** The directory entries whose names end with the extension, in listing order. */
  function ImageList(listing: seq<string>, extension: string): seq<string> {
    Filter(listing, (f: string) => EndsWith(f, extension))
  }

  /** One visited file of a batch and what its call did. */
  datatype Visit = Visit(file: string, outcome: Outcome)

  /** The visits in order, and the exception that ended the batch, if one did. */
  datatype BatchResult = BatchResult(visits: seq<Visit>, raised: Option<Failure>)

  /** The file system after one call: a successful call leaves `labeled_images` behind. */
  function After(env: Env, req: Request, out: Outcome): (env': Env)
    requires env.Valid()
    ensures env'.Valid()
  {
    if out.Annotated? then env.(dirs := env.dirs + {OutputFolder(req.imagePath)}) else env
  }

  /** The batch loop from the `i`-th image on; an exception ends it, a missing sidecar does not. */
  function BatchFrom(env: Env, files: seq<string>, i: nat, req: Request): BatchResult
    requires env.Valid() && i <= |files|
    decreases |files| - i
  {
    if i == |files| then BatchResult([], None)
    else
      var r := req.(fileName := files[i]);
      var out := AnnotateSpec(env, r);
      if out.Raised? then BatchResult([Visit(files[i], out)], Some(out.failure))
      else
        var rest := BatchFrom(After(env, r, out), files, i + 1, req);
        BatchResult([Visit(files[i], out)] + rest.visits, rest.raised)
  }

  /** `process_images`, for a directory listing and the arguments shared by every call. */
  function BatchSpec(env: Env, listing: seq<string>, extension: string, req: Request): BatchResult
    requires env.Valid()
  {
    BatchFrom(env, ImageList(listing, extension), 0, req)
  }

  function Prepend(visits: seq<Visit>, r: BatchResult): BatchResult {
    BatchResult(visits + r.visits, r.raised)
  }

  /** One turn of the batch loop, in terms of the outcome of its call. */
  lemma BatchStep(visits: seq<Visit>, env: Env, files: seq<string>, i: nat, req: Request, out: Outcome)
    requires env.Valid() && i < |files|
    requires out == AnnotateSpec(env, req.(fileName := files[i]))
    ensures out.Raised? ==>
      Prepend(visits, BatchFrom(env, files, i, req)) == BatchResult(visits + [Visit(files[i], out)], Some(out.failure))
    ensures !out.Raised? ==>
      Prepend(visits, BatchFrom(env, files, i, req))
      == Prepend(visits + [Visit(files[i], out)], BatchFrom(After(env, req.(fileName := files[i]), out), files, i + 1, req))
  {
    var rest := BatchFrom(After(env, req.(fileName := files[i]), out), files, i + 1, req);
    assert visits + ([Visit(files[i], out)] + rest.visits) == (visits + [Visit(files[i], out)]) + rest.visits;
  }

  /** `process_images`: one `annotate_image` call per listed image, with nothing caught around them. */
  method ProcessImages(env: Env, listing: seq<string>, extension: string, req: Request) returns (result: BatchResult)
    requires env.Valid()
    ensures result == BatchSpec(env, listing, extension, req)
  {
    var files := ImageList(listing, extension);
    var visits: seq<Visit> := [];
    var current := env;
    var i := 0;
    assert [] + BatchSpec(env, listing, extension, req).visits == BatchSpec(env, listing, extension, req).visits;
    while i < |files|
      invariant i <= |files| && current.Valid()
      invariant BatchSpec(env, listing, extension, req) == Prepend(visits, BatchFrom(current, files, i, req))
    {
      var r := req.(fileName := files[i]);
      var out := Annotate(current, r);
      BatchStep(visits, current, files, i, req, out);
      if out.Raised? {
        return BatchResult(visits + [Visit(files[i], out)], Some(out.failure));
      }
      visits := visits + [Visit(files[i], out)];
      current := After(current, r, out);
      i := i + 1;
    }
    assert visits + [] == visits;
    result := BatchResult(visits, None);
  }

  /** The visits of `b` are calls on `files[i..]`, in order, one per file. */
  predicate FollowsFiles(b: BatchResult, files: seq<string>, i: nat)
    requires i <= |files|
  {
    && |b.visits| <= |files| - i
    && (forall k :: 0 <= k < |b.visits| ==> b.visits[k].file == files[i + k])
  }

  /** No visit raised, except the last one when `b` records an exception, and then that visit raised it. */
  predicate RaisedLast(b: BatchResult) {
    if b.raised.None? then forall k :: 0 <= k < |b.visits| ==> !b.visits[k].outcome.Raised?
    else
      && |b.visits| > 0
      && b.visits[|b.visits| - 1].outcome == Raised(b.raised.value)
      && forall k :: 0 <= k < |b.visits| - 1 ==> !b.visits[k].outcome.Raised?
  }

  /** The batch from `i` on, unfolded once: `rest` is what follows a call that did not raise. */
  lemma BatchFromUnfold(env: Env, files: seq<string>, i: nat, req: Request)
    requires env.Valid() && i < |files|
    ensures var r := req.(fileName := files[i]);
      var out := AnnotateSpec(env, r);
      var b := BatchFrom(env, files, i, req);
      var rest := BatchFrom(After(env, r, out), files, i + 1, req);
      && |b.visits| > 0 && b.visits[0] == Visit(files[i], out)
      && (out.Raised? ==> b == BatchResult([Visit(files[i], out)], Some(out.failure)))
      && (!out.Raised? ==> |b.visits| == |rest.visits| + 1 && b.raised == rest.raised
                           && forall k :: 0 < k < |b.visits| ==> b.visits[k] == rest.visits[k - 1])
  {
  }

  /** The visits from `i` on are calls on `files[i..]`, in order; without an exception, one per file. */
  lemma {:induction false} BatchFromFollows(env: Env, files: seq<string>, i: nat, req: Request)
    requires env.Valid() && i <= |files|
    ensures FollowsFiles(BatchFrom(env, files, i, req), files, i)
    ensures BatchFrom(env, files, i, req).raised.None? ==> |BatchFrom(env, files, i, req).visits| == |files| - i
    decreases |files| - i
  {
    if i < |files| {
      var r := req.(fileName := files[i]);
      var out := AnnotateSpec(env, r);
      BatchFromUnfold(env, files, i, req);
      if !out.Raised? {
        BatchFromFollows(After(env, r, out), files, i + 1, req);
      }
    }
  }

  /** Only the last visit of a batch can raise, and a recorded exception is that visit's. */
  lemma {:induction false} BatchFromRaisedLast(env: Env, files: seq<string>, i: nat, req: Request)
    requires env.Valid() && i <= |files|
    ensures RaisedLast(BatchFrom(env, files, i, req))
    decreases |files| - i
  {
    if i < |files| {
      var r := req.(fileName := files[i]);
      var out := AnnotateSpec(env, r);
      BatchFromUnfold(env, files, i, req);
      if !out.Raised? {
        BatchFromRaisedLast(After(env, r, out), files, i + 1, req);
      }
    }
  }

  /**
   * The batch visits the listing's entries that end with the extension, in
   * listing order, one call each. A missing sidecar does not stop it; the
   * first exception does, and it is the last visit's.
   */
  lemma BatchVisitsInOrder(env: Env, listing: seq<string>, extension: string, req: Request)
    requires env.Valid()
    ensures forall f :: f in ImageList(listing, extension) <==> f in listing && EndsWith(f, extension)
    ensures FollowsFiles(BatchSpec(env, listing, extension, req), ImageList(listing, extension), 0)
    ensures RaisedLast(BatchSpec(env, listing, extension, req))
    ensures BatchSpec(env, listing, extension, req).raised.None? ==>
      |BatchSpec(env, listing, extension, req).visits| == |ImageList(listing, extension)|
  {
    BatchFromFollows(env, ImageList(listing, extension), 0, req);
    BatchFromRaisedLast(env, ImageList(listing, extension), 0, req);
  }

  /** Whether a visit created the output folder. */
  predicate MadeFolder(v: Visit, folder: string) {
    v.outcome.Annotated? && MakeDir(folder) in v.outcome.effects
  }

  lemma {:induction false} NoFolderOnceCreated(env: Env, files: seq<string>, i: nat, req: Request)
    requires env.Valid() && i <= |files|
    requires OutputFolder(req.imagePath) in env.dirs
    ensures forall k :: 0 <= k < |BatchFrom(env, files, i, req).visits| ==>
      !MadeFolder(BatchFrom(env, files, i, req).visits[k], OutputFolder(req.imagePath))
    decreases |files| - i
  {
    if i < |files| {
      var r := req.(fileName := files[i]);
      var out := AnnotateSpec(env, r);
      if !out.Raised? {
        AnnotatedOutcome(env, r);
        EffectsSaveExactly(env, r);
        assert !MadeFolder(Visit(files[i], out), OutputFolder(req.imagePath));
        var rest := BatchFrom(After(env, r, out), files, i + 1, req);
        NoFolderOnceCreated(After(env, r, out), files, i + 1, req);
        var vs := BatchFrom(env, files, i, req).visits;
        assert vs == [Visit(files[i], out)] + rest.visits;
        forall k | 0 <= k < |vs| ensures !MadeFolder(vs[k], OutputFolder(req.imagePath)) {
          if k > 0 {
            assert vs[k] == rest.visits[k - 1];
          } else {
            assert vs[k] == Visit(files[i], out);
          }
        }
      }
    }
  }

  /**
   * `labeled_images` is created by at most one call of a batch: after the
   * first successful call it exists, and later calls find it.
   */
  lemma {:induction false} FolderCreatedAtMostOnce(env: Env, files: seq<string>, i: nat, req: Request)
    requires env.Valid() && i <= |files|
    ensures forall k, l ::
              && 0 <= k < |BatchFrom(env, files, i, req).visits|
              && 0 <= l < |BatchFrom(env, files, i, req).visits|
              && MadeFolder(BatchFrom(env, files, i, req).visits[k], OutputFolder(req.imagePath))
              && MadeFolder(BatchFrom(env, files, i, req).visits[l], OutputFolder(req.imagePath))
              ==> k == l
    decreases |files| - i
  {
    if i < |files| {
      var r := req.(fileName := files[i]);
      var out := AnnotateSpec(env, r);
      if !out.Raised? {
        var next := After(env, r, out);
        var rest := BatchFrom(next, files, i + 1, req);
        assert BatchFrom(env, files, i, req).visits == [Visit(files[i], out)] + rest.visits;
        if out.Annotated? {
          NoFolderOnceCreated(next, files, i + 1, req);
        } else {
          assert !MadeFolder(Visit(files[i], out), OutputFolder(req.imagePath));
          FolderCreatedAtMostOnce(next, files, i + 1, req);
        }
        var vs := BatchFrom(env, files, i, req).visits;
        forall k, l | 0 <= k < |vs| && 0 <= l < |vs| && MadeFolder(vs[k], OutputFolder(req.imagePath))
            && MadeFolder(vs[l], OutputFolder(req.imagePath))
          ensures k == l
        {
          if k > 0 {
            assert vs[k] == rest.visits[k - 1];
          }
          if l > 0 {
            assert vs[l] == rest.visits[l - 1];
          }
        }
      }
    }
  }
}
