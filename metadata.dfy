/**
 * The sidecar metadata scan: every line of the sidecar file is tested against
 * four prefixes, and a matching line overwrites the values of its key.
 */
module Metadata {
  import opened Wrappers
  import opened Text

  datatype Key = FullSize | StagePos | MicronBar | MicronMarker

  function Prefix(k: Key): string {
    match k
    case FullSize => "$CM_FULL_SIZE"
    case StagePos => "$CM_STAGE_POS"
    case MicronBar => "$$SM_MICRON_BAR"
    case MicronMarker => "$$SM_MICRON_MARKER"
  }

  /** The exception a matching line raises when its tokens are unusable. */
  datatype LineFault =
    | MissingToken   // IndexError: fewer tokens than the key needs
    | BadNumber      // ValueError: a token `int`/`float` rejects

  datatype ScanError = ScanError(line: nat, key: Key, fault: LineFault)

  /** The variables the scan assigns; `None` is a variable never assigned. */
  datatype Fields = Fields(
    fullSize: Option<(int, int)>,
    stagePos: Option<(real, real)>,
    microBar: Option<real>,
    microMarker: Option<real>)

  const NoFields := Fields(None, None, None, None)

  /** The value of one key, whatever its type. */
  datatype Value = SizeValue(width: int, height: int) | StageValue(x: real, y: real) | LengthValue(length: real)

  lemma PrefixesExclusive(line: string, k1: Key, k2: Key)
    requires StartsWith(line, Prefix(k1)) && StartsWith(line, Prefix(k2))
    ensures k1 == k2
  {
    assert Prefix(k1)[1] == line[1] == Prefix(k2)[1];
    assert Prefix(k1)[4] == line[4] == Prefix(k2)[4];
    assert Prefix(k1)[12] == line[12] == Prefix(k2)[12];
  }

  /** The key whose prefix the line starts with; no line starts with two. */
  function KeyOf(line: string): (r: Option<Key>)
    ensures forall k :: r == Some(k) <==> StartsWith(line, Prefix(k))
  {
    if StartsWith(line, Prefix(FullSize)) then
      assert forall k :: StartsWith(line, Prefix(k)) ==> k == FullSize by {
        forall k | StartsWith(line, Prefix(k)) { PrefixesExclusive(line, FullSize, k); }
      }
      Some(FullSize)
    else if StartsWith(line, Prefix(StagePos)) then
      assert forall k :: StartsWith(line, Prefix(k)) ==> k == StagePos by {
        forall k | StartsWith(line, Prefix(k)) { PrefixesExclusive(line, StagePos, k); }
      }
      Some(StagePos)
    else if StartsWith(line, Prefix(MicronBar)) then
      assert forall k :: StartsWith(line, Prefix(k)) ==> k == MicronBar by {
        forall k | StartsWith(line, Prefix(k)) { PrefixesExclusive(line, MicronBar, k); }
      }
      Some(MicronBar)
    else if StartsWith(line, Prefix(MicronMarker)) then
      Some(MicronMarker)
    else None
  }

  /** `new_width = int(parts[1])`, then `new_height = int(parts[2])`. */
  function ParseFullSize(line: string): Result<(int, int), LineFault> {
    var parts := Split(line);
    if |parts| < 2 then Err(MissingToken)
    else match ParseInt(parts[1])
      case None => Err(BadNumber)
      case Some(w) =>
        if |parts| < 3 then Err(MissingToken)
        else match ParseInt(parts[2])
          case None => Err(BadNumber)
          case Some(h) => Ok((w, h))
  }

  /** `stage_x = float(parts[1])`, then `stage_y = float(parts[2])`. */
  function ParseStagePos(line: string): Result<(real, real), LineFault> {
    var parts := Split(line);
    if |parts| < 2 then Err(MissingToken)
    else match ParseReal(parts[1])
      case None => Err(BadNumber)
      case Some(x) =>
        if |parts| < 3 then Err(MissingToken)
        else match ParseReal(parts[2])
          case None => Err(BadNumber)
          case Some(y) => Ok((x, y))
  }

  /** `pixels = float(parts[1])`. */
  function ParseMicronBar(line: string): Result<real, LineFault> {
    var parts := Split(line);
    if |parts| < 2 then Err(MissingToken)
    else match ParseReal(parts[1])
      case None => Err(BadNumber)
      case Some(p) => Ok(p)
  }

  /** `microns4pixels = float(parts[1].split("u")[0])`: the token is cut at its first `u`. */
  function ParseMicronMarker(line: string): Result<real, LineFault> {
    var parts := Split(line);
    if |parts| < 2 then Err(MissingToken)
    else match ParseReal(BeforeFirst(parts[1], 'u'))
      case None => Err(BadNumber)
      case Some(m) => Ok(m)
  }

  function ParseField(line: string, k: Key): (r: Result<Value, LineFault>)
    ensures r.Ok? ==> (r.value.SizeValue? <==> k == FullSize) && (r.value.StageValue? <==> k == StagePos)
  {
    match k
    case FullSize => (match ParseFullSize(line) case Ok(v) => Ok(SizeValue(v.0, v.1)) case Err(e) => Err(e))
    case StagePos => (match ParseStagePos(line) case Ok(v) => Ok(StageValue(v.0, v.1)) case Err(e) => Err(e))
    case MicronBar => (match ParseMicronBar(line) case Ok(v) => Ok(LengthValue(v)) case Err(e) => Err(e))
    case MicronMarker => (match ParseMicronMarker(line) case Ok(v) => Ok(LengthValue(v)) case Err(e) => Err(e))
  }

  function Get(f: Fields, k: Key): Option<Value> {
    match k
    case FullSize => (match f.fullSize case Some(v) => Some(SizeValue(v.0, v.1)) case None => None)
    case StagePos => (match f.stagePos case Some(v) => Some(StageValue(v.0, v.1)) case None => None)
    case MicronBar => (match f.microBar case Some(v) => Some(LengthValue(v)) case None => None)
    case MicronMarker => (match f.microMarker case Some(v) => Some(LengthValue(v)) case None => None)
  }

  /** Two sets of variables agree when every key reads the same. */
  lemma FieldsExtensional(f: Fields, g: Fields)
    requires forall k :: Get(f, k) == Get(g, k)
    ensures f == g
  {
    assert Get(f, FullSize) == Get(g, FullSize);
    assert Get(f, StagePos) == Get(g, StagePos);
    assert Get(f, MicronBar) == Get(g, MicronBar);
    assert Get(f, MicronMarker) == Get(g, MicronMarker);
  }

  /** The variables after key `k` was assigned the value `v`. */
  function Put(f: Fields, k: Key, v: Value): Fields {
    match k
    case FullSize => if v.SizeValue? then f.(fullSize := Some((v.width, v.height))) else f
    case StagePos => if v.StageValue? then f.(stagePos := Some((v.x, v.y))) else f
    case MicronBar => if v.LengthValue? then f.(microBar := Some(v.length)) else f
    case MicronMarker => if v.LengthValue? then f.(microMarker := Some(v.length)) else f
  }

  /** One iteration of the loop over the lines; `i` is the line's position. */
  function Step(f: Fields, line: string, i: nat): Result<Fields, ScanError> {
    match KeyOf(line)
    case None => Ok(f)
    case Some(k) =>
      match ParseField(line, k)
      case Err(e) => Err(ScanError(i, k, e))
      case Ok(v) => Ok(Put(f, k, v))
  }

  /** The loop from line `i` on, started with the variables `f`. */
  function ScanFrom(f: Fields, lines: seq<string>, i: nat): Result<Fields, ScanError>
    requires i <= |lines|
    decreases |lines| - i
  {
    if i == |lines| then Ok(f)
    else match Step(f, lines[i], i)
      case Err(e) => Err(e)
      case Ok(g) => ScanFrom(g, lines, i + 1)
  }

  /** The whole scan (lines 85-99 of the labeler). */
  function ScanSpec(lines: seq<string>): Result<Fields, ScanError> {
    ScanFrom(NoFields, lines, 0)
  }

  /** The loop of the labeler, with its four independent prefix tests and variables. */
  method Scan(lines: seq<string>) returns (r: Result<Fields, ScanError>)
    ensures r == ScanSpec(lines)
  {
    var fullSize: Option<(int, int)> := None;
    var stagePos: Option<(real, real)> := None;
    var microBar: Option<real> := None;
    var microMarker: Option<real> := None;
    var i := 0;
    while i < |lines|
      invariant i <= |lines|
      invariant ScanFrom(Fields(fullSize, stagePos, microBar, microMarker), lines, i) == ScanSpec(lines)
    {
      var line := lines[i];
      if StartsWith(line, Prefix(FullSize)) {
        var v := ParseFullSize(line);
        if v.Err? {
          return Err(ScanError(i, FullSize, v.error));
        }
        fullSize := Some(v.value);
      }
      if StartsWith(line, Prefix(StagePos)) {
        var v := ParseStagePos(line);
        if v.Err? {
          return Err(ScanError(i, StagePos, v.error));
        }
        stagePos := Some(v.value);
      }
      if StartsWith(line, Prefix(MicronBar)) {
        var v := ParseMicronBar(line);
        if v.Err? {
          return Err(ScanError(i, MicronBar, v.error));
        }
        microBar := Some(v.value);
      }
      if StartsWith(line, Prefix(MicronMarker)) {
        var v := ParseMicronMarker(line);
        if v.Err? {
          return Err(ScanError(i, MicronMarker, v.error));
        }
        microMarker := Some(v.value);
      }
      i := i + 1;
    }
    r := Ok(Fields(fullSize, stagePos, microBar, microMarker));
  }

  /** The per-image metadata once every variable the labeler reads is bound. */
  datatype ImageMetadata = ImageMetadata(
    width: int,         // new_width
    height: int,        // new_height
    stageX: real,
    stageY: real,
    barPixels: real,    // pixels
    barMicrons: real,   // microns4pixels
    scale: real)        // scale_px_per_micron, pixels per micron

  /** The errors raised when the scanned variables are first read. */
  datatype Unresolved =
    | Unbound(name: string)   // UnboundLocalError on a variable no line assigned
    | ZeroDivision            // ZeroDivisionError in `pixels / microns4pixels`

  /**
   * Reading the scanned variables in the labeler's own order: `pixels` and
   * `microns4pixels` for the scale factor, then `stage_x`, then `new_height`
   * in the crop test. The first unbound one raises.
   */
  function Resolve(f: Fields): (r: Result<ImageMetadata, Unresolved>)
    ensures f.microBar.None? ==> r == Err(Unbound("pixels"))
    ensures f.microBar.Some? && f.microMarker.None? ==> r == Err(Unbound("microns4pixels"))
    ensures f.microBar.Some? && f.microMarker == Some(0.0) ==> r == Err(ZeroDivision)
    ensures f.microBar.Some? && f.microMarker.Some? && f.microMarker.value != 0.0 && f.stagePos.None? ==>
              r == Err(Unbound("stage_x"))
    ensures r.Ok? <==> f.microBar.Some? && f.microMarker.Some? && f.microMarker.value != 0.0 && f.stagePos.Some? && f.fullSize.Some?
    ensures r.Err? && f.microBar.Some? && f.microMarker.Some? && f.microMarker.value != 0.0 && f.stagePos.Some? ==>
              r == Err(Unbound("new_height"))
    ensures r.Ok? ==>
      && f.fullSize == Some((r.value.width, r.value.height))
      && f.stagePos == Some((r.value.stageX, r.value.stageY))
      && f.microBar == Some(r.value.barPixels)
      && f.microMarker == Some(r.value.barMicrons)
      && r.value.scale * r.value.barMicrons == r.value.barPixels
      && (r.value.barPixels > 0.0 && r.value.barMicrons > 0.0 ==> r.value.scale > 0.0)
  {
    match (f.microBar, f.microMarker, f.stagePos, f.fullSize)
    case (None, _, _, _) => Err(Unbound("pixels"))
    case (Some(_), None, _, _) => Err(Unbound("microns4pixels"))
    case (Some(p), Some(m), st, sz) =>
      if m == 0.0 then Err(ZeroDivision)
      else match (st, sz)
        case (None, _) => Err(Unbound("stage_x"))
        case (Some(_), None) => Err(Unbound("new_height"))
        case (Some(xy), Some(wh)) => Ok(ImageMetadata(wh.0, wh.1, xy.0, xy.1, p, m, p / m))
  }
}

/** What the scan's result says about the sidecar's lines. */
module MetadataFacts {
  import opened Wrappers
  import opened Text
  import opened Metadata

  /** The lines that start with the prefix of `k`, in file order. */
  function Project(lines: seq<string>, k: Key): (r: seq<string>)
    ensures forall l :: l in r <==> l in lines && KeyOf(l) == Some(k)
  {
    if lines == [] then []
    else (if KeyOf(lines[0]) == Some(k) then [lines[0]] else []) + Project(lines[1..], k)
  }

  lemma {:induction false} ProjectAppend(a: seq<string>, b: seq<string>, k: Key)
    ensures Project(a + b, k) == Project(a, k) + Project(b, k)
  {
    if a == [] {
      assert a + b == b;
    } else {
      assert (a + b)[0] == a[0];
      assert (a + b)[1..] == a[1..] + b;
      ProjectAppend(a[1..], b, k);
    }
  }

  /** The value the last of `ps` assigns to `k`. */
  function LastValue(ps: seq<string>, k: Key): Option<Value> {
    if ps == [] then None
    else match ParseField(ps[|ps| - 1], k)
      case Ok(v) => Some(v)
      case Err(_) => None
  }

  /** A line that starts with a key's prefix but does not hold a value for it. */
  predicate Faulty(line: string) {
    match KeyOf(line)
    case None => false
    case Some(k) => ParseField(line, k).Err?
  }

  lemma PutGet(f: Fields, k: Key, v: Value)
    requires (v.SizeValue? <==> k == FullSize) && (v.StageValue? <==> k == StagePos)
    ensures forall k' :: Get(Put(f, k, v), k') == if k' == k then Some(v) else Get(f, k')
  {
  }

  lemma StepOutcome(f: Fields, line: string, i: nat)
    ensures Step(f, line, i).Err? <==> Faulty(line)
    ensures Step(f, line, i).Err? ==>
      KeyOf(line) == Some(Step(f, line, i).error.key) &&
      Step(f, line, i).error == ScanError(i, KeyOf(line).value, ParseField(line, KeyOf(line).value).error)
    ensures Step(f, line, i).Ok? ==>
      forall k :: Get(Step(f, line, i).value, k) == if KeyOf(line) == Some(k) then LastValue([line], k) else Get(f, k)
  {
    match KeyOf(line)
    case None =>
    case Some(k) =>
      var r := ParseField(line, k);
      if r.Ok? {
        PutGet(f, k, r.value);
        assert LastValue([line], k) == Some(r.value);
      }
  }

  lemma {:induction false} ScanFromFields(f: Fields, lines: seq<string>, i: nat, g: Fields)
    requires i <= |lines| && ScanFrom(f, lines, i) == Ok(g)
    ensures forall k :: Get(g, k) == if Project(lines[i..], k) == [] then Get(f, k) else LastValue(Project(lines[i..], k), k)
    decreases |lines| - i
  {
    if i < |lines| {
      StepOutcome(f, lines[i], i);
      var f' := Step(f, lines[i], i).value;
      ScanFromFields(f', lines, i + 1, g);
      assert lines[i..][0] == lines[i];
      assert lines[i..][1..] == lines[i + 1..];
    }
  }

  /** The position of the first faulty line at or after `i`, or `|lines|` when there is none. */
  function FirstFault(lines: seq<string>, i: nat): (n: nat)
    requires i <= |lines|
    ensures i <= n <= |lines|
    ensures forall j :: i <= j < n ==> !Faulty(lines[j])
    ensures n < |lines| ==> Faulty(lines[n])
    decreases |lines| - i
  {
    if i == |lines| then i
    else if Faulty(lines[i]) then i
    else
      var n := FirstFault(lines, i + 1);
      assert forall j :: i <= j < n ==> !Faulty(lines[j]) by {
        forall j | i <= j < n ensures !Faulty(lines[j]) {
          if j == i {
            assert !Faulty(lines[i]);
          }
        }
      }
      n
  }

  lemma {:induction false} ScanFromErrors(f: Fields, lines: seq<string>, i: nat)
    requires i <= |lines|
    ensures ScanFrom(f, lines, i).Err? <==> FirstFault(lines, i) < |lines|
    ensures ScanFrom(f, lines, i).Err? ==>
      var e := ScanFrom(f, lines, i).error;
      && e.line == FirstFault(lines, i)
      && KeyOf(lines[e.line]) == Some(e.key)
      && ParseField(lines[e.line], e.key) == Err(e.fault)
    decreases |lines| - i
  {
    if i < |lines| {
      var s := Step(f, lines[i], i);
      StepOutcome(f, lines[i], i);
      if s.Ok? {
        ScanFromErrors(s.value, lines, i + 1);
        assert ScanFrom(f, lines, i) == ScanFrom(s.value, lines, i + 1);
        assert FirstFault(lines, i) == FirstFault(lines, i + 1);
      } else {
        assert ScanFrom(f, lines, i) == Err(s.error);
        assert FirstFault(lines, i) == i;
      }
    }
  }

  /**
   * Each key's value comes from the LAST line that starts with its prefix, and
   * from nothing else: lines of other keys, and lines that match no prefix,
   * never change it. A key is assigned exactly when some line has its prefix.
   */
  lemma ScanLastLineWins(lines: seq<string>, f: Fields)
    requires ScanSpec(lines) == Ok(f)
    ensures forall k :: Get(f, k) == LastValue(Project(lines, k), k)
    ensures forall k :: Get(f, k).Some? <==> exists l :: l in lines && StartsWith(l, Prefix(k))
  {
    ScanFromFields(NoFields, lines, 0, f);
    ScanFromErrors(NoFields, lines, 0);
    assert lines[0..] == lines;
    forall k ensures Get(f, k).Some? <==> exists l :: l in lines && StartsWith(l, Prefix(k)) {
      LastValueDefined(lines, k);
    }
  }

  lemma LastValueDefined(lines: seq<string>, k: Key)
    requires FirstFault(lines, 0) == |lines|
    ensures LastValue(Project(lines, k), k).Some? <==> exists l :: l in lines && StartsWith(l, Prefix(k))
  {
    var ps := Project(lines, k);
    if ps != [] {
      var last := ps[|ps| - 1];
      assert last in ps;
      var j :| 0 <= j < |lines| && lines[j] == last;
      assert !Faulty(lines[j]);
      assert KeyOf(last) == Some(k);
      assert ParseField(last, k).Ok?;
      assert StartsWith(last, Prefix(k));
    } else {
      forall l | l in lines ensures !StartsWith(l, Prefix(k)) {
        assert l !in ps;
      }
    }
  }

  /**
   * The scan fails exactly when some line starts with a prefix but lacks a
   * token or holds a token `int`/`float` rejects; it reports the first such line.
   */
  lemma ScanFirstFaultRaises(lines: seq<string>)
    ensures ScanSpec(lines).Err? <==> exists j :: 0 <= j < |lines| && Faulty(lines[j])
    ensures ScanSpec(lines).Err? ==>
      var e := ScanSpec(lines).error;
      && e.line < |lines|
      && StartsWith(lines[e.line], Prefix(e.key))
      && ParseField(lines[e.line], e.key) == Err(e.fault)
      && forall j :: 0 <= j < e.line ==> !Faulty(lines[j])
  {
    ScanFromErrors(NoFields, lines, 0);
    var n := FirstFault(lines, 0);
    if n < |lines| {
      assert Faulty(lines[n]);
    }
  }

  /** A one-line sidecar contributes its line to exactly the key it starts with. */
  lemma ProjectSingle(l: string, k: Key)
    ensures Project([l], k) == if KeyOf(l) == Some(k) then [l] else []
  {
    assert [l][0] == l && [l][1..] == [];
    var head: seq<string> := if KeyOf(l) == Some(k) then [l] else [];
    assert head + [] == head;
  }

  /** Swapping neighbouring lines of different keys leaves each key's lines, in order, unchanged. */
  lemma SwapKeepsProject(p: seq<string>, a: string, b: string, q: seq<string>, k: Key)
    requires KeyOf(a).None? || KeyOf(a) != KeyOf(b)
    ensures Project(p + [b, a] + q, k) == Project(p + [a, b] + q, k)
  {
    var pa, pb := Project([a], k), Project([b], k);
    ProjectSingle(a, k);
    ProjectSingle(b, k);
    assert [a] + [b] == [a, b] && [b] + [a] == [b, a];
    ProjectAppend([a], [b], k);
    ProjectAppend([b], [a], k);
    assert Project([a, b], k) == Project([b, a], k) by {
      assert pa + pb == pb + pa;
    }
    ProjectAppend(p, [a, b], k);
    ProjectAppend(p, [b, a], k);
    assert Project(p + [a, b], k) == Project(p + [b, a], k);
    ProjectAppend(p + [a, b], q, k);
    ProjectAppend(p + [b, a], q, k);
  }

  /** Swapping neighbouring lines keeps a sidecar free of lines that raise. */
  lemma SwapKeepsFaultless(p: seq<string>, a: string, b: string, q: seq<string>)
    requires forall j :: 0 <= j < |p + [a, b] + q| ==> !Faulty((p + [a, b] + q)[j])
    ensures forall j :: 0 <= j < |p + [b, a] + q| ==> !Faulty((p + [b, a] + q)[j])
  {
    var l1, l2 := p + [a, b] + q, p + [b, a] + q;
    forall j | 0 <= j < |l2| ensures !Faulty(l2[j]) {
      var i := if j == |p| then j + 1 else if j == |p| + 1 then j - 1 else j;
      assert l2[j] == l1[i];
    }
  }

  /** Exchanging two neighbouring lines of different keys does not change the scan's successful result. */
  lemma ScanOrderAcrossKeys(p: seq<string>, a: string, b: string, q: seq<string>)
    requires KeyOf(a).None? || KeyOf(a) != KeyOf(b)
    requires ScanSpec(p + [a, b] + q).Ok?
    ensures ScanSpec(p + [b, a] + q) == ScanSpec(p + [a, b] + q)
  {
    var l1, l2 := p + [a, b] + q, p + [b, a] + q;
    ScanFirstFaultRaises(l1);
    SwapKeepsFaultless(p, a, b, q);
    ScanFirstFaultRaises(l2);
    var f, g := ScanSpec(l1).value, ScanSpec(l2).value;
    ScanLastLineWins(l1, f);
    ScanLastLineWins(l2, g);
    forall k ensures Get(f, k) == Get(g, k) {
      SwapKeepsProject(p, a, b, q, k);
    }
    FieldsExtensional(f, g);
  }
}
