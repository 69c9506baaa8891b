/**
 * Export: which files `savefig` writes for a format selector, and where.
 */
module Export {
  import opened Wrappers
  import opened Text
  import opened Matcher

  datatype Format = Png | Tif | Pdf

  function Extension(f: Format): string {
    match f
    case Png => "png"
    case Tif => "tif"
    case Pdf => "pdf"
  }

  /**
   * The formats saved for `save_fig`, in saving order: an `if`/`elif`/`elif`
   * chain on `"pdf&tif"`, `"png"`, `"tif"`, then a separate `if` on `"pdf"`.
   */
  function Formats(selector: string): seq<Format> {
    (if selector == "pdf&tif" then [Tif, Pdf]
     else if selector == "png" then [Png]
     else if selector == "tif" then [Tif]
     else [])
    + (if selector == "pdf" then [Pdf] else [])
  }

  /** The selector that requests a given list of formats, if any does. */
  function SelectorFor(formats: seq<Format>): Option<string> {
    if formats == [Tif, Pdf] then Some("pdf&tif")
    else if formats == [Png] then Some("png")
    else if formats == [Tif] then Some("tif")
    else if formats == [Pdf] then Some("pdf")
    else None
  }

  /**
   * The four recognised selectors, and only they, save something; each is
   * recovered from the formats it saves, so no two save the same list.
   */
  lemma FormatsSelectorRoundTrip(selector: string, formats: seq<Format>)
    ensures Formats(selector) != [] <==> selector in ["pdf&tif", "png", "tif", "pdf"]
    ensures Formats(selector) != [] ==> SelectorFor(Formats(selector)) == Some(selector)
    ensures SelectorFor(formats) == Some(selector) ==> Formats(selector) == formats
    ensures Formats("pdf&tif") == [Tif, Pdf] && Formats("png") == [Png]
    ensures Formats("tif") == [Tif] && Formats("pdf") == [Pdf]
  {
    assert "pdf&tif" != "pdf" by { assert |"pdf&tif"| != |"pdf"|; }
    assert "png" != "pdf" && "tif" != "pdf" && "png" != "tif" by {
      assert "png"[1] != "pdf"[1] && "tif"[0] != "pdf"[0] && "png"[0] != "tif"[0];
    }
    assert "pdf&tif" != "png" && "pdf&tif" != "tif" by { assert |"pdf&tif"| != |"png"|; }
    assert [Tif, Pdf] + [] == [Tif, Pdf] && [Png] + [] == [Png] && [Tif] + [] == [Tif] && [] + [Pdf] == [Pdf];
  }

  /** `os.path.join(a, b)` on POSIX. */
  function PathJoin(a: string, b: string): string {
    if StartsWith(b, "/") then b
    else if a == [] || EndsWith(a, "/") then a + b
    else a + "/" + b
  }

  function OutputFolder(imagePath: string): string {
    PathJoin(imagePath, "labeled_images")
  }

  function OutputName(fileName: string, f: Format): string {
    BaseName(fileName) + "_labeled." + Extension(f)
  }

  /** The files `savefig` writes, in order. */
  function OutputPaths(imagePath: string, fileName: string, selector: string): seq<string> {
    var fs := Formats(selector);
    seq(|fs|, i requires 0 <= i < |fs| => PathJoin(OutputFolder(imagePath), OutputName(fileName, fs[i])))
  }

  lemma PathJoinInjective(a: string, b1: string, b2: string)
    requires PathJoin(a, b1) == PathJoin(a, b2)
    requires !StartsWith(b1, "/") && !StartsWith(b2, "/")
    ensures b1 == b2
  {
    var p := PathJoin(a, b1);
    if a == [] || EndsWith(a, "/") {
      assert p[|a|..] == b1 && p[|a|..] == b2;
    } else {
      assert p[|a| + 1..] == b1 && p[|a| + 1..] == b2;
    }
  }

  lemma OutputNameEnds(fileName: string, f: Format)
    ensures EndsWith(OutputName(fileName, f), "_labeled." + Extension(f))
    ensures !StartsWith(BaseName(fileName), "/") ==> !StartsWith(OutputName(fileName, f), "/")
  {
    var name := OutputName(fileName, f);
    var tail := "_labeled." + Extension(f);
    assert name[|name| - |tail|..] == tail;
    if BaseName(fileName) == [] {
      assert name[0] == '_';
    } else {
      assert name[0] == BaseName(fileName)[0];
    }
  }

  lemma PathJoinEnds(a: string, b: string, tail: string)
    requires EndsWith(b, tail)
    ensures EndsWith(PathJoin(a, b), tail)
  {
    var p := PathJoin(a, b);
    if !StartsWith(b, "/") {
      assert p[|p| - |b|..] == b;
      assert p[|p| - |tail|..] == b[|b| - |tail|..];
    }
  }

  /** One path per saved format, each ending in `_labeled.<ext>`, so `savefig` infers that format from it. */
  lemma OutputPathsExtensions(imagePath: string, fileName: string, selector: string)
    ensures |OutputPaths(imagePath, fileName, selector)| == |Formats(selector)|
    ensures forall i :: 0 <= i < |Formats(selector)| ==>
      EndsWith(OutputPaths(imagePath, fileName, selector)[i], "_labeled." + Extension(Formats(selector)[i]))
  {
    var fs := Formats(selector);
    forall i | 0 <= i < |fs| ensures EndsWith(OutputPaths(imagePath, fileName, selector)[i], "_labeled." + Extension(fs[i])) {
      OutputNameEnds(fileName, fs[i]);
      PathJoinEnds(OutputFolder(imagePath), OutputName(fileName, fs[i]), "_labeled." + Extension(fs[i]));
    }
  }

  /** Two paths ending in different suffixes of one length differ. */
  lemma EndsDistinguish(p: string, q: string, t1: string, t2: string)
    requires EndsWith(p, t1) && EndsWith(q, t2) && |t1| == |t2| && t1 != t2
    ensures p != q
  {
  }

  /** No two saved files share a path, so no export overwrites another. */
  lemma OutputPathsDistinct(imagePath: string, fileName: string, selector: string)
    ensures forall i, j :: 0 <= i < j < |OutputPaths(imagePath, fileName, selector)| ==>
      OutputPaths(imagePath, fileName, selector)[i] != OutputPaths(imagePath, fileName, selector)[j]
  {
    var fs := Formats(selector);
    var ps := OutputPaths(imagePath, fileName, selector);
    OutputPathsExtensions(imagePath, fileName, selector);
    forall i, j | 0 <= i < j < |ps| ensures ps[i] != ps[j] {
      FormatsSelectorRoundTrip(selector, fs);
      assert fs == [Tif, Pdf] && i == 0 && j == 1;
      var t1 := "_labeled." + Extension(Tif);
      var t2 := "_labeled." + Extension(Pdf);
      assert t1[9] == 't' && t2[9] == 'p';
      EndsDistinguish(ps[0], ps[1], t1, t2);
    }
  }

  /** When the base name is relative, every saved file lies under `labeled_images` of the image folder. */
  lemma OutputPathsInFolder(imagePath: string, fileName: string, selector: string)
    requires !StartsWith(BaseName(fileName), "/")
    ensures forall i :: 0 <= i < |OutputPaths(imagePath, fileName, selector)| ==>
      StartsWith(OutputPaths(imagePath, fileName, selector)[i], OutputFolder(imagePath))
  {
    var fs := Formats(selector);
    forall i | 0 <= i < |fs| ensures StartsWith(OutputPaths(imagePath, fileName, selector)[i], OutputFolder(imagePath)) {
      OutputNameEnds(fileName, fs[i]);
    }
  }
}
