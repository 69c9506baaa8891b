/**
 * The string operations of the Python standard library that the labeler
 * relies on: `str.startswith`, `str.endswith`, substring search,
 * `str.split()` on whitespace, `str.split(c)[0]`, `int(...)`, `float(...)`
 * on plain decimal tokens, `str(int)` and `int(x)` on a float.
 */
module Text {
  import opened Wrappers

  /** The characters Python's `str.isspace` accepts; `str.split()` cuts on runs of these. */
  predicate IsSpace(c: char) {
    || c == ' '
    || ('\t' <= c <= '\r')
    || ('\U{1C}' <= c <= '\U{1F}')
    || c == '\U{85}' || c == '\U{A0}' || c == '\U{1680}'
    || ('\U{2000}' <= c <= '\U{200A}')
    || c == '\U{2028}' || c == '\U{2029}' || c == '\U{202F}' || c == '\U{205F}' || c == '\U{3000}'
  }

  predicate StartsWith(s: string, prefix: string) {
    |prefix| <= |s| && s[..|prefix|] == prefix
  }

  predicate EndsWith(s: string, suffix: string) {
    |suffix| <= |s| && s[|s| - |suffix|..] == suffix
  }

  /** Substring containment, the test that pandas `str.contains` performs for a literal pattern. */
  predicate Contains(s: string, t: string) {
    exists i :: 0 <= i <= |s| && OccursAt(s, t, i)
  }

  /** `t` occurs in `s` starting at position `i`. */
  predicate OccursAt(s: string, t: string, i: int) {
    0 <= i <= |s| - |t| && s[i..i + |t|] == t
  }

  /** `s.split(c)[0]`: the part of `s` before the first `c`, or all of `s`. */
  function BeforeFirst(s: string, c: char): (r: string)
    ensures StartsWith(s, r)
    ensures c !in r
    ensures |r| < |s| ==> s[|r|] == c
  {
    if s == [] || s[0] == c then [] else [s[0]] + BeforeFirst(s[1..], c)
  }

  /** A token of `str.split()`: non-empty, free of whitespace. */
  predicate IsWord(w: string) {
    |w| > 0 && forall i :: 0 <= i < |w| ==> !IsSpace(w[i])
  }

  /** Length of the run of non-whitespace characters at the start of `s`. */
  function WordLen(s: string): (n: nat)
    ensures n <= |s|
    ensures forall i :: 0 <= i < n ==> !IsSpace(s[i])
    ensures n < |s| ==> IsSpace(s[n])
  {
    if s == [] || IsSpace(s[0]) then 0 else 1 + WordLen(s[1..])
  }

  /** `s.split()`: the maximal runs of non-whitespace characters, in order. */
  function Split(s: string): (r: seq<string>)
    ensures forall k :: 0 <= k < |r| ==> IsWord(r[k])
    decreases |s|
  {
    if s == [] then []
    else if IsSpace(s[0]) then Split(s[1..])
    else
      var n := WordLen(s);
      [s[..n]] + Split(s[n..])
  }

  /** `" ".join(ws)`, the inverse of `Split` on lists of words. */
  function Unsplit(ws: seq<string>): string {
    if ws == [] then []
    else if |ws| == 1 then ws[0]
    else ws[0] + " " + Unsplit(ws[1..])
  }

  lemma {:induction false} WordLenAppend(s: string, t: string)
    ensures WordLen(s + t) == if WordLen(s) < |s| then WordLen(s) else |s| + WordLen(t)
  {
    if s != [] {
      assert (s + t)[0] == s[0];
      if !IsSpace(s[0]) {
        assert (s + t)[1..] == s[1..] + t;
        WordLenAppend(s[1..], t);
      }
    } else {
      assert s + t == t;
    }
  }

  /** Splitting a word followed by a separator yields that word first. */
  lemma SplitWordThen(w: string, c: char, rest: string)
    requires IsWord(w) && IsSpace(c)
    ensures Split(w + [c] + rest) == [w] + Split(rest)
  {
    var s := w + [c] + rest;
    WordLenAppend(w, [c] + rest);
    assert WordLen([c] + rest) == 0;
    assert WordLen(w) == |w|;
    assert s == w + ([c] + rest);
    assert s[0] == w[0];
    assert s[..|w|] == w;
    assert s[|w|..] == [c] + rest;
    assert Split([c] + rest) == Split(rest) by {
      assert ([c] + rest)[1..] == rest;
    }
  }

  lemma SplitWord(w: string)
    requires IsWord(w)
    ensures Split(w) == [w]
  {
    WordLenAppend(w, []);
    assert w + [] == w;
    assert w[..|w|] == w;
    assert w[|w|..] == [];
  }

  /** `Split` undoes `Unsplit`: joining words on a space and splitting again gives the words back. */
  lemma {:induction false} SplitUnsplit(ws: seq<string>)
    requires forall k :: 0 <= k < |ws| ==> IsWord(ws[k])
    ensures Split(Unsplit(ws)) == ws
  {
    if |ws| == 1 {
      SplitWord(ws[0]);
    } else if |ws| > 1 {
      SplitUnsplit(ws[1..]);
      SplitWordThen(ws[0], ' ', Unsplit(ws[1..]));
      assert ws[0] + " " + Unsplit(ws[1..]) == ws[0] + [' '] + Unsplit(ws[1..]);
      assert ws == [ws[0]] + ws[1..];
    }
  }

  /** Trailing whitespace, such as the newline `readlines` keeps, does not change `Split`. */
  lemma {:induction false} SplitTrailingSpace(s: string, c: char)
    requires IsSpace(c)
    ensures Split(s + [c]) == Split(s)
    decreases |s|
  {
    var t := s + [c];
    if s == [] {
      assert t[1..] == [];
    } else if IsSpace(s[0]) {
      assert t[0] == s[0];
      assert t[1..] == s[1..] + [c];
      SplitTrailingSpace(s[1..], c);
    } else {
      var n := WordLen(s);
      WordLenAppend(s, [c]);
      assert t[0] == s[0];
      assert WordLen(t) == n;
      assert t[..n] == s[..n];
      assert t[n..] == s[n..] + [c];
      SplitTrailingSpace(s[n..], c);
    }
  }

  predicate IsDigit(c: char) {
    '0' <= c <= '9'
  }

  predicate AllDigits(s: string) {
    forall i :: 0 <= i < |s| ==> IsDigit(s[i])
  }

  function DigitValue(c: char): (d: nat)
    requires IsDigit(c)
    ensures d < 10
  {
    (c as int) - ('0' as int)
  }

  function DigitChar(d: nat): (c: char)
    requires d < 10
    ensures IsDigit(c) && DigitValue(c) == d
  {
    (('0' as int) + d) as char
  }

  /** The value of a decimal digit string, most significant digit first. */
  function DigitsValue(s: string): nat
    requires AllDigits(s)
    decreases |s|
  {
    if s == [] then 0 else DigitsValue(s[..|s| - 1]) * 10 + DigitValue(s[|s| - 1])
  }

  function Pow10(n: nat): (p: nat)
    ensures p >= 1
  {
    if n == 0 then 1 else 10 * Pow10(n - 1)
  }

  /** `int(tok)` on a token of optional sign and decimal digits; `None` stands for the ValueError. */
  function ParseInt(tok: string): Option<int> {
    if |tok| > 0 && (tok[0] == '+' || tok[0] == '-') then
      var d := tok[1..];
      if d != [] && AllDigits(d) then
        var v: int := DigitsValue(d);
        Some(if tok[0] == '-' then -v else v)
      else None
    else if tok != [] && AllDigits(tok) then Some(DigitsValue(tok))
    else None
  }

  /** An unsigned decimal `ddd`, `ddd.`, `ddd.fff` or `.fff` with at least one digit. */
  function ParseDecimal(tok: string): Option<real> {
    var whole := BeforeFirst(tok, '.');
    if |whole| == |tok| then
      if tok != [] && AllDigits(tok) then Some(DigitsValue(tok) as real) else None
    else
      var frac := tok[|whole| + 1..];
      if AllDigits(whole) && AllDigits(frac) && |whole| + |frac| > 0 then
        Some(DigitsValue(whole) as real + DigitsValue(frac) as real / Pow10(|frac|) as real)
      else None
  }

  /** `float(tok)` on a token of optional sign and a plain decimal; `None` stands for the ValueError. */
  function ParseReal(tok: string): Option<real> {
    if |tok| > 0 && (tok[0] == '+' || tok[0] == '-') then
      match ParseDecimal(tok[1..])
      case Some(v) => Some(if tok[0] == '-' then -v else v)
      case None => None
    else ParseDecimal(tok)
  }

  function NatToString(n: nat): (r: string)
    ensures |r| > 0 && AllDigits(r)
  {
    if n < 10 then [DigitChar(n)] else NatToString(n / 10) + [DigitChar(n % 10)]
  }

  /** `str(n)` for a Python int. */
  function IntToString(n: int): string {
    if n < 0 then "-" + NatToString(-n) else NatToString(n)
  }

  lemma {:induction false} NatToStringValue(n: nat)
    ensures DigitsValue(NatToString(n)) == n
  {
    var s := NatToString(n);
    if n < 10 {
      assert s[..0] == [];
    } else {
      NatToStringValue(n / 10);
      assert s[..|s| - 1] == NatToString(n / 10);
    }
  }

  /** `int(str(n)) == n`: printing an integer and parsing it back is the identity. */
  lemma IntToStringRoundTrip(n: int)
    ensures ParseInt(IntToString(n)) == Some(n)
  {
    if n < 0 {
      var s := IntToString(n);
      NatToStringValue(-n);
      assert s[1..] == NatToString(-n);
    } else {
      NatToStringValue(n);
      var s := NatToString(n);
      assert s[0] != '+' && s[0] != '-' by { assert IsDigit(s[0]); }
    }
  }

  /** `float(str(n)) == n`: a printed integer reads back as the same value. */
  lemma IntToStringParsesAsReal(n: int)
    ensures ParseReal(IntToString(n)) == Some(n as real)
  {
    var d := NatToString(if n < 0 then -n else n);
    NatToStringValue(if n < 0 then -n else n);
    var w := BeforeFirst(d, '.');
    assert w == d[..|w|];
    if n < 0 {
      assert IntToString(n)[1..] == d;
    } else {
      assert d[0] != '+' && d[0] != '-' by { assert IsDigit(d[0]); }
    }
  }

  /** The marker value of `$$SM_MICRON_MARKER 10um`: `float("10um".split("u")[0])` is 10. */
  lemma MarkerValueExample()
    ensures BeforeFirst("10um", 'u') == "10"
    ensures ParseReal(BeforeFirst("10um", 'u')) == Some(10.0)
  {
    assert NatToString(10) == "10" by {
      assert NatToString(10) == NatToString(1) + [DigitChar(0)];
    }
    IntToStringParsesAsReal(10);
    assert "10um"[..2] == "10";
  }

  /** `int(x)` for a float `x`: truncation toward zero. */
  function Trunc(x: real): (r: int)
    ensures 0.0 <= x ==> r as real <= x < r as real + 1.0
    ensures x < 0.0 ==> r as real - 1.0 < x <= r as real
  {
    if x >= 0.0 then x.Floor else -((-x).Floor)
  }
}
