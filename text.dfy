/** String operations the source takes from the JavaScript runtime and from
    Node's `path` module: lower-casing, prefix and suffix tests, `split`,
    `trim() === ""`, digit strings and `path.extname`. */
module Text {
  import opened Js

  /** `toLowerCase` on one character (ASCII letters only; see README). */
  function Lower(c: char): char
  {
    if 'A' <= c <= 'Z' then (c as int + 32) as char else c
  }

  function LowerStr(s: string): (r: string)
    ensures |r| == |s| && forall i :: 0 <= i < |s| ==> r[i] == Lower(s[i])
  {
    seq(|s|, i requires 0 <= i < |s| => Lower(s[i]))
  }

  predicate StartsWith(s: string, p: string)
  {
    |p| <= |s| && s[..|p|] == p
  }

  predicate EndsWith(s: string, p: string)
  {
    |p| <= |s| && s[|s| - |p|..] == p
  }

  /** Index of the first occurrence of `c` in `s`. */
  function IndexOf(s: string, c: char): (r: Option<nat>)
    ensures r.None? <==> c !in s
    ensures r.Some? ==> r.value < |s| && s[r.value] == c && c !in s[..r.value]
  {
    if s == [] then None
    else if s[0] == c then Some(0)
    else
      match IndexOf(s[1..], c)
      case None => None
      case Some(k) =>
        assert s[..k + 1] == [s[0]] + s[1..][..k];
        Some(k + 1)
  }

  /** Index of the last occurrence of `c` in `s`. */
  function LastIndexOf(s: string, c: char): (r: Option<nat>)
    ensures r.None? <==> c !in s
    ensures r.Some? ==> r.value < |s| && s[r.value] == c && c !in s[r.value + 1..]
  {
    if s == [] then None
    else if s[|s| - 1] == c then Some(|s| - 1)
    else
      var r := LastIndexOf(s[..|s| - 1], c);
      if r.Some? then assert s[r.value + 1..] == s[..|s| - 1][r.value + 1..] + [s[|s| - 1]]; r
      else r
  }

  /** `s.split(sep)` for a one-character separator. */
  function Split(s: string, sep: char): (pieces: seq<string>)
    ensures |pieces| >= 1
    decreases |s|
  {
    match IndexOf(s, sep)
    case None => [s]
    case Some(k) => [s[..k]] + Split(s[k + 1..], sep)
  }

  /** `s.split(sep)[1]`, where a missing piece is `undefined` (None). */
  function SecondPiece(s: string, sep: char): Option<string>
  {
    var pieces := Split(s, sep);
    if |pieces| >= 2 then Some(pieces[1]) else None
  }

  /** The second piece is present exactly when the separator occurs, and it is
      the text between the first separator and the next one (or the end). */
  lemma {:induction false} SecondPieceBetweenSeparators(s: string, sep: char)
    ensures SecondPiece(s, sep).Some? <==> sep in s
    ensures sep in s ==>
      var i := IndexOf(s, sep).value;
      var rest := s[i + 1..];
      SecondPiece(s, sep).value == (if sep in rest then rest[..IndexOf(rest, sep).value] else rest)
  {
    match IndexOf(s, sep)
    case None =>
    case Some(i) =>
      var rest := s[i + 1..];
      assert Split(s, sep) == [s[..i]] + Split(rest, sep);
      match IndexOf(rest, sep)
      case None =>
        assert Split(rest, sep) == [rest];
      case Some(j) =>
        assert Split(rest, sep) == [rest[..j]] + Split(rest[j + 1..], sep);
  }

  predicate IsDigit(c: char)
  {
    '0' <= c <= '9'
  }

  /** The regular expression `^\d+$`. */
  predicate AllDigits(s: string)
  {
    |s| > 0 && forall i :: 0 <= i < |s| ==> IsDigit(s[i])
  }

  function DigitValue(c: char): nat
    requires IsDigit(c)
  {
    c as int - '0' as int
  }

  /** The number a decimal digit string denotes. */
  function ParseDigits(s: string): nat
    requires forall i :: 0 <= i < |s| ==> IsDigit(s[i])
  {
    if s == [] then 0 else ParseDigits(s[..|s| - 1]) * 10 + DigitValue(s[|s| - 1])
  }

  /** A rendered number is a digit string that reads back as the number. */
  lemma {:induction false} NatToStringRoundTrip(n: nat)
    ensures AllDigits(NatToString(n))
    ensures ParseDigits(NatToString(n)) == n
    decreases n
  {
    var s := NatToString(n);
    if n < 10 {
      assert s == [DigitChar(n)];
      assert DigitValue(DigitChar(n)) == n;
    } else {
      NatToStringRoundTrip(n / 10);
      var d := DigitChar(n % 10);
      assert s == NatToString(n / 10) + [d];
      assert s[..|s| - 1] == NatToString(n / 10);
      assert DigitValue(d) == n % 10;
    }
  }

  /** White space and line terminators that `String.prototype.trim` removes. */
  predicate IsJsWhitespace(c: char)
  {
    c == ' ' || c == '\t' || c == '\n' || c == '\r' || c == '\U{B}' || c == '\U{C}'
    || c == '\U{A0}' || c == '\U{1680}' || ('\U{2000}' <= c <= '\U{200A}')
    || c == '\U{2028}' || c == '\U{2029}' || c == '\U{202F}' || c == '\U{205F}'
    || c == '\U{3000}' || c == '\U{FEFF}'
  }

  /** `s.trim() === ""` */
  predicate IsBlank(s: string)
  {
    forall i :: 0 <= i < |s| ==> IsJsWhitespace(s[i])
  }

  function StripTrailingSlashes(p: string): (r: string)
    ensures |r| <= |p| && r == p[..|r|]
    ensures r == [] || r[|r| - 1] != '/'
  {
    if p != [] && p[|p| - 1] == '/' then StripTrailingSlashes(p[..|p| - 1]) else p
  }

  /** `path.basename` of a path without trailing slashes. */
  function BaseName(p: string): (b: string)
    ensures EndsWith(p, b) && '/' !in b
  {
    match LastIndexOf(p, '/')
    case None => p
    case Some(k) => p[k + 1..]
  }

  /** POSIX `path.extname`: from the last '.' of the last path segment to its
      end, or "" when that segment has no '.', has its last '.' at position 0,
      or is "..". */
  function ExtName(path: string): string
  {
    var b := BaseName(StripTrailingSlashes(path));
    if b == ".." then ""
    else
      match LastIndexOf(b, '.')
      case None => ""
      case Some(k) => if k == 0 then "" else b[k..]
  }

  /** A non-empty extension starts with its only '.', has no '/', and the
      original name ends with it whenever it has no trailing '/'. */
  lemma ExtNameShape(path: string)
    ensures var e := ExtName(path);
      e == "" || (e[0] == '.' && '.' !in e[1..] && '/' !in e)
    ensures path == [] || path[|path| - 1] != '/' ==> EndsWith(path, ExtName(path))
  {
    var p := StripTrailingSlashes(path);
    var b := BaseName(p);
    if path == [] || path[|path| - 1] != '/' {
      assert p == path;
    }
    if ExtName(path) != "" {
      var k := LastIndexOf(b, '.').value;
      assert ExtName(path) == b[k..];
      SuffixFromLastDot(b, k);
      EndsWithTransitive(p, b, b[k..]);
    }
  }

  /** The suffix of a segment from its last '.' starts with its only '.',
      has no '/' and ends the segment. */
  lemma SuffixFromLastDot(b: string, k: nat)
    requires k < |b| && b[k] == '.' && '.' !in b[k + 1..] && '/' !in b
    ensures b[k..][0] == '.' && '.' !in b[k..][1..] && '/' !in b[k..]
    ensures EndsWith(b, b[k..])
  {
    assert b[k..][1..] == b[k + 1..];
    assert forall c :: c in b[k..] ==> c in b;
  }

  lemma EndsWithTransitive(s: string, t: string, u: string)
    requires EndsWith(s, t) && EndsWith(t, u)
    ensures EndsWith(s, u)
  {
    assert s[|s| - |u|..] == s[|s| - |t|..][|t| - |u|..];
  }
}
