// String operations the server relies on, with JavaScript's semantics:
// `startsWith`, `includes`, `split`, `join`, `trim`, `toLowerCase` (ASCII),
// decimal rendering of integers and `encodeURIComponent`.
module Text {

  /** `s.startsWith(p)` */
  predicate StartsWith(s: string, p: string) {
    |p| <= |s| && s[..|p|] == p
  }

  /** `s.endsWith(p)` */
  predicate EndsWith(s: string, p: string) {
    |p| <= |s| && s[|s| - |p|..] == p
  }

  /** `a + b` ends with `p` exactly when `b` does, for `p` no longer than `b`. */
  lemma EndsWithAppend(a: string, b: string, p: string)
    requires |p| <= |b|
    ensures EndsWith(a + b, p) <==> EndsWith(b, p)
  {
    assert (a + b)[|a + b| - |p|..] == b[|b| - |p|..];
  }

  /** A text ends with whatever was appended to it last. */
  lemma EndsWithAppended(s: string, p: string, q: string)
    ensures EndsWith(s + p + q, p + q)
  {
    assert (s + p + q)[|s|..] == p + q;
  }

  /** `s.includes(sub)`: some window of `s` equals `sub`. */
  predicate Contains(s: string, sub: string)
    decreases |s|
  {
    StartsWith(s, sub) || (|s| > 0 && Contains(s[1..], sub))
  }

  /** The window of `s` at `i` equals `sep`. */
  predicate At(s: string, i: nat, sep: string) {
    i + |sep| <= |s| && s[i..i + |sep|] == sep
  }

  lemma {:induction false} ContainsAt(s: string, sub: string)
    ensures Contains(s, sub) <==> exists i :: 0 <= i <= |s| && At(s, i, sub)
    decreases |s|
  {
    if StartsWith(s, sub) {
      assert At(s, 0, sub);
    } else if |s| > 0 {
      ContainsAt(s[1..], sub);
      if exists i :: 0 <= i <= |s| && At(s, i, sub) {
        var i :| 0 <= i <= |s| && At(s, i, sub);
        assert i != 0;
        assert s[1..][i - 1..i - 1 + |sub|] == s[i..i + |sub|];
        assert At(s[1..], i - 1, sub);
      }
      if Contains(s[1..], sub) {
        var i :| 0 <= i <= |s[1..]| && At(s[1..], i, sub);
        assert s[i + 1..i + 1 + |sub|] == s[1..][i..i + |sub|];
        assert At(s, i + 1, sub);
      }
    }
  }

  /** The first index at or after `from` where `sep` occurs, as `indexOf` finds it. */
  function Find(s: string, sep: string, from: nat): (r: int)
    requires from <= |s|
    ensures r == -1 || from <= r <= |s| - |sep|
    ensures r >= 0 ==> At(s, r, sep) && forall j :: from <= j < r ==> !At(s, j, sep)
    ensures r == -1 ==> forall j :: from <= j <= |s| ==> !At(s, j, sep)
    decreases |s| - from
  {
    if At(s, from, sep) then from
    else if from + |sep| >= |s| then -1
    else Find(s, sep, from + 1)
  }

  /** `s.split(sep)` for a non-empty separator. */
  function Split(s: string, sep: string): (r: seq<string>)
    requires |sep| > 0
    ensures |r| >= 1
    decreases |s|
  {
    var i := Find(s, sep, 0);
    if i < 0 then [s] else [s[..i]] + Split(s[i + |sep|..], sep)
  }

  /** `parts.join(sep)` */
  function Join(parts: seq<string>, sep: string): string {
    if |parts| == 0 then ""
    else if |parts| == 1 then parts[0]
    else parts[0] + sep + Join(parts[1..], sep)
  }

  /** Where `sep` first occurs, `s` is the piece before it, the separator and the rest. */
  lemma SplitStep(s: string, sep: string)
    requires |sep| > 0 && Find(s, sep, 0) >= 0
    ensures var i := Find(s, sep, 0);
      s == s[..i] + sep + s[i + |sep|..] && !Contains(s[..i], sep)
      && Split(s, sep) == [s[..i]] + Split(s[i + |sep|..], sep)
  {
    var i := Find(s, sep, 0);
    forall j | 0 <= j <= |s[..i]| ensures !At(s[..i], j, sep) {
      if At(s[..i], j, sep) {
        assert s[..i][j..j + |sep|] == s[j..j + |sep|];
        assert At(s, j, sep);
      }
    }
    NoWindowNoContains(s[..i], sep);
  }

  /** Joining the pieces of a split gives back the original string. */
  lemma {:induction false} SplitJoin(s: string, sep: string)
    requires |sep| > 0
    ensures Join(Split(s, sep), sep) == s
    decreases |s|
  {
    var i := Find(s, sep, 0);
    if i >= 0 {
      SplitStep(s, sep);
      SplitJoin(s[i + |sep|..], sep);
    }
  }

  /** No piece of a split holds the separator. */
  lemma {:induction false} SplitPieces(s: string, sep: string)
    requires |sep| > 0
    ensures forall piece :: piece in Split(s, sep) ==> !Contains(piece, sep)
    decreases |s|
  {
    var i := Find(s, sep, 0);
    if i < 0 {
      NoWindowNoContains(s, sep);
    } else {
      SplitStep(s, sep);
      SplitPieces(s[i + |sep|..], sep);
    }
  }

  lemma NoWindowNoContains(s: string, sep: string)
    requires forall j :: 0 <= j <= |s| ==> !At(s, j, sep)
    ensures !Contains(s, sep)
  {
    ContainsAt(s, sep);
  }

  /** Nothing contains a longer string. */
  lemma {:induction false} ShorterNotContains(s: string, sub: string)
    requires |s| < |sub|
    ensures !Contains(s, sub)
    decreases |s|
  {
    if |s| > 0 {
      ShorterNotContains(s[1..], sub);
    }
  }

  /** Between strings of one length, containment is equality. */
  lemma ContainsSameLength(s: string, sub: string)
    requires |s| == |sub|
    ensures Contains(s, sub) <==> s == sub
  {
    if |s| > 0 {
      ShorterNotContains(s[1..], sub);
    }
  }

  /** A string contains each of its middle parts. */
  lemma ContainsMiddle(a: string, b: string, c: string)
    ensures Contains(a + b + c, b)
  {
    assert (a + b + c)[|a|..|a| + |b|] == b;
    assert At(a + b + c, |a|, b);
    ContainsAt(a + b + c, b);
  }

  /** A one-character string is contained exactly where the character occurs. */
  lemma ContainsChar(s: string, c: char)
    ensures Contains(s, [c]) <==> c in s
  {
    ContainsAt(s, [c]);
    if c in s {
      var j :| 0 <= j < |s| && s[j] == c;
      assert s[j..j + 1] == [c];
      assert At(s, j, [c]);
    }
    if Contains(s, [c]) {
      var j :| 0 <= j <= |s| && At(s, j, [c]);
      assert s[j..j + 1][0] == s[j];
    }
  }

  /** A string without `c` splits on `c` into itself alone. */
  lemma SplitAbsent(s: string, c: char)
    requires c !in s
    ensures Split(s, [c]) == [s]
  {
    forall j | 0 <= j <= |s| ensures !At(s, j, [c]) {
      if j < |s| { assert s[j..j + 1] == [s[j]]; }
    }
  }

  /** Splitting on a one-character separator cuts at its first occurrence. */
  lemma SplitFirst(x: string, c: char, y: string)
    requires c !in x
    ensures Split(x + [c] + y, [c]) == [x] + Split(y, [c])
  {
    var s := x + [c] + y;
    forall j | 0 <= j < |x| ensures !At(s, j, [c]) {
      assert s[j..j + 1][0] == x[j];
    }
    assert At(s, |x|, [c]);
    assert Find(s, [c], 0) == |x|;
    assert s[..|x|] == x;
    assert s[|x| + 1..] == y;
  }

  // ----- case and whitespace -----

  function LowerChar(c: char): char {
    if 'A' <= c <= 'Z' then (c as int + 32) as char else c
  }

  /** `s.toLowerCase()` restricted to ASCII letters. */
  function Lower(s: string): (r: string)
    ensures |r| == |s|
    ensures forall i :: 0 <= i < |s| ==> r[i] == LowerChar(s[i])
  {
    seq(|s|, i requires 0 <= i < |s| => LowerChar(s[i]))
  }

  /** Lowercasing works piece by piece. */
  lemma LowerConcat(a: string, b: string)
    ensures Lower(a + b) == Lower(a) + Lower(b)
  {
  }

  lemma LowerIdempotent(s: string)
    ensures Lower(Lower(s)) == Lower(s)
    ensures forall i :: 0 <= i < |s| ==> !('A' <= Lower(s)[i] <= 'Z')
  {
  }

  /** The characters JavaScript's `trim` removes: WhiteSpace and LineTerminator. */
  predicate IsSpace(c: char) {
    c == ' ' || c == '\t' || c == '\n' || c == '\r' || c == '\U{B}' || c == '\U{C}'
    || c == '\U{A0}' || c == '\U{1680}' || ('\U{2000}' <= c <= '\U{200A}')
    || c == '\U{2028}' || c == '\U{2029}' || c == '\U{202F}' || c == '\U{205F}'
    || c == '\U{3000}' || c == '\U{FEFF}'
  }

  function TrimStart(s: string): (r: string)
    ensures |r| <= |s| && r == s[|s| - |r|..]
    ensures |r| > 0 ==> !IsSpace(r[0])
    ensures forall i :: 0 <= i < |s| - |r| ==> IsSpace(s[i])
  {
    if |s| > 0 && IsSpace(s[0]) then TrimStart(s[1..]) else s
  }

  function TrimEnd(s: string): (r: string)
    ensures |r| <= |s| && r == s[..|r|]
    ensures |r| > 0 ==> !IsSpace(r[|r| - 1])
    ensures forall i :: |r| <= i < |s| ==> IsSpace(s[i])
  {
    if |s| > 0 && IsSpace(s[|s| - 1]) then TrimEnd(s[..|s| - 1]) else s
  }

  /** `s.trim()` */
  function Trim(s: string): string {
    TrimEnd(TrimStart(s))
  }

  /** Text with no whitespace at either end is its own trim. */
  lemma TrimClean(s: string)
    requires |s| > 0 && !IsSpace(s[0]) && !IsSpace(s[|s| - 1])
    ensures Trim(s) == s
  {
    assert TrimStart(s) == s;
  }

  /** A trailing space is trimmed away. */
  lemma TrimEndSpace(s: string)
    ensures TrimEnd(s + " ") == TrimEnd(s)
  {
    assert (s + " ")[..|s|] == s;
  }

  /** A word followed by two spaces trims to the word. */
  lemma TrimPadded(w: string)
    requires |w| > 0 && !IsSpace(w[0]) && !IsSpace(w[|w| - 1])
    ensures Trim(w + " " + " ") == w
  {
    var s := w + " " + " ";
    assert s[0] == w[0];
    assert TrimStart(s) == s;
    TrimEndSpace(w + " ");
    TrimEndSpace(w);
  }

  /** Where `trim` cuts: the whitespace before `a` and from `b` on. */
  lemma TrimBounds(s: string) returns (a: nat, b: nat)
    ensures a <= b <= |s| && Trim(s) == s[a..b]
    ensures forall i :: 0 <= i < a ==> IsSpace(s[i])
    ensures forall i :: b <= i < |s| ==> IsSpace(s[i])
  {
    var t := TrimStart(s);
    var u := TrimEnd(t);
    a := |s| - |t|;
    b := a + |u|;
    assert t == s[a..];
    assert u == t[..|u|];
    forall i | b <= i < |s| ensures IsSpace(s[i]) {
      assert |u| <= i - a < |t| && s[i] == t[i - a];
    }
  }

  /** Trimming removes only surrounding whitespace and leaves none at either end. */
  lemma TrimSpec(s: string)
    ensures exists a, b :: 0 <= a <= b <= |s| && Trim(s) == s[a..b]
                           && (forall i :: 0 <= i < a ==> IsSpace(s[i]))
                           && (forall i :: b <= i < |s| ==> IsSpace(s[i]))
    ensures |Trim(s)| > 0 ==> !IsSpace(Trim(s)[0]) && !IsSpace(Trim(s)[|Trim(s)| - 1])
  {
    var a, b := TrimBounds(s);
    if |Trim(s)| > 0 {
      assert Trim(s)[0] == TrimStart(s)[0];
    }
  }

  // ----- numbers -----

  function DigitChar(d: nat): char
    requires d < 10
  {
    (48 + d) as char
  }

  /** Decimal rendering of a natural number, as `String(n)` gives it. */
  function NatToString(n: nat): (r: string)
    ensures |r| >= 1
    ensures forall i :: 0 <= i < |r| ==> '0' <= r[i] <= '9'
    ensures n > 0 ==> r[0] != '0'
  {
    if n < 10 then [DigitChar(n)] else NatToString(n / 10) + [DigitChar(n % 10)]
  }

  /** Decimal rendering of an integer, with a leading '-' when it is negative. */
  function IntToString(i: int): string {
    if i < 0 then "-" + NatToString(-i) else NatToString(i)
  }

  function DigitsValue(s: string): int
    requires forall i :: 0 <= i < |s| ==> '0' <= s[i] <= '9'
  {
    if |s| == 0 then 0 else DigitsValue(s[..|s| - 1]) * 10 + (s[|s| - 1] as int - '0' as int)
  }

  /** Reading the digits back gives the number: the rendering loses nothing. */
  lemma {:induction false} NatToStringValue(n: nat)
    ensures DigitsValue(NatToString(n)) == n
  {
    if n >= 10 {
      NatToStringValue(n / 10);
      var r := NatToString(n);
      assert r == NatToString(n / 10) + [DigitChar(n % 10)];
      assert r[..|r| - 1] == NatToString(n / 10);
      assert r[|r| - 1] as int - '0' as int == n % 10;
    }
  }

  lemma NatToStringInjective(m: nat, n: nat)
    requires NatToString(m) == NatToString(n)
    ensures m == n
  {
    NatToStringValue(m);
    NatToStringValue(n);
  }

  // ----- encodeURIComponent -----

  /** The characters `encodeURIComponent` leaves as they are. */
  predicate Unreserved(c: char) {
    ('A' <= c <= 'Z') || ('a' <= c <= 'z') || ('0' <= c <= '9')
    || c == '-' || c == '_' || c == '.' || c == '!' || c == '~' || c == '*'
    || c == '\'' || c == '(' || c == ')'
  }

  function HexDigit(d: nat): char
    requires d < 16
  {
    "0123456789ABCDEF"[d]
  }

  function PercentByte(b: nat): string
    requires b < 256
  {
    ['%', HexDigit(b / 16), HexDigit(b % 16)]
  }

  /** The UTF-8 bytes of a Unicode scalar value. */
  function Utf8(c: char): (r: seq<nat>)
    ensures 1 <= |r| <= 4 && forall i :: 0 <= i < |r| ==> r[i] < 256
  {
    var v := c as int;
    if v < 0x80 then [v]
    else if v < 0x800 then [0xC0 + v / 0x40, 0x80 + v % 0x40]
    else if v < 0x10000 then [0xE0 + v / 0x1000, 0x80 + (v / 0x40) % 0x40, 0x80 + v % 0x40]
    else [0xF0 + v / 0x40000, 0x80 + (v / 0x1000) % 0x40, 0x80 + (v / 0x40) % 0x40, 0x80 + v % 0x40]
  }

  function PercentBytes(bs: seq<nat>): string
    requires forall i :: 0 <= i < |bs| ==> bs[i] < 256
  {
    if |bs| == 0 then "" else PercentByte(bs[0]) + PercentBytes(bs[1..])
  }

  function EncodeChar(c: char): string {
    if Unreserved(c) then [c] else PercentBytes(Utf8(c))
  }

  /** `encodeURIComponent(s)`. */
  function EncodeURIComponent(s: string): string {
    if |s| == 0 then "" else EncodeChar(s[0]) + EncodeURIComponent(s[1..])
  }

  /** A character that may appear in an encoded component. */
  predicate Encoded(c: char) {
    Unreserved(c) || c == '%' || ('A' <= c <= 'F')
  }

  lemma PercentBytesEncoded(bs: seq<nat>)
    requires forall i :: 0 <= i < |bs| ==> bs[i] < 256
    ensures forall i :: 0 <= i < |PercentBytes(bs)| ==> Encoded(PercentBytes(bs)[i])
  {
    if |bs| > 0 {
      PercentBytesEncoded(bs[1..]);
    }
  }

  /** An encoded component holds only unreserved characters and percent escapes,
      so it never introduces a '/', '?', '#' or '&' into the path it is placed in. */
  lemma {:induction false} EncodeOnlyEncoded(s: string)
    ensures forall i :: 0 <= i < |EncodeURIComponent(s)| ==> Encoded(EncodeURIComponent(s)[i])
  {
    if |s| > 0 {
      EncodeOnlyEncoded(s[1..]);
      if !Unreserved(s[0]) { PercentBytesEncoded(Utf8(s[0])); }
      var head, tail := EncodeChar(s[0]), EncodeURIComponent(s[1..]);
      assert EncodeURIComponent(s) == head + tail;
      forall i | 0 <= i < |head + tail| ensures Encoded((head + tail)[i]) {
        if i >= |head| { assert (head + tail)[i] == tail[i - |head|]; }
      }
    }
  }

  /** A character outside the encoded alphabet never occurs in an encoded component. */
  lemma EncodeExcludes(s: string, c: char)
    requires !Encoded(c)
    ensures c !in EncodeURIComponent(s)
  {
    EncodeOnlyEncoded(s);
  }

  /** A component made of unreserved characters is left unchanged. */
  lemma {:induction false} EncodeUnreserved(s: string)
    requires forall i :: 0 <= i < |s| ==> Unreserved(s[i])
    ensures EncodeURIComponent(s) == s
  {
    if |s| > 0 {
      EncodeUnreserved(s[1..]);
      assert s == [s[0]] + s[1..];
    }
  }
}
