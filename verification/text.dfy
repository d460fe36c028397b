/** The JavaScript string operations the hood catalogue parsers rely on:
    `trim`, `\s`, `toLowerCase`/`toUpperCase` on ASCII letters, `includes`,
    `substring`, `replace` with a string pattern, and decimal digits. */
module Text {
  import opened Wrappers

  /** ECMAScript WhiteSpace and LineTerminator code points: exactly what
      `String.prototype.trim` removes and what the regular expression `\s` matches. */
  predicate IsSpace(c: char) {
    || c == ' ' || c == '\t' || c == '\n' || c == '\r'
    || c == '\U{000B}' || c == '\U{000C}' || c == '\U{00A0}' || c == '\U{FEFF}'
    || c == '\U{1680}' || ('\U{2000}' <= c <= '\U{200A}')
    || c == '\U{2028}' || c == '\U{2029}' || c == '\U{202F}' || c == '\U{205F}'
    || c == '\U{3000}'
  }

  predicate AllSpace(s: string) {
    forall i :: 0 <= i < |s| ==> IsSpace(s[i])
  }

  /** Leading white space removed. */
  function TrimStart(s: string): (r: string)
    ensures |r| <= |s| && r == s[|s| - |r|..]
    ensures r == [] || !IsSpace(r[0])
    ensures AllSpace(s[..|s| - |r|])
  {
    if s != [] && IsSpace(s[0]) then
      var r := TrimStart(s[1..]);
      assert s[1..][..|s| - 1 - |r|] == s[1..|s| - |r|];
      r
    else s
  }

  /** Trailing white space removed. */
  function TrimEnd(s: string): (r: string)
    ensures |r| <= |s| && r == s[..|r|]
    ensures r == [] || !IsSpace(r[|r| - 1])
    ensures AllSpace(s[|r|..])
  {
    if s != [] && IsSpace(s[|s| - 1]) then
      var r := TrimEnd(s[..|s| - 1]);
      assert s[..|s| - 1][|r|..] + [s[|s| - 1]] == s[|r|..];
      r
    else s
  }

  /** `String.prototype.trim`. */
  function Trim(s: string): (r: string)
    ensures |r| <= |s|
    ensures r == [] || (!IsSpace(r[0]) && !IsSpace(r[|r| - 1]))
    ensures r == [] <==> AllSpace(s)
  {
    var t := TrimStart(s);
    var r := TrimEnd(t);
    assert r == [] ==> s == s[..|s| - |t|] + t[|r|..];
    assert r != [] ==> r[0] == t[0];
    r
  }

  /** The trimmed string is a slice of the string, starting at `a`. */
  lemma TrimSlice(s: string) returns (a: nat)
    ensures a + |Trim(s)| <= |s| && Trim(s) == s[a..a + |Trim(s)|]
  {
    var t := TrimStart(s);
    var r := TrimEnd(t);
    a := |s| - |t|;
    assert t == s[a..];
    assert r == t[..|r|];
  }

  /** A string that neither starts nor ends with white space, followed by white
      space only, trims to itself. */
  lemma TrimPadded(v: string, pad: string)
    requires v == [] || (!IsSpace(v[0]) && !IsSpace(v[|v| - 1]))
    requires AllSpace(pad)
    ensures Trim(v + pad) == v
  {
    if v == [] {
      assert v + pad == pad;
    } else {
      assert (v + pad)[0] == v[0];
      assert TrimStart(v + pad) == v + pad;
      TrimEndPadded(v, pad);
    }
  }

  lemma {:induction false} TrimEndPadded(v: string, pad: string)
    requires v != [] && !IsSpace(v[|v| - 1])
    requires AllSpace(pad)
    ensures TrimEnd(v + pad) == v
    decreases |pad|
  {
    if pad == [] {
      assert v + pad == v;
    } else {
      var s := v + pad;
      assert s[|s| - 1] == pad[|pad| - 1];
      assert s[..|s| - 1] == v + pad[..|pad| - 1];
      TrimEndPadded(v, pad[..|pad| - 1]);
    }
  }

  predicate IsDigit(c: char) {
    '0' <= c <= '9'
  }

  predicate AllDigits(s: string) {
    forall i :: 0 <= i < |s| ==> IsDigit(s[i])
  }

  function DigitValue(c: char): (d: nat)
    requires IsDigit(c)
    ensures d < 10
  {
    c as int - '0' as int
  }

  function DigitChar(d: nat): (c: char)
    requires d < 10
    ensures IsDigit(c) && DigitValue(c) == d
  {
    ('0' as int + d) as char
  }

  /** The value of a string of decimal digits (`parseInt(s, 10)` on such a string). */
  function DecimalValue(ds: string): nat
    requires AllDigits(ds)
  {
    if ds == [] then 0
    else DecimalValue(ds[..|ds| - 1]) * 10 + DigitValue(ds[|ds| - 1])
  }

  /** Decimal notation of a natural number, as JavaScript prints it. */
  function NatToDecimal(n: nat): (s: string)
    ensures s != [] && AllDigits(s)
    ensures DecimalValue(s) == n
  {
    if n < 10 then [DigitChar(n)]
    else
      var s := NatToDecimal(n / 10) + [DigitChar(n % 10)];
      assert s[..|s| - 1] == NatToDecimal(n / 10);
      s
  }

  /** Decimal notation of an integer, with a leading '-' when it is negative. */
  function IntToDecimal(i: int): string {
    if i < 0 then "-" + NatToDecimal(-i) else NatToDecimal(i)
  }

  /** ASCII `toLowerCase`; other characters are left as they are. */
  function LowerChar(c: char): char {
    if 'A' <= c <= 'Z' then (c as int + 32) as char else c
  }

  /** ASCII `toUpperCase`; other characters are left as they are. */
  function UpperChar(c: char): char {
    if 'a' <= c <= 'z' then (c as int - 32) as char else c
  }

  function ToLowerAscii(s: string): (r: string)
    ensures |r| == |s| && forall i :: 0 <= i < |s| ==> r[i] == LowerChar(s[i])
  {
    seq(|s|, i requires 0 <= i < |s| => LowerChar(s[i]))
  }

  function ToUpperAscii(s: string): (r: string)
    ensures |r| == |s| && forall i :: 0 <= i < |s| ==> r[i] == UpperChar(s[i])
  {
    seq(|s|, i requires 0 <= i < |s| => UpperChar(s[i]))
  }

  lemma ToLowerAppend(a: string, b: string)
    ensures ToLowerAscii(a + b) == ToLowerAscii(a) + ToLowerAscii(b)
  {
    var l, r := ToLowerAscii(a + b), ToLowerAscii(a) + ToLowerAscii(b);
    forall i | 0 <= i < |l| ensures l[i] == r[i] {
      if i < |a| {
        assert (a + b)[i] == a[i];
      } else {
        assert (a + b)[i] == b[i - |a|];
      }
    }
  }

  lemma ToUpperAppend(a: string, b: string)
    ensures ToUpperAscii(a + b) == ToUpperAscii(a) + ToUpperAscii(b)
  {
    var l, r := ToUpperAscii(a + b), ToUpperAscii(a) + ToUpperAscii(b);
    forall i | 0 <= i < |l| ensures l[i] == r[i] {
      if i < |a| {
        assert (a + b)[i] == a[i];
      } else {
        assert (a + b)[i] == b[i - |a|];
      }
    }
  }

  /** `s` has `sub` starting at position `i`. */
  predicate OccursAt(s: string, sub: string, i: nat) {
    i + |sub| <= |s| && s[i..i + |sub|] == sub
  }

  /** `String.prototype.includes`. */
  predicate Contains(s: string, sub: string) {
    exists i: nat :: i <= |s| && OccursAt(s, sub, i)
  }

  lemma OccursInTail(s: string, sub: string, j: nat)
    requires s != [] && 1 <= j
    ensures OccursAt(s, sub, j) <==> OccursAt(s[1..], sub, j - 1)
  {
    if j + |sub| <= |s| {
      var a, b := s[j..j + |sub|], s[1..][j - 1..j - 1 + |sub|];
      forall k | 0 <= k < |sub| ensures a[k] == b[k] {}
      assert a == b;
    }
  }

  /** `String.prototype.indexOf`: the first position where `sub` occurs. */
  function IndexOf(s: string, sub: string): (r: Option<nat>)
    ensures r.Some? ==> OccursAt(s, sub, r.value)
    ensures r.Some? ==> forall j: nat :: j < r.value ==> !OccursAt(s, sub, j)
    ensures r.None? ==> forall j: nat :: !OccursAt(s, sub, j)
  {
    if OccursAt(s, sub, 0) then Some(0)
    else if s == [] then None
    else
      var t := s[1..];
      forall j: nat | 1 <= j ensures OccursAt(s, sub, j) <==> OccursAt(t, sub, j - 1) {
        OccursInTail(s, sub, j);
      }
      match IndexOf(t, sub)
      case Some(i) => Some(i + 1)
      case None => None
  }

  /** `s.replace(pattern, replacement)` with a string pattern: only the first
      occurrence is replaced (an empty pattern occurs at position 0). */
  function ReplaceFirst(s: string, pattern: string, replacement: string): string {
    match IndexOf(s, pattern)
    case Some(i) => s[..i] + replacement + s[i + |pattern|..]
    case None => s
  }

  /** `s.substring(start, end)`: both positions clamped to the length of `s`. */
  function Substring(s: string, start: nat, end: nat): (r: string)
    requires start <= end
    ensures |r| <= end - start
  {
    var b := if end <= |s| then end else |s|;
    var a := if start <= b then start else b;
    s[a..b]
  }

  /** `s.replace(/\s+/g, ' ')`: every run of white space becomes one space. */
  function CollapseSpaces(s: string): (r: string)
    ensures forall i :: 0 <= i < |r| && IsSpace(r[i]) ==> r[i] == ' '
    ensures forall i :: 0 <= i < |r| - 1 ==> !(IsSpace(r[i]) && IsSpace(r[i + 1]))
    ensures r == [] <==> s == []
    ensures r != [] ==> (IsSpace(r[0]) <==> IsSpace(s[0]))
    ensures r != [] ==> (IsSpace(r[|r| - 1]) <==> IsSpace(s[|s| - 1]))
    decreases |s|
  {
    if s == [] then []
    else if IsSpace(s[0]) then
      var rest := TrimStart(s[1..]);
      assert rest == [] ==> AllSpace(s);
      assert rest != [] ==> rest[|rest| - 1] == s[|s| - 1];
      [' '] + CollapseSpaces(rest)
    else
      assert |s| > 1 ==> s[1..][|s| - 2] == s[|s| - 1];
      [s[0]] + CollapseSpaces(s[1..])
  }
}
