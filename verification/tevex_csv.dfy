/** Reading the vendor's hood table: a fixed-width text export, one hood per
    line, with numbers written in Spanish notation ("1,5", "1200 mm"). */
module TevexCsv {
  import opened Wrappers
  import opened Text
  import HoodCalc

  // ---------------------------------------------------------------------------
  // Numbers: `parseNumberLike`
  // ---------------------------------------------------------------------------

  /** The characters `/[^0-9.,]/g` keeps. */
  predicate IsNumberChar(c: char) {
    IsDigit(c) || c == '.' || c == ','
  }

  /** `s.replace(/[^0-9.,]/g, '')`. */
  function KeepNumberChars(s: string): (r: string)
    ensures |r| <= |s|
    ensures forall i :: 0 <= i < |r| ==> IsNumberChar(r[i])
    ensures forall i :: 0 <= i < |r| ==> r[i] in s
  {
    if s == [] then []
    else (if IsNumberChar(s[0]) then [s[0]] else []) + KeepNumberChars(s[1..])
  }

  /** The longest prefix of `s` made of decimal digits. */
  function LeadingDigits(s: string): (ds: string)
    ensures |ds| <= |s| && ds == s[..|ds|] && AllDigits(ds)
    ensures |ds| < |s| ==> !IsDigit(s[|ds|])
  {
    if s != [] && IsDigit(s[0]) then [s[0]] + LeadingDigits(s[1..]) else []
  }

  function Pow10(n: nat): (p: nat)
    ensures p >= 1
  {
    if n == 0 then 1 else 10 * Pow10(n - 1)
  }

  /** The value of the literal `ip.fp`. */
  function DecimalReal(ip: string, fp: string): (x: real)
    requires AllDigits(ip) && AllDigits(fp)
    ensures DecimalValue(ip) as real <= x < DecimalValue(ip) as real + 1.0
  {
    DecimalBound(fp);
    var frac := Fraction(DecimalValue(fp), Pow10(|fp|));
    DecimalValue(ip) as real + frac
  }

  /** `num / den` for `num < den`: a fraction in [0, 1). */
  function Fraction(num: nat, den: nat): (q: real)
    requires num < den
    ensures 0.0 <= q < 1.0
  {
    var q := num as real / den as real;
    assert q * den as real == num as real;
    q
  }

  /** `parseFloat` on a string that holds no white space, sign or exponent: the
      longest leading `digits[.digits]` literal, which needs a digit on one side
      of the point; `None` stands for NaN. */
  function ParseFloat(s: string): (r: Option<real>)
    ensures r.Some? <==> (s != [] && IsDigit(s[0])) || (|s| >= 2 && s[0] == '.' && IsDigit(s[1]))
    ensures r.Some? ==> r.value >= 0.0
  {
    var ip := LeadingDigits(s);
    var rest := s[|ip|..];
    if rest != [] && rest[0] == '.' then
      var fp := LeadingDigits(rest[1..]);
      if ip == [] && fp == [] then None
      else Some(DecimalReal(ip, fp))
    else if ip == [] then None
    else Some(DecimalValue(ip) as real)
  }

  /** `parseNumberLike`: strip everything but digits, points and commas, read the
      first comma as the decimal point, and parse the leading number. */
  function ParseNumberLike(value: Option<string>): (r: Option<real>)
    ensures r.Some? ==> value.Some? && r.value >= 0.0
    ensures r.Some? ==> exists i :: 0 <= i < |value.value| && IsDigit(value.value[i])
  {
    match value
    case None => None
    case Some(v) =>
      var kept := KeepNumberChars(v);
      var s := ReplaceFirst(kept, ",", ".");
      var r := ParseFloat(s);
      if r.Some? then
        ReplaceKeepsDigits(kept, ",", ".");
        assert IsDigit(s[0]) || IsDigit(s[1]);
        var k :| 0 <= k < |kept| && IsDigit(kept[k]);
        assert kept[k] in v;
        r
      else r
  }

  /** Replacing a comma by a point leaves a digit wherever `s` has one. */
  lemma ReplaceKeepsDigits(s: string, pattern: string, replacement: string)
    requires |pattern| == |replacement| == 1 && !IsDigit(pattern[0]) && !IsDigit(replacement[0])
    ensures var t := ReplaceFirst(s, pattern, replacement);
            |t| == |s| && forall i :: 0 <= i < |t| ==> (IsDigit(t[i]) <==> IsDigit(s[i]))
  {
    match IndexOf(s, pattern)
    case Some(i) =>
      var t := s[..i] + replacement + s[i + 1..];
      assert s[i..i + 1] == pattern;
      forall k | 0 <= k < |t| ensures IsDigit(t[k]) <==> IsDigit(s[k]) {
        if k < i {
          assert t[k] == s[k];
        } else if k == i {
          assert t[k] == replacement[0] && s[k] == pattern[0];
        } else {
          assert t[k] == s[k];
        }
      }
    case None =>
  }

  /** The character filter distributes over concatenation. */
  lemma {:induction false} KeepNumberCharsAppend(a: string, b: string)
    ensures KeepNumberChars(a + b) == KeepNumberChars(a) + KeepNumberChars(b)
  {
    if a == [] {
      assert a + b == b;
    } else {
      assert (a + b)[1..] == a[1..] + b;
      KeepNumberCharsAppend(a[1..], b);
    }
  }

  /** Filtering twice is filtering once. */
  lemma {:induction false} KeepNumberCharsIdempotent(s: string)
    ensures KeepNumberChars(KeepNumberChars(s)) == KeepNumberChars(s)
  {
    if s != [] {
      KeepNumberCharsIdempotent(s[1..]);
      var head := if IsNumberChar(s[0]) then [s[0]] else [];
      KeepNumberCharsAppend(head, KeepNumberChars(s[1..]));
      assert KeepNumberChars(head) == head by {
        if head != [] {
          assert head[1..] == [];
        }
      }
    }
  }

  /** A filter keeps a string made only of the characters it keeps. */
  lemma {:induction false} KeepNumberCharsKeepsDigits(ds: string)
    requires AllDigits(ds)
    ensures KeepNumberChars(ds) == ds
  {
    if ds != [] {
      KeepNumberCharsKeepsDigits(ds[1..]);
    }
  }

  /** A filter drops a string with none of the characters it keeps. */
  lemma {:induction false} KeepNumberCharsDropsText(s: string)
    requires forall i :: 0 <= i < |s| ==> !IsNumberChar(s[i])
    ensures KeepNumberChars(s) == []
  {
    if s != [] {
      KeepNumberCharsDropsText(s[1..]);
    }
  }

  lemma {:induction false} LeadingDigitsOfDigits(ds: string)
    requires AllDigits(ds)
    ensures LeadingDigits(ds) == ds
  {
    if ds != [] {
      LeadingDigitsOfDigits(ds[1..]);
    }
  }

  /** A whole number written with text around it ("1200 mm", "Ø 315") reads back
      as that number, whatever the text, as long as the text holds no digit,
      point or comma. */
  lemma NumberAmidText(prefix: string, n: nat, suffix: string)
    requires forall i :: 0 <= i < |prefix| ==> !IsNumberChar(prefix[i])
    requires forall i :: 0 <= i < |suffix| ==> !IsNumberChar(suffix[i])
    ensures ParseNumberLike(Some(prefix + NatToDecimal(n) + suffix)) == Some(n as real)
  {
    var ds := NatToDecimal(n);
    KeepOnlyNumber(prefix, ds, suffix);
    NoCommaToReplace(ds);
    ParseWhole(ds);
  }

  lemma KeepOnlyNumber(prefix: string, ds: string, suffix: string)
    requires forall i :: 0 <= i < |prefix| ==> !IsNumberChar(prefix[i])
    requires forall i :: 0 <= i < |suffix| ==> !IsNumberChar(suffix[i])
    requires AllDigits(ds)
    ensures KeepNumberChars(prefix + ds + suffix) == ds
  {
    KeepNumberCharsAppend(prefix + ds, suffix);
    KeepNumberCharsAppend(prefix, ds);
    KeepNumberCharsDropsText(prefix);
    KeepNumberCharsDropsText(suffix);
    KeepNumberCharsKeepsDigits(ds);
  }

  lemma NoCommaToReplace(ds: string)
    requires AllDigits(ds)
    ensures ReplaceFirst(ds, ",", ".") == ds
  {
    forall j: nat ensures !OccursAt(ds, ",", j) {
      if j < |ds| {
        assert IsDigit(ds[j]);
      }
    }
  }

  lemma ParseWhole(ds: string)
    requires ds != [] && AllDigits(ds)
    ensures ParseFloat(ds) == Some(DecimalValue(ds) as real)
  {
    LeadingDigitsOfDigits(ds);
    assert ds[|ds|..] == [];
  }

  /** A number in Spanish notation, whole part and decimals separated by a
      comma, reads back as its value. */
  lemma DecimalCommaRead(ip: string, fp: string)
    requires ip != [] && AllDigits(ip) && AllDigits(fp)
    ensures ParseNumberLike(Some(ip + "," + fp)) == Some(DecimalReal(ip, fp))
  {
    var s := ip + "," + fp;
    KeepDecimalComma(ip, fp);
    CommaBecomesPoint(ip, fp);
    ParsePointed(ip, fp);
  }

  lemma KeepDecimalComma(ip: string, fp: string)
    requires AllDigits(ip) && AllDigits(fp)
    ensures KeepNumberChars(ip + "," + fp) == ip + "," + fp
  {
    KeepNumberCharsAppend(ip + ",", fp);
    KeepNumberCharsAppend(ip, ",");
    KeepNumberCharsKeepsDigits(ip);
    KeepNumberCharsKeepsDigits(fp);
    assert KeepNumberChars(",") == "," by {
      assert ","[1..] == [];
    }
  }

  lemma CommaBecomesPoint(ip: string, fp: string)
    requires AllDigits(ip)
    ensures ReplaceFirst(ip + "," + fp, ",", ".") == ip + "." + fp
  {
    var s := ip + "," + fp;
    assert OccursAt(s, ",", |ip|);
    forall j: nat | j < |ip| ensures !OccursAt(s, ",", j) {
      assert s[j] == ip[j];
    }
    assert IndexOf(s, ",") == Some(|ip|);
    assert s[..|ip|] == ip && s[|ip| + 1..] == fp;
  }

  lemma ParsePointed(ip: string, fp: string)
    requires ip != [] && AllDigits(ip) && AllDigits(fp)
    ensures ParseFloat(ip + "." + fp) == Some(DecimalReal(ip, fp))
  {
    var t := ip + "." + fp;
    assert t == ip + ("." + fp);
    LeadingDigitsAppend(ip, "." + fp);
    assert t[|ip|..] == "." + fp;
    assert ("." + fp)[1..] == fp;
    LeadingDigitsOfDigits(fp);
  }

  /** Digits followed by a non-digit: the leading digits are exactly those. */
  lemma {:induction false} LeadingDigitsAppend(ds: string, rest: string)
    requires AllDigits(ds) && (rest == [] || !IsDigit(rest[0]))
    ensures LeadingDigits(ds + rest) == ds
  {
    if ds == [] {
      assert ds + rest == rest;
    } else {
      assert (ds + rest)[1..] == ds[1..] + rest;
      LeadingDigitsAppend(ds[1..], rest);
    }
  }

  /** `parseFloat` reads the longest literal and stops at the first character
      that cannot continue it: "1.5 mm" and "1.234.5" read as 1.5 and 1.234. */
  lemma ParseFloatLongestPrefix(ip: string, fp: string, rest: string)
    requires ip != [] && AllDigits(ip) && AllDigits(fp)
    requires rest == [] || !IsDigit(rest[0])
    ensures ParseFloat(ip + "." + fp + rest) == Some(DecimalReal(ip, fp))
  {
    var tail := "." + fp + rest;
    AppendAssoc(ip, ".", fp);
    AppendAssoc(ip, "." + fp, rest);
    LeadingDigitsAppend(ip, tail);
    assert (ip + tail)[|ip|..] == tail;
    AppendAssoc(".", fp, rest);
    assert tail[1..] == fp + rest;
    LeadingDigitsAppend(fp, rest);
  }

  /** A whole number followed by neither a digit nor a point reads as that number. */
  lemma ParseFloatWholePrefix(ip: string, rest: string)
    requires ip != [] && AllDigits(ip)
    requires rest == [] || (!IsDigit(rest[0]) && rest[0] != '.')
    ensures ParseFloat(ip + rest) == Some(DecimalValue(ip) as real)
  {
    LeadingDigitsAppend(ip, rest);
    assert (ip + rest)[|ip|..] == rest;
  }

  /** A point written before a decimal comma ("1.234,5") is read as the decimal
      point: only the first comma becomes a point, and `parseFloat` stops at the
      second point, so the value is 1.234. */
  lemma ThousandsPointRead(ip: string, fp: string, fp2: string)
    requires ip != [] && AllDigits(ip) && AllDigits(fp) && AllDigits(fp2)
    ensures ParseNumberLike(Some(ip + "." + fp + "," + fp2)) == Some(DecimalReal(ip, fp))
  {
    var s := ip + "." + fp + "," + fp2;
    var head := ip + "." + fp;
    var replaced := head + "." + fp2;
    ThousandsFiltered(ip, fp, fp2);
    AppendAssoc(head, ".", fp2);
    ParseFloatLongestPrefix(ip, fp, "." + fp2);
    assert ParseNumberLike(Some(s)) == ParseFloat(replaced);
  }

  /** Filtering "ip.fp,fp2" and turning its comma into a point gives "ip.fp.fp2". */
  lemma ThousandsFiltered(ip: string, fp: string, fp2: string)
    requires AllDigits(ip) && AllDigits(fp) && AllDigits(fp2)
    ensures ReplaceFirst(KeepNumberChars(ip + "." + fp + "," + fp2), ",", ".") == ip + "." + fp + "." + fp2
  {
    KeepPointedComma(ip, fp, fp2);
    NoCommaInPointed(ip, fp);
    FirstCommaBecomesPoint(ip + "." + fp, fp2);
  }

  lemma AppendAssoc(a: string, b: string, c: string)
    ensures a + b + c == a + (b + c)
  {
  }

  /** The number filter keeps "ip.fp,fp2" whole. */
  lemma KeepPointedComma(ip: string, fp: string, fp2: string)
    requires AllDigits(ip) && AllDigits(fp) && AllDigits(fp2)
    ensures KeepNumberChars(ip + "." + fp + "," + fp2) == ip + "." + fp + "," + fp2
  {
    var a := ip + ".";
    var b := a + fp;
    var c := b + ",";
    KeepNumberCharsKeepsDigits(ip);
    KeepNumberCharsKeepsDigits(fp);
    KeepNumberCharsKeepsDigits(fp2);
    assert KeepNumberChars(".") == "." by { assert "."[1..] == []; }
    assert KeepNumberChars(",") == "," by { assert ","[1..] == []; }
    KeepNumberCharsAppend(ip, ".");
    KeepNumberCharsAppend(a, fp);
    KeepNumberCharsAppend(b, ",");
    KeepNumberCharsAppend(c, fp2);
  }

  /** "ip.fp" holds no comma. */
  lemma NoCommaInPointed(ip: string, fp: string)
    requires AllDigits(ip) && AllDigits(fp)
    ensures forall j :: 0 <= j < |ip + "." + fp| ==> (ip + "." + fp)[j] != ','
  {
    var head := ip + "." + fp;
    forall j | 0 <= j < |head| ensures head[j] != ',' {
      if j < |ip| {
        assert head[j] == ip[j];
      } else if j > |ip| {
        assert head[j] == fp[j - |ip| - 1];
      }
    }
  }

  /** `replace(",", ".")` turns the first comma into a point. */
  lemma FirstCommaBecomesPoint(head: string, tail: string)
    requires forall j :: 0 <= j < |head| ==> head[j] != ','
    ensures ReplaceFirst(head + "," + tail, ",", ".") == head + "." + tail
  {
    var s := head + "," + tail;
    var k := |head|;
    assert OccursAt(s, ",", k);
    forall j: nat | j < k ensures !OccursAt(s, ",", j) {
      assert s[j] == head[j];
    }
    assert IndexOf(s, ",") == Some(k);
    assert s[..k] == head && s[k + 1..] == tail;
  }

  /** The filter keeps a string made only of the characters it keeps. */
  lemma {:induction false} KeepNumberCharsUntouched(s: string)
    requires forall i :: 0 <= i < |s| ==> IsNumberChar(s[i])
    ensures KeepNumberChars(s) == s
  {
    if s != [] {
      KeepNumberCharsUntouched(s[1..]);
    }
  }

  // ---------------------------------------------------------------------------
  // Depth and reference: `extractFondoYReferencia`
  // ---------------------------------------------------------------------------

  /** What a depth cell yields: the depth in mm and the text around it. */
  datatype FondoRef = FondoRef(fondoMm: Option<nat>, referencia: Option<string>)

  /** Two digits start at position `j`. */
  predicate TwoDigitsAt(s: string, j: nat) {
    j + 1 < |s| && IsDigit(s[j]) && IsDigit(s[j + 1])
  }

  /** The length of the run of digits at `i`, counting at most `cap` of them. */
  function DigitRun(s: string, i: nat, cap: nat): (n: nat)
    ensures i + n <= |s| || n == 0
    ensures n <= cap
    ensures forall k :: i <= k < i + n ==> IsDigit(s[k])
    ensures n < cap && i + n < |s| ==> !IsDigit(s[i + n])
    decreases cap
  {
    if cap == 0 || i >= |s| || !IsDigit(s[i]) then 0
    else 1 + DigitRun(s, i + 1, cap - 1)
  }

  /** The match of `/(\d{2,4})/` at or after `from`: the leftmost position where
      two digits start, and as many digits there as possible, up to four. */
  function FirstDepthMatch(s: string, from: nat): (m: Option<(nat, nat)>)
    ensures m.Some? ==> var (i, n) := m.value;
              && from <= i && 2 <= n <= 4 && i + n <= |s|
              && AllDigits(s[i..i + n])
              && (n < 4 && i + n < |s| ==> !IsDigit(s[i + n]))
              && forall j: nat :: from <= j < i ==> !TwoDigitsAt(s, j)
    ensures m.None? ==> forall j: nat :: from <= j ==> !TwoDigitsAt(s, j)
    decreases |s| - from
  {
    if from + 1 >= |s| then None
    else if TwoDigitsAt(s, from) then
      var n := DigitRun(s, from, 4);
      assert n >= 2 by {
        assert DigitRun(s, from + 1, 3) >= 1;
      }
      Some((from, n))
    else FirstDepthMatch(s, from + 1)
  }

  /** The separators `/[:\-–•]/g` removes. */
  predicate IsSeparator(c: char) {
    c == ':' || c == '-' || c == '–' || c == '•'
  }

  /** `s.replace(/[:\-–•]/g, '')`. */
  function RemoveSeparators(s: string): (r: string)
    ensures |r| <= |s|
    ensures forall i :: 0 <= i < |r| ==> !IsSeparator(r[i])
    ensures (forall i :: 0 <= i < |s| ==> !IsSeparator(s[i])) ==> r == s
  {
    if s == [] then []
    else (if IsSeparator(s[0]) then [] else [s[0]]) + RemoveSeparators(s[1..])
  }

  /** The text `/(\d{2,4})/` matches in `s`, or "" when there is no match. */
  function DepthMatch(s: string): (m: string)
    ensures m == [] || (2 <= |m| <= 4 && AllDigits(m))
    ensures m == [] <==> forall j: nat :: !TwoDigitsAt(s, j)
    ensures FirstDepthMatch(s, 0).Some? ==>
              var (i, n) := FirstDepthMatch(s, 0).value; m == s[i..i + n]
  {
    var fm := FirstDepthMatch(s, 0);
    if fm.Some? then
      var (i, n) := fm.value;
      assert s[i..i + n][0] == s[i] && s[i..i + n][1] == s[i + 1];
      assert TwoDigitsAt(s, i);
      s[i..i + n]
    else ""
  }

  /** `extractFondoYReferencia`. */
  function ExtractFondoYReferencia(raw: Option<string>): (fr: FondoRef)
    ensures raw.None? || AllSpace(raw.value) ==> fr == FondoRef(None, None)
    ensures fr.fondoMm.Some? ==> fr.fondoMm.value < 10000
    ensures fr.referencia.Some? ==> var ref := fr.referencia.value;
              && ref != [] && !IsSpace(ref[0]) && !IsSpace(ref[|ref| - 1])
              && forall i :: 0 <= i < |ref| ==> !IsSeparator(ref[i])
    ensures raw.Some? && Trim(raw.value) != [] ==>
              var s := Trim(raw.value);
              && (fr.fondoMm.Some? <==> DepthMatch(s) != [])
              && (fr.fondoMm.Some? ==> fr.fondoMm.value == DecimalValue(DepthMatch(s)))
              && fr.referencia == Referencia(Cut(s))
  {
    match raw
    case None => FondoRef(None, None)
    case Some(v) =>
      var s := Trim(v);
      if s == [] then FondoRef(None, None)
      else
        var matched := DepthMatch(s);
        var fondoMm := if matched != [] then DepthBelow10000(matched); Some(DecimalValue(matched)) else None;
        CutMatch(s);
        FondoRef(fondoMm, Referencia(ReplaceFirst(s, matched, "")))
  }

  /** The cell without the digits the depth was read from (the whole cell when
      there are none). */
  function Cut(s: string): (r: string)
    ensures |r| == |s| - |DepthMatch(s)|
  {
    var fm := FirstDepthMatch(s, 0);
    if fm.Some? then s[..fm.value.0] + s[fm.value.0 + fm.value.1..] else s
  }

  /** `replace(m, '')` with the matched digits cuts out exactly the match: no
      earlier position holds them. With no match the pattern is "", which
      `replace` finds at position 0 and so changes nothing. */
  lemma CutMatch(s: string)
    ensures ReplaceFirst(s, DepthMatch(s), "") == Cut(s)
  {
    var fm := FirstDepthMatch(s, 0);
    if fm.Some? {
      var (i, n) := fm.value;
      assert DepthMatch(s) == s[i..i + n];
      MatchIsFirstOccurrence(s);
    } else {
      assert DepthMatch(s) == "";
      ReplaceEmpty(s);
    }
  }

  /** An empty pattern is found at position 0, so replacing it by "" changes nothing. */
  lemma ReplaceEmpty(s: string)
    ensures ReplaceFirst(s, "", "") == s
  {
    assert OccursAt(s, "", 0);
    assert s[..0] + "" + s[0..] == s;
  }

  /** What is left of the cell once the depth is cut out: separators removed and
      trimmed, `None` when nothing is left. */
  function Referencia(rest: string): (ref: Option<string>)
    ensures ref.Some? ==> var r := ref.value;
              && r != [] && !IsSpace(r[0]) && !IsSpace(r[|r| - 1])
              && forall i :: 0 <= i < |r| ==> !IsSeparator(r[i])
  {
    var cleaned := RemoveSeparators(rest);
    var r := Trim(cleaned);
    TrimKeepsNoSeparator(cleaned);
    if r == [] then None else Some(r)
  }

  /** Trimming a text without separators leaves none. */
  lemma TrimKeepsNoSeparator(s: string)
    requires forall i :: 0 <= i < |s| ==> !IsSeparator(s[i])
    ensures forall i :: 0 <= i < |Trim(s)| ==> !IsSeparator(Trim(s)[i])
  {
    var r := Trim(s);
    var a := TrimSlice(s);
    forall i | 0 <= i < |r| ensures !IsSeparator(r[i]) {
      assert r[i] == s[a + i];
    }
  }

  /** A string of `k` digits is below 10^k. */
  lemma {:induction false} DecimalBound(ds: string)
    requires AllDigits(ds)
    ensures DecimalValue(ds) < Pow10(|ds|)
  {
    if ds != [] {
      DecimalBound(ds[..|ds| - 1]);
    }
  }

  /** At most four digits stay below 10000. */
  lemma DepthBelow10000(ds: string)
    requires AllDigits(ds) && |ds| <= 4
    ensures DecimalValue(ds) < 10000
  {
    DecimalBound(ds);
    var p := Pow10(|ds|);
    assert p <= 10000 by {
      assert Pow10(0) == 1 && Pow10(1) == 10 && Pow10(2) == 100;
      assert Pow10(3) == 1000 && Pow10(4) == 10000;
    }
  }

  /** A depth is found exactly when two digits stand side by side. */
  lemma DepthFoundIffTwoDigits(raw: string)
    ensures ExtractFondoYReferencia(Some(raw)).fondoMm.Some?
            <==> exists j: nat :: TwoDigitsAt(Trim(raw), j)
  {
    var s := Trim(raw);
    if s == [] {
      assert forall j: nat :: !TwoDigitsAt(s, j);
    }
  }

  /** Since no earlier position starts two digits, the first occurrence of the
      matched digits is the match itself: `replace` cuts out exactly the match. */
  lemma MatchIsFirstOccurrence(s: string)
    requires FirstDepthMatch(s, 0).Some?
    ensures var (i, n) := FirstDepthMatch(s, 0).value;
            ReplaceFirst(s, s[i..i + n], "") == s[..i] + s[i + n..]
  {
    var fm := FirstDepthMatch(s, 0).value;
    var i, n := fm.0, fm.1;
    var m := s[i..i + n];
    NoEarlierOccurrence(s, i, m);
    assert OccursAt(s, m, i);
    var r := IndexOf(s, m);
    assert r.Some? && r.value <= i;
    assert r.value == i;
    assert ReplaceFirst(s, m, "") == s[..i] + "" + s[i + |m|..];
    assert s[..i] + "" + s[i + n..] == s[..i] + s[i + n..];
  }

  lemma NoEarlierOccurrence(s: string, i: nat, m: string)
    requires 2 <= |m| && i + |m| <= |s| && m == s[i..i + |m|] && AllDigits(m)
    requires forall j: nat :: j < i ==> !TwoDigitsAt(s, j)
    ensures forall j: nat :: j < i ==> !OccursAt(s, m, j)
  {
    forall j: nat | j < i ensures !OccursAt(s, m, j) {
      if j + |m| <= |s| {
        assert s[j..j + |m|][0] == s[j] && s[j..j + |m|][1] == s[j + 1];
        assert IsDigit(m[0]) && IsDigit(m[1]);
        assert !TwoDigitsAt(s, j);
      }
    }
  }

  /** A run of 2 to 4 digits is matched whole. */
  lemma DepthMatchOfNumber(ds: string)
    requires AllDigits(ds) && 2 <= |ds| <= 4
    ensures DepthMatch(ds) == ds
  {
    assert TwoDigitsAt(ds, 0);
    assert DigitRun(ds, 0, 4) == |ds|;
    assert ds[0..|ds|] == ds;
  }

  /** A depth written amid text without digits ("F 800 mm", "Fondo: 1200") is
      read, and the text around it, separators removed and trimmed, is the
      reference. */
  lemma DepthAmidText(prefix: string, n: nat, suffix: string)
    requires 10 <= n < 10000
    requires forall k :: 0 <= k < |prefix| ==> !IsDigit(prefix[k])
    requires forall k :: 0 <= k < |suffix| ==> !IsDigit(suffix[k])
    requires prefix == [] || !IsSpace(prefix[0])
    requires suffix == [] || !IsSpace(suffix[|suffix| - 1])
    ensures ExtractFondoYReferencia(Some(prefix + NatToDecimal(n) + suffix))
         == FondoRef(Some(n), Referencia(prefix + suffix))
  {
    var ds := NatToDecimal(n);
    var s := prefix + ds + suffix;
    DepthDigits(n);
    DepthMatchAmid(prefix, ds, suffix);
    EndsNotSpace(prefix, ds, suffix);
    TrimUntouched(s);
    ExtractOfMatch(s, ds, prefix + suffix);
  }

  /** A trimmed cell whose match is `ds` gives the depth `ds` spells and the
      reference of what is left once the match is cut out. */
  lemma ExtractOfMatch(s: string, ds: string, rest: string)
    requires s != [] && Trim(s) == s
    requires DepthMatch(s) == ds && ds != [] && Cut(s) == rest
    ensures ExtractFondoYReferencia(Some(s)) == FondoRef(Some(DecimalValue(ds)), Referencia(rest))
  {
  }

  /** Two to four digits amid digit-free text are the match, and cutting them
      out leaves the text around them. */
  lemma DepthMatchAmid(prefix: string, ds: string, suffix: string)
    requires 2 <= |ds| <= 4 && AllDigits(ds)
    requires forall k :: 0 <= k < |prefix| ==> !IsDigit(prefix[k])
    requires forall k :: 0 <= k < |suffix| ==> !IsDigit(suffix[k])
    ensures DepthMatch(prefix + ds + suffix) == ds
    ensures Cut(prefix + ds + suffix) == prefix + suffix
  {
    DigitsAmidText(prefix, ds, suffix);
  }

  lemma EndsNotSpace(prefix: string, ds: string, suffix: string)
    requires ds != [] && AllDigits(ds)
    requires prefix == [] || !IsSpace(prefix[0])
    requires suffix == [] || !IsSpace(suffix[|suffix| - 1])
    ensures var s := prefix + ds + suffix; !IsSpace(s[0]) && !IsSpace(s[|s| - 1])
  {
    var s := prefix + ds + suffix;
    assert s[0] == if prefix == [] then ds[0] else prefix[0];
    assert s[|s| - 1] == if suffix == [] then ds[|ds| - 1] else suffix[|suffix| - 1];
  }

  /** Two to four digits amid digit-free text are the first match, and cutting
      them out leaves the text around them. */
  lemma DigitsAmidText(prefix: string, ds: string, suffix: string)
    requires 2 <= |ds| <= 4 && AllDigits(ds)
    requires forall k :: 0 <= k < |prefix| ==> !IsDigit(prefix[k])
    requires forall k :: 0 <= k < |suffix| ==> !IsDigit(suffix[k])
    ensures FirstDepthMatch(prefix + ds + suffix, 0) == Some((|prefix|, |ds|))
    ensures (prefix + ds + suffix)[|prefix|..|prefix| + |ds|] == ds
    ensures Cut(prefix + ds + suffix) == prefix + suffix
  {
    var s := prefix + ds + suffix;
    ThreePieces(prefix, ds, suffix);
    FirstMatchAmid(s, |prefix|, ds);
    CutAt(s, |prefix|, |ds|);
  }

  lemma ThreePieces(a: string, b: string, c: string)
    ensures (a + b + c)[|a|..|a| + |b|] == b
    ensures (a + b + c)[..|a|] + (a + b + c)[|a| + |b|..] == a + c
    ensures forall k :: 0 <= k < |a| ==> (a + b + c)[k] == a[k]
    ensures forall k :: 0 <= k < |c| ==> (a + b + c)[|a| + |b| + k] == c[k]
  {
    assert (a + b + c)[..|a|] == a;
    assert (a + b + c)[|a| + |b|..] == c;
  }

  /** Digits at `i` with no digit before them and none after them are the first
      match. */
  lemma FirstMatchAmid(s: string, i: nat, ds: string)
    requires 2 <= |ds| <= 4 && AllDigits(ds)
    requires i + |ds| <= |s| && s[i..i + |ds|] == ds
    requires forall k :: 0 <= k < i ==> !IsDigit(s[k])
    requires i + |ds| == |s| || !IsDigit(s[i + |ds|])
    ensures FirstDepthMatch(s, 0) == Some((i, |ds|))
  {
    DigitsStartMatch(s, i, ds);
    FirstDepthMatchAt(s, 0, i);
    DigitRunOf(s, i, ds, 4);
  }

  /** Two or more digits at `i` with no digit before them start the first match. */
  lemma DigitsStartMatch(s: string, i: nat, ds: string)
    requires 2 <= |ds| && AllDigits(ds)
    requires i + |ds| <= |s| && s[i..i + |ds|] == ds
    requires forall k :: 0 <= k < i ==> !IsDigit(s[k])
    ensures TwoDigitsAt(s, i)
    ensures forall j: nat :: 0 <= j < i ==> !TwoDigitsAt(s, j)
  {
    assert s[i] == ds[0] && s[i + 1] == ds[1];
    forall j: nat | j < i ensures !TwoDigitsAt(s, j) {
      assert !IsDigit(s[j]);
    }
  }

  lemma CutAt(s: string, i: nat, n: nat)
    requires FirstDepthMatch(s, 0) == Some((i, n))
    ensures Cut(s) == s[..i] + s[i + n..]
  {
    var fm := FirstDepthMatch(s, 0);
    assert fm.value.0 == i && fm.value.1 == n;
  }

  /** The search finds the first position holding two digits. */
  lemma {:induction false} FirstDepthMatchAt(s: string, from: nat, i: nat)
    requires from <= i && TwoDigitsAt(s, i)
    requires forall j: nat :: from <= j < i ==> !TwoDigitsAt(s, j)
    ensures FirstDepthMatch(s, from) == Some((i, DigitRun(s, i, 4)))
    decreases i - from
  {
    if from < i {
      assert !TwoDigitsAt(s, from);
      FirstDepthMatchAt(s, from + 1, i);
    }
  }

  /** A run of digits that ends the text, is followed by a non-digit, or fills
      the cap is counted whole. */
  lemma {:induction false} DigitRunOf(s: string, i: nat, ds: string, cap: nat)
    requires i + |ds| <= |s| && s[i..i + |ds|] == ds && AllDigits(ds) && |ds| <= cap
    requires i + |ds| == |s| || !IsDigit(s[i + |ds|]) || |ds| == cap
    ensures DigitRun(s, i, cap) == |ds|
    decreases |ds|
  {
    if ds != [] {
      assert s[i] == ds[0];
      assert s[i + 1..i + |ds|] == ds[1..];
      DigitRunOf(s, i + 1, ds[1..], cap - 1);
    }
  }

  /** The separator filter distributes over concatenation. */
  lemma {:induction false} RemoveSeparatorsAppend(a: string, b: string)
    ensures RemoveSeparators(a + b) == RemoveSeparators(a) + RemoveSeparators(b)
  {
    if a == [] {
      assert a + b == b;
    } else {
      assert (a + b)[1..] == a[1..] + b;
      RemoveSeparatorsAppend(a[1..], b);
    }
  }

  /** A separator anywhere in the rest of the cell is dropped from the reference. */
  lemma ReferenciaDropsSeparator(a: string, c: char, b: string)
    requires IsSeparator(c)
    ensures Referencia(a + [c] + b) == Referencia(a + b)
  {
    RemoveSeparatorsAppend(a + [c], b);
    RemoveSeparatorsAppend(a, [c]);
    RemoveSeparatorsAppend(a, b);
    assert RemoveSeparators([c]) == [] by {
      assert [c][1..] == [];
    }
    assert RemoveSeparators(a) + [] == RemoveSeparators(a);
  }

  /** A trimmed, non-empty rest without separators is the reference as it stands. */
  lemma ReferenciaOfClean(r: string)
    requires r != [] && !IsSpace(r[0]) && !IsSpace(r[|r| - 1])
    requires forall i :: 0 <= i < |r| ==> !IsSeparator(r[i])
    ensures Referencia(r) == Some(r)
  {
    TrimUntouched(r);
  }

  /** A depth cell holding just a 2- to 4-digit number gives that depth and no
      reference. */
  lemma DepthRoundTrip(n: nat)
    requires 10 <= n < 10000
    ensures ExtractFondoYReferencia(Some(NatToDecimal(n))) == FondoRef(Some(n), None)
  {
    var ds := NatToDecimal(n);
    DepthDigits(n);
    TrimUntouched(ds);
    DepthMatchOfNumber(ds);
    CutWhole(ds);
    ReferenciaEmpty();
    var fr := ExtractFondoYReferencia(Some(ds));
    assert fr.fondoMm == Some(n);
  }

  lemma ReferenciaEmpty()
    ensures Referencia([]) == None
  {
    assert RemoveSeparators([]) == [];
  }

  /** A depth from 10 to 9999 is written with two to four digits. */
  lemma DepthDigits(n: nat)
    requires 10 <= n < 10000
    ensures 2 <= |NatToDecimal(n)| <= 4
  {
    assert Pow10(4) == 10000 by {
      assert Pow10(1) == 10 && Pow10(2) == 100 && Pow10(3) == 1000;
    }
    DecimalLength(n, 4);
  }

  /** Cutting the match out of a cell that is just the match leaves nothing. */
  lemma CutWhole(ds: string)
    requires AllDigits(ds) && 2 <= |ds| <= 4
    ensures Cut(ds) == []
  {
    DepthMatchOfNumber(ds);
    CutMatch(ds);
    assert OccursAt(ds, ds, 0);
    assert ReplaceFirst(ds, ds, "") == [];
  }

  /** A number below 10^k has at most `k` digits, and one from 10 on has at least two. */
  lemma {:induction false} DecimalLength(n: nat, k: nat)
    requires 1 <= k && n < Pow10(k)
    ensures |NatToDecimal(n)| <= k
    ensures n >= 10 ==> |NatToDecimal(n)| >= 2
  {
    if n >= 10 {
      assert NatToDecimal(n) == NatToDecimal(n / 10) + [DigitChar(n % 10)];
      assert k >= 2;
      DecimalLength(n / 10, k - 1);
    }
  }

  /** `trim` leaves a string that neither starts nor ends with white space as it is. */
  lemma TrimUntouched(s: string)
    requires s == [] || (!IsSpace(s[0]) && !IsSpace(s[|s| - 1]))
    ensures Trim(s) == s
  {
    assert TrimStart(s) == s;
    assert TrimEnd(s) == s;
  }

  // ---------------------------------------------------------------------------
  // Names: the ASCII stage of `stripDiacritics`
  // ---------------------------------------------------------------------------

  /** The characters `/[^A-Z0-9/\-\. ]/g` keeps. */
  predicate IsNameChar(c: char) {
    ('A' <= c <= 'Z') || IsDigit(c) || c == '/' || c == '-' || c == '.' || c == ' '
  }

  predicate NameCharsOnly(s: string) {
    forall i :: 0 <= i < |s| ==> IsNameChar(s[i])
  }

  /** No two white-space characters side by side. */
  predicate SingleSpaced(s: string) {
    forall i :: 0 <= i < |s| - 1 ==> !(IsSpace(s[i]) && IsSpace(s[i + 1]))
  }

  /** Name characters only, single spaces, none at either end. */
  predicate Tidy(r: string) {
    && NameCharsOnly(r)
    && SingleSpaced(r)
    && (r == [] || (!IsSpace(r[0]) && !IsSpace(r[|r| - 1])))
  }

  function KeepNameChars(s: string): (r: string)
    ensures |r| <= |s|
    ensures NameCharsOnly(r)
  {
    if s == [] then []
    else (if IsNameChar(s[0]) then [s[0]] else []) + KeepNameChars(s[1..])
  }

  /** The Unicode replacement character U+FFFD, which a mis-decoded accented
      vowel leaves in the table. */
  const REPLACEMENT_CHAR: char := '\U{FFFD}'

  /** `.replace(/\uFFFD/g, 'O')`: every replacement character becomes 'O'. The
      empty-class replacements after it (`/[]/g`) match nothing. */
  function ReplaceFffd(s: string): (r: string)
    ensures |r| == |s|
    ensures forall i :: 0 <= i < |s| ==> r[i] == if s[i] == REPLACEMENT_CHAR then 'O' else s[i]
  {
    if s == [] then []
    else [if s[0] == REPLACEMENT_CHAR then 'O' else s[0]] + ReplaceFffd(s[1..])
  }

  /** `stripDiacritics` after its `normalize('NFD')` step: replacement characters
      become 'O', then the ASCII stage. */
  function StripAfterNormalize(base: string): (r: string)
    ensures Tidy(r)
    ensures REPLACEMENT_CHAR !in r
  {
    var r := AsciiStage(ReplaceFffd(base));
    NoReplacementInTidy(r);
    r
  }

  lemma NoReplacementInTidy(r: string)
    requires Tidy(r)
    ensures REPLACEMENT_CHAR !in r
  {
    forall i | 0 <= i < |r| ensures r[i] != REPLACEMENT_CHAR {
      assert IsNameChar(r[i]);
    }
  }

  /** A replacement character reads as the 'O' it stands for ("\uFFFDPTIMA" gives
      "OPTIMA"), where the ASCII stage alone would drop it. */
  lemma ReplacementCharReadsAsO(a: string, b: string)
    ensures StripAfterNormalize(a + [REPLACEMENT_CHAR] + b) == StripAfterNormalize(a + "O" + b)
    ensures AsciiStage(a + [REPLACEMENT_CHAR] + b) == AsciiStage(a + b)
  {
    var x, y := a + [REPLACEMENT_CHAR] + b, a + "O" + b;
    assert ReplaceFffd(x) == ReplaceFffd(y) by {
      forall i | 0 <= i < |x| ensures ReplaceFffd(x)[i] == ReplaceFffd(y)[i] {
        if i < |a| {
          assert x[i] == a[i] && y[i] == a[i];
        } else if i > |a| {
          assert x[i] == b[i - |a| - 1] && y[i] == b[i - |a| - 1];
        }
      }
    }
    AsciiStageDropsChar(a, REPLACEMENT_CHAR, b);
  }

  /** The last stage of `stripDiacritics`: upper-case, keep the name characters,
      collapse white space, trim. */
  function AsciiStage(base: string): (r: string)
    ensures Tidy(r)
  {
    var kept := KeepNameChars(ToUpperAscii(base));
    var collapsed := CollapseSpaces(kept);
    CollapseKeepsNameChars(kept);
    TrimKeepsTidy(collapsed);
    Trim(collapsed)
  }

  lemma {:induction false} CollapseKeepsNameChars(s: string)
    requires NameCharsOnly(s)
    ensures NameCharsOnly(CollapseSpaces(s))
    decreases |s|
  {
    if s != [] {
      var t := s[1..];
      assert forall i :: 0 <= i < |t| ==> t[i] == s[i + 1];
      if IsSpace(s[0]) {
        TrimStartKeepsNameChars(t);
        CollapseKeepsNameChars(TrimStart(t));
      } else {
        CollapseKeepsNameChars(t);
      }
    }
  }

  lemma TrimStartKeepsNameChars(t: string)
    requires NameCharsOnly(t)
    ensures NameCharsOnly(TrimStart(t))
  {
    var rest := TrimStart(t);
    var a := |t| - |rest|;
    forall i | 0 <= i < |rest| ensures IsNameChar(rest[i]) {
      assert rest[i] == t[a + i];
    }
  }

  /** Trimming a single-spaced string of name characters leaves it tidy. */
  lemma TrimKeepsTidy(s: string)
    requires NameCharsOnly(s) && SingleSpaced(s)
    ensures Tidy(Trim(s))
  {
    TrimKeepsNameChars(s);
    TrimKeepsSingleSpaced(s);
  }

  lemma TrimKeepsNameChars(s: string)
    requires NameCharsOnly(s)
    ensures NameCharsOnly(Trim(s))
  {
    var r := Trim(s);
    var a := TrimSlice(s);
    forall i | 0 <= i < |r| ensures IsNameChar(r[i]) {
      assert r[i] == s[a + i];
    }
  }

  lemma TrimKeepsSingleSpaced(s: string)
    requires SingleSpaced(s)
    ensures SingleSpaced(Trim(s))
  {
    var r := Trim(s);
    var a := TrimSlice(s);
    forall i | 0 <= i < |r| - 1 ensures !(IsSpace(r[i]) && IsSpace(r[i + 1])) {
      assert r[i] == s[a + i] && r[i + 1] == s[a + i + 1];
    }
  }

  lemma {:induction false} KeepNameCharsUntouched(s: string)
    requires NameCharsOnly(s)
    ensures KeepNameChars(s) == s
  {
    if s != [] {
      KeepNameCharsUntouched(s[1..]);
    }
  }

  /** Every white-space character is a plain space. */
  predicate PlainSpaces(s: string) {
    forall i :: 0 <= i < |s| && IsSpace(s[i]) ==> s[i] == ' '
  }

  /** Collapsing leaves alone a string whose only white space is single spaces. */
  lemma {:induction false} CollapseUntouched(s: string)
    requires PlainSpaces(s) && SingleSpaced(s)
    ensures CollapseSpaces(s) == s
    decreases |s|
  {
    if s != [] {
      var t := s[1..];
      TailPlainSingle(s);
      CollapseUntouched(t);
      if IsSpace(s[0]) {
        assert s[0] == ' ';
        TrimStartUntouched(t);
        assert CollapseSpaces(s) == [' '] + CollapseSpaces(t);
      } else {
        assert CollapseSpaces(s) == [s[0]] + CollapseSpaces(t);
      }
      assert s == [s[0]] + t;
    }
  }

  lemma TailPlainSingle(s: string)
    requires s != [] && PlainSpaces(s) && SingleSpaced(s)
    ensures PlainSpaces(s[1..]) && SingleSpaced(s[1..])
    ensures IsSpace(s[0]) ==> s[0] == ' ' && (|s| == 1 || !IsSpace(s[1]))
  {
  }

  lemma TrimStartUntouched(t: string)
    requires t == [] || !IsSpace(t[0])
    ensures TrimStart(t) == t
  {
  }

  /** The stage is idempotent: its output passes through it unchanged. */
  lemma AsciiStageIdempotent(base: string)
    ensures AsciiStage(AsciiStage(base)) == AsciiStage(base)
  {
    var r := AsciiStage(base);
    TidyUntouched(r);
  }

  /** A tidy string passes through the stage unchanged. */
  lemma TidyUntouched(r: string)
    requires Tidy(r)
    ensures AsciiStage(r) == r
  {
    UpperUntouched(r);
    KeepNameCharsUntouched(r);
    NameCharsPlain(r);
    CollapseUntouched(r);
    TrimUntouched(r);
  }

  lemma NameCharsPlain(s: string)
    requires NameCharsOnly(s)
    ensures PlainSpaces(s)
  {
    forall i | 0 <= i < |s| && IsSpace(s[i]) ensures s[i] == ' ' {
      assert IsNameChar(s[i]);
    }
  }

  /** The stage undoes lower-casing: a tidy name written in lower case comes
      back as it was. */
  lemma AsciiStageOfLower(t: string)
    requires Tidy(t)
    ensures AsciiStage(ToLowerAscii(t)) == t
  {
    var l := ToLowerAscii(t);
    assert ToUpperAscii(l) == t by {
      var u := ToUpperAscii(l);
      forall i | 0 <= i < |t| ensures u[i] == t[i] {
        assert IsNameChar(t[i]);
      }
    }
    KeepNameCharsUntouched(t);
    NameCharsPlain(t);
    CollapseUntouched(t);
    TrimUntouched(t);
  }

  /** A character that is not a name character once upper-cased (an accent left
      by the decomposition, a comma, a parenthesis) is dropped wherever it stands. */
  lemma AsciiStageDropsChar(a: string, c: char, b: string)
    requires !IsNameChar(UpperChar(c))
    ensures AsciiStage(a + [c] + b) == AsciiStage(a + b)
  {
    ToUpperAppend(a + [c], b);
    ToUpperAppend(a, [c]);
    ToUpperAppend(a, b);
    var ua, ub := ToUpperAscii(a), ToUpperAscii(b);
    assert ToUpperAscii([c]) == [UpperChar(c)];
    KeepNameCharsAppend(ua + [UpperChar(c)], ub);
    KeepNameCharsAppend(ua, [UpperChar(c)]);
    KeepNameCharsAppend(ua, ub);
    KeepNameCharsSingle(UpperChar(c));
    assert KeepNameChars(ua) + [] == KeepNameChars(ua);
  }

  /** The filter distributes over concatenation. */
  lemma {:induction false} KeepNameCharsAppend(a: string, b: string)
    ensures KeepNameChars(a + b) == KeepNameChars(a) + KeepNameChars(b)
  {
    if a == [] {
      assert a + b == b;
    } else {
      var h := if IsNameChar(a[0]) then [a[0]] else [];
      assert (a + b)[0] == a[0] && (a + b)[1..] == a[1..] + b;
      assert KeepNameChars(a + b) == h + KeepNameChars(a[1..] + b);
      KeepNameCharsAppend(a[1..], b);
      assert KeepNameChars(a) == h + KeepNameChars(a[1..]);
    }
  }

  /** One character is kept exactly when it is a name character. */
  lemma KeepNameCharsSingle(c: char)
    ensures KeepNameChars([c]) == if IsNameChar(c) then [c] else []
  {
    assert [c][1..] == [];
  }

  lemma UpperUntouched(s: string)
    requires NameCharsOnly(s)
    ensures ToUpperAscii(s) == s
  {
    var u := ToUpperAscii(s);
    forall i | 0 <= i < |s| ensures u[i] == s[i] {
      assert IsNameChar(s[i]);
    }
  }

  // ---------------------------------------------------------------------------
  // Lines: `txt.split(/\r?\n/).filter(Boolean)`
  // ---------------------------------------------------------------------------

  /** A line without the carriage return that ends it, if any. */
  function DropCR(p: string): (r: string)
    ensures r == p || (p == r + "\r")
  {
    if p != [] && p[|p| - 1] == '\r' then p[..|p| - 1] else p
  }

  /** `txt.split(/\r?\n/)`: the pieces between line feeds, each without the
      carriage return that precedes its line feed. */
  function Pieces(t: string): (ps: seq<string>)
    ensures |ps| >= 1
    ensures forall k :: 0 <= k < |ps| ==> '\n' !in ps[k]
    decreases |t|
  {
    match IndexOf(t, "\n")
    case None =>
      NoNewlineBefore(t, |t|);
      [t]
    case Some(i) =>
      NoNewlineBefore(t, i);
      [DropCR(t[..i])] + Pieces(t[i + 1..])
  }

  /** With no line feed found before `i`, there is none in `t[..i]`. */
  lemma NoNewlineBefore(t: string, i: nat)
    requires i <= |t| && forall j: nat :: j < i ==> !OccursAt(t, "\n", j)
    ensures '\n' !in t[..i]
  {
    forall j | 0 <= j < i ensures t[j] != '\n' {
      assert !OccursAt(t, "\n", j);
      assert t[j..j + 1] == [t[j]];
    }
  }

  /** `Array.prototype.join("\n")`. */
  function JoinLines(ps: seq<string>): string
    requires |ps| >= 1
  {
    if |ps| == 1 then ps[0] else ps[0] + "\n" + JoinLines(ps[1..])
  }

  /** Splitting text without carriage returns and joining the pieces back with
      line feeds gives the text again. */
  lemma {:induction false} PiecesJoin(t: string)
    requires '\r' !in t
    ensures JoinLines(Pieces(t)) == t
    decreases |t|
  {
    match IndexOf(t, "\n")
    case None =>
    case Some(i) =>
      var head, tail := t[..i], t[i + 1..];
      PiecesStep(t, i);
      PiecesJoin(tail);
      var ps := Pieces(t);
      assert ps[1..] == Pieces(tail);
  }

  /** One line feed of the split, in text without carriage returns. */
  lemma PiecesStep(t: string, i: nat)
    requires '\r' !in t && IndexOf(t, "\n") == Some(i)
    ensures Pieces(t) == [t[..i]] + Pieces(t[i + 1..])
    ensures t == t[..i] + "\n" + t[i + 1..]
    ensures '\r' !in t[i + 1..]
  {
    var head, tail := t[..i], t[i + 1..];
    assert t[i..i + 1] == "\n";
    assert t == head + "\n" + tail;
    assert DropCR(head) == head by {
      if head != [] { assert head[|head| - 1] == t[i - 1]; }
    }
    assert '\r' !in tail by {
      forall k | 0 <= k < |tail| ensures tail[k] != '\r' {
        assert tail[k] == t[i + 1 + k];
      }
    }
    assert Pieces(t) == [DropCR(head)] + Pieces(tail);
  }

  /** `.filter(Boolean)`: the non-empty strings, in order. */
  function NonEmpty(ps: seq<string>): (r: seq<string>)
    ensures |r| <= |ps|
    ensures forall k :: 0 <= k < |r| ==> r[k] != []
  {
    if ps == [] then []
    else (if ps[0] == [] then [] else [ps[0]]) + NonEmpty(ps[1..])
  }

  /** Every kept piece is one of the input pieces. */
  lemma {:induction false} NonEmptyKeepsPieces(ps: seq<string>)
    ensures forall k :: 0 <= k < |NonEmpty(ps)| ==> NonEmpty(ps)[k] in ps
  {
    if ps != [] {
      var h := if ps[0] == [] then [] else [ps[0]];
      NonEmptyKeepsPieces(ps[1..]);
      forall k | 0 <= k < |NonEmpty(ps)| ensures NonEmpty(ps)[k] in ps {
        if k < |h| {
          assert NonEmpty(ps)[k] == ps[0];
        } else {
          assert NonEmpty(ps)[k] == NonEmpty(ps[1..])[k - |h|];
          assert NonEmpty(ps[1..])[k - |h|] in ps[1..];
        }
      }
    }
  }

  /** The lines of the text, none of them empty and none holding a line feed. */
  function SplitLines(txt: string): (lines: seq<string>)
    ensures forall k :: 0 <= k < |lines| ==> lines[k] != [] && '\n' !in lines[k]
  {
    var ps := Pieces(txt);
    var lines := NonEmpty(ps);
    NonEmptyKeepsPieces(ps);
    assert forall k :: 0 <= k < |lines| ==> lines[k] in ps;
    lines
  }

  /** The filter distributes over concatenation: it keeps the order of the pieces. */
  lemma {:induction false} NonEmptyAppend(a: seq<string>, b: seq<string>)
    ensures NonEmpty(a + b) == NonEmpty(a) + NonEmpty(b)
  {
    if a == [] {
      assert a + b == b;
    } else {
      var x, a1 := a[0], a[1..];
      assert a == [x] + a1 && a + b == [x] + (a1 + b);
      var h := if x == [] then [] else [x];
      NonEmptyCons(x, a1);
      NonEmptyCons(x, a1 + b);
      NonEmptyAppend(a1, b);
      calc {
        NonEmpty(a + b);
        h + NonEmpty(a1 + b);
        h + (NonEmpty(a1) + NonEmpty(b));
        (h + NonEmpty(a1)) + NonEmpty(b);
        NonEmpty(a) + NonEmpty(b);
      }
    }
  }

  lemma NonEmptyCons(x: string, rest: seq<string>)
    ensures NonEmpty([x] + rest) == (if x == [] then [] else [x]) + NonEmpty(rest)
  {
    assert ([x] + rest)[0] == x && ([x] + rest)[1..] == rest;
  }

  /** One piece is kept exactly when it is not empty. */
  lemma NonEmptySingle(p: string)
    ensures NonEmpty([p]) == if p == [] then [] else [p]
  {
    assert [p][1..] == [];
  }

  /** Lines without line feeds or carriage returns, joined with line feeds, split
      back into the same lines. */
  lemma SplitJoinLines(ls: seq<string>)
    requires |ls| >= 1
    requires forall k :: 0 <= k < |ls| ==> ls[k] != [] && '\n' !in ls[k] && '\r' !in ls[k]
    ensures SplitLines(JoinLines(ls)) == ls
  {
    PiecesOfJoin(ls);
    NonEmptyUntouched(ls);
  }

  lemma {:induction false} PiecesOfJoin(ls: seq<string>)
    requires |ls| >= 1
    requires forall k :: 0 <= k < |ls| ==> '\n' !in ls[k] && '\r' !in ls[k]
    ensures Pieces(JoinLines(ls)) == ls
    decreases |ls|
  {
    var a := ls[0];
    if |ls| == 1 {
      NoNewlineNotFound(a);
    } else {
      var rest := JoinLines(ls[1..]);
      assert JoinLines(ls) == a + "\n" + rest;
      PiecesOfLine(a, rest);
      PiecesOfJoin(ls[1..]);
      assert ls == [a] + ls[1..];
    }
  }

  /** A first line without line feeds or carriage returns is the first piece. */
  lemma PiecesOfLine(a: string, rest: string)
    requires '\n' !in a && '\r' !in a
    ensures Pieces(a + "\n" + rest) == [a] + Pieces(rest)
  {
    var t := a + "\n" + rest;
    FirstNewline(a, rest);
    assert t[..|a|] == a && t[|a| + 1..] == rest;
    assert DropCR(a) == a by {
      if a != [] { assert a[|a| - 1] in a; }
    }
  }

  lemma NoNewlineNotFound(a: string)
    requires '\n' !in a
    ensures IndexOf(a, "\n") == None
  {
    forall j: nat ensures !OccursAt(a, "\n", j) {
      if j + 1 <= |a| {
        assert a[j..j + 1][0] == a[j];
      }
    }
  }

  /** The first line feed of `a + "\n" + b` is the one after `a` when `a` has none. */
  lemma FirstNewline(a: string, b: string)
    requires '\n' !in a
    ensures IndexOf(a + "\n" + b, "\n") == Some(|a|)
  {
    var t := a + "\n" + b;
    assert t[|a|..|a| + 1] == "\n";
    assert OccursAt(t, "\n", |a|);
    var r := IndexOf(t, "\n");
    forall j: nat | j < |a| ensures !OccursAt(t, "\n", j) {
      assert t[j..j + 1][0] == a[j];
    }
  }

  lemma {:induction false} NonEmptyUntouched(ls: seq<string>)
    requires forall k :: 0 <= k < |ls| ==> ls[k] != []
    ensures NonEmpty(ls) == ls
  {
    if ls != [] {
      NonEmptyUntouched(ls[1..]);
      assert ls == [ls[0]] + ls[1..];
    }
  }

  // ---------------------------------------------------------------------------
  // Rows: the line loop of `loadTevexHoodsFromCsv`
  // ---------------------------------------------------------------------------

  /** One hood of the table: its model, width and depth (mm), and the filter
      count and flow when given. */
  datatype HoodCsvEntry = HoodCsvEntry(
    modelo: string,
    anchoMm: real,
    fondoMm: real,
    filtros: Option<real>,
    m3h: Option<real>)

  /** Blank lines and the header lines, recognised by their column titles. */
  function IsHeaderOrBlank(line: string): (skip: bool)
    ensures AllSpace(line) ==> skip
    ensures skip && !AllSpace(line) ==>
              Contains(line, "MODELO") || Contains(line, "ANCHO") || Contains(line, "FILTROS")
  {
    || Trim(line) == []
    || Contains(line, "MODELO") || Contains(line, "ANCHO") || Contains(line, "FILTROS")
  }

  /** A line naming a column title anywhere, whatever else it holds, yields nothing. */
  lemma HeaderLineSkipped(pre: string, title: string, post: string)
    requires title in {"MODELO", "ANCHO", "FILTROS"}
    ensures ParseLine(pre + title + post) == None
  {
    var line := pre + title + post;
    assert line[|pre|..|pre| + |title|] == title;
    assert OccursAt(line, title, |pre|);
  }

  /** `/<html[\s\S]*>/i`: an "<html" in any letter case with a '>' somewhere after it. */
  function LooksHtml(line: string): (html: bool)
    ensures html ==> '>' in line
  {
    exists i: nat :: i < |line| && OccursAt(ToLowerAscii(line), "<html", i) && '>' in line[i + 5..]
  }

  /** An HTML tag such as "<HTML lang=es>" or "<html>", in any letter case and
      anywhere in the line, makes the line look like HTML. */
  lemma LooksHtmlOfTag(pre: string, tag: string, attrs: string, post: string)
    requires ToLowerAscii(tag) == "<html"
    ensures LooksHtml(pre + tag + attrs + ">" + post)
  {
    var line := pre + tag + attrs + ">" + post;
    var i := |pre|;
    ToLowerAppend(pre + tag, attrs + ">" + post);
    ToLowerAppend(pre, tag);
    assert line == (pre + tag) + (attrs + ">" + post);
    assert ToLowerAscii(line)[i..i + 5] == ToLowerAscii(tag);
    assert OccursAt(ToLowerAscii(line), "<html", i);
    assert line[i + 5..] == attrs + ">" + post;
    assert (attrs + ">" + post)[|attrs|] == '>';
  }

  /** A fixed-width column: the characters in [start, end), trimmed. */
  function Column(line: string, start: nat, end: nat): (c: string)
    requires start <= end
    ensures |c| <= end - start
    ensures c == [] || (!IsSpace(c[0]) && !IsSpace(c[|c| - 1]))
  {
    Trim(Substring(line, start, end))
  }

  /** What one line of the table yields: an entry, or nothing when the line is a
      header, blank, HTML, too short, has no model, or lacks a width or depth. */
  function ParseLine(line: string): (e: Option<HoodCsvEntry>)
    ensures e.Some? ==> !IsHeaderOrBlank(line) && !LooksHtml(line) && |line| >= 20
    ensures e.Some? ==> e.value.anchoMm > 0.0 && e.value.fondoMm > 0.0
    ensures e.Some? ==> var m := e.value.modelo;
              && m != [] && !IsSpace(m[0]) && !IsSpace(m[|m| - 1]) && SingleSpaced(m)
  {
    if IsHeaderOrBlank(line) then None
    else if LooksHtml(line) || |line| < 20 then None
    else
      var modelo := Column(line, 0, 50);
      var anchoStr := Column(line, 50, 80);
      var filtrosStr := Column(line, 80, 100);
      var m3hStr := Column(line, 100, 130);
      var fondoStr := Column(line, 130, 160);
      if modelo == [] || AllSpace(modelo) then None
      else
        var anchoMm := ParseNumberLike(Some(anchoStr));
        var filtros := ParseNumberLike(Some(filtrosStr));
        var m3h := ParseNumberLike(Some(m3hStr));
        var fondoMm := ParseNumberLike(Some(fondoStr));
        if HoodCalc.Truthy(anchoMm) && HoodCalc.Truthy(fondoMm) then
          ModelNameTidy(modelo);
          Some(HoodCsvEntry(Trim(CollapseSpaces(modelo)), anchoMm.value, fondoMm.value, filtros, m3h))
        else None
  }

  /** A trimmed, non-empty model name stays non-empty once its white space is
      collapsed and trimmed again, and ends up single-spaced. */
  lemma ModelNameTidy(modelo: string)
    requires modelo != [] && !IsSpace(modelo[0])
    ensures var m := Trim(CollapseSpaces(modelo));
            m != [] && !IsSpace(m[0]) && !IsSpace(m[|m| - 1]) && SingleSpaced(m)
  {
    var c := CollapseSpaces(modelo);
    assert !AllSpace(c);
    TrimKeepsSingleSpaced(c);
  }

  /** A value written at the start of its column and padded with spaces, either
      to the end of the column or to the end of the line, reads back as itself. */
  lemma ColumnOfPadded(pre: string, v: string, pad: string, post: string, start: nat, end: nat)
    requires |pre| == start && start <= end
    requires v == [] || (!IsSpace(v[0]) && !IsSpace(v[|v| - 1]))
    requires AllSpace(pad)
    requires end == start + |v| + |pad| || (post == [] && start + |v| + |pad| <= end)
    ensures Column(pre + v + pad + post, start, end) == v
  {
    var line := pre + v + pad + post;
    var b := if end <= |line| then end else |line|;
    assert b == start + |v| + |pad|;
    assert line[start..b] == v + pad;
    TrimPadded(v, pad);
  }

  /** `k` spaces. */
  function Spaces(k: nat): (r: string)
    ensures |r| == k && AllSpace(r)
    ensures forall i :: 0 <= i < k ==> r[i] == ' '
  {
    seq(k, i => ' ')
  }

  /** A line of the table as the export writes it: the model in columns 1-50,
      the width in 51-80, the filter and flow columns left blank, and the depth
      from column 131. */
  function Row(modelo: string, ancho: string, fondo: string): (line: string)
    requires |modelo| <= 50 && |ancho| <= 30
  {
    modelo + Spaces(50 - |modelo|) + ancho + Spaces(30 - |ancho|) + Spaces(20) + Spaces(30) + fondo
  }

  /** A name fit for the model column: non-empty, trimmed, single-spaced with
      plain spaces, at most 50 characters, with no header word and no '>'. */
  predicate ModelCell(n: string) {
    && n != [] && |n| <= 50
    && !IsSpace(n[0]) && !IsSpace(n[|n| - 1])
    && SingleSpaced(n) && PlainSpaces(n)
    && !Contains(n, "MODELO") && !Contains(n, "ANCHO") && !Contains(n, "FILTROS")
    && '>' !in n
  }

  /** Writing a row and reading it back gives the model, width and depth that
      were written, and no filter count or flow. */
  lemma ParseLineRoundTrip(n: string, w: nat, d: nat)
    requires ModelCell(n)
    requires 1 <= w && |NatToDecimal(w)| <= 30
    requires 1 <= d && |NatToDecimal(d)| <= 30
    ensures ParseLine(Row(n, NatToDecimal(w), NatToDecimal(d)))
         == Some(HoodCsvEntry(n, w as real, d as real, None, None))
  {
    var W, D := NatToDecimal(w), NatToDecimal(d);
    var line := Row(n, W, D);
    RowIsData(n, W, D);
    RowColumns(n, W, D);
    CellNumber(w);
    CellNumber(d);
    ParseNumberLikeEmpty();
    CollapseUntouched(n);
    TrimUntouched(n);
    ParseLineFromColumns(line, n, w as real, d as real);
  }

  /** A cell holding just a whole number reads as that number. */
  lemma CellNumber(w: nat)
    ensures ParseNumberLike(Some(NatToDecimal(w))) == Some(w as real)
  {
    NumberAmidText("", w, "");
    assert "" + NatToDecimal(w) + "" == NatToDecimal(w);
  }

  /** What a data line with a model, a width and a depth, and blank filter and
      flow cells, yields. */
  lemma ParseLineFromColumns(line: string, n: string, a: real, f: real)
    requires |line| >= 20 && !IsHeaderOrBlank(line) && !LooksHtml(line)
    requires Column(line, 0, 50) == n && n != [] && Trim(CollapseSpaces(n)) == n
    requires Column(line, 80, 100) == [] && Column(line, 100, 130) == []
    requires ParseNumberLike(Some(Column(line, 50, 80))) == Some(a) && a > 0.0
    requires ParseNumberLike(Some(Column(line, 130, 160))) == Some(f) && f > 0.0
    requires ParseNumberLike(Some("")) == None
    ensures ParseLine(line) == Some(HoodCsvEntry(n, a, f, None, None))
  {
    assert !AllSpace(n) by {
      assert !IsSpace(n[0]);
    }
    assert ParseNumberLike(Some(Column(line, 80, 100))) == None;
    assert ParseNumberLike(Some(Column(line, 100, 130))) == None;
    assert HoodCalc.Truthy(Some(a)) && HoodCalc.Truthy(Some(f));
  }

  /** An empty cell holds no number. */
  lemma ParseNumberLikeEmpty()
    ensures ParseNumberLike(Some("")) == None
  {
    assert KeepNumberChars("") == "";
    assert IndexOf("", ",") == None;
  }

  /** The columns of a written row. */
  lemma RowColumns(n: string, W: string, D: string)
    requires |n| <= 50 && n != [] && !IsSpace(n[0]) && !IsSpace(n[|n| - 1])
    requires W != [] && AllDigits(W) && |W| <= 30
    requires D != [] && AllDigits(D) && |D| <= 30
    ensures var line := Row(n, W, D);
            && Column(line, 0, 50) == n
            && Column(line, 50, 80) == W
            && Column(line, 80, 100) == []
            && Column(line, 100, 130) == []
            && Column(line, 130, 160) == D
  {
    var s1, s2 := Spaces(50 - |n|), Spaces(30 - |W|);
    assert IsDigit(W[0]) && IsDigit(W[|W| - 1]) && IsDigit(D[0]) && IsDigit(D[|D| - 1]);
    assert !IsSpace(W[0]);
    assert !IsSpace(W[|W| - 1]);
    assert !IsSpace(D[0]);
    assert !IsSpace(D[|D| - 1]);
    assert |n + s1 + W + s2| == 80;
    assert Row(n, W, D) == n + s1 + W + s2 + Spaces(20) + Spaces(30) + D;
    ColumnsFront(n, s1, W, s2, Spaces(20), Spaces(30), D);
    ColumnsBack(n + s1 + W + s2, Spaces(20), Spaces(30), D);
  }

  lemma ColumnsFront(n: string, s1: string, W: string, s2: string, s3: string, s4: string, D: string)
    requires |n| + |s1| == 50 && |W| + |s2| == 30 && n != []
    requires !IsSpace(n[0]) && !IsSpace(n[|n| - 1]) && AllSpace(s1)
    requires W != [] && !IsSpace(W[0]) && !IsSpace(W[|W| - 1]) && AllSpace(s2)
    ensures Column(n + s1 + W + s2 + s3 + s4 + D, 0, 50) == n
    ensures Column(n + s1 + W + s2 + s3 + s4 + D, 50, 80) == W
  {
    var post := s3 + s4 + D;
    var line := n + s1 + W + s2 + s3 + s4 + D;
    assert line == n + s1 + W + s2 + post;
    assert line == [] + n + s1 + (W + s2 + post);
    ColumnOfPadded([], n, s1, W + s2 + post, 0, 50);
    assert line == (n + s1) + W + s2 + post;
    ColumnOfPadded(n + s1, W, s2, post, 50, 80);
  }

  lemma ColumnsBack(front: string, s3: string, s4: string, D: string)
    requires |front| == 80 && |s3| == 20 && |s4| == 30 && AllSpace(s3) && AllSpace(s4)
    requires D != [] && !IsSpace(D[0]) && !IsSpace(D[|D| - 1]) && |D| <= 30
    ensures Column(front + s3 + s4 + D, 80, 100) == []
    ensures Column(front + s3 + s4 + D, 100, 130) == []
    ensures Column(front + s3 + s4 + D, 130, 160) == D
  {
    var line := front + s3 + s4 + D;
    assert line == front + [] + s3 + (s4 + D);
    ColumnOfPadded(front, [], s3, s4 + D, 80, 100);
    assert line == (front + s3) + [] + s4 + D;
    ColumnOfPadded(front + s3, [], s4, D, 100, 130);
    assert line == (front + s3 + s4) + D + [] + [];
    ColumnOfPadded(front + s3 + s4, D, [], [], 130, 160);
  }

  /** A written row is long enough and is neither a header, blank nor HTML. */
  lemma RowIsData(n: string, W: string, D: string)
    requires ModelCell(n)
    requires W != [] && AllDigits(W) && |W| <= 30
    requires D != [] && AllDigits(D)
    ensures var line := Row(n, W, D);
            |line| >= 20 && !IsHeaderOrBlank(line) && !LooksHtml(line)
  {
    var line := Row(n, W, D);
    var tail := Spaces(50 - |n|) + W + Spaces(30 - |W|) + Spaces(50) + D;
    assert line == n + tail;
    assert forall i :: 0 <= i < |tail| ==> tail[i] == ' ' || IsDigit(tail[i]);
    assert line[0] == n[0];
    assert !AllSpace(line);
    WordNotInTail(n, tail, "MODELO");
    WordNotInTail(n, tail, "ANCHO");
    WordNotInTail(n, tail, "FILTROS");
    assert '>' !in line by {
      forall i | 0 <= i < |line| ensures line[i] != '>' {
        if i < |n| { assert line[i] == n[i]; } else { assert line[i] == tail[i - |n|]; }
      }
    }
  }

  /** A word ending in a letter that is not in `n` is not in `n` followed by
      spaces and digits either. */
  lemma WordNotInTail(n: string, tail: string, word: string)
    requires word != [] && 'A' <= word[|word| - 1] <= 'Z'
    requires !Contains(n, word)
    requires forall i :: 0 <= i < |tail| ==> tail[i] == ' ' || IsDigit(tail[i])
    ensures !Contains(n + tail, word)
  {
    var line := n + tail;
    forall j: nat ensures !OccursAt(line, word, j) {
      if OccursAt(line, word, j) {
        var e := j + |word| - 1;
        assert line[e] == word[|word| - 1];
        assert e < |n|;
        assert line[j..j + |word|] == n[j..j + |word|];
        assert OccursAt(n, word, j);
        assert false;
      }
    }
  }

  /** The results of `parse` on the lines that yield one, in line order. */
  function FilterMap(parse: string -> Option<HoodCsvEntry>, lines: seq<string>): seq<HoodCsvEntry> {
    if lines == [] then []
    else
      var rest := FilterMap(parse, lines[..|lines| - 1]);
      match parse(lines[|lines| - 1])
      case Some(e) => rest + [e]
      case None => rest
  }

  /** The entries of the lines, in line order. */
  function Entries(lines: seq<string>): seq<HoodCsvEntry> {
    FilterMap(ParseLine, lines)
  }

  /** The line loop of `loadTevexHoodsFromCsv`, on text already fetched. */
  method LoadTevexHoodsFromText(txt: string) returns (out: seq<HoodCsvEntry>)
    ensures out == Entries(SplitLines(txt))
  {
    var lines := SplitLines(txt);
    if |lines| == 0 {
      return [];
    }
    out := [];
    for i := 0 to |lines|
      invariant out == FilterMap(ParseLine, lines[..i])
    {
      FilterMapStep(ParseLine, lines, i);
      var e := ParseRow(lines[i]);
      if e.Some? {
        out := out + [e.value];
      }
    }
    assert lines[..|lines|] == lines;
  }

  /** The body of the line loop: each `continue` is an early return of nothing. */
  method ParseRow(line: string) returns (e: Option<HoodCsvEntry>)
    ensures e == ParseLine(line)
  {
    if IsHeaderOrBlank(line) {
      return None;
    }
    if LooksHtml(line) || |line| < 20 {
      return None;
    }
    var modelo := Column(line, 0, 50);
    var anchoStr := Column(line, 50, 80);
    var filtrosStr := Column(line, 80, 100);
    var m3hStr := Column(line, 100, 130);
    var fondoStr := Column(line, 130, 160);
    if modelo == [] || AllSpace(modelo) {
      return None;
    }
    var anchoMm := ParseNumberLike(Some(anchoStr));
    var filtros := ParseNumberLike(Some(filtrosStr));
    var m3h := ParseNumberLike(Some(m3hStr));
    var fondoMm := ParseNumberLike(Some(fondoStr));
    e := None;
    if HoodCalc.Truthy(anchoMm) && HoodCalc.Truthy(fondoMm) {
      e := Some(HoodCsvEntry(Trim(CollapseSpaces(modelo)), anchoMm.value, fondoMm.value, filtros, m3h));
    }
  }

  /** One more line adds its result, if it has one, at the end. */
  lemma FilterMapStep(parse: string -> Option<HoodCsvEntry>, lines: seq<string>, i: nat)
    requires i < |lines|
    ensures parse(lines[i]).None? ==> FilterMap(parse, lines[..i + 1]) == FilterMap(parse, lines[..i])
    ensures parse(lines[i]).Some? ==>
              FilterMap(parse, lines[..i + 1]) == FilterMap(parse, lines[..i]) + [parse(lines[i]).value]
  {
    assert lines[..i + 1][..i] == lines[..i];
  }

  /** The entries of two blocks of lines are the entries of each, in order. */
  lemma {:induction false} FilterMapAppend(parse: string -> Option<HoodCsvEntry>, a: seq<string>, b: seq<string>)
    ensures FilterMap(parse, a + b) == FilterMap(parse, a) + FilterMap(parse, b)
    decreases |b|
  {
    if b == [] {
      assert a + b == a;
    } else {
      var b0 := b[..|b| - 1];
      assert (a + b)[..|a + b| - 1] == a + b0;
      assert (a + b)[|a + b| - 1] == b[|b| - 1];
      FilterMapAppend(parse, a, b0);
    }
  }

  /** At most one entry per line, and every entry is what some line yields. */
  lemma {:induction false} FilterMapFromLines(parse: string -> Option<HoodCsvEntry>, lines: seq<string>)
    ensures |FilterMap(parse, lines)| <= |lines|
    ensures forall e :: e in FilterMap(parse, lines) ==> exists l :: l in lines && parse(l) == Some(e)
  {
    if lines != [] {
      var init, last := lines[..|lines| - 1], lines[|lines| - 1];
      FilterMapFromLines(parse, init);
      forall e | e in FilterMap(parse, lines) ensures exists l :: l in lines && parse(l) == Some(e) {
        if e in FilterMap(parse, init) {
          var l :| l in init && parse(l) == Some(e);
          assert l in lines;
        } else {
          assert last in lines;
        }
      }
    }
  }

  /** The table's entries keep the order of its lines: the entries of two blocks
      of lines are those of the first block followed by those of the second. */
  lemma EntriesAppend(a: seq<string>, b: seq<string>)
    ensures Entries(a + b) == Entries(a) + Entries(b)
  {
    FilterMapAppend(ParseLine, a, b);
  }

  /** Every entry has a positive width and depth and a non-empty, trimmed,
      single-spaced model name, comes from one of the lines, and no line gives
      more than one. */
  lemma EntriesFromLines(lines: seq<string>)
    ensures |Entries(lines)| <= |lines|
    ensures forall e :: e in Entries(lines) ==>
              && e.anchoMm > 0.0 && e.fondoMm > 0.0 && e.modelo != [] && SingleSpaced(e.modelo)
              && exists l :: l in lines && !IsHeaderOrBlank(l) && ParseLine(l) == Some(e)
  {
    FilterMapFromLines(ParseLine, lines);
  }
}
