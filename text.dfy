/**
 * The subset of Python's text handling that the two router scripts apply to a
 * capture line: `str.strip()`, `str.split(',')`, `str.startswith`,
 * `str.isdigit()`, `int(s)`, `int(s, 16)` on a `0x`-prefixed field and
 * `float(s)`.  Numbers are restricted to ASCII digits (see README).
 */
module Text {
  import opened Wrappers

  // ---------------------------------------------------------------- strip

  /** The ASCII characters that `str.isspace()` accepts. */
  predicate IsSpace(c: char) {
    c == ' ' || c == '\t' || c == '\n' || c == '\r' || ('\U{0B}' <= c <= '\U{0D}')
    || ('\U{1C}' <= c <= '\U{1F}')
  }

  function TrimLeft(s: string): (r: string)
    ensures |r| <= |s| && r == s[|s| - |r|..]
    ensures r == [] || !IsSpace(r[0])
    ensures forall i :: 0 <= i < |s| - |r| ==> IsSpace(s[i])
  {
    if |s| > 0 && IsSpace(s[0]) then TrimLeft(s[1..]) else s
  }

  function TrimRight(s: string): (r: string)
    ensures |r| <= |s| && r == s[..|r|]
    ensures r == [] || !IsSpace(r[|r| - 1])
    ensures forall i :: |r| <= i < |s| ==> IsSpace(s[i])
  {
    if |s| > 0 && IsSpace(s[|s| - 1]) then TrimRight(s[..|s| - 1]) else s
  }

  /** `s.strip()`: the slice of `s` left once all leading and trailing white space is removed. */
  function Strip(s: string): (r: string)
    ensures r == [] || (!IsSpace(r[0]) && !IsSpace(r[|r| - 1]))
  {
    TrimRight(TrimLeft(s))
  }

  /** `strip()` keeps one slice of its argument and removes only white space around it. */
  lemma {:induction false} StripSlice(s: string)
    ensures exists i, j :: 0 <= i <= j <= |s| && Strip(s) == s[i..j]
                           && (forall k :: 0 <= k < i ==> IsSpace(s[k]))
                           && (forall k :: j <= k < |s| ==> IsSpace(s[k]))
  {
    var i := |s| - |TrimLeft(s)|;
    var j := i + |Strip(s)|;
    StripSliceAt(s, i, j);
  }

  lemma {:induction false} StripSliceAt(s: string, i: int, j: int)
    requires i == |s| - |TrimLeft(s)| && j == i + |Strip(s)|
    ensures 0 <= i <= j <= |s| && Strip(s) == s[i..j]
    ensures forall k :: 0 <= k < i ==> IsSpace(s[k])
    ensures forall k :: j <= k < |s| ==> IsSpace(s[k])
  {
    var l := TrimLeft(s);
    var r := TrimRight(l);
    assert Strip(s) == r && j == i + |r| && l == s[i..];
    InnerSlice(s, l, r, i);
  }

  /** A prefix r of the suffix l = s[i..] is the slice s[i..i + |r|], and what follows r in l follows it in s. */
  lemma {:induction false} InnerSlice(s: string, l: string, r: string, i: int)
    requires 0 <= i <= |s| && l == s[i..] && |r| <= |l| && r == l[..|r|]
    requires forall k :: |r| <= k < |l| ==> IsSpace(l[k])
    ensures r == s[i..i + |r|]
    ensures forall k :: i + |r| <= k < |s| ==> IsSpace(s[k])
  {
    forall k | i + |r| <= k < |s| ensures IsSpace(s[k]) {
      assert s[k] == l[k - i];
    }
  }

  /** A string without white space at either end is its own `strip()`. */
  lemma {:induction false} StripNoSpace(s: string)
    requires s == [] || (!IsSpace(s[0]) && !IsSpace(s[|s| - 1]))
    ensures Strip(s) == s
  {
    assert TrimLeft(s) == s;
  }

  // ---------------------------------------------------------------- split

  function CountChar(s: string, c: char): nat {
    if |s| == 0 then 0 else CountChar(s[1..], c) + (if s[0] == c then 1 else 0)
  }

  /** `sep.join(parts)`: the inverse of `Split`. */
  function Join(parts: seq<string>, sep: char): string
    requires |parts| > 0
  {
    if |parts| == 1 then parts[0] else parts[0] + [sep] + Join(parts[1..], sep)
  }

  /** `s.split(sep)` with a one-character separator. */
  function Split(s: string, sep: char): (r: seq<string>)
    ensures |r| == CountChar(s, sep) + 1
    ensures forall i :: 0 <= i < |r| ==> sep !in r[i]
    ensures Join(r, sep) == s
  {
    if |s| == 0 then [""]
    else
      var rest := Split(s[1..], sep);
      if s[0] == sep then
        assert Join([""] + rest, sep) == [sep] + Join(rest, sep);
        [""] + rest
      else
        var r := [[s[0]] + rest[0]] + rest[1..];
        assert |rest| > 1 ==> Join(rest, sep) == rest[0] + [sep] + Join(rest[1..], sep);
        assert r[1..] == rest[1..];
        assert Join(r, sep) == [s[0]] + Join(rest, sep);
        assert s == [s[0]] + s[1..];
        r
  }

  lemma {:induction false} SplitPrefix(a: string, rest: string, sep: char)
    requires sep !in a
    ensures Split(a + rest, sep) == [a + Split(rest, sep)[0]] + Split(rest, sep)[1..]
    decreases |a|
  {
    if |a| > 0 {
      var s := a + rest;
      assert s[0] == a[0] && a[0] != sep;
      assert s[1..] == a[1..] + rest;
      SplitPrefix(a[1..], rest, sep);
      var S := Split(rest, sep);
      var R := Split(s[1..], sep);
      assert R == [a[1..] + S[0]] + S[1..];
      assert R[0] == a[1..] + S[0] && R[1..] == S[1..];
      assert Split(s, sep) == [[s[0]] + R[0]] + R[1..];
      assert [a[0]] + (a[1..] + S[0]) == a + S[0];
    } else {
      assert a + rest == rest;
      var r := Split(rest, sep);
      assert a + r[0] == r[0];
      assert r == [r[0]] + r[1..];
    }
  }

  /** Splitting a joined list of separator-free fields gives the fields back. */
  lemma {:induction false} SplitJoin(fields: seq<string>, sep: char)
    requires |fields| > 0
    requires forall i :: 0 <= i < |fields| ==> sep !in fields[i]
    ensures Split(Join(fields, sep), sep) == fields
  {
    if |fields| == 1 {
      SplitPrefix(fields[0], "", sep);
      assert fields[0] + "" == fields[0];
      assert Split("", sep) == [""];
    } else {
      var tail := Join(fields[1..], sep);
      var t := [sep] + tail;
      assert Join(fields, sep) == fields[0] + t;
      SplitJoin(fields[1..], sep);
      SplitAfterSep(tail, sep);
      SplitPrefix(fields[0], t, sep);
      Reassemble(fields, Split(t, sep));
    }
  }

  /** A string that starts with the separator splits into an empty field and the split of the rest. */
  lemma {:induction false} SplitAfterSep(tail: string, sep: char)
    ensures Split([sep] + tail, sep) == [""] + Split(tail, sep)
  {
    var t := [sep] + tail;
    assert t[0] == sep && t[1..] == tail;
  }

  lemma {:induction false} Reassemble(fields: seq<string>, rest: seq<string>)
    requires |fields| > 1 && rest == [""] + fields[1..]
    ensures [fields[0] + rest[0]] + rest[1..] == fields
  {
    assert fields[0] + "" == fields[0];
    assert rest[1..] == fields[1..];
  }

  /** The first character of a join is that of its first part, when that part is not empty. */
  lemma {:induction false} JoinFirst(parts: seq<string>, sep: char)
    requires |parts| > 0 && |parts[0]| > 0
    ensures |Join(parts, sep)| > 0 && Join(parts, sep)[0] == parts[0][0]
  {
  }

  /** The last character of a join is that of its last part, or the separator when that part is empty. */
  lemma {:induction false} JoinLast(parts: seq<string>, sep: char)
    requires |parts| > 1
    ensures var j := Join(parts, sep); var l := parts[|parts| - 1];
            |j| > 0 && j[|j| - 1] == if |l| > 0 then l[|l| - 1] else sep
  {
    var t := parts[1..];
    if |t| > 1 {
      JoinLast(t, sep);
    }
  }

  /** A line whose first field starts and whose last field ends without white space is not changed by `strip()`. */
  lemma {:induction false} JoinUnstripped(parts: seq<string>, sep: char)
    requires |parts| > 1 && !IsSpace(sep)
    requires |parts[0]| > 0 && !IsSpace(parts[0][0])
    requires var l := parts[|parts| - 1]; |l| == 0 || !IsSpace(l[|l| - 1])
    ensures Strip(Join(parts, sep)) == Join(parts, sep)
  {
    JoinFirst(parts, sep);
    JoinLast(parts, sep);
    StripNoSpace(Join(parts, sep));
  }

  predicate StartsWith(s: string, prefix: string) {
    |prefix| <= |s| && s[..|prefix|] == prefix
  }

  // ---------------------------------------------------------------- digits

  predicate IsDigit(c: char) {
    '0' <= c <= '9'
  }

  /** `s.isdigit()`: non-empty and made only of (ASCII) digits. */
  predicate IsDigits(s: string) {
    |s| > 0 && forall i :: 0 <= i < |s| ==> IsDigit(s[i])
  }

  predicate AllDigits(s: string) {
    forall i :: 0 <= i < |s| ==> IsDigit(s[i])
  }

  function DigitsValue(s: string): nat
    requires AllDigits(s)
  {
    if |s| == 0 then 0 else DigitsValue(s[..|s| - 1]) * 10 + (s[|s| - 1] - '0') as nat
  }

  predicate IsHexDigit(c: char) {
    IsDigit(c) || ('a' <= c <= 'f') || ('A' <= c <= 'F')
  }

  function HexDigitValue(c: char): (v: nat)
    requires IsHexDigit(c)
    ensures v < 16
  {
    if IsDigit(c) then (c - '0') as nat
    else if 'a' <= c <= 'f' then (c - 'a') as nat + 10
    else (c - 'A') as nat + 10
  }

  predicate AllHexDigits(s: string) {
    forall i :: 0 <= i < |s| ==> IsHexDigit(s[i])
  }

  function HexValue(s: string): nat
    requires AllHexDigits(s)
  {
    if |s| == 0 then 0 else HexValue(s[..|s| - 1]) * 16 + HexDigitValue(s[|s| - 1])
  }

  /** The decimal text of `n`, as `str(n)` writes it. */
  function ShowNat(n: nat): (s: string)
    ensures IsDigits(s)
  {
    if n < 10 then ['0' + n as char] else ShowNat(n / 10) + ['0' + (n % 10) as char]
  }

  lemma {:induction false} DigitsValueShowNat(n: nat)
    ensures DigitsValue(ShowNat(n)) == n
  {
    if n >= 10 {
      var s := ShowNat(n);
      assert s[..|s| - 1] == ShowNat(n / 10);
      DigitsValueShowNat(n / 10);
    }
  }

  // ---------------------------------------------------------------- numbers

  /** An optional leading sign: whether it was '-', and what follows it. */
  function SplitSign(t: string): (bool, string) {
    if |t| > 0 && (t[0] == '-' || t[0] == '+') then (t[0] == '-', t[1..]) else (false, t)
  }

  /** `int(s)`: surrounding white space, an optional sign, then decimal digits; otherwise a ValueError (None). */
  function ParseInt(s: string): (r: Option<int>)
    ensures r.Some? <==> IsDigits(SplitSign(Strip(s)).1)
  {
    var (neg, body) := SplitSign(Strip(s));
    if IsDigits(body) then
      var v: int := DigitsValue(body);
      Some(if neg then -v else v)
    else None
  }

  /** `int(s)` reads back what `str(n)` wrote. */
  lemma {:induction false} ParseIntShowNat(n: nat)
    ensures ParseInt(ShowNat(n)) == Some(n)
  {
    var s := ShowNat(n);
    assert IsDigit(s[0]) && IsDigit(s[|s| - 1]);
    assert Strip(s) == s by {
      StripNoSpace(s);
    }
    assert SplitSign(s) == (false, s);
    DigitsValueShowNat(n);
  }

  /** `int(s, 16)` for a field that starts with "0x": trailing white space, then at least one hex digit. */
  function ParseHexPrefixed(s: string): (r: Option<nat>)
    requires StartsWith(s, "0x")
    ensures r.Some? ==> |s| > 2 && IsHexDigit(s[2])
  {
    var t := Strip(s);
    if |t| > 2 && AllHexDigits(t[2..]) then Some(HexValue(t[2..])) else None
  }

  /** The position of the first '.' in `s`, or |s| when there is none. */
  function DotIndex(s: string): (i: nat)
    ensures i <= |s|
    ensures forall k :: 0 <= k < i ==> s[k] != '.'
    ensures i < |s| ==> s[i] == '.'
  {
    if |s| == 0 || s[0] == '.' then 0 else 1 + DotIndex(s[1..])
  }

  /** The value of the digits after a decimal point: 0.d1d2... = (d1 + 0.d2...) / 10, at least 0 and below 1. */
  function FractionValue(frac: string): (v: real)
    requires AllDigits(frac)
    ensures 0.0 <= v < 1.0
  {
    if |frac| == 0 then 0.0 else ((frac[0] - '0') as real + FractionValue(frac[1..])) / 10.0
  }

  /** The value of the decimal literal `<whole>.<frac>`; its whole part is DigitsValue(whole). */
  function FixedPointValue(whole: string, frac: string): (v: real)
    requires AllDigits(whole) && AllDigits(frac)
    ensures DigitsValue(whole) as real <= v < DigitsValue(whole) as real + 1.0
  {
    DigitsValue(whole) as real + FractionValue(frac)
  }

  /** An unsigned decimal literal: digits, optionally a '.' and more digits, with at least one digit in all. */
  function ParseUnsignedDecimal(b: string): (r: Option<real>)
    ensures r.Some? ==> r.value >= 0.0
  {
    var i := DotIndex(b);
    var whole := b[..i];
    var frac := if i < |b| then b[i + 1..] else "";
    if AllDigits(whole) && AllDigits(frac) && |whole| + |frac| > 0 then
      Some(FixedPointValue(whole, frac))
    else None
  }

  /** `float(s)` restricted to plain decimal notation. */
  function ParseFloat(s: string): (r: Option<real>)
  {
    var (neg, body) := SplitSign(Strip(s));
    var v :- ParseUnsignedDecimal(body);
    Some(if neg then -v else v)
  }

  /** An epoch timestamp as the capture tool writes it, `<seconds>.<fraction>`, is read exactly. */
  lemma {:induction false} ParseFloatFixedPoint(whole: string, frac: string)
    requires IsDigits(whole) && AllDigits(frac)
    ensures ParseFloat(whole + "." + frac) == Some(FixedPointValue(whole, frac))
  {
    var s := whole + "." + frac;
    assert !IsSpace(s[0]) && !IsSpace(s[|s| - 1]) by {
      assert s[0] == whole[0];
      if |frac| > 0 { assert s[|s| - 1] == frac[|frac| - 1]; } else { assert s[|s| - 1] == '.'; }
    }
    StripNoSpace(s);
    assert SplitSign(s) == (false, s);
    UnsignedFixedPoint(whole, frac);
  }

  lemma {:induction false} UnsignedFixedPoint(whole: string, frac: string)
    requires IsDigits(whole) && AllDigits(frac)
    ensures ParseUnsignedDecimal(whole + "." + frac) == Some(FixedPointValue(whole, frac))
  {
    var s := whole + "." + frac;
    assert DotIndex(s) == |whole| by {
      assert s == whole + ("." + frac);
      DotIndexAfterDigits(whole, "." + frac);
    }
    assert s[..|whole|] == whole;
    assert s[|whole| + 1..] == frac;
  }

  lemma {:induction false} DotIndexAfterDigits(a: string, rest: string)
    requires AllDigits(a) && |rest| > 0 && rest[0] == '.'
    ensures DotIndex(a + rest) == |a|
    decreases |a|
  {
    if |a| > 0 {
      assert (a + rest)[1..] == a[1..] + rest;
      DotIndexAfterDigits(a[1..], rest);
    } else {
      assert a + rest == rest;
    }
  }

  /** `float(s)` reads an integer text as that integer. */
  lemma {:induction false} ParseFloatShowNat(n: nat)
    ensures ParseFloat(ShowNat(n)) == Some(n as real)
  {
    var s := ShowNat(n);
    assert IsDigit(s[0]) && IsDigit(s[|s| - 1]);
    StripNoSpace(s);
    assert SplitSign(s) == (false, s);
    assert DotIndex(s) == |s| by {
      assert '.' !in s by {
        forall k | 0 <= k < |s| ensures s[k] != '.' {
          assert IsDigit(s[k]);
        }
      }
      DotIndexMissing(s);
    }
    assert s[..|s|] == s;
    DigitsValueShowNat(n);
    assert FixedPointValue(s, "") == n as real;
    assert ParseUnsignedDecimal(s) == Some(n as real);
  }

  lemma {:induction false} DotIndexMissing(s: string)
    requires '.' !in s
    ensures DotIndex(s) == |s|
  {
    if |s| > 0 {
      assert '.' !in s[1..];
      DotIndexMissing(s[1..]);
    }
  }

  // ---------------------------------------------------------------- written fields

  /** The decimal literal `<whole>.<frac>`. */
  function Decimal(whole: string, frac: string): string {
    whole + "." + frac
  }

  lemma {:induction false} DecimalCommaFree(whole: string, frac: string)
    requires AllDigits(whole) && AllDigits(frac)
    ensures ',' !in Decimal(whole, frac)
  {
    var s := Decimal(whole, frac);
    forall k | 0 <= k < |s| ensures s[k] != ',' {
      if k < |whole| {
        assert s[k] == whole[k];
      } else if k > |whole| {
        assert s[k] == frac[k - |whole| - 1];
      }
    }
  }

  lemma {:induction false} ShowNatCommaFree(n: nat)
    ensures ',' !in ShowNat(n)
  {
    var s := ShowNat(n);
    forall k | 0 <= k < |s| ensures s[k] != ',' {
      assert IsDigit(s[k]);
    }
  }

  /** A `0x` field with a hex digit at its end is not changed by `strip()`. */
  lemma {:induction false} HexFieldUnstripped(f: string)
    requires StartsWith(f, "0x") && |f| > 2 && AllHexDigits(f[2..])
    ensures ParseHexPrefixed(f) == Some(HexValue(f[2..]))
  {
    assert f[0] == '0';
    assert IsHexDigit(f[|f| - 1]) by {
      assert f[|f| - 1] == f[2..][|f| - 3];
    }
    StripNoSpace(f);
  }
}
