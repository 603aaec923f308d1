/** `Number.parseInt(text, 10)` and `Number.parseFloat(text)` (sections
    21.1.2.13 and 21.1.2.12 of ECMA-262) for decimal text: leading white
    space is skipped, an optional sign is read, and the longest run of
    digits (with one optional fraction for parseFloat) is taken; whatever
    follows is ignored. A text without digits there gives NaN, written
    None. */
module Numbers {
  import opened Types
  import opened Text

  /** How many leading characters of `s` are decimal digits. */
  function DigitRun(s: string): (n: nat)
    ensures n <= |s|
    ensures forall i :: 0 <= i < n ==> IsDigit(s[i])
    ensures n < |s| ==> !IsDigit(s[n])
  {
    if s == [] || !IsDigit(s[0]) then 0 else 1 + DigitRun(s[1..])
  }

  /** The number a run of decimal digits denotes. */
  function DigitsValue(d: string): nat
    requires forall i :: 0 <= i < |d| ==> IsDigit(d[i])
  {
    if d == [] then 0
    else 10 * DigitsValue(d[..|d| - 1]) + DigitValue(d[|d| - 1])
  }

  function DigitValue(c: char): nat
    requires IsDigit(c)
  {
    c as int - '0' as int
  }

  function Pow10(k: nat): (p: nat)
    ensures p >= 1
  {
    if k == 0 then 1 else 10 * Pow10(k - 1)
  }

  /** Leading white space removed. */
  function TrimStart(s: string): (r: string)
    ensures |r| <= |s| && r == s[|s| - |r|..]
    ensures r != [] ==> !IsJsWhitespace(r[0])
    ensures forall i :: 0 <= i < |s| - |r| ==> IsJsWhitespace(s[i])
  {
    if s != [] && IsJsWhitespace(s[0]) then TrimStart(s[1..]) else s
  }

  /** Whether a minus sign stands in front of the digits, and the text
      after the sign. */
  function SplitSign(s: string): (bool, string) {
    if s != [] && s[0] == '-' then (true, s[1..])
    else if s != [] && s[0] == '+' then (false, s[1..])
    else (false, s)
  }

  function ParseInt(s: string): (r: Option<int>)
    ensures r.Some? <==> var t := SplitSign(TrimStart(s)).1; t != [] && IsDigit(t[0])
  {
    var p := SplitSign(TrimStart(s));
    IntOf(p.0, p.1)
  }

  /** The whole number at the front of `t`: its digit run. */
  function IntOf(negative: bool, t: string): (r: Option<int>)
    ensures r.Some? <==> t != [] && IsDigit(t[0])
  {
    var k := DigitRun(t);
    if k == 0 then None
    else
      var v: int := DigitsValue(t[..k]);
      Some(if negative then -v else v)
  }

  function ParseFloat(s: string): (r: Option<real>)
    ensures (var t := SplitSign(TrimStart(s)).1; t != [] && IsDigit(t[0])) ==> r.Some?
  {
    var p := SplitSign(TrimStart(s));
    FloatOf(p.0, p.1)
  }

  /** The number at the front of `t`: digits, then an optional fraction. */
  function FloatOf(negative: bool, t: string): (r: Option<real>)
    ensures t != [] && IsDigit(t[0]) ==> r.Some?
  {
    var m := Magnitude(t);
    if m.None? then None else Some(if negative then -m.value else m.value)
  }

  /** The unsigned number at the front of `t`: a digit run, then a point
      and a second run; one of the runs may be empty, not both. */
  function Magnitude(t: string): (r: Option<real>)
    ensures t != [] && IsDigit(t[0]) ==> r.Some?
  {
    var k := DigitRun(t);
    var whole := DigitsValue(t[..k]) as real;
    if k < |t| && t[k] == '.' then
      var f := DigitRun(t[k + 1..]);
      if k == 0 && f == 0 then None
      else Some(whole + Fraction(t[k + 1..][..f]))
    else if k == 0 then None
    else Some(whole)
  }

  /** The digits after a decimal point, as the fraction they denote. */
  function Fraction(f: string): real
    requires forall i :: 0 <= i < |f| ==> IsDigit(f[i])
  {
    DigitsValue(f) as real / Pow10(|f|) as real
  }

  /** `String(n)` for a whole number: its decimal digits, with a minus
      sign in front when it is negative. */
  function NatText(n: nat): (d: string)
    ensures d != [] && forall i :: 0 <= i < |d| ==> IsDigit(d[i])
  {
    if n < 10 then [('0' as int + n) as char]
    else NatText(n / 10) + [('0' as int + n % 10) as char]
  }

  function IntText(n: int): string {
    if n < 0 then ['-'] + NatText(-n) else NatText(n)
  }

  lemma {:induction false} NatTextValue(n: nat)
    ensures DigitsValue(NatText(n)) == n
  {
    if n >= 10 {
      var d := NatText(n);
      assert d[..|d| - 1] == NatText(n / 10);
      NatTextValue(n / 10);
    }
  }

  /** A text of digits is one whole digit run. */
  lemma {:induction false} DigitRunAll(d: string)
    requires forall i :: 0 <= i < |d| ==> IsDigit(d[i])
    ensures DigitRun(d) == |d|
  {
    if d != [] {
      DigitRunAll(d[1..]);
    }
  }

  /** `String(n)` starts with a sign or a digit, so nothing is trimmed and
      the digits follow the sign. */
  lemma {:induction false} IntTextParts(n: int)
    ensures TrimStart(IntText(n)) == IntText(n)
    ensures SplitSign(IntText(n)) == (n < 0, NatText(if n < 0 then -n else n))
  {
    var s := IntText(n);
    if n < 0 {
      var d := NatText(-n);
      assert s == ['-'] + d;
      assert s[0] == '-' && s[1..] == d;
      NoTrimBefore(s);
    } else {
      var d := NatText(n);
      assert s == d && IsDigit(d[0]);
      assert s[0] != '-' && s[0] != '+';
      NoTrimBefore(s);
    }
  }

  /** A text starting with a sign or a digit has nothing to trim. */
  lemma {:induction false} NoTrimBefore(s: string)
    requires s != [] && (s[0] == '-' || IsDigit(s[0]))
    ensures TrimStart(s) == s
  {
    assert !IsJsWhitespace(s[0]);
  }

  /** What `String(n)` writes for a whole number, parseInt reads back. */
  lemma {:induction false} IntTextRoundTrip(n: int)
    ensures ParseInt(IntText(n)) == Some(n)
  {
    var m: nat := if n < 0 then -n else n;
    var d := NatText(m);
    IntTextParts(n);
    DigitRunAll(d);
    assert d[..|d|] == d;
    NatTextValue(m);
  }

  /** Without a fraction, parseFloat reads the same number parseInt does. */
  lemma {:induction false} FloatWithoutFraction(s: string)
    requires var t := SplitSign(TrimStart(s)).1;
      DigitRun(t) > 0 && (DigitRun(t) == |t| || t[DigitRun(t)] != '.')
    ensures ParseInt(s).Some? && ParseFloat(s) == Some(ParseInt(s).value as real)
  {
    var p := SplitSign(TrimStart(s));
    WholeFloat(p.0, p.1);
  }

  /** A digit run with no point after it reads the same as a whole number
      and as a float. */
  lemma {:induction false} WholeFloat(negative: bool, t: string)
    requires DigitRun(t) > 0 && (DigitRun(t) == |t| || t[DigitRun(t)] != '.')
    ensures IntOf(negative, t).Some? && FloatOf(negative, t) == Some(IntOf(negative, t).value as real)
  {
    var k := DigitRun(t);
    var n := DigitsValue(t[..k]);
    WholeMagnitude(t, k, n);
    var i: int := if negative then -(n as int) else n;
    assert IntOf(negative, t) == Some(i);
    assert FloatOf(negative, t) == Some(i as real);
  }

  /** Magnitude of a digit run with no fraction after it. */
  lemma {:induction false} WholeMagnitude(t: string, k: nat, n: nat)
    requires 0 < k == DigitRun(t) && (k == |t| || t[k] != '.') && DigitsValue(t[..k]) == n
    ensures Magnitude(t) == Some(n as real)
  {
  }

  /** The same text read by parseFloat gives the same whole number. */
  lemma {:induction false} IntTextFloat(n: int)
    ensures ParseFloat(IntText(n)) == Some(n as real)
  {
    var s := IntText(n);
    var d := NatText(if n < 0 then -n else n);
    IntTextParts(n);
    DigitRunAll(d);
    FloatWithoutFraction(s);
    IntTextRoundTrip(n);
  }

  /** Zeros in front of a digit run do not change its value. */
  lemma {:induction false} ZeroPaddedValue(z: string, d: string)
    requires forall i :: 0 <= i < |z| ==> z[i] == '0'
    requires forall i :: 0 <= i < |d| ==> IsDigit(d[i])
    ensures DigitsValue(z + d) == DigitsValue(d)
  {
    if d == [] {
      assert z + d == z;
      if z != [] {
        assert z[..|z| - 1] + [] == z[..|z| - 1];
        ZeroPaddedValue(z[..|z| - 1], []);
      }
    } else {
      assert (z + d)[..|z + d| - 1] == z + d[..|d| - 1];
      ZeroPaddedValue(z, d[..|d| - 1]);
    }
  }

  /** Leading white space is skipped whatever follows it. */
  lemma {:induction false} TrimStartSkips(ws: string, t: string)
    requires forall i :: 0 <= i < |ws| ==> IsJsWhitespace(ws[i])
    requires t == [] || !IsJsWhitespace(t[0])
    ensures TrimStart(ws + t) == t
  {
    if ws == [] {
      assert ws + t == t;
    } else {
      assert (ws + t)[1..] == ws[1..] + t;
      TrimStartSkips(ws[1..], t);
    }
  }

  /** A digit run stops at the first character that is not a digit. */
  lemma {:induction false} DigitRunStops(d: string, rest: string)
    requires forall i :: 0 <= i < |d| ==> IsDigit(d[i])
    requires rest == [] || !IsDigit(rest[0])
    ensures DigitRun(d + rest) == |d|
  {
    if d == [] {
      assert d + rest == rest;
    } else {
      assert (d + rest)[1..] == d[1..] + rest;
      DigitRunStops(d[1..], rest);
    }
  }

  /** A minus sign or a digit in front: nothing to trim, and the sign is
      read off. */
  lemma {:induction false} SignedStart(negative: bool, u: string)
    requires u != [] && IsDigit(u[0])
    ensures var t := (if negative then "-" else "") + u;
            t != [] && !IsJsWhitespace(t[0]) && SplitSign(t) == (negative, u)
  {
    var t := (if negative then "-" else "") + u;
    if negative {
      assert t[0] == '-' && t[1..] == u;
    } else {
      assert t == u;
    }
  }

  lemma {:induction false} Regroup(a: string, b: string, c: string, d: string, e: string)
    ensures a + b + c + d + e == a + (b + ((c + d) + e))
  {
  }

  /** parseInt of a text whose sign and digit run are known. */
  lemma {:induction false} ParseIntOfRun(s: string, negative: bool, u: string, k: nat, n: nat)
    requires SplitSign(TrimStart(s)) == (negative, u)
    requires 0 < k == DigitRun(u) && DigitsValue(u[..k]) == n
    ensures ParseInt(s) == Some(if negative then -(n as int) else n as int)
  {
    assert ParseInt(s) == IntOf(negative, u);
  }

  /** Zero padding in front of `String(n)` still reads as n. */
  lemma {:induction false} PaddedDigits(z: string, n: nat)
    requires forall i :: 0 <= i < |z| ==> z[i] == '0'
    ensures var d := z + NatText(n);
            d != [] && (forall i :: 0 <= i < |d| ==> IsDigit(d[i])) && DigitsValue(d) == n
  {
    var d := z + NatText(n);
    forall i | |z| <= i < |d| ensures IsDigit(d[i]) {
      assert d[i] == NatText(n)[i - |z|];
    }
    ZeroPaddedValue(z, NatText(n));
    NatTextValue(n);
  }

  /** parseInt reads a whole number wherever it stands in the forms the
      source meets: after white space, with a minus sign, zero-padded
      ("007"), and followed by text that is not a digit (" 12px"). */
  lemma {:induction false} ParseIntReads(ws: string, negative: bool, z: string, n: nat, rest: string)
    requires forall i :: 0 <= i < |ws| ==> IsJsWhitespace(ws[i])
    requires forall i :: 0 <= i < |z| ==> z[i] == '0'
    requires rest == [] || !IsDigit(rest[0])
    ensures ParseInt(ws + (if negative then "-" else "") + z + NatText(n) + rest)
            == Some(if negative then -(n as int) else n as int)
  {
    var sign := if negative then "-" else "";
    var s := ws + sign + z + NatText(n) + rest;
    var d := z + NatText(n);
    PaddedDigits(z, n);
    var u := d + rest;
    DigitRunStops(d, rest);
    assert u[0] == d[0] && u[..|d|] == d;
    Regroup(ws, sign, z, NatText(n), rest);
    ParseIntAfterSpace(s, ws, negative, u, |d|, n);
  }

  /** parseInt skips the white space in front of a sign and a digit run. */
  lemma {:induction false} ParseIntAfterSpace(s: string, ws: string, negative: bool, u: string, k: nat, n: nat)
    requires forall i :: 0 <= i < |ws| ==> IsJsWhitespace(ws[i])
    requires u != [] && IsDigit(u[0]) && k == DigitRun(u) && DigitsValue(u[..k]) == n
    requires s == ws + ((if negative then "-" else "") + u)
    ensures ParseInt(s) == Some(if negative then -(n as int) else n as int)
  {
    SignedStart(negative, u);
    var t := (if negative then "-" else "") + u;
    TrimStartSkips(ws, t);
    ParseIntOfRun(s, negative, u, k, n);
  }
}
