/**
 * JavaScript's `parseFloat` over exact numbers: after leading white space it reads the
 * longest prefix that is a decimal literal (optional sign, digits with an optional
 * fraction, optional exponent) and ignores the rest; when no such prefix exists the
 * result is `NaN`, here `None`.
 */
module Numero {
  import opened Wrappers
  import Texto

  predicate IsDigit(c: char) { '0' <= c <= '9' }

  function DigitValue(c: char): nat
    requires IsDigit(c)
  {
    (c as int) - ('0' as int)
  }

  predicate AllDigits(s: string) {
    forall i :: 0 <= i < |s| ==> IsDigit(s[i])
  }

  /** Length of the longest run of digits at the start of `s`. */
  function DigitRun(s: string): (n: nat)
    ensures n <= |s|
    ensures AllDigits(s[..n])
    ensures n < |s| ==> !IsDigit(s[n])
  {
    if s != [] && IsDigit(s[0]) then
      var n' := DigitRun(s[1..]);
      assert s[..n' + 1] == [s[0]] + s[1..][..n'];
      n' + 1
    else 0
  }

  /** The natural number a digit string denotes. */
  function DigitsValue(ds: string): nat
    requires AllDigits(ds)
  {
    if ds == [] then 0 else 10 * DigitsValue(ds[..|ds| - 1]) + DigitValue(ds[|ds| - 1])
  }

  function Pow10(n: nat): (p: nat)
    ensures p >= 1
  {
    if n == 0 then 1 else 10 * Pow10(n - 1)
  }

  /** Sign prefix: `-` negates, `+` is dropped, anything else is left alone. */
  function SplitSign(t: string): (bool, string)
  {
    if t != [] && (t[0] == '-' || t[0] == '+') then (t[0] == '-', t[1..]) else (false, t)
  }

  /** The factor an exponent part `e[+-]digits` at the start of `s` contributes; 1 when there is none. */
  function ExponentScale(s: string): (f: real)
    ensures f > 0.0
  {
    if s != [] && (s[0] == 'e' || s[0] == 'E') then
      var (neg, u) := SplitSign(s[1..]);
      var k := DigitRun(u);
      if k == 0 then 1.0
      else
        var p := Pow10(DigitsValue(u[..k])) as real;
        if neg then 1.0 / p else p
    else 1.0
  }

  /** An unsigned decimal literal at the start of `u`: `digits [. digits] [exponent]` or `. digits [exponent]`. */
  function ParseUnsigned(u: string): Option<real>
  {
    var n := DigitRun(u);
    var rest := u[n..];
    var hasPoint := rest != [] && rest[0] == '.';
    var f := if hasPoint then DigitRun(rest[1..]) else 0;
    if n == 0 && f == 0 then None
    else
      var fraction := if hasPoint then rest[1..][..f] else [];
      var after := if hasPoint then rest[1 + f..] else rest;
      var mantissa := DigitsValue(u[..n]) as real + DigitsValue(fraction) as real / Pow10(f) as real;
      Some(mantissa * ExponentScale(after))
  }

  /** `parseFloat(s)`; `None` stands for `NaN`. */
  function ParseFloat(s: string): (r: Option<real>)
    ensures r.Some? ==> var t := Texto.TrimStart(s);
      t != [] && (IsDigit(t[0]) || t[0] == '-' || t[0] == '+' || t[0] == '.')
  {
    var sign := SplitSign(Texto.TrimStart(s));
    match ParseUnsigned(sign.1)
    case None => None
    case Some(v) =>
      UnsignedStartsWell(sign.1);
      Some(if sign.0 then -v else v)
  }

  /** A literal is read only when it starts with a digit, or with a point and a digit. */
  lemma {:induction false} UnsignedStartsWell(u: string)
    requires ParseUnsigned(u).Some?
    ensures u != [] && (IsDigit(u[0]) || (u[0] == '.' && |u| >= 2 && IsDigit(u[1])))
  {
    if DigitRun(u) > 0 {
      assert u[..DigitRun(u)][0] == u[0];
    }
  }

  /** `parseFloat(x) || 0`: `NaN` (and zero) become 0. */
  function ParseFloatOrZero(s: string): (r: real)
    ensures ParseFloat(s).None? ==> r == 0.0
    ensures ParseFloat(s).Some? ==> r == ParseFloat(s).value
  {
    match ParseFloat(s)
    case None => 0.0
    case Some(v) => if v != 0.0 then v else 0.0
  }

  /** Text with no digit at all is `NaN`: "", "-", ".", "--5" are examples. */
  lemma {:induction false} NoDigitIsNaN(s: string)
    requires forall i :: 0 <= i < |s| ==> !IsDigit(s[i])
    ensures ParseFloat(s).None?
  {
    DigitWhenRead(s);
  }

  lemma {:induction false} DigitWhenRead(s: string)
    ensures ParseFloat(s).Some? ==> exists i :: 0 <= i < |s| && IsDigit(s[i])
  {
    var t := Texto.TrimStart(s);
    var u := SplitSign(t).1;
    if ParseUnsigned(u).Some? {
      UnsignedStartsWell(u);
      var k := |s| - |u|;
      assert u == s[k..];
      if IsDigit(u[0]) {
        assert IsDigit(s[k]);
      } else {
        assert IsDigit(s[k + 1]);
      }
    }
  }

  lemma {:induction false} NaNExamples()
    ensures ParseFloat("").None? && ParseFloat("-").None? && ParseFloat(".").None?
  {
    NoDigitIsNaN("");
    assert "-"[0] == '-';
    NoDigitIsNaN("-");
    assert "."[0] == '.';
    NoDigitIsNaN(".");
  }

  lemma {:induction false} DoubleMinusIsNaN()
    ensures ParseFloat("--5").None?
  {
    var s := "--5";
    assert s[0] == '-' && s[1] == '-';
    assert !Texto.IsSpace(s[0]);
    assert Texto.TrimStart(s) == s;
    var u := SplitSign(s).1;
    assert u == s[1..] && u[0] == '-';
    assert DigitRun(u) == 0;
    assert ParseUnsigned(u).None?;
  }

  function DigitChar(d: nat): (c: char)
    requires d < 10
    ensures IsDigit(c) && DigitValue(c) == d
  {
    ('0' as int + d) as char
  }

  /** The decimal numeral of `n`, without leading zeros. */
  function NatToDigits(n: nat): (ds: string)
    ensures |ds| >= 1 && AllDigits(ds)
  {
    if n < 10 then [DigitChar(n)] else NatToDigits(n / 10) + [DigitChar(n % 10)]
  }

  lemma {:induction false} NatToDigitsValue(n: nat)
    ensures DigitsValue(NatToDigits(n)) == n
  {
    var ds := NatToDigits(n);
    if n < 10 {
      assert ds[..0] == [];
    } else {
      NatToDigitsValue(n / 10);
      assert ds[..|ds| - 1] == NatToDigits(n / 10);
    }
  }

  /** A run of digits ends where the first non-digit starts. */
  lemma {:induction false} DigitRunOf(ds: string, t: string)
    requires AllDigits(ds)
    requires t == [] || !IsDigit(t[0])
    ensures DigitRun(ds + t) == |ds|
  {
    if ds != [] {
      assert (ds + t)[1..] == ds[1..] + t;
      DigitRunOf(ds[1..], t);
    } else {
      assert ds + t == t;
    }
  }

  /** An amount in cents written as `units.cc`, the way statements print it. */
  function CentsText(c: nat): string
  {
    NatToDigits(c / 100) + "." + [DigitChar(c / 10 % 10), DigitChar(c % 10)]
  }

  /** An integer part, a point and a fraction read as their decimal value. */
  lemma {:induction false} DecimalReading(ip: string, fp: string)
    requires |ip| >= 1 && AllDigits(ip) && |fp| >= 1 && AllDigits(fp)
    ensures ParseUnsigned(ip + "." + fp)
         == Some(DigitsValue(ip) as real + DigitsValue(fp) as real / Pow10(|fp|) as real)
  {
    var s := ip + "." + fp;
    assert s == ip + ("." + fp);
    DigitRunOf(ip, "." + fp);
    assert s[..|ip|] == ip;
    var rest := s[|ip|..];
    assert rest == "." + fp;
    assert rest[1..] == fp;
    DigitRunOf(fp, "");
    assert fp + "" == fp;
    assert fp[..|fp|] == fp && rest[1 + |fp|..] == [];
    assert ExponentScale([]) == 1.0;
  }

  /** An exponent part `e` followed by digits scales by ten to the power those digits denote. */
  lemma {:induction false} ExponentOf(k: string)
    requires |k| >= 1 && AllDigits(k)
    ensures ExponentScale("e" + k) == Pow10(DigitsValue(k)) as real
  {
    var s := "e" + k;
    assert s[0] == 'e' && s[1..] == k;
    assert SplitSign(k) == (false, k);
    DigitRunOf(k, "");
    assert k + "" == k;
    assert k[..|k|] == k;
  }

  /** In `1e<t>` the digit run is the leading one and the exponent part follows it. */
  lemma {:induction false} OneThenExponent(t: string)
    ensures DigitRun("1e" + t) == 1 && ("1e" + t)[..1] == "1" && ("1e" + t)[1..] == "e" + t
  {
    assert "1e" + t == "1" + ("e" + t);
    DigitRunOf("1", "e" + t);
  }

  /** A one followed by an exponent, `1e<k>`, reads as ten to the power `k`. */
  lemma {:induction false} PowerOfTenReading(k: string)
    requires |k| >= 1 && AllDigits(k)
    ensures ParseUnsigned("1e" + k) == Some(Pow10(DigitsValue(k)) as real)
  {
    OneThenExponent(k);
    assert DigitsValue("1") == 1 && DigitsValue([]) == 0 && Pow10(0) == 1;
    ExponentOf(k);
  }

  /** A negative exponent divides: `1e-<k>` reads as one over ten to the power `k`. */
  lemma {:induction false} NegativeExponentReading(k: string)
    requires |k| >= 1 && AllDigits(k)
    ensures ParseUnsigned("1e-" + k) == Some(1.0 / Pow10(DigitsValue(k)) as real)
  {
    assert "1e-" + k == "1e" + ("-" + k);
    OneThenExponent("-" + k);
    assert DigitsValue("1") == 1 && DigitsValue([]) == 0 && Pow10(0) == 1;
    var e := "e" + ("-" + k);
    assert e[0] == 'e' && e[1..] == "-" + k;
    assert SplitSign("-" + k) == (true, k);
    DigitRunOf(k, "");
    assert k + "" == k && k[..|k|] == k;
  }

  /** `parseFloat("1e3")` is 1000: the amount and salary fields accept an exponent. */
  lemma ExponentExample()
    ensures ParseFloat("1e3") == Some(1000.0)
  {
    assert AllDigits("3");
    PowerOfTenReading("3");
    assert "1e" + "3" == "1e3";
    assert DigitsValue("3") == 3;
    assert Pow10(3) == 1000;
    UnsignedStart("1e3");
  }

  /** Two fraction digits: the value of the pair over 100. */
  lemma {:induction false} DecimalUnsigned(ip: string, d1: char, d2: char)
    requires |ip| >= 1 && AllDigits(ip) && IsDigit(d1) && IsDigit(d2)
    ensures ParseUnsigned(ip + "." + [d1, d2])
         == Some(DigitsValue(ip) as real + (10 * DigitValue(d1) + DigitValue(d2)) as real / 100.0)
  {
    var fp := [d1, d2];
    DecimalReading(ip, fp);
    assert fp[..|fp| - 1] == [d1] && [d1][..0] == [];
    assert DigitsValue([d1]) == DigitValue(d1);
    assert DigitsValue(fp) == 10 * DigitValue(d1) + DigitValue(d2);
    assert Pow10(|fp|) == 100;
  }

  lemma {:induction false} CentsArith(c: nat)
    ensures (c / 100) as real + (10 * (c / 10 % 10) + c % 10) as real / 100.0 == c as real / 100.0
  {
    var q := c / 100;
    var r := c % 100;
    assert c == 100 * q + r;
    assert 10 * (c / 10 % 10) + c % 10 == r;
    assert c as real == 100.0 * (q as real) + r as real;
  }

  /** The unsigned reading of `units.cc` is the amount in cents over 100. */
  lemma {:induction false} CentsUnsigned(c: nat)
    ensures ParseUnsigned(CentsText(c)) == Some(c as real / 100.0)
  {
    var ip := NatToDigits(c / 100);
    var d1 := DigitChar(c / 10 % 10);
    var d2 := DigitChar(c % 10);
    assert CentsText(c) == ip + "." + [d1, d2];
    DecimalUnsigned(ip, d1, d2);
    NatToDigitsValue(c / 100);
    CentsArith(c);
  }

  /** Reading back an amount printed with two decimals yields that amount exactly, with either sign. */
  lemma {:induction false} CentsRoundTrip(c: nat)
    ensures ParseFloat(CentsText(c)) == Some(c as real / 100.0)
    ensures ParseFloat("-" + CentsText(c)) == Negate(Some(c as real / 100.0))
  {
    CentsStartsWithDigit(c);
    CentsUnsigned(c);
    UnsignedStart(CentsText(c));
    MinusPrefix(CentsText(c));
  }

  lemma {:induction false} CentsStartsWithDigit(c: nat)
    ensures CentsText(c) != [] && IsDigit(CentsText(c)[0])
  {
    assert CentsText(c)[0] == NatToDigits(c / 100)[0];
  }

  /** `NaN` stays `NaN`; a number changes sign. */
  function Negate(r: Option<real>): Option<real>
  {
    if r.None? then None else Some(-r.value)
  }

  /** A leading minus sign negates whatever the rest reads as. */
  lemma {:induction false} MinusNegates(x: string)
    requires x == [] || (!Texto.IsSpace(x[0]) && x[0] != '-' && x[0] != '+')
    ensures ParseFloat("-" + x) == Negate(ParseFloat(x))
  {
    MinusPrefix(x);
    UnsignedStart(x);
  }

  lemma {:induction false} MinusPrefix(x: string)
    requires x == [] || (x[0] != '-' && x[0] != '+')
    ensures ParseFloat("-" + x) == Negate(ParseUnsigned(x))
  {
    var m := ['-'] + x;
    assert "-" + x == m;
    assert m[0] == '-' && m[1..] == x;
    Texto.TrimStartNonSpace(m);
    assert SplitSign(m) == (true, x);
    SignedReading(m);
  }

  /** What `parseFloat` does after the white space: read the sign, then the unsigned literal. */
  lemma {:induction false} SignedReading(s: string)
    ensures var sign := SplitSign(Texto.TrimStart(s));
      ParseFloat(s) == if sign.0 then Negate(ParseUnsigned(sign.1)) else ParseUnsigned(sign.1)
  {
  }

  lemma {:induction false} UnsignedStart(x: string)
    requires x == [] || (!Texto.IsSpace(x[0]) && x[0] != '-' && x[0] != '+')
    ensures ParseFloat(x) == ParseUnsigned(x)
  {
    assert Texto.TrimStart(x) == x;
    assert SplitSign(x) == (false, x);
  }

  /** Reading back a whole number printed in decimal yields that number. */
  lemma {:induction false} NatRoundTrip(n: nat)
    ensures ParseFloat(NatToDigits(n)) == Some(n as real)
  {
    var ds := NatToDigits(n);
    DigitRunOf(ds, "");
    assert ds + "" == ds;
    assert ds[..|ds|] == ds && ds[|ds|..] == [];
    NatToDigitsValue(n);
    assert ExponentScale([]) == 1.0;
    assert ParseUnsigned(ds) == Some(n as real);
    assert !Texto.IsSpace(ds[0]);
    UnsignedStart(ds);
  }
}
