/** Decimal text to numbers, as Python's `int(str)` and `float(str)` read the
    plain ASCII forms the quote provider sends ("150.2300", "-1.25", "48213900").
    Prices are exact reals: binary floating point is not modelled. */
module Numbers {
  import opened Wrappers

  predicate IsDigit(c: char) {
    '0' <= c <= '9'
  }

  predicate AllDigits(s: string) {
    forall i :: 0 <= i < |s| ==> IsDigit(s[i])
  }

  function DigitValue(c: char): nat
    requires IsDigit(c)
  {
    (c as int) - ('0' as int)
  }

  function DigitChar(d: nat): (c: char)
    requires d < 10
    ensures IsDigit(c) && DigitValue(c) == d
  {
    (d + '0' as int) as char
  }

  function Pow10(k: nat): (r: nat)
    ensures r >= 1
  {
    if k == 0 then 1 else 10 * Pow10(k - 1)
  }

  /** The value of a digit string, most significant digit first; "" is 0. */
  function DigitsValue(s: string): nat
    requires AllDigits(s)
  {
    if |s| == 0 then 0 else DigitsValue(s[..|s| - 1]) * 10 + DigitValue(s[|s| - 1])
  }

  /** Index of the first occurrence of `c` in `s`. */
  function IndexOf(s: string, c: char): (k: nat)
    requires c in s
    ensures k < |s| && s[k] == c && c !in s[..k]
  {
    if s[0] == c then 0 else 1 + IndexOf(s[1..], c)
  }

  /** `int(s)` on a string without surrounding blanks: an optional sign, then one or more digits. */
  function ParseInt(s: string): (r: Option<int>)
    ensures r.Some? ==> |s| > 0 && IsDigit(s[|s| - 1])
    ensures r.Some? && r.value < 0 ==> s[0] == '-'
  {
    if |s| > 0 && (s[0] == '-' || s[0] == '+') then
      var body := s[1..];
      if |body| > 0 && AllDigits(body) then
        Some(if s[0] == '-' then -(DigitsValue(body) as int) else DigitsValue(body))
      else None
    else if |s| > 0 && AllDigits(s) then Some(DigitsValue(s))
    else None
  }

  /** The number written `whole.frac`. */
  function DecimalValue(whole: string, frac: string): real
    requires AllDigits(whole) && AllDigits(frac)
  {
    DigitsValue(whole) as real + DigitsValue(frac) as real / Pow10(|frac|) as real
  }

  /** `float(s)` on an unsigned decimal: digits with at most one '.', and at least one digit. */
  function ParseUnsignedReal(s: string): (r: Option<real>)
    ensures r.Some? ==> |s| > 0
    ensures r.Some? ==> r.value >= 0.0
  {
    var k := if '.' in s then IndexOf(s, '.') else |s|;
    var whole := s[..k];
    var frac := if k < |s| then s[k + 1..] else "";
    if |whole| + |frac| > 0 && AllDigits(whole) && AllDigits(frac) then
      Some(DecimalValue(whole, frac))
    else None
  }

  /** `float(s)`: an optional sign in front of an unsigned decimal. */
  function ParseReal(s: string): (r: Option<real>)
    ensures r.Some? ==> |s| > 0
    ensures r.Some? && r.value < 0.0 ==> s[0] == '-'
  {
    if |s| > 0 && (s[0] == '-' || s[0] == '+') then
      match ParseUnsignedReal(s[1..])
      case None => None
      case Some(v) => Some(if s[0] == '-' then -v else v)
    else ParseUnsignedReal(s)
  }

  // ---------------------------------------------------------------------------
  // Reference formatters, the inverses the parsers are checked against

  /** Canonical decimal text of a natural number: digits only, no leading zero. */
  function NatToString(n: nat): (s: string)
    ensures |s| > 0 && AllDigits(s)
    ensures |s| == 1 || s[0] != '0'
  {
    if n < 10 then [DigitChar(n)] else NatToString(n / 10) + [DigitChar(n % 10)]
  }

  function IntToString(i: int): (s: string)
    ensures |s| > 0
  {
    if i < 0 then "-" + NatToString(-i) else NatToString(i)
  }

  function Zeros(n: nat): (s: string)
    ensures |s| == n && AllDigits(s)
  {
    if n == 0 then "" else Zeros(n - 1) + "0"
  }

  /** `s` left-padded with zeros to width `k`. */
  function PadZeros(s: string, k: nat): (r: string)
    requires AllDigits(s)
    ensures AllDigits(r) && |r| == if |s| >= k then |s| else k
  {
    if |s| >= k then s else Zeros(k - |s|) + s
  }

  /** The provider's fixed-point price text ("150.2300"): the whole part, a '.',
      and `frac` written with exactly `k` (at least one) digits. A negative
      price is this text behind a '-' (see `ParseRealSign`). */
  function FixedText(whole: nat, frac: nat, k: nat): (s: string)
    requires k >= 1 && frac < Pow10(k)
  {
    NatToString(whole) + "." + PadZeros(NatToString(frac), k)
  }

  /** The number `FixedText` writes: `whole + frac / 10^k`. */
  function FixedValue(whole: nat, frac: nat, k: nat): real {
    whole as real + frac as real / Pow10(k) as real
  }

  /** A price or price change as the provider writes it: an optional '-' in
      front of `whole.frac`, the fraction written with `digits` digits. */
  datatype Fixed = Fixed(negative: bool, whole: nat, frac: nat, digits: nat)

  /** The fraction has at least one digit and fits in the digits given. */
  predicate WellFormedFixed(x: Fixed) {
    x.digits >= 1 && x.frac < Pow10(x.digits)
  }

  /** `u` behind a '-' when `negative`. */
  function Signed(negative: bool, u: string): string {
    (if negative then "-" else "") + u
  }

  /** The provider's text for `x` ("150.2300", "-1.2500"). */
  function FixedSignedText(x: Fixed): string
    requires WellFormedFixed(x)
  {
    Signed(x.negative, FixedText(x.whole, x.frac, x.digits))
  }

  /** The number `x` stands for. */
  function FixedSignedValue(x: Fixed): real {
    if x.negative then -FixedValue(x.whole, x.frac, x.digits) else FixedValue(x.whole, x.frac, x.digits)
  }

  // ---------------------------------------------------------------------------
  // Round trips

  lemma {:induction false} DigitsValueAppend(s: string, c: char)
    requires AllDigits(s) && IsDigit(c)
    ensures AllDigits(s + [c]) && DigitsValue(s + [c]) == DigitsValue(s) * 10 + DigitValue(c)
  {
    assert (s + [c])[..|s|] == s;
  }

  /** Parsing the canonical text of `n` gives back `n`. */
  lemma {:induction false} ParseNatToString(n: nat)
    ensures DigitsValue(NatToString(n)) == n
  {
    if n >= 10 {
      ParseNatToString(n / 10);
      DigitsValueAppend(NatToString(n / 10), DigitChar(n % 10));
    }
  }

  /** `int(str(i)) == i`. */
  lemma ParseIntToString(i: int)
    ensures ParseInt(IntToString(i)) == Some(i)
  {
    if i < 0 {
      var n: nat := -i;
      var t := NatToString(n);
      ParseNatToString(n);
      assert IntToString(i) == "-" + t;
      assert ("-" + t)[1..] == t;
      assert ParseInt("-" + t) == Some(-(DigitsValue(t) as int));
    } else {
      var t := NatToString(i);
      ParseNatToString(i);
      assert t[0] != '-' && t[0] != '+';
      assert ParseInt(t) == Some(DigitsValue(t));
    }
  }

  /** Leading zeros do not change the value of a digit string. */
  lemma {:induction false} DigitsValueZeros(n: nat, s: string)
    requires AllDigits(s)
    ensures AllDigits(Zeros(n) + s) && DigitsValue(Zeros(n) + s) == DigitsValue(s)
    decreases |s|, n
  {
    if |s| == 0 {
      assert Zeros(n) + s == Zeros(n);
      if n > 0 {
        DigitsValueZeros(n - 1, "");
        assert Zeros(n - 1) + "" == Zeros(n - 1);
        DigitsValueAppend(Zeros(n - 1), '0');
      }
    } else {
      var init := s[..|s| - 1];
      DigitsValueZeros(n, init);
      assert Zeros(n) + s == (Zeros(n) + init) + [s[|s| - 1]];
      DigitsValueAppend(Zeros(n) + init, s[|s| - 1]);
    }
  }

  /** A number below `10^k` needs at most `k` digits. */
  lemma {:induction false} NatToStringLength(r: nat, k: nat)
    requires k >= 1 && r < Pow10(k)
    ensures |NatToString(r)| <= k
  {
    if r >= 10 {
      assert k >= 2;
      assert r / 10 < Pow10(k - 1);
      NatToStringLength(r / 10, k - 1);
    }
  }

  /** A number below `10^k`, zero-padded to width `k`, is `k` digits worth that number. */
  lemma PaddedValue(r: nat, k: nat)
    requires k >= 1 && r < Pow10(k)
    ensures |PadZeros(NatToString(r), k)| == k
    ensures DigitsValue(PadZeros(NatToString(r), k)) == r
  {
    ParseNatToString(r);
    NatToStringLength(r, k);
    var s := NatToString(r);
    if |s| < k {
      DigitsValueZeros(k - |s|, s);
    }
  }

  /** `float` on `w.f` with digit strings `w` (non-empty) and `f`. */
  lemma ParseUnsignedDotted(w: string, f: string)
    requires |w| > 0 && AllDigits(w) && AllDigits(f)
    ensures ParseUnsignedReal(w + "." + f)
      == Some(DecimalValue(w, f))
  {
    var u := w + "." + f;
    assert u[|w|] == '.';
    assert forall j :: 0 <= j < |w| ==> u[j] == w[j];
    assert IndexOf(u, '.') == |w|;
    assert u[..|w|] == w && u[|w| + 1..] == f;
  }

  lemma DecimalValueOf(w: string, f: string, whole: nat, frac: nat, k: nat)
    requires AllDigits(w) && AllDigits(f)
    requires DigitsValue(w) == whole && DigitsValue(f) == frac && |f| == k
    ensures DecimalValue(w, f) == FixedValue(whole, frac, k)
  {
  }

  lemma ParseUnsignedFixedText(whole: nat, frac: nat, k: nat)
    requires k >= 1 && frac < Pow10(k)
    ensures |FixedText(whole, frac, k)| > 0 && IsDigit(FixedText(whole, frac, k)[0])
    ensures ParseUnsignedReal(FixedText(whole, frac, k)) == Some(FixedValue(whole, frac, k))
  {
    var w := NatToString(whole);
    var f := PadZeros(NatToString(frac), k);
    ParseUnsignedDotted(w, f);
    ParseNatToString(whole);
    PaddedValue(frac, k);
    DecimalValueOf(w, f, whole, frac, k);
  }

  /** A leading '-' negates what `float` reads; text that starts with a digit reads as unsigned. */
  lemma ParseRealSign(u: string, v: real)
    requires |u| > 0 && IsDigit(u[0]) && ParseUnsignedReal(u) == Some(v)
    ensures ParseReal(u) == Some(v)
    ensures ParseReal("-" + u) == Some(-v)
  {
    assert ("-" + u)[1..] == u;
  }

  /** With or without a leading '-', digit-led text reads as its unsigned value, negated when signed. */
  lemma ParseSigned(negative: bool, u: string, v: real)
    requires |u| > 0 && IsDigit(u[0]) && ParseUnsignedReal(u) == Some(v)
    ensures ParseReal(Signed(negative, u)) == Some(if negative then -v else v)
  {
    ParseRealSign(u, v);
    if !negative {
      assert Signed(negative, u) == u;
    }
  }

  /** `float` reads the provider's signed price text back to the exact value it stands for. */
  lemma ParseFixedSignedText(x: Fixed)
    requires WellFormedFixed(x)
    ensures ParseReal(FixedSignedText(x)) == Some(FixedSignedValue(x))
  {
    var u, v := FixedText(x.whole, x.frac, x.digits), FixedValue(x.whole, x.frac, x.digits);
    ParseUnsignedFixedText(x.whole, x.frac, x.digits);
    assert |u| > 0 && IsDigit(u[0]);
    assert ParseUnsignedReal(u) == Some(v);
    ParseSigned(x.negative, u, v);
    assert FixedSignedText(x) == Signed(x.negative, u);
    assert FixedSignedValue(x) == if x.negative then -v else v;
  }
}
