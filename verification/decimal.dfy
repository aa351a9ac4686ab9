/** `Json::integer` and `exact_positive_integer` of components/controller/json.cpp:168-178 and
    protocol.cpp:35-66: a JSON number as a 64-bit integer, without rounding. */
module Decimals {
  import opened JsonSyntax

  const INT64_MAX := 0x7FFF_FFFF_FFFF_FFFF
  const TEXT_LIMIT := 64
  const EXPONENT_LIMIT := 64

  function Digit(c: char): int { c as int - '0' as int }

  predicate AllDigits(ds: string) { forall i | 0 <= i < |ds| :: IsDigit(ds[i]) }

  /** The number that digits spell. */
  function Val(ds: string): (v: int)
    requires AllDigits(ds)
    ensures v >= 0
  {
    if ds == "" then 0 else Val(ds[..|ds| - 1]) * 10 + Digit(ds[|ds| - 1])
  }

  function Pow10(n: nat): (p: int)
    ensures p >= 1
  {
    if n == 0 then 1 else 10 * Pow10(n - 1)
  }

  // ----- The exact value of a number -----

  function Mantissa(n: Numeral): (ds: string)
    requires n.Valid()
    ensures AllDigits(ds)
  {
    n.whole + if n.fraction.Whole? then "" else n.fraction.digits
  }

  function Magnitude(n: Numeral): nat
    requires n.Valid()
  {
    if n.exponent.NoExponent? then 0 else Val(n.exponent.digits)
  }

  /** The power of ten that the mantissa's digits are multiplied by. */
  function Scale(n: Numeral): int
    requires n.Valid()
  {
    (if n.exponent.Power? && n.exponent.sign == "-" then -(Magnitude(n) as int) else Magnitude(n) as int)
    - if n.fraction.Whole? then 0 else |n.fraction.digits|
  }

  /** `v` is exactly the number's value, its sign aside. */
  predicate IsExactly(n: Numeral, v: int)
    requires n.Valid()
  {
    var m, s := Val(Mantissa(n)), Scale(n);
    if s >= 0 then v == m * Pow10(s) else v * Pow10(-s) == m
  }

  /** The numbers that have a value the conversion can return. */
  ghost predicate IsInt64(n: Numeral)
    requires n.Valid()
  {
    exists v :: 0 <= v <= INT64_MAX && IsExactly(n, v)
  }

  /** When the conversion succeeds, besides having such a value: short enough, no minus sign, no huge
      exponent, and a zero with at least as many digits as its negative scale takes away. */
  predicate Convertible(n: Numeral)
    requires n.Valid()
  {
    && |n.Text()| < TEXT_LIMIT && !n.minus && Magnitude(n) <= EXPONENT_LIMIT
    && (Val(Mantissa(n)) == 0 ==> |Mantissa(n)| + Scale(n) >= 0)
  }

  // ----- Arithmetic -----

  lemma {:induction false} ValLast(ds: string, c: char)
    requires AllDigits(ds) && IsDigit(c)
    ensures AllDigits(ds + [c]) && Val(ds + [c]) == Val(ds) * 10 + Digit(c)
  {
    var w := ds + [c];
    assert w[..|w| - 1] == ds;
  }

  lemma {:induction false} ValGrows(ds: string, n: nat)
    requires AllDigits(ds) && n <= |ds|
    ensures AllDigits(ds[..n]) && Val(ds[..n]) <= Val(ds)
    decreases |ds|
  {
    if n < |ds| {
      ValGrows(ds[..|ds| - 1], n);
      assert ds[..|ds| - 1][..n] == ds[..n];
    } else {
      assert ds[..n] == ds;
    }
  }

  lemma {:induction false} PowAdd(a: nat, b: nat)
    ensures Pow10(a + b) == Pow10(a) * Pow10(b)
  {
    if a > 0 {
      PowAdd(a - 1, b);
    }
  }

  lemma {:induction false} MulGrows(a: int, b: int, p: int)
    requires a < b && p >= 1
    ensures a * p < b * p
    decreases p
  {
    if p > 1 {
      MulGrows(a, b, p - 1);
      assert a * p == a * (p - 1) + a && b * p == b * (p - 1) + b;
    }
  }

  lemma Regroup(a: int, p: int, q: int)
    ensures a * (p * q) == (a * p) * q
  {
  }

  lemma Cancel(a: int, b: int, p: int)
    requires p >= 1 && a * p == b * p
    ensures a == b
  {
    if a < b {
      MulGrows(a, b, p);
    } else if b < a {
      MulGrows(b, a, p);
    }
  }

  /** `v` is the digits' number divided by a power of ten, exactly. */
  predicate Quotient(v: int, k: nat, digits: string)
    requires AllDigits(digits)
  {
    v * Pow10(k) == Val(digits)
  }

  /** A number that ends in another digit than zero is no multiple of ten. */
  lemma NotMultiple(ds: string, v: int, k: nat)
    requires AllDigits(ds) && ds != "" && ds[|ds| - 1] != '0' && k > 0
    ensures v * Pow10(k) != Val(ds)
  {
    var w := v * Pow10(k - 1);
    assert v * Pow10(k) == 10 * w;
    assert Val(ds) == Val(ds[..|ds| - 1]) * 10 + Digit(ds[|ds| - 1]);
    assert (10 * w - Val(ds[..|ds| - 1]) * 10) == 10 * (w - Val(ds[..|ds| - 1]));
  }

  // ----- The conversions -----

  /** Plain digits, at most nineteen of them. */
  method Integer(text: string) returns (ok: bool, v: int)
    ensures ok <==> text != "" && |text| <= 19 && AllDigits(text) && Val(text) <= INT64_MAX
    ensures ok ==> v == Val(text)
  {
    v := 0;
    if text == "" || |text| > 19 || text[0] == '-' {
      return false, v;
    }
    for i := 0 to |text|
      invariant AllDigits(text[..i]) && v == Val(text[..i]) <= INT64_MAX
    {
      if !IsDigit(text[i]) {
        return false, v;
      }
      ValLast(text[..i], text[i]);
      assert text[..i + 1] == text[..i] + [text[i]];
      if v > (INT64_MAX - Digit(text[i])) / 10 {
        if AllDigits(text) {
          ValGrows(text, i + 1);
        }
        return false, v;
      }
      v := v * 10 + Digit(text[i]);
    }
    assert text[..|text|] == text;
    ok := true;
  }

  /** The mantissa's digits, how many of them are behind the point, and where the exponent starts. */
  method SplitMantissa(text: string, ghost n: Numeral) returns (digits: string, fractional: nat, i: nat)
    requires n.Valid() && !n.minus && text == n.Text()
    ensures digits == Mantissa(n) && fractional == (if n.fraction.Whole? then 0 else |n.fraction.digits|)
    ensures i == |n.whole| + |n.fraction.Text()|
  {
    ghost var w, f := |n.whole|, n.fraction.Text();
    assert text == n.whole + f + n.exponent.Text();
    ghost var end := w + |f|;
    digits, fractional, i := "", 0, 0;
    var fraction := false;
    while i < |text| && text[i] != 'e' && text[i] != 'E'
      invariant i <= end <= |text|
      invariant i <= w ==> digits == n.whole[..i] && !fraction && fractional == 0
      invariant i > w ==>
                  && fraction && n.fraction.Point? && fractional == i - w - 1
                  && digits == n.whole + n.fraction.digits[..fractional]
      decreases |text| - i
    {
      Letter(text, n, i);
      if text[i] == '.' {
        fraction := true;
      } else {
        digits := digits + [text[i]];
        if fraction {
          fractional := fractional + 1;
        }
      }
      i := i + 1;
    }
    Letter(text, n, i);
    assert n.whole[..w] == n.whole;
    assert n.fraction.Point? ==> n.fraction.digits[..|n.fraction.digits|] == n.fraction.digits;
  }

  /** What stands at each place of a number's text. */
  lemma Letter(text: string, n: Numeral, i: nat)
    requires n.Valid() && !n.minus && text == n.Text() && i <= |text|
    ensures var w, f, x := |n.whole|, n.fraction.Text(), n.exponent.Text();
            && |text| == w + |f| + |x|
            && (i < w ==> text[i] == n.whole[i] && IsDigit(text[i]))
            && (w <= i < w + |f| ==> n.fraction.Point? && text[i] == f[i - w])
            && (w < i < w + |f| ==> text[i] == n.fraction.digits[i - w - 1] && IsDigit(text[i]))
            && (i == w < w + |f| ==> text[i] == '.')
            && (w + |f| <= i < |text| ==> n.exponent.Power? && text[i] == x[i - w - |f|])
            && (i == w + |f| < |text| ==> text[i] == n.exponent.marker)
  {
    assert text == n.whole + n.fraction.Text() + n.exponent.Text();
  }

  lemma Cuts(text: string, head: string, marker: char, sign: string, digits: string)
    requires text == head + ([marker] + sign + digits)
    ensures var p := |head| + 1;
            && |text| == p + |sign| + |digits| && text[p + |sign|..] == digits
            && (if sign == "" then digits != "" ==> text[p] == digits[0] else text[p] == sign[0])
  {
    var tail := [marker] + sign + digits;
    assert text[|head|..] == tail;
    if sign != "" {
      assert tail[1] == sign[0];
    }
  }

  lemma SignShows(sign: string, digits: string, c: char)
    requires (sign == "" || sign == "+" || sign == "-") && Digits(digits)
    requires c == if sign == "" then digits[0] else sign[0]
    ensures (c == '-' <==> sign == "-") && (c == '+' <==> sign == "+")
  {
  }

  lemma TextParts(n: Numeral)
    requires n.Valid() && !n.minus && n.exponent.Power?
    ensures n.Text() == n.whole + n.fraction.Text() + ([n.exponent.marker] + n.exponent.sign + n.exponent.digits)
  {
  }

  /** Where the digits of an exponent are, and what stands before them. */
  lemma ExponentDigits(text: string, n: Numeral, i: nat)
    requires n.Valid() && !n.minus && text == n.Text() && i == |n.whole| + |n.fraction.Text()| < |text|
    ensures n.exponent.Power? && i + 1 < |text|
    ensures var x, start := n.exponent, i + 1 + |n.exponent.sign|;
            && start <= |text| && text[start..] == x.digits && AllDigits(x.digits)
            && (text[i + 1] == '-' <==> x.sign == "-") && (text[i + 1] == '+' <==> x.sign == "+")
  {
    Letter(text, n, i);
    var head, sign, digits := n.whole + n.fraction.Text(), n.exponent.sign, n.exponent.digits;
    TextParts(n);
    Cuts(text, head, n.exponent.marker, sign, digits);
    SignShows(sign, digits, text[i + 1]);
  }

  method BoundedValue(text: string, start: nat) returns (ok: bool, e: int)
    requires start <= |text| && AllDigits(text[start..])
    ensures ok <==> Val(text[start..]) <= EXPONENT_LIMIT
    ensures ok ==> e == Val(text[start..])
  {
    var p := start;
    ghost var digits := text[start..];
    e := 0;
    while p < |text|
      invariant start <= p <= |text| && e == Val(digits[..p - start]) && 0 <= e <= EXPONENT_LIMIT
    {
      ghost var k := p - start;
      assert text[p] == digits[k];
      ValLast(digits[..k], digits[k]);
      assert digits[..k + 1] == digits[..k] + [digits[k]];
      e := e * 10 + Digit(text[p]);
      p := p + 1;
      if e > EXPONENT_LIMIT {
        ValGrows(digits, k + 1);
        return false, e;
      }
    }
    assert digits[..p - start] == digits;
    ok := true;
  }

  /** The exponent that starts at `i`, unless it is beyond the limit. */
  method ReadExponent(text: string, ghost n: Numeral, i: nat) returns (ok: bool, e: int)
    requires n.Valid() && !n.minus && text == n.Text() && i == |n.whole| + |n.fraction.Text()|
    ensures ok <==> Magnitude(n) <= EXPONENT_LIMIT
    ensures ok ==>
              e == if n.exponent.Power? && n.exponent.sign == "-" then -(Magnitude(n) as int) else Magnitude(n) as int
  {
    Letter(text, n, i);
    if i == |text| {
      return true, 0;
    }
    ExponentDigits(text, n, i);
    var p := i + 1;
    var negative := text[p] == '-';
    if text[p] == '-' || text[p] == '+' {
      p := p + 1;
    }
    ok, e := BoundedValue(text, p);
    if negative {
      e := -e;
    }
  }

  /** `left` is the digits without `j` zeros at their end. */
  predicate Stripped(left: string, j: nat, digits: string) {
    AllDigits(left) && AllDigits(digits) && Val(left) * Pow10(j) == Val(digits)
  }

  lemma StripOne(left: string, j: nat, digits: string)
    requires Stripped(left, j, digits) && left != "" && left[|left| - 1] == '0'
    ensures Stripped(left[..|left| - 1], j + 1, digits)
  {
    var shorter := left[..|left| - 1];
    assert Val(left) == Val(shorter) * 10;
    assert Val(shorter) * (10 * Pow10(j)) == Val(left) * Pow10(j);
  }

  lemma AllStripped(left: string, k: nat, digits: string)
    requires Stripped(left, k, digits)
    ensures exists v :: Quotient(v, k, digits)
  {
    assert Quotient(Val(left), k, digits);
  }

  /** Zeros at the end of the digits make up for a negative scale, as far as there are any. */
  method StripZeros(digits: string, scale: int, ghost k: nat) returns (ok: bool, left: string)
    requires AllDigits(digits) && scale < 0 && k == -scale
    ensures ok ==> AllDigits(left) && Val(left) * Pow10(k) == Val(digits)
    ensures ok <==> |digits| >= k && exists v :: Quotient(v, k, digits)
  {
    left := digits;
    var s := scale;
    assert Stripped(left, 0, digits);
    while s < 0
      invariant s <= 0 && s - scale == |digits| - |left| && Stripped(left, s - scale, digits)
    {
      if left == "" {
        return false, left;
      }
      if left[|left| - 1] != '0' {
        NoQuotient(left, s - scale, digits, k);
        return false, left;
      }
      StripOne(left, s - scale, digits);
      left, s := left[..|left| - 1], s + 1;
    }
    AllStripped(left, k, digits);
    ok := true;
  }

  lemma NoQuotient(left: string, j: nat, digits: string, k: nat)
    requires AllDigits(left) && AllDigits(digits) && left != "" && left[|left| - 1] != '0' && j < k
    requires Val(left) * Pow10(j) == Val(digits)
    ensures !exists v :: Quotient(v, k, digits)
  {
    PowAdd(k - j, j);
    forall v
      ensures !Quotient(v, k, digits)
    {
      var p, q := Pow10(k - j), Pow10(j);
      NotMultiple(left, v, k - j);
      Regroup(v, p, q);
      if (v * p) * q == Val(left) * q {
        Cancel(v * p, Val(left), q);
      }
    }
  }

  method Accumulate(digits: string) returns (ok: bool, v: int)
    requires AllDigits(digits)
    ensures ok <==> Val(digits) <= INT64_MAX
    ensures ok ==> v == Val(digits)
  {
    v, ok := 0, true;
    for k := 0 to |digits|
      invariant v == Val(digits[..k]) <= INT64_MAX
    {
      ValLast(digits[..k], digits[k]);
      assert digits[..k + 1] == digits[..k] + [digits[k]];
      if v > (INT64_MAX - Digit(digits[k])) / 10 {
        ValGrows(digits, k + 1);
        return false, v;
      }
      v := v * 10 + Digit(digits[k]);
    }
    assert digits[..|digits|] == digits;
  }

  method ScaleUp(m: int, scale: nat) returns (ok: bool, v: int)
    requires 0 <= m <= INT64_MAX
    ensures ok <==> m * Pow10(scale) <= INT64_MAX
    ensures ok ==> v == m * Pow10(scale)
  {
    v, ok := m, true;
    var left := scale;
    assert Pow10(0) == 1;
    while left > 0
      invariant 0 <= v <= INT64_MAX && v * Pow10(left) == m * Pow10(scale)
    {
      if v > INT64_MAX / 10 {
        assert v * 10 <= v * 10 * Pow10(left - 1) == v * Pow10(left) by { Larger(v * 10, Pow10(left - 1)); }
        return false, v;
      }
      assert (v * 10) * Pow10(left - 1) == v * Pow10(left);
      v, left := v * 10, left - 1;
    }
  }

  lemma Larger(a: int, p: int)
    requires a >= 0 && p >= 1
    ensures a <= a * p
  {
  }

  /** Only a number without sign, point and exponent is all digits. */
  lemma PlainDigits(n: Numeral)
    requires n.Valid() && AllDigits(n.Text())
    ensures !n.minus && n.fraction.Whole? && n.exponent.NoExponent? && n.whole == n.Text()
  {
    if n.minus {
      MinusFirst(n);
    } else {
      Letter(n.Text(), n, |n.whole|);
    }
  }

  lemma MinusFirst(n: Numeral)
    requires n.minus
    ensures |n.Text()| > 0 && n.Text()[0] == '-'
  {
  }

  /** Two numbers that are whole and are refused: a zero written with a negative exponent, and ten
      million written with one of 65. */
  lemma RefusedThoughWhole(zero: Numeral, ten: Numeral, zeros: string)
    requires zero == Numeral(false, "0", Whole, Power('e', "-", "5"))
    requires |zeros| == 57 && (forall i | 0 <= i < 57 :: zeros[i] == '0')
    requires ten == Numeral(false, "0", Point(zeros + "1"), Power('e', "", "65"))
    ensures zero.Valid() && IsInt64(zero) && !Convertible(zero)
    ensures ten.Valid() && IsInt64(ten) && |ten.Text()| < TEXT_LIMIT && !Convertible(ten)
  {
    assert Mantissa(zero) == "0" && "0"[..0] == "" && "5"[..0] == "";
    assert Val("0") == 0 && Val("5") == 5;
    assert IsExactly(zero, 0);
    var ds := "0" + zeros;
    AllZeros(ds);
    assert Mantissa(ten) == ds + ['1'];
    ValLast(ds, '1');
    assert "65"[..1] == "6" && "6"[..0] == "" && Val("6") == 6 && Val("65") == 65;
    assert Pow10(7) == 10000000 by {
      assert Pow10(0) == 1 && Pow10(1) == 10 && Pow10(2) == 100 && Pow10(3) == 1000 && Pow10(4) == 10000 && Pow10(5) == 100000;
    }
    assert IsExactly(ten, 10000000);
  }

  lemma {:induction false} AllZeros(ds: string)
    requires forall i | 0 <= i < |ds| :: ds[i] == '0'
    ensures AllDigits(ds) && Val(ds) == 0
    decreases |ds|
  {
    if ds != "" {
      AllZeros(ds[..|ds| - 1]);
    }
  }

  lemma OneValue(n: Numeral, v: int, v': int)
    requires n.Valid() && IsExactly(n, v) && IsExactly(n, v')
    ensures v == v'
  {
    if Scale(n) < 0 {
      Cancel(v, v', Pow10(-Scale(n)));
    }
  }

  lemma {:induction false} ValBound(ds: string)
    requires AllDigits(ds)
    ensures Val(ds) < Pow10(|ds|)
    decreases |ds|
  {
    if ds != "" {
      ValBound(ds[..|ds| - 1]);
    }
  }

  lemma {:induction false} PowGrows(a: nat, b: nat)
    requires a <= b
    ensures Pow10(a) <= Pow10(b)
  {
    if a < b {
      PowGrows(a, b - 1);
    }
  }

  lemma Multiple(p: int, v: int)
    requires p >= 1 && v >= 1
    ensures p <= v * p
  {
    Larger(p, v);
  }

  /** A number with fewer digits than its scale takes away is zero or no integer. */
  lemma TooFewDigits(ds: string, k: nat, v: int)
    requires AllDigits(ds) && |ds| < k && v >= 0 && Quotient(v, k, ds)
    ensures Val(ds) == 0
  {
    ValBound(ds);
    PowGrows(|ds|, k);
    if v >= 1 {
      Multiple(Pow10(k), v);
    }
  }

  /** The zeros cannot be stripped: the number has no value that may be returned. */
  lemma NotStripped(n: Numeral, k: nat)
    requires n.Valid() && Scale(n) < 0 && k == -Scale(n)
    requires !(|Mantissa(n)| >= k && exists v :: Quotient(v, k, Mantissa(n)))
    ensures !(Convertible(n) && IsInt64(n))
  {
    if IsInt64(n) {
      var v :| 0 <= v <= INT64_MAX && IsExactly(n, v);
      assert Quotient(v, k, Mantissa(n));
      TooFewDigits(Mantissa(n), k, v);
    }
  }

  /** What the number is, once the zeros that a negative scale takes away are gone. */
  lemma ValueIs(n: Numeral, left: string, v: int)
    requires n.Valid() && AllDigits(left)
    requires if Scale(n) < 0 then Val(left) * Pow10(-Scale(n)) == Val(Mantissa(n)) && v == Val(left)
             else left == Mantissa(n) && v == Val(left) * Pow10(Scale(n))
    ensures IsExactly(n, v) && v >= Val(left)
    ensures IsInt64(n) <==> v <= INT64_MAX
  {
    if Scale(n) >= 0 {
      Larger(Val(left), Pow10(Scale(n)));
    }
    assert v <= INT64_MAX ==> 0 <= v <= INT64_MAX && IsExactly(n, v);
    if IsInt64(n) {
      var w :| 0 <= w <= INT64_MAX && IsExactly(n, w);
      OneValue(n, v, w);
    }
  }

  /** The conversion of a JSON number: it succeeds exactly for the convertible numbers whose value is
      an integer of at most 63 bits, and returns that value. */
  method ExactPositiveInteger(text: string, ghost n: Numeral) returns (ok: bool, v: int)
    requires n.Valid() && text == n.Text()
    ensures ok <==> Convertible(n) && IsInt64(n)
    ensures ok ==> 0 <= v <= INT64_MAX && IsExactly(n, v)
  {
    ok, v := Integer(text);
    if ok {
      PlainDigits(n);
      assert Pow10(0) == 1 && text + "" == text;
      ValueIs(n, text, v);
      return;
    }
    assert n.minus ==> text[0] == '-';
    assert !n.minus ==> text[0] == n.whole[0];
    if |text| >= TEXT_LIMIT || text[0] == '-' {
      return;
    }
    var digits, fractional, i := SplitMantissa(text, n);
    var e;
    ok, e := ReadExponent(text, n, i);
    if !ok {
      return;
    }
    var scale := e - fractional;
    if scale < 0 {
      ok, digits := StripZeros(digits, scale, -scale);
      if !ok {
        NotStripped(n, -scale);
        return;
      }
    }
    ghost var value := Val(digits) * if scale < 0 then 1 else Pow10(scale);
    ValueIs(n, digits, value);
    ok, v := Accumulate(digits);
    if ok && scale > 0 {
      ok, v := ScaleUp(v, scale);
    }
  }
}
