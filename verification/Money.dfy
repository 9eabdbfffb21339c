/**
  Canonical money text (src/domain/money.py).

  A finite decimal is a sign, a coefficient and a power of ten, so one number has many
  representations ("1.5", "1.50", "15E-1"). The printer must give all of them one text, and the
  parser, which accepts at most 64 digits and 66 characters, must read that text back.
 */
module Money {
  import opened References
  import opened Wrappers

  datatype Decimal = Decimal(negative: bool, coefficient: nat, exponent: int)

  datatype Money = Money(amount: Decimal, currency: string)

  datatype MoneyError = NotCanonicalText | ExceedsBounds | BadCurrency

  datatype Parsed = Ok(money: Money) | Err(error: MoneyError)

  const MAX_DECIMAL_DIGITS: nat := 64
  const MAX_DECIMAL_EXPONENT: nat := 64

  function Min(a: int, b: int): int {
    if a <= b then a else b
  }

  // The coefficient of d written with the (no larger) exponent e.
  function AtExponent(d: Decimal, e: int): nat
    requires e <= d.exponent
  {
    d.coefficient * Pow10(d.exponent - e)
  }

  // Numerical equality, which does not tell the two zeros apart.
  predicate SameValue(a: Decimal, b: Decimal) {
    var e := Min(a.exponent, b.exponent);
    && AtExponent(a, e) == AtExponent(b, e)
    && (a.coefficient != 0 ==> a.negative == b.negative)
  }

  // Printing

  // Integer and fraction digits of the fixed-point rendering.
  function FixedParts(c: nat, e: int): (parts: (string, string))
    ensures AllDigits(parts.0) && AllDigits(parts.1) && parts.0 != ""
  {
    var digits := Digits(c);
    if e >= 0 then
      (if c == 0 then "0" else digits + Zeros(e), "")
    else
      var point := |digits| + e;
      if point <= 0 then ("0", Zeros(-point) + digits) else (digits[..point], digits[point..])
  }

  // Python's format(d, "f").
  function Fixed(d: Decimal): string {
    var (whole, fraction) := FixedParts(d.coefficient, d.exponent);
    (if d.negative then "-" else "") + whole + (if fraction == "" then "" else "." + fraction)
  }

  // Python's s.partition("."): the text before the point, whether there is one, the text after.
  function Partition(s: string): (string, bool, string) {
    if s == "" then ("", false, "")
    else if s[0] == '.' then ("", true, s[1..])
    else
      var (before, found, after) := Partition(s[1..]);
      ([s[0]] + before, found, after)
  }

  function StripZeros(s: string): string {
    if s != "" && s[|s| - 1] == '0' then StripZeros(s[..|s| - 1]) else s
  }

  function PadTwo(s: string): string {
    if |s| >= 2 then s else s + Zeros(2 - |s|)
  }

  function CanonicalText(amount: Decimal): string {
    var shown := if amount.coefficient == 0 then amount.(negative := false) else amount;
    var (whole, found, fraction) := Partition(Fixed(shown));
    whole + "." + PadTwo(if found then StripZeros(fraction) else fraction)
  }

  // Parsing

  predicate WholeText(s: string) {
    s != "" && AllDigits(s) && (|s| > 1 ==> s[0] != '0')
  }

  function Unsigned(s: string): string {
    if s != "" && s[0] == '-' then s[1..] else s
  }

  predicate DecimalText(s: string) {
    var (whole, found, fraction) := Partition(Unsigned(s));
    WholeText(whole) && AllDigits(fraction) && (found ==> fraction != "")
  }

  function ReadText(s: string): Decimal
    requires DecimalText(s)
  {
    var (whole, found, fraction) := Partition(Unsigned(s));
    Decimal(s[0] == '-', NumberOf(whole + fraction), -|fraction|)
  }

  predicate InBounds(d: Decimal) {
    |Digits(d.coefficient)| <= MAX_DECIMAL_DIGITS && -(MAX_DECIMAL_EXPONENT as int) <= d.exponent <= MAX_DECIMAL_EXPONENT
  }

  predicate CurrencyCode(s: string) {
    |s| == 3 && forall i :: 0 <= i < 3 ==> 'A' <= s[i] <= 'Z'
  }

  function FromDecimal(amount: string, currency: string): Parsed {
    if |amount| > MAX_DECIMAL_DIGITS + 2 || !DecimalText(amount) then Err(NotCanonicalText)
    else if !InBounds(ReadText(amount)) then Err(ExceedsBounds)
    else if !CurrencyCode(currency) then Err(BadCurrency)
    else Ok(Money(ReadText(amount), currency))
  }

  // Arithmetic of representations

  lemma {:induction false} Pow10Sum(a: nat, b: nat)
    ensures Pow10(a + b) == Pow10(a) * Pow10(b)
  {
    if a > 0 {
      Pow10Sum(a - 1, b);
      assert Pow10(a + b) == 10 * (Pow10(a - 1) * Pow10(b));
    }
  }

  lemma {:induction false} Rescaled(d: Decimal, e: int, f: int)
    requires f <= e <= d.exponent
    ensures AtExponent(d, f) == AtExponent(d, e) * Pow10(e - f)
  {
    Pow10Sum(d.exponent - e, e - f);
    assert d.exponent - f == (d.exponent - e) + (e - f);
    MulAssoc(d.coefficient, Pow10(d.exponent - e), Pow10(e - f));
  }

  lemma {:induction false} MulAssoc(a: nat, b: nat, c: nat)
    ensures a * (b * c) == (a * b) * c
  {
  }

  lemma {:induction false} MulCancel(a: nat, b: nat, p: nat)
    requires p >= 1 && a * p == b * p
    ensures a == b
  {
  }

  // Any exponent low enough for both decides numerical equality.
  lemma {:induction false} SameValueAt(a: Decimal, b: Decimal, f: int)
    requires f <= a.exponent && f <= b.exponent
    ensures SameValue(a, b) <==>
      AtExponent(a, f) == AtExponent(b, f) && (a.coefficient != 0 ==> a.negative == b.negative)
  {
    var e := Min(a.exponent, b.exponent);
    Rescaled(a, e, f);
    Rescaled(b, e, f);
    if AtExponent(a, f) == AtExponent(b, f) {
      MulCancel(AtExponent(a, e), AtExponent(b, e), Pow10(e - f));
    }
  }

  lemma {:induction false} ZeroAt(d: Decimal, f: int)
    requires f <= d.exponent
    ensures AtExponent(d, f) == 0 <==> d.coefficient == 0
  {
    if d.coefficient != 0 {
      assert d.coefficient * Pow10(d.exponent - f) >= 1 * 1;
    }
  }

  lemma {:induction false} SameValueTransitive(a: Decimal, b: Decimal, c: Decimal)
    requires SameValue(a, b) && SameValue(b, c)
    ensures SameValue(a, c)
  {
    var f := Min(a.exponent, Min(b.exponent, c.exponent));
    SameValueAt(a, b, f);
    SameValueAt(b, c, f);
    SameValueAt(a, c, f);
    ZeroAt(a, f);
    ZeroAt(b, f);
  }

  lemma {:induction false} SameValueSymmetric(a: Decimal, b: Decimal)
    requires SameValue(a, b)
    ensures SameValue(b, a)
  {
    var f := Min(a.exponent, b.exponent);
    ZeroAt(a, f);
    ZeroAt(b, f);
  }

  // Moving the coefficient one place up and the exponent one place down changes nothing.
  lemma {:induction false} ShiftedSameValue(d: Decimal)
    ensures SameValue(d, d.(coefficient := 10 * d.coefficient, exponent := d.exponent - 1))
  {
    var s := d.(coefficient := 10 * d.coefficient, exponent := d.exponent - 1);
    assert Pow10(1) == 10 * Pow10(0);
    assert AtExponent(d, s.exponent) == d.coefficient * 10;
  }

  // The text of a representation

  lemma {:induction false} PartitionPlain(s: string)
    requires '.' !in s
    ensures Partition(s) == (s, false, "")
  {
    if s != "" {
      PartitionPlain(s[1..]);
      assert [s[0]] + s[1..] == s;
    }
  }

  lemma {:induction false} PartitionPoint(s: string, t: string)
    requires '.' !in s
    ensures Partition(s + "." + t) == (s, true, t)
  {
    if s != "" {
      PartitionPoint(s[1..], t);
      assert (s + "." + t)[1..] == s[1..] + "." + t;
      assert [s[0]] + s[1..] == s;
    } else {
      assert (s + "." + t)[1..] == t;
    }
  }

  function SignText(negative: bool): string {
    if negative then "-" else ""
  }

  // What the printer produces, in terms of the parts of the number.
  lemma {:induction false} CanonicalShape(d: Decimal)
    ensures var (whole, fraction) := FixedParts(d.coefficient, d.exponent);
      CanonicalText(d) == SignText(d.negative && d.coefficient != 0) + whole + "." + PadTwo(StripZeros(fraction))
  {
    var shown := if d.coefficient == 0 then d.(negative := false) else d;
    var (whole, fraction) := FixedParts(d.coefficient, d.exponent);
    var lead := SignText(shown.negative) + whole;
    assert '.' !in lead;
    if fraction == "" {
      assert Fixed(shown) == lead;
      PartitionPlain(lead);
      assert StripZeros(fraction) == fraction;
    } else {
      assert Fixed(shown) == lead + "." + fraction;
      PartitionPoint(lead, fraction);
    }
  }

  lemma {:induction false} DigitsShift(c: nat)
    requires c > 0
    ensures Digits(10 * c) == Digits(c) + "0"
  {
    assert 10 * c / 10 == c && 10 * c % 10 == 0;
  }

  lemma {:induction false} FixedPartsShift(c: nat, e: int)
    ensures var (whole, fraction) := FixedParts(c, e);
      FixedParts(10 * c, e - 1) == (whole, fraction + (if e <= 0 then "0" else ""))
  {
    var digits := Digits(c);
    if c == 0 {
      if e < 0 {
        assert Zeros(-(1 + e)) + "0" + "0" == Zeros(-e) + "0";
      }
    } else {
      DigitsShift(c);
      var shifted := Digits(10 * c);
      if e > 0 {
        assert shifted + Zeros(e - 1) == digits + Zeros(e);
        assert "" + "" == "";
      } else if e == 0 {
        assert shifted[..|digits|] == digits && shifted[|digits|..] == "0";
        assert digits + Zeros(0) == digits && "" + "0" == "0";
      } else {
        var point := |digits| + e;
        if point <= 0 {
          assert Zeros(-point) + shifted == Zeros(-point) + digits + "0";
        } else {
          assert shifted[..point] == digits[..point] && shifted[point..] == digits[point..] + "0";
        }
      }
    }
  }

  lemma {:induction false} StripZerosAppend(s: string)
    ensures StripZeros(s + "0") == StripZeros(s)
  {
    assert (s + "0")[..|s + "0"| - 1] == s;
  }

  // The printed parts, after the zeros that end the fraction are dropped.
  function ShownParts(c: nat, e: int): (string, string) {
    (FixedParts(c, e).0, StripZeros(FixedParts(c, e).1))
  }

  lemma {:induction false} ShownPartsShift(c: nat, e: int)
    ensures ShownParts(10 * c, e - 1) == ShownParts(c, e)
  {
    var (whole, fraction) := FixedParts(c, e);
    FixedPartsShift(c, e);
    StripZerosAppend(fraction);
    assert fraction + "" == fraction;
  }

  lemma {:induction false} SameShownSameText(a: Decimal, b: Decimal)
    requires ShownParts(a.coefficient, a.exponent) == ShownParts(b.coefficient, b.exponent)
    requires (a.negative && a.coefficient != 0) == (b.negative && b.coefficient != 0)
    ensures CanonicalText(a) == CanonicalText(b)
  {
    CanonicalShape(a);
    CanonicalShape(b);
  }

  lemma {:induction false} CanonicalShift(d: Decimal, s: Decimal)
    requires s == Decimal(d.negative, 10 * d.coefficient, d.exponent - 1)
    ensures CanonicalText(s) == CanonicalText(d)
  {
    ShownPartsShift(d.coefficient, d.exponent);
    SameShownSameText(s, d);
  }

  lemma {:induction false} TenAcross(c: nat, k: nat)
    requires k > 0
    ensures c * Pow10(k) == (10 * c) * Pow10(k - 1)
  {
    MulAssoc(c, 10, Pow10(k - 1));
  }

  function Lowered(d: Decimal, k: nat): Decimal {
    Decimal(d.negative, d.coefficient * Pow10(k), d.exponent - k)
  }

  lemma {:induction false} CanonicalRescale(d: Decimal, k: nat)
    ensures CanonicalText(Lowered(d, k)) == CanonicalText(d)
    decreases k
  {
    if k > 0 {
      var s := Decimal(d.negative, 10 * d.coefficient, d.exponent - 1);
      CanonicalShift(d, s);
      CanonicalRescale(s, k - 1);
      TenAcross(d.coefficient, k);
      assert Lowered(d, k) == Lowered(s, k - 1);
    } else {
      assert Lowered(d, 0) == d;
    }
  }

  lemma {:induction false} CanonicalAt(d: Decimal, e: int)
    requires e <= d.exponent
    ensures CanonicalText(Decimal(d.negative, AtExponent(d, e), e)) == CanonicalText(d)
  {
    CanonicalRescale(d, d.exponent - e);
    assert Lowered(d, d.exponent - e) == Decimal(d.negative, AtExponent(d, e), e);
  }

  lemma {:induction false} SameValueSameText(a: Decimal, b: Decimal)
    requires SameValue(a, b)
    ensures CanonicalText(a) == CanonicalText(b)
  {
    var e := Min(a.exponent, b.exponent);
    CanonicalAt(a, e);
    CanonicalAt(b, e);
    ZeroAt(a, e);
    var x, y := Decimal(a.negative, AtExponent(a, e), e), Decimal(b.negative, AtExponent(b, e), e);
    assert x.coefficient == y.coefficient;
    CanonicalSign(x, y);
  }

  lemma {:induction false} CanonicalSign(a: Decimal, b: Decimal)
    requires a.coefficient == b.coefficient && a.exponent == b.exponent
    requires a.coefficient != 0 ==> a.negative == b.negative
    ensures CanonicalText(a) == CanonicalText(b)
  {
  }

  // Reading the text back

  lemma {:induction false} DigitsLead(n: nat)
    ensures WholeText(Digits(n)) && (Digits(n)[0] == '0' <==> n == 0)
  {
    if n >= 10 {
      DigitsLead(n / 10);
    }
  }

  lemma {:induction false} WholePartsRead(c: nat, e: nat)
    ensures var (whole, fraction) := FixedParts(c, e);
      WholeText(whole) && fraction == "" && NumberOf(whole) == c * Pow10(e)
  {
    DigitsLead(c);
    if c > 0 {
      NumberOfDigits(c);
      NumberOfConcat(Digits(c), Zeros(e));
      NumberOfZeros(e);
    }
  }

  // The point falls in front of all digits.
  lemma {:induction false} FractionOnlyRead(c: nat, k: nat)
    ensures NumberOf("0" + (Zeros(k) + Digits(c))) == c
  {
    var digits := Digits(c);
    NumberOfDigits(c);
    assert "0" + Zeros(k) == Zeros(k + 1);
    assert "0" + (Zeros(k) + digits) == Zeros(k + 1) + digits;
    NumberOfConcat(Zeros(k + 1), digits);
    NumberOfZeros(k + 1);
  }

  lemma {:induction false} PointPartsRead(c: nat, e: int)
    requires e < 0
    ensures var (whole, fraction) := FixedParts(c, e);
      WholeText(whole) && |fraction| == -e && NumberOf(whole + fraction) == c
  {
    var digits := Digits(c);
    var point := |digits| + e;
    DigitsLead(c);
    if point <= 0 {
      FractionOnlyRead(c, -point);
    } else {
      NumberOfDigits(c);
      assert digits[..point] + digits[point..] == digits;
    }
  }

  // The digits around the point are the coefficient, and there are as many behind it as the exponent says.
  lemma {:induction false} FixedPartsRead(c: nat, e: int)
    ensures var (whole, fraction) := FixedParts(c, e);
      WholeText(whole) && |fraction| == (if e < 0 then -e else 0)
      && NumberOf(whole + fraction) == c * Pow10(if e > 0 then e else 0)
  {
    var (whole, fraction) := FixedParts(c, e);
    if e >= 0 {
      WholePartsRead(c, e);
      assert whole + fraction == whole;
    } else {
      PointPartsRead(c, e);
    }
  }

  // The value of "whole.fraction" does not depend on the zeros that end the fraction.
  function Reading(negative: bool, whole: string, fraction: string): Decimal
    requires AllDigits(whole) && AllDigits(fraction)
  {
    Decimal(negative, NumberOf(whole + fraction), -|fraction|)
  }

  lemma {:induction false} ReadingZero(negative: bool, whole: string, fraction: string)
    requires AllDigits(whole) && AllDigits(fraction)
    ensures SameValue(Reading(negative, whole, fraction), Reading(negative, whole, fraction + "0"))
  {
    var r := Reading(negative, whole, fraction);
    assert whole + (fraction + "0") == (whole + fraction) + "0";
    assert ((whole + fraction) + "0")[..|whole + fraction|] == whole + fraction;
    ShiftedSameValue(r);
  }

  lemma {:induction false} ReadingStripped(negative: bool, whole: string, fraction: string)
    requires AllDigits(whole) && AllDigits(fraction)
    ensures AllDigits(StripZeros(fraction)) && |StripZeros(fraction)| <= |fraction|
    ensures SameValue(Reading(negative, whole, StripZeros(fraction)), Reading(negative, whole, fraction))
  {
    if fraction != "" && fraction[|fraction| - 1] == '0' {
      var shorter := fraction[..|fraction| - 1];
      ReadingStripped(negative, whole, shorter);
      ReadingZero(negative, whole, shorter);
      assert shorter + "0" == fraction;
      SameValueTransitive(Reading(negative, whole, StripZeros(fraction)),
                          Reading(negative, whole, shorter), Reading(negative, whole, fraction));
    }
  }

  lemma {:induction false} ReadingTwoZeros(negative: bool, whole: string, fraction: string, padded: string)
    requires AllDigits(whole) && AllDigits(fraction) && AllDigits(padded) && padded == fraction + "0" + "0"
    ensures SameValue(Reading(negative, whole, fraction), Reading(negative, whole, padded))
  {
    var once := fraction + "0";
    ReadingZero(negative, whole, fraction);
    ReadingZero(negative, whole, once);
    SameValueTransitive(Reading(negative, whole, fraction), Reading(negative, whole, once), Reading(negative, whole, padded));
  }

  lemma {:induction false} PaddedBy(fraction: string)
    requires AllDigits(fraction) && |fraction| < 2
    ensures AllDigits(PadTwo(fraction)) && PadTwo(fraction) == if fraction == "" then fraction + "0" + "0" else fraction + "0"
  {
  }

  lemma {:induction false} ReadingPadded(negative: bool, whole: string, fraction: string)
    requires AllDigits(whole) && AllDigits(fraction)
    ensures SameValue(Reading(negative, whole, fraction), Reading(negative, whole, PadTwo(fraction)))
  {
    if |fraction| < 2 {
      PaddedBy(fraction);
      if fraction == "" {
        ReadingTwoZeros(negative, whole, fraction, PadTwo(fraction));
      } else {
        ReadingZero(negative, whole, fraction);
      }
    }
  }

  lemma {:induction false} ReadShaped(negative: bool, whole: string, fraction: string)
    requires WholeText(whole) && AllDigits(fraction) && fraction != ""
    ensures var t := SignText(negative) + whole + "." + fraction;
      DecimalText(t) && ReadText(t) == Reading(negative, whole, fraction)
  {
    var t := SignText(negative) + whole + "." + fraction;
    assert t[0] == '-' <==> negative;
    assert Unsigned(t) == whole + "." + fraction;
    PartitionPoint(whole, fraction);
  }

  // Stripping and padding the fraction leave its reading alone.
  lemma {:induction false} ReadingShown(negative: bool, whole: string, fraction: string)
    requires AllDigits(whole) && AllDigits(fraction)
    ensures AllDigits(PadTwo(StripZeros(fraction))) && PadTwo(StripZeros(fraction)) != ""
    ensures SameValue(Reading(negative, whole, PadTwo(StripZeros(fraction))), Reading(negative, whole, fraction))
  {
    var stripped := StripZeros(fraction);
    ReadingStripped(negative, whole, fraction);
    ReadingPadded(negative, whole, stripped);
    var r0, r1, r2 := Reading(negative, whole, PadTwo(stripped)), Reading(negative, whole, stripped), Reading(negative, whole, fraction);
    SameValueSymmetric(r1, r0);
    SameValueTransitive(r0, r1, r2);
  }

  // The digits of the rendering denote the number itself.
  lemma {:induction false} ReadingOfParts(d: Decimal)
    ensures var (whole, fraction) := FixedParts(d.coefficient, d.exponent);
      WholeText(whole) && SameValue(Reading(d.negative && d.coefficient != 0, whole, fraction), d)
  {
    var (whole, fraction) := FixedParts(d.coefficient, d.exponent);
    FixedPartsRead(d.coefficient, d.exponent);
    var r := Reading(d.negative && d.coefficient != 0, whole, fraction);
    ZeroAt(d, Min(d.exponent, r.exponent));
    assert r.exponent == Min(d.exponent, 0);
  }

  // The printed text is a canonical decimal string of the same numerical value.
  lemma {:induction false} CanonicalTextPreservesValue(d: Decimal)
    ensures DecimalText(CanonicalText(d))
    ensures SameValue(ReadText(CanonicalText(d)), d)
  {
    var negative := d.negative && d.coefficient != 0;
    var (whole, fraction) := FixedParts(d.coefficient, d.exponent);
    var shown := PadTwo(StripZeros(fraction));
    CanonicalShape(d);
    ReadingOfParts(d);
    ReadingShown(negative, whole, fraction);
    ReadShaped(negative, whole, shown);
    SameValueTransitive(Reading(negative, whole, shown), Reading(negative, whole, fraction), d);
  }

  // At least two fraction digits, and no zero ends a longer fraction.
  lemma {:induction false} CanonicalFraction(d: Decimal)
    ensures var fraction := Partition(CanonicalText(d)).2;
      |fraction| >= 2 && (|fraction| > 2 ==> fraction[|fraction| - 1] != '0')
  {
    var (whole, fraction) := FixedParts(d.coefficient, d.exponent);
    CanonicalShape(d);
    PartitionPoint(SignText(d.negative && d.coefficient != 0) + whole, PadTwo(StripZeros(fraction)));
    StripZerosLast(fraction);
  }

  lemma {:induction false} StripZerosLast(s: string)
    ensures var t := StripZeros(s); t != "" ==> t[|t| - 1] != '0'
  {
    if s != "" && s[|s| - 1] == '0' {
      StripZerosLast(s[..|s| - 1]);
    }
  }

  // The text is a normal form: it is shared by exactly the numerically equal amounts.
  lemma {:induction false} NormalForm(a: Decimal, b: Decimal)
    ensures CanonicalText(a) == CanonicalText(b) <==> SameValue(a, b)
  {
    if SameValue(a, b) {
      SameValueSameText(a, b);
    }
    if CanonicalText(a) == CanonicalText(b) {
      CanonicalTextPreservesValue(a);
      CanonicalTextPreservesValue(b);
      var r := ReadText(CanonicalText(a));
      SameValueSymmetric(r, a);
      SameValueTransitive(a, r, b);
    }
  }

  // Digits of a canonical text once the zeros in front are dropped.
  function SignificantDigits(t: string): nat
    requires DecimalText(t)
  {
    |Digits(ReadText(t).coefficient)|
  }

  // The parser reads a printed amount back, with its value, exactly when the text fits both bounds.
  lemma {:induction false} RoundTrip(m: Money)
    requires CurrencyCode(m.currency)
    ensures DecimalText(CanonicalText(m.amount))
    ensures var t := CanonicalText(m.amount); var back := FromDecimal(t, m.currency);
      && (back.Ok? <==> |t| <= 66 && SignificantDigits(t) <= 64)
      && (back.Ok? ==> back.money.currency == m.currency && SameValue(back.money.amount, m.amount))
  {
    CanonicalTextPreservesValue(m.amount);
    var t := CanonicalText(m.amount);
    CanonicalShape(m.amount);
    var (whole, fraction) := FixedParts(m.amount.coefficient, m.amount.exponent);
    var sign := SignText(m.amount.negative && m.amount.coefficient != 0);
    ReadingStripped(false, whole, fraction);
    var shown := PadTwo(StripZeros(fraction));
    FixedPartsRead(m.amount.coefficient, m.amount.exponent);
    ReadShaped(m.amount.negative && m.amount.coefficient != 0, whole, shown);
    assert t == sign + whole + "." + shown;
    assert |t| <= 66 ==> |shown| <= 64;
  }

  lemma {:induction false} WholeAmountText(negative: bool, c: nat)
    ensures CanonicalText(Decimal(negative, c, 0)) == SignText(negative && c != 0) + Digits(c) + "." + "00"
  {
    CanonicalShape(Decimal(negative, c, 0));
    WholePartsRead(c, 0);
    assert FixedParts(c, 0).0 == Digits(c) by {
      assert Digits(c) + Zeros(0) == Digits(c);
    }
    assert StripZeros("") == "";
    assert PadTwo("") == "00";
  }

  lemma {:induction false} WholeAmountReads(negative: bool, c: nat)
    ensures var t := CanonicalText(Decimal(negative, c, 0));
      DecimalText(t) && ReadText(t).coefficient == 100 * c && |t| == |Digits(c)| + (if negative && c != 0 then 4 else 3)
  {
    WholeAmountText(negative, c);
    DigitsLead(c);
    ReadShaped(negative && c != 0, Digits(c), "00");
    Hundredfold(c);
  }

  lemma {:induction false} Hundredfold(c: nat)
    ensures NumberOf(Digits(c) + "00") == 100 * c
  {
    NumberOfDigits(c);
    NumberOfConcat(Digits(c), Zeros(2));
    NumberOfZeros(2);
    assert Zeros(2) == "00";
    assert Pow10(2) == 10 * Pow10(1) && Pow10(1) == 10 * Pow10(0);
  }

  // The two fraction zeros the printer adds count: whole amounts survive up to 62 digits, and no further.
  lemma {:induction false} WholeAmountRoundTrip(negative: bool, c: nat, currency: string)
    requires CurrencyCode(currency)
    ensures FromDecimal(CanonicalText(Decimal(negative, c, 0)), currency).Ok? <==> |Digits(c)| <= 62
  {
    RoundTrip(Money(Decimal(negative, c, 0), currency));
    WholeAmountReads(negative, c);
    if c > 0 {
      DigitsShift(c);
      DigitsShift(10 * c);
      assert 10 * (10 * c) == 100 * c;
      assert |Digits(100 * c)| == |Digits(c)| + 2;
    }
  }
}
