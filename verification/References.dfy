/**
  Decimal text and the opaque references built from it.

  Provider handles, payment references and queue item identifiers are all of the form
  `<TAG>-NNNNNN`: a counter printed with at least six digits behind a tag. The program tells
  them apart, orders them and (when it replays a log) reads the counter back, so the text
  itself is modelled here: printing, reading, injectivity, and order.
 */
module References {

  predicate IsDigit(c: char) {
    '0' <= c <= '9'
  }

  predicate AllDigits(s: string) {
    forall i :: 0 <= i < |s| ==> IsDigit(s[i])
  }

  function DigitChar(d: nat): (c: char)
    requires d < 10
    ensures IsDigit(c) && DigitValue(c) == d
  {
    '0' + d as char
  }

  function DigitValue(c: char): (d: nat)
    requires IsDigit(c)
    ensures d < 10
  {
    c as int - '0' as int
  }

  function Pow10(k: nat): (p: nat)
    ensures p >= 1
  {
    if k == 0 then 1 else 10 * Pow10(k - 1)
  }

  // The shortest decimal text of n.
  function Digits(n: nat): (s: string)
    ensures |s| >= 1 && AllDigits(s)
  {
    if n < 10 then [DigitChar(n)] else Digits(n / 10) + [DigitChar(n % 10)]
  }

  // The number a run of digits denotes (zero for no digits).
  function NumberOf(s: string): nat
    requires AllDigits(s)
  {
    if s == [] then 0 else NumberOf(s[..|s| - 1]) * 10 + DigitValue(s[|s| - 1])
  }

  function Zeros(k: nat): (s: string)
    ensures |s| == k && AllDigits(s) && forall i :: 0 <= i < k ==> s[i] == '0'
  {
    if k == 0 then [] else ['0'] + Zeros(k - 1)
  }

  // Fills up to the width with leading zeros; a text already that long is left alone.
  function PadTo(s: string, width: nat): (p: string)
    requires AllDigits(s)
    ensures |p| == (if |s| >= width then |s| else width) && AllDigits(p)
    decreases width - |s|
  {
    if |s| >= width then s else PadTo(['0'] + s, width)
  }

  // Python's f"{n:06d}" for a non-negative n.
  function Pad6(n: nat): (s: string)
    ensures |s| >= 6 && AllDigits(s)
  {
    PadTo(Digits(n), 6)
  }

  function Tag(prefix: string, n: nat): string {
    prefix + "-" + Pad6(n)
  }

  predicate StartsWith(s: string, prefix: string) {
    |s| >= |prefix| && s[..|prefix|] == prefix
  }

  // Python's `not s.strip()`, for ASCII white space.
  predicate Blank(s: string) {
    forall i :: 0 <= i < |s| ==> s[i] in {' ', '\t', '\n', '\r', 11 as char, 12 as char}
  }

  // Reading back what was printed.

  lemma {:induction false} NumberOfDigits(n: nat)
    ensures NumberOf(Digits(n)) == n
  {
    if n >= 10 {
      NumberOfDigits(n / 10);
      var s := Digits(n);
      assert s[..|s| - 1] == Digits(n / 10);
    }
  }

  lemma {:induction false} TimesTen(x: nat, p: nat)
    ensures x * (10 * p) == 10 * (x * p)
  {
  }

  lemma {:induction false} NumberOfConcat(a: string, b: string)
    requires AllDigits(a) && AllDigits(b)
    ensures AllDigits(a + b) && NumberOf(a + b) == NumberOf(a) * Pow10(|b|) + NumberOf(b)
  {
    if b == [] {
      assert a + b == a;
    } else {
      var b' := b[..|b| - 1];
      NumberOfConcat(a, b');
      assert (a + b)[..|a + b| - 1] == a + b';
      TimesTen(NumberOf(a), Pow10(|b'|));
    }
  }

  lemma {:induction false} NumberOfZeros(k: nat)
    ensures NumberOf(Zeros(k)) == 0
  {
    if k > 0 {
      NumberOfZeros(k - 1);
      NumberOfConcat(['0'], Zeros(k - 1));
      assert NumberOf(['0']) == NumberOf([]) * 10 + DigitValue('0');
    }
  }

  lemma {:induction false} NumberOfPadTo(s: string, width: nat)
    requires AllDigits(s)
    ensures NumberOf(PadTo(s, width)) == NumberOf(s)
    decreases width - |s|
  {
    if |s| < width {
      NumberOfPadTo(['0'] + s, width);
      NumberOfConcat(['0'], s);
      assert NumberOf(['0']) == NumberOf([]) * 10 + DigitValue('0');
    }
  }

  lemma {:induction false} NumberOfPad6(n: nat)
    ensures NumberOf(Pad6(n)) == n
  {
    NumberOfPadTo(Digits(n), 6);
    NumberOfDigits(n);
  }

  // Two tags with dash-free prefixes are equal only when prefix and counter are.
  lemma {:induction false} TagInjective(p: string, m: nat, q: string, n: nat)
    requires '-' !in p && '-' !in q
    requires Tag(p, m) == Tag(q, n)
    ensures p == q && m == n
  {
    var s, t := Tag(p, m), Tag(q, n);
    assert s[|p|] == '-' && t[|q|] == '-';
    assert |p| == |q|;
    assert p == s[..|p|] && q == t[..|q|];
    assert Pad6(m) == s[|p| + 1..] && Pad6(n) == t[|q| + 1..];
    NumberOfPad6(m);
    NumberOfPad6(n);
  }

  lemma {:induction false} TagNames(s: string, prefix: string, n: nat, m: nat)
    requires '-' !in prefix && s == Tag(prefix, n)
    ensures s == Tag(prefix, m) <==> n == m
  {
    if s == Tag(prefix, m) {
      TagInjective(prefix, n, prefix, m);
    }
  }

  // The digits of an identifier, in order: the text `replay` turns back into a counter.
  function OnlyDigits(s: string): (d: string)
    ensures AllDigits(d)
  {
    if s == [] then [] else (if IsDigit(s[0]) then [s[0]] else []) + OnlyDigits(s[1..])
  }

  lemma {:induction false} OnlyDigitsOfDigits(s: string)
    requires AllDigits(s)
    ensures OnlyDigits(s) == s
  {
    if s != [] {
      OnlyDigitsOfDigits(s[1..]);
    }
  }

  // Python's `<` on str: lexicographic by code point.
  predicate Before(a: string, b: string) {
    b != [] && (a == [] || a[0] < b[0] || (a[0] == b[0] && Before(a[1..], b[1..])))
  }

  lemma {:induction false} BeforeIrreflexive(a: string)
    ensures !Before(a, a)
  {
    if a != [] {
      BeforeIrreflexive(a[1..]);
    }
  }

  lemma {:induction false} BeforeTransitive(a: string, b: string, c: string)
    requires Before(a, b) && Before(b, c)
    ensures Before(a, c)
  {
    if a != [] && a[0] == b[0] == c[0] {
      BeforeTransitive(a[1..], b[1..], c[1..]);
    }
  }

  lemma {:induction false} BeforeTotal(a: string, b: string)
    ensures a == b || Before(a, b) || Before(b, a)
  {
    if a != [] && b != [] && a[0] == b[0] {
      BeforeTotal(a[1..], b[1..]);
      assert a == [a[0]] + a[1..] && b == [b[0]] + b[1..];
    }
  }

  lemma {:induction false} BeforeCommonPrefix(p: string, a: string, b: string)
    ensures Before(p + a, p + b) <==> Before(a, b)
  {
    if p == [] {
      assert p + a == a && p + b == b;
    } else {
      assert (p + a)[1..] == p[1..] + a && (p + b)[1..] == p[1..] + b;
      BeforeCommonPrefix(p[1..], a, b);
    }
  }

  lemma {:induction false} NumberOfBound(s: string)
    requires AllDigits(s)
    ensures NumberOf(s) < Pow10(|s|)
  {
    if s != [] {
      NumberOfBound(s[..|s| - 1]);
    }
  }

  // On digit runs of one length, text order is number order.
  lemma {:induction false} BeforeIsLess(a: string, b: string)
    requires AllDigits(a) && AllDigits(b) && |a| == |b|
    ensures Before(a, b) <==> NumberOf(a) < NumberOf(b)
  {
    if a != [] {
      var a', b' := a[1..], b[1..];
      BeforeIsLess(a', b');
      assert a == [a[0]] + a' && b == [b[0]] + b';
      NumberOfConcat([a[0]], a');
      NumberOfConcat([b[0]], b');
      NumberOfBound(a');
      NumberOfBound(b');
      LeadingDigit(DigitValue(a[0]), NumberOf(a'), DigitValue(b[0]), NumberOf(b'), Pow10(|a'|));
    }
  }

  lemma {:induction false} LeadingDigit(x: nat, r: nat, y: nat, s: nat, p: nat)
    requires r < p && s < p
    ensures x * p + r < y * p + s <==> x < y || (x == y && r < s)
  {
    if x < y {
      assert (x + 1) * p <= y * p;
    } else if y < x {
      assert (y + 1) * p <= x * p;
    }
  }

  lemma {:induction false} DigitsLength(n: nat, k: nat)
    requires k >= 1
    ensures |Digits(n)| <= k <==> n < Pow10(k)
  {
    if k == 1 {
      assert Pow10(1) == 10 * Pow10(0);
    } else if n >= 10 {
      DigitsLength(n / 10, k - 1);
    } else {
      assert Pow10(k) == 10 * Pow10(k - 1);
    }
  }

  lemma {:induction false} Pad6Length(n: nat)
    ensures |Pad6(n)| == 6 <==> n <= 999999
  {
    DigitsLength(n, 6);
    assert Pow10(6) == 1000000 by {
      assert Pow10(2) == 100;
      assert Pow10(4) == 10000;
    }
  }

  // Up to six digits, "oldest identifier" as text is "smallest counter".
  lemma {:induction false} TagOrder(prefix: string, m: nat, n: nat)
    requires m <= 999999 && n <= 999999
    ensures Before(Tag(prefix, m), Tag(prefix, n)) <==> m < n
  {
    Pad6Length(m);
    Pad6Length(n);
    BeforeCommonPrefix(prefix + "-", Pad6(m), Pad6(n));
    BeforeIsLess(Pad6(m), Pad6(n));
    NumberOfPad6(m);
    NumberOfPad6(n);
  }

  // At the seventh digit the agreement ends: item 1000000 sorts before item 999999.
  lemma {:induction false} TagOrderBreaks(prefix: string)
    ensures Before(Tag(prefix, 1000000), Tag(prefix, 999999))
  {
    assert Digits(10) == "10";
    assert Digits(1000) == "1000";
    assert Digits(100000) == "100000";
    assert Digits(1000000) == "1000000";
    assert Digits(99) == "99";
    assert Digits(9999) == "9999";
    assert Digits(999999) == "999999";
    BeforeCommonPrefix(prefix + "-", Pad6(1000000), Pad6(999999));
  }
}
