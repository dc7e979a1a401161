/** The two-decimal rule for amounts: a test on the printed number, with the bounds beside it. */
module AmountRule {
  import opened Text

  /** A positive ECMAScript number as Number::toString sees it: its decimal digits, and the position
      of the decimal point counted from the first of them. */
  datatype Number = Number(digits: seq<nat>, point: int)

  predicate DigitSeq(ds: seq<nat>) {
    forall i :: 0 <= i < |ds| ==> ds[i] < 10
  }

  predicate Proper(x: Number) {
    x.digits != [] && DigitSeq(x.digits) && x.digits[0] != 0 && x.digits[|x.digits| - 1] != 0
  }

  function Show(ds: seq<nat>): (s: string)
    requires DigitSeq(ds)
    ensures |s| == |ds| && forall i :: 0 <= i < |s| ==> IsDigit(s[i])
  {
    seq(|ds|, i requires 0 <= i < |ds| => Digit(ds[i]))
  }

  function Zeros(n: nat): seq<nat> { seq(n, _ => 0) }

  function Exponent(e: int): string {
    if e < 0 then "e-" + Digits(-e) else "e+" + Digits(e)
  }

  /** Number::toString(x, 10), ECMA-262 section 6.1.6.1.20. */
  function ToText(x: Number): string
    requires Proper(x)
  {
    var k, n, ds := |x.digits|, x.point, x.digits;
    if k <= n <= 21 then Show(ds) + Show(Zeros(n - k))
    else if 0 < n <= 21 then Show(ds[..n]) + "." + Show(ds[n..])
    else if -6 < n <= 0 then "0." + Show(Zeros(-n)) + Show(ds)
    else if k == 1 then Show(ds) + Exponent(n - 1)
    else Show(ds[..1]) + "." + Show(ds[1..]) + Exponent(n - 1)
  }

  function Split(s: string, c: char): (parts: seq<string>)
    ensures parts != []
  {
    if s == [] then [""]
    else
      var parts := Split(s[1..], c);
      if s[0] == c then [""] + parts else [[s[0]] + parts[0]] + parts[1..]
  }

  /** The validator on the printed number. */
  predicate Validate(s: string) {
    var parts := Split(s, '.');
    |parts| == 1 || |parts[1]| <= 2
  }

  // ---- Values ----

  function Pow10(n: nat): (p: nat)
    ensures p > 0
  {
    if n == 0 then 1 else 10 * Pow10(n - 1)
  }

  function Value(ds: seq<nat>): nat
    requires DigitSeq(ds)
  {
    if ds == [] then 0 else 10 * Value(ds[..|ds| - 1]) + ds[|ds| - 1]
  }

  function Scale(x: Number): int { x.point - |x.digits| }

  /** The number is Numerator / Denominator. */
  function Numerator(x: Number): nat
    requires Proper(x)
  {
    if Scale(x) >= 0 then Value(x.digits) * Pow10(Scale(x)) else Value(x.digits)
  }

  function Denominator(x: Number): nat {
    if Scale(x) >= 0 then 1 else Pow10(-Scale(x))
  }

  predicate IsCents(x: Number, cents: nat)
    requires Proper(x)
  {
    100 * Numerator(x) == cents * Denominator(x)
  }

  const MAX := 1_000_000_000_000

  /** Min(0.01) and Max(1e12). */
  predicate InBounds(x: Number)
    requires Proper(x)
  {
    100 * Numerator(x) >= Denominator(x) && Numerator(x) <= MAX * Denominator(x)
  }

  // ---- The test on the text ----

  predicate Lacks(s: string, c: char) { forall i :: 0 <= i < |s| ==> s[i] != c }

  lemma {:induction false} SplitNone(s: string, c: char)
    requires Lacks(s, c)
    ensures Split(s, c) == [s]
    decreases |s|
  {
    if s != [] {
      SplitNone(s[1..], c);
      assert [s[0]] + s[1..] == s;
    }
  }

  lemma {:induction false} SplitOnce(a: string, c: char, b: string)
    requires Lacks(a, c) && Lacks(b, c)
    ensures Split(a + [c] + b, c) == [a, b]
    decreases |a|
  {
    var s := a + [c] + b;
    if a == [] {
      assert s[1..] == b;
      SplitNone(b, c);
    } else {
      assert s[1..] == a[1..] + [c] + b;
      SplitOnce(a[1..], c, b);
      assert [a[0]] + a[1..] == a;
    }
  }

  lemma ExponentLacksDot(e: int)
    ensures Lacks(Exponent(e), '.') && |Exponent(e)| >= 3
  {
    assert forall c :: IsDigit(c) ==> c != '.';
  }

  lemma ValidateNone(s: string)
    requires Lacks(s, '.')
    ensures Validate(s)
  {
    SplitNone(s, '.');
  }

  lemma ValidateOnce(whole: string, frac: string)
    requires Lacks(whole, '.') && Lacks(frac, '.')
    ensures Validate(whole + "." + frac) <==> |frac| <= 2
  {
    SplitOnce(whole, '.', frac);
  }

  lemma ShowLacksDot(ds: seq<nat>)
    requires DigitSeq(ds)
    ensures Lacks(Show(ds), '.')
  {
  }

  lemma JoinLacksDot(a: string, b: string)
    requires Lacks(a, '.') && Lacks(b, '.')
    ensures Lacks(a + b, '.')
  {
  }

  lemma PlainForms(x: Number)
    requires Proper(x) && -6 < x.point <= 21
    ensures Validate(ToText(x)) <==> Scale(x) >= -2
  {
    var k, n, ds := |x.digits|, x.point, x.digits;
    ShowLacksDot(ds);
    if k <= n {
      ShowLacksDot(Zeros(n - k));
      hide Validate, Exponent, Show, Lacks;
      JoinLacksDot(Show(ds), Show(Zeros(n - k)));
      ValidateNone(ToText(x));
    } else if 0 < n {
      ShowLacksDot(ds[..n]);
      ShowLacksDot(ds[n..]);
      hide Validate, Exponent, Show, Lacks;
      ValidateOnce(Show(ds[..n]), Show(ds[n..]));
    } else {
      ShowLacksDot(Zeros(-n));
      assert Lacks("0", '.');
      hide Validate, Exponent, Show, Lacks;
      JoinLacksDot(Show(Zeros(-n)), Show(ds));
      var frac := Show(Zeros(-n)) + Show(ds);
      assert ToText(x) == "0" + "." + frac;
      ValidateOnce("0", frac);
    }
  }

  lemma ExponentForms(x: Number)
    requires Proper(x) && !(-6 < x.point <= 21)
    ensures Validate(ToText(x)) <==> |x.digits| == 1
  {
    var e, ds := Exponent(x.point - 1), x.digits;
    ExponentLacksDot(x.point - 1);
    hide Validate, Exponent;
    if |ds| == 1 {
      ValidateNone(ToText(x));
    } else {
      assert ToText(x) == Show(ds[..1]) + "." + (Show(ds[1..]) + e);
      ValidateOnce(Show(ds[..1]), Show(ds[1..]) + e);
    }
  }

  /** The validator alone: right for plain decimals, blind to the exponent of a one-digit number. */
  lemma ValidatorAlone(x: Number)
    requires Proper(x)
    ensures Validate(ToText(x)) <==> if -6 < x.point <= 21 then Scale(x) >= -2 else |x.digits| == 1
  {
    hide Validate, ToText;
    if -6 < x.point <= 21 { PlainForms(x); } else { ExponentForms(x); }
  }

  // ---- The bounds keep the exponent forms out ----

  lemma {:induction false} Pow10Add(a: nat, b: nat)
    ensures Pow10(a + b) == Pow10(a) * Pow10(b)
  {
    if a > 0 {
      Pow10Add(a - 1, b);
      assert Pow10(a + b) == 10 * (Pow10(a - 1) * Pow10(b));
    }
  }

  lemma {:induction false} Pow10Grows(a: nat, b: nat)
    requires a <= b
    ensures Pow10(a) <= Pow10(b)
    decreases b
  {
    if a < b { Pow10Grows(a, b - 1); }
  }

  lemma {:induction false} ValueRange(ds: seq<nat>)
    requires DigitSeq(ds) && ds != [] && ds[0] != 0
    ensures Pow10(|ds| - 1) <= Value(ds) < Pow10(|ds|)
    decreases |ds|
  {
    var front := ds[..|ds| - 1];
    if front == [] {
      assert Value(front) == 0;
      assert Value(ds) == ds[0];
    } else {
      ValueRange(front);
    }
  }

  lemma TimesMonotone(a: nat, b: nat, m: nat)
    ensures a <= b ==> a * m <= b * m
  {
  }

  lemma LowerBound(x: Number)
    requires Proper(x) && 100 * Numerator(x) >= Denominator(x)
    ensures x.point >= -1
  {
    var k, e := |x.digits|, Scale(x);
    ValueRange(x.digits);
    assert Pow10(k + 2) == 10 * Pow10(k + 1) == 100 * Pow10(k);
    hide Value;
    if x.point < -1 { Pow10Grows(k + 2, -e); }
  }

  lemma UpperBound(x: Number)
    requires Proper(x) && Numerator(x) <= MAX * Denominator(x)
    ensures x.point <= 13
  {
    var k, e := |x.digits|, Scale(x);
    ValueRange(x.digits);
    if x.point > 13 {
      hide Value;
      assert Pow10(12) == MAX && Pow10(13) == 10 * Pow10(12) by { TenToThe12(); }
      if e >= 0 {
        Pow10Add(k - 1, e);
        TimesMonotone(Pow10(k - 1), Value(x.digits), Pow10(e));
        Pow10Grows(13, k - 1 + e);
      } else {
        Pow10Grows(13 - e, k - 1);
        Pow10Add(13, -e);
        TimesMonotone(MAX + 1, Pow10(13), Pow10(-e));
      }
    }
  }

  lemma TenToThe12()
    ensures Pow10(12) == MAX
  {
    assert Pow10(4) == 10_000;
    Pow10Add(4, 4);
    Pow10Add(8, 4);
  }

  // ---- Whole cents ----

  lemma LastDigit(x: Number)
    requires Proper(x)
    ensures Value(x.digits) % 10 != 0
  {
  }

  lemma TenDivides(v: nat, c: nat, m: nat)
    requires 100 * v == c * (1000 * m)
    ensures v % 10 == 0
  {
    Regroup(c, 1000, m);
    Regroup(1000, c, m);
    assert c * 1000 == 1000 * c;
    assert v == 10 * (c * m);
  }

  lemma FineScaleIsNotCents(x: Number, cents: nat)
    requires Proper(x) && Scale(x) < -2
    ensures !IsCents(x, cents)
  {
    var m, v := Pow10(-Scale(x) - 3), Value(x.digits);
    Pow10Add(3, -Scale(x) - 3);
    assert Pow10(3) == 1000;
    LastDigit(x);
    hide Value, Pow10;
    if IsCents(x, cents) { TenDivides(v, cents, m); }
  }

  lemma CentsByScale(x: Number)
    requires Proper(x)
    ensures (exists cents: nat :: IsCents(x, cents)) <==> Scale(x) >= -2
  {
    var e, v := Scale(x), Value(x.digits);
    if e >= -2 {
      assert Pow10(1) == 10 && Pow10(2) == 100;
      hide Value;
      assert IsCents(x, if e >= 0 then 100 * Numerator(x) else if e == -1 then 10 * v else v);
    } else {
      forall cents: nat ensures !IsCents(x, cents) { FineScaleIsNotCents(x, cents); }
    }
  }

  /** Within the bounds the test on the text holds exactly for whole cents. */
  lemma AcceptedIsWholeCents(x: Number)
    requires Proper(x) && InBounds(x)
    ensures Validate(ToText(x)) <==> exists cents: nat :: IsCents(x, cents)
  {
    LowerBound(x);
    UpperBound(x);
    ValidatorAlone(x);
    CentsByScale(x);
  }

  /** Without the lower bound it would not: 1e-7 has one digit before its exponent and none after a point. */
  lemma BoundIsNeeded()
    ensures var x := Number([1], -6);
            Proper(x) && Validate(ToText(x)) && !InBounds(x) && !exists cents: nat :: IsCents(x, cents)
  {
    var x := Number([1], -6);
    ValidatorAlone(x);
    CentsByScale(x);
    assert Pow10(7) == 10 * Pow10(6);
  }

  // ---- The texts that get through ----

  lemma {:induction false} DigitsShowValue(ds: seq<nat>)
    requires DigitSeq(ds) && ds != [] && ds[0] != 0
    ensures Digits(Value(ds)) == Show(ds)
    decreases |ds|
  {
    var front, last := ds[..|ds| - 1], ds[|ds| - 1];
    if front == [] {
      assert Value(front) == 0;
    } else {
      ValueRange(front);
      DigitsShowValue(front);
      assert Value(ds) / 10 == Value(front) && Value(ds) % 10 == last;
      assert Show(ds) == Show(front) + [Digit(last)];
    }
  }

  lemma {:induction false} ValueWithZeros(ds: seq<nat>, n: nat)
    requires DigitSeq(ds)
    ensures Value(ds + Zeros(n)) == Value(ds) * Pow10(n)
    decreases n
  {
    if n == 0 {
      assert ds + Zeros(0) == ds;
    } else {
      assert (ds + Zeros(n))[..|ds| + n - 1] == ds + Zeros(n - 1);
      ValueWithZeros(ds, n - 1);
    }
  }

  lemma WholeText(x: Number)
    requires Proper(x) && Scale(x) >= 0 && x.point <= 21
    ensures ToText(x) == Digits(Numerator(x))
  {
    var ds, e := x.digits, Scale(x);
    ValueWithZeros(ds, e);
    DigitsShowValue(ds + Zeros(e));
    assert Show(ds + Zeros(e)) == Show(ds) + Show(Zeros(e));
  }

  /** The digits before and after the point of a plain decimal. */
  function Before(x: Number): string
    requires Proper(x) && x.point < |x.digits|
  {
    if x.point > 0 then Show(x.digits[..x.point]) else "0"
  }

  function Behind(x: Number): seq<nat>
    requires Proper(x) && x.point < |x.digits|
  {
    if x.point > 0 then x.digits[x.point..] else Zeros(-x.point) + x.digits
  }

  lemma PointText(x: Number)
    requires Proper(x) && -6 < x.point <= 21 && x.point < |x.digits|
    ensures DigitSeq(Behind(x)) && ToText(x) == Before(x) + "." + Show(Behind(x))
  {
    if x.point <= 0 {
      assert Show(Zeros(-x.point) + x.digits) == Show(Zeros(-x.point)) + Show(x.digits);
      assert ToText(x) == "0" + "." + Show(Behind(x));
    }
  }

  lemma OneDecimalText(x: Number)
    requires Proper(x) && Scale(x) == -1 && x.point <= 21
    ensures ToText(x) == NumberText(10 * Value(x.digits))
  {
    var ds, k, v := x.digits, |x.digits|, Value(x.digits);
    LastDigit(x);
    PointText(x);
    assert Behind(x) == [v % 10];
    assert Show(Behind(x)) == [Digit(v % 10)];
    assert v / 10 == Value(ds[..k - 1]);
    hide ToText;
    if k > 1 { DigitsShowValue(ds[..k - 1]); }
    assert Before(x) == Digits(v / 10);
    hide Value, Digits, Before, Behind, Show;
    TrailingZero(v);
  }

  lemma TrailingZero(v: nat)
    requires v % 10 != 0
    ensures NumberText(10 * v) == Digits(v / 10) + "." + [Digit(v % 10)]
  {
    assert 10 * v / 100 == v / 10 && 10 * v % 100 / 10 == v % 10 && 10 * v % 10 == 0;
  }

  lemma LastDigitOf(ds: seq<nat>)
    requires DigitSeq(ds) && ds != []
    ensures Value(ds) / 10 == Value(ds[..|ds| - 1]) && Value(ds) % 10 == ds[|ds| - 1]
  {
  }

  lemma LastTwo(x: Number)
    requires Proper(x) && Scale(x) == -2
    ensures var v := Value(x.digits); Behind(x) == [v / 10 % 10, v % 10]
  {
    var ds, k := x.digits, |x.digits|;
    var front := ds[..k - 1];
    LastDigitOf(ds);
    if k == 1 {
      assert front == [] && Value(front) == 0;
      hide Value;
      assert Behind(x) == [0, ds[0]];
    } else {
      LastDigitOf(front);
      hide Value;
      assert Behind(x) == [ds[k - 2], ds[k - 1]];
    }
  }

  lemma TwoDigitsOff(v: nat)
    ensures v / 10 / 10 == v / 100
  {
  }

  lemma BeforeLastTwo(x: Number)
    requires Proper(x) && Scale(x) == -2
    ensures Before(x) == Digits(Value(x.digits) / 100)
  {
    var ds, k := x.digits, |x.digits|;
    var front := ds[..k - 1];
    LastDigitOf(ds);
    TwoDigitsOff(Value(ds));
    if k == 1 {
      assert Value(front) == 0;
      hide Value;
      assert Digits(0) == "0";
    } else {
      LastDigitOf(front);
      assert front[..k - 2] == ds[..k - 2];
      if k > 2 {
        DigitsShowValue(ds[..k - 2]);
      } else {
        assert Value(front[..0]) == 0;
      }
      hide Value;
      assert k == 2 ==> Digits(0) == "0";
    }
  }

  lemma TwoDecimalsText(x: Number)
    requires Proper(x) && Scale(x) == -2 && x.point <= 21
    ensures ToText(x) == NumberText(Value(x.digits))
  {
    var v := Value(x.digits);
    LastDigit(x);
    PointText(x);
    LastTwo(x);
    BeforeLastTwo(x);
    hide Value, Digits, Before, Behind, ToText;
    assert Show([v / 10 % 10, v % 10]) == [Digit(v / 10 % 10), Digit(v % 10)];
    NoTrailingZero(v);
  }

  lemma LastTwoDigits(v: nat)
    ensures v % 100 == 10 * (v / 10 % 10) + v % 10
  {
  }

  lemma NoTrailingZero(v: nat)
    requires v % 10 != 0
    ensures NumberText(v) == Digits(v / 100) + "." + [Digit(v / 10 % 10), Digit(v % 10)]
  {
    LastTwoDigits(v);
    hide Digits, Digit;
  }

  lemma CentsOf(x: Number, cents: nat)
    requires Proper(x) && Scale(x) >= -2 && IsCents(x, cents)
    ensures cents == if Scale(x) >= 0 then 100 * Numerator(x)
                     else if Scale(x) == -1 then 10 * Value(x.digits)
                     else Value(x.digits)
  {
    assert Pow10(1) == 10 && Pow10(2) == 100;
    hide Value;
  }

  /** An accepted amount prints as its number of cents does elsewhere in the model. */
  lemma AcceptedText(x: Number, cents: nat)
    requires Proper(x) && InBounds(x) && IsCents(x, cents)
    ensures ToText(x) == NumberText(cents)
  {
    LowerBound(x);
    UpperBound(x);
    CentsByScale(x);
    CentsOf(x, cents);
    hide Value, ToText, Numerator, IsCents, InBounds;
    if Scale(x) >= 0 {
      WholeText(x);
      assert cents % 100 == 0 && cents / 100 == Numerator(x);
    } else if Scale(x) == -1 {
      OneDecimalText(x);
    } else {
      TwoDecimalsText(x);
    }
  }

  // ---- Every amount in cents can be sent ----

  function DigitList(n: nat): (ds: seq<nat>)
    ensures DigitSeq(ds) && Value(ds) == n && (n > 0 ==> ds != [] && ds[0] != 0)
  {
    if n == 0 then []
    else
      var front := DigitList(n / 10);
      assert (front + [n % 10])[..|front|] == front;
      front + [n % 10]
  }

  /** The number with that many hundredths, zeros at the end dropped. */
  function OfCents(n: nat, dropped: nat): (x: Number)
    requires n > 0
    ensures Proper(x)
    decreases n
  {
    if n % 10 == 0 then OfCents(n / 10, dropped + 1)
    else
      var ds := DigitList(n);
      assert ds[|ds| - 1] == n % 10;
      Number(ds, |ds| + dropped - 2)
  }

  lemma ScaledIs(x: Number, dropped: nat)
    requires Proper(x) && Scale(x) == dropped - 2
    ensures IsCents(x, Value(x.digits) * Pow10(dropped))
  {
    var v := Value(x.digits);
    assert Pow10(1) == 10 && Pow10(2) == 100;
    hide Value;
    if dropped >= 2 {
      Pow10Add(2, dropped - 2);
      Regroup(v, 100, Pow10(dropped - 2));
      Regroup(100, v, Pow10(dropped - 2));
    } else {
      assert dropped == 0 ==> v * Pow10(dropped) == v;
      assert dropped == 1 ==> v * Pow10(dropped) == 10 * v;
    }
  }

  lemma Regroup(a: nat, b: nat, c: nat)
    ensures a * (b * c) == a * b * c
  {
  }

  lemma {:induction false} OfCentsIs(n: nat, dropped: nat)
    requires n > 0
    ensures IsCents(OfCents(n, dropped), n * Pow10(dropped))
    decreases n
  {
    hide IsCents;
    if n % 10 == 0 {
      OfCentsIs(n / 10, dropped + 1);
      Regroup(n / 10, 10, Pow10(dropped));
      assert n / 10 * 10 == n;
    } else {
      ScaledIs(OfCents(n, dropped), dropped);
    }
  }

  lemma CancelFactor(a: nat, b: nat, d: nat)
    requires d > 0
    ensures a * d <= b * d <==> a <= b
  {
    TimesMonotone(a, b, d);
    TimesMonotone(b + 1, a, d);
  }

  lemma Hundredfold(n: nat, bound: nat, d: nat)
    ensures n <= bound * d <==> 100 * n <= 100 * bound * d
  {
    Regroup(100, bound, d);
  }

  /** A fraction n / d of c hundredths, between a bound and one hundredth. */
  lemma FractionBounds(n: nat, d: nat, c: nat, bound: nat)
    requires d > 0 && 100 * n == c * d
    ensures 100 * n >= d <==> c >= 1
    ensures n <= bound * d <==> c <= 100 * bound
  {
    CancelFactor(1, c, d);
    CancelFactor(c, 100 * bound, d);
    Hundredfold(n, bound, d);
  }

  lemma BoundsInCents(x: Number, cents: nat)
    requires Proper(x) && IsCents(x, cents)
    ensures InBounds(x) <==> 1 <= cents <= 100 * MAX
  {
    assert Denominator(x) > 0;
    hide Numerator, Denominator, Value;
    FractionBounds(Numerator(x), Denominator(x), cents, MAX);
  }

  predicate Accepted(x: Number) {
    Proper(x) && InBounds(x) && Validate(ToText(x))
  }

  /** The texts of the accepted numbers are those of 0.01 to 1e12 in whole cents, and no others. */
  lemma AcceptedTexts(s: string)
    ensures (exists x :: Accepted(x) && ToText(x) == s)
        <==> (exists cents: nat :: 1 <= cents <= 100_000_000_000_000 && s == NumberText(cents))
  {
    if x :| Accepted(x) && ToText(x) == s {
      AcceptedIsWholeCents(x);
      var cents: nat :| IsCents(x, cents);
      AcceptedText(x, cents);
      BoundsInCents(x, cents);
    }
    if cents: nat :| 1 <= cents <= 100_000_000_000_000 && s == NumberText(cents) {
      var x := OfCents(cents, 0);
      OfCentsIs(cents, 0);
      BoundsInCents(x, cents);
      AcceptedIsWholeCents(x);
      AcceptedText(x, cents);
      assert Accepted(x);
    }
  }
}
