/** Strings as the two applications handle them: trimming, upper-casing, decimal digits
    and money printed with two decimals. */
module Text {

  datatype Option<+T> = None | Some(value: T)

  /** White space in the sense of ECMAScript `String.prototype.trim`. */
  predicate IsSpace(c: char) {
    || '\t' <= c <= '\r' || c == ' ' || c == '\U{A0}' || c == '\U{1680}'
    || '\U{2000}' <= c <= '\U{200A}' || c == '\U{2028}' || c == '\U{2029}'
    || c == '\U{202F}' || c == '\U{205F}' || c == '\U{3000}' || c == '\U{FEFF}'
  }

  function TrimStart(s: string): string {
    if s != [] && IsSpace(s[0]) then TrimStart(s[1..]) else s
  }

  function TrimEnd(s: string): string {
    if s != [] && IsSpace(s[|s| - 1]) then TrimEnd(s[..|s| - 1]) else s
  }

  function Trim(s: string): string {
    TrimEnd(TrimStart(s))
  }

  /** No white space at either end. */
  predicate Trimmed(s: string) {
    s == [] || (!IsSpace(s[0]) && !IsSpace(s[|s| - 1]))
  }

  lemma {:induction false} TrimStartStops(s: string)
    ensures TrimStart(s) == [] || !IsSpace(TrimStart(s)[0])
    decreases |s|
  {
    if s != [] && IsSpace(s[0]) { TrimStartStops(s[1..]); }
  }

  lemma {:induction false} TrimEndStops(s: string)
    requires s == [] || !IsSpace(s[0])
    ensures Trimmed(TrimEnd(s))
    decreases |s|
  {
    if s != [] && IsSpace(s[|s| - 1]) { TrimEndStops(s[..|s| - 1]); }
  }

  /** A trimmed key stays itself when it is trimmed again, as the confirmation path does. */
  lemma TrimTwice(s: string)
    ensures Trimmed(Trim(s)) && Trim(Trim(s)) == Trim(s)
  {
    TrimStartStops(s);
    TrimEndStops(TrimStart(s));
  }

  predicate Blank(s: string) { forall i :: 0 <= i < |s| ==> IsSpace(s[i]) }

  lemma {:induction false} TrimStartSplits(s: string) returns (before: string)
    ensures s == before + TrimStart(s) && Blank(before)
    decreases |s|
  {
    before := "";
    if s != [] && IsSpace(s[0]) {
      var rest := TrimStartSplits(s[1..]);
      before := [s[0]] + rest;
    }
  }

  lemma {:induction false} TrimEndSplits(s: string) returns (after: string)
    ensures s == TrimEnd(s) + after && Blank(after)
    decreases |s|
  {
    after := "";
    if s != [] && IsSpace(s[|s| - 1]) {
      var rest := TrimEndSplits(s[..|s| - 1]);
      after := rest + [s[|s| - 1]];
    }
  }

  lemma {:induction false} BlankTrims(s: string)
    requires Blank(s)
    ensures Trim(s) == ""
    decreases |s|
  {
    if s != [] { BlankTrims(s[1..]); }
  }

  /** Trimming takes away white space at both ends and nothing else. */
  lemma TrimSplits(s: string) returns (before: string, after: string)
    ensures s == before + Trim(s) + after && Blank(before) && Blank(after) && Trimmed(Trim(s))
  {
    before := TrimStartSplits(s);
    after := TrimEndSplits(TrimStart(s));
    TrimTwice(s);
  }

  lemma {:induction false} TrimStartIs(before: string, core: string)
    requires Blank(before) && (core == [] || !IsSpace(core[0]))
    ensures TrimStart(before + core) == core
    decreases |before|
  {
    if before == [] {
      assert before + core == core;
    } else {
      assert (before + core)[1..] == before[1..] + core;
      TrimStartIs(before[1..], core);
    }
  }

  lemma {:induction false} TrimEndIs(core: string, after: string)
    requires Blank(after) && (core == [] || !IsSpace(core[|core| - 1]))
    ensures TrimEnd(core + after) == core
    decreases |after|
  {
    var s := core + after;
    if after == [] {
      assert s == core;
    } else {
      assert s[..|s| - 1] == core + after[..|after| - 1];
      TrimEndIs(core, after[..|after| - 1]);
    }
  }

  /** White space around a text does not matter. */
  lemma TrimIs(before: string, core: string, after: string)
    requires Blank(before) && Blank(after) && core != [] && Trimmed(core)
    ensures Trim(before + core + after) == core
  {
    assert before + core + after == before + (core + after);
    TrimStartIs(before, core + after);
    TrimEndIs(core, after);
  }

  function UpperChar(c: char): char {
    if 'a' <= c <= 'z' then c - 'a' + 'A' else c
  }

  function Upper(s: string): string {
    seq(|s|, i requires 0 <= i < |s| => UpperChar(s[i]))
  }

  // ---- Decimal digits ----

  predicate IsDigit(c: char) { '0' <= c <= '9' }

  function Digit(d: nat): (c: char)
    requires d < 10
    ensures IsDigit(c) && c as int - '0' as int == d
  {
    (d + '0' as int) as char
  }

  function Digits(n: nat): (s: string)
    ensures s != []
    ensures forall i :: 0 <= i < |s| ==> IsDigit(s[i])
  {
    if n < 10 then [Digit(n)] else Digits(n / 10) + [Digit(n % 10)]
  }

  function DigitOf(c: char): nat
    requires IsDigit(c)
  {
    c as int - '0' as int
  }

  function DigitsValue(s: string): nat
    requires forall i :: 0 <= i < |s| ==> IsDigit(s[i])
  {
    if s == [] then 0
    else 10 * DigitsValue(s[..|s| - 1]) + DigitOf(s[|s| - 1])
  }

  lemma {:induction false} DigitsRoundTrip(n: nat)
    ensures DigitsValue(Digits(n)) == n
  {
    if n < 10 {
      assert DigitsValue([Digit(n)]) == 10 * DigitsValue([]) + n;
    } else {
      DigitsRoundTrip(n / 10);
      assert Digits(n)[..|Digits(n)| - 1] == Digits(n / 10);
    }
  }

  /** The longest prefix of digits, and what follows it. */
  function SpanDigits(s: string): (r: (string, string))
    ensures r.0 + r.1 == s
    ensures forall i :: 0 <= i < |r.0| ==> IsDigit(r.0[i])
    ensures r.1 == [] || !IsDigit(r.1[0])
  {
    if s != [] && IsDigit(s[0]) then
      var (ds, rest) := SpanDigits(s[1..]);
      ([s[0]] + ds, rest)
    else ([], s)
  }

  lemma {:induction false} SpanDigitsExact(ds: string, rest: string)
    requires forall i :: 0 <= i < |ds| ==> IsDigit(ds[i])
    requires rest == [] || !IsDigit(rest[0])
    ensures SpanDigits(ds + rest) == (ds, rest)
    decreases |ds|
  {
    if ds == [] {
      assert ds + rest == rest;
    } else {
      assert (ds + rest)[1..] == ds[1..] + rest;
      SpanDigitsExact(ds[1..], rest);
      assert [ds[0]] + ds[1..] == ds;
    }
  }

  // ---- Money ----

  /** `Decimal.toFixed(2)` of an amount in cents. */
  function ToFixed2(cents: nat): string {
    Digits(cents / 100) + "." + [Digit(cents % 100 / 10), Digit(cents % 10)]
  }

  /** The text of the ECMAScript number with that many hundredths: no trailing zeros. */
  function NumberText(cents: nat): string {
    if cents % 100 == 0 then Digits(cents / 100)
    else if cents % 10 == 0 then Digits(cents / 100) + "." + [Digit(cents % 100 / 10)]
    else ToFixed2(cents)
  }

  function FractionCents(ds: string): Option<nat>
    requires forall i :: 0 <= i < |ds| ==> IsDigit(ds[i])
  {
    if |ds| == 1 then Some(10 * DigitsValue(ds))
    else if |ds| == 2 then Some(DigitsValue(ds))
    else None
  }

  /** Reads an unsigned decimal with at most two decimals off the front of a text. */
  function ParseCents(s: string): Option<(nat, string)> {
    var (whole, rest) := SpanDigits(s);
    if whole == [] then None
    else if rest == [] || rest[0] != '.' then Some((100 * DigitsValue(whole), rest))
    else
      var (frac, tail) := SpanDigits(rest[1..]);
      match FractionCents(frac)
      case None => None
      case Some(c) => Some((100 * DigitsValue(whole) + c, tail))
  }

  lemma TwoDigits(a: nat, b: nat)
    requires a < 10 && b < 10
    ensures DigitsValue([Digit(a)]) == a && DigitsValue([Digit(a), Digit(b)]) == 10 * a + b
  {
    var one, two := [Digit(a)], [Digit(a), Digit(b)];
    assert one[..0] == [] && two[..1] == one;
    hide Digit;
  }

  lemma FractionDigits(cents: nat)
    ensures var a, b := Digit(cents % 100 / 10), Digit(cents % 10);
            && FractionCents([a]) == Some(10 * (cents % 100 / 10))
            && FractionCents([a, b]) == Some(cents % 100)
  {
    var tens, ones := cents % 100 / 10, cents % 10;
    TwoDigits(tens, ones);
    assert cents % 100 == 10 * tens + ones;
    hide DigitsValue, Digit;
  }

  lemma ParseWithFraction(whole: nat, frac: string, rest: string)
    requires forall i :: 0 <= i < |frac| ==> IsDigit(frac[i])
    requires FractionCents(frac).Some?
    requires rest == [] || !IsDigit(rest[0])
    ensures ParseCents(Digits(whole) + "." + frac + rest)
         == Some((100 * whole + FractionCents(frac).value, rest))
  {
    hide FractionCents, Digits;
    var tail := "." + (frac + rest);
    assert Digits(whole) + "." + frac + rest == Digits(whole) + tail;
    SpanDigitsExact(Digits(whole), tail);
    assert tail[1..] == frac + rest;
    SpanDigitsExact(frac, rest);
    DigitsRoundTrip(whole);
    hide DigitsValue, SpanDigits;
  }

  /** A printed number is read back as the same amount, wherever the text goes on. */
  lemma NumberTextParses(cents: nat, rest: string)
    requires rest == [] || (!IsDigit(rest[0]) && rest[0] != '.')
    ensures ParseCents(NumberText(cents) + rest) == Some((cents, rest))
  {
    var whole, a, b := cents / 100, Digit(cents % 100 / 10), Digit(cents % 10);
    FractionDigits(cents);
    if cents % 100 == 0 {
      SpanDigitsExact(Digits(whole), rest);
      DigitsRoundTrip(whole);
    } else if cents % 10 == 0 {
      ParseWithFraction(whole, [a], rest);
    } else {
      ParseWithFraction(whole, [a, b], rest);
    }
  }

  /** The text of an amount with two decimals reads back as that amount. */
  lemma ToFixed2Parses(cents: nat)
    ensures ParseCents(ToFixed2(cents)) == Some((cents, ""))
    ensures var t := ToFixed2(cents); |t| >= 4 && t[|t| - 3] == '.'
  {
    FractionDigits(cents);
    ParseWithFraction(cents / 100, [Digit(cents % 100 / 10), Digit(cents % 10)], "");
    assert ToFixed2(cents) + "" == ToFixed2(cents);
  }
}
