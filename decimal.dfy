/**
  Fixed-point rendering of binary floating-point numbers, as Python's
  `f"{x:.Nf}"` does it, and the canonical decimal string that the ledger
  writes for every float (`_decimal_string`: fifteen places, trailing zeros
  and a bare point removed).

  A finite float is represented by its exact value as a `real`; rounding to
  N places is round-half-even on that exact value, as CPython's formatter does.
*/
module Decimal {
  import opened Text
  import opened Wrappers

  /** A Python float: a finite value, negative zero, an infinity or NaN. */
  datatype Float = Finite(x: real) | NegZero | Infinity(negative: bool) | NaN

  /** Python's `f > c` for a float `f` and a finite constant `c`: false for NaN, decided by the sign for an infinity. */
  predicate Greater(f: Float, c: real) {
    match f
    case Finite(x) => x > c
    case NegZero => 0.0 > c
    case Infinity(negative) => !negative
    case NaN => false
  }

  function Abs(x: real): (a: real)
    ensures a >= 0.0 && (a == x || a == -x)
  {
    if x < 0.0 then -x else x
  }

  /** Round to the nearest integer, ties to the even neighbour. */
  function RoundHalfEven(x: real): (n: int)
    ensures n as real - 0.5 <= x <= n as real + 0.5
    ensures (x == n as real - 0.5 || x == n as real + 0.5) ==> n % 2 == 0
  {
    var f := x.Floor;
    var d := x - f as real;
    if d < 0.5 then f else if d > 0.5 then f + 1 else if f % 2 == 0 then f else f + 1
  }

  /** The two contract clauses of `RoundHalfEven` pin its result down. */
  lemma RoundHalfEvenUnique(x: real, m: int)
    requires m as real - 0.5 <= x <= m as real + 0.5
    requires (x == m as real - 0.5 || x == m as real + 0.5) ==> m % 2 == 0
    ensures m == RoundHalfEven(x)
  {
  }

  /** |x| in units of 10^-d, rounded half-even: the digits `f"{x:.df}"` shows, without the point. */
  function Scaled(x: real, d: nat): (n: nat)
    ensures n as real - 0.5 <= Abs(x) * Pow10(d) as real <= n as real + 0.5
  {
    var n := RoundHalfEven(Abs(x) * Pow10(d) as real);
    assert n >= 0;
    n
  }

  lemma PadZerosDigits(s: string, w: nat)
    requires AllDigits(s)
    ensures AllDigits(PadLeft(s, w, '0')) && DigitsValue(PadLeft(s, w, '0')) == DigitsValue(s)
  {
    DigitsValueLeadingZeros(|PadLeft(s, w, '0')| - |s|, s);
  }

  /** The digits of `n`, zero-padded so that at least one digit precedes the last `d`. */
  function PaddedDigits(n: nat, d: nat): (t: string)
    ensures |t| >= d + 1 && AllDigits(t)
  {
    PadZerosDigits(NatToString(n), d + 1);
    PadLeft(NatToString(n), d + 1, '0')
  }

  /** The digits before the point when `n` is shown with `d` places. */
  function IntDigits(n: nat, d: nat): (s: string)
    ensures |s| >= 1 && AllDigits(s)
  {
    var t := PaddedDigits(n, d);
    t[..|t| - d]
  }

  /** The `d` digits after the point. */
  function FracDigits(n: nat, d: nat): (s: string)
    ensures |s| == d && AllDigits(s)
  {
    var t := PaddedDigits(n, d);
    t[|t| - d..]
  }

  /** The text of `n / 10^d` with `d` places, preceded by a minus sign when `negative`. */
  function FixedText(negative: bool, n: nat, d: nat): string {
    (if negative then "-" else "") + IntDigits(n, d) + (if d == 0 then "" else "." + FracDigits(n, d))
  }

  /** Python's `f"{x:.df}"` for a finite `x`; the sign is kept even when the digits round to zero. */
  function Fixed(x: real, d: nat): string {
    FixedText(x < 0.0, Scaled(x, d), d)
  }

  /** Python's `f"{f:.df}"` for any float. */
  function FormatFixed(f: Float, d: nat): string {
    match f
    case Finite(x) => Fixed(x, d)
    case NegZero => FixedText(true, 0, d)
    case Infinity(neg) => if neg then "-inf" else "inf"
    case NaN => "nan"
  }

  /** The number of places `_decimal_string` formats with. */
  const Places: nat := 15

  /** The raw result of `f"{f:.15f}".rstrip("0").rstrip(".")`. */
  function StrippedFixed(f: Float): string {
    RStripChar(RStripChar(FormatFixed(f, Places), '0'), '.')
  }

  /** The same for the `d`-place text of `n / 10^d`, with a minus sign when `negative`. */
  function StrippedText(negative: bool, n: nat, d: nat): string {
    RStripChar(RStripChar(FixedText(negative, n, d), '0'), '.')
  }

  /** `_decimal_string`: the text the ledger stores for a float. */
  function DecimalString(f: Float): string {
    var s := StrippedFixed(f);
    if s == [] then "0" else s
  }

  // ---------------------------------------------------------------------
  // Reading a decimal string back

  /** Length of the leading run of digits. */
  function DigitRun(s: string): (n: nat)
    ensures n <= |s| && AllDigits(s[..n]) && (n == |s| || !IsDigit(s[n]))
  {
    if s == [] || !IsDigit(s[0]) then 0
    else
      var k := DigitRun(s[1..]);
      assert s[..k + 1] == [s[0]] + s[1..][..k];
      k + 1
  }

  lemma {:induction false} DigitRunOf(a: string, b: string)
    requires AllDigits(a) && (b == [] || !IsDigit(b[0]))
    ensures DigitRun(a + b) == |a|
  {
    if a != [] {
      assert (a + b)[1..] == a[1..] + b;
      DigitRunOf(a[1..], b);
    } else {
      assert a + b == b;
    }
  }

  /** The digits `i`, then the `f` fraction digits padded with zeros to `d` places. */
  function UnitDigits(i: string, f: string, d: nat): (t: string)
    requires AllDigits(i) && AllDigits(f) && |f| <= d
    ensures AllDigits(t)
  {
    ZerosValue(d - |f|);
    DigitsValueConcat(i, f);
    DigitsValueConcat(i + f, Repeat('0', d - |f|));
    i + f + Repeat('0', d - |f|)
  }

  /** The number of units of 10^-d that an unsigned decimal text such as `12.5` denotes, when it has at most `d` places. */
  function ReadUnits(u: string, d: nat): Option<nat> {
    var i := DigitRun(u);
    if i == 0 then None
    else if i == |u| then Some(DigitsValue(UnitDigits(u, "", d)))
    else if u[i] == '.' && i + 1 < |u| && AllDigits(u[i + 1..]) && |u| - i - 1 <= d then
      Some(DigitsValue(UnitDigits(u[..i], u[i + 1..], d)))
    else None
  }

  /** The sign and the number of units of 10^-d that a decimal text such as `-12.5` denotes. */
  function ReadFixed(s: string, d: nat): Option<(bool, nat)> {
    var negative := |s| > 0 && s[0] == '-';
    match ReadUnits(if negative then s[1..] else s, d)
    case Some(n) => Some((negative, n))
    case None => None
  }

  // ---------------------------------------------------------------------
  // Properties of the canonical decimal string

  /** The integer digits carry no superfluous leading zero. */
  lemma IntDigitsCanonical(n: nat, d: nat)
    ensures IntDigits(n, d)[0] != '0' || IntDigits(n, d) == "0"
  {
    var s := NatToString(n);
    if |s| >= d + 1 {
      LongIntDigits(n, d);
      assert IntDigits(n, d)[0] == s[0];
      NatToStringLeading(n);
    } else {
      assert |IntDigits(n, d)| == 1;
    }
  }

  lemma LongIntDigits(n: nat, d: nat)
    requires |NatToString(n)| >= d + 1
    ensures PaddedDigits(n, d) == NatToString(n)
  {
    var s := NatToString(n);
    assert PaddedDigits(n, d) == s;
  }

  /** Stripping zeros and then a point from `head.full` removes only the fraction's trailing zeros, and the point when nothing is left after it. */
  lemma StripFraction(head: string, full: string)
    requires head != [] && head[|head| - 1] != '.' && '.' !in full
    ensures var f := RStripChar(full, '0');
      RStripChar(RStripChar(head + "." + full, '0'), '.') == head + (if f == [] then "" else "." + f)
  {
    RStripCharConcat(head + ".", full, '0');
    if RStripChar(full, '0') == [] {
      StripBarePoint(head);
    } else {
      StripKeptFraction(head, full);
    }
  }

  lemma StripKeptFraction(head: string, full: string)
    requires '.' !in full && RStripChar(full, '0') != []
    requires RStripChar(head + "." + full, '0') == head + "." + RStripChar(full, '0')
    ensures RStripChar(RStripChar(head + "." + full, '0'), '.') == head + ("." + RStripChar(full, '0'))
  {
    var f := RStripChar(full, '0');
    var s2 := head + "." + f;
    assert s2[|s2| - 1] == f[|f| - 1] == full[|f| - 1];
    StripNoPoint(s2);
    assert s2 == head + ("." + f);
  }

  lemma StripBarePoint(head: string)
    requires head != [] && head[|head| - 1] != '.'
    ensures RStripChar(RStripChar(head + ".", '0'), '.') == head
  {
    assert (head + ".")[..|head|] == head;
  }

  lemma StripNoPoint(s: string)
    requires s != [] && s[|s| - 1] != '.' && s[|s| - 1] != '0'
    ensures RStripChar(s, '0') == s && RStripChar(s, '.') == s
  {
  }

  /** The shape of the stripped text: sign, integer digits, and the fraction digits without trailing zeros. */
  lemma StrippedTextShape(negative: bool, n: nat, d: nat)
    requires d >= 1
    ensures var f := RStripChar(FracDigits(n, d), '0');
      StrippedText(negative, n, d)
        == (if negative then "-" else "") + IntDigits(n, d) + (if f == [] then "" else "." + f)
  {
    var i := IntDigits(n, d);
    var head := (if negative then "-" else "") + i;
    var full := FracDigits(n, d);
    assert head[|head| - 1] == i[|i| - 1];
    assert '.' !in full;
    assert FixedText(negative, n, d) == head + "." + full;
    StripFraction(head, full);
  }

  /** The `"0"` fallback of `_decimal_string` is never taken: the stripped text is never empty. */
  lemma FallbackUnreachable(f: Float)
    ensures StrippedFixed(f) != []
    ensures DecimalString(f) == StrippedFixed(f)
  {
    match f
    case Finite(x) =>
      StrippedTextShape(x < 0.0, Scaled(x, Places), Places);
      assert StrippedFixed(f) == StrippedText(x < 0.0, Scaled(x, Places), Places);
    case NegZero =>
      StrippedTextShape(true, 0, Places);
      assert StrippedFixed(f) == StrippedText(true, 0, Places);
    case Infinity(neg) =>
    case NaN =>
  }

  /** Sign, integer digits, and a point with fraction digits when there are any. */
  function ShapeText(negative: bool, i: string, f: string): string {
    (if negative then "-" else "") + i + (if f == [] then "" else "." + f)
  }

  lemma StrippedTextIsShape(negative: bool, n: nat, d: nat)
    requires d >= 1
    ensures StrippedText(negative, n, d) == ShapeText(negative, IntDigits(n, d), RStripChar(FracDigits(n, d), '0'))
  {
    StrippedTextShape(negative, n, d);
  }

  lemma SignedDigitsHaveNoPoint(negative: bool, i: string)
    requires AllDigits(i)
    ensures '.' !in (if negative then "-" else "") + i
  {
    var r := (if negative then "-" else "") + i;
    forall k | 0 <= k < |r| ensures r[k] != '.' {
      if !negative || k > 0 {
        assert r[k] == i[k - (|r| - |i|)];
      }
    }
  }

  /** Text that is not empty and ends neither in a point nor, once it has a point, in a zero. */
  predicate EndsClean(r: string) {
    r != [] && r[|r| - 1] != '.' && ('.' in r ==> r[|r| - 1] != '0')
  }

  lemma ShapeEnds(negative: bool, i: string, f: string)
    requires i != [] && AllDigits(i) && AllDigits(f) && (f == [] || f[|f| - 1] != '0')
    ensures EndsClean(ShapeText(negative, i, f))
  {
    var r := ShapeText(negative, i, f);
    if f == [] {
      SignedDigitsHaveNoPoint(negative, i);
      assert r == (if negative then "-" else "") + i;
      assert r[|r| - 1] == i[|i| - 1];
    } else {
      assert r[|r| - 1] == f[|f| - 1];
    }
  }

  lemma DecimalStringIsStripped(x: real)
    ensures DecimalString(Finite(x)) == StrippedText(x < 0.0, Scaled(x, Places), Places)
  {
    FallbackUnreachable(Finite(x));
  }

  /** The stripped text never ends in a point, nor in a zero after the point. */
  lemma StrippedTextNoTrailingZeros(negative: bool, n: nat, d: nat)
    requires d >= 1
    ensures EndsClean(StrippedText(negative, n, d))
  {
    StrippedTextIsShape(negative, n, d);
    UnitsOfStripped(n, d);
    ShapeEnds(negative, IntDigits(n, d), RStripChar(FracDigits(n, d), '0'));
  }

  /** The canonical decimal string never ends in a point, nor in a zero after the point. */
  lemma DecimalStringNoTrailingZeros(x: real)
    ensures EndsClean(DecimalString(Finite(x)))
  {
    DecimalStringIsStripped(x);
    StrippedTextNoTrailingZeros(x < 0.0, Scaled(x, Places), Places);
  }

  lemma ReadWholeUnits(i: string, d: nat)
    requires i != [] && AllDigits(i)
    ensures ReadUnits(i, d) == Some(DigitsValue(UnitDigits(i, "", d)))
  {
    DigitRunOf(i, "");
    assert i + "" == i;
  }

  lemma ReadFractionUnits(i: string, f: string, d: nat)
    requires i != [] && AllDigits(i) && f != [] && AllDigits(f) && |f| <= d
    ensures ReadUnits(i + ("." + f), d) == Some(DigitsValue(UnitDigits(i, f, d)))
  {
    var u := i + ("." + f);
    DigitRunOf(i, "." + f);
    assert u[..|i|] == i && u[|i| + 1..] == f;
  }

  lemma ReadSigned(negative: bool, body: string, d: nat)
    requires body != [] && body[0] != '-'
    ensures ReadFixed((if negative then "-" else "") + body, d)
      == if ReadUnits(body, d).Some? then Some((negative, ReadUnits(body, d).value)) else None
  {
    var r := (if negative then "-" else "") + body;
    if negative {
      assert r[1..] == body;
    } else {
      assert r == body;
    }
  }

  lemma ReadShape(negative: bool, i: string, f: string, d: nat)
    requires i != [] && AllDigits(i) && AllDigits(f) && |f| <= d
    ensures ReadFixed(ShapeText(negative, i, f), d) == Some((negative, DigitsValue(UnitDigits(i, f, d))))
  {
    var body := i + (if f == [] then "" else "." + f);
    assert ShapeText(negative, i, f) == (if negative then "-" else "") + body;
    assert body[0] == i[0];
    if f == [] {
      assert body == i;
      ReadWholeUnits(i, d);
    } else {
      assert body == i + ("." + f);
      ReadFractionUnits(i, f, d);
    }
    ReadSigned(negative, body, d);
  }

  lemma PaddedDigitsValue(n: nat, d: nat)
    ensures DigitsValue(PaddedDigits(n, d)) == n
  {
    PadZerosDigits(NatToString(n), d + 1);
    NatToStringValue(n);
  }

  lemma UnitsOfStripped(n: nat, d: nat)
    ensures var f := RStripChar(FracDigits(n, d), '0');
      AllDigits(f) && UnitDigits(IntDigits(n, d), f, d) == PaddedDigits(n, d)
  {
    var i, full := IntDigits(n, d), FracDigits(n, d);
    var f := RStripChar(full, '0');
    RStripCharRemoved(full, '0');
    PrefixDigits(full, |f|);
    PaddedSplit(n, d);
    var z := Repeat('0', d - |f|);
    assert UnitDigits(i, f, d) == i + f + z;
    assert i + f + z == i + (f + z);
  }

  lemma PaddedSplit(n: nat, d: nat)
    ensures PaddedDigits(n, d) == IntDigits(n, d) + FracDigits(n, d)
  {
  }

  lemma PrefixDigits(s: string, k: nat)
    requires AllDigits(s) && k <= |s|
    ensures AllDigits(s[..k])
  {
    forall j | 0 <= j < k ensures IsDigit(s[..k][j]) {
      assert s[..k][j] == s[j];
    }
  }

  /** Read back, the stripped text gives its sign and digits back. */
  lemma StrippedTextReadsBack(negative: bool, n: nat, d: nat)
    requires d >= 1
    ensures ReadFixed(StrippedText(negative, n, d), d) == Some((negative, n))
  {
    StrippedTextIsShape(negative, n, d);
    UnitsOfStripped(n, d);
    ReadShape(negative, IntDigits(n, d), RStripChar(FracDigits(n, d), '0'), d);
    PaddedDigitsValue(n, d);
  }

  /** Read back, the canonical decimal string gives the sign of `x` and `x` rounded half-even to fifteen places. */
  lemma DecimalStringReadsBack(x: real)
    ensures ReadFixed(DecimalString(Finite(x)), Places) == Some((x < 0.0, Scaled(x, Places)))
  {
    DecimalStringIsStripped(x);
    StrippedTextReadsBack(x < 0.0, Scaled(x, Places), Places);
  }

  /** Two finite floats get the same text exactly when they have the same sign and the same fifteen-place rounding. */
  lemma DecimalStringInjective(x: real, y: real)
    ensures DecimalString(Finite(x)) == DecimalString(Finite(y))
      <==> (x < 0.0 <==> y < 0.0) && Scaled(x, Places) == Scaled(y, Places)
  {
    DecimalStringReadsBack(x);
    DecimalStringReadsBack(y);
    DecimalStringIsStripped(x);
    DecimalStringIsStripped(y);
  }

  /** A whole number of units of 10^-d shows no fraction digits. */
  lemma StrippedTextOfWhole(negative: bool, m: nat, d: nat)
    requires d >= 1
    ensures StrippedText(negative, Shift(m, d), d) == (if negative then "-" else "") + NatToString(m)
  {
    var n := Shift(m, d);
    var s := NatToString(m) + Repeat('0', d);
    NatToStringValue(m);
    ZerosValue(d);
    DigitsValueConcat(NatToString(m), Repeat('0', d));
    assert DigitsValue(s) == n;
    if m == 0 {
      assert NatToString(n) == "0" by {
        ShiftZero(d);
      }
      assert PaddedDigits(n, d) == Repeat('0', d) + "0";
      assert Repeat('0', d) + "0" == s by {
        RepeatSnoc('0', d + 1);
      }
    } else {
      assert s[0] == NatToString(m)[0];
      CanonicalDigits(s);
      assert PaddedDigits(n, d) == s;
    }
    assert IntDigits(n, d) == NatToString(m);
    assert FracDigits(n, d) == Repeat('0', d);
    assert RStripChar(Repeat('0', d), '0') == [];
    StrippedTextShape(negative, n, d);
  }

  lemma {:induction false} ShiftZero(k: nat)
    ensures Shift(0, k) == 0
  {
    if k > 0 {
      ShiftZero(k - 1);
    }
  }

  lemma ScaledOfWhole(x: real, m: nat, d: nat)
    requires Abs(x) == m as real
    ensures Scaled(x, d) == Shift(m, d)
  {
    ShiftIsProduct(m, d);
    var a := Abs(x) * Pow10(d) as real;
    assert a == Shift(m, d) as real;
    RoundHalfEvenUnique(a, Shift(m, d));
  }

  lemma ScaledOfTiny(x: real, d: nat)
    requires Abs(x) * Pow10(d) as real <= 0.5
    ensures Scaled(x, d) == Shift(0, d)
  {
    var a := Abs(x) * Pow10(d) as real;
    assert 0.0 <= a;
    RoundHalfEvenUnique(a, 0);
    ShiftZero(d);
  }

  /** Whole numbers render exactly as Python's `str` renders the integer. */
  lemma DecimalStringOfInteger(k: int)
    ensures DecimalString(Finite(k as real)) == IntToString(k)
  {
    DecimalStringIsStripped(k as real);
    var m: nat := if k < 0 then -k else k;
    ScaledOfWhole(k as real, m, Places);
    StrippedTextOfWhole(k < 0, m, Places);
  }

  /** A negative value too small to show a digit renders as `-0`, not `0`. */
  lemma TinyNegativeIsMinusZero(x: real)
    requires x < 0.0 && Abs(x) * Pow10(Places) as real <= 0.5
    ensures DecimalString(Finite(x)) == "-0"
  {
    DecimalStringIsStripped(x);
    ScaledOfTiny(x, Places);
    TinyStripped(x, Places);
  }

  lemma TinyStripped(x: real, d: nat)
    requires d >= 1 && x < 0.0 && Scaled(x, d) == Shift(0, d)
    ensures StrippedText(true, Scaled(x, d), d) == "-0"
  {
    StrippedTextOfWhole(true, 0, d);
    assert NatToString(0) == "0";
  }

  /** Negative zero renders as `-0` too. */
  lemma NegativeZeroIsMinusZero()
    ensures DecimalString(NegZero) == "-0"
  {
    FallbackUnreachable(NegZero);
    ShiftZero(Places);
    StrippedTextOfWhole(true, 0, Places);
  }
}
