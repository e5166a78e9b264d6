/** The exact-decimal ledger check of server/scripts/verify-db-restore.ts.  Amounts are decimal texts;
    a unit is 0.0001. */
module ExactDecimals {
  import opened Basics
  import opened Text

  const SCALE := 10_000

  function CharOf(d: int): (c: char)
    requires 0 <= d < 10
    ensures IsDigit(c) && DigitOf(c) == d
  {
    (('0' as int) + d) as char
  }

  /** BigInt(s) on digits, where the empty text is 0; None where it is anything else. */
  function BigInt(s: string): Option<int> {
    if AllDigits(s) then Some(Value(s)) else None
  }

  function Fraction(frac: string): string { (frac + "0000")[..4] }

  /** The units of a text without sign. */
  function Unsigned(text: string): Option<int> {
    var parts := Split(text, '.');
    var whole, frac := BigInt(parts[0]), BigInt(Fraction(if |parts| > 1 then parts[1] else ""));
    if whole.None? || frac.None? then None else Some(whole.value * SCALE + frac.value)
  }

  function ToScaledUnits(value: string): Option<int> {
    var trimmed := Trim(value);
    var negative := StartsWith(trimmed, "-");
    var units := Unsigned(if negative || StartsWith(trimmed, "+") then trimmed[1..] else trimmed);
    if units.None? then None else Some(if negative then -units.value else units.value)
  }

  datatype LedgerBalance = LedgerBalance(cashBalance: string, initialCash: string, ledgerSum: Option<string>,
                                         ledgerEntries: int)

  function AbsInt(x: int): int { if x < 0 then -x else x }

  /** None when an amount is not a decimal text. */
  function IsLedgerMismatch(row: LedgerBalance): Option<bool> {
    var initial := ToScaledUnits(row.initialCash);
    var sum := if row.ledgerSum.None? then Some(0) else ToScaledUnits(row.ledgerSum.value);
    var cash := ToScaledUnits(row.cashBalance);
    if initial.None? || sum.None? || cash.None? then None
    else
      var tolerance := if row.ledgerEntries > 0 then row.ledgerEntries else 0;
      Some(AbsInt(cash.value - (initial.value + sum.value)) > tolerance)
  }

  // ------------------------------------------------------------------ printing with four decimals

  function Digits(n: nat): (s: string)
    ensures s != "" && AllDigits(s)
  {
    if n < 10 then [CharOf(n)] else Digits(n / 10) + [CharOf(n % 10)]
  }

  function FourDigits(n: nat): (s: string)
    requires n < SCALE
    ensures |s| == 4 && AllDigits(s)
  {
    [CharOf(n / 1000), CharOf(n / 100 % 10), CharOf(n / 10 % 10), CharOf(n % 10)]
  }

  function Print(units: int): string {
    (if units < 0 then "-" else "") + Digits(AbsInt(units) / SCALE) + "." + FourDigits(AbsInt(units) % SCALE)
  }

  lemma {:induction false} ValueOfDigits(n: nat)
    ensures Value(Digits(n)) == n
  {
    if n < 10 {
      ValueSnoc("", CharOf(n));
      assert "" + [CharOf(n)] == [CharOf(n)];
    } else {
      ValueOfDigits(n / 10);
      ValueSnoc(Digits(n / 10), CharOf(n % 10));
    }
  }

  lemma ValueOfDigitList(a: char, b: char, c: char, d: char)
    requires IsDigit(a) && IsDigit(b) && IsDigit(c) && IsDigit(d)
    ensures Value([a, b, c, d]) == 1000 * DigitOf(a) + 100 * DigitOf(b) + 10 * DigitOf(c) + DigitOf(d)
  {
    hide Value, DigitOf;
    ValueOfNothing();
    ValueSnoc("", a);
    ValueSnoc([a], b);
    ValueSnoc([a, b], c);
    ValueSnoc([a, b, c], d);
    assert "" + [a] == [a] && [a] + [b] == [a, b] && [a, b] + [c] == [a, b, c];
    assert [a, b, c] + [d] == [a, b, c, d];
  }

  lemma FourParts(n: nat)
    requires n < SCALE
    ensures n == 1000 * (n / 1000) + 100 * (n / 100 % 10) + 10 * (n / 10 % 10) + n % 10
  {
    assert n / 100 == n / 10 / 10 && n / 1000 == n / 100 / 10;
  }

  lemma ValueOfFour(n: nat)
    requires n < SCALE
    ensures Value(FourDigits(n)) == n
  {
    hide Value, DigitOf;
    FourParts(n);
    ValueOfDigitList(CharOf(n / 1000), CharOf(n / 100 % 10), CharOf(n / 10 % 10), CharOf(n % 10));
  }

  lemma TrimNothing(s: string)
    requires s != "" && !IsSpace(s[0]) && !IsSpace(s[|s| - 1])
    ensures Trim(s) == s
  {
  }

  lemma DigitsHaveNoDot(s: string)
    requires AllDigits(s)
    ensures '.' !in s
  {
  }

  lemma SplitAtPoint(whole: string, frac: string)
    requires AllDigits(whole) && AllDigits(frac)
    ensures Split(whole + "." + frac, '.') == [whole, frac]
  {
    DigitsHaveNoDot(whole);
    DigitsHaveNoDot(frac);
    SplitPrefix(whole, frac, '.');
    SplitWhole(frac, '.');
    assert whole + "." + frac == whole + ['.'] + frac;
  }

  lemma FractionOfFour(frac: string)
    requires |frac| == 4
    ensures Fraction(frac) == frac
  {
  }

  lemma SignedText(sign: string, body: string)
    requires (sign == "" || sign == "-") && |body| > 1 && IsDigit(body[0]) && IsDigit(body[|body| - 1])
    ensures var text := sign + body;
      && Trim(text) == text && (StartsWith(text, "-") <==> sign == "-") && !StartsWith(text, "+")
      && (if sign == "-" then text[1..] else text) == body
  {
    hide Trim;
    var text := sign + body;
    assert text[|text| - 1] == body[|body| - 1];
    if sign == "" { assert text == body; }
    assert !IsSpace(text[0]);
    TrimNothing(text);
  }

  lemma ReadsUnsigned(whole: string, frac: string)
    requires AllDigits(whole) && AllDigits(frac) && |frac| == 4
    ensures Unsigned(whole + "." + frac) == Some(Value(whole) * SCALE + Value(frac))
  {
    hide Split, Value, Fraction;
    SplitAtPoint(whole, frac);
    FractionOfFour(frac);
  }

  /** Reading "whole.frac", with or without a minus sign. */
  lemma ReadsDecimal(sign: string, whole: string, frac: string)
    requires sign == "" || sign == "-"
    requires AllDigits(whole) && whole != "" && AllDigits(frac) && |frac| == 4
    ensures var units := Value(whole) * SCALE + Value(frac);
      ToScaledUnits(sign + whole + "." + frac) == Some(if sign == "-" then -units else units)
  {
    hide Unsigned, Value, Trim, StartsWith;
    var body := whole + "." + frac;
    assert body[0] == whole[0] && body[|body| - 1] == frac[3];
    SignedText(sign, body);
    assert sign + whole + "." + frac == sign + body;
    ReadsUnsigned(whole, frac);
  }

  /** Main result: reading inverts printing any number of units with four decimals. */
  lemma ReadInvertsPrint(units: int)
    ensures ToScaledUnits(Print(units)) == Some(units)
  {
    hide ToScaledUnits, Digits, FourDigits, Value;
    var n := AbsInt(units);
    var sign := if units < 0 then "-" else "";
    ReadsDecimal(sign, Digits(n / SCALE), FourDigits(n % SCALE));
    ValueOfDigits(n / SCALE);
    ValueOfFour(n % SCALE);
  }

  // ------------------------------------------------------------------ rounding drift

  function SumOf(xs: seq<int>): int {
    if xs == [] then 0 else xs[0] + SumOf(xs[1..])
  }

  function RealSum(xs: seq<real>): real {
    if xs == [] then 0.0 else xs[0] + RealSum(xs[1..])
  }

  /** n is a nearest integer to x. */
  predicate Nearest(n: int, x: real) { x - 0.5 <= n as real <= x + 0.5 }

  lemma {:induction false} SumsDrift(rounded: seq<int>, exact: seq<real>)
    requires |rounded| == |exact| && forall i | 0 <= i < |exact| :: Nearest(rounded[i], exact[i])
    ensures RealSum(exact) - |exact| as real / 2.0 <= SumOf(rounded) as real <= RealSum(exact) + |exact| as real / 2.0
    decreases |exact|
  {
    if exact != [] {
      SumsDrift(rounded[1..], exact[1..]);
      assert |exact| as real == |exact[1..]| as real + 1.0;
    }
  }

  lemma DriftFits(cash: int, initial: int, sum: int, total: real, n: nat)
    requires Nearest(cash, initial as real + total)
    requires total - n as real / 2.0 <= sum as real <= total + n as real / 2.0
    ensures AbsInt(cash - (initial + sum)) <= n
  {
    var d := cash - (initial + sum);
    assert d as real == cash as real - initial as real - sum as real;
    assert -(n as real + 1.0) / 2.0 <= d as real <= (n as real + 1.0) / 2.0;
  }

  /** The check on printed amounts compares exact integers. */
  lemma CheckIsExact(cash: int, initial: int, sum: int, entries: nat)
    ensures IsLedgerMismatch(LedgerBalance(Print(cash), Print(initial), Some(Print(sum)), entries)) ==
            Some(AbsInt(cash - (initial + sum)) > entries)
  {
    hide ToScaledUnits, Print;
    ReadInvertsPrint(cash);
    ReadInvertsPrint(initial);
    ReadInvertsPrint(sum);
  }

  /** Main result: when every ledger entry is rounded to a nearest unit on its own and the cash is rounded
      once, no mismatch is reported. */
  lemma RoundingIsNoMismatch(initial: int, exact: seq<real>, rounded: seq<int>, cash: int)
    requires |rounded| == |exact| && forall i | 0 <= i < |exact| :: Nearest(rounded[i], exact[i])
    requires Nearest(cash, initial as real + RealSum(exact))
    ensures IsLedgerMismatch(LedgerBalance(Print(cash), Print(initial), Some(Print(SumOf(rounded))), |exact|))
      == Some(false)
    ensures exact == [] ==> IsLedgerMismatch(LedgerBalance(Print(cash), Print(initial), None, 0)) == Some(false)
  {
    hide Print, ToScaledUnits;
    ReadInvertsPrint(cash);
    ReadInvertsPrint(initial);
    SumsDrift(rounded, exact);
    DriftFits(cash, initial, SumOf(rounded), RealSum(exact), |exact|);
    CheckIsExact(cash, initial, SumOf(rounded), |exact|);
  }
}
