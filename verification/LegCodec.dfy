/** The legs of a payoff-lab draft as they travel in the URL, src/lib/payoff-lab-state.ts. */
module LegCodec {
  import opened Basics
  import opened Text

  datatype Side = Buy | Sell
  datatype Instrument = CE | PE | FUT

  /** Fields stay strings while the user types. */
  datatype Leg = Leg(side: Side, instrument: Instrument, strike: string, lots: string, premium: string)

  const MAX_LEGS: nat := 12
  const MAX_URL_LEGS: nat := MAX_LEGS * 48

  function LeadingDigits(s: string): (n: nat)
    ensures n <= |s| && AllDigits(s[..n])
  {
    if s != "" && IsDigit(s[0]) then 1 + LeadingDigits(s[1..]) else 0
  }

  /** /^\d{0,9}(\.\d{0,4})?$/ */
  predicate IsNumericDraft(s: string) {
    var n := LeadingDigits(s);
    && n <= 9
    && (n == |s| || (s[n] == '.' && |s| - n - 1 <= 4 && AllDigits(s[n + 1..])))
  }

  function SideCode(side: Side): string { if side.Buy? then "B" else "S" }

  function InstrumentCode(instrument: Instrument): string {
    match instrument
    case CE => "CE"
    case PE => "PE"
    case FUT => "FUT"
  }

  function Fields(leg: Leg): seq<string> {
    [SideCode(leg.side), InstrumentCode(leg.instrument), leg.strike, leg.lots,
     if leg.instrument.FUT? then "" else leg.premium]
  }

  function EncodeLeg(leg: Leg): string {
    Join(Fields(leg), "_")
  }

  function EncodeEach(legs: seq<Leg>): (parts: seq<string>)
    ensures |parts| == |legs| && forall i | 0 <= i < |legs| :: parts[i] == EncodeLeg(legs[i])
  {
    seq(|legs|, i requires 0 <= i < |legs| => EncodeLeg(legs[i]))
  }

  function Firsts<T>(xs: seq<T>): seq<T> {
    if |xs| <= MAX_LEGS then xs else xs[..MAX_LEGS]
  }

  function EncodeLegs(legs: seq<Leg>): Option<string> {
    if legs == [] then None else Some(Join(EncodeEach(Firsts(legs)), "~"))
  }

  function Numeric(value: string): string { if IsNumericDraft(value) then value else "" }

  function FieldAt(fields: seq<string>, i: nat): string { if i < |fields| then fields[i] else "" }

  function DecodeSide(code: string): Option<Side> {
    if code == "B" then Some(Buy) else if code == "S" then Some(Sell) else None
  }

  function DecodeInstrument(code: string): Option<Instrument> {
    if code == "CE" then Some(CE) else if code == "PE" then Some(PE) else if code == "FUT" then Some(FUT) else None
  }

  /** No leg when the side or the instrument is not recognised; missing and non-numeric fields are blank,
      fields after the fifth are ignored. */
  function DecodeLeg(part: string): seq<Leg> {
    var fields := Split(part, '_');
    var side, instrument := DecodeSide(fields[0]), DecodeInstrument(FieldAt(fields, 1));
    if side.None? || instrument.None? then []
    else
      [Leg(side.value, instrument.value, Numeric(FieldAt(fields, 2)), Numeric(FieldAt(fields, 3)),
           if instrument.value.FUT? then "" else Numeric(FieldAt(fields, 4)))]
  }

  function DecodeEach(parts: seq<string>): seq<Leg> {
    if parts == [] then [] else DecodeLeg(parts[0]) + DecodeEach(parts[1..])
  }

  function DecodeLegs(encoded: Option<string>): seq<Leg> {
    if encoded.None? || encoded.value == "" then [] else DecodeEach(Firsts(Split(encoded.value, '~')))
  }

  /** The URL drops a legs text that is too long. */
  function UrlLegs(encoded: Option<string>): Option<string> {
    if encoded.Some? && |encoded.value| > MAX_URL_LEGS then None else encoded
  }

  /** A leg as the form can hold it: numeric drafts, and no premium on a future. */
  predicate Valid(leg: Leg) {
    && IsNumericDraft(leg.strike) && IsNumericDraft(leg.lots) && IsNumericDraft(leg.premium)
    && (leg.instrument.FUT? ==> leg.premium == "")
  }

  predicate AllValid(legs: seq<Leg>) { forall i | 0 <= i < |legs| :: Valid(legs[i]) }

  /** s is `whole`, or `whole` and `fraction` about a point. */
  ghost predicate Written(s: string, whole: string, fraction: string) {
    && AllDigits(whole) && |whole| <= 9
    && (s == whole || (s == whole + "." + fraction && AllDigits(fraction) && |fraction| <= 4))
  }

  lemma DraftIsWritten(s: string)
    requires IsNumericDraft(s)
    ensures exists whole, fraction :: Written(s, whole, fraction)
  {
    var n := LeadingDigits(s);
    if n == |s| {
      assert s == s[..n];
      assert Written(s, s[..n], "");
    } else {
      var fraction := s[n + 1..];
      assert s == s[..n] + [s[n]] + fraction;
      assert Written(s, s[..n], fraction);
    }
  }

  lemma WrittenIsDraft(s: string, whole: string, fraction: string)
    requires Written(s, whole, fraction)
    ensures IsNumericDraft(s)
  {
    hide LeadingDigits;
    if s == whole {
      DigitsThen(whole, "");
      assert whole + "" == whole;
    } else {
      DigitsThen(whole, "." + fraction);
      assert s == whole + ("." + fraction);
      assert s[|whole| + 1..] == fraction;
    }
  }

  /** A numeric draft is at most nine digits, or those and a point and at most four more. */
  lemma DraftIs(s: string)
    ensures IsNumericDraft(s) <==> exists whole, fraction :: Written(s, whole, fraction)
  {
    hide IsNumericDraft, Written;
    if IsNumericDraft(s) { DraftIsWritten(s); }
    forall whole, fraction | Written(s, whole, fraction) ensures IsNumericDraft(s) {
      WrittenIsDraft(s, whole, fraction);
    }
  }

  /** The text of a leg: side, instrument, strike, lots and premium, none on a future. */
  lemma TextIs(leg: Leg)
    ensures EncodeLeg(leg) ==
      (if leg.side.Buy? then "B_" else "S_")
      + (match leg.instrument case CE => "CE_" case PE => "PE_" case FUT => "FUT_")
      + leg.strike + "_" + leg.lots + "_" + if leg.instrument.FUT? then "" else leg.premium
  {
    JoinFive(SideCode(leg.side), InstrumentCode(leg.instrument), leg.strike, leg.lots,
             if leg.instrument.FUT? then "" else leg.premium, "_");
  }

  lemma JoinFive(a: string, b: string, c: string, d: string, e: string, separator: string)
    ensures Join([a, b, c, d, e], separator) ==
      a + separator + b + separator + c + separator + d + separator + e
  {
    assert [a, b, c, d, e][1..] == [b, c, d, e] && [b, c, d, e][1..] == [c, d, e];
    assert [c, d, e][1..] == [d, e] && [d, e][1..] == [e];
    assert Join([d, e], separator) == d + separator + e;
    assert Join([c, d, e], separator) == c + separator + d + separator + e;
    assert Join([b, c, d, e], separator) == b + separator + c + separator + d + separator + e;
  }

  /** The example the code documents. */
  lemma DocumentedText()
    ensures EncodeLegs([Leg(Buy, CE, "24000", "1", "120"), Leg(Sell, PE, "23800", "1", "")]) ==
            Some("B_CE_24000_1_120~S_PE_23800_1_")
  {
    hide EncodeLeg;
    var first, second := Leg(Buy, CE, "24000", "1", "120"), Leg(Sell, PE, "23800", "1", "");
    TextIs(first);
    TextIs(second);
    var a, b := "B_CE_24000_1_120", "S_PE_23800_1_";
    assert EncodeLeg(first) == a && EncodeLeg(second) == b;
    var parts := EncodeEach([first, second]);
    assert parts == [a, b] && Firsts([first, second]) == [first, second];
    JoinTwo(a, b, "~");
    assert a + "~" + b == "B_CE_24000_1_120~S_PE_23800_1_";
  }

  lemma JoinTwo(a: string, b: string, separator: string)
    ensures Join([a, b], separator) == a + separator + b
  {
    assert [a, b][1..] == [b];
  }

  // ------------------------------------------------------------------ round trip

  lemma NumericIsClean(s: string)
    requires IsNumericDraft(s)
    ensures '_' !in s && '~' !in s
  {
    var n := LeadingDigits(s);
    forall i | 0 <= i < |s| ensures s[i] != '_' && s[i] != '~' {
      if i < n { assert s[i] == s[..n][i]; } else if i > n { assert s[i] == s[n + 1..][i - n - 1]; }
    }
  }

  lemma FieldsAreClean(leg: Leg)
    requires Valid(leg)
    ensures forall f <- Fields(leg) :: '_' !in f && '~' !in f
  {
    NumericIsClean(leg.strike);
    NumericIsClean(leg.lots);
    NumericIsClean(leg.premium);
    forall f <- Fields(leg) ensures '_' !in f && '~' !in f {
      var i :| 0 <= i < 5 && f == Fields(leg)[i];
    }
  }

  lemma LegRoundTrip(leg: Leg)
    requires Valid(leg)
    ensures DecodeLeg(EncodeLeg(leg)) == [leg]
  {
    FieldsAreClean(leg);
    SplitJoin(Fields(leg), '_');
    CodesDecode(leg.side, leg.instrument);
  }

  lemma CodesDecode(side: Side, instrument: Instrument)
    ensures DecodeSide(SideCode(side)) == Some(side) && DecodeInstrument(InstrumentCode(instrument)) == Some(instrument)
  {
  }

  lemma {:induction false} JoinAvoids(parts: seq<string>, separator: string, c: char)
    requires c !in separator && forall part <- parts :: c !in part
    ensures c !in Join(parts, separator)
  {
    if |parts| > 1 {
      JoinAvoids(parts[1..], separator, c);
    }
  }

  lemma {:induction false} DecodeEachEncoded(legs: seq<Leg>)
    requires AllValid(legs)
    ensures DecodeEach(EncodeEach(legs)) == legs
    decreases |legs|
  {
    hide EncodeLeg, DecodeLeg, Valid;
    if legs != [] {
      LegRoundTrip(legs[0]);
      DecodeEachEncoded(legs[1..]);
      assert EncodeEach(legs)[1..] == EncodeEach(legs[1..]);
      assert [legs[0]] + legs[1..] == legs;
    }
  }

  lemma NotBlank(legs: seq<Leg>)
    requires legs != []
    ensures Join(EncodeEach(legs), "~") != ""
  {
    var parts := EncodeEach(legs);
    assert parts[0] == SideCode(legs[0].side) + "_" + Join(Fields(legs[0])[1..], "_");
  }

  lemma PartsAreClean(legs: seq<Leg>)
    requires AllValid(legs)
    ensures forall part <- EncodeEach(legs) :: '~' !in part
  {
    hide Join, Fields;
    var parts := EncodeEach(legs);
    forall part <- parts ensures '~' !in part {
      var i :| 0 <= i < |parts| && part == parts[i];
      FieldsAreClean(legs[i]);
      JoinAvoids(Fields(legs[i]), "_", '~');
    }
  }

  lemma DecodeEncode(legs: seq<Leg>)
    requires |legs| <= MAX_LEGS && AllValid(legs)
    ensures DecodeLegs(EncodeLegs(legs)) == legs
  {
    hide Split, Join, DecodeEach, AllValid;
    if legs != [] {
      PartsAreClean(legs);
      SplitJoin(EncodeEach(legs), '~');
      NotBlank(legs);
      DecodeEachEncoded(legs);
    }
  }

  lemma NumericIsNumeric(value: string)
    ensures IsNumericDraft(Numeric(value)) && IsNumericDraft("")
  {
  }

  lemma {:induction false} DecodedAreValid(parts: seq<string>)
    ensures |DecodeEach(parts)| <= |parts| && AllValid(DecodeEach(parts))
    decreases |parts|
  {
    if parts != [] {
      DecodedAreValid(parts[1..]);
      DecodedLegIsValid(parts[0]);
    }
  }

  lemma DecodedLegIsValid(part: string)
    ensures |DecodeLeg(part)| <= 1 && AllValid(DecodeLeg(part))
  {
    var fields := Split(part, '_');
    NumericIsNumeric(FieldAt(fields, 2));
    NumericIsNumeric(FieldAt(fields, 3));
    NumericIsNumeric(FieldAt(fields, 4));
  }

  lemma DecodedFit(encoded: Option<string>)
    ensures |DecodeLegs(encoded)| <= MAX_LEGS && AllValid(DecodeLegs(encoded))
  {
    if encoded.Some? { DecodedAreValid(Firsts(Split(encoded.value, '~'))); }
  }

  /** Main result: encoding then decoding returns the legs exactly when there are at most twelve and every
      field is a numeric draft, with no premium on a future. */
  lemma RoundTrip(legs: seq<Leg>)
    ensures DecodeLegs(EncodeLegs(legs)) == legs <==> |legs| <= 12 && AllValid(legs)
  {
    DecodedFit(EncodeLegs(legs));
    if |legs| <= MAX_LEGS && AllValid(legs) { DecodeEncode(legs); }
  }

  /** Main result: whatever text arrives, decoding it, encoding and decoding again changes nothing more. */
  lemma DecodingSettles(encoded: Option<string>)
    ensures DecodeLegs(EncodeLegs(DecodeLegs(encoded))) == DecodeLegs(encoded)
  {
    DecodedFit(encoded);
    DecodeEncode(DecodeLegs(encoded));
  }

  /** Main result: through the URL the legs survive exactly when, besides, their text fits its limit. */
  lemma UrlRoundTrip(legs: seq<Leg>)
    ensures DecodeLegs(UrlLegs(EncodeLegs(legs))) == legs <==>
      && |legs| <= 12 && AllValid(legs)
      && (legs != [] ==> |EncodeLegs(legs).value| <= 576)
  {
    RoundTrip(legs);
  }

  // ------------------------------------------------------------------ the limit can be exceeded

  lemma {:induction false} JoinLength(parts: seq<string>, separator: string, n: nat)
    requires forall i | 0 <= i < |parts| :: |parts[i]| == n
    ensures |Join(parts, separator)| == if parts == [] then 0 else |parts| * n + (|parts| - 1) * |separator|
    decreases |parts|
  {
    if |parts| > 1 {
      JoinLength(parts[1..], separator, n);
      assert |parts| * n == (|parts| - 1) * n + n;
      assert (|parts| - 1) * |separator| == (|parts| - 2) * |separator| + |separator|;
    }
  }

  lemma {:induction false} DigitsThen(digits: string, rest: string)
    requires AllDigits(digits) && (rest != "" ==> !IsDigit(rest[0]))
    ensures LeadingDigits(digits + rest) == |digits|
  {
    if digits == "" {
      assert digits + rest == rest;
    } else {
      assert (digits + rest)[1..] == digits[1..] + rest;
      DigitsThen(digits[1..], rest);
    }
  }

  lemma FullField(whole: string, fraction: string)
    requires AllDigits(whole) && |whole| == 9 && AllDigits(fraction) && |fraction| == 4
    ensures IsNumericDraft(whole + "." + fraction) && |whole + "." + fraction| == 14
  {
    var s := whole + "." + fraction;
    assert s == whole + ("." + fraction);
    DigitsThen(whole, "." + fraction);
    assert s[10..] == fraction;
  }

  lemma FullLegLength(price: string, lots: string)
    requires |price| == |lots| == 14
    ensures |EncodeLeg(Leg(Buy, CE, price, lots, price))| == 49
  {
    var fields := Fields(Leg(Buy, CE, price, lots, price));
    var last := [price, lots, price];
    assert fields[1..] == ["CE", price, lots, price] && fields[1..][1..] == last;
    JoinLength(last, "_", 14);
    assert Join(fields[1..], "_") == "CE" + "_" + Join(last, "_");
    assert Join(fields, "_") == "B" + "_" + Join(fields[1..], "_");
  }

  function Pow10(n: nat): (p: nat)
    ensures p > 0
  {
    if n == 0 then 1 else 10 * Pow10(n - 1)
  }

  function FractionOf(draft: string): string {
    var n := LeadingDigits(draft);
    if n == |draft| then "" else draft[n + 1..]
  }

  /** Number(draft) of a numeric draft; None for a blank one and for a lone point. */
  function NumberOf(draft: string): Option<real>
    requires IsNumericDraft(draft)
  {
    var whole, fraction := draft[..LeadingDigits(draft)], FractionOf(draft);
    if whole == "" && fraction == "" then None
    else Some(Value(whole) as real + Value(fraction) as real / Pow10(|fraction|) as real)
  }

  /** The form reports no error for the leg: strike and lots above zero, lots whole, premium at least zero. */
  predicate Accepted(leg: Leg)
    requires Valid(leg)
  {
    var strike, lots, premium := NumberOf(leg.strike), NumberOf(leg.lots), NumberOf(leg.premium);
    && strike.Some? && strike.value > 0.0
    && lots.Some? && lots.value > 0.0 && lots.value == lots.value.Floor as real
    && (leg.instrument.FUT? || (premium.Some? && premium.value >= 0.0))
  }

  /** Twelve legs the form accepts that the URL cannot carry. */
  lemma UrlCanDropLegs() returns (legs: seq<Leg>)
    ensures |legs| == MAX_LEGS && AllValid(legs) && forall i | 0 <= i < |legs| :: Accepted(legs[i])
    ensures DecodeLegs(UrlLegs(EncodeLegs(legs))) == []
  {
    hide EncodeLeg, IsNumericDraft, Join, Accepted, NumberOf;
    var price, lots := "123456789" + "." + "1234", "123456789" + "." + "0000";
    FullField("123456789", "1234");
    FullField("123456789", "0000");
    FullLegLength(price, lots);
    legs := seq(MAX_LEGS, _ => Leg(Buy, CE, price, lots, price));
    FullLegAccepted("123456789", "1234", "0000");
    JoinLength(EncodeEach(legs), "~", 49);
  }

  lemma FullParts(whole: string, fraction: string)
    requires AllDigits(whole) && |whole| == 9 && AllDigits(fraction) && |fraction| == 4
    ensures var s := whole + "." + fraction;
      LeadingDigits(s) == 9 && s[..9] == whole && FractionOf(s) == fraction
  {
    hide LeadingDigits;
    assert whole + "." + fraction == whole + ("." + fraction);
    DigitsThen(whole, "." + fraction);
  }

  lemma Quotient(w: nat, f: nat, p: nat)
    requires w > 0 && p > 0
    ensures var x := w as real + f as real / p as real;
      x > 0.0 && (f == 0 ==> x == x.Floor as real)
  {
    assert f as real / p as real >= 0.0;
    assert f == 0 ==> f as real / p as real == 0.0;
  }

  lemma FullNumber(whole: string, fraction: string)
    requires AllDigits(whole) && |whole| == 9 && whole[0] != '0' && AllDigits(fraction) && |fraction| == 4
    ensures IsNumericDraft(whole + "." + fraction)
    ensures var x := NumberOf(whole + "." + fraction);
      && x.Some? && x.value > 0.0
      && ((forall i | 0 <= i < 4 :: fraction[i] == '0') ==> x.value == x.value.Floor as real)
  {
    hide Value, Pow10, LeadingDigits, IsNumericDraft, FractionOf;
    var s := whole + "." + fraction;
    FullField(whole, fraction);
    FullParts(whole, fraction);
    ValuePositive(whole);
    var w, f, p := Value(whole), Value(fraction), Pow10(4);
    Quotient(w, f, p);
    if forall i | 0 <= i < 4 :: fraction[i] == '0' { ValueOfZeros(fraction); }
  }

  lemma FullLegAccepted(whole: string, fraction: string, zeros: string)
    requires AllDigits(whole) && |whole| == 9 && whole[0] != '0'
    requires AllDigits(fraction) && |fraction| == 4 && zeros == "0000"
    ensures var leg := Leg(Buy, CE, whole + "." + fraction, whole + "." + zeros, whole + "." + fraction);
      Valid(leg) && Accepted(leg)
  {
    hide NumberOf, IsNumericDraft;
    FullNumber(whole, fraction);
    FullNumber(whole, zeros);
  }
}
