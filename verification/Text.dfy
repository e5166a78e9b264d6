/** The string operations of JavaScript the modelled code relies on, on sequences of UTF-16
    code units.  Case mapping covers ASCII only. */
module Text {
  function UpperChar(c: char): char {
    if 'a' <= c <= 'z' then ((c as int) - 32) as char else c
  }

  function LowerChar(c: char): char {
    if 'A' <= c <= 'Z' then ((c as int) + 32) as char else c
  }

  function Upper(s: string): (r: string)
    ensures |r| == |s| && forall i | 0 <= i < |s| :: r[i] == UpperChar(s[i])
  {
    seq(|s|, i requires 0 <= i < |s| => UpperChar(s[i]))
  }

  function Lower(s: string): (r: string)
    ensures |r| == |s| && forall i | 0 <= i < |s| :: r[i] == LowerChar(s[i])
  {
    seq(|s|, i requires 0 <= i < |s| => LowerChar(s[i]))
  }

  lemma UpperTwice(s: string)
    ensures Upper(Upper(s)) == Upper(s)
  {
  }

  /** White space and line terminators as String.prototype.trim removes them. */
  predicate IsSpace(c: char) {
    var n := c as int;
    || 9 <= n <= 13 || n == 0x20 || n == 0xA0 || n == 0x1680 || 0x2000 <= n <= 0x200A
    || n == 0x2028 || n == 0x2029 || n == 0x202F || n == 0x205F || n == 0x3000 || n == 0xFEFF
  }

  predicate IsDigit(c: char) { '0' <= c <= '9' }

  predicate AllDigits(s: string) { forall i | 0 <= i < |s| :: IsDigit(s[i]) }

  function DigitOf(c: char): int
    requires IsDigit(c)
  {
    (c as int) - ('0' as int)
  }

  /** The number a string of digits denotes. */
  function Value(s: string): (v: nat)
    requires AllDigits(s)
  {
    if s == "" then 0 else 10 * Value(s[..|s| - 1]) + DigitOf(s[|s| - 1])
  }

  function TrimStart(s: string): string {
    if s != "" && IsSpace(s[0]) then TrimStart(s[1..]) else s
  }

  function TrimEnd(s: string): string {
    if s != "" && IsSpace(s[|s| - 1]) then TrimEnd(s[..|s| - 1]) else s
  }

  function Trim(s: string): string {
    TrimEnd(TrimStart(s))
  }

  predicate StartsWith(s: string, prefix: string) {
    prefix <= s
  }

  /** s.includes(part) */
  predicate Includes(s: string, part: string) {
    part <= s || (s != "" && Includes(s[1..], part))
  }

  /** s.split(separator) for a one-character separator. */
  function Split(s: string, separator: char): (parts: seq<string>)
    ensures |parts| > 0
    ensures forall part <- parts :: separator !in part
  {
    if s == "" then [""]
    else
      var rest := Split(s[1..], separator);
      if s[0] == separator then [""] + rest else [[s[0]] + rest[0]] + rest[1..]
  }

  /** parts.join(separator) */
  function Join(parts: seq<string>, separator: string): string {
    if parts == [] then ""
    else if |parts| == 1 then parts[0]
    else parts[0] + separator + Join(parts[1..], separator)
  }

  lemma {:induction false} SplitPrefix(part: string, rest: string, separator: char)
    requires separator !in part
    ensures Split(part + [separator] + rest, separator) == [part] + Split(rest, separator)
  {
    var s := part + [separator] + rest;
    if part == "" {
      assert s[1..] == rest;
    } else {
      assert s[1..] == part[1..] + [separator] + rest;
      SplitPrefix(part[1..], rest, separator);
      assert part == [part[0]] + part[1..];
    }
  }

  lemma {:induction false} SplitWhole(part: string, separator: char)
    requires separator !in part
    ensures Split(part, separator) == [part]
  {
    if part != "" {
      SplitWhole(part[1..], separator);
      assert part == [part[0]] + part[1..];
    }
  }

  /** Splitting undoes joining when no part holds the separator. */
  lemma {:induction false} SplitJoin(parts: seq<string>, separator: char)
    requires parts != [] && forall part <- parts :: separator !in part
    ensures Split(Join(parts, [separator]), separator) == parts
  {
    if |parts| == 1 {
      SplitWhole(parts[0], separator);
    } else {
      SplitPrefix(parts[0], Join(parts[1..], [separator]), separator);
      assert forall part <- parts[1..] :: separator !in part;
      SplitJoin(parts[1..], separator);
    }
  }

  lemma ValueOfNothing()
    ensures Value("") == 0
  {
  }

  lemma ValueSnoc(s: string, c: char)
    requires AllDigits(s) && IsDigit(c)
    ensures AllDigits(s + [c]) && Value(s + [c]) == 10 * Value(s) + DigitOf(c)
  {
    var t := s + [c];
    assert t[..|t| - 1] == s;
  }

  lemma {:induction false} ValuePositive(s: string)
    requires s != "" && AllDigits(s) && s[0] != '0'
    ensures Value(s) > 0
  {
    if |s| > 1 { ValuePositive(s[..|s| - 1]); }
  }

  lemma {:induction false} ValueOfZeros(s: string)
    requires AllDigits(s) && forall i | 0 <= i < |s| :: s[i] == '0'
    ensures Value(s) == 0
  {
    if s != "" { ValueOfZeros(s[..|s| - 1]); }
  }
}
