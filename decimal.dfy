/** Decimal text of unsigned 32-bit identifiers as the Rust standard library
    handles it: rendering (`u32::to_string`, `format!("{}")`) and reading
    (`str::parse::<u32>`). */
module Decimal {
  import opened Wrappers

  /** Rust's `u32`. */
  type u32 = x: int | 0 <= x <= 0xFFFF_FFFF

  const U32_MAX: int := 0xFFFF_FFFF

  predicate IsDigit(c: char) {
    '0' <= c <= '9'
  }

  predicate AllDigits(s: string) {
    forall i | 0 <= i < |s| :: IsDigit(s[i])
  }

  function DigitValue(c: char): (d: nat)
    requires IsDigit(c)
    ensures d < 10
  {
    c as int - '0' as int
  }

  function DigitChar(d: nat): (c: char)
    requires d < 10
    ensures IsDigit(c) && DigitValue(c) == d
  {
    ('0' as int + d) as char
  }

  /** Positional value of a string of digits, most significant digit first:
      the reference meaning of a decimal numeral. */
  function Value(s: string): nat
    requires AllDigits(s)
    decreases |s|
  {
    if s == [] then 0 else Value(s[..|s| - 1]) * 10 + DigitValue(s[|s| - 1])
  }

  /** Decimal rendering of `n`: at least one digit, the numeral denotes `n`,
      and no leading zero unless `n` is zero itself. */
  function NatToString(n: nat): (s: string)
    ensures |s| > 0 && AllDigits(s) && Value(s) == n
    ensures s[0] == '0' <==> n == 0
    decreases n
  {
    if n < 10 then [DigitChar(n)]
    else
      var prefix := NatToString(n / 10);
      var s := prefix + [DigitChar(n % 10)];
      assert s[..|s| - 1] == prefix;
      s
  }

  /** A numeral in canonical form: one or more digits, no leading zero
      unless the numeral is "0". */
  predicate IsCanonical(s: string) {
    |s| > 0 && AllDigits(s) && (s[0] != '0' || |s| == 1)
  }

  lemma {:induction false} ValueOfNonZeroLead(s: string)
    requires |s| > 0 && AllDigits(s) && s[0] != '0'
    ensures Value(s) > 0
    decreases |s|
  {
    if |s| > 1 {
      ValueOfNonZeroLead(s[..|s| - 1]);
    }
  }

  /** Rendering is onto the canonical numerals: every canonical numeral is
      the rendering of the number it denotes, so a rendered id is the only
      canonical spelling of that id. */
  lemma {:induction false} CanonicalIsRendering(s: string)
    requires IsCanonical(s)
    ensures s == NatToString(Value(s))
    decreases |s|
  {
    var c := s[|s| - 1];
    if |s| == 1 {
      assert DigitChar(DigitValue(c)) == c;
    } else {
      var p := s[..|s| - 1];
      assert p[0] == s[0];
      ValueOfNonZeroLead(p);
      CanonicalIsRendering(p);
      var v := Value(s);
      assert v / 10 == Value(p) && v % 10 == DigitValue(c);
      assert DigitChar(DigitValue(c)) == c;
      assert s == p + [c];
    }
  }

  function Pow10(k: nat): (p: nat)
    ensures p >= 1
  {
    if k == 0 then 1 else 10 * Pow10(k - 1)
  }

  lemma ShiftDigit(d: nat, v: nat, w: nat)
    ensures (d * w + v) * 10 == d * (10 * w) + v * 10
  {
  }

  lemma ScaleStep(acc: nat, d: nat, w: nat)
    requires w >= 1
    ensures acc * (10 * w) + d * w == (acc * 10 + d) * w
    ensures (acc * 10 + d) * w >= acc * 10 + d
  {
  }

  /** A leading digit contributes its value times the weight of its place. */
  lemma {:induction false} ValuePrepend(c: char, s: string)
    requires IsDigit(c)
    ensures AllDigits([c] + s) <==> AllDigits(s)
    ensures AllDigits(s) ==> AllDigits([c] + s) && Value([c] + s) == DigitValue(c) * Pow10(|s|) + Value(s)
    decreases |s|
  {
    assert forall i | 0 <= i < |s| :: ([c] + s)[i + 1] == s[i];
    if AllDigits(s) {
      if s == [] {
        assert ([c] + s)[..0] == [];
      } else {
        var s' := s[..|s| - 1];
        ValuePrepend(c, s');
        assert ([c] + s)[..|s|] == [c] + s';
        var last := DigitValue(s[|s| - 1]);
        var w := Pow10(|s'|);
        assert Value([c] + s) == Value([c] + s') * 10 + last;
        assert Value(s) == Value(s') * 10 + last;
        ShiftDigit(DigitValue(c), Value(s'), w);
      }
    }
  }

  /** Horner accumulation of `digits` onto `acc`, left to right, failing on
      the first non-digit or as soon as the running value leaves the u32
      range, as `u32::from_str_radix` does with checked arithmetic. Because
      the running value only grows, checking it at every step is the same as
      checking the final value: the result is `acc` followed by the digits,
      read as one numeral, whenever that fits in a u32. */
  function Accumulate(digits: string, acc: u32): (r: Option<u32>)
    ensures !AllDigits(digits) ==> r == None
    ensures AllDigits(digits) ==>
      var total := acc * Pow10(|digits|) + Value(digits);
      r == if total <= U32_MAX then Some(total) else None
    decreases |digits|
  {
    if digits == [] then Some(acc)
    else if !IsDigit(digits[0]) then None
    else
      var d := DigitValue(digits[0]);
      var next := acc * 10 + d;
      var rest := digits[1..];
      assert digits == [digits[0]] + rest;
      ValuePrepend(digits[0], rest);
      var w := Pow10(|rest|);
      assert Pow10(|digits|) == 10 * w;
      ScaleStep(acc, d, w);
      if next > U32_MAX then None else Accumulate(rest, next)
  }

  /** The digits `parse::<u32>` reads: the text after one optional leading '+'. */
  function Unsigned(s: string): string {
    if |s| > 0 && s[0] == '+' then s[1..] else s
  }

  /** `str::parse::<u32>`: it succeeds exactly on an optional '+' followed by
      a non-empty numeral denoting at most `U32_MAX`, and then yields the
      value that numeral denotes; anything else (empty text, a lone sign, a
      '-', any other character, overflow) is rejected. */
  function ParseU32(s: string): (r: Option<u32>)
    ensures var d := Unsigned(s);
      r.Some? <==> |d| > 0 && AllDigits(d) && Value(d) <= U32_MAX
    ensures r.Some? ==> AllDigits(Unsigned(s)) && r.value == Value(Unsigned(s))
  {
    var digits := Unsigned(s);
    if digits == [] then None else Accumulate(digits, 0)
  }

  /** Reading back a rendering gives the number back when it fits in 32
      bits, and fails otherwise. */
  lemma ParseRendering(n: nat)
    ensures ParseU32(NatToString(n)) == if n <= U32_MAX then Some(n) else None
  {
    var s := NatToString(n);
    assert Unsigned(s) == s;
  }
}
