/** Trailing-whitespace removal as the Rust standard library does it
    (`str::trim_end` with `char::is_whitespace`). */
module Text {
  import opened Decimal

  /** `char::is_whitespace`: the characters with the Unicode White_Space
      property. */
  predicate IsWhitespace(c: char)
    ensures c == ' ' || c == '\t' || c == '\n' || c == '\r' ==> IsWhitespace(c)
    ensures IsWhitespace(c) ==> !IsDigit(c) && c != '+'
  {
    var k := c as int;
    (0x09 <= k <= 0x0D) || k == 0x20 || k == 0x85 || k == 0xA0 || k == 0x1680
    || (0x2000 <= k <= 0x200A) || k == 0x2028 || k == 0x2029 || k == 0x202F
    || k == 0x205F || k == 0x3000
  }

  predicate AllWhitespace(s: string) {
    forall i | 0 <= i < |s| :: IsWhitespace(s[i])
  }

  /** `str::trim_end`: the longest prefix of `s` after which only whitespace
      follows; whitespace at the start or in the middle is kept. */
  function TrimEnd(s: string): (t: string)
    ensures t <= s
    ensures AllWhitespace(s[|t|..])
    ensures t == [] || !IsWhitespace(t[|t| - 1])
    decreases |s|
  {
    if |s| > 0 && IsWhitespace(s[|s| - 1]) then
      var t := TrimEnd(s[..|s| - 1]);
      assert s[|t|..] == s[..|s| - 1][|t|..] + [s[|s| - 1]];
      t
    else s
  }

  /** The three properties of `TrimEnd` pin its result down: any prefix with
      them is the trimmed string. */
  lemma TrimEndUnique(s: string, t: string)
    requires t <= s && AllWhitespace(s[|t|..])
    requires t == [] || !IsWhitespace(t[|t| - 1])
    ensures TrimEnd(s) == t
  {
  }

  /** Trailing whitespace after text that does not itself end in whitespace
      is removed exactly. */
  lemma TrimEndAppended(s: string, ws: string)
    requires s == [] || !IsWhitespace(s[|s| - 1])
    requires AllWhitespace(ws)
    ensures TrimEnd(s + ws) == s
  {
    assert (s + ws)[|s|..] == ws;
    TrimEndUnique(s + ws, s);
  }
}
