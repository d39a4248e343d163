/** How the printer writes a string: as it is, or as a JSON string (RFC 8259, section 7) of ASCII
    characters that stands for it. */
module ProfileStrings {
  import opened Text
  import opened ProfileScalars
  import opened Wrappers

  // ---- JSON strings ----

  function HexValue(c: char): Option<nat> {
    if '0' <= c <= '9' then Some((c - '0') as nat)
    else if 'a' <= c <= 'f' then Some((c - 'a') as nat + 10)
    else if 'A' <= c <= 'F' then Some((c - 'A') as nat + 10)
    else None
  }

  /** The number that four hexadecimal digits stand for. */
  function Unit(digits: string): Option<nat>
    requires |digits| == 4
  {
    var a, b, c, d := HexValue(digits[0]), HexValue(digits[1]), HexValue(digits[2]), HexValue(digits[3]);
    if a.None? || b.None? || c.None? || d.None? then None
    else Some(a.value * 0x1000 + b.value * 0x100 + c.value * 0x10 + d.value)
  }

  predicate IsHigh(unit: nat) {
    0xd800 <= unit < 0xdc00
  }

  predicate IsLow(unit: nat) {
    0xdc00 <= unit < 0xe000
  }

  /** The character behind a backslash, where it is one of the short escapes. */
  function Short(c: char): Option<char> {
    if c == '"' || c == '\\' || c == '/' then Some(c)
    else if c == 'b' then Some(8 as char)
    else if c == 'f' then Some(12 as char)
    else if c == 'n' then Some('\n')
    else if c == 'r' then Some('\r')
    else if c == 't' then Some('\t')
    else None
  }

  /** The first character of the contents of a JSON string, and how long its spelling is. */
  function FirstChar(t: string): Option<(char, nat)>
    requires t != ""
  {
    if t[0] == '"' || t[0] < ' ' then None
    else if t[0] != '\\' then Some((t[0], 1))
    else if |t| < 2 then None
    else if t[1] != 'u' then
      var short := Short(t[1]);
      if short.None? then None else Some((short.value, 2))
    else if |t| < 6 || Unit(t[2..6]).None? then None
    else
      var unit := Unit(t[2..6]).value;
      if !IsHigh(unit) then if IsLow(unit) || unit >= 0x1_0000 then None else Some((unit as char, 6))
      else if |t| < 12 || t[6..8] != "\\u" || Unit(t[8..12]).None? then None
      else
        var low := Unit(t[8..12]).value;
        if !IsLow(low) then None
        else Some(((0x1_0000 + (unit - 0xd800) * 0x400 + (low - 0xdc00)) as char, 12))
  }

  /** What the contents of a JSON string stand for. */
  function Unescaped(t: string): Option<string>
    decreases |t|
  {
    if t == "" then Some("")
    else
      var first := FirstChar(t);
      if first.None? || first.value.1 == 0 || first.value.1 > |t| then None
      else
        var rest := Unescaped(t[first.value.1..]);
        if rest.None? then None else Some([first.value.0] + rest.value)
  }

  // ---- every string is spelled so that it is read back ----

  lemma HexDigitValue(d: nat)
    requires d < 16
    ensures HexValue(HexDigit(d)) == Some(d)
  {
  }

  lemma FourDigits(code: nat)
    requires code < 0x1_0000
    ensures code / 0x1000 < 16
    ensures code == code / 0x1000 * 0x1000 + code / 0x100 % 16 * 0x100 + code / 16 % 16 * 0x10 + code % 16
  {
    var a, b := code / 16, code / 0x100;
    assert a / 16 == b && b / 16 == code / 0x1000;
  }

  lemma UnitOfDigits(a: nat, b: nat, c: nat, d: nat)
    requires a < 16 && b < 16 && c < 16 && d < 16
    ensures Unit([HexDigit(a), HexDigit(b), HexDigit(c), HexDigit(d)]) ==
      Some(a * 0x1000 + b * 0x100 + c * 0x10 + d)
  {
    HexDigitValue(a);
    HexDigitValue(b);
    HexDigitValue(c);
    HexDigitValue(d);
  }

  lemma UnitOfEscape(code: nat)
    requires code < 0x1_0000
    ensures |UnicodeEscape(code)| == 6 && UnicodeEscape(code)[..2] == "\\u"
    ensures Unit(UnicodeEscape(code)[2..6]) == Some(code)
  {
    var a, b, c, d := code / 0x1000, code / 0x100 % 16, code / 16 % 16, code % 16;
    FourDigits(code);
    UnitOfDigits(a, b, c, d);
    assert UnicodeEscape(code)[2..6] == [HexDigit(a), HexDigit(b), HexDigit(c), HexDigit(d)];
  }

  lemma BasicEscape(code: nat, rest: string)
    requires code < 0xd800 || 0xe000 <= code < 0x1_0000
    ensures FirstChar(UnicodeEscape(code) + rest) == Some((code as char, 6))
  {
    UnitOfEscape(code);
    var t := UnicodeEscape(code) + rest;
    assert t[0] == UnicodeEscape(code)[..2][0] && t[1] == UnicodeEscape(code)[..2][1];
    assert t[2..6] == UnicodeEscape(code)[2..6];
  }

  lemma PairEscape(high: nat, low: nat, rest: string)
    requires IsHigh(high) && IsLow(low)
    ensures |UnicodeEscape(high) + UnicodeEscape(low)| == 12
    ensures FirstChar(UnicodeEscape(high) + UnicodeEscape(low) + rest) ==
      Some(((0x1_0000 + (high - 0xd800) * 0x400 + (low - 0xdc00)) as char, 12))
  {
    UnitOfEscape(high);
    UnitOfEscape(low);
    var t := UnicodeEscape(high) + UnicodeEscape(low) + rest;
    assert t[0] == UnicodeEscape(high)[..2][0] && t[1] == UnicodeEscape(high)[..2][1];
    assert t[2..6] == UnicodeEscape(high)[2..6];
    assert t[6..8] == UnicodeEscape(low)[..2];
    assert t[8..12] == UnicodeEscape(low)[2..6];
  }

  lemma {:induction false} ShortEscape(c: char, rest: string)
    requires |EscapeChar(c)| <= 2
    ensures FirstChar(EscapeChar(c) + rest) == Some((c, |EscapeChar(c)|))
  {
    var e := EscapeChar(c);
    assert (e + rest)[0] == e[0];
    assert |e| == 2 ==> (e + rest)[1] == e[1];
  }

  lemma SurrogatePair(code: nat)
    requires 0x1_0000 <= code < 0x11_0000
    ensures var high, low := 0xd800 + (code - 0x1_0000) / 0x400, 0xdc00 + (code - 0x1_0000) % 0x400;
      && IsHigh(high) && IsLow(low) && 0x1_0000 + (high - 0xd800) * 0x400 + (low - 0xdc00) == code
  {
  }

  lemma LongSpelling(c: char, high: nat, low: nat)
    requires c as int >= 0x1_0000
    requires high == 0xd800 + (c as int - 0x1_0000) / 0x400 && low == 0xdc00 + (c as int - 0x1_0000) % 0x400
    requires high < 0x1_0000
    ensures EscapeChar(c) == UnicodeEscape(high) + UnicodeEscape(low)
  {
  }

  lemma {:induction false} LongEscape(c: char, rest: string)
    requires c as int >= 0x1_0000
    ensures FirstChar(EscapeChar(c) + rest) == Some((c, 12)) && |EscapeChar(c)| == 12
  {
    var code := c as int;
    var high, low := 0xd800 + (code - 0x1_0000) / 0x400, 0xdc00 + (code - 0x1_0000) % 0x400;
    SurrogatePair(code);
    LongSpelling(c, high, low);
    PairEscape(high, low, rest);
  }

  lemma {:induction false} EscapeReads(c: char, rest: string)
    ensures FirstChar(EscapeChar(c) + rest) == Some((c, |EscapeChar(c)|))
  {
    if c as int >= 0x1_0000 {
      LongEscape(c, rest);
    } else if |EscapeChar(c)| > 2 {
      BasicEscape(c as int, rest);
      UnitOfEscape(c as int);
    } else {
      ShortEscape(c, rest);
    }
  }

  lemma {:induction false} EscapeRoundTrip(s: string)
    ensures Unescaped(Escape(s)) == Some(s)
  {
    if s != "" {
      var spelled, rest := EscapeChar(s[0]), Escape(s[1..]);
      EscapeReads(s[0], rest);
      EscapeRoundTrip(s[1..]);
      assert (spelled + rest)[|spelled|..] == rest;
      assert [s[0]] + s[1..] == s;
    }
  }

  /** The characters that are printed without quotes: ASCII letters and digits and `_./:+ -`. */
  predicate PrintsBare(c: char) {
    65 <= c as int <= 90 || 97 <= c as int <= 122 || 48 <= c as int <= 57 || c in "_./:+ -"
  }

  /** A string is printed as it is where it is not empty, none of the words true, false and null,
      and holds bare characters only; otherwise as a JSON string of printable ASCII that stands for it. */
  lemma {:induction false} StringPrints(s: string)
    ensures
      if s != "" && s != "true" && s != "false" && s != "null" && (forall c | c in s :: PrintsBare(c)) then
        ScalarText(Str(s)) == s
      else
        exists spelled ::
          && ScalarText(Str(s)) == "\"" + spelled + "\"" && Unescaped(spelled) == Some(s)
          && forall c | c in spelled :: 32 <= c as int <= 126
  {
    assert forall c :: PrintsBare(c) <==> IsPlainChar(c);
    if !Plain(s) {
      EscapeRoundTrip(s);
      EscapeShape(s);
      assert ScalarText(Str(s)) == "\"" + Escape(s) + "\"";
    }
  }
}
