/** Board profiles as trees, and their scalars: how the generator prints one and how the
    fallback reader takes one back. */
module ProfileScalars {
  import opened Text

  /** A float whose text is a plain decimal: sign, whole part, fraction digits. */
  datatype Decimal = Decimal(negative: bool, whole: nat, fraction: string) {
    /** The shortest fraction, as `str` prints it. */
    predicate Shortest() {
      IsNumeral(fraction) && (|fraction| > 1 ==> fraction[|fraction| - 1] != '0')
    }
  }

  /** A Python `dict` is its entries in insertion order. */
  datatype Value =
    | Null
    | Bool(b: bool)
    | Int(n: int)
    | Float(d: Decimal)
    | OtherFloat(text: string) // printed with an exponent, or no number
    | Str(s: string)
    | List(items: seq<Value>)
    | Dict(entries: seq<Entry>)
  {
    predicate IsScalar() {
      !List? && !Dict?
    }

    predicate IsEmptyContainer() {
      this == List([]) || this == Dict([])
    }
  }

  datatype Entry = Entry(key: string, value: Value)

  // ---- printing ----

  predicate IsPlainChar(c: char) {
    || 'A' <= c <= 'Z' || 'a' <= c <= 'z' || IsDigit(c)
    || c in "_./:+ -"
  }

  /** The strings the generator prints without quotes. */
  predicate Plain(s: string) {
    && s != ""
    && (forall c :: c in s ==> IsPlainChar(c))
    && s != "true" && s != "false" && s != "null"
  }

  predicate NeedsEscape(c: char) {
    !IsPrintable(c) || c == '"' || c == '\\'
  }

  function HexDigit(d: nat): char
    requires d < 16
  {
    if d < 10 then '0' + d as char else 'a' + (d - 10) as char
  }

  function UnicodeEscape(code: nat): string
    requires code < 0x1_0000
  {
    "\\u" + [HexDigit(code / 0x1000), HexDigit(code / 0x100 % 16), HexDigit(code / 16 % 16), HexDigit(code % 16)]
  }

  /** What `json.dumps` writes for one character of a string. */
  function EscapeChar(c: char): string {
    var code := c as int;
    if c == '"' then "\\\""
    else if c == '\\' then "\\\\"
    else if c == '\n' then "\\n"
    else if c == '\r' then "\\r"
    else if c == '\t' then "\\t"
    else if code == 8 then "\\b"
    else if code == 12 then "\\f"
    else if IsPrintable(c) then [c]
    else if code < 0x1_0000 then UnicodeEscape(code)
    else
      UnicodeEscape(0xd800 + (code - 0x1_0000) / 0x400) + UnicodeEscape(0xdc00 + (code - 0x1_0000) % 0x400)
  }

  function Escape(s: string): string {
    if s == "" then "" else EscapeChar(s[0]) + Escape(s[1..])
  }

  function Quote(s: string): string {
    "\"" + Escape(s) + "\""
  }

  function IntText(n: int): string {
    if n < 0 then "-" + NatText(-n) else NatText(n)
  }

  function DecimalText(d: Decimal): string {
    (if d.negative then "-" else "") + NatText(d.whole) + "." + d.fraction
  }

  /** `yaml_scalar` */
  function ScalarText(v: Value): string
    requires v.IsScalar()
  {
    match v
    case Null => "null"
    case Bool(b) => if b then "true" else "false"
    case Int(n) => IntText(n)
    case Float(d) => DecimalText(d)
    case OtherFloat(text) => text
    case Str(s) => if Plain(s) then s else Quote(s)
  }

  // ---- reading ----

  function LowerChar(c: char): char {
    if 'A' <= c <= 'Z' then c - 'A' + 'a' else c
  }

  function Lower(s: string): string {
    seq(|s|, i requires 0 <= i < |s| => LowerChar(s[i]))
  }

  function Find(s: string, c: char): (i: nat)
    ensures i <= |s|
    ensures c !in s[..i]
    ensures i < |s| ==> s[i] == c
  {
    if s == "" || s[0] == c then 0 else 1 + Find(s[1..], c)
  }

  function Unsigned(text: string): string {
    if StartsWith(text, "-") then text[1..] else text
  }

  predicate LooksInt(text: string) {
    IsNumeral(Unsigned(text))
  }

  predicate LooksFloat(text: string) {
    var body := Unsigned(text);
    var dot := Find(body, '.');
    dot < |body| && IsNumeral(body[..dot]) && IsNumeral(body[dot + 1..])
  }

  function DropTrailingZeros(digits: string): string {
    if |digits| > 1 && digits[|digits| - 1] == '0' then DropTrailingZeros(digits[..|digits| - 1]) else digits
  }

  function ReadInt(text: string): int
    requires LooksInt(text)
  {
    if StartsWith(text, "-") then -(NumeralValue(text[1..]) as int) else NumeralValue(text)
  }

  function ReadFloat(text: string): Decimal
    requires LooksFloat(text)
  {
    var body := Unsigned(text);
    var dot := Find(body, '.');
    Decimal(StartsWith(text, "-"), NumeralValue(body[..dot]), DropTrailingZeros(body[dot + 1..]))
  }

  predicate QuotedBy(text: string, quote: char) {
    text != "" && text[0] == quote && text[|text| - 1] == quote
  }

  /** `parse_scalar` */
  function ReadScalar(raw: string): (v: Value)
    ensures !v.OtherFloat? && (v.IsScalar() || v.IsEmptyContainer())
  {
    var text := Strip(raw);
    if text == "" then Str("")
    else if text == "null" || text == "Null" || text == "NULL" || text == "~" then Null
    else if text == "[]" then List([])
    else if text == "{}" then Dict([])
    else if Lower(text) == "true" then Bool(true)
    else if Lower(text) == "false" then Bool(false)
    else if LooksInt(text) then Int(ReadInt(text))
    else if LooksFloat(text) then Float(ReadFloat(text))
    else if QuotedBy(text, '"') || QuotedBy(text, '\'') then
      Str(if |text| < 2 then "" else text[1..|text| - 1])
    else Str(text)
  }

  /** The part of a line before its comment; quotes protect a `#`. */
  function BeforeComment(line: string, inSingle: bool, inDouble: bool): (r: string)
    ensures r <= line
    ensures r != line ==> line[|r|] == '#'
  {
    if line == "" then ""
    else
      var c := line[0];
      if c == '\'' && !inDouble then [c] + BeforeComment(line[1..], !inSingle, inDouble)
      else if c == '"' && !inSingle then [c] + BeforeComment(line[1..], inSingle, !inDouble)
      else if c == '#' && !inSingle && !inDouble then ""
      else [c] + BeforeComment(line[1..], inSingle, inDouble)
  }

  /** `strip_comment` followed by stripping white space. */
  function Clean(text: string): string {
    Strip(BeforeComment(text, false, false))
  }

  predicate NoQuoteOrHash(s: string) {
    '\'' !in s && '"' !in s && '#' !in s
  }

  lemma {:induction false} BeforeCommentSkips(a: string, b: string)
    requires NoQuoteOrHash(a)
    ensures BeforeComment(a + b, false, false) == a + BeforeComment(b, false, false)
  {
    if a == "" {
      assert a + b == b;
    } else {
      assert (a + b)[1..] == a[1..] + b;
      BeforeCommentSkips(a[1..], b);
    }
  }

  lemma {:induction false} BeforeCommentInDouble(a: string)
    requires '"' !in a
    ensures BeforeComment(a + "\"", false, true) == a + "\""
  {
    if a != "" {
      assert (a + "\"")[1..] == a[1..] + "\"";
      BeforeCommentInDouble(a[1..]);
    }
  }

  // ---- which scalars survive the trip ----

  predicate Survives(v: Value)
    requires v.IsScalar()
  {
    && !v.OtherFloat?
    && (v.Str? ==>
      if Plain(v.s) then
        && Trimmed(v.s)
        && !LooksInt(v.s) && !LooksFloat(v.s)
        && Lower(v.s) != "true" && Lower(v.s) != "false"
        && v.s != "Null" && v.s != "NULL"
      else
        forall c :: c in v.s ==> !NeedsEscape(c))
  }

  predicate WebLink(s: string) {
    StartsWith(s, "http://") || StartsWith(s, "https://")
  }

  /** As a list item a scalar must also not look like `key: value`. */
  predicate SurvivesAsItem(v: Value)
    requires v.IsScalar()
  {
    Survives(v) && (v.Str? && ':' in v.s ==> Plain(v.s) && WebLink(v.s))
  }

  /** A list item read as the first entry of a dict. */
  predicate EntryLike(text: string) {
    ':' in text && !WebLink(text)
  }

  /** `1e+16`, `-2.5e-07`: what `str` prints for a very large or very small float. */
  predicate ExponentText(text: string) {
    var body := Unsigned(text);
    var e := Find(body, 'e');
    && e + 2 <= |body| && (IsNumeral(body[..e]) || LooksFloat(body[..e])) && body[0] != '-'
    && (body[e + 1] == '-' || body[e + 1] == '+') && IsNumeral(body[e + 2..])
  }

  predicate OtherFloatText(text: string) {
    ExponentText(text) || text == "inf" || text == "-inf" || text == "nan"
  }

  predicate WellFormedScalar(v: Value)
    requires v.IsScalar()
  {
    && (v.Float? ==> v.d.Shortest())
    && (v.OtherFloat? ==> OtherFloatText(v.text))
  }

  lemma {:induction false} PlainIsClean(s: string)
    requires forall c :: c in s ==> IsPlainChar(c)
    ensures Clean(s) == Strip(s) && Strip(s) <= LStrip(s)
    ensures NoQuoteOrHash(s)
  {
    BeforeCommentSkips(s, "");
    assert s + "" == s;
    RStripShape(LStrip(s));
  }

  /** What a trimmed text without quotes, brackets or tildes reads as. */
  lemma PlainTextReads(t: string)
    requires t != "" && Trimmed(t)
    requires forall c :: c in t ==> IsPlainChar(c)
    ensures ReadScalar(t).Str? ==> ReadScalar(t) == Str(t)
    ensures ReadScalar(t).Str? <==>
      && t != "null" && t != "Null" && t != "NULL" && Lower(t) != "true" && Lower(t) != "false"
      && !LooksInt(t) && !LooksFloat(t)
  {
    StripTrims(t);
    assert t[0] in t;
    assert !QuotedBy(t, '"') && !QuotedBy(t, '\'');
    assert t != "~" && t != "[]" && t != "{}";
  }

  lemma PlainReads(s: string)
    requires Plain(s)
    ensures Clean(s) != "" && ReadScalar(Clean(s)) == Str(s) <==> Survives(Str(s))
    ensures Survives(Str(s)) ==> Clean(s) == s
  {
    PlainIsClean(s);
    StripTrims(s);
    var t := Strip(s);
    if t != "" {
      PlainTextReads(t);
    }
  }

  function Hashes(s: string): nat {
    if s == "" then 0 else (if s[0] == '#' then 1 else 0) + Hashes(s[1..])
  }

  lemma {:induction false} HashesAppend(a: string, b: string)
    ensures Hashes(a + b) == Hashes(a) + Hashes(b)
  {
    if a == "" {
      assert a + b == b;
    } else {
      assert (a + b)[1..] == a[1..] + b;
      HashesAppend(a[1..], b);
    }
  }

  lemma EscapeCharShape(c: char)
    ensures forall x :: x in EscapeChar(c) ==> IsPrintable(x)
    ensures NeedsEscape(c) ==> |EscapeChar(c)| >= 2 && c != '#'
    ensures !NeedsEscape(c) ==> EscapeChar(c) == [c]
    ensures Hashes(EscapeChar(c)) == Hashes([c])
  {
    var e := EscapeChar(c);
    if NeedsEscape(c) {
      assert forall x :: x in e ==> IsPrintable(x) && x != '#';
      NoHashes(e);
    }
  }

  lemma {:induction false} NoHashes(s: string)
    requires '#' !in s
    ensures Hashes(s) == 0
  {
    if s != "" {
      NoHashes(s[1..]);
    }
  }

  lemma {:induction false} EscapeShape(s: string)
    ensures forall x :: x in Escape(s) ==> IsPrintable(x)
    ensures |Escape(s)| >= |s|
    ensures Escape(s) == s <==> forall c :: c in s ==> !NeedsEscape(c)
    ensures |Escape(s)| == |s| <==> forall c :: c in s ==> !NeedsEscape(c)
    ensures Hashes(Escape(s)) == Hashes(s)
  {
    if s != "" {
      EscapeCharShape(s[0]);
      EscapeShape(s[1..]);
      HashesAppend(EscapeChar(s[0]), Escape(s[1..]));
      assert s == [s[0]] + s[1..];
      assert forall c :: c in s <==> c == s[0] || c in s[1..];
    }
  }

  /** A text that opens with a double quote is read as a string, with the quotes dropped
      when it also closes with one. */
  lemma DoubleQuotedReads(t: string)
    requires t != "" && t[0] == '"' && Trimmed(t)
    ensures ReadScalar(t) == Str(if t[|t| - 1] != '"' then t else if |t| < 2 then "" else t[1..|t| - 1])
  {
    StripTrims(t);
    assert Lower(t)[0] == '"';
    assert Unsigned(t) == t;
    assert t[0] in t;
    assert !IsDigit('"');
    var dot := Find(t, '.');
    assert dot < |t| ==> dot > 0 && t[..dot][0] == '"';
    assert dot < |t| ==> t[..dot][0] in t[..dot];
    assert !LooksInt(t) && !LooksFloat(t);
  }

  lemma {:induction false} HashesOfSlice(s: string, i: nat, j: nat)
    requires i <= j <= |s|
    ensures Hashes(s[i..j]) <= Hashes(s)
    ensures j < |s| && s[j] == '#' ==> Hashes(s[i..j]) < Hashes(s)
  {
    assert s == s[..i] + s[i..j] + s[j..];
    HashesAppend(s[..i] + s[i..j], s[j..]);
    HashesAppend(s[..i], s[i..j]);
  }

  lemma {:induction false} QuoteHashes(s: string)
    ensures Hashes(Quote(s)) == Hashes(s)
  {
    EscapeShape(s);
    HashesAppend("\"" + Escape(s), "\"");
    HashesAppend("\"", Escape(s));
  }

  lemma {:induction false} CutQuoteHashes(s: string, t: string)
    requires BeforeComment(Quote(s), false, false) != Quote(s)
    requires t == Clean(Quote(s))
    ensures t != "" && t[0] == '"' && Trimmed(t)
    ensures Hashes(t) < Hashes(s)
  {
    var q, cut := Quote(s), BeforeComment(Quote(s), false, false);
    QuoteHashes(s);
    assert cut == q[0..|cut|];
    HashesOfSlice(q, 0, |cut|);
    StripTrims(cut);
    QuoteSurvivesCut(q);
    RStripShape(cut);
    assert t == cut[0..|t|];
    HashesOfSlice(cut, 0, |t|);
  }

  lemma {:induction false} QuoteSurvivesCut(q: string)
    requires q != "" && q[0] == '"'
    ensures var cut := BeforeComment(q, false, false); cut != "" && cut[0] == '"' && LStrip(cut) == cut
  {
  }

  /** A quoted scalar that loses a comment loses a `#`, so it is not read back. */
  lemma CutQuotedReads(s: string)
    requires BeforeComment(Quote(s), false, false) != Quote(s)
    ensures Clean(Quote(s)) != ""
    ensures ReadScalar(Clean(Quote(s))) != Str(s)
  {
    CutQuoteHashes(s, Clean(Quote(s)));
    FewerHashesRead(Clean(Quote(s)), s);
  }

  lemma {:induction false} FewerHashesRead(t: string, s: string)
    requires t != "" && t[0] == '"' && Trimmed(t) && Hashes(t) < Hashes(s)
    ensures ReadScalar(t) != Str(s)
  {
    DoubleQuotedReads(t);
    if |t| >= 2 {
      HashesOfSlice(t, 1, |t| - 1);
    }
  }

  lemma UnescapedNotCut(s: string)
    requires forall c :: c in s ==> !NeedsEscape(c)
    ensures BeforeComment(Quote(s), false, false) == Quote(s) == "\"" + s + "\""
  {
    EscapeShape(s);
    assert '"' !in s;
    BeforeCommentInDouble(s);
    var q := Quote(s);
    assert q == "\"" + (s + "\"");
    assert q[1..] == s + "\"";
  }

  lemma QuotedReads(s: string)
    ensures Clean(Quote(s)) != ""
    ensures ReadScalar(Clean(Quote(s))) == Str(s) <==> forall c :: c in s ==> !NeedsEscape(c)
    ensures (forall c :: c in s ==> !NeedsEscape(c)) ==> Clean(Quote(s)) == "\"" + s + "\""
  {
    var q := Quote(s);
    if BeforeComment(q, false, false) != q {
      CutQuotedReads(s);
      if forall c :: c in s ==> !NeedsEscape(c) {
        UnescapedNotCut(s);
      }
    } else {
      EscapeShape(s);
      StripTrims(q);
      DoubleQuotedReads(q);
      assert q[1..|q| - 1] == Escape(s);
    }
  }

  // ---- numbers and words ----

  lemma NumeralIsPlain(s: string)
    requires IsNumeral(s)
    ensures Trimmed(s) && s[0] != '-' && '.' !in s
    ensures forall c :: c in s ==> IsPlainChar(c) && c != ':'
  {
    assert s[0] in s && s[|s| - 1] in s;
  }

  lemma NumberTextReads(t: string)
    requires t != "" && Trimmed(t) && (t[0] == '-' || IsDigit(t[0]))
    requires forall c :: c in t ==> IsPlainChar(c)
    ensures Clean(t) == t
    ensures LooksInt(t) ==> ReadScalar(t) == Int(ReadInt(t))
    ensures !LooksInt(t) && LooksFloat(t) ==> ReadScalar(t) == Float(ReadFloat(t))
  {
    StripTrims(t);
    PlainIsClean(t);
    assert Lower(t)[0] == t[0];
    assert t != "[]" && t != "{}" && t != "~" && t != "null" && t != "Null" && t != "NULL";
  }

  lemma IntTextLooks(n: int)
    ensures IntText(n) != "" && Trimmed(IntText(n)) && (IntText(n)[0] == '-' || IsDigit(IntText(n)[0]))
    ensures forall c :: c in IntText(n) ==> IsPlainChar(c) && c != ':'
    ensures LooksInt(IntText(n)) && ReadInt(IntText(n)) == n
  {
    var t, size := IntText(n), if n < 0 then -n else n;
    var digits := NatText(size);
    NumeralIsPlain(digits);
    NumeralRoundTrip(size);
    assert Unsigned(t) == digits;
    assert digits[0] in digits;
    assert t[|t| - 1] == digits[|digits| - 1];
    assert n < 0 ==> t == "-" + digits;
  }

  lemma {:induction false} FindAfter(a: string, c: char, b: string)
    requires c !in a
    ensures Find(a + [c] + b, c) == |a|
  {
    var s := a + [c] + b;
    var i := Find(s, c);
    assert s[|a|] == c;
    assert forall j :: 0 <= j < |a| ==> s[j] == a[j];
    assert forall j :: 0 <= j < i ==> s[j] in s[..i];
  }

  lemma FloatBody(whole: string, fraction: string)
    requires IsNumeral(whole) && IsNumeral(fraction)
    ensures var body := whole + ['.'] + fraction;
      && Find(body, '.') == |whole|
      && body[..|whole|] == whole && body[|whole| + 1..] == fraction
      && Trimmed(body) && IsDigit(body[0]) && !IsNumeral(body)
      && forall c :: c in body ==> IsPlainChar(c) && c != ':'
  {
    var body := whole + ['.'] + fraction;
    NumeralIsPlain(whole);
    NumeralIsPlain(fraction);
    FindAfter(whole, '.', fraction);
    assert whole[0] in whole && body[0] == whole[0];
    assert body[|body| - 1] == fraction[|fraction| - 1];
    assert body[|whole|] == '.' && '.' in body;
  }

  lemma SignedBody(negative: bool, body: string)
    requires body != "" && IsDigit(body[0]) && Trimmed(body)
    ensures var t := (if negative then "-" else "") + body;
      Unsigned(t) == body && Trimmed(t) && (t[0] == '-' || IsDigit(t[0])) && (StartsWith(t, "-") <==> negative)
  {
    var t := (if negative then "-" else "") + body;
    if negative {
      assert t[1..] == body;
    } else {
      assert t == body;
    }
    assert t[|t| - 1] == body[|body| - 1];
  }

  lemma {:induction false} SignedFloatReads(negative: bool, whole: string, fraction: string)
    requires IsNumeral(whole) && IsNumeral(fraction)
    ensures var t := (if negative then "-" else "") + (whole + ['.'] + fraction);
      && !LooksInt(t) && LooksFloat(t)
      && ReadFloat(t) == Decimal(negative, NumeralValue(whole), DropTrailingZeros(fraction))
  {
    FloatBody(whole, fraction);
    SignedBody(negative, whole + ['.'] + fraction);
  }

  lemma FloatTextLooks(d: Decimal)
    requires d.Shortest()
    ensures var t := DecimalText(d);
      && t != "" && Trimmed(t) && (t[0] == '-' || IsDigit(t[0]))
      && (forall c :: c in t ==> IsPlainChar(c) && c != ':')
      && !LooksInt(t) && LooksFloat(t) && ReadFloat(t) == d
  {
    var whole := NatText(d.whole);
    var body := whole + ['.'] + d.fraction;
    assert DecimalText(d) == (if d.negative then "-" else "") + body;
    FloatBody(whole, d.fraction);
    SignedBody(d.negative, body);
    SignedFloatReads(d.negative, whole, d.fraction);
    NumeralRoundTrip(d.whole);
  }

  lemma {:induction false} LooksFloatIsPlain(t: string)
    requires LooksFloat(t)
    ensures forall c :: c in t ==> IsPlainChar(c)
  {
    var body := Unsigned(t);
    var dot := Find(body, '.');
    NumeralIsPlain(body[..dot]);
    NumeralIsPlain(body[dot + 1..]);
    assert body == body[..dot] + [body[dot]] + body[dot + 1..];
    assert t == body || t == ['-'] + body;
  }

  lemma {:induction false} ExponentIsPlain(t: string)
    requires ExponentText(t)
    ensures forall c :: c in t ==> IsPlainChar(c)
  {
    var body := Unsigned(t);
    var e := Find(body, 'e');
    if IsNumeral(body[..e]) {
      NumeralIsPlain(body[..e]);
    } else {
      LooksFloatIsPlain(body[..e]);
    }
    NumeralIsPlain(body[e + 2..]);
    assert body == body[..e] + [body[e], body[e + 1]] + body[e + 2..];
    assert t == body || t == ['-'] + body;
  }

  lemma {:induction false} OtherFloatIsPlain(t: string)
    requires OtherFloatText(t)
    ensures forall c :: c in t ==> IsPlainChar(c)
  {
    if ExponentText(t) {
      ExponentIsPlain(t);
    }
  }

  predicate IsWord(t: string) {
    t == "null" || t == "true" || t == "false"
  }

  lemma WordReads(t: string)
    requires IsWord(t)
    ensures Clean(t) == t && ':' !in t
    ensures ReadScalar(t) == if t == "null" then Null else Bool(t == "true")
  {
    CleanWord(t);
    if t != "null" {
      LowerWord(t);
    }
    WordKinds(t);
  }

  lemma CleanWord(t: string)
    requires IsWord(t)
    ensures Clean(t) == t && Strip(t) == t && ':' !in t
  {
    assert forall c :: c in t ==> IsPlainChar(c) && c != ':';
    PlainIsClean(t);
    StripTrims(t);
  }

  lemma WordKinds(t: string)
    requires IsWord(t)
    ensures t != "Null" && t != "NULL" && t != "~" && t != "[]" && t != "{}"
  {
    assert t[0] != '~' && t[0] != '[' && t[0] != '{' && t[0] != 'N';
  }

  lemma LowerWord(t: string)
    requires t == "true" || t == "false"
    ensures Lower(t) == t
  {
  }

  // ---- the two exact statements about scalars ----

  lemma NonStringReads(v: Value)
    requires v.IsScalar() && WellFormedScalar(v) && !v.Str? && !v.OtherFloat?
    ensures var text := Clean(ScalarText(v)); text != "" && ':' !in text && ReadScalar(text) == v
  {
    match v
    case Null => WordReads("null");
    case Bool(b) => WordReads(ScalarText(v));
    case Int(n) =>
      IntTextLooks(n);
      NumberTextReads(IntText(n));
    case Float(d) =>
      FloatTextLooks(d);
      NumberTextReads(DecimalText(d));
  }

  /** A scalar printed as a dict value is read back as itself exactly when it survives. */
  lemma ScalarReads(v: Value)
    requires v.IsScalar() && WellFormedScalar(v)
    ensures Clean(ScalarText(v)) != "" && ReadScalar(Clean(ScalarText(v))) == v <==> Survives(v)
  {
    if v.OtherFloat? {
      assert !Survives(v);
    } else if !v.Str? {
      NonStringReads(v);
    } else if Plain(v.s) {
      PlainReads(v.s);
    } else {
      QuotedReads(v.s);
    }
  }

  lemma WebLinkFirst(s: string)
    ensures WebLink(s) ==> s[0] == 'h'
  {
    if StartsWith(s, "http://") {
      assert s[0] == "http://"[0];
    } else if StartsWith(s, "https://") {
      assert s[0] == "https://"[0];
    }
  }

  lemma SurvivingStringText(s: string)
    requires Survives(Str(s))
    ensures EntryLike(Clean(ScalarText(Str(s)))) <==> ':' in s && !(Plain(s) && WebLink(s))
  {
    if Plain(s) {
      PlainReads(s);
    } else {
      QuotedReads(s);
      var text := "\"" + s + "\"";
      assert Clean(ScalarText(Str(s))) == text;
      WebLinkFirst(text);
      assert ':' in text <==> ':' in s;
    }
  }

  /** The same for a list item, which must also not be taken for a dict entry. */
  lemma ItemScalarReads(v: Value)
    requires v.IsScalar() && WellFormedScalar(v)
    ensures
      var text := Clean(ScalarText(v));
      text != "" && !EntryLike(text) && ReadScalar(text) == v <==> SurvivesAsItem(v)
  {
    ScalarReads(v);
    if v.OtherFloat? {
      assert !SurvivesAsItem(v);
    } else if !v.Str? {
      NonStringReads(v);
    } else if Survives(v) {
      SurvivingStringText(v.s);
    }
  }
}
