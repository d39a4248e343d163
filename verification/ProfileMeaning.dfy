/** What any line of a hand-written profile means: which part of it is a comment, and what the
    text behind a key reads as. */
module ProfileMeaning {
  import opened Text
  import opened ProfileScalars
  import opened ProfileReader
  import opened ProfileLines

  predicate IsQuote(c: char) {
    c == '\'' || c == '"'
  }

  // ---- comments ----

  /** Where no quote is open a hash ends the line. */
  lemma {:induction false} HashEnds(a: string, rest: string)
    requires NoQuoteOrHash(a)
    ensures BeforeComment(a + "#" + rest, false, false) == a
  {
    BeforeCommentSkips(a, "#" + rest);
    assert a + "#" + rest == a + ("#" + rest);
  }

  lemma {:induction false} InsideOne(q: char, c: char, rest: string)
    requires IsQuote(q) && c != q
    ensures BeforeComment([c] + rest, q == '\'', q == '"') == [c] + BeforeComment(rest, q == '\'', q == '"')
  {
    BeforeCommentFirst(c, rest, q == '\'', q == '"');
  }

  lemma ConsAppend(a: string, b: string)
    requires a != ""
    ensures a + b == [a[0]] + (a[1..] + b)
  {
  }

  lemma {:induction false} InsideQuotes(q: char, inner: string, tail: string)
    requires IsQuote(q) && q !in inner
    ensures BeforeComment(inner + tail, q == '\'', q == '"') == inner + BeforeComment(tail, q == '\'', q == '"')
  {
    if inner == "" {
      assert inner + tail == tail;
    } else {
      InsideQuotes(q, inner[1..], tail);
      ConsAppend(inner, tail);
      InsideOne(q, inner[0], inner[1..] + tail);
      ConsAppend(inner, BeforeComment(tail, q == '\'', q == '"'));
    }
  }

  lemma {:induction false} Quoted(q: char, inner: string, tail: string)
    requires IsQuote(q) && q !in inner
    ensures BeforeComment([q] + (inner + tail), false, false) ==
      [q] + (inner + BeforeComment(tail, q == '\'', q == '"'))
  {
    InsideQuotes(q, inner, tail);
    BeforeCommentFirst(q, inner + tail, false, false);
  }

  /** A text between two equal quotes is kept, with its hashes and the other kind of quote, and
      the line goes on behind it. */
  lemma {:induction false} QuotesProtect(a: string, q: char, inner: string, rest: string)
    requires NoQuoteOrHash(a) && IsQuote(q) && q !in inner
    ensures BeforeComment(a + [q] + inner + [q] + rest, false, false) ==
      a + [q] + inner + [q] + BeforeComment(rest, false, false)
  {
    Regrouped(a, [q], inner, [q], rest);
    BeforeCommentSkips(a, [q] + (inner + ([q] + rest)));
    QuotedWhole(q, inner, rest);
    Regrouped(a, [q], inner, [q], BeforeComment(rest, false, false));
  }

  lemma {:induction false} QuotedWhole(q: char, inner: string, rest: string)
    requires IsQuote(q) && q !in inner
    ensures BeforeComment([q] + (inner + ([q] + rest)), false, false) ==
      [q] + (inner + ([q] + BeforeComment(rest, false, false)))
  {
    Quoted(q, inner, [q] + rest);
    BeforeCommentFirst(q, rest, q == '\'', q == '"');
  }

  lemma Regrouped(a: string, b: string, c: string, d: string, e: string)
    ensures a + b + c + d + e == a + (b + (c + (d + e)))
  {
  }

  /** A quote that is never closed keeps the rest of the line. */
  lemma {:induction false} OpenQuoteProtects(a: string, q: char, inner: string)
    requires NoQuoteOrHash(a) && IsQuote(q) && q !in inner
    ensures BeforeComment(a + [q] + inner, false, false) == a + [q] + inner
  {
    Quoted(q, inner, "");
    assert inner + "" == inner;
    BeforeCommentSkips(a, [q] + inner);
    assert a + [q] + inner == a + ([q] + inner);
  }

  // ---- lines ----

  /** What ends a line, a carriage return on its own apart. */
  const BREAKS := "\n\U{0B}\U{0C}\U{1C}\U{1D}\U{1E}\U{85}\U{2028}\U{2029}"

  /** The end is one break, whatever comes after it. */
  predicate EndsLine(end: string, rest: string) {
    || end == "\r\n"
    || (|end| == 1 && end[0] in BREAKS)
    || (end == "\r" && (rest == "" || rest[0] != '\n'))
  }

  predicate HoldsNoBreak(line: string) {
    forall c :: c in line ==> c != '\r' && c !in BREAKS
  }

  lemma {:induction false} LineEndsThere(line: string, more: string)
    requires HoldsNoBreak(line) && more != "" && IsLineBreak(more[0])
    ensures LineEnd(line + more) == |line|
  {
    var s := line + more;
    assert s[|line|] == more[0];
    assert forall j | 0 <= j < |line| :: s[j] == line[j] && line[j] in line;
  }

  predicate StartsWithBoth(s: string) {
    |s| > 1 && s[0] == '\r' && s[1] == '\n'
  }

  lemma EndLength(end: string, rest: string)
    requires EndsLine(end, rest)
    ensures |end| == if StartsWithBoth(end + rest) then 2 else 1
    ensures IsLineBreak((end + rest)[0])
  {
    assert (end + rest)[0] == end[0];
    if |end| == 1 && rest != "" {
      assert (end + rest)[1] == rest[0];
    }
  }

  lemma {:induction false} SplitsThere(line: string, more: string)
    requires more != "" && LineEnd(line + more) == |line|
    ensures SplitLines(line + more) == [line] + SplitLines(more[if StartsWithBoth(more) then 2 else 1..])
  {
    var s, n := line + more, if StartsWithBoth(more) then 2 else 1;
    assert s[|line|] == more[0];
    assert |more| > 1 ==> s[|line| + 1] == more[1];
    assert s[..|line|] == line && s[|line| + n..] == more[n..];
  }

  lemma {:induction false} BreaksOnce(line: string, end: string, rest: string)
    requires HoldsNoBreak(line) && EndsLine(end, rest)
    ensures SplitLines(line + end + rest) == [line] + SplitLines(rest)
  {
    assert line + end + rest == line + (end + rest);
    EndLength(end, rest);
    LineEndsThere(line, end + rest);
    SplitsThere(line, end + rest);
    assert (end + rest)[|end|..] == rest;
  }

  /** A text of lines, each with its own end. */
  function Ended(lines: seq<string>, ends: seq<string>): string
    requires |lines| == |ends|
  {
    if lines == [] then "" else lines[0] + ends[0] + Ended(lines[1..], ends[1..])
  }

  lemma {:induction false} EndedSplits(lines: seq<string>, ends: seq<string>)
    requires |lines| == |ends|
    requires forall i :: 0 <= i < |lines| ==> HoldsNoBreak(lines[i])
    requires forall i :: 0 <= i < |lines| ==> EndsLine(ends[i], Ended(lines[i + 1..], ends[i + 1..]))
    ensures SplitLines(Ended(lines, ends)) == lines
  {
    if lines != [] {
      var more, after := lines[1..], ends[1..];
      assert forall i | 0 <= i < |more| :: more[i] == lines[i + 1] && after[i] == ends[i + 1];
      forall i | 0 <= i < |more| ensures EndsLine(after[i], Ended(more[i + 1..], after[i + 1..])) {
        assert EndsLine(ends[i + 1], Ended(lines[i + 2..], ends[i + 2..]));
        assert more[i + 1..] == lines[i + 2..] && after[i + 1..] == ends[i + 2..];
      }
      EndedSplits(more, after);
      BreaksOnce(lines[0], ends[0], Ended(more, after));
    }
  }

  /** A profile reads the same however its lines are ended. */
  lemma {:induction false} LineEndsDoNotMatter(lines: seq<string>, ends: seq<string>)
    requires |lines| == |ends|
    requires forall i :: 0 <= i < |lines| ==> HoldsNoBreak(lines[i])
    requires forall i :: 0 <= i < |lines| ==> EndsLine(ends[i], Ended(lines[i + 1..], ends[i + 1..]))
    ensures LoadProfile(Ended(lines, ends)) == ParseDocument(ReadLines(lines))
  {
    EndedSplits(lines, ends);
  }

  // ---- one entry ----

  /** The profile of this one line is a dict with one entry. */
  predicate Loads(key: string, text: string, v: Value) {
    LoadProfile(key + ": " + text) == Loaded(Dict([Entry(key, v)]))
  }

  lemma {:induction false} OneLineSplits(line: string)
    requires OneLine(line) && line != ""
    ensures SplitLines(line) == [line]
  {
    assert forall i | 0 <= i < |line| :: line[i] in line;
  }

  lemma {:induction false} OneEntryLines(key: string, text: string)
    requires KeyOk(key) && OneLine(text)
    ensures ReadLines(SplitLines(key + ": " + text)) == [Line(0, Clean(key + ": " + text))]
    ensures Splits(Clean(key + ": " + text), key, Clean(text))
  {
    EntryLineSplits(key, text);
    OneLineReads(key + ": " + text);
  }

  lemma {:induction false} EntryLineSplits(key: string, text: string)
    requires KeyOk(key) && OneLine(text)
    ensures var line := key + ": " + text;
      BodyOk(line) && OneLine(line) && Splits(Clean(line), key, Clean(text))
  {
    assert key + ": " + text == key + ":" + (" " + text);
    KeyBody(key, " " + text);
    CleanAfterSpace(text);
  }

  lemma {:induction false} OneLineReads(line: string)
    requires BodyOk(line) && OneLine(line)
    ensures ReadLines(SplitLines(line)) == [Line(0, Clean(line))]
  {
    OneLineSplits(line);
    LineReads(0, line);
    assert Spaces(0) + line == line;
  }

  lemma {:induction false} OneEntryLoads(key: string, text: string)
    requires KeyOk(key) && OneLine(text)
    ensures Loads(key, text, if Clean(text) == "" then Dict([]) else ReadScalar(Clean(text)))
  {
    OneEntryLines(key, text);
    var lines := [Line(0, Clean(key + ": " + text))];
    assert lines[1..] == [];
    var e := Entry(key, if Clean(text) == "" then Dict([]) else ReadScalar(Clean(text)));
    assert ParseDict([], 0, [e]) == Ok([e], []);
    assert ParseDict(lines, 0, []) == Ok([e], []);
  }

  // ---- what a text means ----

  predicate IsNullWord(text: string) {
    text == "null" || text == "Null" || text == "NULL" || text == "~"
  }

  /** The word in any mixture of upper and lower case. */
  predicate SpellsWord(text: string, word: string) {
    |text| == |word| && forall i | 0 <= i < |word| :: text[i] == word[i] || text[i] == UpperChar(word[i])
  }

  function UpperChar(c: char): char {
    if 'a' <= c <= 'z' then c - 'a' + 'A' else c
  }

  predicate Between(text: string, q: char, inner: string) {
    IsQuote(q) && text == [q] + inner + [q]
  }

  function Sign(negative: bool): string {
    if negative then "-" else ""
  }

  /** `-?\d+` */
  predicate IsWhole(text: string, negative: bool, digits: string) {
    IsNumeral(digits) && text == Sign(negative) + digits
  }

  /** `-?\d+\.\d+` */
  predicate IsFraction(text: string, negative: bool, whole: string, fraction: string) {
    IsNumeral(whole) && IsNumeral(fraction) && text == Sign(negative) + (whole + "." + fraction)
  }

  predicate AllZeros(s: string) {
    forall c | c in s :: c == '0'
  }

  /** The same decimal number, in its shortest form. */
  predicate SameNumber(d: Decimal, negative: bool, whole: string, fraction: string)
    requires IsNumeral(whole)
  {
    && d.negative == negative && d.whole == NumeralValue(whole) && d.Shortest()
    && |d.fraction| <= |fraction| && d.fraction == fraction[..|d.fraction|] && AllZeros(fraction[|d.fraction|..])
  }

  /** None of the readings below applies. */
  ghost predicate IsBareText(text: string) {
    && text != "" && !IsNullWord(text) && text != "[]" && text != "{}"
    && !SpellsWord(text, "true") && !SpellsWord(text, "false")
    && text != "'" && text != "\"" && (forall q, inner :: !Between(text, q, inner))
    && (forall negative, digits :: !IsWhole(text, negative, digits))
    && (forall negative, whole, fraction :: !IsFraction(text, negative, whole, fraction))
  }

  ghost predicate Means(text: string, v: Value) {
    && (text == "" || text == "{}" ==> v == Dict([]))
    && (IsNullWord(text) ==> v == Null)
    && (text == "[]" ==> v == List([]))
    && (SpellsWord(text, "true") ==> v == Bool(true))
    && (SpellsWord(text, "false") ==> v == Bool(false))
    && (text == "'" || text == "\"" ==> v == Str(""))
    && (forall q, inner | Between(text, q, inner) :: v == Str(inner))
    && (forall negative, digits | IsWhole(text, negative, digits) ::
          v == Int(if negative then -(NumeralValue(digits) as int) else NumeralValue(digits)))
    && (forall negative, whole, fraction | IsFraction(text, negative, whole, fraction) ::
          v.Float? && SameNumber(v.d, negative, whole, fraction))
    && (IsBareText(text) ==> v == Str(text))
  }

  // ---- every text reads as what it means ----

  /** The words, and everything that opens with a quote, are no numbers. */
  lemma {:induction false} NoNumber(text: string)
    requires text != "" && text[0] != '-' && !IsDigit(text[0])
    ensures !LooksInt(text) && !LooksFloat(text)
  {
    assert Unsigned(text) == text;
    var dot := Find(text, '.');
    assert text[0] in text;
    assert dot > 0 ==> text[..dot][0] == text[0] && text[..dot][0] in text[..dot];
  }

  lemma {:induction false} NoWord(text: string)
    requires text != "" && (text[0] == '-' || IsDigit(text[0]) || IsQuote(text[0]))
    ensures !IsNullWord(text) && text != "[]" && text != "{}" && Lower(text) != "true" && Lower(text) != "false"
    ensures !SpellsWord(text, "true") && !SpellsWord(text, "false")
  {
    assert Lower(text)[0] == text[0];
    assert !SpellsWord(text, "true") by {
      assert text[0] != "true"[0] && text[0] != UpperChar("true"[0]);
    }
    assert !SpellsWord(text, "false") by {
      assert text[0] != "false"[0] && text[0] != UpperChar("false"[0]);
    }
  }

  lemma {:induction false} QuotedReadsInside(text: string, q: char, inner: string)
    requires Between(text, q, inner) || (IsQuote(q) && text == [q] && inner == "")
    ensures ReadScalar(text) == Str(inner)
    ensures !IsNullWord(text) && text != "[]" && text != "{}" && !LooksInt(text) && !LooksFloat(text)
    ensures !SpellsWord(text, "true") && !SpellsWord(text, "false")
  {
    assert text[0] == q && text[|text| - 1] == q;
    StripTrims(text);
    NoNumber(text);
    NoWord(text);
    if |text| >= 2 {
      assert text[1..|text| - 1] == inner;
    }
  }

  lemma {:induction false} LowerSpells(text: string, word: string)
    requires forall i | 0 <= i < |word| :: 'a' <= word[i] <= 'z'
    ensures Lower(text) == word <==> SpellsWord(text, word)
  {
    if Lower(text) == word {
      forall i | 0 <= i < |word| ensures text[i] == word[i] || text[i] == UpperChar(word[i]) {
        assert Lower(text)[i] == LowerChar(text[i]);
      }
    }
    if SpellsWord(text, word) {
      assert forall i | 0 <= i < |word| :: LowerChar(text[i]) == word[i];
      assert Lower(text) == word;
    }
  }

  lemma {:induction false} WholeLooks(text: string, negative: bool, digits: string)
    requires IsWhole(text, negative, digits)
    ensures Trimmed(text) && (text[0] == '-' || IsDigit(text[0])) && (forall c :: c in text ==> IsPlainChar(c))
    ensures LooksInt(text) && '.' !in text
    ensures ReadInt(text) == if negative then -(NumeralValue(digits) as int) else NumeralValue(digits)
  {
    NumeralIsPlain(digits);
    assert digits[0] in digits;
    SignedBody(negative, digits);
    assert negative ==> text[1..] == digits;
    assert !negative ==> text == digits;
  }

  lemma {:induction false} WholeReads(text: string, negative: bool, digits: string)
    requires IsWhole(text, negative, digits)
    ensures ReadScalar(text) == Int(if negative then -(NumeralValue(digits) as int) else NumeralValue(digits))
  {
    WholeLooks(text, negative, digits);
    NumberTextReads(text);
  }

  lemma {:induction false} ZerosDropped(fraction: string)
    requires IsNumeral(fraction)
    ensures var f := DropTrailingZeros(fraction);
      && IsNumeral(f) && (|f| > 1 ==> f[|f| - 1] != '0')
      && |f| <= |fraction| && f == fraction[..|f|] && AllZeros(fraction[|f|..])
    decreases |fraction|
  {
    var f, front := DropTrailingZeros(fraction), fraction[..|fraction| - 1];
    if |fraction| > 1 && fraction[|fraction| - 1] == '0' {
      assert forall c | c in front :: c in fraction;
      ZerosDropped(front);
      assert f == DropTrailingZeros(front);
      assert fraction[|f|..] == front[|f|..] + "0";
    }
  }

  lemma {:induction false} FractionReads(text: string, negative: bool, whole: string, fraction: string)
    requires IsFraction(text, negative, whole, fraction)
    ensures ReadScalar(text).Float? && SameNumber(ReadScalar(text).d, negative, whole, fraction)
  {
    FractionLooks(text, negative, whole, fraction);
    NumberTextReads(text);
    ZerosDropped(fraction);
  }

  lemma {:induction false} FractionLooks(text: string, negative: bool, whole: string, fraction: string)
    requires IsFraction(text, negative, whole, fraction)
    ensures Trimmed(text) && (text[0] == '-' || IsDigit(text[0])) && (forall c :: c in text ==> IsPlainChar(c))
    ensures !LooksInt(text) && LooksFloat(text)
    ensures ReadFloat(text) == Decimal(negative, NumeralValue(whole), DropTrailingZeros(fraction))
  {
    var body := whole + ['.'] + fraction;
    FloatBody(whole, fraction);
    SignedBody(negative, body);
    SignedFloatReads(negative, whole, fraction);
    assert text == (if negative then "-" else "") + body;
  }

  lemma {:induction false} NumberShapes(text: string)
    ensures LooksInt(text) ==> IsWhole(text, StartsWith(text, "-"), Unsigned(text))
    ensures LooksFloat(text) ==>
      var body := Unsigned(text);
      var dot := Find(body, '.');
      dot < |body| && IsFraction(text, StartsWith(text, "-"), body[..dot], body[dot + 1..])
  {
    var body := Unsigned(text);
    assert text == Sign(StartsWith(text, "-")) + body;
    if LooksFloat(text) {
      var dot := Find(body, '.');
      assert body == body[..dot] + "." + body[dot + 1..];
    }
  }

  lemma {:induction false} BareReads(text: string)
    requires Trimmed(text) && IsBareText(text)
    ensures ReadScalar(text) == Str(text)
  {
    BareNoNumber(text);
    BareNoTruth(text);
    BareNoQuotes(text);
    OtherwiseItself(text);
  }

  lemma {:induction false} OtherwiseItself(text: string)
    requires Trimmed(text) && text != "" && !IsNullWord(text) && text != "[]" && text != "{}"
    requires Lower(text) != "true" && Lower(text) != "false" && !LooksInt(text) && !LooksFloat(text)
    requires !QuotedBy(text, '"') && !QuotedBy(text, '\'')
    ensures ReadScalar(text) == Str(text)
  {
    StripTrims(text);
  }

  lemma {:induction false} BareNoNumber(text: string)
    requires IsBareText(text)
    ensures !LooksInt(text) && !LooksFloat(text)
  {
    NumberShapes(text);
  }

  lemma {:induction false} BareNoTruth(text: string)
    requires IsBareText(text)
    ensures Lower(text) != "true" && Lower(text) != "false"
  {
    LowerSpells(text, "true");
    LowerSpells(text, "false");
  }

  lemma QuotedShape(text: string, q: char)
    requires IsQuote(q) && QuotedBy(text, q)
    ensures text == "'" || text == "\"" || (|text| >= 2 && Between(text, q, text[1..|text| - 1]))
  {
    if |text| == 1 {
      assert text == [q];
    } else {
      assert text == [q] + text[1..|text| - 1] + [q];
    }
  }

  lemma {:induction false} BareNoQuotes(text: string)
    requires IsBareText(text)
    ensures !QuotedBy(text, '"') && !QuotedBy(text, '\'')
  {
    if q :| IsQuote(q) && QuotedBy(text, q) {
      QuotedShape(text, q);
    }
  }

  lemma {:induction false} WordMeans(text: string)
    requires Trimmed(text) && (IsNullWord(text) || text == "[]" || text == "{}")
    ensures ReadScalar(text) == if text == "[]" then List([]) else if text == "{}" then Dict([]) else Null
  {
    StripTrims(text);
  }

  lemma {:induction false} TruthMeans(text: string)
    requires Trimmed(text) && (SpellsWord(text, "true") || SpellsWord(text, "false"))
    ensures ReadScalar(text) == Bool(SpellsWord(text, "true"))
  {
    StripTrims(text);
    LowerSpells(text, "true");
    LowerSpells(text, "false");
    assert text[0] == 't' || text[0] == 'T' || text[0] == 'f' || text[0] == 'F';
  }

  lemma {:induction false} ReadingMeans(text: string)
    requires text != "" && Trimmed(text)
    ensures Means(text, ReadScalar(text))
  {
    var v := ReadScalar(text);
    if IsNullWord(text) || text == "[]" || text == "{}" {
      WordMeans(text);
    }
    if SpellsWord(text, "true") || SpellsWord(text, "false") {
      TruthMeans(text);
      assert SpellsWord(text, "true") ==> text[0] == 't' || text[0] == 'T';
      assert SpellsWord(text, "false") ==> text[0] == 'f' || text[0] == 'F';
    }
    if text == "'" || text == "\"" {
      QuotedReadsInside(text, text[0], "");
    }
    forall q, inner | Between(text, q, inner) ensures v == Str(inner) {
      QuotedReadsInside(text, q, inner);
    }
    forall negative, digits | IsWhole(text, negative, digits)
      ensures v == Int(if negative then -(NumeralValue(digits) as int) else NumeralValue(digits))
    {
      WholeReads(text, negative, digits);
    }
    forall negative, whole, fraction | IsFraction(text, negative, whole, fraction)
      ensures v.Float? && SameNumber(v.d, negative, whole, fraction)
    {
      FractionReads(text, negative, whole, fraction);
    }
    if IsBareText(text) {
      BareReads(text);
    }
  }

  /** A line `key: text` gives the key exactly what the text before its comment means. */
  lemma {:induction false} EntryMeans(key: string, text: string) returns (v: Value)
    requires KeyOk(key) && OneLine(text)
    ensures Loads(key, text, v) && Means(Clean(text), v)
  {
    var t := Clean(text);
    OneEntryLoads(key, text);
    StripTrims(BeforeComment(text, false, false));
    v := if t == "" then Dict([]) else ReadScalar(t);
    if t == "" {
      EmptyMeans();
    } else {
      ReadingMeans(t);
    }
  }

  lemma EmptyMeans()
    ensures Means("", Dict([]))
  {
    assert forall q, inner :: !Between("", q, inner);
    assert forall negative, digits :: !IsWhole("", negative, digits);
    assert forall negative, whole, fraction :: !IsFraction("", negative, whole, fraction);
  }

  lemma {:induction false} SameNumberOnce(a: Decimal, b: Decimal, negative: bool, whole: string, fraction: string)
    requires IsNumeral(whole) && SameNumber(a, negative, whole, fraction) && SameNumber(b, negative, whole, fraction)
    ensures a == b
  {
    if |a.fraction| > |b.fraction| {
      LongerEndsInZero(a.fraction, |b.fraction|, fraction);
    } else if |b.fraction| > |a.fraction| {
      LongerEndsInZero(b.fraction, |a.fraction|, fraction);
    }
  }

  lemma {:induction false} LongerEndsInZero(f: string, n: nat, fraction: string)
    requires n < |f| <= |fraction| && f == fraction[..|f|] && AllZeros(fraction[n..])
    ensures f[|f| - 1] == '0'
  {
    assert fraction[n..][|f| - 1 - n] in fraction[n..];
  }

  /** A text means one value only. */
  lemma {:induction false} MeansOnce(text: string, v: Value, w: Value)
    requires Means(text, v) && Means(text, w)
    ensures v == w
  {
    if negative, digits :| IsWhole(text, negative, digits) {
    } else if q, inner :| Between(text, q, inner) {
    } else if negative, whole, fraction :| IsFraction(text, negative, whole, fraction) {
      SameNumberOnce(v.d, w.d, negative, whole, fraction);
    } else {
      assert text == "" || IsNullWord(text) || text == "[]" || text == "{}" || text == "'" || text == "\""
        || SpellsWord(text, "true") || SpellsWord(text, "false") || IsBareText(text);
    }
  }
}
