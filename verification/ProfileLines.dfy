/** What the reader sees of a printed profile: the lines of each entry and item, with their
    comments and indentation already dealt with. */
module ProfileLines {
  import opened Text
  import opened ProfileScalars
  import opened ProfilePrinter
  import opened ProfileReader

  /** A key that keeps its text when printed before a colon. */
  predicate KeyOk(key: string) {
    Trimmed(key) && ':' !in key && NoQuoteOrHash(key) && OneLine(key) && !StartsWith(key, "- ")
  }

  predicate DistinctKeys(entries: seq<Entry>) {
    forall i, j :: 0 <= i < j < |entries| ==> entries[i].key != entries[j].key
  }

  /** A Python value the generator can hold: usable keys, no key twice, floats in shortest form. */
  predicate WellFormed(v: Value) {
    match v
    case Dict(entries) => DistinctKeys(entries) && forall e | e in entries :: KeyOk(e.key) && WellFormed(e.value)
    case List(items) => forall item | item in items :: WellFormed(item)
    case _ => WellFormedScalar(v)
  }

  predicate WellFormedEntry(e: Entry) {
    KeyOk(e.key) && WellFormed(e.value)
  }

  predicate WellFormedEntries(entries: seq<Entry>) {
    forall e | e in entries :: WellFormedEntry(e)
  }

  // ---- one printed line ----

  /** A printed line without its indentation. */
  function EntryBody(e: Entry): string {
    e.key + ":" +
    if e.value == List([]) then " []" else if e.value.IsScalar() then " " + ScalarText(e.value) else ""
  }

  /** What the reader finds behind the key. */
  function EntryRaw(e: Entry): string {
    if e.value == List([]) then "[]" else if e.value.IsScalar() then Clean(ScalarText(e.value)) else ""
  }

  predicate BodyOk(body: string) {
    body != "" && !IsSpace(body[0]) && body[0] != '#'
  }

  lemma {:induction false} CleanOfBody(body: string)
    requires BodyOk(body)
    ensures
      var kept := BeforeComment(body, false, false);
      kept != "" && kept[0] == body[0] && LStrip(kept) == kept && Clean(body) == RStrip(kept) != ""
  {
    RStripShape(BeforeComment(body, false, false));
  }

  lemma {:induction false} LeadingSpacesOf(n: nat, s: string)
    requires s != "" && s[0] != ' '
    ensures LeadingSpaces(Spaces(n) + s) == n
  {
    if n == 0 {
      assert Spaces(0) + s == s;
    } else {
      assert (Spaces(n) + s)[1..] == Spaces(n - 1) + s;
      LeadingSpacesOf(n - 1, s);
    }
  }

  lemma LineReads(n: nat, body: string)
    requires BodyOk(body)
    ensures ReadLines([Spaces(n) + body]) == [Line(n, Clean(body))]
  {
    var kept := BeforeComment(body, false, false);
    CleanOfBody(body);
    BeforeCommentSkips(Spaces(n), body);
    RStripAppend(Spaces(n), kept);
    var line := WithoutComment(Spaces(n) + body);
    assert line == Spaces(n) + RStrip(kept);
    RStripShape(kept);
    assert RStrip(kept)[0] == kept[0];
    LeadingSpacesOf(n, RStrip(kept));
    LStripSpaces(n, RStrip(kept));
    StripTrims(RStrip(kept));
    assert Strip(line) == Strip(RStrip(kept)) == RStrip(kept);
    assert [Spaces(n) + body][1..] == [];
  }

  lemma {:induction false} ReadLinesAppend(a: seq<string>, b: seq<string>)
    ensures ReadLines(a + b) == ReadLines(a) + ReadLines(b)
  {
    if a == [] {
      assert a + b == b;
    } else {
      assert (a + b)[1..] == a[1..] + b;
      ReadLinesAppend(a[1..], b);
    }
  }

  lemma StripAfterSpace(s: string)
    ensures Strip(" " + s) == Strip(s)
  {
    assert (" " + s)[1..] == s;
  }

  lemma SymbolsAreClean()
    ensures Clean("[]") == "[]" && Clean("-") == "-"
  {
    BeforeCommentSkips("[]", "");
    assert "[]" + "" == "[]";
    StripTrims("[]");
    BeforeCommentSkips("-", "");
    assert "-" + "" == "-";
    StripTrims("-");
  }

  predicate Splits(text: string, key: string, raw: string) {
    ':' in text && !IsItem(text) && SplitKey(text) == key && SplitRaw(text) == raw
  }

  lemma KeyBody(key: string, tail: string)
    requires KeyOk(key)
    ensures BodyOk(key + ":" + tail)
    ensures Splits(Clean(key + ":" + tail), key, Clean(tail))
  {
    var k := key + ":";
    var y := BeforeComment(tail, false, false);
    assert (k + tail)[0] == if key == "" then ':' else key[0];
    assert NoQuoteOrHash(k);
    BeforeCommentSkips(k, tail);
    CleanOfBody(k + tail);
    KeyLineSplits(key, y);
  }

  lemma CleanAfterSpace(value: string)
    ensures Clean(" " + value) == Clean(value)
  {
    BeforeCommentSkips(" ", value);
    StripAfterSpace(BeforeComment(value, false, false));
  }

  /** The reader splits an entry line into the key and the text of the value. */
  lemma EntrySplits(e: Entry)
    requires KeyOk(e.key)
    ensures BodyOk(EntryBody(e))
    ensures Splits(Clean(EntryBody(e)), e.key, EntryRaw(e))
  {
    if e.value == List([]) {
      KeyBody(e.key, " []");
      CleanAfterSpace("[]");
      SymbolsAreClean();
      assert " []" == " " + "[]";
    } else if e.value.IsScalar() {
      KeyBody(e.key, " " + ScalarText(e.value));
      CleanAfterSpace(ScalarText(e.value));
    } else {
      KeyBody(e.key, "");
    }
  }

  lemma {:induction false} KeyLineSplits(key: string, y: string)
    requires KeyOk(key)
    ensures Splits(RStrip(key + ":" + y), key, Strip(y))
  {
    var text := RStrip(key + ":" + y);
    RStripAppend(key + ":", y);
    assert RStrip(key + ":") == key + ":";
    assert text == key + [':'] + RStrip(y);
    FindAfter(key, ':', RStrip(y));
    assert text[..|key|] == key && text[|key| + 1..] == RStrip(y);
    StripTrims(key);
    StripOfRStrip(y);
    assert text[|key|] == ':';
    assert forall i :: 0 <= i < |key| ==> text[i] == key[i];
  }

  lemma {:induction false} BlankStrip(s: string)
    ensures Strip(s) == "" <==> RStrip(s) == ""
  {
    StripOfRStrip(s);
    RStripShape(s);
    var t := RStrip(s);
    if t != "" {
      LStripShape(t);
      LStripKeepsEnd(t);
    }
  }

  lemma {:induction false} LStripKeepsEnd(t: string)
    requires t != "" && !IsSpace(t[|t| - 1])
    ensures LStrip(t) != "" && !IsSpace(LStrip(t)[|LStrip(t)| - 1]) && Strip(t) == LStrip(t)
  {
    if IsSpace(t[0]) {
      LStripKeepsEnd(t[1..]);
    }
  }

  /** The reader takes a dash line as an item exactly when something is left behind the dash. */
  lemma ItemSplits(body: string)
    ensures BodyOk("- " + body)
    ensures IsItem(Clean("- " + body)) <==> Clean(body) != ""
    ensures Clean(body) != "" ==> Strip(Clean("- " + body)[2..]) == Clean(body)
    ensures Clean(body) == "" ==> Clean("- " + body) == "-"
  {
    var kept := BeforeComment(body, false, false);
    BeforeCommentSkips("- ", body);
    CleanOfBody("- " + body);
    RStripAppend("- ", kept);
    assert "- "[..1] == "-";
    BlankStrip(kept);
    StripOfRStrip(kept);
    if Clean(body) != "" {
      assert Clean("- " + body)[2..] == RStrip(kept);
    }
  }

  // ---- the lines of a value ----

  function EntryLines(e: Entry, d: nat): (lines: seq<Line>)
    decreases e
  {
    [Line(d, Clean(EntryBody(e)))] + ChildLines(e.value, d + 2)
  }

  function DictLines(entries: seq<Entry>, d: nat): (lines: seq<Line>)
    decreases entries
  {
    if entries == [] then [] else EntryLines(entries[0], d) + DictLines(entries[1..], d)
  }

  /** The lines below the key of an entry. */
  function ChildLines(v: Value, d: nat): seq<Line>
    decreases v, 0
  {
    match v
    case Dict(entries) => DictLines(entries, d)
    case List(items) => ListLines(items, d)
    case _ => []
  }

  function ListLines(items: seq<Value>, d: nat): seq<Line>
    decreases items
  {
    if items == [] then [] else ItemLines(items[0], d) + ListLines(items[1..], d)
  }

  function ItemLines(item: Value, d: nat): (lines: seq<Line>)
    decreases item, 1
  {
    match item
    case Dict(entries) =>
      if entries == [] then []
      else
        [Line(d, Clean("- " + EntryBody(entries[0])))]
        + (ChildLines(entries[0].value, d + 4) + DictLines(entries[1..], d + 2))
    case List(items) =>
      [Line(d, "-")] + if items == [] then [Line(d + 2, "[]")] else ListLines(items, d + 2)
    case _ => [Line(d, Clean("- " + ScalarText(item)))]
  }

  // ---- printing and then splitting into lines gives those lines ----

  lemma {:induction false} ChildReadsAs(v: Value, d: nat)
    requires !v.IsScalar() && v != List([]) && Renderable(v) && WellFormed(v)
    ensures ReadLines(Render(v, d)) == ChildLines(v, d)
    decreases v, 0
  {
    match v
    case Dict(entries) =>
      assert forall e | e in entries :: WellFormedEntry(e);
      EntriesReadAs(entries, d);
    case List(items) =>
      assert forall item | item in items :: RenderableItem(item);
      ItemsReadAs(items, d);
  }

  lemma {:induction false} FirstLineReads(lines: seq<string>, d: nat, body: string, rest: seq<Line>)
    requires lines != [] && BodyOk(body)
    requires lines[0] == Spaces(d) + body && ReadLines(lines[1..]) == rest
    ensures ReadLines(lines) == [Line(d, Clean(body))] + rest
  {
    LineReads(d, body);
    ReadLinesAppend([lines[0]], lines[1..]);
    assert lines == [lines[0]] + lines[1..];
  }

  lemma {:induction false} EntryFirstLine(e: Entry, d: nat)
    requires Renderable(e.value)
    ensures RenderEntry(e, d)[0] == Spaces(d) + EntryBody(e)
    ensures RenderEntry(e, d)[1..] ==
      if e.value.IsScalar() || e.value == List([]) then [] else Render(e.value, d + 2)
  {
    assert Spaces(d) + e.key + ":" == Spaces(d) + (e.key + ":");
    assert Spaces(d) + e.key + ":" + " []" == Spaces(d) + (e.key + ":" + " []");
    if e.value.IsScalar() {
      assert Spaces(d) + e.key + ":" + " " + ScalarText(e.value) ==
        Spaces(d) + (e.key + ":" + (" " + ScalarText(e.value)));
    }
  }

  lemma {:induction false} EntryReadsAs(e: Entry, d: nat)
    requires Renderable(e.value) && WellFormedEntry(e)
    ensures ReadLines(RenderEntry(e, d)[1..]) == ChildLines(e.value, d + 2)
    ensures ReadLines(RenderEntry(e, d)) == EntryLines(e, d)
    decreases e
  {
    EntrySplits(e);
    EntryFirstLine(e, d);
    if !e.value.IsScalar() && e.value != List([]) {
      ChildReadsAs(e.value, d + 2);
    }
    FirstLineReads(RenderEntry(e, d), d, EntryBody(e), ChildLines(e.value, d + 2));
  }

  lemma {:induction false} EntriesReadAs(entries: seq<Entry>, d: nat)
    requires RenderableEntries(entries) && WellFormedEntries(entries)
    ensures ReadLines(RenderEntries(entries, d)) == DictLines(entries, d)
    decreases entries
  {
    if entries != [] {
      EntryReadsAs(entries[0], d);
      EntriesReadAs(entries[1..], d);
      ReadLinesAppend(RenderEntry(entries[0], d), RenderEntries(entries[1..], d));
    }
  }

  lemma {:induction false} ItemsReadAs(items: seq<Value>, d: nat)
    requires RenderableItems(items) && forall item | item in items :: WellFormed(item)
    ensures ReadLines(RenderItems(items, d)) == ListLines(items, d)
    decreases items
  {
    if items != [] {
      ItemReadsAs(items[0], d);
      ItemsReadAs(items[1..], d);
      ReadLinesAppend(RenderItem(items[0], d), RenderItems(items[1..], d));
    }
  }

  lemma {:induction false} ItemReadsAs(item: Value, d: nat)
    requires RenderableItem(item) && WellFormed(item)
    ensures ReadLines(RenderItem(item, d)) == ItemLines(item, d)
    decreases item, 2
  {
    match item
    case Dict(entries) =>
      assert forall e | e in entries :: WellFormedEntry(e);
      DictItemReadsAs(entries, d);
    case List(items) => ListItemReadsAs(item, d);
    case _ => ScalarItemReadsAs(item, d);
  }

  lemma {:induction false} ScalarItemReadsAs(item: Value, d: nat)
    requires item.IsScalar()
    ensures ReadLines(RenderItem(item, d)) == ItemLines(item, d)
  {
    ItemSplits(ScalarText(item));
    assert Spaces(d) + "- " + ScalarText(item) == Spaces(d) + ("- " + ScalarText(item));
    LineReads(d, "- " + ScalarText(item));
  }

  lemma {:induction false} ListItemReadsAs(item: Value, d: nat)
    requires item.List? && Renderable(item) && WellFormed(item)
    ensures ReadLines(RenderItem(item, d)) == ItemLines(item, d)
    decreases item, 1
  {
    SymbolsAreClean();
    if item.items == [] {
      LineReads(d + 2, "[]");
    } else {
      ChildReadsAs(item, d + 2);
    }
    var below := Render(item, d + 2);
    assert RenderItem(item, d)[1..] == below;
    FirstLineReads(RenderItem(item, d), d, "-", ReadLines(below));
  }

  lemma {:induction false} DictItemReadsAs(entries: seq<Entry>, d: nat)
    requires entries != [] && RenderableEntries(entries) && WellFormedEntries(entries)
    ensures RenderableItem(Dict(entries))
    ensures ReadLines(RenderItem(Dict(entries), d)) == ItemLines(Dict(entries), d)
    decreases entries
  {
    var e, rest := entries[0], RenderEntries(entries[1..], d + 2);
    var lines := RenderItem(Dict(entries), d);
    var below := RenderEntry(e, d + 2)[1..];
    assert WellFormedEntry(e);
    EntryReadsAs(e, d + 2);
    EntriesReadAs(entries[1..], d + 2);
    DictItemFirstLine(entries, d);
    EntrySplits(e);
    ItemSplits(EntryBody(e));
    ReadLinesAppend(below, rest);
    FirstLineReads(lines, d, "- " + EntryBody(e), ChildLines(e.value, d + 4) + DictLines(entries[1..], d + 2));
  }

  lemma {:induction false} IndentStripped(d: nat, body: string)
    requires BodyOk(body)
    ensures LStrip(Spaces(d) + body) == body
  {
    LStripSpaces(d, body);
  }

  lemma {:induction false} DictItemFirstLine(entries: seq<Entry>, d: nat)
    requires entries != [] && RenderableEntries(entries) && WellFormedEntry(entries[0])
    ensures RenderableItem(Dict(entries))
    ensures var lines := RenderItem(Dict(entries), d);
      && lines != [] && lines[0] == Spaces(d) + ("- " + EntryBody(entries[0]))
      && lines[1..] == RenderEntry(entries[0], d + 2)[1..] + RenderEntries(entries[1..], d + 2)
  {
    var e, all := entries[0], Render(Dict(entries), d + 2);
    EntryFirstLine(e, d + 2);
    EntrySplits(e);
    FirstOfEntries(entries, d + 2);
    IndentStripped(d + 2, EntryBody(e));
    assert Spaces(d) + "- " + EntryBody(e) == Spaces(d) + ("- " + EntryBody(e));
    assert RenderItem(Dict(entries), d) == [Spaces(d) + "- " + LStrip(all[0])] + all[1..];
  }

  lemma {:induction false} FirstOfEntries(entries: seq<Entry>, d: nat)
    requires entries != [] && RenderableEntries(entries)
    ensures RenderEntries(entries, d)[0] == RenderEntry(entries[0], d)[0]
    ensures RenderEntries(entries, d)[1..] == RenderEntry(entries[0], d)[1..] + RenderEntries(entries[1..], d)
  {
  }

  // ---- every printed line is one line ----

  lemma PrintableOneLine(s: string)
    requires forall c :: c in s ==> IsPrintable(c)
    ensures OneLine(s)
  {
  }

  lemma PlainOneLine(s: string)
    requires forall c :: c in s ==> IsPlainChar(c)
    ensures OneLine(s)
  {
  }

  lemma ScalarOneLine(v: Value)
    requires v.IsScalar() && WellFormedScalar(v)
    ensures OneLine(ScalarText(v))
  {
    match v
    case Null => PlainOneLine("null");
    case Bool(_) => PlainOneLine(ScalarText(v));
    case Int(n) =>
      IntTextLooks(n);
      PlainOneLine(IntText(n));
    case Float(d) =>
      FloatTextLooks(d);
      PlainOneLine(DecimalText(d));
    case OtherFloat(text) =>
      OtherFloatIsPlain(text);
      PlainOneLine(text);
    case Str(s) => StringOneLine(s);
  }

  lemma StringOneLine(s: string)
    ensures OneLine(ScalarText(Str(s)))
  {
    if Plain(s) {
      PrintableOneLine(s);
    } else {
      EscapeShape(s);
      PrintableOneLine(Quote(s));
    }
  }

  predicate AllOneLine(lines: seq<string>) {
    forall l :: l in lines ==> OneLine(l)
  }

  lemma {:induction false} RenderOneLine(v: Value, d: nat)
    requires Renderable(v) && WellFormed(v)
    ensures AllOneLine(Render(v, d))
    decreases v, 0
  {
    match v
    case Dict(entries) =>
      assert forall e | e in entries :: WellFormedEntry(e);
      EntriesOneLine(entries, d);
    case List(items) =>
      if items != [] {
        assert forall item | item in items :: RenderableItem(item);
        ItemsOneLine(items, d);
      }
    case _ => ScalarOneLine(v);
  }

  lemma {:induction false} EntriesOneLine(entries: seq<Entry>, d: nat)
    requires RenderableEntries(entries) && WellFormedEntries(entries)
    ensures AllOneLine(RenderEntries(entries, d))
    decreases entries
  {
    if entries != [] {
      var e := entries[0];
      assert WellFormedEntry(e);
      EntriesOneLine(entries[1..], d);
      assert AllOneLine(RenderEntry(e, d)) by {
        if e.value.IsScalar() {
          ScalarOneLine(e.value);
        } else {
          RenderOneLine(e.value, d + 2);
        }
      }
    }
  }

  lemma {:induction false} ItemsOneLine(items: seq<Value>, d: nat)
    requires RenderableItems(items) && forall item | item in items :: WellFormed(item)
    ensures AllOneLine(RenderItems(items, d))
    decreases items
  {
    if items != [] {
      assert items[0] in items && RenderableItem(items[0]) && WellFormed(items[0]);
      ItemOneLine(items[0], d);
      ItemsOneLine(items[1..], d);
    }
  }

  lemma {:induction false} ItemOneLine(item: Value, d: nat)
    requires RenderableItem(item) && WellFormed(item)
    ensures AllOneLine(RenderItem(item, d))
    decreases item, 1
  {
    if item.IsScalar() {
      ScalarOneLine(item);
    } else {
      var lines := Render(item, d + 2);
      RenderOneLine(item, d + 2);
      if item.Dict? {
        LStripShape(lines[0]);
        assert lines[0] in lines;
        assert OneLine(LStrip(lines[0]));
      }
    }
  }

  /** The text of a printed profile, split and stripped, is exactly the lines of the tree. */
  lemma {:induction false} ProfileTextLines(v: Value)
    requires v.Dict? && Renderable(v) && WellFormed(v)
    ensures ReadLines(SplitLines(ProfileText(v))) == DictLines(v.entries, 0)
  {
    var lines := Render(v, 0);
    ChildReadsAs(v, 0);
    if lines == [] {
      assert JoinLines(lines) + "\n" == "" + "\n" + "";
      LineEndAt("", "");
      assert SplitLines("\n") == [""] + SplitLines("");
    } else {
      RenderOneLine(v, 0);
      SplitJoined(lines);
    }
  }
}
