/** What a successful parse has read. The reader spends one line on each entry and each item it
    keeps, and loses a line whenever a key is written twice. So a tree with as many entries and
    items as there are lines was read without loss, and then the lines show it entry by entry. */
module ProfileReading {
  import opened Text
  import opened ProfileScalars
  import opened ProfilePrinter
  import opened ProfileReader
  import opened ProfileLines
  import opened ProfileRoundTrip
  import opened ProfileWeight

  // ---- what a successful parse has read ----

  predicate TrimmedLines(lines: seq<Line>) {
    forall l :: l in lines ==> Trimmed(l.text)
  }

  /** Only such a line is ever read. */
  predicate Readable(lines: seq<Line>) {
    forall l :: l in lines ==> ':' in l.text || IsItem(l.text)
  }

  function Used(lines: seq<Line>, rest: seq<Line>): (used: seq<Line>)
    requires IsRest(rest, lines)
    ensures used + rest == lines
  {
    lines[..|lines| - |rest|]
  }

  predicate ValueOutcome(used: seq<Line>, raw: string, v: Value) {
    && Readable(used) && Weight(v) <= |used|
    && (Weight(v) == |used| ==> ValueShown(used, raw, v))
  }

  lemma {:induction false} ValueRead(lines: seq<Line>, d: nat, raw: string)
    requires TrimmedLines(lines) && ParseValue(lines, d, raw).Ok?
    ensures var r := ParseValue(lines, d, raw); ValueOutcome(Used(lines, r.rest), raw, r.value)
    decreases |lines|, 4
  {
    if raw == "" && lines != [] && lines[0].indent > d {
      var r := ParseBlock(lines, lines[0].indent);
      BlockRead(lines);
      NestedOutcome(Used(lines, r.rest), r.value);
    } else {
      NoLineOutcome(raw);
    }
  }

  lemma NestedOutcome(used: seq<Line>, v: Value)
    requires BlockOutcome(used, v)
    ensures ValueOutcome(used, "", v)
  {
  }

  lemma NoLineOutcome(raw: string)
    ensures ValueOutcome([], raw, if raw != "" then ReadScalar(raw) else Dict([]))
  {
  }

  predicate BlockOutcome(used: seq<Line>, v: Value) {
    && Readable(used) && Weight(v) <= |used|
    && (Weight(v) == |used| ==> BlockShown(used, v))
  }

  lemma ListOutcome(used: seq<Line>, items: seq<Value>)
    requires ItemsOutcome(used, [], items)
    ensures BlockOutcome(used, List(items))
  {
    assert items[0..] == items;
  }

  lemma DictOutcome(used: seq<Line>, entries: seq<Entry>)
    requires EntriesOutcome(used, [], entries)
    ensures BlockOutcome(used, Dict(entries))
  {
    assert entries[0..] == entries;
  }

  lemma {:induction false} BlockRead(lines: seq<Line>)
    requires TrimmedLines(lines) && lines != [] && ParseBlock(lines, lines[0].indent).Ok?
    ensures var r := ParseBlock(lines, lines[0].indent); BlockOutcome(Used(lines, r.rest), r.value)
    decreases |lines|, 3
  {
    if IsItem(lines[0].text) {
      var r := ParseList(lines, lines[0].indent, []);
      ItemsReadBack(lines, lines[0].indent, []);
      ListOutcome(Used(lines, r.rest), r.value);
    } else {
      var r := ParseDict(lines, lines[0].indent, []);
      EntriesReadBack(lines, lines[0].indent, []);
      DictOutcome(Used(lines, r.rest), r.value);
    }
  }

  predicate EntriesOutcome(used: seq<Line>, acc: seq<Entry>, entries: seq<Entry>) {
    && Readable(used) && |acc| <= |entries|
    && EntriesWeight(entries) <= EntriesWeight(acc) + |used|
    && (EntriesWeight(entries) == EntriesWeight(acc) + |used| ==>
      acc <= entries && EntriesShown(used, entries[|acc|..]))
  }

  /** One entry more: the lines of the entry, then those of the entries after it. */
  lemma {:induction false} EntryOutcome(line: Line, mid: seq<Line>, tail: seq<Line>, acc: seq<Entry>, e: Entry,
      entries: seq<Entry>)
    requires ':' in line.text && SplitKey(line.text) == e.key
    requires ValueOutcome(mid, SplitRaw(line.text), e.value)
    requires EntriesOutcome(tail, Put(acc, e), entries)
    ensures EntriesOutcome([line] + mid + tail, acc, entries)
  {
    PutWeight(acc, e);
    var used := [line] + mid + tail;
    assert Readable(used);
    if EntriesWeight(entries) == EntriesWeight(acc) + |used| {
      EntryOutcomeExact(line, mid, tail, acc, e, entries);
    }
  }

  lemma PrefixSplit<T>(acc: seq<T>, e: T, all: seq<T>)
    requires acc + [e] <= all
    ensures acc <= all && all[|acc|..] == [e] + all[|acc| + 1..]
  {
    assert all[|acc|] == (acc + [e])[|acc|];
  }

  lemma {:induction false} EntryOutcomeExact(line: Line, mid: seq<Line>, tail: seq<Line>, acc: seq<Entry>,
      e: Entry, entries: seq<Entry>)
    requires ':' in line.text && SplitKey(line.text) == e.key
    requires Weight(e.value) == |mid| && ValueShown(mid, SplitRaw(line.text), e.value)
    requires acc + [e] <= entries && EntriesShown(tail, entries[|acc| + 1..])
    ensures acc <= entries && EntriesShown([line] + mid + tail, entries[|acc|..])
  {
    var head := [line] + mid;
    PrefixSplit(acc, e, entries);
    assert head[1..] == mid;
    EntriesShownCons(head, tail, e, entries[|acc| + 1..]);
  }

  lemma NothingRead(lines: seq<Line>, acc: seq<Entry>)
    ensures EntriesOutcome(Used(lines, lines), acc, acc)
  {
    assert acc[|acc|..] == [];
  }

  lemma DictUnfold(lines: seq<Line>, d: nat, acc: seq<Entry>) returns (v: Parsed<Value>)
    requires ParseDict(lines, d, acc).Ok?
    requires lines != [] && lines[0].indent >= d && !IsItem(lines[0].text)
    ensures ':' in lines[0].text && v == ParseValue(lines[1..], d, SplitRaw(lines[0].text)) && v.Ok?
    ensures ParseDict(lines, d, acc) == ParseDict(v.rest, d, Put(acc, Entry(SplitKey(lines[0].text), v.value)))
  {
    v := ParseValue(lines[1..], d, SplitRaw(lines[0].text));
  }

  lemma ItemEntriesUnfold(lines: seq<Line>, i: nat, acc: seq<Entry>) returns (v: Parsed<Value>)
    requires ParseItemEntries(lines, i, acc).Ok?
    requires lines != [] && lines[0].indent > i && !IsItem(lines[0].text)
    ensures ':' in lines[0].text && v == ParseValue(lines[1..], lines[0].indent, SplitRaw(lines[0].text)) && v.Ok?
    ensures ParseItemEntries(lines, i, acc) ==
      ParseItemEntries(v.rest, i, Put(acc, Entry(SplitKey(lines[0].text), v.value)))
  {
    v := ParseValue(lines[1..], lines[0].indent, SplitRaw(lines[0].text));
  }

  lemma JoinUsed(lines: seq<Line>, middle: seq<Line>, rest: seq<Line>)
    requires lines != [] && IsRest(middle, lines[1..]) && IsRest(rest, middle) && IsRest(rest, lines)
    ensures Used(lines, rest) == [lines[0]] + Used(lines[1..], middle) + Used(middle, rest)
  {
    var used := [lines[0]] + Used(lines[1..], middle) + Used(middle, rest);
    assert used + rest == lines;
    assert used == lines[..|used|];
  }

  lemma {:induction false} EntriesReadBack(lines: seq<Line>, d: nat, acc: seq<Entry>)
    requires TrimmedLines(lines) && ParseDict(lines, d, acc).Ok?
    ensures var r := ParseDict(lines, d, acc); EntriesOutcome(Used(lines, r.rest), acc, r.value)
    decreases |lines|, 2
  {
    var r := ParseDict(lines, d, acc);
    if lines == [] || lines[0].indent < d || IsItem(lines[0].text) {
      NothingRead(lines, acc);
    } else {
      var v := DictUnfold(lines, d, acc);
      var e := Entry(SplitKey(lines[0].text), v.value);
      ValueRead(lines[1..], d, SplitRaw(lines[0].text));
      EntriesReadBack(v.rest, d, Put(acc, e));
      EntryOutcome(lines[0], Used(lines[1..], v.rest), Used(v.rest, r.rest), acc, e, r.value);
      JoinUsed(lines, v.rest, r.rest);
    }
  }

  lemma {:induction false} ItemEntriesReadBack(lines: seq<Line>, i: nat, acc: seq<Entry>)
    requires TrimmedLines(lines) && ParseItemEntries(lines, i, acc).Ok?
    ensures var r := ParseItemEntries(lines, i, acc); EntriesOutcome(Used(lines, r.rest), acc, r.value)
    decreases |lines|, 2
  {
    var r := ParseItemEntries(lines, i, acc);
    if lines == [] || lines[0].indent <= i || IsItem(lines[0].text) {
      NothingRead(lines, acc);
    } else {
      var v := ItemEntriesUnfold(lines, i, acc);
      var e := Entry(SplitKey(lines[0].text), v.value);
      ValueRead(lines[1..], lines[0].indent, SplitRaw(lines[0].text));
      ItemEntriesReadBack(v.rest, i, Put(acc, e));
      EntryOutcome(lines[0], Used(lines[1..], v.rest), Used(v.rest, r.rest), acc, e, r.value);
      JoinUsed(lines, v.rest, r.rest);
    }
  }

  predicate ItemsOutcome(used: seq<Line>, acc: seq<Value>, items: seq<Value>) {
    && Readable(used)
    && ItemsWeight(items) <= ItemsWeight(acc) + |used|
    && acc <= items
    && (ItemsWeight(items) == ItemsWeight(acc) + |used| ==> ItemsShown(used, items[|acc|..]))
  }

  lemma {:induction false} ItemOutcome(head: seq<Line>, tail: seq<Line>, acc: seq<Value>, item: Value,
      items: seq<Value>)
    requires Readable(head) && ItemWeight(item) <= |head|
    requires ItemWeight(item) == |head| ==> ItemShown(head, item)
    requires ItemsOutcome(tail, acc + [item], items)
    ensures ItemsOutcome(head + tail, acc, items)
  {
    ItemsWeightAppend(acc, [item]);
    assert items[|acc|..] == [item] + items[|acc| + 1..];
    if ItemsWeight(items) == ItemsWeight(acc) + |head + tail| {
      ItemsShownCons(head, tail, item, items[|acc| + 1..]);
    }
  }

  lemma NoItemRead(lines: seq<Line>, acc: seq<Value>)
    ensures ItemsOutcome(Used(lines, lines), acc, acc)
  {
    assert acc[|acc|..] == [];
  }

  lemma JoinItems(lines: seq<Line>, middle: seq<Line>, rest: seq<Line>)
    requires IsRest(middle, lines) && IsRest(rest, middle) && IsRest(rest, lines)
    ensures Used(lines, rest) == Used(lines, middle) + Used(middle, rest)
  {
    var used := Used(lines, middle) + Used(middle, rest);
    assert used + rest == lines;
    assert used == lines[..|used|];
  }

  lemma {:induction false} ListUnfold(lines: seq<Line>, d: nat, acc: seq<Value>)
    requires ParseList(lines, d, acc).Ok?
    requires lines != [] && lines[0].indent == d && IsItem(lines[0].text)
    ensures ParseItem(lines).Ok?
    ensures ParseList(lines, d, acc) == ParseList(ParseItem(lines).rest, d, acc + [ParseItem(lines).value])
  {
  }

  lemma {:induction false} ItemsReadBack(lines: seq<Line>, d: nat, acc: seq<Value>)
    requires TrimmedLines(lines) && ParseList(lines, d, acc).Ok?
    ensures var r := ParseList(lines, d, acc); ItemsOutcome(Used(lines, r.rest), acc, r.value)
    decreases |lines|, 2
  {
    var r := ParseList(lines, d, acc);
    if lines == [] || lines[0].indent != d || !IsItem(lines[0].text) {
      NoItemRead(lines, acc);
    } else {
      ListUnfold(lines, d, acc);
      var v := ParseItem(lines);
      ItemReadBack(lines);
      ItemsReadBack(v.rest, d, acc + [v.value]);
      ItemOutcome(Used(lines, v.rest), Used(v.rest, r.rest), acc, v.value, r.value);
      JoinItems(lines, v.rest, r.rest);
    }
  }

  lemma ItemTextNotBlank(text: string)
    requires IsItem(text) && Trimmed(text)
    ensures Strip(text[2..]) != ""
  {
    var t := text[2..];
    assert |text| > 2 by {
      assert text[1] == "- "[1];
    }
    assert t[|t| - 1] == text[|text| - 1];
    LStripKeepsEnd(t);
  }

  lemma DashDictUnfold(lines: seq<Line>, text: string, first: Entry) returns (more: Parsed<seq<Entry>>)
    requires lines != [] && IsItem(lines[0].text) && text == Strip(lines[0].text[2..])
    requires text != "" && EntryLike(text) && DashEntry(text, first) && ParseItem(lines).Ok?
    ensures more == ParseItemEntries(lines[1..], lines[0].indent, [first]) && more.Ok?
    ensures ParseItem(lines) == Ok(Dict(more.value), more.rest)
  {
    more := ParseItemEntries(lines[1..], lines[0].indent, [first]);
  }

  lemma UsedBelow(lines: seq<Line>, more: Parsed<seq<Entry>>, r: Parsed<Value>)
    requires lines != [] && more.Ok? && Advances(more, lines[1..]) && r.Ok? && Advances(r, lines) && r.rest == more.rest
    ensures Used(lines, r.rest) == [lines[0]] + Used(lines[1..], more.rest)
  {
    var used := [lines[0]] + Used(lines[1..], more.rest);
    assert used + more.rest == lines;
    assert used == lines[..|used|];
  }

  lemma {:induction false} ItemReadBack(lines: seq<Line>)
    requires TrimmedLines(lines) && lines != [] && IsItem(lines[0].text) && ParseItem(lines).Ok?
    ensures var r := ParseItem(lines);
      && Readable(Used(lines, r.rest)) && ItemWeight(r.value) <= |Used(lines, r.rest)|
      && (ItemWeight(r.value) == |Used(lines, r.rest)| ==> ItemShown(Used(lines, r.rest), r.value))
    decreases |lines|, 1
  {
    var text := Strip(lines[0].text[2..]);
    ItemTextNotBlank(lines[0].text);
    if EntryLike(text) {
      var raw := SplitRaw(text);
      var first := Entry(SplitKey(text), if raw != "" then ReadScalar(raw) else Dict([]));
      var more := DashDictUnfold(lines, text, first);
      ItemEntriesReadBack(lines[1..], lines[0].indent, [first]);
      UsedBelow(lines, more, ParseItem(lines));
      DashDictOutcome(lines[0], Used(lines[1..], more.rest), text, first, more.value);
    } else {
      var r := ParseItem(lines);
      assert r == Ok(ReadScalar(text), lines[1..]);
      assert Used(lines, r.rest) == [lines[0]];
    }
  }

  lemma {:induction false} DashDictOutcome(line: Line, below: seq<Line>, text: string, first: Entry,
      entries: seq<Entry>)
    requires IsItem(line.text) && text == Strip(line.text[2..]) && EntryLike(text) && DashEntry(text, first)
    requires EntriesOutcome(below, [first], entries)
    ensures Readable([line] + below)
    ensures ItemWeight(Dict(entries)) <= 1 + |below|
    ensures ItemWeight(Dict(entries)) == 1 + |below| ==> ItemShown([line] + below, Dict(entries))
  {
    assert first.value.IsScalar() || first.value.IsEmptyContainer();
    assert EntriesWeight([first]) == EntryWeight(first) + EntriesWeight([first][1..]);
    assert EntriesWeight([first]) == 1;
    if ItemWeight(Dict(entries)) == 1 + |below| {
      assert EntriesWeight(entries) == 1 + |below|;
      assert [first] <= entries && entries[0] == [first][0];
      DashDictShown(line, below, text, entries);
    }
  }

  lemma {:induction false} DashDictShown(line: Line, below: seq<Line>, text: string, entries: seq<Entry>)
    requires IsItem(line.text) && text == Strip(line.text[2..]) && EntryLike(text)
    requires entries != [] && DashEntry(text, entries[0]) && EntriesShown(below, entries[1..])
    ensures ItemShown([line] + below, Dict(entries))
  {
    var lines := [line] + below;
    assert lines[0] == line && lines[1..] == below;
  }
}
