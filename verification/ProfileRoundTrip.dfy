/** Which profiles the fallback reader takes back unchanged. */
module ProfileRoundTrip {
  import opened Text
  import opened ProfileScalars
  import opened ProfilePrinter
  import opened ProfileReader
  import opened ProfileLines

  /** The trees that survive printing and reading. Every scalar survives where it stands; no
      list lies directly in a list; a dict in a list has entries, and its first value fits on
      the line of the dash. */
  predicate Faithful(v: Value) {
    match v
    case Dict(entries) => forall e | e in entries :: Faithful(e.value)
    case List(items) =>
      forall item | item in items ::
        if item.IsScalar() then SurvivesAsItem(item)
        else item.Dict? && item.entries != [] && OnDashLine(item.entries[0].value) && Faithful(item)
    case _ => Survives(v)
  }

  predicate OnDashLine(v: Value) {
    v.IsScalar() || v.IsEmptyContainer()
  }

  predicate FaithfulItem(item: Value) {
    if item.IsScalar() then SurvivesAsItem(item)
    else item.Dict? && item.entries != [] && OnDashLine(item.entries[0].value) && Faithful(item)
  }

  predicate FaithfulEntries(entries: seq<Entry>) {
    forall e | e in entries :: Faithful(e.value)
  }

  predicate FaithfulItems(items: seq<Value>) {
    forall item | item in items :: FaithfulItem(item)
  }

  predicate WellFormedItems(items: seq<Value>) {
    forall item | item in items :: WellFormed(item)
  }

  /** The lines that follow are not deeper than `limit`. */
  predicate Below(post: seq<Line>, limit: int) {
    post == [] || post[0].indent <= limit
  }

  // ---- a faithful tree is read back ----

  lemma {:induction false} PutNew(entries: seq<Entry>, e: Entry)
    requires forall i :: 0 <= i < |entries| ==> entries[i].key != e.key
    ensures Put(entries, e) == entries + [e]
  {
    if entries != [] {
      PutNew(entries[1..], e);
    }
  }

  lemma {:induction false} DictLinesUnfold(entries: seq<Entry>, d: nat, post: seq<Line>)
    requires entries != []
    ensures DictLines(entries, d) + post ==
      [Line(d, Clean(EntryBody(entries[0])))]
      + (ChildLines(entries[0].value, d + 2) + (DictLines(entries[1..], d) + post))
  {
    assert DictLines(entries, d) == EntryLines(entries[0], d) + DictLines(entries[1..], d);
  }

  lemma {:induction false} ListLinesUnfold(items: seq<Value>, d: nat, post: seq<Line>)
    requires items != []
    ensures ListLines(items, d) + post == ItemLines(items[0], d) + (ListLines(items[1..], d) + post)
  {
  }

  /** One entry of a dict, once its value is known. */
  lemma {:induction false} DictStep(text: string, d: nat, rest: seq<Line>, acc: seq<Entry>, e: Entry,
      raw: string, after: seq<Line>)
    requires Splits(text, e.key, raw) && ParseValue(rest, d, raw) == Ok(e.value, after)
    ensures ParseDict([Line(d, text)] + rest, d, acc) == ParseDict(after, d, Put(acc, e))
  {
    var lines := [Line(d, text)] + rest;
    assert lines[1..] == rest;
  }

  lemma {:induction false} ItemEntriesStep(text: string, i: nat, d: nat, rest: seq<Line>, acc: seq<Entry>,
      e: Entry, raw: string, after: seq<Line>)
    requires i < d
    requires Splits(text, e.key, raw) && ParseValue(rest, d, raw) == Ok(e.value, after)
    ensures ParseItemEntries([Line(d, text)] + rest, i, acc) == ParseItemEntries(after, i, Put(acc, e))
  {
    var lines := [Line(d, text)] + rest;
    assert lines[1..] == rest;
  }

  lemma EmptyListReads()
    ensures ReadScalar("[]") == List([])
  {
    StripTrims("[]");
  }

  lemma {:induction false} ValueReads(e: Entry, d: nat, post: seq<Line>)
    requires WellFormedEntry(e) && Faithful(e.value) && Below(post, d)
    ensures ParseValue(ChildLines(e.value, d + 2) + post, d, EntryRaw(e)) == Ok(e.value, post)
    decreases e
  {
    var v := e.value;
    if v.IsScalar() {
      ScalarReads(v);
      assert [] + post == post;
    } else if v.IsEmptyContainer() {
      EmptyListReads();
      assert ChildLines(v, d + 2) == [] && [] + post == post;
    } else {
      BlockReads(v, d + 2, post);
    }
  }

  lemma {:induction false} BlockReads(v: Value, d: nat, post: seq<Line>)
    requires !v.IsScalar() && !v.IsEmptyContainer() && WellFormed(v) && Faithful(v)
    requires Below(post, d - 1)
    ensures var lines := ChildLines(v, d) + post; lines != [] && lines[0].indent == d
    ensures ParseBlock(ChildLines(v, d) + post, d) == Ok(v, post)
    decreases v, 0
  {
    match v
    case Dict(entries) =>
      assert forall e | e in entries :: WellFormedEntry(e);
      DictLinesUnfold(entries, d, post);
      EntrySplits(entries[0]);
      assert [] + entries == entries;
      EntriesRead(entries, d, post, []);
    case List(items) =>
      assert forall item | item in items :: FaithfulItem(item);
      ListLinesUnfold(items, d, post);
      ItemStarts(items[0], d);
      assert [] + items == items;
      ItemsRead(items, d, post, []);
  }

  lemma {:induction false} ItemStarts(item: Value, d: nat)
    requires WellFormed(item) && FaithfulItem(item)
    ensures ItemLines(item, d) != []
    ensures ItemLines(item, d)[0].indent == d && IsItem(ItemLines(item, d)[0].text)
  {
    if item.IsScalar() {
      ItemScalarReads(item);
      ItemSplits(ScalarText(item));
    } else {
      assert WellFormedEntry(item.entries[0]);
      EntrySplits(item.entries[0]);
      ItemSplits(EntryBody(item.entries[0]));
    }
  }

  lemma {:induction false} RestBelow(entries: seq<Entry>, d: nat, post: seq<Line>)
    requires Below(post, d)
    ensures Below(DictLines(entries, d) + post, d)
  {
    if entries != [] {
      DictLinesUnfold(entries, d, post);
    }
  }

  lemma {:induction false} EntriesRead(entries: seq<Entry>, d: nat, post: seq<Line>, acc: seq<Entry>)
    requires WellFormedEntries(entries) && FaithfulEntries(entries)
    requires DistinctKeys(acc + entries) && Below(post, d - 1)
    ensures ParseDict(DictLines(entries, d) + post, d, acc) == Ok(acc + entries, post)
    decreases entries
  {
    if entries == [] {
      assert DictLines(entries, d) + post == post && acc + entries == acc;
    } else {
      var e, rest := entries[0], DictLines(entries[1..], d) + post;
      assert WellFormedEntry(e);
      RestBelow(entries[1..], d, post);
      ValueReads(e, d, rest);
      EntrySplits(e);
      DictLinesUnfold(entries, d, post);
      DictStep(Clean(EntryBody(e)), d, ChildLines(e.value, d + 2) + rest, acc, e, EntryRaw(e), rest);
      EntryAdded(acc, entries);
      EntriesRead(entries[1..], d, post, acc + [e]);
    }
  }

  lemma {:induction false} EntryAdded(acc: seq<Entry>, entries: seq<Entry>)
    requires entries != [] && DistinctKeys(acc + entries)
    ensures Put(acc, entries[0]) == acc + [entries[0]]
    ensures acc + [entries[0]] + entries[1..] == acc + entries
  {
    var all := acc + entries;
    assert all[|acc|] == entries[0];
    assert forall i :: 0 <= i < |acc| ==> all[i] == acc[i];
    PutNew(acc, entries[0]);
  }

  lemma {:induction false} ItemEntriesRead(entries: seq<Entry>, i: nat, d: nat, post: seq<Line>, acc: seq<Entry>)
    requires i < d
    requires WellFormedEntries(entries) && FaithfulEntries(entries)
    requires DistinctKeys(acc + entries) && Below(post, i)
    ensures ParseItemEntries(DictLines(entries, d) + post, i, acc) == Ok(acc + entries, post)
    decreases entries
  {
    if entries == [] {
      assert DictLines(entries, d) + post == post && acc + entries == acc;
    } else {
      var e, rest := entries[0], DictLines(entries[1..], d) + post;
      assert WellFormedEntry(e);
      RestBelow(entries[1..], d, post);
      ValueReads(e, d, rest);
      EntrySplits(e);
      DictLinesUnfold(entries, d, post);
      ItemEntriesStep(Clean(EntryBody(e)), i, d, ChildLines(e.value, d + 2) + rest, acc, e, EntryRaw(e), rest);
      EntryAdded(acc, entries);
      ItemEntriesRead(entries[1..], i, d, post, acc + [e]);
    }
  }

  lemma {:induction false} ListStep(lines: seq<Line>, d: nat, acc: seq<Value>, item: Value, after: seq<Line>)
    requires lines != [] && lines[0].indent == d && IsItem(lines[0].text)
    requires ParseItem(lines) == Ok(item, after)
    ensures ParseList(lines, d, acc) == ParseList(after, d, acc + [item])
  {
  }

  lemma {:induction false} ItemsBelow(items: seq<Value>, d: nat, post: seq<Line>)
    requires WellFormedItems(items) && FaithfulItems(items) && Below(post, d - 1)
    ensures Below(ListLines(items, d) + post, d)
  {
    if items != [] {
      ListLinesUnfold(items, d, post);
      ItemStarts(items[0], d);
    } else {
      assert ListLines(items, d) + post == post;
    }
  }

  lemma MoveFirst<T>(acc: seq<T>, items: seq<T>)
    requires items != []
    ensures acc + [items[0]] + items[1..] == acc + items
  {
  }

  lemma {:induction false} ItemsRead(items: seq<Value>, d: nat, post: seq<Line>, acc: seq<Value>)
    requires WellFormedItems(items) && FaithfulItems(items) && Below(post, d - 1)
    ensures ParseList(ListLines(items, d) + post, d, acc) == Ok(acc + items, post)
    decreases items
  {
    if items == [] {
      assert ListLines(items, d) + post == post && acc + items == acc;
    } else {
      var rest := ListLines(items[1..], d) + post;
      ListLinesUnfold(items, d, post);
      ItemStarts(items[0], d);
      ItemsBelow(items[1..], d, post);
      ItemReads(items[0], d, rest);
      ListStep(ListLines(items, d) + post, d, acc, items[0], rest);
      ItemsRead(items[1..], d, post, acc + [items[0]]);
      MoveFirst(acc, items);
    }
  }

  /** A printed entry is never taken for a web link. */
  lemma EntryBodyEntryLike(e: Entry)
    requires KeyOk(e.key)
    ensures EntryLike(Clean(EntryBody(e)))
  {
    var text := Clean(EntryBody(e));
    EntrySplits(e);
    var tail := EntryBody(e)[|e.key| + 1..];
    assert EntryBody(e) == e.key + ":" + tail && (tail == "" || tail[0] == ' ');
    CleanKeepsKey(e.key, tail);
    ColonThenSpace(text, |e.key|);
  }

  lemma CleanKeepsKey(key: string, tail: string)
    requires KeyOk(key) && (tail == "" || tail[0] == ' ')
    ensures
      var text := Clean(key + ":" + tail);
      && FirstColon(text, |key|)
      && (|text| > |key| + 1 ==> text[|key| + 1] == ' ')
  {
    CleanedLine(key, tail);
    StrippedTail(tail);
    ColonBehindKey(key, RStrip(BeforeComment(tail, false, false)));
  }

  lemma {:induction false} CleanedLine(key: string, tail: string)
    requires KeyOk(key)
    ensures Clean(key + ":" + tail) == key + ":" + RStrip(BeforeComment(tail, false, false))
  {
    KeyBody(key, tail);
    BeforeCommentSkips(key + ":", tail);
    CleanOfBody(key + ":" + tail);
    RStripAppend(key + ":", BeforeComment(tail, false, false));
  }

  lemma {:induction false} StrippedTail(tail: string)
    requires tail == "" || tail[0] == ' '
    ensures var z := RStrip(BeforeComment(tail, false, false)); z == "" || z[0] == ' '
  {
    RStripShape(BeforeComment(tail, false, false));
  }

  lemma ColonBehindKey(key: string, z: string)
    requires ':' !in key && (z == "" || z[0] == ' ')
    ensures var text := key + ":" + z;
      FirstColon(text, |key|) && (|text| > |key| + 1 ==> text[|key| + 1] == ' ')
  {
    assert (key + ":" + z)[..|key|] == key;
  }

  predicate FirstColon(text: string, i: nat) {
    i < |text| && text[i] == ':' && ':' !in text[..i]
  }

  lemma WebLinkColon(text: string)
    requires WebLink(text)
    ensures FirstColon(text, 4) || FirstColon(text, 5)
    ensures FirstColon(text, 4) ==> |text| > 5 && text[5] == '/'
    ensures FirstColon(text, 5) ==> |text| > 6 && text[6] == '/'
  {
    if StartsWith(text, "http://") {
      assert text[..4] == "http" && text[4] == "http://"[4] && text[5] == "http://"[5];
      assert text[..5][4] == ':';
    } else {
      assert text[..5] == "https" && text[5] == "https://"[5] && text[6] == "https://"[6];
      assert text[4] == "https"[4];
    }
  }

  lemma ColonThenSpace(text: string, k: nat)
    requires FirstColon(text, k)
    requires |text| > k + 1 ==> text[k + 1] == ' '
    ensures !WebLink(text)
  {
    if WebLink(text) {
      WebLinkColon(text);
    }
  }

  lemma {:induction false} ItemReads(item: Value, d: nat, post: seq<Line>)
    requires WellFormed(item) && FaithfulItem(item) && Below(post, d)
    ensures ItemLines(item, d) != [] && IsItem(ItemLines(item, d)[0].text)
    ensures ParseItem(ItemLines(item, d) + post) == Ok(item, post)
    decreases item, 1
  {
    ItemStarts(item, d);
    if item.IsScalar() {
      ItemScalarReads(item);
      ItemSplits(ScalarText(item));
      assert (ItemLines(item, d) + post)[1..] == post;
    } else {
      assert forall e | e in item.entries :: WellFormedEntry(e);
      DictItemReads(item.entries, d, post);
    }
  }

  /** What the reader takes from the line of a dash and a first entry. */
  lemma DashText(e: Entry) returns (text: string)
    requires KeyOk(e.key)
    ensures IsItem(Clean("- " + EntryBody(e))) && text == Strip(Clean("- " + EntryBody(e))[2..])
    ensures EntryLike(text) && text != "" && Splits(text, e.key, EntryRaw(e))
  {
    text := Clean(EntryBody(e));
    EntrySplits(e);
    EntryBodyEntryLike(e);
    ItemSplits(EntryBody(e));
  }

  lemma {:induction false} DictItemStep(lines: seq<Line>, text: string, first: Entry, raw: string,
      entries: seq<Entry>, after: seq<Line>)
    requires lines != [] && IsItem(lines[0].text) && text == Strip(lines[0].text[2..])
    requires text != "" && EntryLike(text) && Splits(text, first.key, raw)
    requires first.value == if raw != "" then ReadScalar(raw) else Dict([])
    requires ParseItemEntries(lines[1..], lines[0].indent, [first]) == Ok(entries, after)
    ensures ParseItem(lines) == Ok(Dict(entries), after)
  {
    assert first == Entry(SplitKey(text), if SplitRaw(text) != "" then ReadScalar(SplitRaw(text)) else Dict([]));
  }

  lemma {:induction false} DictItemReads(entries: seq<Entry>, d: nat, post: seq<Line>)
    requires entries != [] && WellFormedEntries(entries) && FaithfulEntries(entries)
    requires DistinctKeys(entries) && OnDashLine(entries[0].value) && Below(post, d)
    ensures IsItem(ItemLines(Dict(entries), d)[0].text)
    ensures ParseItem(ItemLines(Dict(entries), d) + post) == Ok(Dict(entries), post)
    decreases entries, 1
  {
    var e, lines := entries[0], ItemLines(Dict(entries), d) + post;
    assert WellFormedEntry(e);
    var text := DashText(e);
    DictItemLines(entries, d, post);
    FirstValueReads(e);
    MoreEntriesRead(entries, d, post);
    DictItemStep(lines, text, e, EntryRaw(e), entries, post);
  }

  lemma {:induction false} MoreEntriesRead(entries: seq<Entry>, d: nat, post: seq<Line>)
    requires entries != [] && WellFormedEntries(entries) && FaithfulEntries(entries)
    requires DistinctKeys(entries) && Below(post, d)
    ensures ParseItemEntries(DictLines(entries[1..], d + 2) + post, d, [entries[0]]) == Ok(entries, post)
    decreases entries, 0
  {
    assert [entries[0]] + entries[1..] == entries;
    ItemEntriesRead(entries[1..], d, d + 2, post, [entries[0]]);
  }

  lemma {:induction false} DictItemLines(entries: seq<Entry>, d: nat, post: seq<Line>)
    requires entries != [] && OnDashLine(entries[0].value)
    ensures ItemLines(Dict(entries), d) != []
    ensures var lines := ItemLines(Dict(entries), d) + post;
      && lines != [] && lines[0] == Line(d, Clean("- " + EntryBody(entries[0])))
      && lines[1..] == DictLines(entries[1..], d + 2) + post
  {
    assert ChildLines(entries[0].value, d + 4) == [];
  }

  lemma FirstValueReads(e: Entry)
    requires WellFormedEntry(e) && Faithful(e.value) && OnDashLine(e.value)
    ensures e.value == if EntryRaw(e) != "" then ReadScalar(EntryRaw(e)) else Dict([])
  {
    if e.value.IsScalar() {
      ScalarReads(e.value);
    } else {
      EmptyListReads();
    }
  }
}
