/** The lines of a printed tree: how many they are, and that they show the tree only if it is faithful. */
module ProfileShown {
  import opened Text
  import opened ProfileScalars
  import opened ProfilePrinter
  import opened ProfileReader
  import opened ProfileLines
  import opened ProfileRoundTrip
  import opened ProfileReading
  import opened ProfileWeight

  // ---- the lines of a printed tree ----

  predicate NoNestedLists(v: Value) {
    match v
    case Dict(entries) => forall e | e in entries :: NoNestedLists(e.value)
    case List(items) => forall item | item in items :: !item.List? && NoNestedLists(item)
    case _ => true
  }

  predicate Countable(v: Value) {
    Renderable(v) && NoNestedLists(v)
  }

  predicate CountableEntries(entries: seq<Entry>) {
    forall e | e in entries :: Countable(e.value)
  }

  predicate CountableItems(items: seq<Value>) {
    forall item | item in items :: item != Dict([]) && !item.List? && Countable(item)
  }

  lemma ReadableParts(a: seq<Line>, b: seq<Line>)
    requires Readable(a + b)
    ensures Readable(a) && Readable(b)
  {
    assert forall l :: l in a ==> l in a + b;
    assert forall l :: l in b ==> l in a + b;
  }

  /** The reader refuses the bare dash before a nested list. */
  lemma {:induction false} ReadableNoNested(v: Value, d: nat)
    requires Readable(ChildLines(v, d))
    ensures NoNestedLists(v)
    decreases v, 0
  {
    match v
    case Dict(entries) => ReadableEntries(entries, d);
    case List(items) => ReadableItems(items, d);
    case _ =>
  }

  lemma {:induction false} ReadableEntries(entries: seq<Entry>, d: nat)
    requires Readable(DictLines(entries, d))
    ensures forall e | e in entries :: NoNestedLists(e.value)
    decreases entries
  {
    if entries != [] {
      ReadableParts(EntryLines(entries[0], d), DictLines(entries[1..], d));
      ReadableParts(EntryLines(entries[0], d)[..1], ChildLines(entries[0].value, d + 2));
      ReadableNoNested(entries[0].value, d + 2);
      ReadableEntries(entries[1..], d);
    }
  }

  lemma {:induction false} ReadableItems(items: seq<Value>, d: nat)
    requires Readable(ListLines(items, d))
    ensures forall item | item in items :: !item.List? && NoNestedLists(item)
    decreases items
  {
    if items != [] {
      ReadableParts(ItemLines(items[0], d), ListLines(items[1..], d));
      ReadableItem(items[0], d);
      ReadableItems(items[1..], d);
    }
  }

  lemma {:induction false} DashLine(item: Value, d: nat)
    requires item.List?
    ensures !Readable(ItemLines(item, d))
  {
    assert Line(d, "-") in ItemLines(item, d);
    assert ':' !in "-" && !IsItem("-");
  }

  lemma {:induction false} ReadableItem(item: Value, d: nat)
    requires Readable(ItemLines(item, d))
    ensures !item.List? && NoNestedLists(item)
    decreases item, 1
  {
    if item.List? {
      DashLine(item, d);
    } else if item.Dict? && item.entries != [] {
      var e, more := item.entries[0], item.entries[1..];
      ReadableParts(ItemLines(item, d)[..1], ChildLines(e.value, d + 4) + DictLines(more, d + 2));
      ReadableParts(ChildLines(e.value, d + 4), DictLines(more, d + 2));
      ReadableNoNested(e.value, d + 4);
      ReadableEntries(more, d + 2);
      assert forall x :: x in item.entries ==> x == e || x in more;
    }
  }

  lemma {:induction false} ChildCount(v: Value, d: nat)
    requires Countable(v)
    ensures |ChildLines(v, d)| == Weight(v)
    decreases v, 0
  {
    match v
    case Dict(entries) =>
      assert forall e | e in entries :: Countable(e.value);
      EntriesCount(entries, d);
    case List(items) =>
      assert forall item | item in items :: item != Dict([]) && !item.List? && Countable(item);
      ItemsCount(items, d);
    case _ =>
  }

  lemma {:induction false} EntriesCount(entries: seq<Entry>, d: nat)
    requires CountableEntries(entries)
    ensures |DictLines(entries, d)| == EntriesWeight(entries)
    decreases entries
  {
    if entries != [] {
      assert Countable(entries[0].value);
      ChildCount(entries[0].value, d + 2);
      EntriesCount(entries[1..], d);
    }
  }

  lemma {:induction false} ItemsCount(items: seq<Value>, d: nat)
    requires CountableItems(items)
    ensures |ListLines(items, d)| == ItemsWeight(items)
    decreases items
  {
    if items != [] {
      assert items[0] in items;
      ItemCount(items[0], d);
      ItemsCount(items[1..], d);
    }
  }

  lemma {:induction false} ItemCount(item: Value, d: nat)
    requires item != Dict([]) && !item.List? && Countable(item)
    ensures |ItemLines(item, d)| == ItemWeight(item)
    decreases item, 1
  {
    if item.Dict? {
      assert forall e | e in item.entries :: Countable(e.value);
      assert item == Dict(item.entries);
      assert ItemWeight(item) == Weight(item) && Weight(item) == EntriesWeight(item.entries);
      assert EntriesWeight(item.entries) == EntryWeight(item.entries[0]) + EntriesWeight(item.entries[1..]);
      assert |ItemLines(item, d)| ==
        1 + (|ChildLines(item.entries[0].value, d + 4)| + |DictLines(item.entries[1..], d + 2)|);
      ChildCount(item.entries[0].value, d + 4);
      EntriesCount(item.entries[1..], d + 2);
    }
  }

  // ---- a tree shown by its own lines is faithful ----

  lemma {:induction false} ShownValue(e: Entry, d: nat)
    requires WellFormedEntry(e) && Countable(e.value)
    requires ValueShown(ChildLines(e.value, d), EntryRaw(e), e.value)
    ensures Faithful(e.value)
    decreases e
  {
    var v := e.value;
    if v.IsScalar() {
      ScalarReads(v);
    } else if !v.IsEmptyContainer() {
      ShownBlock(v, d);
    }
  }

  lemma {:induction false} ShownBlock(v: Value, d: nat)
    requires !v.IsScalar() && WellFormed(v) && Countable(v) && BlockShown(ChildLines(v, d), v)
    ensures Faithful(v)
    decreases v, 0
  {
    match v
    case Dict(entries) =>
      assert forall e | e in entries :: WellFormedEntry(e) && Countable(e.value);
      ShownEntries(entries, d);
    case List(items) =>
      assert forall item | item in items :: item != Dict([]) && !item.List? && Countable(item);
      ShownItems(items, d);
      assert forall item | item in items :: FaithfulItem(item);
  }

  lemma {:induction false} ShownEntries(entries: seq<Entry>, d: nat)
    requires WellFormedEntries(entries) && CountableEntries(entries)
    requires EntriesShown(DictLines(entries, d), entries)
    ensures FaithfulEntries(entries)
    decreases entries
  {
    if entries != [] {
      var e := entries[0];
      var lines := EntryLines(e, d);
      assert WellFormedEntry(e) && Countable(e.value);
      ChildCount(e.value, d + 2);
      assert |lines| == EntryWeight(e);
      assert DictLines(entries, d)[..|lines|] == lines;
      assert DictLines(entries, d)[|lines|..] == DictLines(entries[1..], d);
      EntrySplits(e);
      assert lines[1..] == ChildLines(e.value, d + 2);
      ShownValue(e, d + 2);
      ShownEntries(entries[1..], d);
    }
  }

  lemma {:induction false} ShownItems(items: seq<Value>, d: nat)
    requires WellFormedItems(items) && CountableItems(items)
    requires ItemsShown(ListLines(items, d), items)
    ensures FaithfulItems(items)
    decreases items
  {
    if items != [] {
      var lines := ItemLines(items[0], d);
      ItemCount(items[0], d);
      assert ListLines(items, d)[..|lines|] == lines;
      assert ListLines(items, d)[|lines|..] == ListLines(items[1..], d);
      ShownItem(items[0], d);
      ShownItems(items[1..], d);
    }
  }

  lemma {:induction false} ShownItem(item: Value, d: nat)
    requires WellFormed(item) && item != Dict([]) && !item.List? && Countable(item)
    requires ItemShown(ItemLines(item, d), item)
    ensures FaithfulItem(item)
    decreases item, 1
  {
    if item.IsScalar() {
      ItemSplits(ScalarText(item));
      ItemScalarReads(item);
    } else {
      assert forall e | e in item.entries :: WellFormedEntry(e) && Countable(e.value);
      ShownDictItem(item.entries, d);
    }
  }

  lemma {:induction false} ShownDictItem(entries: seq<Entry>, d: nat)
    requires entries != [] && WellFormedEntries(entries) && CountableEntries(entries)
    requires ItemShown(ItemLines(Dict(entries), d), Dict(entries))
    ensures OnDashLine(entries[0].value) && FaithfulEntries(entries)
    decreases entries
  {
    var e, lines := entries[0], ItemLines(Dict(entries), d);
    assert WellFormedEntry(e);
    LinesBelowDash(entries, d);
    var text := DashText(e);
    ShownDashEntry(lines, text, entries);
    ShownFirstValue(e, text);
    ShownEntries(entries[1..], d + 2);
    assert forall x :: x in entries ==> x == e || x in entries[1..];
  }

  lemma {:induction false} LinesBelowDash(entries: seq<Entry>, d: nat)
    requires entries != [] && OnDashLine(entries[0].value)
    ensures ItemLines(Dict(entries), d) != [] && ItemLines(Dict(entries), d)[1..] == DictLines(entries[1..], d + 2)
    ensures ItemLines(Dict(entries), d)[0].text == Clean("- " + EntryBody(entries[0]))
  {
    assert ChildLines(entries[0].value, d + 4) == [];
  }

  lemma {:induction false} ShownDashEntry(lines: seq<Line>, text: string, entries: seq<Entry>)
    requires entries != [] && ItemShown(lines, Dict(entries))
    requires text == Strip(lines[0].text[2..]) && EntryLike(text)
    ensures DashEntry(text, entries[0]) && OnDashLine(entries[0].value) && EntriesShown(lines[1..], entries[1..])
  {
  }

  lemma ShownFirstValue(e: Entry, text: string)
    requires WellFormedEntry(e) && Splits(text, e.key, EntryRaw(e)) && DashEntry(text, e) && OnDashLine(e.value)
    ensures Faithful(e.value)
  {
    if e.value.IsScalar() {
      ScalarReads(e.value);
    }
  }
}
