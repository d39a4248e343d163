/** How many lines a value takes, and lines that show a value entry by entry. */
module ProfileWeight {
  import opened Text
  import opened ProfileScalars
  import opened ProfilePrinter
  import opened ProfileReader
  import opened ProfileLines
  import opened ProfileRoundTrip

  // ---- how many lines a value takes ----

  /** Lines below the key of an entry with this value. */
  function Weight(v: Value): nat
    decreases v, 0
  {
    match v
    case Dict(entries) => EntriesWeight(entries)
    case List(items) => ItemsWeight(items)
    case _ => 0
  }

  function EntriesWeight(entries: seq<Entry>): nat
    decreases entries
  {
    if entries == [] then 0 else EntryWeight(entries[0]) + EntriesWeight(entries[1..])
  }

  function EntryWeight(e: Entry): nat
    decreases e
  {
    1 + Weight(e.value)
  }

  function ItemsWeight(items: seq<Value>): nat
    decreases items
  {
    if items == [] then 0 else ItemWeight(items[0]) + ItemsWeight(items[1..])
  }

  function ItemWeight(item: Value): nat
    decreases item, 1
  {
    if item.IsScalar() || item.IsEmptyContainer() then 1
    else if item.Dict? then Weight(item)
    else 1 + Weight(item)
  }

  lemma {:induction false} ItemsWeightAppend(a: seq<Value>, b: seq<Value>)
    ensures ItemsWeight(a + b) == ItemsWeight(a) + ItemsWeight(b)
  {
    if a == [] {
      assert a + b == b;
    } else {
      assert (a + b)[1..] == a[1..] + b;
      ItemsWeightAppend(a[1..], b);
    }
  }

  /** Writing a key a second time loses weight. */
  lemma {:induction false} FirstWeight(e: Entry, rest: seq<Entry>)
    ensures EntriesWeight([e] + rest) == EntryWeight(e) + EntriesWeight(rest)
  {
    assert ([e] + rest)[1..] == rest;
  }

  lemma {:induction false} PutWeight(acc: seq<Entry>, e: Entry)
    ensures EntriesWeight(Put(acc, e)) <= EntriesWeight(acc) + EntryWeight(e)
    ensures EntriesWeight(Put(acc, e)) == EntriesWeight(acc) + EntryWeight(e) ==> Put(acc, e) == acc + [e]
  {
    if acc == [] {
      FirstWeight(e, []);
      assert [e] + [] == [e] == [] + [e];
    } else {
      var first, rest := acc[0], acc[1..];
      assert acc == [first] + rest;
      FirstWeight(first, rest);
      if first.key == e.key {
        FirstWeight(e, rest);
      } else {
        PutWeight(rest, e);
        FirstWeight(first, Put(rest, e));
        assert [first] + (rest + [e]) == acc + [e];
      }
    }
  }

  // ---- lines that show a value ----

  predicate EntriesShown(lines: seq<Line>, entries: seq<Entry>)
    decreases entries
  {
    if entries == [] then lines == []
    else
      var e := entries[0];
      && EntryWeight(e) <= |lines|
      && EntryShown(lines[..EntryWeight(e)], e)
      && EntriesShown(lines[EntryWeight(e)..], entries[1..])
  }

  predicate EntryShown(lines: seq<Line>, e: Entry)
    decreases e
  {
    && lines != []
    && ':' in lines[0].text && SplitKey(lines[0].text) == e.key
    && ValueShown(lines[1..], SplitRaw(lines[0].text), e.value)
  }

  predicate ValueShown(lines: seq<Line>, raw: string, v: Value)
    decreases v, 1
  {
    if raw != "" then v == ReadScalar(raw)
    else v == Dict([]) || BlockShown(lines, v)
  }

  predicate BlockShown(lines: seq<Line>, v: Value)
    decreases v, 0
  {
    match v
    case Dict(entries) => EntriesShown(lines, entries)
    case List(items) => ItemsShown(lines, items)
    case _ => false
  }

  predicate ItemsShown(lines: seq<Line>, items: seq<Value>)
    decreases items
  {
    if items == [] then lines == []
    else
      var item := items[0];
      && ItemWeight(item) <= |lines|
      && ItemShown(lines[..ItemWeight(item)], item)
      && ItemsShown(lines[ItemWeight(item)..], items[1..])
  }

  predicate ItemShown(lines: seq<Line>, item: Value)
    decreases item, 2
  {
    && lines != [] && IsItem(lines[0].text)
    && var text := Strip(lines[0].text[2..]);
    if EntryLike(text) then
      && item.Dict? && item.entries != []
      && DashEntry(text, item.entries[0])
      && EntriesShown(lines[1..], item.entries[1..])
    else text != "" && item == ReadScalar(text)
  }

  predicate DashEntry(text: string, e: Entry)
    requires ':' in text
  {
    e == Entry(SplitKey(text), if SplitRaw(text) != "" then ReadScalar(SplitRaw(text)) else Dict([]))
  }

  lemma {:induction false} EntriesShownCons(a: seq<Line>, b: seq<Line>, e: Entry, entries: seq<Entry>)
    requires |a| == EntryWeight(e) && EntryShown(a, e) && EntriesShown(b, entries)
    ensures EntriesShown(a + b, [e] + entries)
  {
    assert (a + b)[..|a|] == a && (a + b)[|a|..] == b;
    assert ([e] + entries)[1..] == entries;
  }

  lemma {:induction false} ItemsShownCons(a: seq<Line>, b: seq<Line>, item: Value, items: seq<Value>)
    requires |a| == ItemWeight(item) && ItemShown(a, item) && ItemsShown(b, items)
    ensures ItemsShown(a + b, [item] + items)
  {
    assert (a + b)[..|a|] == a && (a + b)[|a|..] == b;
    assert ([item] + items)[1..] == items;
  }
}
