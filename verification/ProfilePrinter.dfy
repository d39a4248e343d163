/** `render_yaml`: a board profile as indented lines. */
module ProfilePrinter {
  import opened ProfileScalars
  import opened Text
  import opened Wrappers

  /** The generator indexes the first line of every dict that is a list item, so an empty
      one there raises `IndexError`. */
  predicate Renderable(v: Value) {
    match v
    case Dict(entries) => forall e | e in entries :: Renderable(e.value)
    case List(items) => forall item | item in items :: item != Dict([]) && Renderable(item)
    case _ => true
  }

  predicate RenderableEntries(entries: seq<Entry>) {
    forall e | e in entries :: Renderable(e.value)
  }

  predicate RenderableItem(item: Value) {
    item != Dict([]) && Renderable(item)
  }

  predicate RenderableItems(items: seq<Value>) {
    forall item | item in items :: RenderableItem(item)
  }

  function Render(v: Value, indent: nat): (lines: seq<string>)
    requires Renderable(v)
    ensures v.Dict? && v.entries != [] ==> lines != []
    decreases v, 0
  {
    match v
    case Dict(entries) => RenderEntries(entries, indent)
    case List(items) => if items == [] then [Spaces(indent) + "[]"] else RenderItems(items, indent)
    case _ => [Spaces(indent) + ScalarText(v)]
  }

  function RenderEntries(entries: seq<Entry>, indent: nat): (lines: seq<string>)
    requires RenderableEntries(entries)
    ensures entries != [] ==> lines != []
    decreases entries
  {
    if entries == [] then [] else RenderEntry(entries[0], indent) + RenderEntries(entries[1..], indent)
  }

  function RenderEntry(e: Entry, indent: nat): (lines: seq<string>)
    requires Renderable(e.value)
    ensures lines != []
    decreases e
  {
    var start := Spaces(indent) + e.key + ":";
    if e.value == List([]) then [start + " []"]
    else if e.value.IsScalar() then [start + " " + ScalarText(e.value)]
    else [start] + Render(e.value, indent + 2)
  }

  function RenderItems(items: seq<Value>, indent: nat): seq<string>
    requires RenderableItems(items)
    decreases items
  {
    if items == [] then [] else RenderItem(items[0], indent) + RenderItems(items[1..], indent)
  }

  function RenderItem(item: Value, indent: nat): seq<string>
    requires RenderableItem(item)
    decreases item, 1
  {
    match item
    case Dict(entries) =>
      var lines := Render(item, indent + 2);
      [Spaces(indent) + "- " + LStrip(lines[0])] + lines[1..]
    case List(_) => [Spaces(indent) + "-"] + Render(item, indent + 2)
    case _ => [Spaces(indent) + "- " + ScalarText(item)]
  }

  /** The file the generator writes. */
  function ProfileText(v: Value): string
    requires Renderable(v)
  {
    JoinLines(Render(v, 0)) + "\n"
  }

  method RenderYaml(v: Value, indent: nat) returns (r: Option<seq<string>>)
    ensures r == if Renderable(v) then Some(Render(v, indent)) else None
    decreases v, 0
  {
    match v
    case Dict(entries) =>
      r := RenderYamlDict(entries, indent);
    case List(items) =>
      if items == [] {
        return Some([Spaces(indent) + "[]"]);
      }
      r := RenderYamlList(items, indent);
    case _ =>
      return Some([Spaces(indent) + ScalarText(v)]);
  }

  lemma {:induction false} RenderEntriesStep(entries: seq<Entry>, i: nat, indent: nat, lines: seq<string>)
    requires i < |entries| && RenderableEntries(entries)
    ensures RenderableEntries(entries[i..]) && RenderableEntries(entries[i + 1..])
    ensures lines + RenderEntries(entries[i..], indent) ==
      lines + RenderEntry(entries[i], indent) + RenderEntries(entries[i + 1..], indent)
  {
    assert entries[i..][1..] == entries[i + 1..];
  }

  /** The lines are those of the first items, if all items can be printed. */
  ghost predicate RenderedTo(items: seq<Value>, i: nat, indent: nat, lines: seq<string>)
    requires i <= |items|
  {
    && RenderableItems(items[..i])
    && (RenderableItems(items) ==> lines + RenderItems(items[i..], indent) == RenderItems(items, indent))
  }

  lemma {:induction false} RenderedOneMore(items: seq<Value>, i: nat, indent: nat, lines: seq<string>)
    requires i < |items| && RenderedTo(items, i, indent, lines) && RenderableItem(items[i])
    ensures RenderedTo(items, i + 1, indent, lines + RenderItem(items[i], indent))
  {
    assert items[i..][1..] == items[i + 1..];
    assert items[..i + 1] == items[..i] + [items[i]];
  }

  method RenderYamlDict(entries: seq<Entry>, indent: nat) returns (r: Option<seq<string>>)
    ensures r == if RenderableEntries(entries) then Some(RenderEntries(entries, indent)) else None
    decreases entries, 0
  {
    var lines: seq<string> := [];
    for i := 0 to |entries|
      invariant RenderableEntries(entries[..i])
      invariant RenderableEntries(entries) ==>
        lines + RenderEntries(entries[i..], indent) == RenderEntries(entries, indent)
    {
      var e := entries[i];
      var start := Spaces(indent) + e.key + ":";
      ghost var done := lines;
      if RenderableEntries(entries) {
        RenderEntriesStep(entries, i, indent, lines);
      }
      assert entries[..i + 1] == entries[..i] + [e];
      if e.value == List([]) {
        lines := lines + [start + " []"];
      } else if e.value.IsScalar() {
        lines := lines + [start + " " + ScalarText(e.value)];
      } else {
        var child := RenderYaml(e.value, indent + 2);
        if child.None? {
          return None;
        }
        lines := lines + ([start] + child.value);
      }
      assert lines == done + RenderEntry(e, indent);
    }
    assert entries[..|entries|] == entries && entries[|entries|..] == [] && lines + [] == lines;
    return Some(lines);
  }

  method RenderYamlList(items: seq<Value>, indent: nat) returns (r: Option<seq<string>>)
    ensures r == if RenderableItems(items) then Some(RenderItems(items, indent)) else None
    decreases items, 0
  {
    var lines: seq<string> := [];
    for i := 0 to |items|
      invariant RenderedTo(items, i, indent, lines)
    {
      var item := items[i];
      ghost var done := lines;
      if RenderableItem(item) {
        RenderedOneMore(items, i, indent, lines);
      }
      if item.IsScalar() {
        lines := lines + [Spaces(indent) + "- " + ScalarText(item)];
        continue;
      }
      var child := RenderYaml(item, indent + 2);
      if child.None? || (item.Dict? && child.value == []) {
        assert !RenderableItem(item);
        return None;
      }
      if item.Dict? {
        lines := lines + ([Spaces(indent) + "- " + LStrip(child.value[0])] + child.value[1..]);
      } else {
        lines := lines + ([Spaces(indent) + "-"] + child.value);
      }
      assert lines == done + RenderItem(item, indent);
    }
    assert items[..|items|] == items && items[|items|..] == [] && lines + [] == lines;
    return Some(lines);
  }
}
