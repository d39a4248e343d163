/** The fallback reader of board profiles: lines with their indentation, and three mutually
    recursive parsers over them. The functions work on the lines still to be read; the
    methods are the reader's own loops over an index. */
module ProfileReader {
  import opened Text
  import opened ProfileScalars

  datatype Line = Line(indent: nat, text: string)

  datatype Error =
    | UnexpectedIndentation(text: string)
    | ExpectedEntry(text: string)
    | ExpectedItemEntry(text: string)
    | UnreadLines(index: nat)

  datatype Parsed<T> = Ok(value: T, rest: seq<Line>) | Err(error: Error)

  // ---- lines ----

  function LeadingSpaces(s: string): nat {
    if s != "" && s[0] == ' ' then 1 + LeadingSpaces(s[1..]) else 0
  }

  function WithoutComment(raw: string): string {
    RStrip(BeforeComment(raw, false, false))
  }

  function ReadLines(raws: seq<string>): (lines: seq<Line>)
    ensures forall l :: l in lines ==> Trimmed(l.text) && l.text != ""
  {
    if raws == [] then []
    else
      var line := WithoutComment(raws[0]);
      StripTrims(line);
      if Strip(line) == "" then ReadLines(raws[1..])
      else [Line(LeadingSpaces(line), Strip(line))] + ReadLines(raws[1..])
  }

  // ---- parsing ----

  predicate IsItem(text: string) {
    StartsWith(text, "- ")
  }

  /** `text.split(":", 1)`, both parts stripped. */
  function SplitKey(text: string): string
    requires ':' in text
  {
    Strip(text[..Find(text, ':')])
  }

  function SplitRaw(text: string): string
    requires ':' in text
  {
    Strip(text[Find(text, ':') + 1..])
  }

  /** `result[key] = value` on a dict in insertion order. */
  function Put(entries: seq<Entry>, e: Entry): (r: seq<Entry>)
    ensures e in r
    ensures |entries| <= |r| <= |entries| + 1
  {
    if entries == [] then [e]
    else if entries[0].key == e.key then [e] + entries[1..]
    else [entries[0]] + Put(entries[1..], e)
  }

  predicate IsRest(rest: seq<Line>, lines: seq<Line>) {
    |rest| <= |lines| && rest == lines[|lines| - |rest|..]
  }

  predicate Advances<T>(r: Parsed<T>, lines: seq<Line>) {
    r.Ok? ==> IsRest(r.rest, lines)
  }

  function ParseBlock(lines: seq<Line>, indent: nat): (r: Parsed<Value>)
    ensures Advances(r, lines)
    decreases |lines|, 3
  {
    if lines == [] || lines[0].indent < indent then Ok(Dict([]), lines)
    else if IsItem(lines[0].text) then
      match ParseList(lines, lines[0].indent, [])
      case Err(e) => Err(e)
      case Ok(items, rest) => Ok(List(items), rest)
    else
      match ParseDict(lines, lines[0].indent, [])
      case Err(e) => Err(e)
      case Ok(entries, rest) => Ok(Dict(entries), rest)
  }

  /** The value of a key whose line ended in `raw`; `lines` are those after the key. */
  function ParseValue(lines: seq<Line>, keyIndent: nat, raw: string): (r: Parsed<Value>)
    ensures Advances(r, lines)
    decreases |lines|, 4
  {
    if raw != "" then Ok(ReadScalar(raw), lines)
    else if lines == [] || lines[0].indent <= keyIndent then Ok(Dict([]), lines)
    else ParseBlock(lines, lines[0].indent)
  }

  function ParseDict(lines: seq<Line>, indent: nat, acc: seq<Entry>): (r: Parsed<seq<Entry>>)
    ensures Advances(r, lines)
    decreases |lines|, 2
  {
    if lines == [] || lines[0].indent < indent then Ok(acc, lines)
    else
      var text := lines[0].text;
      if lines[0].indent > indent then Err(UnexpectedIndentation(text))
      else if IsItem(text) then Ok(acc, lines)
      else if ':' !in text then Err(ExpectedEntry(text))
      else
        match ParseValue(lines[1..], indent, SplitRaw(text))
        case Err(e) => Err(e)
        case Ok(v, rest) => ParseDict(rest, indent, Put(acc, Entry(SplitKey(text), v)))
  }

  function ParseList(lines: seq<Line>, indent: nat, acc: seq<Value>): (r: Parsed<seq<Value>>)
    ensures Advances(r, lines)
    decreases |lines|, 2
  {
    if lines == [] || lines[0].indent != indent || !IsItem(lines[0].text) then Ok(acc, lines)
    else
      match ParseItem(lines)
      case Err(e) => Err(e)
      case Ok(v, rest) => ParseList(rest, indent, acc + [v])
  }

  /** One item: nothing after the dash, a dict opened on the same line, or a scalar. */
  function ParseItem(lines: seq<Line>): (r: Parsed<Value>)
    requires lines != [] && IsItem(lines[0].text)
    ensures Advances(r, lines) && (r.Ok? ==> |r.rest| < |lines|)
    decreases |lines|, 1
  {
    var text, rest := Strip(lines[0].text[2..]), lines[1..];
    if text == "" then
      if rest == [] || rest[0].indent <= lines[0].indent then Ok(Null, rest)
      else ParseBlock(rest, rest[0].indent)
    else if EntryLike(text) then
      var raw := SplitRaw(text);
      var first := Entry(SplitKey(text), if raw != "" then ReadScalar(raw) else Dict([]));
      match ParseItemEntries(rest, lines[0].indent, [first])
      case Err(e) => Err(e)
      case Ok(entries, after) => Ok(Dict(entries), after)
    else Ok(ReadScalar(text), rest)
  }

  /** The further entries of a dict item: every deeper line up to the next dash. */
  function ParseItemEntries(lines: seq<Line>, indent: nat, acc: seq<Entry>): (r: Parsed<seq<Entry>>)
    ensures Advances(r, lines)
    decreases |lines|, 2
  {
    if lines == [] || lines[0].indent <= indent || IsItem(lines[0].text) then Ok(acc, lines)
    else
      var text := lines[0].text;
      if ':' !in text then Err(ExpectedItemEntry(text))
      else
        match ParseValue(lines[1..], lines[0].indent, SplitRaw(text))
        case Err(e) => Err(e)
        case Ok(v, rest) => ParseItemEntries(rest, indent, Put(acc, Entry(SplitKey(text), v)))
  }

  datatype Outcome = Loaded(value: Value) | Failed(error: Error)

  /** `parse_simple_yaml` on lines: every line must be read. */
  function ParseDocument(lines: seq<Line>): Outcome {
    if lines == [] then Loaded(Dict([]))
    else
      match ParseBlock(lines, lines[0].indent)
      case Err(e) => Failed(e)
      case Ok(v, rest) => if rest == [] then Loaded(v) else Failed(UnreadLines(|lines| - |rest|))
  }

  function LoadProfile(text: string): Outcome {
    ParseDocument(ReadLines(SplitLines(text)))
  }

  // ---- the reader's loops ----

  lemma {:induction false} BeforeCommentFirst(c: char, rest: string, inSingle: bool, inDouble: bool)
    ensures BeforeComment([c] + rest, inSingle, inDouble) ==
      if c == '\'' && !inDouble then [c] + BeforeComment(rest, !inSingle, inDouble)
      else if c == '"' && !inSingle then [c] + BeforeComment(rest, inSingle, !inDouble)
      else if c == '#' && !inSingle && !inDouble then ""
      else [c] + BeforeComment(rest, inSingle, inDouble)
  {
    assert ([c] + rest)[1..] == rest;
  }

  lemma TakeOneMore(line: string, index: nat, tail: string)
    requires index < |line|
    ensures line[..index] + ([line[index]] + tail) == line[..index + 1] + tail
  {
  }

  lemma {:induction false} BeforeCommentStep(line: string, index: nat, inSingle: bool, inDouble: bool)
    requires index < |line|
    ensures
      var c, rest := line[index], line[index + 1..];
      line[..index] + BeforeComment(line[index..], inSingle, inDouble) ==
      if c == '\'' && !inDouble then line[..index + 1] + BeforeComment(rest, !inSingle, inDouble)
      else if c == '"' && !inSingle then line[..index + 1] + BeforeComment(rest, inSingle, !inDouble)
      else if c == '#' && !inSingle && !inDouble then line[..index]
      else line[..index + 1] + BeforeComment(rest, inSingle, inDouble)
  {
    var c, rest := line[index], line[index + 1..];
    assert line[index..] == [c] + rest;
    BeforeCommentFirst(c, rest, inSingle, inDouble);
    var single := if c == '\'' && !inDouble then !inSingle else inSingle;
    var double := if c == '"' && !inSingle then !inDouble else inDouble;
    TakeOneMore(line, index, BeforeComment(rest, single, double));
  }

  method StripComment(line: string) returns (r: string)
    ensures r == BeforeComment(line, false, false)
  {
    var inSingle, inDouble := false, false;
    for index := 0 to |line|
      invariant BeforeComment(line, false, false) ==
        line[..index] + BeforeComment(line[index..], inSingle, inDouble)
    {
      BeforeCommentStep(line, index, inSingle, inDouble);
      var c := line[index];
      if c == '\'' && !inDouble {
        inSingle := !inSingle;
      } else if c == '"' && !inSingle {
        inDouble := !inDouble;
      } else if c == '#' && !inSingle && !inDouble {
        return line[..index];
      }
    }
    assert line[..|line|] == line;
    return line;
  }

  method YamlLines(text: string) returns (parsed: seq<Line>)
    ensures parsed == ReadLines(SplitLines(text))
  {
    parsed := [];
    var raws := SplitLines(text);
    for i := 0 to |raws|
      invariant parsed + ReadLines(raws[i..]) == ReadLines(raws)
    {
      var line := StripComment(raws[i]);
      line := RStrip(line);
      assert raws[i..][1..] == raws[i + 1..];
      if Strip(line) != "" {
        parsed := parsed + [Line(LeadingSpaces(line), Strip(line))];
      }
    }
  }

  /** A result of a method that returns a value and the next index. */
  datatype Step<T> = Next(value: T, index: nat) | Raise(error: Error)

  /** The step stands for the parse of the lines from `index` on. */
  predicate Stands<T(==)>(step: Step<T>, lines: seq<Line>, index: nat, r: Parsed<T>) {
    match r
    case Err(e) => step == Raise(e)
    case Ok(v, rest) => step.Next? && step.value == v && index <= step.index <= |lines| && lines[step.index..] == rest
  }

  method ParseYamlBlock(lines: seq<Line>, index: nat, indent: nat) returns (r: Step<Value>)
    requires index <= |lines|
    ensures Stands(r, lines, index, ParseBlock(lines[index..], indent))
    decreases |lines| - index, 3
  {
    if index >= |lines| {
      return Next(Dict([]), index);
    }
    var Line(currentIndent, text) := lines[index];
    if currentIndent < indent {
      return Next(Dict([]), index);
    }
    if IsItem(text) {
      var items := ParseYamlList(lines, index, currentIndent);
      return match items case Raise(e) => Raise(e) case Next(v, i) => Next(List(v), i);
    }
    var entries := ParseYamlDict(lines, index, currentIndent);
    return match entries case Raise(e) => Raise(e) case Next(v, i) => Next(Dict(v), i);
  }

  /** What both entry loops do after a key, `index` being the line after it. */
  method ParseYamlValue(lines: seq<Line>, index: nat, keyIndent: nat, raw: string) returns (r: Step<Value>)
    requires index <= |lines|
    ensures Stands(r, lines, index, ParseValue(lines[index..], keyIndent, raw))
    decreases |lines| - index, 4
  {
    if raw != "" {
      return Next(ReadScalar(raw), index);
    }
    if index >= |lines| || lines[index].indent <= keyIndent {
      return Next(Dict([]), index);
    }
    r := ParseYamlBlock(lines, index, lines[index].indent);
  }

  lemma {:induction false} ParseDictStep(lines: seq<Line>, index: nat, indent: nat, acc: seq<Entry>, value: Step<Value>)
    requires index < |lines| && lines[index].indent == indent
    requires !IsItem(lines[index].text) && ':' in lines[index].text
    requires Stands(value, lines, index + 1, ParseValue(lines[index + 1..], indent, SplitRaw(lines[index].text)))
    ensures value.Raise? ==> ParseDict(lines[index..], indent, acc) == Err(value.error)
    ensures value.Next? ==>
      ParseDict(lines[index..], indent, acc) ==
      ParseDict(lines[value.index..], indent, Put(acc, Entry(SplitKey(lines[index].text), value.value)))
  {
    assert lines[index..][1..] == lines[index + 1..];
  }

  method ParseYamlDict(lines: seq<Line>, start: nat, indent: nat) returns (r: Step<seq<Entry>>)
    requires start <= |lines|
    ensures Stands(r, lines, start, ParseDict(lines[start..], indent, []))
    decreases |lines| - start, 2
  {
    ghost var parsed := ParseDict(lines[start..], indent, []);
    var result: seq<Entry>, index := [], start;
    while index < |lines|
      invariant start <= index <= |lines|
      invariant parsed == ParseDict(lines[index..], indent, result)
    {
      var Line(currentIndent, text) := lines[index];
      if currentIndent < indent {
        break;
      }
      if currentIndent > indent {
        return Raise(UnexpectedIndentation(text));
      }
      if IsItem(text) {
        break;
      }
      if ':' !in text {
        return Raise(ExpectedEntry(text));
      }
      var value := ParseYamlValue(lines, index + 1, currentIndent, SplitRaw(text));
      ParseDictStep(lines, index, indent, result, value);
      if value.Raise? {
        return Raise(value.error);
      }
      result, index := Put(result, Entry(SplitKey(text), value.value)), value.index;
    }
    return Next(result, index);
  }

  method ParseYamlList(lines: seq<Line>, start: nat, indent: nat) returns (r: Step<seq<Value>>)
    requires start <= |lines|
    ensures Stands(r, lines, start, ParseList(lines[start..], indent, []))
    decreases |lines| - start, 2
  {
    ghost var parsed := ParseList(lines[start..], indent, []);
    var result: seq<Value>, index := [], start;
    while index < |lines|
      invariant start <= index <= |lines|
      invariant parsed == ParseList(lines[index..], indent, result)
    {
      var Line(currentIndent, text) := lines[index];
      if currentIndent < indent {
        break;
      }
      if currentIndent != indent || !IsItem(text) {
        break;
      }
      var item := ParseYamlItem(lines, index);
      if item.Raise? {
        return Raise(item.error);
      }
      result, index := result + [item.value], item.index;
    }
    return Next(result, index);
  }

  /** The body of the list loop for one item. */
  method ParseYamlItem(lines: seq<Line>, start: nat) returns (r: Step<Value>)
    requires start < |lines| && IsItem(lines[start].text)
    ensures Stands(r, lines, start, ParseItem(lines[start..]))
    ensures r.Next? ==> r.index > start
    decreases |lines| - start, 1
  {
    var Line(currentIndent, text) := lines[start];
    var itemText := Strip(text[2..]);
    var index := start + 1;
    assert lines[start..][1..] == lines[index..];
    if itemText == "" {
      if index >= |lines| || lines[index].indent <= currentIndent {
        return Next(Null, index);
      }
      r := ParseYamlBlock(lines, index, lines[index].indent);
      return;
    }
    if !EntryLike(itemText) {
      return Next(ReadScalar(itemText), index);
    }
    var raw := SplitRaw(itemText);
    var first := Entry(SplitKey(itemText), if raw != "" then ReadScalar(raw) else Dict([]));
    var entries := ParseYamlItemEntries(lines, index, currentIndent, [first]);
    return match entries case Raise(e) => Raise(e) case Next(v, i) => Next(Dict(v), i);
  }

  lemma {:induction false} ParseItemEntriesStep(lines: seq<Line>, index: nat, indent: nat, acc: seq<Entry>,
      value: Step<Value>)
    requires index < |lines| && lines[index].indent > indent
    requires !IsItem(lines[index].text) && ':' in lines[index].text
    requires Stands(value, lines, index + 1,
      ParseValue(lines[index + 1..], lines[index].indent, SplitRaw(lines[index].text)))
    ensures value.Raise? ==> ParseItemEntries(lines[index..], indent, acc) == Err(value.error)
    ensures value.Next? ==>
      ParseItemEntries(lines[index..], indent, acc) ==
      ParseItemEntries(lines[value.index..], indent, Put(acc, Entry(SplitKey(lines[index].text), value.value)))
  {
    assert lines[index..][1..] == lines[index + 1..];
  }

  /** The inner loop of the list loop: the further entries of a dict item. */
  method ParseYamlItemEntries(lines: seq<Line>, start: nat, currentIndent: nat, first: seq<Entry>)
    returns (r: Step<seq<Entry>>)
    requires start <= |lines|
    ensures Stands(r, lines, start, ParseItemEntries(lines[start..], currentIndent, first))
    decreases |lines| - start, 2
  {
    ghost var parsed := ParseItemEntries(lines[start..], currentIndent, first);
    var itemDict, index := first, start;
    while index < |lines| && lines[index].indent > currentIndent
      invariant start <= index <= |lines|
      invariant parsed == ParseItemEntries(lines[index..], currentIndent, itemDict)
    {
      var Line(childIndent, childText) := lines[index];
      if IsItem(childText) {
        break;
      }
      if ':' !in childText {
        return Raise(ExpectedItemEntry(childText));
      }
      var value := ParseYamlValue(lines, index + 1, childIndent, SplitRaw(childText));
      ParseItemEntriesStep(lines, index, currentIndent, itemDict, value);
      if value.Raise? {
        return Raise(value.error);
      }
      itemDict, index := Put(itemDict, Entry(SplitKey(childText), value.value)), value.index;
    }
    return Next(itemDict, index);
  }

  method ParseSimpleYaml(text: string) returns (r: Outcome)
    ensures r == LoadProfile(text)
  {
    var lines := YamlLines(text);
    r := ParseLines(lines);
  }

  method ParseLines(lines: seq<Line>) returns (r: Outcome)
    ensures r == ParseDocument(lines)
  {
    if lines == [] {
      return Loaded(Dict([]));
    }
    var block := ParseYamlBlock(lines, 0, lines[0].indent);
    assert lines[0..] == lines;
    if block.Raise? {
      return Failed(block.error);
    }
    if block.index != |lines| {
      return Failed(UnreadLines(block.index));
    }
    return Loaded(block.value);
  }
}
