/** `word_error_rate`: the least number of word insertions, deletions and substitutions that
    turn the reference transcript into the hypothesis, by a dynamic program that keeps two rows. */
module WordErrorRate {
  import opened Text
  import opened Wrappers

  type Words = seq<string>

  // ---- the words of a transcript ----

  predicate IsWordChar(c: char) {
    'a' <= c <= 'z' || IsDigit(c)
  }

  /** The characters of words are the ASCII letters in lower case and the digits. */
  lemma WordCharsExactly(c: char)
    ensures IsWordChar(c) <==> 97 <= c as int <= 122 || 48 <= c as int <= 57
  {
  }

  /** The length of the longest prefix whose characters are all word characters, or all not. */
  function RunLength(s: string, word: bool): (n: nat)
    ensures n <= |s|
  {
    if s != "" && IsWordChar(s[0]) == word then 1 + RunLength(s[1..], word) else 0
  }

  /** Every run of other characters becomes one space. */
  function Collapse(s: string): string
    decreases |s|
  {
    if s == "" then ""
    else if IsWordChar(s[0]) then [s[0]] + Collapse(s[1..])
    else " " + Collapse(s[1 + RunLength(s[1..], false)..])
  }

  function NormalizeTranscript(lower: string -> string, text: string): string {
    Strip(Collapse(lower(text)))
  }

  /** The length of the longest prefix without white space. */
  function TokenLength(s: string): (n: nat)
    ensures n <= |s|
  {
    if s != "" && !IsSpace(s[0]) then 1 + TokenLength(s[1..]) else 0
  }

  /** `str.split()` */
  function Split(s: string): Words
    decreases |s|
  {
    if s == "" then []
    else if IsSpace(s[0]) then Split(s[1..])
    else [s[..TokenLength(s)]] + Split(s[TokenLength(s)..])
  }

  function TranscriptWords(lower: string -> string, text: string): Words {
    var normalized := NormalizeTranscript(lower, text);
    if normalized != "" then Split(normalized) else []
  }

  /** The maximal runs of word characters, read directly off a text. */
  function WordRuns(s: string): Words
    decreases |s|
  {
    if s == "" then []
    else if !IsWordChar(s[0]) then WordRuns(s[1..])
    else [s[..RunLength(s, true)]] + WordRuns(s[RunLength(s, true)..])
  }

  lemma {:induction false} SkipOthers(s: string)
    ensures WordRuns(s) == WordRuns(s[RunLength(s, false)..])
  {
    if s != "" && !IsWordChar(s[0]) {
      SkipOthers(s[1..]);
      assert s[1..][RunLength(s[1..], false)..] == s[RunLength(s, false)..];
    }
  }

  lemma {:induction false} CollapseToken(s: string)
    ensures TokenLength(Collapse(s)) == RunLength(s, true)
    ensures Collapse(s)[..TokenLength(Collapse(s))] == s[..RunLength(s, true)]
    ensures Collapse(s)[TokenLength(Collapse(s))..] == Collapse(s[RunLength(s, true)..])
  {
    if s == "" {
    } else if IsWordChar(s[0]) {
      CollapseToken(s[1..]);
      var n, rest := RunLength(s[1..], true), Collapse(s[1..]);
      assert Collapse(s)[0] == s[0] && Collapse(s)[1..] == rest && !IsSpace(s[0]);
      assert RunLength(s, true) == n + 1 && TokenLength(Collapse(s)) == n + 1;
      assert Collapse(s)[n + 1..] == rest[n..] && s[n + 1..] == s[1..][n..];
      assert Collapse(s)[..n + 1] == [s[0]] + rest[..n] && s[..n + 1] == [s[0]] + s[1..][..n];
    } else {
      assert Collapse(s)[0] == ' ';
      assert TokenLength(Collapse(s)) == 0 && RunLength(s, true) == 0;
    }
  }

  lemma {:induction false} CollapseKeepsRuns(s: string)
    ensures Split(Collapse(s)) == WordRuns(s)
    decreases |s|
  {
    if s == "" {
    } else if IsWordChar(s[0]) {
      CollapseToken(s);
      CollapseKeepsRuns(s[RunLength(s, true)..]);
    } else {
      var rest := s[1 + RunLength(s[1..], false)..];
      SkipOthers(s[1..]);
      assert rest == s[1..][RunLength(s[1..], false)..];
      CollapseKeepsRuns(rest);
      assert Collapse(s)[1..] == Collapse(rest);
    }
  }

  lemma {:induction false} SplitAfterStrip(s: string)
    ensures Split(RStrip(s)) == Split(s)
    decreases |s|
  {
    if s != "" && IsSpace(s[|s| - 1]) {
      SplitAfterStrip(s[..|s| - 1]);
      assert s == s[..|s| - 1] + [s[|s| - 1]];
      SplitTrailing(s[..|s| - 1], s[|s| - 1]);
    }
  }

  lemma {:induction false} SplitTrailing(s: string, c: char)
    requires IsSpace(c)
    ensures Split(s + [c]) == Split(s)
    decreases |s|
  {
    if s == "" {
      assert [c][1..] == "" && s + [c] == [c];
    } else if IsSpace(s[0]) {
      assert (s + [c])[1..] == s[1..] + [c];
      SplitTrailing(s[1..], c);
    } else {
      var n := TokenLength(s);
      TokenTrailing(s, c);
      assert (s + [c])[..n] == s[..n] && (s + [c])[n..] == s[n..] + [c];
      SplitTrailing(s[n..], c);
    }
  }

  lemma {:induction false} TokenTrailing(s: string, c: char)
    requires IsSpace(c)
    ensures TokenLength(s + [c]) == TokenLength(s)
  {
    if s != "" {
      assert (s + [c])[1..] == s[1..] + [c];
      TokenTrailing(s[1..], c);
    }
  }

  lemma {:induction false} SplitLeading(s: string)
    ensures Split(LStrip(s)) == Split(s)
  {
    if s != "" && IsSpace(s[0]) {
      SplitLeading(s[1..]);
    }
  }

  /** Normalising and splitting gives exactly the runs of letters and digits of the lowered text. */
  lemma WordsAreRuns(lower: string -> string, text: string)
    ensures TranscriptWords(lower, text) == WordRuns(lower(text))
  {
    var s := Collapse(lower(text));
    SplitAfterStrip(LStrip(s));
    SplitLeading(s);
    CollapseKeepsRuns(lower(text));
  }

  // ---- edit scripts ----

  datatype Edit = Keep | Substitute(word: string) | Insert(word: string) | Delete {
    function Cost(): nat {
      if Keep? then 0 else 1
    }

    predicate Consumes() {
      !Insert?
    }

    /** The words this edit leaves, given the word it consumes. */
    function Output(consumed: string): Words {
      match this
      case Keep => [consumed]
      case Substitute(word) => [word]
      case Insert(word) => [word]
      case Delete => []
    }
  }

  function Cost(script: seq<Edit>): nat {
    if script == [] then 0 else script[0].Cost() + Cost(script[1..])
  }

  /** The result of a script, read from left to right; it must use up the whole reference. */
  function Apply(script: seq<Edit>, a: Words): Option<Words> {
    if script == [] then
      if a == [] then Some([]) else None
    else if !script[0].Consumes() then
      match Apply(script[1..], a)
      case None => None
      case Some(rest) => Some(script[0].Output("") + rest)
    else if a == [] then None
    else
      match Apply(script[1..], a[1..])
      case None => None
      case Some(rest) => Some(script[0].Output(a[0]) + rest)
  }

  predicate Turns(script: seq<Edit>, a: Words, b: Words) {
    Apply(script, a) == Some(b)
  }

  // ---- the distance of two prefixes ----

  function Min(x: nat, y: nat): nat {
    if x < y then x else y
  }

  function Max(x: nat, y: nat): nat {
    if x < y then y else x
  }

  function Differ(x: string, y: string): nat {
    if x == y then 0 else 1
  }

  function Init(s: Words): Words
    requires s != []
  {
    s[..|s| - 1]
  }

  function Last(s: Words): string
    requires s != []
  {
    s[|s| - 1]
  }

  /** The recurrence behind the table: entry (i, j) is the distance of the prefixes. */
  function Distance(a: Words, b: Words): nat
    decreases |a| + |b|
  {
    if a == [] then |b|
    else if b == [] then |a|
    else
      Min(Min(Distance(Init(a), Init(b)) + Differ(Last(a), Last(b)), Distance(a, Init(b)) + 1),
          Distance(Init(a), b) + 1)
  }

  // ---- a script grows by an edit at its end ----

  lemma {:induction false} CostAppend(p: seq<Edit>, q: seq<Edit>)
    ensures Cost(p + q) == Cost(p) + Cost(q)
  {
    if p == [] {
      assert p + q == q;
    } else {
      assert (p + q)[1..] == p[1..] + q;
      CostAppend(p[1..], q);
    }
  }

  function Extend(r: Option<Words>, more: Words): Option<Words> {
    if r.None? then None else Some(r.value + more)
  }

  lemma ExtendPrepended(x: Words, r: Option<Words>, y: Words)
    requires r.Some?
    ensures Extend(Some(x + r.value), y) == Some(x + Extend(r, y).value)
  {
    assert x + r.value + y == x + (r.value + y);
  }

  /** The bracketing of the words of the first, middle and last edits. */
  lemma {:induction false} ExtendTail(script: seq<Edit>, e: Edit, a: Words, rest: Words, first: Words)
    requires script != []
    ensures
      var r :=
        if !e.Consumes() then Apply(script[1..], rest)
        else if rest == [] then None else Apply(script[1..], Init(rest));
      var out := e.Output(if !e.Consumes() || rest == [] then "" else Last(rest));
      r.Some? ==> Extend(Some(first + r.value), out) == Some(first + Extend(r, out).value)
  {
    var r :=
      if !e.Consumes() then Apply(script[1..], rest)
      else if rest == [] then None else Apply(script[1..], Init(rest));
    if r.Some? {
      ExtendPrepended(first, r, e.Output(if !e.Consumes() || rest == [] then "" else Last(rest)));
    }
  }

  lemma {:induction false} ApplyAtEnd(script: seq<Edit>, e: Edit, a: Words)
    ensures Apply(script + [e], a) ==
      if !e.Consumes() then Extend(Apply(script, a), e.Output(""))
      else if a == [] then None
      else Extend(Apply(script, Init(a)), e.Output(Last(a)))
  {
    var whole := script + [e];
    if script == [] {
      assert whole[1..] == [];
      var out := e.Output(if a == [] || !e.Consumes() then "" else a[0]);
      assert out + [] == out && [] + out == out;
      assert a != [] ==> (a[1..] == [] <==> Init(a) == []);
    } else {
      assert whole[1..] == script[1..] + [e];
      if !script[0].Consumes() {
        ApplyAtEnd(script[1..], e, a);
        ExtendTail(script, e, a, a, script[0].Output(""));
      } else if a != [] {
        ApplyAtEnd(script[1..], e, a[1..]);
        if |a| > 1 {
          assert Init(a)[1..] == Init(a[1..]);
        }
        ExtendTail(script, e, a, a[1..], script[0].Output(a[0]));
      }
    }
  }

  // ---- the distance is the least cost of a script ----

  /** Some script attains the distance. */
  lemma {:induction false} Attained(a: Words, b: Words) returns (script: seq<Edit>)
    ensures Turns(script, a, b) && Cost(script) == Distance(a, b)
    decreases |a| + |b|
  {
    var e: Edit;
    if a == [] && b == [] {
      return [];
    } else if a == [] || (b != [] && Distance(a, b) == Distance(a, Init(b)) + 1) {
      script := Attained(a, Init(b));
      e := Insert(Last(b));
      assert Init(b) + [Last(b)] == b;
    } else if b == [] || Distance(a, b) == Distance(Init(a), b) + 1 {
      script := Attained(Init(a), b);
      e := Delete;
      assert b + [] == b;
    } else {
      script := Attained(Init(a), Init(b));
      e := if Last(a) == Last(b) then Keep else Substitute(Last(b));
      assert Init(b) + [Last(b)] == b;
    }
    ApplyAtEnd(script, e, a);
    CostAppend(script, [e]);
    script := script + [e];
  }

  lemma {:induction false} DistanceToEnds(a: Words, b: Words)
    ensures a != [] ==> Distance(a, b) <= Distance(Init(a), b) + 1
    ensures b != [] ==> Distance(a, b) <= Distance(a, Init(b)) + 1
    ensures a != [] && b != [] ==> Distance(a, b) <= Distance(Init(a), Init(b)) + Differ(Last(a), Last(b))
  {
  }

  /** No script is cheaper. */
  lemma {:induction false} NoneCheaper(script: seq<Edit>, a: Words, b: Words)
    requires Turns(script, a, b)
    ensures Distance(a, b) <= Cost(script)
    decreases |script|
  {
    if script != [] {
      var before, e := script[..|script| - 1], script[|script| - 1];
      assert before + [e] == script;
      ApplyAtEnd(before, e, a);
      CostAppend(before, [e]);
      DistanceToEnds(a, b);
      var a', out := if e.Consumes() then Init(a) else a, e.Output(if e.Consumes() then Last(a) else "");
      var b' := Apply(before, a').value;
      assert b == b' + out;
      NoneCheaper(before, a', b');
      if out == [] {
        assert b == b';
      } else {
        assert Init(b) == b' && Last(b) == out[0];
      }
    }
  }

  // ---- the distance is a metric ----

  lemma {:induction false} Symmetric(a: Words, b: Words)
    ensures Distance(a, b) == Distance(b, a)
    decreases |a| + |b|
  {
    if a != [] && b != [] {
      Symmetric(Init(a), Init(b));
      Symmetric(a, Init(b));
      Symmetric(Init(a), b);
    }
  }

  /** At least the difference of the lengths, at most the larger length. */
  lemma {:induction false} Bounds(a: Words, b: Words)
    ensures |a| - |b| <= Distance(a, b) && |b| - |a| <= Distance(a, b)
    ensures Distance(a, b) <= Max(|a|, |b|)
    decreases |a| + |b|
  {
    if a != [] && b != [] {
      Bounds(Init(a), Init(b));
      Bounds(a, Init(b));
      Bounds(Init(a), b);
    }
  }

  lemma {:induction false} ZeroIffEqual(a: Words, b: Words)
    ensures Distance(a, b) == 0 <==> a == b
    decreases |a|
  {
    if a != [] && b != [] {
      ZeroIffEqual(Init(a), Init(b));
      assert a == Init(a) + [Last(a)] && b == Init(b) + [Last(b)];
    }
  }

  /** One script for two scripts in a row. */
  function Compose(p: seq<Edit>, q: seq<Edit>): seq<Edit>
    decreases |p| + |q|
  {
    if p == [] then q
    else if p[0].Delete? then [Delete] + Compose(p[1..], q)
    else if q == [] then []
    else if q[0].Insert? then [q[0]] + Compose(p, q[1..])
    else Both(p[0], q[0]) + Compose(p[1..], q[1..])
  }

  /** The first edit leaves one word and the second consumes it. */
  function Both(e: Edit, f: Edit): seq<Edit>
    requires !e.Delete? && !f.Insert?
  {
    match f
    case Keep => [e]
    case Substitute(word) => [if e.Insert? then Insert(word) else Substitute(word)]
    case _ => if e.Insert? then [] else [Delete]
  }

  lemma {:induction false} ApplyFirst(e: Edit, script: seq<Edit>, a: Words)
    ensures ([e] + script)[0] == e && ([e] + script)[1..] == script
    ensures e.Consumes() && a != [] && Apply(script, a[1..]).Some? ==>
      Apply([e] + script, a) == Some(e.Output(a[0]) + Apply(script, a[1..]).value)
    ensures !e.Consumes() && Apply(script, a).Some? ==>
      Apply([e] + script, a) == Some(e.Output("") + Apply(script, a).value)
    ensures Cost([e] + script) == e.Cost() + Cost(script)
  {
  }

  lemma {:induction false} ComposeTurns(p: seq<Edit>, q: seq<Edit>, a: Words, b: Words, c: Words)
    requires Turns(p, a, b) && Turns(q, b, c)
    ensures Turns(Compose(p, q), a, c)
    ensures Cost(Compose(p, q)) <= Cost(p) + Cost(q)
    decreases |p| + |q|
  {
    if p == [] {
    } else if p[0].Delete? {
      assert [] + Apply(p[1..], a[1..]).value == Apply(p[1..], a[1..]).value && [] + c == c;
      ComposeTurns(p[1..], q, a[1..], b, c);
      ApplyFirst(Delete, Compose(p[1..], q), a);
    } else if q == [] {
      assert false;
    } else if q[0].Insert? {
      var c' := Apply(q[1..], b).value;
      ComposeTurns(p, q[1..], a, b, c');
      ApplyFirst(q[0], Compose(p, q[1..]), a);
    } else {
      ComposeHeads(p, q, a, b, c);
    }
  }

  lemma {:induction false} ComposeHeads(p: seq<Edit>, q: seq<Edit>, a: Words, b: Words, c: Words)
    requires Turns(p, a, b) && Turns(q, b, c)
    requires p != [] && q != [] && !p[0].Delete? && !q[0].Insert?
    ensures Turns(Compose(p, q), a, c)
    ensures Cost(Compose(p, q)) <= Cost(p) + Cost(q)
    decreases |p| + |q|, 0
  {
    var a' := if p[0].Consumes() then a[1..] else a;
    var b' := Apply(p[1..], a').value;
    var x := p[0].Output(if p[0].Consumes() then a[0] else "");
    assert b == x + b' && b[0] == x[0] && b[1..] == b';
    var c' := Apply(q[1..], b').value;
    var rest := Compose(p[1..], q[1..]);
    ComposeTurns(p[1..], q[1..], a', b', c');
    var both := Both(p[0], q[0]);
    if both != [] {
      ApplyFirst(both[0], rest, a);
      assert both == [both[0]];
    } else {
      assert [] + rest == rest && [] + c' == c';
    }
  }

  lemma {:induction false} Triangle(a: Words, b: Words, c: Words)
    ensures Distance(a, c) <= Distance(a, b) + Distance(b, c)
  {
    var p := Attained(a, b);
    var q := Attained(b, c);
    ComposeTurns(p, q, a, b, c);
    NoneCheaper(Compose(p, q), a, c);
  }

  // ---- the program ----

  /** The first n + 1 entries of the table row of the prefix a. */
  predicate IsRow(row: seq<nat>, a: Words, b: Words, n: nat) {
    n <= |b| && |row| == n + 1 && forall j :: 0 <= j <= n ==> row[j] == Distance(a, b[..j])
  }

  lemma RowGrows(a: Words, b: Words, previous: seq<nat>, current: seq<nat>, j: nat, cell: nat)
    requires a != [] && j < |b|
    requires IsRow(previous, Init(a), b, |b|) && IsRow(current, a, b, j)
    requires cell == Min(Min(previous[j] + Differ(Last(a), b[j]), current[j] + 1), previous[j + 1] + 1)
    ensures IsRow(current + [cell], a, b, j + 1)
  {
    var c := b[..j + 1];
    assert Init(c) == b[..j] && Last(c) == b[j];
    assert cell == Distance(a, c);
  }

  /** The last entry of the last row, over the words of both transcripts. */
  method RowDistance(reference: Words, hypothesis: Words) returns (distance: nat)
    ensures distance == Distance(reference, hypothesis)
  {
    var previous: seq<nat> := seq(|hypothesis| + 1, j => j);
    for i := 0 to |reference|
      invariant IsRow(previous, reference[..i], hypothesis, |hypothesis|)
    {
      var current: seq<nat> := [i + 1];
      ghost var a := reference[..i + 1];
      assert Init(a) == reference[..i];
      for j := 0 to |hypothesis|
        invariant IsRow(current, a, hypothesis, j)
      {
        var substitution := previous[j] + Differ(reference[i], hypothesis[j]);
        var insertion := current[j] + 1;
        var deletion := previous[j + 1] + 1;
        var cell := Min(Min(substitution, insertion), deletion);
        RowGrows(a, hypothesis, previous, current, j, cell);
        current := current + [cell];
      }
      previous := current;
    }
    assert reference[..|reference|] == reference && hypothesis[..|hypothesis|] == hypothesis;
    return previous[|hypothesis|];
  }

  lemma RatioBounds(d: nat, n: nat)
    requires n > 0
    ensures var r := d as real / n as real; 0.0 <= r && (r == 0.0 <==> d == 0) && (d <= n ==> r <= 1.0)
  {
    var r := d as real / n as real;
    assert r * n as real == d as real;
  }

  /** The rate before it is rounded to four digits; `lower` is Python's lower-casing. */
  method Rate(lower: string -> string, reference: string, hypothesis: string) returns (rate: real)
    ensures
      var a, b := WordRuns(lower(reference)), WordRuns(lower(hypothesis));
      && (rate == 0.0 <==> a == b)
      && (a != [] ==> rate == Distance(a, b) as real / |a| as real)
      && (a == [] && b != [] ==> rate == 1.0)
      && (|b| <= |a| ==> 0.0 <= rate <= 1.0)
  {
    var a, b := TranscriptWords(lower, reference), TranscriptWords(lower, hypothesis);
    WordsAreRuns(lower, reference);
    WordsAreRuns(lower, hypothesis);
    if a == [] {
      return if b == [] then 0.0 else 1.0;
    }
    var distance := RowDistance(a, b);
    ZeroIffEqual(a, b);
    Bounds(a, b);
    RatioBounds(distance, |a|);
    return distance as real / |a| as real;
  }
}
