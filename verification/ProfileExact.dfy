/** The round trip of a profile through its file, and exactly when it is one: a profile that the
    reader takes back unchanged is faithful, because its lines are read without loss. */
module ProfileExact {
  import opened Text
  import opened ProfileScalars
  import opened ProfilePrinter
  import opened ProfileReader
  import opened ProfileLines
  import opened ProfileRoundTrip
  import opened ProfileReading
  import opened ProfileShown
  import opened ProfileWeight

  // ---- the theorem ----

  /** Printing the profile succeeds and reading the file gives the same tree. */
  predicate RoundTrips(v: Value) {
    Renderable(v) && LoadProfile(ProfileText(v)) == Loaded(v)
  }

  lemma {:induction false} FaithfulRenderable(v: Value)
    requires Faithful(v)
    ensures Renderable(v)
  {
    match v
    case Dict(entries) =>
      forall e | e in entries ensures Renderable(e.value) {
        FaithfulRenderable(e.value);
      }
    case List(items) =>
      forall item | item in items ensures item != Dict([]) && Renderable(item) {
        if !item.IsScalar() {
          FaithfulRenderable(item);
        }
      }
    case _ =>
  }

  lemma {:induction false} DocumentIsDict(entries: seq<Entry>)
    requires entries != [] && WellFormedEntry(entries[0])
    ensures ParseDocument(DictLines(entries, 0)) == Loaded(Dict(entries)) <==>
      ParseDict(DictLines(entries, 0), 0, []) == Ok(entries, [])
  {
    var lines := DictLines(entries, 0);
    DictLinesUnfold(entries, 0, []);
    assert lines + [] == lines;
    EntrySplits(entries[0]);
    DictDocument(lines, entries);
  }

  lemma {:induction false} DictDocument(lines: seq<Line>, entries: seq<Entry>)
    requires lines != [] && !IsItem(lines[0].text)
    ensures ParseDocument(lines) == Loaded(Dict(entries)) <==> ParseDict(lines, lines[0].indent, []) == Ok(entries, [])
  {
  }

  /** Every faithful profile, at any depth, is read back unchanged and to its last line. */
  lemma {:induction false} FaithfulRoundTrips(v: Value)
    requires v.Dict? && WellFormed(v) && Faithful(v)
    ensures RoundTrips(v)
  {
    var entries := v.entries;
    FaithfulRenderable(v);
    ProfileTextLines(v);
    if entries != [] {
      assert forall e | e in entries :: WellFormedEntry(e);
      assert WellFormedEntry(entries[0]);
      DocumentIsDict(entries);
      EntriesRead(entries, 0, [], []);
      assert DictLines(entries, 0) + [] == DictLines(entries, 0) && [] + entries == entries;
    }
  }

  lemma {:induction false} DictLinesTrimmed(entries: seq<Entry>, raws: seq<string>)
    requires ReadLines(raws) == DictLines(entries, 0)
    ensures TrimmedLines(DictLines(entries, 0))
  {
  }

  /** A profile is read back unchanged exactly when it is faithful. */
  lemma {:induction false} RoundTripsExactly(v: Value)
    requires v.Dict? && WellFormed(v)
    ensures RoundTrips(v) <==> Faithful(v)
  {
    if Faithful(v) {
      FaithfulRoundTrips(v);
    } else if RoundTrips(v) && v.entries != [] {
      var entries := v.entries;
      var lines := DictLines(entries, 0);
      assert forall e | e in entries :: WellFormedEntry(e);
      assert WellFormedEntry(entries[0]);
      ProfileTextLines(v);
      DictLinesTrimmed(entries, SplitLines(ProfileText(v)));
      DocumentIsDict(entries);
      EntriesReadBack(lines, 0, []);
      assert Used(lines, ParseDict(lines, 0, []).rest) == lines;
      ReadableEntries(entries, 0);
      EntriesCount(entries, 0);
      assert entries[0..] == entries;
      ShownEntries(entries, 0);
    }
  }
}
