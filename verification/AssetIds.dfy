/** The ids of a board's asset library: made unique, and kept when the library is built again. */
module AssetIds {
  import opened Text
  import opened Wrappers

  function Take(s: string, n: nat): string {
    if |s| <= n then s else s[..n]
  }

  function Typed(preferred: string, mediaType: string): string {
    Take(mediaType + "_" + preferred, 80)
  }

  function Candidate(typed: string, suffix: nat): string {
    Take(typed, 75) + "_" + NatText(suffix)
  }

  lemma {:induction false} CandidateInjective(typed: string, m: nat, n: nat)
    requires Candidate(typed, m) == Candidate(typed, n)
    ensures m == n
  {
    var head := Take(typed, 75) + "_";
    assert Candidate(typed, m)[|head|..] == NatText(m);
    assert Candidate(typed, n)[|head|..] == NatText(n);
    NatTextInjective(m, n);
  }

  /** The id that a file gets when some ids are taken: the preferred one, else the one with its
      media type, else the first numbered one that is free. */
  ghost predicate IsDeduped(preferred: string, mediaType: string, used: set<string>, id: string) {
    var typed := Typed(preferred, mediaType);
    if preferred !in used then id == preferred
    else if typed !in used then id == typed
    else exists n | n >= 2 :: IsFirstFree(typed, used, n) && id == Candidate(typed, n)
  }

  ghost predicate IsFirstFree(typed: string, used: set<string>, n: nat) {
    Candidate(typed, n) !in used && forall k | 2 <= k < n :: Candidate(typed, k) in used
  }

  /** `_dedupe_asset_id`. Its search ends because the numbered ids are all different and only
      finitely many ids are taken. */
  method DedupeAssetId(preferred: string, mediaType: string, used: set<string>)
    returns (id: string, nowUsed: set<string>)
    ensures IsDeduped(preferred, mediaType, used, id)
    ensures id !in used && nowUsed == used + {id}
  {
    if preferred !in used {
      return preferred, used + {preferred};
    }
    var typed := Typed(preferred, mediaType);
    if typed !in used {
      return typed, used + {typed};
    }
    var suffix := 2;
    while true
      invariant suffix >= 2
      invariant forall k | 2 <= k < suffix :: Candidate(typed, k) in used
      decreases |used - Tried(typed, suffix)|
    {
      var candidate := Candidate(typed, suffix);
      if candidate !in used {
        assert IsFirstFree(typed, used, suffix);
        return candidate, used + {candidate};
      }
      FewerLeft(typed, used, suffix);
      suffix := suffix + 1;
    }
  }

  function Tried(typed: string, suffix: nat): set<string> {
    set k | 2 <= k < suffix :: Candidate(typed, k)
  }

  /** A candidate that is taken is not one that was tried before. */
  lemma {:induction false} FewerLeft(typed: string, used: set<string>, suffix: nat)
    requires suffix >= 2 && Candidate(typed, suffix) in used
    ensures |used - Tried(typed, suffix + 1)| < |used - Tried(typed, suffix)|
  {
    var candidate := Candidate(typed, suffix);
    if candidate in Tried(typed, suffix) {
      var k :| 2 <= k < suffix && candidate == Candidate(typed, k);
      CandidateInjective(typed, k, suffix);
    }
    var before, after := used - Tried(typed, suffix), used - Tried(typed, suffix + 1);
    assert after == before - {candidate};
  }

  /** No two ids are possible. */
  lemma {:induction false} DedupedIsUnique(preferred: string, mediaType: string, used: set<string>, a: string,
      b: string)
    requires IsDeduped(preferred, mediaType, used, a) && IsDeduped(preferred, mediaType, used, b)
    ensures a == b
  {
    var typed := Typed(preferred, mediaType);
    if preferred in used && typed in used {
      var m :| m >= 2 && IsFirstFree(typed, used, m) && a == Candidate(typed, m);
      var n :| n >= 2 && IsFirstFree(typed, used, n) && b == Candidate(typed, n);
      assert Candidate(typed, m) !in used && Candidate(typed, n) !in used;
    }
  }

  // ---- the library ----

  /** A media file, by its type and its path below the folder of that type. */
  datatype File = File(mediaType: string, source: string)

  /** A field of an entry: missing or otherwise false, a text, or a value that is true and no text. */
  datatype Name = Missing | Text(s: string) | NoText
  {
    predicate True() {
      NoText? || (Text? && s != "")
    }
  }

  /** An entry of the existing library; an id is empty where it is missing. */
  datatype Item = NoObject | Item(mediaType: Name, source: Name, filename: Name, assetId: string)

  /** `item.get("source_filename") or item.get("filename")` */
  function SourceOf(item: Item): Name
    requires item.Item?
  {
    if item.source.True() then item.source else item.filename
  }

  function KeyOf(item: Item): Option<File> {
    if item.NoObject? || !item.mediaType.Text? || !SourceOf(item).Text? then None
    else Some(File(item.mediaType.s, SourceOf(item).s))
  }

  /** The id that the existing library holds for a file: that of its last entry. */
  function PriorId(items: seq<Item>, file: File): string
    decreases |items|
  {
    if items == [] then ""
    else if KeyOf(items[|items| - 1]) == Some(file) then items[|items| - 1].assetId
    else PriorId(items[..|items| - 1], file)
  }

  /** An entry is about a file when it names its type and, as the source file or, where none is
      set, as the file, its path. */
  predicate IsAbout(item: Item, file: File) {
    && item.Item? && item.mediaType == Text(file.mediaType)
    && if item.source == Missing || item.source == Text("") then item.filename == Text(file.source)
       else item.source == Text(file.source)
  }

  predicate IsLastAbout(items: seq<Item>, file: File, i: nat)
    requires i < |items|
  {
    IsAbout(items[i], file) && forall j | i < j < |items| :: !IsAbout(items[j], file)
  }

  /** The prior id of a file is that of the last entry about it, and none where there is none. */
  lemma {:induction false} PriorIsLast(items: seq<Item>, file: File)
    ensures forall i | 0 <= i < |items| && IsLastAbout(items, file, i) :: PriorId(items, file) == items[i].assetId
    ensures (forall i | 0 <= i < |items| :: !IsAbout(items[i], file)) ==> PriorId(items, file) == ""
    decreases |items|
  {
    if items != [] {
      var front, last := items[..|items| - 1], items[|items| - 1];
      assert KeyOf(last) == Some(file) <==> IsAbout(last, file);
      PriorIsLast(front, file);
      forall i | 0 <= i < |items| && IsLastAbout(items, file, i) ensures PriorId(items, file) == items[i].assetId {
        if i < |front| {
          assert IsLastAbout(front, file, i);
        }
      }
    }
  }

  /** `_existing_assets_by_file`, down to the ids. */
  method ExistingAssetsByFile(items: seq<Item>) returns (indexed: map<File, string>)
    ensures forall file :: PriorId(items, file) == if file in indexed then indexed[file] else ""
  {
    indexed := map[];
    for i := 0 to |items|
      invariant forall file :: PriorId(items[..i], file) == if file in indexed then indexed[file] else ""
    {
      assert items[..i + 1][..i] == items[..i];
      var item := items[i];
      if item.NoObject? {
        continue;
      }
      var source := if item.source.True() then item.source else item.filename;
      if item.mediaType.Text? && source.Text? {
        indexed := indexed[File(item.mediaType.s, source.s) := item.assetId];
      }
    }
    assert items[..|items|] == items;
  }

  function Preferred(stemId: File -> string, prior: string, file: File): string {
    if prior != "" then prior else stemId(file)
  }

  function Ids(ids: seq<string>): set<string> {
    set i | 0 <= i < |ids| :: ids[i]
  }

  /** Each file has the id that it gets where those of the files before it are taken. */
  ghost predicate IsLibrary(stemId: File -> string, items: seq<Item>, files: seq<File>, ids: seq<string>) {
    && |ids| == |files|
    && forall i | 0 <= i < |files| ::
         IsDeduped(Preferred(stemId, PriorId(items, files[i]), files[i]), files[i].mediaType, Ids(ids[..i]), ids[i])
  }

  /** The ids that `build_asset_library` gives. */
  method BuildAssetIds(stemId: File -> string, items: seq<Item>, files: seq<File>) returns (ids: seq<string>)
    ensures IsLibrary(stemId, items, files, ids) && Distinct(ids)
  {
    var existing := ExistingAssetsByFile(items);
    var used: set<string> := {};
    ids := [];
    for i := 0 to |files|
      invariant IsLibrary(stemId, items, files[..i], ids) && Distinct(ids) && used == Ids(ids)
    {
      var file := files[i];
      var prior := if file in existing then existing[file] else "";
      var preferred := if prior != "" then prior else stemId(file);
      ghost var before := ids;
      var id;
      id, used := DedupeAssetId(preferred, file.mediaType, used);
      ids := ids + [id];
      LibraryGrows(stemId, items, files, before, i, id);
    }
    assert files[..|files|] == files;
  }

  lemma {:induction false} LibraryGrows(stemId: File -> string, items: seq<Item>, files: seq<File>,
      ids: seq<string>, i: nat, id: string)
    requires i < |files| && IsLibrary(stemId, items, files[..i], ids) && Distinct(ids) && id !in Ids(ids)
    requires IsDeduped(Preferred(stemId, PriorId(items, files[i]), files[i]), files[i].mediaType, Ids(ids), id)
    ensures IsLibrary(stemId, items, files[..i + 1], ids + [id]) && Distinct(ids + [id])
    ensures Ids(ids + [id]) == Ids(ids) + {id}
  {
    var more, grown := files[..i + 1], ids + [id];
    assert grown[..i] == ids;
    forall k | 0 <= k <= i
      ensures IsDeduped(Preferred(stemId, PriorId(items, more[k]), more[k]), more[k].mediaType, Ids(grown[..k]),
        grown[k])
    {
      if k < i {
        assert grown[..k] == ids[..k] && more[k] == files[..i][k];
      }
    }
    assert grown[|ids|] == id;
    assert forall k | 0 <= k < |ids| :: grown[k] == ids[k];
  }

  /** No id is empty. */
  lemma {:induction false} IdsAreNotEmpty(stemId: File -> string, items: seq<Item>, files: seq<File>, ids: seq<string>)
    requires IsLibrary(stemId, items, files, ids) && forall file :: stemId(file) != ""
    ensures "" !in Ids(ids)
  {
    forall i | 0 <= i < |ids| ensures ids[i] != "" {
      var preferred := Preferred(stemId, PriorId(items, files[i]), files[i]);
      assert IsDeduped(preferred, files[i].mediaType, Ids(ids[..i]), ids[i]);
    }
  }

  // ---- building again ----

  /** The existing library holds what was built: an entry for each file with its id, in any
      order, and no other entry for a file. */
  ghost predicate HoldsBuilt(items: seq<Item>, files: seq<File>, ids: seq<string>) {
    && |files| == |ids|
    && forall i | 0 <= i < |files| :: PriorId(items, files[i]) == ids[i]
  }

  /** The entries of a built library, before they are sorted. */
  function Entries(files: seq<File>, ids: seq<string>): seq<Item>
    requires |files| == |ids|
  {
    seq(|files|, i requires 0 <= i < |files| => Item(Text(files[i].mediaType), Text(files[i].source), Missing, ids[i]))
  }

  lemma {:induction false} PriorIdFound(items: seq<Item>, file: File, id: string)
    requires exists item | item in items :: KeyOf(item) == Some(file)
    requires forall item | item in items && KeyOf(item) == Some(file) :: item.assetId == id
    ensures PriorId(items, file) == id
    decreases |items|
  {
    var front, last := items[..|items| - 1], items[|items| - 1];
    assert items == front + [last];
    if KeyOf(last) != Some(file) {
      PriorIdFound(front, file, id);
    }
  }

  /** However a built library is sorted, it holds for each file the id that was built. */
  lemma {:induction false} SortedHoldsBuilt(items: seq<Item>, files: seq<File>, ids: seq<string>)
    requires |files| == |ids| && Distinct(files) && forall i | 0 <= i < |files| :: files[i].source != ""
    requires multiset(items) == multiset(Entries(files, ids))
    ensures HoldsBuilt(items, files, ids)
  {
    var entries := Entries(files, ids);
    forall i | 0 <= i < |files| ensures PriorId(items, files[i]) == ids[i] {
      assert entries[i] in multiset(items);
      assert KeyOf(entries[i]) == Some(files[i]);
      forall item | item in items && KeyOf(item) == Some(files[i]) ensures item.assetId == ids[i] {
        assert item in multiset(entries);
        var j :| 0 <= j < |entries| && entries[j] == item;
        assert files[j] == files[i];
      }
      PriorIdFound(items, files[i], ids[i]);
    }
  }

  /** Building again from the library's own output, with the same files or with any of them in
      any order, keeps the id of every file. */
  lemma {:induction false} RebuildKeepsIds(stemId: File -> string, items: seq<Item>, files: seq<File>, ids: seq<string>,
      again: seq<File>, newIds: seq<string>, origin: seq<nat>)
    requires HoldsBuilt(items, files, ids) && Distinct(ids) && "" !in Ids(ids)
    requires |origin| == |again| && (forall i | 0 <= i < |again| :: origin[i] < |files| && again[i] == files[origin[i]])
    requires forall i, j | 0 <= i < j < |origin| :: origin[i] != origin[j]
    requires IsLibrary(stemId, items, again, newIds)
    ensures forall i | 0 <= i < |again| :: newIds[i] == ids[origin[i]]
  {
    for n := 0 to |again|
      invariant forall i | 0 <= i < n :: newIds[i] == ids[origin[i]]
    {
      var id := ids[origin[n]];
      assert id in Ids(ids);
      assert PriorId(items, again[n]) == id;
      forall k | 0 <= k < n ensures newIds[k] != id {
        assert origin[k] != origin[n];
      }
      assert id !in Ids(newIds[..n]);
      assert IsDeduped(Preferred(stemId, PriorId(items, again[n]), again[n]), again[n].mediaType, Ids(newIds[..n]),
        newIds[n]);
    }
  }

  // ---- new files ----

  /** The first numbered id from `suffix` on that is free. */
  function FirstFree(typed: string, used: set<string>, suffix: nat): (n: nat)
    requires suffix >= 2 && forall k | 2 <= k < suffix :: Candidate(typed, k) in used
    ensures n >= suffix && IsFirstFree(typed, used, n)
    decreases |used - Tried(typed, suffix)|
  {
    if Candidate(typed, suffix) !in used then suffix
    else
      FewerLeft(typed, used, suffix);
      FirstFree(typed, used, suffix + 1)
  }

  function DedupedId(preferred: string, mediaType: string, used: set<string>): (id: string)
    ensures IsDeduped(preferred, mediaType, used, id)
  {
    var typed := Typed(preferred, mediaType);
    if preferred !in used then preferred
    else if typed !in used then typed
    else Candidate(typed, FirstFree(typed, used, 2))
  }

  /** What the files would be called if every file of the existing library kept its id: the new
      files get an id in the order of the scan, free of those given before. */
  function Planned(stemId: File -> string, items: seq<Item>, files: seq<File>): (plan: seq<string>)
    ensures |plan| == |files|
    decreases |files|
  {
    if files == [] then []
    else
      var before, last := Planned(stemId, items, files[..|files| - 1]), files[|files| - 1];
      var prior := PriorId(items, last);
      before + [if prior != "" then prior else DedupedId(stemId(last), last.mediaType, Ids(before))]
  }

  /** Every file of the existing library that is still there has the id that it had. */
  ghost predicate KeepsIds(items: seq<Item>, files: seq<File>, ids: seq<string>)
    requires |ids| == |files|
  {
    forall i | 0 <= i < |files| && PriorId(items, files[i]) != "" :: ids[i] == PriorId(items, files[i])
  }

  lemma {:induction false} LibraryFront(stemId: File -> string, items: seq<Item>, files: seq<File>, ids: seq<string>)
    requires files != [] && IsLibrary(stemId, items, files, ids)
    ensures var n := |files| - 1;
      && IsLibrary(stemId, items, files[..n], ids[..n])
      && IsDeduped(Preferred(stemId, PriorId(items, files[n]), files[n]), files[n].mediaType, Ids(ids[..n]), ids[n])
  {
    var n := |files| - 1;
    forall i | 0 <= i < n
      ensures IsDeduped(Preferred(stemId, PriorId(items, files[i]), files[i]), files[i].mediaType,
        Ids(ids[..n][..i]), ids[i])
    {
      assert ids[..n][..i] == ids[..i];
    }
  }

  lemma {:induction false} DistinctLast(front: seq<string>, last: string)
    ensures Distinct(front + [last]) <==> Distinct(front) && last !in Ids(front)
  {
    var ids := front + [last];
    assert ids[|front|] == last;
    assert forall i | 0 <= i < |front| :: ids[i] == front[i];
  }

  /** A library that keeps its ids is the planned one, and then the plan has no id twice. */
  lemma {:induction false} KeptIsPlanned(stemId: File -> string, items: seq<Item>, files: seq<File>, ids: seq<string>)
    requires IsLibrary(stemId, items, files, ids) && KeepsIds(items, files, ids)
    ensures ids == Planned(stemId, items, files) && Distinct(ids)
    decreases |files|
  {
    if files != [] {
      var n := |files| - 1;
      LibraryFront(stemId, items, files, ids);
      KeptIsPlanned(stemId, items, files[..n], ids[..n]);
      DistinctLast(ids[..n], ids[n]);
      assert ids == ids[..n] + [ids[n]];
      if PriorId(items, files[n]) == "" {
        DedupedIsUnique(stemId(files[n]), files[n].mediaType, Ids(ids[..n]),
          ids[n], DedupedId(stemId(files[n]), files[n].mediaType, Ids(ids[..n])));
      }
    }
  }

  /** Where the plan has no id twice, the library is the planned one. */
  lemma {:induction false} PlannedIsKept(stemId: File -> string, items: seq<Item>, files: seq<File>, ids: seq<string>)
    requires IsLibrary(stemId, items, files, ids) && Distinct(Planned(stemId, items, files))
    ensures ids == Planned(stemId, items, files) && KeepsIds(items, files, ids)
    decreases |files|
  {
    if files != [] {
      var n, plan := |files| - 1, Planned(stemId, items, files);
      var before := Planned(stemId, items, files[..n]);
      LibraryFront(stemId, items, files, ids);
      assert plan == before + [plan[n]];
      DistinctLast(before, plan[n]);
      PlannedIsKept(stemId, items, files[..n], ids[..n]);
      assert ids == ids[..n] + [ids[n]];
      DedupedIsUnique(Preferred(stemId, PriorId(items, files[n]), files[n]), files[n].mediaType, Ids(before),
        ids[n], plan[n]);
    }
  }

  /** When a library is built again, with any number of new files among the old ones, every file
      that was in it keeps its id if and only if the plan has no id twice. */
  lemma {:induction false} FilesKeepIdsExactly(stemId: File -> string, items: seq<Item>, files: seq<File>,
      ids: seq<string>)
    requires IsLibrary(stemId, items, files, ids)
    ensures KeepsIds(items, files, ids) <==> Distinct(Planned(stemId, items, files))
  {
    if KeepsIds(items, files, ids) {
      KeptIsPlanned(stemId, items, files, ids);
    }
    if Distinct(Planned(stemId, items, files)) {
      PlannedIsKept(stemId, items, files, ids);
    }
  }

  /** The old files have ids of their own. */
  ghost predicate PriorsDiffer(items: seq<Item>, files: seq<File>) {
    forall i, j | 0 <= i < j < |files| && PriorId(items, files[i]) != "" ::
      PriorId(items, files[i]) != PriorId(items, files[j])
  }

  /** The planned id of no new file is the id of an old file that is scanned after it. */
  ghost predicate NewFilesTakeNone(stemId: File -> string, items: seq<Item>, files: seq<File>) {
    forall p, j | 0 <= p < j < |files| && PriorId(items, files[p]) == "" && PriorId(items, files[j]) != "" ::
      Planned(stemId, items, files)[p] != PriorId(items, files[j])
  }

  lemma {:induction false} PlannedAt(stemId: File -> string, items: seq<Item>, files: seq<File>, i: nat)
    requires i < |files|
    ensures var plan, prior := Planned(stemId, items, files), PriorId(items, files[i]);
      if prior != "" then plan[i] == prior
      else IsDeduped(stemId(files[i]), files[i].mediaType, Ids(plan[..i]), plan[i]) && plan[i] !in Ids(plan[..i])
    decreases |files|
  {
    var front := files[..|files| - 1];
    var before, plan := Planned(stemId, items, front), Planned(stemId, items, files);
    if i < |front| {
      PlannedAt(stemId, items, front, i);
      assert plan[..i] == before[..i];
    } else {
      assert plan[..i] == before;
    }
  }

  /** In terms of the new files alone: an old file loses its id exactly when some new file that is
      scanned earlier gets it. */
  lemma {:induction false} NewFilesExactly(stemId: File -> string, items: seq<Item>, files: seq<File>, ids: seq<string>)
    requires IsLibrary(stemId, items, files, ids) && PriorsDiffer(items, files)
    ensures KeepsIds(items, files, ids) <==> NewFilesTakeNone(stemId, items, files)
  {
    var plan := Planned(stemId, items, files);
    FilesKeepIdsExactly(stemId, items, files, ids);
    forall i | 0 <= i < |files|
      ensures PriorId(items, files[i]) != "" ==> plan[i] == PriorId(items, files[i])
      ensures PriorId(items, files[i]) == "" ==> plan[i] !in Ids(plan[..i])
    {
      PlannedAt(stemId, items, files, i);
    }
    if NewFilesTakeNone(stemId, items, files) {
      forall i, j | 0 <= i < j < |plan| ensures plan[i] != plan[j] {
        assert plan[..j][i] == plan[i] && plan[i] in Ids(plan[..j]);
      }
    }
  }

  /** So it happens: a new file whose own name is the id of an old file scanned after it. */
  lemma {:induction false} NewFileCanTakeId(stemId: File -> string, ids: seq<string>)
    requires stemId(File("picture", "logo.png")) == "logo"
    requires IsLibrary(stemId, [Item(Text("picture"), Text("zebra.png"), Missing, "logo")],
      [File("picture", "logo.png"), File("picture", "zebra.png")], ids)
    ensures ids == ["logo", "picture_logo"]
  {
    var items := [Item(Text("picture"), Text("zebra.png"), Missing, "logo")];
    var first, second := File("picture", "logo.png"), File("picture", "zebra.png");
    assert first.source[0] == 'l' && second.source[0] == 'z';
    assert items[..0] == [];
    assert PriorId(items, first) == "" && PriorId(items, second) == "logo";
    assert IsDeduped("logo", "picture", Ids(ids[..0]), ids[0]);
    assert ids[0] == "logo";
    assert Ids(ids[..1]) == {"logo"};
    assert IsDeduped("logo", "picture", Ids(ids[..1]), ids[1]);
    assert Typed("logo", "picture") == "picture_logo" && |"picture_logo"| == 12;
  }
}
