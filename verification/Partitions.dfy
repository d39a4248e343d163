/** The flash partition allocator, the layout validator and the regions of a full-device bundle. */
module Partitions {
  import opened Wrappers

  /** A row of the partition table; an offset of None is left blank. */
  datatype Row = Row(name: string, kind: string, subtype: string, offset: Option<int>, size: int)

  datatype Partition = Partition(name: string, kind: string, subtype: string, offset: int, size: int)
  {
    function End(): int { offset + size }
  }

  const APP_ALIGNMENT := 0x10000
  const DATA_ALIGNMENT := 0x1000

  function Alignment(kind: string): (a: int)
    ensures 0 < a <= 0x10000
  {
    if kind == "app" then APP_ALIGNMENT else DATA_ALIGNMENT
  }

  predicate Aligned(offset: int, kind: string) {
    offset % Alignment(kind) == 0
  }

  /** Partitions for programs start at multiples of 64 KiB, all others at multiples of 4 KiB. */
  lemma AlignedExactly(offset: int, kind: string)
    ensures Aligned(offset, kind) <==> offset % (if kind == "app" then 65536 else 4096) == 0
  {
  }

  /** The least multiple of the boundary that is not below the value. */
  function Align(value: int, boundary: int): (r: int)
    requires boundary > 0
    ensures r % boundary == 0 && value <= r < value + boundary
  {
    AlignFits(value + boundary - 1, boundary);
    (value + boundary - 1) / boundary * boundary
  }

  lemma AlignFits(v: int, b: int)
    requires b > 0
    ensures v / b * b == v - v % b
    ensures (v / b * b) % b == 0
  {
    MultipleHasNoRest(v / b, b);
  }

  lemma Scaled(k: int, b: int)
    requires b > 0
    ensures k >= 1 ==> k * b >= b
    ensures k <= -1 ==> k * b <= -b
  {
  }

  lemma MultipleHasNoRest(k: int, b: int)
    requires b > 0
    ensures (k * b) % b == 0
  {
    var q, r := (k * b) / b, (k * b) % b;
    assert r == (k - q) * b;
    Scaled(k - q, b);
  }

  /** No multiple of the boundary lies between a value and its alignment. */
  lemma AlignIsLeast(value: int, boundary: int, r: int)
    requires boundary > 0 && r % boundary == 0 && value <= r
    ensures Align(value, boundary) <= r
  {
    var a := Align(value, boundary);
    var i, j := a / boundary, r / boundary;
    assert a - r == (i - j) * boundary;
    Scaled(i - j, boundary);
  }

  lemma KindAlignIsLeast(value: int, kind: string, r: int)
    requires Aligned(r, kind) && value <= r
    ensures Align(value, Alignment(kind)) <= r
  {
    AlignIsLeast(value, Alignment(kind), r);
  }

  // ---- loading ----

  function Place(row: Row, current: int): Partition {
    var offset := if row.offset.Some? then row.offset.value else Align(current, Alignment(row.kind));
    Partition(row.name, row.kind, row.subtype, offset, row.size)
  }

  function EndOf(parts: seq<Partition>): int {
    if parts == [] then 0 else parts[|parts| - 1].End()
  }

  /** Each row is placed after the one before it. */
  function Layout(rows: seq<Row>): (parts: seq<Partition>)
    ensures |parts| == |rows|
    decreases |rows|
  {
    if rows == [] then []
    else
      var before := Layout(rows[..|rows| - 1]);
      before + [Place(rows[|rows| - 1], EndOf(before))]
  }

  lemma {:induction false} LayoutAt(rows: seq<Row>, i: nat)
    requires i < |rows|
    ensures Layout(rows)[i] == Place(rows[i], if i == 0 then 0 else Layout(rows)[i - 1].End())
    decreases |rows|
  {
    var front := rows[..|rows| - 1];
    if i < |front| {
      LayoutAt(front, i);
      assert Layout(rows)[i] == Layout(front)[i];
      assert i > 0 ==> Layout(rows)[i - 1] == Layout(front)[i - 1];
    }
  }

  datatype Violation =
    | NoPartitions
    | DuplicateName(i: nat)
    | Misaligned(i: nat)
    | Overlaps(i: nat)
    | BeyondFlash(i: nat)
    | MissingOtaData

  /** `load_partitions` */
  method LoadPartitions(rows: seq<Row>) returns (loaded: Result<seq<Partition>, Violation>)
    ensures loaded == if rows == [] then Err(NoPartitions) else Ok(Layout(rows))
  {
    var parts: seq<Partition> := [];
    var current := 0;
    for i := 0 to |rows|
      invariant parts == Layout(rows[..i]) && current == EndOf(parts)
    {
      assert rows[..i + 1][..i] == rows[..i];
      var row := rows[i];
      var offset;
      if row.offset.Some? {
        offset := row.offset.value;
      } else {
        offset := Align(current, if row.kind == "app" then APP_ALIGNMENT else DATA_ALIGNMENT);
      }
      parts := parts + [Partition(row.name, row.kind, row.subtype, offset, row.size)];
      current := offset + row.size;
    }
    assert rows[..|rows|] == rows;
    if parts == [] {
      return Err(NoPartitions);
    }
    return Ok(parts);
  }

  // ---- validation ----

  predicate Seen(parts: seq<Partition>, i: nat)
    requires i < |parts|
  {
    exists j | 0 <= j < i :: parts[j].name == parts[i].name
  }

  /** What is wrong with the i-th partition, in the order of the checks. */
  function Fault(parts: seq<Partition>, flash: int, i: nat): Option<Violation>
    requires i < |parts|
  {
    if Seen(parts, i) then Some(DuplicateName(i))
    else if !Aligned(parts[i].offset, parts[i].kind) then Some(Misaligned(i))
    else if i > 0 && parts[i].offset < parts[i - 1].End() then Some(Overlaps(i))
    else if parts[i].End() > flash then Some(BeyondFlash(i))
    else None
  }

  predicate HasOtaData(parts: seq<Partition>) {
    exists i | 0 <= i < |parts| :: parts[i].kind == "data" && parts[i].subtype == "ota"
  }

  predicate Faultless(parts: seq<Partition>, flash: int) {
    forall i | 0 <= i < |parts| :: Fault(parts, flash, i).None?
  }

  /** The first fault in the order of the partitions, or the missing otadata partition. */
  ghost predicate IsFirstViolation(parts: seq<Partition>, flash: int, v: Violation) {
    if Faultless(parts, flash) then !HasOtaData(parts) && v == MissingOtaData
    else
      exists i | 0 <= i < |parts| ::
        Fault(parts, flash, i) == Some(v) && forall j | 0 <= j < i :: Fault(parts, flash, j).None?
  }

  /** `validate_partition_layout` */
  method ValidatePartitionLayout(rows: seq<Row>, flash: int) returns (checked: Result<seq<Partition>, Violation>)
    ensures rows == [] ==> checked == Err(NoPartitions)
    ensures rows != [] && Faultless(Layout(rows), flash) && HasOtaData(Layout(rows)) ==> checked == Ok(Layout(rows))
    ensures rows != [] && !(Faultless(Layout(rows), flash) && HasOtaData(Layout(rows))) ==>
      checked.Err? && IsFirstViolation(Layout(rows), flash, checked.error)
  {
    var loaded := LoadPartitions(rows);
    if loaded.Err? {
      return loaded;
    }
    var parts := loaded.value;
    var previous: Option<Partition> := None;
    var names: set<string> := {};
    for i := 0 to |parts|
      invariant forall j | 0 <= j < i :: Fault(parts, flash, j).None?
      invariant names == set j | 0 <= j < i :: parts[j].name
      invariant previous == if i == 0 then None else Some(parts[i - 1])
    {
      var part := parts[i];
      if part.name in names {
        assert Fault(parts, flash, i) == Some(DuplicateName(i));
        return Err(DuplicateName(i));
      }
      names := names + {part.name};
      var alignment := if part.kind == "app" then APP_ALIGNMENT else DATA_ALIGNMENT;
      if part.offset % alignment != 0 {
        assert Fault(parts, flash, i) == Some(Misaligned(i));
        return Err(Misaligned(i));
      }
      if previous.Some? && part.offset < previous.value.End() {
        assert Fault(parts, flash, i) == Some(Overlaps(i));
        return Err(Overlaps(i));
      }
      if part.End() > flash {
        assert Fault(parts, flash, i) == Some(BeyondFlash(i));
        return Err(BeyondFlash(i));
      }
      previous := Some(part);
    }
    if !HasOtaData(parts) {
      return Err(MissingOtaData);
    }
    return Ok(parts);
  }

  // ---- the layout with all offsets blank ----

  predicate AllBlank(rows: seq<Row>) {
    forall i | 0 <= i < |rows| :: rows[i].offset.None?
  }

  /** Where the partition before the i-th one ends. */
  function EndBefore(rows: seq<Row>, offsets: seq<int>, i: nat): int
    requires i < |rows| == |offsets|
  {
    if i == 0 then 0 else offsets[i - 1] + rows[i - 1].size
  }

  /** Offsets that keep the order of the rows, respect their alignment and do not overlap. */
  ghost predicate IsLayout(rows: seq<Row>, offsets: seq<int>) {
    && |offsets| == |rows|
    && (forall i | 0 <= i < |rows| :: Aligned(offsets[i], rows[i].kind))
    && (forall i | 0 <= i < |rows| :: EndBefore(rows, offsets, i) <= offsets[i])
  }

  ghost predicate Fits(rows: seq<Row>, offsets: seq<int>, flash: int)
    requires |offsets| == |rows|
  {
    forall i | 0 <= i < |rows| :: offsets[i] + rows[i].size <= flash
  }

  function Offsets(parts: seq<Partition>): (offsets: seq<int>)
    ensures |offsets| == |parts| && forall i | 0 <= i < |parts| :: offsets[i] == parts[i].offset
  {
    seq(|parts|, i requires 0 <= i < |parts| => parts[i].offset)
  }

  lemma {:induction false} BlankLayout(rows: seq<Row>)
    requires AllBlank(rows)
    ensures IsLayout(rows, Offsets(Layout(rows)))
  {
    var parts := Layout(rows);
    forall i | 0 <= i < |rows|
      ensures Aligned(parts[i].offset, rows[i].kind) && parts[i].size == rows[i].size
      ensures (if i == 0 then 0 else parts[i - 1].End()) <= parts[i].offset
    {
      LayoutAt(rows, i);
    }
  }

  /** No layout puts a partition below the place where the allocator puts it. */
  lemma {:induction false} LayoutIsLeast(rows: seq<Row>, offsets: seq<int>, i: nat)
    requires AllBlank(rows) && IsLayout(rows, offsets) && i < |rows|
    ensures Layout(rows)[i].offset <= offsets[i] && Layout(rows)[i].size == rows[i].size
  {
    LayoutAt(rows, i);
    if i == 0 {
      PlacedLeast(rows, offsets, 0, 0);
    } else {
      LayoutIsLeast(rows, offsets, i - 1);
      PlacedLeast(rows, offsets, i, Layout(rows)[i - 1].End());
    }
  }

  lemma PlacedLeast(rows: seq<Row>, offsets: seq<int>, i: nat, current: int)
    requires AllBlank(rows) && IsLayout(rows, offsets) && i < |rows|
    requires current <= EndBefore(rows, offsets, i)
    ensures Place(rows[i], current).offset <= offsets[i] && Place(rows[i], current).size == rows[i].size
  {
    KindAlignIsLeast(current, rows[i].kind, offsets[i]);
  }

  predicate DistinctNames(rows: seq<Row>) {
    forall i, j | 0 <= i < j < |rows| :: rows[i].name != rows[j].name
  }

  predicate OtaDataRow(rows: seq<Row>) {
    exists i | 0 <= i < |rows| :: rows[i].kind == "data" && rows[i].subtype == "ota"
  }

  lemma {:induction false} LayoutKeepsRows(rows: seq<Row>)
    ensures forall i | 0 <= i < |rows| ::
      Layout(rows)[i].name == rows[i].name && Layout(rows)[i].kind == rows[i].kind
      && Layout(rows)[i].subtype == rows[i].subtype && Layout(rows)[i].size == rows[i].size
  {
    forall i | 0 <= i < |rows|
      ensures Layout(rows)[i].name == rows[i].name && Layout(rows)[i].kind == rows[i].kind
      ensures Layout(rows)[i].subtype == rows[i].subtype && Layout(rows)[i].size == rows[i].size
    {
      LayoutAt(rows, i);
    }
  }

  /** Where some layout fits, the allocator's layout has no fault. */
  lemma {:induction false} NoFault(rows: seq<Row>, offsets: seq<int>, flash: int, i: nat)
    requires AllBlank(rows) && DistinctNames(rows) && i < |rows|
    requires IsLayout(rows, offsets) && offsets[i] + rows[i].size <= flash
    ensures Fault(Layout(rows), flash, i).None?
  {
    LayoutIsLeast(rows, offsets, i);
    BlankStart(rows, i);
    NameNotSeen(rows, i);
    FaultFree(Layout(rows), flash, i);
  }

  lemma FaultFree(parts: seq<Partition>, flash: int, i: nat)
    requires i < |parts| && !Seen(parts, i) && Aligned(parts[i].offset, parts[i].kind)
    requires i > 0 ==> parts[i - 1].End() <= parts[i].offset
    requires parts[i].End() <= flash
    ensures Fault(parts, flash, i).None?
  {
  }

  lemma {:induction false} BlankStart(rows: seq<Row>, i: nat)
    requires AllBlank(rows) && i < |rows|
    ensures Aligned(Layout(rows)[i].offset, Layout(rows)[i].kind)
    ensures i > 0 ==> Layout(rows)[i - 1].End() <= Layout(rows)[i].offset
  {
    LayoutAt(rows, i);
  }

  lemma {:induction false} NameNotSeen(rows: seq<Row>, i: nat)
    requires DistinctNames(rows) && i < |rows|
    ensures !Seen(Layout(rows), i)
  {
    LayoutKeepsRows(rows);
    forall j | 0 <= j < i ensures Layout(rows)[j].name != Layout(rows)[i].name {
      assert rows[j].name != rows[i].name;
    }
  }

  lemma {:induction false} DistinctWhereFaultless(rows: seq<Row>, flash: int)
    requires Faultless(Layout(rows), flash)
    ensures DistinctNames(rows)
  {
    LayoutKeepsRows(rows);
    forall i, j | 0 <= i < j < |rows| ensures rows[i].name != rows[j].name {
      assert Fault(Layout(rows), flash, j).None?;
      assert Layout(rows)[i].name == rows[i].name && Layout(rows)[j].name == rows[j].name;
    }
  }

  lemma {:induction false} FitsWhereFaultless(rows: seq<Row>, flash: int)
    requires Faultless(Layout(rows), flash)
    ensures Fits(rows, Offsets(Layout(rows)), flash)
  {
    LayoutKeepsRows(rows);
    forall i | 0 <= i < |rows| ensures Offsets(Layout(rows))[i] + rows[i].size <= flash {
      assert Fault(Layout(rows), flash, i).None?;
    }
  }

  /** Some layout of the partitions fits the flash. */
  ghost predicate CanFit(rows: seq<Row>, flash: int) {
    exists offsets :: IsLayout(rows, offsets) && Fits(rows, offsets, flash)
  }

  /** With all offsets blank, the validator accepts a table exactly when its names are distinct,
      it has an otadata partition, and some layout of its partitions fits the flash: it never
      rejects a table that could be laid out. */
  lemma {:induction false} BlankTableAccepted(rows: seq<Row>, flash: int)
    requires AllBlank(rows)
    ensures Faultless(Layout(rows), flash) && HasOtaData(Layout(rows)) <==>
      DistinctNames(rows) && OtaDataRow(rows) && CanFit(rows, flash)
  {
    LayoutKeepsRows(rows);
    if Faultless(Layout(rows), flash) {
      DistinctWhereFaultless(rows, flash);
      FitsWhereFaultless(rows, flash);
      BlankLayout(rows);
    }
    if DistinctNames(rows) && CanFit(rows, flash) {
      var offsets :| IsLayout(rows, offsets) && Fits(rows, offsets, flash);
      forall i | 0 <= i < |rows| ensures Fault(Layout(rows), flash, i).None? {
        NoFault(rows, offsets, flash, i);
      }
    }
  }

  function TotalSize(parts: seq<Partition>): int {
    if parts == [] then 0 else TotalSize(parts[..|parts| - 1]) + parts[|parts| - 1].size
  }

  /** With all offsets blank, less than one alignment is lost before each partition. */
  lemma {:induction false} PaddingIsBounded(rows: seq<Row>)
    requires AllBlank(rows)
    ensures TotalSize(Layout(rows)) <= EndOf(Layout(rows)) <= TotalSize(Layout(rows)) + |rows| * 0xFFFF
    decreases |rows|
  {
    if rows != [] {
      var front := rows[..|rows| - 1];
      PaddingIsBounded(front);
      assert Layout(rows)[..|front|] == Layout(front);
    }
  }

  // ---- what an accepted layout guarantees ----

  predicate NoNegativeSize(parts: seq<Partition>) {
    forall i | 0 <= i < |parts| :: parts[i].size >= 0
  }

  /** No partition starts below the one before it. */
  predicate Ascending(parts: seq<Partition>) {
    forall i | 0 < i < |parts| :: parts[i - 1].offset <= parts[i].offset
  }

  /** Any two partitions, not only neighbours, are in order and apart. */
  ghost predicate PairwiseApart(parts: seq<Partition>) {
    forall i, j | 0 <= i < j < |parts| :: parts[i].offset <= parts[j].offset && parts[i].End() <= parts[j].offset
  }

  lemma {:induction false} AscendingApart(parts: seq<Partition>, flash: int, i: nat, j: nat)
    requires Faultless(parts, flash) && Ascending(parts) && i < j < |parts|
    ensures parts[i].offset <= parts[j].offset && parts[i].End() <= parts[j].offset
    decreases j
  {
    assert Fault(parts, flash, j).None?;
    assert parts[j - 1].offset <= parts[j].offset;
    if i < j - 1 {
      AscendingApart(parts, flash, i, j - 1);
    }
  }

  /** The validator compares each partition with the one before it only. In a layout that it
      accepts all partitions are pairwise in order and apart if and only if none starts below the
      one before it. */
  lemma {:induction false} AcceptedIsApartExactly(parts: seq<Partition>, flash: int)
    requires Faultless(parts, flash)
    ensures PairwiseApart(parts) <==> Ascending(parts)
  {
    if Ascending(parts) {
      forall i, j | 0 <= i < j < |parts|
        ensures parts[i].offset <= parts[j].offset && parts[i].End() <= parts[j].offset
      {
        AscendingApart(parts, flash, i, j);
      }
    }
    if PairwiseApart(parts) {
      forall i | 0 < i < |parts| ensures parts[i - 1].offset <= parts[i].offset {
        assert parts[i - 1].End() <= parts[i].offset;
      }
    }
  }

  /** So it is where no size is negative. */
  lemma {:induction false} NoNegativeSizeAscends(parts: seq<Partition>, flash: int)
    requires Faultless(parts, flash) && NoNegativeSize(parts)
    ensures Ascending(parts) && PairwiseApart(parts)
  {
    forall i | 0 < i < |parts| ensures parts[i - 1].offset <= parts[i].offset {
      assert Fault(parts, flash, i).None?;
      assert parts[i - 1].size >= 0;
    }
    AcceptedIsApartExactly(parts, flash);
  }

  /** Whatever the sizes, they sum to at most the flash size, once the first offset is not negative. */
  lemma {:induction false} SizesFitFlash(parts: seq<Partition>, flash: int)
    requires parts != [] && Faultless(parts, flash) && parts[0].offset >= 0
    ensures TotalSize(parts) <= EndOf(parts) <= flash
    decreases |parts|
  {
    var last := |parts| - 1;
    assert Fault(parts, flash, last).None?;
    if last > 0 {
      var front := parts[..last];
      FrontIsFaultless(parts, flash);
      SizesFitFlash(front, flash);
    }
  }

  /** All partitions of an accepted ascending layout lie within the flash if and only if the first
      one does not start below zero. */
  lemma {:induction false} InFlashExactly(parts: seq<Partition>, flash: int)
    requires parts != [] && Faultless(parts, flash) && Ascending(parts)
    ensures (forall i | 0 <= i < |parts| :: 0 <= parts[i].offset && parts[i].End() <= flash) <==> 0 <= parts[0].offset
  {
    forall i | 0 <= i < |parts| ensures parts[0].offset <= parts[i].offset && parts[i].End() <= flash {
      assert Fault(parts, flash, i).None?;
      if i > 0 {
        AscendingApart(parts, flash, 0, i);
      }
    }
  }

  lemma SeenInFront(parts: seq<Partition>, i: nat)
    requires i < |parts| - 1
    ensures Seen(parts[..|parts| - 1], i) ==> Seen(parts, i)
  {
    var front := parts[..|parts| - 1];
    if j :| 0 <= j < i && front[j].name == front[i].name {
      assert parts[j].name == parts[i].name;
    }
  }

  lemma FrontIsFaultless(parts: seq<Partition>, flash: int)
    requires |parts| > 1 && Faultless(parts, flash)
    ensures Faultless(parts[..|parts| - 1], flash)
  {
    var front := parts[..|parts| - 1];
    forall i | 0 <= i < |front| ensures Fault(front, flash, i).None? {
      assert Fault(parts, flash, i).None?;
      SeenInFront(parts, i);
    }
  }

  /** Where all offsets are given, each partition stands where its row says. */
  lemma {:induction false} GivenLayout(rows: seq<Row>, i: nat)
    requires i < |rows| && rows[i].offset.Some?
    ensures Layout(rows)[i] ==
      Partition(rows[i].name, rows[i].kind, rows[i].subtype, rows[i].offset.value, rows[i].size)
  {
    LayoutAt(rows, i);
  }

  /** With a negative size the validator accepts a table whose first and third partition share
      their whole range. */
  lemma {:induction false} NegativeSizeCanOverlap()
    ensures var rows := [
        Row("nvs", "data", "nvs", Some(0), 0x2000),
        Row("otadata", "data", "ota", Some(0x2000), -0x2000),
        Row("storage", "data", "fat", Some(0), 0x2000)];
      var parts := Layout(rows);
      && Faultless(parts, 0x2000) && HasOtaData(parts)
      && parts[0].offset == parts[2].offset && parts[0].size == parts[2].size > 0
  {
    var rows := [
      Row("nvs", "data", "nvs", Some(0), 0x2000),
      Row("otadata", "data", "ota", Some(0x2000), -0x2000),
      Row("storage", "data", "fat", Some(0), 0x2000)];
    var parts := Layout(rows);
    GivenLayout(rows, 0);
    GivenLayout(rows, 1);
    GivenLayout(rows, 2);
    assert |"nvs"| == 3 && |"otadata"| == 7 && "otadata"[0] != "storage"[0];
    assert parts[1].kind == "data" && parts[1].subtype == "ota";
  }

  // ---- the full-device bundle ----

  datatype BundleError = Table(violation: Violation) | MissingPartition(name: string) | RecoveryTooBig | EndpointTooBig

  /** `{partition.name: partition for partition in partitions}` */
  function ByName(parts: seq<Partition>): map<string, Partition> {
    if parts == [] then map[]
    else
      var last := parts[|parts| - 1];
      ByName(parts[..|parts| - 1])[last.name := last]
  }

  lemma {:induction false} ByNameHolds(parts: seq<Partition>, name: string)
    ensures name in ByName(parts) ==> ByName(parts)[name] in parts && ByName(parts)[name].name == name
    ensures name in ByName(parts) <==> exists i | 0 <= i < |parts| :: parts[i].name == name
  {
    if parts != [] {
      var front, last := parts[..|parts| - 1], parts[|parts| - 1];
      assert parts == front + [last];
      ByNameHolds(front, name);
      if i :| 0 <= i < |parts| && parts[i].name == name {
        assert i < |front| ==> front[i].name == name;
      }
    }
  }

  /** What a bundle writes: the offset and the size of each region. */
  datatype Region = Region(offset: int, size: int)

  datatype Regions = Regions(nvs: Region, recovery: Region, endpoint: Region)

  /** The three partitions that a bundle writes. */
  predicate HasBundleNames(parts: seq<Partition>) {
    "nvs" in ByName(parts) && "factory" in ByName(parts) && "ota_0" in ByName(parts)
  }

  /** The table is accepted, has the three partitions, and both images fit theirs. */
  predicate CanBundle(rows: seq<Row>, flash: int, recoverySize: nat, endpointSize: nat) {
    var parts := Layout(rows);
    && rows != [] && Faultless(parts, flash) && HasOtaData(parts) && HasBundleNames(parts)
    && recoverySize <= ByName(parts)["factory"].size && endpointSize <= ByName(parts)["ota_0"].size
  }

  function RegionsOf(rows: seq<Row>, recoverySize: nat, endpointSize: nat): Regions
    requires HasBundleNames(Layout(rows))
  {
    var byName := ByName(Layout(rows));
    Regions(
      Region(byName["nvs"].offset, byName["nvs"].size),
      Region(byName["factory"].offset, recoverySize),
      Region(byName["ota_0"].offset, endpointSize))
  }

  /** The partition of this name, which an accepted table has once. */
  ghost predicate IsNamed(parts: seq<Partition>, name: string, p: Partition) {
    p in parts && p.name == name && forall q | q in parts && q.name == name :: q == p
  }

  lemma {:induction false} FaultlessNamed(parts: seq<Partition>, flash: int, name: string)
    requires Faultless(parts, flash) && name in ByName(parts)
    ensures IsNamed(parts, name, ByName(parts)[name])
  {
    ByNameHolds(parts, name);
    var p := ByName(parts)[name];
    forall q | q in parts && q.name == name ensures q == p {
      var i :| 0 <= i < |parts| && parts[i] == p;
      var j :| 0 <= j < |parts| && parts[j] == q;
      assert Fault(parts, flash, i).None? && Fault(parts, flash, j).None?;
      assert !Seen(parts, i) && !Seen(parts, j);
    }
  }

  /** The provisioning data fills the partition nvs; the recovery image stands at the start of
      factory and the endpoint image at the start of ota_0, and both fit. */
  lemma {:induction false} RegionsAreNamed(rows: seq<Row>, flash: int, recoverySize: nat, endpointSize: nat)
      returns (nvs: Partition, factory: Partition, ota: Partition)
    requires CanBundle(rows, flash, recoverySize, endpointSize)
    ensures IsNamed(Layout(rows), "nvs", nvs) && IsNamed(Layout(rows), "factory", factory)
    ensures IsNamed(Layout(rows), "ota_0", ota)
    ensures RegionsOf(rows, recoverySize, endpointSize) ==
      Regions(Region(nvs.offset, nvs.size), Region(factory.offset, recoverySize), Region(ota.offset, endpointSize))
    ensures recoverySize <= factory.size && endpointSize <= ota.size
  {
    var byName := ByName(Layout(rows));
    nvs, factory, ota := byName["nvs"], byName["factory"], byName["ota_0"];
    FaultlessNamed(Layout(rows), flash, "nvs");
    FaultlessNamed(Layout(rows), flash, "factory");
    FaultlessNamed(Layout(rows), flash, "ota_0");
  }

  /** The checks of `create_bundle` on the partition table and on the image sizes, and the regions
      that its manifest names. */
  method PlanBundle(rows: seq<Row>, flash: int, recoverySize: nat, endpointSize: nat)
    returns (plan: Result<Regions, BundleError>)
    ensures plan.Ok? <==> CanBundle(rows, flash, recoverySize, endpointSize)
    ensures plan.Ok? ==> plan.value == RegionsOf(rows, recoverySize, endpointSize)
    ensures plan.Err? ==>
      var byName := ByName(Layout(rows));
      if rows == [] || !Faultless(Layout(rows), flash) || !HasOtaData(Layout(rows)) then plan.error.Table?
      else if "nvs" !in byName then plan.error == MissingPartition("nvs")
      else if "factory" !in byName then plan.error == MissingPartition("factory")
      else if "ota_0" !in byName then plan.error == MissingPartition("ota_0")
      else if recoverySize > byName["factory"].size then plan.error == RecoveryTooBig
      else plan.error == EndpointTooBig
  {
    var checked := ValidatePartitionLayout(rows, flash);
    if checked.Err? {
      return Err(Table(checked.error));
    }
    var byName := ByName(checked.value);
    if "nvs" !in byName { return Err(MissingPartition("nvs")); }
    if "factory" !in byName { return Err(MissingPartition("factory")); }
    if "ota_0" !in byName { return Err(MissingPartition("ota_0")); }
    if recoverySize > byName["factory"].size { return Err(RecoveryTooBig); }
    if endpointSize > byName["ota_0"].size { return Err(EndpointTooBig); }
    return Ok(Regions(
      Region(byName["nvs"].offset, byName["nvs"].size),
      Region(byName["factory"].offset, recoverySize),
      Region(byName["ota_0"].offset, endpointSize)));
  }

  predicate Disjoint(a: Region, b: Region) {
    a.offset + a.size <= b.offset || b.offset + b.size <= a.offset
  }

  predicate InFlash(r: Region, flash: int) {
    0 <= r.offset && r.offset + r.size <= flash
  }

  lemma {:induction false} RegionsOfNames(parts: seq<Partition>, flash: int, a: string, b: string)
    requires Faultless(parts, flash) && Ascending(parts) && a != b && a in ByName(parts) && b in ByName(parts)
    ensures var p, q := ByName(parts)[a], ByName(parts)[b]; p.End() <= q.offset || q.End() <= p.offset
    ensures ByName(parts)[a].End() <= flash
  {
    ByNameHolds(parts, a);
    ByNameHolds(parts, b);
    var i :| 0 <= i < |parts| && parts[i] == ByName(parts)[a];
    var j :| 0 <= j < |parts| && parts[j] == ByName(parts)[b];
    assert Fault(parts, flash, i).None?;
    if i < j {
      AscendingApart(parts, flash, i, j);
    } else {
      AscendingApart(parts, flash, j, i);
    }
  }

  /** The provisioning data and the two images that a bundle writes never overlap and end within
      the flash, as long as no partition of the table starts below the one before it, which is so
      where no size is negative. */
  lemma {:induction false} BundleRegionsDisjoint(rows: seq<Row>, flash: int, recoverySize: nat, endpointSize: nat)
    requires CanBundle(rows, flash, recoverySize, endpointSize) && Ascending(Layout(rows))
    ensures var regions := RegionsOf(rows, recoverySize, endpointSize);
      && Disjoint(regions.nvs, regions.recovery) && Disjoint(regions.recovery, regions.endpoint)
      && Disjoint(regions.endpoint, regions.nvs)
      && regions.nvs.offset + regions.nvs.size <= flash
      && regions.recovery.offset + regions.recovery.size <= flash
      && regions.endpoint.offset + regions.endpoint.size <= flash
  {
    assert |"nvs"| == 3 && |"factory"| == 7 && |"ota_0"| == 5;
    RegionsOfNames(Layout(rows), flash, "nvs", "factory");
    RegionsOfNames(Layout(rows), flash, "factory", "ota_0");
    RegionsOfNames(Layout(rows), flash, "ota_0", "nvs");
  }

  predicate IsBundled(name: string) {
    name == "nvs" || name == "factory" || name == "ota_0"
  }

  lemma {:induction false} BundledAbove(parts: seq<Partition>, flash: int, first: nat, name: string)
    requires Faultless(parts, flash) && Ascending(parts) && first < |parts| && IsBundled(name) && name in ByName(parts)
    requires forall i | 0 <= i < first :: !IsBundled(parts[i].name)
    ensures parts[first].offset <= ByName(parts)[name].offset
    ensures parts[first].name == name ==> parts[first] == ByName(parts)[name]
  {
    ByNameHolds(parts, name);
    var i :| 0 <= i < |parts| && parts[i] == ByName(parts)[name];
    if first < i {
      AscendingApart(parts, flash, first, i);
      assert Fault(parts, flash, i).None?;
      assert parts[first].name != parts[i].name;
    }
  }

  /** All three regions lie within the flash, from zero on, if and only if the first of the three
      partitions does not start below zero; and so they do where no partition does. */
  lemma {:induction false} BundleInFlashExactly(rows: seq<Row>, flash: int, recoverySize: nat, endpointSize: nat,
      first: nat)
    requires CanBundle(rows, flash, recoverySize, endpointSize) && Ascending(Layout(rows))
    requires first < |rows| && IsBundled(Layout(rows)[first].name)
    requires forall i | 0 <= i < first :: !IsBundled(Layout(rows)[i].name)
    ensures var regions := RegionsOf(rows, recoverySize, endpointSize);
      InFlash(regions.nvs, flash) && InFlash(regions.recovery, flash) && InFlash(regions.endpoint, flash) <==>
        0 <= Layout(rows)[first].offset
    ensures Layout(rows)[0].offset <= Layout(rows)[first].offset
  {
    var parts := Layout(rows);
    BundleRegionsDisjoint(rows, flash, recoverySize, endpointSize);
    BundledAbove(parts, flash, first, "nvs");
    BundledAbove(parts, flash, first, "factory");
    BundledAbove(parts, flash, first, "ota_0");
    if first > 0 {
      AscendingApart(parts, flash, 0, first);
    }
  }

  function BelowZeroRows(): seq<Row> {
    [ Row("nvs", "data", "nvs", Some(-0x1000), 0x1000),
      Row("otadata", "data", "ota", Some(0), 0x2000),
      Row("factory", "app", "factory", Some(0x1_0000), 0x1_0000),
      Row("ota_0", "app", "ota_0", Some(0x2_0000), 0x1_0000) ]
  }

  lemma {:induction false} BelowZeroLayout()
    ensures Layout(BelowZeroRows()) == [
      Partition("nvs", "data", "nvs", -0x1000, 0x1000),
      Partition("otadata", "data", "ota", 0, 0x2000),
      Partition("factory", "app", "factory", 0x1_0000, 0x1_0000),
      Partition("ota_0", "app", "ota_0", 0x2_0000, 0x1_0000)]
  {
    GivenLayout(BelowZeroRows(), 0);
    GivenLayout(BelowZeroRows(), 1);
    GivenLayout(BelowZeroRows(), 2);
    GivenLayout(BelowZeroRows(), 3);
  }

  /** The validator does not ask for offsets from zero on: this table is accepted and bundled, no
      size in it is negative, and its provisioning data starts below the flash. */
  lemma {:induction false} RegionCanStartBelowZero()
    ensures var rows := BelowZeroRows();
      && CanBundle(rows, 0x3_0000, 0x8000, 0x8000) && NoNegativeSize(Layout(rows))
      && RegionsOf(rows, 0x8000, 0x8000).nvs == Region(-0x1000, 0x1000)
  {
    BelowZeroLayout();
    var parts := Layout(BelowZeroRows());
    assert |"nvs"| == 3 && |"factory"| == 7 && |"ota_0"| == 5 && |"otadata"| == 7 && "otadata"[0] != "factory"[0];
    BelowZeroFaultless(parts);
    ByNameOfFour(parts);
    assert parts[1].kind == "data" && parts[1].subtype == "ota";
  }

  lemma {:induction false} BelowZeroFaultless(parts: seq<Partition>)
    requires parts == Layout(BelowZeroRows())
    ensures Faultless(parts, 0x3_0000)
  {
    BelowZeroLayout();
    assert |"nvs"| == 3 && |"factory"| == 7 && |"ota_0"| == 5 && |"otadata"| == 7 && "otadata"[0] != "factory"[0];
    forall i | 0 <= i < |parts| ensures Fault(parts, 0x3_0000, i).None? {
      assert i == 0 || i == 1 || i == 2 || i == 3;
      assert !Seen(parts, i);
    }
  }

  lemma {:induction false} ByNameOfFour(parts: seq<Partition>)
    requires |parts| == 4 && Faultless(parts, 0x3_0000)
    ensures forall i | 0 <= i < 4 :: parts[i].name in ByName(parts) && ByName(parts)[parts[i].name] == parts[i]
  {
    forall i | 0 <= i < 4 ensures parts[i].name in ByName(parts) && ByName(parts)[parts[i].name] == parts[i] {
      ByNameHolds(parts, parts[i].name);
      var j :| 0 <= j < |parts| && parts[j] == ByName(parts)[parts[i].name];
      assert Fault(parts, 0x3_0000, i).None? && Fault(parts, 0x3_0000, j).None?;
    }
  }
}
