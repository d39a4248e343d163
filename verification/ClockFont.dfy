/** The HXF1 bitmap font: the tool that writes the file and the firmware loader that reads it. */
module ClockFont {
  import opened Wrappers

  type byte = x: int | 0 <= x < 256

  // ---- little-endian numbers ----

  function Power256(n: nat): (p: nat)
    ensures p > 0
  {
    if n == 0 then 1 else 256 * Power256(n - 1)
  }

  function Encode(v: nat, n: nat): (s: seq<byte>)
    ensures |s| == n
    decreases n
  {
    if n == 0 then [] else [v % 256] + Encode(v / 256, n - 1)
  }

  function Decode(s: seq<byte>): nat {
    if s == [] then 0 else s[0] + 256 * Decode(s[1..])
  }

  lemma {:induction false} NumberRoundTrip(v: nat, n: nat)
    requires v < Power256(n)
    ensures Decode(Encode(v, n)) == v
    decreases n
  {
    if n > 0 {
      NumberRoundTrip(v / 256, n - 1);
      assert Encode(v, n)[1..] == Encode(v / 256, n - 1);
    }
  }

  /** The two's complement of a 16-bit number. */
  function Unsigned16(v: int): nat
    requires -0x8000 <= v < 0x8000
  {
    if v < 0 then v + 0x1_0000 else v
  }

  function Signed16(u: nat): int {
    if u < 0x8000 then u else u - 0x1_0000
  }

  // ---- records ----

  datatype Record = Record(code: int, left: int, top: int, advance: int, width: int, height: int, offset: int)

  predicate InU16(v: int) {
    0 <= v < 0x1_0000
  }

  predicate InS16(v: int) {
    -0x8000 <= v < 0x8000
  }

  predicate RecordFits(r: Record) {
    && 0 <= r.code < 0x100 && InS16(r.left) && InS16(r.top) && InS16(r.advance)
    && InU16(r.width) && InU16(r.height) && 0 <= r.offset < 0x1_0000_0000
  }

  const HEADER_BYTES := 10
  const RECORD_BYTES := 15

  /** One number of a packed struct. */
  datatype Field = Field(value: nat, size: nat)

  function PackFields(fields: seq<Field>): (s: seq<byte>)
    decreases |fields|
  {
    if fields == [] then []
    else PackFields(fields[..|fields| - 1]) + Encode(fields[|fields| - 1].value, fields[|fields| - 1].size)
  }

  /** Where a field starts. */
  function Start(fields: seq<Field>, i: nat): nat
    requires i <= |fields|
  {
    if i == 0 then 0 else Start(fields, i - 1) + fields[i - 1].size
  }

  lemma {:induction false} StartInFront(fields: seq<Field>, i: nat)
    requires i < |fields|
    ensures Start(fields[..|fields| - 1], i) == Start(fields, i)
  {
    if i > 0 {
      StartInFront(fields, i - 1);
    }
  }

  /** Every field stands where the sizes before it say. */
  lemma {:induction false} FieldAt(fields: seq<Field>, i: nat)
    requires i < |fields|
    ensures |PackFields(fields)| == Start(fields, |fields|)
    ensures Start(fields, i + 1) <= |PackFields(fields)|
    ensures PackFields(fields)[Start(fields, i)..Start(fields, i + 1)] == Encode(fields[i].value, fields[i].size)
    decreases |fields|
  {
    var front := fields[..|fields| - 1];
    StartInFront(fields, |front|);
    if front != [] {
      FieldAt(front, if i < |front| then i else 0);
    }
    if i < |front| {
      StartInFront(fields, i);
      StartInFront(fields, i + 1);
    }
  }

  function RecordFields(r: Record): seq<Field>
    requires RecordFits(r)
  {
    [Field(r.code, 1), Field(Unsigned16(r.left), 2), Field(Unsigned16(r.top), 2), Field(Unsigned16(r.advance), 2),
     Field(r.width, 2), Field(r.height, 2), Field(r.offset, 4)]
  }

  lemma {:induction false} RecordStarts(r: Record)
    requires RecordFits(r)
    ensures var f := RecordFields(r);
      && Start(f, 1) == 1 && Start(f, 2) == 3 && Start(f, 3) == 5 && Start(f, 4) == 7
      && Start(f, 5) == 9 && Start(f, 6) == 11 && Start(f, 7) == 15
    ensures |PackFields(RecordFields(r))| == RECORD_BYTES
  {
    var f := RecordFields(r);
    assert Start(f, 2) == 3 && Start(f, 4) == 7 && Start(f, 6) == 11;
    FieldAt(f, 0);
  }

  /** `struct.Struct("<BhhhHHI").pack` */
  function PackRecord(r: Record): (s: seq<byte>)
    requires RecordFits(r)
    ensures |s| == RECORD_BYTES
  {
    RecordStarts(r);
    PackFields(RecordFields(r))
  }

  predicate HeaderFits(pixelSize: int, ascent: int, count: int) {
    InU16(pixelSize) && InS16(ascent) && InU16(count)
  }

  const MAGIC: seq<byte> := [0x48, 0x58, 0x46, 0x31]

  function HeaderFields(pixelSize: int, ascent: int, count: int): seq<Field>
    requires HeaderFits(pixelSize, ascent, count)
  {
    [Field(pixelSize, 2), Field(Unsigned16(ascent), 2), Field(count, 2)]
  }

  lemma {:induction false} HeaderStarts(pixelSize: int, ascent: int, count: int)
    requires HeaderFits(pixelSize, ascent, count)
    ensures var f := HeaderFields(pixelSize, ascent, count); Start(f, 1) == 2 && Start(f, 2) == 4 && Start(f, 3) == 6
    ensures |PackFields(HeaderFields(pixelSize, ascent, count))| == 6
  {
    var f := HeaderFields(pixelSize, ascent, count);
    assert Start(f, 1) == 2 && Start(f, 2) == 4;
    FieldAt(f, 0);
  }

  /** `struct.Struct("<4sHhH").pack` of HXF1 and three numbers. */
  function PackHeader(pixelSize: int, ascent: int, count: int): (s: seq<byte>)
    requires HeaderFits(pixelSize, ascent, count)
    ensures |s| == HEADER_BYTES
  {
    HeaderStarts(pixelSize, ascent, count);
    MAGIC + PackFields(HeaderFields(pixelSize, ascent, count))
  }

  function U16At(data: seq<byte>, i: nat): nat
    requires i + 2 <= |data|
  {
    Decode(data[i..i + 2])
  }

  /** The firmware's reading of one record. */
  function UnpackRecord(data: seq<byte>, at: nat): Record
    requires at + RECORD_BYTES <= |data|
  {
    Record(data[at], Signed16(U16At(data, at + 1)), Signed16(U16At(data, at + 3)), Signed16(U16At(data, at + 5)),
      U16At(data, at + 7), U16At(data, at + 9), Decode(data[at + 11..at + 15]))
  }

  lemma {:induction false} Powers()
    ensures Power256(1) == 0x100 && Power256(2) == 0x1_0000 && Power256(4) == 0x1_0000_0000
  {
    assert Power256(3) == 0x100_0000;
  }

  lemma {:induction false} RecordRoundTrip(r: Record)
    requires RecordFits(r)
    ensures UnpackRecord(PackRecord(r), 0) == r
  {
    var f := RecordFields(r);
    RecordStarts(r);
    Powers();
    forall i | 0 <= i < 7 ensures Decode(PackRecord(r)[Start(f, i)..Start(f, i + 1)]) == f[i].value {
      FieldAt(f, i);
      assert f[i].value < Power256(f[i].size);
      NumberRoundTrip(f[i].value, f[i].size);
    }
    assert PackRecord(r)[Start(f, 0)..Start(f, 1)] == [PackRecord(r)[0]];
  }

  lemma {:induction false} SliceOfSlice(data: seq<byte>, at: nat, n: nat, i: nat, j: nat)
    requires i <= j <= n && at + n <= |data|
    ensures data[at..at + n][i..j] == data[at + i..at + j]
  {
    var inner, outer := data[at..at + n][i..j], data[at + i..at + j];
    assert forall k | 0 <= k < |outer| :: inner[k] == outer[k];
  }

  /** A record is read the same wherever it stands. */
  lemma {:induction false} UnpackInside(data: seq<byte>, at: nat, s: seq<byte>)
    requires at + RECORD_BYTES <= |data| && data[at..at + RECORD_BYTES] == s
    ensures UnpackRecord(data, at) == UnpackRecord(s, 0)
  {
    SliceOfSlice(data, at, RECORD_BYTES, 1, 3);
    SliceOfSlice(data, at, RECORD_BYTES, 3, 5);
    SliceOfSlice(data, at, RECORD_BYTES, 5, 7);
    SliceOfSlice(data, at, RECORD_BYTES, 7, 9);
    SliceOfSlice(data, at, RECORD_BYTES, 9, 11);
    SliceOfSlice(data, at, RECORD_BYTES, 11, 15);
  }

  // ---- glyphs ----

  const PADDING := 2

  function AtLeastOne(v: int): int {
    if v < 1 then 1 else v
  }

  /** A glyph as the rasteriser measured and drew it. */
  datatype Glyph = Glyph(code: int, left: int, top: int, right: int, bottom: int, advance: int, pixels: seq<byte>)
  {
    function Width(): (w: int)
      ensures w >= 5
    {
      AtLeastOne(right - left) + PADDING * 2
    }

    function Height(): (h: int)
      ensures h >= 5
    {
      AtLeastOne(bottom - top) + PADDING * 2
    }

    /** The bitmap has one byte a pixel. */
    predicate Rastered() {
      |pixels| == Width() * Height()
    }

    function At(offset: int): Record {
      Record(code, left - PADDING, -top + PADDING, advance, Width(), Height(), offset)
    }
  }

  // ---- the file ----

  function Concat(parts: seq<seq<byte>>): seq<byte>
    decreases |parts|
  {
    if parts == [] then [] else Concat(parts[..|parts| - 1]) + parts[|parts| - 1]
  }

  function Pixels(glyphs: seq<Glyph>): seq<seq<byte>> {
    seq(|glyphs|, i requires 0 <= i < |glyphs| => glyphs[i].pixels)
  }

  /** Where the bitmaps of the first glyphs end. */
  function EndOfBitmaps(glyphs: seq<Glyph>, count: nat): nat
    decreases |glyphs|
  {
    if glyphs == [] then HEADER_BYTES + count * RECORD_BYTES
    else EndOfBitmaps(glyphs[..|glyphs| - 1], count) + |glyphs[|glyphs| - 1].pixels|
  }

  function Records(glyphs: seq<Glyph>, count: nat): (records: seq<Record>)
    ensures |records| == |glyphs|
    decreases |glyphs|
  {
    if glyphs == [] then []
    else
      var front := glyphs[..|glyphs| - 1];
      Records(front, count) + [glyphs[|glyphs| - 1].At(EndOfBitmaps(front, count))]
  }

  predicate AllFit(records: seq<Record>) {
    forall i | 0 <= i < |records| :: RecordFits(records[i])
  }

  /** The packed records, one after the other. */
  function PackAll(records: seq<Record>): (packed: seq<byte>)
    requires AllFit(records)
    ensures |packed| == |records| * RECORD_BYTES
    decreases |records|
  {
    if records == [] then [] else PackAll(records[..|records| - 1]) + PackRecord(records[|records| - 1])
  }

  predicate Packable(pixelSize: int, ascent: int, glyphs: seq<Glyph>) {
    HeaderFits(pixelSize, ascent, |glyphs|) && AllFit(Records(glyphs, |glyphs|))
  }

  function FontFile(pixelSize: int, ascent: int, glyphs: seq<Glyph>): seq<byte>
    requires Packable(pixelSize, ascent, glyphs)
  {
    PackHeader(pixelSize, ascent, |glyphs|) + PackAll(Records(glyphs, |glyphs|)) + Concat(Pixels(glyphs))
  }

  ghost predicate WrittenUpTo(header: seq<byte>, records: seq<Record>, k: nat, file: seq<byte>)
    requires k <= |records|
  {
    AllFit(records[..k]) && file == header + PackAll(records[..k])
  }

  /** Packing stopped at a record out of range, after the records before it were written. */
  predicate IsTornAt(header: seq<byte>, records: seq<Record>, file: seq<byte>) {
    exists k | 0 <= k < |records| ::
      !RecordFits(records[k]) && AllFit(records[..k]) && file == header + PackAll(records[..k])
  }

  /** What is on disk when packing stops at a value out of range. */
  predicate IsTorn(pixelSize: int, ascent: int, glyphs: seq<Glyph>, file: seq<byte>) {
    if !HeaderFits(pixelSize, ascent, |glyphs|) then file == []
    else IsTornAt(PackHeader(pixelSize, ascent, |glyphs|), Records(glyphs, |glyphs|), file)
  }

  ghost predicate IsLaidOut(glyphs: seq<Glyph>, records: seq<Record>, bitmaps: seq<seq<byte>>) {
    records == Records(glyphs, |glyphs|) && bitmaps == Pixels(glyphs)
  }

  /** The first loop of `main`: the records, each with the offset where its bitmap will stand. */
  method LayOut(glyphs: seq<Glyph>) returns (records: seq<Record>, bitmaps: seq<seq<byte>>)
    ensures IsLaidOut(glyphs, records, bitmaps)
  {
    records, bitmaps := [], [];
    var offset := HEADER_BYTES + |glyphs| * RECORD_BYTES;
    for i := 0 to |glyphs|
      invariant offset == EndOfBitmaps(glyphs[..i], |glyphs|)
      invariant records == Records(glyphs[..i], |glyphs|)
      invariant bitmaps == Pixels(glyphs[..i])
    {
      assert glyphs[..i + 1][..i] == glyphs[..i];
      var glyph := glyphs[i];
      records := records + [Record(glyph.code, glyph.left - PADDING, -glyph.top + PADDING, glyph.advance,
                              glyph.Width(), glyph.Height(), offset)];
      bitmaps := bitmaps + [glyph.pixels];
      offset := offset + |glyph.pixels|;
    }
    assert glyphs[..|glyphs|] == glyphs;
  }

  method WriteRecords(header: seq<byte>, records: seq<Record>) returns (done: bool, file: seq<byte>)
    ensures done <==> AllFit(records)
    ensures done ==> file == header + PackAll(records)
    ensures !done ==> IsTornAt(header, records, file)
  {
    file := header;
    for k := 0 to |records|
      invariant WrittenUpTo(header, records, k, file)
    {
      if !RecordFits(records[k]) {
        TornHere(header, records, k, file);
        return false, file;
      }
      PackOneMore(header, records, k, file);
      file := file + PackRecord(records[k]);
    }
    AllWritten(header, records, file);
    return true, file;
  }

  method WriteBitmaps(head: seq<byte>, bitmaps: seq<seq<byte>>) returns (file: seq<byte>)
    ensures file == head + Concat(bitmaps)
  {
    file := head;
    for k := 0 to |bitmaps|
      invariant file == head + Concat(bitmaps[..k])
    {
      assert bitmaps[..k + 1][..k] == bitmaps[..k];
      file := file + bitmaps[k];
    }
    assert bitmaps[..|bitmaps|] == bitmaps;
  }

  /** `main`, from the measured glyphs to the file that is written. */
  method WriteFont(pixelSize: int, ascent: int, glyphs: seq<Glyph>) returns (done: bool, file: seq<byte>)
    ensures done <==> Packable(pixelSize, ascent, glyphs)
    ensures done ==> file == FontFile(pixelSize, ascent, glyphs)
    ensures !done ==> IsTorn(pixelSize, ascent, glyphs, file)
  {
    var records, bitmaps := LayOut(glyphs);
    if !HeaderFits(pixelSize, ascent, |records|) {
      return false, [];
    }
    done, file := WriteRecords(PackHeader(pixelSize, ascent, |records|), records);
    if done {
      file := WriteBitmaps(file, bitmaps);
    }
  }

  lemma {:induction false} TornHere(header: seq<byte>, records: seq<Record>, k: nat, file: seq<byte>)
    requires k < |records| && !RecordFits(records[k]) && WrittenUpTo(header, records, k, file)
    ensures IsTornAt(header, records, file) && !AllFit(records)
  {
  }

  lemma {:induction false} AllWritten(header: seq<byte>, records: seq<Record>, file: seq<byte>)
    requires WrittenUpTo(header, records, |records|, file)
    ensures AllFit(records) && file == header + PackAll(records)
  {
    assert records[..|records|] == records;
  }

  lemma {:induction false} PackOneMore(header: seq<byte>, records: seq<Record>, k: nat, file: seq<byte>)
    requires k < |records| && RecordFits(records[k]) && WrittenUpTo(header, records, k, file)
    ensures WrittenUpTo(header, records, k + 1, file + PackRecord(records[k]))
  {
    assert forall i | 0 <= i < k :: records[..k + 1][i] == records[..k][i];
    assert records[..k + 1][..k] == records[..k];
  }

  // ---- the firmware loader ----

  const MAX_FONT_BYTES := 64 * 1024
  const MAX_GLYPHS := 96

  datatype Font = Font(pixelSize: int, ascent: int, glyphs: seq<Record>)

  predicate HeaderLoads(data: seq<byte>) {
    && HEADER_BYTES <= |data| <= MAX_FONT_BYTES
    && data[..4] == MAGIC && U16At(data, 4) > 0 && Signed16(U16At(data, 6)) > 0
    && 0 < U16At(data, 8) <= MAX_GLYPHS && HEADER_BYTES + U16At(data, 8) * RECORD_BYTES <= |data|
  }

  predicate BitmapInside(r: Record, size: nat) {
    r.width != 0 && r.height != 0 && r.offset <= size && r.width * r.height <= size - r.offset
  }

  function LoadedRecords(data: seq<byte>): seq<Record>
    requires HeaderLoads(data)
  {
    seq(U16At(data, 8), i requires 0 <= i < U16At(data, 8) => UnpackRecord(data, HEADER_BYTES + i * RECORD_BYTES))
  }

  predicate Loads(data: seq<byte>) {
    && HeaderLoads(data)
    && forall i | 0 <= i < |LoadedRecords(data)| :: BitmapInside(LoadedRecords(data)[i], |data|)
  }

  /** `load_bitmap_font`, from the bytes of the file. */
  method LoadBitmapFont(data: seq<byte>) returns (font: Option<Font>)
    ensures font.Some? <==> Loads(data)
    ensures font.Some? ==> font.value == Font(U16At(data, 4), Signed16(U16At(data, 6)), LoadedRecords(data))
  {
    if |data| < HEADER_BYTES || |data| > MAX_FONT_BYTES {
      return None;
    }
    var glyphCount := U16At(data, 8);
    var pixelSize := U16At(data, 4);
    var ascent := Signed16(U16At(data, 6));
    if data[..4] != MAGIC || pixelSize <= 0 || ascent <= 0 || glyphCount == 0 || glyphCount > MAX_GLYPHS
       || HEADER_BYTES + glyphCount * RECORD_BYTES > |data|
    {
      return None;
    }
    var glyphs: seq<Record> := [];
    for i := 0 to glyphCount
      invariant glyphs == LoadedRecords(data)[..i]
      invariant forall k | 0 <= k < i :: BitmapInside(LoadedRecords(data)[k], |data|)
    {
      var glyph := UnpackRecord(data, HEADER_BYTES + i * RECORD_BYTES);
      glyphs := glyphs + [glyph];
      if glyph.width == 0 || glyph.height == 0 || glyph.offset > |data|
         || glyph.width * glyph.height > |data| - glyph.offset
      {
        assert !BitmapInside(LoadedRecords(data)[i], |data|);
        return None;
      }
    }
    return Some(Font(pixelSize, ascent, glyphs));
  }

  /** The bytes that are drawn for a glyph. */
  function BitmapOf(data: seq<byte>, r: Record): seq<byte>
    requires 0 <= r.offset && BitmapInside(r, |data|) && r.width * r.height >= 0
  {
    data[r.offset..r.offset + r.width * r.height]
  }

  // ---- the file tiles exactly ----

  lemma {:induction false} ConcatAt(parts: seq<seq<byte>>, i: nat)
    requires i < |parts|
    ensures var at := |Concat(parts[..i])|;
      at + |parts[i]| <= |Concat(parts)| && Concat(parts)[at..at + |parts[i]|] == parts[i]
    decreases |parts|
  {
    var front := parts[..|parts| - 1];
    if i == |front| {
      assert parts[..i] == front;
    } else {
      ConcatAt(front, i);
      assert front[..i] == parts[..i];
      var at := |Concat(parts[..i])|;
      assert Concat(parts)[at..at + |parts[i]|] == Concat(front)[at..at + |parts[i]|];
    }
  }

  lemma {:induction false} BitmapsEnd(glyphs: seq<Glyph>, count: nat)
    ensures EndOfBitmaps(glyphs, count) == HEADER_BYTES + count * RECORD_BYTES + |Concat(Pixels(glyphs))|
    decreases |glyphs|
  {
    if glyphs != [] {
      var front := glyphs[..|glyphs| - 1];
      BitmapsEnd(front, count);
      assert Pixels(glyphs)[..|front|] == Pixels(front);
    }
  }

  lemma {:induction false} RecordsAt(glyphs: seq<Glyph>, count: nat, i: nat)
    requires i < |glyphs|
    ensures Records(glyphs, count)[i] == glyphs[i].At(EndOfBitmaps(glyphs[..i], count))
    decreases |glyphs|
  {
    var front := glyphs[..|glyphs| - 1];
    if i < |front| {
      RecordsAt(front, count, i);
      assert front[..i] == glyphs[..i];
    }
  }

  lemma {:induction false} MiddleSlice(a: seq<byte>, b: seq<byte>, c: seq<byte>, i: nat, n: nat)
    requires i + n <= |b|
    ensures (a + b + c)[|a| + i..|a| + i + n] == b[i..i + n]
  {
  }

  lemma {:induction false} PrefixSlice(a: seq<byte>, b: seq<byte>, i: nat, n: nat)
    requires i + n <= |a|
    ensures (a + b)[i..i + n] == a[i..i + n]
  {
  }

  lemma {:induction false} SuffixSlice(a: seq<byte>, b: seq<byte>)
    ensures (a + b)[|a|..] == b && (a + b)[|a|..|a| + |b|] == b
  {
  }

  /** The file is its header, its packed records and its bitmaps. */
  lemma {:induction false} FileParts(pixelSize: int, ascent: int, glyphs: seq<Glyph>)
    returns (header: seq<byte>, body: seq<byte>, tail: seq<byte>)
    requires Packable(pixelSize, ascent, glyphs)
    ensures FontFile(pixelSize, ascent, glyphs) == header + body + tail
    ensures header == PackHeader(pixelSize, ascent, |glyphs|)
    ensures body == PackAll(Records(glyphs, |glyphs|)) && |body| == |glyphs| * RECORD_BYTES
    ensures tail == Concat(Pixels(glyphs))
  {
    var records := Records(glyphs, |glyphs|);
    header, body, tail := PackHeader(pixelSize, ascent, |glyphs|), PackAll(records), Concat(Pixels(glyphs));
  }

  predicate HoldsAt(file: seq<byte>, at: nat, part: seq<byte>) {
    at + |part| <= |file| && file[at..at + |part|] == part
  }

  lemma {:induction false} PartInBody(a: seq<byte>, b: seq<byte>, c: seq<byte>, i: nat, part: seq<byte>, at: nat)
    requires HoldsAt(b, i, part) && at == |a| + i
    ensures HoldsAt(a + b + c, at, part)
  {
    MiddleSlice(a, b, c, i, |part|);
  }

  lemma FirstPart(a: seq<byte>, b: seq<byte>, i: nat, part: seq<byte>)
    requires HoldsAt(a, i, part)
    ensures HoldsAt(a + b, i, part)
  {
    PrefixSlice(a, b, i, |part|);
  }

  lemma LastPart(a: seq<byte>, b: seq<byte>, at: nat)
    requires at == |a|
    ensures HoldsAt(a + b, at, b)
  {
    SuffixSlice(a, b);
  }

  lemma {:induction false} RecordInBody(records: seq<Record>, i: nat)
    requires AllFit(records) && i < |records|
    ensures HoldsAt(PackAll(records), i * RECORD_BYTES, PackRecord(records[i]))
    decreases |records|
  {
    var front, last := records[..|records| - 1], records[|records| - 1];
    assert PackAll(records) == PackAll(front) + PackRecord(last);
    if i < |front| {
      RecordInBody(front, i);
      FirstPart(PackAll(front), PackRecord(last), i * RECORD_BYTES, PackRecord(front[i]));
    } else {
      LastPart(PackAll(front), PackRecord(last), i * RECORD_BYTES);
    }
  }

  lemma {:induction false} RecordBehind(header: seq<byte>, records: seq<Record>, tail: seq<byte>, i: nat)
    requires |header| == HEADER_BYTES && AllFit(records) && i < |records|
    ensures HoldsAt(header + PackAll(records) + tail, HEADER_BYTES + i * RECORD_BYTES, PackRecord(records[i]))
  {
    RecordInBody(records, i);
    var at := i * RECORD_BYTES;
    PartInBody(header, PackAll(records), tail, at, PackRecord(records[i]), HEADER_BYTES + at);
  }

  lemma {:induction false} RecordBytesInFile(pixelSize: int, ascent: int, glyphs: seq<Glyph>, i: nat)
    requires Packable(pixelSize, ascent, glyphs) && i < |glyphs|
    ensures var r := glyphs[i].At(EndOfBitmaps(glyphs[..i], |glyphs|));
      RecordFits(r) && HoldsAt(FontFile(pixelSize, ascent, glyphs), HEADER_BYTES + i * RECORD_BYTES, PackRecord(r))
  {
    RecordsAt(glyphs, |glyphs|, i);
    RecordBehind(PackHeader(pixelSize, ascent, |glyphs|), Records(glyphs, |glyphs|), Concat(Pixels(glyphs)), i);
  }

  lemma BitmapBehind(front: seq<byte>, glyphs: seq<Glyph>, i: nat)
    requires i < |glyphs|
    ensures HoldsAt(front + Concat(Pixels(glyphs)), |front| + |Concat(Pixels(glyphs[..i]))|, glyphs[i].pixels)
  {
    assert Pixels(glyphs)[..i] == Pixels(glyphs[..i]);
    ConcatAt(Pixels(glyphs), i);
    var at := |Concat(Pixels(glyphs[..i]))|;
    PartInBody(front, Concat(Pixels(glyphs)), [], at, glyphs[i].pixels, |front| + at);
    assert front + Concat(Pixels(glyphs)) + [] == front + Concat(Pixels(glyphs));
  }

  lemma {:induction false} BitmapInFile(pixelSize: int, ascent: int, glyphs: seq<Glyph>, i: nat)
    requires Packable(pixelSize, ascent, glyphs) && i < |glyphs|
    ensures HoldsAt(FontFile(pixelSize, ascent, glyphs), EndOfBitmaps(glyphs[..i], |glyphs|), glyphs[i].pixels)
  {
    var header, body, tail := FileParts(pixelSize, ascent, glyphs);
    BitmapsEnd(glyphs[..i], |glyphs|);
    BitmapBehind(header + body, glyphs, i);
  }

  lemma {:induction false} FileEnds(pixelSize: int, ascent: int, glyphs: seq<Glyph>)
    requires Packable(pixelSize, ascent, glyphs)
    ensures |FontFile(pixelSize, ascent, glyphs)| == EndOfBitmaps(glyphs, |glyphs|)
  {
    var header, body, tail := FileParts(pixelSize, ascent, glyphs);
    BitmapsEnd(glyphs, |glyphs|);
  }

  /** The record of a glyph stands 15 bytes after the one before it, its bitmap where the record
      says, and the next bitmap right behind. */
  predicate Tiled(file: seq<byte>, glyphs: seq<Glyph>, i: nat)
    requires i < |glyphs|
  {
    var offset := EndOfBitmaps(glyphs[..i], |glyphs|);
    var r := glyphs[i].At(offset);
    && RecordFits(r) && HoldsAt(file, HEADER_BYTES + i * RECORD_BYTES, PackRecord(r))
    && HoldsAt(file, offset, glyphs[i].pixels)
    && EndOfBitmaps(glyphs[..i + 1], |glyphs|) == offset + |glyphs[i].pixels|
  }

  lemma {:induction false} GlyphTiled(pixelSize: int, ascent: int, glyphs: seq<Glyph>, i: nat)
    requires Packable(pixelSize, ascent, glyphs) && i < |glyphs|
    ensures Tiled(FontFile(pixelSize, ascent, glyphs), glyphs, i)
  {
    RecordBytesInFile(pixelSize, ascent, glyphs, i);
    BitmapInFile(pixelSize, ascent, glyphs, i);
    assert glyphs[..i + 1][..i] == glyphs[..i];
  }

  lemma {:induction false} RecordOfTile(file: seq<byte>, glyphs: seq<Glyph>, i: nat)
    requires i < |glyphs| && Tiled(file, glyphs, i)
    ensures var at := HEADER_BYTES + i * RECORD_BYTES;
      && at + RECORD_BYTES <= |file|
      && UnpackRecord(file, at) == glyphs[i].At(EndOfBitmaps(glyphs[..i], |glyphs|))
  {
    var r := glyphs[i].At(EndOfBitmaps(glyphs[..i], |glyphs|));
    UnpackInside(file, HEADER_BYTES + i * RECORD_BYTES, PackRecord(r));
    RecordRoundTrip(r);
  }

  // ---- the firmware reads back what was written ----

  lemma {:induction false} HeaderReads(pixelSize: int, ascent: int, count: int)
    requires HeaderFits(pixelSize, ascent, count)
    ensures var s := PackHeader(pixelSize, ascent, count);
      && s[..4] == MAGIC && U16At(s, 4) == pixelSize && Signed16(U16At(s, 6)) == ascent && U16At(s, 8) == count
  {
    var f := HeaderFields(pixelSize, ascent, count);
    var s := PackHeader(pixelSize, ascent, count);
    HeaderStarts(pixelSize, ascent, count);
    Powers();
    forall i | 0 <= i < 3 ensures Decode(s[4 + 2 * i..6 + 2 * i]) == f[i].value {
      FieldAt(f, i);
      NumberRoundTrip(f[i].value, f[i].size);
      assert s[4 + 2 * i..6 + 2 * i] == PackFields(f)[2 * i..2 * i + 2];
    }
    assert s[4 + 2 * 0..6 + 2 * 0] == s[4..6] && s[4 + 2 * 1..6 + 2 * 1] == s[6..8]
      && s[4 + 2 * 2..6 + 2 * 2] == s[8..10];
  }

  lemma {:induction false} HeaderRoundTrip(pixelSize: int, ascent: int, glyphs: seq<Glyph>)
    requires Packable(pixelSize, ascent, glyphs)
    ensures var file := FontFile(pixelSize, ascent, glyphs);
      && |file| >= HEADER_BYTES + |glyphs| * RECORD_BYTES && file[..4] == MAGIC
      && U16At(file, 4) == pixelSize && Signed16(U16At(file, 6)) == ascent && U16At(file, 8) == |glyphs|
  {
    var header, body, tail := FileParts(pixelSize, ascent, glyphs);
    HeaderReads(pixelSize, ascent, |glyphs|);
    assert header + body + tail == header + (body + tail);
    PrefixSlice(header, body + tail, 0, 4);
    PrefixSlice(header, body + tail, 4, 2);
    PrefixSlice(header, body + tail, 6, 2);
    PrefixSlice(header, body + tail, 8, 2);
  }

  predicate AllRastered(glyphs: seq<Glyph>) {
    forall i | 0 <= i < |glyphs| :: glyphs[i].Rastered()
  }

  /** The loaded record of a tiled glyph has its measures, and its bitmap at the offset. */
  predicate LoadedAt(file: seq<byte>, glyphs: seq<Glyph>, i: nat)
    requires HeaderLoads(file) && i < |glyphs|
  {
    var records := LoadedRecords(file);
    && i < |records|
    && records[i] == glyphs[i].At(EndOfBitmaps(glyphs[..i], |glyphs|))
    && BitmapInside(records[i], |file|)
    && BitmapOf(file, records[i]) == glyphs[i].pixels
  }

  lemma {:induction false} GlyphLoads(file: seq<byte>, glyphs: seq<Glyph>, i: nat)
    requires HeaderLoads(file) && U16At(file, 8) == |glyphs|
    requires i < |glyphs| && glyphs[i].Rastered() && Tiled(file, glyphs, i)
    ensures LoadedAt(file, glyphs, i)
  {
    RecordOfTile(file, glyphs, i);
  }
}
