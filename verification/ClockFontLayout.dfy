/** The bytes of a written font file, and what the firmware makes of them, in terms of the measured
    glyphs alone. */
module ClockFontLayout {
  import opened ClockFont

  /** The bytes of all bitmaps. */
  function PixelBytes(glyphs: seq<Glyph>): nat {
    if glyphs == [] then 0 else |glyphs[0].pixels| + PixelBytes(glyphs[1..])
  }

  /** Where the bitmap of the i-th glyph starts: behind all records and the bitmaps before it. */
  function BitmapStart(glyphs: seq<Glyph>, i: nat): nat
    requires i <= |glyphs|
  {
    10 + 15 * |glyphs| + PixelBytes(glyphs[..i])
  }

  /** The size of a padded bitmap side. */
  function Padded(extent: int): int {
    (if extent > 1 then extent else 1) + 4
  }

  predicate Measures(r: Record, g: Glyph, offset: int) {
    && r.code == g.code && r.left == g.left - 2 && r.top == 2 - g.top && r.advance == g.advance
    && r.width == Padded(g.right - g.left) && r.height == Padded(g.bottom - g.top) && r.offset == offset
  }

  function Word(low: int, high: int): int {
    low + 0x100 * high
  }

  /** Two bytes, the low one first, that hold a number or its two's complement. */
  predicate HoldsWord(file: seq<byte>, at: nat, v: int) {
    at + 2 <= |file| && Word(file[at], file[at + 1]) == v % 0x1_0000
  }

  /** Four bytes, the low one first. */
  predicate HoldsLong(file: seq<byte>, at: nat, v: int) {
    at + 4 <= |file| && Word(file[at], file[at + 1]) + 0x1_0000 * Word(file[at + 2], file[at + 3]) == v
  }

  predicate RecordStands(file: seq<byte>, at: nat, g: Glyph, offset: int) {
    && at + 15 <= |file| && file[at] == g.code
    && HoldsWord(file, at + 1, g.left - 2) && HoldsWord(file, at + 3, 2 - g.top) && HoldsWord(file, at + 5, g.advance)
    && HoldsWord(file, at + 7, Padded(g.right - g.left)) && HoldsWord(file, at + 9, Padded(g.bottom - g.top))
    && HoldsLong(file, at + 11, offset)
  }

  // ---- offsets ----

  lemma {:induction false} PixelBytesLast(glyphs: seq<Glyph>)
    requires glyphs != []
    ensures PixelBytes(glyphs) == PixelBytes(glyphs[..|glyphs| - 1]) + |glyphs[|glyphs| - 1].pixels|
  {
    if |glyphs| > 1 {
      PixelBytesLast(glyphs[1..]);
      assert glyphs[1..][..|glyphs| - 2] == glyphs[..|glyphs| - 1][1..];
    }
  }

  lemma {:induction false} EndIsSum(glyphs: seq<Glyph>, count: nat)
    ensures EndOfBitmaps(glyphs, count) == 10 + 15 * count + PixelBytes(glyphs)
    decreases |glyphs|
  {
    if glyphs != [] {
      EndIsSum(glyphs[..|glyphs| - 1], count);
      PixelBytesLast(glyphs);
    }
  }

  // ---- bytes ----

  lemma {:induction false} DecodePair(s: seq<byte>)
    requires |s| == 2
    ensures Decode(s) == Word(s[0], s[1])
  {
    assert s[1..] == [s[1]] && s[1..][1..] == [];
    assert Decode(s[1..]) == s[1] + 256 * Decode([]);
  }

  lemma {:induction false} DecodeFour(s: seq<byte>)
    requires |s| == 4
    ensures Decode(s) == Word(s[0], s[1]) + 0x1_0000 * Word(s[2], s[3])
  {
    DecodePair(s[2..]);
    assert s[1..][1..] == s[2..];
    assert Decode(s[1..]) == s[1] + 256 * Decode(s[2..]);
  }

  lemma WordHeld(file: seq<byte>, at: nat)
    requires at + 2 <= |file|
    ensures HoldsWord(file, at, U16At(file, at)) && HoldsWord(file, at, Signed16(U16At(file, at)))
  {
    DecodePair(file[at..at + 2]);
  }

  lemma LongHeld(file: seq<byte>, at: nat)
    requires at + 4 <= |file|
    ensures HoldsLong(file, at, Decode(file[at..at + 4]))
  {
    DecodeFour(file[at..at + 4]);
  }

  /** What the bytes of a record are, read from the record that the firmware makes of them. */
  lemma UnpackedStands(file: seq<byte>, at: nat)
    requires at + RECORD_BYTES <= |file|
    ensures var r := UnpackRecord(file, at);
      && file[at] == r.code && HoldsWord(file, at + 1, r.left) && HoldsWord(file, at + 3, r.top)
      && HoldsWord(file, at + 5, r.advance) && HoldsWord(file, at + 7, r.width) && HoldsWord(file, at + 9, r.height)
      && HoldsLong(file, at + 11, r.offset)
  {
    WordHeld(file, at + 1);
    WordHeld(file, at + 3);
    WordHeld(file, at + 5);
    WordHeld(file, at + 7);
    WordHeld(file, at + 9);
    LongHeld(file, at + 11);
  }

  lemma MeasuresOf(g: Glyph, offset: int)
    ensures Measures(g.At(offset), g, offset)
  {
  }

  lemma StandsAs(file: seq<byte>, at: nat, g: Glyph, offset: int)
    requires at + RECORD_BYTES <= |file| && UnpackRecord(file, at) == g.At(offset)
    ensures RecordStands(file, at, g, offset)
  {
    MeasuresOf(g, offset);
    UnpackedStands(file, at);
  }

  lemma {:induction false} TiledRecord(file: seq<byte>, glyphs: seq<Glyph>, i: nat)
    requires i < |glyphs| && Tiled(file, glyphs, i)
    ensures RecordStands(file, 10 + 15 * i, glyphs[i], BitmapStart(glyphs, i))
    ensures HoldsAt(file, BitmapStart(glyphs, i), glyphs[i].pixels)
  {
    RecordOfTile(file, glyphs, i);
    EndIsSum(glyphs[..i], |glyphs|);
    StandsAs(file, 10 + 15 * i, glyphs[i], BitmapStart(glyphs, i));
  }

  lemma {:induction false} HeaderStands(pixelSize: int, ascent: int, glyphs: seq<Glyph>)
    requires Packable(pixelSize, ascent, glyphs)
    ensures var file := FontFile(pixelSize, ascent, glyphs);
      && |file| == BitmapStart(glyphs, |glyphs|) && file[..4] == [0x48, 0x58, 0x46, 0x31]
      && HoldsWord(file, 4, pixelSize) && HoldsWord(file, 6, ascent) && HoldsWord(file, 8, |glyphs|)
  {
    var file := FontFile(pixelSize, ascent, glyphs);
    HeaderRoundTrip(pixelSize, ascent, glyphs);
    WordHeld(file, 4);
    WordHeld(file, 6);
    WordHeld(file, 8);
    FileEnds(pixelSize, ascent, glyphs);
    EndIsSum(glyphs, |glyphs|);
    assert glyphs[..|glyphs|] == glyphs;
  }

  /** A written file is the magic, the size, the ascent and the number of glyphs, then 15 bytes for
      each glyph with its measures, then the bitmaps at the offsets that the records give, without
      gap or overlap. */
  lemma {:induction false} FileTiles(pixelSize: int, ascent: int, glyphs: seq<Glyph>)
    requires Packable(pixelSize, ascent, glyphs)
    ensures var file := FontFile(pixelSize, ascent, glyphs);
      && |file| == BitmapStart(glyphs, |glyphs|) && file[..4] == [0x48, 0x58, 0x46, 0x31]
      && HoldsWord(file, 4, pixelSize) && HoldsWord(file, 6, ascent) && HoldsWord(file, 8, |glyphs|)
    ensures forall i | 0 <= i < |glyphs| ::
      && RecordStands(FontFile(pixelSize, ascent, glyphs), 10 + 15 * i, glyphs[i], BitmapStart(glyphs, i))
      && HoldsAt(FontFile(pixelSize, ascent, glyphs), BitmapStart(glyphs, i), glyphs[i].pixels)
  {
    HeaderStands(pixelSize, ascent, glyphs);
    var file := FontFile(pixelSize, ascent, glyphs);
    forall i | 0 <= i < |glyphs|
      ensures RecordStands(file, 10 + 15 * i, glyphs[i], BitmapStart(glyphs, i))
      ensures HoldsAt(file, BitmapStart(glyphs, i), glyphs[i].pixels)
    {
      GlyphTiled(pixelSize, ascent, glyphs, i);
      TiledRecord(file, glyphs, i);
    }
  }

  /** The tool can write a font exactly when each number fits its field. */
  lemma {:induction false} PackableExactly(pixelSize: int, ascent: int, glyphs: seq<Glyph>)
    ensures Packable(pixelSize, ascent, glyphs) <==>
      && 0 <= pixelSize <= 65535 && -32768 <= ascent <= 32767 && |glyphs| <= 65535
      && forall i | 0 <= i < |glyphs| :: GlyphFits(glyphs[i], BitmapStart(glyphs, i))
  {
    forall i | 0 <= i < |glyphs|
      ensures RecordFits(Records(glyphs, |glyphs|)[i]) <==> GlyphFits(glyphs[i], BitmapStart(glyphs, i))
    {
      RecordsAt(glyphs, |glyphs|, i);
      EndIsSum(glyphs[..i], |glyphs|);
    }
    assert forall i | 0 <= i < |glyphs| ::
        RecordFits(Records(glyphs, |glyphs|)[i]) <==> GlyphFits(glyphs[i], BitmapStart(glyphs, i));
  }

  predicate GlyphFits(g: Glyph, offset: int) {
    && 0 <= g.code <= 255 && -32768 <= g.left - 2 <= 32767 && -32768 <= 2 - g.top <= 32767
    && -32768 <= g.advance <= 32767 && Padded(g.right - g.left) <= 65535 && Padded(g.bottom - g.top) <= 65535
    && offset <= 4294967295
  }

  // ---- the firmware ----

  /** The firmware loads a written font exactly when its size and ascent are positive, it has
      between 1 and 96 glyphs and the file is no longer than 64 KiB. */
  lemma {:induction false} WrittenFontLoads(pixelSize: int, ascent: int, glyphs: seq<Glyph>)
    requires Packable(pixelSize, ascent, glyphs) && AllRastered(glyphs)
    ensures Loads(FontFile(pixelSize, ascent, glyphs)) <==>
      pixelSize > 0 && ascent > 0 && 0 < |glyphs| <= 96 && BitmapStart(glyphs, |glyphs|) <= 65536
  {
    var file := FontFile(pixelSize, ascent, glyphs);
    HeaderRoundTrip(pixelSize, ascent, glyphs);
    HeaderStands(pixelSize, ascent, glyphs);
    if HeaderLoads(file) {
      forall i | 0 <= i < |LoadedRecords(file)| ensures BitmapInside(LoadedRecords(file)[i], |file|) {
        GlyphTiled(pixelSize, ascent, glyphs, i);
        GlyphLoads(file, glyphs, i);
      }
    }
  }

  /** The i-th loaded record has the measures of the glyph and the place of its bitmap, and as many
      bytes as the record is wide and high stand there as were drawn. */
  predicate LoadedBack(file: seq<byte>, glyphs: seq<Glyph>, i: nat)
    requires HeaderLoads(file) && i < |glyphs|
  {
    var records, start := LoadedRecords(file), BitmapStart(glyphs, i);
    && i < |records| && Measures(records[i], glyphs[i], start)
    && HoldsAt(file, start, glyphs[i].pixels) && records[i].width * records[i].height == |glyphs[i].pixels|
  }

  lemma {:induction false} LoadedIsBack(file: seq<byte>, glyphs: seq<Glyph>, i: nat)
    requires HeaderLoads(file) && i < |glyphs| && glyphs[i].Rastered() && Tiled(file, glyphs, i)
    requires LoadedAt(file, glyphs, i)
    ensures LoadedBack(file, glyphs, i)
  {
    TiledRecord(file, glyphs, i);
    EndIsSum(glyphs[..i], |glyphs|);
  }

  /** A loaded font is the written one: its size, its ascent, the measures of each glyph, and at
      the stored offset exactly the bitmap of that glyph. */
  lemma {:induction false} FontRoundTrip(pixelSize: int, ascent: int, glyphs: seq<Glyph>, i: nat)
    requires Packable(pixelSize, ascent, glyphs) && AllRastered(glyphs) && i < |glyphs|
    requires Loads(FontFile(pixelSize, ascent, glyphs))
    ensures var file := FontFile(pixelSize, ascent, glyphs);
      && U16At(file, 4) == pixelSize && Signed16(U16At(file, 6)) == ascent
      && |LoadedRecords(file)| == |glyphs| && LoadedBack(file, glyphs, i)
  {
    HeaderRoundTrip(pixelSize, ascent, glyphs);
    GlyphTiled(pixelSize, ascent, glyphs, i);
    GlyphLoads(FontFile(pixelSize, ascent, glyphs), glyphs, i);
    LoadedIsBack(FontFile(pixelSize, ascent, glyphs), glyphs, i);
  }
}
