/** dcnow_vmu.c: the DC Now screen on the VMU. A 48x32 one-bit framebuffer of 192
    bytes, stored rotated by 180 degrees; a 3x5 font; a four-frame refresh spinner;
    and the flag that says whether the DC Now screen is showing.

    Pixel-level meaning: every bit of the bitmap is exactly one pixel (Pixel,
    BitsArePixels), so the drawing operations are specified on the byte sequence
    and their effect is then stated pixel by pixel. */
module DcnowVmu {
  import opened CStrings
  import opened DcnowApi

  const WIDTH: int := 48
  const HEIGHT: int := 32
  /** sizeof(dcnow_vmu_bitmap): 48 * 32 / 8. */
  const BITMAP_SIZE: nat := 192

  /** A bitmap the size of the VMU screen. */
  predicate IsBitmap(b: seq<bv8>) {
    |b| == BITMAP_SIZE
  }

  /** The all-clear bitmap memset leaves. */
  function Blank(): (b: seq<bv8>)
    ensures IsBitmap(b) && forall i :: 0 <= i < |b| ==> b[i] == 0
  {
    seq(BITMAP_SIZE, _ => 0)
  }

  predicate OnScreen(x: int, y: int) {
    0 <= x < WIDTH && 0 <= y < HEIGHT
  }

  /** The bit a pixel is stored in: both axes flipped, then row-major, most
      significant bit first within a byte. */
  function BitIndex(x: int, y: int): (n: nat)
    requires OnScreen(x, y)
    ensures n < 8 * BITMAP_SIZE
  {
    (HEIGHT - 1 - y) * WIDTH + (WIDTH - 1 - x)
  }

  /** 1 << k on an unsigned char (MaskIsShift), built up one doubling at a time. */
  function Mask(k: nat): bv8
    requires k < 8
  {
    if k == 0 then 1 else Mask(k - 1) << 1
  }

  /** The eight masks. */
  lemma MaskValue(k: nat)
    requires k < 8
    ensures Mask(k) == if k == 0 then 0x01 else if k == 1 then 0x02 else if k == 2 then 0x04
      else if k == 3 then 0x08 else if k == 4 then 0x10 else if k == 5 then 0x20
      else if k == 6 then 0x40 else 0x80
  {
    if k > 0 {
      MaskValue(k - 1);
    }
  }

  lemma MaskIsShift(k: nat)
    requires k < 8
    ensures Mask(k) == (1 as bv8) << k
  {
    MaskValue(k);
  }

  /** Whether bit k of a byte is set. */
  predicate ByteBit(v: bv8, k: nat)
    requires k < 8
  {
    v & Mask(k) != 0
  }

  /** Bit n of the bitmap, counting from the most significant bit of byte 0. */
  predicate BitOf(b: seq<bv8>, n: nat)
    requires n < 8 * |b|
  {
    ByteBit(b[n / 8], 7 - n % 8)
  }

  /** Whether pixel (x, y) is lit. */
  predicate Pixel(b: seq<bv8>, x: int, y: int)
    requires IsBitmap(b) && OnScreen(x, y)
  {
    BitOf(b, BitIndex(x, y))
  }

  /** vmu_set_pixel on the bitmap's contents. */
  function WithPixel(b: seq<bv8>, x: int, y: int, on: bool): (r: seq<bv8>)
    requires IsBitmap(b)
    ensures IsBitmap(r)
  {
    if !OnScreen(x, y) then b else WithBit(b, BitIndex(x, y), on)
  }

  /** Bit n set (on) or cleared. */
  function WithBit(b: seq<bv8>, n: nat, on: bool): (r: seq<bv8>)
    requires n < 8 * |b|
    ensures |r| == |b|
  {
    var i := n / 8;
    b[i := Update(b[i], 7 - n % 8, on)]
  }

  /** byte |= 1 << k, or byte &= ~(1 << k). */
  function Update(v: bv8, k: nat, on: bool): bv8
    requires k < 8
  {
    if on then v | Mask(k) else v & !Mask(k)
  }

  // ---------------------------------------------------------------------------
  // Bits and pixels

  lemma UpdateBit(v: bv8, k: nat, on: bool, j: nat)
    requires k < 8 && j < 8
    ensures ByteBit(Update(v, k, on), j) <==> if j == k then on else ByteBit(v, j)
  {
    MaskValue(k);
    MaskValue(j);
  }

  lemma UpdateTwice(v: bv8, k: nat, first: bool, second: bool)
    requires k < 8
    ensures Update(Update(v, k, first), k, second) == Update(v, k, second)
    ensures !ByteBit(v, k) ==> Update(v, k, false) == v
  {
    MaskValue(k);
  }

  /** A byte is determined by its eight bits. */
  lemma ByteBits(v: bv8, w: bv8)
    requires forall j :: 0 <= j < 8 ==> (ByteBit(v, j) <==> ByteBit(w, j))
    ensures v == w
  {
    assert ByteBit(v, 0) <==> ByteBit(w, 0);
    assert ByteBit(v, 1) <==> ByteBit(w, 1);
    assert ByteBit(v, 2) <==> ByteBit(w, 2);
    assert ByteBit(v, 3) <==> ByteBit(w, 3);
    assert ByteBit(v, 4) <==> ByteBit(w, 4);
    assert ByteBit(v, 5) <==> ByteBit(w, 5);
    assert ByteBit(v, 6) <==> ByteBit(w, 6);
    assert ByteBit(v, 7) <==> ByteBit(w, 7);
  }

  /** The pixel a bit holds. */
  function PixelOf(n: nat): (p: (int, int))
    requires n < 8 * BITMAP_SIZE
    ensures OnScreen(p.0, p.1) && BitIndex(p.0, p.1) == n
  {
    (WIDTH - 1 - n % WIDTH, HEIGHT - 1 - n / WIDTH)
  }

  /** Distinct pixels are stored in distinct bits. */
  lemma BitIndexInjective(x: int, y: int, u: int, v: int)
    requires OnScreen(x, y) && OnScreen(u, v) && BitIndex(x, y) == BitIndex(u, v)
    ensures x == u && y == v
  {
  }

  /** Every bit is a pixel: two bitmaps that light the same pixels are equal. */
  lemma BitsArePixels(b: seq<bv8>, c: seq<bv8>)
    requires IsBitmap(b) && IsBitmap(c)
    requires forall x, y :: OnScreen(x, y) ==> (Pixel(b, x, y) <==> Pixel(c, x, y))
    ensures b == c
  {
    forall i | 0 <= i < BITMAP_SIZE ensures b[i] == c[i] {
      forall j | 0 <= j < 8 ensures (ByteBit(b[i], j) <==> ByteBit(c[i], j)) {
        var n := 8 * i + (7 - j);
        var p := PixelOf(n);
        assert Pixel(b, p.0, p.1) <==> Pixel(c, p.0, p.1);
        assert n / 8 == i && 7 - n % 8 == j;
      }
      ByteBits(b[i], c[i]);
    }
  }

  /** Setting or clearing a bit changes that bit and no other. */
  lemma WithBitEffect(b: seq<bv8>, n: nat, on: bool, p: nat)
    requires n < 8 * |b| && p < 8 * |b|
    ensures BitOf(WithBit(b, n, on), p) == if p == n then on else BitOf(b, p)
  {
    ByteEffect(b, n / 8, 7 - n % 8, on, p / 8, 7 - p % 8);
    SameBit(n, p);
  }

  /** Updating bit k of byte i changes that bit of the sequence and no other. */
  lemma ByteEffect(b: seq<bv8>, i: nat, k: nat, on: bool, q: nat, j: nat)
    requires i < |b| && q < |b| && k < 8 && j < 8
    ensures ByteBit(b[i := Update(b[i], k, on)][q], j) <==>
      if q == i && j == k then on else ByteBit(b[q], j)
  {
    if q == i {
      UpdateBit(b[i], k, on, j);
    }
  }

  /** A bit index is its byte and its position within the byte. */
  lemma SameBit(n: nat, p: nat)
    ensures n == p <==> n / 8 == p / 8 && n % 8 == p % 8
  {
    if n / 8 == p / 8 && n % 8 == p % 8 {
      assert n == 8 * (n / 8) + n % 8;
    }
  }

  /** vmu_set_pixel changes the one pixel it names, and only when it is on screen. */
  lemma WithPixelEffect(b: seq<bv8>, x: int, y: int, on: bool, u: int, v: int)
    requires IsBitmap(b) && OnScreen(u, v)
    ensures Pixel(WithPixel(b, x, y, on), u, v) == if u == x && v == y then on else Pixel(b, u, v)
  {
    if OnScreen(x, y) {
      WithBitEffect(b, BitIndex(x, y), on, BitIndex(u, v));
      if BitIndex(x, y) == BitIndex(u, v) {
        BitIndexInjective(x, y, u, v);
      }
    }
  }

  /** Setting a pixel twice is setting it once. */
  lemma WithPixelIdempotent(b: seq<bv8>, x: int, y: int, on: bool)
    requires IsBitmap(b)
    ensures WithPixel(WithPixel(b, x, y, on), x, y, on) == WithPixel(b, x, y, on)
  {
    if OnScreen(x, y) {
      WithBitTwice(b, BitIndex(x, y), on, on);
    }
  }

  /** Clearing a pixel just set is clearing it; so setting then clearing a pixel that
      was clear gives back the bitmap. */
  lemma SetThenClear(b: seq<bv8>, x: int, y: int)
    requires IsBitmap(b)
    ensures WithPixel(WithPixel(b, x, y, true), x, y, false) == WithPixel(b, x, y, false)
    ensures OnScreen(x, y) && !Pixel(b, x, y) ==> WithPixel(WithPixel(b, x, y, true), x, y, false) == b
  {
    if OnScreen(x, y) {
      var n := BitIndex(x, y);
      WithBitTwice(b, n, true, false);
      if !BitOf(b, n) {
        ClearedBit(b, n);
      }
    }
  }

  /** The second of two updates of the same bit is the one that counts. */
  lemma WithBitTwice(b: seq<bv8>, n: nat, first: bool, second: bool)
    requires n < 8 * |b|
    ensures WithBit(WithBit(b, n, first), n, second) == WithBit(b, n, second)
  {
    UpdateTwice(b[n / 8], 7 - n % 8, first, second);
  }

  /** Clearing a bit that is clear changes nothing. */
  lemma ClearedBit(b: seq<bv8>, n: nat)
    requires n < 8 * |b| && !BitOf(b, n)
    ensures WithBit(b, n, false) == b
  {
    UpdateTwice(b[n / 8], 7 - n % 8, false, false);
    assert b[n / 8 := b[n / 8]] == b;
  }

  // ---------------------------------------------------------------------------
  // The font

  /** Row `row` of one glyph of the table. */
  function Row5(row: nat, r0: bv8, r1: bv8, r2: bv8, r3: bv8, r4: bv8): bv8
    requires row < 5
  {
    if row == 0 then r0 else if row == 1 then r1 else if row == 2 then r2 else if row == 3 then r3 else r4
  }

  /** vmu_font_3x5[i][row]: five rows per glyph, from space (32) to 'Z' (90), each
      row in the low three bits with the leftmost column in bit 2. */
  function FontRow(i: nat, row: nat): bv8
    requires i < FONT_GLYPHS && row < 5
  {
    if i == 0 then Row5(row, 0x0, 0x0, 0x0, 0x0, 0x0)  // space
    else if i == 1 then Row5(row, 0x2, 0x2, 0x2, 0x0, 0x2)  // !
    else if i == 2 then Row5(row, 0x5, 0x5, 0x0, 0x0, 0x0)  // "
    else if i == 3 then Row5(row, 0x5, 0x7, 0x5, 0x7, 0x5)  // #
    else if i == 4 then Row5(row, 0x2, 0x6, 0x2, 0x3, 0x2)  // $
    else if i == 5 then Row5(row, 0x5, 0x1, 0x2, 0x4, 0x5)  // %
    else if i == 6 then Row5(row, 0x4, 0x4, 0x2, 0x5, 0x2)  // &
    else if i == 7 then Row5(row, 0x2, 0x2, 0x0, 0x0, 0x0)  // '
    else if i == 8 then Row5(row, 0x1, 0x2, 0x2, 0x2, 0x1)  // (
    else if i == 9 then Row5(row, 0x4, 0x2, 0x2, 0x2, 0x4)  // )
    else if i == 10 then Row5(row, 0x0, 0x5, 0x2, 0x5, 0x0)  // *
    else if i == 11 then Row5(row, 0x0, 0x2, 0x7, 0x2, 0x0)  // +
    else if i == 12 then Row5(row, 0x0, 0x0, 0x0, 0x2, 0x4)  // ,
    else if i == 13 then Row5(row, 0x0, 0x0, 0x7, 0x0, 0x0)  // -
    else if i == 14 then Row5(row, 0x0, 0x0, 0x0, 0x0, 0x2)  // .
    else if i == 15 then Row5(row, 0x0, 0x1, 0x2, 0x4, 0x0)  // /
    else if i == 16 then Row5(row, 0x7, 0x5, 0x5, 0x5, 0x7)  // 0
    else if i == 17 then Row5(row, 0x2, 0x6, 0x2, 0x2, 0x7)  // 1
    else if i == 18 then Row5(row, 0x7, 0x1, 0x7, 0x4, 0x7)  // 2
    else if i == 19 then Row5(row, 0x7, 0x1, 0x7, 0x1, 0x7)  // 3
    else if i == 20 then Row5(row, 0x5, 0x5, 0x7, 0x1, 0x1)  // 4
    else if i == 21 then Row5(row, 0x7, 0x4, 0x7, 0x1, 0x7)  // 5
    else if i == 22 then Row5(row, 0x7, 0x4, 0x7, 0x5, 0x7)  // 6
    else if i == 23 then Row5(row, 0x7, 0x1, 0x2, 0x2, 0x2)  // 7
    else if i == 24 then Row5(row, 0x7, 0x5, 0x7, 0x5, 0x7)  // 8
    else if i == 25 then Row5(row, 0x7, 0x5, 0x7, 0x1, 0x7)  // 9
    else if i == 26 then Row5(row, 0x0, 0x2, 0x0, 0x2, 0x0)  // :
    else if i == 27 then Row5(row, 0x0, 0x2, 0x0, 0x2, 0x4)  // ;
    else if i == 28 then Row5(row, 0x1, 0x2, 0x4, 0x2, 0x1)  // <
    else if i == 29 then Row5(row, 0x0, 0x7, 0x0, 0x7, 0x0)  // =
    else if i == 30 then Row5(row, 0x4, 0x2, 0x1, 0x2, 0x4)  // >
    else if i == 31 then Row5(row, 0x7, 0x1, 0x2, 0x0, 0x2)  // ?
    else if i == 32 then Row5(row, 0x7, 0x5, 0x5, 0x4, 0x7)  // @
    else if i == 33 then Row5(row, 0x7, 0x5, 0x7, 0x5, 0x5)  // A
    else if i == 34 then Row5(row, 0x6, 0x5, 0x6, 0x5, 0x6)  // B
    else if i == 35 then Row5(row, 0x7, 0x4, 0x4, 0x4, 0x7)  // C
    else if i == 36 then Row5(row, 0x6, 0x5, 0x5, 0x5, 0x6)  // D
    else if i == 37 then Row5(row, 0x7, 0x4, 0x7, 0x4, 0x7)  // E
    else if i == 38 then Row5(row, 0x7, 0x4, 0x7, 0x4, 0x4)  // F
    else if i == 39 then Row5(row, 0x7, 0x4, 0x5, 0x5, 0x7)  // G
    else if i == 40 then Row5(row, 0x5, 0x5, 0x7, 0x5, 0x5)  // H
    else if i == 41 then Row5(row, 0x7, 0x2, 0x2, 0x2, 0x7)  // I
    else if i == 42 then Row5(row, 0x1, 0x1, 0x1, 0x5, 0x7)  // J
    else if i == 43 then Row5(row, 0x5, 0x5, 0x6, 0x5, 0x5)  // K
    else if i == 44 then Row5(row, 0x4, 0x4, 0x4, 0x4, 0x7)  // L
    else if i == 45 then Row5(row, 0x5, 0x7, 0x7, 0x5, 0x5)  // M
    else if i == 46 then Row5(row, 0x5, 0x7, 0x7, 0x7, 0x5)  // N
    else if i == 47 then Row5(row, 0x7, 0x5, 0x5, 0x5, 0x7)  // O
    else if i == 48 then Row5(row, 0x7, 0x5, 0x7, 0x4, 0x4)  // P
    else if i == 49 then Row5(row, 0x7, 0x5, 0x5, 0x7, 0x3)  // Q
    else if i == 50 then Row5(row, 0x7, 0x5, 0x7, 0x5, 0x5)  // R
    else if i == 51 then Row5(row, 0x7, 0x4, 0x7, 0x1, 0x7)  // S
    else if i == 52 then Row5(row, 0x7, 0x2, 0x2, 0x2, 0x2)  // T
    else if i == 53 then Row5(row, 0x5, 0x5, 0x5, 0x5, 0x7)  // U
    else if i == 54 then Row5(row, 0x5, 0x5, 0x5, 0x5, 0x2)  // V
    else if i == 55 then Row5(row, 0x5, 0x5, 0x7, 0x7, 0x5)  // W
    else if i == 56 then Row5(row, 0x5, 0x5, 0x2, 0x5, 0x5)  // X
    else if i == 57 then Row5(row, 0x5, 0x5, 0x2, 0x2, 0x2)  // Y
    else Row5(row, 0x7, 0x1, 0x2, 0x4, 0x7)  // Z
  }

  /** The number of glyphs in the font. */
  const FONT_GLYPHS: nat := 59

  /** The lowercase-to-uppercase step of vmu_draw_char. */
  function Upper(c: char): (u: char)
    ensures 'a' <= c <= 'z' ==> u as int == c as int - 32 && 'A' <= u <= 'Z'
    ensures !('a' <= c <= 'z') ==> u == c
  {
    if 'a' <= c <= 'z' then (c as int - 'a' as int + 'A' as int) as char else c
  }

  /** The glyph index vmu_draw_char computes, with its bound of 91. */
  function FontIndexAsWritten(c: char): (i: int)
    ensures 0 <= i < 91
  {
    var i := Upper(c) as int - 32;
    if i < 0 || i >= 91 then 0 else i
  }

  /** The glyph index with the bound the table has: anything without a glyph is
      drawn as a space. */
  function FontIndex(c: char): (i: nat)
    ensures i < FONT_GLYPHS
  {
    var i := Upper(c) as int - 32;
    if i < 0 || i >= FONT_GLYPHS then 0 else i
  }

  /** The two bounds agree on every character with a glyph; the bound of 91 lets
      exactly the characters from '[' to '`' through to indices past the table. */
  lemma FontIndexOverrun(c: char)
    ensures FontIndexAsWritten(c) >= FONT_GLYPHS <==> '[' <= c <= '`'
    ensures FontIndexAsWritten(c) < FONT_GLYPHS ==> FontIndex(c) == FontIndexAsWritten(c)
    ensures '[' <= c <= '`' ==> FontIndex(c) == 0
  {
  }

  /** '[' is the first character the bound of 91 sends past the table: its index is
      the number of glyphs, one past the last row of vmu_font_3x5. */
  lemma FontOverrunExample()
    ensures FontIndexAsWritten('[') == FONT_GLYPHS && FontIndex('[') == 0
  {
  }

  /** The five rows of the glyph vmu_draw_char uses for c. */
  function Glyph(c: char): (g: seq<bv8>)
    ensures |g| == 5
  {
    var i := FontIndex(c);
    [FontRow(i, 0), FontRow(i, 1), FontRow(i, 2), FontRow(i, 3), FontRow(i, 4)]
  }

  /** Row row of c's glyph is the font table's entry for c's index. */
  lemma GlyphRow(c: char, row: nat)
    requires row < 5
    ensures Glyph(c)[row] == FontRow(FontIndex(c), row)
  {
  }

  /** The three cells of a glyph row, left to right: bit 2 - col of row_data. */
  function RowCells(rowData: bv8): (cells: seq<bool>)
    ensures |cells| == 3 && forall col :: 0 <= col < 3 ==> cells[col] == ByteBit(rowData, 2 - col)
  {
    [ByteBit(rowData, 2), ByteBit(rowData, 1), ByteBit(rowData, 0)]
  }

  /** The first col cells of one glyph row stamped at row y: unlit cells are
      skipped, lit ones set. */
  function StampRow(b: seq<bv8>, x: int, y: int, cells: seq<bool>, col: nat): (r: seq<bv8>)
    requires IsBitmap(b) && col <= |cells|
    ensures IsBitmap(r)
  {
    if col == 0 then b
    else
      var r := StampRow(b, x, y, cells, col - 1);
      if cells[col - 1] then WithPixel(r, x + col - 1, y, true) else r
  }

  /** The first rows rows of a glyph stamped at (x, y). */
  function StampRows(b: seq<bv8>, x: int, y: int, g: seq<bv8>, rows: nat): (r: seq<bv8>)
    requires IsBitmap(b) && |g| == 5 && rows <= 5
    ensures IsBitmap(r)
  {
    if rows == 0 then b else StampRow(StampRows(b, x, y, g, rows - 1), x, y + rows - 1, RowCells(g[rows - 1]), 3)
  }

  /** Stamping one more row on top of the first rows rows. */
  lemma StampRowsStep(b: seq<bv8>, x: int, y: int, g: seq<bv8>, rows: nat, before: seq<bv8>, after: seq<bv8>)
    requires IsBitmap(b) && |g| == 5 && rows < 5
    requires before == StampRows(b, x, y, g, rows)
    requires after == StampRow(before, x, y + rows, RowCells(g[rows]), 3)
    ensures after == StampRows(b, x, y, g, rows + 1)
  {
  }

  /** vmu_draw_char on the bitmap's contents. */
  function DrawnChar(b: seq<bv8>, x: int, y: int, c: char): (r: seq<bv8>)
    requires IsBitmap(b)
    ensures IsBitmap(r)
  {
    StampRows(b, x, y, Glyph(c), 5)
  }

  /** Whether a glyph drawn at (x, y) covers pixel (u, v). */
  predicate GlyphCovers(x: int, y: int, g: seq<bv8>, u: int, v: int)
    requires |g| == 5
  {
    x <= u < x + 3 && y <= v < y + 5 && RowCells(g[v - y])[u - x]
  }

  lemma {:induction false} StampRowPixels(b: seq<bv8>, x: int, y: int, cells: seq<bool>, col: nat, u: int, v: int)
    requires IsBitmap(b) && col <= |cells| && OnScreen(u, v)
    ensures Pixel(StampRow(b, x, y, cells, col), u, v) <==>
      Pixel(b, u, v) || (v == y && x <= u < x + col && cells[u - x])
  {
    if col > 0 {
      StampRowPixels(b, x, y, cells, col - 1, u, v);
      StampCellPixel(StampRow(b, x, y, cells, col - 1), x + col - 1, y, cells[col - 1], u, v);
    }
  }

  /** Stamping one cell at (cx, cy) lights that pixel when the cell is lit, and
      changes no other. */
  lemma StampCellPixel(r: seq<bv8>, cx: int, cy: int, lit: bool, u: int, v: int)
    requires IsBitmap(r) && OnScreen(u, v)
    ensures var s := if lit then WithPixel(r, cx, cy, true) else r;
      Pixel(s, u, v) <==> Pixel(r, u, v) || (u == cx && v == cy && lit)
  {
    WithPixelEffect(r, cx, cy, true, u, v);
  }

  lemma {:induction false} StampRowsPixels(b: seq<bv8>, x: int, y: int, g: seq<bv8>, rows: nat, u: int, v: int)
    requires IsBitmap(b) && |g| == 5 && rows <= 5 && OnScreen(u, v)
    ensures Pixel(StampRows(b, x, y, g, rows), u, v) <==>
      Pixel(b, u, v) || (GlyphCovers(x, y, g, u, v) && v < y + rows)
  {
    if rows > 0 {
      StampRowsPixels(b, x, y, g, rows - 1, u, v);
      StampRowPixels(StampRows(b, x, y, g, rows - 1), x, y + rows - 1, RowCells(g[rows - 1]), 3, u, v);
    }
  }

  /** vmu_draw_char only turns pixels on, and exactly those of the glyph that fall on
      screen within the 3x5 cell at (x, y). */
  lemma DrawnCharPixels(b: seq<bv8>, x: int, y: int, c: char, u: int, v: int)
    requires IsBitmap(b) && OnScreen(u, v)
    ensures Pixel(DrawnChar(b, x, y, c), u, v) <==> Pixel(b, u, v) || GlyphCovers(x, y, Glyph(c), u, v)
  {
    StampRowsPixels(b, x, y, Glyph(c), 5, u, v);
  }

  // ---------------------------------------------------------------------------
  // Strings

  /** vmu_draw_string from cursor column cx on the bitmap's contents: a newline
      returns to column x and moves down 6 rows; any other character is drawn at
      the cursor, which then moves right 4 columns; the terminator ends the text. */
  function Written(b: seq<bv8>, x: int, cx: int, y: int, s: string): (r: seq<bv8>)
    requires IsBitmap(b)
    ensures IsBitmap(r)
    decreases |s|
  {
    if s == [] || s[0] == NUL then b
    else if s[0] == '\n' then Written(b, x, x, y + 6, s[1..])
    else Written(DrawnChar(b, cx, y, s[0]), x, cx + 4, y, s[1..])
  }

  /** One step of Written at position i of s. */
  lemma WrittenStep(b: seq<bv8>, x: int, cx: int, y: int, s: string, i: nat)
    requires IsBitmap(b) && i < |s| && s[i] != NUL
    ensures Written(b, x, cx, y, s[i..]) ==
      if s[i] == '\n' then Written(b, x, x, y + 6, s[i + 1..])
      else Written(DrawnChar(b, cx, y, s[i]), x, cx + 4, y, s[i + 1..])
  {
    assert s[i..][0] == s[i] && s[i..][1..] == s[i + 1..];
  }

  /** One character of s consumed: a line break moves the cursor to the next
      line, any other character is drawn and moves it one cell right. */
  lemma WrittenAdvance(goal: seq<bv8>, before: seq<bv8>, after: seq<bv8>, x: int, cx: int, cy: int,
                       nx: int, ny: int, s: string, i: nat)
    requires IsBitmap(before) && i < |s| && s[i] != NUL
    requires goal == Written(before, x, cx, cy, s[i..])
    requires s[i] == '\n' ==> after == before && nx == x && ny == cy + 6
    requires s[i] != '\n' ==> after == DrawnChar(before, cx, cy, s[i]) && nx == cx + 4 && ny == cy
    ensures goal == Written(after, x, nx, ny, s[i + 1..])
  {
    WrittenStep(before, x, cx, cy, s, i);
  }

  /** Written stops at the end of s or at its terminator. */
  lemma WrittenEnd(b: seq<bv8>, x: int, cx: int, y: int, s: string, i: nat)
    requires IsBitmap(b) && i <= |s| && (i == |s| || s[i] == NUL)
    ensures Written(b, x, cx, y, s[i..]) == b
  {
  }

  /** The number of characters vmu_draw_string reads before the terminator. */
  function TextLength(s: string): (n: nat)
    ensures n <= |s| && NUL !in s[..n] && (n < |s| ==> s[n] == NUL)
  {
    if s == [] || s[0] == NUL then 0
    else
      var n := 1 + TextLength(s[1..]);
      assert s[..n] == [s[0]] + s[1..][..n - 1];
      n
  }

  /** Where vmu_draw_string puts character j of s, starting at cursor (cx, cy) with
      left margin x. */
  function Cursor(x: int, cx: int, cy: int, s: string, j: nat): (int, int)
    requires j <= |s|
    decreases j
  {
    if j == 0 then (cx, cy)
    else if s[0] == '\n' then Cursor(x, x, cy + 6, s[1..], j - 1)
    else Cursor(x, cx + 4, cy, s[1..], j - 1)
  }

  /** The number of newlines in s. */
  function Newlines(s: string): nat {
    if s == [] then 0 else (if s[0] == '\n' then 1 else 0) + Newlines(s[1..])
  }

  /** The cursor row is the starting row plus 6 per newline read; on the first line
      the cursor column is the starting column plus 4 per character. */
  lemma {:induction false} CursorLayout(x: int, cx: int, cy: int, s: string, j: nat)
    requires j <= |s|
    ensures Cursor(x, cx, cy, s, j).1 == cy + 6 * Newlines(s[..j])
    ensures '\n' !in s[..j] ==> Cursor(x, cx, cy, s, j).0 == cx + 4 * j
    decreases j
  {
    if j > 0 {
      assert s[..j][0] == s[0] && s[..j][1..] == s[1..][..j - 1];
      if s[0] == '\n' {
        CursorLayout(x, x, cy + 6, s[1..], j - 1);
      } else {
        CursorLayout(x, cx + 4, cy, s[1..], j - 1);
        assert '\n' !in s[..j] ==> '\n' !in s[1..][..j - 1];
      }
    }
  }

  /** A newline puts the next character at the left margin, 6 rows down. */
  lemma {:induction false} CursorNewline(x: int, cx: int, cy: int, s: string, j: nat)
    requires j < |s| && s[j] == '\n'
    ensures Cursor(x, cx, cy, s, j + 1) == (x, Cursor(x, cx, cy, s, j).1 + 6)
    decreases j
  {
    if j > 0 {
      if s[0] == '\n' {
        CursorNewline(x, x, cy + 6, s[1..], j - 1);
      } else {
        CursorNewline(x, cx + 4, cy, s[1..], j - 1);
      }
    }
  }

  /** The character after any other character goes 4 columns to the right, on the
      same row. */
  lemma {:induction false} CursorAdvance(x: int, cx: int, cy: int, s: string, j: nat)
    requires j < |s| && s[j] != '\n'
    ensures Cursor(x, cx, cy, s, j + 1) == (Cursor(x, cx, cy, s, j).0 + 4, Cursor(x, cx, cy, s, j).1)
    decreases j
  {
    if j > 0 {
      if s[0] == '\n' {
        CursorAdvance(x, x, cy + 6, s[1..], j - 1);
      } else {
        CursorAdvance(x, cx + 4, cy, s[1..], j - 1);
      }
    }
  }

  /** Whether character j of s, drawn where the cursor puts it, covers pixel (u, v). */
  predicate CharCovers(x: int, cx: int, cy: int, s: string, j: nat, u: int, v: int)
    requires j < |s|
  {
    var p := Cursor(x, cx, cy, s, j);
    s[j] != '\n' && GlyphCovers(p.0, p.1, Glyph(s[j]), u, v)
  }

  /** vmu_draw_string only turns pixels on: exactly those of the glyphs of the
      characters before the terminator, each at its cursor position. */
  lemma {:induction false} WrittenPixels(b: seq<bv8>, x: int, cx: int, y: int, s: string, u: int, v: int)
    requires IsBitmap(b) && OnScreen(u, v)
    ensures Pixel(Written(b, x, cx, y, s), u, v) <==>
      Pixel(b, u, v) || exists j :: 0 <= j < TextLength(s) && CharCovers(x, cx, y, s, j, u, v)
    decreases |s|
  {
    if s != [] && s[0] != NUL {
      var t := s[1..];
      var n := TextLength(s);
      assert n == 1 + TextLength(t);
      var nx, ny := if s[0] == '\n' then x else cx + 4, if s[0] == '\n' then y + 6 else y;
      var d := if s[0] == '\n' then b else DrawnChar(b, cx, y, s[0]);
      assert Written(b, x, cx, y, s) == Written(d, x, nx, ny, t);
      WrittenPixels(d, x, nx, ny, t, u, v);
      DrawnCharPixels(b, cx, y, s[0], u, v);
      assert Pixel(d, u, v) <==> Pixel(b, u, v) || CharCovers(x, cx, y, s, 0, u, v);
      ShiftCovers(x, cx, y, s, u, v);
      if exists j :: 0 <= j < n && CharCovers(x, cx, y, s, j, u, v) {
        var j :| 0 <= j < n && CharCovers(x, cx, y, s, j, u, v);
        if j > 0 {
          assert CharCovers(x, nx, ny, t, j - 1, u, v);
        }
      }
      if exists j :: 0 <= j < n - 1 && CharCovers(x, nx, ny, t, j, u, v) {
        var j :| 0 <= j < n - 1 && CharCovers(x, nx, ny, t, j, u, v);
        assert CharCovers(x, cx, y, s, j + 1, u, v);
      }
    }
  }

  /** After the first character, the text is laid out as if it began at the second
      one, from the cursor the first leaves. */
  lemma ShiftCovers(x: int, cx: int, cy: int, s: string, u: int, v: int)
    requires |s| > 0
    ensures var nx, ny := if s[0] == '\n' then x else cx + 4, if s[0] == '\n' then cy + 6 else cy;
      forall j :: 0 <= j < |s| - 1 ==>
        (CharCovers(x, cx, cy, s, j + 1, u, v) <==> CharCovers(x, nx, ny, s[1..], j, u, v))
  {
  }

  // ---------------------------------------------------------------------------
  // The refresh spinner

  /** The pixels of each spinner frame, as offsets into its 3x5 cell: 0 a dash,
      1 a backslash, 2 a bar, 3 a slash; any other frame draws nothing. */
  function SpinnerCells(frame: int): (cells: seq<(int, int)>)
    ensures forall i :: 0 <= i < |cells| ==> 0 <= cells[i].0 < 3 && 0 <= cells[i].1 < 5
  {
    if frame == 0 then [(0, 2), (1, 2), (2, 2)]
    else if frame == 1 then [(0, 0), (1, 2), (2, 4)]
    else if frame == 2 then [(1, 0), (1, 1), (1, 2), (1, 3), (1, 4)]
    else if frame == 3 then [(0, 4), (1, 2), (2, 0)]
    else []
  }

  /** The given offsets from (x, y) set, in order. */
  function LitCells(b: seq<bv8>, x: int, y: int, cells: seq<(int, int)>): (r: seq<bv8>)
    requires IsBitmap(b)
    ensures IsBitmap(r)
    decreases |cells|
  {
    if cells == [] then b else LitCells(WithPixel(b, x + cells[0].0, y + cells[0].1, true), x, y, cells[1..])
  }

  /** vmu_draw_spinner on the bitmap's contents: the switch on the frame, each
      case setting its pixels in turn. */
  function Spun(b: seq<bv8>, x: int, y: int, frame: int): (r: seq<bv8>)
    requires IsBitmap(b)
    ensures IsBitmap(r)
  {
    if frame == 0 then
      WithPixel(WithPixel(WithPixel(b, x, y + 2, true), x + 1, y + 2, true), x + 2, y + 2, true)
    else if frame == 1 then
      WithPixel(WithPixel(WithPixel(b, x, y, true), x + 1, y + 2, true), x + 2, y + 4, true)
    else if frame == 2 then
      WithPixel(WithPixel(WithPixel(WithPixel(WithPixel(b, x + 1, y, true), x + 1, y + 1, true), x + 1, y + 2, true), x + 1, y + 3, true), x + 1, y + 4, true)
    else if frame == 3 then
      WithPixel(WithPixel(WithPixel(b, x, y + 4, true), x + 1, y + 2, true), x + 2, y, true)
    else b
  }

  /** Each case of the switch sets exactly its frame's pattern, in order. */
  lemma SpunIsPattern(b: seq<bv8>, x: int, y: int, frame: int)
    requires IsBitmap(b)
    ensures Spun(b, x, y, frame) == LitCells(b, x, y, SpinnerCells(frame))
  {
    if frame == 0 {
      DashPattern(b, x, y);
    } else if frame == 1 {
      BackslashPattern(b, x, y);
    } else if frame == 2 {
      BarPattern(b, x, y);
    } else if frame == 3 {
      SlashPattern(b, x, y);
    }
  }

  /** Frame 0, the dash. */
  /** Three cells lit in turn. */
  lemma LitCells3(b: seq<bv8>, x: int, y: int, c0: (int, int), c1: (int, int), c2: (int, int))
    requires IsBitmap(b)
    ensures LitCells(b, x, y, [c0, c1, c2]) ==
      WithPixel(WithPixel(WithPixel(b, x + c0.0, y + c0.1, true), x + c1.0, y + c1.1, true), x + c2.0, y + c2.1, true)
  {
    var b1 := WithPixel(b, x + c0.0, y + c0.1, true);
    var b2 := WithPixel(b1, x + c1.0, y + c1.1, true);
    var b3 := WithPixel(b2, x + c2.0, y + c2.1, true);
    assert [c0, c1, c2][1..] == [c1, c2] && [c1, c2][1..] == [c2] && [c2][1..] == [];
    assert LitCells(b, x, y, [c0, c1, c2]) == LitCells(b1, x, y, [c1, c2]);
    assert LitCells(b1, x, y, [c1, c2]) == LitCells(b2, x, y, [c2]);
    assert LitCells(b2, x, y, [c2]) == LitCells(b3, x, y, []);
  }

  /** Five cells lit in turn. */
  lemma LitCells5(b: seq<bv8>, x: int, y: int, c0: (int, int), c1: (int, int), c2: (int, int), c3: (int, int), c4: (int, int))
    requires IsBitmap(b)
    ensures LitCells(b, x, y, [c0, c1, c2, c3, c4]) ==
      LitCells(WithPixel(WithPixel(b, x + c0.0, y + c0.1, true), x + c1.0, y + c1.1, true), x, y, [c2, c3, c4])
  {
    var b1 := WithPixel(b, x + c0.0, y + c0.1, true);
    assert [c0, c1, c2, c3, c4][1..] == [c1, c2, c3, c4] && [c1, c2, c3, c4][1..] == [c2, c3, c4];
    assert LitCells(b, x, y, [c0, c1, c2, c3, c4]) == LitCells(b1, x, y, [c1, c2, c3, c4]);
  }

  lemma DashPattern(b: seq<bv8>, x: int, y: int)
    requires IsBitmap(b)
    ensures LitCells(b, x, y, SpinnerCells(0)) == WithPixel(WithPixel(WithPixel(b, x, y + 2, true), x + 1, y + 2, true), x + 2, y + 2, true)
  {
    LitCells3(b, x, y, (0, 2), (1, 2), (2, 2));
  }


  /** Frame 1, the backslash. */
  lemma BackslashPattern(b: seq<bv8>, x: int, y: int)
    requires IsBitmap(b)
    ensures LitCells(b, x, y, SpinnerCells(1)) == WithPixel(WithPixel(WithPixel(b, x, y, true), x + 1, y + 2, true), x + 2, y + 4, true)
  {
    LitCells3(b, x, y, (0, 0), (1, 2), (2, 4));
  }


  /** Frame 2, the bar. */
  lemma BarPattern(b: seq<bv8>, x: int, y: int)
    requires IsBitmap(b)
    ensures LitCells(b, x, y, SpinnerCells(2)) == WithPixel(WithPixel(WithPixel(WithPixel(WithPixel(b, x + 1, y, true), x + 1, y + 1, true), x + 1, y + 2, true), x + 1, y + 3, true), x + 1, y + 4, true)
  {
    LitCells5(b, x, y, (1, 0), (1, 1), (1, 2), (1, 3), (1, 4));
    LitCells3(WithPixel(WithPixel(b, x + 1, y, true), x + 1, y + 1, true), x, y, (1, 2), (1, 3), (1, 4));
  }




  /** Frame 3, the slash. */
  lemma SlashPattern(b: seq<bv8>, x: int, y: int)
    requires IsBitmap(b)
    ensures LitCells(b, x, y, SpinnerCells(3)) == WithPixel(WithPixel(WithPixel(b, x, y + 4, true), x + 1, y + 2, true), x + 2, y, true)
  {
    LitCells3(b, x, y, (0, 4), (1, 2), (2, 0));
  }


  lemma {:induction false} LitCellsPixels(b: seq<bv8>, x: int, y: int, cells: seq<(int, int)>, u: int, v: int)
    requires IsBitmap(b) && OnScreen(u, v)
    ensures Pixel(LitCells(b, x, y, cells), u, v) <==> Pixel(b, u, v) || (u - x, v - y) in cells
    decreases |cells|
  {
    if cells != [] {
      var c := cells[0];
      LitCellsPixels(WithPixel(b, x + c.0, y + c.1, true), x, y, cells[1..], u, v);
      WithPixelEffect(b, x + c.0, y + c.1, true, u, v);
      assert cells == [c] + cells[1..];
    }
  }

  /** The spinner only turns pixels on, and exactly those of its frame's pattern. */
  lemma SpunPixels(b: seq<bv8>, x: int, y: int, frame: int, u: int, v: int)
    requires IsBitmap(b) && OnScreen(u, v)
    ensures Pixel(Spun(b, x, y, frame), u, v) <==> Pixel(b, u, v) || (u - x, v - y) in SpinnerCells(frame)
    ensures (u - x, v - y) in SpinnerCells(frame) ==> InCell(x, y, u, v)
  {
    SpunIsPattern(b, x, y, frame);
    LitCellsPixels(b, x, y, SpinnerCells(frame), u, v);
  }

  /** Whether (u, v) lies in the 3x5 cell at (x, y). */
  predicate InCell(x: int, y: int, u: int, v: int) {
    x <= u < x + 3 && y <= v < y + 5
  }

  /** The cell's first col pixels of row y cleared, left to right. */
  function ClearRow(b: seq<bv8>, x: int, y: int, col: nat): (r: seq<bv8>)
    requires IsBitmap(b)
    ensures IsBitmap(r)
  {
    if col == 0 then b else WithPixel(ClearRow(b, x, y, col - 1), x + col - 1, y, false)
  }

  /** The first rows rows of the 3x5 cell at (x, y) cleared, top to bottom. */
  function ClearRows(b: seq<bv8>, x: int, y: int, rows: nat): (r: seq<bv8>)
    requires IsBitmap(b)
    ensures IsBitmap(r)
  {
    if rows == 0 then b else ClearRow(ClearRows(b, x, y, rows - 1), x, y + rows - 1, 3)
  }

  lemma {:induction false} ClearRowPixels(b: seq<bv8>, x: int, y: int, col: nat, u: int, v: int)
    requires IsBitmap(b) && OnScreen(u, v)
    ensures Pixel(ClearRow(b, x, y, col), u, v) <==> Pixel(b, u, v) && !(v == y && x <= u < x + col)
  {
    if col > 0 {
      ClearRowPixels(b, x, y, col - 1, u, v);
      WithPixelEffect(ClearRow(b, x, y, col - 1), x + col - 1, y, false, u, v);
    }
  }

  /** Clearing the cell turns off exactly the pixels inside it. */
  lemma {:induction false} ClearRowsPixels(b: seq<bv8>, x: int, y: int, rows: nat, u: int, v: int)
    requires IsBitmap(b) && OnScreen(u, v)
    ensures Pixel(ClearRows(b, x, y, rows), u, v) <==> Pixel(b, u, v) && !(x <= u < x + 3 && y <= v < y + rows)
  {
    if rows > 0 {
      ClearRowsPixels(b, x, y, rows - 1, u, v);
      ClearRowPixels(ClearRows(b, x, y, rows - 1), x, y + rows - 1, 3, u, v);
    }
  }

  /** Where the spinner goes: next to the DCNOW title. */
  const SPINNER_X: int := 24
  const SPINNER_Y: int := 1

  /** The placeholder vmu_overlay_refresh_indicator draws when nothing is showing. */
  function Placeholder(): (r: seq<bv8>)
    ensures IsBitmap(r)
  {
    Written(Written(Blank(), 2, 2, 1, "DCNOW"), 2, 2, 7, "FETCHING")
  }

  /** vmu_overlay_refresh_indicator on the bitmap: the placeholder when inactive,
      the last frame otherwise; then the cell cleared and the spinner of the
      current frame drawn into it. */
  function Overlaid(b: seq<bv8>, active: bool, frame: int): (r: seq<bv8>)
    requires IsBitmap(b)
    ensures IsBitmap(r)
  {
    var base := if active then b else Placeholder();
    Spun(ClearRows(base, SPINNER_X, SPINNER_Y, 5), SPINNER_X, SPINNER_Y, frame)
  }

  /** Inside the spinner cell the overlay shows exactly the spinner of the frame,
      whatever was there before; outside it, on an active screen the old pixels
      stay and on an inactive one the placeholder shows. */
  lemma OverlaidPixels(b: seq<bv8>, active: bool, frame: int, u: int, v: int)
    requires IsBitmap(b) && OnScreen(u, v)
    ensures InCell(SPINNER_X, SPINNER_Y, u, v) ==>
      (Pixel(Overlaid(b, active, frame), u, v) <==> (u - SPINNER_X, v - SPINNER_Y) in SpinnerCells(frame))
    ensures !InCell(SPINNER_X, SPINNER_Y, u, v) ==>
      (Pixel(Overlaid(b, active, frame), u, v) <==> if active then Pixel(b, u, v) else Pixel(Placeholder(), u, v))
  {
    var base := if active then b else Placeholder();
    ClearRowsPixels(base, SPINNER_X, SPINNER_Y, 5, u, v);
    SpunPixels(ClearRows(base, SPINNER_X, SPINNER_Y, 5), SPINNER_X, SPINNER_Y, frame, u, v);
  }

  // ---------------------------------------------------------------------------
  // The games list

  /** The size of the line buffer. */
  const LINE_SIZE: Positive := 16

  /** snprintf into a buffer of size bytes: the text cut to size - 1 characters. */
  function Snprintf(s: string, size: Positive): (r: string)
    ensures |r| == Min(|s|, size - 1) && r <= s
  {
    s[..Min(|s|, size - 1)]
  }

  /** "%.7s" of a C string: at most its first 7 characters. */
  function Precision7(s: string): (r: string)
    ensures |r| == Min(|CStrView(s)|, 7) && r <= CStrView(s)
  {
    CStrView(s)[..Min(|CStrView(s)|, 7)]
  }

  /** The second line: "TOT:%d" of the total player count. */
  function TotalLine(total: int): string {
    Snprintf("TOT:" + FormatInt(total), LINE_SIZE)
  }

  /** The name a game is listed under: its code when game_code[0] is not the
      terminator, its name otherwise. */
  function Label(g: DcnowGame): string {
    if g.gameCode != [] && g.gameCode[0] != NUL then g.gameCode else g.gameName
  }

  /** A game's line: "%.7s:%d" of its label and player count. */
  function GameLine(g: DcnowGame): string {
    Snprintf(Precision7(Label(g)) + ":" + FormatInt(g.playerCount), LINE_SIZE)
  }

  /** A game's line fits the buffer and starts with the label, cut to 7 characters,
      and a colon; the label is the code when there is one, the name otherwise. */
  lemma GameLineShape(g: DcnowGame)
    ensures var p := Precision7(Label(g));
      |GameLine(g)| <= LINE_SIZE - 1 && |p| <= 7 && GameLine(g)[..|p| + 1] == p + ":"
    ensures g.gameCode != [] && g.gameCode[0] != NUL ==> Precision7(Label(g)) == Precision7(g.gameCode)
    ensures g.gameCode == [] || g.gameCode[0] == NUL ==> Precision7(Label(g)) == Precision7(g.gameName)
  {
    var p := Precision7(Label(g));
    var s := p + ":" + FormatInt(g.playerCount);
    assert s[..|p| + 1] == p + ":";
  }

  /** max_games: game_count capped at 3. */
  function MaxGames(d: DcnowData): (n: int)
    ensures n <= 3 && n <= d.gameCount && (n == 3 || n == d.gameCount)
  {
    if d.gameCount < 3 then d.gameCount else 3
  }

  /** The list loop from game i with the next line at row y: each line is drawn,
      the row moves down 6, and the loop stops once the row passes 26. */
  function ListFrom(b: seq<bv8>, games: seq<DcnowGame>, i: nat, n: int, y: int): (r: seq<bv8>)
    requires IsBitmap(b) && n <= |games|
    ensures IsBitmap(r)
    decreases n - i
  {
    if i >= n then b
    else
      var drawn := Written(b, 2, 2, y, GameLine(games[i]));
      if y + 6 > 26 then drawn else ListFrom(drawn, games, i + 1, n, y + 6)
  }

  /** The title and the total, on a cleared bitmap. */
  function Header(d: DcnowData): (r: seq<bv8>)
    ensures IsBitmap(r)
  {
    Written(Written(Blank(), 2, 2, 1, "DCNOW"), 2, 2, 7, TotalLine(d.totalPlayers))
  }

  /** vmu_render_games_list: the header, then the games from row 13. */
  function Rendered(d: DcnowData): (r: seq<bv8>)
    requires MaxGames(d) <= |d.games|
    ensures IsBitmap(r)
  {
    ListFrom(Header(d), d.games, 0, MaxGames(d), 13)
  }

  /** The first k game lines at rows 13, 19, 25, ..., with no height check. */
  function Lines(b: seq<bv8>, games: seq<DcnowGame>, k: nat): (r: seq<bv8>)
    requires IsBitmap(b) && k <= |games|
    ensures IsBitmap(r)
  {
    if k == 0 then b else Written(Lines(b, games, k - 1), 2, 2, 13 + 6 * (k - 1), GameLine(games[k - 1]))
  }

  lemma {:induction false} ListFromLines(b: seq<bv8>, games: seq<DcnowGame>, i: nat, n: nat)
    requires IsBitmap(b) && i <= n <= 3 && n <= |games|
    ensures ListFrom(Lines(b, games, i), games, i, n, 13 + 6 * i) == Lines(b, games, n)
    decreases n - i
  {
    var y := 13 + 6 * i;
    if i == n {
      ListFromEnd(Lines(b, games, i), games, i, n, y);
    } else {
      var drawn := Lines(b, games, i + 1);
      LinesStep(b, games, i);
      ListFromStep(Lines(b, games, i), games, i, n, y);
      if i < 2 {
        calc {
          ListFrom(Lines(b, games, i), games, i, n, y);
          ListFrom(drawn, games, i + 1, n, y + 6);
          { ListFromLines(b, games, i + 1, n); }
          Lines(b, games, n);
        }
      } else {
        assert y + 6 > 26 && n == i + 1;
        assert ListFrom(Lines(b, games, i), games, i, n, y) == drawn;
      }
    }
  }

  lemma ListFromEnd(b: seq<bv8>, games: seq<DcnowGame>, i: nat, n: int, y: int)
    requires IsBitmap(b) && n <= |games| && i >= n
    ensures ListFrom(b, games, i, n, y) == b
  {
  }

  lemma ListFromStep(b: seq<bv8>, games: seq<DcnowGame>, i: nat, n: int, y: int)
    requires IsBitmap(b) && i < n <= |games|
    ensures var drawn := Written(b, 2, 2, y, GameLine(games[i]));
      ListFrom(b, games, i, n, y) == if y + 6 > 26 then drawn else ListFrom(drawn, games, i + 1, n, y + 6)
  {
  }

  /** The last pass of the list loop: the line drawn and the row past 26. */
  lemma ListFromLast(goal: seq<bv8>, before: seq<bv8>, after: seq<bv8>, games: seq<DcnowGame>, i: nat, n: int, y: int)
    requires IsBitmap(before) && i < n <= |games| && y + 6 > 26
    requires goal == ListFrom(before, games, i, n, y)
    requires after == Written(before, 2, 2, y, GameLine(games[i]))
    ensures goal == after
  {
    ListFromStep(before, games, i, n, y);
  }

  /** A pass of the list loop that goes on: the rest of the list from the next
      row. */
  lemma ListFromNext(goal: seq<bv8>, before: seq<bv8>, after: seq<bv8>, games: seq<DcnowGame>, i: nat, n: int, y: int)
    requires IsBitmap(before) && i < n <= |games| && y + 6 <= 26
    requires goal == ListFrom(before, games, i, n, y)
    requires after == Written(before, 2, 2, y, GameLine(games[i]))
    ensures goal == ListFrom(after, games, i + 1, n, y + 6)
  {
    ListFromStep(before, games, i, n, y);
  }

  lemma LinesStep(b: seq<bv8>, games: seq<DcnowGame>, k: nat)
    requires IsBitmap(b) && k < |games|
    ensures Lines(b, games, k + 1) == Written(Lines(b, games, k), 2, 2, 13 + 6 * k, GameLine(games[k]))
  {
  }

  /** The height check never cuts the list short: every one of the first
      min(game_count, 3) games gets its line, at rows 13, 19 and 25, and no other
      game is listed. */
  lemma RenderedGames(d: DcnowData)
    requires MaxGames(d) <= |d.games|
    ensures Rendered(d) == Lines(Header(d), d.games, if MaxGames(d) < 0 then 0 else MaxGames(d))
  {
    if MaxGames(d) >= 0 {
      ListFromLines(Header(d), d.games, 0, MaxGames(d));
    }
  }

  // ---------------------------------------------------------------------------
  // The display state

  /** What the last push put on the VMU screens. */
  datatype Screen = Untouched | Icon(bits: seq<bv8>) | Logo

  /** The module's static state: the bitmap, the spinner frame, whether the DC Now
      screen is showing, and what was last pushed to the VMUs. */
  class Vmu {
    const bitmap: array<bv8>
    var frame: int
    var active: bool
    var shown: Screen

    /** The bitmap has the screen's size, the spinner frame is one of the four, and
        the flag is set exactly when the last push was a DC Now picture. */
    ghost predicate Valid()
      reads this
    {
      bitmap.Length == BITMAP_SIZE && 0 <= frame < 4 && (active <==> shown.Icon?)
    }

    /** The zero-initialised statics. */
    constructor ()
      ensures Valid() && fresh(bitmap) && bitmap[..] == Blank()
      ensures frame == 0 && !active && shown == Untouched
    {
      bitmap := new bv8[BITMAP_SIZE](_ => 0);
      frame := 0;
      active := false;
      shown := Untouched;
    }

    /** vmu_set_pixel. */
    method SetPixel(x: int, y: int, on: bool)
      requires Valid()
      modifies bitmap
      ensures bitmap[..] == WithPixel(old(bitmap[..]), x, y, on)
    {
      if x < 0 || x >= WIDTH || y < 0 || y >= HEIGHT {
        return;
      }
      var fx := WIDTH - 1 - x;
      var fy := HEIGHT - 1 - y;
      var byteIndex := (fy * WIDTH + fx) / 8;
      var bitIndex := 7 - (fy * WIDTH + fx) % 8;
      ghost var n := BitIndex(x, y);
      assert byteIndex == n / 8 && bitIndex == 7 - n % 8;
      UpdateByte(byteIndex, bitIndex, on);
    }

    /** The masking step of vmu_set_pixel: bit k of byte i set or cleared. */
    method UpdateByte(i: nat, k: nat, on: bool)
      requires Valid() && i < BITMAP_SIZE && k < 8
      modifies bitmap
      ensures bitmap[..] == old(bitmap[..])[i := Update(old(bitmap[i]), k, on)]
    {
      var mask := Mask(k);
      if on {
        bitmap[i] := bitmap[i] | mask;
      } else {
        bitmap[i] := bitmap[i] & !mask;
      }
    }

    /** vmu_draw_char: the glyph's rows top to bottom. */
    method DrawChar(x: int, y: int, c: char)
      requires Valid()
      modifies bitmap
      ensures bitmap[..] == DrawnChar(old(bitmap[..]), x, y, c)
    {
      var fontIndex := FontIndex(c);
      ghost var g := Glyph(c);
      ghost var b0 := bitmap[..];
      for row := 0 to 5
        invariant bitmap[..] == StampRows(b0, x, y, g, row)
      {
        var rowData := FontRow(fontIndex, row);
        GlyphRow(c, row);
        ghost var before := bitmap[..];
        DrawRow(x, y + row, rowData);
        StampRowsStep(b0, x, y, g, row, before, bitmap[..]);
      }
    }

    /** The inner loop of vmu_draw_char: one row's cells left to right, each lit
        one set. */
    method DrawRow(x: int, y: int, rowData: bv8)
      requires Valid()
      modifies bitmap
      ensures bitmap[..] == StampRow(old(bitmap[..]), x, y, RowCells(rowData), 3)
    {
      for col := 0 to 3
        invariant bitmap[..] == StampRow(old(bitmap[..]), x, y, RowCells(rowData), col)
      {
        if rowData & Mask(2 - col) != 0 {
          SetPixel(x + col, y, true);
        }
      }
    }

    /** vmu_draw_string, with the C string given as its characters. */
    method DrawString(x: int, y: int, s: string)
      requires Valid()
      modifies bitmap
      ensures bitmap[..] == Written(old(bitmap[..]), x, x, y, s)
    {
      var curX, curY, i := x, y, 0;
      while i < |s| && s[i] != NUL
        invariant i <= |s|
        invariant Written(old(bitmap[..]), x, x, y, s) == Written(bitmap[..], x, curX, curY, s[i..])
        decreases |s| - i
      {
        ghost var before, cx, cy := bitmap[..], curX, curY;
        if s[i] == '\n' {
          curX := x;
          curY := curY + 6;
          WrittenAdvance(Written(old(bitmap[..]), x, x, y, s), before, before, x, cx, cy, curX, curY, s, i);
        } else {
          DrawChar(curX, curY, s[i]);
          curX := curX + 4;
          WrittenAdvance(Written(old(bitmap[..]), x, x, y, s), before, bitmap[..], x, cx, cy, curX, curY, s, i);
        }
        i := i + 1;
      }
    }

    /** vmu_draw_spinner: the pattern of the current frame. */
    method DrawSpinner(x: int, y: int)
      requires Valid()
      modifies bitmap
      ensures bitmap[..] == Spun(old(bitmap[..]), x, y, frame)
    {
      if frame == 0 {
        SetPixel(x, y + 2, true);
        SetPixel(x + 1, y + 2, true);
        SetPixel(x + 2, y + 2, true);
      } else if frame == 1 {
        SetPixel(x, y, true);
        SetPixel(x + 1, y + 2, true);
        SetPixel(x + 2, y + 4, true);
      } else if frame == 2 {
        SetPixel(x + 1, y, true);
        SetPixel(x + 1, y + 1, true);
        SetPixel(x + 1, y + 2, true);
        SetPixel(x + 1, y + 3, true);
        SetPixel(x + 1, y + 4, true);
      } else if frame == 3 {
        SetPixel(x, y + 4, true);
        SetPixel(x + 1, y + 2, true);
        SetPixel(x + 2, y, true);
      }
    }

    /** The nested loops of vmu_overlay_refresh_indicator that clear the spinner
        cell, rows top to bottom. */
    method ClearSpinnerCell()
      requires Valid()
      modifies bitmap
      ensures bitmap[..] == ClearRows(old(bitmap[..]), SPINNER_X, SPINNER_Y, 5)
    {
      for dy := 0 to 5
        invariant bitmap[..] == ClearRows(old(bitmap[..]), SPINNER_X, SPINNER_Y, dy)
      {
        ClearCellRow(SPINNER_Y + dy);
      }
    }

    /** The inner loop: the cell's three pixels of row y cleared, left to right. */
    method ClearCellRow(y: int)
      requires Valid()
      modifies bitmap
      ensures bitmap[..] == ClearRow(old(bitmap[..]), SPINNER_X, y, 3)
    {
      for dx := 0 to 3
        invariant bitmap[..] == ClearRow(old(bitmap[..]), SPINNER_X, y, dx)
      {
        SetPixel(SPINNER_X + dx, y, false);
      }
    }

    /** memset(dcnow_vmu_bitmap, 0, sizeof(dcnow_vmu_bitmap)). */
    method Clear()
      requires Valid()
      modifies bitmap
      ensures bitmap[..] == Blank()
    {
      forall i | 0 <= i < bitmap.Length {
        bitmap[i] := 0;
      }
    }

    /** dcnow_vmu_show_refreshing, that is vmu_overlay_refresh_indicator: the
        placeholder when nothing is showing, then the cleared cell and the spinner
        of the current frame; the frame advances and the picture is pushed. */
    method ShowRefreshing()
      requires Valid()
      modifies this, bitmap
      ensures Valid() && bitmap[..] == Overlaid(old(bitmap[..]), old(active), old(frame))
      ensures frame == (old(frame) + 1) % 4 && active && shown == Icon(bitmap[..])
    {
      if !active {
        DrawPlaceholder();
      }
      RedrawSpinner();
      frame := (frame + 1) % 4;
      shown := Icon(bitmap[..]);
      active := true;
    }

    /** The spinner cell cleared and the current frame's pattern drawn into it. */
    method RedrawSpinner()
      requires Valid()
      modifies bitmap
      ensures bitmap[..] == Spun(ClearRows(old(bitmap[..]), SPINNER_X, SPINNER_Y, 5), SPINNER_X, SPINNER_Y, frame)
    {
      ClearSpinnerCell();
      DrawSpinner(SPINNER_X, SPINNER_Y);
    }

    /** The first refresh's placeholder: the bitmap cleared and the two lines
        drawn. */
    method DrawPlaceholder()
      requires Valid()
      modifies bitmap
      ensures bitmap[..] == Placeholder()
    {
      Clear();
      DrawString(2, 1, "DCNOW");
      DrawString(2, 7, "FETCHING");
    }

    /** vmu_render_games_list. */
    method RenderGamesList(d: DcnowData)
      requires Valid() && MaxGames(d) <= |d.games|
      modifies bitmap
      ensures bitmap[..] == Rendered(d)
    {
      DrawHeader(d);
      var maxGames := if d.gameCount < 3 then d.gameCount else 3;
      DrawGameLines(d.games, maxGames);
    }

    /** The list loop of vmu_render_games_list: at most maxGames lines from row
        13 down, stopping once the next row would pass 26. */
    method DrawGameLines(games: seq<DcnowGame>, maxGames: int)
      requires Valid() && maxGames <= |games|
      modifies bitmap
      ensures bitmap[..] == ListFrom(old(bitmap[..]), games, 0, maxGames, 13)
    {
      var y := 13;
      var i := 0;
      while i < maxGames
        invariant i == 0 || i <= maxGames
        invariant y == 13 + 6 * i
        invariant ListFrom(old(bitmap[..]), games, 0, maxGames, 13) == ListFrom(bitmap[..], games, i, maxGames, y)
        decreases maxGames - i
      {
        ghost var before := bitmap[..];
        DrawGameLine(games[i], y);
        y := y + 6;
        if y > 26 {
          ListFromLast(ListFrom(old(bitmap[..]), games, 0, maxGames, 13), before, bitmap[..], games, i, maxGames, y - 6);
          break;
        }
        ListFromNext(ListFrom(old(bitmap[..]), games, 0, maxGames, 13), before, bitmap[..], games, i, maxGames, y - 6);
        i := i + 1;
      }
      if i >= maxGames {
        ListFromEnd(bitmap[..], games, i, maxGames, y);
      }
    }

    /** The list's first two lines on a cleared bitmap: the title at row 1 and
        "TOT:%d" at row 7. */
    method DrawHeader(d: DcnowData)
      requires Valid()
      modifies bitmap
      ensures bitmap[..] == Header(d)
    {
      Clear();
      DrawString(2, 1, "DCNOW");
      var line := Snprintf("TOT:" + FormatInt(d.totalPlayers), LINE_SIZE);
      DrawString(2, 7, line);
    }

    /** One pass of the list loop: the game's "%.7s:%d" line drawn at row y. */
    method DrawGameLine(g: DcnowGame, y: int)
      requires Valid()
      modifies bitmap
      ensures bitmap[..] == Written(old(bitmap[..]), 2, 2, y, GameLine(g))
    {
      var name := if g.gameCode != [] && g.gameCode[0] != NUL then g.gameCode else g.gameName;
      var line := Snprintf(Precision7(name) + ":" + FormatInt(g.playerCount), LINE_SIZE);
      DrawString(2, y, line);
    }

    /** vmu_update_with_games: the list rendered and pushed. */
    method UpdateWithGames(d: DcnowData)
      requires Valid() && MaxGames(d) <= |d.games|
      modifies this, bitmap
      ensures bitmap[..] == Rendered(d) && shown == Icon(bitmap[..])
      ensures frame == old(frame) && active == old(active)
    {
      RenderGamesList(d);
      shown := Icon(bitmap[..]);
    }

    /** dcnow_vmu_update_display: without valid data the logo goes back; with it
        the games list is shown and the flag set. */
    method UpdateDisplay(data: Option<DcnowData>)
      requires Valid()
      requires data.Some? && data.value.dataValid ==> MaxGames(data.value) <= |data.value.games|
      modifies this, bitmap
      ensures Valid() && frame == old(frame)
      ensures data.None? || !data.value.dataValid ==>
        bitmap[..] == old(bitmap[..]) && !active && shown == (if old(active) then Logo else old(shown))
      ensures data.Some? && data.value.dataValid ==>
        bitmap[..] == Rendered(data.value) && active && shown == Icon(bitmap[..])
    {
      if data.None? || !data.value.dataValid {
        RestoreLogo();
        return;
      }
      UpdateWithGames(data.value);
      active := true;
    }

    /** dcnow_vmu_restore_logo: nothing when the logo is already up; otherwise the
        logo is pushed and the flag cleared. */
    method RestoreLogo()
      requires Valid()
      modifies this
      ensures Valid() && !active && frame == old(frame)
      ensures shown == if old(active) then Logo else old(shown)
    {
      if !active {
        return;
      }
      shown := Logo;
      active := false;
    }

    /** dcnow_vmu_is_active. */
    method IsActive() returns (r: bool)
      ensures r == active
    {
      r := active;
    }
  }
}
