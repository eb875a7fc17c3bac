/** The update-block bookkeeping of the double-buffered screen: pixel
    rectangles are marked, in 16-pixel tiles, on an UPDATEWIDE x UPDATEHIGH
    grid of "needs redraw" bytes; and the proportional-font string code,
    which measures a string and walks the screen columns it covers, four
    pixels (one per plane) to a byte. */
module VideoHigh {
  import opened Base

  /** A rectangle in tile coordinates, corners inclusive. */
  datatype Block = Block(x1: int, y1: int, x2: int, y2: int)

  /** PIXTOBLOCK: the arithmetic shift right by 4 that turns a pixel
      coordinate into a tile coordinate (it rounds toward minus infinity,
      as Dafny's division by a positive number does). */
  function TileOf(p: int): int
  {
    p / 16
  }

  /** The clipping of VW_MarkUpdateBlock: None when the block is given up
      (the function returns 0), and otherwise the tiles its loops visit. */
  function ClipToGrid(x1: int, y1: int, x2: int, y2: int, wide: nat, high: nat): (r: Option<Block>)
    requires wide > 0 && high > 0
    ensures r.None? <==> TileOf(x1) >= wide || TileOf(y1) > high || TileOf(x2) < 0 || TileOf(y2) < 0
    ensures r.Some? ==>
              && 0 <= r.value.x1 < wide && 0 <= r.value.x2 < wide
              && 0 <= r.value.y1 <= high && 0 <= r.value.y2 < high
  {
    var xt1, yt1, xt2, yt2 := TileOf(x1), TileOf(y1), TileOf(x2), TileOf(y2);
    if xt1 >= wide || yt1 > high || xt2 < 0 || yt2 < 0 then
      None
    else
      Some(Block(if xt1 < 0 then 0 else xt1,
                 if yt1 < 0 then 0 else yt1,
                 if xt2 >= wide then wide - 1 else xt2,
                 if yt2 >= high then high - 1 else yt2))
  }

  /** Tile (row, col) lies in the block. */
  predicate Covers(b: Block, row: int, col: int)
  {
    b.y1 <= row <= b.y2 && b.x1 <= col <= b.x2
  }

  /** The grid `g` (row-major, `wide` cells to a row) with every cell of `b` set to 1. */
  function MarkCells(g: seq<Byte>, wide: nat, b: Block): (r: seq<Byte>)
    requires wide > 0
    ensures |r| == |g|
  {
    seq(|g|, i requires 0 <= i < |g| => if Covers(b, i / wide, i % wide) then 1 else g[i])
  }

  /** The grid after VW_MarkUpdateBlock(x1, y1, x2, y2). */
  function MarkResult(g: seq<Byte>, wide: nat, high: nat, x1: int, y1: int, x2: int, y2: int): (r: seq<Byte>)
    requires wide > 0 && high > 0
    ensures |r| == |g|
  {
    match ClipToGrid(x1, y1, x2, y2, wide, high)
    case None => g
    case Some(b) => MarkCells(g, wide, b)
  }

  /** Cell `row * wide + col` of a row-major grid is at (row, col). */
  lemma RowCol(row: int, col: int, wide: nat)
    requires wide > 0 && 0 <= row && 0 <= col < wide
    ensures (row * wide + col) / wide == row && (row * wide + col) % wide == col
  {
    var i: int := row * wide + col;
    var q: int, m: int := i / wide, i % wide;
    assert wide * (q - row) == col - m;
    MultipleOfDivisor(wide, q - row);
  }

  /** A nonzero multiple of `wide` is at least `wide` away from 0. */
  lemma MultipleOfDivisor(wide: int, d: int)
    requires wide > 0
    ensures d >= 1 ==> wide * d >= wide
    ensures d <= -1 ==> wide * d <= -wide
  {
    if d >= 1 {
      assert wide * d == wide * (d - 1) + wide;
    } else if d <= -1 {
      assert wide * d == wide * (d + 1) - wide;
    }
  }

  /** Cell (row, col) of a `wide` x `high` grid lies inside it. */
  lemma CellInGrid(row: int, col: int, wide: nat, high: nat)
    requires 0 <= row < high && 0 <= col < wide
    ensures 0 <= row * wide + col < wide * high
  {
    assert (row + 1) * wide <= high * wide;
  }

  /** A cell index of the grid lies on one of its rows. */
  lemma RowOfCell(i: int, wide: nat, high: nat)
    requires wide > 0 && 0 <= i < wide * high
    ensures 0 <= i / wide < high
  {
  }

  /** Tile (row, col) lies under the pixel rectangle (x1, y1)-(x2, y2). */
  predicate TileHit(x1: int, y1: int, x2: int, y2: int, row: int, col: int)
  {
    TileOf(x1) <= col <= TileOf(x2) && TileOf(y1) <= row <= TileOf(y2)
  }

  /** Marking sets exactly the grid cells whose tile the pixel rectangle
      touches, taken before clipping, and leaves every other cell alone. */
  lemma {:induction false} MarkedTiles(g: seq<Byte>, wide: nat, high: nat, x1: int, y1: int, x2: int, y2: int, i: nat)
    requires wide > 0 && high > 0 && |g| == wide * high && i < |g|
    ensures MarkResult(g, wide, high, x1, y1, x2, y2)[i] ==
              if TileHit(x1, y1, x2, y2, i / wide, i % wide) then 1 else g[i]
  {
    RowOfCell(i, wide, high);
  }

  /** Marking the same rectangle twice leaves the grid marking it once does. */
  lemma MarkIdempotent(g: seq<Byte>, wide: nat, high: nat, x1: int, y1: int, x2: int, y2: int)
    requires wide > 0 && high > 0 && |g| == wide * high
    ensures var once := MarkResult(g, wide, high, x1, y1, x2, y2);
            MarkResult(once, wide, high, x1, y1, x2, y2) == once
  {
    var once := MarkResult(g, wide, high, x1, y1, x2, y2);
    var twice := MarkResult(once, wide, high, x1, y1, x2, y2);
    forall i | 0 <= i < |g|
      ensures twice[i] == once[i]
    {
      MarkedTiles(g, wide, high, x1, y1, x2, y2, i);
      MarkedTiles(once, wide, high, x1, y1, x2, y2, i);
    }
  }

  /** Marking only ever writes 1: a cell keeps its value or becomes 1. */
  lemma MarkOnlySetsOnes(g: seq<Byte>, wide: nat, high: nat, x1: int, y1: int, x2: int, y2: int, i: nat)
    requires wide > 0 && high > 0 && |g| == wide * high && i < |g|
    ensures var r := MarkResult(g, wide, high, x1, y1, x2, y2);
            r[i] == g[i] || r[i] == 1
  {
    MarkedTiles(g, wide, high, x1, y1, x2, y2, i);
  }

  /** For a rectangle with its corners in order whose top is not on the row
      just below the grid, the block is kept exactly when it touches a cell
      of the grid. */
  lemma KeptIffOnGrid(wide: nat, high: nat, x1: int, y1: int, x2: int, y2: int)
    requires wide > 0 && high > 0 && x1 <= x2 && y1 <= y2 && TileOf(y1) != high
    ensures ClipToGrid(x1, y1, x2, y2, wide, high).Some? <==>
              exists row, col :: 0 <= row < high && 0 <= col < wide && TileHit(x1, y1, x2, y2, row, col)
  {
    if ClipToGrid(x1, y1, x2, y2, wide, high).Some? {
      var row := if TileOf(y1) < 0 then 0 else TileOf(y1);
      var col := if TileOf(x1) < 0 then 0 else TileOf(x1);
      assert TileHit(x1, y1, x2, y2, row, col);
    }
  }

  /** The edge case of the row test (`yt1 > UPDATEHIGH` rather than `>=`):
      a rectangle whose top lies in the tile row just below the grid is
      kept, so the call returns 1, yet no cell is marked. */
  lemma EdgeRowMarksNothing(g: seq<Byte>, wide: nat, high: nat, x1: int, y1: int, x2: int, y2: int)
    requires wide > 0 && high > 0 && |g| == wide * high
    requires TileOf(y1) == high && TileOf(x1) < wide && TileOf(x2) >= 0 && TileOf(y2) >= 0
    ensures ClipToGrid(x1, y1, x2, y2, wide, high).Some?
    ensures MarkResult(g, wide, high, x1, y1, x2, y2) == g
  {
    var r := MarkResult(g, wide, high, x1, y1, x2, y2);
    forall i | 0 <= i < |g|
      ensures r[i] == g[i]
    {
      MarkedTiles(g, wide, high, x1, y1, x2, y2, i);
      RowOfCell(i, wide, high);
    }
  }

  // ---------------------------------------------------------------------
  // Proportional fonts.

  /** A font chunk: the glyph height and the width of each of the 256
      characters (the glyph data itself is not modelled). */
  datatype Font = Font(height: Sint16, width: seq<Byte>)

  predicate FontValid(f: Font)
  {
    |f.width| == 256
  }

  /** The length of the C string held in `s`: the bytes before the first NUL
      (the whole sequence when it holds none). */
  function CStrLen(s: seq<Byte>): (n: nat)
    ensures n <= |s|
    ensures forall k :: 0 <= k < n ==> s[k] != 0
    ensures n < |s| ==> s[n] == 0
  {
    if s == [] || s[0] == 0 then 0 else 1 + CStrLen(s[1..])
  }

  /** The total proportional width of the characters of `s`, without wrap-around. */
  function TextWidth(font: Font, s: seq<Byte>): nat
    requires FontValid(font)
  {
    if s == [] then 0 else TextWidth(font, s[..|s| - 1]) + font.width[s[|s| - 1]]
  }

  /** Widths add up over concatenation. */
  lemma {:induction false} TextWidthAppend(font: Font, a: seq<Byte>, b: seq<Byte>)
    requires FontValid(font)
    ensures TextWidth(font, a + b) == TextWidth(font, a) + TextWidth(font, b)
  {
    if b != [] {
      assert (a + b)[..|a + b| - 1] == a + b[..|b| - 1];
      TextWidthAppend(font, a, b[..|b| - 1]);
    } else {
      assert a + b == a;
    }
  }

  /** VWL_MeasureString: the height is the font's; the width is the sum of
      the character widths before the NUL, in a 16-bit accumulator. */
  method MeasureString(s: seq<Byte>, font: Font) returns (width: Uint16, height: Uint16)
    requires FontValid(font)
    ensures height == ToUint16(font.height)
    ensures width == ToUint16(TextWidth(font, s[..CStrLen(s)]))
  {
    height := ToUint16(font.height);
    width := 0;
    var i := 0;
    while i < |s| && s[i] != 0
      invariant 0 <= i <= |s|
      invariant forall k :: 0 <= k < i ==> s[k] != 0
      invariant width == ToUint16(TextWidth(font, s[..i]))
    {
      assert s[..i + 1][..i] == s[..i];
      ToUint16Step(TextWidth(font, s[..i]), font.width[s[i]]);
      width := ToUint16(width + font.width[s[i]]);
      i := i + 1;
    }
    assert i == CStrLen(s);
  }

  /** A NUL-free prefix does not shorten the C string. */
  lemma {:induction false} CStrLenAppend(a: seq<Byte>, b: seq<Byte>)
    requires 0 !in a
    ensures CStrLen(a + b) == |a| + CStrLen(b)
  {
    if a != [] {
      assert (a + b)[0] == a[0];
      assert (a + b)[1..] == a[1..] + b;
      CStrLenAppend(a[1..], b);
    } else {
      assert a + b == b;
    }
  }

  /** The measured width of a string made of two strings is the 16-bit sum
      of their measured widths. */
  lemma MeasureConcat(font: Font, a: seq<Byte>, b: seq<Byte>)
    requires FontValid(font) && 0 !in a
    ensures CStrLen(a + b) == |a| + CStrLen(b)
    ensures ToUint16(TextWidth(font, (a + b)[..CStrLen(a + b)])) ==
            ToUint16(ToUint16(TextWidth(font, a)) + ToUint16(TextWidth(font, b[..CStrLen(b)])))
  {
    var n := CStrLen(b);
    var m := CStrLen(a + b);
    CStrLenAppend(a, b);
    assert (a + b)[..m] == a + b[..n];
    TextWidthAppend(font, a, b[..n]);
    ToUint16Step(TextWidth(font, a), TextWidth(font, b[..n]));
    var wa, wb := TextWidth(font, a), TextWidth(font, b[..n]);
    assert ToUint16(wa) + ToUint16(wb) == ToUint16(wb) + ToUint16(wa);
    ToUint16Step(wb, ToUint16(wa));
    ToUint16Step(wa, wb);
  }

  /** The plane-select mask of pixel column `c` (`1 << (c & 3)`). */
  function MaskFor(c: int): (m: int)
    ensures m in {1, 2, 4, 8}
  {
    if c % 4 == 0 then 1 else if c % 4 == 1 then 2 else if c % 4 == 2 then 4 else 8
  }

  /** One screen column drawn by VW_DrawPropString: the map mask and the
      byte offset from the string's first screen byte. */
  datatype Column = Column(mask: int, dest: int)

  /** The column loop of VW_DrawPropString, from starting column `px0`:
      column `k` of the string is drawn into plane `(px0 + k) & 3` of the
      byte `(px0 + k) >> 2`, and `px` ends up advanced by the whole width
      (in 16-bit arithmetic); `dest` is where the destination pointer stops. */
  method ScanColumns(px0: Sint16, s: seq<Byte>, font: Font) returns (columns: seq<Column>, px: Sint16, dest: int)
    requires FontValid(font)
    ensures |columns| == TextWidth(font, s[..CStrLen(s)])
    ensures forall k :: 0 <= k < |columns| ==>
              columns[k] == Column(MaskFor(px0 + k), (px0 + k) / 4 - px0 / 4)
    ensures px == ToSint16(px0 + |columns|)
    ensures dest == (px0 + |columns|) / 4 - px0 / 4
  {
    px := px0;
    var mask := MaskFor(px);
    dest := 0;
    columns := [];
    var i := 0;
    while i < |s| && s[i] != 0
      invariant 0 <= i <= |s|
      invariant forall k :: 0 <= k < i ==> s[k] != 0
      invariant |columns| == TextWidth(font, s[..i])
      invariant forall k :: 0 <= k < |columns| ==>
                  columns[k] == Column(MaskFor(px0 + k), (px0 + k) / 4 - px0 / 4)
      invariant px == ToSint16(px0 + |columns|)
      invariant mask == MaskFor(px0 + |columns|)
      invariant dest == (px0 + |columns|) / 4 - px0 / 4
    {
      assert s[..i + 1][..i] == s[..i];
      var width := font.width[s[i]];
      ghost var start := |columns|;
      while width > 0
        invariant 0 <= width <= font.width[s[i]]
        invariant |columns| == start + (font.width[s[i]] - width)
        invariant forall k :: 0 <= k < |columns| ==>
                    columns[k] == Column(MaskFor(px0 + k), (px0 + k) / 4 - px0 / 4)
        invariant px == ToSint16(px0 + |columns|)
        invariant mask == MaskFor(px0 + |columns|)
        invariant dest == (px0 + |columns|) / 4 - px0 / 4
      {
        width := width - 1;
        columns := columns + [Column(mask, dest)];
        ToSint16Step(px0 + |columns| - 1, 1);
        px := ToSint16(px + 1);
        mask := mask * 2;
        if mask == 16 {
          mask := 1;
          dest := dest + 1;
        }
      }
      i := i + 1;
    }
    assert i == CStrLen(s);
  }

  /** Width and height of a picture in the picture table. */
  datatype PicSize = PicSize(width: Uint16, height: Uint16)

  /** The update grid and the text globals of the video buffer code. */
  class VideoState {
    /** The update grid, row-major; `update[y * wide + x]` is tile (y, x). */
    const update: array<Byte>
    /** UPDATEWIDE and UPDATEHIGH. */
    const wide: nat
    const high: nat
    /** The fonts, grsegs[STARTFONT + n] being `fonts[n]`. */
    const fonts: seq<Font>
    const pictable: seq<PicSize>
    /** STARTPICS: the chunk number of the first picture. */
    const startPics: int

    var px: Sint16
    var py: Sint16
    var fontNumber: Sint16
    var bufferWidth: Sint16
    var bufferHeight: Sint16

    ghost predicate Valid()
      reads this
    {
      && 0 < wide && 0 < high
      && update.Length == wide * high
      && forall n :: 0 <= n < |fonts| ==> FontValid(fonts[n])
    }

    constructor (update: array<Byte>, wide: nat, high: nat, fonts: seq<Font>, pictable: seq<PicSize>, startPics: int)
      requires 0 < wide && 0 < high && update.Length == wide * high
      requires forall n :: 0 <= n < |fonts| ==> FontValid(fonts[n])
      ensures Valid()
      ensures this.update == update && this.wide == wide && this.high == high
      ensures this.fonts == fonts && this.pictable == pictable && this.startPics == startPics
      ensures px == 0 && py == 0 && fontNumber == 0 && bufferWidth == 0 && bufferHeight == 0
    {
      this.update, this.wide, this.high := update, wide, high;
      this.fonts, this.pictable, this.startPics := fonts, pictable, startPics;
      px, py, fontNumber, bufferWidth, bufferHeight := 0, 0, 0, 0, 0;
    }

    /** VW_MarkUpdateBlock: marks the tiles under the pixel rectangle
        (x1, y1)-(x2, y2); returns 0 when the block is given up. */
    method MarkUpdateBlock(x1: Sint16, y1: Sint16, x2: Sint16, y2: Sint16) returns (r: Sint16)
      requires Valid()
      modifies update
      ensures r == if ClipToGrid(x1, y1, x2, y2, wide, high).Some? then 1 else 0
      ensures update[..] == MarkResult(old(update[..]), wide, high, x1, y1, x2, y2)
    {
      ghost var g0 := update[..];
      var xt1, yt1 := x1 / 16, y1 / 16;
      var xt2, yt2 := x2 / 16, y2 / 16;
      if xt1 < 0 {
        xt1 := 0;
      } else if xt1 >= wide {
        return 0;
      }
      if yt1 < 0 {
        yt1 := 0;
      } else if yt1 > high {
        return 0;
      }
      if xt2 < 0 {
        return 0;
      } else if xt2 >= wide {
        xt2 := wide - 1;
      }
      if yt2 < 0 {
        return 0;
      } else if yt2 >= high {
        yt2 := high - 1;
      }
      assert ClipToGrid(x1, y1, x2, y2, wide, high) == Some(Block(xt1, yt1, xt2, yt2));
      MarkTiles(xt1, yt1, xt2, yt2);
      r := 1;
    }

    /** The marking loops of VW_MarkUpdateBlock over the clipped tile
        rectangle: a pointer starts at tile (yt1, xt1), sets the tiles of a
        row and skips `nextline` cells to the start of the next. */
    method MarkTiles(xt1: int, yt1: int, xt2: int, yt2: int)
      requires Valid()
      requires 0 <= xt1 < wide && 0 <= xt2 < wide && 0 <= yt1 <= high && 0 <= yt2 < high
      modifies update
      ensures update[..] == MarkCells(old(update[..]), wide, Block(xt1, yt1, xt2, yt2))
    {
      ghost var g0 := update[..];
      ghost var b := Block(xt1, yt1, xt2, yt2);
      var mark := yt1 * wide + xt1;          // uwidthtable[yt1] + xt1
      var nextline := wide - (xt2 - xt1) - 1;
      var y := yt1;
      while y <= yt2
        invariant yt1 <= y && (y <= yt2 + 1 || y == yt1)
        invariant xt1 <= xt2 ==> mark == y * wide + xt1
        invariant forall i :: 0 <= i < update.Length ==>
                    update[i] == if Covers(b.(y2 := y - 1), i / wide, i % wide) then 1 else g0[i]
      {
        mark := MarkRow(xt1, xt2, y, mark);
        mark := mark + nextline;
        y := y + 1;
      }
      assert update[..] == MarkCells(g0, wide, b);
    }

    /** The inner loop of VW_MarkUpdateBlock: sets tiles xt1..xt2 of row
        `y`, the pointer `mark` starting at tile (y, xt1). */
    method MarkRow(xt1: int, xt2: int, y: int, mark0: int) returns (mark: int)
      requires Valid()
      requires 0 <= xt1 < wide && 0 <= xt2 < wide && 0 <= y < high
      requires xt1 <= xt2 ==> mark0 == y * wide + xt1
      modifies update
      ensures xt1 <= xt2 ==> mark == y * wide + xt2 + 1
      ensures xt1 > xt2 ==> mark == mark0
      ensures forall i :: 0 <= i < update.Length ==>
                update[i] == if i / wide == y && xt1 <= i % wide <= xt2 then 1 else old(update[i])
    {
      mark := mark0;
      var x := xt1;
      while x <= xt2
        invariant xt1 <= x && (x <= xt2 + 1 || x == xt1)
        invariant mark == mark0 + (x - xt1)
        invariant forall i :: 0 <= i < update.Length ==>
                    update[i] == if i / wide == y && xt1 <= i % wide < x then 1 else old(update[i])
      {
        RowCol(y, x, wide);
        CellInGrid(y, x, wide, high);
        update[mark] := 1;
        mark := mark + 1;
        x := x + 1;
      }
    }

    /** VWB_DrawTile8: marks the 8 x 8 block at (x, y); draws when kept. */
    method DrawTile8(x: Sint16, y: Sint16) returns (drawn: bool)
      requires Valid()
      modifies update
      ensures drawn == ClipToGrid(x, y, ToSint16(x + 7), ToSint16(y + 7), wide, high).Some?
      ensures update[..] == MarkResult(old(update[..]), wide, high, x, y, ToSint16(x + 7), ToSint16(y + 7))
    {
      var kept := MarkUpdateBlock(x, y, ToSint16(x + 7), ToSint16(y + 7));
      drawn := kept != 0;
    }

    /** VWB_DrawPic: the x coordinate is first rounded down to a multiple
        of 8, then the picture's block is marked. */
    method DrawPic(x: Sint16, y: Sint16, chunknum: Sint16) returns (drawn: bool)
      requires Valid() && 0 <= chunknum - startPics < |pictable|
      modifies update
      ensures var ax, pic := x - x % 8, pictable[chunknum - startPics];
        && drawn == ClipToGrid(ax, y, ToSint16(ax + pic.width - 1), ToSint16(y + pic.height - 1), wide, high).Some?
        && update[..] == MarkResult(old(update[..]), wide, high,
                                    ax, y, ToSint16(ax + pic.width - 1), ToSint16(y + pic.height - 1))
    {
      var picnum := chunknum - startPics;
      var ax: Sint16 := x - x % 8;           // x &= ~7
      var width, height := pictable[picnum].width, pictable[picnum].height;
      var kept := MarkUpdateBlock(ax, y, ToSint16(ax + width - 1), ToSint16(y + height - 1));
      drawn := kept != 0;
    }

    /** VWB_DrawMPic: as VWB_DrawPic, without the rounding of x. */
    method DrawMPic(x: Sint16, y: Sint16, chunknum: Sint16) returns (drawn: bool)
      requires Valid() && 0 <= chunknum - startPics < |pictable|
      modifies update
      ensures var pic := pictable[chunknum - startPics];
        && drawn == ClipToGrid(x, y, ToSint16(x + pic.width - 1), ToSint16(y + pic.height - 1), wide, high).Some?
        && update[..] == MarkResult(old(update[..]), wide, high,
                                    x, y, ToSint16(x + pic.width - 1), ToSint16(y + pic.height - 1))
    {
      var picnum := chunknum - startPics;
      var width, height := pictable[picnum].width, pictable[picnum].height;
      var kept := MarkUpdateBlock(x, y, ToSint16(x + width - 1), ToSint16(y + height - 1));
      drawn := kept != 0;
    }

    /** VWB_Bar: the marked block reaches column x + width, one past the bar. */
    method Bar(x: Sint16, y: Sint16, width: Sint16, height: Sint16) returns (drawn: bool)
      requires Valid()
      modifies update
      ensures drawn == ClipToGrid(x, y, ToSint16(x + width), ToSint16(y + height - 1), wide, high).Some?
      ensures update[..] == MarkResult(old(update[..]), wide, high, x, y, ToSint16(x + width), ToSint16(y + height - 1))
    {
      var kept := MarkUpdateBlock(x, y, ToSint16(x + width), ToSint16(y + height - 1));
      drawn := kept != 0;
    }

    /** VWB_Plot: the single pixel (x, y). */
    method Plot(x: Sint16, y: Sint16) returns (drawn: bool)
      requires Valid()
      modifies update
      ensures drawn == ClipToGrid(x, y, x, y, wide, high).Some?
      ensures update[..] == MarkResult(old(update[..]), wide, high, x, y, x, y)
    {
      var kept := MarkUpdateBlock(x, y, x, y);
      drawn := kept != 0;
    }

    /** VWB_Hlin: the row y from x1 to x2. */
    method Hlin(x1: Sint16, x2: Sint16, y: Sint16) returns (drawn: bool)
      requires Valid()
      modifies update
      ensures drawn == ClipToGrid(x1, y, x2, y, wide, high).Some?
      ensures update[..] == MarkResult(old(update[..]), wide, high, x1, y, x2, y)
    {
      var kept := MarkUpdateBlock(x1, y, x2, y);
      drawn := kept != 0;
    }

    /** VWB_Vlin: the column x from y1 to y2. */
    method Vlin(y1: Sint16, y2: Sint16, x: Sint16) returns (drawn: bool)
      requires Valid()
      modifies update
      ensures drawn == ClipToGrid(x, y1, x, y2, wide, high).Some?
      ensures update[..] == MarkResult(old(update[..]), wide, high, x, y1, x, y2)
    {
      var kept := MarkUpdateBlock(x, y1, x, y2);
      drawn := kept != 0;
    }

    /** LatchDrawPic: x counts bytes, so it is shifted left by 3 (in 16 bits)
        before the picture's block is marked. */
    method LatchDrawPic(x: Uint16, y: Uint16, picnum: Uint16) returns (drawn: bool)
      requires Valid() && 0 <= picnum - startPics < |pictable|
      modifies update
      ensures var sx, pic := ToUint16(x * 8), pictable[picnum - startPics];
        && drawn == ClipToGrid(ToSint16(sx), ToSint16(y), ToSint16(sx + pic.width - 1),
                               ToSint16(y + pic.height - 1), wide, high).Some?
        && update[..] == MarkResult(old(update[..]), wide, high, ToSint16(sx), ToSint16(y),
                                    ToSint16(sx + pic.width - 1), ToSint16(y + pic.height - 1))
    {
      var sx := ToUint16(x * 8);             // x <<= 3
      var wide', height := pictable[picnum - startPics].width, pictable[picnum - startPics].height;
      var kept := MarkUpdateBlock(ToSint16(sx), ToSint16(y), ToSint16(sx as int + wide' - 1), ToSint16(y + height - 1));
      drawn := kept != 0;
    }

    /** VW_MeasurePropString: VWL_MeasureString in the current font. */
    method MeasurePropString(s: seq<Byte>) returns (width: Uint16, height: Uint16)
      requires Valid() && 0 <= fontNumber < |fonts|
      ensures height == ToUint16(fonts[fontNumber].height)
      ensures width == ToUint16(TextWidth(fonts[fontNumber], s[..CStrLen(s)]))
    {
      width, height := MeasureString(s, fonts[fontNumber]);
    }

    /** VW_DrawPropString: walks the string's columns from px; px advances
        by the string's width w, bufferheight becomes the font height and
        bufferwidth 4 * ((px0 + w) / 4 - px0 / 4 + 1): one byte more than is
        drawn when the string ends on a byte boundary, and 4 for an empty
        string. The columns drawn are returned. */
    method DrawPropString(s: seq<Byte>) returns (columns: seq<Column>)
      requires Valid() && 0 <= fontNumber < |fonts|
      modifies this
      ensures py == old(py) && fontNumber == old(fontNumber)
      ensures var font, w := fonts[fontNumber], TextWidth(fonts[fontNumber], s[..CStrLen(s)]);
        && |columns| == w
        && (forall k :: 0 <= k < w ==>
              columns[k] == Column(MaskFor(old(px) + k), (old(px) + k) / 4 - old(px) / 4))
        && px == ToSint16(old(px) + w)
        && bufferHeight == font.height
        && bufferWidth == ToSint16(((old(px) + w) / 4 - old(px) / 4 + 1) * 4)
    {
      var font := fonts[fontNumber];
      var height := font.height;
      bufferHeight := height;
      var dest;
      columns, px, dest := ScanColumns(px, s, font);
      bufferHeight := height;
      bufferWidth := ToSint16((dest + 1) * 4);
    }

    /** VWB_DrawPropString: draws the string, then marks the block from the
        starting column px0 to px0 + w - 1, font-height rows from py. For an
        empty string the rectangle is reversed, (px0, py)-(px0 - 1, ...), and
        still marks a tile column when px0 is not a multiple of 16. */
    method DrawPropStringMarked(s: seq<Byte>)
      requires Valid() && 0 <= fontNumber < |fonts|
      modifies this, update
      ensures py == old(py) && fontNumber == old(fontNumber)
      ensures var w := TextWidth(fonts[fontNumber], s[..CStrLen(s)]);
        && px == ToSint16(old(px) + w)
        && bufferHeight == fonts[fontNumber].height
        && bufferWidth == ToSint16(((old(px) + w) / 4 - old(px) / 4 + 1) * 4)
        && update[..] == MarkResult(old(update[..]), wide, high,
                                    old(px), py, ToSint16(px - 1), ToSint16(py + bufferHeight - 1))
    {
      var x := px;
      var _ := DrawPropString(s);
      var _ := MarkUpdateBlock(x, py, ToSint16(px - 1), ToSint16(py + bufferHeight - 1));
    }
  }
}
