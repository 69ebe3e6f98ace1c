// The VGA text-mode writer: a cursor on the bottom row of a character grid
// that scrolls up when a line ends or the row is full.
//
// The grid's dimensions (`BUFFER_HEIGHT` rows of `BUFFER_WIDTH` cells) come
// from a `vga` module that is not part of this model; here they are the
// dimensions of the buffer array, which only need to be positive.  The
// memory-mapped buffer is a plain two-dimensional array and `ColorCode` an
// opaque byte.

module Print {

  datatype ColorCode = ColorCode(code: bv8)

  datatype ScreenChar = ScreenChar(asciiCharacter: bv8, colorCode: ColorCode)

  /** The screen as a value: rows, top first, each a sequence of cells. */
  type Grid = seq<seq<ScreenChar>>

  const NEWLINE: bv8 := 0x0A
  const SPACE: bv8 := 0x20
  /** What `write_str` prints for a byte it cannot show. */
  const REPLACEMENT: bv8 := 0xFE

  predicate IsGrid(g: Grid, w: nat)
  {
    |g| > 0 && w > 0 && forall r :: 0 <= r < |g| ==> |g[r]| == w
  }

  /** The writer's observable state: the screen and the cursor column. */
  datatype WriterState = WriterState(grid: Grid, column: nat)

  /** The writer's invariant: a proper grid, and the cursor at most one past the last cell. */
  predicate Good(st: WriterState, w: nat)
  {
    IsGrid(st.grid, w) && st.column <= w
  }

  function BlankRow(w: nat, color: ColorCode): (row: seq<ScreenChar>)
    ensures |row| == w
    ensures forall c :: 0 <= c < w ==> row[c] == ScreenChar(SPACE, color)
  {
    seq(w, _ => ScreenChar(SPACE, color))
  }

  /** `clear_row(row)` on a screen value. */
  function Cleared(g: Grid, row: nat, w: nat, color: ColorCode): Grid
    requires row < |g|
  {
    g[row := BlankRow(w, color)]
  }

  /** `new_line` on a screen value: every row moves up one, the bottom row is blank. */
  function Scrolled(g: Grid, w: nat, color: ColorCode): Grid
    requires |g| > 0
  {
    g[1..] + [BlankRow(w, color)]
  }

  function Put(g: Grid, r: nat, c: nat, ch: ScreenChar): Grid
    requires r < |g| && c < |g[r]|
  {
    g[r := g[r][c := ch]]
  }

  /** `write_byte` on the writer's state. */
  function WriteByteSpec(st: WriterState, byte: bv8, w: nat, color: ColorCode): (st': WriterState)
    requires Good(st, w)
    ensures Good(st', w) && |st'.grid| == |st.grid|
  {
    if byte == NEWLINE then
      WriterState(Scrolled(st.grid, w, color), 0)
    else
      var s1 := if st.column >= w then WriterState(Scrolled(st.grid, w, color), 0) else st;
      WriterState(Put(s1.grid, |s1.grid| - 1, s1.column, ScreenChar(byte, color)), s1.column + 1)
  }

  /** The byte `write_str` passes on to `write_byte`. */
  function Sanitize(byte: bv8): (b: bv8)
    ensures b == byte <==> (SPACE <= byte <= 0x7E || byte == NEWLINE || byte == REPLACEMENT)
    ensures b != byte ==> b == REPLACEMENT
  {
    if SPACE <= byte <= 0x7E || byte == NEWLINE then byte else REPLACEMENT
  }

  /** `write_str` on the writer's state, one byte at a time. */
  function WriteStrSpec(st: WriterState, bytes: seq<bv8>, w: nat, color: ColorCode): (st': WriterState)
    requires Good(st, w)
    ensures Good(st', w) && |st'.grid| == |st.grid|
  {
    if bytes == [] then st
    else WriteByteSpec(WriteStrSpec(st, bytes[..|bytes| - 1], w, color), Sanitize(bytes[|bytes| - 1]), w, color)
  }

  // ---------------------------------------------------------------------
  // Properties of the screen operations

  /** After scrolling, row `r - 1` holds what row `r` held; old row 0 is gone and the last row is blank. */
  lemma ScrollMovesRowsUp(g: Grid, w: nat, color: ColorCode)
    requires IsGrid(g, w)
    ensures IsGrid(Scrolled(g, w, color), w)
    ensures forall r :: 1 <= r < |g| ==> Scrolled(g, w, color)[r - 1] == g[r]
    ensures Scrolled(g, w, color)[|g| - 1] == BlankRow(w, color)
  {
  }

  /** Clearing a row blanks that row and leaves every other row alone. */
  lemma ClearTouchesOneRow(g: Grid, row: nat, w: nat, color: ColorCode)
    requires IsGrid(g, w) && row < |g|
    ensures IsGrid(Cleared(g, row, w, color), w)
    ensures forall c :: 0 <= c < w ==> Cleared(g, row, w, color)[row][c] == ScreenChar(SPACE, color)
    ensures forall r :: 0 <= r < |g| && r != row ==> Cleared(g, row, w, color)[r] == g[r]
  {
  }

  /** A newline scrolls and puts the cursor at column 0, whatever the column was. */
  lemma NewlineResetsColumn(st: WriterState, w: nat, color: ColorCode)
    requires Good(st, w)
    ensures WriteByteSpec(st, NEWLINE, w, color) == WriterState(Scrolled(st.grid, w, color), 0)
  {
  }

  /** A byte that fits on the bottom row changes exactly that one cell and advances the cursor. */
  lemma WriteWithoutWrap(st: WriterState, byte: bv8, w: nat, color: ColorCode)
    requires Good(st, w) && byte != NEWLINE && st.column < w
    ensures var st' := WriteByteSpec(st, byte, w, color);
      var last := |st.grid| - 1;
      st'.column == st.column + 1
      && st'.grid[last][st.column] == ScreenChar(byte, color)
      && (forall c :: 0 <= c < w && c != st.column ==> st'.grid[last][c] == st.grid[last][c])
      && (forall r :: 0 <= r < last ==> st'.grid[r] == st.grid[r])
  {
  }

  /** A byte on a full row scrolls first and lands in column 0. */
  lemma WriteWithWrap(st: WriterState, byte: bv8, w: nat, color: ColorCode)
    requires Good(st, w) && byte != NEWLINE && st.column == w
    ensures var st' := WriteByteSpec(st, byte, w, color);
      st' == WriterState(Put(Scrolled(st.grid, w, color), |st.grid| - 1, 0, ScreenChar(byte, color)), 1)
  {
  }

  /** Writing `a` then `b` is writing `a + b`. */
  lemma {:induction false} WriteStrAppend(st: WriterState, a: seq<bv8>, b: seq<bv8>, w: nat, color: ColorCode)
    requires Good(st, w)
    ensures WriteStrSpec(st, a + b, w, color) == WriteStrSpec(WriteStrSpec(st, a, w, color), b, w, color)
    decreases |b|
  {
    if b != [] {
      var b' := b[..|b| - 1];
      assert (a + b)[..|a + b| - 1] == a + b';
      assert (a + b)[|a + b| - 1] == b[|b| - 1];
      WriteStrAppend(st, a, b', w, color);
    } else {
      assert a + b == a;
    }
  }

  /** Printable text that fits on the bottom row appears there, one cell per byte. */
  lemma {:induction false} WriteStrFits(st: WriterState, bytes: seq<bv8>, w: nat, color: ColorCode)
    requires Good(st, w) && st.column + |bytes| <= w
    requires forall i :: 0 <= i < |bytes| ==> bytes[i] != NEWLINE
    ensures var st' := WriteStrSpec(st, bytes, w, color);
      var last := |st.grid| - 1;
      st'.column == st.column + |bytes|
      && (forall r :: 0 <= r < last ==> st'.grid[r] == st.grid[r])
      && (forall i :: 0 <= i < |bytes| ==> st'.grid[last][st.column + i] == ScreenChar(Sanitize(bytes[i]), color))
      && (forall c :: 0 <= c < w && !(st.column <= c < st.column + |bytes|) ==> st'.grid[last][c] == st.grid[last][c])
  {
    if bytes != [] {
      var prefix := bytes[..|bytes| - 1];
      WriteStrFits(st, prefix, w, color);
      WriteWithoutWrap(WriteStrSpec(st, prefix, w, color), Sanitize(bytes[|bytes| - 1]), w, color);
    }
  }

  /** Two grids with the same cells are the same grid. */
  lemma GridExtensionality(a: Grid, b: Grid, w: nat)
    requires IsGrid(a, w) && IsGrid(b, w) && |a| == |b|
    requires forall r, c :: 0 <= r < |a| && 0 <= c < w ==> a[r][c] == b[r][c]
    ensures a == b
  {
    forall r | 0 <= r < |a|
      ensures a[r] == b[r]
    {
    }
  }

  datatype FmtResult = Ok | Err

  // ---------------------------------------------------------------------
  // The writer itself

  class Writer {
    var columnPosition: nat
    const colorCode: ColorCode
    const buffer: array2<ScreenChar>

    ghost predicate Valid()
      reads this
    {
      buffer.Length0 > 0 && buffer.Length1 > 0 && columnPosition <= buffer.Length1
    }

    /** The buffer's contents as a screen value. */
    function Screen(): Grid
      reads buffer
    {
      seq(buffer.Length0, r requires 0 <= r < buffer.Length0 reads buffer =>
        seq(buffer.Length1, c requires 0 <= c < buffer.Length1 reads buffer => buffer[r, c]))
    }

    function State(): WriterState
      reads this, buffer
    {
      WriterState(Screen(), columnPosition)
    }

    lemma ScreenIsGrid()
      requires Valid()
      ensures IsGrid(Screen(), buffer.Length1) && |Screen()| == buffer.Length0
      ensures Good(State(), buffer.Length1)
    {
    }

    /** The writer `WRITER` starts as: cursor at column 0, on the given buffer. */
    constructor(colorCode: ColorCode, buffer: array2<ScreenChar>)
      requires buffer.Length0 > 0 && buffer.Length1 > 0
      ensures Valid() && columnPosition == 0
      ensures this.colorCode == colorCode && this.buffer == buffer
    {
      columnPosition := 0;
      this.colorCode := colorCode;
      this.buffer := buffer;
    }

    /** `clear_row`: every cell of `row` becomes a blank in the writer's colour. */
    method ClearRow(row: nat)
      requires Valid() && row < buffer.Length0
      modifies buffer
      ensures Screen() == Cleared(old(Screen()), row, buffer.Length1, colorCode)
    {
      var blank := ScreenChar(SPACE, colorCode);
      for col := 0 to buffer.Length1
        invariant forall c :: 0 <= c < col ==> buffer[row, c] == blank
        invariant forall r, c :: 0 <= r < buffer.Length0 && 0 <= c < buffer.Length1 && !(r == row && c < col) ==>
          buffer[r, c] == old(buffer[r, c])
      {
        buffer[row, col] := blank;
      }
      ScreenIsGrid();
      GridExtensionality(Screen(), Cleared(old(Screen()), row, buffer.Length1, colorCode), buffer.Length1);
    }

    /** `new_line`: copy every row up one, blank the bottom row, cursor to column 0. */
    method NewLine()
      requires Valid()
      modifies this, buffer
      ensures Valid() && columnPosition == 0
      ensures Screen() == Scrolled(old(Screen()), buffer.Length1, colorCode)
    {
      var height := buffer.Length0;
      var width := buffer.Length1;
      for row := 1 to height
        modifies buffer
        invariant forall r, c :: 0 <= r < row - 1 && 0 <= c < width ==> buffer[r, c] == old(buffer[r + 1, c])
        invariant forall r, c :: row - 1 <= r < height && 0 <= c < width ==> buffer[r, c] == old(buffer[r, c])
      {
        for col := 0 to width
          modifies buffer
          invariant forall r, c :: 0 <= r < row - 1 && 0 <= c < width ==> buffer[r, c] == old(buffer[r + 1, c])
          invariant forall c :: 0 <= c < col ==> buffer[row - 1, c] == old(buffer[row, c])
          invariant forall r, c :: row - 1 <= r < height && 0 <= c < width && !(r == row - 1 && c < col) ==>
            buffer[r, c] == old(buffer[r, c])
        {
          buffer[row - 1, col] := buffer[row, col];
        }
      }
      ClearRow(height - 1);
      columnPosition := 0;
      ScreenIsGrid();
      GridExtensionality(Screen(), Scrolled(old(Screen()), width, colorCode), width);
    }

    /** `write_byte`: a newline scrolls; any other byte goes at the cursor, scrolling first if the row is full. */
    method WriteByte(byte: bv8)
      requires Valid()
      modifies this, buffer
      ensures Valid()
      ensures State() == WriteByteSpec(old(State()), byte, buffer.Length1, colorCode)
    {
      if byte == NEWLINE {
        NewLine();
      } else {
        if columnPosition >= buffer.Length1 {
          NewLine();
        }
        ghost var before := State();
        var row := buffer.Length0 - 1;
        var col := columnPosition;
        buffer[row, col] := ScreenChar(byte, colorCode);
        columnPosition := columnPosition + 1;
        ScreenIsGrid();
        GridExtensionality(Screen(), Put(before.grid, row, col, ScreenChar(byte, colorCode)), buffer.Length1);
      }
    }

    /** `write_str`: each byte in turn, unprintable ones as `0xfe`. */
    method WriteStr(bytes: seq<bv8>)
      requires Valid()
      modifies this, buffer
      ensures Valid()
      ensures State() == WriteStrSpec(old(State()), bytes, buffer.Length1, colorCode)
    {
      ScreenIsGrid();
      for i := 0 to |bytes|
        invariant Valid()
        invariant State() == WriteStrSpec(old(State()), bytes[..i], buffer.Length1, colorCode)
      {
        var byte := bytes[i];
        if SPACE <= byte <= 0x7E || byte == NEWLINE {
          WriteByte(byte);
        } else {
          WriteByte(REPLACEMENT);
        }
        assert bytes[..i + 1][..i] == bytes[..i];
      }
      assert bytes[..|bytes|] == bytes;
    }

    /** The `fmt::Write` implementation: writes the bytes and always reports success. */
    method FmtWriteStr(bytes: seq<bv8>) returns (result: FmtResult)
      requires Valid()
      modifies this, buffer
      ensures Valid() && result == Ok
      ensures State() == WriteStrSpec(old(State()), bytes, buffer.Length1, colorCode)
    {
      WriteStr(bytes);
      result := Ok;
    }
  }
}
