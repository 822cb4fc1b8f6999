/**
  * The text-cursor and colour state kept by the display client (vgui.c).
  * Every call also writes one command record to the display socket; the
  * model returns that record instead of sending it.
  */
module Vgui {
  import opened Registers

  /** VGIO_WIDTH and VGIO_HEGIHT: the text screen is 80 columns by 25 rows. */
  const Width: nat := 80
  const Height: nat := 25

  /** The command record written to the display socket, by command code
    * (VGIO_COMMAND_SET_CURSOR 0, SET_FG 4, SET_BG 5, SET_CHAR 6,
    * GET_CHAR 7); fields the C code leaves unset are omitted. */
  datatype Command =
    | SetCursor(x: uint8, y: uint8)
    | SetFg(x: uint8, y: uint8, color: int)
    | SetBg(x: uint8, y: uint8, color: int)
    | SetChar(x: uint8, y: uint8, fg: int, bg: int, c: uint8)
    | GetChar(x: uint8, y: uint8)

  /** The cursor advance of `vgui_set_char`: next column, or column 0 of the
    * next row (a `uint8_t`, with no limit at the last screen row). */
  function Advance(x: uint8, y: uint8): (uint8, uint8)
  {
    if x + 1 < Width then (x + 1, y) else (0, (y + 1) % 0x100)
  }

  /** The cursor never leaves the 80 columns once inside them, and the row
    * moves only when a row is completed. */
  lemma AdvanceStaysInRow(x: uint8, y: uint8)
    requires x < Width
    ensures (Advance(x, y).0) < Width
    ensures Advance(x, y).1 == y <==> x < Width - 1
    ensures x < Width - 1 ==> Advance(x, y).0 == x + 1
  {
  }

  /** Rows are not clamped to the 25 of the screen: from the end of the last
    * row the cursor moves to row 25, and from row 255 it wraps to row 0. */
  lemma AdvancePastLastRow()
    ensures Advance(79, 24) == (0, 25)
    ensures Advance(79, 255) == (0, 0)
  {
  }

  /** `g_vgui_screen_info`. */
  class Screen {
    var x: uint8
    var y: uint8
    var fgcolor: int
    var bgcolor: int

    /** The static initialiser: cursor at (0, 0), both colours 0. */
    constructor ()
      ensures x == 0 && y == 0 && fgcolor == 0 && bgcolor == 0
    {
      x, y, fgcolor, bgcolor := 0, 0, 0, 0;
    }

    /** `vgui_cursor_set`. */
    method CursorSet(nx: uint8, ny: uint8) returns (cmd: Command)
      modifies this
      ensures x == nx && y == ny
      ensures fgcolor == old(fgcolor) && bgcolor == old(bgcolor)
      ensures cmd == SetCursor(nx, ny)
    {
      x, y := nx, ny;
      cmd := SetCursor(nx, ny);
    }

    /** `vgui_cursor_get`: the cursor most recently stored. */
    method CursorGet() returns (cx: uint8, cy: uint8)
      ensures cx == x && cy == y
    {
      cx, cy := x, y;
    }

    /** `vgui_cursor_bkcolor`: only the background colour changes. */
    method BkColor(color: int) returns (cmd: Command)
      modifies this
      ensures bgcolor == color
      ensures x == old(x) && y == old(y) && fgcolor == old(fgcolor)
      ensures cmd == SetBg(x, y, color)
    {
      bgcolor := color;
      cmd := SetBg(x, y, color);
    }

    /** `vgui_cursor_fgcolor`: only the foreground colour changes. */
    method FgColor(color: int) returns (cmd: Command)
      modifies this
      ensures fgcolor == color
      ensures x == old(x) && y == old(y) && bgcolor == old(bgcolor)
      ensures cmd == SetFg(x, y, color)
    {
      fgcolor := color;
      cmd := SetFg(x, y, color);
    }

    /** `vgui_char`: asks the display for the character under the cursor;
      * the display's answer arrives as `reply`. */
    method Char(reply: uint8) returns (cmd: Command, c: uint8)
      ensures cmd == GetChar(x, y) && c == reply
    {
      cmd := GetChar(x, y);
      c := reply;
    }

    /** `vgui_set_char`: the character is sent at the current cursor with the
      * current colours, then the cursor advances; colours are untouched. */
    method PutChar(c: uint8) returns (cmd: Command)
      modifies this
      ensures (x, y) == Advance(old(x), old(y))
      ensures fgcolor == old(fgcolor) && bgcolor == old(bgcolor)
      ensures cmd == SetChar(old(x), old(y), fgcolor, bgcolor, c)
    {
      cmd := SetChar(x, y, fgcolor, bgcolor, c);
      if x + 1 < Width {
        x := x + 1;
      } else {
        y := (y + 1) % 0x100;
        x := 0;
      }
    }
  }

  /** The cursor after n successive advances. */
  function AdvanceBy(x: uint8, y: uint8, n: nat): (uint8, uint8)
    decreases n
  {
    if n == 0 then (x, y) else var (x', y') := Advance(x, y); AdvanceBy(x', y', n - 1)
  }

  /** Writing n characters from column x, while the row stays below 256,
    * leaves the cursor at column (x + n) mod 80 of row y + (x + n) / 80. */
  lemma {:induction false} AdvanceByFromColumn(x: uint8, y: uint8, n: nat)
    requires x < Width && y + (x + n) / Width < 256
    ensures AdvanceBy(x, y, n).0 == (x + n) % Width
    ensures AdvanceBy(x, y, n).1 == y + (x + n) / Width
    decreases n
  {
    if n > 0 {
      var (x', y') := Advance(x, y);
      if x + 1 < Width {
        assert x' == x + 1 && y' == y;
        AdvanceByFromColumn(x', y', n - 1);
      } else {
        assert x == Width - 1;
        assert x' == 0 && y' == y + 1;
        AdvanceByFromColumn(x', y', n - 1);
        assert (x + n) / Width == 1 + (n - 1) / Width;
        assert (x + n) % Width == (n - 1) % Width;
      }
    }
  }
}
