/** get_keystroke and the 32-bit keystroke window `Vim.buf`, shared by
    keymap.c and vim.c. */
module KeyBuffer {
  import opened VimDecls

  /** `x | mask` for a one-bit mask: the bit is added unless already set. */
  function OrBit(x: byte, mask: byte): byte
    requires mask == MaskShift || mask == MaskCtrl
  {
    if (x / mask) % 2 == 1 then x else x + mask
  }

  /** get_keystroke: the low byte of the key code with bit 6 set when shift
      is held and bit 7 set when control is held (one-shot modifiers
      included; both arrive here as the two flags). */
  function Keystroke(keycode: uint16, shift: bool, ctrl: bool): byte
  {
    var res := keycode % 0x100;
    var res := if shift then OrBit(res, MaskShift) else res;
    if ctrl then OrBit(res, MaskCtrl) else res
  }

  /** `(buf << 8) | key` on a uint32: the oldest of the four bytes drops out. */
  function Push(buf: uint32, key: byte): uint32
  {
    (buf % 0x100_0000) * 0x100 + key
  }

  /** Byte `i` of the window, 0 being the most recent keystroke. */
  function Byte(buf: uint32, i: nat): byte
    requires i < 4
  {
    if i == 0 then buf % 0x100
    else if i == 1 then (buf / 0x100) % 0x100
    else if i == 2 then (buf / 0x1_0000) % 0x100
    else buf / 0x100_0000
  }

  /** For a key code below 64 the keystroke byte is its value plus the two
      flag bits; the early return of process_vim_key guarantees that bound. */
  lemma KeystrokeValue(keycode: uint16, shift: bool, ctrl: bool)
    requires keycode < 64
    ensures Keystroke(keycode, shift, ctrl)
            == keycode + (if shift then MaskShift else 0) + (if ctrl then MaskCtrl else 0)
  {
  }
}
