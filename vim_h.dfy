/** The declarations of vim.h (repeated verbatim at the top of keymap.c):
    the mode, input-state and operator enumerations, the modifier masks,
    COMB2 and the STICKY_VIM alias of VIM_INSERT. */
module VimDecls {

  type uint16 = x: int | 0 <= x < 0x1_0000
  type uint32 = x: int | 0 <= x < 0x1_0000_0000
  type byte = x: int | 0 <= x < 0x100

  const Two32 := 0x1_0000_0000

  /** vim_mode, constructors in enum order (values 0 through 7). */
  datatype Mode = Disabled | Normal | Insert | InsertRep1 | InsertRep | Find | Visual | Cmd

  /** VimInputState; GPrefix is VS_G. */
  datatype InputState = Idle | Number | GPrefix

  /** Operator, constructors in enum order. */
  datatype Operator = OpNone | OpDelete | OpYank | OpChange | OpUpper | OpLower | OpToggle

  /** The integer value of an Operator, as `%d` prints it. */
  function OpValue(op: Operator): (v: nat)
    ensures v < 7
  {
    match op
    case OpNone => 0
    case OpDelete => 1
    case OpYank => 2
    case OpChange => 3
    case OpUpper => 4
    case OpLower => 5
    case OpToggle => 6
  }

  /** The integer value of a VimInputState, as `%d` prints it. */
  function StateValue(st: InputState): (v: nat)
    ensures v < 3
  {
    match st
    case Idle => 0
    case Number => 1
    case GPrefix => 2
  }

  /** Which copy of the engine runs: the live one in keymap.c, or the
      header-based one in vim.c, compiled with or without STICKY_VIM. */
  datatype Copy = KeymapC | VimC(sticky: bool)

  /** The width of C's `int` on the target, which receives the repeat counts. */
  datatype IntWidth = Int16 | Int32

  datatype Config = Config(copy: Copy, width: IntWidth)

  /** The mode the name VIM_INSERT denotes in a copy: without STICKY_VIM,
      vim.h redefines it as VIM_DISABLED. */
  function InsertMode(cfg: Config): Mode
  {
    if cfg.copy == VimC(false) then Disabled else Insert
  }

  /** VIM_MASK_SHIFT and VIM_MASK_CTRL. */
  const MaskShift: byte := 0x40
  const MaskCtrl: byte := 0x80

  /** COMB2(a, b), two buffered keystrokes with `a` the older one; `a << 8`
      and `b` occupy disjoint bits, so the `|` of the macro adds them. */
  function Comb2(a: byte, b: byte): uint32
  {
    a * 0x100 + b
  }
}
