/** The key-processing state machine of process_vim_key as pure functions
    over a snapshot of the `Vim` record. One definition serves both copies:
    `Config.copy` selects keymap.c or vim.c (with or without STICKY_VIM) at
    every point where they differ. The imperative class in Machine is proved
    to compute exactly these functions. */
module Engine {
  import opened VimDecls
  import opened Hid
  import opened KeyBuffer

  /** The six fields of `struct Vim`. */
  datatype VimState = VimState(
    mode: Mode,
    buf: uint32,        // the last four keystroke bytes, newest lowest
    num1: uint32,       // count typed before the operator
    num2: uint32,       // count being typed
    op: Operator,       // pending operator
    state: InputState)

  /** The result of one call: the new record, the host taps emitted, and
      whether the original key event passes through to the host. */
  datatype Outcome = Outcome(next: VimState, taps: seq<Action>, pass: bool)

  /** The record `vim` of keymap.c starts as: disabled, every field zero. */
  function Initial(): VimState
  {
    VimState(Disabled, 0, 0, 0, OpNone, Idle)
  }

  /** reset_vim_buf: clears the operator, the input state, both counts and
      the buffer; the mode is kept. */
  function Reset(s: VimState): VimState
  {
    s.(op := OpNone, state := Idle, num1 := 0, num2 := 0, buf := 0)
  }

  /** toggle_vim (keymap.c) and toggle_vim_mode (vim.c). */
  function ToggleMode(m: Mode): Mode
  {
    if m == Disabled then Normal else Disabled
  }

  function Toggled(s: VimState): VimState
  {
    s.(mode := ToggleMode(s.mode))
  }

  /** stop_vim_mode (vim.c). */
  function Stopped(s: VimState): VimState
  {
    s.(mode := Disabled)
  }

  /** `n` copies of one tap, as tapn_code/sendn_code emit them. */
  function Repeat(a: Action, n: nat): (r: seq<Action>)
    ensures |r| == n
    ensures forall i :: 0 <= i < n ==> r[i] == a
  {
    if n == 0 then [] else Repeat(a, n - 1) + [a]
  }

  /** How often `for (int i = 0; i < n; i++)` runs. */
  function Times(n: int): nat
  {
    if n < 0 then 0 else n
  }

  /** The conversion of a uint32 count to the `int n` parameter of
      tap_vim_code/tapn_code: reduction modulo 2^bits into the signed range,
      as GCC defines it. */
  function CInt(x: uint32, w: IntWidth): int
  {
    if w == Int16 then
      var y := x % 0x1_0000;
      if y < 0x8000 then y else y - 0x1_0000
    else
      if x < 0x8000_0000 then x else x - Two32
  }

  /** `n == 0 ? 1 : n` */
  function AtLeastOne(n: uint32): uint32
  {
    if n == 0 then 1 else n
  }

  /** tap_vim_code: the emission of a motion under the pending operator.
      OP_YANK selects and copies, then falls through to the OP_NONE case. */
  function VimCodeTaps(op: Operator, mode: Mode, c: Chord, n: int): seq<Action>
  {
    var plain := Repeat(Tap(c), Times(n));
    var shifted := Repeat(Tap(Shifted(c)), Times(n));
    match op
    case OpYank => shifted + [Copy] + (if mode == Visual then shifted else plain)
    case OpNone => if mode == Visual then shifted else plain
    case OpDelete => shifted + [Cut]
    case _ => []
  }

  /** The outcome of the first switch of the Normal/Visual branch (the
      single-key commands). `cmd` is false when no case matched or, in vim.c,
      when the `o`/`O` cases ran on into `default`. */
  datatype FirstResult = FirstResult(taps: seq<Action>, mode: Mode, pass: bool, cmd: bool)

  /** The first switch of the Normal/Visual branch, on the whole buffer. */
  function FirstTable(cfg: Config, mode: Mode, b: uint32): FirstResult
  {
    if b == KeyC + MaskCtrl || b == KeyEsc then
      if mode == Visual then FirstResult([], Normal, false, true)
      else FirstResult([], mode, true, true)
    else if b == KeyA + MaskShift then FirstResult([Tap(Plain(End))], InsertMode(cfg), false, true)
    else if b == KeyA then FirstResult([Tap(Plain(Right))], InsertMode(cfg), false, true)
    else if b == KeyI + MaskShift then FirstResult([Tap(Plain(Home))], InsertMode(cfg), false, true)
    else if b == KeyI then FirstResult([], InsertMode(cfg), false, true)
    else if b == KeyV then FirstResult([], Visual, false, true)
    else if b == KeyU + MaskCtrl then FirstResult([Tap(Plain(PageUp))], mode, false, true)
    else if b == KeyD + MaskCtrl then FirstResult([Tap(Plain(PageDown))], mode, false, true)
    else if b == KeyB + MaskCtrl then FirstResult([Tap(Plain(PageUp))], mode, false, true)
    else if b == KeyF + MaskCtrl then FirstResult([Tap(Plain(PageDown))], mode, false, true)
    else if b == KeyP then FirstResult([Paste], mode, false, true)
    else if b == KeyU then FirstResult([Tap(Ctl(LetterZ))], mode, false, true)
    else if b == KeyR + MaskCtrl then FirstResult([Tap(Ctl(LetterY))], mode, false, true)
    else if b == KeyR then FirstResult([], InsertRep1, false, true)
    else if b == KeyR + MaskShift then FirstResult([], InsertRep, false, true)
    else if b == KeyN then FirstResult([Tap(Plain(Enter))], mode, false, true)
    else if b == (if cfg.copy == KeymapC then KeyEnter else KeyN) + MaskShift then
      FirstResult([Tap(Shifted(Plain(Enter)))], mode, false, true)
    else if cfg.copy != KeymapC && (b == KeyO || b == KeyO + MaskShift) then
      // `o` runs on into `O`, which runs on into `default`
      var below := if b == KeyO then [Tap(Plain(End)), Tap(Plain(Enter))] else [];
      FirstResult(below + [Tap(Plain(Up)), Tap(Plain(End)), Tap(Plain(Enter))], InsertMode(cfg), false, false)
    else FirstResult([], mode, false, false)
  }

  /** What happens to the buffer after the second switch: `resBuf` 0, 1, 2. */
  datatype Retain = ResetAll | ClearBuf | KeepBuf

  /** The outcome of the second switch (operators, counts, motions). */
  datatype SecondResult = SecondResult(next: VimState, taps: seq<Action>, retain: Retain, number: bool)

  /** A motion of h/j/k/l/w/b: both counts raised to at least one, and the
      motion emitted num1 * num2 times (a uint32 product). */
  function Motion(cfg: Config, s: VimState, c: Chord): SecondResult
  {
    var s' := s.(num1 := AtLeastOne(s.num1), num2 := AtLeastOne(s.num2));
    var n := CInt((s'.num1 * s'.num2) % Two32, cfg.width);
    SecondResult(s', VimCodeTaps(s'.op, s'.mode, c, n), ResetAll, false)
  }

  /** The `e` motion: word right, then one left, each num1 * num2 times. */
  function WordEnd(cfg: Config, s: VimState): SecondResult
  {
    var s' := s.(num1 := AtLeastOne(s.num1), num2 := AtLeastOne(s.num2));
    var n := CInt((s'.num1 * s'.num2) % Two32, cfg.width);
    SecondResult(s', VimCodeTaps(s'.op, s'.mode, Ctl(Right), n)
                     + VimCodeTaps(s'.op, s'.mode, Plain(Left), n), ResetAll, false)
  }

  /** x and X: num2 (at least one) taps of a deleting key, regardless of
      num1 and the pending operator. */
  function CharDelete(cfg: Config, s: VimState, k: HostKey): SecondResult
  {
    var s' := s.(num2 := AtLeastOne(s.num2));
    SecondResult(s', Repeat(Tap(Plain(k)), Times(CInt(s'.num2, cfg.width))), ResetAll, false)
  }

  /** An operator key (y, d, c) outside Visual mode. */
  function OperatorKey(cfg: Config, s: VimState, op: Operator): SecondResult
  {
    if s.op == OpNone then SecondResult(s.(op := op), [], ClearBuf, false)
    else if s.op == op && op == OpChange then SecondResult(s.(mode := InsertMode(cfg)), [], ResetAll, false)
    else SecondResult(s, [], ResetAll, false)
  }

  /** The operator and count cases of the second switch: y, d, c and the digits. */
  predicate IsOperatorOrCount(b: uint32)
  {
    b == KeyY || b == KeyD || b == KeyC || Key1 <= b <= Key0
  }

  /** The second switch of the Normal/Visual branch, on the whole buffer. */
  function SecondTable(cfg: Config, s: VimState): SecondResult
  {
    if IsOperatorOrCount(s.buf) then OperatorOrCount(cfg, s) else MotionCommand(cfg, s)
  }

  /** The y, d, c and digit cases of the second switch. */
  function OperatorOrCount(cfg: Config, s: VimState): SecondResult
    requires IsOperatorOrCount(s.buf)
  {
    var b := s.buf;
    if b == KeyY then
      if s.mode == Visual then SecondResult(s.(mode := Normal), [Copy], ResetAll, false)
      else OperatorKey(cfg, s, OpYank)
    else if b == KeyD then
      if s.mode == Visual then SecondResult(s.(mode := Normal), [Cut], ResetAll, false)
      else OperatorKey(cfg, s, OpDelete)
    else if b == KeyC then
      if s.mode == Visual then SecondResult(s.(mode := InsertMode(cfg)), [Cut], ResetAll, false)
      else OperatorKey(cfg, s, OpChange)
    else if b == Key0 then
      if s.state == Idle then SecondResult(s, VimCodeTaps(s.op, s.mode, Plain(Home), 1), ResetAll, false)
      else SecondResult(s.(num2 := (s.num2 * 10) % Two32), [], ClearBuf, true)
    else
      var num1 := if s.op != OpNone && s.state != Number then s.num2 else s.num1;
      SecondResult(s.(num1 := num1, num2 := (s.num2 * 10 + b - Key1 + 1) % Two32), [], ClearBuf, true)
  }

  /** The motion, jump and find cases of the second switch, and its `default`. */
  function MotionCommand(cfg: Config, s: VimState): SecondResult
  {
    var b := s.buf;
    if b == Key6 + MaskShift then SecondResult(s, VimCodeTaps(s.op, s.mode, Plain(Home), 1), ResetAll, false)
    else if b == Key4 + MaskShift then SecondResult(s, VimCodeTaps(s.op, s.mode, Plain(End), 1), ResetAll, false)
    else if b == KeyG + MaskShift then SecondResult(s, VimCodeTaps(s.op, s.mode, Ctl(End), 1), ResetAll, false)
    else if b == KeyJ then Motion(cfg, s, Plain(Down))
    else if b == KeyK then Motion(cfg, s, Plain(Up))
    else if b == KeyH then Motion(cfg, s, Plain(Left))
    else if b == KeyL then Motion(cfg, s, Plain(Right))
    else if b == KeyW || b == KeyW + MaskShift then Motion(cfg, s, Ctl(Right))
    else if b == KeyE || b == KeyE + MaskShift then WordEnd(cfg, s)
    else if b == KeyB || b == KeyB + MaskShift then Motion(cfg, s, Ctl(Left))
    else if b == KeyG then SecondResult(s, [], KeepBuf, false)
    else if b == Comb2(KeyG, KeyG) then
      SecondResult(s, [Tap(Ctl(Home))] + VimCodeTaps(s.op, s.mode, Plain(Down), CInt(s.num2, cfg.width)), ResetAll, false)
    else if b == KeyX then CharDelete(cfg, s, Delete)
    else if b == KeyX + MaskShift then CharDelete(cfg, s, Backspace)
    else if b == KeySlash then SecondResult(s.(mode := Find), [Tap(Ctl(LetterF))], ResetAll, false)
    else SecondResult(s, [], ResetAll, false)
  }

  /** The Normal/Visual branch, after the keystroke has entered the buffer. */
  function NormalVisual(cfg: Config, s: VimState): Outcome
  {
    var f := FirstTable(cfg, s.mode, s.buf);
    if f.cmd then Outcome(Reset(s.(mode := f.mode)), f.taps, f.pass)
    else
      var t := SecondTable(cfg, s.(mode := f.mode));
      var s' := match t.retain
        case ResetAll => Reset(t.next)
        case ClearBuf => t.next.(buf := 0)
        case KeepBuf => t.next;
      Outcome(s'.(state := if t.number then Number else Idle), f.taps + t.taps, false)
  }

  /** The Insert, InsertRep and InsertRep1 branch; it switches on the
      keystroke byte, not on the buffer. */
  function InsertFamily(s: VimState, key: byte): Outcome
  {
    var r := if key == KeyEsc || key == KeyC + MaskCtrl then Outcome(s.(mode := Normal), [], false)
             else if key == KeyH + MaskCtrl then Outcome(s, [Tap(Plain(Backspace))], false)
             else Outcome(s, [], true);
    if r.next.mode == InsertRep1 then
      Outcome(r.next.(mode := Normal), r.taps + [Tap(Plain(Delete)), Tap(Plain(Left))], r.pass)
    else if r.next.mode == InsertRep then
      Outcome(r.next, r.taps + [Tap(Plain(Delete))], r.pass)
    else r
  }

  /** The Find branch. */
  function FindKey(s: VimState, key: byte): Outcome
  {
    if key == KeyEsc || key == KeyC + MaskCtrl then Outcome(s.(mode := Normal), [Tap(Plain(Esc))], false)
    else if key == KeyEnter then Outcome(s, [Tap(Plain(Enter))], false)
    else Outcome(s, [], true)
  }

  /** The Cmd branch; it tests the raw key code, ignoring modifiers. */
  function CmdKey(s: VimState, keycode: uint16): Outcome
  {
    if keycode == KeyEsc then Outcome(s.(mode := Normal), [], false)
    else Outcome(s, [], true)
  }

  /** Whether a mode is handled by the Insert-family branch in this copy. */
  predicate InsertFamilyMode(cfg: Config, m: Mode)
  {
    m == InsertMode(cfg) || m == InsertRep || m == InsertRep1
  }

  /** The switch on the mode, after the keystroke has entered the buffer. */
  function Dispatch(cfg: Config, s: VimState, keycode: uint16, key: byte): Outcome
  {
    if s.mode == Visual || s.mode == Normal then NormalVisual(cfg, s)
    else if InsertFamilyMode(cfg, s.mode) then InsertFamily(s, key)
    else if s.mode == Find then FindKey(s, key)
    else if s.mode == Cmd then CmdKey(s, keycode)
    else Outcome(s, [], true)
  }

  /** process_vim_key. keymap.c returns at once while disabled; both copies
      return at once for key codes of 64 and above. */
  function Step(cfg: Config, s: VimState, keycode: uint16, shift: bool, ctrl: bool): Outcome
  {
    if cfg.copy == KeymapC && s.mode == Disabled then Outcome(s, [], true)
    else if keycode >= 64 then Outcome(s, [], true)
    else
      var key := Keystroke(keycode, shift, ctrl);
      Dispatch(cfg, s.(buf := Push(s.buf, key)), keycode, key)
  }

  /** KC_VIM, the first custom key code (SAFE_RANGE of quantum_keycodes.h);
      the model relies only on its lying above the 64 modal key codes. */
  const KeyVim: uint16 := 0x7E40

  /** process_record_user of keymap.c: on a press, KC_VIM toggles the engine,
      and every pressed key then goes to process_vim_key; releases pass. */
  function Record(w: IntWidth, s: VimState, keycode: uint16, pressed: bool, shift: bool, ctrl: bool): Outcome
  {
    if pressed then
      var s' := if keycode == KeyVim then Toggled(s) else s;
      Step(Config(KeymapC, w), s', keycode, shift, ctrl)
    else Outcome(s, [], true)
  }

  /** One key press as process_vim_key sees it: the key code and whether
      shift and control are held. */
  datatype KeyPress = KeyPress(keycode: uint16, shift: bool, ctrl: bool)

  /** Calls of a key handler fed one key after another: the final record,
      every tap in order, and the last call's return value. */
  function Fold<K>(handle: (VimState, K) -> Outcome, s: VimState, keys: seq<K>): Outcome
    decreases |keys|
  {
    if keys == [] then Outcome(s, [], true)
    else
      var r := Fold(handle, s, keys[..|keys| - 1]);
      var o := handle(r.next, keys[|keys| - 1]);
      Outcome(o.next, r.taps + o.taps, o.pass)
  }

  /** process_vim_key as a handler of key presses. */
  function Handler(cfg: Config): (VimState, KeyPress) -> Outcome
  {
    (t: VimState, k: KeyPress) => Step(cfg, t, k.keycode, k.shift, k.ctrl)
  }

  /** A run of key presses fed to process_vim_key one after another. */
  function Run(cfg: Config, s: VimState, keys: seq<KeyPress>): Outcome
  {
    Fold(Handler(cfg), s, keys)
  }

  /** One event as process_record_user sees it: the key code, whether it
      is a press, and whether shift and control are held. */
  datatype KeyEvent = KeyEvent(keycode: uint16, pressed: bool, shift: bool, ctrl: bool)

  /** process_record_user as a handler of key events. */
  function RecordHandler(w: IntWidth): (VimState, KeyEvent) -> Outcome
  {
    (t: VimState, e: KeyEvent) => Record(w, t, e.keycode, e.pressed, e.shift, e.ctrl)
  }

  /** A run of key events fed to process_record_user one after another. */
  function Records(w: IntWidth, s: VimState, events: seq<KeyEvent>): Outcome
  {
    Fold(RecordHandler(w), s, events)
  }
}
