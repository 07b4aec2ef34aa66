/** What one key does in Normal and Visual mode, in both copies: the
    buffer window, the single-key commands, counts, operators and motions. */
module NormalVisualProperties {
  import opened VimDecls
  import opened Hid
  import opened KeyBuffer
  import opened Engine

  /** The buffer both switches of the Normal/Visual branch look at. */
  function Pushed(s: VimState, keycode: uint16, shift: bool, ctrl: bool): uint32
  {
    Push(s.buf, Keystroke(keycode, shift, ctrl))
  }

  /** A key process_vim_key interprets in Normal or Visual mode. */
  predicate NormalVisualKey(s: VimState, keycode: uint16)
  {
    (s.mode == Normal || s.mode == Visual) && keycode < 64
  }

  /** The repeat count of a motion: num1 * num2, each raised to at least one,
      as a uint32 product handed to C's `int`. */
  function RepeatCount(cfg: Config, s: VimState): int
  {
    CInt((AtLeastOne(s.num1) * AtLeastOne(s.num2)) % Two32, cfg.width)
  }

  /** Every buffer value a case label of the first switch names in this copy. */
  function FirstKeys(cfg: Config): set<int>
  {
    {KeyC + MaskCtrl, KeyEsc, KeyA + MaskShift, KeyA, KeyI + MaskShift, KeyI, KeyV,
     KeyU + MaskCtrl, KeyD + MaskCtrl, KeyB + MaskCtrl, KeyF + MaskCtrl, KeyP, KeyU,
     KeyR + MaskCtrl, KeyR, KeyR + MaskShift, KeyN}
    + (if cfg.copy == KeymapC then {KeyEnter + MaskShift} else {KeyN + MaskShift, KeyO, KeyO + MaskShift})
  }

  /** Every buffer value a case label of the second switch names. */
  function SecondKeys(): set<int>
  {
    {KeyY, KeyD, KeyC, Key0, Key1, Key1 + 1, Key1 + 2, Key1 + 3, Key1 + 4, Key1 + 5, Key1 + 6, Key1 + 7, Key9,
     Key6 + MaskShift, Key4 + MaskShift, KeyG + MaskShift, KeyJ, KeyK, KeyH, KeyL,
     KeyW, KeyW + MaskShift, KeyE, KeyE + MaskShift, KeyB, KeyB + MaskShift,
     KeyG, Comb2(KeyG, KeyG), KeyX, KeyX + MaskShift, KeySlash}
  }

  function CommandKeys(cfg: Config): set<int>
  {
    FirstKeys(cfg) + SecondKeys()
  }

  /** A buffer the first switch does not name runs on to the second switch
      with nothing emitted and the mode unchanged. */
  lemma FirstTableMisses(cfg: Config, mode: Mode, b: uint32)
    requires b !in FirstKeys(cfg)
    ensures FirstTable(cfg, mode, b) == FirstResult([], mode, false, false)
  {
  }

  /** A buffer the second switch does not name reaches its `default`. */
  lemma SecondTableMisses(cfg: Config, t: VimState)
    requires t.buf !in SecondKeys()
    ensures SecondTable(cfg, t) == SecondResult(t, [], ResetAll, false)
  {
    assert !IsOperatorOrCount(t.buf);
  }

  /** Every case label of either switch names a single keystroke byte,
      except `g g`. */
  lemma CommandKeysAreBytes(cfg: Config, b: int)
    requires b in CommandKeys(cfg) && b != Comb2(KeyG, KeyG)
    ensures 0 <= b < 0x100
  {
  }

  /** In Normal/Visual mode a call passes the key through exactly when it is
      Esc or Ctrl-C (as the whole buffer) in Normal mode. */
  lemma PassOnlyForEscapeInNormal(cfg: Config, s: VimState, keycode: uint16, shift: bool, ctrl: bool)
    requires NormalVisualKey(s, keycode)
    ensures var b := Pushed(s, keycode, shift, ctrl);
      Step(cfg, s, keycode, shift, ctrl).pass <==> s.mode == Normal && (b == KeyEsc || b == KeyC + MaskCtrl)
  {
  }

  /** Esc or Ctrl-C in Visual mode returns to Normal, clears the operator,
      the counts and the buffer, and emits nothing. */
  lemma VisualEscape(cfg: Config, s: VimState, keycode: uint16, shift: bool, ctrl: bool)
    requires s.mode == Visual && keycode < 64
    requires var b := Pushed(s, keycode, shift, ctrl); b == KeyEsc || b == KeyC + MaskCtrl
    ensures Step(cfg, s, keycode, shift, ctrl) == Outcome(Reset(s).(mode := Normal), [], false)
  {
  }

  /** Every command of the first switch leaves op, counts, state and buffer
      cleared and emits exactly that command's taps. */
  lemma SingleKeyCommandResets(cfg: Config, s: VimState, keycode: uint16, shift: bool, ctrl: bool)
    requires NormalVisualKey(s, keycode)
    requires FirstTable(cfg, s.mode, Pushed(s, keycode, shift, ctrl)).cmd
    ensures var r := Step(cfg, s, keycode, shift, ctrl);
      r.next == Reset(s).(mode := r.next.mode)
      && r.taps == FirstTable(cfg, s.mode, Pushed(s, keycode, shift, ctrl)).taps
  {
  }

  /** A buffer no case names is swallowed: the state is reset (the mode
      kept), nothing is emitted and the key does not pass. */
  lemma UnrecognisedKeySwallowed(cfg: Config, s: VimState, keycode: uint16, shift: bool, ctrl: bool)
    requires NormalVisualKey(s, keycode)
    requires Pushed(s, keycode, shift, ctrl) !in CommandKeys(cfg)
    ensures Step(cfg, s, keycode, shift, ctrl) == Outcome(Reset(s), [], false)
  {
    var b := Pushed(s, keycode, shift, ctrl);
    FirstTableMisses(cfg, s.mode, b);
    SecondTableMisses(cfg, s.(buf := b));
  }

  /** Once the buffer holds an older nonzero byte, no case can match except
      `g g`: the key only resets. This is what makes a stale `g`, or the
      bytes Insert, Find and Cmd leave behind, swallow the next key. */
  lemma StaleBufferOnlyResets(cfg: Config, s: VimState, keycode: uint16, shift: bool, ctrl: bool)
    requires NormalVisualKey(s, keycode)
    requires var b := Pushed(s, keycode, shift, ctrl); b >= 0x100 && b != Comb2(KeyG, KeyG)
    ensures Step(cfg, s, keycode, shift, ctrl) == Outcome(Reset(s), [], false)
  {
    var b := Pushed(s, keycode, shift, ctrl);
    if b in CommandKeys(cfg) {
      CommandKeysAreBytes(cfg, b);
    }
    UnrecognisedKeySwallowed(cfg, s, keycode, shift, ctrl);
  }

  /** After any key handled in Normal or Visual mode the buffer is empty or
      holds exactly a lone `g`, and it holds the `g` exactly when the key
      just pushed made the buffer a lone `g`. */
  lemma BufferIsEmptyOrG(cfg: Config, s: VimState, keycode: uint16, shift: bool, ctrl: bool)
    requires NormalVisualKey(s, keycode)
    ensures var r := Step(cfg, s, keycode, shift, ctrl);
      (r.next.buf == 0 || r.next.buf == KeyG)
      && (r.next.buf == KeyG <==> Pushed(s, keycode, shift, ctrl) == KeyG)
  {
    var b := Pushed(s, keycode, shift, ctrl);
    var f := FirstTable(cfg, s.mode, b);
    if !f.cmd && !IsOperatorOrCount(b) {
      var t := MotionCommand(cfg, s.(buf := b, mode := f.mode));
      assert t.retain == KeepBuf ==> b == KeyG;
    }
  }

  /** No Normal/Visual key enters Cmd mode; an operator survives a key
      only in the mode it was in, where it was already pending or was just
      set by an operator key in Normal mode; and the only operators a key
      sets are yank, delete and change. */
  lemma NormalVisualModes(cfg: Config, s: VimState, keycode: uint16, shift: bool, ctrl: bool)
    requires NormalVisualKey(s, keycode)
    ensures var r := Step(cfg, s, keycode, shift, ctrl).next;
      r.mode != Cmd
      && (r.op != OpNone ==> r.mode == s.mode && (s.op != OpNone || s.mode == Normal))
      && (r.op == OpNone || r.op == s.op || r.op == OpYank || r.op == OpDelete || r.op == OpChange)
  {
    var b := Pushed(s, keycode, shift, ctrl);
    var f := FirstTable(cfg, s.mode, b);
    if !f.cmd {
      var t := SecondTable(cfg, s.(buf := b, mode := f.mode));
      if t.retain != ResetAll {
        assert f.mode == s.mode;
        assert t.next.mode == s.mode && t.next.op != OpNone ==> s.op != OpNone || s.mode == Normal;
      }
    }
  }

  /** `g g`: Ctrl+Home, then tap_vim_code of Down with num2 as it stands
      (not raised to one), then everything reset. */
  lemma GoToTop(cfg: Config, s: VimState)
    requires s.mode == Normal || s.mode == Visual
    requires s.buf % 0x100_0000 == KeyG
    ensures Step(cfg, s, KeyG, false, false)
         == Outcome(Reset(s), [Tap(Ctl(Home))] + VimCodeTaps(s.op, s.mode, Plain(Down), CInt(s.num2, cfg.width)), false)
  {
    assert Pushed(s, KeyG, false, false) == Comb2(KeyG, KeyG);
  }

  /** A lone `g` on an empty window is held in the buffer; nothing else
      changes but the input state, which returns to Idle. */
  lemma GPending(cfg: Config, s: VimState)
    requires (s.mode == Normal || s.mode == Visual) && s.buf % 0x100_0000 == 0
    ensures Step(cfg, s, KeyG, false, false) == Outcome(s.(buf := KeyG, state := Idle), [], false)
  {
    assert Pushed(s, KeyG, false, false) == KeyG;
  }

  /** With no count and no operator, `g g` emits Ctrl+Home and no Down. */
  lemma GoToTopWithoutCount(cfg: Config, s: VimState)
    requires s.mode == Normal && s.buf == KeyG && s.num2 == 0 && s.op == OpNone
    ensures Step(cfg, s, KeyG, false, false) == Outcome(Reset(s), [Tap(Ctl(Home))], false)
  {
    GoToTop(cfg, s);
  }

  /** After a lone `g`, any key other than a plain `g` only resets. */
  lemma GThenOtherKey(cfg: Config, s: VimState, keycode: uint16, shift: bool, ctrl: bool)
    requires NormalVisualKey(s, keycode) && s.buf == KeyG
    requires keycode != KeyG || shift || ctrl
    ensures Step(cfg, s, keycode, shift, ctrl) == Outcome(Reset(s), [], false)
  {
    KeystrokeValue(keycode, shift, ctrl);
    StaleBufferOnlyResets(cfg, s, keycode, shift, ctrl);
  }

  /** A digit 1-9 on an empty window: num2 gains the digit (modulo 2^32);
      with an operator pending and no digit typed since, num2 is first
      copied into num1 (and not zeroed). The state becomes Number. */
  lemma DigitAccumulates(cfg: Config, s: VimState, keycode: uint16)
    requires s.mode == Normal || s.mode == Visual
    requires s.buf % 0x100_0000 == 0 && Key1 <= keycode <= Key9
    ensures var num1 := if s.op != OpNone && s.state != Number then s.num2 else s.num1;
      Step(cfg, s, keycode, false, false)
      == Outcome(s.(buf := 0, num1 := num1, num2 := (s.num2 * 10 + (keycode - Key1 + 1)) % Two32, state := Number), [], false)
  {
    assert Pushed(s, keycode, false, false) == keycode;
  }

  /** `0` appends a zero digit only while a number is being typed;
      otherwise it is the Home motion. */
  lemma ZeroIsDigitOrHome(cfg: Config, s: VimState)
    requires s.mode == Normal || s.mode == Visual
    requires s.buf % 0x100_0000 == 0
    ensures Step(cfg, s, Key0, false, false)
         == if s.state == Idle then Outcome(Reset(s), VimCodeTaps(s.op, s.mode, Plain(Home), 1), false)
            else Outcome(s.(buf := 0, num2 := (s.num2 * 10) % Two32, state := Number), [], false)
  {
    assert Pushed(s, Key0, false, false) == Key0;
  }

  /** After every Normal/Visual key the input state is Number exactly when
      the key was taken as a digit, and Idle otherwise. */
  lemma NumberStateIffDigit(cfg: Config, s: VimState, keycode: uint16, shift: bool, ctrl: bool)
    requires NormalVisualKey(s, keycode)
    ensures var b := Pushed(s, keycode, shift, ctrl);
      var st := Step(cfg, s, keycode, shift, ctrl).next.state;
      (st == Number <==> Key1 <= b <= Key9 || (b == Key0 && s.state != Idle))
      && (st == Idle || st == Number)
  {
    var b := Pushed(s, keycode, shift, ctrl);
    var f := FirstTable(cfg, s.mode, b);
    if !f.cmd && !IsOperatorOrCount(b) {
      var t := MotionCommand(cfg, s.(buf := b, mode := f.mode));
      assert !t.number;
    }
  }

  /** h, j, k, l, w, b (and W, B): both counts raised to at least one, the
      motion emitted num1 * num2 times through tap_vim_code, then op,
      counts, state and buffer cleared. */
  lemma LinearMotion(cfg: Config, s: VimState, keycode: uint16, shift: bool, c: Chord)
    requires s.mode == Normal || s.mode == Visual
    requires s.buf % 0x100_0000 == 0
    requires || (keycode == KeyH && !shift && c == Plain(Left))
             || (keycode == KeyJ && !shift && c == Plain(Down))
             || (keycode == KeyK && !shift && c == Plain(Up))
             || (keycode == KeyL && !shift && c == Plain(Right))
             || (keycode == KeyW && c == Ctl(Right))
             || (keycode == KeyB && c == Ctl(Left))
    ensures Step(cfg, s, keycode, shift, false)
         == Outcome(Reset(s), VimCodeTaps(s.op, s.mode, c, RepeatCount(cfg, s)), false)
  {
    KeystrokeValue(keycode, shift, false);
  }

  /** `e` (and `E`): word right, then one left, each num1 * num2 times. */
  lemma WordEndMotion(cfg: Config, s: VimState, shift: bool)
    requires s.mode == Normal || s.mode == Visual
    requires s.buf % 0x100_0000 == 0
    ensures Step(cfg, s, KeyE, shift, false)
         == Outcome(Reset(s), VimCodeTaps(s.op, s.mode, Ctl(Right), RepeatCount(cfg, s))
                              + VimCodeTaps(s.op, s.mode, Plain(Left), RepeatCount(cfg, s)), false)
  {
    KeystrokeValue(KeyE, shift, false);
  }

  /** x / X: num2 (at least one) Delete / Backspace taps, whatever num1 and
      the pending operator are; then everything is reset. */
  lemma CharDeleteIgnoresOperator(cfg: Config, s: VimState, shift: bool)
    requires s.mode == Normal || s.mode == Visual
    requires s.buf % 0x100_0000 == 0
    ensures Step(cfg, s, KeyX, shift, false)
         == Outcome(Reset(s), Repeat(Tap(Plain(if shift then Backspace else Delete)),
                                     Times(CInt(AtLeastOne(s.num2), cfg.width))), false)
  {
    KeystrokeValue(KeyX, shift, false);
  }

  /** While the product of the counts fits in 15 bits, the repeat count is
      that product on either width of `int`. */
  lemma SmallRepeatCount(cfg: Config, s: VimState)
    requires AtLeastOne(s.num1) * AtLeastOne(s.num2) < 0x8000
    ensures RepeatCount(cfg, s) == AtLeastOne(s.num1) * AtLeastOne(s.num2) >= 1
  {
    var p := AtLeastOne(s.num1) * AtLeastOne(s.num2);
    assert p >= 1 by {
      assert AtLeastOne(s.num1) >= 1 && AtLeastOne(s.num2) >= 1;
    }
    assert p % Two32 == p;
  }

  /** tap_vim_code per operator, with k = max(n, 0) taps per run:
      none: k motions (shifted in Visual); delete: k shifted, then Cut;
      yank: k shifted, Copy, then the OP_NONE emission; any other operator
      (change included): nothing. */
  lemma VimCodeTapsShape(op: Operator, mode: Mode, c: Chord, n: int)
    ensures var r := VimCodeTaps(op, mode, c, n);
      var k := Times(n);
      var move := Tap(if mode == Visual then Shifted(c) else c);
      match op
      case OpNone => |r| == k && forall i :: 0 <= i < k ==> r[i] == move
      case OpDelete => |r| == k + 1 && r[k] == Cut && forall i :: 0 <= i < k ==> r[i] == Tap(Shifted(c))
      case OpYank => |r| == 2 * k + 1 && r[k] == Copy
                     && (forall i :: 0 <= i < k ==> r[i] == Tap(Shifted(c)))
                     && (forall i :: k < i <= 2 * k ==> r[i] == move)
      case _ => r == []
  {
  }

  /** An operator typed twice (`y y`, `d d`) only clears it; `c c` also
      enters insert mode. Nothing is emitted. */
  lemma DoubledOperator(cfg: Config, s: VimState, keycode: uint16)
    requires s.mode == Normal && s.buf % 0x100_0000 == 0
    requires (keycode == KeyY && s.op == OpYank) || (keycode == KeyD && s.op == OpDelete)
             || (keycode == KeyC && s.op == OpChange)
    ensures Step(cfg, s, keycode, false, false)
         == Outcome(Reset(s).(mode := if keycode == KeyC then InsertMode(cfg) else Normal), [], false)
  {
    assert Pushed(s, keycode, false, false) == keycode;
  }

  /** The change operator followed by a motion emits nothing and is
      dropped: tap_vim_code has no case for it. */
  lemma ChangeMotionEmitsNothing(cfg: Config, s: VimState, keycode: uint16, shift: bool, c: Chord)
    requires s.mode == Normal && s.buf % 0x100_0000 == 0 && s.op == OpChange
    requires || (keycode == KeyH && !shift && c == Plain(Left))
             || (keycode == KeyJ && !shift && c == Plain(Down))
             || (keycode == KeyK && !shift && c == Plain(Up))
             || (keycode == KeyL && !shift && c == Plain(Right))
             || (keycode == KeyW && c == Ctl(Right))
             || (keycode == KeyB && c == Ctl(Left))
             || (keycode == KeyE && c == Ctl(Right))
    ensures Step(cfg, s, keycode, shift, false) == Outcome(Reset(s), [], false)
  {
    if keycode == KeyE {
      WordEndMotion(cfg, s, shift);
      VimCodeTapsShape(OpChange, Normal, Ctl(Right), RepeatCount(cfg, s));
      VimCodeTapsShape(OpChange, Normal, Plain(Left), RepeatCount(cfg, s));
    } else {
      LinearMotion(cfg, s, keycode, shift, c);
      VimCodeTapsShape(OpChange, Normal, c, RepeatCount(cfg, s));
    }
  }

  /** An operator key in Normal mode with no operator pending sets it and
      empties the buffer; the counts stay for the motion. */
  lemma OperatorPends(cfg: Config, s: VimState, keycode: uint16, op: Operator)
    requires s.mode == Normal && s.buf % 0x100_0000 == 0 && s.op == OpNone
    requires (keycode == KeyY && op == OpYank) || (keycode == KeyD && op == OpDelete)
             || (keycode == KeyC && op == OpChange)
    ensures Step(cfg, s, keycode, false, false) == Outcome(s.(op := op, buf := 0, state := Idle), [], false)
  {
    assert Pushed(s, keycode, false, false) == keycode;
  }

  /** In Visual mode `y` copies and `d` cuts, returning to Normal; `c` cuts
      and enters insert mode. None of them leaves an operator pending. */
  lemma VisualOperator(cfg: Config, s: VimState, keycode: uint16)
    requires s.mode == Visual && s.buf % 0x100_0000 == 0
    requires keycode == KeyY || keycode == KeyD || keycode == KeyC
    ensures Step(cfg, s, keycode, false, false)
         == Outcome(Reset(s).(mode := if keycode == KeyC then InsertMode(cfg) else Normal),
                    [if keycode == KeyY then Copy else Cut], false)
  {
    assert Pushed(s, keycode, false, false) == keycode;
  }

  /** vim.c: `o` opens a line below (End, Enter) and runs on into `O`,
      which opens one above (Up, End, Enter); both end in insert mode with
      everything reset and the key suppressed. */
  lemma OpenLine(cfg: Config, s: VimState, shift: bool)
    requires cfg.copy != KeymapC
    requires (s.mode == Normal || s.mode == Visual) && s.buf % 0x100_0000 == 0
    ensures Step(cfg, s, KeyO, shift, false)
         == Outcome(Reset(s).(mode := InsertMode(cfg)),
                    (if shift then [] else [Tap(Plain(End)), Tap(Plain(Enter))])
                    + [Tap(Plain(Up)), Tap(Plain(End)), Tap(Plain(Enter))], false)
  {
    KeystrokeValue(KeyO, shift, false);
  }
}
