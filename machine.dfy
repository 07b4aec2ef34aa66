/** The `Vim` record and the C functions that update it in place, written
    step by step as keymap.c and vim.c write them. Every host tap
    (tap_code16 / send_code) is appended to `out`. Each method is proved to
    compute the corresponding function of Engine. */
module Machine {
  import opened VimDecls
  import opened Hid
  import opened KeyBuffer
  import opened Engine

  lemma AppendAssoc(a: seq<Action>, b: seq<Action>, c: seq<Action>)
    ensures a + (b + c) == (a + b) + c
  {
  }

  class Vim {
    const cfg: Config
    var mode: Mode
    var buf: uint32
    var num1: uint32
    var num2: uint32
    var op: Operator
    var state: InputState
    /** Every host tap emitted so far, oldest first. */
    var out: seq<Action>

    function Snapshot(): VimState
      reads this
    {
      VimState(mode, buf, num1, num2, op, state)
    }

    /** The static record of keymap.c: disabled, every field zero. */
    constructor (cfg: Config)
      ensures this.cfg == cfg && Snapshot() == Initial() && out == []
    {
      this.cfg := cfg;
      mode, buf, num1, num2, op, state := Disabled, 0, 0, 0, OpNone, Idle;
      out := [];
    }

    /** tap_code16 / send_code */
    method Send(a: Action)
      modifies this`out
      ensures out == old(out) + [a]
    {
      out := out + [a];
    }

    /** tapn_code (keymap.c) / sendn_code (vim.c) */
    method TapN(a: Action, n: int)
      modifies this`out
      ensures out == old(out) + Repeat(a, Times(n))
    {
      var i := 0;
      while i < n
        invariant 0 <= i <= Times(n)
        invariant out == old(out) + Repeat(a, i)
      {
        Send(a);
        i := i + 1;
      }
    }

    /** toggle_vim (keymap.c) / toggle_vim_mode (vim.c) */
    method Toggle()
      modifies this`mode
      ensures Snapshot() == Toggled(old(Snapshot()))
    {
      if mode == Disabled {
        mode := Normal;
      } else {
        mode := Disabled;
      }
    }

    /** stop_vim_mode (vim.c) */
    method Stop()
      modifies this`mode
      ensures Snapshot() == Stopped(old(Snapshot()))
    {
      mode := Disabled;
    }

    /** set_vim_mode (vim.c) */
    method SetMode(m: Mode)
      modifies this`mode
      ensures Snapshot() == old(Snapshot()).(mode := m)
    {
      mode := m;
    }

    /** reset_vim_buf */
    method ResetBuf()
      modifies this`op, this`state, this`num1, this`num2, this`buf
      ensures Snapshot() == Reset(old(Snapshot()))
    {
      op := OpNone;
      state := Idle;
      num1 := 0;
      num2 := 0;
      buf := 0;
    }

    /** tap_vim_code */
    method TapVimCode(c: Chord, n: int)
      modifies this`out
      ensures out == old(out) + VimCodeTaps(op, mode, c, n)
    {
      if op == OpYank || op == OpNone {
        if op == OpYank {
          TapN(Tap(Shifted(c)), n);
          Send(Copy);
        }
        if mode == Visual {
          TapN(Tap(Shifted(c)), n);
        } else {
          TapN(Tap(c), n);
        }
      } else if op == OpDelete {
        TapN(Tap(Shifted(c)), n);
        Send(Cut);
      }
    }

    /** The first switch of the Normal/Visual branch. */
    method SingleKeyCommand() returns (cmd: bool, pass: bool)
      modifies this`mode, this`out
      ensures var f := FirstTable(cfg, old(mode), buf);
        mode == f.mode && out == old(out) + f.taps && cmd == f.cmd && pass == f.pass
    {
      cmd, pass := true, false;
      if buf == KeyC + MaskCtrl || buf == KeyEsc {
        if mode == Visual {
          mode := Normal;
        } else {
          pass := true;
        }
      } else if buf == KeyA + MaskShift {
        Send(Tap(Plain(End)));
        mode := InsertMode(cfg);
      } else if buf == KeyA {
        Send(Tap(Plain(Right)));
        mode := InsertMode(cfg);
      } else if buf == KeyI + MaskShift || buf == KeyI {
        if buf == KeyI + MaskShift {
          Send(Tap(Plain(Home)));
        }
        mode := InsertMode(cfg);
      } else if buf == KeyV {
        mode := Visual;
      } else if buf == KeyU + MaskCtrl {
        Send(Tap(Plain(PageUp)));
      } else if buf == KeyD + MaskCtrl {
        Send(Tap(Plain(PageDown)));
      } else if buf == KeyB + MaskCtrl {
        Send(Tap(Plain(PageUp)));
      } else if buf == KeyF + MaskCtrl {
        Send(Tap(Plain(PageDown)));
      } else if buf == KeyP {
        Send(Paste);
      } else if buf == KeyU {
        Send(Tap(Ctl(LetterZ)));
      } else if buf == KeyR + MaskCtrl {
        Send(Tap(Ctl(LetterY)));
      } else if buf == KeyR {
        mode := InsertRep1;
      } else if buf == KeyR + MaskShift {
        mode := InsertRep;
      } else if buf == KeyN {
        Send(Tap(Plain(Enter)));
      } else if buf == (if cfg.copy == KeymapC then KeyEnter else KeyN) + MaskShift {
        Send(Tap(Shifted(Plain(Enter))));
      } else if cfg.copy != KeymapC && (buf == KeyO || buf == KeyO + MaskShift) {
        if buf == KeyO {
          Send(Tap(Plain(End)));
          Send(Tap(Plain(Enter)));
          mode := InsertMode(cfg);
        }
        Send(Tap(Plain(Up)));
        Send(Tap(Plain(End)));
        Send(Tap(Plain(Enter)));
        mode := InsertMode(cfg);
        cmd := false;
      } else {
        cmd := false;
      }
    }

    /** The body shared by the h/j/k/l/w/b cases. */
    method MotionKey(c: Chord)
      modifies this`num1, this`num2, this`out
      ensures var t := Motion(cfg, old(Snapshot()), c);
        Snapshot() == t.next && out == old(out) + t.taps
    {
      num1 := if num1 == 0 then 1 else num1;
      num2 := if num2 == 0 then 1 else num2;
      TapVimCode(c, CInt((num1 * num2) % Two32, cfg.width));
    }

    /** The `e` and `E` case. */
    method WordEndKey()
      modifies this`num1, this`num2, this`out
      ensures var t := WordEnd(cfg, old(Snapshot()));
        Snapshot() == t.next && out == old(out) + t.taps
    {
      num1 := if num1 == 0 then 1 else num1;
      num2 := if num2 == 0 then 1 else num2;
      ghost var n := CInt((num1 * num2) % Two32, cfg.width);
      TapVimCode(Ctl(Right), CInt((num1 * num2) % Two32, cfg.width));
      TapVimCode(Plain(Left), CInt((num1 * num2) % Two32, cfg.width));
      AppendAssoc(old(out), VimCodeTaps(op, mode, Ctl(Right), n), VimCodeTaps(op, mode, Plain(Left), n));
    }

    /** y, d or c outside Visual mode. */
    method OperatorKeyPressed(o: Operator) returns (retain: Retain)
      modifies this`op, this`mode
      ensures var t := OperatorKey(cfg, old(Snapshot()), o);
        Snapshot() == t.next && retain == t.retain
    {
      retain := ResetAll;
      if op == OpNone {
        op := o;
        retain := ClearBuf;
      } else if op == o && o == OpChange {
        mode := InsertMode(cfg);
      }
    }

    /** The second switch of the Normal/Visual branch. */
    method OperatorOrMotion() returns (retain: Retain, number: bool)
      modifies this`mode, this`num1, this`num2, this`op, this`out
      ensures var t := SecondTable(cfg, old(Snapshot()));
        Snapshot() == t.next && out == old(out) + t.taps && retain == t.retain && number == t.number
    {
      if IsOperatorOrCount(buf) {
        retain, number := OperatorOrCountKey();
      } else {
        retain := MotionCommandKey();
        number := false;
      }
    }

    /** The y, d, c and digit cases of the second switch. */
    method OperatorOrCountKey() returns (retain: Retain, number: bool)
      requires IsOperatorOrCount(buf)
      modifies this`mode, this`num1, this`num2, this`op, this`out
      ensures var t := OperatorOrCount(cfg, old(Snapshot()));
        Snapshot() == t.next && out == old(out) + t.taps && retain == t.retain && number == t.number
    {
      retain, number := ResetAll, false;
      if buf == KeyY {
        if mode == Visual {
          Send(Copy);
          mode := Normal;
        } else {
          retain := OperatorKeyPressed(OpYank);
        }
      } else if buf == KeyD {
        if mode == Visual {
          Send(Cut);
          mode := Normal;
        } else {
          retain := OperatorKeyPressed(OpDelete);
        }
      } else if buf == KeyC {
        if mode == Visual {
          Send(Cut);
          mode := InsertMode(cfg);
        } else {
          retain := OperatorKeyPressed(OpChange);
        }
      } else if buf == Key0 {
        if state == Idle {
          TapVimCode(Plain(Home), 1);
        } else {
          num2 := (num2 * 10 + 0) % Two32;
          number, retain := true, ClearBuf;
        }
      } else {
        if op != OpNone && state != Number {
          num1 := num2;
        }
        num2 := (num2 * 10 + buf - Key1 + 1) % Two32;
        number, retain := true, ClearBuf;
      }
    }

    /** The motion, jump and find cases of the second switch. */
    method MotionCommandKey() returns (retain: Retain)
      modifies this`mode, this`num1, this`num2, this`out
      ensures var t := MotionCommand(cfg, old(Snapshot()));
        Snapshot() == t.next && out == old(out) + t.taps && retain == t.retain && !t.number
    {
      retain := ResetAll;
      if buf == Key6 + MaskShift {
        TapVimCode(Plain(Home), 1);
      } else if buf == Key4 + MaskShift {
        TapVimCode(Plain(End), 1);
      } else if buf == KeyG + MaskShift {
        TapVimCode(Ctl(End), 1);
      } else if buf == KeyJ {
        MotionKey(Plain(Down));
      } else if buf == KeyK {
        MotionKey(Plain(Up));
      } else if buf == KeyH {
        MotionKey(Plain(Left));
      } else if buf == KeyL {
        MotionKey(Plain(Right));
      } else if buf == KeyW || buf == KeyW + MaskShift {
        MotionKey(Ctl(Right));
      } else if buf == KeyE || buf == KeyE + MaskShift {
        WordEndKey();
      } else if buf == KeyB || buf == KeyB + MaskShift {
        MotionKey(Ctl(Left));
      } else if buf == KeyG {
        retain := KeepBuf;  // waiting for the next key
      } else if buf == Comb2(KeyG, KeyG) {
        Send(Tap(Ctl(Home)));
        TapVimCode(Plain(Down), CInt(num2, cfg.width));
      } else if buf == KeyX {
        num2 := if num2 == 0 then 1 else num2;
        TapN(Tap(Plain(Delete)), CInt(num2, cfg.width));
      } else if buf == KeyX + MaskShift {
        num2 := if num2 == 0 then 1 else num2;
        TapN(Tap(Plain(Backspace)), CInt(num2, cfg.width));
      } else if buf == KeySlash {
        Send(Tap(Ctl(LetterF)));
        mode := Find;
      }
    }

    /** The Normal/Visual branch of process_vim_key. */
    method NormalVisualKey() returns (pass: bool)
      modifies this`mode, this`buf, this`num1, this`num2, this`op, this`state, this`out
      ensures var r := NormalVisual(cfg, old(Snapshot()));
        Snapshot() == r.next && out == old(out) + r.taps && pass == r.pass
    {
      ghost var s0 := Snapshot();
      ghost var f := FirstTable(cfg, s0.mode, s0.buf);
      var cmd;
      cmd, pass := SingleKeyCommand();
      if cmd {
        ResetBuf();
        return;
      }
      ghost var t := SecondTable(cfg, s0.(mode := f.mode));
      assert Snapshot() == s0.(mode := f.mode);
      ghost var out1 := out;
      var retain, number := OperatorOrMotion();
      assert Snapshot() == t.next && retain == t.retain && number == t.number;
      AppendAssoc(old(out), f.taps, t.taps);
      if retain == ResetAll {
        ResetBuf();
      } else if retain == ClearBuf {
        buf := 0;
      }
      state := if number then Number else Idle;
    }

    /** The Insert/InsertRep/InsertRep1 branch of process_vim_key. */
    method InsertKey(key: byte) returns (pass: bool)
      modifies this`mode, this`out
      ensures var r := InsertFamily(old(Snapshot()), key);
        Snapshot() == r.next && out == old(out) + r.taps && pass == r.pass
    {
      if key == KeyEsc || key == KeyC + MaskCtrl {
        mode := Normal;
        pass := false;
      } else if key == KeyH + MaskCtrl {
        Send(Tap(Plain(Backspace)));
        pass := false;
      } else {
        pass := true;
      }
      if mode == InsertRep1 {
        Send(Tap(Plain(Delete)));
        Send(Tap(Plain(Left)));
        mode := Normal;
      } else if mode == InsertRep {
        Send(Tap(Plain(Delete)));
      }
    }

    /** The Find branch of process_vim_key. */
    method FindModeKey(key: byte) returns (pass: bool)
      modifies this`mode, this`out
      ensures var r := FindKey(old(Snapshot()), key);
        Snapshot() == r.next && out == old(out) + r.taps && pass == r.pass
    {
      if key == KeyEsc || key == KeyC + MaskCtrl {
        Send(Tap(Plain(Esc)));
        mode := Normal;
        pass := false;
      } else if key == KeyEnter {
        Send(Tap(Plain(Enter)));
        pass := false;
      } else {
        pass := true;
      }
    }

    /** process_vim_key, in the copy `cfg` selects. */
    method ProcessKey(keycode: uint16, shift: bool, ctrl: bool) returns (pass: bool)
      modifies this`mode, this`buf, this`num1, this`num2, this`op, this`state, this`out
      ensures var r := Step(cfg, old(Snapshot()), keycode, shift, ctrl);
        Snapshot() == r.next && out == old(out) + r.taps && pass == r.pass
    {
      if cfg.copy == KeymapC && mode == Disabled {
        return true;
      }
      if keycode >= 64 {
        return true;
      }
      var key := Keystroke(keycode, shift, ctrl);
      buf := Push(buf, key);
      if mode == Visual || mode == Normal {
        pass := NormalVisualKey();
      } else if mode == InsertMode(cfg) || mode == InsertRep || mode == InsertRep1 {
        pass := InsertKey(key);
      } else if mode == Find {
        pass := FindModeKey(key);
      } else if mode == Cmd {
        pass := true;
        if keycode == KeyEsc {
          mode := Normal;
          pass := false;
        }
      } else {
        pass := true;
      }
    }

    /** process_record_user of keymap.c. */
    method ProcessRecord(keycode: uint16, pressed: bool, shift: bool, ctrl: bool) returns (pass: bool)
      requires cfg.copy == KeymapC
      modifies this`mode, this`buf, this`num1, this`num2, this`op, this`state, this`out
      ensures var r := Record(cfg.width, old(Snapshot()), keycode, pressed, shift, ctrl);
        Snapshot() == r.next && out == old(out) + r.taps && pass == r.pass
    {
      if pressed {
        if keycode == KeyVim {
          Toggle();
        }
        pass := ProcessKey(keycode, shift, ctrl);
        return;
      }
      pass := true;
    }
  }
}
