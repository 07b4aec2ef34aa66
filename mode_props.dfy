/** What one key does outside Normal and Visual mode, how the modes are
    entered and left, and the invariants Step keeps across all modes. */
module ModeProperties {
  import opened VimDecls
  import opened Hid
  import opened KeyBuffer
  import opened Engine
  import NormalVisualProperties

  /** Key codes of 64 and above, and in keymap.c every key while disabled,
      leave the record untouched, emit nothing and pass through. */
  lemma IgnoredKeysChangeNothing(cfg: Config, s: VimState, keycode: uint16, shift: bool, ctrl: bool)
    requires keycode >= 64 || (cfg.copy == KeymapC && s.mode == Disabled)
    ensures Step(cfg, s, keycode, shift, ctrl) == Outcome(s, [], true)
  {
  }

  /** vim.c has no disabled guard: with STICKY_VIM a disabled engine still
      records every modal keystroke in its buffer, emits nothing and passes
      the key on. */
  lemma StickyDisabledRecordsKeys(w: IntWidth, s: VimState, keycode: uint16, shift: bool, ctrl: bool)
    requires s.mode == Disabled && keycode < 64
    ensures Step(Config(VimC(true), w), s, keycode, shift, ctrl)
         == Outcome(s.(buf := Push(s.buf, Keystroke(keycode, shift, ctrl))), [], true)
  {
  }

  /** vim.c without STICKY_VIM: insert mode is the disabled mode, so Esc or
      Ctrl-C in it switches the engine on, into Normal mode. */
  lemma NonStickyEscapeStartsNormal(w: IntWidth, s: VimState, keycode: uint16, shift: bool, ctrl: bool)
    requires s.mode == Disabled && keycode < 64
    requires var k := Keystroke(keycode, shift, ctrl); k == KeyEsc || k == KeyC + MaskCtrl
    ensures Step(Config(VimC(false), w), s, keycode, shift, ctrl)
         == Outcome(s.(buf := Push(s.buf, Keystroke(keycode, shift, ctrl)), mode := Normal), [], false)
  {
  }

  /** The insert modes, on the keystroke byte: Esc or Ctrl-C leaves for
      Normal (and in the replace modes emits no Delete), Ctrl-H becomes
      Backspace, any other key passes. After the key, replace-one deletes
      the replaced character, steps left and returns to Normal; replace
      deletes the character under the cursor. The buffer keeps the pushed
      byte. */
  lemma InsertFamilyKeys(cfg: Config, s: VimState, keycode: uint16, shift: bool, ctrl: bool)
    requires InsertFamilyMode(cfg, s.mode) && keycode < 64
    requires cfg.copy == KeymapC ==> s.mode != Disabled
    ensures var k := Keystroke(keycode, shift, ctrl);
      var s' := s.(buf := Push(s.buf, k));
      var r := Step(cfg, s, keycode, shift, ctrl);
      if k == KeyEsc || k == KeyC + MaskCtrl then r == Outcome(s'.(mode := Normal), [], false)
      else
        var typed := if k == KeyH + MaskCtrl then [Tap(Plain(Backspace))] else [];
        var pass := k != KeyH + MaskCtrl;
        if s.mode == InsertRep1 then r == Outcome(s'.(mode := Normal), typed + [Tap(Plain(Delete)), Tap(Plain(Left))], pass)
        else if s.mode == InsertRep then r == Outcome(s', typed + [Tap(Plain(Delete))], pass)
        else r == Outcome(s', typed, pass)
  {
  }

  /** Replace-one lasts exactly one modal key. */
  lemma ReplaceOneLastsOneKey(cfg: Config, s: VimState, keycode: uint16, shift: bool, ctrl: bool)
    requires s.mode == InsertRep1 && keycode < 64
    ensures Step(cfg, s, keycode, shift, ctrl).next.mode == Normal
  {
    InsertFamilyKeys(cfg, s, keycode, shift, ctrl);
  }

  /** Find mode: Esc or Ctrl-C sends Esc to the host's search box and
      returns to Normal; Enter is sent on; every other key passes. */
  lemma FindModeKeys(cfg: Config, s: VimState, keycode: uint16, shift: bool, ctrl: bool)
    requires s.mode == Find && keycode < 64
    ensures var k := Keystroke(keycode, shift, ctrl);
      var s' := s.(buf := Push(s.buf, k));
      Step(cfg, s, keycode, shift, ctrl)
      == if k == KeyEsc || k == KeyC + MaskCtrl then Outcome(s'.(mode := Normal), [Tap(Plain(Esc))], false)
         else if k == KeyEnter then Outcome(s', [Tap(Plain(Enter))], false)
         else Outcome(s', [], true)
  {
  }

  /** Cmd mode tests the raw key code: Esc leaves for Normal whatever
      modifiers are held; everything else passes. */
  lemma CmdModeKeys(cfg: Config, s: VimState, keycode: uint16, shift: bool, ctrl: bool)
    requires s.mode == Cmd && keycode < 64
    ensures var s' := s.(buf := Push(s.buf, Keystroke(keycode, shift, ctrl)));
      Step(cfg, s, keycode, shift, ctrl)
      == if keycode == KeyEsc then Outcome(s'.(mode := Normal), [], false) else Outcome(s', [], true)
  {
  }

  /** No key leads into Cmd mode. */
  lemma NothingEntersCmd(cfg: Config, s: VimState, keycode: uint16, shift: bool, ctrl: bool)
    requires s.mode != Cmd
    ensures Step(cfg, s, keycode, shift, ctrl).next.mode != Cmd
  {
    if (s.mode == Normal || s.mode == Visual) && keycode < 64 {
      NormalVisualProperties.NormalVisualModes(cfg, s, keycode, shift, ctrl);
    }
  }

  /** Outside Normal and Visual the counts, the operator and the input
      state are untouched, and the buffer keeps every pushed byte. */
  lemma OtherModesKeepRecord(cfg: Config, s: VimState, keycode: uint16, shift: bool, ctrl: bool)
    requires s.mode != Normal && s.mode != Visual && keycode < 64
    requires cfg.copy == KeymapC ==> s.mode != Disabled
    ensures var r := Step(cfg, s, keycode, shift, ctrl).next;
      r == s.(buf := Push(s.buf, Keystroke(keycode, shift, ctrl)), mode := r.mode)
  {
  }

  /** Esc leaves the insert modes (in vim.c without STICKY_VIM, the
      disabled mode among them), Find and Cmd for Normal, but keeps the Esc
      byte in the buffer; so the first key typed in Normal mode afterwards
      only resets the buffer: it is swallowed, with nothing emitted. */
  lemma {:induction false} EscapeThenKeySwallowed(cfg: Config, s: VimState, keycode: uint16, shift: bool, ctrl: bool)
    requires InsertFamilyMode(cfg, s.mode) || s.mode == Find || s.mode == Cmd
    requires cfg.copy == KeymapC ==> s.mode != Disabled
    requires keycode < 64
    ensures var r1 := Step(cfg, s, KeyEsc, false, false);
      var r2 := Step(cfg, r1.next, keycode, shift, ctrl);
      r1.next.mode == Normal && r1.pass == false
      && r2 == Outcome(Reset(r1.next), [], false)
  {
    var r1 := Step(cfg, s, KeyEsc, false, false);
    assert Keystroke(KeyEsc, false, false) == KeyEsc by { KeystrokeValue(KeyEsc, false, false); }
    if InsertFamilyMode(cfg, s.mode) {
      InsertFamilyKeys(cfg, s, KeyEsc, false, false);
    } else if s.mode == Find {
      FindModeKeys(cfg, s, KeyEsc, false, false);
    } else {
      CmdModeKeys(cfg, s, KeyEsc, false, false);
    }
    assert r1.next.buf == Push(s.buf, KeyEsc);
    assert r1.next.buf % 0x100 == KeyEsc;
    var k := Keystroke(keycode, shift, ctrl);
    assert Push(r1.next.buf, k) == (r1.next.buf % 0x100_0000) * 0x100 + k;
    NormalVisualProperties.StaleBufferOnlyResets(cfg, r1.next, keycode, shift, ctrl);
  }

  /** A pending operator only ever exists in Normal mode. */
  predicate PendingOnlyInNormal(s: VimState)
  {
    s.op != OpNone ==> s.mode == Normal
  }

  /** Every key keeps that invariant, in both copies. */
  lemma StepKeepsPendingOnlyInNormal(cfg: Config, s: VimState, keycode: uint16, shift: bool, ctrl: bool)
    requires PendingOnlyInNormal(s)
    ensures PendingOnlyInNormal(Step(cfg, s, keycode, shift, ctrl).next)
  {
    if (s.mode == Normal || s.mode == Visual) && keycode < 64 {
      NormalVisualProperties.NormalVisualModes(cfg, s, keycode, shift, ctrl);
    }
  }

  /** Hence no run of keys strands an operator outside Normal mode. */
  lemma {:induction false} RunKeepsPendingOnlyInNormal(cfg: Config, s: VimState, keys: seq<KeyPress>)
    requires PendingOnlyInNormal(s)
    ensures PendingOnlyInNormal(Run(cfg, s, keys).next)
    decreases |keys|
  {
    if keys != [] {
      var front := keys[..|keys| - 1];
      var k := keys[|keys| - 1];
      RunKeepsPendingOnlyInNormal(cfg, s, front);
      StepKeepsPendingOnlyInNormal(cfg, Run(cfg, s, front).next, k.keycode, k.shift, k.ctrl);
    }
  }

  /** And no run of keys reaches Cmd mode. */
  lemma {:induction false} RunNeverEntersCmd(cfg: Config, s: VimState, keys: seq<KeyPress>)
    requires s.mode != Cmd
    ensures Run(cfg, s, keys).next.mode != Cmd
    decreases |keys|
  {
    if keys != [] {
      var front := keys[..|keys| - 1];
      var k := keys[|keys| - 1];
      RunNeverEntersCmd(cfg, s, front);
      NothingEntersCmd(cfg, Run(cfg, s, front).next, k.keycode, k.shift, k.ctrl);
    }
  }

  /** Toggling and stopping do not keep PendingOnlyInNormal: they change
      the mode only, so an operator pending in Normal mode survives
      switching off, and switching back on finds it still pending. */
  lemma ToggleKeepsOperator(s: VimState)
    requires s.mode == Normal && s.op != OpNone
    ensures !PendingOnlyInNormal(Toggled(s)) && !PendingOnlyInNormal(Stopped(s))
    ensures Toggled(Toggled(s)) == s
  {
  }

  /** The enumerators VS_G, OP_UPPER, OP_LOWER and OP_TOGGLE are declared but
      never assigned. */
  predicate UsedValuesOnly(s: VimState)
  {
    s.state != GPrefix && (s.op == OpNone || s.op == OpDelete || s.op == OpYank || s.op == OpChange)
  }

  /** Every key, toggle and stop keeps to the assigned values ... */
  lemma StepUsesAssignedValues(cfg: Config, s: VimState, keycode: uint16, shift: bool, ctrl: bool)
    requires UsedValuesOnly(s)
    ensures UsedValuesOnly(Step(cfg, s, keycode, shift, ctrl).next)
    ensures UsedValuesOnly(Toggled(s)) && UsedValuesOnly(Stopped(s))
  {
    if (s.mode == Normal || s.mode == Visual) && keycode < 64 {
      NormalVisualProperties.NormalVisualModes(cfg, s, keycode, shift, ctrl);
      NormalVisualProperties.NumberStateIffDigit(cfg, s, keycode, shift, ctrl);
    }
  }

  /** ... so every run of keys from such a record does ... */
  lemma {:induction false} RunUsesAssignedValues(cfg: Config, s: VimState, keys: seq<KeyPress>)
    requires UsedValuesOnly(s)
    ensures UsedValuesOnly(Run(cfg, s, keys).next)
    decreases |keys|
  {
    if keys != [] {
      var front := keys[..|keys| - 1];
      var k := keys[|keys| - 1];
      RunUsesAssignedValues(cfg, s, front);
      StepUsesAssignedValues(cfg, Run(cfg, s, front).next, k.keycode, k.shift, k.ctrl);
    }
  }

  /** ... and so does every run of keymap.c's process_record_user, KC_VIM
      presses and releases included. */
  lemma {:induction false} RecordsUseAssignedValues(w: IntWidth, s: VimState, events: seq<KeyEvent>)
    requires UsedValuesOnly(s)
    ensures UsedValuesOnly(Records(w, s, events).next)
    decreases |events|
  {
    if events != [] {
      var front := events[..|events| - 1];
      var e := events[|events| - 1];
      RecordsUseAssignedValues(w, s, front);
      var t := Records(w, s, front).next;
      StepUsesAssignedValues(Config(KeymapC, w), t, e.keycode, e.shift, e.ctrl);
      StepUsesAssignedValues(Config(KeymapC, w), Toggled(t), e.keycode, e.shift, e.ctrl);
    }
  }

  /** Toggling switches a disabled engine to Normal and any other mode off;
      toggling twice loses the mode the engine was in (Normal is restored,
      not Insert, Visual, ...). */
  lemma ToggleTwice(m: Mode)
    ensures (ToggleMode(m) == Normal) == (m == Disabled)
    ensures ToggleMode(ToggleMode(m)) == if m == Disabled then Disabled else Normal
  {
  }

  /** KC_VIM pressed in keymap.c's process_record_user toggles the engine
      and, being no modal key, then passes through with nothing emitted;
      any release passes untouched. */
  lemma RecordToggles(w: IntWidth, s: VimState, keycode: uint16, pressed: bool, shift: bool, ctrl: bool)
    requires keycode == KeyVim || !pressed
    ensures Record(w, s, keycode, pressed, shift, ctrl)
         == Outcome(if pressed then Toggled(s) else s, [], true)
  {
  }
}
