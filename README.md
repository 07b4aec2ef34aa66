# VimCC modal key engine

This project models the vim-style modal key handler of the VimCC keymap for
the Lily58 keyboard, and proves properties of it in Dafny.

The handler exists in two nearly identical copies:

- `keymap.c` is the live copy. `process_record_user` gives every pressed key
  to `process_vim_key`.
- `vim.c` with `vim.h` is a header-based variant. It has no guard for the
  disabled mode. It adds the `o`/`O` commands (with missing `break`s). It uses
  Shift-N where the live copy uses Shift-Enter. Its status line shows the mode
  only. Unless `STICKY_VIM` is defined, its `VIM_INSERT` is the same value as
  `VIM_DISABLED`.

One record, `struct Vim`, holds the whole state:

- `mode`;
- `buf`, a 32-bit window of the last four keystroke bytes;
- the counts `num1` and `num2`;
- the pending operator `op`;
- the input state.

For each key, the handler does the following:

1. It encodes the key as a byte: six key-code bits, plus bit 6 for shift and
   bit 7 for control.
2. It shifts that byte into `buf`.
3. It dispatches on the mode. Normal and Visual mode match the whole `buf`
   against two tables. The insert modes, Find and Cmd handle a few keys each.
4. It returns whether the key passes through to the host.

Along the way it taps keys on the host.

## Layout

- `vim_h.dfy` (module `VimDecls`): the enumerations, the masks and `COMB2`.
  It also holds the `Config` that selects the copy (keymap.c, vim.c with or
  without `STICKY_VIM`) and the width of C's `int`.
- `hid.dfy` (module `Hid`): the HID key codes the handler names, and the host
  actions.
- `key_buffer.dfy` (module `KeyBuffer`): `get_keystroke` and the push into
  `buf`.
- `engine.dfy` (module `Engine`): `process_vim_key` as pure functions on a
  snapshot of the record. One definition serves both copies. `Step` is one
  call and `Record` is `process_record_user`. `Run` feeds a sequence of keys to
  the first and `Records` a sequence of events to the second.
- `machine.dfy` (module `Machine`): class `Vim`, with the six fields and the
  output stream `out`. Its methods update them in place, one per C function
  (`tapn_code`/`sendn_code` as a loop). Each method is proved to compute the
  `Engine` function it corresponds to.
- `status.dfy` (module `Status`): both forms of `read_vim_state`, including the
  21-byte `snprintf` cut.
- `normal_props.dfy`, `mode_props.dfy`, `decl_props.dfy`, `status_props.dfy`,
  `scenarios.dfy`: the properties.

The model follows the code as written. In particular:

- `2 d 3 w` ends with num1 = 2 and num2 = 23, so 46 words are cut.
- `c` followed by a motion emits nothing.
- `g g` with no count moves down zero lines.
- The first Normal-mode key after an Esc that left Insert, Find or Cmd is
  swallowed, because those branches leave the Esc byte in `buf`.

Counts are `uint32` and wrap modulo 2^32. A count passed to `int n` is reduced
into the signed range of the target's `int`, 16 or 32 bits (`Engine.CInt`).

## Model

| member | source | states |
|---|---|---|
| `Machine.Vim.constructor` | keyboards/lily58/keymaps/VimCC/keymap.c:433-440 | the record starts disabled, with every field zero and nothing emitted |
| `Machine.Vim.TapN` | keyboards/lily58/keymaps/VimCC/keymap.c:93-97 | `tapn_code` (and `sendn_code`, vim.c:23-27) appends exactly max(n, 0) copies of the tap |
| `Machine.Vim.Toggle` | keyboards/lily58/keymaps/VimCC/keymap.c:61-67 | disabled becomes Normal and any other mode becomes disabled; no other field changes |
| `Machine.Vim.Stop` | keyboards/lily58/keymaps/VimCC/vim.c:37-39 | the mode becomes disabled; no other field changes |
| `Machine.Vim.SetMode` | keyboards/lily58/keymaps/VimCC/vim.c:77-79 | only the mode changes |
| `Machine.Vim.ResetBuf` | keyboards/lily58/keymaps/VimCC/keymap.c:99-105 | op, state, both counts and buf are cleared; the mode is kept |
| `Machine.Vim.TapVimCode` | keyboards/lily58/keymaps/VimCC/keymap.c:107-127 | appends the per-operator emission of `tap_vim_code`, including the yank fallthrough |
| `Machine.Vim.SingleKeyCommand` | keyboards/lily58/keymaps/VimCC/keymap.c:152-219 | the first Normal/Visual switch: its taps, mode change, return value and whether a command matched |
| `Machine.Vim.OperatorKeyPressed` | keyboards/lily58/keymaps/VimCC/keymap.c:221-275 | outside Visual, an operator key with none pending sets it and keeps the counts; with one pending the record is only reset, except that a repeated c also enters insert mode |
| `Machine.Vim.OperatorOrMotion` | keyboards/lily58/keymaps/VimCC/keymap.c:220-363 | the second switch is the operator/count part or the motion part, chosen by the buffer |
| `Machine.Vim.MotionKey` | keyboards/lily58/keymaps/VimCC/keymap.c:302-327 | a zero count becomes 1, then `tap_vim_code` gets the product of the two counts as a C `int` |
| `Machine.Vim.WordEndKey` | keyboards/lily58/keymaps/VimCC/keymap.c:328-334 | as for the motions, with Ctrl+Right and then the same number of Lefts |
| `Machine.Vim.OperatorOrCountKey` | keyboards/lily58/keymaps/VimCC/keymap.c:220-292 | the y/d/c and digit cases, with the `resBuf` choice and the number flag |
| `Machine.Vim.MotionCommandKey` | keyboards/lily58/keymaps/VimCC/keymap.c:293-363 | the motion, jump, x/X, find and default cases |
| `Machine.Vim.NormalVisualKey` | keyboards/lily58/keymaps/VimCC/keymap.c:147-374 | both switches, then the buffer and state updates after them |
| `Machine.Vim.InsertKey` | keyboards/lily58/keymaps/VimCC/keymap.c:375-400 | the insert-family branch, with the replace checks made after any mode change |
| `Machine.Vim.FindModeKey` | keyboards/lily58/keymaps/VimCC/keymap.c:401-418 | the Find branch |
| `Machine.Vim.ProcessKey` | keyboards/lily58/keymaps/VimCC/keymap.c:129-431 | the record, taps and return value of one `process_vim_key` call are those of `Engine.Step`, for both copies |
| `Machine.Vim.ProcessRecord` | keyboards/lily58/keymaps/VimCC/keymap.c:560-572 | a press of KC_VIM toggles, then every press goes to `process_vim_key`; releases pass |
| `VimDecls.OpValue` | keyboards/lily58/keymaps/VimCC/vim.h:31-39 | the operators are numbered 0 to 6 in declaration order |
| `VimDecls.StateValue` | keyboards/lily58/keymaps/VimCC/vim.h:25-29 | the input states are numbered 0 to 2 in declaration order |
| `DeclProperties.EnumNumbersDistinct` | keyboards/lily58/keymaps/VimCC/vim.h:25-39 | distinct operators, and distinct input states, get distinct numbers, so the status line's numbers identify them |
| `Engine.Repeat` | keyboards/lily58/keymaps/VimCC/keymap.c:93-97 | n taps, every one of them the given tap |
| `Hid.Shifted` | keyboards/lily58/keymaps/VimCC/keymap.c:110 | QMK's `S()` adds shift and keeps the key and any control modifier |
| `KeyBuffer.KeystrokeValue` | keyboards/lily58/keymaps/VimCC/keymap.c:79-91 | for a key code below 64 the byte is the key code plus 0x40 if shift and 0x80 if control |
| `DeclProperties.KeystrokeRoundTrip` | keyboards/lily58/keymaps/VimCC/vim.c:9-21 | key code, shift and control can all be recovered from the byte |
| `DeclProperties.KeystrokeInjective` | keyboards/lily58/keymaps/VimCC/vim.c:9-21 | distinct modal keys or modifiers never give the same byte |
| `DeclProperties.KeystrokeDropsHighByte` | keyboards/lily58/keymaps/VimCC/keymap.c:83 | only the low byte of the key code survives, so codes above 0xFF would alias modal keys |
| `DeclProperties.PushShiftsWindow` | keyboards/lily58/keymaps/VimCC/vim.h:47-54 | a push makes the key byte 0, moves bytes 0-2 up one place and drops byte 3 |
| `DeclProperties.TwoPushesMatchComb2` | keyboards/lily58/keymaps/VimCC/vim.h:8 | `buf` equals COMB2(a, b) after pushing a then b exactly when its two older bytes were zero |
| `Status.ModeName` | keyboards/lily58/keymaps/VimCC/keymap.c:17 | the mode names, 3 to 11 characters long |
| `StatusProperties.ModeNamesDistinct` | keyboards/lily58/keymaps/VimCC/keymap.c:17 | distinct modes have distinct names |
| `Status.Decimal` | keyboards/lily58/keymaps/VimCC/keymap.c:74 | `%d`/`%lu` give a non-empty string of digits with no leading zero |
| `Status.DecimalRoundTrip` | keyboards/lily58/keymaps/VimCC/keymap.c:74 | the printed count reads back as the stored count |
| `Status.Truncate` | keyboards/lily58/keymaps/VimCC/keymap.c:16 | `snprintf` into 21 bytes keeps a prefix of at most 20 characters |
| `StatusProperties.DisabledStatus` | keyboards/lily58/keymaps/VimCC/keymap.c:69-72 | while disabled the line is exactly "VIM: disabled " |
| `StatusProperties.StatusShowsModeAndOperator` | keyboards/lily58/keymaps/VimCC/keymap.c:73-75 | when enabled, the line always starts with the mode and the operator number; only the counts can be cut |
| `StatusProperties.FreshNormalStatus` | keyboards/lily58/keymaps/VimCC/keymap.c:69-77 | a freshly enabled engine shows "VIM: normal (0,0,0,0", without the closing parenthesis |
| `StatusProperties.CountsReadBack` | keyboards/lily58/keymaps/VimCC/keymap.c:74 | in every enabled mode, while num1's digits fit in the 20 characters, num1 can be read back from the line |
| `StatusProperties.VimCStatusShowsMode` | keyboards/lily58/keymaps/VimCC/vim.c:41-45 | vim.c shows "VIM: <mode> " and nothing else |
| `StatusProperties.NonStickyInsertShownDisabled` | keyboards/lily58/keymaps/VimCC/vim.h:21-23 | without STICKY_VIM, insert mode displays as "disabled" |
| `ModeProperties.IgnoredKeysChangeNothing` | keyboards/lily58/keymaps/VimCC/keymap.c:130-136 | key codes of 64 and above, and in keymap.c every key while disabled, change nothing, emit nothing and pass |
| `ModeProperties.StickyDisabledRecordsKeys` | keyboards/lily58/keymaps/VimCC/vim.c:81-89 | vim.c has no disabled guard: with STICKY_VIM, and whatever the width of `int`, a disabled engine still shifts keys into `buf`, then passes them |
| `ModeProperties.NonStickyEscapeStartsNormal` | keyboards/lily58/keymaps/VimCC/vim.c:332-341 | without STICKY_VIM, Esc or Ctrl-C in the disabled mode enters Normal |
| `ModeProperties.InsertFamilyKeys` | keyboards/lily58/keymaps/VimCC/keymap.c:375-400 | Esc/Ctrl-C go to Normal and emit nothing; Ctrl-H gives Backspace; other keys pass; after a non-escape key, replace-one adds Delete and Left and returns to Normal, and replace adds Delete |
| `ModeProperties.ReplaceOneLastsOneKey` | keyboards/lily58/keymaps/VimCC/keymap.c:393-396 | replace-one always ends in Normal after one modal key |
| `ModeProperties.FindModeKeys` | keyboards/lily58/keymaps/VimCC/vim.c:358-375 | Esc/Ctrl-C send Esc and return to Normal; Enter is sent and Find stays; other keys pass |
| `ModeProperties.CmdModeKeys` | keyboards/lily58/keymaps/VimCC/vim.c:376-382 | only the raw Esc key code leaves Cmd, whatever modifiers are held |
| `ModeProperties.NothingEntersCmd` | keyboards/lily58/keymaps/VimCC/vim.c:81-385 | no key leads into Cmd mode |
| `ModeProperties.RunNeverEntersCmd` | keyboards/lily58/keymaps/VimCC/vim.c:81-385 | no sequence of keys does either |
| `ModeProperties.OtherModesKeepRecord` | keyboards/lily58/keymaps/VimCC/vim.c:332-382 | outside Normal and Visual only the mode and the pushed `buf` change |
| `ModeProperties.EscapeThenKeySwallowed` | keyboards/lily58/keymaps/VimCC/vim.c:332-382 | after Esc leaves Insert, Find or Cmd, the next key matches no case, emits nothing and only resets |
| `ModeProperties.StepKeepsPendingOnlyInNormal` | keyboards/lily58/keymaps/VimCC/vim.c:178-232 | every key keeps "an operator is pending only in Normal mode" |
| `ModeProperties.RunKeepsPendingOnlyInNormal` | keyboards/lily58/keymaps/VimCC/vim.c:178-232 | so does every sequence of keys |
| `ModeProperties.ToggleKeepsOperator` | keyboards/lily58/keymaps/VimCC/vim.c:29-39 | toggle and stop do not clear op, so for any pending operator they break that invariant; toggling twice from Normal restores the record |
| `ModeProperties.StepUsesAssignedValues` | keyboards/lily58/keymaps/VimCC/vim.h:25-39 | keys, toggle and stop never produce VS_G, OP_UPPER, OP_LOWER or OP_TOGGLE |
| `ModeProperties.RunUsesAssignedValues` | keyboards/lily58/keymaps/VimCC/vim.h:25-39 | no sequence of keys produces them, from any record that holds only assigned values |
| `ModeProperties.RecordsUseAssignedValues` | keyboards/lily58/keymaps/VimCC/keymap.c:560-572 | the same for any sequence of `process_record_user` events, KC_VIM presses and releases included |
| `ModeProperties.ToggleTwice` | keyboards/lily58/keymaps/VimCC/vim.c:29-35 | the toggle yields Normal exactly from disabled; toggling twice returns to Normal, not to the earlier mode |
| `ModeProperties.RecordToggles` | keyboards/lily58/keymaps/VimCC/keymap.c:560-572 | pressing KC_VIM toggles and passes with nothing emitted; a release passes untouched |
| `NormalVisualProperties.FirstTableMisses` | keyboards/lily58/keymaps/VimCC/keymap.c:212-214 | a buffer no first-table case names runs on to the second table unchanged |
| `NormalVisualProperties.SecondTableMisses` | keyboards/lily58/keymaps/VimCC/keymap.c:361-362 | a buffer no second-table case names reaches `default` |
| `NormalVisualProperties.CommandKeysAreBytes` | keyboards/lily58/keymaps/VimCC/keymap.c:152-363 | every case label except COMB2(g, g) is a single byte |
| `NormalVisualProperties.PassOnlyForEscapeInNormal` | keyboards/lily58/keymaps/VimCC/keymap.c:151-161 | a Normal/Visual key passes exactly when it is Esc or Ctrl-C in Normal mode |
| `NormalVisualProperties.VisualEscape` | keyboards/lily58/keymaps/VimCC/keymap.c:153-161 | Esc or Ctrl-C in Visual returns to Normal, resets and emits nothing |
| `NormalVisualProperties.SingleKeyCommandResets` | keyboards/lily58/keymaps/VimCC/keymap.c:152-219 | every first-table command emits its taps and resets op, counts, state and buf |
| `NormalVisualProperties.UnrecognisedKeySwallowed` | keyboards/lily58/keymaps/VimCC/keymap.c:361-365 | a buffer no case names is suppressed, emits nothing and only resets |
| `NormalVisualProperties.StaleBufferOnlyResets` | keyboards/lily58/keymaps/VimCC/keymap.c:141-152 | once `buf` holds an older nonzero byte (other than for `g g`), the key only resets |
| `NormalVisualProperties.BufferIsEmptyOrG` | keyboards/lily58/keymaps/VimCC/keymap.c:341-368 | afterwards `buf` is 0 or KC_G, and it is KC_G exactly when the buffer was a lone `g` |
| `NormalVisualProperties.NormalVisualModes` | keyboards/lily58/keymaps/VimCC/keymap.c:220-275 | no key enters Cmd; an operator survives only in its mode; only yank, delete and change are ever set |
| `NormalVisualProperties.GoToTop` | keyboards/lily58/keymaps/VimCC/keymap.c:345-348 | `g g` emits Ctrl+Home, then Down through `tap_vim_code` with num2 as it is |
| `NormalVisualProperties.GPending` | keyboards/lily58/keymaps/VimCC/keymap.c:341-344 | a lone `g` stays in `buf` |
| `NormalVisualProperties.GoToTopWithoutCount` | keyboards/lily58/keymaps/VimCC/keymap.c:345-348 | with no count, `g g` emits Ctrl+Home and no Down |
| `NormalVisualProperties.GThenOtherKey` | keyboards/lily58/keymaps/VimCC/keymap.c:341-365 | `g` followed by any other key only resets |
| `NormalVisualProperties.DigitAccumulates` | keyboards/lily58/keymaps/VimCC/keymap.c:285-292 | a digit 1-9 appends to num2 modulo 2^32; after an operator and before any digit, num1 first takes num2, which is not zeroed |
| `NormalVisualProperties.ZeroIsDigitOrHome` | keyboards/lily58/keymaps/VimCC/keymap.c:276-284 | `0` appends a zero only while a number is being typed, otherwise it is Home |
| `NormalVisualProperties.NumberStateIffDigit` | keyboards/lily58/keymaps/VimCC/keymap.c:369-373 | the state becomes Number exactly when the key was taken as a digit, Idle otherwise |
| `NormalVisualProperties.LinearMotion` | keyboards/lily58/keymaps/VimCC/keymap.c:302-327 | h/j/k/l/w/b emit num1*num2 (each at least 1) motions and reset everything |
| `NormalVisualProperties.WordEndMotion` | keyboards/lily58/keymaps/VimCC/keymap.c:328-334 | `e` emits Ctrl+Right and then Left, each num1*num2 times |
| `NormalVisualProperties.CharDeleteIgnoresOperator` | keyboards/lily58/keymaps/VimCC/keymap.c:349-356 | x/X emit max(num2, 1) Delete/Backspace, whatever num1 and op are |
| `NormalVisualProperties.SmallRepeatCount` | keyboards/lily58/keymaps/VimCC/keymap.c:302-306 | while the product is below 2^15, the count passed to `int n` is the product itself |
| `NormalVisualProperties.VimCodeTapsShape` | keyboards/lily58/keymaps/VimCC/keymap.c:107-127 | per operator: n motions (shifted in Visual); n shifted then Cut; n shifted, Copy, then the OP_NONE emission; nothing |
| `NormalVisualProperties.DoubledOperator` | keyboards/lily58/keymaps/VimCC/vim.c:183-229 | `y y` and `d d` only clear the operator; `c c` also enters insert mode; nothing is emitted |
| `NormalVisualProperties.ChangeMotionEmitsNothing` | keyboards/lily58/keymaps/VimCC/vim.c:55-75 | the change operator followed by h/j/k/l/w/b or e emits nothing and is dropped |
| `NormalVisualProperties.OperatorPends` | keyboards/lily58/keymaps/VimCC/keymap.c:221-275 | an operator key with none pending sets it and clears only `buf`; the counts stay |
| `NormalVisualProperties.VisualOperator` | keyboards/lily58/keymaps/VimCC/vim.c:178-232 | in Visual, y copies and d cuts and return to Normal, c cuts and enters insert; none sets op |
| `NormalVisualProperties.OpenLine` | keyboards/lily58/keymaps/VimCC/vim.c:160-172 | `o` emits End, Enter, Up, End, Enter and `O` emits Up, End, Enter; both end in insert mode, reset and suppressed |
| `Scenarios.FoldAppend` | keyboards/lily58/keymaps/VimCC/keymap.c:560-572 | for any handler (`process_vim_key` or `process_record_user`), feeding two key sequences one after the other equals feeding their concatenation |
| `Scenarios.RunAppend` | keyboards/lily58/keymaps/VimCC/keymap.c:560-572 | the same for `process_vim_key` |
| `Scenarios.CountBeforeOperator` | keyboards/lily58/keymaps/VimCC/keymap.c:238-327 | `3 d w` selects three words and cuts them, ending in the fresh state |
| `Scenarios.CountsOnBothSides` | keyboards/lily58/keymaps/VimCC/keymap.c:285-292 | `2 d 3 w` cuts 46 words |
| `Scenarios.ChangeWordDoesNothing` | keyboards/lily58/keymaps/VimCC/keymap.c:107-127 | `c w` emits nothing and stays in Normal mode |
| `Scenarios.CountedGoToTop` | keyboards/lily58/keymaps/VimCC/keymap.c:341-348 | `5 g g` emits Ctrl+Home and five Downs |
| `Scenarios.VisualYank` | keyboards/lily58/keymaps/VimCC/keymap.c:221-225 | `v l y` emits Shift+Right and Copy and returns to Normal |

## Left out

- `driver.py` is not part of this model. It is a host-side raw-HID client: I/O only.
- The layer tables, `layer_state_set_user`, the OLED task, the key log and the RGB setup in keymap.c are left out. They are static data and hardware output.
- `unregister_mods`/`register_mods` around each call are left out. The held modifiers reach the model only as the `shift` and `ctrl` inputs. The model does not show that they are restored on exit.
- `get_mods`, `get_oneshot_mods` and `get_modifiers` are foreign calls. They become those two flags.
- The QMK 16-bit chord encoding (`S()`, `C()`, the values of KC_COPY, KC_CUT, KC_PASTE) is kept abstract, as the `Hid.Action` datatype.
- KC_VIM is SAFE_RANGE, the first user key code, defined in QMK's `quantum_keycodes.h`. The model uses 0x7E40 and relies only on its being 64 or more.
- The global `vim_state_buffer` is not modelled as shared storage. `read_vim_state` returns its contents as a string.
- The `VimMotion` struct is declared and never used, so it is not modelled.
- The width of C's `int` is a parameter (16 or 32 bits), because the target is not named. The conversion of a too-large `uint32` count follows GCC's modular rule.
- Unlike vim, `c` followed by a motion deletes nothing and does not enter insert mode, and `g g` with no count moves down no lines. The model keeps both behaviours of the code.
