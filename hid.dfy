/** Key codes of the USB HID Usage Tables 1.12, section 10 (Keyboard/Keypad
    Page 0x07), as QMK's keycodes.h numbers them, and the abstract host
    actions the engine emits. */
module Hid {

  // Letters: KC_A .. KC_Z are 0x04 .. 0x1D.
  const KeyA := 0x04
  const KeyB := 0x05
  const KeyC := 0x06
  const KeyD := 0x07
  const KeyE := 0x08
  const KeyF := 0x09
  const KeyG := 0x0A
  const KeyH := 0x0B
  const KeyI := 0x0C
  const KeyJ := 0x0D
  const KeyK := 0x0E
  const KeyL := 0x0F
  const KeyN := 0x11
  const KeyO := 0x12
  const KeyP := 0x13
  const KeyR := 0x15
  const KeyU := 0x18
  const KeyV := 0x19
  const KeyW := 0x1A
  const KeyX := 0x1B
  const KeyY := 0x1C

  // Digits: KC_1 .. KC_9 are 0x1E .. 0x26, and KC_0 follows them.
  const Key1 := 0x1E
  const Key4 := 0x21
  const Key6 := 0x23
  const Key9 := 0x26
  const Key0 := 0x27

  const KeyEnter := 0x28
  const KeyEsc := 0x29
  const KeySlash := 0x38

  /** The host keys the engine taps; their QMK codes play no part in the model. */
  datatype HostKey =
    | End | Home | Left | Right | Up | Down | PageUp | PageDown
    | Enter | Esc | Delete | Backspace | LetterZ | LetterY | LetterF

  /** A host key with the modifiers QMK's S() and C() wrap around it. */
  datatype Chord = Chord(key: HostKey, shift: bool, ctrl: bool)

  /** One host tap: a (possibly chorded) key, or one of the clipboard keys. */
  datatype Action = Tap(chord: Chord) | Copy | Cut | Paste

  function Plain(k: HostKey): Chord { Chord(k, false, false) }

  /** C(k) */
  function Ctl(k: HostKey): Chord { Chord(k, false, true) }

  /** S(c): the selection-extending variant of a chord. */
  function Shifted(c: Chord): (r: Chord)
    ensures r.shift && r.key == c.key && r.ctrl == c.ctrl
  {
    c.(shift := true)
  }
}
