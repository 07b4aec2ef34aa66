/** Properties of the keystroke encoding, the four-keystroke buffer and
    COMB2, which both copies share. */
module DeclProperties {
  import opened VimDecls
  import opened KeyBuffer

  /** A modal keystroke byte can be decoded again: the low six bits are
      the key code, bit 6 is shift, bit 7 is control. */
  lemma KeystrokeRoundTrip(keycode: uint16, shift: bool, ctrl: bool)
    requires keycode < 64
    ensures var k := Keystroke(keycode, shift, ctrl);
      k % 64 == keycode && ((k / 64) % 2 == 1 <==> shift) && (k / 128 == 1 <==> ctrl)
  {
    KeystrokeValue(keycode, shift, ctrl);
  }

  /** Hence distinct modal keys with distinct modifiers never collide in
      the buffer. */
  lemma KeystrokeInjective(k1: uint16, s1: bool, c1: bool, k2: uint16, s2: bool, c2: bool)
    requires k1 < 64 && k2 < 64
    requires Keystroke(k1, s1, c1) == Keystroke(k2, s2, c2)
    ensures k1 == k2 && s1 == s2 && c1 == c2
  {
    KeystrokeRoundTrip(k1, s1, c1);
    KeystrokeRoundTrip(k2, s2, c2);
  }

  /** A key code of 64 or more would spill into the modifier bits: only its
      low byte survives, so the early return of process_vim_key matters. */
  lemma KeystrokeDropsHighByte(keycode: uint16)
    ensures Keystroke(keycode, false, false) == keycode % 0x100
    ensures Keystroke(0x104, false, false) == Keystroke(0x04, false, false)
  {
  }

  lemma MulAtLeast(a: int, d: int)
    requires a >= 1 && d > 0
    ensures a * d >= d
  {
    assert a * d == (a - 1) * d + d;
    assert (a - 1) * d >= 0;
  }

  /** Division by a positive number has one quotient and one remainder. */
  lemma DivUnique(x: int, d: int, q: int, r: int)
    requires d > 0 && 0 <= r < d && x == q * d + r
    ensures x / d == q && x % d == r
  {
    var q' := x / d;
    var r' := x % d;
    assert q * d + r == q' * d + r';
    assert (q - q') * d == r' - r;
    if q > q' {
      MulAtLeast(q - q', d);
    } else if q < q' {
      MulAtLeast(q' - q, d);
    }
  }

  /** Four bytes, most significant first, make a uint32 whose Byte i is
      the i-th least significant of them. */
  lemma BytesOf(e0: int, e1: int, e2: int, e3: int)
    requires 0 <= e0 < 0x100 && 0 <= e1 < 0x100 && 0 <= e2 < 0x100 && 0 <= e3 < 0x100
    ensures var x := e3 * 0x100_0000 + e2 * 0x1_0000 + e1 * 0x100 + e0;
      0 <= x < Two32
      && Byte(x, 0) == e0 && Byte(x, 1) == e1 && Byte(x, 2) == e2 && Byte(x, 3) == e3
  {
    var x := e3 * 0x100_0000 + e2 * 0x1_0000 + e1 * 0x100 + e0;
    DivUnique(x, 0x100, e3 * 0x1_0000 + e2 * 0x100 + e1, e0);
    DivUnique(x / 0x100, 0x100, e3 * 0x100 + e2, e1);
    DivUnique(x, 0x1_0000, e3 * 0x100 + e2, e1 * 0x100 + e0);
    DivUnique(x / 0x1_0000, 0x100, e3, e2);
    DivUnique(x, 0x100_0000, e3, e2 * 0x1_0000 + e1 * 0x100 + e0);
  }

  /** Every uint32 is its four bytes. */
  lemma Decompose(buf: uint32) returns (e0: int, e1: int, e2: int, e3: int)
    ensures 0 <= e0 < 0x100 && 0 <= e1 < 0x100 && 0 <= e2 < 0x100 && 0 <= e3 < 0x100
    ensures buf == e3 * 0x100_0000 + e2 * 0x1_0000 + e1 * 0x100 + e0
    ensures Byte(buf, 0) == e0 && Byte(buf, 1) == e1 && Byte(buf, 2) == e2 && Byte(buf, 3) == e3
  {
    var t1 := buf / 0x100;
    var t2 := t1 / 0x100;
    e0, e1, e2, e3 := buf % 0x100, t1 % 0x100, t2 % 0x100, t2 / 0x100;
    BytesOf(e0, e1, e2, e3);
  }

  /** Pushing a keystroke makes it byte 0 and shifts bytes 0-2 up one
      place; the oldest byte is lost. */
  lemma PushShiftsWindow(buf: uint32, key: byte)
    ensures var b := Push(buf, key);
      Byte(b, 0) == key && Byte(b, 1) == Byte(buf, 0) && Byte(b, 2) == Byte(buf, 1) && Byte(b, 3) == Byte(buf, 2)
  {
    var e0, e1, e2, e3 := Decompose(buf);
    DivUnique(buf, 0x100_0000, e3, e2 * 0x1_0000 + e1 * 0x100 + e0);
    BytesOf(key, e0, e1, e2);
  }

  /** COMB2(a, b) is what the buffer holds after `a` then `b` exactly when its
      two older bytes are zero. */
  lemma TwoPushesMatchComb2(buf: uint32, a: byte, b: byte)
    ensures Push(Push(buf, a), b) == Comb2(a, b) <==> buf % 0x1_0000 == 0
  {
    var e0, e1, e2, e3 := Decompose(buf);
    DivUnique(buf, 0x100_0000, e3, e2 * 0x1_0000 + e1 * 0x100 + e0);
    DivUnique(buf, 0x1_0000, e3 * 0x100 + e2, e1 * 0x100 + e0);
    var p := Push(buf, a);
    assert p == e2 * 0x100_0000 + e1 * 0x1_0000 + e0 * 0x100 + a;
    DivUnique(p, 0x100_0000, e2, e1 * 0x1_0000 + e0 * 0x100 + a);
  }

  /** The status line prints the operator and the input state as numbers;
      distinct enumerators print distinct numbers, so both read back. */
  lemma EnumNumbersDistinct(o1: Operator, o2: Operator, t1: InputState, t2: InputState)
    ensures OpValue(o1) == OpValue(o2) <==> o1 == o2
    ensures StateValue(t1) == StateValue(t2) <==> t1 == t2
  {
  }
}
