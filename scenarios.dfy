/** Key sequences fed to process_vim_key one after another, from a freshly
    enabled engine, and what the host receives. */
module Scenarios {
  import opened VimDecls
  import opened Hid
  import opened KeyBuffer
  import opened Engine
  import NV = NormalVisualProperties

  /** Feeding two runs one after the other is feeding their concatenation:
      the taps are concatenated and the state is threaded through. */
  lemma {:induction false} FoldAppend<K>(h: (VimState, K) -> Outcome, s: VimState, a: seq<K>, b: seq<K>)
    requires b != []
    ensures var ra := Fold(h, s, a);
      var rb := Fold(h, ra.next, b);
      Fold(h, s, a + b) == Outcome(rb.next, ra.taps + rb.taps, rb.pass)
    decreases |b|
  {
    var ab := a + b;
    assert ab[..|ab| - 1] == a + b[..|b| - 1];
    assert ab[|ab| - 1] == b[|b| - 1];
    var ra := Fold(h, s, a);
    if |b| > 1 {
      FoldAppend(h, s, a, b[..|b| - 1]);
      var rb' := Fold(h, ra.next, b[..|b| - 1]);
      var o := h(rb'.next, b[|b| - 1]);
      assert (ra.taps + rb'.taps) + o.taps == ra.taps + (rb'.taps + o.taps);
    } else {
      assert b[..|b| - 1] == [];
      assert a + [] == a;
      assert ra.taps + [] == ra.taps;
    }
  }

  /** The same for process_vim_key. */
  lemma RunAppend(cfg: Config, s: VimState, a: seq<KeyPress>, b: seq<KeyPress>)
    requires b != []
    ensures var ra := Run(cfg, s, a);
      var rb := Run(cfg, ra.next, b);
      Run(cfg, s, a + b) == Outcome(rb.next, ra.taps + rb.taps, rb.pass)
  {
    FoldAppend(Handler(cfg), s, a, b);
  }

  /** Keys fed in order: the run of `keys + [k]` is the run of `keys`
      followed by k's Step. */
  lemma RunSnoc(cfg: Config, s: VimState, keys: seq<KeyPress>, k: KeyPress)
    ensures var r := Run(cfg, s, keys);
      var o := Step(cfg, r.next, k.keycode, k.shift, k.ctrl);
      Run(cfg, s, keys + [k]) == Outcome(o.next, r.taps + o.taps, o.pass)
  {
    assert (keys + [k])[..|keys|] == keys;
  }

  /** The same, given the run of `keys` and what k's call does. */
  lemma RunSnocOf(cfg: Config, s: VimState, keys: seq<KeyPress>, k: KeyPress, r: Outcome, o: Outcome)
    requires Run(cfg, s, keys) == r
    requires Step(cfg, r.next, k.keycode, k.shift, k.ctrl) == o
    ensures Run(cfg, s, keys + [k]) == Outcome(o.next, r.taps + o.taps, o.pass)
  {
    RunSnoc(cfg, s, keys, k);
  }

  /** A run of one key is that key's Step. */
  lemma RunOne(cfg: Config, s: VimState, k: KeyPress)
    ensures Run(cfg, s, [k]) == Step(cfg, s, k.keycode, k.shift, k.ctrl)
  {
    RunSnoc(cfg, s, [], k);
    assert [] + [k] == [k];
  }

  /** The engine just switched on: Normal mode, every field zero. */
  function Fresh(): VimState
  {
    Toggled(Initial())
  }

  function Key(keycode: uint16): KeyPress
  {
    KeyPress(keycode, false, false)
  }

  /** The delete taps of a run of n words: n shifted Ctrl+Right, then Cut. */
  function DeleteWords(n: nat): seq<Action>
  {
    Repeat(Tap(Shifted(Ctl(Right))), n) + [Cut]
  }

  /** Three keys fed in order, given what each call does. */
  lemma RunThree(cfg: Config, s: VimState, k1: KeyPress, k2: KeyPress, k3: KeyPress, o1: Outcome, o2: Outcome, o3: Outcome)
    requires Step(cfg, s, k1.keycode, k1.shift, k1.ctrl) == o1
    requires Step(cfg, o1.next, k2.keycode, k2.shift, k2.ctrl) == o2
    requires Step(cfg, o2.next, k3.keycode, k3.shift, k3.ctrl) == o3
    ensures Run(cfg, s, [k1, k2, k3]) == Outcome(o3.next, o1.taps + o2.taps + o3.taps, o3.pass)
  {
    RunOne(cfg, s, k1);
    RunSnoc(cfg, s, [k1], k2);
    assert [k1] + [k2] == [k1, k2];
    RunSnoc(cfg, s, [k1, k2], k3);
    assert [k1, k2] + [k3] == [k1, k2, k3];
  }

  // Each key of the runs below on its own, so that every proof sees only
  // one call of process_vim_key.

  lemma FirstDigit(cfg: Config, d: nat)
    requires 1 <= d <= 9
    ensures Step(cfg, Fresh(), Key1 + d - 1, false, false) == Outcome(Fresh().(num2 := d, state := Number), [], false)
  {
    NV.DigitAccumulates(cfg, Fresh(), Key1 + d - 1);
  }

  lemma DigitAfterOperator(cfg: Config)
    ensures Step(cfg, Fresh().(num2 := 2, op := OpDelete), Key1 + 2, false, false)
         == Outcome(Fresh().(num1 := 2, num2 := 23, op := OpDelete, state := Number), [], false)
  {
    NV.DigitAccumulates(cfg, Fresh().(num2 := 2, op := OpDelete), Key1 + 2);
  }

  lemma PendDelete(cfg: Config, n: nat)
    requires 1 <= n <= 9
    ensures Step(cfg, Fresh().(num2 := n, state := Number), KeyD, false, false)
         == Outcome(Fresh().(num2 := n, op := OpDelete), [], false)
  {
    NV.OperatorPends(cfg, Fresh().(num2 := n, state := Number), KeyD, OpDelete);
  }

  lemma DeleteWordsKey(cfg: Config, n1: nat, n2: nat)
    requires (n1 == 0 && n2 == 3) || (n1 == 2 && n2 == 23)
    ensures Step(cfg, Fresh().(num1 := n1, num2 := n2, op := OpDelete, state := if n1 == 0 then Idle else Number), KeyW, false, false)
         == Outcome(Fresh(), DeleteWords(AtLeastOne(n1) * n2), false)
  {
    var s := Fresh().(num1 := n1, num2 := n2, op := OpDelete, state := if n1 == 0 then Idle else Number);
    NV.LinearMotion(cfg, s, KeyW, false, Ctl(Right));
    NV.SmallRepeatCount(cfg, s);
    assert Reset(s) == Fresh();
  }

  /** `3 d w` selects three words and cuts them, ending in a fresh state. */
  lemma CountBeforeOperator(cfg: Config)
    ensures Run(cfg, Fresh(), [Key(Key1 + 2), Key(KeyD), Key(KeyW)]) == Outcome(Fresh(), DeleteWords(3), false)
  {
    FirstDigit(cfg, 3);
    PendDelete(cfg, 3);
    DeleteWordsKey(cfg, 0, 3);
    RunThree(cfg, Fresh(), Key(Key1 + 2), Key(KeyD), Key(KeyW),
             Outcome(Fresh().(num2 := 3, state := Number), [], false),
             Outcome(Fresh().(num2 := 3, op := OpDelete), [], false),
             Outcome(Fresh(), DeleteWords(3), false));
    assert [] + [] + DeleteWords(3) == DeleteWords(3);
  }

  /** `2 d 3 w` does not cut six words: the count typed after the operator
      keeps the digits typed before it, so num1 = 2 and num2 = 23, and 46
      words are cut. */
  lemma CountsOnBothSides(cfg: Config)
    ensures Run(cfg, Fresh(), [Key(Key1 + 1), Key(KeyD), Key(Key1 + 2), Key(KeyW)])
         == Outcome(Fresh(), DeleteWords(46), false)
  {
    var k := [Key(Key1 + 1), Key(KeyD), Key(Key1 + 2)];
    var s3 := Fresh().(num1 := 2, num2 := 23, op := OpDelete, state := Number);
    TwoDeleteThree(cfg);
    DeleteWordsKey(cfg, 2, 23);
    RunSnocOf(cfg, Fresh(), k, Key(KeyW), Outcome(s3, [], false), Outcome(Fresh(), DeleteWords(46), false));
    assert k + [Key(KeyW)] == [Key(Key1 + 1), Key(KeyD), Key(Key1 + 2), Key(KeyW)];
    assert [] + DeleteWords(46) == DeleteWords(46);
  }

  /** `2 d 3` leaves the counts 2 and 23 with the delete pending. */
  lemma TwoDeleteThree(cfg: Config)
    ensures Run(cfg, Fresh(), [Key(Key1 + 1), Key(KeyD), Key(Key1 + 2)])
         == Outcome(Fresh().(num1 := 2, num2 := 23, op := OpDelete, state := Number), [], false)
  {
    FirstDigit(cfg, 2);
    PendDelete(cfg, 2);
    DigitAfterOperator(cfg);
    RunThree(cfg, Fresh(), Key(Key1 + 1), Key(KeyD), Key(Key1 + 2),
             Outcome(Fresh().(num2 := 2, state := Number), [], false),
             Outcome(Fresh().(num2 := 2, op := OpDelete), [], false),
             Outcome(Fresh().(num1 := 2, num2 := 23, op := OpDelete, state := Number), [], false));
  }

  lemma PendChange(cfg: Config)
    ensures Step(cfg, Fresh(), KeyC, false, false) == Outcome(Fresh().(op := OpChange), [], false)
  {
    NV.OperatorPends(cfg, Fresh(), KeyC, OpChange);
  }

  lemma ChangeMotion(cfg: Config)
    ensures Step(cfg, Fresh().(op := OpChange), KeyW, false, false) == Outcome(Fresh(), [], false)
  {
    NV.LinearMotion(cfg, Fresh().(op := OpChange), KeyW, false, Ctl(Right));
  }

  /** `c w` emits nothing and stays in Normal mode: the change operator has
      no emission in tap_vim_code and the motion resets it. */
  lemma ChangeWordDoesNothing(cfg: Config)
    ensures Run(cfg, Fresh(), [Key(KeyC), Key(KeyW)]) == Outcome(Fresh(), [], false)
  {
    RunOne(cfg, Fresh(), Key(KeyC));
    RunSnoc(cfg, Fresh(), [Key(KeyC)], Key(KeyW));
    assert [Key(KeyC)] + [Key(KeyW)] == [Key(KeyC), Key(KeyW)];
    PendChange(cfg);
    ChangeMotion(cfg);
  }

  lemma HoldG(cfg: Config)
    ensures Step(cfg, Fresh().(num2 := 5, state := Number), KeyG, false, false)
         == Outcome(Fresh().(num2 := 5, buf := KeyG), [], false)
  {
    NV.GPending(cfg, Fresh().(num2 := 5, state := Number));
  }

  lemma SecondG(cfg: Config)
    ensures Step(cfg, Fresh().(num2 := 5, buf := KeyG), KeyG, false, false)
         == Outcome(Fresh(), [Tap(Ctl(Home))] + Repeat(Tap(Plain(Down)), 5), false)
  {
    NV.GoToTop(cfg, Fresh().(num2 := 5, buf := KeyG));
  }

  /** `g g` after `5` jumps to the top, then runs five lines down. */
  lemma CountedGoToTop(cfg: Config)
    ensures Run(cfg, Fresh(), [Key(Key1 + 4), Key(KeyG), Key(KeyG)])
         == Outcome(Fresh(), [Tap(Ctl(Home))] + Repeat(Tap(Plain(Down)), 5), false)
  {
    FirstDigit(cfg, 5);
    HoldG(cfg);
    SecondG(cfg);
    var top := [Tap(Ctl(Home))] + Repeat(Tap(Plain(Down)), 5);
    RunThree(cfg, Fresh(), Key(Key1 + 4), Key(KeyG), Key(KeyG),
             Outcome(Fresh().(num2 := 5, state := Number), [], false),
             Outcome(Fresh().(num2 := 5, buf := KeyG), [], false),
             Outcome(Fresh(), top, false));
    assert [] + [] + top == top;
  }

  lemma EnterVisual(cfg: Config)
    ensures Step(cfg, Fresh(), KeyV, false, false) == Outcome(Fresh().(mode := Visual), [], false)
  {
    NV.SingleKeyCommandResets(cfg, Fresh(), KeyV, false, false);
  }

  lemma ExtendRight(cfg: Config)
    ensures Step(cfg, Fresh().(mode := Visual), KeyL, false, false)
         == Outcome(Fresh().(mode := Visual), [Tap(Shifted(Plain(Right)))], false)
  {
    NV.LinearMotion(cfg, Fresh().(mode := Visual), KeyL, false, Plain(Right));
    NV.SmallRepeatCount(cfg, Fresh().(mode := Visual));
  }

  lemma VisualCopy(cfg: Config)
    ensures Step(cfg, Fresh().(mode := Visual), KeyY, false, false) == Outcome(Fresh(), [Copy], false)
  {
    NV.VisualOperator(cfg, Fresh().(mode := Visual), KeyY);
  }

  /** Visual mode, `l`, `y`: the selection grows by one character and is
      copied, back in Normal mode. */
  lemma VisualYank(cfg: Config)
    ensures Run(cfg, Fresh(), [Key(KeyV), Key(KeyL), Key(KeyY)])
         == Outcome(Fresh(), [Tap(Shifted(Plain(Right))), Copy], false)
  {
    EnterVisual(cfg);
    ExtendRight(cfg);
    VisualCopy(cfg);
    RunThree(cfg, Fresh(), Key(KeyV), Key(KeyL), Key(KeyY),
             Outcome(Fresh().(mode := Visual), [], false),
             Outcome(Fresh().(mode := Visual), [Tap(Shifted(Plain(Right)))], false),
             Outcome(Fresh(), [Copy], false));
    assert [] + [Tap(Shifted(Plain(Right)))] + [Copy] == [Tap(Shifted(Plain(Right))), Copy];
  }
}
