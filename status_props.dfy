/** What the OLED status line says about the record. */
module StatusProperties {
  import opened VimDecls
  import opened Engine
  import opened Status

  lemma PrefixOfTruncate(s: string, p: string)
    requires |p| <= 20 && |p| <= |s| && p == s[..|p|]
    ensures |p| <= |Truncate(s)| && Truncate(s)[..|p|] == p
  {
  }

  /** vim.c shows only the mode, which always fits. */
  lemma VimCStatusShowsMode(s: VimState)
    ensures StatusVimC(s) == "VIM: " + ModeName(s.mode) + " "
  {
  }

  /** keymap.c, while disabled, shows only the mode. */
  lemma DisabledStatus(s: VimState)
    requires s.mode == Disabled
    ensures StatusKeymap(s) == "VIM: disabled "
  {
  }

  /** Without STICKY_VIM, vim.c's insert mode is shown as "disabled". */
  lemma NonStickyInsertShownDisabled(w: IntWidth, s: VimState)
    requires s.mode == InsertMode(Config(VimC(false), w))
    ensures ReadVimState(Config(VimC(false), w), s) == "VIM: disabled "
  {
  }

  /** In keymap.c an enabled engine's line always starts with the mode and
      the operator's number; the counts may be cut off after that. */
  lemma StatusShowsModeAndOperator(s: VimState)
    requires s.mode != Disabled
    ensures var p := "VIM: " + ModeName(s.mode) + " (" + Decimal(OpValue(s.op));
      |p| <= |StatusKeymap(s)| && StatusKeymap(s)[..|p|] == p
  {
    var p := "VIM: " + ModeName(s.mode) + " (" + Decimal(OpValue(s.op));
    var full := FullStatus(s);
    var rest := "," + Decimal(s.num1) + "," + Decimal(s.num2) + "," + Decimal(StateValue(s.state)) + ")";
    assert full == p + rest;
    assert full[..|p|] == p;
    PrefixOfTruncate(full, p);
  }

  /** The line of a freshly enabled engine loses its closing parenthesis
      to the 21-byte buffer. */
  lemma FreshNormalStatus()
    ensures StatusKeymap(Toggled(Initial())) == "VIM: normal (0,0,0,0"
  {
    assert FullStatus(Toggled(Initial())) == "VIM: normal (0,0,0,0)";
  }

  /** While num1's digits fit in the line, num1 can be read back from it. */
  lemma {:induction false} CountsReadBack(s: VimState)
    requires s.mode != Disabled
    requires |"VIM: " + ModeName(s.mode) + " (" + Decimal(OpValue(s.op)) + "," + Decimal(s.num1)| <= 20
    ensures var d1 := Decimal(s.num1);
      var at := |"VIM: " + ModeName(s.mode) + " (" + Decimal(OpValue(s.op)) + ","|;
      StatusKeymap(s)[at..at + |d1|] == d1 && DecimalValue(d1) == s.num1
  {
    var d1 := Decimal(s.num1);
    var head := "VIM: " + ModeName(s.mode) + " (" + Decimal(OpValue(s.op)) + ",";
    var tail := "," + Decimal(s.num2) + "," + Decimal(StateValue(s.state)) + ")";
    assert FullStatus(s) == head + d1 + tail;
    assert (head + d1 + tail)[|head|..|head| + |d1|] == d1;
    DecimalRoundTrip(s.num1);
  }

  /** Distinct modes have distinct names, so the line tells them apart. */
  lemma ModeNamesDistinct(m1: Mode, m2: Mode)
    ensures ModeName(m1) == ModeName(m2) <==> m1 == m2
  {
  }
}
