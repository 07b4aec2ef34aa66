/** read_vim_state in its two forms: keymap.c prints the mode with the
    operator, both counts and the input state; vim.c prints the mode only.
    Both write through snprintf into a 21-byte buffer, which keeps at most
    20 characters. */
module Status {
  import opened VimDecls
  import opened Engine

  /** vim_mode_str, indexed by the mode's enum value. */
  function ModeName(m: Mode): (r: string)
    ensures 3 <= |r| <= 11
  {
    match m
    case Disabled => "disabled"
    case Normal => "normal"
    case Insert => "insert"
    case InsertRep1 => "insert rep1"
    case InsertRep => "insert rep"
    case Find => "find"
    case Visual => "visual"
    case Cmd => "cmd"
  }

  function DigitChar(d: nat): char
    requires d < 10
  {
    ('0' as int + d) as char
  }

  predicate IsDigits(s: string)
  {
    forall i :: 0 <= i < |s| ==> '0' <= s[i] <= '9'
  }

  /** `%d` / `%lu` of a non-negative value: its decimal digits, most
      significant first, without leading zeros. */
  function Decimal(n: nat): (r: string)
    ensures 1 <= |r| && IsDigits(r)
    ensures r[0] == '0' ==> n == 0 && r == "0"
    decreases n
  {
    if n < 10 then [DigitChar(n)] else Decimal(n / 10) + [DigitChar(n % 10)]
  }

  /** The value of a digit string, for reading a rendered count back. */
  function DecimalValue(s: string): nat
    requires IsDigits(s)
  {
    if s == [] then 0 else DecimalValue(s[..|s| - 1]) * 10 + (s[|s| - 1] as int - '0' as int)
  }

  /** The counts the status line shows are exactly the stored ones. */
  lemma {:induction false} DecimalRoundTrip(n: nat)
    ensures DecimalValue(Decimal(n)) == n
    decreases n
  {
    if n >= 10 {
      var r := Decimal(n);
      assert r[..|r| - 1] == Decimal(n / 10);
      DecimalRoundTrip(n / 10);
    }
  }

  /** snprintf with a buffer of 21 bytes: at most 20 characters survive. */
  function Truncate(s: string): (r: string)
    ensures |r| == if |s| <= 20 then |s| else 20
    ensures r == s[..|r|]
  {
    if |s| <= 20 then s else s[..20]
  }

  /** "VIM: %s (%d,%lu,%lu,%d)" before truncation. */
  function FullStatus(s: VimState): string
  {
    "VIM: " + ModeName(s.mode) + " (" + Decimal(OpValue(s.op)) + "," + Decimal(s.num1) + ","
      + Decimal(s.num2) + "," + Decimal(StateValue(s.state)) + ")"
  }

  /** read_vim_state of keymap.c. */
  function StatusKeymap(s: VimState): string
  {
    if s.mode == Disabled then Truncate("VIM: " + ModeName(s.mode) + " ")
    else Truncate(FullStatus(s))
  }

  /** read_vim_state of vim.c. */
  function StatusVimC(s: VimState): string
  {
    Truncate("VIM: " + ModeName(s.mode) + " ")
  }

  /** The status line of the copy `cfg` selects. */
  function ReadVimState(cfg: Config, s: VimState): string
  {
    if cfg.copy == KeymapC then StatusKeymap(s) else StatusVimC(s)
  }
}
