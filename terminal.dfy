/**
 * The fixed terminal control strings the pager writes. Each helper is an
 * ECMA-48 control sequence: CSI (ESC followed by '['), parameter bytes
 * (0x30-0x3F), and one final byte (0x40-0x7E), as laid out in section 5.4
 * of ECMA-48. The helpers are plain functions; what each one is, is stated
 * by the lemmas after them.
 */
module Terminal {

  const ESC: char := '\U{1B}'

  predicate IsParameterBytes(p: string) {
    forall i :: 0 <= i < |p| ==> '0' <= p[i] <= '?'
  }

  predicate IsFinalByte(f: char) {
    '@' <= f <= '~'
  }

  /** `s` is exactly one control sequence with parameter string `p` and final byte `f`. */
  predicate IsControlSequence(s: string, p: string, f: char) {
    |s| == |p| + 3 && s[0] == ESC && s[1] == '[' && s[2..|s| - 1] == p && s[|s| - 1] == f
    && IsParameterBytes(p) && IsFinalByte(f)
  }

  predicate IsDigit(c: char) {
    '0' <= c <= '9'
  }

  predicate AllDigits(s: string) {
    forall i :: 0 <= i < |s| ==> IsDigit(s[i])
  }

  /** Decimal digits of `n`, most significant first (Python's `str(n)`). */
  function NatToString(n: nat): string {
    if n < 10 then [('0' as int + n) as char]
    else NatToString(n / 10) + [('0' as int + n % 10) as char]
  }

  /** `str(n)` writes only digits, at least one, with no leading zero. */
  lemma {:induction false} NatToStringDigits(n: nat)
    ensures |NatToString(n)| > 0 && AllDigits(NatToString(n))
    ensures n >= 1 ==> NatToString(n)[0] != '0'
  {
    if n >= 10 {
      NatToStringDigits(n / 10);
      var s := NatToString(n);
      assert s[..|s| - 1] == NatToString(n / 10);
      assert s[0] == NatToString(n / 10)[0];
    }
  }

  /** The value of a string of decimal digits. */
  function DecimalValue(s: string): nat
    requires AllDigits(s)
  {
    if s == [] then 0
    else
      var last := s[|s| - 1];
      assert IsDigit(last);
      DecimalValue(s[..|s| - 1]) * 10 + (last as int - '0' as int)
  }

  /** Reading back the digits `str(n)` wrote gives `n`. */
  lemma {:induction false} DecimalRoundTrip(n: nat)
    ensures AllDigits(NatToString(n))
    ensures DecimalValue(NatToString(n)) == n
  {
    NatToStringDigits(n);
    if n >= 10 {
      var s := NatToString(n);
      assert s[..|s| - 1] == NatToString(n / 10);
      DecimalRoundTrip(n / 10);
    }
  }

  /** Python's `str(n)` on an integer. */
  function IntToString(n: int): string {
    if n < 0 then "-" + NatToString(-n) else NatToString(n)
  }

  /** `refresh`. */
  function Refresh(): string {
    [ESC] + "[2J"
  }

  /** The home position, as `clear` writes it after `refresh`. */
  function Home(): string {
    [ESC] + "[H"
  }

  /** `clear`. */
  function Clear(): string {
    Refresh() + Home()
  }

  /** `to_up`. */
  function ToUp(): string {
    [ESC] + "[0A"
  }

  /** `up_to(n)`. */
  function UpTo(n: int): string {
    [ESC] + "[" + IntToString(n) + "A"
  }

  /** `disable_cursor`. */
  function DisableCursor(): string {
    [ESC] + "[?25l"
  }

  /** `enable_cursor`. */
  function EnableCursor(): string {
    [ESC] + "[?25h"
  }

  /** The colour `__from__` switches to before the visible lines. */
  function BrightWhite(): string {
    [ESC] + "[0;97m"
  }

  /** The reset `__from__` writes after the visible lines. */
  function ResetStyle(): string {
    [ESC] + "[0m"
  }

  /**
   * `clear` is erase in page (ED) with parameter 2, the whole screen,
   * followed by cursor position (CUP) with no parameters, the home position.
   */
  lemma ClearSequences()
    ensures Clear() == Refresh() + Home()
    ensures IsControlSequence(Refresh(), "2", 'J')
    ensures IsControlSequence(Home(), "", 'H')
  {
  }

  /** `up_to(n)` for a line count is cursor up (CUU) carrying exactly `n` in decimal. */
  lemma {:induction false} UpToSequence(n: nat)
    ensures IsControlSequence(UpTo(n), NatToString(n), 'A')
    ensures AllDigits(UpTo(n)[2..|UpTo(n)| - 1]) && DecimalValue(UpTo(n)[2..|UpTo(n)| - 1]) == n
  {
    DecimalRoundTrip(n);
    var p := NatToString(n);
    assert AllDigits(p);
    var r := UpTo(n);
    assert r == [ESC, '['] + p + ['A'];
    assert r[2..|r| - 1] == p;
  }

  /** `to_up` is cursor up (CUU) with an explicit 0. */
  lemma ToUpSequence()
    ensures IsControlSequence(ToUp(), "0", 'A')
  {
  }

  /** The cursor helpers reset and set the private mode ?25, cursor visible. */
  lemma CursorSequences()
    ensures IsControlSequence(DisableCursor(), "?25", 'l')
    ensures IsControlSequence(EnableCursor(), "?25", 'h')
  {
  }

  /** The body's colour is select graphic rendition (SGR) 0;97, reset then bright white; SGR 0 resets it. */
  lemma StyleSequences()
    ensures IsControlSequence(BrightWhite(), "0;97", 'm')
    ensures IsControlSequence(ResetStyle(), "0", 'm')
  {
  }
}
