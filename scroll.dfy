/**
 * The pager's scroll counters and the key loop that drives them, as pure
 * functions. The counters `up` and `down` move together: an up-arrow takes
 * one off each (only while `1 <= up`), a down-arrow adds one to each (only
 * while `down < full`). `down` is a real number because the source starts
 * it at a floating-point viewport estimate.
 */
module Scrolling {
  import Terminal

  datatype Scroll = Scroll(up: int, down: real)

  /** The final byte of the arrow-key sequences ESC '[' 'A' and ESC '[' 'B'. */
  const UpKey: char := 'A'
  const DownKey: char := 'B'

  /** `ch.lower() == 'q'`: the only characters that lower-case to 'q' are 'q' and 'Q'. */
  predicate IsQuit(c: char) {
    c == 'q' || c == 'Q'
  }

  /** The key leads to a change of the counters (and so to a redraw). */
  predicate Moves(s: Scroll, key: char, full: int) {
    (key == UpKey && 1 <= s.up) || (key == DownKey && s.down < full as real)
  }

  /** One arrow-key discriminator applied to the counters. */
  function Step(s: Scroll, key: char, full: int): (r: Scroll)
    ensures r.down - r.up as real == s.down - s.up as real
    ensures r != s <==> Moves(s, key, full)
    ensures 0 <= s.up ==> 0 <= r.up
    ensures r.up == s.up - 1 || r.up == s.up || r.up == s.up + 1
    ensures r.up > s.up ==> key == DownKey && s.down < full as real
    ensures r.up < s.up ==> key == UpKey && 1 <= s.up
  {
    if key == UpKey && 1 <= s.up then Scroll(s.up - 1, s.down - 1.0)
    else if key == DownKey && s.down < full as real then Scroll(s.up + 1, s.down + 1.0)
    else s
  }

  /** A down-arrow that moved, followed by an up-arrow, restores both counters. */
  lemma DownThenUp(s: Scroll, full: int)
    requires 0 <= s.up
    requires Moves(s, DownKey, full)
    ensures Step(Step(s, DownKey, full), UpKey, full) == s
  {
  }

  /** An up-arrow at the top changes nothing and draws nothing. */
  lemma UpAtTop(s: Scroll, full: int)
    requires s.up == 0
    ensures !Moves(s, UpKey, full) && Step(s, UpKey, full) == s
  {
  }

  /** A down-arrow at or past the line count changes nothing and draws nothing. */
  lemma DownAtEnd(s: Scroll, full: int)
    requires s.down >= full as real
    ensures !Moves(s, DownKey, full) && Step(s, DownKey, full) == s
  {
  }

  /**
   * The key loop over a finite input: a quit character ends it; otherwise
   * three characters are taken and only the third is looked at. When the
   * input runs out, even in the middle of a keypress, the loop ends too.
   */
  function Run(keys: string, s: Scroll, full: int): (r: Scroll)
    ensures r.down - r.up as real == s.down - s.up as real
    ensures 0 <= s.up ==> 0 <= r.up
    decreases |keys|
  {
    if |keys| < 3 || IsQuit(keys[0]) then s
    else Run(keys[3..], Step(s, keys[2], full), full)
  }

  /** A keypress that starts with a quit character ends the loop at once: the counters stay as they are. */
  lemma QuitStops(keys: string, s: Scroll, full: int)
    requires keys != [] && IsQuit(keys[0])
    ensures Run(keys, s, full) == s
  {
  }

  /**
   * Of a keypress that does not quit, only the third character counts: the
   * first (any non-quit character) and the second may be anything.
   */
  lemma OnlyThirdMatters(c: char, x: char, c': char, x': char, y: char, rest: string, s: Scroll, full: int)
    requires !IsQuit(c) && !IsQuit(c')
    ensures Run([c, x, y] + rest, s, full) == Run([c', x', y] + rest, s, full)
  {
    assert ([c, x, y] + rest)[3..] == rest;
    assert ([c', x', y] + rest)[3..] == rest;
  }

  /** Complete keypresses: groups of three characters, none of them starting with a quit character. */
  predicate Keypresses(keys: string) {
    |keys| % 3 == 0 && forall j :: 0 <= j < |keys| / 3 ==> !IsQuit(keys[3 * j])
  }

  /** The loop consumes complete keypresses one after another and then carries on with the rest. */
  lemma {:induction false} RunAppend(k1: string, k2: string, s: Scroll, full: int)
    requires Keypresses(k1)
    ensures Run(k1 + k2, s, full) == Run(k2, Run(k1, s, full), full)
    decreases |k1|
  {
    if k1 != [] {
      assert !IsQuit(k1[3 * 0]);
      var rest := k1[3..];
      assert Keypresses(rest) by {
        forall j | 0 <= j < |rest| / 3 ensures !IsQuit(rest[3 * j]) {
          assert rest[3 * j] == k1[3 * (j + 1)];
        }
      }
      assert (k1 + k2)[3..] == rest + k2;
      assert (k1 + k2)[2] == k1[2];
      RunAppend(rest, k2, Step(s, k1[2], full), full);
    } else {
      assert k1 + k2 == k2;
    }
  }

  /**
   * A quit character in the second or third position of a keypress does not
   * end the loop: the keypress is taken whole, its third character acts as a
   * discriminator (a quit character there moves nothing), and the loop goes on.
   */
  lemma LateQuitIgnored(c: char, q1: char, q2: char, rest: string, s: Scroll, full: int)
    requires !IsQuit(c) && (IsQuit(q1) || IsQuit(q2))
    ensures Run([c, q1, q2] + rest, s, full) == Run(rest, Step(s, q2, full), full)
    ensures IsQuit(q2) ==> Run([c, q1, q2] + rest, s, full) == Run(rest, s, full)
  {
    assert ([c, q1, q2] + rest)[3..] == rest;
  }

  /**
   * With the lockstep distance `down - up` non-negative, `up` stays within
   * `0 .. full`, and `down` never climbs above a bound that is at least `full + 1`.
   */
  lemma {:induction false} RunBounds(keys: string, s: Scroll, full: int, bound: real)
    requires 0 <= s.up <= full
    requires s.down - s.up as real >= 0.0
    requires full as real + 1.0 <= bound && s.down <= bound
    ensures 0 <= Run(keys, s, full).up <= full
    ensures Run(keys, s, full).down <= bound
    decreases |keys|
  {
    if !(|keys| < 3 || IsQuit(keys[0])) {
      RunBounds(keys[3..], Step(s, keys[2], full), full, bound);
    }
  }

  /** `n` presses of one arrow key, each the three characters ESC '[' `key`. */
  function Arrows(key: char, n: nat): (r: string)
    ensures |r| == 3 * n
    ensures forall i :: 0 <= i < |r| ==> r[i] == Terminal.ESC || r[i] == '[' || r[i] == key
  {
    if n == 0 then [] else [Terminal.ESC, '[', key] + Arrows(key, n - 1)
  }

  /** Arrow presses are complete keypresses. */
  lemma ArrowsAreKeypresses(key: char, n: nat)
    requires key == UpKey || key == DownKey
    ensures Keypresses(Arrows(key, n))
  {
    var r := Arrows(key, n);
    forall j | 0 <= j < |r| / 3 ensures !IsQuit(r[3 * j]) {
      assert r[3 * j] == Terminal.ESC || r[3 * j] == '[' || r[3 * j] == key;
    }
  }

  /** `n` down-arrows raise `up` by at most `n`. */
  lemma {:induction false} DownsRaiseBy(n: nat, s: Scroll, full: int)
    ensures s.up <= Run(Arrows(DownKey, n), s, full).up <= s.up + n
  {
    if n > 0 {
      var keys := Arrows(DownKey, n);
      assert keys[0] == Terminal.ESC && keys[2] == DownKey && keys[3..] == Arrows(DownKey, n - 1);
      DownsRaiseBy(n - 1, Step(s, DownKey, full), full);
    }
  }

  /** `n` up-arrows from `up <= n` bring `up` to 0, taking as much off `down`. */
  lemma {:induction false} UpsClampAtTop(n: nat, s: Scroll, full: int)
    requires 0 <= s.up <= n
    ensures Run(Arrows(UpKey, n), s, full) == Scroll(0, s.down - s.up as real)
  {
    if n > 0 {
      var keys := Arrows(UpKey, n);
      assert keys[0] == Terminal.ESC && keys[2] == UpKey && keys[3..] == Arrows(UpKey, n - 1);
      UpsClampAtTop(n - 1, Step(s, UpKey, full), full);
    }
  }

  /** From the top, `n` down-arrows followed by `n` up-arrows restore both counters. */
  lemma DownsThenUps(n: nat, s: Scroll, full: int)
    requires s.up == 0
    ensures Run(Arrows(DownKey, n) + Arrows(UpKey, n), s, full) == s
  {
    ArrowsAreKeypresses(DownKey, n);
    RunAppend(Arrows(DownKey, n), Arrows(UpKey, n), s, full);
    var mid := Run(Arrows(DownKey, n), s, full);
    DownsRaiseBy(n, s, full);
    UpsClampAtTop(n, mid, full);
  }
}
