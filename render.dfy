/**
 * What one redraw writes: screen clear, a padded `title | author` header,
 * a padded dash rule, the visible lines in bright white, and a cursor-up by
 * `up` lines. Also the concatenated redraws of a whole key session.
 */
module Render {
  import opened Text
  import opened Terminal
  import opened Scrolling

  /** What a frame is drawn from: the padded lines, the metadata and the pad width. */
  datatype View = View(lines: seq<string>, title: string, author: string, pad: nat)

  /** `__from__(False)` shows line `i` when `i < __down__`. */
  predicate Shown(i: int, down: real) {
    (i as real) < down
  }

  /** `__from__(True)` shows line `i` when `i >= __up__`. */
  predicate Kept(i: int, up: int) {
    i >= up
  }

  /** How many leading lines are visible: exactly those with index below `down`. */
  function PrefixLen(n: nat, down: real): (k: nat)
    ensures k <= n
    ensures forall i :: 0 <= i < n ==> (i < k <==> Shown(i, down))
  {
    if n == 0 then 0
    else if ((n - 1) as real) < down then n
    else PrefixLen(n - 1, down)
  }

  /** Where the visible suffix starts: the lines kept are exactly those with index at least `up`. */
  function SuffixStart(n: nat, up: int): (k: nat)
    ensures k <= n
    ensures forall i :: 0 <= i < n ==> (i >= k <==> Kept(i, up))
  {
    if up <= 0 then 0
    else if up >= n then n
    else up
  }

  /** The visible lines, each with its newline: a prefix when scrolling down, a suffix when up. */
  function Body(v: View, s: Scroll, isUp: bool): string {
    if isUp then Unlines(v.lines[SuffixStart(|v.lines|, s.up)..])
    else Unlines(v.lines[..PrefixLen(|v.lines|, s.down)])
  }

  function Header(title: string, author: string): string {
    title + " | " + author
  }

  /** The separator under the header: dashes as many as the header has characters. */
  function Rule(title: string, author: string): (r: string)
    ensures |r| == |Header(title, author)|
    ensures forall i :: 0 <= i < |r| ==> r[i] == '-'
  {
    Repeat('-', |title| + |author| + 3)
  }

  /** What a redraw writes between the screen clear and the cursor-up: header, rule and the coloured visible lines. */
  function Middle(v: View, s: Scroll, isUp: bool): string {
    Padded(Header(v.title, v.author), v.pad) + "\n"
    + Padded(Rule(v.title, v.author), v.pad) + "\n"
    + BrightWhite() + Body(v, s, isUp) + ResetStyle()
  }

  /** The output of one redraw. */
  function FrameText(v: View, s: Scroll, isUp: bool): string {
    Clear() + Middle(v, s, isUp) + UpTo(s.up)
  }

  /** The lines `__from__(False)` keeps, by index, in order: a filter written independently of `PrefixLen`. */
  function ShownLines(lines: seq<string>, down: real): seq<string> {
    if lines == [] then []
    else ShownLines(lines[..|lines| - 1], down) + (if Shown(|lines| - 1, down) then [lines[|lines| - 1]] else [])
  }

  /** The lines `__from__(True)` keeps, by index, in order. */
  function KeptLines(lines: seq<string>, up: int): seq<string> {
    if lines == [] then []
    else KeptLines(lines[..|lines| - 1], up) + (if Kept(|lines| - 1, up) then [lines[|lines| - 1]] else [])
  }

  /** The lines with index below `down` are a prefix of the text. */
  lemma {:induction false} ShownIsPrefix(lines: seq<string>, down: real)
    ensures ShownLines(lines, down) == lines[..PrefixLen(|lines|, down)]
  {
    if lines != [] {
      var n := |lines|;
      var init := lines[..n - 1];
      ShownIsPrefix(init, down);
      if ((n - 1) as real) < down {
        assert PrefixLen(n - 1, down) == n - 1;
        assert init[..n - 1] + [lines[n - 1]] == lines;
      } else {
        assert init[..PrefixLen(n - 1, down)] == lines[..PrefixLen(n, down)];
      }
    }
  }

  /** The lines with index at least `up` are a suffix of the text. */
  lemma {:induction false} KeptIsSuffix(lines: seq<string>, up: int)
    ensures KeptLines(lines, up) == lines[SuffixStart(|lines|, up)..]
  {
    if lines != [] {
      var n := |lines|;
      var init := lines[..n - 1];
      KeptIsSuffix(init, up);
      if n - 1 >= up {
        assert SuffixStart(n - 1, up) == SuffixStart(n, up);
        assert init[SuffixStart(n, up)..] + [lines[n - 1]] == lines[SuffixStart(n, up)..];
      } else {
        assert init[SuffixStart(n - 1, up)..] == [];
      }
    }
  }

  /** The padded header line of a frame. */
  function HeaderLine(v: View): string {
    Padded(Header(v.title, v.author), v.pad)
  }

  /** The padded rule line of a frame. */
  function RuleLine(v: View): string {
    Padded(Rule(v.title, v.author), v.pad)
  }

  /** Where the visible lines start in a frame: after the clear, the two padded lines with their newlines, and SGR 0;97. */
  function LinesStart(v: View): nat {
    16 + |HeaderLine(v)| + |RuleLine(v)|
  }

  /** Where the final cursor-up starts in a frame. */
  function CursorStart(v: View, s: Scroll, isUp: bool): int {
    |FrameText(v, s, isUp)| - |UpTo(s.up)|
  }

  /** A frame opens with ED with parameter 2 (erase the whole screen) and CUP with no parameter (home). */
  lemma FrameOpens(v: View, s: Scroll, isUp: bool)
    ensures var f := FrameText(v, s, isUp);
      |f| >= 7 && IsControlSequence(f[..4], "2", 'J') && IsControlSequence(f[4..7], "", 'H')
  {
    var f := FrameText(v, s, isUp);
    assert f[..7] == Clear();
    assert f[..4] == Clear()[..4] == Refresh();
    assert f[4..7] == Clear()[4..7] == Home();
    ClearSequences();
  }

  /** After the clear come the padded header and a newline, then the padded rule and a newline. */
  lemma FrameHeading(v: View, s: Scroll, isUp: bool)
    ensures var f := FrameText(v, s, isUp);
      var h, r := HeaderLine(v), RuleLine(v);
      && |f| > 8 + |h| + |r|
      && f[7..7 + |h|] == h && f[7 + |h|] == '\n'
      && f[8 + |h|..8 + |h| + |r|] == r && f[8 + |h| + |r|] == '\n'
  {
    FrameSlices(Clear(), HeaderLine(v), RuleLine(v), BrightWhite(), Body(v, s, isUp), ResetStyle(), UpTo(s.up));
  }

  /** The body of a frame is exactly the lines the direction keeps, by index and in order, each with its newline. */
  lemma BodyIsFiltered(v: View, s: Scroll, isUp: bool)
    ensures Body(v, s, isUp) == Unlines(if isUp then KeptLines(v.lines, s.up) else ShownLines(v.lines, s.down))
  {
    if isUp {
      KeptIsSuffix(v.lines, s.up);
    } else {
      ShownIsPrefix(v.lines, s.down);
    }
  }

  /** The visible lines of a frame are wrapped in SGR 0;97 before and SGR 0 after. */
  lemma FrameStyle(v: View, s: Scroll, isUp: bool)
    ensures var f, b, u := FrameText(v, s, isUp), LinesStart(v), CursorStart(v, s, isUp);
      && 7 <= b <= u - 4 && u <= |f|
      && IsControlSequence(f[b - 7..b], "0;97", 'm')
      && IsControlSequence(f[u - 4..u], "0", 'm')
  {
    FrameSlices(Clear(), HeaderLine(v), RuleLine(v), BrightWhite(), Body(v, s, isUp), ResetStyle(), UpTo(s.up));
    StyleSequences();
  }

  /** Between the two SGR sequences stand exactly the lines the direction keeps. */
  lemma FrameLines(v: View, s: Scroll, isUp: bool)
    ensures var f, b, u := FrameText(v, s, isUp), LinesStart(v), CursorStart(v, s, isUp);
      && 7 <= b <= u - 4 && u <= |f|
      && f[b..u - 4] == Unlines(if isUp then KeptLines(v.lines, s.up) else ShownLines(v.lines, s.down))
  {
    FrameSlices(Clear(), HeaderLine(v), RuleLine(v), BrightWhite(), Body(v, s, isUp), ResetStyle(), UpTo(s.up));
    BodyIsFiltered(v, s, isUp);
  }

  /** A frame closes with CUU whose parameter is the decimal digits of `up` and reads back as `up`. */
  lemma FrameCloses(v: View, s: Scroll, isUp: bool)
    requires 0 <= s.up
    ensures var f, u := FrameText(v, s, isUp), CursorStart(v, s, isUp);
      0 <= u <= |f| && var c := f[u..];
      IsControlSequence(c, NatToString(s.up), 'A') && AllDigits(c[2..|c| - 1]) && DecimalValue(c[2..|c| - 1]) == s.up
  {
    var f := FrameText(v, s, isUp);
    var u := CursorStart(v, s, isUp);
    assert f[u..] == UpTo(s.up);
    UpToSequence(s.up);
  }

  /** Where each piece of a frame sits, for any pieces. */
  lemma FrameSlices(cl: string, h: string, r: string, on: string, body: string, off: string, cuu: string)
    ensures var f := cl + (h + "\n" + r + "\n" + on + body + off) + cuu;
      var m := |cl| + |h| + |r| + 2;
      var u := |f| - |cuu|;
      && u == m + |on| + |body| + |off|
      && f[..|cl|] == cl
      && f[|cl|..|cl| + |h|] == h && f[|cl| + |h|] == '\n'
      && f[|cl| + |h| + 1..m - 1] == r && f[m - 1] == '\n'
      && f[m..m + |on|] == on
      && f[m + |on|..u - |off|] == body
      && f[u - |off|..u] == off
      && f[u..] == cuu
  {
    var f := cl + (h + "\n" + r + "\n" + on + body + off) + cuu;
    var m := |cl| + |h| + |r| + 2;
    assert f == cl + h + "\n" + r + "\n" + on + body + off + cuu;
  }

  /** A frame put together from its padded header, padded rule and visible lines. */
  lemma FrameFromParts(v: View, s: Scroll, isUp: bool, header: string, rule: string, body: string)
    requires header == Padded(Header(v.title, v.author), v.pad)
    requires rule == Padded(Rule(v.title, v.author), v.pad)
    requires body == Body(v, s, isUp)
    ensures FrameText(v, s, isUp)
      == Clear() + (header + "\n" + rule + "\n" + BrightWhite() + body + ResetStyle()) + UpTo(s.up)
  {
  }

  /** The frames the key loop draws for `keys`, one after each key that moves the counters. */
  function Session(keys: string, s: Scroll, full: int, v: View): seq<string>
    decreases |keys|
  {
    if |keys| < 3 || IsQuit(keys[0]) then []
    else
      var next := Step(s, keys[2], full);
      (if Moves(s, keys[2], full) then [FrameText(v, next, false)] else []) + Session(keys[3..], next, full, v)
  }

  /** A keypress that starts with a quit character draws nothing more. */
  lemma SessionQuitStops(keys: string, s: Scroll, full: int, v: View)
    requires keys != [] && IsQuit(keys[0])
    ensures Session(keys, s, full, v) == []
  {
  }

  /** Of a keypress that does not quit, only the third character decides what is drawn. */
  lemma SessionOnlyThirdMatters(c: char, x: char, c': char, x': char, y: char, rest: string, s: Scroll, full: int, v: View)
    requires !IsQuit(c) && !IsQuit(c')
    ensures Session([c, x, y] + rest, s, full, v) == Session([c', x', y] + rest, s, full, v)
  {
    assert ([c, x, y] + rest)[3..] == rest;
    assert ([c', x', y] + rest)[3..] == rest;
  }

  /** Keys that move nothing draw nothing: a session of non-arrow discriminators is empty. */
  lemma {:induction false} NoArrowsNoFrames(keys: string, s: Scroll, full: int, v: View)
    requires forall j :: 0 <= j < |keys| ==> keys[j] != UpKey && keys[j] != DownKey
    ensures Session(keys, s, full, v) == []
    decreases |keys|
  {
    if !(|keys| < 3 || IsQuit(keys[0])) {
      assert keys[2] != UpKey && keys[2] != DownKey;
      var rest := keys[3..];
      assert forall j :: 0 <= j < |rest| ==> rest[j] == keys[j + 3];
      NoArrowsNoFrames(rest, s, full, v);
    }
  }
}
