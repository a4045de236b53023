/**
 * Plain string building used by the layout: repeated characters, the
 * equal-padding "centering" of a line, joining lines with newline
 * terminators and splitting a text back into lines.
 */
module Text {

  /** `n` copies of the character `c` (Python's `c * n`, or a loop of `+=`). */
  function Repeat(c: char, n: nat): (r: string)
    ensures |r| == n
    ensures forall i :: 0 <= i < n ==> r[i] == c
  {
    if n == 0 then "" else Repeat(c, n - 1) + [c]
  }

  /**
   * A line with `pad` spaces on each side. The pager calls this centering,
   * but it pads both sides equally whatever the line's length.
   */
  function Padded(line: string, pad: nat): (r: string)
    ensures |r| == |line| + 2 * pad
    ensures r[..pad] == Repeat(' ', pad) && r[pad + |line|..] == Repeat(' ', pad)
    ensures r[pad..pad + |line|] == line
  {
    Repeat(' ', pad) + line + Repeat(' ', pad)
  }

  /** Every line padded, in the same order. */
  function CenterAll(lines: seq<string>, pad: nat): (r: seq<string>)
    ensures |r| == |lines|
    ensures forall i :: 0 <= i < |lines| ==> r[i] == Padded(lines[i], pad)
  {
    if lines == [] then [] else CenterAll(lines[..|lines| - 1], pad) + [Padded(lines[|lines| - 1], pad)]
  }

  /** No line contains a line break. */
  predicate NoBreaks(lines: seq<string>) {
    forall i :: 0 <= i < |lines| ==> '\n' !in lines[i]
  }

  /** Each line followed by a newline, concatenated in order. */
  function Unlines(lines: seq<string>): string {
    if lines == [] then "" else lines[0] + "\n" + Unlines(lines[1..])
  }

  /** The position of the first newline in `s`, or `|s|` if there is none. */
  function FirstBreak(s: string): (k: nat)
    ensures k <= |s|
    ensures '\n' !in s[..k]
    ensures k < |s| ==> s[k] == '\n'
  {
    if s == [] then 0
    else if s[0] == '\n' then 0
    else
      var k := 1 + FirstBreak(s[1..]);
      assert s[..k] == [s[0]] + s[1..][..k - 1];
      k
  }

  /**
   * Python's `str.splitlines` restricted to `'\n'` as the only line
   * boundary: a final newline does not start an extra empty line.
   */
  function SplitLines(s: string): seq<string>
    decreases |s|
  {
    if s == [] then []
    else
      var k := FirstBreak(s);
      if k == |s| then [s] else [s[..k]] + SplitLines(s[k + 1..])
  }

  /** Concatenation regrouped; stated once so that proofs over nested sequences need not rediscover it. */
  lemma AppendAssoc<T>(x: seq<T>, y: seq<T>, z: seq<T>)
    ensures x + (y + z) == (x + y) + z
  {
  }

  lemma {:induction false} UnlinesAppend(a: seq<string>, b: seq<string>)
    ensures Unlines(a + b) == Unlines(a) + Unlines(b)
  {
    if a == [] {
      assert a + b == b;
    } else {
      assert (a + b)[1..] == a[1..] + b;
      UnlinesAppend(a[1..], b);
    }
  }

  /** Appending one line to a joined text appends that line and its newline. */
  lemma UnlinesSnoc(lines: seq<string>, line: string)
    ensures Unlines(lines + [line]) == Unlines(lines) + line + "\n"
  {
    UnlinesAppend(lines, [line]);
    assert Unlines([line]) == line + "\n" + Unlines([]);
  }

  lemma FirstBreakAfterLine(line: string, rest: string)
    requires '\n' !in line
    ensures FirstBreak(line + "\n" + rest) == |line|
  {
    var s := line + "\n" + rest;
    assert s[|line|] == '\n';
  }

  /** Splitting what `Unlines` joined gives the lines back, as long as none holds a break. */
  lemma {:induction false} SplitUnlines(lines: seq<string>)
    requires NoBreaks(lines)
    ensures SplitLines(Unlines(lines)) == lines
  {
    if lines != [] {
      var s := Unlines(lines);
      var rest := Unlines(lines[1..]);
      assert s == lines[0] + "\n" + rest;
      FirstBreakAfterLine(lines[0], rest);
      assert s[..|lines[0]|] == lines[0];
      assert s[|lines[0]| + 1..] == rest;
      assert NoBreaks(lines[1..]) by {
        forall i | 0 <= i < |lines[1..]| ensures '\n' !in lines[1..][i] {
          assert lines[1..][i] == lines[i + 1];
        }
      }
      SplitUnlines(lines[1..]);
      assert [lines[0]] + lines[1..] == lines;
    }
  }

  /** Joining the lines of a text that is empty or ends in a newline gives the text back. */
  lemma {:induction false} UnlinesSplit(s: string)
    requires s == "" || s[|s| - 1] == '\n'
    ensures Unlines(SplitLines(s)) == s
    decreases |s|
  {
    if s != "" {
      var k := FirstBreak(s);
      assert k < |s|;
      var rest := s[k + 1..];
      assert rest == "" || rest[|rest| - 1] == '\n';
      UnlinesSplit(rest);
      assert SplitLines(s) == [s[..k]] + SplitLines(rest);
      assert s == s[..k] + "\n" + rest;
    }
  }

  /** Padding with spaces does not introduce line breaks. */
  lemma CenterAllNoBreaks(lines: seq<string>, pad: nat)
    requires NoBreaks(lines)
    ensures NoBreaks(CenterAll(lines, pad))
  {
    var r := CenterAll(lines, pad);
    forall i | 0 <= i < |r| ensures '\n' !in r[i] {
      assert r[i] == Repeat(' ', pad) + lines[i] + Repeat(' ', pad);
    }
  }

  /** The pieces `SplitLines` cuts hold no line break. */
  lemma {:induction false} SplitLinesNoBreaks(s: string)
    ensures NoBreaks(SplitLines(s))
    decreases |s|
  {
    if s != [] {
      var k := FirstBreak(s);
      if k < |s| {
        SplitLinesNoBreaks(s[k + 1..]);
        var r := SplitLines(s);
        assert r == [s[..k]] + SplitLines(s[k + 1..]);
        forall i | 0 <= i < |r| ensures '\n' !in r[i] {
          if i > 0 {
            assert r[i] == SplitLines(s[k + 1..])[i - 1];
          }
        }
      } else {
        assert s[..k] == s;
      }
    }
  }

  /**
   * Centring a text keeps its lines: splitting the padded text again gives
   * one padded line per line of the original, in order.
   */
  lemma CenterKeepsLines(s: string, pad: nat)
    ensures SplitLines(Unlines(CenterAll(SplitLines(s), pad))) == CenterAll(SplitLines(s), pad)
  {
    SplitLinesNoBreaks(s);
    CenterAllNoBreaks(SplitLines(s), pad);
    SplitUnlines(CenterAll(SplitLines(s), pad));
  }

  /** `sub` occurs somewhere in `s` (Python's `sub in s` on strings). */
  predicate Contains(s: string, sub: string)
    decreases |s|
  {
    (|sub| <= |s| && s[..|sub|] == sub) || (s != [] && Contains(s[1..], sub))
  }
}
