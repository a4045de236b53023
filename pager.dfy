/**
 * The pager object: its text buffer, metadata, scroll counters and the
 * output stream it writes to, with the source's methods as methods that
 * update those fields.
 */
module Pager {
  import opened Results
  import opened Text
  import opened Terminal
  import opened Scrolling
  import opened Extraction
  import opened Render

  class Totem {
    /** The text being shown: newline-terminated lines, padded once loading is done. */
    var fileData: string
    var up: int
    var down: real
    var fullLength: int
    var title: string
    var author: string
    /** What has been written to standard output so far, one string per write. */
    var output: seq<string>
    /** `int(__w__ / 1.1)`, the padding on each side, worked out from the terminal geometry. */
    const pad: nat
    /** `__h__ / 3.9`, the viewport estimate the key loop starts `down` at. */
    const viewport: real

    ghost predicate Valid()
      reads this
    {
      0 <= up && 0 <= fullLength
    }

    /** What a redraw draws from. */
    function ViewOf(): View
      reads this`fileData, this`title, this`author
    {
      View(SplitLines(fileData), title, author, pad)
    }

    /**
     * The state once the archive's entries have been read and the text padded:
     * title and author from the metadata record, the padded lines, one line
     * counted per span, both counters at the top of the text, nothing written.
     */
    ghost predicate Loaded(epub: Epub, unescape: string -> string)
      reads this
    {
      var lines := AllLines(epub, unescape, epub.names);
      (title, author, fileData, fullLength, up, down, output)
      == (MetadataField(epub.names, epub.title), MetadataField(epub.names, epub.creator),
          Unlines(CenterAll(SplitLines(Unlines(lines)), pad)), |lines|, 0, |lines| as real, [])
    }

    /**
     * The part of `__init__` after the extension and marker checks: walk the
     * index, take title and creator from the metadata record and one line per
     * matched span from every section entry, then pad the text.
     */
    constructor (epub: Epub, unescape: string -> string, pad: nat, viewport: real)
      ensures Loaded(epub, unescape)
      ensures this.pad == pad && this.viewport == viewport
    {
      fileData, up, down, fullLength := "", 0, 0.0, 0;
      title, author, output := "", "", [];
      this.pad, this.viewport := pad, viewport;
      new;
      ReadAll(epub, unescape);
      Center();
      fullLength := down.Floor;
    }

    /**
     * The loop of `__init__` over the archive index, from the empty buffer:
     * every entry in index order, each read as `ReadEntry` says.
     */
    method ReadAll(epub: Epub, unescape: string -> string)
      requires fileData == "" && down == 0.0 && title == "" && author == ""
      modifies this`fileData, this`down, this`title, this`author
      ensures fileData == Unlines(AllLines(epub, unescape, epub.names))
      ensures down == |AllLines(epub, unescape, epub.names)| as real
      ensures title == MetadataField(epub.names, epub.title)
      ensures author == MetadataField(epub.names, epub.creator)
    {
      var names := epub.names;
      for j := 0 to |names|
        invariant fileData == Unlines(AllLines(epub, unescape, names[..j]))
        invariant down == |AllLines(epub, unescape, names[..j])| as real
        invariant title == MetadataField(names[..j], epub.title)
        invariant author == MetadataField(names[..j], epub.creator)
      {
        assert names[..j + 1] == names[..j] + [names[j]];
        AllLinesPrefix(epub, unescape, names, j);
        UnlinesAppend(AllLines(epub, unescape, names[..j]), EntryLines(epub, unescape, names[j]));
        ReadEntry(epub, unescape, names[j]);
      }
      assert names[..|names|] == names;
    }

    /**
     * One pass of the loop over the index: the metadata record sets title and
     * author and is done with (the source's `continue`); a section entry
     * appends its spans.
     */
    method ReadEntry(epub: Epub, unescape: string -> string, file: string)
      modifies this`fileData, this`down, this`title, this`author
      ensures fileData == old(fileData) + Unlines(EntryLines(epub, unescape, file))
      ensures down == old(down) + |EntryLines(epub, unescape, file)| as real
      ensures title == if file == MetadataEntry then epub.title else old(title)
      ensures author == if file == MetadataEntry then epub.creator else old(author)
    {
      if file == MetadataEntry {
        title := epub.title;
        author := epub.creator;
        return;
      }
      if Contains(file, SectionsMarker) {
        AppendSpans(epub.spans(file), unescape);
      }
    }

    /** The loop over one section's spans: one unescaped, newline-terminated line per span. */
    method AppendSpans(spans: seq<string>, unescape: string -> string)
      modifies this`fileData, this`down
      ensures fileData == old(fileData) + Unlines(Unescaped(spans, unescape))
      ensures down == old(down) + |spans| as real
    {
      for s := 0 to |spans|
        invariant fileData == old(fileData) + Unlines(Unescaped(spans[..s], unescape))
        invariant down == old(down) + s as real
      {
        var line := unescape(spans[s]);
        assert spans[..s + 1][..s] == spans[..s];
        UnlinesSnoc(Unescaped(spans[..s], unescape), line);
        fileData := fileData + line + "\n";
        down := down + 1.0;
      }
      assert spans[..|spans|] == spans;
    }

    /**
     * `__init__` as a whole: the suffix check, then the marker-entry check,
     * each ending the program with its message and status 1, then loading.
     */
    static method Open(suffix: string, epub: Epub, unescape: string -> string, pad: nat, viewport: real)
      returns (r: Result<Totem, ExtractError>)
      ensures r.Failure? <==> Validate(suffix, epub.names) != None
      ensures r.Failure? ==> Validate(suffix, epub.names) == Some(r.error)
      ensures r.Success? ==> fresh(r.value) && r.value.Loaded(epub, unescape)
      ensures r.Success? ==> r.value.pad == pad && r.value.viewport == viewport
    {
      if suffix != EpubSuffix {
        return Failure(InvalidExtension);
      }
      if MimetypeEntry !in epub.names {
        return Failure(InvalidEpub);
      }
      var t := new Totem(epub, unescape, pad, viewport);
      r := Success(t);
    }

    /** `__center`: the value with `pad` spaces on each side. */
    method CenterText(val: string) returns (data: string)
      ensures data == Padded(val, pad)
    {
      data := "";
      for k := 0 to pad
        invariant data == Repeat(' ', k)
      {
        data := data + " ";
      }
      data := data + val;
      for k := 0 to pad
        invariant data == Repeat(' ', pad) + val + Repeat(' ', k)
      {
        data := data + " ";
      }
    }

    /** `center`: every line of the buffer padded, each followed by a newline. */
    method Center()
      modifies this`fileData
      ensures fileData == Unlines(CenterAll(SplitLines(old(fileData)), pad))
    {
      var fullData := "";
      var lines := SplitLines(fileData);
      for i := 0 to |lines|
        invariant fullData == Unlines(CenterAll(lines[..i], pad))
      {
        var data := CenterText(lines[i]);
        assert lines[..i + 1][..i] == lines[..i];
        UnlinesSnoc(CenterAll(lines[..i], pad), data);
        fullData := fullData + data + "\n";
      }
      assert lines[..|lines|] == lines;
      fileData := fullData;
    }

    /** The loop of `__from__`: the buffer's lines that are visible, each with its newline. */
    method Slice(isUp: bool) returns (body: string)
      ensures body == Body(ViewOf(), Scroll(up, down), isUp)
    {
      var lines := SplitLines(fileData);
      if isUp {
        body := LinesFrom(lines, up);
      } else {
        body := LinesBelow(lines, down);
      }
    }

    /** `__from__`: one redraw, written to the output as one string. */
    method From(isUp: bool)
      modifies this`output
      ensures output == old(output) + [FrameText(ViewOf(), Scroll(up, down), isUp)]
    {
      var body := Slice(isUp);
      var header := CenterText(title + " | " + author);
      var rule := CenterText(Repeat('-', |title| + |author| + 3));
      var frame := Clear() + (header + "\n" + rule + "\n" + BrightWhite() + body + ResetStyle()) + UpTo(up);
      FrameFromParts(ViewOf(), Scroll(up, down), isUp, header, rule, body);
      output := output + [frame];
    }

    /**
     * `init_buffer`: the first frame, then the key loop over `keys` until a
     * quit key or the end of the input, then the exit output.
     */
    method InitBuffer(keys: string)
      requires Valid()
      modifies this`up, this`down, this`output
      ensures Valid()
      ensures Scroll(up, down) == Run(keys, Scroll(old(up), viewport), fullLength)
      ensures down - up as real == viewport - old(up) as real
      ensures old(up) <= fullLength && old(up) as real <= viewport ==> up <= fullLength
      ensures output == old(output) + [Clear(), ToUp(), FrameText(ViewOf(), Scroll(old(up), viewport), false), DisableCursor()]
        + Session(keys, Scroll(old(up), viewport), fullLength, ViewOf())
        + [EnableCursor(), Clear()]
    {
      ghost var opening := old(output) + [Clear(), ToUp(), FrameText(ViewOf(), Scroll(up, viewport), false), DisableCursor()];
      output := output + [Clear()];
      output := output + [ToUp()];
      down := viewport;
      From(false);
      output := output + [DisableCursor()];
      assert output == opening;
      KeyLoop(keys);
      ghost var closing := output;
      output := output + [EnableCursor()];
      output := output + [Clear()];
      assert output == closing + [EnableCursor(), Clear()];
      if old(up) <= fullLength && old(up) as real <= viewport {
        ghost var bound := if viewport <= fullLength as real + 1.0 then fullLength as real + 1.0 else viewport;
        RunBounds(keys, Scroll(old(up), viewport), fullLength, bound);
      }
    }

    /**
     * The `while True` loop of `init_buffer`: read a key; stop on 'q' or 'Q';
     * otherwise read two more and act on the third.
     */
    method KeyLoop(keys: string)
      requires 0 <= up
      modifies this`up, this`down, this`output
      ensures 0 <= up
      ensures Scroll(up, down) == Run(keys, old(Scroll(up, down)), fullLength)
      ensures output == old(output) + Session(keys, old(Scroll(up, down)), fullLength, ViewOf())
    {
      ghost var s0 := Scroll(up, down);
      ghost var out0 := output;
      ghost var v := ViewOf();
      var input := keys;
      while input != [] && !IsQuit(input[0])
        invariant 0 <= up
        invariant ViewOf() == v
        invariant Run(input, Scroll(up, down), fullLength) == Run(keys, s0, fullLength)
        invariant output + Session(input, Scroll(up, down), fullLength, v) == out0 + Session(keys, s0, fullLength, v)
        decreases |input|
      {
        if |input| < 3 {
          // the input ends inside this keypress
          input := [];
        } else {
          var ch := input[2];
          ghost var rest := input[3..];
          ghost var before := output;
          input := input[3..];
          Arrow(ch);
          assert before + (output[|before|..] + Session(rest, Scroll(up, down), fullLength, v))
            == output + Session(rest, Scroll(up, down), fullLength, v);
        }
      }
    }

    /**
     * The discriminator of one keypress: an up-arrow while `1 <= up`, or a
     * down-arrow while `down` is below the line count, moves both counters
     * and redraws; any other key does nothing.
     */
    method Arrow(ch: char)
      requires 0 <= up
      modifies this`up, this`down, this`output
      ensures 0 <= up
      ensures Scroll(up, down) == Step(old(Scroll(up, down)), ch, fullLength)
      ensures output == old(output)
        + (if Moves(old(Scroll(up, down)), ch, fullLength) then [FrameText(ViewOf(), Scroll(up, down), false)] else [])
    {
      if ch == UpKey {
        if 1 <= up {
          up := up - 1;
          down := down - 1.0;
          From(false);
          return;
        }
      }
      if ch == DownKey {
        if down < fullLength as real {
          down := down + 1.0;
          up := up + 1;
          From(false);
          return;
        }
      }
    }
  }

  /** The `is_up` loop of `__from__`: every line whose index is at least `up`, in order. */
  method LinesFrom(lines: seq<string>, up: int) returns (body: string)
    ensures body == Unlines(lines[SuffixStart(|lines|, up)..])
  {
    body := "";
    ghost var k := SuffixStart(|lines|, up);
    for i := 0 to |lines|
      invariant body == Unlines(lines[(if i < k then i else k)..i])
    {
      if i >= up {
        assert Kept(i, up);
        assert lines[k..i + 1] == lines[k..i] + [lines[i]];
        UnlinesSnoc(lines[k..i], lines[i]);
        body := body + lines[i] + "\n";
      } else {
        assert !Kept(i, up);
      }
    }
    assert lines[k..|lines|] == lines[k..];
  }

  /** The other loop of `__from__`: every line whose index is below `down`, in order. */
  method LinesBelow(lines: seq<string>, down: real) returns (body: string)
    ensures body == Unlines(lines[..PrefixLen(|lines|, down)])
  {
    body := "";
    ghost var k := PrefixLen(|lines|, down);
    for i := 0 to |lines|
      invariant body == Unlines(lines[..if i < k then i else k])
    {
      if (i as real) < down {
        assert Shown(i, down);
        assert lines[..i + 1] == lines[..i] + [lines[i]];
        UnlinesSnoc(lines[..i], lines[i]);
        body := body + lines[i] + "\n";
      } else {
        assert !Shown(i, down);
      }
    }
  }

  /** With no line breaks in the span texts, the pager shows one padded line per span. */
  lemma LoadedLines(lines: seq<string>, pad: nat)
    requires NoBreaks(lines)
    ensures SplitLines(Unlines(CenterAll(SplitLines(Unlines(lines)), pad))) == CenterAll(lines, pad)
  {
    SplitUnlines(lines);
    CenterAllNoBreaks(lines, pad);
    SplitUnlines(CenterAll(lines, pad));
  }
}
