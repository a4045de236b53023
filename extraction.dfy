/**
 * What the pager takes from an e-pub archive, over an abstract archive:
 * the entry names in index order, what the metadata record's title and
 * creator tags hold, and for each entry the texts of its matched spans.
 * Reading the zip, the regular expressions and HTML unescaping are outside
 * the model and arrive as these values and as the `unescape` parameter.
 */
module Extraction {
  import opened Results
  import opened Text

  datatype Epub = Epub(
    names: seq<string>,             // the archive index, in its own order
    title: string,                  // what <dc:title>(.*)</dc:title> captures in the metadata record
    creator: string,                // what <dc:creator>(.*)</dc:creator> captures there
    spans: string -> seq<string>)   // per entry, the text group of every matched span, in match order

  datatype ExtractError = InvalidExtension | InvalidEpub {
    /** The message printed before exiting. */
    function Message(): string {
      match this
      case InvalidExtension => "Invalid file extension"
      case InvalidEpub => "Invalid e-pub"
    }

    /** The process exit status. */
    function ExitStatus(): int { 1 }
  }

  const EpubSuffix := ".epub"
  const MimetypeEntry := "mimetype"
  const MetadataEntry := "OEBPS/content.opf"
  const SectionsMarker := "OEBPS/sections"

  /** The two start-up checks, in the order the source makes them. */
  function Validate(suffix: string, names: seq<string>): (r: Option<ExtractError>)
    ensures r == None <==> suffix == EpubSuffix && MimetypeEntry in names
    ensures r == Some(InvalidExtension) <==> suffix != EpubSuffix
    ensures r == Some(InvalidEpub) <==> suffix == EpubSuffix && MimetypeEntry !in names
  {
    if suffix != EpubSuffix then Some(InvalidExtension)
    else if MimetypeEntry !in names then Some(InvalidEpub)
    else None
  }

  /** The unescaped texts of a span list, in order. */
  function Unescaped(texts: seq<string>, unescape: string -> string): (r: seq<string>)
    ensures |r| == |texts|
    ensures forall i :: 0 <= i < |texts| ==> r[i] == unescape(texts[i])
  {
    if texts == [] then [] else Unescaped(texts[..|texts| - 1], unescape) + [unescape(texts[|texts| - 1])]
  }

  /** An entry whose lines are read: not the metadata record, and its name mentions the sections directory. */
  predicate IsSection(name: string) {
    name != MetadataEntry && Contains(name, SectionsMarker)
  }

  /** The lines one archive entry contributes. */
  function EntryLines(epub: Epub, unescape: string -> string, name: string): seq<string> {
    if IsSection(name) then Unescaped(epub.spans(name), unescape) else []
  }

  /** The lines of a run of entries: entry order first, then span order within an entry. */
  function AllLines(epub: Epub, unescape: string -> string, names: seq<string>): seq<string> {
    if names == [] then []
    else AllLines(epub, unescape, names[..|names| - 1]) + EntryLines(epub, unescape, names[|names| - 1])
  }

  /** The number of matched spans over all section entries, counted from the front. */
  function SpanTotal(epub: Epub, names: seq<string>): nat {
    if names == [] then 0
    else (if IsSection(names[0]) then |epub.spans(names[0])| else 0) + SpanTotal(epub, names[1..])
  }

  /** The value the metadata record puts in a field; the field stays empty when there is no record. */
  function MetadataField(names: seq<string>, value: string): string {
    if MetadataEntry in names then value else ""
  }

  /** Reading one more entry appends that entry's lines. */
  lemma AllLinesPrefix(epub: Epub, unescape: string -> string, names: seq<string>, j: nat)
    requires j < |names|
    ensures AllLines(epub, unescape, names[..j + 1]) == AllLines(epub, unescape, names[..j]) + EntryLines(epub, unescape, names[j])
  {
    assert names[..j + 1][..j] == names[..j];
  }

  /** Reading one more entry at the end appends that entry's lines. */
  lemma AllLinesSnoc(epub: Epub, unescape: string -> string, names: seq<string>, name: string)
    ensures AllLines(epub, unescape, names + [name]) == AllLines(epub, unescape, names) + EntryLines(epub, unescape, name)
  {
    assert (names + [name])[..|names|] == names;
  }

  /** Lines of consecutive runs of entries are the lines of each run, in order. */
  lemma {:induction false} AllLinesAppend(epub: Epub, unescape: string -> string, a: seq<string>, b: seq<string>)
    ensures AllLines(epub, unescape, a + b) == AllLines(epub, unescape, a) + AllLines(epub, unescape, b)
    decreases |b|
  {
    if b == [] {
      assert a + b == a;
    } else {
      var b', last := b[..|b| - 1], b[|b| - 1];
      AllLinesAppend(epub, unescape, a, b');
      assert b == b' + [last];
      AllLinesAppendStep(epub, unescape, a, b', last);
    }
  }

  /** The inductive step of `AllLinesAppend`: one more entry at the end of the second run. */
  lemma AllLinesAppendStep(epub: Epub, unescape: string -> string, a: seq<string>, b: seq<string>, last: string)
    requires AllLines(epub, unescape, a + b) == AllLines(epub, unescape, a) + AllLines(epub, unescape, b)
    ensures AllLines(epub, unescape, a + (b + [last])) == AllLines(epub, unescape, a) + AllLines(epub, unescape, b + [last])
  {
    assert a + (b + [last]) == (a + b) + [last];
    AllLinesSnoc(epub, unescape, a + b, last);
    AllLinesSnoc(epub, unescape, b, last);
    AppendAssoc(AllLines(epub, unescape, a), AllLines(epub, unescape, b), EntryLines(epub, unescape, last));
  }

  /** One line per matched span: the line count is the span total. */
  lemma {:induction false} LineCountIsSpanTotal(epub: Epub, unescape: string -> string, names: seq<string>)
    ensures |AllLines(epub, unescape, names)| == SpanTotal(epub, names)
    decreases |names|
  {
    if names != [] {
      assert names == [names[0]] + names[1..];
      AllLinesAppend(epub, unescape, [names[0]], names[1..]);
      assert [names[0]][..0] == [];
      LineCountIsSpanTotal(epub, unescape, names[1..]);
    }
  }

  /** The metadata record adds no lines wherever it sits in the index. */
  lemma {:induction false} MetadataAddsNoLines(epub: Epub, unescape: string -> string, a: seq<string>, b: seq<string>)
    ensures AllLines(epub, unescape, a + [MetadataEntry] + b) == AllLines(epub, unescape, a + b)
  {
    var m := [MetadataEntry];
    assert m[..0] == [] && m[0] == MetadataEntry;
    assert !IsSection(MetadataEntry);
    assert AllLines(epub, unescape, m) == [];
    AllLinesAppend(epub, unescape, a + m, b);
    AllLinesAppend(epub, unescape, a, m);
    AllLinesAppend(epub, unescape, a, b);
  }
}
