# frepud's `Totem` pager, modelled in Dafny

frepud is a terminal reader for e-pub books. Its `Totem` class does four things. It reads an
archive: it checks the `.epub` suffix and the `mimetype` entry, takes title and creator from
`OEBPS/content.opf`, and appends one line per matched span of every `OEBPS/sections` entry. It
pads every line with `pad` spaces on each side. It draws frames. Each frame is a screen clear,
a `title | author` header, a dash rule, the visible lines in bright white, and a cursor-up by
`__up__` lines. Finally, it runs a key loop that reads three characters per keypress and moves
its two scroll counters, `__up__` and `__down__`, in lockstep.

The project has these modules:

- `Results`: the option and result types.
- `Text`: padding, joining lines with a newline after each, and splitting on `'\n'`.
- `Terminal`: the escape-string helpers, written as ECMA-48 control sequences.
- `Scrolling`: the counter state machine and the key loop, as functions over the input characters.
- `Extraction`: validation and the order of the lines read, over an abstract archive.
- `Render`: the visible slice, the layout of one frame, and the frames of a whole key session.
- `Pager`: the class `Totem`. Its fields are the source's fields. Its methods are the source's
  loops. Each method is proved against the functions above.

Output is the field `Totem.output`, a sequence of strings. Each call of an escape helper is one
element, and so is each redraw (`__from__`), although `clear` writes twice and a redraw writes
several times.

Details of the code that the model keeps:

- There are two counters, not one offset. `__down__` starts at the viewport estimate `__h__ / 3.9`.
  That value is a float and is not truncated, so it is a `real` here and is taken as a parameter.
- The scroll-down guard compares `__down__`, not `__up__`, with the line count.
- A missing title or creator tag is not a distinct error. The source calls `.group` on `None`.
  That path is left out, as described below.
- `center` pads each line with its own copy of the two padding loops. `Totem.Center` calls
  `Totem.CenterText` (`__center`) for each line instead, which builds the same string.

## Model

| member | source | states |
|---|---|---|
| Text.Padded | frepud.py:73-83 | the padded value is `pad` spaces, the value unchanged, then `pad` spaces, so its length is `len(val) + 2*pad` |
| Text.CenterAll | frepud.py:89-105 | one padded line per input line, index by index, so the line count is kept |
| Text.CenterKeepsLines | frepud.py:89-105 | splitting the centred buffer again gives exactly the padded original lines, one per line and in order |
| Text.SplitLinesNoBreaks | frepud.py:91 | no piece that `splitlines` cuts holds a newline |
| Text.SplitUnlines | frepud.py:58-60 | splitting lines joined with a newline after each gives the lines back when none holds a break |
| Text.UnlinesSplit | frepud.py:91-105 | joining the split lines of newline-terminated text gives the text back |
| Terminal.NatToStringDigits | frepud.py:192 | `str(n)` writes at least one digit, only digits, and no leading zero for `n >= 1` |
| Terminal.DecimalRoundTrip | frepud.py:192 | reading the digits of `str(n)` back gives `n` |
| Terminal.ClearSequences | frepud.py:177-184 | `clear` is `refresh` (ED with parameter 2) followed by CUP with no parameter |
| Terminal.ToUpSequence | frepud.py:186-188 | `to_up` is CUU with parameter 0 |
| Terminal.UpToSequence | frepud.py:190-192 | `up_to(n)` is CUU whose parameter is the decimal digits of `n` and reads back as `n` |
| Terminal.CursorSequences | frepud.py:194-200 | `disable_cursor`/`enable_cursor` reset/set private mode ?25 |
| Terminal.StyleSequences | frepud.py:162 | the body colour is SGR `0;97`, and the reset after it is SGR `0` |
| Scrolling.Step | frepud.py:124-136 | one discriminator keeps `down - up`, changes the counters exactly when the guard of its arrow holds, changes `up` by at most one, keeps `up >= 0`, and moves up only on 'B' below the line count and down only on 'A' with `1 <= up` |
| Scrolling.DownThenUp | frepud.py:124-136 | a scroll-down that moved, then a scroll-up, restores both counters |
| Scrolling.DownsRaiseBy | frepud.py:131-136 | `n` down-arrows raise `up` by at most `n` |
| Scrolling.UpsClampAtTop | frepud.py:125-130 | `n` up-arrows from `up <= n` leave `up` at 0 and take as much off `down` |
| Scrolling.DownsThenUps | frepud.py:124-136 | from the top, `n` down-arrows followed by `n` up-arrows restore both counters |
| Scrolling.UpAtTop | frepud.py:124-128 | 'A' at `up == 0` neither moves nor redraws |
| Scrolling.DownAtEnd | frepud.py:130-134 | 'B' with `down >= full_length` neither moves nor redraws |
| Scrolling.Run | frepud.py:115-136 | the whole key loop keeps `down - up` and keeps `up` non-negative |
| Scrolling.QuitStops | frepud.py:117-121 | a keypress whose first character is `q` or `Q` ends the loop with the counters unchanged |
| Scrolling.OnlyThirdMatters | frepud.py:117-136 | of a keypress that does not quit, only the third character decides the counters: any other non-quit first character and any second character give the same run |
| Scrolling.RunAppend | frepud.py:115-136 | complete keypresses are consumed one after another and the loop carries on with the rest |
| Scrolling.LateQuitIgnored | frepud.py:117-124 | a `q` in the second or in the third position does not end the loop: the keypress is taken whole, acted on by its third character, and a `q` there moves nothing |
| Scrolling.RunBounds | frepud.py:110-136 | from a non-negative lockstep distance, `0 <= up <= full_length` holds throughout and `down` stays below any bound of at least `full_length + 1` |
| Extraction.Validate | frepud.py:45-67 | the suffix check comes first, then the `mimetype` check; each one's failure is exactly its error, and there is no error exactly when both pass |
| Extraction.Unescaped | frepud.py:58-60 | one unescaped text per span, in match order |
| Extraction.AllLinesAppend | frepud.py:48-61 | the lines of consecutive runs of entries are those runs' lines in entry order |
| Extraction.LineCountIsSpanTotal | frepud.py:55-71 | the number of lines read equals the number of spans matched over all section entries |
| Extraction.MetadataAddsNoLines | frepud.py:49-53 | the `OEBPS/content.opf` entry adds no lines wherever it sits in the index |
| Render.PrefixLen | frepud.py:151-156 | with `is_up=False` the visible lines are exactly those with index `i < __down__`, a prefix |
| Render.SuffixStart | frepud.py:145-150 | with `is_up=True` the visible lines are exactly those with index `i >= __up__`, a suffix |
| Render.Rule | frepud.py:161 | the rule is dashes only, as many as the header has characters: the two lengths plus 3 |
| Render.ShownIsPrefix | frepud.py:151-156 | the lines kept by index below `__down__` are a prefix of the text |
| Render.KeptIsSuffix | frepud.py:145-150 | the lines kept by index at least `__up__` are a suffix of the text |
| Render.BodyIsFiltered | frepud.py:143-156 | a frame's body is exactly the lines the direction keeps by index, in order, each with its newline |
| Render.FrameOpens | frepud.py:158 | a frame opens with ED with parameter 2 and CUP with no parameter |
| Render.FrameHeading | frepud.py:160-161 | then come the padded header and a newline, and the padded rule and a newline |
| Render.FrameStyle | frepud.py:162 | the visible lines are wrapped in SGR `0;97` before and SGR `0` after |
| Render.FrameLines | frepud.py:143-162 | between the two SGR sequences stand exactly the lines the direction keeps |
| Render.FrameCloses | frepud.py:164 | a frame closes with CUU whose parameter is the digits of `__up__` and reads back as `__up__` |
| Render.NoArrowsNoFrames | frepud.py:124-136 | keys with no 'A' or 'B' draw no frames |
| Render.SessionQuitStops | frepud.py:117-121 | a keypress starting with `q` or `Q` draws nothing more |
| Render.SessionOnlyThirdMatters | frepud.py:117-136 | of a keypress that does not quit, only the third character decides what is drawn |
| Pager.LoadedLines | frepud.py:48-105 | when no unescaped span text holds a line break, the loaded buffer splits into exactly one padded line per span |
| Pager.Totem.constructor | frepud.py:29-71 | after loading: title and author come from the metadata record (empty without one), the buffer is the padded lines of every span in entry order and then match order, `__full_length__` and `__down__` are the line count, `__up__` is 0, and nothing has been written |
| Pager.Totem.ReadAll | frepud.py:48-61 | the loop over the index leaves the joined lines of all entries, their count in `__down__`, and the metadata fields |
| Pager.Totem.ReadEntry | frepud.py:49-61 | the metadata record sets title and author and adds no line; a section entry appends its span lines and counts them; any other entry changes nothing |
| Pager.Totem.AppendSpans | frepud.py:58-60 | each span appends `unescape(text) + '\n'` and adds one to `__down__` |
| Pager.Totem.Open | frepud.py:45-71 | a bad suffix fails with the extension error and a missing `mimetype` entry with the e-pub error, and no pager exists then; otherwise a fresh loaded pager results |
| Pager.Totem.CenterText | frepud.py:73-83 | the two loops build `pad` spaces, the value, `pad` spaces |
| Pager.Totem.Center | frepud.py:85-105 | the new buffer is every line of the old buffer padded, each followed by a newline |
| Pager.Totem.Slice | frepud.py:143-156 | the visible lines of the buffer for either direction, as the view's body defines them |
| Pager.LinesFrom | frepud.py:145-150 | the `is_up=True` loop collects exactly the lines from index `__up__` on, in order, each with its newline |
| Pager.LinesBelow | frepud.py:151-156 | the `is_up=False` loop collects exactly the lines with index below `__down__`, in order, each with its newline |
| Pager.Totem.From | frepud.py:142-164 | one redraw appends exactly one frame of the current view and counters to the output |
| Pager.Totem.InitBuffer | frepud.py:107-140 | writes clear, `to_up`, the first frame with `__down__` at the viewport estimate, `disable_cursor`, the session's frames, `enable_cursor`, clear; the counters end where the key loop function says, the lockstep distance is the initial one, `__up__` stays within the line count when it starts within it and below the estimate |
| Pager.Totem.KeyLoop | frepud.py:115-136 | the loop leaves the counters that the key-loop function gives and appends exactly the session's frames |
| Pager.Totem.Arrow | frepud.py:124-136 | one discriminator moves the counters as one step says and redraws exactly when they move |

## Left out

- Terminal I/O is not modelled: `termios`, `tty.setraw`, `sys.stdin.read`, `ioctl` and `os.ctermid`. Key input is a finite string and output is the `output` field. The terminal-mode changes around the loop are not modelled.
- Scrolling.Run: the key loop ends when the finite input runs out, even inside a keypress. The real program blocks waiting for the next key instead.
- `pad` and the viewport estimate are parameters. They stand for `int(__w__ / 1.1)` and `__h__ / 3.9`, which are floating-point computations on the terminal size. `get_terminal_size` returns `(rows, cols)` and the source unpacks them into `__w__, __h__`, so those names are swapped. The parameters avoid relying on either.
- Zip reading, the regular expressions and `html.unescape` are abstract. The archive is the `Epub` value, with entry names, title and creator captures, and span texts per entry. Unescaping is a function parameter. `pathlib`'s suffix is a string parameter.
- A missing `<dc:title>` or `<dc:creator>` tag makes `.group` fail on `None`. This is library failure behaviour and is not modelled.
- `splitlines` is modelled as splitting on `'\n'` only. Python also splits on `'\r'`, `'\x0b'`, U+2028 and other characters, so the line-count lemmas assume unescaped span texts free of line breaks. `html.unescape` can turn `&#10;` into a newline, so a span can give more than one line.
- `exit(1)` and the printed messages are the `ExtractError` result with its `Message` and `ExitStatus`. Process termination itself is not modelled.
- The command-line glue (lines 214-219) is not modelled. Neither are the unused module constants `escape`, `up` and `down`, or the unreachable `file_data is None` check in `center`.
- `print` flushing and buffering are not modelled. The two writes of `clear` form one output element. The writes of one redraw (its `clear`, the two `print` calls and `up_to`) form one element too.
