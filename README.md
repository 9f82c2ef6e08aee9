# cl line counter — a Dafny model of its counting core

`cl` counts the lines of source files and reports, per language, how many
are code, blank or comment lines. This project models the counting core of
`src/lib.rs` and the sort-key parser of `src/sort.rs`, and proves what they
promise:

- `Count` and `merge`: a per-file tally and field-wise addition.
- `get_language`: picks a language from the file name. A name containing
  "makefile" in any case is a Makefile. Otherwise the lower-cased extension,
  or the whole name when there is none, is looked up in a fixed table.
- `get_language_config`: gives each language's line-comment marker and
  block-comment delimiters. It always returns a `Normal` configuration.
- `ByteLinesState::next`: an iterator that splits a byte buffer on `\n`. A
  final newline does not start an empty line.
- `count` and `count_normal`: classify every line of a file.
  - A file that cannot be opened counts as all zeros.
  - A line that is not UTF-8 makes the whole file count as all zeros.
  - Otherwise each line is trimmed of White_Space and classified:
    - an empty line is blank;
    - a line starting with the line marker (and not with the block start,
      outside a block) is a comment;
    - a line with neither delimiter is code or comment by the block flag;
    - any other line goes through a cursor scan. The scan enters and leaves
      block comments and notes whether any non-White_Space byte lies outside
      them.
- `Sort::from_str`: case-sensitive parse of a sort key.

The interesting corners of the code are kept as written:
- Lines with multi-byte characters skip their cursor one byte at a time
  while a non-boundary lies in the look-ahead window. So `/**/xé` has no
  code.
- Python's `'''` both opens and closes a block. Both `'''` lines go
  through the scan. Outside a block the start delimiter matches and opens
  it. Inside a block the start check is skipped, because it is guarded by
  `!in_comment`, so the end delimiter matches and closes it. The scan finds
  no code on either line, so both count as comments.
- The shortcut for lines holding neither delimiter counts a line as code
  without the scan's window skip. So `xé` is code, although the scan would
  find no code on it.
- The White_Space test of the scan looks at a one-byte slice.

The model works on bytes (`Text.byte`). A file is `FileContents`:
`Unreadable` when opening or memory-mapping fails, or `Mapped(bytes)`. The
mutable state of the source keeps its form:
- `Counts.Count` is a class with four fields that `Merge` and the line loop
  update in place.
- `ByteLines.ByteLinesState` is a class whose `Next` moves `pos`.
- `LineCounter.CountNormal` and `Scanner.ScanLine` are loops. Each is proved
  against a specification function: `CountNormalSpec`, a left fold of
  `Classify` over `Lines(bytes)`, and `Scan`, a fold of `Advance` over the
  cursor.

Two complete files are worked through:
- C `int x;\n// comment\n\n` gives one code, one comment and one blank line.
- Python `x = 1\n'''\nblock\ncomment\n'''\ny = 2\n` gives six lines: two
  code and four comment. Both `'''` lines count as comments, since the scan
  finds no code on them.

## Model

| member | source | states |
|---|---|---|
| Counts.Count.constructor | src/lib.rs:12-18 | `Count::default()` is the all-zero count |
| Counts.Count.Merge | src/lib.rs:21-26 | merge adds every field of the other count into this one and leaves the other count unchanged |
| Counts.AddZero | src/lib.rs:21-26 | merging the default count changes nothing, from either side |
| Counts.AddCommutative | src/lib.rs:21-26 | merge order does not matter |
| Counts.AddAssociative | src/lib.rs:21-26 | grouping of merges does not matter |
| Counts.AddConsistent | src/lib.rs:21-26 | merging two counts with `total == code + blank + comments` keeps that equation |
| Languages.FileName | src/lib.rs:95-99 | the file name a path yields is non-empty, has no `/`, and is neither `.` nor `..`; which name it is, is pinned down by `Languages.FileNameOf` and `Languages.FileNameSkipsTrailing` |
| Languages.FileNameOf | src/lib.rs:95-99 | a path made of a directory part ending in `/` (or none) and a proper name yields exactly that name |
| Languages.FileNameSkipsTrailing | src/lib.rs:95-99 | a trailing `/` or `.` component leaves the file name unchanged (`a/b/` and `a/b/.` name `b`), and a trailing `..` component leaves none |
| Languages.Extension | src/lib.rs:105-106 | an extension is the proper suffix of the name after its last `.`; there is none exactly when the name is `..`, has no `.`, or has its only `.` in front |
| Languages.LanguageOfKey | src/lib.rs:111-126 | every key the table maps to a known language is listed for that language |
| Languages.LanguageOfKeyInverse | src/lib.rs:111-126 | the table selects a known language exactly for the keys listed for it |
| Languages.GetLanguage | src/lib.rs:94-127 | Makefile exactly when the lower-cased name contains "makefile"; otherwise the table entry of the lower-cased extension, or of the lower-cased name when there is no extension |
| Languages.ByExtension | src/lib.rs:101-108 | a name with an extension and no "makefile" is looked up by its lower-cased extension |
| Languages.ByName | src/lib.rs:101-108 | a name without an extension and with no "makefile" is looked up by its whole lower-cased name |
| Languages.ByMakefile | src/lib.rs:102-103 | a name containing "makefile" is a Makefile whatever its extension |
| Languages.MakefileExample | src/lib.rs:102-121 | `Makefile` is a Makefile |
| Languages.GoExample | src/lib.rs:105-119 | `src/main.go` is Go |
| Languages.MarkdownExample | src/lib.rs:105-124 | `README.md` is Markdown |
| Languages.MakefileOverridesExtension | src/lib.rs:102-103 | `GNUmakefile.py` is a Makefile, not Python |
| Languages.UpperCaseExtension | src/lib.rs:105-113 | `lib/Foo.CPP` is C++: extensions are compared lower-cased |
| Languages.NameAsKey | src/lib.rs:105-112 | a file called `c` is C, because a name without an extension is its own key |
| Languages.LeadingDotIsNoExtension | src/lib.rs:105-125 | `.c` has no extension and is Unknown |
| Languages.GetLanguageConfig | src/lib.rs:136-161 | the configuration is always `Normal` with non-empty markers; only Python has equal block delimiters; exactly Makefile, Text, Markdown and Unknown have no block delimiters; exactly Html, Text, Markdown and Unknown have no line marker |
| Text.IndexOf | src/lib.rs:182 | the search for `\n` finds the first occurrence, or none exactly when there is none |
| ByteLines.ByteLinesState.constructor | src/lib.rs:170-177 | `lines()` starts at position 0 with every line of the buffer still to come |
| ByteLines.ByteLinesState.Next | src/lib.rs:179-198 | `next` yields the first remaining line without its newline and moves past it, or yields `None` and stays put when nothing is left |
| ByteLines.Lines | src/lib.rs:179-198 | the lines `next` hands out in turn: none exactly for an empty buffer, and never more lines than bytes |
| ByteLines.EmptyHasNoLines | src/lib.rs:188-191 | an empty buffer yields no lines |
| ByteLines.LinesHaveNoNewline | src/lib.rs:182-186 | no yielded line contains `\n` |
| ByteLines.LinesRoundTrip | src/lib.rs:179-198 | the lines, each followed by `\n`, rebuild the buffer, plus one `\n` when the buffer did not end with one |
| ByteLines.TerminatedRoundTrip | src/lib.rs:179-198 | splitting newline-terminated, newline-free lines gives those lines back |
| ByteLines.LineCount | src/lib.rs:179-198 | there is one line per `\n`, and one more when text follows the last `\n` |
| Utf8.CharLen | src/lib.rs:238-241 | the length of the character at the front is at most 4 and fits in the input; a character starts with a non-continuation byte followed by continuation bytes |
| Utf8.WhitespaceTable | src/lib.rs:245 | the byte patterns trim removes are exactly the UTF-8 encodings of White_Space characters |
| Utf8.ValidUtf8 | src/lib.rs:238-241 | what `from_utf8` accepts: a sequence of well-formed characters, so it neither starts with a continuation byte nor ends with the lead byte of a multi-byte character |
| Utf8.IsCharBoundary | src/lib.rs:290-296 | a char boundary lies within the line; every ASCII byte starts one |
| Utf8.Trim | src/lib.rs:245 | `trim` gives a slice of the line that neither starts nor ends with a White_Space character |
| Utf8.TrimKeepsNonBlank | src/lib.rs:245 | `trim` removes only White_Space: every byte that starts a character which is not White_Space, ASCII or not, stays inside the trimmed slice |
| Utf8.TrimKeepsValid | src/lib.rs:245 | trimming valid UTF-8 leaves valid UTF-8 |
| Utf8.WhitespaceOnlyTrimsEmpty | src/lib.rs:245-249 | a line of ASCII White_Space trims to nothing |
| Utf8.AsciiIsValid | src/lib.rs:238-241 | ASCII text is well-formed UTF-8 |
| Utf8.TrimKeeps | src/lib.rs:245 | a line without White_Space at its ends is its own trim |
| LineCounter.Classify | src/lib.rs:243-325 | the counter one line goes to and the block flag it leaves; a blank line, and any line of a language without block delimiters, leaves the flag as it was |
| LineCounter.ClassifyLine | src/lib.rs:243-325 | one line's counter and the block flag it leaves, as `Classify` states |
| LineCounter.CountLine | src/lib.rs:243-325 | one valid line adds one to `total` and one to the counter its classification selects |
| LineCounter.CountNormal | src/lib.rs:213-329 | `count_normal` returns `CountNormalSpec`: zero for an unreadable file or one with a non-UTF-8 line, otherwise the fold of `Classify` over the file's lines |
| LineCounter.LineDone | src/lib.rs:237-326 | one more valid line extends the fold by one step and keeps every line seen valid |
| LineCounter.RunConsistent | src/lib.rs:237-326 | after any lines, `total == code + blank + comments` and `total` is the number of lines |
| LineCounter.CountNormalConsistent | src/lib.rs:213-329 | every count `count_normal` returns has `total == code + blank + comments`, the zero counts included, and for a readable UTF-8 file `total` is its number of lines |
| LineCounter.InvalidLineGivesZero | src/lib.rs:238-241 | one line that is not UTF-8 makes the whole count zero |
| LineCounter.WhitespaceLineIsBlank | src/lib.rs:245-249 | a line of spaces and tabs is blank and keeps the block flag |
| LineCounter.LineCommentRule | src/lib.rs:252-264 | outside a block, a line starting with the marker and not with the block start is a comment |
| LineCounter.NoBlocksNeverInComment | src/lib.rs:266-272 | without block delimiters the block flag is never set |
| LineCounter.NoBlocksCodeRule | src/lib.rs:252-272 | without block delimiters, a line is code exactly when it is neither blank nor a line comment |
| LineCounter.NoDelimiterRule | src/lib.rs:274-281 | a non-blank line that is not a line comment and contains neither delimiter is a comment inside a block and code outside one, and keeps the flag |
| LineCounter.CountPath | src/lib.rs:201-210 | `count` counts the file with the configuration of the path's language, always through `count_normal` |
| LineCounter.CountConsistent | src/lib.rs:201-210 | every count `count` returns has `total == code + blank + comments` |
| Scanner.ContainsNonBoundary | src/lib.rs:290 | `contains_utf8` is true exactly when some index of the line is not a char boundary |
| Scanner.CheckWindow | src/lib.rs:294-301 | the window check passes exactly when every index of the look-ahead window is a char boundary |
| Scanner.Advance | src/lib.rs:293-318 | each turn of the scan moves the cursor forward, never past the line end, and never clears `found_code` |
| Scanner.ScanStep | src/lib.rs:294-318 | one turn of the `'outer` loop is `Advance` |
| Scanner.ScanLine | src/lib.rs:284-319 | the `'outer` loop ends at the line end with the flag and `found_code` of `Scan` |
| Scanner.FoundNeedsNonBlank | src/lib.rs:313-315 | code is found only when some byte ahead is not White_Space |
| Scanner.StaysInComment | src/lib.rs:308-312 | inside a block with no end delimiter ahead, the scan stays in the block and finds no code |
| Scanner.StaysOutside | src/lib.rs:303-318 | outside a block with no start delimiter ahead, the scan stays outside and, on an all-boundary line, finds code exactly when a non-White_Space byte lies ahead |
| Scanner.ShortcutAgreesWithScan | src/lib.rs:274-281 | for ASCII lines with neither delimiter, the shortcut gives what the scan would give |
| Scanner.SlicesOnBoundaries | src/lib.rs:294-313 | once the window check passes, every slice the scan takes starts and ends on a char boundary |
| Scanner.BoundedByteIsAscii | src/lib.rs:313 | in well-formed UTF-8, a byte with a char boundary on both sides is ASCII |
| Scanner.WhitespaceTestSeesAscii | src/lib.rs:313 | the one-byte slice the White_Space test looks at holds an ASCII character |
| Scanner.CodeAfterComment | src/lib.rs:303-318 | in `/**/x` the `x` after the closed block is code |
| Scanner.NonAsciiHidesCode | src/lib.rs:294-301 | in `/**/xé` the window skip steps over the `x`, so no code is found |
| Scanner.TripleQuoteOpens | src/lib.rs:303-307 | outside a block, `'''` opens one and is not code |
| Scanner.TripleQuoteCloses | src/lib.rs:308-312 | inside a block, `'''` closes it and is not code |
| Outcomes.RunFollows | src/lib.rs:237-326 | the loop's state after a run of lines is the tally of their outcomes and the flag of the last one |
| Outcomes.FileFollows | src/lib.rs:213-329 | a readable UTF-8 file counts the tally of its line outcomes |
| Outcomes.FileOfThree | src/lib.rs:213-329 | the count of a three-line file from its line-by-line classifications |
| Outcomes.FileOfSix | src/lib.rs:213-329 | the count of a six-line file from its line-by-line classifications |
| CExample.CDeclIsCode | src/lib.rs:274-281 | `int x;` is code |
| CExample.CCommentIsComment | src/lib.rs:252-263 | `// comment` is a line comment |
| CExample.ShortcutDisagreesOnNonAscii | src/lib.rs:274-319 | `xé` holds neither C delimiter and is counted as code by the shortcut, while the scan would find no code on it |
| CExample.CFileExample | src/lib.rs:213-329 | C's configuration, and `int x;\n// comment\n\n` counts code 1, blank 1, comments 1, total 3 |
| PythonExample.PlainPythonLine | src/lib.rs:274-281 | a Python line without `#` in front and without quotes is code outside a block and comment inside one |
| PythonExample.TripleQuoteOpensBlock | src/lib.rs:303-307 | outside a block, the line `'''` is a comment and opens a block |
| PythonExample.TripleQuoteClosesBlock | src/lib.rs:252-312 | inside a block, the line `'''` skips the line-comment test, is a comment and closes the block |
| PythonExample.PythonFileExample | src/lib.rs:213-329 | Python's configuration, and the six-line file counts code 2, blank 0, comments 4, total 6 |
| SortKey.FromStr | src/sort.rs:10-22 | a key is accepted only in its lower-case or capitalised spelling and parses to the key it spells; everything else is `Err(None)` |
| SortKey.FromStrReadsSpellings | src/sort.rs:14-18 | both spellings of each of the five keys parse to that key |
| SortKey.NeverLanguage | src/sort.rs:13-20 | no argument parses to `Language` |
| SortKey.UpperCaseRejected | src/sort.rs:19 | `BLANK` is rejected |
| SortKey.LeadingSpaceRejected | src/sort.rs:19 | ` code` is rejected |
| SortKey.TrailingSpaceRejected | src/sort.rs:19 | `Code ` is rejected |
| SortKey.LanguageNameRejected | src/sort.rs:19 | `language` and `Language` are rejected |

## Left out

- Opening and memory-mapping the file are I/O. The model takes the file's contents as `FileContents`, with `Unreadable` for a failed open or map.
- `fastchr` is a foreign search routine. It is modelled by its result, `Text.IndexOf`.
- `count_everything` is not modelled. `get_language_config` never returns `Everything`, so `count` never calls it.
- The `CommentStyle::Extensive` arm of `get_language_config` is not modelled, for the same reason.
- The `Display` and `to_string` of `Language` only format output and are not modelled.
- `CountTotal` is not modelled; it only groups counts for the report.
- `src/main.rs` is not part of this model: argument handling, directory walking, threads and report printing.
- Counts.Count.Merge: the fields are unbounded naturals. The `u32` fields of the source, which overflow past 2^32 - 1, are not modelled.
- LineCounter.CountNormal: the same; `total` and the other counters do not overflow in the model.
- Languages.ToLower: lower-cases ASCII letters only. Rust's `to_lowercase` also maps non-ASCII letters, which can only matter for names with non-ASCII characters.
- Languages.FileName: paths use `/` only, and names are text. A non-UTF-8 name, on which `to_str().expect` panics, is not modelled.
- Languages.GetLanguage: requires a path with a file name; the source panics with "no filename" otherwise.
- LineCounter.CountNormal: requires non-empty markers and delimiters (`WellFormed`). Every configuration `get_language_config` returns meets this. With both delimiters empty the source's scan would never end.
- Scanner.ScanStep: tests White_Space on the byte at `pos`. `Scanner.WhitespaceTestSeesAscii` shows that for a valid line this byte is a whole ASCII character (the scan reads the trimmed line, which `Utf8.TrimKeepsValid` shows stays valid), which is what the source's one-byte slice holds. A slice that panics is not reachable there, as `Scanner.SlicesOnBoundaries` shows.
