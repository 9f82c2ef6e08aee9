/**
 * A C file, `int x;\n// comment\n\n`, counted by `count_normal` with the
 * configuration `get_language_config` gives C: one line of code, one line
 * comment and one blank line.
 */
module CExample {
  import opened Text
  import opened Utf8
  import opened Counts
  import opened ByteLines
  import opened Languages
  import opened LineCounter
  import opened Outcomes
  import opened Scanner

  const CDecl: seq<byte> := [0x69, 0x6E, 0x74, 0x20, 0x78, 0x3B]                            // "int x;"
  const CComment: seq<byte> := [0x2F, 0x2F, 0x20, 0x63, 0x6F, 0x6D, 0x6D, 0x65, 0x6E, 0x74] // "// comment"
  const CDelimiters := Delimiters(SlashStar, StarSlash)
  const CLines: seq<seq<byte>> := [CDecl, CComment, []]

  /** The file is the three lines, each ended by a newline. */
  lemma CFileBytes()
    ensures Terminated(CLines) == CDecl + [NL] + CComment + [NL] + [NL]
  {
    TerminatedCons(CDecl, [CComment, []]);
    TerminatedCons(CComment, [[]]);
    TerminatedCons([], []);
  }

  lemma CConfig()
    ensures GetLanguageConfig(C) == Normal(Some(SlashSlash), Some(CDelimiters))
  {
  }

  lemma CDeclValid()
    ensures ValidUtf8(CDecl)
  {
    AsciiIsValid(CDecl);
  }

  lemma CCommentAscii()
    ensures forall i :: 0 <= i < |CComment| ==> CComment[i] < 0x80
  {
  }

  lemma CCommentValid()
    ensures ValidUtf8(CComment)
  {
    CCommentAscii();
    AsciiIsValid(CComment);
  }

  lemma ThreeWithoutNewlines(a: seq<byte>, b: seq<byte>, c: seq<byte>)
    requires NL !in a && NL !in b && NL !in c
    ensures NoNewlines([a, b, c])
  {
  }

  lemma ThreeValid(a: seq<byte>, b: seq<byte>, c: seq<byte>)
    requires ValidUtf8(a) && ValidUtf8(b) && ValidUtf8(c)
    ensures AllValid([a, b, c])
  {
  }

  lemma CNoNewlines()
    ensures NoNewlines(CLines)
  {
    assert NL !in CDecl;
    assert NL !in CComment;
    ThreeWithoutNewlines(CDecl, CComment, []);
  }

  lemma CAllValid()
    ensures AllValid(CLines)
  {
    CDeclValid();
    CCommentValid();
    ThreeValid(CDecl, CComment, []);
  }

  /** Splitting the file gives the three lines back, all of them UTF-8. */
  lemma CFileLines()
    ensures Lines(Terminated(CLines)) == CLines && AllValid(CLines)
  {
    CNoNewlines();
    TerminatedRoundTrip(CLines);
    CAllValid();
  }

  // `int x;` holds neither block delimiter and does not start with `//`, so it is code.
  lemma CDeclIsCode()
    ensures Classify(CDecl, false, Some(SlashSlash), Some(CDelimiters)) == Outcome(CodeLine, false)
  {
    TrimKeeps(CDecl);
    FirstMissingNotContained(CDecl, SlashStar);
    FirstMissingNotContained(CDecl, StarSlash);
  }

  const XAcute: seq<byte> := [0x78, 0xC3, 0xA9]                                            // "xé"

  /**
   * `xé` holds no block delimiter, so the shortcut counts it as code; the
   * cursor scan would find none, because the non-boundary inside `é` lies in
   * the look-ahead window of every position. The shortcut and the scan agree
   * only on lines without multi-byte characters.
   */
  lemma ShortcutDisagreesOnNonAscii()
    ensures Classify(XAcute, false, Some(SlashSlash), Some(CDelimiters)) == Outcome(CodeLine, false)
    ensures Scan(XAcute, CDelimiters, false) == Cursor(3, false, false)
  {
    TrimKeeps(XAcute);
    FirstMissingNotContained(XAcute, SlashStar);
    FirstMissingNotContained(XAcute, StarSlash);
    assert !IsCharBoundary(XAcute, 2);
    assert Advance(XAcute, CDelimiters, true, Cursor(0, false, false)) == Cursor(1, false, false);
    assert Advance(XAcute, CDelimiters, true, Cursor(1, false, false)) == Cursor(2, false, false);
    assert Advance(XAcute, CDelimiters, true, Cursor(2, false, false)) == Cursor(3, false, false);
  }

  // `// comment` starts with the line marker and not with the block start.
  lemma CCommentIsComment()
    ensures Classify(CComment, false, Some(SlashSlash), Some(CDelimiters)) == Outcome(CommentLine, false)
  {
    TrimKeeps(CComment);
  }

  // The running count after each of the three lines, one lemma per line so
  // that each sum of literal tallies is a small obligation of its own.
  lemma CAfterDecl()
    ensures Tally(1, 0, 0, 1) == Tick(CodeLine)
  {
  }

  lemma CAfterComment()
    ensures Tally(1, 0, 1, 2) == Add(Tally(1, 0, 0, 1), Tick(CommentLine))
  {
    SameFields(Tally(1, 0, 1, 2), Add(Tally(1, 0, 0, 1), Tick(CommentLine)));
  }

  lemma CAfterBlank()
    ensures Tally(1, 1, 1, 3) == Add(Tally(1, 0, 1, 2), Tick(BlankLine))
  {
    SameFields(Tally(1, 1, 1, 3), Add(Tally(1, 0, 1, 2), Tick(BlankLine)));
  }

  lemma CCount()
    ensures CountNormalSpec(Mapped(Terminated(CLines)), Some(SlashSlash), Some(CDelimiters)) == Tally(1, 1, 1, 3)
  {
    CFileLines();
    CDeclIsCode();
    CCommentIsComment();
    WhitespaceLineIsBlank([], false, Some(SlashSlash), Some(CDelimiters));
    CAfterDecl();
    CAfterComment();
    CAfterBlank();
    FileOfThree(Terminated(CLines), CDecl, CComment, [],
                CodeLine, CommentLine, BlankLine, false, false, false,
                Tally(1, 0, 0, 1), Tally(1, 0, 1, 2), Tally(1, 1, 1, 3),
                Some(SlashSlash), Some(CDelimiters));
  }

  /** The C file counts one code line, one comment line and one blank line, three in all. */
  lemma CFileExample()
    ensures GetLanguageConfig(C) == Normal(Some(SlashSlash), Some(CDelimiters))
    ensures CountNormalSpec(Mapped(Terminated(CLines)), Some(SlashSlash), Some(CDelimiters)) == Tally(1, 1, 1, 3)
  {
    CConfig();
    CCount();
  }
}
