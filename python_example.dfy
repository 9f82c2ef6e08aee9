/**
 * A Python file counted by `count_normal` with the configuration
 * `get_language_config` gives Python, where `'''` both opens and closes a
 * block comment:
 *
 *     x = 1
 *     '''
 *     block
 *     comment
 *     '''
 *     y = 2
 *
 * The two `'''` lines count as comments along with the two lines between
 * them, so the file has two lines of code and four of comment.
 */
module PythonExample {
  import opened Text
  import opened Utf8
  import opened Counts
  import opened ByteLines
  import opened Languages
  import opened LineCounter
  import opened Scanner
  import opened Outcomes

  const PyX: seq<byte> := [0x78, 0x20, 0x3D, 0x20, 0x31]              // "x = 1"
  const PyBlock: seq<byte> := [0x62, 0x6C, 0x6F, 0x63, 0x6B]          // "block"
  const PyComment: seq<byte> := [0x63, 0x6F, 0x6D, 0x6D, 0x65, 0x6E, 0x74] // "comment"
  const PyY: seq<byte> := [0x79, 0x20, 0x3D, 0x20, 0x32]              // "y = 2"
  const PyDelimiters := Delimiters(TripleQuote, TripleQuote)
  const PyLines: seq<seq<byte>> := [PyX, TripleQuote, PyBlock, PyComment, TripleQuote, PyY]

  lemma PyConfig()
    ensures GetLanguageConfig(Python) == Normal(Some(Hash), Some(PyDelimiters))
  {
  }

  // ---------------------------------------------------------------------
  // The lines and their bytes
  // ---------------------------------------------------------------------

  lemma PyXValid()
    ensures ValidUtf8(PyX) && NL !in PyX
  {
    AsciiIsValid(PyX);
  }

  lemma PyBlockValid()
    ensures ValidUtf8(PyBlock) && NL !in PyBlock
  {
    AsciiIsValid(PyBlock);
  }

  lemma PyCommentAscii()
    ensures forall i :: 0 <= i < |PyComment| ==> PyComment[i] < 0x80
  {
  }

  lemma PyCommentValid()
    ensures ValidUtf8(PyComment) && NL !in PyComment
  {
    PyCommentAscii();
    AsciiIsValid(PyComment);
  }

  lemma PyYValid()
    ensures ValidUtf8(PyY) && NL !in PyY
  {
    AsciiIsValid(PyY);
  }

  lemma TripleQuoteValid()
    ensures ValidUtf8(TripleQuote) && NL !in TripleQuote
  {
    AsciiIsValid(TripleQuote);
  }

  lemma SixWithoutNewlines(l1: seq<byte>, l2: seq<byte>, l3: seq<byte>, l4: seq<byte>, l5: seq<byte>, l6: seq<byte>)
    requires NL !in l1 && NL !in l2 && NL !in l3 && NL !in l4 && NL !in l5 && NL !in l6
    ensures NoNewlines([l1, l2, l3, l4, l5, l6])
  {
  }

  lemma SixValid(l1: seq<byte>, l2: seq<byte>, l3: seq<byte>, l4: seq<byte>, l5: seq<byte>, l6: seq<byte>)
    requires ValidUtf8(l1) && ValidUtf8(l2) && ValidUtf8(l3) && ValidUtf8(l4) && ValidUtf8(l5) && ValidUtf8(l6)
    ensures AllValid([l1, l2, l3, l4, l5, l6])
  {
  }

  lemma PyNoNewlines()
    ensures NoNewlines(PyLines)
  {
    PyXValid();
    TripleQuoteValid();
    PyBlockValid();
    PyCommentValid();
    PyYValid();
    SixWithoutNewlines(PyX, TripleQuote, PyBlock, PyComment, TripleQuote, PyY);
  }

  lemma PyAllValid()
    ensures AllValid(PyLines)
  {
    PyXValid();
    TripleQuoteValid();
    PyBlockValid();
    PyCommentValid();
    PyYValid();
    SixValid(PyX, TripleQuote, PyBlock, PyComment, TripleQuote, PyY);
  }

  /** Splitting the file gives the six lines back, all of them UTF-8. */
  lemma PyFileLines()
    ensures Lines(Terminated(PyLines)) == PyLines && AllValid(PyLines)
  {
    PyNoNewlines();
    TerminatedRoundTrip(PyLines);
    PyAllValid();
  }

  // ---------------------------------------------------------------------
  // How each line is classified
  // ---------------------------------------------------------------------

  /**
   * A line with no surrounding White_Space that neither starts with `#` nor
   * holds a quote is code outside a block comment and comment inside one,
   * and leaves the flag as it was.
   */
  lemma PlainPythonLine(raw: seq<byte>, inComment: bool)
    requires raw != [] && WhitespaceFrom(raw, 0) == 0 && WhitespaceBefore(raw, 0, |raw|) == 0
    requires raw[0] != 0x23 && 0x27 !in raw
    ensures Classify(raw, inComment, Some(Hash), Some(PyDelimiters))
         == Outcome(if inComment then CommentLine else CodeLine, inComment)
  {
    TrimKeeps(raw);
    FirstMissingNotContained(raw, TripleQuote);
    assert raw[..1] != Hash by { assert raw[..1][0] == raw[0]; }
    NoDelimiterRule(raw, inComment, Some(Hash), PyDelimiters);
  }

  /** Outside a block comment, `'''` opens one and counts as a comment. */
  lemma TripleQuoteOpensBlock()
    ensures Classify(TripleQuote, false, Some(Hash), Some(PyDelimiters)) == Outcome(CommentLine, true)
  {
    TrimKeeps(TripleQuote);
    assert OccursAt(TripleQuote, TripleQuote, 0);
    TripleQuoteOpens();
  }

  /** Inside a block comment, `'''` closes it and counts as a comment. */
  lemma TripleQuoteClosesBlock()
    ensures Classify(TripleQuote, true, Some(Hash), Some(PyDelimiters)) == Outcome(CommentLine, false)
  {
    TrimKeeps(TripleQuote);
    assert OccursAt(TripleQuote, TripleQuote, 0);
    TripleQuoteCloses();
  }

  lemma PyXIsCode()
    ensures Classify(PyX, false, Some(Hash), Some(PyDelimiters)) == Outcome(CodeLine, false)
  {
    PlainPythonLine(PyX, false);
  }

  lemma PyBlockIsComment()
    ensures Classify(PyBlock, true, Some(Hash), Some(PyDelimiters)) == Outcome(CommentLine, true)
  {
    PlainPythonLine(PyBlock, true);
  }

  lemma PyCommentIsComment()
    ensures Classify(PyComment, true, Some(Hash), Some(PyDelimiters)) == Outcome(CommentLine, true)
  {
    PlainPythonLine(PyComment, true);
  }

  lemma PyYIsCode()
    ensures Classify(PyY, false, Some(Hash), Some(PyDelimiters)) == Outcome(CodeLine, false)
  {
    PlainPythonLine(PyY, false);
  }

  // ---------------------------------------------------------------------
  // The running count after each line
  // ---------------------------------------------------------------------

  // One lemma per line keeps each sum of literal tallies a small obligation
  // of its own, compared field by field.

  lemma PyAfter1()
    ensures Tally(1, 0, 0, 1) == Tick(CodeLine)
  {
  }

  lemma PyAfter2()
    ensures Tally(1, 0, 1, 2) == Add(Tally(1, 0, 0, 1), Tick(CommentLine))
  {
    SameFields(Tally(1, 0, 1, 2), Add(Tally(1, 0, 0, 1), Tick(CommentLine)));
  }

  lemma PyAfter3()
    ensures Tally(1, 0, 2, 3) == Add(Tally(1, 0, 1, 2), Tick(CommentLine))
  {
    SameFields(Tally(1, 0, 2, 3), Add(Tally(1, 0, 1, 2), Tick(CommentLine)));
  }

  lemma PyAfter4()
    ensures Tally(1, 0, 3, 4) == Add(Tally(1, 0, 2, 3), Tick(CommentLine))
  {
    SameFields(Tally(1, 0, 3, 4), Add(Tally(1, 0, 2, 3), Tick(CommentLine)));
  }

  lemma PyAfter5()
    ensures Tally(1, 0, 4, 5) == Add(Tally(1, 0, 3, 4), Tick(CommentLine))
  {
    SameFields(Tally(1, 0, 4, 5), Add(Tally(1, 0, 3, 4), Tick(CommentLine)));
  }

  lemma PyAfter6()
    ensures Tally(2, 0, 4, 6) == Add(Tally(1, 0, 4, 5), Tick(CodeLine))
  {
    SameFields(Tally(2, 0, 4, 6), Add(Tally(1, 0, 4, 5), Tick(CodeLine)));
  }

  lemma PyCount()
    ensures CountNormalSpec(Mapped(Terminated(PyLines)), Some(Hash), Some(PyDelimiters)) == Tally(2, 0, 4, 6)
  {
    PyFileLines();
    PyXIsCode();
    TripleQuoteOpensBlock();
    PyBlockIsComment();
    PyCommentIsComment();
    TripleQuoteClosesBlock();
    PyYIsCode();
    PyAfter1();
    PyAfter2();
    PyAfter3();
    PyAfter4();
    PyAfter5();
    PyAfter6();
    FileOfSix(Terminated(PyLines), PyX, TripleQuote, PyBlock, PyComment, TripleQuote, PyY,
              CodeLine, CommentLine, CommentLine, CommentLine, CommentLine, CodeLine,
              false, true, true, true, false, false,
              Tally(1, 0, 0, 1), Tally(1, 0, 1, 2), Tally(1, 0, 2, 3),
              Tally(1, 0, 3, 4), Tally(1, 0, 4, 5), Tally(2, 0, 4, 6),
              Some(Hash), Some(PyDelimiters));
  }

  /**
   * The Python file counts six lines: two of code and four of comment,
   * the `'''` lines among them.
   */
  lemma PythonFileExample()
    ensures GetLanguageConfig(Python) == Normal(Some(Hash), Some(PyDelimiters))
    ensures CountNormalSpec(Mapped(Terminated(PyLines)), Some(Hash), Some(PyDelimiters)) == Tally(2, 0, 4, 6)
  {
    PyConfig();
    PyCount();
  }
}
