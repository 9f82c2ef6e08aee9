/**
 * The cursor scan of `count_normal` over a trimmed line that holds a block
 * delimiter: it walks the line byte by byte, entering and leaving block
 * comments and noting whether any code lies outside them.
 */
module Scanner {
  import opened Text
  import opened Utf8
  import opened Languages

  /** `contains_utf8`: some byte index of the line is not a char boundary. */
  predicate HasNonBoundary(line: seq<byte>) {
    exists i :: 0 <= i < |line| && !IsCharBoundary(line, i)
  }

  /** Width of the look-ahead window at `pos`: the longer delimiter plus one, cut at the line end. */
  function Window(line: seq<byte>, d: Delimiters, pos: nat): nat
    requires pos <= |line|
  {
    Min(Max(|d.start|, |d.end|) + 1, |line| - pos)
  }

  /** Every index of `line[pos..pos + w]` is a char boundary. */
  predicate WindowClear(line: seq<byte>, pos: nat, w: nat) {
    forall i :: pos <= i < pos + w ==> IsCharBoundary(line, i)
  }

  /** The scan's state: the cursor, the comment flag and `found_code`. */
  datatype Cursor = Cursor(pos: nat, inComment: bool, found: bool)

  /**
   * One turn of the `'outer` loop. The cursor always moves forward and
   * never past the end of the line, so the scan terminates.
   */
  function Advance(line: seq<byte>, d: Delimiters, utf8: bool, c: Cursor): (r: Cursor)
    requires NonEmpty(d) && c.pos < |line|
    ensures c.pos < r.pos <= |line|
    ensures c.found ==> r.found
  {
    var pos := c.pos;
    if utf8 && !WindowClear(line, pos, Window(line, d, pos)) then
      Cursor(pos + 1, c.inComment, c.found)
    else if !c.inComment && OccursAt(line, d.start, pos) then
      Cursor(pos + |d.start|, true, c.found)
    else if c.inComment && OccursAt(line, d.end, pos) then
      Cursor(pos + |d.end|, false, c.found)
    else if !c.inComment && !IsWhitespaceByte(line[pos]) then
      Cursor(pos + 1, false, true)
    else
      Cursor(pos + 1, c.inComment, c.found)
  }

  /** The scan from cursor `c` to the end of the line. */
  function ScanFrom(line: seq<byte>, d: Delimiters, utf8: bool, c: Cursor): (r: Cursor)
    requires NonEmpty(d) && c.pos <= |line|
    ensures r.pos == |line| && (c.found ==> r.found)
    decreases |line| - c.pos
  {
    if c.pos == |line| then c else ScanFrom(line, d, utf8, Advance(line, d, utf8, c))
  }

  /** The scan of a whole (trimmed) line entered with comment flag `inComment`. */
  function Scan(line: seq<byte>, d: Delimiters, inComment: bool): Cursor
    requires NonEmpty(d)
  {
    ScanFrom(line, d, HasNonBoundary(line), Cursor(0, inComment, false))
  }

  /** `(0..line_len).any(|i| !line.is_char_boundary(i))`. */
  method ContainsNonBoundary(line: seq<byte>) returns (b: bool)
    ensures b == HasNonBoundary(line)
  {
    b := false;
    var k := 0;
    while k < |line| && !b
      invariant k <= |line|
      invariant !b ==> forall j :: 0 <= j < k ==> IsCharBoundary(line, j)
      invariant b ==> HasNonBoundary(line)
    {
      if !IsCharBoundary(line, k) {
        b := true;
      }
      k := k + 1;
    }
  }

  /** The inner `for` loop: every index of the window at `pos` is a char boundary. */
  method CheckWindow(line: seq<byte>, pos: nat, w: nat) returns (clear: bool)
    ensures clear == WindowClear(line, pos, w)
  {
    clear := true;
    for i := pos to pos + w
      invariant forall j :: pos <= j < i ==> IsCharBoundary(line, j)
    {
      if !IsCharBoundary(line, i) {
        return false;
      }
    }
  }

  /**
   * The cursor scan of one trimmed line (the `'outer` loop of
   * `count_normal`): whether code was found and the comment flag after it.
   */
  method ScanLine(line: seq<byte>, d: Delimiters, inComment0: bool) returns (found: bool, inComment: bool)
    requires NonEmpty(d)
    ensures Scan(line, d, inComment0) == Cursor(|line|, inComment, found)
  {
    var pos := 0;
    found, inComment := false, inComment0;
    var containsUtf8 := ContainsNonBoundary(line);
    while pos < |line|
      invariant pos <= |line|
      invariant ScanFrom(line, d, containsUtf8, Cursor(pos, inComment, found)) == Scan(line, d, inComment0)
      decreases |line| - pos
    {
      pos, inComment, found := ScanStep(line, d, containsUtf8, pos, inComment, found);
    }
  }

  /** One turn of the `'outer` loop, at byte `pos0` of the line. */
  method ScanStep(line: seq<byte>, d: Delimiters, containsUtf8: bool, pos0: nat, inComment0: bool, found0: bool)
    returns (pos: nat, inComment: bool, found: bool)
    requires NonEmpty(d) && pos0 < |line|
    ensures Cursor(pos, inComment, found) == Advance(line, d, containsUtf8, Cursor(pos0, inComment0, found0))
  {
    var startLen, endLen, lineLen := |d.start|, |d.end|, |line|;
    pos, inComment, found := pos0, inComment0, found0;
    var clear := true;
    if containsUtf8 {
      clear := CheckWindow(line, pos, Min(Max(startLen, endLen) + 1, lineLen - pos));
    }
    if !clear {
      pos := pos + 1;
    } else if !inComment && pos + startLen <= lineLen && line[pos..pos + startLen] == d.start {
      pos := pos + startLen;
      inComment := true;
    } else if inComment && pos + endLen <= lineLen && line[pos..pos + endLen] == d.end {
      pos := pos + endLen;
      inComment := false;
    } else if !inComment && !IsWhitespaceByte(line[pos]) {
      pos := pos + 1;
      found := true;
    } else {
      pos := pos + 1;
    }
  }

  // ---------------------------------------------------------------------
  // What the scan does
  // ---------------------------------------------------------------------

  /** Some byte of `line` from `p` on is not White_Space. */
  predicate NonBlankFrom(line: seq<byte>, p: nat) {
    exists j :: p <= j < |line| && !IsWhitespaceByte(line[j])
  }

  /** `found_code` is only ever set by a byte that is not White_Space. */
  lemma {:induction false} FoundNeedsNonBlank(line: seq<byte>, d: Delimiters, utf8: bool, c: Cursor)
    requires NonEmpty(d) && c.pos <= |line|
    ensures ScanFrom(line, d, utf8, c).found ==> c.found || NonBlankFrom(line, c.pos)
    decreases |line| - c.pos
  {
    if c.pos < |line| {
      var n := Advance(line, d, utf8, c);
      FoundNeedsNonBlank(line, d, utf8, n);
      if n.found && !c.found {
        assert !IsWhitespaceByte(line[c.pos]);
      }
      if NonBlankFrom(line, n.pos) {
        var j :| n.pos <= j < |line| && !IsWhitespaceByte(line[j]);
        assert c.pos <= j;
      }
    }
  }

  /**
   * Inside a block comment with no end delimiter ahead, the scan stays in
   * the comment and finds no code.
   */
  lemma {:induction false} StaysInComment(line: seq<byte>, d: Delimiters, utf8: bool, c: Cursor)
    requires NonEmpty(d) && c.pos <= |line| && c.inComment
    requires forall j :: c.pos <= j <= |line| ==> !OccursAt(line, d.end, j)
    ensures ScanFrom(line, d, utf8, c) == Cursor(|line|, true, c.found)
    decreases |line| - c.pos
  {
    if c.pos < |line| {
      StaysInComment(line, d, utf8, Advance(line, d, utf8, c));
    }
  }

  /**
   * Outside a block comment with no start delimiter ahead, the scan stays
   * outside; on a line whose every index is a char boundary it finds code
   * exactly when some byte ahead is not White_Space.
   */
  lemma {:induction false} StaysOutside(line: seq<byte>, d: Delimiters, utf8: bool, c: Cursor)
    requires NonEmpty(d) && c.pos <= |line| && !c.inComment
    requires forall j :: c.pos <= j <= |line| ==> !OccursAt(line, d.start, j)
    ensures !ScanFrom(line, d, utf8, c).inComment
    ensures !utf8 ==> ScanFrom(line, d, utf8, c).found == (c.found || NonBlankFrom(line, c.pos))
    decreases |line| - c.pos
  {
    if c.pos < |line| {
      var n := Advance(line, d, utf8, c);
      StaysOutside(line, d, utf8, n);
      if !utf8 {
        assert n.pos == c.pos + 1 && n.found == (c.found || !IsWhitespaceByte(line[c.pos]));
      }
      if NonBlankFrom(line, c.pos) && IsWhitespaceByte(line[c.pos]) {
        var j :| c.pos <= j < |line| && !IsWhitespaceByte(line[j]);
        assert n.pos <= j;
      }
      if NonBlankFrom(line, n.pos) {
        var j :| n.pos <= j < |line| && !IsWhitespaceByte(line[j]);
        assert c.pos <= j;
      }
    }
  }

  /**
   * On a line that contains neither delimiter and whose every index is a
   * char boundary, the scan agrees with the shortcut `count_normal` takes
   * for such lines: the comment flag is kept, and the line is code exactly
   * when it is not inside a comment (given a non-White_Space byte).
   */
  lemma ShortcutAgreesWithScan(line: seq<byte>, d: Delimiters, inComment: bool)
    requires NonEmpty(d) && !HasNonBoundary(line) && NonBlankFrom(line, 0)
    requires !Contains(line, d.start) && !Contains(line, d.end)
    ensures Scan(line, d, inComment) == Cursor(|line|, inComment, !inComment)
  {
    var c := Cursor(0, inComment, false);
    if inComment {
      StaysInComment(line, d, false, c);
    } else {
      StaysOutside(line, d, false, c);
    }
  }

  /**
   * Every slice the scan takes, `line[pos..pos + start_len]`,
   * `line[pos..pos + end_len]` and `line[pos..pos + 1]`, begins and ends on a
   * char boundary once the window check has let the cursor through, so
   * none of them panics.
   */
  lemma SlicesOnBoundaries(line: seq<byte>, d: Delimiters, pos: nat)
    requires NonEmpty(d) && pos < |line|
    requires !(HasNonBoundary(line) && !WindowClear(line, pos, Window(line, d, pos)))
    ensures IsCharBoundary(line, pos) && IsCharBoundary(line, pos + 1)
    ensures pos + |d.start| <= |line| ==> IsCharBoundary(line, pos + |d.start|)
    ensures pos + |d.end| <= |line| ==> IsCharBoundary(line, pos + |d.end|)
  {
  }

  /**
   * In well-formed UTF-8, a byte with a char boundary on both sides is a
   * whole character, and so an ASCII one.
   */
  lemma {:induction false} BoundedByteIsAscii(s: seq<byte>, i: nat)
    requires ValidUtf8(s) && i < |s| && IsCharBoundary(s, i) && IsCharBoundary(s, i + 1)
    ensures s[i] < 0x80
    decreases |s|
  {
    var k := CharLen(s);
    if i >= k {
      assert IsCharBoundary(s[k..], i - k) && IsCharBoundary(s[k..], i - k + 1);
      BoundedByteIsAscii(s[k..], i - k);
    }
  }

  /**
   * The White_Space test of the scan looks at a one-byte slice of a
   * well-formed line: that byte is a whole ASCII character, so comparing
   * the byte is the same as testing the character.
   */
  lemma WhitespaceTestSeesAscii(line: seq<byte>, d: Delimiters, pos: nat)
    requires NonEmpty(d) && pos < |line| && ValidUtf8(line)
    requires !(HasNonBoundary(line) && !WindowClear(line, pos, Window(line, d, pos)))
    ensures line[pos] < 0x80
  {
    SlicesOnBoundaries(line, d, pos);
    BoundedByteIsAscii(line, pos);
  }

  // Worked scans with the C delimiters.

  /** `/**/x`: the `x` after the closed comment is code. */
  lemma CodeAfterComment()
    ensures Scan([0x2F, 0x2A, 0x2A, 0x2F, 0x78], Delimiters(SlashStar, StarSlash), false) == Cursor(5, false, true)
  {
    var line: seq<byte> := [0x2F, 0x2A, 0x2A, 0x2F, 0x78];
    var d := Delimiters(SlashStar, StarSlash);
    assert !HasNonBoundary(line);
    assert Advance(line, d, false, Cursor(0, false, false)) == Cursor(2, true, false);
    assert Advance(line, d, false, Cursor(2, true, false)) == Cursor(4, false, false);
    assert Advance(line, d, false, Cursor(4, false, false)) == Cursor(5, false, true);
  }

  /**
   * `/**/xé`: the two bytes of `é` put a non-boundary within the look-ahead
   * window of the `x`, so the cursor steps over the `x` without looking at
   * it and the line holds no code.
   */
  lemma NonAsciiHidesCode()
    ensures Scan([0x2F, 0x2A, 0x2A, 0x2F, 0x78, 0xC3, 0xA9], Delimiters(SlashStar, StarSlash), false)
         == Cursor(7, false, false)
  {
    var line: seq<byte> := [0x2F, 0x2A, 0x2A, 0x2F, 0x78, 0xC3, 0xA9];
    var d := Delimiters(SlashStar, StarSlash);
    assert !IsCharBoundary(line, 6);
    assert WindowClear(line, 0, 3) && WindowClear(line, 2, 3);
    assert Advance(line, d, true, Cursor(0, false, false)) == Cursor(2, true, false);
    assert Advance(line, d, true, Cursor(2, true, false)) == Cursor(4, false, false);
    assert Advance(line, d, true, Cursor(4, false, false)) == Cursor(5, false, false);
    assert Advance(line, d, true, Cursor(5, false, false)) == Cursor(6, false, false);
    assert Advance(line, d, true, Cursor(6, false, false)) == Cursor(7, false, false);
  }

  // With Python's delimiters, both `'''`.

  /** Outside a block, `'''` opens one. */
  lemma TripleQuoteOpens()
    ensures Scan(TripleQuote, Delimiters(TripleQuote, TripleQuote), false) == Cursor(3, true, false)
  {
    var d := Delimiters(TripleQuote, TripleQuote);
    assert !HasNonBoundary(TripleQuote);
    assert Advance(TripleQuote, d, false, Cursor(0, false, false)) == Cursor(3, true, false);
  }

  /** Inside a block, the same `'''` closes it: the start is only looked for outside one. */
  lemma TripleQuoteCloses()
    ensures Scan(TripleQuote, Delimiters(TripleQuote, TripleQuote), true) == Cursor(3, false, false)
  {
    var d := Delimiters(TripleQuote, TripleQuote);
    assert !HasNonBoundary(TripleQuote);
    assert Advance(TripleQuote, d, false, Cursor(0, true, false)) == Cursor(3, false, false);
  }
}
