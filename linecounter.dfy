/**
 * `count_normal` and `count`: classifying every line of a file as blank,
 * comment or code, carrying the "inside a block comment" flag from one line
 * to the next, with a cursor scan for lines that hold block delimiters.
 *
 * The file is given as its contents: `Unreadable` stands for a file that
 * cannot be opened or memory-mapped, `Mapped` for the bytes of one that can.
 */
module LineCounter {
  import opened Text
  import opened Utf8
  import opened Counts
  import opened ByteLines
  import opened Languages
  import opened Scanner

  datatype FileContents = Unreadable | Mapped(bytes: seq<byte>)

  datatype Kind = BlankLine | CommentLine | CodeLine

  /** What one line of the given kind adds to a count. */
  function Tick(k: Kind): Tally {
    Tally(if k == CodeLine then 1 else 0, if k == BlankLine then 1 else 0,
          if k == CommentLine then 1 else 0, 1)
  }

  // ---------------------------------------------------------------------
  // One line, and a file of lines
  // ---------------------------------------------------------------------

  /** How one line is counted, and the comment flag it leaves for the next line. */
  datatype Outcome = Outcome(kind: Kind, inComment: bool)

  /**
   * The classification of one valid line `raw` of a file in a language with
   * line marker `single` and block delimiters `multi`, entered with comment
   * flag `inComment`.
   */
  function Classify(raw: seq<byte>, inComment: bool, single: Option<seq<byte>>, multi: Option<Delimiters>): (o: Outcome)
    requires WellFormed(single, multi)
    ensures o.kind == BlankLine ==> o.inComment == inComment
    ensures multi.None? ==> o.inComment == inComment
  {
    var line := Trim(raw);
    if line == [] then Outcome(BlankLine, inComment)
    else if single.Some? && !inComment && StartsWith(line, single.value)
         && (multi.None? || !StartsWith(line, multi.value.start)) then
      Outcome(CommentLine, inComment)
    else if multi.None? then Outcome(CodeLine, inComment)
    else if !(Contains(line, multi.value.start) || Contains(line, multi.value.end)) then
      Outcome(if inComment then CommentLine else CodeLine, inComment)
    else
      var r := Scan(line, multi.value, inComment);
      Outcome(if r.found then CodeLine else CommentLine, r.inComment)
  }

  /** The running count and comment flag of the line loop. */
  datatype State = State(count: Tally, inComment: bool)

  const Start := State(Zero, false)

  function Step(st: State, raw: seq<byte>, single: Option<seq<byte>>, multi: Option<Delimiters>): State
    requires WellFormed(single, multi)
  {
    var o := Classify(raw, st.inComment, single, multi);
    State(Add(st.count, Tick(o.kind)), o.inComment)
  }

  /** The state after the lines `ls`, taken in order from the start of the file. */
  function Run(ls: seq<seq<byte>>, single: Option<seq<byte>>, multi: Option<Delimiters>): State
    requires WellFormed(single, multi)
    decreases |ls|
  {
    if ls == [] then Start
    else Step(Run(ls[..|ls| - 1], single, multi), ls[|ls| - 1], single, multi)
  }

  /** Running one more line. */
  lemma RunSnoc(ls: seq<seq<byte>>, l: seq<byte>, single: Option<seq<byte>>, multi: Option<Delimiters>)
    requires WellFormed(single, multi)
    ensures Run(ls + [l], single, multi) == Step(Run(ls, single, multi), l, single, multi)
  {
    assert (ls + [l])[..|ls|] == ls;
  }

  lemma StepOf(st: State, raw: seq<byte>, single: Option<seq<byte>>, multi: Option<Delimiters>, count: Tally, inComment: bool)
    requires WellFormed(single, multi)
    requires var o := Classify(raw, st.inComment, single, multi);
      count == Add(st.count, Tick(o.kind)) && inComment == o.inComment
    ensures Step(st, raw, single, multi) == State(count, inComment)
  {
  }

  predicate AllValid(ls: seq<seq<byte>>) {
    forall i :: 0 <= i < |ls| ==> ValidUtf8(ls[i])
  }

  /**
   * What `count_normal` returns: nothing for a file it cannot read or one
   * with a line that is not UTF-8, otherwise the count of all its lines.
   */
  function CountNormalSpec(file: FileContents, single: Option<seq<byte>>, multi: Option<Delimiters>): Tally
    requires WellFormed(single, multi)
  {
    match file
    case Unreadable => Zero
    case Mapped(bytes) =>
      var ls := Lines(bytes);
      if AllValid(ls) then Run(ls, single, multi).count else Zero
  }

  // ---------------------------------------------------------------------
  // What the counter promises
  // ---------------------------------------------------------------------

  /** Each line adds one to `total` and one to exactly one other field. */
  lemma {:induction false} RunConsistent(ls: seq<seq<byte>>, single: Option<seq<byte>>, multi: Option<Delimiters>)
    requires WellFormed(single, multi)
    ensures Consistent(Run(ls, single, multi).count) && Run(ls, single, multi).count.total == |ls|
    decreases |ls|
  {
    if ls != [] {
      RunConsistent(ls[..|ls| - 1], single, multi);
    }
  }

  /**
   * Every count `count_normal` returns has `total == code + blank +
   * comments`, and for a readable well-formed file `total` is its number of
   * lines.
   */
  lemma CountNormalConsistent(file: FileContents, single: Option<seq<byte>>, multi: Option<Delimiters>)
    requires WellFormed(single, multi)
    ensures Consistent(CountNormalSpec(file, single, multi))
    ensures file.Mapped? && AllValid(Lines(file.bytes)) ==>
      CountNormalSpec(file, single, multi).total == |Lines(file.bytes)|
  {
    if file.Mapped? {
      var ls := Lines(file.bytes);
      RunConsistent(ls, single, multi);
      assert CountNormalSpec(file, single, multi) == if AllValid(ls) then Run(ls, single, multi).count else Zero;
    }
  }

  /** One line that is not UTF-8 wipes out the count of the whole file. */
  lemma InvalidLineGivesZero(bytes: seq<byte>, single: Option<seq<byte>>, multi: Option<Delimiters>, i: nat)
    requires WellFormed(single, multi)
    requires i < |Lines(bytes)| && !ValidUtf8(Lines(bytes)[i])
    ensures CountNormalSpec(Mapped(bytes), single, multi) == Zero
  {
  }

  /** A line of spaces and tabs (or any ASCII White_Space) is blank and keeps the comment flag. */
  lemma WhitespaceLineIsBlank(raw: seq<byte>, inComment: bool, single: Option<seq<byte>>, multi: Option<Delimiters>)
    requires WellFormed(single, multi)
    requires forall i :: 0 <= i < |raw| ==> IsWhitespaceByte(raw[i])
    ensures Classify(raw, inComment, single, multi) == Outcome(BlankLine, inComment)
  {
    WhitespaceOnlyTrimsEmpty(raw);
  }

  /**
   * A non-blank line outside a block comment that starts with the line
   * marker, and not with the block start, is a comment and keeps the flag.
   */
  lemma LineCommentRule(raw: seq<byte>, single: Option<seq<byte>>, multi: Option<Delimiters>)
    requires WellFormed(single, multi) && single.Some?
    requires Trim(raw) != [] && StartsWith(Trim(raw), single.value)
    requires multi.Some? ==> !StartsWith(Trim(raw), multi.value.start)
    ensures Classify(raw, false, single, multi) == Outcome(CommentLine, false)
  {
  }

  /** Without block delimiters the comment flag is never set. */
  lemma {:induction false} NoBlocksNeverInComment(ls: seq<seq<byte>>, single: Option<seq<byte>>)
    requires WellFormed(single, None)
    ensures !Run(ls, single, None).inComment
    decreases |ls|
  {
    if ls != [] {
      NoBlocksNeverInComment(ls[..|ls| - 1], single);
    }
  }

  /**
   * Without block delimiters, a line is code exactly when it is neither
   * blank nor a line comment.
   */
  lemma NoBlocksCodeRule(raw: seq<byte>, single: Option<seq<byte>>)
    requires WellFormed(single, None)
    ensures var o := Classify(raw, false, single, None);
      !o.inComment
      && (o.kind == CodeLine <==> Trim(raw) != [] && !(single.Some? && StartsWith(Trim(raw), single.value)))
  {
  }

  /**
   * A non-blank line that is not a line comment and contains neither
   * delimiter keeps the flag, and is a comment exactly when inside a block.
   */
  lemma NoDelimiterRule(raw: seq<byte>, inComment: bool, single: Option<seq<byte>>, d: Delimiters)
    requires WellFormed(single, Some(d))
    requires Trim(raw) != [] && !Contains(Trim(raw), d.start) && !Contains(Trim(raw), d.end)
    requires !inComment && single.Some? ==> !StartsWith(Trim(raw), single.value)
    ensures Classify(raw, inComment, single, Some(d))
         == Outcome(if inComment then CommentLine else CodeLine, inComment)
  {
  }

  /** `count_normal` over the contents of a file. */
  method CountNormal(file: FileContents, single: Option<seq<byte>>, multi: Option<Delimiters>) returns (count: Count)
    requires WellFormed(single, multi)
    ensures fresh(count) && count.View() == CountNormalSpec(file, single, multi)
  {
    if file.Unreadable? {
      count := new Count();
      return;
    }
    var bytes := file.bytes;
    ghost var ls := Lines(bytes);
    count := new Count();
    var inComment := false;
    var lines := new ByteLinesState(bytes);
    ghost var k := 0;
    while true
      invariant lines.Valid() && lines.buf == bytes
      invariant k <= |ls| && lines.Rest() == ls[k..]
      invariant AllValid(ls[..k])
      invariant fresh(count) && State(count.View(), inComment) == Run(ls[..k], single, multi)
      decreases |lines.Rest()|
    {
      var next := lines.Next();
      if next.None? {
        assert ls[..k] == ls;
        return;
      }
      var raw := next.value;
      assert raw == ls[k];
      if !ValidUtf8(raw) {
        InvalidLineGivesZero(bytes, single, multi, k);
        count := new Count();
        return;
      }
      LineDone(ls, k, single, multi);
      ghost var before := State(count.View(), inComment);
      inComment := CountLine(count, raw, inComment, single, multi);
      StepOf(before, raw, single, multi, count.View(), inComment);
      assert ls[k..][1..] == ls[k + 1..];
      k := k + 1;
    }
  }

  /** The loop of `count_normal` after one more valid line. */
  lemma LineDone(ls: seq<seq<byte>>, k: nat, single: Option<seq<byte>>, multi: Option<Delimiters>)
    requires WellFormed(single, multi)
    requires k < |ls| && AllValid(ls[..k]) && ValidUtf8(ls[k])
    ensures AllValid(ls[..k + 1])
    ensures Run(ls[..k + 1], single, multi) == Step(Run(ls[..k], single, multi), ls[k], single, multi)
  {
    assert ls[..k + 1] == ls[..k] + [ls[k]];
    RunSnoc(ls[..k], ls[k], single, multi);
  }

  /**
   * What `count` returns for the file at `path`, whose contents are `file`:
   * the count `count_normal` makes with the configuration of the path's
   * language.
   */
  function CountSpec(path: string, file: FileContents): Tally
    requires FileName(path).Some?
  {
    var cfg := GetLanguageConfig(GetLanguage(path));
    CountNormalSpec(file, cfg.single, cfg.multi)
  }

  /** `count` never breaks `total == code + blank + comments`. */
  lemma CountConsistent(path: string, file: FileContents)
    requires FileName(path).Some?
    ensures Consistent(CountSpec(path, file))
  {
    var cfg := GetLanguageConfig(GetLanguage(path));
    CountNormalConsistent(file, cfg.single, cfg.multi);
  }

  /**
   * `count`: every configuration `get_language_config` returns is `Normal`,
   * so the file always goes to `count_normal`.
   */
  method CountPath(path: string, file: FileContents) returns (count: Count)
    requires FileName(path).Some?
    ensures fresh(count) && count.View() == CountSpec(path, file)
  {
    var language := GetLanguage(path);
    var cfg := GetLanguageConfig(language);
    match cfg
    case Normal(single, multi) =>
      count := CountNormal(file, single, multi);
  }

  /**
   * The body of the line loop of `count_normal` for a valid line: one more
   * line in `total` and in the counter its kind selects.
   */
  method CountLine(count: Count, raw: seq<byte>, inComment0: bool, single: Option<seq<byte>>, multi: Option<Delimiters>)
    returns (inComment: bool)
    requires WellFormed(single, multi)
    modifies count
    ensures var o := Classify(raw, inComment0, single, multi);
      count.View() == Add(old(count.View()), Tick(o.kind)) && inComment == o.inComment
  {
    count.total := count.total + 1;
    var kind;
    kind, inComment := ClassifyLine(raw, inComment0, single, multi);
    match kind {
      case BlankLine => count.blank := count.blank + 1;
      case CommentLine => count.comments := count.comments + 1;
      case CodeLine => count.code := count.code + 1;
    }
  }

  /**
   * The body of the line loop of `count_normal` after `total` is
   * incremented: which counter the line goes to, and the comment flag after it.
   */
  method ClassifyLine(raw: seq<byte>, inComment0: bool, single: Option<seq<byte>>, multi: Option<Delimiters>)
    returns (kind: Kind, inComment: bool)
    requires WellFormed(single, multi)
    ensures Outcome(kind, inComment) == Classify(raw, inComment0, single, multi)
  {
    inComment := inComment0;
    var line := Trim(raw);
    if line == [] {
      return BlankLine, inComment;
    }
    if single.Some? {
      if !inComment && StartsWith(line, single.value) {
        if multi.Some? {
          if !StartsWith(line, multi.value.start) {
            return CommentLine, inComment;
          }
        } else {
          return CommentLine, inComment;
        }
      }
    }
    if multi.None? {
      return CodeLine, inComment;
    }
    var d := multi.value;
    if !(Contains(line, d.start) || Contains(line, d.end)) {
      kind := if inComment then CommentLine else CodeLine;
      return;
    }
    var found;
    found, inComment := ScanLine(line, d, inComment);
    kind := if found then CodeLine else CommentLine;
  }
}
