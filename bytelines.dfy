/**
 * `ByteLines`: splitting a byte buffer into lines on `\n`, and the iterator
 * state `ByteLinesState` whose `next` hands the lines out one at a time.
 */
module ByteLines {
  import opened Text

  /**
   * The lines of `s`: the pieces between newlines, where a final newline
   * ends the last line rather than starting an empty one.
   */
  function Lines(s: seq<byte>): (r: seq<seq<byte>>)
    ensures r == [] <==> s == []
    ensures |r| <= |s|
    decreases |s|
  {
    if s == [] then []
    else match IndexOf(s, NL)
      case Some(n) => [s[..n]] + Lines(s[n + 1..])
      case None => [s]
  }

  /** Every line followed by a newline: the buffer a list of lines describes. */
  function Terminated(ls: seq<seq<byte>>): seq<byte>
  {
    if ls == [] then [] else ls[0] + [NL] + Terminated(ls[1..])
  }

  /** Number of newline bytes in `s`. */
  function NewlineCount(s: seq<byte>): nat
  {
    if s == [] then 0 else (if s[0] == NL then 1 else 0) + NewlineCount(s[1..])
  }

  predicate EndsWithNewline(s: seq<byte>) {
    s != [] && s[|s| - 1] == NL
  }

  predicate NoNewlines(ls: seq<seq<byte>>) {
    forall i :: 0 <= i < |ls| ==> NL !in ls[i]
  }

  /** An empty buffer has no lines. */
  lemma EmptyHasNoLines()
    ensures Lines([]) == []
  {
  }

  /** No line contains a newline. */
  lemma {:induction false} LinesHaveNoNewline(s: seq<byte>)
    ensures NoNewlines(Lines(s))
    decreases |s|
  {
    if s != [] {
      match IndexOf(s, NL)
      case Some(n) =>
        var ls := Lines(s[n + 1..]);
        LinesHaveNoNewline(s[n + 1..]);
        assert Lines(s) == [s[..n]] + ls;
        forall i | 1 <= i < |Lines(s)|
          ensures NL !in Lines(s)[i]
        {
          assert Lines(s)[i] == ls[i - 1];
        }
      case None =>
    }
  }

  /**
   * Writing every line back with a newline after it gives the buffer again,
   * plus one newline when the buffer did not end with one.
   */
  lemma {:induction false} LinesRoundTrip(s: seq<byte>)
    ensures Terminated(Lines(s)) == if s == [] || EndsWithNewline(s) then s else s + [NL]
    decreases |s|
  {
    if s != [] {
      match IndexOf(s, NL)
      case Some(n) =>
        LinesRoundTrip(s[n + 1..]);
        RoundTripStep(s, n);
      case None =>
        assert Lines(s) == [s];
        TerminatedCons(s, []);
        assert s[|s| - 1] in s;
    }
  }

  /** The inductive step of `LinesRoundTrip`, for a first newline at `n`. */
  lemma RoundTripStep(s: seq<byte>, n: nat)
    requires IndexOf(s, NL) == Some(n)
    requires var rest := s[n + 1..];
      Terminated(Lines(rest)) == if rest == [] || EndsWithNewline(rest) then rest else rest + [NL]
    ensures Terminated(Lines(s)) == if EndsWithNewline(s) then s else s + [NL]
  {
    TerminatedLines(s, n);
    SplitAt(s, n);
    Reattach(s, s[..n], s[n + 1..], Terminated(Lines(s[n + 1..])));
  }

  /**
   * The sequence step of the round trip: a line, its newline, and the rest
   * written back as `t`.
   */
  lemma Reattach(s: seq<byte>, head: seq<byte>, rest: seq<byte>, t: seq<byte>)
    requires s == head + [NL] + rest
    requires t == if rest == [] || EndsWithNewline(rest) then rest else rest + [NL]
    ensures head + [NL] + t == if EndsWithNewline(s) then s else s + [NL]
  {
    if rest != [] {
      assert s[|s| - 1] == rest[|rest| - 1];
    }
  }

  /** The lines of a buffer whose first newline is at `n`. */
  lemma LinesAt(s: seq<byte>, n: nat)
    requires IndexOf(s, NL) == Some(n)
    ensures Lines(s) == [s[..n]] + Lines(s[n + 1..])
  {
    assert s != [];
    var r := IndexOf(s, NL);
    assert r == Some(n);
    assert Lines(s) == [s[..r.value]] + Lines(s[r.value + 1..]);
  }

  /** The lines of `s`, first newline at `n`, written back. */
  lemma TerminatedLines(s: seq<byte>, n: nat)
    requires IndexOf(s, NL) == Some(n)
    ensures Terminated(Lines(s)) == s[..n] + [NL] + Terminated(Lines(s[n + 1..]))
  {
    LinesAt(s, n);
    TerminatedCons(s[..n], Lines(s[n + 1..]));
  }

  lemma SplitAt(s: seq<byte>, n: nat)
    requires n < |s|
    ensures s == s[..n] + [s[n]] + s[n + 1..]
  {
  }

  lemma TerminatedCons(l: seq<byte>, ls: seq<seq<byte>>)
    ensures Terminated([l] + ls) == l + [NL] + Terminated(ls)
  {
    assert ([l] + ls)[1..] == ls;
  }

  /** A newline-free line, its newline and more: that line comes first. */
  lemma LinesCons(head: seq<byte>, t: seq<byte>)
    requires NL !in head
    ensures Lines(head + [NL] + t) == [head] + Lines(t)
  {
    var s := head + [NL] + t;
    assert s[..|head|] == head;
    IndexOfFirst(s, NL, |head|);
    assert s[|head| + 1..] == t;
    LinesAt(s, |head|);
  }

  /** Splitting a buffer built from newline-free lines gives those lines back. */
  lemma {:induction false} TerminatedRoundTrip(ls: seq<seq<byte>>)
    requires NoNewlines(ls)
    ensures Lines(Terminated(ls)) == ls
    decreases |ls|
  {
    if ls != [] {
      var head, tail := ls[0], ls[1..];
      NoNewlinesTail(ls);
      assert [head] + tail == ls;
      TerminatedCons(head, tail);
      LinesCons(head, Terminated(tail));
      TerminatedRoundTrip(tail);
    }
  }

  lemma NoNewlinesTail(ls: seq<seq<byte>>)
    requires ls != [] && NoNewlines(ls)
    ensures NL !in ls[0] && NoNewlines(ls[1..])
  {
    assert forall i :: 0 <= i < |ls| - 1 ==> ls[1..][i] == ls[i + 1];
  }

  /**
   * One line per newline, and one more for text after the last newline:
   * the number of lines `total` ends up counting.
   */
  lemma {:induction false} LineCount(s: seq<byte>)
    ensures |Lines(s)| == NewlineCount(s) + if s == [] || EndsWithNewline(s) then 0 else 1
    decreases |s|
  {
    if s != [] {
      match IndexOf(s, NL)
      case Some(n) =>
        NewlineCountSplit(s, n);
        LineCount(s[n + 1..]);
        LinesAt(s, n);
        EndsLikeRest(s, n);
      case None =>
        NoNewlineCount(s);
    }
  }

  /** After a newline at `n`, the buffer ends with one exactly when what follows is empty or does. */
  lemma EndsLikeRest(s: seq<byte>, n: nat)
    requires n < |s| && s[n] == NL
    ensures EndsWithNewline(s) == (s[n + 1..] == [] || EndsWithNewline(s[n + 1..]))
  {
    var rest := s[n + 1..];
    if rest != [] {
      assert s[|s| - 1] == rest[|rest| - 1];
    }
  }

  lemma {:induction false} NoNewlineCount(s: seq<byte>)
    requires NL !in s
    ensures NewlineCount(s) == 0
    decreases |s|
  {
    if s != [] {
      NoNewlineCount(s[1..]);
    }
  }

  /** The newlines of `s`, when its first one is at `n`. */
  lemma {:induction false} NewlineCountSplit(s: seq<byte>, n: nat)
    requires n < |s| && s[n] == NL && NL !in s[..n]
    ensures NewlineCount(s) == 1 + NewlineCount(s[n + 1..])
    decreases n
  {
    if n > 0 {
      assert s[1..][..n - 1] == s[1..n];
      NewlineCountSplit(s[1..], n - 1);
      assert s[1..][n..] == s[n + 1..];
    }
  }

  /**
   * `ByteLinesState`: an iterator over the lines of `buf`, positioned at
   * byte `pos`.
   */
  class ByteLinesState {
    const buf: seq<byte>
    var pos: nat

    predicate Valid()
      reads this
    {
      pos <= |buf|
    }

    /** The lines still to be yielded. */
    function Rest(): seq<seq<byte>>
      requires Valid()
      reads this
    {
      Lines(buf[pos..])
    }

    /** `ByteLines(buf).lines()`: the iterator at the start of the buffer. */
    constructor (buf: seq<byte>)
      ensures Valid() && this.buf == buf && pos == 0
      ensures Rest() == Lines(buf)
    {
      this.buf := buf;
      pos := 0;
    }

    /**
     * `next`: the next line, without its newline, moving `pos` past it; or
     * `None` once the whole buffer has been consumed.
     */
    method Next() returns (line: Option<seq<byte>>)
      requires Valid()
      modifies this
      ensures Valid() && old(pos) <= pos
      ensures old(Rest()) == [] ==> line == None && pos == old(pos)
      ensures old(Rest()) != [] ==> line == Some(old(Rest())[0]) && Rest() == old(Rest())[1..]
    {
      ghost var s := buf[pos..];
      assert buf[pos..|buf|] == s;
      match IndexOf(buf[pos..|buf|], NL)
      case Some(n) =>
        var start := pos;
        pos := pos + n + 1;
        line := Some(buf[start..pos - 1]);
        assert buf[start..pos - 1] == s[..n];
        assert buf[pos..] == s[n + 1..];
        assert old(Rest()) == [s[..n]] + Lines(s[n + 1..]);
      case None =>
        if pos == |buf| {
          return None;
        }
        var start := pos;
        pos := |buf|;
        line := Some(buf[start..pos]);
        assert old(Rest()) == [s];
        assert buf[pos..] == [];
    }
  }
}
