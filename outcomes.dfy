/**
 * The count `count_normal` gives a file, restated line by line: each line
 * has an outcome (its kind and the comment flag it leaves), each line is
 * classified with the flag the line before it left, and the count is one
 * tick per outcome.
 */
module Outcomes {
  import opened Text
  import opened Utf8
  import opened Counts
  import opened ByteLines
  import opened Languages
  import opened LineCounter

  /** The comment flag line `i` is entered with, given the outcomes before it. */
  function EntryFlag(os: seq<Outcome>, i: nat): bool
    requires i <= |os|
  {
    if i == 0 then false else os[i - 1].inComment
  }

  /** `os` are the outcomes of the lines `ls`, each classified with the flag its predecessor left. */
  predicate Follows(ls: seq<seq<byte>>, os: seq<Outcome>, single: Option<seq<byte>>, multi: Option<Delimiters>)
    requires WellFormed(single, multi)
  {
    |os| == |ls| &&
    forall i :: 0 <= i < |ls| ==> Classify(ls[i], EntryFlag(os, i), single, multi) == os[i]
  }

  /** One tick per outcome, in order. */
  function TallyOf(os: seq<Outcome>): Tally
    decreases |os|
  {
    if os == [] then Zero else Add(TallyOf(os[..|os| - 1]), Tick(os[|os| - 1].kind))
  }

  lemma TallyOfSnoc(os: seq<Outcome>, o: Outcome)
    ensures TallyOf(os + [o]) == Add(TallyOf(os), Tick(o.kind))
  {
    assert (os + [o])[..|os|] == os;
  }

  /** Running the lines gives the tally of their outcomes and the flag the last one left. */
  lemma {:induction false} RunFollows(ls: seq<seq<byte>>, os: seq<Outcome>, single: Option<seq<byte>>, multi: Option<Delimiters>)
    requires WellFormed(single, multi) && Follows(ls, os, single, multi)
    ensures Run(ls, single, multi) == State(TallyOf(os), EntryFlag(os, |os|))
    decreases |ls|
  {
    if ls != [] {
      var n := |ls|;
      FollowsPrefix(ls, os, single, multi, n - 1);
      RunFollows(ls[..n - 1], os[..n - 1], single, multi);
      RunLast(ls, os, single, multi);
    }
  }

  lemma FollowsPrefix(ls: seq<seq<byte>>, os: seq<Outcome>, single: Option<seq<byte>>, multi: Option<Delimiters>, n: nat)
    requires WellFormed(single, multi) && Follows(ls, os, single, multi) && n <= |ls|
    ensures Follows(ls[..n], os[..n], single, multi)
  {
    var ls', os' := ls[..n], os[..n];
    forall i | 0 <= i < n
      ensures Classify(ls'[i], EntryFlag(os', i), single, multi) == os'[i]
    {
      assert ls'[i] == ls[i] && EntryFlag(os', i) == EntryFlag(os, i);
    }
  }

  /** The inductive step of `RunFollows`: the last line after the others. */
  lemma RunLast(ls: seq<seq<byte>>, os: seq<Outcome>, single: Option<seq<byte>>, multi: Option<Delimiters>)
    requires WellFormed(single, multi) && Follows(ls, os, single, multi) && ls != []
    requires var n := |ls|;
      Run(ls[..n - 1], single, multi) == State(TallyOf(os[..n - 1]), EntryFlag(os[..n - 1], n - 1))
    ensures Run(ls, single, multi) == State(TallyOf(os), EntryFlag(os, |os|))
  {
    var n := |ls|;
    var st := Run(ls[..n - 1], single, multi);
    EntryFlagPrefix(os, n);
    FollowsAt(ls, os, single, multi, n - 1);
    StepKind(st, ls[n - 1], single, multi, os[n - 1].kind, os[n - 1].inComment);
    RunUnfold(ls, single, multi);
    TallyOfLast(os);
  }

  lemma EntryFlagPrefix(os: seq<Outcome>, n: nat)
    requires 0 < n <= |os|
    ensures EntryFlag(os[..n - 1], n - 1) == EntryFlag(os, n - 1)
  {
  }

  /** The classification `Follows` records for line `i`. */
  lemma FollowsAt(ls: seq<seq<byte>>, os: seq<Outcome>, single: Option<seq<byte>>, multi: Option<Delimiters>, i: nat)
    requires WellFormed(single, multi) && Follows(ls, os, single, multi) && i < |ls|
    ensures Classify(ls[i], EntryFlag(os, i), single, multi) == Outcome(os[i].kind, os[i].inComment)
  {
  }

  lemma RunUnfold(ls: seq<seq<byte>>, single: Option<seq<byte>>, multi: Option<Delimiters>)
    requires WellFormed(single, multi) && ls != []
    ensures Run(ls, single, multi) == Step(Run(ls[..|ls| - 1], single, multi), ls[|ls| - 1], single, multi)
  {
  }

  lemma TallyOfLast(os: seq<Outcome>)
    requires os != []
    ensures TallyOf(os) == Add(TallyOf(os[..|os| - 1]), Tick(os[|os| - 1].kind))
  {
  }

  /** A line classified as `k`, leaving flag `flag`, adds one `k` to the count. */
  lemma StepKind(st: State, raw: seq<byte>, single: Option<seq<byte>>, multi: Option<Delimiters>, k: Kind, flag: bool)
    requires WellFormed(single, multi)
    requires Classify(raw, st.inComment, single, multi) == Outcome(k, flag)
    ensures Step(st, raw, single, multi) == State(Add(st.count, Tick(k)), flag)
  {
  }

  /** The count of a readable file whose lines are valid and have outcomes `os`. */
  lemma FileFollows(bytes: seq<byte>, ls: seq<seq<byte>>, os: seq<Outcome>, single: Option<seq<byte>>, multi: Option<Delimiters>)
    requires WellFormed(single, multi)
    requires Lines(bytes) == ls && AllValid(ls) && Follows(ls, os, single, multi)
    ensures CountNormalSpec(Mapped(bytes), single, multi) == TallyOf(os)
  {
    RunFollows(ls, os, single, multi);
  }

  // ---------------------------------------------------------------------
  // Files of three and of six lines
  // ---------------------------------------------------------------------

  // A sequence built up one element at a time is the display of those
  // elements; stated once over any element type, which keeps the worked files
  // from asking the solver to compare long displays of byte sequences.
  lemma Display3<T>(e: seq<T>, a: T, b: T, c: T)
    requires e == []
    ensures e + [a] + [b] + [c] == [a, b, c]
  {
  }

  lemma Display6<T>(e: seq<T>, a: T, b: T, c: T, d: T, f: T, g: T)
    requires e == []
    ensures e + [a] + [b] + [c] + [d] + [f] + [g] == [a, b, c, d, f, g]
  {
  }

  /** One more line, classified from the flag the lines before it left, adds its tick. */
  lemma RunStep(ls: seq<seq<byte>>, l: seq<byte>, t: Tally, f: bool, k: Kind, f': bool,
                single: Option<seq<byte>>, multi: Option<Delimiters>)
    requires WellFormed(single, multi)
    requires Run(ls, single, multi) == State(t, f) && Classify(l, f, single, multi) == Outcome(k, f')
    ensures Run(ls + [l], single, multi) == State(Add(t, Tick(k)), f')
  {
    RunSnoc(ls, l, single, multi);
    StepKind(State(t, f), l, single, multi, k, f');
  }

  /**
   * The count of a readable file of three valid lines, classified as kinds
   * `k1`, `k2`, `k3` leaving flags `f1`, `f2`, `f3`, built up line by line
   * as `t1`, `t2`, `t3`.
   */
  lemma FileOfThree(bytes: seq<byte>, a: seq<byte>, b: seq<byte>, c: seq<byte>,
                    k1: Kind, k2: Kind, k3: Kind, f1: bool, f2: bool, f3: bool,
                    t1: Tally, t2: Tally, t3: Tally, single: Option<seq<byte>>, multi: Option<Delimiters>)
    requires WellFormed(single, multi)
    requires Lines(bytes) == [a, b, c] && AllValid([a, b, c])
    requires Classify(a, false, single, multi) == Outcome(k1, f1)
    requires Classify(b, f1, single, multi) == Outcome(k2, f2)
    requires Classify(c, f2, single, multi) == Outcome(k3, f3)
    requires t1 == Tick(k1) && t2 == Add(t1, Tick(k2)) && t3 == Add(t2, Tick(k3))
    ensures CountNormalSpec(Mapped(bytes), single, multi) == t3
  {
    var e: seq<seq<byte>> := [];
    AddZero(Tick(k1));
    RunStep(e, a, Zero, false, k1, f1, single, multi);
    RunStep(e + [a], b, t1, f1, k2, f2, single, multi);
    RunStep(e + [a] + [b], c, t2, f2, k3, f3, single, multi);
    Display3(e, a, b, c);
  }

  /**
   * The count of a readable file of six valid lines, classified as kinds
   * `k1`, ..., `k6` leaving flags `f1`, ..., `f6`, built up line by line as
   * `t1`, ..., `t6`.
   */
  lemma FileOfSix(bytes: seq<byte>, l1: seq<byte>, l2: seq<byte>, l3: seq<byte>, l4: seq<byte>, l5: seq<byte>, l6: seq<byte>,
                  k1: Kind, k2: Kind, k3: Kind, k4: Kind, k5: Kind, k6: Kind,
                  f1: bool, f2: bool, f3: bool, f4: bool, f5: bool, f6: bool,
                  t1: Tally, t2: Tally, t3: Tally, t4: Tally, t5: Tally, t6: Tally,
                  single: Option<seq<byte>>, multi: Option<Delimiters>)
    requires WellFormed(single, multi)
    requires Lines(bytes) == [l1, l2, l3, l4, l5, l6] && AllValid([l1, l2, l3, l4, l5, l6])
    requires Classify(l1, false, single, multi) == Outcome(k1, f1)
    requires Classify(l2, f1, single, multi) == Outcome(k2, f2)
    requires Classify(l3, f2, single, multi) == Outcome(k3, f3)
    requires Classify(l4, f3, single, multi) == Outcome(k4, f4)
    requires Classify(l5, f4, single, multi) == Outcome(k5, f5)
    requires Classify(l6, f5, single, multi) == Outcome(k6, f6)
    requires t1 == Tick(k1) && t2 == Add(t1, Tick(k2)) && t3 == Add(t2, Tick(k3))
    requires t4 == Add(t3, Tick(k4)) && t5 == Add(t4, Tick(k5)) && t6 == Add(t5, Tick(k6))
    ensures CountNormalSpec(Mapped(bytes), single, multi) == t6
  {
    var e: seq<seq<byte>> := [];
    AddZero(Tick(k1));
    RunStep(e, l1, Zero, false, k1, f1, single, multi);
    RunStep(e + [l1], l2, t1, f1, k2, f2, single, multi);
    RunStep(e + [l1] + [l2], l3, t2, f2, k3, f3, single, multi);
    RunStep(e + [l1] + [l2] + [l3], l4, t3, f3, k4, f4, single, multi);
    RunStep(e + [l1] + [l2] + [l3] + [l4], l5, t4, f4, k5, f5, single, multi);
    RunStep(e + [l1] + [l2] + [l3] + [l4] + [l5], l6, t5, f5, k6, f6, single, multi);
    Display6(e, l1, l2, l3, l4, l5, l6);
  }
}
