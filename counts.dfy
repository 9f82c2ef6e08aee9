/**
 * `Count`, the per-file tally of code, blank, comment and total lines, and
 * `Count::merge`, which adds another tally into it field by field.
 */
module Counts {

  /** The value of a `Count`: its four fields. */
  datatype Tally = Tally(code: nat, blank: nat, comments: nat, total: nat)

  /** `Count::default()`. */
  const Zero := Tally(0, 0, 0, 0)

  /** Every line is exactly one of code, blank or comment. */
  predicate Consistent(t: Tally) {
    t.total == t.code + t.blank + t.comments
  }

  /** What `Count::merge` leaves in `self`: the field-wise sum. */
  function Add(a: Tally, b: Tally): Tally {
    Tally(a.code + b.code, a.blank + b.blank, a.comments + b.comments, a.total + b.total)
  }

  /** Two tallies with the same four fields are the same tally. */
  lemma SameFields(a: Tally, b: Tally)
    requires a.code == b.code && a.blank == b.blank && a.comments == b.comments && a.total == b.total
    ensures a == b
  {
  }

  lemma AddZero(a: Tally)
    ensures Add(a, Zero) == a && Add(Zero, a) == a
  {
  }

  lemma AddCommutative(a: Tally, b: Tally)
    ensures Add(a, b) == Add(b, a)
  {
  }

  lemma AddAssociative(a: Tally, b: Tally, c: Tally)
    ensures Add(Add(a, b), c) == Add(a, Add(b, c))
  {
  }

  lemma AddConsistent(a: Tally, b: Tally)
    requires Consistent(a) && Consistent(b)
    ensures Consistent(Add(a, b))
  {
  }

  /** A mutable `Count`, whose fields `merge` and the line counter update in place. */
  class Count {
    var code: nat
    var blank: nat
    var comments: nat
    var total: nat

    function View(): Tally
      reads this
    {
      Tally(code, blank, comments, total)
    }

    /** `Count::default()`. */
    constructor ()
      ensures View() == Zero
    {
      code, blank, comments, total := 0, 0, 0, 0;
    }

    /** `self.merge(count2)`: add every field of `other` into this count. */
    method Merge(other: Count)
      modifies this
      ensures View() == Add(old(View()), old(other.View()))
      ensures other != this ==> other.View() == old(other.View())
    {
      code := code + other.code;
      blank := blank + other.blank;
      comments := comments + other.comments;
      total := total + other.total;
    }
  }
}
