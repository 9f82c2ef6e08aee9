/**
 * Small vocabulary shared by the whole model: an optional value, bytes,
 * and the prefix / substring / search operations that `str` and `[u8]`
 * offer in the original program.
 */
module Text {

  datatype Option<+T> = None | Some(value: T)

  /** One byte of a file, as `u8`. */
  newtype byte = x: int | 0 <= x < 256

  /** The newline byte `b'\n'` that lines are split on. */
  const NL: byte := 10

  /** `s.starts_with(t)`. */
  predicate StartsWith<T(==)>(s: seq<T>, t: seq<T>) {
    |t| <= |s| && s[..|t|] == t
  }

  /** `t` occurs in `s` at offset `i`. */
  predicate OccursAt<T(==)>(s: seq<T>, t: seq<T>, i: nat) {
    i + |t| <= |s| && s[i..i + |t|] == t
  }

  /** `s.contains(t)`: `t` occurs somewhere in `s`. */
  predicate Contains<T(==)>(s: seq<T>, t: seq<T>) {
    exists i :: 0 <= i <= |s| && OccursAt(s, t, i)
  }

  /** A text whose first element does not occur in `s` does not occur in `s`. */
  lemma FirstMissingNotContained<T>(s: seq<T>, t: seq<T>)
    requires t != [] && t[0] !in s
    ensures !Contains(s, t)
  {
    forall i | 0 <= i <= |s|
      ensures !OccursAt(s, t, i)
    {
      if i + |t| <= |s| {
        assert s[i..i + |t|][0] == s[i] != t[0];
      }
    }
  }

  /**
   * Index of the first occurrence of `x` in `s`: what `fastchr(b'\n', s)`
   * returns when searching for the newline.
   */
  function IndexOf<T(==)>(s: seq<T>, x: T): (r: Option<nat>)
    ensures r.None? <==> x !in s
    ensures r.Some? ==> r.value < |s| && s[r.value] == x && x !in s[..r.value]
    decreases |s|
  {
    if s == [] then None
    else if s[0] == x then Some(0)
    else match IndexOf(s[1..], x)
      case None => None
      case Some(n) =>
        assert s[1..][..n] == s[1..n + 1];
        Some(n + 1)
  }

  /** The first occurrence of `x` is where `IndexOf` finds it. */
  lemma {:induction false} IndexOfFirst<T>(s: seq<T>, x: T, i: nat)
    requires i < |s| && s[i] == x && x !in s[..i]
    ensures IndexOf(s, x) == Some(i)
    decreases i
  {
    if i > 0 {
      assert s[..i][0] == s[0];
      var t := s[1..][..i - 1];
      forall j | 0 <= j < |t|
        ensures t[j] != x
      {
        assert t[j] == s[..i][j + 1];
      }
      IndexOfFirst(s[1..], x, i - 1);
    }
  }

  function Min(a: int, b: int): int { if a <= b then a else b }

  function Max(a: int, b: int): int { if a >= b then a else b }
}
