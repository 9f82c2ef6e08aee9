/**
 * The parts of Rust's `str` that the line counter relies on, stated over
 * the raw bytes of a line: `std::str::from_utf8` (well-formed UTF-8),
 * `str::is_char_boundary`, `char::is_whitespace` and `str::trim`.
 */
module Utf8 {
  import opened Text

  /** A UTF-8 continuation byte `10xxxxxx`. */
  predicate IsContinuation(b: byte) {
    0x80 <= b <= 0xBF
  }

  /**
   * Length of the well-formed UTF-8 encoding of one scalar value at the
   * start of `s` (the table of well-formed byte sequences of the Unicode
   * standard, which `from_utf8` enforces: no overlong forms, no surrogates,
   * nothing above U+10FFFF), or 0 when `s` does not start with one.
   */
  function CharLen(s: seq<byte>): (k: nat)
    ensures k <= 4 && k <= |s|
    ensures k > 0 ==> forall j :: 1 <= j < k ==> IsContinuation(s[j])
    ensures k > 0 ==> !IsContinuation(s[0])
  {
    if |s| == 0 then 0
    else
      var b := s[0];
      if b < 0x80 then 1
      else if 0xC2 <= b <= 0xDF then
        if |s| >= 2 && IsContinuation(s[1]) then 2 else 0
      else if 0xE0 <= b <= 0xEF then
        var lo: byte := if b == 0xE0 then 0xA0 else 0x80;
        var hi: byte := if b == 0xED then 0x9F else 0xBF;
        if |s| >= 3 && lo <= s[1] <= hi && IsContinuation(s[2]) then 3 else 0
      else if 0xF0 <= b <= 0xF4 then
        var lo: byte := if b == 0xF0 then 0x90 else 0x80;
        var hi: byte := if b == 0xF4 then 0x8F else 0xBF;
        if |s| >= 4 && lo <= s[1] <= hi && IsContinuation(s[2]) && IsContinuation(s[3]) then 4 else 0
      else 0
  }

  /** `std::str::from_utf8(s).is_ok()`. */
  predicate ValidUtf8(s: seq<byte>)
    ensures ValidUtf8(s) && s != [] ==> !IsContinuation(s[0])
    ensures ValidUtf8(s) && s != [] ==> s[|s| - 1] < 0x80 || IsContinuation(s[|s| - 1])
    decreases |s|
  {
    s == [] || (CharLen(s) > 0 && ValidUtf8(s[CharLen(s)..]))
  }

  /** The scalar value encoded by `c`, one well-formed character. */
  function CodePoint(c: seq<byte>): int
    requires 1 <= |c| <= 4 && CharLen(c) == |c|
  {
    if |c| == 1 then c[0] as int
    else if |c| == 2 then (c[0] as int - 0xC0) * 0x40 + (c[1] as int - 0x80)
    else if |c| == 3 then
      (c[0] as int - 0xE0) * 0x1000 + (c[1] as int - 0x80) * 0x40 + (c[2] as int - 0x80)
    else
      (c[0] as int - 0xF0) * 0x40000 + (c[1] as int - 0x80) * 0x1000
        + (c[2] as int - 0x80) * 0x40 + (c[3] as int - 0x80)
  }

  /** The Unicode White_Space property, which `char::is_whitespace` tests. */
  predicate IsWhiteSpace(cp: int) {
    (9 <= cp <= 13) || cp == 0x20 || cp == 0x85 || cp == 0xA0 || cp == 0x1680
    || (0x2000 <= cp <= 0x200A) || cp == 0x2028 || cp == 0x2029 || cp == 0x202F
    || cp == 0x205F || cp == 0x3000
  }

  /**
   * `char::is_whitespace` of the character in a one-byte slice: that
   * character is ASCII, and the ASCII White_Space characters are tab,
   * line feed, vertical tab, form feed, carriage return and space.
   */
  predicate IsWhitespaceByte(b: byte) {
    b < 0x80 && IsWhiteSpace(b as int)
  }

  /** `str::is_char_boundary(s, i)`. */
  predicate IsCharBoundary(s: seq<byte>, i: nat)
    ensures IsCharBoundary(s, i) ==> i <= |s|
    ensures i < |s| && s[i] < 0x80 ==> IsCharBoundary(s, i)
  {
    i == 0 || i == |s| || (i < |s| && !IsContinuation(s[i]))
  }

  /**
   * `s[i..i + k]` is the UTF-8 encoding of a White_Space character: the
   * table of those encodings, checked byte by byte.
   */
  predicate WhitespaceAt(s: seq<byte>, i: nat, k: nat) {
    i + k <= |s| &&
    ((k == 1 && (9 <= s[i] <= 13 || s[i] == 0x20))
     || (k == 2 && s[i] == 0xC2 && (s[i + 1] == 0x85 || s[i + 1] == 0xA0))
     || (k == 3 && ((s[i] == 0xE1 && s[i + 1] == 0x9A && s[i + 2] == 0x80)
                    || (s[i] == 0xE2 && s[i + 1] == 0x80
                        && (0x80 <= s[i + 2] <= 0x8A || s[i + 2] == 0xA8 || s[i + 2] == 0xA9 || s[i + 2] == 0xAF))
                    || (s[i] == 0xE2 && s[i + 1] == 0x81 && s[i + 2] == 0x9F)
                    || (s[i] == 0xE3 && s[i + 1] == 0x80 && s[i + 2] == 0x80))))
  }

  /** The table lists exactly the well-formed encodings of White_Space characters. */
  lemma WhitespaceTable(c: seq<byte>)
    requires 1 <= |c| <= 4
    ensures WhitespaceAt(c, 0, |c|) <==> CharLen(c) == |c| && IsWhiteSpace(CodePoint(c))
  {
  }

  /** Byte length of the White_Space character that starts at `i`, or 0. */
  function WhitespaceFrom(s: seq<byte>, i: nat): (k: nat)
    ensures k <= 3 && (k > 0 ==> WhitespaceAt(s, i, k))
    ensures k == 0 ==> !WhitespaceAt(s, i, 1) && !WhitespaceAt(s, i, 2) && !WhitespaceAt(s, i, 3)
  {
    if WhitespaceAt(s, i, 1) then 1
    else if WhitespaceAt(s, i, 2) then 2
    else if WhitespaceAt(s, i, 3) then 3
    else 0
  }

  /** Byte length of the White_Space character that ends at `j`, not reaching below `lo`, or 0. */
  function WhitespaceBefore(s: seq<byte>, lo: nat, j: nat): (k: nat)
    requires lo <= j <= |s|
    ensures k <= j - lo && k <= 3 && (k > 0 ==> WhitespaceAt(s, j - k, k))
    ensures k == 0 ==>
      && (1 <= j - lo ==> !WhitespaceAt(s, j - 1, 1))
      && (2 <= j - lo ==> !WhitespaceAt(s, j - 2, 2))
      && (3 <= j - lo ==> !WhitespaceAt(s, j - 3, 3))
  {
    if 1 <= j - lo && WhitespaceAt(s, j - 1, 1) then 1
    else if 2 <= j - lo && WhitespaceAt(s, j - 2, 2) then 2
    else if 3 <= j - lo && WhitespaceAt(s, j - 3, 3) then 3
    else 0
  }

  /** Where `str::trim_start` makes the text begin: past the White_Space from `i` on. */
  function TrimStartFrom(s: seq<byte>, i: nat): (a: nat)
    requires i <= |s|
    ensures i <= a <= |s| && WhitespaceFrom(s, a) == 0
    decreases |s| - i
  {
    var k := WhitespaceFrom(s, i);
    if k == 0 then i else TrimStartFrom(s, i + k)
  }

  /** Where `str::trim_end` makes the text `s[lo..j]` end: before its trailing White_Space. */
  function TrimEndTo(s: seq<byte>, lo: nat, j: nat): (b: nat)
    requires lo <= j <= |s|
    ensures lo <= b <= j && WhitespaceBefore(s, lo, b) == 0
    decreases j
  {
    var k := WhitespaceBefore(s, lo, j);
    if k == 0 then j else TrimEndTo(s, lo, j - k)
  }

  /** Start of the trimmed line within `s`. */
  function TrimStartIndex(s: seq<byte>): (a: nat)
    ensures a <= |s|
  {
    TrimStartFrom(s, 0)
  }

  /** End of the trimmed line within `s`. */
  function TrimEndIndex(s: seq<byte>): (b: nat)
    ensures TrimStartIndex(s) <= b <= |s|
  {
    TrimEndTo(s, TrimStartIndex(s), |s|)
  }

  /**
   * `str::trim`: the line without leading and trailing White_Space, a
   * slice of it that neither starts nor ends with a White_Space character.
   */
  function Trim(s: seq<byte>): (t: seq<byte>)
    ensures TrimStartIndex(s) + |t| <= |s| && t == s[TrimStartIndex(s)..TrimStartIndex(s) + |t|]
    ensures WhitespaceFrom(t, 0) == 0 && WhitespaceBefore(t, 0, |t|) == 0
  {
    var a, b := TrimStartIndex(s), TrimEndIndex(s);
    SliceEdges(s, a, b);
    s[a..b]
  }

  /**
   * `trim` removes only White_Space: every byte that starts a character
   * which is not White_Space lies inside the trimmed part, so neither `  x`
   * nor `é` trims to nothing. In particular every ASCII byte that is not
   * White_Space stays.
   */
  lemma TrimKeepsNonBlank(s: seq<byte>)
    ensures forall j :: 0 <= j < |s| && !IsContinuation(s[j]) && WhitespaceFrom(s, j) == 0 ==>
      TrimStartIndex(s) <= j < TrimStartIndex(s) + |Trim(s)|
    ensures forall j :: 0 <= j < |s| && s[j] < 0x80 && !IsWhitespaceByte(s[j]) ==>
      TrimStartIndex(s) <= j < TrimStartIndex(s) + |Trim(s)|
  {
    TrimStartRemoves(s, 0);
    TrimEndRemoves(s, TrimStartIndex(s), |s|);
    assert |Trim(s)| == TrimEndIndex(s) - TrimStartIndex(s);
    forall j | 0 <= j < |s| && !IsContinuation(s[j]) && WhitespaceFrom(s, j) == 0
      ensures TrimStartIndex(s) <= j < TrimEndIndex(s)
    {
      assert !Removable(s, j);
    }
  }

  /** Trimming valid text leaves valid text. */
  lemma TrimKeepsValid(s: seq<byte>)
    requires ValidUtf8(s)
    ensures ValidUtf8(Trim(s))
  {
    var a := TrimStartIndex(s);
    assert s[0..] == s;
    TrimStartValid(s, 0);
    assert s[a..|s|] == s[a..];
    TrimEndValid(s, a, |s|);
  }

  /**
   * A byte `trim` may remove: the first byte of a White_Space character, or
   * a continuation byte, which cannot start a character.
   */
  predicate Removable(s: seq<byte>, m: nat)
    requires m < |s|
  {
    IsContinuation(s[m]) || WhitespaceFrom(s, m) > 0
  }

  /** Every byte a White_Space pattern covers is removable. */
  lemma WhitespaceRemovable(s: seq<byte>, i: nat, k: nat)
    requires k > 0 && WhitespaceAt(s, i, k)
    ensures forall m :: i <= m < i + k ==> Removable(s, m)
  {
  }

  /** `trim_start` from `i` removes only removable bytes. */
  lemma {:induction false} TrimStartRemoves(s: seq<byte>, i: nat)
    requires i <= |s|
    ensures forall m :: i <= m < TrimStartFrom(s, i) ==> Removable(s, m)
    decreases |s| - i
  {
    var k := WhitespaceFrom(s, i);
    if k > 0 {
      WhitespaceRemovable(s, i, k);
      TrimStartRemoves(s, i + k);
    }
  }

  /** `trim_end` of `s[lo..j]` removes only removable bytes. */
  lemma {:induction false} TrimEndRemoves(s: seq<byte>, lo: nat, j: nat)
    requires lo <= j <= |s|
    ensures forall m :: TrimEndTo(s, lo, j) <= m < j ==> Removable(s, m)
    decreases j
  {
    var k := WhitespaceBefore(s, lo, j);
    if k > 0 {
      WhitespaceRemovable(s, j - k, k);
      TrimEndRemoves(s, lo, j - k);
    }
  }

  /** A White_Space pattern at the front of valid text is one whole character. */
  lemma WhitespaceIsOneChar(u: seq<byte>, k: nat)
    requires k > 0 && WhitespaceAt(u, 0, k)
    ensures CharLen(u) == k
  {
  }

  /** Removing a leading White_Space character keeps text valid. */
  lemma {:induction false} TrimStartValid(s: seq<byte>, i: nat)
    requires i <= |s|
    ensures ValidUtf8(s[i..]) ==> ValidUtf8(s[TrimStartFrom(s, i)..])
    decreases |s| - i
  {
    var k := WhitespaceFrom(s, i);
    if k > 0 && ValidUtf8(s[i..]) {
      var u := s[i..];
      WhitespaceAtInfix(s, i, |s|, 0, k);
      WhitespaceIsOneChar(u, k);
      assert u[k..] == s[i + k..];
      TrimStartValid(s, i + k);
    }
  }

  /** Removing a trailing White_Space character keeps text valid. */
  lemma {:induction false} TrimEndValid(s: seq<byte>, lo: nat, j: nat)
    requires lo <= j <= |s|
    ensures ValidUtf8(s[lo..j]) ==> ValidUtf8(s[lo..TrimEndTo(s, lo, j)])
    decreases j
  {
    var k := WhitespaceBefore(s, lo, j);
    if k > 0 {
      var b := TrimEndTo(s, lo, j - k);
      assert TrimEndTo(s, lo, j) == b;
      WhitespaceLead(s, j - k, k);
      DropTrailing(s, lo, j, k);
      TrimEndValid(s, lo, j - k);
    }
  }

  /** A White_Space pattern starts with a byte that starts a character. */
  lemma WhitespaceLead(s: seq<byte>, i: nat, k: nat)
    requires k > 0 && WhitespaceAt(s, i, k)
    ensures !IsContinuation(s[i])
  {
  }

  /** Cutting `s[lo..j]` before a byte that starts a character keeps it valid. */
  lemma DropTrailing(s: seq<byte>, lo: nat, j: nat, k: nat)
    requires 0 < k && lo + k <= j <= |s| && !IsContinuation(s[j - k])
    ensures ValidUtf8(s[lo..j]) ==> ValidUtf8(s[lo..j - k])
  {
    var p, c := s[lo..j - k], s[j - k..j];
    assert p + c == s[lo..j];
    assert c[0] == s[j - k];
    if ValidUtf8(s[lo..j]) {
      DropLastChar(p, c);
    }
  }

  /**
   * Valid text followed by bytes that start a new character: the text alone
   * is valid, because no character of it can reach into those bytes.
   */
  lemma {:induction false} DropLastChar(p: seq<byte>, c: seq<byte>)
    requires c != [] && !IsContinuation(c[0]) && ValidUtf8(p + c)
    ensures ValidUtf8(p)
    decreases |p|
  {
    if p != [] {
      var x := p + c;
      var k := CharLen(x);
      SameCharLen(x, p, k);
      assert x[k..] == p[k..] + c;
      DropLastChar(p[k..], c);
    }
  }

  /** `CharLen` only looks at the bytes of the character it finds. */
  lemma SameCharLen(x: seq<byte>, p: seq<byte>, k: nat)
    requires k == CharLen(x) && 0 < k <= |p| <= |x| && p == x[..|p|]
    ensures CharLen(p) == k
  {
    assert p[0] == x[0];
    if k >= 2 { assert p[1] == x[1]; }
    if k >= 3 { assert p[2] == x[2]; }
    if k >= 4 { assert p[3] == x[3]; }
  }

  /** A slice whose ends in `s` have no White_Space next to them has none at its own ends. */
  lemma SliceEdges(s: seq<byte>, a: nat, b: nat)
    requires a <= b <= |s| && WhitespaceFrom(s, a) == 0 && WhitespaceBefore(s, a, b) == 0
    ensures WhitespaceFrom(s[a..b], 0) == 0 && WhitespaceBefore(s[a..b], 0, b - a) == 0
  {
    var n := b - a;
    if 1 <= n { WhitespaceAtInfix(s, a, b, 0, 1); WhitespaceAtInfix(s, a, b, n - 1, 1); }
    if 2 <= n { WhitespaceAtInfix(s, a, b, 0, 2); WhitespaceAtInfix(s, a, b, n - 2, 2); }
    if 3 <= n { WhitespaceAtInfix(s, a, b, 0, 3); WhitespaceAtInfix(s, a, b, n - 3, 3); }
  }

  /** White_Space in `s[a..b]` is White_Space of `s` at the shifted position. */
  lemma WhitespaceAtInfix(s: seq<byte>, a: nat, b: nat, i: nat, k: nat)
    requires a <= b <= |s| && i + k <= b - a
    ensures WhitespaceAt(s[a..b], i, k) <==> WhitespaceAt(s, a + i, k)
  {
    var t := s[a..b];
    if k >= 1 { assert t[i] == s[a + i]; }
    if k >= 2 { assert t[i + 1] == s[a + i + 1]; }
    if k >= 3 { assert t[i + 2] == s[a + i + 2]; }
  }

  /** A line made only of ASCII White_Space, such as spaces and tabs, trims to nothing. */
  lemma WhitespaceOnlyTrimsEmpty(s: seq<byte>)
    requires forall i :: 0 <= i < |s| ==> IsWhitespaceByte(s[i])
    ensures Trim(s) == []
  {
    TrimStartWhitespaceOnly(s, 0);
  }

  lemma {:induction false} TrimStartWhitespaceOnly(s: seq<byte>, i: nat)
    requires i <= |s|
    requires forall j :: i <= j < |s| ==> IsWhitespaceByte(s[j])
    ensures TrimStartFrom(s, i) == |s|
    decreases |s| - i
  {
    if i < |s| {
      assert WhitespaceFrom(s, i) == 1;
      TrimStartWhitespaceOnly(s, i + 1);
    }
  }

  /** ASCII text is well-formed UTF-8. */
  lemma {:induction false} AsciiIsValid(s: seq<byte>)
    requires forall i :: 0 <= i < |s| ==> s[i] < 0x80
    ensures ValidUtf8(s)
    decreases |s|
  {
    if s != [] {
      AsciiIsValid(s[1..]);
    }
  }

  /** A line that neither starts nor ends with White_Space is its own trim. */
  lemma TrimKeeps(s: seq<byte>)
    requires WhitespaceFrom(s, 0) == 0 && (s != [] ==> WhitespaceBefore(s, 0, |s|) == 0)
    ensures Trim(s) == s
  {
  }
}
