/** Slicing facts used by the loops that build a sequence one element at a
    time. Stated once for any element type so that the loops do not have to
    re-derive them over their own, larger element types. */
module Sequences {
  lemma PrefixSnoc<T>(s: seq<T>, i: nat)
    requires i < |s|
    ensures s[..i + 1] == s[..i] + [s[i]]
  {
  }

  lemma PrefixOfPrefix<T>(s: seq<T>, i: nat)
    requires i < |s|
    ensures s[..i + 1][..i] == s[..i]
  {
  }

  lemma PrefixWhole<T>(s: seq<T>)
    ensures s[..|s|] == s
  {
  }

  /** Rewriting a head-and-rest equation: from `x == h + y`, `y == z + t`
      and `w == h + z` follows `x == w + t`. */
  lemma HeadChain<T>(x: seq<T>, y: seq<T>, z: seq<T>, w: seq<T>, h: seq<T>, t: seq<T>)
    requires x == h + y && y == z + t && w == h + z
    ensures x == w + t
  {
    assert h + (z + t) == (h + z) + t;
  }
}
