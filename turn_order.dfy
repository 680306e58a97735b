/**
 * The ordering the document store applies to turn queries
 * (`.sort("order", 1)` and `.sort("order", -1)`): turns sorted by their
 * `order` field. Ties keep no particular order in the store; the model
 * breaks them by position.
 */
module TurnOrder {
  import opened Records

  predicate Ascending(s: seq<Turn>) {
    forall i, j :: 0 <= i < j < |s| ==> s[i].order <= s[j].order
  }

  predicate Descending(s: seq<Turn>) {
    forall i, j :: 0 <= i < j < |s| ==> s[i].order >= s[j].order
  }

  function Insert(t: Turn, s: seq<Turn>): (r: seq<Turn>)
    requires Ascending(s)
    ensures Ascending(r)
    ensures multiset(r) == multiset(s) + multiset{t}
    ensures |r| == |s| + 1
    ensures r[0] == t || (s != [] && r[0] == s[0])
  {
    if s == [] || t.order <= s[0].order then
      [t] + s
    else
      assert s == [s[0]] + s[1..];
      [s[0]] + Insert(t, s[1..])
  }

  /** Insertion sort by `order`, ascending. */
  function Sort(s: seq<Turn>): (r: seq<Turn>)
    ensures Ascending(r)
    ensures multiset(r) == multiset(s)
    ensures |r| == |s|
  {
    if s == [] then []
    else
      assert s == [s[0]] + s[1..];
      Insert(s[0], Sort(s[1..]))
  }

  function Reverse(s: seq<Turn>): (r: seq<Turn>)
    ensures |r| == |s|
    ensures forall i :: 0 <= i < |s| ==> r[i] == s[|s| - 1 - i]
  {
    seq(|s|, i requires 0 <= i < |s| => s[|s| - 1 - i])
  }

  lemma {:induction false} ReverseMultiset(s: seq<Turn>)
    ensures multiset(Reverse(s)) == multiset(s)
  {
    if s != [] {
      ReverseMultiset(s[1..]);
      assert Reverse(s) == Reverse(s[1..]) + [s[0]];
      assert s == [s[0]] + s[1..];
    }
  }

  /** Sorting by `order`, descending (`.sort("order", -1)`). */
  function SortDescending(s: seq<Turn>): (r: seq<Turn>)
    ensures Descending(r)
    ensures multiset(r) == multiset(s)
    ensures |r| == |s|
  {
    ReverseMultiset(Sort(s));
    Reverse(Sort(s))
  }
  /** No two turns share an id. */
  predicate DistinctIds(s: seq<Turn>) {
    forall i, j :: 0 <= i < j < |s| ==> s[i].id != s[j].id
  }

  /** Appending a turn whose id is new keeps the ids distinct. */
  lemma DistinctSnoc(s: seq<Turn>, t: Turn)
    requires DistinctIds(s) && forall u :: u in s ==> u.id != t.id
    ensures DistinctIds(s + [t])
  {
  }

  /** A turn that occurs at two positions is counted twice. */
  lemma RepeatCounted(s: seq<Turn>, i: nat, j: nat)
    requires i < j < |s| && s[i] == s[j]
    ensures multiset(s)[s[i]] >= 2
  {
    assert s == s[..j] + [s[j]] + s[j + 1..];
    assert s[..j][i] == s[i];
  }

  /** A turn counted twice occurs at two positions. */
  lemma CountedTwice(s: seq<Turn>, x: Turn) returns (p: nat, q: nat)
    requires multiset(s)[x] >= 2
    ensures p < q < |s| && s[p] == x && s[q] == x
  {
    assert x in multiset(s);
    var k :| 0 <= k < |s| && s[k] == x;
    assert s == s[..k] + [x] + s[k + 1..];
    if x in s[..k] {
      var m :| 0 <= m < k && s[..k][m] == x;
      p, q := m, k;
    } else {
      assert x in multiset(s[k + 1..]);
      var m :| 0 <= m < |s| - k - 1 && s[k + 1..][m] == x;
      p, q := k, k + 1 + m;
    }
  }

  /** Two positions of b that share an id come from two positions of a
      that share it, when b holds no turn more often than a does. */
  lemma SharedIdIn(a: seq<Turn>, b: seq<Turn>, i: nat, j: nat) returns (p: nat, q: nat)
    requires multiset(b) <= multiset(a)
    requires i < j < |b| && b[i].id == b[j].id
    ensures p < q < |a| && a[p].id == a[q].id
  {
    if b[i] == b[j] {
      RepeatCounted(b, i, j);
      p, q := CountedTwice(a, b[i]);
    } else {
      assert b[i] in multiset(a) && b[j] in multiset(a);
      var x :| 0 <= x < |a| && a[x] == b[i];
      var y :| 0 <= y < |a| && a[y] == b[j];
      if x < y { p, q := x, y; } else { p, q := y, x; }
    }
  }

  /** Taking turns from a sequence with distinct ids, each no more often
      than it occurs there (a rearrangement, a prefix, a reversal), keeps
      the ids distinct. */
  lemma SubDistinct(a: seq<Turn>, b: seq<Turn>)
    requires multiset(b) <= multiset(a) && DistinctIds(a)
    ensures DistinctIds(b)
  {
    forall i, j | 0 <= i < j < |b|
      ensures b[i].id != b[j].id
    {
      if b[i].id == b[j].id {
        var p, q := SharedIdIn(a, b, i, j);
        assert false;
      }
    }
  }
}
