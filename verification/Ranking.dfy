/** Stable ranking: what sorting with a stable sort and a lexicographic comparison yields. */
module Ranking {

  /** Smaller is better, earlier components decide first. */
  datatype Key = Key(first: real, second: real, third: real)

  predicate Less(a: Key, b: Key) {
    if a.first != b.first then a.first < b.first
    else if a.second != b.second then a.second < b.second
    else a.third < b.third
  }

  /** Index x comes before index y: it has the better key, or an equal one and stood earlier. */
  predicate Before(keys: seq<Key>, x: nat, y: nat)
    requires x < |keys| && y < |keys|
  {
    Less(keys[x], keys[y]) || (!Less(keys[y], keys[x]) && x < y)
  }

  predicate Indices(p: seq<nat>, n: nat) {
    forall i | 0 <= i < |p| :: p[i] < n
  }

  /** A list of indices in which every earlier one comes before every later one. */
  ghost predicate Ordered(keys: seq<Key>, p: seq<nat>) {
    Indices(p, |keys|) && forall i, j | 0 <= i < j < |p| :: Before(keys, p[i], p[j])
  }

  /** The positions of all keys, best first, ties in their original order. */
  ghost predicate IsStableRanking(keys: seq<Key>, p: seq<nat>) {
    Ordered(keys, p) && |p| == |keys| && forall x: nat | x < |keys| :: x in p
  }

  /** Insert an index behind everything it is not strictly better than. */
  function Insert(keys: seq<Key>, p: seq<nat>, x: nat): (r: seq<nat>)
    requires x < |keys| && Indices(p, |keys|)
    ensures |r| == |p| + 1 && Indices(r, |keys|)
    ensures forall y :: y in r <==> y in p || y == x
  {
    if p == [] then [x]
    else
      var last := p[|p| - 1];
      assert p == p[..|p| - 1] + [last];
      if Less(keys[x], keys[last]) then Insert(keys, p[..|p| - 1], x) + [last] else p + [x]
  }

  /** The ranking of the first n keys. */
  function Rank(keys: seq<Key>, n: nat): (r: seq<nat>)
    requires n <= |keys|
    ensures |r| == n && Indices(r, n) && forall y: nat :: y in r <==> y < n
  {
    if n == 0 then []
    else
      var r := Insert(keys, Rank(keys, n - 1), n - 1);
      assert forall i | 0 <= i < |r| :: r[i] in r;
      r
  }

  lemma {:induction false} InsertOrdered(keys: seq<Key>, p: seq<nat>, x: nat)
    requires Ordered(keys, p) && x < |keys| && Indices(p, x)
    ensures Ordered(keys, Insert(keys, p, x))
  {
    if p != [] && Less(keys[x], keys[p[|p| - 1]]) {
      var rest, last := p[..|p| - 1], p[|p| - 1];
      InsertOrdered(keys, rest, x);
      var r := Insert(keys, rest, x);
      forall i | 0 <= i < |r| ensures Before(keys, r[i], last) {
        assert r[i] in r;
        if r[i] != x {
          assert r[i] in rest;
        }
      }
    } else if p != [] {
      forall i | 0 <= i < |p| ensures Before(keys, p[i], x) {
        assert p[i] in p;
        if i < |p| - 1 {
          assert Before(keys, p[i], p[|p| - 1]);
        }
      }
    }
  }

  lemma {:induction false} RankOrdered(keys: seq<Key>, n: nat)
    requires n <= |keys|
    ensures Ordered(keys, Rank(keys, n))
  {
    if n != 0 {
      RankOrdered(keys, n - 1);
      InsertOrdered(keys, Rank(keys, n - 1), n - 1);
    }
  }

  lemma RankIsStable(keys: seq<Key>)
    ensures IsStableRanking(keys, Rank(keys, |keys|))
  {
    RankOrdered(keys, |keys|);
  }

  /** There is only one: whichever stable sort is used, it yields this ranking. */
  lemma {:induction false} StableRankingUnique(keys: seq<Key>, p: seq<nat>, q: seq<nat>, k: nat)
    requires IsStableRanking(keys, p) && IsStableRanking(keys, q) && k <= |keys|
    ensures p[..k] == q[..k]
  {
    if k != 0 {
      StableRankingUnique(keys, p, q, k - 1);
      if p[k - 1] != q[k - 1] {
        var x, y := p[k - 1], q[k - 1];
        assert x in p && y in q;
        if Before(keys, x, y) {
          NotLater(keys, p, q, k - 1);
        } else {
          NotLater(keys, q, p, k - 1);
        }
        assert false;
      }
    }
  }

  lemma NotLater(keys: seq<Key>, p: seq<nat>, q: seq<nat>, k: nat)
    requires IsStableRanking(keys, p) && IsStableRanking(keys, q) && k < |keys|
    requires p[..k] == q[..k] && p[k] in p && q[k] in q
    ensures !Before(keys, p[k], q[k])
  {
    var x := p[k];
    assert x in q;
    forall j | 0 <= j < k ensures q[j] != x {
      assert q[j] == q[..k][j] == p[..k][j] == p[j];
      assert Before(keys, p[j], p[k]);
    }
    var j :| 0 <= j < |q| && q[j] == x;
    if k < j {
      assert Before(keys, q[k], q[j]);
    }
  }
}
