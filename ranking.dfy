/**
 * Ranking of stored rows by similarity key, best first, ties broken by
 * insertion order (a stable descending sort), and the two search strategies
 * of the reference store: the brute-force sort-and-truncate and the
 * accelerated exhaustive k-nearest-neighbour scan selected by `use_faiss`.
 * Rows are named by their index into `keys`.
 */
module Ranking {
  import opened VectorTypes

  /** Row i ranks ahead of row j: higher key, or equal key and inserted earlier. */
  predicate Before(keys: seq<real>, i: nat, j: nat)
  {
    i < |keys| && j < |keys| && (keys[i] > keys[j] || (keys[i] == keys[j] && i < j))
  }

  /** Every index names a row. */
  predicate InRange(keys: seq<real>, r: seq<nat>)
  {
    forall t :: 0 <= t < |r| ==> r[t] < |keys|
  }

  /** Strictly ranked, best first; this also makes the indices distinct. */
  predicate Ranked(keys: seq<real>, r: seq<nat>)
  {
    forall s, t :: 0 <= s < t < |r| ==> Before(keys, r[s], r[t])
  }

  /**
   * What a top-k search promises: min(k, n) distinct rows, best first, and no
   * row left out ranks ahead of a row returned.
   */
  ghost predicate IsTopK(keys: seq<real>, k: nat, r: seq<nat>)
  {
    && |r| == Min(k, |keys|)
    && InRange(keys, r)
    && Ranked(keys, r)
    && forall i, t :: 0 <= i < |keys| && i !in r && 0 <= t < |r| ==> Before(keys, r[t], i)
  }

  /** Inserts row x into a ranked list at its place. */
  function Insert(keys: seq<real>, x: nat, l: seq<nat>): (r: seq<nat>)
    ensures |r| == |l| + 1
    ensures forall y: nat :: y in r <==> y in l || y == x
  {
    if l == [] then [x]
    else if Before(keys, x, l[0]) then [x] + l
    else [l[0]] + Insert(keys, x, l[1..])
  }

  /** Rows 0 .. m-1 sorted best first (insertion sort; Python's stable `sorted`). */
  function Rank(keys: seq<real>, m: nat): (r: seq<nat>)
    ensures |r| == m
    ensures forall y: nat :: y in r <==> y < m
  {
    if m == 0 then [] else Insert(keys, m - 1, Rank(keys, m - 1))
  }

  /** The brute-force strategy: sort every row, keep the first k. */
  function TopK(keys: seq<real>, k: nat): (r: seq<nat>)
    ensures IsTopK(keys, k, r)
  {
    PrefixOfRankIsTopK(keys, k);
    Rank(keys, |keys|)[..Min(k, |keys|)]
  }

  lemma PrefixOfRankIsTopK(keys: seq<real>, k: nat)
    ensures IsTopK(keys, k, Rank(keys, |keys|)[..Min(k, |keys|)])
  {
    RankIsRanked(keys, |keys|);
    PrefixOfRankingIsTopK(keys, k, Rank(keys, |keys|));
  }

  /** The first k rows of a ranking of all rows meet the top-k promise. */
  lemma PrefixOfRankingIsTopK(keys: seq<real>, k: nat, all: seq<nat>)
    requires |all| == |keys| && forall y: nat :: y in all <==> y < |keys|
    requires InRange(keys, all) && Ranked(keys, all)
    ensures IsTopK(keys, k, all[..Min(k, |keys|)])
  {
    var m := Min(k, |keys|);
    var r := all[..m];
    forall i, t | 0 <= i < |keys| && i !in r && 0 <= t < |r| ensures Before(keys, r[t], i) {
      assert i in all;
      assert all == r + all[m..];
      assert i in all[m..];
      var q :| 0 <= q < |all| - m && all[m..][q] == i;
      assert all[m + q] == i;
      assert r[t] == all[t];
    }
  }

  lemma BeforeTransitive(keys: seq<real>, a: nat, b: nat, c: nat)
    requires Before(keys, a, b) && Before(keys, b, c)
    ensures Before(keys, a, c)
  {
  }

  lemma {:induction false} InsertRanked(keys: seq<real>, x: nat, r: seq<nat>)
    requires x < |keys| && InRange(keys, r) && Ranked(keys, r) && x !in r
    ensures |Insert(keys, x, r)| == |r| + 1
    ensures forall y :: y in Insert(keys, x, r) <==> y in r || y == x
    ensures InRange(keys, Insert(keys, x, r))
    ensures Ranked(keys, Insert(keys, x, r))
  {
    if r == [] {
    } else if Before(keys, x, r[0]) {
      var l := [x] + r;
      forall s, t | 0 <= s < t < |l| ensures Before(keys, l[s], l[t]) {
        if s == 0 && t > 1 {
          BeforeTransitive(keys, x, r[0], r[t - 1]);
        }
      }
    } else {
      var tail := r[1..];
      assert Ranked(keys, tail) by {
        forall s, t | 0 <= s < t < |tail| ensures Before(keys, tail[s], tail[t]) {
          assert tail[s] == r[s + 1] && tail[t] == r[t + 1];
        }
      }
      InsertRanked(keys, x, tail);
      var rest := Insert(keys, x, tail);
      assert forall y :: y in r <==> y == r[0] || y in tail by {
        assert r == [r[0]] + tail;
      }
      var l := [r[0]] + rest;
      assert Before(keys, r[0], x) by {
        assert x != r[0];
      }
      forall y | y in rest ensures Before(keys, r[0], y) {
        if y != x {
          var u :| 0 <= u < |tail| && tail[u] == y;
          assert r[u + 1] == y;
        }
      }
      forall s, t | 0 <= s < t < |l| ensures Before(keys, l[s], l[t]) {
        if s == 0 {
          assert l[t] == rest[t - 1];
          assert l[t] in rest;
        } else {
          assert l[s] == rest[s - 1] && l[t] == rest[t - 1];
        }
      }
    }
  }

  /** Rank(keys, m) is strictly ranked, best first. */
  lemma {:induction false} RankIsRanked(keys: seq<real>, m: nat)
    requires m <= |keys|
    ensures InRange(keys, Rank(keys, m))
    ensures Ranked(keys, Rank(keys, m))
  {
    if m > 0 {
      RankIsRanked(keys, m - 1);
      InsertRanked(keys, m - 1, Rank(keys, m - 1));
    }
  }

  /**
   * Any two results that meet the top-k promise are the same list: whichever
   * strategy produces them, conforming searches agree row for row.
   */
  lemma {:induction false} TopKUnique(keys: seq<real>, k: nat, r1: seq<nat>, r2: seq<nat>)
    requires IsTopK(keys, k, r1) && IsTopK(keys, k, r2)
    ensures r1 == r2
  {
    var t := 0;
    while t < |r1|
      invariant t <= |r1|
      invariant forall u :: 0 <= u < t ==> r1[u] == r2[u]
    {
      TopKAgreeAt(keys, k, r1, r2, t);
      t := t + 1;
    }
  }

  lemma TopKAgreeAt(keys: seq<real>, k: nat, r1: seq<nat>, r2: seq<nat>, t: nat)
    requires IsTopK(keys, k, r1) && IsTopK(keys, k, r2)
    requires t < |r1|
    requires forall u :: 0 <= u < t ==> r1[u] == r2[u]
    ensures r1[t] == r2[t]
  {
    FirstDifferenceNotAhead(keys, k, r1, r2, t);
    FirstDifferenceNotAhead(keys, k, r2, r1, t);
  }

  /** Where two top-k results first differ, neither row ranks ahead of the other. */
  lemma FirstDifferenceNotAhead(keys: seq<real>, k: nat, r1: seq<nat>, r2: seq<nat>, t: nat)
    requires IsTopK(keys, k, r1) && IsTopK(keys, k, r2)
    requires t < |r1|
    requires forall u :: 0 <= u < t ==> r1[u] == r2[u]
    ensures !Before(keys, r1[t], r2[t])
  {
    var a := r1[t];
    forall u | 0 <= u < t ensures r2[u] != a {
      assert r1[u] == r2[u];
      assert Before(keys, r1[u], r1[t]);
    }
    if a in r2 {
      var u :| 0 <= u < |r2| && r2[u] == a;
      if u != t {
        assert Before(keys, r2[t], r2[u]);
      }
    } else {
      assert Before(keys, r2[t], a);
    }
  }

  /**
   * The accelerated strategy: one pass over the rows keeping a buffer of the
   * best min(k, rows seen) rows, as an exhaustive k-nearest-neighbour search
   * does. It returns exactly what the brute-force strategy returns.
   */
  method ScanTopK(keys: seq<real>, k: nat) returns (r: seq<nat>)
    ensures r == TopK(keys, k)
    ensures IsTopK(keys, k, r)
  {
    var n := |keys|;
    var m := Min(k, n);
    r := [];
    var j := 0;
    while j < n
      invariant j <= n
      invariant r == Rank(keys, j)[..Min(k, j)]
    {
      InsertIntoPrefix(keys, j, Rank(keys, j), Min(k, j));
      assert Rank(keys, j + 1) == Insert(keys, j, Rank(keys, j));
      if j < k {
        assert Rank(keys, j)[..j] == Rank(keys, j);
      }
      r := Insert(keys, j, r);
      if |r| > m {
        r := r[..m];
      }
      j := j + 1;
    }
  }

  /** Inserting into the best p rows and keeping p agrees with inserting into all rows. */
  lemma {:induction false} InsertIntoPrefix(keys: seq<real>, x: nat, l: seq<nat>, p: nat)
    requires p <= |l|
    ensures Insert(keys, x, l[..p])[..p] == Insert(keys, x, l)[..p]
  {
    if p == 0 {
    } else if Before(keys, x, l[0]) {
      assert l[..p][0] == l[0];
      assert ([x] + l[..p])[..p] == [x] + l[..p - 1] == ([x] + l)[..p];
    } else {
      InsertIntoPrefix(keys, x, l[1..], p - 1);
      assert l[..p][0] == l[0];
      assert l[..p][1..] == l[1..][..p - 1];
      var short := Insert(keys, x, l[1..][..p - 1]);
      var long := Insert(keys, x, l[1..]);
      assert ([l[0]] + short)[..p] == [l[0]] + short[..p - 1];
      assert ([l[0]] + long)[..p] == [l[0]] + long[..p - 1];
    }
  }
}
