/** The stable descending sort both the retriever (`sorted(..., reverse=True)`) and the
    reranker (`list.sort(..., reverse=True)`) rely on, stated over positions: sorting `keys`
    yields the positions `0..|keys|-1` in non-increasing key order, equal keys keeping their
    original relative order. */
module Sorting {

  /** Position `p` comes before position `q` in a stable descending sort of `keys`. */
  predicate Before(keys: seq<real>, p: nat, q: nat) {
    p < |keys| && q < |keys| && (keys[p] > keys[q] || (keys[p] == keys[q] && p < q))
  }

  /** `order` lists positions of `keys`, each consecutive pair in stable descending order. */
  predicate SortedBy(keys: seq<real>, order: seq<nat>) {
    && (forall i :: 0 <= i < |order| ==> order[i] < |keys|)
    && (forall i, j :: 0 <= i < j < |order| ==> Before(keys, order[i], order[j]))
  }

  /** `order` holds every position `0..n-1` and nothing else. */
  predicate CoversRange(order: seq<nat>, n: nat) {
    && |order| == n
    && (forall i :: 0 <= i < |order| ==> order[i] < n)
    && (forall x: nat :: x < n ==> x in order)
  }

  /** Insert position `p`, larger than every position already placed, after every position
      whose key is at least as large. */
  function Insert(keys: seq<real>, order: seq<nat>, p: nat): (r: seq<nat>)
    requires p < |keys|
    requires SortedBy(keys, order)
    requires forall i :: 0 <= i < |order| ==> order[i] < p
    ensures |r| == |order| + 1
    ensures forall x :: x in r <==> x in order || x == p
    ensures SortedBy(keys, r)
  {
    if order == [] then [p]
    else if keys[order[0]] < keys[p] then
      assert forall j :: 0 <= j < |order| ==> keys[order[j]] <= keys[order[0]] by {
        forall j | 0 < j < |order| ensures keys[order[j]] <= keys[order[0]] {
          assert Before(keys, order[0], order[j]);
        }
      }
      [p] + order
    else
      var rest := Insert(keys, order[1..], p);
      assert forall x :: x in order[1..] ==> Before(keys, order[0], x) by {
        forall x | x in order[1..] ensures Before(keys, order[0], x) {
          var j :| 0 <= j < |order[1..]| && order[1..][j] == x;
          assert order[j + 1] == x;
        }
      }
      var r := [order[0]] + rest;
      assert forall j :: 0 < j < |r| ==> Before(keys, order[0], r[j]) by {
        forall j | 0 < j < |r| ensures Before(keys, order[0], r[j]) {
          assert r[j] == rest[j - 1];
          assert rest[j - 1] in rest;
        }
      }
      r
  }

  /** The first `m` positions, sorted. */
  function SortPrefix(keys: seq<real>, m: nat): (r: seq<nat>)
    requires m <= |keys|
    ensures SortedBy(keys, r)
    ensures CoversRange(r, m)
  {
    if m == 0 then []
    else
      var prev := SortPrefix(keys, m - 1);
      var r := Insert(keys, prev, m - 1);
      assert forall x: nat :: x < m ==> x in r by {
        forall x: nat | x < m ensures x in r {
          if x < m - 1 {
            assert x in prev;
          }
        }
      }
      assert forall i :: 0 <= i < |r| ==> r[i] < m by {
        forall i | 0 <= i < |r| ensures r[i] < m {
          assert r[i] in r;
        }
      }
      r
  }

  /** The positions of `keys` in stable descending key order. */
  function SortDesc(keys: seq<real>): (order: seq<nat>)
    ensures SortedBy(keys, order)
    ensures CoversRange(order, |keys|)
  {
    SortPrefix(keys, |keys|)
  }

  /** A stably sorted list never repeats a position. */
  lemma SortedDistinct(keys: seq<real>, order: seq<nat>)
    requires SortedBy(keys, order)
    ensures forall i, j :: 0 <= i < j < |order| ==> order[i] != order[j]
  {
    forall i, j | 0 <= i < j < |order| ensures order[i] != order[j] {
      assert Before(keys, order[i], order[j]);
    }
  }

  /** Keys read along a sorted list never increase. */
  lemma SortedNonIncreasing(keys: seq<real>, order: seq<nat>)
    requires SortedBy(keys, order)
    ensures forall i, j :: 0 <= i < j < |order| ==> keys[order[i]] >= keys[order[j]]
  {
    forall i, j | 0 <= i < j < |order| ensures keys[order[i]] >= keys[order[j]] {
      assert Before(keys, order[i], order[j]);
    }
  }

  /** Equal keys stay in their original relative order. */
  lemma SortedStable(keys: seq<real>, order: seq<nat>)
    requires SortedBy(keys, order)
    ensures forall i, j :: 0 <= i < j < |order| && keys[order[i]] == keys[order[j]] ==> order[i] < order[j]
  {
    forall i, j | 0 <= i < j < |order| && keys[order[i]] == keys[order[j]] ensures order[i] < order[j] {
      assert Before(keys, order[i], order[j]);
    }
  }

  /** Cutting a full sorted list after `k` entries is a top-k selection: no position left out
      has a strictly larger key than one kept. */
  lemma SortedTopK(keys: seq<real>, order: seq<nat>, k: nat)
    requires SortedBy(keys, order) && CoversRange(order, |keys|)
    ensures forall i, x: nat :: 0 <= i < k && i < |order| && x < |keys| && x !in order[..if k < |order| then k else |order|]
              ==> keys[x] <= keys[order[i]]
  {
    var m := if k < |order| then k else |order|;
    forall i, x: nat | 0 <= i < k && i < |order| && x < |keys| && x !in order[..m]
      ensures keys[x] <= keys[order[i]]
    {
      assert x in order;
      var j :| 0 <= j < |order| && order[j] == x;
      assert i < j;
      assert Before(keys, order[i], order[j]);
    }
  }
}
