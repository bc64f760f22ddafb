/** The hybrid retriever: BM25 hits and dense-embedding hits over the loaded facts are fused
    into one score per fact and the best `k` returned, best first.  The BM25 scorer, its
    `argsort`, and the vector store's reply are oracles handed in as values. */
module Index {
  import opened PyText
  import opened Json
  import opened Models
  import opened Sorting

  /** A query the search puts to one of its two indexes. */
  datatype IndexCall = Bm25Query(tokens: seq<string>) | DenseQuery(query: string, nResults: nat)

  /** A hit: a fact position and its score. */
  type Scored = (nat, real)

  function HitIndices(hs: seq<Scored>): (r: seq<nat>)
    ensures |r| == |hs| && forall i :: 0 <= i < |hs| ==> r[i] == hs[i].0
  {
    seq(|hs|, i requires 0 <= i < |hs| => hs[i].0)
  }

  predicate Distinct<T(==)>(s: seq<T>) {
    forall i, j :: 0 <= i < j < |s| ==> s[i] != s[j]
  }

  // ---------------------------------------------------------------- BM25

  /** `np.argsort(scores)`: all positions, in ascending score order (ties in any order). */
  predicate IsArgsort(scores: seq<real>, argsort: seq<nat>) {
    && CoversRange(argsort, |scores|)
    && Distinct(argsort)
    && forall i, j :: 0 <= i < j < |argsort| ==> scores[argsort[i]] <= scores[argsort[j]]
  }

  function Reverse<T>(s: seq<T>): (r: seq<T>)
    ensures |r| == |s| && forall i :: 0 <= i < |s| ==> r[i] == s[|s| - 1 - i]
  {
    if s == [] then [] else Reverse(s[1..]) + [s[0]]
  }

  /** The positions among `positions` whose score is strictly positive, with their scores. */
  function KeepPositive(scores: seq<real>, positions: seq<nat>): (r: seq<Scored>)
    requires forall i :: 0 <= i < |positions| ==> positions[i] < |scores|
    ensures |r| <= |positions|
    ensures forall i :: 0 <= i < |r| ==> r[i].0 in positions && r[i].1 == scores[r[i].0] && r[i].1 > 0.0
    ensures forall p :: p in positions && scores[p] > 0.0 ==> p in HitIndices(r)
    ensures (forall i :: 0 <= i < |positions| ==> scores[positions[i]] > 0.0) ==> |r| == |positions|
  {
    if positions == [] then []
    else
      var rest := KeepPositive(scores, positions[1..]);
      if scores[positions[0]] > 0.0 then
        KeepPositiveKeeps(scores, positions, rest);
        [(positions[0], scores[positions[0]])] + rest
      else
        KeepPositiveDrops(scores, positions, rest);
        rest
  }

  /** What `KeepPositive` promises, under the names of its parameters. */
  predicate KeptPositive(scores: seq<real>, positions: seq<nat>, r: seq<Scored>)
    requires forall i :: 0 <= i < |positions| ==> positions[i] < |scores|
  {
    && (forall i :: 0 <= i < |r| ==> r[i].0 in positions && r[i].1 == scores[r[i].0] && r[i].1 > 0.0)
    && (forall p :: p in positions && scores[p] > 0.0 ==> p in HitIndices(r))
  }

  lemma KeepPositiveKeeps(scores: seq<real>, positions: seq<nat>, rest: seq<Scored>)
    requires forall i :: 0 <= i < |positions| ==> positions[i] < |scores|
    requires positions != [] && scores[positions[0]] > 0.0
    requires KeptPositive(scores, positions[1..], rest)
    ensures KeptPositive(scores, positions, [(positions[0], scores[positions[0]])] + rest)
  {
    var r := [(positions[0], scores[positions[0]])] + rest;
    assert HitIndices(r) == [positions[0]] + HitIndices(rest);
    assert forall p :: p in positions ==> p == positions[0] || p in positions[1..];
  }

  lemma KeepPositiveDrops(scores: seq<real>, positions: seq<nat>, rest: seq<Scored>)
    requires forall i :: 0 <= i < |positions| ==> positions[i] < |scores|
    requires positions != [] && scores[positions[0]] <= 0.0
    requires KeptPositive(scores, positions[1..], rest)
    ensures KeptPositive(scores, positions, rest)
  {
    assert forall p :: p in positions ==> p == positions[0] || p in positions[1..];
  }

  lemma {:induction false} KeepPositiveDistinct(scores: seq<real>, positions: seq<nat>)
    requires forall i :: 0 <= i < |positions| ==> positions[i] < |scores|
    requires Distinct(positions)
    ensures Distinct(HitIndices(KeepPositive(scores, positions)))
  {
    if positions != [] {
      var tail := positions[1..];
      var rest := KeepPositive(scores, tail);
      KeepPositiveDistinct(scores, tail);
      if scores[positions[0]] > 0.0 {
        var h := (positions[0], scores[positions[0]]);
        assert positions[0] !in tail;
        assert positions[0] !in HitIndices(rest);
        assert HitIndices([h] + rest) == [h.0] + HitIndices(rest);
        ConsDistinct(h.0, HitIndices(rest));
      }
    }
  }

  lemma ConsDistinct<T>(x: T, xs: seq<T>)
    requires Distinct(xs) && x !in xs
    ensures Distinct([x] + xs)
  {
    var s := [x] + xs;
    forall i, j | 0 <= i < j < |s| ensures s[i] != s[j] {
      assert s[j] == xs[j - 1];
      if i > 0 { assert s[i] == xs[i - 1]; }
    }
  }

  /** Scores in non-increasing order. */
  predicate ScoresDescending(r: seq<Scored>) {
    forall i, j :: 0 <= i < j < |r| ==> r[i].1 >= r[j].1
  }

  lemma {:induction false} KeepPositiveSorted(scores: seq<real>, positions: seq<nat>)
    requires forall i :: 0 <= i < |positions| ==> positions[i] < |scores|
    requires forall i, j :: 0 <= i < j < |positions| ==> scores[positions[i]] >= scores[positions[j]]
    ensures ScoresDescending(KeepPositive(scores, positions))
  {
    if positions != [] {
      var tail := positions[1..];
      var rest := KeepPositive(scores, tail);
      KeepPositiveSorted(scores, tail);
      if scores[positions[0]] > 0.0 {
        forall i | 0 <= i < |tail| ensures scores[tail[i]] <= scores[positions[0]] {
          assert tail[i] == positions[i + 1];
        }
        KeepPositiveBelow(scores, tail, scores[positions[0]]);
        ConsDescending((positions[0], scores[positions[0]]), rest);
      }
    }
  }

  /** A bound on the scores of the positions bounds the scores kept. */
  lemma KeepPositiveBelow(scores: seq<real>, positions: seq<nat>, b: real)
    requires forall i :: 0 <= i < |positions| ==> positions[i] < |scores|
    requires forall i :: 0 <= i < |positions| ==> scores[positions[i]] <= b
    ensures forall i :: 0 <= i < |KeepPositive(scores, positions)| ==> KeepPositive(scores, positions)[i].1 <= b
  {
    var r := KeepPositive(scores, positions);
    forall i | 0 <= i < |r| ensures r[i].1 <= b {
      var j :| 0 <= j < |positions| && positions[j] == r[i].0;
    }
  }

  lemma ConsDescending(h: Scored, rest: seq<Scored>)
    requires ScoresDescending(rest)
    requires forall i :: 0 <= i < |rest| ==> rest[i].1 <= h.1
    ensures ScoresDescending([h] + rest)
  {
    var r := [h] + rest;
    forall i, j | 0 <= i < j < |r| ensures r[i].1 >= r[j].1 {
      assert r[j] == rest[j - 1];
      if i > 0 { assert r[i] == rest[i - 1]; }
    }
  }

  /** `_bm25_search`: the `top_k` best positions (reversed argsort), keeping only those with a
      strictly positive score. */
  function Bm25Search(scores: seq<real>, argsort: seq<nat>, topK: nat): (r: seq<Scored>)
    requires IsArgsort(scores, argsort)
    ensures |r| <= topK
    ensures forall i :: 0 <= i < |r| ==> r[i].0 < |scores| && r[i].1 == scores[r[i].0] && r[i].1 > 0.0
  {
    KeepPositive(scores, Take(Reverse(argsort), topK))
  }

  /** The first `top_k` positions of the reversed argsort: distinct, best first, and any
      position not among them is beaten by all of them. */
  lemma ReversedArgsortTop(scores: seq<real>, argsort: seq<nat>, topK: nat, top: seq<nat>)
    requires IsArgsort(scores, argsort)
    requires top == Take(Reverse(argsort), topK)
    ensures forall i :: 0 <= i < |top| ==> top[i] < |scores|
    ensures Distinct(top)
    ensures forall i, j :: 0 <= i < j < |top| ==> scores[top[i]] >= scores[top[j]]
    ensures forall x: nat :: x < |scores| && x !in top ==>
              |top| == topK && forall i :: 0 <= i < topK ==> scores[top[i]] >= scores[x]
  {
    var n := |argsort|;
    assert |top| <= n;
    assert forall i :: 0 <= i < |top| ==> top[i] == argsort[n - 1 - i];
    forall i, j | 0 <= i < j < |top| ensures top[i] != top[j] && scores[top[i]] >= scores[top[j]] {
      assert top[i] == argsort[n - 1 - i] && top[j] == argsort[n - 1 - j];
    }
    forall x: nat | x < |scores| && x !in top
      ensures |top| == topK && forall i :: 0 <= i < topK ==> scores[top[i]] >= scores[x]
    {
      assert x in argsort;
      var a :| 0 <= a < n && argsort[a] == x;
      if n - 1 - a < |top| {
        InPrefix(Reverse(argsort), |top|, n - 1 - a);
        assert false;
      }
      forall i | 0 <= i < |top| ensures scores[top[i]] >= scores[x] {
        assert top[i] == argsort[n - 1 - i];
        assert a < n - 1 - i;
      }
    }
  }

  lemma InPrefix<T>(q: seq<T>, m: nat, j: nat)
    requires j < m <= |q|
    ensures q[j] in q[..m]
  {
    assert q[..m][j] == q[j];
  }

  /** The BM25 hits are distinct, best first, and a genuine top-k: a positive-scoring position
      that is left out means all `top_k` places were taken by positions scoring at least as
      high. */
  lemma Bm25SearchProperties(scores: seq<real>, argsort: seq<nat>, topK: nat)
    requires IsArgsort(scores, argsort)
    ensures Distinct(HitIndices(Bm25Search(scores, argsort, topK)))
    ensures forall i, j :: 0 <= i < j < |Bm25Search(scores, argsort, topK)| ==>
              Bm25Search(scores, argsort, topK)[i].1 >= Bm25Search(scores, argsort, topK)[j].1
    ensures forall x: nat :: x < |scores| && scores[x] > 0.0 && x !in HitIndices(Bm25Search(scores, argsort, topK)) ==>
              |Bm25Search(scores, argsort, topK)| == topK &&
              forall i :: 0 <= i < topK ==> Bm25Search(scores, argsort, topK)[i].1 >= scores[x]
  {
    var top := Take(Reverse(argsort), topK);
    var r := KeepPositive(scores, top);
    ReversedArgsortTop(scores, argsort, topK, top);
    KeepPositiveDistinct(scores, top);
    KeepPositiveSorted(scores, top);
    forall x: nat | x < |scores| && scores[x] > 0.0 && x !in HitIndices(r)
      ensures |r| == topK && forall i :: 0 <= i < topK ==> r[i].1 >= scores[x]
    {
      assert x !in top;
      assert forall i :: 0 <= i < |top| ==> scores[top[i]] > 0.0;
      forall i | 0 <= i < topK ensures r[i].1 >= scores[x] {
        assert r[i].0 in top;
      }
    }
  }

  // ---------------------------------------------------------------- dense

  /** `{fact.id: idx for idx, fact in enumerate(facts)}[id]`: a repeated id maps to its last
      position. */
  function IdToIdx(facts: seq<CanonicalFact>, id: string): (r: Option<nat>)
    ensures r.Some? ==> r.value < |facts| && facts[r.value].id == id
    ensures r.Some? ==> forall j :: r.value < j < |facts| ==> facts[j].id != id
    ensures r.None? <==> forall j :: 0 <= j < |facts| ==> facts[j].id != id
  {
    if facts == [] then None
    else if facts[|facts| - 1].id == id then Some(|facts| - 1)
    else IdToIdx(facts[..|facts| - 1], id)
  }

  /** The dense hits for a vector-store reply of (id, cosine distance) pairs: similarity is
      1 - distance, unclipped; ids that name no loaded fact are dropped. */
  function DenseHits(facts: seq<CanonicalFact>, reply: seq<(string, real)>): (r: seq<Scored>)
    ensures |r| <= |reply|
    ensures forall i :: 0 <= i < |r| ==> r[i].0 < |facts|
  {
    if reply == [] then []
    else
      var rest := DenseHits(facts, reply[1..]);
      match IdToIdx(facts, reply[0].0)
      case Some(idx) => [(idx, 1.0 - reply[0].1)] + rest
      case None => rest
  }

  /** The reply is processed entry by entry, in order. */
  lemma {:induction false} DenseHitsAppend(facts: seq<CanonicalFact>, a: seq<(string, real)>, b: seq<(string, real)>)
    ensures DenseHits(facts, a + b) == DenseHits(facts, a) + DenseHits(facts, b)
  {
    if a != [] {
      assert (a + b)[0] == a[0];
      assert (a + b)[1..] == a[1..] + b;
      DenseHitsAppend(facts, a[1..], b);
    } else {
      assert a + b == b;
    }
  }

  /** One reply entry yields its fact's position with similarity 1 - distance, or nothing. */
  lemma DenseHitsSingle(facts: seq<CanonicalFact>, id: string, distance: real)
    ensures IdToIdx(facts, id).Some? ==> DenseHits(facts, [(id, distance)]) == [(IdToIdx(facts, id).value, 1.0 - distance)]
    ensures IdToIdx(facts, id).None? ==> DenseHits(facts, [(id, distance)]) == []
  {
    assert [(id, distance)][1..] == [];
  }

  /** `_dense_search`: no vector store means no hits. */
  function DenseSearch(facts: seq<CanonicalFact>, collection: Option<seq<(string, real)>>): (r: seq<Scored>)
    ensures collection.None? ==> r == []
    ensures collection.Some? ==> r == DenseHits(facts, collection.value)
    ensures forall i :: 0 <= i < |r| ==> r[i].0 < |facts|
  {
    if collection.None? then [] else DenseHits(facts, collection.value)
  }

  // ---------------------------------------------------------------- normalisation

  function MaxScore(hs: seq<Scored>): (m: real)
    requires hs != []
    ensures forall i :: 0 <= i < |hs| ==> hs[i].1 <= m
  {
    if |hs| == 1 then hs[0].1
    else
      var rest := MaxScore(hs[1..]);
      assert forall i :: 1 <= i < |hs| ==> hs[i] == hs[1..][i - 1];
      if hs[0].1 >= rest then hs[0].1 else rest
  }

  function MinScore(hs: seq<Scored>): (m: real)
    requires hs != []
    ensures forall i :: 0 <= i < |hs| ==> m <= hs[i].1
  {
    if |hs| == 1 then hs[0].1
    else
      var rest := MinScore(hs[1..]);
      assert forall i :: 1 <= i < |hs| ==> hs[i] == hs[1..][i - 1];
      if hs[0].1 <= rest then hs[0].1 else rest
  }

  /** The maximum and the minimum are scores of actual hits. */
  lemma {:induction false} ExtremesAttained(hs: seq<Scored>) returns (iMax: nat, iMin: nat)
    requires hs != []
    ensures iMax < |hs| && hs[iMax].1 == MaxScore(hs)
    ensures iMin < |hs| && hs[iMin].1 == MinScore(hs)
  {
    if |hs| == 1 {
      return 0, 0;
    }
    var a, b := ExtremesAttained(hs[1..]);
    iMax := if hs[0].1 >= MaxScore(hs[1..]) then 0 else a + 1;
    iMin := if hs[0].1 <= MinScore(hs[1..]) then 0 else b + 1;
  }

  /** The divisor of the min-max normalisation: the score range, or 1.0 when all scores are
      equal.  It is never zero. */
  function Bm25Range(mx: real, mn: real): (r: real)
    ensures r > 0.0
    ensures mx > mn ==> r == mx - mn
  {
    if mx > mn then mx - mn else 1.0
  }

  /** `(score - min) / range`, with the fallback 0.5 for a zero range, which cannot occur. */
  function Normalize(score: real, mx: real, mn: real): real {
    var range := Bm25Range(mx, mn);
    if range > 0.0 then (score - mn) / range else 0.5
  }

  /** Normalised values lie in [0, 1]; when the scores differ the maximum maps to 1 and the
      minimum to 0; when they are all equal every value is 0, never 0.5. */
  lemma NormalizeProperties(score: real, mx: real, mn: real)
    requires mn <= score <= mx
    ensures 0.0 <= Normalize(score, mx, mn) <= 1.0
    ensures mx > mn ==> Normalize(mx, mx, mn) == 1.0 && Normalize(mn, mx, mn) == 0.0
    ensures mx == mn ==> Normalize(score, mx, mn) == 0.0
  {
    var range := Bm25Range(mx, mn);
    if mx > mn {
      assert score - mn <= range;
      assert (score - mn) / range <= 1.0;
    }
  }

  /** The BM25 hits with normalised scores. */
  function NormalizedHits(bm25: seq<Scored>): (r: seq<Scored>)
    ensures |r| == |bm25|
    ensures forall i :: 0 <= i < |r| ==> r[i].0 == bm25[i].0 && 0.0 <= r[i].1 <= 1.0
    ensures bm25 != [] ==> forall i :: 0 <= i < |r| ==> r[i].1 == Normalize(bm25[i].1, MaxScore(bm25), MinScore(bm25))
  {
    if bm25 == [] then []
    else
      var mx := MaxScore(bm25);
      var mn := MinScore(bm25);
      NormalizeEach(bm25, mx, mn);
      seq(|bm25|, i requires 0 <= i < |bm25| => (bm25[i].0, Normalize(bm25[i].1, mx, mn)))
  }

  lemma NormalizeEach(bm25: seq<Scored>, mx: real, mn: real)
    requires forall i :: 0 <= i < |bm25| ==> mn <= bm25[i].1 <= mx
    ensures forall i :: 0 <= i < |bm25| ==> 0.0 <= Normalize(bm25[i].1, mx, mn) <= 1.0
  {
    forall i | 0 <= i < |bm25| ensures 0.0 <= Normalize(bm25[i].1, mx, mn) <= 1.0 {
      NormalizeProperties(bm25[i].1, mx, mn);
    }
  }

  // ---------------------------------------------------------------- fusion

  /** Each hit weighted by one half. */
  function Halved(hs: seq<Scored>): (r: seq<Scored>)
    ensures |r| == |hs| && forall i :: 0 <= i < |hs| ==> r[i] == (hs[i].0, 0.5 * hs[i].1)
  {
    seq(|hs|, i requires 0 <= i < |hs| => (hs[i].0, 0.5 * hs[i].1))
  }

  /** The contributions `search` adds into `combined_scores`, in the order it adds them. */
  function Contributions(bm25: seq<Scored>, dense: seq<Scored>): seq<Scored> {
    Halved(NormalizedHits(bm25)) + Halved(dense)
  }

  /** The `combined_scores` dict: its entries, and its keys in insertion order. */
  datatype Combined = Combined(scores: map<nat, real>, keys: seq<nat>)

  /** `combined[idx] = combined.get(idx, 0) + x`. */
  function AddScore(c: Combined, idx: nat, x: real): Combined {
    if idx in c.scores then Combined(c.scores[idx := c.scores[idx] + x], c.keys)
    else Combined(c.scores[idx := 0.0 + x], c.keys + [idx])
  }

  /** The dict after adding `cs` in order, starting empty. */
  function Fuse(cs: seq<Scored>): Combined {
    if cs == [] then Combined(map[], [])
    else AddScore(Fuse(cs[..|cs| - 1]), cs[|cs| - 1].0, cs[|cs| - 1].1)
  }

  /** The total contributed to position `idx`. */
  function SumFor(cs: seq<Scored>, idx: nat): real {
    if cs == [] then 0.0
    else SumFor(cs[..|cs| - 1], idx) + (if cs[|cs| - 1].0 == idx then cs[|cs| - 1].1 else 0.0)
  }

  /** Positions in order of first appearance. */
  function Dedup(s: seq<nat>): seq<nat> {
    if s == [] then []
    else
      var d := Dedup(s[..|s| - 1]);
      if s[|s| - 1] in d then d else d + [s[|s| - 1]]
  }

  ghost predicate WellFormed(c: Combined) {
    && Distinct(c.keys)
    && forall x :: x in c.keys <==> x in c.scores
  }

  /** The dict holds exactly the contributed positions, each with its total, and its keys
      are the positions in order of first contribution. */
  lemma {:induction false} FuseSpec(cs: seq<Scored>)
    ensures WellFormed(Fuse(cs))
    ensures forall x :: x in Fuse(cs).scores <==> x in HitIndices(cs)
    ensures forall x :: x in Fuse(cs).scores ==> Fuse(cs).scores[x] == SumFor(cs, x)
    ensures Fuse(cs).keys == Dedup(HitIndices(cs))
  {
    if cs != [] {
      var init := cs[..|cs| - 1];
      FuseSpec(init);
      assert HitIndices(cs) == HitIndices(init) + [cs[|cs| - 1].0];
      assert HitIndices(cs)[..|cs| - 1] == HitIndices(init);
      DedupMembers(HitIndices(init));
      var c := Fuse(init);
      var idx := cs[|cs| - 1].0;
      if idx !in c.scores {
        assert SumFor(init, idx) == 0.0 by {
          SumForAbsent(init, idx);
        }
      }
    }
  }

  lemma {:induction false} DedupMembers(s: seq<nat>)
    ensures forall x :: x in Dedup(s) <==> x in s
    ensures Distinct(Dedup(s))
  {
    if s != [] {
      DedupMembers(s[..|s| - 1]);
      assert s == s[..|s| - 1] + [s[|s| - 1]];
    }
  }

  lemma {:induction false} SumForAbsent(cs: seq<Scored>, idx: nat)
    requires idx !in HitIndices(cs)
    ensures SumFor(cs, idx) == 0.0
  {
    if cs != [] {
      var init := cs[..|cs| - 1];
      assert HitIndices(cs) == HitIndices(init) + [cs[|cs| - 1].0];
      SumForAbsent(init, idx);
    }
  }

  lemma {:induction false} SumForAppend(a: seq<Scored>, b: seq<Scored>, idx: nat)
    ensures SumFor(a + b, idx) == SumFor(a, idx) + SumFor(b, idx)
  {
    if b != [] {
      assert (a + b)[..|a + b| - 1] == a + b[..|b| - 1];
      SumForAppend(a, b[..|b| - 1], idx);
    } else {
      assert a + b == a;
    }
  }

  lemma {:induction false} SumForHalved(cs: seq<Scored>, idx: nat)
    ensures SumFor(Halved(cs), idx) == 0.5 * SumFor(cs, idx)
  {
    if cs != [] {
      assert Halved(cs)[..|cs| - 1] == Halved(cs[..|cs| - 1]);
      SumForHalved(cs[..|cs| - 1], idx);
    }
  }

  /** A position contributed exactly once receives exactly that contribution. */
  lemma {:induction false} SumForOnce(cs: seq<Scored>, i: nat, idx: nat)
    requires i < |cs| && cs[i].0 == idx
    requires forall j :: 0 <= j < |cs| && j != i ==> cs[j].0 != idx
    ensures SumFor(cs, idx) == cs[i].1
  {
    var init := cs[..|cs| - 1];
    if i == |cs| - 1 {
      assert HitIndices(cs) == HitIndices(init) + [idx];
      forall j | 0 <= j < |init| ensures init[j].0 != idx {
        assert init[j] == cs[j];
      }
      SumForAbsent(init, idx);
    } else {
      SumForOnce(init, i, idx);
    }
  }

  /** The normalised BM25 score of position `idx`, 0 when BM25 did not return it. */
  function Bm25Part(bm25: seq<Scored>, idx: nat): real {
    SumFor(NormalizedHits(bm25), idx)
  }

  lemma Bm25PartValue(bm25: seq<Scored>, i: nat)
    requires Distinct(HitIndices(bm25)) && i < |bm25|
    ensures Bm25Part(bm25, bm25[i].0) == NormalizedHits(bm25)[i].1
  {
    var nh := NormalizedHits(bm25);
    forall j | 0 <= j < |nh| && j != i ensures nh[j].0 != bm25[i].0 {
      assert HitIndices(bm25)[j] == bm25[j].0;
    }
    SumForOnce(nh, i, bm25[i].0);
  }

  lemma Bm25PartAbsent(bm25: seq<Scored>, idx: nat)
    requires idx !in HitIndices(bm25)
    ensures Bm25Part(bm25, idx) == 0.0
  {
    assert HitIndices(NormalizedHits(bm25)) == HitIndices(bm25);
    SumForAbsent(NormalizedHits(bm25), idx);
  }

  lemma ContributionIndices(bm25: seq<Scored>, dense: seq<Scored>)
    ensures HitIndices(Contributions(bm25, dense)) == HitIndices(bm25) + HitIndices(dense)
  {
    var a := Halved(NormalizedHits(bm25));
    var b := Halved(dense);
    assert HitIndices(a) == HitIndices(bm25);
    assert HitIndices(b) == HitIndices(dense);
    assert HitIndices(a + b) == HitIndices(a) + HitIndices(b);
  }

  /** The fused dict holds exactly the positions either signal returned. */
  lemma FusedMembers(bm25: seq<Scored>, dense: seq<Scored>)
    ensures WellFormed(Fuse(Contributions(bm25, dense)))
    ensures forall x :: x in Fuse(Contributions(bm25, dense)).scores <==> x in HitIndices(bm25) || x in HitIndices(dense)
  {
    FuseSpec(Contributions(bm25, dense));
    ContributionIndices(bm25, dense);
  }

  /** The fused score: half the normalised BM25 score plus half the dense similarity, each
      signal that did not return the position counting 0. */
  lemma FusedScore(bm25: seq<Scored>, dense: seq<Scored>, x: nat)
    requires x in Fuse(Contributions(bm25, dense)).scores
    ensures Fuse(Contributions(bm25, dense)).scores[x] == 0.5 * Bm25Part(bm25, x) + 0.5 * SumFor(dense, x)
  {
    FuseSpec(Contributions(bm25, dense));
    SumForAppend(Halved(NormalizedHits(bm25)), Halved(dense), x);
    SumForHalved(NormalizedHits(bm25), x);
    SumForHalved(dense, x);
  }

  /** Insertion order: distinct BM25 hits come first among the keys, in BM25 rank order. */
  lemma FusedKeyOrder(bm25: seq<Scored>, dense: seq<Scored>)
    requires Distinct(HitIndices(bm25))
    ensures |Fuse(Contributions(bm25, dense)).keys| >= |bm25|
    ensures Fuse(Contributions(bm25, dense)).keys[..|bm25|] == HitIndices(bm25)
  {
    FuseSpec(Contributions(bm25, dense));
    ContributionIndices(bm25, dense);
    DedupPrefix(HitIndices(bm25), HitIndices(dense));
  }

  lemma {:induction false} DedupDistinct(s: seq<nat>)
    requires Distinct(s)
    ensures Dedup(s) == s
  {
    if s != [] {
      DedupDistinct(s[..|s| - 1]);
      assert s[|s| - 1] !in s[..|s| - 1];
    }
  }

  /** Deduplicating `a + b` keeps a distinct `a` as its prefix. */
  lemma {:induction false} DedupPrefix(a: seq<nat>, b: seq<nat>)
    requires Distinct(a)
    ensures |Dedup(a + b)| >= |a| && Dedup(a + b)[..|a|] == a
  {
    if b == [] {
      assert a + b == a;
      DedupDistinct(a);
    } else {
      assert (a + b)[..|a + b| - 1] == a + b[..|b| - 1];
      DedupPrefix(a, b[..|b| - 1]);
    }
  }

  // ---------------------------------------------------------------- ranking

  /** The fused scores read along the dict's key (insertion) order. */
  function KeyScores(c: Combined): (vals: seq<real>)
    requires WellFormed(c)
    ensures |vals| == |c.keys| && forall p :: 0 <= p < |c.keys| ==> vals[p] == c.scores[c.keys[p]]
  {
    seq(|c.keys|, p requires 0 <= p < |c.keys| => c.scores[c.keys[p]])
  }

  /** `sorted(combined.items(), key=score, reverse=True)[:k]` as positions into the key
      order: distinct, best first, equal scores in insertion order, and a top-k selection. */
  function RankOrder(c: Combined, k: nat): (order: seq<nat>)
    requires WellFormed(c)
    ensures |order| == if k < |c.keys| then k else |c.keys|
    ensures forall i :: 0 <= i < |order| ==> order[i] < |c.keys|
    ensures Distinct(order)
    ensures forall i, j :: 0 <= i < j < |order| ==> KeyScores(c)[order[i]] >= KeyScores(c)[order[j]]
    ensures forall i, j :: 0 <= i < j < |order| && KeyScores(c)[order[i]] == KeyScores(c)[order[j]] ==> order[i] < order[j]
    ensures forall i, p: nat :: 0 <= i < |order| && p < |c.keys| && p !in order ==> KeyScores(c)[p] <= KeyScores(c)[order[i]]
    ensures forall p: nat :: p < |c.keys| && p !in order ==> |order| == k
  {
    var vals := KeyScores(c);
    var sorted := SortDesc(vals);
    SortedDistinct(vals, sorted);
    SortedNonIncreasing(vals, sorted);
    SortedStable(vals, sorted);
    SortedTopK(vals, sorted, k);
    assert k >= |sorted| ==> Take(sorted, k) == sorted;
    Take(sorted, k)
  }

  /** The ranked (fact position, fused score) pairs. */
  function Ranking(c: Combined, k: nat): (r: seq<Scored>)
    requires WellFormed(c)
    ensures |r| == |RankOrder(c, k)| && |r| <= k
    ensures forall i :: 0 <= i < |r| ==> r[i].0 == c.keys[RankOrder(c, k)[i]]
    ensures forall i :: 0 <= i < |r| ==> r[i].0 in c.scores && r[i].1 == c.scores[r[i].0]
  {
    var o := RankOrder(c, k);
    seq(|o|, i requires 0 <= i < |o| => (c.keys[o[i]], c.scores[c.keys[o[i]]]))
  }

  /** The ranking lists each fact once, best first. */
  lemma RankingOrdered(c: Combined, k: nat)
    requires WellFormed(c)
    ensures Distinct(HitIndices(Ranking(c, k)))
    ensures forall i, j :: 0 <= i < j < |Ranking(c, k)| ==> Ranking(c, k)[i].1 >= Ranking(c, k)[j].1
  {
    var o := RankOrder(c, k);
    var r := Ranking(c, k);
    forall i, j | 0 <= i < j < |r| ensures r[i].0 != r[j].0 && r[i].1 >= r[j].1 {
      assert o[i] != o[j];
      assert KeyScores(c)[o[i]] >= KeyScores(c)[o[j]];
    }
  }

  /** The ranking is a top-k selection: an entry left out scores no higher than any entry
      kept, and then all `k` places are taken. */
  lemma RankingTopK(c: Combined, k: nat, x: nat)
    requires WellFormed(c)
    requires x in c.scores && x !in HitIndices(Ranking(c, k))
    ensures |Ranking(c, k)| == k
    ensures forall i :: 0 <= i < k ==> c.scores[x] <= Ranking(c, k)[i].1
  {
    var o := RankOrder(c, k);
    var r := Ranking(c, k);
    var p :| 0 <= p < |c.keys| && c.keys[p] == x;
    forall i | 0 <= i < |o| ensures o[i] != p {
      assert HitIndices(r)[i] == c.keys[o[i]];
    }
    assert p !in o;
    forall i | 0 <= i < |r| ensures c.scores[x] <= r[i].1 {
      assert KeyScores(c)[p] <= KeyScores(c)[o[i]];
    }
  }

  // ---------------------------------------------------------------- search

  /** A result dict.  Its "fact_id", "text", "confidence" and "source" entries are those of
      `fact`; the reranker later writes "rerank_score". */
  class Hit {
    const fact: CanonicalFact
    var score: real
    var rerankScore: Option<real>

    constructor (fact: CanonicalFact, score: real)
      ensures this.fact == fact && this.score == score && this.rerankScore == None
    {
      this.fact := fact;
      this.score := score;
      this.rerankScore := None;
    }
  }

  /** What `search` returns, as (fact position, fused score) pairs, best first. */
  function SearchRanking(facts: seq<CanonicalFact>, scores: seq<real>, argsort: seq<nat>,
                         collection: Option<seq<(string, real)>>, k: nat): (r: seq<Scored>)
    requires |scores| == |facts| && IsArgsort(scores, argsort)
    ensures facts == [] ==> r == []
    ensures |r| <= k
    ensures forall i :: 0 <= i < |r| ==> r[i].0 < |facts|
    ensures Distinct(HitIndices(r))
    ensures forall i, j :: 0 <= i < j < |r| ==> r[i].1 >= r[j].1
  {
    if facts == [] then []
    else
      var bm25 := Bm25Search(scores, argsort, k);
      var dense := DenseSearch(facts, collection);
      FusedMembers(bm25, dense);
      var c := Fuse(Contributions(bm25, dense));
      var r := Ranking(c, k);
      RankingOrdered(c, k);
      assert forall i :: 0 <= i < |r| ==> r[i].0 < |facts| by {
        forall i | 0 <= i < |r| ensures r[i].0 < |facts| {
          assert r[i].0 in HitIndices(bm25) || r[i].0 in HitIndices(dense);
        }
      }
      r
  }

  lemma SearchRankingIs(facts: seq<CanonicalFact>, scores: seq<real>, argsort: seq<nat>,
                        collection: Option<seq<(string, real)>>, k: nat, c: Combined)
    requires |scores| == |facts| && IsArgsort(scores, argsort) && facts != []
    requires c == Fuse(Contributions(Bm25Search(scores, argsort, k), DenseSearch(facts, collection)))
    ensures WellFormed(c)
    ensures SearchRanking(facts, scores, argsort, collection, k) == Ranking(c, k)
  {
    FusedMembers(Bm25Search(scores, argsort, k), DenseSearch(facts, collection));
  }

  /** Each returned score is the fusion of the two signals for that fact. */
  lemma SearchScores(facts: seq<CanonicalFact>, scores: seq<real>, argsort: seq<nat>,
                     collection: Option<seq<(string, real)>>, k: nat, i: nat)
    requires |scores| == |facts| && IsArgsort(scores, argsort)
    requires i < |SearchRanking(facts, scores, argsort, collection, k)|
    ensures var r := SearchRanking(facts, scores, argsort, collection, k)[i];
            var bm25 := Bm25Search(scores, argsort, k);
            r.1 == 0.5 * Bm25Part(bm25, r.0) + 0.5 * SumFor(DenseSearch(facts, collection), r.0)
  {
    var bm25 := Bm25Search(scores, argsort, k);
    var dense := DenseSearch(facts, collection);
    FusedMembers(bm25, dense);
    FusedScore(bm25, dense, SearchRanking(facts, scores, argsort, collection, k)[i].0);
  }

  /** Search is a top-k selection of the fused scores: a fact that either signal returned but
      that is left out scores no higher than any returned fact, and then all `k` places are
      taken. */
  lemma SearchTopK(facts: seq<CanonicalFact>, scores: seq<real>, argsort: seq<nat>,
                   collection: Option<seq<(string, real)>>, k: nat, x: nat)
    requires |scores| == |facts| && IsArgsort(scores, argsort) && facts != []
    requires x in HitIndices(Bm25Search(scores, argsort, k)) || x in HitIndices(DenseSearch(facts, collection))
    requires x !in HitIndices(SearchRanking(facts, scores, argsort, collection, k))
    ensures |SearchRanking(facts, scores, argsort, collection, k)| == k
    ensures forall i :: 0 <= i < k ==>
              0.5 * Bm25Part(Bm25Search(scores, argsort, k), x) + 0.5 * SumFor(DenseSearch(facts, collection), x)
                <= SearchRanking(facts, scores, argsort, collection, k)[i].1
  {
    var bm25 := Bm25Search(scores, argsort, k);
    var dense := DenseSearch(facts, collection);
    FusedMembers(bm25, dense);
    var c := Fuse(Contributions(bm25, dense));
    assert SearchRanking(facts, scores, argsort, collection, k) == Ranking(c, k);
    RankingTopK(c, k, x);
    FusedScore(bm25, dense, x);
  }

  /** The two loops filling `combined_scores`: normalised BM25 hits first, then dense hits,
      each weighted by one half. */
  method CombineScores(bm25: seq<Scored>, dense: seq<Scored>) returns (combined: Combined)
    ensures combined == Fuse(Contributions(bm25, dense))
  {
    ghost var cs := Contributions(bm25, dense);
    DenseContributionsAt(bm25, dense);
    if bm25 != [] {
      Bm25ContributionsAt(bm25, dense);
      combined := AddBm25(cs, bm25);
    } else {
      assert cs[..0] == [];
      combined := Combined(map[], []);
    }
    assert combined == Fuse(cs[..|bm25|]);
    combined := AddDense(cs, |bm25|, dense, combined);
  }

  /** The first loop: each BM25 hit adds half its min-max normalised score. */
  method AddBm25(ghost cs: seq<Scored>, bm25: seq<Scored>) returns (combined: Combined)
    requires bm25 != [] && Bm25Head(cs, bm25)
    ensures combined == Fuse(cs[..|bm25|])
  {
    combined := Combined(map[], []);
    var mx := MaxScore(bm25);
    var mn := MinScore(bm25);
    for i := 0 to |bm25|
      invariant combined == Fuse(cs[..i])
    {
      var normalized := Normalize(bm25[i].1, mx, mn);
      FuseStep(cs, i);
      combined := AddScore(combined, bm25[i].0, 0.5 * normalized);
    }
  }

  /** The second loop: each dense hit adds half its similarity. */
  method AddDense(ghost cs: seq<Scored>, m: nat, dense: seq<Scored>, start: Combined) returns (combined: Combined)
    requires |cs| == m + |dense|
    requires DenseTail(cs, m, dense)
    requires start == Fuse(cs[..m])
    ensures combined == Fuse(cs)
  {
    combined := start;
    for j := m to m + |dense|
      invariant combined == Fuse(cs[..j])
    {
      FuseStep(cs, j);
      combined := AddScore(combined, dense[j - m].0, 0.5 * dense[j - m].1);
    }
    FuseAll(cs, m + |dense|);
  }

  /** The first |bm25| contributions are the halved normalised BM25 hits. */
  predicate Bm25Head(cs: seq<Scored>, bm25: seq<Scored>)
    requires bm25 != []
  {
    |bm25| <= |cs| &&
    forall i :: 0 <= i < |bm25| ==> cs[i] == (bm25[i].0, 0.5 * Normalize(bm25[i].1, MaxScore(bm25), MinScore(bm25)))
  }

  /** The contributions from position m on are the halved dense hits. */
  predicate DenseTail(cs: seq<Scored>, m: nat, dense: seq<Scored>) {
    |cs| == m + |dense| &&
    forall j :: m <= j < |cs| ==> cs[j] == (dense[j - m].0, 0.5 * dense[j - m].1)
  }

  lemma Bm25ContributionsAt(bm25: seq<Scored>, dense: seq<Scored>)
    requires bm25 != []
    ensures Bm25Head(Contributions(bm25, dense), bm25)
  {
    forall i | 0 <= i < |bm25|
      ensures Contributions(bm25, dense)[i] == (bm25[i].0, 0.5 * Normalize(bm25[i].1, MaxScore(bm25), MinScore(bm25)))
    {
      Bm25ContributionAt(bm25, dense, i);
    }
  }

  lemma DenseContributionsAt(bm25: seq<Scored>, dense: seq<Scored>)
    ensures DenseTail(Contributions(bm25, dense), |bm25|, dense)
  {
    assert |Contributions(bm25, dense)| == |bm25| + |dense|;
    forall j | |bm25| <= j < |bm25| + |dense|
      ensures Contributions(bm25, dense)[j] == (dense[j - |bm25|].0, 0.5 * dense[j - |bm25|].1)
    {
      DenseContributionAt(bm25, dense, j);
    }
  }

  lemma FuseAll(cs: seq<Scored>, n: nat)
    requires n == |cs|
    ensures Fuse(cs[..n]) == Fuse(cs)
  {
    assert cs[..n] == cs;
  }

  lemma FuseStep(cs: seq<Scored>, i: nat)
    requires i < |cs|
    ensures Fuse(cs[..i + 1]) == AddScore(Fuse(cs[..i]), cs[i].0, cs[i].1)
  {
    assert cs[..i + 1][..i] == cs[..i];
  }

  lemma Bm25ContributionAt(bm25: seq<Scored>, dense: seq<Scored>, i: nat)
    requires i < |bm25|
    ensures |Contributions(bm25, dense)| == |bm25| + |dense|
    ensures Contributions(bm25, dense)[i] == (bm25[i].0, 0.5 * Normalize(bm25[i].1, MaxScore(bm25), MinScore(bm25)))
  {
    var nh := NormalizedHits(bm25);
    var a := Halved(nh);
    assert Contributions(bm25, dense)[i] == a[i];
  }

  lemma DenseContributionAt(bm25: seq<Scored>, dense: seq<Scored>, j: nat)
    requires |bm25| <= j < |bm25| + |dense|
    ensures |Contributions(bm25, dense)| == |bm25| + |dense|
    ensures Contributions(bm25, dense)[j] == (dense[j - |bm25|].0, 0.5 * dense[j - |bm25|].1)
  {
    var a := Halved(NormalizedHits(bm25));
    assert Contributions(bm25, dense)[j] == Halved(dense)[j - |a|];
  }

  /** The formatting loop: one fresh result dict per ranked fact. */
  method MakeHits(facts: seq<CanonicalFact>, ranked: seq<Scored>) returns (hits: seq<Hit>)
    requires forall i :: 0 <= i < |ranked| ==> ranked[i].0 < |facts|
    ensures |hits| == |ranked|
    ensures forall i :: 0 <= i < |hits| ==>
              hits[i].fact == facts[ranked[i].0] && hits[i].score == ranked[i].1 && hits[i].rerankScore == None
    ensures forall i :: 0 <= i < |hits| ==> fresh(hits[i])
    ensures Distinct(hits)
  {
    hits := [];
    for i := 0 to |ranked|
      invariant |hits| == i
      invariant forall j :: 0 <= j < i ==>
                  hits[j].fact == facts[ranked[j].0] && hits[j].score == ranked[j].1 && hits[j].rerankScore == None
      invariant forall j :: 0 <= j < i ==> fresh(hits[j])
      invariant Distinct(hits)
    {
      var h := new Hit(facts[ranked[i].0], ranked[i].1);
      hits := hits + [h];
    }
  }

  /** `search`: nothing is asked of either index when no facts are loaded; otherwise BM25
      is asked with the lower-cased, whitespace-split query and the vector store, when there
      is one, with the query and `k`. */
  method Search(facts: seq<CanonicalFact>, query: string, k: nat, scores: seq<real>, argsort: seq<nat>,
                collection: Option<seq<(string, real)>>) returns (hits: seq<Hit>, calls: seq<IndexCall>)
    requires |scores| == |facts| && IsArgsort(scores, argsort)
    ensures facts == [] ==> hits == [] && calls == []
    ensures facts != [] && collection.Some? ==> calls == [Bm25Query(Split(Lower(query))), DenseQuery(query, k)]
    ensures facts != [] && collection.None? ==> calls == [Bm25Query(Split(Lower(query)))]
    ensures |hits| == |SearchRanking(facts, scores, argsort, collection, k)|
    ensures forall i :: 0 <= i < |hits| ==>
              var r := SearchRanking(facts, scores, argsort, collection, k)[i];
              hits[i].fact == facts[r.0] && hits[i].score == r.1 && hits[i].rerankScore == None
    ensures forall i :: 0 <= i < |hits| ==> fresh(hits[i])
    ensures Distinct(hits)
  {
    if facts == [] {
      return [], [];
    }
    var tokens := Split(Lower(query));
    if collection.Some? {
      calls := [Bm25Query(tokens), DenseQuery(query, k)];
    } else {
      calls := [Bm25Query(tokens)];
    }
    hits := FusedHits(facts, k, scores, argsort, collection);
  }

  /** The fusion, ranking and formatting steps of `search` over a non-empty fact list. */
  method FusedHits(facts: seq<CanonicalFact>, k: nat, scores: seq<real>, argsort: seq<nat>,
                   collection: Option<seq<(string, real)>>) returns (hits: seq<Hit>)
    requires |scores| == |facts| && IsArgsort(scores, argsort) && facts != []
    ensures |hits| == |SearchRanking(facts, scores, argsort, collection, k)|
    ensures forall i :: 0 <= i < |hits| ==>
              var r := SearchRanking(facts, scores, argsort, collection, k)[i];
              hits[i].fact == facts[r.0] && hits[i].score == r.1 && hits[i].rerankScore == None
    ensures forall i :: 0 <= i < |hits| ==> fresh(hits[i])
    ensures Distinct(hits)
  {
    var bm25 := Bm25Search(scores, argsort, k);
    var dense: seq<Scored> := [];
    if collection.Some? {
      dense := DenseSearch(facts, collection);
    }
    assert dense == DenseSearch(facts, collection);
    var combined := CombineScores(bm25, dense);
    SearchRankingIs(facts, scores, argsort, collection, k, combined);
    var ranked := Ranking(combined, k);
    hits := MakeHits(facts, ranked);
  }

  // ---------------------------------------------------------------- conversation query

  /** The user then assistant text of each turn. */
  function TurnParts(turns: seq<Turn>): (r: seq<string>)
    ensures |r| == 2 * |turns|
    ensures forall i :: 0 <= i < |r| ==>
              r[i] == if i % 2 == 0 then turns[i / 2].UserText() else turns[i / 2].AssistantText()
  {
    if turns == [] then []
    else
      var rest := TurnParts(turns[1..]);
      var r := [turns[0].UserText(), turns[0].AssistantText()] + rest;
      assert forall i :: 2 <= i < |r| ==> r[i] == rest[i - 2] && (i - 2) / 2 == i / 2 - 1 && (i - 2) % 2 == i % 2;
      r
  }

  /** The parts `build_conversation_query` joins: the message, the last three turns, then the
      entity mentions. */
  function QueryParts(message: string, history: seq<Turn>, entities: seq<string>): (r: seq<string>)
    ensures |r| == 1 + 2 * (if |history| < 3 then |history| else 3) + |entities|
    ensures r[0] == message
    ensures r[|r| - |entities|..] == entities
  {
    [message] + TurnParts(Last(history, 3)) + entities
  }

  method BuildConversationQuery(message: string, history: seq<Turn>, entities: seq<string>) returns (q: string)
    ensures q == Join(" ", QueryParts(message, history, entities))
  {
    var parts := [message];
    if history != [] {
      var recent := Last(history, 3);
      for i := 0 to |recent|
        invariant parts == [message] + TurnParts(recent[..i])
      {
        assert TurnParts(recent[..i + 1]) == TurnParts(recent[..i]) + [recent[i].UserText(), recent[i].AssistantText()] by {
          TurnPartsAppend(recent[..i], recent[i]);
          assert recent[..i + 1] == recent[..i] + [recent[i]];
        }
        parts := parts + [recent[i].UserText()];
        parts := parts + [recent[i].AssistantText()];
      }
      assert recent[..|recent|] == recent;
    }
    if entities != [] {
      parts := parts + entities;
    }
    assert parts == QueryParts(message, history, entities);
    q := Join(" ", parts);
  }

  lemma {:induction false} TurnPartsAppend(turns: seq<Turn>, t: Turn)
    ensures TurnParts(turns + [t]) == TurnParts(turns) + [t.UserText(), t.AssistantText()]
  {
    if turns == [] {
      assert [t][1..] == [];
    } else {
      assert (turns + [t])[1..] == turns[1..] + [t];
      TurnPartsAppend(turns[1..], t);
    }
  }

  /** With no history and no entity mentions the query is the message itself; otherwise the
      message is followed by a space and the rest. */
  lemma QueryStartsWithMessage(message: string, history: seq<Turn>, entities: seq<string>)
    ensures history == [] && entities == [] ==> Join(" ", QueryParts(message, history, entities)) == message
    ensures history != [] || entities != [] ==>
              StartsWith(Join(" ", QueryParts(message, history, entities)), message + " ")
  {
    var parts := QueryParts(message, history, entities);
    if history != [] || entities != [] {
      assert |parts| > 1;
      var j := Join(" ", parts);
      assert j == message + " " + Join(" ", parts[1..]);
      assert j[..|message + " "|] == message + " ";
    } else {
      assert parts == [message];
    }
  }
}
