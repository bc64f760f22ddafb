/** The cross-encoder reranker: every retrieval hit is paired with the query, scored by the
    cross-encoder in one batch, and the `top_k` best, best first, are returned with their
    score written into the hit itself. */
module Rerank {
  import opened PyText
  import opened Sorting
  import opened Json
  import opened Index
  import opened Models

  /** A (query, text) pair handed to the cross-encoder. */
  type Pair = (string, string)

  /** The cross-encoder's batch `predict`: one score per pair. */
  type Predict = seq<Pair> -> seq<real>

  /** `[(query, result["text"]) for result in results]`. */
  function Pairs(query: string, results: seq<Hit>): (r: seq<Pair>)
    ensures |r| == |results|
    ensures forall i :: 0 <= i < |r| ==> r[i] == (query, results[i].fact.text)
  {
    seq(|results|, i requires 0 <= i < |results| => (query, results[i].fact.text))
  }

  /** The scores `zip(results, scores)` keeps: as many as there are results and scores. */
  function Zipped(results: seq<Hit>, scores: seq<real>): (keys: seq<real>)
    ensures |keys| == if |scores| < |results| then |scores| else |results|
    ensures keys == scores[..|keys|]
  {
    Take(scores, |results|)
  }

  /** Positions of the hits returned, in the order returned: a stable descending sort of the
      scores cut to `top_k`. */
  function RerankOrder(keys: seq<real>, topK: nat): (order: seq<nat>)
    ensures |order| == if topK < |keys| then topK else |keys|
    ensures forall i :: 0 <= i < |order| ==> order[i] < |keys|
    ensures forall i, j :: 0 <= i < j < |order| ==> order[i] != order[j]
    ensures forall i, j :: 0 <= i < j < |order| ==> keys[order[i]] >= keys[order[j]]
    ensures forall i, j :: 0 <= i < j < |order| && keys[order[i]] == keys[order[j]] ==> order[i] < order[j]
    ensures forall i, p: nat :: 0 <= i < |order| && p < |keys| && p !in order ==> keys[p] <= keys[order[i]]
  {
    var sorted := SortDesc(keys);
    SortedDistinct(keys, sorted);
    SortedNonIncreasing(keys, sorted);
    SortedStable(keys, sorted);
    SortedTopK(keys, sorted, topK);
    Take(sorted, topK)
  }

  /** The facts a list of hits carries, in order. */
  function HitFacts(hits: seq<Hit>): (r: seq<CanonicalFact>)
    ensures |r| == |hits| && forall i :: 0 <= i < |hits| ==> r[i] == hits[i].fact
  {
    seq(|hits|, i requires 0 <= i < |hits| => hits[i].fact)
  }

  /** The (query, text) pairs for a list of facts. */
  function TextPairs(query: string, fs: seq<CanonicalFact>): (r: seq<Pair>)
    ensures |r| == |fs| && forall i :: 0 <= i < |fs| ==> r[i] == (query, fs[i].text)
  {
    seq(|fs|, i requires 0 <= i < |fs| => (query, fs[i].text))
  }

  /** The batch sent for a list of hits depends only on the facts they carry. */
  lemma PairsOfFacts(query: string, results: seq<Hit>)
    ensures Pairs(query, results) == TextPairs(query, HitFacts(results))
  {
  }

  /** What `rerank` returns, as the facts of the returned hits: the facts ordered by their
      cross-encoder scores (stable, best first) and cut to `topK`. */
  function RerankedFacts(query: string, fs: seq<CanonicalFact>, topK: nat, predict: Predict): (r: seq<CanonicalFact>)
    ensures |r| <= topK && |r| <= |fs|
    ensures forall i :: 0 <= i < |r| ==> r[i] in fs
    ensures |predict(TextPairs(query, fs))| >= |fs| ==> |r| == if topK < |fs| then topK else |fs|
  {
    var order := RerankOrder(Take(predict(TextPairs(query, fs)), |fs|), topK);
    seq(|order|, i requires 0 <= i < |order| => fs[order[i]])
  }

  /** `rerank`: an empty input is returned as is without consulting the cross-encoder;
      otherwise exactly one batch of pairs, in input order, is scored.  Each returned hit
      gets its own cross-encoder score as `rerank_score`; no fused score changes and hits
      not returned are not written. */
  method Rerank(query: string, results: seq<Hit>, topK: nat, predict: Predict)
    returns (reranked: seq<Hit>, calls: seq<seq<Pair>>)
    requires Distinct(results)
    modifies results
    ensures results == [] ==> reranked == [] && calls == []
    ensures results != [] ==> calls == [Pairs(query, results)]
    ensures var keys := Zipped(results, predict(Pairs(query, results)));
            var order := RerankOrder(keys, topK);
            results != [] ==>
              && |reranked| == |order|
              && (forall i :: 0 <= i < |reranked| ==> reranked[i] == results[order[i]])
              && (forall i :: 0 <= i < |reranked| ==> reranked[i].rerankScore == Some(keys[order[i]]))
    ensures forall h :: h in results ==> h.score == old(h.score)
    ensures forall h :: h in results && h !in reranked ==> h.rerankScore == old(h.rerankScore)
  {
    if results == [] {
      return [], [];
    }
    var pairs := Pairs(query, results);
    calls := [pairs];
    var scores := predict(pairs);
    var keys := Zipped(results, scores);
    var order := RerankOrder(keys, topK);
    reranked := seq(|order|, i requires 0 <= i < |order| => results[order[i]]);
    var values := seq(|order|, i requires 0 <= i < |order| => keys[order[i]]);
    WriteScores(reranked, values);
  }

  /** `reranked[i]["rerank_score"] = float(score)` for each returned hit, in turn. */
  method WriteScores(hits: seq<Hit>, values: seq<real>)
    requires |hits| == |values|
    requires Distinct(hits)
    modifies hits
    ensures forall i :: 0 <= i < |hits| ==> hits[i].rerankScore == Some(values[i])
    ensures forall h :: h in hits ==> h.score == old(h.score)
  {
    for i := 0 to |hits|
      invariant forall j :: 0 <= j < i ==> hits[j].rerankScore == Some(values[j])
      invariant forall h :: h in hits ==> h.score == old(h.score)
      invariant forall h :: h in hits[i..] ==> h.rerankScore == old(h.rerankScore)
    {
      hits[i].rerankScore := Some(values[i]);
    }
  }
}
