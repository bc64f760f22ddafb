/** The bot's configuration constants, at their default values (the values read from the
    environment, such as `K_RETRIEVE` and `MAX_REVISE_LOOPS`, at the defaults the code falls
    back to). */
module Config {

  const K_RETRIEVE: nat := 5
  const K_RETRIEVE_INITIAL: nat := 20
  const CONFIDENCE_THRESHOLD: real := 0.40
  const MAX_REVISE_LOOPS: int := 2

  const CHUNK_SIZE_WORDS: nat := 150
  const CHUNK_OVERLAP_WORDS: nat := 25

  /** Length target range (lower, upper) per intent. */
  const STYLE_LENGTH_TARGETS: map<string, (int, int)> := map[
    "advice" := (150, 220),
    "chit-chat" := (60, 120),
    "storytelling" := (200, 350),
    "opinion" := (100, 180),
    "default" := (100, 200)
  ]

  const INTENTS: set<string> := {"advice", "chit-chat", "storytelling", "opinion", "default"}

  /** Description of each hedging level. */
  const HEDGING_LEVELS: map<int, string> := map[
    0 := "No hedging - state facts directly",
    1 := "Minimal hedging - use 'likely', 'probably'",
    2 := "Moderate hedging - use 'I think', 'seems like', 'might'",
    3 := "High hedging - use 'I'm not entirely sure', 'could be'",
    4 := "Very high hedging - use 'I'm guessing', 'perhaps'",
    5 := "Maximum hedging - use 'I don't really know', 'maybe'"
  ]

  /** The length table covers exactly the five intents, each with a proper range. */
  lemma StyleLengthTargetsWellFormed()
    ensures STYLE_LENGTH_TARGETS.Keys == INTENTS
    ensures forall k :: k in STYLE_LENGTH_TARGETS ==> 0 < STYLE_LENGTH_TARGETS[k].0 < STYLE_LENGTH_TARGETS[k].1
  {
  }

  /** The chunker's stride is positive, so it always advances. */
  lemma ChunkStridePositive()
    ensures 0 < CHUNK_OVERLAP_WORDS < CHUNK_SIZE_WORDS
    ensures CHUNK_SIZE_WORDS - CHUNK_OVERLAP_WORDS == 125
  {
  }

  /** There is a description for exactly the hedging levels 0..5. */
  lemma HedgingLevelsCoverRange()
    ensures forall h :: h in HEDGING_LEVELS <==> 0 <= h <= 5
  {
  }

  /** The reranker keeps fewer than the initial retrieval returns, and the loop bound is positive. */
  lemma RetrievalDefaults()
    ensures K_RETRIEVE == 5 && K_RETRIEVE_INITIAL == 20 && K_RETRIEVE < K_RETRIEVE_INITIAL
    ensures MAX_REVISE_LOOPS == 2
  {
  }
}
