# Patient persona chatbot: a verified model of its deterministic core

Patient answers a user in the voice of a persona distilled from interview
transcripts. A turn runs through a fixed pipeline:

1. A conversation-aware query is built from the message, the last turns and
   the capitalised words of the message.
2. The hybrid retriever fuses BM25 and dense-embedding hits over the
   persona's canonical facts. A cross-encoder reranks them to the best five.
3. The producer drafts a neutral answer from the notes, or from the recent
   history when nothing was retrieved.
4. The contextor turns the message's intent into a style-and-policy pack.
5. The refiner restyles the draft.
6. A judge scores the reply and may ask for edits, for at most
   `MAX_REVISE_LOOPS` rounds.
7. Citations are read off the final text, and the episodic memory is updated.

Around this sit transcript ingestion (chunking, fact and example extraction),
the SQLite-backed episodic memory and an offline evaluation harness.

The Dafny model keeps every branch, constant and error path of that code, with
the differences listed under "## Left out". Each external model becomes a parameter:

- the language model is `Generate = Prompt -> string`, where `Prompt` names
  which template is filled and with what;
- BM25 is a score per fact together with its `argsort`;
- the vector store's answer is the list of (id, cosine distance) pairs it
  returns, or `None` when there is no collection;
- the cross-encoder is `Predict = seq<(query, text)> -> seq<real>`;
- `json.loads` is `Loads = string -> Result<Json>`, and `float(str)` is
  `FloatOfStr`.

Scores are `real`. The Python exceptions the handlers tell apart are a
`PyError` datatype, and an exception no handler catches is an `Err` outcome.

One Dafny module corresponds to each source file:

- `Index`, `Rerank`, `Orchestrator`, `Judge`, `Contextor`, `Transcript`,
  `Episodic`, `Producer`, `Summarizer`, `Models`, `Config` and `Harness`;
- three helper modules: `PyText` (the Python `str` methods used),
  `Json` (decoded values, the shared code-fence stripper, conversions and
  field validation) and `Sorting` (Python's stable descending sort over
  positions);
- `Llm`, which holds the prompt datatype.

Code that updates state step by step is imperative Dafny:

- `Episodic.EpisodicMemory` is a class over its three tables;
- `Index.Hit` is the result dict the reranker writes into;
- `Contextor.Contextor` and `Orchestrator.Orchestrator` are classes;
- the chunker, the search, the revise loop, the entity extractor and the
  dataset loop are `while`/`for` loops with invariants.

Each such method is proved against a specification function whose properties
are lemmas.

## Model

| member | source | states |
|---|---|---|
| Config.StyleLengthTargetsWellFormed | src/config.py:37-43 | the length-target table has exactly the five intents as keys, each with 0 < lower < upper |
| Config.ChunkStridePositive | src/config.py:58-59 | the overlap (25) is below the chunk size (150), so the chunk stride is 125 and positive |
| Config.HedgingLevelsCoverRange | src/config.py:45-52 | hedging descriptions exist for exactly the levels 0..5 |
| Config.RetrievalDefaults | src/config.py:28-33 | K_RETRIEVE is 5, K_RETRIEVE_INITIAL is 20 and larger, MAX_REVISE_LOOPS is 2 |
| Models.NewSpeakingStyle | src/data/models.py:7-13 | construction succeeds iff hedging and formality lie in 0..5, keeps every field, and otherwise raises the validation error |
| Models.SpeakingStyleFromFields | src/data/models.py:7-13 | construction succeeds iff every present field has its declared type and hedging and formality are integers in 0..5; a present field is kept and a missing one takes its default ([12, 18], 2, 3, "none", []); failure is the validation error |
| Models.SpeakingStyleDefaults | src/data/models.py:9-13 | an empty record yields the default style, and it satisfies the range constraints |
| Models.HedgingLevelDescribed | src/data/models.py:10 | every valid style's hedging level has a description in HEDGING_LEVELS |
| Models.FactFromFields | src/data/models.py:26-34 | a fact is built iff id, text and source are strings and the optional fields validate (confidence in [0, 1]); every present field is kept, and an absent one takes its default (confidence 0.8, date and stance None, entities []) |
| Models.ExampleFromFields | src/data/models.py:37-41 | an example is built iff user and assistant are strings and intent is a string or null, a present intent is kept, and an absent one is None |
| Models.ExampleFromValue | src/data/models.py:37-41 | `Example(**v)` on something that is not a mapping raises TypeError; on an object it validates its fields |
| Models.NewStylePolicyPack | src/data/models.py:44-56 | construction succeeds iff every passed field has its declared type; cadence notes stay None and follow-up stays True; every passed value is kept, the lists as the strings they hold; hedging and formality are unconstrained |
| Models.NewJudgeScores | src/data/models.py:59-65 | construction succeeds iff all five scores lie in [1, 5], and otherwise raises the validation error |
| Sorting.SortDesc | src/retriever/index.py:172-176 | the order is a permutation of the positions, non-increasing by key, with equal keys in input order (Python's stable sort with reverse=True) |
| Sorting.SortedDistinct | src/retriever/index.py:172-176 | a sorted order lists each position at most once |
| Sorting.SortedNonIncreasing | src/retriever/index.py:172-176 | keys along a sorted order never increase |
| Sorting.SortedStable | src/retriever/rerank.py:41-42 | positions with equal keys keep their input order |
| Sorting.SortedTopK | src/retriever/rerank.py:41-44 | no position outside the first k of a sorted order has a larger key than one inside |
| Index.Bm25Search | src/retriever/index.py:109-114 | at most top_k hits, each a real fact position with its own BM25 score, which is strictly positive |
| Index.Bm25SearchProperties | src/retriever/index.py:113-114 | BM25 hits are distinct and in non-increasing score order, and a positive-scoring fact is left out only when top_k better-or-equal hits were kept |
| Index.IdToIdx | src/retriever/index.py:131 | the id-to-position map keeps the last position carrying an id, and is absent exactly when no fact has it |
| Index.DenseSearch | src/retriever/index.py:116-139 | no collection gives no hits; otherwise each returned id that names a fact gives (its position, 1 − distance) in reply order, unknown ids are dropped, and nothing is clipped |
| Index.DenseHitsSingle | src/retriever/index.py:133-137 | one reply entry contributes (position, 1 − distance) when its id is known and nothing otherwise |
| Index.NormalizeProperties | src/retriever/index.py:159-164 | normalised BM25 scores lie in [0, 1], the maximum maps to 1 and the minimum to 0 when they differ, and everything maps to 0 (not 0.5) when all hits share one score |
| Index.Bm25Range | src/retriever/index.py:161 | the range is always positive: max − min when they differ, else 1.0 |
| Index.NormalizedHits | src/retriever/index.py:158-164 | each BM25 hit keeps its position and gets its min-max normalised score in [0, 1] |
| Index.FuseSpec | src/retriever/index.py:155-169 | the fused table holds exactly the contributing positions, each with the sum of its contributions, keys in first-insertion order |
| Index.FusedMembers | src/retriever/index.py:163-169 | a fact is scored iff it is a BM25 hit or a dense hit |
| Index.FusedScore | src/retriever/index.py:165-169 | fused score = 0.5·normalised BM25 (0 if absent) + 0.5·dense similarity (0 if absent) |
| Index.FusedKeyOrder | src/retriever/index.py:163-169 | table order starts with the BM25 hits in BM25 rank order, followed by the dense-only hits |
| Index.RankingOrdered | src/retriever/index.py:172-176 | ranked positions are distinct and their fused scores non-increasing |
| Index.RankingTopK | src/retriever/index.py:172-176 | a scored fact left out of the ranking forces k results, each scoring at least as much |
| Index.SearchRanking | src/retriever/index.py:141-191 | `search` returns nothing when no facts are loaded, at most k results, distinct fact positions, best fused score first |
| Index.SearchRankingIs | src/retriever/index.py:155-176 | with facts loaded, the ranking is the stable top-k of the fused table |
| Index.SearchScores | src/retriever/index.py:155-176 | each result's score is 0.5·normalised BM25 + 0.5·dense, missing signals counting 0 |
| Index.SearchTopK | src/retriever/index.py:172-176 | a fact hit by either index but not returned forces k results, each scoring at least as much as it |
| Index.CombineScores | src/retriever/index.py:155-169 | the two accumulation loops build exactly the fused table |
| Index.Hit.constructor | src/retriever/index.py:180-189 | a result carries its fact and fused score and no rerank score yet |
| Index.Search | src/retriever/index.py:141-191 | no facts means no index is consulted and no results; otherwise BM25 is queried on the lower-cased tokens, the vector store only when a collection exists, and the fresh result objects follow the ranking |
| Index.BuildConversationQuery | src/retriever/index.py:193-217 | the loop's query is the message, then the user and assistant text of the last ≤ 3 turns, then the entities, joined by single spaces |
| Index.QueryParts | src/retriever/index.py:204-215 | the parts are the message, two per recent turn (≤ 3 turns), then the entities, in that order |
| Index.QueryStartsWithMessage | src/retriever/index.py:204-217 | with no history and no entities the query is the message itself; otherwise it starts with the message and a space |
| Rerank.Rerank | src/retriever/rerank.py:14-50 | empty input returns [] with no model call; otherwise one call with one (query, text) pair per result in order; the output has min(top_k, n) entries, is a stable non-increasing top-k by model score, writes each returned entry's own score into `rerank_score`, and touches neither fused scores nor unreturned entries |
| Rerank.RerankOrder | src/retriever/rerank.py:41-44 | the selected positions are distinct, sorted by model score with ties in input order, and no unselected position scores higher |
| Rerank.RerankedFacts | src/retriever/rerank.py:31-44 | the reranked facts are at most top_k facts drawn from the input, exactly min(top_k, n) of them when the model gives a score per pair |
| Rerank.WriteScores | src/retriever/rerank.py:47-48 | the write loop sets each returned entry's `rerank_score` to its model score and leaves fused scores unchanged |
| Judge.NotesSummaryLines | src/agents/judge.py:37-40 | the judge prompt lists the first ≤ 5 notes, one line each, formatted "- [id] text" |
| Judge.ParseScores | src/agents/judge.py:102-108 | missing scores default to 3, 3, 3, 5, 3; present numbers are kept; out-of-range values fail validation |
| Judge.Accept | src/agents/judge.py:110-119 | accept = model flag OR all of factuality, persona, helpfulness and safety ≥ 4.0; a true flag is never overturned and `overall` plays no part |
| Judge.DecisionFromFields | src/agents/judge.py:102-126 | the decision carries the parsed scores and the reconciled accept, and its edits default to [] |
| Judge.JudgeReply | src/agents/judge.py:89-143 | the outcome is an error only when decoding raises an uncaught kind or the reply is not an object; a decision built from the object's fields is returned as built, and the fallback replaces only a failed one; every result has valid scores |
| Judge.DecodeFailureFallback | src/agents/judge.py:130-143 | a caught decode failure gives the fixed fallback: reject, scores 3/3/3/5 with overall 3.5, exactly one non-empty edit |
| Judge.EmptyObjectDefaults | src/agents/judge.py:102-126 | an empty object gives the default scores and no edits, and is rejected because persona and the others are below 4 |
| Judge.OutOfRangeFallback | src/agents/judge.py:102-143 | a score outside [1, 5] is a validation error, which is caught and gives the fallback |
| Judge.AcceptIsFlagOrThreshold | src/agents/judge.py:110-119 | on a well-formed object, the decision's accept is the flag or the threshold test |
| Judge.NumberedEdits | src/agents/judge.py:162 | edits are numbered 1..n in the given order as "i. edit" |
| Judge.EditNumbering | src/agents/judge.py:162 | the edit block has one line per edit, and line i reads "(i+1). edit_i" |
| Judge.ApplyEditsReply | src/agents/judge.py:145-184 | the revised response is the model's output trimmed |
| Contextor.ClassifyIntent | src/agents/contextor.py:180-193 | keyword groups are tested in priority order (advice, storytelling, opinion) as substrings of the lower-cased message, then fewer than 10 words gives chit-chat, else default; the intent is always a length-target key |
| Contextor.ClassifyIgnoresCase | src/agents/contextor.py:182-190 | lower-casing the message does not change its intent |
| Contextor.LengthTarget | src/agents/contextor.py:80 | a known intent gets its own length range, anything else the default range |
| Contextor.Matching | src/agents/contextor.py:197 | the matching examples are exactly those with this intent |
| Contextor.MatchingConcat | src/agents/contextor.py:197 | the filter keeps the examples' order: it distributes over concatenation, and keeps a single example iff its intent matches |
| Contextor.FewShotsFor | src/agents/contextor.py:195-205 | the first `count` matching examples if there are that many, else the first `count` examples, else []; so the length is `count` or 0 |
| Contextor.FewShotsMatchIntent | src/agents/contextor.py:197-199 | when enough match, every selected example has the requested intent |
| Contextor.TaboosOf | src/agents/contextor.py:53-57 | parsing yields at most one taboo per line |
| Contextor.TaboosOfConcat | src/agents/contextor.py:53-57 | taboos come out in file order: parsing two runs of lines concatenates their taboos |
| Contextor.TaboosOfMembers | src/agents/contextor.py:53-57 | a taboo is parsed exactly from the lines whose trimmed form starts with '-' or '*' |
| Contextor.MarkersOnlyEmpty | src/agents/contextor.py:54 | a bullet line made only of '-', '*' and spaces yields the empty taboo |
| Contextor.NoBulletsNoTaboos | src/agents/contextor.py:53-57 | lines without bullets contribute nothing |
| Contextor.BulletReadsBack | src/agents/contextor.py:54 | a taboo written as "- t" is read back as t |
| Contextor.TabooFileLines | src/server/api.py:303-307 | the taboo file the web server writes is its header lines, one "- t" line per taboo, then the refusal section |
| Contextor.TabooRoundTrip | src/server/api.py:303-307 | the taboos the web server writes are parsed back exactly, in order, when each is non-empty, trimmed, starts with no marker, and the refusal text has no bullet lines |
| Contextor.DefaultPackFor | src/agents/contextor.py:207-219 | the default pack has tone "neutral", hedging 2, formality 3, emoji "none", the intent's lower length bound as target, the first ≤ 5 taboos, two few-shots or none, no signature moves and no negative example |
| Contextor.FewShotItems | src/agents/contextor.py:155 | a list of few-shots is cut to its first three items; something that cannot be sliced raises TypeError |
| Contextor.FewShots | src/agents/contextor.py:154-156 | the few-shots are built from every item in order, and the first that fails to validate decides the error |
| Contextor.NegativeExample | src/agents/contextor.py:158-160 | a missing or falsy negative example is None; otherwise it is validated as an example |
| Contextor.ExtrasFromFields | src/agents/contextor.py:153-160 | few-shots and negative example unpack iff every one of the first three few-shot entries and a truthy negative example are valid examples; the result holds exactly those examples, none for an absent key; failures are TypeError or the validation error |
| Contextor.PackWith | src/agents/contextor.py:162-172 | the pack is constructed iff every present field has its declared type; otherwise the validation error |
| Contextor.PackWithText | src/agents/contextor.py:163-166 | a present tone and emoji policy are kept; absent, they are "neutral" and "none" |
| Contextor.PackWithLevels | src/agents/contextor.py:164-167 | present hedging, formality and target length are kept; absent, they are 2, 3 and the intent's lower length bound |
| Contextor.PackWithLists | src/agents/contextor.py:168-171 | present signature moves and taboos are kept; absent, they are [] and the first five loaded taboos; few-shots and negative example are those passed |
| Contextor.PackFromFields | src/agents/contextor.py:153-172 | the pack is built iff the few-shots, the negative example and every present field validate; every field is then the decoded one or its default; failures are TypeError or the validation error |
| Contextor.PackFromReply | src/agents/contextor.py:140-178 | a parsed pack keeps ≤ 3 few-shots with cadence None and follow-up True; a caught decode failure gives the default pack; only a non-object reply or a validation error escapes |
| Contextor.PackFromObject | src/agents/contextor.py:151-178 | on a decoded object whose fields validate, `build_pack` returns the pack holding each present field and each absent field's default; an unpacking TypeError gives the default pack; a validation error escapes |
| Contextor.EmptyObjectIsDefault | src/agents/contextor.py:162-172 | an object without fields gives the default pack's values, except that its few-shots are the empty decoded list |
| Contextor.ValidationErrorEscapes | src/agents/contextor.py:162-178 | a tone that is not a string raises a validation error, which `build_pack` does not catch |
| Contextor.NonObjectFewShotIsDefault | src/agents/contextor.py:155-178 | a few-shot entry that is not an object raises TypeError, which is caught and gives the default pack |
| Contextor.ExamplesFromLines | src/agents/contextor.py:42-45 | at most one example is read per line |
| Contextor.ExamplesFromLinesStep | src/agents/contextor.py:42-45 | blank lines are skipped, a line that fails to decode or validate raises that error, and every other line adds its example |
| Contextor.Contextor.constructor | src/agents/contextor.py:18-20 | a fresh contextor has no style rules, examples or taboos |
| Contextor.Contextor.LoadArtifacts | src/agents/contextor.py:23-57 | style rules are read when present; examples are appended line by line, and the first bad line raises and leaves the taboos unread; otherwise the taboos are those parsed from the file |
| Contextor.Contextor.BuildPack | src/agents/contextor.py:59-178 | one model call on the style-pack prompt (first 500 characters of the rules, first ten taboos, the message's intent and confidence), whose reply becomes the pack |
| Transcript.ChunkAt | src/ingest/transcript.py:93-101 | a chunk starting at word i ends at min(i + 150, n), counts its words, and its text is those words joined by single spaces |
| Transcript.ChunkTranscript | src/ingest/transcript.py:86-108 | text with no words gives no chunks; otherwise there are ⌈n/125⌉ chunks, chunk j starting at word 125·j |
| Transcript.ChunksCover | src/ingest/transcript.py:91-106 | when there are words, the first chunk starts at 0 and the last ends at n |
| Transcript.ChunksOverlap | src/ingest/transcript.py:98-104 | a full chunk shares 25 words with the next |
| Transcript.ChunkText | src/ingest/transcript.py:93-100 | a chunk holds 1..150 words, and splitting its text gives back exactly those words |
| Transcript.CountFromBounds | src/ingest/transcript.py:91-106 | the chunk count is the unique c with 125·(c − 1) < n ≤ 125·c |
| Transcript.Annotate | src/ingest/transcript.py:153-156 | each fact's source becomes "<source>.chunk<i>", and its id becomes "D<i>-<j+1>" only when none is present |
| Transcript.FactItemsAt | src/ingest/transcript.py:153-157 | the k-th fact is item k annotated and validated |
| Transcript.FactItemsStop | src/ingest/transcript.py:153-158 | fact building stops at the first item that fails validation |
| Transcript.FactItemsAnnotated | src/ingest/transcript.py:153-157 | every fact built from a chunk carries the chunk's source |
| Transcript.ChunkFacts | src/ingest/transcript.py:134-160 | a chunk's facts fail only with TypeError or with the uncaught decode error |
| Transcript.UnusableReplyNoFacts | src/ingest/transcript.py:151-160 | a reply that fails to decode, or is not a list, contributes no facts |
| Transcript.ChunkFactsSource | src/ingest/transcript.py:154 | every fact of chunk i has source "<source>.chunk<i>" |
| Transcript.FactsFromSources | src/ingest/transcript.py:115-157 | every extracted fact's source names one of the chunks |
| Transcript.ChunkFactsOf | src/ingest/transcript.py:152-160 | the per-chunk loop computes that chunk's facts |
| Transcript.ExtractFactsOf | src/ingest/transcript.py:110-162 | `_extract_facts` is the chunk-by-chunk concatenation of the facts of each model reply |
| Transcript.ExampleFromReply | src/ingest/transcript.py:303-315 | an example reply fails only with TypeError or with the uncaught decode error |
| Transcript.ExamplePrompts | src/ingest/transcript.py:263-292 | only chunks containing "?" or having more than 30 words are prompted, with the persona's style |
| Transcript.ExamplePromptsBound | src/ingest/transcript.py:263-267 | at most one prompt per chunk |
| Transcript.ExamplesOf | src/ingest/transcript.py:263-315 | the example loop makes exactly the selected prompts and collects their examples |
| Transcript.GenerateExamples | src/ingest/transcript.py:258-317 | only the first 10 chunks are looked at, and at most 5 examples are returned |
| Episodic.EpisodicMemory.constructor | src/memory/episodic.py:12-68 | a new database has three empty tables |
| Episodic.EpisodicMemory.AddNote | src/memory/episodic.py:70-86 | a note is always appended with the next id, with no dedup; metadata is stored only when non-empty; the other tables are unchanged |
| Episodic.EpisodicMemory.GetUserNotes | src/memory/episodic.py:88-119 | the result is the user's own notes, newest first, cut to the limit |
| Episodic.UserNotes | src/memory/episodic.py:94-117 | the returned notes belong to that user, number at most the limit, and come newest first |
| Episodic.UserRowsNewestFirst | src/memory/episodic.py:98 | a user's notes are listed in strictly decreasing insertion order |
| Episodic.UserRowsComplete | src/memory/episodic.py:94-97 | every note of that user is listed |
| Episodic.Limit | src/memory/episodic.py:99 | SQLite's LIMIT keeps the first min(L, count) rows, and a negative limit keeps all |
| Episodic.EpisodicMemory.UpdateSummary | src/memory/episodic.py:121-133 | writing a summary replaces any previous one for that session, and nothing else changes |
| Episodic.EpisodicMemory.GetSummary | src/memory/episodic.py:135-159 | the last summary written for the session, or None |
| Episodic.SummaryOverwrite | src/memory/episodic.py:126-130 | after a write the session reads back the new row, and other sessions read what they read before |
| Episodic.EpisodicMemory.AppendTurn | src/memory/episodic.py:161-198 | the turn gets index NextIndex (0 for a new session, else max + 1); the session's rows gain it at the end, and other sessions and tables are unchanged |
| Episodic.EpisodicMemory.NextTurnIndex | src/memory/episodic.py:172-181 | the index is COALESCE(MAX(turn_index), −1) + 1 |
| Episodic.NextIndex | src/memory/episodic.py:172-181 | the next index exceeds every index the session holds |
| Episodic.NextIndexIsLastPlusOne | src/memory/episodic.py:172-181 | with increasing indices, the next index is the session's last index plus one (0 when empty) |
| Episodic.AppendKeepsIncreasing | src/memory/episodic.py:183-194 | appending at the next index keeps (session, index) unique and increasing, and leaves other sessions untouched |
| Episodic.SessionRowsAscending | src/memory/episodic.py:217 | a session's turns are in strictly ascending index order |
| Episodic.EpisodicMemory.GetConversationHistory | src/memory/episodic.py:200-251 | a limit L ≥ 0 gives the min(L, count) highest-indexed turns in ascending order; no limit gives all turns ascending |
| Episodic.LastN | src/memory/episodic.py:221-243 | DESC LIMIT L followed by a reversal is the last min(L, count) rows in order |
| Producer.Snippet | src/agents/producer.py:34-39 | a turn yields "User: u\nAssistant: a" unless both sides are empty |
| Producer.SnippetsEmpty | src/agents/producer.py:36-40 | no snippet exists iff every recent turn is empty on both sides |
| Producer.HistoryBlockWindow | src/agents/producer.py:33 | only the last three turns matter to the history block |
| Producer.NoteLineMarked | src/agents/producer.py:74-76 | a note line is "[id] text", followed by " (lower confidence)" iff confidence < 0.5 |
| Producer.NotesBlockLines | src/agents/producer.py:68-79 | the notes block has one line per note, in retrieval order |
| Producer.BuildHistoryBlock | src/agents/producer.py:31-40 | the snippet loop builds the history block, "No prior conversation available." when no turn is usable |
| Producer.BuildNotesBlock | src/agents/producer.py:67-79 | the note loop builds the newline-joined note lines |
| Producer.Produce | src/agents/producer.py:13-107 | empty notes select the history-only prompt, otherwise the notes prompt; exactly one model call, whose output is returned trimmed |
| Summarizer.SummaryPrompt | src/memory/summarizer.py:28-68 | empty history needs no prompt; the update prompt is used iff a non-empty previous summary exists |
| Summarizer.Summarize | src/memory/summarizer.py:13-78 | empty history returns "" with no model call; otherwise the model output, trimmed |
| Summarizer.SummaryWindow | src/memory/summarizer.py:11-32 | only the last five turns reach the prompt |
| Summarizer.SummaryLines | src/memory/summarizer.py:32-36 | the turns block has two lines per recent turn, "User: u" then "Assistant: a", missing keys as "" |
| Orchestrator.EntityWordsMembers | src/agents/orchestrator.py:229-231 | a word is an entity candidate iff it is a whitespace-split word longer than 2 with an uppercase first character |
| Orchestrator.ExtractEntities | src/agents/orchestrator.py:224-232 | the first ≤ 5 such words, in order |
| Orchestrator.CitationAtIff | src/agents/orchestrator.py:237-238 | a citation id c matches at i iff "[c]" occurs there and c is uppercase letters followed by digits |
| Orchestrator.NoCitationInside | src/agents/orchestrator.py:238 | a match is not overlapped by another match starting inside it |
| Orchestrator.Marks | src/agents/orchestrator.py:237-238 | the marks are, position by position, the citation match starting there |
| Orchestrator.MarksDisjoint | src/agents/orchestrator.py:238 | no match starts inside the span of another |
| Orchestrator.ScanSound | src/agents/orchestrator.py:238 | every id the left-to-right scan reports is a mark at or after the start |
| Orchestrator.ScanComplete | src/agents/orchestrator.py:238 | with disjoint marks, every mark at or after the start is reported |
| Orchestrator.CitationsFromMembers | src/agents/orchestrator.py:238 | the scan finds exactly the ids that match at some position |
| Orchestrator.Dedup | src/agents/orchestrator.py:239 | deduplication keeps the same members, each once |
| Orchestrator.ExtractCitations | src/agents/orchestrator.py:234-239 | the citations hold no duplicates |
| Orchestrator.CitationsAreBracketedIds | src/agents/orchestrator.py:234-239 | c is a citation iff c is uppercase letters followed by digits and "[c]" occurs in the text |
| Orchestrator.AvgConfidence | src/agents/orchestrator.py:107-111 | with no notes the confidence is exactly 0.35 |
| Orchestrator.AvgConfidenceBounds | src/agents/orchestrator.py:108-109 | the mean confidence of the notes lies between their least and greatest confidence |
| Orchestrator.NoteBullet | src/agents/orchestrator.py:267 | the note reads "User mentioned: " and at most 100 characters of the message |
| Orchestrator.FullHistory | src/agents/orchestrator.py:251-253 | the history gains the current exchange at its end |
| Orchestrator.NotesAfter | src/agents/orchestrator.py:263-269 | a note is added iff the lower-cased message contains "prefer", "like", "dislike", "always" or "never", with the truncated message and response |
| Orchestrator.SummariesAfter | src/agents/orchestrator.py:255-261 | the summary is refreshed iff (len(history) + 1) % 5 == 0, recording the turn count; other sessions are untouched |
| Orchestrator.UpdateMemory | src/agents/orchestrator.py:241-269 | the memory's notes and summaries change exactly by those rules, and the turn table is untouched |
| Orchestrator.Start | src/agents/orchestrator.py:146-149 | the loop starts on the styled response with no iterations, scores or edits |
| Orchestrator.ReviseBounds | src/agents/orchestrator.py:151-191 | iterations never exceed MAX_REVISE_LOOPS, and each judge call either stops the loop or is followed by one edit |
| Orchestrator.JudgedAtMostMax | src/agents/orchestrator.py:151-169 | the judge runs at most MAX_REVISE_LOOPS times |
| Orchestrator.ReviseOutcome | src/agents/orchestrator.py:171-191 | scores come from the last judgement; below the cap the response is the last judged one, accepted or without edits; at the cap the last edit is returned unjudged with the previous judgement's scores |
| Orchestrator.ReviseUnedited | src/agents/orchestrator.py:147-189 | with no edit applied, the final response is the styled response |
| Orchestrator.AlwaysRejectReachesMax | src/agents/orchestrator.py:151-191 | a judge that always rejects with edits drives the loop to exactly MAX_REVISE_LOOPS iterations, and it still terminates |
| Orchestrator.FallbackReachesMax | src/agents/orchestrator.py:151-191 | when every judgement is the parse fallback, the loop terminates after MAX_REVISE_LOOPS edits |
| Orchestrator.AcceptFirst | src/agents/orchestrator.py:178-179 | an accepted first judgement ends the loop unrevised |
| Orchestrator.ReviseLoop | src/agents/orchestrator.py:146-191 | the while loop computes the revise relation above |
| Orchestrator.NotesUsed | src/agents/orchestrator.py:200 | notes used are the citations, or every retrieved fact id when there are none |
| Orchestrator.SessionOf | src/agents/orchestrator.py:67-68 | a given session id is kept; otherwise a fresh one is used |
| Orchestrator.SearchedFacts | src/agents/orchestrator.py:88 | the facts of the search for 20, position by position those of the fused ranking |
| Orchestrator.RetrievedNotes | src/agents/orchestrator.py:88-95 | the notes are at most five loaded facts, and none when the search finds nothing |
| Orchestrator.RerankNotes | src/agents/orchestrator.py:91-95 | no retrieved hits means no reranker call and no notes; otherwise one call with one (query, text) pair per hit; the notes are the hits' facts reranked by the cross-encoder to the best five |
| Orchestrator.Orchestrator.RetrieveNotes | src/agents/orchestrator.py:87-95 | retrieval asks for 20 and counts the fused ranking's hits; an empty retrieval skips the reranker; otherwise one rerank call on the searched facts; the notes are those facts reranked to the best five |
| Orchestrator.Orchestrator.PrepareTurn | src/agents/orchestrator.py:79-127 | query, retrieval count, rerank calls, notes (the searched facts reranked to the best five), confidence, draft and pack are those of the pipeline's first five steps |
| Orchestrator.Orchestrator.ProcessTurn | src/agents/orchestrator.py:50-222 | the pipeline's steps in order, its preparation as PrepareTurn states it; the response is the revise loop's text, with its citations and last scores, and revised == (iterations > 0); memory is updated only on success, and the turn table never |
| Orchestrator.Orchestrator.FinishTurn | src/agents/orchestrator.py:135-222 | refining, the revise loop, citation extraction and the memory update after the pack is built |
| Harness.Recover | eval/harness.py:124-130 | a decode, key or value error gives the default scores 3/3/3/5; other errors escape |
| Harness.ScoresFromDecoded | eval/harness.py:117-130 | a caught decode error gives the defaults, and only uncaught errors escape |
| Harness.DecodeFailureDefaults | eval/harness.py:124-130 | a reply that fails to decode gives persona_style, faithfulness and helpfulness 3.0 and safety 5.0 |
| Harness.NumericFields | eval/harness.py:118-123 | missing keys default to 3.0, 3.0, 3.0, 5.0, and present numbers are kept |
| Harness.UnreadableScoreDefaults | eval/harness.py:119-130 | a score string `float` cannot read is a ValueError and gives the defaults |
| Harness.NullScoreRaises | eval/harness.py:119-130 | a null score raises TypeError, which is not caught |
| Harness.EvaluatePrompt | eval/harness.py:17-53 | the evaluation record copies response, citations, revised flag and system scores from the turn |
| Harness.OneResultPerPrompt | eval/harness.py:140-148 | each non-blank dataset line gives one result |
| Harness.BlankLinesNoResults | eval/harness.py:142 | blank lines give no results |
| Harness.Aggregate | eval/harness.py:150-171 | num_prompts is the number of results; no results give {num_prompts: 0, results: []}; otherwise averages, pass rate and violation count are present |
| Harness.PassRateBounds | eval/harness.py:160-166 | the pass rate lies in [0, 1] and is 1 iff every persona_style score is ≥ 4.0 |
| Harness.AllPass | eval/harness.py:160 | the pass count is the number of results iff every result passes |
| Harness.NoViolations | eval/harness.py:161 | there are no safety violations iff every safety score is ≥ 4.0 |
| Harness.MeanBounds | eval/harness.py:152-157 | each average lies between the least and greatest score of its dimension |
| Harness.AllDefaults | eval/harness.py:124-167 | results whose judging all fell back average to the defaults, with pass rate 0 and no violations |
| Harness.NoPass | eval/harness.py:160 | when no persona_style score reaches 4.0 the pass count is 0 |
| Harness.NumPrompts | eval/harness.py:140-171 | num_prompts equals the number of non-blank lines, and with none the report is {num_prompts: 0, results: []} |
| Harness.EvaluateDataset | eval/harness.py:132-171 | the line loop computes the dataset report |

## Left out

- File, SQLite and network I/O are outside the model:
  - the vector store is loaded or rebuilt, and files are read and written, outside it;
  - artifact loading reads given strings, as `Option<string>` per file;
  - each `EpisodicMemory` is a fresh in-memory database.
- External models are deterministic oracle parameters: the language model,
  BM25 scoring, sentence embeddings, Chroma's HNSW search and the cross-encoder.
  - Temperature, token limits and prompt wording are not modelled. `Prompt`
    records only which template is used and what fills it.
- numpy's `argsort` tie order is not fixed. It is any ordering the `IsArgsort`
  precondition admits, so the BM25 tie order among equal scores is not
  determined.
- The persona profile is not modelled:
  - its loading by the orchestrator, the contextor and the judge;
  - `_generate_profile`;
  - `_generate_style_rules`;
  - `_generate_taboos`;
  - `_save_artifacts`;
  - the `ingest` driver.
  The judge's prompt receives only the tone, formality and taboos of the pack.
- The style refiner is the model's output on the refine prompt, trimmed. The
  refiner has no other logic.
- uuid generation is a `freshId` parameter. Timestamps, `trace_id` and the
  trace dict are not modelled, except for the parts that `Trace` records:
  retrieval, rerank calls, the draft, the pack, the styled text, iterations,
  edits and notes used.
- Floating point is `real`, with no rounding.
- `K_RETRIEVE`, `CONFIDENCE_THRESHOLD` and `MAX_REVISE_LOOPS` are fixed at
  their defaults (5, 0.40 and 2). Overriding them from the environment is not
  modelled.
- `k` and `top_k` are `nat`, so negative slicing is not modelled.
- `str.lower`, `str.isupper`, `\d` and `[A-Z]` are ASCII-only. Unicode case
  mappings and Unicode digits are not modelled. Whitespace is the full set
  `str.isspace` accepts, Unicode spaces included.
- Pydantic validation is modelled strictly:
  - a `str` field needs a JSON string;
  - an `int` field needs an integral number;
  - a `bool` field accepts booleans, 0, 1 and the usual yes/no words.
  Lax coercions such as number-to-string are not modelled.
- Orchestrator.ExtractCitations: the source returns `list(set(...))`, in hash
  order. The model returns first-occurrence order, and its contract states only
  the member set and the absence of duplicates.
- Episodic.EpisodicMemory.GetUserNotes: `ORDER BY created_at DESC` is modelled
  as newest insertion first. Notes written within the same timestamp second tie
  in SQLite, and that tie order is not modelled.
- Metadata is stored as a string map rather than as JSON text.
- `get_conversation_history` with a negative limit returns every turn, as SQLite
  does.
- Turn fields that are `None` in the database are not modelled.
- `JudgeDecision.reasoning` is dropped, because nothing in the core reads it.
- The classifier's unused `history` argument is not modelled.
- A dataset line whose `gold` is present but not a string is treated as having
  no gold.
- Harness.LineResult: a `user` value that is not a string is reported as an
  AttributeError. In the source, which error it raises depends on how the
  orchestrator first uses it.
- Harness.EvaluateDataset: the orchestrator's answers are a `Respond` oracle
  indexed by prompt position. This reflects that the memory carries over
  between prompts. A decode error on a dataset line propagates, as in the
  source.
- `append_turn` is modelled, but `process_turn` never calls it, as in the source.
- The web server, request schemas, the LLM client and the scripts are not part
  of this model. The only exception is the taboo-file format the server writes,
  which is used for the taboo round-trip.
