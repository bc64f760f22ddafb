/** The turn orchestrator: it builds the retrieval query, retrieves and reranks notes, drafts,
    styles and then judges the reply in a bounded revise loop, extracts citations, and
    decides what to write back to memory. */
module Orchestrator {
  import opened PyText
  import opened Json
  import opened Models
  import opened Config
  import opened Llm
  import opened Index
  import opened Rerank
  import opened Judge
  import opened Contextor
  import opened Producer
  import opened Episodic
  import opened Summarizer

  // ---------------------------------------------------------------------------------------
  // Entity mentions

  /** A word taken as an entity mention: longer than two characters, capitalised. */
  predicate IsEntity(w: string) {
    |w| > 2 && IsUpper(w[0])
  }

  /** The entity mentions among `words`, in order. */
  function EntityWords(words: seq<string>): (r: seq<string>)
    ensures |r| <= |words|
    decreases |words|
  {
    if words == [] then []
    else
      var rest := EntityWords(words[..|words| - 1]);
      if IsEntity(words[|words| - 1]) then rest + [words[|words| - 1]] else rest
  }

  /** Exactly the capitalised words longer than two characters are mentions. */
  lemma {:induction false} EntityWordsMembers(words: seq<string>, w: string)
    ensures w in EntityWords(words) <==> w in words && IsEntity(w)
    decreases |words|
  {
    if words != [] {
      var init := words[..|words| - 1];
      EntityWordsMembers(init, w);
      assert words == init + [words[|words| - 1]];
    }
  }

  /** `_extract_entities`: the first five mentions among the words of the message. */
  method ExtractEntities(text: string) returns (entities: seq<string>)
    ensures entities == Take(EntityWords(Split(text)), 5)
    ensures |entities| <= 5
    ensures forall w :: w in entities ==> w in Split(text) && IsEntity(w)
  {
    var words := Split(text);
    var found: seq<string> := [];
    for i := 0 to |words|
      invariant found == EntityWords(words[..i])
    {
      assert words[..i + 1][..i] == words[..i];
      if |words[i]| > 0 && IsUpper(words[i][0]) && |words[i]| > 2 {
        found := found + [words[i]];
      }
    }
    assert words[..|words|] == words;
    entities := Take(found, 5);
    forall w | w in entities
      ensures w in words && IsEntity(w)
    {
      assert w in found;
      EntityWordsMembers(words, w);
    }
  }

  // ---------------------------------------------------------------------------------------
  // Citations: the matches of `\[([A-Z]+\d+)\]`

  /** The length of the run of upper-case letters starting at `j`. */
  function UpperRun(s: string, j: nat): (n: nat)
    requires j <= |s|
    ensures j + n <= |s|
    ensures forall k :: j <= k < j + n ==> IsUpper(s[k])
    ensures j + n < |s| ==> !IsUpper(s[j + n])
    decreases |s| - j
  {
    if j < |s| && IsUpper(s[j]) then 1 + UpperRun(s, j + 1) else 0
  }

  /** The length of the run of digits starting at `j`. */
  function DigitRun(s: string, j: nat): (n: nat)
    requires j <= |s|
    ensures j + n <= |s|
    ensures forall k :: j <= k < j + n ==> IsDigit(s[k])
    ensures j + n < |s| ==> !IsDigit(s[j + n])
    decreases |s| - j
  {
    if j < |s| && IsDigit(s[j]) then 1 + DigitRun(s, j + 1) else 0
  }

  /** The inner id of the citation starting at position `i`, if one does. */
  function CitationAt(s: string, i: nat): Option<string> {
    if i < |s| && s[i] == '[' then
      var u := UpperRun(s, i + 1);
      var e := i + 1 + u + DigitRun(s, i + 1 + u);
      if u > 0 && e > i + 1 + u && e < |s| && s[e] == ']' then Some(s[i + 1..e]) else None
    else None
  }

  /** `c` is upper-case letters up to position `u`, digits from there on, with at least one
      of each. */
  predicate SplitsAt(c: string, u: nat) {
    0 < u < |c| && (forall k :: 0 <= k < u ==> IsUpper(c[k])) && (forall k :: u <= k < |c| ==> IsDigit(c[k]))
  }

  /** A citation id: one or more upper-case letters followed by one or more digits. */
  predicate IsCitationId(c: string) {
    exists u: nat | u < |c| :: SplitsAt(c, u)
  }

  /** An upper-case run is as long as the letters that follow `j` before a non-letter. */
  lemma UpperRunIs(s: string, j: nat, n: nat)
    requires j + n <= |s|
    requires forall k :: j <= k < j + n ==> IsUpper(s[k])
    requires j + n < |s| ==> !IsUpper(s[j + n])
    ensures UpperRun(s, j) == n
  {
  }

  lemma DigitRunIs(s: string, j: nat, n: nat)
    requires j + n <= |s|
    requires forall k :: j <= k < j + n ==> IsDigit(s[k])
    requires j + n < |s| ==> !IsDigit(s[j + n])
    ensures DigitRun(s, j) == n
  {
  }

  /** What a citation found at `i` is: its id, in brackets, at `i`. */
  lemma CitationAtSound(s: string, i: nat)
    requires CitationAt(s, i).Some?
    ensures OccursAt(s, "[" + CitationAt(s, i).value + "]", i)
    ensures IsCitationId(CitationAt(s, i).value)
  {
    var c := CitationAt(s, i).value;
    var u := UpperRun(s, i + 1);
    var e := i + 1 + u + DigitRun(s, i + 1 + u);
    assert c == s[i + 1..e];
    assert SplitsAt(c, u);
    assert s[i..i + |c| + 2] == [s[i]] + s[i + 1..e] + [s[e]];
  }

  /** The characters of an occurrence of `"[" + c + "]"` at `i`. */
  lemma BracketChars(s: string, c: string, i: nat)
    requires OccursAt(s, "[" + c + "]", i)
    ensures i + |c| + 1 < |s|
    ensures s[i] == '[' && s[i + |c| + 1] == ']'
    ensures s[i + 1..i + 1 + |c|] == c
  {
    var t := "[" + c + "]";
    assert s[i..i + |t|] == t;
    assert s[i] == t[0];
    assert s[i + |c| + 1] == t[|c| + 1];
    forall k | 0 <= k < |c|
      ensures s[i + 1 + k] == c[k]
    {
      assert s[i + 1 + k] == t[k + 1];
    }
  }

  /** Every bracketed citation id at `i` is found there. */
  lemma CitationAtComplete(s: string, i: nat, c: string, u: nat)
    requires OccursAt(s, "[" + c + "]", i) && SplitsAt(c, u)
    ensures CitationAt(s, i) == Some(c)
  {
    BracketChars(s, c, i);
    CitationRuns(s, i, c, u);
    CitationAtShape(s, i, u, i + 1 + |c|);
  }

  lemma CitationRuns(s: string, i: nat, c: string, u: nat)
    requires i + |c| + 1 < |s| && s[i + |c| + 1] == ']' && s[i + 1..i + 1 + |c|] == c
    requires SplitsAt(c, u)
    ensures UpperRun(s, i + 1) == u && DigitRun(s, i + 1 + u) == |c| - u
  {
    forall k | i + 1 <= k < i + 1 + u ensures IsUpper(s[k]) {
      assert s[k] == s[i + 1..i + 1 + |c|][k - i - 1] == c[k - i - 1];
    }
    forall k | i + 1 + u <= k < i + 1 + |c| ensures IsDigit(s[k]) {
      assert s[k] == s[i + 1..i + 1 + |c|][k - i - 1] == c[k - i - 1];
    }
    assert !IsUpper(s[i + 1 + u]) by {
      assert s[i + 1 + u] == c[u];
    }
    UpperRunIs(s, i + 1, u);
    DigitRunIs(s, i + 1 + u, |c| - u);
  }

  lemma CitationAtShape(s: string, i: nat, u: nat, e: nat)
    requires i + 1 + u < e < |s| && s[i] == '[' && s[e] == ']' && 0 < u
    requires UpperRun(s, i + 1) == u && DigitRun(s, i + 1 + u) == e - (i + 1 + u)
    ensures CitationAt(s, i) == Some(s[i + 1..e])
  {
  }

  /** A citation starts at `i` exactly when `"[" + c + "]"` occurs there with `c` a citation id. */
  lemma CitationAtIff(s: string, i: nat, c: string)
    ensures CitationAt(s, i) == Some(c) <==> OccursAt(s, "[" + c + "]", i) && IsCitationId(c)
  {
    if CitationAt(s, i) == Some(c) {
      CitationAtSound(s, i);
    }
    if OccursAt(s, "[" + c + "]", i) && IsCitationId(c) {
      var u: nat :| u < |c| && SplitsAt(c, u);
      CitationAtComplete(s, i, c, u);
    }
  }

  /** No citation starts inside another one. */
  lemma NoCitationInside(s: string, i: nat, c: string, p: nat)
    requires CitationAt(s, i) == Some(c) && i < p < i + |c| + 2
    ensures CitationAt(s, p).None?
  {
    var u := UpperRun(s, i + 1);
    assert p < |s|;
    if p <= i + u {
      assert IsUpper(s[p]);
    } else if p <= i + |c| {
      assert IsDigit(s[p]);
    } else {
      assert s[p] == ']';
    }
  }
  /** What `re.findall` sees at each position of `s`: the citation starting there, if any. */
  function Marks(s: string): (r: seq<Option<string>>)
    ensures |r| == |s| && forall i :: 0 <= i < |s| ==> r[i] == CitationAt(s, i)
  {
    seq(|s|, i requires 0 <= i < |s| => CitationAt(s, i))
  }

  /** No mark starts inside the span of another: a mark `c` at `q` covers `|c| + 2`
      positions. */
  predicate Disjoint(m: seq<Option<string>>) {
    forall q, p :: 0 <= q < p < |m| && m[q].Some? && p < q + |m[q].value| + 2 ==> m[p].None?
  }

  lemma MarksDisjoint(s: string)
    ensures Disjoint(Marks(s))
  {
    var m := Marks(s);
    forall q, p | 0 <= q < p < |m| && m[q].Some? && p < q + |m[q].value| + 2
      ensures m[p].None?
    {
      NoCitationInside(s, q, m[q].value, p);
    }
  }

  /** The marks found scanning from position `i`, left to right, skipping the span of each
      one found. */
  function Scan(m: seq<Option<string>>, i: nat): seq<string>
    decreases |m| - i
  {
    if i >= |m| then []
    else match m[i]
      case Some(c) => [c] + Scan(m, i + |c| + 2)
      case None => Scan(m, i + 1)
  }

  /** Everything the scan reports is a mark at or after `i`. */
  lemma {:induction false} ScanSound(m: seq<Option<string>>, i: nat, k: nat)
    requires k < |Scan(m, i)|
    ensures exists p :: i <= p < |m| && m[p] == Some(Scan(m, i)[k])
    decreases |m| - i
  {
    match m[i] {
      case Some(d) =>
        if k == 0 {
          assert m[i] == Some(Scan(m, i)[k]);
        } else {
          ScanSound(m, i + |d| + 2, k - 1);
        }
      case None =>
        ScanSound(m, i + 1, k);
    }
  }

  /** Every mark at or after `i` is reported, when no mark starts inside another. */
  lemma {:induction false} ScanComplete(m: seq<Option<string>>, i: nat, p: nat, x: string)
    requires Disjoint(m) && i <= p < |m| && m[p] == Some(x)
    ensures x in Scan(m, i)
    decreases |m| - i
  {
    if p > i {
      match m[i] {
        case Some(d) =>
          if p >= i + |d| + 2 {
            ScanComplete(m, i + |d| + 2, p, x);
          }
        case None =>
          ScanComplete(m, i + 1, p, x);
      }
    }
  }

  /** The citations found scanning the text from position `i`, left to right, without
      overlaps. */
  function CitationsFrom(s: string, i: nat): seq<string> {
    Scan(Marks(s), i)
  }

  /** The scan finds exactly the citations that start at or after `i`. */
  lemma CitationsFromMembers(s: string, i: nat, c: string)
    ensures c in CitationsFrom(s, i) <==> exists p :: i <= p < |s| && CitationAt(s, p) == Some(c)
  {
    var m := Marks(s);
    if c in CitationsFrom(s, i) {
      var k :| 0 <= k < |Scan(m, i)| && Scan(m, i)[k] == c;
      ScanSound(m, i, k);
    }
    if exists p :: i <= p < |s| && CitationAt(s, p) == Some(c) {
      var p :| i <= p < |s| && CitationAt(s, p) == Some(c);
      MarksDisjoint(s);
      ScanComplete(m, i, p, c);
    }
  }


  /** The elements of `xs` without repeats, in order of first occurrence. */
  function Dedup(xs: seq<string>): (r: seq<string>)
    ensures forall x :: x in r <==> x in xs
    ensures forall a, b :: 0 <= a < b < |r| ==> r[a] != r[b]
    decreases |xs|
  {
    if xs == [] then []
    else
      var d := Dedup(xs[..|xs| - 1]);
      var x := xs[|xs| - 1];
      assert forall y :: y in xs <==> y in xs[..|xs| - 1] || y == x;
      if x in d then d else d + [x]
  }

  /** `_extract_citations`: every id of a `[LETTERS DIGITS]` citation in the text, once.  The
      source returns them in set order; here they come in order of first occurrence. */
  function ExtractCitations(text: string): (r: seq<string>)
    ensures forall a, b :: 0 <= a < b < |r| ==> r[a] != r[b]
  {
    Dedup(CitationsFrom(text, 0))
  }

  /** An id is cited exactly when it is a citation id and appears in brackets in the text. */
  lemma CitationsAreBracketedIds(text: string, c: string)
    ensures c in ExtractCitations(text) <==> IsCitationId(c) && Contains(text, "[" + c + "]")
  {
    CitationsFromMembers(text, 0, c);
    ContainsIff(text, "[" + c + "]");
    if c in ExtractCitations(text) {
      var p :| 0 <= p < |text| && CitationAt(text, p) == Some(c);
      CitationAtIff(text, p, c);
    }
    if IsCitationId(c) && Contains(text, "[" + c + "]") {
      var p: nat :| OccursAt(text, "[" + c + "]", p);
      CitationAtIff(text, p, c);
    }
  }

  // ---------------------------------------------------------------------------------------
  // Retrieval confidence

  const NoRetrievalConfidence: real := 0.35

  function SumConfidence(facts: seq<CanonicalFact>): real
    decreases |facts|
  {
    if facts == [] then 0.0 else SumConfidence(facts[..|facts| - 1]) + facts[|facts| - 1].confidence
  }

  /** The mean confidence of the reranked notes, or 0.35 when nothing was retrieved. */
  function AvgConfidence(facts: seq<CanonicalFact>): (r: real)
    ensures facts == [] ==> r == NoRetrievalConfidence
  {
    if facts == [] then NoRetrievalConfidence else SumConfidence(facts) / (|facts| as real)
  }

  lemma {:induction false} SumBounds(facts: seq<CanonicalFact>, lo: real, hi: real)
    requires forall k :: 0 <= k < |facts| ==> lo <= facts[k].confidence <= hi
    ensures (|facts| as real) * lo <= SumConfidence(facts) <= (|facts| as real) * hi
    decreases |facts|
  {
    if facts != [] {
      SumBounds(facts[..|facts| - 1], lo, hi);
    }
  }

  /** The mean lies between any bounds on the individual confidences; in particular it is in
      [0, 1] for valid facts. */
  lemma AvgConfidenceBounds(facts: seq<CanonicalFact>, lo: real, hi: real)
    requires facts != []
    requires forall k :: 0 <= k < |facts| ==> lo <= facts[k].confidence <= hi
    ensures lo <= AvgConfidence(facts) <= hi
  {
    SumBounds(facts, lo, hi);
    var n := |facts| as real;
    var s := SumConfidence(facts);
    assert n * lo <= s <= n * hi;
    assert s / n >= lo by {
      assert s >= n * lo;
    }
    assert s / n <= hi by {
      assert s <= n * hi;
    }
  }

  // ---------------------------------------------------------------------------------------
  // Memory update rules

  /** How often the rolling summary is refreshed, in turns. */
  const SummaryEvery: nat := 5

  /** The words whose presence in the lower-cased message marks it as worth a note. */
  const PreferenceWords: seq<string> := ["prefer", "like", "dislike", "always", "never"]

  /** A summary is due when the history including the new turn has a multiple of five turns. */
  predicate SummaryDue(historyLen: nat) {
    (historyLen + 1) % SummaryEvery == 0
  }

  /** A note is due when the lower-cased message contains a preference word. */
  predicate NoteDue(userMessage: string) {
    MentionsAny(Lower(userMessage), PreferenceWords)
  }

  /** The bullet of the note: a fixed lead and the first 100 characters of the message. */
  function NoteBullet(userMessage: string): (r: string)
    ensures |r| <= 16 + 100
    ensures StartsWith(r, "User mentioned: ")
  {
    var r := "User mentioned: " + Take(userMessage, 100);
    assert r[..16] == "User mentioned: ";
    r
  }

  /** The history the summarizer sees: the caller's turns and the new one. */
  function FullHistory(history: seq<Turn>, userMessage: string, response: string): (r: seq<Turn>)
    ensures |r| == |history| + 1
    ensures r[..|history|] == history
    ensures r[|history|].UserText() == userMessage && r[|history|].AssistantText() == response
  {
    history + [Turn(Some(userMessage), Some(response))]
  }

  /** The notes table after the update: one row more exactly when a note is due. */
  function NotesAfter(notes: seq<NoteRow>, userId: string, userMessage: string, response: string): (r: seq<NoteRow>)
    ensures |r| == |notes| + (if NoteDue(userMessage) then 1 else 0)
    ensures r[..|notes|] == notes
    ensures NoteDue(userMessage) ==>
              r[|notes|] == NoteRow(|notes| + 1, userId, NoteBullet(userMessage), Some(map["response" := Take(response, 100)]))
  {
    if NoteDue(userMessage) then
      notes + [NoteRow(|notes| + 1, userId, NoteBullet(userMessage), Some(map["response" := Take(response, 100)]))]
    else notes
  }

  /** The rolling summary the update writes: the summarizer's output over the full history
      given the session's previous summary, if it has one. */
  function NewSummary(summaries: map<string, SummaryRow>, sessionId: string, history: seq<Turn>,
                      userMessage: string, response: string, generate: Generate): (r: string)
    ensures IsTrimmed(r)
  {
    var previous := if sessionId in summaries then Some(summaries[sessionId].rollingSummary) else None;
    Summarize(FullHistory(history, userMessage, response), previous, generate)
  }

  /** The summaries table after the update: the session's row is replaced exactly when a
      summary is due, recording the length of the full history; other sessions keep theirs. */
  function SummariesAfter(summaries: map<string, SummaryRow>, sessionId: string, userId: string, history: seq<Turn>,
                          userMessage: string, response: string, generate: Generate): (r: map<string, SummaryRow>)
    ensures !SummaryDue(|history|) ==> r == summaries
    ensures SummaryDue(|history|) ==>
              sessionId in r && r[sessionId].userId == userId && r[sessionId].conversationTurns == |history| + 1
    ensures forall s :: s != sessionId ==> (s in r <==> s in summaries) && (s in r ==> r[s] == summaries[s])
  {
    if SummaryDue(|history|) then
      summaries[sessionId := SummaryRow(userId, NewSummary(summaries, sessionId, history, userMessage, response, generate),
                                        |history| + 1)]
    else summaries
  }

  /** `_update_memory`: refresh the session's summary when one is due, and add a note when
      the message states a preference.  The turn itself is not stored. */
  method UpdateMemory(memory: EpisodicMemory, userId: string, sessionId: string, userMessage: string,
                      response: string, history: seq<Turn>, generate: Generate)
    requires memory.Valid()
    modifies memory
    ensures memory.Valid()
    ensures memory.summaries == SummariesAfter(old(memory.summaries), sessionId, userId, history, userMessage, response, generate)
    ensures memory.notes == NotesAfter(old(memory.notes), userId, userMessage, response)
    ensures memory.turns == old(memory.turns)
  {
    var full := history + [Turn(Some(userMessage), Some(response))];
    if |full| % 5 == 0 {
      var record := memory.GetSummary(sessionId);
      var previous := if record.Some? then Some(record.value.rollingSummary) else None;
      var summary := Summarize(full, previous, generate);
      memory.UpdateSummary(sessionId, userId, summary, |full|);
    }
    if NoteDue(userMessage) {
      memory.AddNote(userId, "User mentioned: " + Take(userMessage, 100), Some(map["response" := Take(response, 100)]));
    }
  }

  // ---------------------------------------------------------------------------------------
  // The judge/edit loop

  /** The loop variables of step 7: the current response, the number of edits applied, the
      last judgement's scores and edits, and the responses judged so far. */
  datatype LoopState = LoopState(response: string, iterations: nat, scores: Option<JudgeScores>,
                                 edits: seq<string>, judged: seq<string>)

  /** The state before the first judgement. */
  function Start(styled: string): (st: LoopState)
    ensures st.response == styled && st.iterations == 0 && st.scores.None? && st.edits == [] && st.judged == []
  {
    LoopState(styled, 0, None, [], [])
  }

  /** The loop as a function of its state: a judgement that raises ends the turn with that
      exception; otherwise the scores are kept, and an accept, or a rejection without edits,
      stops the loop; a rejection with edits applies them and counts an iteration. */
  function Revise(st: LoopState, judge: string -> Result<JudgeDecision>, edit: (string, seq<string>) -> string): Result<LoopState>
    decreases MAX_REVISE_LOOPS - st.iterations
  {
    if st.iterations >= MAX_REVISE_LOOPS then Ok(st)
    else match judge(st.response)
      case Err(e) => Err(e)
      case Ok(d) =>
        var judgedSt := st.(scores := Some(d.scores), judged := st.judged + [st.response]);
        if d.accept || d.targetedEdits == [] then Ok(judgedSt)
        else Revise(judgedSt.(response := edit(st.response, d.targetedEdits), edits := d.targetedEdits,
                              iterations := st.iterations + 1), judge, edit)
  }

  /** What the loop keeps: the edit count never exceeds the bound, each judgement is recorded,
      and the judge runs once per edit applied plus once more unless the bound was reached. */
  lemma {:induction false} ReviseBounds(st: LoopState, judge: string -> Result<JudgeDecision>,
                                        edit: (string, seq<string>) -> string)
    requires st.iterations <= MAX_REVISE_LOOPS
    ensures var r := Revise(st, judge, edit);
            r.Ok? ==>
              && st.iterations <= r.value.iterations <= MAX_REVISE_LOOPS
              && |st.judged| <= |r.value.judged|
              && r.value.judged[..|st.judged|] == st.judged
              && (r.value.iterations == MAX_REVISE_LOOPS ==>
                    |r.value.judged| == |st.judged| + (r.value.iterations - st.iterations))
              && (r.value.iterations < MAX_REVISE_LOOPS ==>
                    |r.value.judged| == |st.judged| + (r.value.iterations - st.iterations) + 1)
    decreases MAX_REVISE_LOOPS - st.iterations
  {
    if st.iterations < MAX_REVISE_LOOPS {
      match judge(st.response) {
        case Err(e) =>
        case Ok(d) =>
          var judgedSt := st.(scores := Some(d.scores), judged := st.judged + [st.response]);
          if !(d.accept || d.targetedEdits == []) {
            var next := judgedSt.(response := edit(st.response, d.targetedEdits), edits := d.targetedEdits,
                                  iterations := st.iterations + 1);
            ReviseBounds(next, judge, edit);
            if Revise(next, judge, edit).Ok? {
              var r := Revise(next, judge, edit).value;
              assert r.judged[..|st.judged|] == r.judged[..|next.judged|][..|st.judged|];
            }
          }
      }
    }
  }

  /** The judge runs at most `MAX_REVISE_LOOPS` times in all. */
  lemma JudgedAtMostMax(styled: string, judge: string -> Result<JudgeDecision>, edit: (string, seq<string>) -> string)
    requires Revise(Start(styled), judge, edit).Ok?
    ensures |Revise(Start(styled), judge, edit).value.judged| <= MAX_REVISE_LOOPS
  {
    ReviseBounds(Start(styled), judge, edit);
  }

  /** How the loop ends.  Below the bound, the returned response is the one judged last and
      that judgement accepted it or proposed no edits.  Whenever an edit was applied, the
      returned response is the editor's output for the last judged response and the last
      edits, and the scores are those of the last judgement, so at the bound the final edit
      is returned unjudged with the previous judgement's scores. */
  lemma {:induction false} ReviseOutcome(st: LoopState, judge: string -> Result<JudgeDecision>,
                                         edit: (string, seq<string>) -> string)
    requires st.iterations <= MAX_REVISE_LOOPS
    ensures var r := Revise(st, judge, edit);
            r.Ok? && |r.value.judged| > |st.judged| ==>
              var last := r.value.judged[|r.value.judged| - 1];
              && judge(last).Ok?
              && r.value.scores == Some(judge(last).value.scores)
              && (r.value.iterations < MAX_REVISE_LOOPS ==>
                    r.value.response == last && (judge(last).value.accept || judge(last).value.targetedEdits == []))
              && (r.value.iterations > st.iterations ==>
                    (r.value.iterations == MAX_REVISE_LOOPS ==>
                       && !judge(last).value.accept
                       && r.value.edits == judge(last).value.targetedEdits
                       && r.value.response == edit(last, r.value.edits)))
    decreases MAX_REVISE_LOOPS - st.iterations
  {
    if st.iterations < MAX_REVISE_LOOPS {
      match judge(st.response) {
        case Err(e) =>
        case Ok(d) =>
          var judgedSt := st.(scores := Some(d.scores), judged := st.judged + [st.response]);
          if !(d.accept || d.targetedEdits == []) {
            var next := judgedSt.(response := edit(st.response, d.targetedEdits), edits := d.targetedEdits,
                                  iterations := st.iterations + 1);
            assert Revise(st, judge, edit) == Revise(next, judge, edit);
            ReviseOutcome(next, judge, edit);
            ReviseBounds(next, judge, edit);
            if next.iterations == MAX_REVISE_LOOPS {
              assert Revise(next, judge, edit) == Ok(next);
              assert next.judged[|next.judged| - 1] == st.response;
            }
          } else {
            assert Revise(st, judge, edit) == Ok(judgedSt);
            assert judgedSt.judged[|judgedSt.judged| - 1] == st.response;
          }
      }
    }
  }

  /** No edit applied means the response is returned as it came in. */
  lemma {:induction false} ReviseUnedited(st: LoopState, judge: string -> Result<JudgeDecision>,
                                          edit: (string, seq<string>) -> string)
    requires st.iterations <= MAX_REVISE_LOOPS
    requires Revise(st, judge, edit).Ok? && Revise(st, judge, edit).value.iterations == st.iterations
    ensures Revise(st, judge, edit).value.response == st.response
    ensures Revise(st, judge, edit).value.edits == st.edits
    decreases MAX_REVISE_LOOPS - st.iterations
  {
    if st.iterations < MAX_REVISE_LOOPS {
      match judge(st.response) {
        case Err(e) =>
        case Ok(d) =>
          var judgedSt := st.(scores := Some(d.scores), judged := st.judged + [st.response]);
          if !(d.accept || d.targetedEdits == []) {
            var next := judgedSt.(response := edit(st.response, d.targetedEdits), edits := d.targetedEdits,
                                  iterations := st.iterations + 1);
            ReviseBounds(next, judge, edit);
          }
      }
    }
  }

  /** A judge that always rejects with edits, such as one whose every reply is the parse
      fallback, still lets the loop end: after exactly `MAX_REVISE_LOOPS` edits. */
  lemma {:induction false} AlwaysRejectReachesMax(st: LoopState, judge: string -> Result<JudgeDecision>,
                                                  edit: (string, seq<string>) -> string)
    requires st.iterations <= MAX_REVISE_LOOPS
    requires forall s :: judge(s).Ok? && !judge(s).value.accept && judge(s).value.targetedEdits != []
    ensures Revise(st, judge, edit).Ok?
    ensures Revise(st, judge, edit).value.iterations == MAX_REVISE_LOOPS
    decreases MAX_REVISE_LOOPS - st.iterations
  {
    if st.iterations < MAX_REVISE_LOOPS {
      var d := judge(st.response).value;
      var judgedSt := st.(scores := Some(d.scores), judged := st.judged + [st.response]);
      AlwaysRejectReachesMax(judgedSt.(response := edit(st.response, d.targetedEdits), edits := d.targetedEdits,
                                       iterations := st.iterations + 1), judge, edit);
    }
  }

  /** The parse fallback rejects with one edit, so a judge that always falls back makes the
      loop apply `MAX_REVISE_LOOPS` edits. */
  lemma FallbackReachesMax(styled: string, edit: (string, seq<string>) -> string)
    ensures var judge := (s: string) => Ok(Fallback);
            && Revise(Start(styled), judge, edit).Ok?
            && Revise(Start(styled), judge, edit).value.iterations == MAX_REVISE_LOOPS
            && Revise(Start(styled), judge, edit).value.edits == Fallback.targetedEdits
  {
    var judge := (s: string) => Ok(Fallback);
    AlwaysRejectReachesMax(Start(styled), judge, edit);
    ReviseOutcome(Start(styled), judge, edit);
    ReviseBounds(Start(styled), judge, edit);
  }

  /** An accepted first judgement returns the styled response unedited, with its scores. */
  lemma AcceptFirst(styled: string, judge: string -> Result<JudgeDecision>, edit: (string, seq<string>) -> string)
    requires judge(styled).Ok? && judge(styled).value.accept
    ensures Revise(Start(styled), judge, edit) ==
              Ok(LoopState(styled, 0, Some(judge(styled).value.scores), [], [styled]))
  {
    var st := Start(styled);
    assert st.iterations < MAX_REVISE_LOOPS;
    assert st.judged + [st.response] == [styled];
  }

  /** Step 7 of `process_turn`: judge, stop on accept or on a rejection without edits,
      otherwise apply the edits, at most `MAX_REVISE_LOOPS` times. */
  method ReviseLoop(styled: string, judge: string -> Result<JudgeDecision>, edit: (string, seq<string>) -> string)
    returns (r: Result<LoopState>)
    ensures r == Revise(Start(styled), judge, edit)
  {
    var st := Start(styled);
    while st.iterations < MAX_REVISE_LOOPS
      invariant st.iterations <= MAX_REVISE_LOOPS
      invariant Revise(st, judge, edit) == Revise(Start(styled), judge, edit)
      decreases MAX_REVISE_LOOPS - st.iterations
    {
      var decision := judge(st.response);
      if decision.Err? {
        assert Revise(st, judge, edit) == Err(decision.error);
        return Err(decision.error);
      }
      var d := decision.value;
      var judgedSt := st.(scores := Some(d.scores), judged := st.judged + [st.response]);
      if d.accept {
        assert Revise(st, judge, edit) == Ok(judgedSt);
        return Ok(judgedSt);
      }
      if d.targetedEdits != [] {
        st := judgedSt.(response := edit(st.response, d.targetedEdits), edits := d.targetedEdits,
                        iterations := st.iterations + 1);
      } else {
        assert Revise(st, judge, edit) == Ok(judgedSt);
        return Ok(judgedSt);
      }
    }
    assert Revise(st, judge, edit) == Ok(st);
    r := Ok(st);
  }

  // ---------------------------------------------------------------------------------------
  // One turn

  /** The retrieved notes as the judge's prompt lists them. */
  function JudgeNotes(notes: seq<CanonicalFact>): (r: seq<Note>)
    ensures |r| == |notes|
    ensures forall i :: 0 <= i < |r| ==> r[i] == Note(notes[i].id, notes[i].text)
  {
    seq(|notes|, i requires 0 <= i < |notes| => Note(notes[i].id, notes[i].text))
  }

  /** The judge as step 7 calls it, with the reranked notes and the pack's tone, formality
      and taboos. */
  function JudgeWith(userMessage: string, notes: seq<CanonicalFact>, pack: StylePolicyPack, generate: Generate,
                     loads: Loads, floatOfStr: FloatOfStr): string -> Result<JudgeDecision> {
    (response: string) =>
      JudgeTurn(response, userMessage, JudgeNotes(notes), pack.tone, pack.formality, pack.taboos, generate, loads, floatOfStr)
  }

  /** The editor as step 7 calls it. */
  function EditWith(userMessage: string, generate: Generate): (string, seq<string>) -> string {
    (response: string, edits: seq<string>) => ApplyEditsReply(response, edits, userMessage, generate)
  }

  /** The pack the contextor builds for the message and the retrieval confidence. */
  function PackFor(c: Contextor, userMessage: string, confidence: real, generate: Generate, loads: Loads): Result<StylePolicyPack>
    reads c
  {
    var intent := ClassifyIntent(userMessage);
    PackFromReply(generate(StylePack(Take(c.styleRules, 500), Take(c.taboos, 10), userMessage, intent, confidence)),
                  loads, intent, c.taboos, c.examples)
  }

  /** The note ids the trace records as used: the citations, or failing any, every retrieved note. */
  function NotesUsed(citations: seq<string>, notes: seq<CanonicalFact>): (r: seq<string>)
    ensures citations != [] ==> r == citations
    ensures citations == [] ==> |r| == |notes| && forall i :: 0 <= i < |r| ==> r[i] == notes[i].id
  {
    if citations != [] then citations else seq(|notes|, i requires 0 <= i < |notes| => notes[i].id)
  }

  /** The session of the turn: the caller's, or a freshly generated id. */
  function SessionOf(sessionId: Option<string>, freshId: string): (r: string)
    ensures sessionId.Some? ==> r == sessionId.value
    ensures sessionId.None? ==> r == freshId
  {
    if sessionId.Some? then sessionId.value else freshId
  }

  /** What `process_turn` returns: the response, the session, the cited ids, the last
      judgement's scores and whether an edit was applied. */
  datatype TurnResult = TurnResult(response: string, sessionId: string, citations: seq<string>,
                                   scores: Option<JudgeScores>, revised: bool)

  /** What the trace records of steps 1 to 5: the query, the number of hits, the batches
      sent to the cross-encoder, the reranked notes, their mean confidence, the draft and the
      contextor's pack. */
  datatype Preparation = Preparation(query: string, initialRetrievalCount: nat, rerankCalls: seq<seq<Pair>>,
                                     notes: seq<CanonicalFact>, confidence: real, draft: string,
                                     pack: Result<StylePolicyPack>)

  /** The intermediate values the trace records. */
  datatype Trace = Trace(prep: Preparation, styled: string, iterations: nat, judgeEdits: seq<string>,
                         notesUsed: seq<string>)

  /** Step 2 of `process_turn` as a value: the facts of the first twenty hits of the search,
      best first. */
  function SearchedFacts(facts: seq<CanonicalFact>, scores: seq<real>, argsort: seq<nat>,
                         collection: Option<seq<(string, real)>>): (r: seq<CanonicalFact>)
    requires |scores| == |facts| && IsArgsort(scores, argsort)
    ensures var ranking := SearchRanking(facts, scores, argsort, collection, K_RETRIEVE_INITIAL);
            |r| == |ranking| && forall i :: 0 <= i < |r| ==> r[i] == facts[ranking[i].0]
  {
    var ranking := SearchRanking(facts, scores, argsort, collection, K_RETRIEVE_INITIAL);
    seq(|ranking|, i requires 0 <= i < |ranking| => facts[ranking[i].0])
  }

  /** Steps 2 and 3 of `process_turn` as values: the searched facts reranked by the
      cross-encoder to the best five. */
  function RetrievedNotes(facts: seq<CanonicalFact>, query: string, scores: seq<real>, argsort: seq<nat>,
                          collection: Option<seq<(string, real)>>, predict: Predict): (r: seq<CanonicalFact>)
    requires |scores| == |facts| && IsArgsort(scores, argsort)
    ensures |r| <= K_RETRIEVE
    ensures forall i :: 0 <= i < |r| ==> r[i] in facts
    ensures SearchRanking(facts, scores, argsort, collection, K_RETRIEVE_INITIAL) == [] ==> r == []
  {
    var found := SearchedFacts(facts, scores, argsort, collection);
    var r := RerankedFacts(query, found, K_RETRIEVE, predict);
    forall i | 0 <= i < |r| ensures r[i] in facts {
      var j :| 0 <= j < |found| && found[j] == r[i];
    }
    r
  }

  /** Step 3 of `process_turn`: the retrieved hits reranked to the best five, unless none
      were retrieved, as the facts they carry. */
  method RerankNotes(query: string, initial: seq<Hit>, predict: Predict)
    returns (notes: seq<CanonicalFact>, rerankCalls: seq<seq<Pair>>)
    requires Distinct(initial)
    modifies initial
    ensures initial == [] ==> rerankCalls == [] && notes == []
    ensures initial != [] ==> rerankCalls == [TextPairs(query, HitFacts(initial))]
    ensures notes == RerankedFacts(query, HitFacts(initial), K_RETRIEVE, predict)
  {
    var reranked: seq<Hit> := [];
    rerankCalls := [];
    PairsOfFacts(query, initial);
    if initial != [] {
      reranked, rerankCalls := Rerank.Rerank(query, initial, K_RETRIEVE, predict);
    }
    notes := HitFacts(reranked);
    ghost var fs := HitFacts(initial);
    ghost var keys := Zipped(initial, predict(Pairs(query, initial)));
    assert keys == Take(predict(TextPairs(query, fs)), |fs|);
    ghost var order := RerankOrder(keys, K_RETRIEVE);
    forall i | 0 <= i < |notes| ensures notes[i] == fs[order[i]] {
      assert reranked[i] == initial[order[i]];
    }
  }

  /** The orchestrator's collaborators: the facts the retriever has loaded, the contextor
      with its persona artifacts, and the episodic memory. */
  class Orchestrator {
    const facts: seq<CanonicalFact>
    const contextor: Contextor
    const memory: EpisodicMemory

    constructor (facts: seq<CanonicalFact>, contextor: Contextor, memory: EpisodicMemory)
      ensures this.facts == facts && this.contextor == contextor && this.memory == memory
    {
      this.facts := facts;
      this.contextor := contextor;
      this.memory := memory;
    }

    /** Steps 2 and 3 of `process_turn`: the first twenty hits for the query, reranked to the
        best five unless nothing was retrieved, as the facts they carry. */
    method RetrieveNotes(query: string, scores: seq<real>, argsort: seq<nat>,
                         collection: Option<seq<(string, real)>>, predict: Predict)
      returns (notes: seq<CanonicalFact>, initialCount: nat, rerankCalls: seq<seq<Pair>>)
      requires |scores| == |facts| && IsArgsort(scores, argsort)
      ensures initialCount == |SearchRanking(facts, scores, argsort, collection, K_RETRIEVE_INITIAL)|
      ensures initialCount <= K_RETRIEVE_INITIAL
      ensures initialCount == 0 ==> rerankCalls == []
      ensures initialCount > 0 ==> rerankCalls == [TextPairs(query, SearchedFacts(facts, scores, argsort, collection))]
      ensures notes == RetrievedNotes(facts, query, scores, argsort, collection, predict)
    {
      var initial, indexCalls := Search(facts, query, K_RETRIEVE_INITIAL, scores, argsort, collection);
      initialCount := |initial|;
      ghost var found := SearchedFacts(facts, scores, argsort, collection);
      assert HitFacts(initial) == found by {
        forall i | 0 <= i < |initial| ensures HitFacts(initial)[i] == found[i] { }
      }
      notes, rerankCalls := RerankNotes(query, initial, predict);
    }

    /** What steps 1 to 5 record: the query built from the message, the last turns and the
        first five entity mentions; the number of hits of the search; the one batch sent to
        the cross-encoder unless nothing was retrieved; the notes, which are the searched
        facts reranked to the best five; their mean confidence; the producer's draft for
        them; and the contextor's pack. */
    ghost predicate Prepared(p: Preparation, userMessage: string, history: seq<Turn>, scores: seq<real>, argsort: seq<nat>,
                             collection: Option<seq<(string, real)>>, predict: Predict, generate: Generate, loads: Loads)
      requires |scores| == |facts| && IsArgsort(scores, argsort)
      reads contextor
    {
      && p.query == Join(" ", QueryParts(userMessage, history, Take(EntityWords(Split(userMessage)), 5)))
      && p.initialRetrievalCount == |SearchRanking(facts, scores, argsort, collection, K_RETRIEVE_INITIAL)|
      && p.initialRetrievalCount <= K_RETRIEVE_INITIAL
      && (p.initialRetrievalCount == 0 ==> p.rerankCalls == [])
      && (p.initialRetrievalCount > 0 ==> p.rerankCalls == [TextPairs(p.query, SearchedFacts(facts, scores, argsort, collection))])
      && p.notes == RetrievedNotes(facts, p.query, scores, argsort, collection, predict)
      && p.confidence == AvgConfidence(p.notes)
      && p.draft == Strip(generate(if p.notes == [] then DraftFromHistory(HistoryBlock(history), userMessage)
                                   else DraftFromNotes(Join("\n", Producer.NoteLines(p.notes)), p.query)))
      && p.pack == PackFor(contextor, userMessage, p.confidence, generate, loads)
    }

    /** Steps 1 to 5 of `process_turn`: the query, retrieval, reranking, the draft and the pack. */
    method PrepareTurn(userMessage: string, history: seq<Turn>, scores: seq<real>, argsort: seq<nat>,
                       collection: Option<seq<(string, real)>>, predict: Predict, generate: Generate, loads: Loads)
      returns (p: Preparation)
      requires |scores| == |facts| && IsArgsort(scores, argsort)
      ensures Prepared(p, userMessage, history, scores, argsort, collection, predict, generate, loads)
    {
      // step 1: the conversation-aware query
      var entities := ExtractEntities(userMessage);
      var query := BuildConversationQuery(userMessage, history, entities);
      // steps 2 and 3: retrieval and reranking
      var notes, initialCount, rerankCalls := RetrieveNotes(query, scores, argsort, collection, predict);
      var confidence := AvgConfidence(notes);
      // step 4: the neutral draft
      var draft, draftPrompt := Produce(query, notes, userMessage, history, generate);
      // step 5: the style and policy pack
      var pack, packPrompt := contextor.BuildPack(userMessage, confidence, generate, loads);
      assert pack == PackFor(contextor, userMessage, confidence, generate, loads);
      p := Preparation(query, initialCount, rerankCalls, notes, confidence, draft, pack);
    }

    /** `process_turn`.  The index, the cross-encoder, the language model and the decoders
        are oracles: `scores` and `argsort` are BM25's answer for the query, `collection` the
        vector store's.  An exception from the contextor or the judge ends the turn before
        memory is touched. */
    method ProcessTurn(userMessage: string, userId: string, sessionId: Option<string>, history: seq<Turn>,
                       freshId: string, scores: seq<real>, argsort: seq<nat>,
                       collection: Option<seq<(string, real)>>, predict: Predict, generate: Generate,
                       loads: Loads, floatOfStr: FloatOfStr)
      returns (r: Result<TurnResult>, trace: Trace)
      requires |scores| == |facts| && IsArgsort(scores, argsort)
      requires memory.Valid()
      modifies memory
      ensures memory.Valid()
      ensures memory.turns == old(memory.turns)
      ensures old(Prepared(trace.prep, userMessage, history, scores, argsort, collection, predict, generate, loads))
      ensures trace.prep.pack.Err? ==> r == Err(trace.prep.pack.error)
      ensures trace.prep.pack.Ok? ==> trace.styled == Strip(generate(Refine(trace.prep.draft, trace.prep.pack.value, userMessage)))
      ensures trace.prep.pack.Ok? ==>
                var loop := Revise(Start(trace.styled),
                                   JudgeWith(userMessage, trace.prep.notes, trace.prep.pack.value, generate, loads, floatOfStr),
                                   EditWith(userMessage, generate));
                && (loop.Err? ==> r == Err(loop.error))
                && (loop.Ok? ==>
                      && r == Ok(TurnResult(loop.value.response, SessionOf(sessionId, freshId),
                                            ExtractCitations(loop.value.response), loop.value.scores,
                                            loop.value.iterations > 0))
                      && trace.iterations == loop.value.iterations
                      && trace.judgeEdits == loop.value.edits
                      && trace.notesUsed == NotesUsed(ExtractCitations(loop.value.response), trace.prep.notes))
      ensures r.Err? ==> memory.notes == old(memory.notes) && memory.summaries == old(memory.summaries)
      ensures r.Ok? ==>
                && memory.notes == NotesAfter(old(memory.notes), userId, userMessage, r.value.response)
                && memory.summaries == SummariesAfter(old(memory.summaries), r.value.sessionId, userId, history,
                                                      userMessage, r.value.response, generate)
    {
      var session := if sessionId.Some? then sessionId.value else freshId;
      var p := PrepareTurn(userMessage, history, scores, argsort, collection, predict, generate, loads);
      trace := Trace(p, "", 0, [], []);
      if p.pack.Err? {
        return Err(p.pack.error), trace;
      }
      var styled, final;
      r, styled, final := FinishTurn(userMessage, userId, session, history, p.notes, p.draft, p.pack.value,
                                     generate, loads, floatOfStr);
      if r.Ok? {
        trace := Trace(p, styled, final.iterations, final.edits, NotesUsed(r.value.citations, p.notes));
      } else {
        trace := Trace(p, styled, 0, [], []);
      }
    }

    /** Steps 6 and 7 of `process_turn`, then the citations and the memory update. */
    method FinishTurn(userMessage: string, userId: string, session: string, history: seq<Turn>,
                      notes: seq<CanonicalFact>, draft: string, pack: StylePolicyPack, generate: Generate,
                      loads: Loads, floatOfStr: FloatOfStr)
      returns (r: Result<TurnResult>, styled: string, final: LoopState)
      requires memory.Valid()
      modifies memory
      ensures memory.Valid()
      ensures memory.turns == old(memory.turns)
      ensures styled == Strip(generate(Refine(draft, pack, userMessage)))
      ensures var loop := Revise(Start(styled), JudgeWith(userMessage, notes, pack, generate, loads, floatOfStr),
                                 EditWith(userMessage, generate));
              && (loop.Err? ==> r == Err(loop.error))
              && (loop.Ok? ==>
                    && final == loop.value
                    && r == Ok(TurnResult(final.response, session, ExtractCitations(final.response), final.scores,
                                          final.iterations > 0)))
      ensures r.Err? ==> memory.notes == old(memory.notes) && memory.summaries == old(memory.summaries)
      ensures r.Ok? ==>
                && memory.notes == NotesAfter(old(memory.notes), userId, userMessage, r.value.response)
                && memory.summaries == SummariesAfter(old(memory.summaries), session, userId, history,
                                                      userMessage, r.value.response, generate)
    {
      // step 6: the styled message
      styled := Strip(generate(Refine(draft, pack, userMessage)));
      // step 7: judge and revise
      var loop := ReviseLoop(styled, JudgeWith(userMessage, notes, pack, generate, loads, floatOfStr),
                             EditWith(userMessage, generate));
      if loop.Err? {
        return Err(loop.error), styled, Start(styled);
      }
      final := loop.value;
      var citations := ExtractCitations(final.response);
      UpdateMemory(memory, userId, session, userMessage, final.response, history, generate);
      r := Ok(TurnResult(final.response, session, citations, final.scores, final.iterations > 0));
    }
  }
}
