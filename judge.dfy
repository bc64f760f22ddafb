/** The judge agent: it scores a response on factuality, persona, helpfulness and safety,
    reconciles the model's accept flag with a 4.0 threshold, falls back to a conservative
    rejection whenever the reply cannot be decoded or validated, and applies edits. */
module Judge {
  import opened PyText
  import opened Json
  import opened Models
  import opened Llm

  /** Minimum score on each of the four judged dimensions. */
  const Threshold: real := 4.0

  const FallbackEdit: string := "Unable to parse judge response. Please review manually."

  /** The conservative rejection returned when the reply cannot be used. */
  const Fallback: JudgeDecision := JudgeDecision(false, JudgeScores(3.0, 3.0, 3.0, 5.0, 3.5), [FallbackEdit])

  /** The exceptions `judge` catches around decoding and validation. */
  const Handled: set<PyError> := {JSONDecodeError, KeyError, ValueError, TypeError}

  /** A retrieved note as the judge's prompt shows it. */
  datatype Note = Note(factId: string, text: string)

  function NoteLine(n: Note): string {
    "- [" + n.factId + "] " + n.text
  }

  function NoteLines(notes: seq<Note>): (r: seq<string>)
    ensures |r| == |notes|
    ensures forall i :: 0 <= i < |r| ==> r[i] == NoteLine(notes[i])
  {
    seq(|notes|, i requires 0 <= i < |notes| => NoteLine(notes[i]))
  }

  /** The note block of the prompt: the first five notes, one line each. */
  function NotesSummary(notes: seq<Note>): string {
    Join("\n", NoteLines(Take(notes, 5)))
  }

  /** Notes without line breaks come back, line by line, as the first at most five notes
      in retrieval order, each rendered "- [id] text". */
  lemma NotesSummaryLines(notes: seq<Note>)
    requires notes != []
    requires forall n :: n in notes ==> '\n' !in n.factId && '\n' !in n.text
    ensures |SplitOn(NotesSummary(notes), '\n')| == if |notes| < 5 then |notes| else 5
    ensures forall i :: 0 <= i < |SplitOn(NotesSummary(notes), '\n')| ==>
              SplitOn(NotesSummary(notes), '\n')[i] == "- [" + notes[i].factId + "] " + notes[i].text
  {
    var lines := NoteLines(Take(notes, 5));
    forall p | p in lines ensures '\n' !in p {
      var i :| 0 <= i < |lines| && lines[i] == p;
      assert Take(notes, 5)[i] in notes;
    }
    SplitOnJoin(lines, '\n');
  }

  /** `float(data.get(key, default))`. */
  function Score(m: map<string, Json>, key: string, default: real, floatOfStr: FloatOfStr): (r: Result<real>)
    ensures key !in m ==> r == Ok(default)
    ensures key in m && m[key].JNum? ==> r == Ok(m[key].n)
    ensures r.Err? ==> r.error in {TypeError, ValueError}
  {
    ToFloat(Get(m, key, JNum(default)), floatOfStr)
  }

  /** A score that is absent or a number in [1, 5]. */
  predicate ScoreFieldOk(m: map<string, Json>, key: string) {
    key !in m || (m[key].JNum? && 1.0 <= m[key].n <= 5.0)
  }

  /** A score that is a number outside [1, 5]. */
  predicate ScoreOutOfRange(m: map<string, Json>, key: string) {
    key in m && m[key].JNum? && !(1.0 <= m[key].n <= 5.0)
  }

  /** The five scores with their defaults, validated into `JudgeScores`. */
  function ParseScores(m: map<string, Json>, floatOfStr: FloatOfStr): (r: Result<JudgeScores>)
    ensures r.Ok? ==> r.value.Valid()
    ensures r.Ok? && "factuality" !in m ==> r.value.factuality == 3.0
    ensures r.Ok? && "persona" !in m ==> r.value.persona == 3.0
    ensures r.Ok? && "helpfulness" !in m ==> r.value.helpfulness == 3.0
    ensures r.Ok? && "safety" !in m ==> r.value.safety == 5.0
    ensures r.Ok? && "overall" !in m ==> r.value.overall == 3.0
    ensures r.Ok? && "factuality" in m && m["factuality"].JNum? ==> r.value.factuality == m["factuality"].n
    ensures r.Ok? && "persona" in m && m["persona"].JNum? ==> r.value.persona == m["persona"].n
    ensures r.Ok? && "helpfulness" in m && m["helpfulness"].JNum? ==> r.value.helpfulness == m["helpfulness"].n
    ensures r.Ok? && "safety" in m && m["safety"].JNum? ==> r.value.safety == m["safety"].n
    ensures r.Ok? && "overall" in m && m["overall"].JNum? ==> r.value.overall == m["overall"].n
    ensures (ScoreFieldOk(m, "factuality") && ScoreFieldOk(m, "persona") && ScoreFieldOk(m, "helpfulness")
             && ScoreFieldOk(m, "safety") && ScoreFieldOk(m, "overall")) ==> r.Ok?
    ensures (ScoreOutOfRange(m, "factuality") || ScoreOutOfRange(m, "persona") || ScoreOutOfRange(m, "helpfulness")
             || ScoreOutOfRange(m, "safety") || ScoreOutOfRange(m, "overall")) ==> r.Err?
    ensures r.Err? ==> r.error in {TypeError, ValueError}
  {
    Assemble(Score(m, "factuality", 3.0, floatOfStr), Score(m, "persona", 3.0, floatOfStr),
             Score(m, "helpfulness", 3.0, floatOfStr), Score(m, "safety", 5.0, floatOfStr),
             Score(m, "overall", 3.0, floatOfStr))
  }

  /** The first failed conversion in field order, else the validated scores. */
  function Assemble(f: Result<real>, p: Result<real>, h: Result<real>, s: Result<real>, o: Result<real>): (r: Result<JudgeScores>)
    ensures r.Ok? ==> f.Ok? && p.Ok? && h.Ok? && s.Ok? && o.Ok?
    ensures r.Ok? ==> r.value == JudgeScores(f.value, p.value, h.value, s.value, o.value) && r.value.Valid()
    ensures f.Ok? && p.Ok? && h.Ok? && s.Ok? && o.Ok? && JudgeScores(f.value, p.value, h.value, s.value, o.value).Valid() ==> r.Ok?
    ensures r.Err? ==> r.error == ValueError || (f.Err? && r.error == f.error) || (p.Err? && r.error == p.error)
                       || (h.Err? && r.error == h.error) || (s.Err? && r.error == s.error) || (o.Err? && r.error == o.error)
  {
    if f.Err? then Err(f.error)
    else if p.Err? then Err(p.error)
    else if h.Err? then Err(h.error)
    else if s.Err? then Err(s.error)
    else if o.Err? then Err(o.error)
    else NewJudgeScores(f.value, p.value, h.value, s.value, o.value)
  }

  /** Factuality, persona, helpfulness and safety all reach the threshold. */
  predicate MeetsThreshold(s: JudgeScores) {
    s.factuality >= Threshold && s.persona >= Threshold && s.helpfulness >= Threshold && s.safety >= Threshold
  }

  /** The accept decision: a falsy flag is replaced by the threshold test, a truthy one is
      kept and validated as a boolean by the decision model. */
  function Accept(flag: Json, s: JudgeScores): (r: Result<bool>)
    ensures flag.JBool? ==> r == Ok(flag.b || MeetsThreshold(s))
    ensures !Truthy(flag) ==> r == Ok(MeetsThreshold(s))
    ensures Truthy(flag) ==> r == AsBool(flag)
  {
    if !Truthy(flag) then Ok(MeetsThreshold(s)) else AsBool(flag)
  }

  /** The decision built from a decoded object, or the error its construction raises. */
  function DecisionFromFields(m: map<string, Json>, floatOfStr: FloatOfStr): (r: Result<JudgeDecision>)
    ensures r.Ok? ==> ParseScores(m, floatOfStr) == Ok(r.value.scores)
    ensures r.Ok? ==> Accept(Get(m, "accept", JBool(false)), r.value.scores) == Ok(r.value.accept)
    ensures r.Ok? && "targeted_edits" !in m ==> r.value.targetedEdits == []
    ensures r.Ok? && "targeted_edits" in m ==> m["targeted_edits"] == JArr(seq(|r.value.targetedEdits|,
              i requires 0 <= i < |r.value.targetedEdits| => JStr(r.value.targetedEdits[i])))
    ensures r.Err? ==> r.error in {TypeError, ValueError}
  {
    var scores := ParseScores(m, floatOfStr);
    if scores.Err? then Err(scores.error)
    else
      var accept := Accept(Get(m, "accept", JBool(false)), scores.value);
      var edits := AsStrList(Get(m, "targeted_edits", JArr([])));
      var reasoning := AsOptStr(Get(m, "reasoning", JNull));
      if accept.Err? || edits.Err? || reasoning.Err? then Err(ValueError)
      else Ok(JudgeDecision(accept.value, scores.value, edits.value))
  }

  /** `judge` on the model's reply: a decode failure or a failed conversion or validation
      gives the fallback; a reply that decodes to something other than an object makes the
      `.get` call raise, which nothing catches. */
  function JudgeReply(reply: string, loads: Loads, floatOfStr: FloatOfStr): (r: Result<JudgeDecision>)
    ensures r.Err? <==> (match loads(StripFence(reply))
                         case Err(e) => !CaughtBy(e, Handled)
                         case Ok(data) => !data.JObj?)
    ensures r.Err? && loads(StripFence(reply)).Ok? ==> r.error == AttributeError
    ensures r.Ok? ==> r.value.scores.Valid()
    ensures r.Ok? && r.value != Fallback ==>
              && loads(StripFence(reply)).Ok? && loads(StripFence(reply)).value.JObj?
              && DecisionFromFields(loads(StripFence(reply)).value.fields, floatOfStr) == r
    ensures loads(StripFence(reply)).Ok? && loads(StripFence(reply)).value.JObj?
            && DecisionFromFields(loads(StripFence(reply)).value.fields, floatOfStr).Ok? ==>
              r == DecisionFromFields(loads(StripFence(reply)).value.fields, floatOfStr)
  {
    match loads(StripFence(reply))
    case Err(e) => if CaughtBy(e, Handled) then Ok(Fallback) else Err(e)
    case Ok(data) =>
      if !data.JObj? then Err(AttributeError)
      else
        // every error the construction raises is a `TypeError` or `ValueError`: caught
        var d := DecisionFromFields(data.fields, floatOfStr);
        if d.Ok? then d else Ok(Fallback)
  }

  /** `judge`: one model call on the prompt built from the response and its context. */
  function JudgeTurn(response: string, userMessage: string, notes: seq<Note>, tone: string, formality: int,
                     taboos: seq<string>, generate: Generate, loads: Loads, floatOfStr: FloatOfStr): Result<JudgeDecision> {
    JudgeReply(generate(JudgeResponse(response, userMessage, NotesSummary(notes), tone, formality, Take(taboos, 5))),
               loads, floatOfStr)
  }

  /** A reply that does not decode yields the fallback, whose scores and single edit are fixed. */
  lemma DecodeFailureFallback(reply: string, loads: Loads, floatOfStr: FloatOfStr)
    requires loads(StripFence(reply)).Err? && loads(StripFence(reply)).error in Handled
    ensures JudgeReply(reply, loads, floatOfStr) == Ok(Fallback)
    ensures !Fallback.accept && |Fallback.targetedEdits| == 1 && Fallback.targetedEdits[0] != []
    ensures Fallback.scores == JudgeScores(3.0, 3.0, 3.0, 5.0, 3.5)
  {
  }

  /** An empty object takes every default: 3, 3, 3, 5 and overall 3, no edits, and since
      the default scores miss the threshold, a rejection. */
  lemma EmptyObjectDefaults(reply: string, loads: Loads, floatOfStr: FloatOfStr)
    requires loads(StripFence(reply)) == Ok(JObj(map[]))
    ensures JudgeReply(reply, loads, floatOfStr) == Ok(JudgeDecision(false, JudgeScores(3.0, 3.0, 3.0, 5.0, 3.0), []))
  {
    var m: map<string, Json> := map[];
    var s := ParseScores(m, floatOfStr);
    assert s.Ok?;
    assert !MeetsThreshold(s.value);
    assert DecisionFromFields(m, floatOfStr).Ok?;
  }

  /** A score outside [1, 5] fails validation, which yields the fallback. */
  lemma OutOfRangeFallback(reply: string, loads: Loads, floatOfStr: FloatOfStr, key: string)
    requires loads(StripFence(reply)).Ok? && loads(StripFence(reply)).value.JObj?
    requires key in {"factuality", "persona", "helpfulness", "safety", "overall"}
    requires ScoreOutOfRange(loads(StripFence(reply)).value.fields, key)
    ensures JudgeReply(reply, loads, floatOfStr) == Ok(Fallback)
  {
    var m := loads(StripFence(reply)).value.fields;
    assert ParseScores(m, floatOfStr).Err?;
  }

  /** With a boolean or missing flag and a usable reply, the decision accepts exactly when
      the flag is true or the four judged scores reach the threshold; `overall` plays no
      part, and a true flag is never turned into a rejection. */
  lemma AcceptIsFlagOrThreshold(reply: string, loads: Loads, floatOfStr: FloatOfStr)
    requires loads(StripFence(reply)).Ok? && loads(StripFence(reply)).value.JObj?
    requires var m := loads(StripFence(reply)).value.fields;
             DecisionFromFields(m, floatOfStr).Ok? && ("accept" !in m || m["accept"].JBool?)
    ensures var m := loads(StripFence(reply)).value.fields;
            var d := JudgeReply(reply, loads, floatOfStr).value;
            && JudgeReply(reply, loads, floatOfStr).Ok?
            && d.scores == ParseScores(m, floatOfStr).value
            && (d.accept <==> (("accept" in m && m["accept"] == JBool(true)) || MeetsThreshold(d.scores)))
  {
  }

  /** The edits numbered from 1 in the given order. */
  function NumberedEdits(edits: seq<string>): (r: seq<string>)
    ensures |r| == |edits|
    ensures forall i :: 0 <= i < |r| ==> r[i] == NatToString(i + 1) + ". " + edits[i]
  {
    seq(|edits|, i requires 0 <= i < |edits| => NatToString(i + 1) + ". " + edits[i])
  }

  /** `apply_edits`: one model call with the numbered edits; the reply is trimmed. */
  function ApplyEditsReply(original: string, edits: seq<string>, userMessage: string, generate: Generate): (r: string)
    ensures IsTrimmed(r)
  {
    Strip(generate(ApplyEdits(original, Join("\n", NumberedEdits(edits)), userMessage)))
  }

  /** Edits without line breaks appear one per line, line i carrying the number i + 1
      (which reads back as i + 1) followed by ". " and the i-th edit. */
  lemma EditNumbering(edits: seq<string>, i: nat)
    requires edits != [] && i < |edits|
    requires forall e :: e in edits ==> '\n' !in e
    ensures |SplitOn(Join("\n", NumberedEdits(edits)), '\n')| == |edits|
    ensures var line := SplitOn(Join("\n", NumberedEdits(edits)), '\n')[i];
            var digits := NatToString(i + 1);
            line == digits + ". " + edits[i] && DigitsValue(digits) == i + 1
  {
    var lines := NumberedEdits(edits);
    forall p | p in lines ensures '\n' !in p {
      var j :| 0 <= j < |lines| && lines[j] == p;
      assert edits[j] in edits;
      assert '\n' !in NatToString(j + 1);
    }
    SplitOnJoin(lines, '\n');
    NatToStringRoundTrip(i + 1);
  }
}
