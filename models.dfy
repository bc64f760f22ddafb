/** The persona data models: plain records whose construction validates field types, range
    constraints and defaults.  A failed validation is a `ValueError` (the models' validation
    error derives from it). */
module Models {
  import opened Json
  import Config

  datatype SpeakingStyle = SpeakingStyle(
    avgSentenceLen: seq<int>,
    hedgingLevel: int,
    formality: int,
    emojiPolicy: string,
    signaturePhrases: seq<string>)
  {
    predicate Valid() {
      0 <= hedgingLevel <= 5 && 0 <= formality <= 5
    }
  }

  const DefaultSpeakingStyle: SpeakingStyle := SpeakingStyle([12, 18], 2, 3, "none", [])

  /** Construction from already-typed values: only the two ranges are checked. */
  function NewSpeakingStyle(avg: seq<int>, hedging: int, formality: int, emoji: string, phrases: seq<string>): (r: Result<SpeakingStyle>)
    ensures r.Ok? <==> 0 <= hedging <= 5 && 0 <= formality <= 5
    ensures r.Ok? ==> r.value.Valid()
    ensures r.Ok? ==> r.value.avgSentenceLen == avg && r.value.hedgingLevel == hedging && r.value.formality == formality
    ensures r.Ok? ==> r.value.emojiPolicy == emoji && r.value.signaturePhrases == phrases
    ensures r.Err? ==> r.error == ValueError
  {
    if 0 <= hedging <= 5 && 0 <= formality <= 5 then Ok(SpeakingStyle(avg, hedging, formality, emoji, phrases))
    else Err(ValueError)
  }

  /** An `int` keyword argument with default `d`. */
  function IntField(m: map<string, Json>, key: string, d: int): (r: Result<int>)
    ensures r.Ok? <==> (key in m ==> AsInt(m[key]).Ok?)
    ensures r.Ok? ==> r.value as real == if key in m then m[key].n else d as real
    ensures r.Err? ==> r.error == ValueError
  {
    if key in m then AsInt(m[key]) else Ok(d)
  }

  /** A `str` keyword argument with default `d`. */
  function StrField(m: map<string, Json>, key: string, d: string): (r: Result<string>)
    ensures r.Ok? <==> (key in m ==> m[key].JStr?)
    ensures r.Ok? ==> if key in m then m[key] == JStr(r.value) else r.value == d
    ensures r.Err? ==> r.error == ValueError
  {
    if key in m then AsStr(m[key]) else Ok(d)
  }

  /** A `List[str]` keyword argument with default `d`. */
  function StrListField(m: map<string, Json>, key: string, d: seq<string>): (r: Result<seq<string>>)
    ensures r.Ok? <==> (key in m ==> AsStrList(m[key]).Ok?)
    ensures r.Ok? ==> if key in m then AsStrList(m[key]) == r else r.value == d
    ensures r.Err? ==> r.error == ValueError
  {
    if key in m then AsStrList(m[key]) else Ok(d)
  }

  /** A `List[int]` keyword argument with default `d`. */
  function IntListField(m: map<string, Json>, key: string, d: seq<int>): (r: Result<seq<int>>)
    ensures r.Ok? <==> (key in m ==> AsIntList(m[key]).Ok?)
    ensures r.Ok? ==> if key in m then AsIntList(m[key]) == r else r.value == d
    ensures r.Err? ==> r.error == ValueError
  {
    if key in m then AsIntList(m[key]) else Ok(d)
  }

  /** A present level is an integer in 0..5. */
  predicate LevelOk(m: map<string, Json>, key: string) {
    key in m ==> AsInt(m[key]).Ok? && 0.0 <= m[key].n <= 5.0
  }

  /** Every keyword argument present has its declared type, and the two levels their range. */
  predicate StyleFieldsValid(m: map<string, Json>) {
    && ("avg_sentence_len" in m ==> AsIntList(m["avg_sentence_len"]).Ok?)
    && LevelOk(m, "hedging_level") && LevelOk(m, "formality")
    && ("emoji_policy" in m ==> m["emoji_policy"].JStr?)
    && ("signature_phrases" in m ==> AsStrList(m["signature_phrases"]).Ok?)
  }

  /** Construction from decoded keyword arguments; an absent key takes its default, a present
      one is kept. */
  function SpeakingStyleFromFields(m: map<string, Json>): (r: Result<SpeakingStyle>)
    ensures r.Ok? <==> StyleFieldsValid(m)
    ensures r.Ok? ==> r.value.Valid()
    ensures r.Ok? && "avg_sentence_len" in m ==> AsIntList(m["avg_sentence_len"]) == Ok(r.value.avgSentenceLen)
    ensures r.Ok? && "hedging_level" in m ==> r.value.hedgingLevel as real == m["hedging_level"].n
    ensures r.Ok? && "formality" in m ==> r.value.formality as real == m["formality"].n
    ensures r.Ok? && "emoji_policy" in m ==> m["emoji_policy"] == JStr(r.value.emojiPolicy)
    ensures r.Ok? && "signature_phrases" in m ==> AsStrList(m["signature_phrases"]) == Ok(r.value.signaturePhrases)
    ensures r.Ok? && "avg_sentence_len" !in m ==> r.value.avgSentenceLen == [12, 18]
    ensures r.Ok? && "hedging_level" !in m ==> r.value.hedgingLevel == 2
    ensures r.Ok? && "formality" !in m ==> r.value.formality == 3
    ensures r.Ok? && "emoji_policy" !in m ==> r.value.emojiPolicy == "none"
    ensures r.Ok? && "signature_phrases" !in m ==> r.value.signaturePhrases == []
    ensures r.Err? ==> r.error == ValueError
  {
    var avg := IntListField(m, "avg_sentence_len", [12, 18]);
    var hedging := IntField(m, "hedging_level", 2);
    var formality := IntField(m, "formality", 3);
    var emoji := StrField(m, "emoji_policy", "none");
    var phrases := StrListField(m, "signature_phrases", []);
    if avg.Err? || hedging.Err? || formality.Err? || emoji.Err? || phrases.Err? then Err(ValueError)
    else NewSpeakingStyle(avg.value, hedging.value, formality.value, emoji.value, phrases.value)
  }

  /** With no arguments every default applies, and the default style is within range. */
  lemma SpeakingStyleDefaults()
    ensures SpeakingStyleFromFields(map[]) == Ok(DefaultSpeakingStyle)
    ensures DefaultSpeakingStyle.Valid()
  {
  }

  /** Every hedging level a valid style can carry has a description. */
  lemma HedgingLevelDescribed(s: SpeakingStyle)
    requires s.Valid()
    ensures s.hedgingLevel in Config.HEDGING_LEVELS
  {
  }

  datatype CanonicalFact = CanonicalFact(
    id: string,
    text: string,
    source: string,
    date: Option<string>,
    stance: Option<string>,
    confidence: real,
    entities: seq<string>)
  {
    predicate Valid() {
      0.0 <= confidence <= 1.0
    }
  }

  /** A required `str` keyword argument. */
  function Required(m: map<string, Json>, key: string): (r: Result<string>)
    ensures r.Ok? <==> key in m && m[key].JStr?
    ensures r.Ok? ==> r.value == m[key].s
    ensures r.Err? ==> r.error == ValueError
  {
    if key in m then AsStr(m[key]) else Err(ValueError)
  }

  predicate HasStr(m: map<string, Json>, key: string) {
    key in m && m[key].JStr?
  }

  predicate OptStrOk(m: map<string, Json>, key: string) {
    key !in m || m[key].JStr? || m[key].JNull?
  }

  predicate FactFieldsValid(m: map<string, Json>) {
    && HasStr(m, "id") && HasStr(m, "text") && HasStr(m, "source")
    && OptStrOk(m, "date") && OptStrOk(m, "stance")
    && ("confidence" in m ==> m["confidence"].JNum? && 0.0 <= m["confidence"].n <= 1.0)
    && ("entities" in m ==> AsStrList(m["entities"]).Ok?)
  }

  /** `CanonicalFact(**m)`. */
  function FactFromFields(m: map<string, Json>): (r: Result<CanonicalFact>)
    ensures r.Ok? <==> FactFieldsValid(m)
    ensures r.Ok? ==> r.value.Valid()
    ensures r.Ok? ==> r.value.id == m["id"].s && r.value.text == m["text"].s && r.value.source == m["source"].s
    ensures r.Ok? ==> r.value.confidence == (if "confidence" in m then m["confidence"].n else 0.8)
    ensures r.Ok? && "date" !in m ==> r.value.date == None
    ensures r.Ok? && "stance" !in m ==> r.value.stance == None
    ensures r.Ok? && "entities" !in m ==> r.value.entities == []
    ensures r.Ok? && "date" in m ==> AsOptStr(m["date"]) == Ok(r.value.date)
    ensures r.Ok? && "stance" in m ==> AsOptStr(m["stance"]) == Ok(r.value.stance)
    ensures r.Ok? && "entities" in m ==> AsStrList(m["entities"]) == Ok(r.value.entities)
    ensures r.Err? ==> r.error == ValueError
  {
    var id := Required(m, "id");
    var text := Required(m, "text");
    var source := Required(m, "source");
    var date := AsOptStr(Get(m, "date", JNull));
    var stance := AsOptStr(Get(m, "stance", JNull));
    var confidence := AsReal(Get(m, "confidence", JNum(0.8)));
    var entities := AsStrList(Get(m, "entities", JArr([])));
    if id.Err? || text.Err? || source.Err? || date.Err? || stance.Err? || confidence.Err? || entities.Err? then
      Err(ValueError)
    else if !(0.0 <= confidence.value <= 1.0) then Err(ValueError)
    else Ok(CanonicalFact(id.value, text.value, source.value, date.value, stance.value, confidence.value, entities.value))
  }

  datatype Example = Example(user: string, assistant: string, intent: Option<string>)

  /** `Example(**m)`. */
  function ExampleFromFields(m: map<string, Json>): (r: Result<Example>)
    ensures r.Ok? <==> HasStr(m, "user") && HasStr(m, "assistant") && OptStrOk(m, "intent")
    ensures r.Ok? ==> r.value.user == m["user"].s && r.value.assistant == m["assistant"].s
    ensures r.Ok? && "intent" !in m ==> r.value.intent == None
    ensures r.Ok? && "intent" in m ==> AsOptStr(m["intent"]) == Ok(r.value.intent)
    ensures r.Err? ==> r.error == ValueError
  {
    var user := Required(m, "user");
    var assistant := Required(m, "assistant");
    var intent := AsOptStr(Get(m, "intent", JNull));
    if user.Err? || assistant.Err? || intent.Err? then Err(ValueError)
    else Ok(Example(user.value, assistant.value, intent.value))
  }

  /** `Example(**v)` for an arbitrary decoded value: unpacking anything but an object is a
      `TypeError`, before any validation. */
  function ExampleFromValue(v: Json): (r: Result<Example>)
    ensures !v.JObj? ==> r == Err(TypeError)
    ensures v.JObj? ==> r == ExampleFromFields(v.fields)
  {
    if v.JObj? then ExampleFromFields(v.fields) else Err(TypeError)
  }

  datatype StylePolicyPack = StylePolicyPack(
    tone: string,
    hedgingLevel: int,
    formality: int,
    emojiPolicy: string,
    targetLenTokens: int,
    cadenceNotes: Option<string>,
    followUpQuestionRequired: bool,
    signatureMoves: seq<string>,
    taboos: seq<string>,
    fewShots: seq<Example>,
    negativeExample: Option<Example>)

  /** The pack as the contextor constructs it: the keyword arguments it passes are validated;
      `cadence_notes` and `follow_up_question_required` are never passed and keep their
      defaults.  Hedging and formality carry no range constraint here. */
  function NewStylePolicyPack(
    tone: Json, hedging: Json, formality: Json, emoji: Json, target: Json,
    moves: Json, taboos: Json, fewShots: seq<Example>, negative: Option<Example>): (r: Result<StylePolicyPack>)
    ensures r.Ok? <==> (tone.JStr? && emoji.JStr? && AsInt(hedging).Ok? && AsInt(formality).Ok? && AsInt(target).Ok?
                        && AsStrList(moves).Ok? && AsStrList(taboos).Ok?)
    ensures r.Ok? ==> r.value.cadenceNotes == None && r.value.followUpQuestionRequired
    ensures r.Ok? ==> tone == JStr(r.value.tone) && emoji == JStr(r.value.emojiPolicy)
    ensures r.Ok? ==> hedging == JNum(r.value.hedgingLevel as real) && formality == JNum(r.value.formality as real)
    ensures r.Ok? ==> target == JNum(r.value.targetLenTokens as real)
    ensures r.Ok? ==> AsStrList(moves) == Ok(r.value.signatureMoves) && AsStrList(taboos) == Ok(r.value.taboos)
    ensures r.Ok? ==> r.value.fewShots == fewShots && r.value.negativeExample == negative
    ensures r.Err? ==> r.error == ValueError
  {
    var t := AsStr(tone);
    var h := AsInt(hedging);
    var f := AsInt(formality);
    var e := AsStr(emoji);
    var n := AsInt(target);
    var mv := AsStrList(moves);
    var tb := AsStrList(taboos);
    if t.Err? || h.Err? || f.Err? || e.Err? || n.Err? || mv.Err? || tb.Err? then Err(ValueError)
    else Ok(StylePolicyPack(t.value, h.value, f.value, e.value, n.value, None, true, mv.value, tb.value, fewShots, negative))
  }

  datatype JudgeScores = JudgeScores(factuality: real, persona: real, helpfulness: real, safety: real, overall: real)
  {
    predicate Valid() {
      && 1.0 <= factuality <= 5.0 && 1.0 <= persona <= 5.0 && 1.0 <= helpfulness <= 5.0
      && 1.0 <= safety <= 5.0 && 1.0 <= overall <= 5.0
    }
  }

  /** Construction raises the validation error iff a score lies outside [1, 5]. */
  function NewJudgeScores(factuality: real, persona: real, helpfulness: real, safety: real, overall: real): (r: Result<JudgeScores>)
    ensures r.Ok? <==> JudgeScores(factuality, persona, helpfulness, safety, overall).Valid()
    ensures r.Ok? ==> r.value == JudgeScores(factuality, persona, helpfulness, safety, overall)
    ensures r.Err? ==> r.error == ValueError
  {
    var s := JudgeScores(factuality, persona, helpfulness, safety, overall);
    if s.Valid() then Ok(s) else Err(ValueError)
  }

  /** A judge decision.  Its free-text `reasoning` field is not part of this model. */
  datatype JudgeDecision = JudgeDecision(accept: bool, scores: JudgeScores, targetedEdits: seq<string>)

  /** A conversation turn as the agents pass it around: a dict whose "user" and "assistant"
      entries may be missing; `turn.get(key, "")` reads a missing entry as "". */
  datatype Turn = Turn(user: Option<string>, assistant: Option<string>)
  {
    function UserText(): string {
      if user.Some? then user.value else ""
    }

    function AssistantText(): string {
      if assistant.Some? then assistant.value else ""
    }
  }
}
