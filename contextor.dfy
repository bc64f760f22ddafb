/** The contextor agent: it classifies the user's intent by keywords, picks few-shot
    examples, parses the persona's taboo list, and turns the model's style-pack reply into a
    `StylePolicyPack`, falling back to a default pack when the reply does not decode. */
module Contextor {
  import opened PyText
  import opened Json
  import opened Models
  import opened Config
  import opened Llm

  const AdviceWords: seq<string> := ["advice", "should", "recommend", "suggest", "how to"]
  const StoryWords: seq<string> := ["story", "tell", "remember", "once"]
  const OpinionWords: seq<string> := ["think", "opinion", "believe", "feel"]

  /** Some keyword occurs as a substring of the text. */
  predicate MentionsAny(text: string, words: seq<string>) {
    exists w :: w in words && Contains(text, w)
  }

  /** `_classify_intent`: keyword groups in priority order on the lower-cased message, then
      the word count; the conversation history plays no part. */
  function ClassifyIntent(message: string): (intent: string)
    ensures intent in INTENTS
    ensures intent == "advice" <==> MentionsAny(Lower(message), AdviceWords)
    ensures intent == "storytelling" <==>
              !MentionsAny(Lower(message), AdviceWords) && MentionsAny(Lower(message), StoryWords)
    ensures intent == "opinion" <==>
              !MentionsAny(Lower(message), AdviceWords) && !MentionsAny(Lower(message), StoryWords)
              && MentionsAny(Lower(message), OpinionWords)
    ensures intent == "chit-chat" <==>
              !MentionsAny(Lower(message), AdviceWords + StoryWords + OpinionWords) && |Split(message)| < 10
    ensures intent == "default" <==>
              !MentionsAny(Lower(message), AdviceWords + StoryWords + OpinionWords) && |Split(message)| >= 10
  {
    var lower := Lower(message);
    if MentionsAny(lower, AdviceWords) then "advice"
    else if MentionsAny(lower, StoryWords) then "storytelling"
    else if MentionsAny(lower, OpinionWords) then "opinion"
    else if |Split(message)| < 10 then "chit-chat"
    else "default"
  }

  lemma LowerIdempotent(s: string)
    ensures Lower(Lower(s)) == Lower(s)
  {
  }

  lemma {:induction false} LeadingSpacesAgree(s: string, t: string)
    requires |s| == |t| && forall i :: 0 <= i < |s| ==> (IsSpace(s[i]) <==> IsSpace(t[i]))
    ensures CountLeadingSpaces(s) == CountLeadingSpaces(t)
    decreases |s|
  {
    if s != [] && IsSpace(s[0]) {
      LeadingSpacesAgree(s[1..], t[1..]);
    }
  }

  lemma {:induction false} WordCharsAgree(s: string, t: string)
    requires |s| == |t| && forall i :: 0 <= i < |s| ==> (IsSpace(s[i]) <==> IsSpace(t[i]))
    ensures CountWordChars(s) == CountWordChars(t)
    decreases |s|
  {
    if s != [] && !IsSpace(s[0]) {
      WordCharsAgree(s[1..], t[1..]);
    }
  }

  /** `str.split()` counts words by the whitespace pattern alone. */
  lemma {:induction false} SplitCountAgrees(s: string, t: string)
    requires |s| == |t| && forall i :: 0 <= i < |s| ==> (IsSpace(s[i]) <==> IsSpace(t[i]))
    ensures |Split(s)| == |Split(t)|
    decreases |s|
  {
    LeadingSpacesAgree(s, t);
    var n := CountLeadingSpaces(s);
    var s1, t1 := s[n..], t[n..];
    if s1 != [] {
      WordCharsAgree(s1, t1);
      var w := CountWordChars(s1);
      SplitCountAgrees(s1[w..], t1[w..]);
    }
  }

  /** The classifier ignores letter case. */
  lemma ClassifyIgnoresCase(message: string)
    ensures ClassifyIntent(Lower(message)) == ClassifyIntent(message)
  {
    LowerIdempotent(message);
    SplitCountAgrees(Lower(message), message);
  }

  /** `STYLE_LENGTH_TARGETS.get(intent, STYLE_LENGTH_TARGETS["default"])`. */
  function LengthTarget(intent: string): (r: (int, int))
    ensures intent in STYLE_LENGTH_TARGETS ==> r == STYLE_LENGTH_TARGETS[intent]
    ensures intent !in STYLE_LENGTH_TARGETS ==> r == STYLE_LENGTH_TARGETS["default"]
  {
    if intent in STYLE_LENGTH_TARGETS then STYLE_LENGTH_TARGETS[intent] else STYLE_LENGTH_TARGETS["default"]
  }

  /** The examples whose intent is the given one, in order. */
  function Matching(examples: seq<Example>, intent: string): (r: seq<Example>)
    ensures |r| <= |examples|
    ensures forall e :: e in r <==> e in examples && e.intent == Some(intent)
  {
    if examples == [] then []
    else
      var rest := Matching(examples[1..], intent);
      assert forall e :: e in examples <==> e == examples[0] || e in examples[1..];
      if examples[0].intent == Some(intent) then [examples[0]] + rest else rest
  }

  /** The filter keeps the examples' order: filtering a concatenation concatenates the
      filtered parts, and a single example is kept exactly when its intent matches. */
  lemma {:induction false} MatchingConcat(xs: seq<Example>, ys: seq<Example>, intent: string)
    ensures Matching(xs + ys, intent) == Matching(xs, intent) + Matching(ys, intent)
    ensures |xs| == 1 ==> Matching(xs, intent) == if xs[0].intent == Some(intent) then xs else []
    decreases |xs|
  {
    if xs == [] {
      assert xs + ys == ys;
    } else {
      assert (xs + ys)[0] == xs[0] && (xs + ys)[1..] == xs[1..] + ys;
      MatchingConcat(xs[1..], ys, intent);
      var a, b := Matching(xs[1..], intent), Matching(ys, intent);
      assert [xs[0]] + (a + b) == [xs[0]] + a + b;
    }
  }

  /** `_select_few_shots`. */
  function FewShotsFor(examples: seq<Example>, intent: string, count: nat): (r: seq<Example>)
    ensures |r| == count || r == []
    ensures |Matching(examples, intent)| >= count ==> r == Matching(examples, intent)[..count]
    ensures |Matching(examples, intent)| < count <= |examples| ==> r == examples[..count]
    ensures |Matching(examples, intent)| < count && |examples| < count ==> r == []
  {
    var matching := Matching(examples, intent);
    if |matching| >= count then matching[..count]
    else if |examples| >= count then examples[..count]
    else []
  }

  /** Few-shots are intent-matching whenever enough match. */
  lemma FewShotsMatchIntent(examples: seq<Example>, intent: string, count: nat)
    requires |Matching(examples, intent)| >= count
    ensures forall e :: e in FewShotsFor(examples, intent, count) ==> e.intent == Some(intent) && e in examples
  {
    var m := Matching(examples, intent);
    assert forall e :: e in m[..count] ==> e in m;
  }

  const BulletChars: set<char> := {'-', '*', ' '}

  /** A line of the taboo file that lists a taboo. */
  predicate IsBulletLine(line: string) {
    var t := Strip(line);
    t != [] && (t[0] == '-' || t[0] == '*')
  }

  /** The taboo a bullet line contributes. */
  function TabooOf(line: string): (r: string)
    ensures IsTrimmed(r)
  {
    Strip(StripLeftChars(Strip(line), BulletChars))
  }

  /** The taboos of the bullet lines, in file order. */
  function TaboosOf(lines: seq<string>): (r: seq<string>)
    ensures |r| <= |lines|
  {
    if lines == [] then []
    else if IsBulletLine(lines[0]) then [TabooOf(lines[0])] + TaboosOf(lines[1..])
    else TaboosOf(lines[1..])
  }

  lemma {:induction false} TaboosOfConcat(a: seq<string>, b: seq<string>)
    ensures TaboosOf(a + b) == TaboosOf(a) + TaboosOf(b)
  {
    if a != [] {
      var x, rest := a[0], a[1..];
      assert a == [x] + rest;
      assert a + b == [x] + (rest + b);
      TaboosOfCons(x, rest + b);
      TaboosOfCons(x, rest);
      TaboosOfConcat(rest, b);
      var h := TabooOfLine(x);
      assert h + (TaboosOf(rest) + TaboosOf(b)) == (h + TaboosOf(rest)) + TaboosOf(b);
    } else {
      assert a + b == b;
    }
  }

  /** The taboo a line contributes: one for a bullet line, none otherwise. */
  function TabooOfLine(line: string): seq<string> {
    if IsBulletLine(line) then [TabooOf(line)] else []
  }

  lemma TaboosOfCons(line: string, rest: seq<string>)
    ensures TaboosOf([line] + rest) == TabooOfLine(line) + TaboosOf(rest)
  {
    assert ([line] + rest)[0] == line;
    assert ([line] + rest)[1..] == rest;
  }

  lemma {:induction false} NoBulletsNoTaboos(lines: seq<string>)
    requires forall l :: l in lines ==> !IsBulletLine(l)
    ensures TaboosOf(lines) == []
  {
    if lines != [] {
      assert lines[0] in lines;
      assert forall l :: l in lines[1..] ==> l in lines;
      NoBulletsNoTaboos(lines[1..]);
    }
  }

  /** A taboo is parsed from a line exactly when that line is a bullet line. */
  lemma {:induction false} TaboosOfMembers(lines: seq<string>, t: string)
    ensures t in TaboosOf(lines) <==> exists k :: 0 <= k < |lines| && IsBulletLine(lines[k]) && TabooOf(lines[k]) == t
  {
    if lines != [] {
      TaboosOfMembers(lines[1..], t);
      if t in TaboosOf(lines[1..]) {
        var k :| 0 <= k < |lines[1..]| && IsBulletLine(lines[1..][k]) && TabooOf(lines[1..][k]) == t;
        assert lines[k + 1] == lines[1..][k];
      }
      if exists k :: 0 <= k < |lines| && IsBulletLine(lines[k]) && TabooOf(lines[k]) == t {
        var k :| 0 <= k < |lines| && IsBulletLine(lines[k]) && TabooOf(lines[k]) == t;
        if k > 0 {
          assert lines[1..][k - 1] == lines[k];
        }
      }
    }
  }

  /** A bullet line made only of '-', '*' and spaces lists the empty taboo. */
  lemma MarkersOnlyEmpty(line: string)
    requires IsBulletLine(line)
    requires forall k :: 0 <= k < |Strip(line)| ==> Strip(line)[k] in BulletChars
    ensures TabooOf(line) == ""
  {
    var t := Strip(line);
    var r := StripLeftChars(t, BulletChars);
    var i :| 0 <= i <= |t| && r == t[i..] && forall k :: 0 <= k < i ==> t[k] in BulletChars;
    assert r == [];
    StripTrimmed(r);
  }

  /** Parsing the taboo file of `_load_artifacts`. */
  function ParseTaboos(content: string): seq<string> {
    TaboosOf(SplitOn(content, '\n'))
  }

  /** The bullet lines the taboo editor writes, one per taboo. */
  function BulletText(taboos: seq<string>): string {
    if taboos == [] then "" else "- " + taboos[0] + "\n" + BulletText(taboos[1..])
  }

  /** The taboo file the taboo editor of the web server writes. */
  function TabooFileContent(taboos: seq<string>, redirect: string): string {
    "# Taboo List\n\n" + "## Topics\n" + BulletText(taboos) + "\n## Refusal Language\n" + redirect + "\n"
  }

  function Bullets(taboos: seq<string>): (r: seq<string>)
    ensures |r| == |taboos|
    ensures forall i :: 0 <= i < |r| ==> r[i] == "- " + taboos[i]
  {
    seq(|taboos|, i requires 0 <= i < |taboos| => "- " + taboos[i])
  }

  /** The bullet text is the bullet lines joined, with a final newline. */
  lemma {:induction false} BulletTextLines(taboos: seq<string>)
    requires taboos != []
    ensures BulletText(taboos) == Join("\n", Bullets(taboos)) + "\n"
    decreases |taboos|
  {
    var b := "- " + taboos[0];
    assert Bullets(taboos) == [b] + Bullets(taboos[1..]);
    if |taboos| == 1 {
      assert BulletText(taboos[1..]) == "";
    } else {
      BulletTextLines(taboos[1..]);
      JoinConcat("\n", [b], Bullets(taboos[1..]));
    }
  }

  lemma BulletsJoin(prefix: seq<string>, taboos: seq<string>, tail: seq<string>)
    requires prefix != [] && tail != []
    ensures Join("\n", prefix) + "\n" + BulletText(taboos) + Join("\n", tail)
            == Join("\n", prefix + Bullets(taboos) + tail)
  {
    if taboos == [] {
      assert prefix + Bullets(taboos) + tail == prefix + tail;
      JoinConcat("\n", prefix, tail);
    } else {
      BulletTextLines(taboos);
      JoinConcat("\n", prefix, Bullets(taboos));
      JoinConcat("\n", prefix + Bullets(taboos), tail);
    }
  }

  /** A taboo the editor can write so that it reads back as itself. */
  predicate WritableTaboo(t: string) {
    t != [] && IsTrimmed(t) && t[0] !in BulletChars && '\n' !in t
  }

  lemma StripLeftBullet(t: string)
    requires WritableTaboo(t)
    ensures StripLeftChars("- " + t, BulletChars) == t
  {
    var s := "- " + t;
    var r := StripLeftChars(s, BulletChars);
    var i :| 0 <= i <= |s| && r == s[i..] && forall k :: 0 <= k < i ==> s[k] in BulletChars;
    assert s[2] == t[0] && s[2] !in BulletChars;
    assert i <= 2;
    assert s[0] in BulletChars && s[1] in BulletChars;
    assert r[0] == s[i];
    assert s[2..] == t;
  }

  lemma BulletReadsBack(t: string)
    requires WritableTaboo(t)
    ensures IsBulletLine("- " + t) && TabooOf("- " + t) == t
  {
    var s := "- " + t;
    assert s[|s| - 1] == t[|t| - 1];
    StripTrimmed(s);
    StripLeftBullet(t);
    StripTrimmed(t);
  }

  lemma {:induction false} BulletsReadBack(taboos: seq<string>)
    requires forall t :: t in taboos ==> WritableTaboo(t)
    ensures TaboosOf(Bullets(taboos)) == taboos
  {
    if taboos != [] {
      var t, rest := taboos[0], taboos[1..];
      assert taboos == [t] + rest;
      assert t in taboos;
      BulletReadsBack(t);
      BulletsCons(t, rest);
      assert forall u :: u in rest ==> u in taboos;
      BulletsReadBack(rest);
    }
  }

  lemma BulletsCons(t: string, rest: seq<string>)
    requires IsBulletLine("- " + t)
    ensures TaboosOf(Bullets([t] + rest)) == [TabooOf("- " + t)] + TaboosOf(Bullets(rest))
  {
    var b := Bullets([t] + rest);
    assert b[0] == "- " + t;
    assert b[1..] == Bullets(rest);
  }

  function TabooFileHead(): seq<string> {
    ["# Taboo List", "", "## Topics"]
  }

  function TabooFileTail(redirect: string): seq<string> {
    ["", "## Refusal Language"] + SplitOn(redirect, '\n') + [""]
  }

  lemma TailJoin(redirect: string)
    ensures Join("\n", TabooFileTail(redirect)) == "\n## Refusal Language\n" + redirect + "\n"
  {
    var h := "## Refusal Language";
    TrailerJoin(h, redirect);
    assert "\n" + h + "\n" == "\n## Refusal Language\n";
  }

  lemma TrailerJoin(h: string, redirect: string)
    ensures Join("\n", ["", h] + SplitOn(redirect, '\n') + [""]) == "\n" + h + "\n" + redirect + "\n"
  {
    var mid := ["", h];
    var parts := SplitOn(redirect, '\n');
    JoinSplitOn(redirect, '\n');
    JoinAppend("\n", mid + parts, "");
    JoinConcat("\n", mid, parts);
    assert Join("\n", mid) == "" + "\n" + h;
    var j := Join("\n", mid + parts);
    assert j == "\n" + h + "\n" + redirect;
    assert j + "\n" + "" == j + "\n";
  }

  lemma HeadJoin()
    ensures Join("\n", TabooFileHead()) + "\n" == "# Taboo List\n\n" + "## Topics\n"
  {
  }

  /** The file is its header lines, one bullet line per taboo, and the trailer, joined by
      line breaks. */
  lemma TabooFileLines(taboos: seq<string>, redirect: string)
    ensures TabooFileContent(taboos, redirect) == Join("\n", TabooFileHead() + Bullets(taboos) + TabooFileTail(redirect))
  {
    var head := TabooFileHead();
    var tail := TabooFileTail(redirect);
    TailJoin(redirect);
    HeadJoin();
    BulletsJoin(head, taboos, tail);
    ContentAssoc("# Taboo List\n\n" + "## Topics\n", BulletText(taboos), "\n## Refusal Language\n", redirect);
  }

  lemma ContentAssoc(x: string, b: string, r: string, redirect: string)
    ensures x + b + r + redirect + "\n" == (x + b) + (r + redirect + "\n")
  {
  }

  lemma HeadHasNoTaboos()
    ensures TaboosOf(TabooFileHead()) == []
  {
    StripTrimmed("# Taboo List");
    StripTrimmed("## Topics");
    NoBulletsNoTaboos(TabooFileHead());
  }

  lemma TailHasNoTaboos(redirect: string)
    requires forall l :: l in SplitOn(redirect, '\n') ==> !IsBulletLine(l)
    ensures TaboosOf(TabooFileTail(redirect)) == []
  {
    StripTrimmed("## Refusal Language");
    NoBulletsNoTaboos(TabooFileTail(redirect));
  }

  /** Round trip with the taboo editor: taboos written as bullets are parsed back in order,
      provided each is non-empty, trimmed, starts with no bullet character and fits on one
      line, and no line of the redirect text is itself a bullet. */
  lemma TabooRoundTrip(taboos: seq<string>, redirect: string)
    requires forall t :: t in taboos ==> WritableTaboo(t)
    requires forall l :: l in SplitOn(redirect, '\n') ==> !IsBulletLine(l)
    ensures ParseTaboos(TabooFileContent(taboos, redirect)) == taboos
  {
    var head, tail := TabooFileHead(), TabooFileTail(redirect);
    var lines := head + Bullets(taboos) + tail;
    TabooFileLines(taboos, redirect);
    forall p | p in lines ensures '\n' !in p {
      if p in Bullets(taboos) {
        var i :| 0 <= i < |taboos| && Bullets(taboos)[i] == p;
        assert taboos[i] in taboos;
      }
    }
    SplitOnJoin(lines, '\n');
    TaboosOfConcat(head + Bullets(taboos), tail);
    TaboosOfConcat(head, Bullets(taboos));
    HeadHasNoTaboos();
    TailHasNoTaboos(redirect);
    BulletsReadBack(taboos);
  }

  /** `_default_pack`. */
  function DefaultPack(intent: string, lengthTarget: (int, int), taboos: seq<string>, examples: seq<Example>): StylePolicyPack {
    StylePolicyPack("neutral", 2, 3, "none", lengthTarget.0, None, true, [], Take(taboos, 5),
                    FewShotsFor(examples, intent, 2), None)
  }

  /** The default pack for a message: neutral tone, hedging 2, formality 3, no emoji and no
      signature moves, the lower bound of the message's length range as target, at most the
      first five taboos, two few-shots or none, and no negative example. */
  lemma DefaultPackFor(message: string, taboos: seq<string>, examples: seq<Example>)
    ensures var intent := ClassifyIntent(message);
            var p := DefaultPack(intent, LengthTarget(intent), taboos, examples);
            && p.tone == "neutral" && p.hedgingLevel == 2 && p.formality == 3 && p.emojiPolicy == "none"
            && p.signatureMoves == [] && p.negativeExample.None?
            && 0 < p.targetLenTokens == STYLE_LENGTH_TARGETS[intent].0 < STYLE_LENGTH_TARGETS[intent].1
            && |p.taboos| <= 5 && p.taboos == taboos[..|p.taboos|]
            && (|p.fewShots| == 2 || p.fewShots == [])
  {
    StyleLengthTargetsWellFormed();
  }

  /** The exceptions `build_pack` catches; a validation error is not among them. */
  const Handled: set<PyError> := {JSONDecodeError, KeyError, TypeError}

  /** `data.get("few_shots", [])[:3]` as the items the loop will iterate: a list is cut to
      three items, the empty string has none, a non-empty string iterates characters that
      cannot be unpacked, and every other value cannot be sliced. */
  function FewShotItems(v: Json): (r: Result<seq<Json>>)
    ensures v.JArr? ==> r == Ok(Take(v.items, 3))
    ensures r.Ok? ==> |r.value| <= 3
    ensures r.Err? ==> r.error == TypeError
  {
    match v
    case JArr(items) => Ok(Take(items, 3))
    case JStr(s) => if s == [] then Ok([]) else Err(TypeError)
    case _ => Err(TypeError)
  }

  /** `Example(**ex)` for each item in turn; the first failure is what is raised. */
  function FewShots(items: seq<Json>): (r: Result<seq<Example>>)
    ensures r.Ok? <==> forall i :: 0 <= i < |items| ==> ExampleFromValue(items[i]).Ok?
    ensures r.Ok? ==> |r.value| == |items| && forall i :: 0 <= i < |items| ==> ExampleFromValue(items[i]) == Ok(r.value[i])
    ensures r.Err? ==> exists i :: 0 <= i < |items| && ExampleFromValue(items[i]) == Err(r.error)
                                   && forall j :: 0 <= j < i ==> ExampleFromValue(items[j]).Ok?
  {
    if items == [] then Ok([])
    else match ExampleFromValue(items[0])
      case Err(e) => Err(e)
      case Ok(x) =>
        match FewShots(items[1..])
        case Ok(rest) => FewShotsConsOk(items, x, rest); Ok([x] + rest)
        case Err(e) => FewShotsConsErr(items, e); Err(e)
  }

  lemma FewShotsConsOk(items: seq<Json>, x: Example, rest: seq<Example>)
    requires items != [] && ExampleFromValue(items[0]) == Ok(x)
    requires |rest| == |items| - 1 && forall i :: 0 <= i < |rest| ==> ExampleFromValue(items[1..][i]) == Ok(rest[i])
    ensures forall i :: 0 <= i < |items| ==> ExampleFromValue(items[i]) == Ok(([x] + rest)[i])
  {
    forall i | 0 <= i < |items| ensures ExampleFromValue(items[i]) == Ok(([x] + rest)[i]) {
      if i > 0 { assert items[i] == items[1..][i - 1]; }
    }
  }

  lemma FewShotsConsErr(items: seq<Json>, e: PyError)
    requires items != [] && ExampleFromValue(items[0]).Ok?
    requires exists i :: 0 <= i < |items[1..]| && ExampleFromValue(items[1..][i]) == Err(e)
                         && forall j :: 0 <= j < i ==> ExampleFromValue(items[1..][j]).Ok?
    ensures exists i :: 0 <= i < |items| && ExampleFromValue(items[i]) == Err(e)
                        && forall j :: 0 <= j < i ==> ExampleFromValue(items[j]).Ok?
  {
    var i :| 0 <= i < |items[1..]| && ExampleFromValue(items[1..][i]) == Err(e)
             && forall j :: 0 <= j < i ==> ExampleFromValue(items[1..][j]).Ok?;
    assert ExampleFromValue(items[i + 1]) == Err(e);
    forall j | 0 <= j < i + 1 ensures ExampleFromValue(items[j]).Ok? {
      if j > 0 { assert items[j] == items[1..][j - 1]; }
    }
  }

  /** The negative example, built only when the key is present with a truthy value. */
  function NegativeExample(m: map<string, Json>): (r: Result<Option<Example>>)
    ensures ("negative_example" !in m || !Truthy(m["negative_example"])) ==> r == Ok(None)
    ensures "negative_example" in m && Truthy(m["negative_example"]) ==>
              (r.Ok? <==> ExampleFromValue(m["negative_example"]).Ok?)
  {
    if "negative_example" in m && Truthy(m["negative_example"]) then
      match ExampleFromValue(m["negative_example"])
      case Ok(x) => Ok(Some(x))
      case Err(e) => Err(e)
    else Ok(None)
  }

  function StrArray(xs: seq<string>): (r: Json)
    ensures AsStrList(r) == Ok(xs)
  {
    var r := JArr(seq(|xs|, i requires 0 <= i < |xs| => JStr(xs[i])));
    assert AsStrList(r).Ok?;
    assert AsStrList(r).value == xs;
    r
  }

  /** The few-shots and the truthy negative example of a decoded object unpack into
      examples. */
  predicate ExtrasValid(m: map<string, Json>) {
    && FewShotItems(Get(m, "few_shots", JArr([]))).Ok?
    && FewShots(FewShotItems(Get(m, "few_shots", JArr([]))).value).Ok?
    && NegativeExample(m).Ok?
  }

  /** Every pack field the decoded object has is of the declared type. */
  predicate ScalarsValid(m: map<string, Json>) {
    && ("tone" in m ==> m["tone"].JStr?) && ("emoji_policy" in m ==> m["emoji_policy"].JStr?)
    && ("hedging_level" in m ==> AsInt(m["hedging_level"]).Ok?) && ("formality" in m ==> AsInt(m["formality"]).Ok?)
    && ("target_len_tokens" in m ==> AsInt(m["target_len_tokens"]).Ok?)
    && ("signature_moves" in m ==> AsStrList(m["signature_moves"]).Ok?)
    && ("taboos" in m ==> AsStrList(m["taboos"]).Ok?)
  }

  /** The decoded object from which `build_pack` constructs a pack without raising. */
  predicate PackFieldsValid(m: map<string, Json>) {
    ExtrasValid(m) && ScalarsValid(m)
  }

  /** The few-shots are those of the object's (first three) entries, or none when it has
      no entry; the negative example is that of a truthy entry, or none. */
  predicate ExtrasKept(m: map<string, Json>, shots: seq<Example>, negative: Option<Example>) {
    && (if "few_shots" in m then FewShotItems(m["few_shots"]).Ok? && FewShots(FewShotItems(m["few_shots"]).value) == Ok(shots)
        else shots == [])
    && (if "negative_example" in m && Truthy(m["negative_example"]) then
          negative.Some? && ExampleFromValue(m["negative_example"]) == Ok(negative.value)
        else negative == None)
  }

  /** Pack `p` holds the tone and emoji policy the decoded object `m` has, and the neutral
      tone and no emoji when it has none. */
  predicate TextKept(m: map<string, Json>, p: StylePolicyPack) {
    && (if "tone" in m then m["tone"] == JStr(p.tone) else p.tone == "neutral")
    && (if "emoji_policy" in m then m["emoji_policy"] == JStr(p.emojiPolicy) else p.emojiPolicy == "none")
  }

  /** Pack `p` holds the hedging level, formality and target length `m` has, and hedging 2,
      formality 3 and the lower bound of the length target for those it has not. */
  predicate LevelsKept(m: map<string, Json>, lengthTarget: (int, int), p: StylePolicyPack) {
    && (if "hedging_level" in m then m["hedging_level"] == JNum(p.hedgingLevel as real) else p.hedgingLevel == 2)
    && (if "formality" in m then m["formality"] == JNum(p.formality as real) else p.formality == 3)
    && (if "target_len_tokens" in m then m["target_len_tokens"] == JNum(p.targetLenTokens as real)
        else p.targetLenTokens == lengthTarget.0)
  }

  /** Pack `p` holds the signature moves and taboos `m` has, no moves when it has none and
      the first five loaded taboos when it has no taboos; cadence notes and the follow-up
      flag keep their model defaults. */
  predicate ListsKept(m: map<string, Json>, taboos: seq<string>, p: StylePolicyPack) {
    && (if "signature_moves" in m then AsStrList(m["signature_moves"]) == Ok(p.signatureMoves) else p.signatureMoves == [])
    && (if "taboos" in m then AsStrList(m["taboos"]) == Ok(p.taboos) else p.taboos == Take(taboos, 5))
    && p.cadenceNotes == None && p.followUpQuestionRequired
  }

  /** Pack `p` holds each scalar and list field of the decoded object `m` that is present,
      and the default of each that is absent. */
  predicate ScalarsKept(m: map<string, Json>, lengthTarget: (int, int), taboos: seq<string>, p: StylePolicyPack) {
    TextKept(m, p) && LevelsKept(m, lengthTarget, p) && ListsKept(m, taboos, p)
  }

  /** Every field of pack `p` is the one `build_pack` takes from the decoded object `m`. */
  predicate PackFieldsKept(m: map<string, Json>, lengthTarget: (int, int), taboos: seq<string>, p: StylePolicyPack) {
    ExtrasKept(m, p.fewShots, p.negativeExample) && ScalarsKept(m, lengthTarget, taboos, p)
  }

  /** A failed `Example(**v)` is a `TypeError` (not a mapping) or a validation error. */
  lemma ExampleErrors(v: Json)
    ensures ExampleFromValue(v).Err? ==> ExampleFromValue(v).error in {TypeError, ValueError}
  {
  }

  /** The few-shots, then the negative example. */
  function ExtrasFromFields(m: map<string, Json>): (r: Result<(seq<Example>, Option<Example>)>)
    ensures r.Ok? <==> ExtrasValid(m)
    ensures r.Ok? ==> ExtrasKept(m, r.value.0, r.value.1) && |r.value.0| <= 3
    ensures r.Err? ==> r.error in {TypeError, ValueError}
  {
    var items := FewShotItems(Get(m, "few_shots", JArr([])));
    if items.Err? then Err(items.error)
    else
      var shots := FewShots(items.value);
      if shots.Err? then
        var i :| 0 <= i < |items.value| && ExampleFromValue(items.value[i]) == Err(shots.error);
        ExampleErrors(items.value[i]);
        Err(shots.error)
      else
        var negative := NegativeExample(m);
        if negative.Err? then
          ExampleErrors(m["negative_example"]);
          Err(negative.error)
        else
          assert "few_shots" !in m ==> items.value == [];
          Ok((shots.value, negative.value))
  }

  /** The pack itself, from the object's scalar and list fields and the given few-shots and
      negative example. */
  function PackWith(m: map<string, Json>, lengthTarget: (int, int), taboos: seq<string>,
                    shots: seq<Example>, negative: Option<Example>): (r: Result<StylePolicyPack>)
    ensures r.Ok? <==> ScalarsValid(m)
    ensures r.Err? ==> r.error == ValueError
  {
    NewStylePolicyPack(
      Get(m, "tone", JStr("neutral")), Get(m, "hedging_level", JNum(2.0)), Get(m, "formality", JNum(3.0)),
      Get(m, "emoji_policy", JStr("none")), Get(m, "target_len_tokens", JNum(lengthTarget.0 as real)),
      Get(m, "signature_moves", JArr([])), Get(m, "taboos", StrArray(Take(taboos, 5))),
      shots, negative)
  }

  lemma PackWithText(m: map<string, Json>, lengthTarget: (int, int), taboos: seq<string>,
                     shots: seq<Example>, negative: Option<Example>)
    ensures var r := PackWith(m, lengthTarget, taboos, shots, negative);
            r.Ok? ==> TextKept(m, r.value)
  {
  }

  lemma PackWithLevels(m: map<string, Json>, lengthTarget: (int, int), taboos: seq<string>,
                       shots: seq<Example>, negative: Option<Example>)
    ensures var r := PackWith(m, lengthTarget, taboos, shots, negative);
            r.Ok? ==> LevelsKept(m, lengthTarget, r.value)
  {
  }

  lemma PackWithLists(m: map<string, Json>, lengthTarget: (int, int), taboos: seq<string>,
                      shots: seq<Example>, negative: Option<Example>)
    ensures var r := PackWith(m, lengthTarget, taboos, shots, negative);
            r.Ok? ==> ListsKept(m, taboos, r.value) && r.value.fewShots == shots && r.value.negativeExample == negative
  {
  }

  /** The pack `build_pack` constructs from a decoded object: few-shots, then the negative
      example, then the pack itself, each absent field taking its default. */
  function PackFromFields(m: map<string, Json>, lengthTarget: (int, int), taboos: seq<string>): (r: Result<StylePolicyPack>)
    ensures r.Ok? <==> PackFieldsValid(m)
    ensures r.Ok? ==> PackFieldsKept(m, lengthTarget, taboos, r.value)
    ensures r.Ok? ==> |r.value.fewShots| <= 3
    ensures r.Err? ==> r.error in {TypeError, ValueError}
  {
    match ExtrasFromFields(m)
    case Err(e) => Err(e)
    case Ok(extras) =>
      PackWithText(m, lengthTarget, taboos, extras.0, extras.1);
      PackWithLevels(m, lengthTarget, taboos, extras.0, extras.1);
      PackWithLists(m, lengthTarget, taboos, extras.0, extras.1);
      PackWith(m, lengthTarget, taboos, extras.0, extras.1)
  }

  /** `build_pack` on the model's reply.  Decode, key and type failures give the default
      pack; a reply that is not an object makes `.get` raise; a validation error of an
      example or of the pack escapes. */
  function PackFromReply(reply: string, loads: Loads, intent: string, taboos: seq<string>,
                         examples: seq<Example>): (r: Result<StylePolicyPack>)
    ensures r.Ok? ==> |r.value.fewShots| <= 3
    ensures r.Ok? ==> r.value.cadenceNotes == None && r.value.followUpQuestionRequired
    ensures loads(StripFence(reply)).Err? && loads(StripFence(reply)).error in Handled ==>
              r == Ok(DefaultPack(intent, LengthTarget(intent), taboos, examples))
    ensures r.Err? ==> r.error in {AttributeError, ValueError} || (loads(StripFence(reply)).Err? && r == Err(loads(StripFence(reply)).error))
  {
    PackFromDecoded(loads(StripFence(reply)), intent, taboos, examples)
  }

  /** `build_pack` from the decoded reply on. */
  function PackFromDecoded(decoded: Result<Json>, intent: string, taboos: seq<string>,
                           examples: seq<Example>): (r: Result<StylePolicyPack>)
    ensures r.Ok? ==> |r.value.fewShots| <= 3
    ensures r.Ok? ==> r.value.cadenceNotes == None && r.value.followUpQuestionRequired
    ensures decoded.Err? && decoded.error in Handled ==> r == Ok(DefaultPack(intent, LengthTarget(intent), taboos, examples))
    ensures r.Err? ==> r.error in {AttributeError, ValueError} || (decoded.Err? && r == Err(decoded.error))
  {
    var target := LengthTarget(intent);
    match decoded
    case Err(e) => if CaughtBy(e, Handled) then Ok(DefaultPack(intent, target, taboos, examples)) else Err(e)
    case Ok(data) =>
      if !data.JObj? then Err(AttributeError)
      else
        match PackFromFields(data.fields, target, taboos)
        case Ok(p) => Ok(p)
        case Err(e) => if CaughtBy(e, Handled) then Ok(DefaultPack(intent, target, taboos, examples)) else Err(e)
  }

  /** On a decoded object whose fields validate, `build_pack` returns the pack holding each
      present field and the default of each absent one; when they do not, an unpacking
      `TypeError` gives the default pack and a validation error escapes. */
  lemma PackFromObject(reply: string, loads: Loads, intent: string, taboos: seq<string>, examples: seq<Example>,
                       m: map<string, Json>)
    requires loads(StripFence(reply)) == Ok(JObj(m))
    ensures var r := PackFromReply(reply, loads, intent, taboos, examples);
            PackFieldsValid(m) ==> r.Ok? && PackFieldsKept(m, LengthTarget(intent), taboos, r.value)
    ensures var r := PackFromReply(reply, loads, intent, taboos, examples);
            PackFromFields(m, LengthTarget(intent), taboos) == Err(TypeError) ==>
              r == Ok(DefaultPack(intent, LengthTarget(intent), taboos, examples))
    ensures var r := PackFromReply(reply, loads, intent, taboos, examples);
            PackFromFields(m, LengthTarget(intent), taboos) == Err(ValueError) ==> r == Err(ValueError)
  {
    assert PackFromReply(reply, loads, intent, taboos, examples)
           == PackFromDecoded(Ok(JObj(m)), intent, taboos, examples);
  }

  /** An object without fields gives the default pack's values, except that its few-shots
      are the (empty) decoded list rather than a selection from the examples. */
  lemma EmptyObjectIsDefault(reply: string, loads: Loads, intent: string, taboos: seq<string>, examples: seq<Example>)
    requires loads(StripFence(reply)) == Ok(JObj(map[]))
    ensures PackFromReply(reply, loads, intent, taboos, examples)
            == Ok(DefaultPack(intent, LengthTarget(intent), taboos, examples).(fewShots := []))
  {
    PackFromObject(reply, loads, intent, taboos, examples, map[]);
    EmptyFields(intent, LengthTarget(intent), taboos, examples);
  }

  lemma EmptyFields(intent: string, target: (int, int), taboos: seq<string>, examples: seq<Example>)
    ensures PackFromFields(map[], target, taboos) == Ok(DefaultPack(intent, target, taboos, examples).(fewShots := []))
  {
    var m: map<string, Json> := map[];
    assert FewShotItems(Get(m, "few_shots", JArr([]))) == Ok([]);
    assert FewShots([]) == Ok([]);
    assert NegativeExample(m) == Ok(None);
    assert AsStrList(Get(m, "taboos", StrArray(Take(taboos, 5)))) == Ok(Take(taboos, 5));
    assert AsInt(Get(m, "target_len_tokens", JNum(target.0 as real))) == Ok(target.0);
    assert AsInt(JNum(2.0)) == Ok(2) && AsInt(JNum(3.0)) == Ok(3);
  }

  /** A validation error is not caught: a tone that is not a string makes `build_pack`
      raise. */
  lemma ValidationErrorEscapes(reply: string, loads: Loads, intent: string, taboos: seq<string>, examples: seq<Example>,
                               m: map<string, Json>)
    requires loads(StripFence(reply)) == Ok(JObj(m))
    requires "few_shots" !in m && "negative_example" !in m
    requires "tone" in m && !m["tone"].JStr?
    ensures PackFromReply(reply, loads, intent, taboos, examples) == Err(ValueError)
  {
    PackFromObject(reply, loads, intent, taboos, examples, m);
    ToneNotString(m, LengthTarget(intent), taboos);
  }

  lemma ToneNotString(m: map<string, Json>, target: (int, int), taboos: seq<string>)
    requires "few_shots" !in m && "negative_example" !in m
    requires "tone" in m && !m["tone"].JStr?
    ensures PackFromFields(m, target, taboos) == Err(ValueError)
  {
    assert FewShotItems(Get(m, "few_shots", JArr([]))) == Ok([]);
    assert FewShots([]) == Ok([]);
    assert NegativeExample(m) == Ok(None);
  }

  /** A few-shot entry that is not an object is a `TypeError`, which is caught. */
  lemma NonObjectFewShotIsDefault(reply: string, loads: Loads, intent: string, taboos: seq<string>, examples: seq<Example>)
    requires loads(StripFence(reply)) == Ok(JObj(map["few_shots" := JArr([JNum(1.0)])]))
    ensures PackFromReply(reply, loads, intent, taboos, examples)
            == Ok(DefaultPack(intent, LengthTarget(intent), taboos, examples))
  {
    var m := map["few_shots" := JArr([JNum(1.0)])];
    PackFromObject(reply, loads, intent, taboos, examples, m);
    assert FewShotItems(Get(m, "few_shots", JArr([]))) == Ok([JNum(1.0)]);
    assert FewShots([JNum(1.0)]) == Err(TypeError);
  }

  /** `example(**json.loads(line))` for each non-blank line; the first failure is raised. */
  function ExamplesFromLines(lines: seq<string>, loads: Loads): (r: Result<seq<Example>>)
    ensures r.Ok? ==> |r.value| <= |lines|
  {
    if lines == [] then Ok([])
    else if Strip(lines[0]) == [] then ExamplesFromLines(lines[1..], loads)
    else match loads(lines[0])
      case Err(e) => Err(e)
      case Ok(v) =>
        match ExampleFromValue(v)
        case Err(e) => Err(e)
        case Ok(x) =>
          match ExamplesFromLines(lines[1..], loads)
          case Ok(rest) => Ok([x] + rest)
          case Err(e) => Err(e)
  }

  lemma {:induction false} ExamplesFromLinesStep(lines: seq<string>, i: nat, loads: Loads, done: seq<Example>)
    requires i < |lines|
    requires ExamplesFromLines(lines, loads) == (match ExamplesFromLines(lines[i..], loads)
                                                 case Ok(rest) => Ok(done + rest) case Err(e) => Err(e))
    ensures Strip(lines[i]) == [] ==>
              ExamplesFromLines(lines, loads) == (match ExamplesFromLines(lines[i + 1..], loads)
                                                  case Ok(rest) => Ok(done + rest) case Err(e) => Err(e))
    ensures Strip(lines[i]) != [] && loads(lines[i]).Err? ==> ExamplesFromLines(lines, loads) == Err(loads(lines[i]).error)
    ensures Strip(lines[i]) != [] && loads(lines[i]).Ok? && ExampleFromValue(loads(lines[i]).value).Err? ==>
              ExamplesFromLines(lines, loads) == Err(ExampleFromValue(loads(lines[i]).value).error)
    ensures Strip(lines[i]) != [] && loads(lines[i]).Ok? && ExampleFromValue(loads(lines[i]).value).Ok? ==>
              ExamplesFromLines(lines, loads) == (match ExamplesFromLines(lines[i + 1..], loads)
                                                  case Ok(rest) => Ok(done + [ExampleFromValue(loads(lines[i]).value).value] + rest)
                                                  case Err(e) => Err(e))
  {
    assert lines[i..][1..] == lines[i + 1..];
    assert lines[i..][0] == lines[i];
    if Strip(lines[i]) != [] && loads(lines[i]).Ok? && ExampleFromValue(loads(lines[i]).value).Ok? {
      var x := ExampleFromValue(loads(lines[i]).value).value;
      match ExamplesFromLines(lines[i + 1..], loads)
      case Ok(rest) => assert done + [x] + rest == done + ([x] + rest);
      case Err(e) =>
    }
  }

  /** The contextor's persona artifacts. */
  class Contextor {
    var styleRules: string
    var examples: seq<Example>
    var taboos: seq<string>

    constructor ()
      ensures styleRules == "" && examples == [] && taboos == []
    {
      styleRules := "";
      examples := [];
      taboos := [];
    }

    /** `_load_artifacts` on the contents of the persona's files (`None` for a missing
        file): the style rules are read, the examples appended line by line, and the taboos
        parsed; a line that does not decode or validate raises, leaving the taboos unread. */
    method LoadArtifacts(rulesFile: Option<string>, examplesFile: Option<string>, tabooFile: Option<string>, loads: Loads)
      returns (raised: Option<PyError>)
      modifies this
      ensures styleRules == if rulesFile.Some? then rulesFile.value else old(styleRules)
      ensures examplesFile.None? ==> raised.None? && examples == old(examples)
      ensures examplesFile.Some? ==>
                match ExamplesFromLines(SplitOn(examplesFile.value, '\n'), loads)
                case Ok(xs) => raised.None? && examples == old(examples) + xs
                case Err(e) => raised == Some(e)
      ensures raised.None? ==> taboos == if tabooFile.Some? then ParseTaboos(tabooFile.value) else old(taboos)
      ensures raised.Some? ==> taboos == old(taboos)
    {
      if rulesFile.Some? {
        styleRules := rulesFile.value;
      }
      raised := None;
      if examplesFile.Some? {
        raised := AppendExamples(SplitOn(examplesFile.value, '\n'), loads);
        if raised.Some? {
          return;
        }
      }
      if tabooFile.Some? {
        taboos := ParseTaboos(tabooFile.value);
      }
    }

    /** The examples loop of `_load_artifacts`: each non-blank line is decoded and validated
        and its example appended; the first line that fails raises. */
    method AppendExamples(lines: seq<string>, loads: Loads) returns (raised: Option<PyError>)
      modifies this
      ensures styleRules == old(styleRules) && taboos == old(taboos)
      ensures match ExamplesFromLines(lines, loads)
              case Ok(xs) => raised.None? && examples == old(examples) + xs
              case Err(e) => raised == Some(e)
    {
      var i := 0;
      ghost var done: seq<Example> := [];
      assert lines[0..] == lines;
      match ExamplesFromLines(lines, loads) {
        case Ok(rest) => assert done + rest == rest;
        case Err(e) =>
      }
      while i < |lines|
        invariant 0 <= i <= |lines|
        invariant styleRules == old(styleRules) && taboos == old(taboos)
        invariant examples == old(examples) + done
        invariant ExamplesFromLines(lines, loads) == (match ExamplesFromLines(lines[i..], loads)
                                                      case Ok(rest) => Ok(done + rest) case Err(e) => Err(e))
      {
        ExamplesFromLinesStep(lines, i, loads, done);
        if Strip(lines[i]) != [] {
          var data := loads(lines[i]);
          if data.Err? {
            assert ExamplesFromLines(lines, loads) == Err(data.error);
            return Some(data.error);
          }
          var example := ExampleFromValue(data.value);
          if example.Err? {
            assert ExamplesFromLines(lines, loads) == Err(example.error);
            return Some(example.error);
          }
          examples := examples + [example.value];
          done := done + [example.value];
        }
        i := i + 1;
      }
      assert lines[i..] == [];
      return None;
    }

    /** `build_pack`: one model call on the style-pack prompt (the first 500 characters of
        the style rules and the first ten taboos, the message, its intent and the retrieval
        confidence), whose reply becomes the pack. */
    method BuildPack(userMessage: string, confidence: real, generate: Generate, loads: Loads)
      returns (pack: Result<StylePolicyPack>, prompt: Prompt)
      ensures prompt == StylePack(Take(styleRules, 500), Take(taboos, 10), userMessage, ClassifyIntent(userMessage), confidence)
      ensures pack == PackFromReply(generate(prompt), loads, ClassifyIntent(userMessage), taboos, examples)
      ensures pack.Ok? ==> |pack.value.fewShots| <= 3
    {
      var intent := ClassifyIntent(userMessage);
      prompt := StylePack(Take(styleRules, 500), Take(taboos, 10), userMessage, intent, confidence);
      pack := PackFromReply(generate(prompt), loads, intent, taboos, examples);
    }
  }
}
