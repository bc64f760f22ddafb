/** The rolling summarizer: the last five turns, rendered as text, go to the model together
    with the previous summary when there is one. */
module Summarizer {
  import opened PyText
  import opened Json
  import opened Models
  import opened Llm

  /** `max_turns_before_summarize`. */
  const Window: nat := 5

  /** The two lines of a turn: `"User: u"` and `"Assistant: a"`, a missing side empty. */
  function TurnLines(t: Turn): seq<string> {
    ["User: " + t.UserText(), "Assistant: " + t.AssistantText()]
  }

  /** `"User: u\nAssistant: a"`. */
  function TurnText(t: Turn): string {
    "User: " + t.UserText() + "\nAssistant: " + t.AssistantText()
  }

  function TurnTexts(turns: seq<Turn>): (r: seq<string>)
    ensures |r| == |turns|
    ensures forall k :: 0 <= k < |turns| ==> r[k] == TurnText(turns[k])
  {
    if turns == [] then [] else [TurnText(turns[0])] + TurnTexts(turns[1..])
  }

  /** All lines of the turns, two per turn, in order. */
  function AllLines(turns: seq<Turn>): (r: seq<string>)
    ensures |r| == 2 * |turns|
  {
    if turns == [] then [] else TurnLines(turns[0]) + AllLines(turns[1..])
  }

  /** The turns joined by newlines. */
  function TurnsBlock(turns: seq<Turn>): string {
    Join("\n", TurnTexts(turns))
  }

  /** The model input for a history and a previous summary: nothing for an empty history
      (no call is made); the update prompt exactly when the previous summary is non-empty. */
  function SummaryPrompt(history: seq<Turn>, previous: Option<string>): (r: Option<Prompt>)
    ensures r.None? <==> history == []
    ensures r.Some? ==> (r.value.SummaryUpdate? <==> previous.Some? && previous.value != [])
    ensures r.Some? ==> (r.value.Summary? || r.value.SummaryUpdate?)
    ensures r.Some? && r.value.SummaryUpdate? ==> r.value.previous == previous.value
  {
    if history == [] then None
    else
      var block := TurnsBlock(Last(history, Window));
      if previous.Some? && previous.value != [] then Some(SummaryUpdate(previous.value, block)) else Some(Summary(block))
  }

  /** `summarize`: `""` for an empty history, otherwise the model's reply trimmed. */
  function Summarize(history: seq<Turn>, previous: Option<string>, generate: Generate): (r: string)
    ensures history == [] ==> r == ""
    ensures history != [] ==> r == Strip(generate(SummaryPrompt(history, previous).value))
    ensures IsTrimmed(r)
  {
    match SummaryPrompt(history, previous)
    case None => ""
    case Some(p) => Strip(generate(p))
  }

  /** Only the last five turns reach the model: older turns make no difference. */
  lemma SummaryWindow(older: seq<Turn>, recent: seq<Turn>, previous: Option<string>)
    requires |recent| == Window
    ensures SummaryPrompt(older + recent, previous) == SummaryPrompt(recent, previous)
  {
    var h := older + recent;
    assert Last(h, Window) == h[|h| - Window..] == recent;
    assert Last(recent, Window) == recent;
  }

  /** The turns block is every turn's two lines, joined by newlines. */
  lemma {:induction false} BlockIsLines(turns: seq<Turn>)
    requires turns != []
    ensures TurnsBlock(turns) == Join("\n", AllLines(turns))
    decreases |turns|
  {
    var t := turns[0];
    TurnLinesJoin(t);
    if |turns| == 1 {
      assert TurnTexts(turns) == [TurnText(t)];
      assert AllLines(turns) == TurnLines(t) + [];
      assert TurnLines(t) + [] == TurnLines(t);
    } else {
      var rest := turns[1..];
      BlockIsLines(rest);
      BlockCons(t, rest);
      assert AllLines(rest) != [];
      JoinConcat("\n", TurnLines(t), AllLines(rest));
      assert AllLines(turns) == TurnLines(t) + AllLines(rest);
    }
  }

  lemma TurnLinesJoin(t: Turn)
    ensures Join("\n", TurnLines(t)) == TurnText(t)
  {
  }

  lemma BlockCons(t: Turn, rest: seq<Turn>)
    requires rest != []
    ensures TurnsBlock([t] + rest) == TurnText(t) + "\n" + TurnsBlock(rest)
  {
    assert ([t] + rest)[1..] == rest;
    assert TurnTexts([t] + rest) == [TurnText(t)] + TurnTexts(rest);
  }

  lemma {:induction false} AllLinesSingle(turns: seq<Turn>)
    requires forall k :: 0 <= k < |turns| ==> '\n' !in turns[k].UserText() && '\n' !in turns[k].AssistantText()
    ensures forall p :: p in AllLines(turns) ==> '\n' !in p
    decreases |turns|
  {
    if turns != [] {
      AllLinesSingle(turns[1..]);
      assert '\n' !in "User: " && '\n' !in "Assistant: ";
      assert forall k :: 0 <= k < |turns[1..]| ==> turns[1..][k] == turns[k + 1];
    }
  }

  /** When no side holds a line break, the block the model sees splits back into the two
      lines of each of the last five turns, in order. */
  lemma SummaryLines(history: seq<Turn>)
    requires history != []
    requires forall k :: 0 <= k < |history| ==> '\n' !in history[k].UserText() && '\n' !in history[k].AssistantText()
    ensures SplitOn(TurnsBlock(Last(history, Window)), '\n') == AllLines(Last(history, Window))
    ensures |SplitOn(TurnsBlock(Last(history, Window)), '\n')| == 2 * (if |history| < Window then |history| else Window)
  {
    var recent := Last(history, Window);
    assert forall k :: 0 <= k < |recent| ==> recent[k] == history[|history| - |recent| + k];
    BlockIsLines(recent);
    AllLinesSingle(recent);
    SplitOnJoin(AllLines(recent), '\n');
  }
}
