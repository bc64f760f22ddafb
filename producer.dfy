/** The producer: one model call that drafts a neutral answer, either from the retrieved
    notes or, when nothing was retrieved, from the last few turns of the conversation. */
module Producer {
  import opened PyText
  import opened Json
  import opened Models
  import opened Llm

  const NoHistory: string := "No prior conversation available."
  const LowConfidenceMark: string := " (lower confidence)"

  /** A turn's two sides, trimmed; a missing side is empty. */
  function Sides(t: Turn): (string, string) {
    (Strip(t.UserText()), Strip(t.AssistantText()))
  }

  function SidesOf(turns: seq<Turn>): (r: seq<(string, string)>)
    ensures |r| == |turns|
    ensures forall k :: 0 <= k < |turns| ==> r[k] == Sides(turns[k])
  {
    if turns == [] then [] else [Sides(turns[0])] + SidesOf(turns[1..])
  }

  /** The snippet for a turn with trimmed sides `u` and `a`, or `None` when both are blank. */
  function Snippet(u: string, a: string): (r: Option<string>)
    ensures r.None? <==> u == [] && a == []
    ensures r.Some? ==> r.value == "User: " + u + "\nAssistant: " + a
  {
    if u == [] && a == [] then None else Some("User: " + u + "\nAssistant: " + a)
  }

  /** The snippets of the turns with trimmed sides `sides`, in order, skipping blank turns. */
  function Snippets(sides: seq<(string, string)>): (r: seq<string>)
    ensures |r| <= |sides|
    decreases |sides|
  {
    if sides == [] then []
    else
      var rest := Snippets(sides[..|sides| - 1]);
      var last := sides[|sides| - 1];
      match Snippet(last.0, last.1)
      case None => rest
      case Some(s) => rest + [s]
  }

  /** There are no snippets exactly when every turn is blank on both sides. */
  lemma {:induction false} SnippetsEmpty(sides: seq<(string, string)>)
    ensures Snippets(sides) == [] <==> forall k :: 0 <= k < |sides| ==> sides[k].0 == [] && sides[k].1 == []
    decreases |sides|
  {
    if sides != [] {
      var init := sides[..|sides| - 1];
      SnippetsEmpty(init);
      forall k | 0 <= k < |init|
        ensures sides[k] == init[k]
      {
      }
    }
  }

  /** The history block: the snippets of the last at most three turns, separated by blank
      lines, or a fixed placeholder when there are none. */
  function HistoryBlock(history: seq<Turn>): string {
    var snippets := Snippets(SidesOf(Last(history, 3)));
    if snippets == [] then NoHistory else Join("\n\n", snippets)
  }

  /** The history block looks only at the last three turns: older turns make no difference. */
  lemma HistoryBlockWindow(older: seq<Turn>, recent: seq<Turn>)
    requires |recent| == 3
    ensures HistoryBlock(older + recent) == HistoryBlock(recent)
  {
    var h := older + recent;
    assert Last(h, 3) == h[|h| - 3..] == recent;
    assert Last(recent, 3) == recent;
  }

  /** The text of a note before its confidence marker. */
  function NoteHead(f: CanonicalFact): string {
    "[" + f.id + "] " + f.text
  }

  /** `"[id] text"`, marked when the confidence is below one half. */
  function NoteLine(f: CanonicalFact): string {
    NoteHead(f) + (if f.confidence < 0.5 then LowConfidenceMark else "")
  }

  /** A note line is the note's head followed by the marker exactly when its confidence is
      below one half, and by nothing otherwise. */
  lemma NoteLineMarked(f: CanonicalFact)
    ensures StartsWith(NoteLine(f), NoteHead(f))
    ensures NoteLine(f)[|NoteHead(f)|..] == if f.confidence < 0.5 then LowConfidenceMark else ""
  {
    assert NoteLine(f)[..|NoteHead(f)|] == NoteHead(f);
  }

  lemma NoteLineSingle(f: CanonicalFact)
    requires '\n' !in f.id && '\n' !in f.text
    ensures '\n' !in NoteLine(f)
  {
    assert '\n' !in LowConfidenceMark;
    assert '\n' !in NoteHead(f);
  }

  function NoteLines(notes: seq<CanonicalFact>): (r: seq<string>)
    ensures |r| == |notes|
    ensures forall k :: 0 <= k < |notes| ==> r[k] == NoteLine(notes[k])
  {
    if notes == [] then [] else [NoteLine(notes[0])] + NoteLines(notes[1..])
  }

  /** The notes block lists the notes in retrieval order, one per line: notes without line
      breaks are recovered line by line. */
  lemma NotesBlockLines(notes: seq<CanonicalFact>)
    requires notes != []
    requires forall k :: 0 <= k < |notes| ==> '\n' !in notes[k].id && '\n' !in notes[k].text
    ensures SplitOn(Join("\n", NoteLines(notes)), '\n') == NoteLines(notes)
  {
    NoteLinesSingle(notes);
    SplitOnJoin(NoteLines(notes), '\n');
  }

  lemma NoteLinesSingle(notes: seq<CanonicalFact>)
    requires forall k :: 0 <= k < |notes| ==> '\n' !in notes[k].id && '\n' !in notes[k].text
    ensures forall p :: p in NoteLines(notes) ==> '\n' !in p
  {
    var lines := NoteLines(notes);
    forall k | 0 <= k < |lines|
      ensures '\n' !in lines[k]
    {
      NoteLineSingle(notes[k]);
    }
  }

  lemma SnippetsStep(sides: seq<(string, string)>, k: nat)
    requires k < |sides|
    ensures Snippets(sides[..k + 1]) == Snippets(sides[..k]) + SnippetOrNone(sides[k])
  {
    assert sides[..k + 1][..k] == sides[..k];
  }

  function SnippetOrNone(side: (string, string)): seq<string> {
    match Snippet(side.0, side.1)
    case None => []
    case Some(s) => [s]
  }

  /** The history block, built by the append loop of `produce`. */
  method BuildHistoryBlock(history: seq<Turn>) returns (block: string)
    ensures block == HistoryBlock(history)
  {
    var recent := Last(history, 3);
    var sides := SidesOf(recent);
    var snippets: seq<string> := [];
    for k := 0 to |recent|
      invariant snippets == Snippets(sides[..k])
    {
      var user := Strip(recent[k].UserText());
      var assistant := Strip(recent[k].AssistantText());
      assert sides[k] == (user, assistant);
      SnippetsStep(sides, k);
      var s := Snippet(user, assistant);
      if s.Some? {
        snippets := snippets + [s.value];
      }
    }
    assert sides[..|recent|] == sides;
    block := if snippets == [] then NoHistory else Join("\n\n", snippets);
  }

  /** The notes block, built by the append loop of `produce`. */
  method BuildNotesBlock(notes: seq<CanonicalFact>) returns (block: string)
    ensures block == Join("\n", NoteLines(notes))
  {
    var lines: seq<string> := [];
    for k := 0 to |notes|
      invariant |lines| == k
      invariant forall j :: 0 <= j < k ==> lines[j] == NoteLine(notes[j])
    {
      lines := lines + [NoteLine(notes[k])];
    }
    assert lines == NoteLines(notes);
    block := Join("\n", lines);
  }

  /** `produce`: one model call; with no notes the prompt is built from the history, otherwise
      from the notes and the query; the draft is the reply trimmed. */
  method Produce(query: string, notes: seq<CanonicalFact>, userMessage: string, history: seq<Turn>, generate: Generate)
    returns (draft: string, prompt: Prompt)
    ensures notes == [] ==> prompt == DraftFromHistory(HistoryBlock(history), userMessage)
    ensures notes != [] ==> prompt == DraftFromNotes(Join("\n", NoteLines(notes)), query)
    ensures draft == Strip(generate(prompt))
    ensures IsTrimmed(draft)
  {
    if notes == [] {
      var block := BuildHistoryBlock(history);
      prompt := DraftFromHistory(block, userMessage);
    } else {
      var block := BuildNotesBlock(notes);
      prompt := DraftFromNotes(block, query);
    }
    draft := Strip(generate(prompt));
  }
}
