/** The episodic memory store: three tables (per-user notes, one rolling summary per session,
    and the turns of each session), held in memory instead of in SQLite. */
module Episodic {
  import opened Json
  import opened Models

  /** A row of `episodic_notes`; `id` is the autoincrement key, so notes are numbered 1, 2, ... */
  datatype NoteRow = NoteRow(id: nat, userId: string, bullet: string, metadata: Option<map<string, string>>)

  /** A note as `get_user_notes` returns it. */
  datatype NoteView = NoteView(id: nat, bullet: string, metadata: Option<map<string, string>>)

  /** A row of `conversation_summaries`, keyed by session. */
  datatype SummaryRow = SummaryRow(userId: string, rollingSummary: string, conversationTurns: int)

  /** A row of `conversation_turns`. */
  datatype TurnRow = TurnRow(sessionId: string, userId: string, turnIndex: int, userMessage: string, assistantResponse: string)

  function ViewOf(n: NoteRow): NoteView {
    NoteView(n.id, n.bullet, n.metadata)
  }

  function Views(rows: seq<NoteRow>): (r: seq<NoteView>)
    ensures |r| == |rows|
    ensures forall k :: 0 <= k < |rows| ==> r[k] == ViewOf(rows[k])
  {
    if rows == [] then [] else [ViewOf(rows[0])] + Views(rows[1..])
  }

  /** The notes of `user`, newest first. */
  function UserRows(notes: seq<NoteRow>, user: string): (r: seq<NoteRow>)
    ensures |r| <= |notes|
    ensures forall n :: n in r ==> n.userId == user
    decreases |notes|
  {
    if notes == [] then []
    else
      var last := notes[|notes| - 1];
      (if last.userId == user then [last] else []) + UserRows(notes[..|notes| - 1], user)
  }

  /** SQL `LIMIT`: a negative limit means no limit. */
  function Limit<T>(s: seq<T>, limit: int): (r: seq<T>)
    ensures limit < 0 ==> r == s
    ensures limit >= 0 ==> |r| == (if limit < |s| then limit else |s|) && r == s[..|r|]
  {
    if limit < 0 || |s| <= limit then s else s[..limit]
  }

  /** The last `n` elements, or all of them. */
  function LastN<T>(s: seq<T>, n: nat): (r: seq<T>)
    ensures |r| == (if n < |s| then n else |s|)
    ensures r == s[|s| - |r|..]
  {
    if n < |s| then s[|s| - n..] else s
  }

  /** The turns of `session`, in insertion order. */
  function SessionRows(turns: seq<TurnRow>, session: string): (r: seq<TurnRow>)
    ensures |r| <= |turns|
    ensures forall t :: t in r ==> t in turns && t.sessionId == session
    decreases |turns|
  {
    if turns == [] then []
    else
      var last := turns[|turns| - 1];
      SessionRows(turns[..|turns| - 1], session) + (if last.sessionId == session then [last] else [])
  }

  /** `COALESCE(MAX(turn_index), -1) + 1` over the session's rows. */
  function NextIndex(turns: seq<TurnRow>, session: string): (r: int)
    ensures r >= 0
    ensures forall k :: 0 <= k < |turns| && turns[k].sessionId == session ==> turns[k].turnIndex < r
    decreases |turns|
  {
    if turns == [] then 0
    else
      var rest := NextIndex(turns[..|turns| - 1], session);
      var last := turns[|turns| - 1];
      if last.sessionId == session && last.turnIndex + 1 > rest then last.turnIndex + 1 else rest
  }

  /** A history entry: the `{"user": ..., "assistant": ...}` dict. */
  function TurnOf(t: TurnRow): Turn {
    Turn(Some(t.userMessage), Some(t.assistantResponse))
  }

  function TurnsOf(rows: seq<TurnRow>): (r: seq<Turn>)
    ensures |r| == |rows|
    ensures forall k :: 0 <= k < |rows| ==> r[k] == TurnOf(rows[k])
  {
    if rows == [] then [] else [TurnOf(rows[0])] + TurnsOf(rows[1..])
  }

  /** Within each session, turn indices strictly increase in insertion order (which also makes
      `(session_id, turn_index)` unique). */
  ghost predicate IndicesIncrease(turns: seq<TurnRow>) {
    forall a, b :: 0 <= a < b < |turns| && turns[a].sessionId == turns[b].sessionId ==>
      turns[a].turnIndex < turns[b].turnIndex
  }

  /** Appending a turn with the next index keeps the indices increasing, and touches no other
      session. */
  lemma AppendKeepsIncreasing(turns: seq<TurnRow>, t: TurnRow)
    requires IndicesIncrease(turns)
    requires t.turnIndex == NextIndex(turns, t.sessionId)
    ensures IndicesIncrease(turns + [t])
    ensures forall s :: s != t.sessionId ==> SessionRows(turns + [t], s) == SessionRows(turns, s)
    ensures SessionRows(turns + [t], t.sessionId) == SessionRows(turns, t.sessionId) + [t]
  {
    assert (turns + [t])[..|turns|] == turns;
  }

  /** Under the invariant, a session's rows in insertion order are in ascending index order,
      so `ORDER BY turn_index` returns them as inserted. */
  lemma {:induction false} SessionRowsAscending(turns: seq<TurnRow>, session: string)
    requires IndicesIncrease(turns)
    ensures forall a, b :: 0 <= a < b < |SessionRows(turns, session)| ==>
              SessionRows(turns, session)[a].turnIndex < SessionRows(turns, session)[b].turnIndex
    decreases |turns|
  {
    if turns != [] {
      var init := turns[..|turns| - 1];
      var last := turns[|turns| - 1];
      assert IndicesIncrease(init);
      SessionRowsAscending(init, session);
      if last.sessionId == session {
        forall t | t in SessionRows(init, session)
          ensures t.turnIndex < last.turnIndex
        {
          var k :| 0 <= k < |init| && init[k] == t;
          assert turns[k] == t;
        }
      }
    }
  }

  /** The largest index among a session's rows in ascending order, or -1 with none. */
  function LastIndex(rows: seq<TurnRow>): int {
    if rows == [] then -1 else rows[|rows| - 1].turnIndex
  }

  /** Under the invariant, the session's first turn gets index 0 and every later one the
      index after its predecessor's. */
  lemma {:induction false} NextIndexIsLastPlusOne(turns: seq<TurnRow>, session: string)
    requires IndicesIncrease(turns)
    requires forall k :: 0 <= k < |turns| ==> turns[k].turnIndex >= 0
    ensures NextIndex(turns, session) == LastIndex(SessionRows(turns, session)) + 1
    decreases |turns|
  {
    if turns != [] {
      var init := turns[..|turns| - 1];
      assert IndicesIncrease(init);
      NextIndexIsLastPlusOne(init, session);
      if turns[|turns| - 1].sessionId == session {
        LastOfSessionIsLatest(turns, session);
      }
    }
  }

  /** The newest row of a session has a larger index than the session's earlier rows. */
  lemma LastOfSessionIsLatest(turns: seq<TurnRow>, session: string)
    requires turns != [] && IndicesIncrease(turns) && turns[|turns| - 1].sessionId == session
    requires turns[|turns| - 1].turnIndex >= 0
    ensures LastIndex(SessionRows(turns[..|turns| - 1], session)) < turns[|turns| - 1].turnIndex
  {
    var init := turns[..|turns| - 1];
    if SessionRows(init, session) != [] {
      var prev := SessionRows(init, session)[|SessionRows(init, session)| - 1];
      assert prev in init;
      var k :| 0 <= k < |init| && init[k] == prev;
      assert turns[k] == prev;
    }
  }

  /** A summary lookup returns the row last written for the session. */
  lemma SummaryOverwrite(summaries: map<string, SummaryRow>, session: string, row: SummaryRow, other: string)
    requires other != session
    ensures Lookup(summaries[session := row], session) == Some(row)
    ensures Lookup(summaries[session := row], other) == Lookup(summaries, other)
  {
  }

  function Lookup(summaries: map<string, SummaryRow>, session: string): (r: Option<SummaryRow>)
    ensures r.Some? <==> session in summaries
    ensures r.Some? ==> r.value == summaries[session]
  {
    if session in summaries then Some(summaries[session]) else None
  }

  /** The notes are numbered by insertion: the note at position `k` has id `k + 1`. */
  ghost predicate NotesNumbered(notes: seq<NoteRow>) {
    forall k :: 0 <= k < |notes| ==> notes[k].id == k + 1
  }

  /** The notes of a user come newest first: their ids strictly decrease. */
  lemma {:induction false} UserRowsNewestFirst(notes: seq<NoteRow>, user: string)
    requires NotesNumbered(notes)
    ensures forall a, b :: 0 <= a < b < |UserRows(notes, user)| ==> UserRows(notes, user)[a].id > UserRows(notes, user)[b].id
    decreases |notes|
  {
    if notes != [] {
      var init := notes[..|notes| - 1];
      assert NotesNumbered(init);
      UserRowsNewestFirst(init, user);
      UserRowsNumbered(init, user);
    }
  }

  /** Every note of the user is among their notes (no note is missed). */
  lemma {:induction false} UserRowsComplete(notes: seq<NoteRow>, user: string, k: nat)
    requires k < |notes| && notes[k].userId == user
    ensures notes[k] in UserRows(notes, user)
    decreases |notes|
  {
    if k < |notes| - 1 {
      UserRowsComplete(notes[..|notes| - 1], user, k);
    }
  }

  /** `EpisodicMemory` over in-memory tables. */
  class EpisodicMemory {
    var notes: seq<NoteRow>
    var summaries: map<string, SummaryRow>
    var turns: seq<TurnRow>

    ghost predicate Valid()
      reads this
    {
      NotesNumbered(notes) && IndicesIncrease(turns) && forall k :: 0 <= k < |turns| ==> turns[k].turnIndex >= 0
    }

    /** A fresh database: all three tables empty. */
    constructor ()
      ensures Valid()
      ensures notes == [] && summaries == map[] && turns == []
    {
      notes := [];
      summaries := map[];
      turns := [];
    }

    /** `add_note`: always appends (no deduplication); an empty or absent metadata dict is
        stored as NULL. */
    method AddNote(userId: string, bullet: string, metadata: Option<map<string, string>>)
      requires Valid()
      modifies this
      ensures Valid()
      ensures notes == old(notes) + [NoteRow(|old(notes)| + 1, userId, bullet,
                                             if metadata.Some? && |metadata.value| > 0 then metadata else None)]
      ensures summaries == old(summaries) && turns == old(turns)
    {
      var stored := if metadata.Some? && |metadata.value| > 0 then metadata else None;
      notes := notes + [NoteRow(|notes| + 1, userId, bullet, stored)];
    }

    /** `get_user_notes`: at most `limit` of the user's notes, newest first. */
    method GetUserNotes(userId: string, limit: int) returns (r: seq<NoteView>)
      requires Valid()
      ensures r == Views(Limit(UserRows(notes, userId), limit))
      ensures limit >= 0 ==> |r| <= limit
    {
      var rows: seq<NoteRow> := [];
      var i := |notes|;
      assert notes[..i] == notes;
      assert rows + UserRows(notes[..i], userId) == UserRows(notes, userId);
      while i > 0 && (limit < 0 || |rows| < limit)
        invariant 0 <= i <= |notes|
        invariant UserRows(notes, userId) == rows + UserRows(notes[..i], userId)
        invariant limit >= 0 ==> |rows| <= limit
        decreases i
      {
        UserRowsStep(notes, userId, i);
        var step := if notes[i - 1].userId == userId then [notes[i - 1]] else [];
        ConcatAssoc(rows, step, UserRows(notes[..i - 1], userId));
        rows := rows + step;
        i := i - 1;
      }
      LimitOfPrefix(rows, UserRows(notes[..i], userId), limit, i);
      r := Views(rows);
    }

    /** `update_summary`: `INSERT OR REPLACE` keyed by session. */
    method UpdateSummary(sessionId: string, userId: string, summary: string, conversationTurns: int)
      requires Valid()
      modifies this
      ensures Valid()
      ensures summaries == old(summaries)[sessionId := SummaryRow(userId, summary, conversationTurns)]
      ensures notes == old(notes) && turns == old(turns)
    {
      summaries := summaries[sessionId := SummaryRow(userId, summary, conversationTurns)];
    }

    /** `get_summary`: the last summary written for the session, or `None`. */
    function GetSummary(sessionId: string): (r: Option<SummaryRow>)
      reads this
      ensures r == Lookup(summaries, sessionId)
      ensures r.Some? <==> sessionId in summaries
    {
      if sessionId in summaries then Some(summaries[sessionId]) else None
    }

    /** `append_turn`: the session's first turn gets index 0, later ones the largest existing
        index plus one. */
    method AppendTurn(sessionId: string, userId: string, userMessage: string, assistantResponse: string)
      requires Valid()
      modifies this
      ensures Valid()
      ensures turns == old(turns) + [TurnRow(sessionId, userId, NextIndex(old(turns), sessionId), userMessage, assistantResponse)]
      ensures SessionRows(turns, sessionId) == SessionRows(old(turns), sessionId) + [turns[|turns| - 1]]
      ensures forall s :: s != sessionId ==> SessionRows(turns, s) == SessionRows(old(turns), s)
      ensures notes == old(notes) && summaries == old(summaries)
    {
      var next := NextTurnIndex(sessionId);
      var row := TurnRow(sessionId, userId, next, userMessage, assistantResponse);
      AppendKeepsIncreasing(turns, row);
      turns := turns + [row];
    }

    /** `SELECT COALESCE(MAX(turn_index), -1) + 1` for the session. */
    method NextTurnIndex(sessionId: string) returns (next: int)
      ensures next == NextIndex(turns, sessionId)
      ensures next >= 0
    {
      var lastIndex := -1;
      for k := 0 to |turns|
        invariant lastIndex + 1 == NextIndex(turns[..k], sessionId)
      {
        assert turns[..k + 1][..k] == turns[..k];
        if turns[k].sessionId == sessionId && turns[k].turnIndex > lastIndex {
          lastIndex := turns[k].turnIndex;
        }
      }
      assert turns[..|turns|] == turns;
      next := lastIndex + 1;
    }

    /** `get_conversation_history`: the session's turns in ascending index order; with a limit
        `L >= 0`, only the `min(L, count)` highest-indexed ones. */
    method GetConversationHistory(sessionId: string, limit: Option<int>) returns (r: seq<Turn>)
      requires Valid()
      ensures limit.None? || limit.value < 0 ==> r == TurnsOf(SessionRows(turns, sessionId))
      ensures limit.Some? && limit.value >= 0 ==> r == TurnsOf(LastN(SessionRows(turns, sessionId), limit.value))
      ensures limit.Some? && limit.value >= 0 ==> |r| <= limit.value
    {
      var rows: seq<TurnRow> := [];
      for k := 0 to |turns|
        invariant rows == SessionRows(turns[..k], sessionId)
      {
        assert turns[..k + 1][..k] == turns[..k];
        if turns[k].sessionId == sessionId {
          rows := rows + [turns[k]];
        }
      }
      assert turns[..|turns|] == turns;
      if limit.Some? && limit.value >= 0 {
        rows := LastN(rows, limit.value);
      }
      r := TurnsOf(rows);
    }
  }

  lemma UserRowsStep(notes: seq<NoteRow>, user: string, i: nat)
    requires 0 < i <= |notes|
    ensures UserRows(notes[..i], user) == (if notes[i - 1].userId == user then [notes[i - 1]] else []) + UserRows(notes[..i - 1], user)
  {
    assert notes[..i][..i - 1] == notes[..i - 1];
  }

  /** Each of a user's notes is the note its id numbers. */
  lemma {:induction false} UserRowsNumbered(notes: seq<NoteRow>, user: string)
    requires NotesNumbered(notes)
    ensures forall n :: n in UserRows(notes, user) ==> 1 <= n.id <= |notes| && notes[n.id - 1] == n
    decreases |notes|
  {
    if notes != [] {
      var init := notes[..|notes| - 1];
      assert NotesNumbered(init);
      UserRowsNumbered(init, user);
    }
  }

  /** What `get_user_notes` selects: at most `limit` notes of the user, each the stored note
      its id numbers, newest first. */
  lemma UserNotes(notes: seq<NoteRow>, user: string, limit: int)
    requires NotesNumbered(notes)
    ensures var rows := Limit(UserRows(notes, user), limit);
            && (limit >= 0 ==> |rows| <= limit)
            && (forall k :: 0 <= k < |rows| ==> rows[k].userId == user && 1 <= rows[k].id <= |notes| && notes[rows[k].id - 1] == rows[k])
            && (forall a, b :: 0 <= a < b < |rows| ==> rows[a].id > rows[b].id)
  {
    var all := UserRows(notes, user);
    var rows := Limit(all, limit);
    assert rows == all[..|rows|];
    UserRowsNewestFirst(notes, user);
    UserRowsNumbered(notes, user);
    forall k | 0 <= k < |rows|
      ensures rows[k].userId == user && 1 <= rows[k].id <= |notes| && notes[rows[k].id - 1] == rows[k]
    {
      assert rows[k] == all[k];
      assert all[k] in all;
    }
    forall a, b | 0 <= a < b < |rows|
      ensures rows[a].id > rows[b].id
    {
      assert rows[a] == all[a] && rows[b] == all[b];
    }
  }

  lemma ConcatAssoc<T>(a: seq<T>, b: seq<T>, c: seq<T>)
    ensures a + (b + c) == (a + b) + c
  {
  }

  lemma LimitOfPrefix(rows: seq<NoteRow>, rest: seq<NoteRow>, limit: int, i: nat)
    requires limit >= 0 ==> |rows| <= limit
    requires i == 0 || (limit >= 0 && |rows| == limit)
    requires i == 0 ==> rest == []
    ensures Limit(rows + rest, limit) == rows
  {
    assert (rows + rest)[..|rows|] == rows;
    if i == 0 {
      assert rows + rest == rows;
    }
  }
}
