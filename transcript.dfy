/** Transcript ingestion: the transcript is cut into overlapping word windows, the model
    extracts facts from each window (which are then given their source and, when missing, an
    id), and a few dialogue-like windows are turned into few-shot examples. */
module Transcript {
  import opened PyText
  import opened Json
  import opened Models
  import opened Config
  import opened Llm

  /** A window of the transcript: its text and its word range `[startWord, endWord)`. */
  datatype Chunk = Chunk(text: string, startWord: nat, endWord: nat, wordCount: nat)

  /** How far each window starts after the previous one. */
  const Stride: nat := CHUNK_SIZE_WORDS - CHUNK_OVERLAP_WORDS

  function Min(a: nat, b: nat): nat {
    if a < b then a else b
  }

  /** The window starting at word `start`. */
  function ChunkAt(words: seq<string>, start: nat): (c: Chunk)
    requires start < |words|
    ensures c.startWord == start && c.endWord == Min(start + CHUNK_SIZE_WORDS, |words|)
    ensures c.wordCount == c.endWord - c.startWord
    ensures c.text == Join(" ", words[start..c.endWord])
  {
    var end := Min(start + CHUNK_SIZE_WORDS, |words|);
    Chunk(Join(" ", words[start..end]), start, end, end - start)
  }

  /** The number of windows over `n` words: `ceil(n / Stride)`. */
  function ChunkCount(n: nat): nat {
    (n + Stride - 1) / Stride
  }

  /** `chunks` are the windows over `words`, one every `Stride` words. */
  predicate WindowsOf(words: seq<string>, chunks: seq<Chunk>) {
    forall j :: 0 <= j < |chunks| ==> Stride * j < |words| && chunks[j] == ChunkAt(words, Stride * j)
  }

  /** `_chunk_transcript`. */
  method ChunkTranscript(text: string) returns (chunks: seq<Chunk>)
    ensures Split(text) == [] ==> chunks == []
    ensures |chunks| == ChunkCount(|Split(text)|)
    ensures WindowsOf(Split(text), chunks)
  {
    var words := Split(text);
    chunks := [];
    var i := 0;
    while i < |words|
      invariant i == Stride * |chunks|
      invariant WindowsOf(words, chunks)
      invariant |chunks| > 0 ==> Stride * (|chunks| - 1) < |words|
      decreases |words| - i
    {
      var end := Min(i + CHUNK_SIZE_WORDS, |words|);
      var chunkWords := words[i..end];
      var chunk := Chunk(Join(" ", chunkWords), i, end, |chunkWords|);
      assert chunk == ChunkAt(words, i);
      WindowsExtend(words, chunks, chunk);
      chunks := chunks + [chunk];
      i := i + Stride;
    }
    if |words| > 0 {
      CountFromBounds(|words|, |chunks|);
    }
  }

  lemma WindowsExtend(words: seq<string>, chunks: seq<Chunk>, chunk: Chunk)
    requires WindowsOf(words, chunks)
    requires Stride * |chunks| < |words| && chunk == ChunkAt(words, Stride * |chunks|)
    ensures WindowsOf(words, chunks + [chunk])
  {
    forall j | 0 <= j < |chunks| + 1
      ensures Stride * j < |words| && (chunks + [chunk])[j] == ChunkAt(words, Stride * j)
    {
      if j < |chunks| {
        assert (chunks + [chunk])[j] == chunks[j];
      }
    }
  }

  lemma CountFromBounds(n: nat, c: nat)
    requires n > 0 && Stride * c >= n
    requires c > 0 ==> Stride * (c - 1) < n
    ensures ChunkCount(n) == c
  {
    assert Stride == 125;
    assert (n + 124) / 125 == c;
  }

  /** The windows cover the transcript: the first starts at word 0 and the last ends at the
      final word. */
  lemma ChunksCover(words: seq<string>)
    requires |words| > 0
    ensures ChunkCount(|words|) > 0
    ensures ChunkAt(words, 0).startWord == 0
    ensures Stride * (ChunkCount(|words|) - 1) < |words|
    ensures ChunkAt(words, Stride * (ChunkCount(|words|) - 1)).endWord == |words|
  {
    assert Stride == 125;
    var c := ChunkCount(|words|);
    assert c >= 1;
    assert 125 * (c - 1) < |words| <= 125 * c;
  }

  /** A full window shares its last 25 words with the next one. */
  lemma ChunksOverlap(words: seq<string>, j: nat)
    requires Stride * (j + 1) < |words|
    requires ChunkAt(words, Stride * j).wordCount == CHUNK_SIZE_WORDS
    ensures ChunkAt(words, Stride * j).endWord - ChunkAt(words, Stride * (j + 1)).startWord == CHUNK_OVERLAP_WORDS
  {
  }

  /** Each window holds at most 150 words, and its text splits back into exactly the words
      of its range. */
  lemma ChunkText(words: seq<string>, start: nat)
    requires start < |words|
    requires forall w :: w in words ==> IsWord(w)
    ensures 0 < ChunkAt(words, start).wordCount <= CHUNK_SIZE_WORDS
    ensures Split(ChunkAt(words, start).text) == words[start..ChunkAt(words, start).endWord]
  {
    var c := ChunkAt(words, start);
    forall i | 0 <= i < c.endWord - start ensures IsWord(words[start..c.endWord][i]) {
      assert words[start..c.endWord][i] == words[start + i];
    }
    SplitJoin(words[start..c.endWord]);
  }

  /** The exceptions `_extract_facts` and `_generate_examples` catch. */
  const Handled: set<PyError> := {JSONDecodeError, KeyError, ValueError}

  /** `f"{source}.chunk{i}"`. */
  function ChunkSource(source: string, i: nat): string {
    source + ".chunk" + NatToString(i)
  }

  /** `f"D{i}-{j+1}"`. */
  function FactId(i: nat, j: nat): string {
    "D" + NatToString(i) + "-" + NatToString(j + 1)
  }

  /** The fact's fields after the source is overwritten and a missing id filled in. */
  function Annotate(m: map<string, Json>, source: string, i: nat, j: nat): (r: map<string, Json>)
    ensures "source" in r && "id" in r
    ensures r["source"] == JStr(ChunkSource(source, i))
    ensures "id" in m ==> r["id"] == m["id"]
    ensures "id" !in m ==> r["id"] == JStr(FactId(i, j))
  {
    var withSource := m["source" := JStr(ChunkSource(source, i))];
    if "id" !in withSource then withSource["id" := JStr(FactId(i, j))] else withSource
  }

  /** Item `k` of the list is an object whose annotated fields validate to `f`. */
  predicate FactAt(items: seq<Json>, source: string, i: nat, k: nat, f: CanonicalFact) {
    k < |items| && items[k].JObj? && FactFromFields(Annotate(items[k].fields, source, i, k)) == Ok(f)
  }

  /** Item `k` of the list is an object whose annotated fields fail validation. */
  predicate InvalidAt(items: seq<Json>, source: string, i: nat, k: nat) {
    k < |items| && items[k].JObj? && FactFromFields(Annotate(items[k].fields, source, i, k)).Err?
  }

  /** The facts of a decoded list from item `j` on: each item must be an object (anything
      else raises `TypeError`, which is not caught); the first item that fails validation
      ends the chunk, keeping the facts already built. */
  function FactItems(items: seq<Json>, source: string, i: nat, j: nat): (r: Result<seq<CanonicalFact>>)
    requires j <= |items|
    ensures r.Ok? ==> j + |r.value| <= |items|
    ensures r.Err? ==> r.error == TypeError
    decreases |items| - j
  {
    if j == |items| then Ok([])
    else if !items[j].JObj? then Err(TypeError)
    else match FactFromFields(Annotate(items[j].fields, source, i, j))
      case Err(_) => Ok([])
      case Ok(f) =>
        match FactItems(items, source, i, j + 1)
        case Ok(rest) => Ok([f] + rest)
        case Err(e) => Err(e)
  }

  /** `facts` followed by the facts of `r`, or `r`'s error. */
  function Prepend(facts: seq<CanonicalFact>, r: Result<seq<CanonicalFact>>): Result<seq<CanonicalFact>> {
    match r
    case Ok(rest) => Ok(facts + rest)
    case Err(e) => Err(e)
  }

  lemma PrependNothing(r: Result<seq<CanonicalFact>>)
    ensures Prepend([], r) == r
  {
    if r.Ok? {
      assert [] + r.value == r.value;
    }
  }

  lemma FactItemsStep(items: seq<Json>, source: string, i: nat, j: nat, facts: seq<CanonicalFact>, f: CanonicalFact)
    requires j < |items| && FactAt(items, source, i, j, f)
    ensures Prepend(facts, FactItems(items, source, i, j)) == Prepend(facts + [f], FactItems(items, source, i, j + 1))
  {
    match FactItems(items, source, i, j + 1) {
      case Ok(rest) => assert facts + [f] + rest == facts + ([f] + rest);
      case Err(e) =>
    }
  }

  /** The three ways the item loop halts: at the end of the list or an invalid item, keeping
      the facts built so far, or at an item that is not an object, raising. */
  lemma FactItemsHalt(items: seq<Json>, source: string, i: nat, j: nat, facts: seq<CanonicalFact>)
    requires j <= |items|
    ensures j == |items| || InvalidAt(items, source, i, j) ==> Prepend(facts, FactItems(items, source, i, j)) == Ok(facts)
    ensures j < |items| && !items[j].JObj? ==> Prepend(facts, FactItems(items, source, i, j)) == Err(TypeError)
  {
    assert facts + [] == facts;
  }

  /** The facts from item `j` on are exactly the validated prefix of the items. */
  lemma {:induction false} FactItemsAt(items: seq<Json>, source: string, i: nat, j: nat, k: nat)
    requires j <= |items| && FactItems(items, source, i, j).Ok? && k < |FactItems(items, source, i, j).value|
    ensures FactAt(items, source, i, j + k, FactItems(items, source, i, j).value[k])
    decreases k
  {
    if k > 0 {
      FactItemsAt(items, source, i, j + 1, k - 1);
    }
  }

  /** The validated prefix stops only at the end of the list or at an item that fails
      validation (an item that is not an object raises instead). */
  lemma {:induction false} FactItemsStop(items: seq<Json>, source: string, i: nat, j: nat)
    requires j <= |items| && FactItems(items, source, i, j).Ok?
    requires j + |FactItems(items, source, i, j).value| < |items|
    ensures InvalidAt(items, source, i, j + |FactItems(items, source, i, j).value|)
    decreases |items| - j
  {
    if FactFromFields(Annotate(items[j].fields, source, i, j)).Ok? {
      FactItemsStop(items, source, i, j + 1);
    }
  }

  /** Every fact of chunk `i` carries that chunk's source; one without an id is numbered by
      its chunk and its position. */
  lemma FactItemsAnnotated(items: seq<Json>, source: string, i: nat, k: nat)
    requires FactItems(items, source, i, 0).Ok? && k < |FactItems(items, source, i, 0).value|
    ensures var f := FactItems(items, source, i, 0).value[k];
            && items[k].JObj? && f.source == ChunkSource(source, i)
            && ("id" !in items[k].fields ==> f.id == FactId(i, k))
  {
    FactItemsAt(items, source, i, 0, k);
  }

  /** The facts one chunk contributes, given what its reply decoded to. */
  function ChunkFacts(data: Result<Json>, source: string, i: nat): (r: Result<seq<CanonicalFact>>)
    ensures r.Err? ==> r.error == TypeError || (data.Err? && r.error == data.error)
  {
    match data
    case Err(e) => if CaughtBy(e, Handled) then Ok([]) else Err(e)
    case Ok(v) => if v.JArr? then FactItems(v.items, source, i, 0) else Ok([])
  }

  /** A reply that does not decode, or decodes to something other than a list, adds no facts. */
  lemma UnusableReplyNoFacts(data: Result<Json>, source: string, i: nat)
    requires (data.Err? && data.error in Handled) || (data.Ok? && !data.value.JArr?)
    ensures ChunkFacts(data, source, i) == Ok([])
  {
  }

  lemma ChunkFactsSource(data: Result<Json>, source: string, i: nat, k: nat)
    requires ChunkFacts(data, source, i).Ok? && k < |ChunkFacts(data, source, i).value|
    ensures ChunkFacts(data, source, i).value[k].source == ChunkSource(source, i)
  {
    FactItemsAnnotated(data.value.items, source, i, k);
  }

  /** What each chunk's reply decodes to: one model call per chunk, with its index. */
  function Decoded(chunks: seq<Chunk>, source: string, generate: Generate, loads: Loads): (r: seq<Result<Json>>)
    ensures |r| == |chunks|
    ensures forall i :: 0 <= i < |chunks| ==> r[i] == loads(StripFence(generate(ExtractFacts(chunks[i].text, i, source))))
  {
    seq(|chunks|, i requires 0 <= i < |chunks| => loads(StripFence(generate(ExtractFacts(chunks[i].text, i, source)))))
  }

  /** `_extract_facts` over the decoded replies of the chunks, in chunk order. */
  function FactsFrom(decoded: seq<Result<Json>>, source: string): Result<seq<CanonicalFact>>
    decreases |decoded|
  {
    if decoded == [] then Ok([])
    else
      var i := |decoded| - 1;
      match FactsFrom(decoded[..i], source)
      case Err(e) => Err(e)
      case Ok(facts) =>
        match ChunkFacts(decoded[i], source, i)
        case Err(e) => Err(e)
        case Ok(more) => Ok(facts + more)
  }

  /** Every extracted fact carries the source of the chunk it came from. */
  lemma {:induction false} FactsFromSources(decoded: seq<Result<Json>>, source: string, k: nat)
    requires FactsFrom(decoded, source).Ok? && k < |FactsFrom(decoded, source).value|
    ensures exists i :: 0 <= i < |decoded| && FactsFrom(decoded, source).value[k].source == ChunkSource(source, i)
    decreases |decoded|
  {
    var i := |decoded| - 1;
    var facts := FactsFrom(decoded[..i], source).value;
    var more := ChunkFacts(decoded[i], source, i).value;
    if k < |facts| {
      FactsFromSources(decoded[..i], source, k);
    } else {
      ChunkFactsSource(decoded[i], source, i, k - |facts|);
      assert FactsFrom(decoded, source).value[k] == more[k - |facts|];
    }
  }

  lemma FactsFromStep(decoded: seq<Result<Json>>, source: string, i: nat)
    requires i < |decoded| && FactsFrom(decoded[..i], source).Ok?
    ensures FactsFrom(decoded[..i + 1], source) ==
              match ChunkFacts(decoded[i], source, i)
              case Err(e) => Err(e)
              case Ok(more) => Ok(FactsFrom(decoded[..i], source).value + more)
  {
    assert decoded[..i + 1][..i] == decoded[..i];
  }

  /** Once a chunk raises, the whole extraction raises the same error. */
  lemma {:induction false} FactsFromSticky(decoded: seq<Result<Json>>, n: nat, source: string)
    requires n <= |decoded| && FactsFrom(decoded[..n], source).Err?
    ensures FactsFrom(decoded, source) == FactsFrom(decoded[..n], source)
    decreases |decoded| - n
  {
    if n < |decoded| {
      assert decoded[..n + 1][..n] == decoded[..n];
      FactsFromSticky(decoded, n + 1, source);
    } else {
      assert decoded[..n] == decoded;
    }
  }

  /** The facts chunk `i`'s decoded reply adds, built item by item. */
  method ChunkFactsOf(data: Result<Json>, source: string, i: nat) returns (r: Result<seq<CanonicalFact>>)
    ensures r == ChunkFacts(data, source, i)
  {
    if data.Err? {
      if CaughtBy(data.error, Handled) {
        return Ok([]);
      }
      return Err(data.error);
    }
    if !data.value.JArr? {
      return Ok([]);
    }
    var items := data.value.items;
    var facts: seq<CanonicalFact> := [];
    var j := 0;
    PrependNothing(FactItems(items, source, i, 0));
    while j < |items|
      invariant 0 <= j <= |items|
      invariant FactItems(items, source, i, 0) == Prepend(facts, FactItems(items, source, i, j))
      decreases |items| - j
    {
      if !items[j].JObj? {
        FactItemsHalt(items, source, i, j, facts);
        return Err(TypeError);
      }
      var fact := FactFromFields(Annotate(items[j].fields, source, i, j));
      if fact.Err? {
        FactItemsHalt(items, source, i, j, facts);
        return Ok(facts);
      }
      FactItemsStep(items, source, i, j, facts, fact.value);
      facts := facts + [fact.value];
      j := j + 1;
    }
    FactItemsHalt(items, source, i, j, facts);
    r := Ok(facts);
  }

  /** `_extract_facts`: one model call per chunk; the facts of all chunks in chunk order; a
      `TypeError` from an item that is not an object escapes. */
  method ExtractFactsOf(chunks: seq<Chunk>, source: string, generate: Generate, loads: Loads)
    returns (r: Result<seq<CanonicalFact>>)
    ensures r == FactsFrom(Decoded(chunks, source, generate, loads), source)
  {
    ghost var decoded := Decoded(chunks, source, generate, loads);
    var facts: seq<CanonicalFact> := [];
    for i := 0 to |chunks|
      invariant FactsFrom(decoded[..i], source) == Ok(facts)
    {
      FactsFromStep(decoded, source, i);
      var reply := generate(ExtractFacts(chunks[i].text, i, source));
      var data := loads(StripFence(reply));
      assert data == decoded[i];
      var more := ChunkFactsOf(data, source, i);
      if more.Err? {
        FactsFromSticky(decoded, i + 1, source);
        return Err(more.error);
      }
      facts := facts + more.value;
    }
    assert decoded[..|chunks|] == decoded;
    r := Ok(facts);
  }

  /** A window that is worth an example: it holds a question mark or more than 30 words. */
  predicate DialogueLike(text: string) {
    Contains(text, "?") || |Split(text)| > 30
  }

  /** The example one reply yields: `None` when it is skipped. */
  function ExampleFromReply(reply: string, loads: Loads): (r: Result<Option<Example>>)
    ensures r.Err? ==> r.error == TypeError || (loads(StripFence(reply)).Err? && r == Err(loads(StripFence(reply)).error))
  {
    match loads(StripFence(reply))
    case Err(e) => if CaughtBy(e, Handled) then Ok(None) else Err(e)
    case Ok(v) =>
      match ExampleFromValue(v)
      case Ok(x) => Ok(Some(x))
      case Err(e) => if CaughtBy(e, Handled) then Ok(None) else Err(e)
  }

  /** The examples of the dialogue-like chunks among `chunks`, in order. */
  function ExamplesFrom(chunks: seq<Chunk>, style: SpeakingStyle, generate: Generate, loads: Loads): Result<seq<Example>>
    decreases |chunks|
  {
    if chunks == [] then Ok([])
    else
      var last := chunks[|chunks| - 1];
      match ExamplesFrom(chunks[..|chunks| - 1], style, generate, loads)
      case Err(e) => Err(e)
      case Ok(xs) =>
        if !DialogueLike(last.text) then Ok(xs)
        else match ExampleFromReply(generate(ExampleFromExcerpt(last.text, style)), loads)
          case Err(e) => Err(e)
          case Ok(None) => Ok(xs)
          case Ok(Some(x)) => Ok(xs + [x])
  }

  /** The prompts sent for the dialogue-like chunks among `chunks`, in order. */
  function ExamplePrompts(chunks: seq<Chunk>, style: SpeakingStyle): (r: seq<Prompt>)
    ensures |r| <= |chunks|
    ensures forall p :: p in r ==> p.ExampleFromExcerpt? && p.style == style
    decreases |chunks|
  {
    if chunks == [] then []
    else
      var last := chunks[|chunks| - 1];
      var rest := ExamplePrompts(chunks[..|chunks| - 1], style);
      if DialogueLike(last.text) then rest + [ExampleFromExcerpt(last.text, style)] else rest
  }

  lemma {:induction false} ExamplesFromSticky(chunks: seq<Chunk>, n: nat, style: SpeakingStyle, generate: Generate, loads: Loads)
    requires n <= |chunks| && ExamplesFrom(chunks[..n], style, generate, loads).Err?
    ensures ExamplesFrom(chunks, style, generate, loads) == ExamplesFrom(chunks[..n], style, generate, loads)
    decreases |chunks| - n
  {
    if n < |chunks| {
      assert chunks[..n + 1][..n] == chunks[..n];
      ExamplesFromSticky(chunks, n + 1, style, generate, loads);
    } else {
      assert chunks[..n] == chunks;
    }
  }

  /** The loop of `_generate_examples` over the sampled chunks. */
  method ExamplesOf(sample: seq<Chunk>, style: SpeakingStyle, generate: Generate, loads: Loads)
    returns (r: Result<seq<Example>>, prompts: seq<Prompt>)
    ensures r == ExamplesFrom(sample, style, generate, loads)
    ensures |prompts| <= |sample|
    ensures r.Ok? ==> prompts == ExamplePrompts(sample, style)
  {
    var examples: seq<Example> := [];
    prompts := [];
    for i := 0 to |sample|
      invariant ExamplesFrom(sample[..i], style, generate, loads) == Ok(examples)
      invariant prompts == ExamplePrompts(sample[..i], style)
    {
      assert sample[..i + 1][..i] == sample[..i];
      var text := sample[i].text;
      if DialogueLike(text) {
        var prompt := ExampleFromExcerpt(text, style);
        prompts := prompts + [prompt];
        var example := ExampleFromReply(generate(prompt), loads);
        if example.Err? {
          ExamplesFromSticky(sample, i + 1, style, generate, loads);
          ExamplePromptsBound(sample[..i + 1], style);
          return Err(example.error), prompts;
        }
        if example.value.Some? {
          examples := examples + [example.value.value];
        }
      }
    }
    assert sample[..|sample|] == sample;
    r := Ok(examples);
  }

  /** `_generate_examples`: only the first ten chunks are looked at, a model call is made for
      each dialogue-like one, and at most five examples are kept. */
  method GenerateExamples(chunks: seq<Chunk>, style: SpeakingStyle, generate: Generate, loads: Loads)
    returns (r: Result<seq<Example>>, prompts: seq<Prompt>)
    ensures |prompts| <= 10
    ensures r.Ok? ==> prompts == ExamplePrompts(Take(chunks, 10), style)
    ensures r.Ok? ==> ExamplesFrom(Take(chunks, 10), style, generate, loads).Ok?
                      && r.value == Take(ExamplesFrom(Take(chunks, 10), style, generate, loads).value, 5)
    ensures r.Ok? ==> |r.value| <= 5
    ensures r.Err? ==> r == ExamplesFrom(Take(chunks, 10), style, generate, loads)
  {
    var examples;
    examples, prompts := ExamplesOf(Take(chunks, 10), style, generate, loads);
    r := if examples.Ok? then Ok(Take(examples.value, 5)) else examples;
  }

  lemma ExamplePromptsBound(chunks: seq<Chunk>, style: SpeakingStyle)
    ensures |ExamplePrompts(chunks, style)| <= |chunks|
  {
  }
}
