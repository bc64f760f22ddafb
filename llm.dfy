/** The language model every agent consults, as an oracle from prompts to replies.  A prompt
    is recorded by the inputs the agent interpolates into its fixed template; the wording of
    the templates is not part of the model. */
module Llm {
  import opened Json
  import opened Models

  datatype Prompt =
    /** Producer, notes branch: the formatted note block and the retrieval query. */
    | DraftFromNotes(notesBlock: string, query: string)
    /** Producer, history branch: the formatted history block and the user message. */
    | DraftFromHistory(historyBlock: string, userMessage: string)
    /** Contextor: style-rule excerpt, the first taboos, the message, its intent and the
        mean retrieval confidence. */
    | StylePack(styleRules: string, taboos: seq<string>, userMessage: string, intent: string, confidence: real)
    /** Style refiner: the neutral draft, the pack and the user message. */
    | Refine(draft: string, pack: StylePolicyPack, userMessage: string)
    /** Judge: the response, the user message, the note summary and the pack's tone,
        formality and first taboos. */
    | JudgeResponse(response: string, userMessage: string, notesSummary: string,
                    tone: string, formality: int, taboos: seq<string>)
    /** Judge's edit application: the response, the numbered edits, the user message. */
    | ApplyEdits(original: string, editsBlock: string, userMessage: string)
    /** Summarizer: a first summary of the rendered turns. */
    | Summary(turns: string)
    /** Summarizer: an update of the previous summary with the rendered turns. */
    | SummaryUpdate(previous: string, turns: string)
    /** Transcript ingestion: facts from one chunk, with its index and the source path. */
    | ExtractFacts(excerpt: string, chunkIndex: nat, source: string)
    /** Transcript ingestion: one example pair from one chunk, in the persona's style. */
    | ExampleFromExcerpt(excerpt: string, style: SpeakingStyle)
    /** Evaluation harness: the prompt, the response, and the gold reference if any. */
    | Evaluate(userPrompt: string, response: string, gold: Option<string>)

  /** The model's reply to a prompt. */
  type Generate = Prompt -> string
}
