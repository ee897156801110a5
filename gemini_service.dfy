/** The two calls to the language-model backend (services/geminiService.ts).
    The backend is not modelled: each call's outcome is a parameter, `Err` when
    the awaited call rejects, otherwise the reply's `text`, which may be undefined. */
module GeminiService {
  import opened Wrappers
  import opened JsStrings
  import opened Types

  /** The analysis prompt keeps only this many characters of the corpus. */
  const MaxAnalysisChars: nat := 50000

  /** The fixed instruction that precedes the notes in the analysis prompt. */
  const AnalysisInstruction: string :=
    "Analyze the following study notes. Extract key topics with a relevance score (0-100) based on their frequency and importance in the text. Also provide a brief 2-sentence summary of the entire content.\n      \n      NOTES:\n      "

  /** What an empty corpus analyses to, without any backend call. */
  const EmptyAnalysis: AnalysisResult := AnalysisResult(Some([]), Some(""))

  /** The degraded result that stands in for every analysis failure. */
  const DegradedAnalysis: AnalysisResult :=
    AnalysisResult(Some([Topic("Error Analyzing", 0, "Could not process text")]), Some("Error generating analysis."))

  /** The JSON parsed when the reply carries no text. */
  const EmptyJsonObject: string := "{}"

  /** The prompt of the analysis request: the instruction followed by the first
      `MaxAnalysisChars` characters of the corpus. */
  function AnalysisPrompt(text: string): (prompt: string)
    ensures |prompt| <= |AnalysisInstruction| + MaxAnalysisChars
    ensures AnalysisInstruction <= prompt
    ensures |text| <= MaxAnalysisChars ==> prompt == AnalysisInstruction + text
    ensures |text| > MaxAnalysisChars ==> prompt == AnalysisInstruction + text[..MaxAnalysisChars]
  {
    AnalysisInstruction + PrefixUpTo(text, MaxAnalysisChars)
  }

  /** Whatever follows the first `MaxAnalysisChars` characters never reaches the backend. */
  lemma AnalysisPromptIgnoresTail(text: string, tail: string)
    requires |text| >= MaxAnalysisChars
    ensures AnalysisPrompt(text + tail) == AnalysisPrompt(text)
  {
    assert (text + tail)[..MaxAnalysisChars] == text[..MaxAnalysisChars];
  }

  /** The analysis request, or `None` when no backend call is made. */
  function AnalysisRequest(text: string): (request: Option<string>)
    ensures request.None? <==> text == ""
    ensures request.Some? ==> request.value == AnalysisPrompt(text)
  {
    if text == "" then None else Some(AnalysisPrompt(text))
  }

  /** `response.text || '{}'`: an undefined or empty reply text becomes an empty object. */
  function JsonText(text: Option<string>): (json: string)
    ensures json != ""
    ensures text.Some? && text.value != "" ==> json == text.value
    ensures text.None? || text.value == "" ==> json == EmptyJsonObject
  {
    if text.Some? && text.value != "" then text.value else EmptyJsonObject
  }

  /** What `JSON.parse` is known to do with an empty object: neither field is present. */
  predicate ParsesEmptyObject(parse: string -> Option<AnalysisResult>) {
    parse(EmptyJsonObject) == Some(AnalysisResult(None, None))
  }

  /** `analyzeStudyMaterial(text)`. `reply` is the outcome of the backend call made
      with `AnalysisRequest(text)`; `parse` is `JSON.parse` followed by the unchecked
      cast, `None` when it throws. Every path returns a result: nothing is thrown. */
  function AnalyzeStudyMaterial(text: string, reply: Outcome<Option<string>>,
                                parse: string -> Option<AnalysisResult>): (r: AnalysisResult)
    ensures text == "" ==> r == EmptyAnalysis
    ensures text != "" && reply.Err? ==> r == DegradedAnalysis
    ensures text != "" && reply.Ok? && parse(JsonText(reply.value)).None? ==> r == DegradedAnalysis
    ensures text != "" && reply.Ok? && parse(JsonText(reply.value)).Some? ==> r == parse(JsonText(reply.value)).value
  {
    if text == "" then EmptyAnalysis
    else match reply
      case Err(_) => DegradedAnalysis
      case Ok(replyText) =>
        match parse(JsonText(replyText))
        case None => DegradedAnalysis
        case Some(parsed) => parsed
  }

  /** An empty corpus is answered without the backend: the result is the same
      whatever the backend would have replied. */
  lemma EmptyCorpusMakesNoCall(reply1: Outcome<Option<string>>, reply2: Outcome<Option<string>>,
                               parse1: string -> Option<AnalysisResult>, parse2: string -> Option<AnalysisResult>)
    ensures AnalyzeStudyMaterial("", reply1, parse1) == AnalyzeStudyMaterial("", reply2, parse2) == EmptyAnalysis
    ensures AnalysisRequest("").None?
  {
  }

  /** A reply without text parses as `{}`: the result has neither topics nor summary. */
  lemma EmptyReplyHasNoFields(text: string, replyText: Option<string>, parse: string -> Option<AnalysisResult>)
    requires text != ""
    requires replyText.None? || replyText == Some("")
    requires ParsesEmptyObject(parse)
    ensures AnalyzeStudyMaterial(text, Ok(replyText), parse) == AnalysisResult(None, None)
  {
  }

  /** The degraded result cannot be told apart from a backend reply that parses to
      the same value: the caller cannot distinguish failure from success. */
  lemma DegradedResultIsAmbiguous(text: string, replyText: string, parse: string -> Option<AnalysisResult>)
    requires text != "" && replyText != ""
    requires parse(replyText) == Some(DegradedAnalysis)
    ensures AnalyzeStudyMaterial(text, Ok(Some(replyText)), parse)
         == AnalyzeStudyMaterial(text, Err("network"), parse)
  {
  }

  /** The system instruction of the answer session, before and after the context. */
  const InstructionHead: string :=
    "You are a Smart Study Assistant. \n    Your goal is to help the student learn based STRICTLY on the provided study materials.\n    \n    RULES:\n    1. Answer the question using ONLY the information in the Context provided below.\n    2. If the answer is not in the context, say \"I cannot find the answer in your study notes.\"\n    3. Be educational, encouraging, and clear.\n    4. Use Markdown for formatting (lists, bold terms).\n    \n    CONTEXT:\n    "
  const InstructionTail: string := "\n    "

  /** The literal an empty answer is replaced by. */
  const NoResponseText: string := "No response generated."

  /** The system instruction: the grounding rules followed by the whole context. */
  function SystemInstruction(context: string): (instruction: string)
    ensures |instruction| == |InstructionHead| + |context| + |InstructionTail|
    ensures InstructionHead <= instruction
    ensures instruction[|InstructionHead|..|InstructionHead| + |context|] == context
    ensures instruction[|InstructionHead| + |context|..] == InstructionTail
  {
    InstructionHead + context + InstructionTail
  }

  /** The context embedded in a system instruction. */
  function ContextOf(instruction: string): string
    requires |InstructionHead| + |InstructionTail| <= |instruction|
  {
    instruction[|InstructionHead|..|instruction| - |InstructionTail|]
  }

  /** The context is embedded untruncated: it can be read back from the instruction. */
  lemma ContextRoundTrip(context: string)
    ensures ContextOf(SystemInstruction(context)) == context
  {
  }

  /** Distinct contexts give distinct instructions, however long they are. */
  lemma SystemInstructionInjective(c1: string, c2: string)
    requires SystemInstruction(c1) == SystemInstruction(c2)
    ensures c1 == c2
  {
    ContextRoundTrip(c1);
    ContextRoundTrip(c2);
  }

  /** A chat request: the session's system instruction and the one message sent. */
  datatype ChatRequest = ChatRequest(systemInstruction: string, message: string)

  /** The request `generateRAGResponse` makes. The history is accepted but unused:
      only the question is sent. */
  function AnswerRequest(question: string, context: string, history: seq<Message>): (request: ChatRequest)
    ensures request.message == question
    ensures |InstructionHead| + |InstructionTail| <= |request.systemInstruction|
    ensures ContextOf(request.systemInstruction) == context
  {
    ContextRoundTrip(context);
    ChatRequest(SystemInstruction(context), question)
  }

  /** The history argument has no effect on the request. */
  lemma AnswerRequestIgnoresHistory(question: string, context: string, h1: seq<Message>, h2: seq<Message>)
    ensures AnswerRequest(question, context, h1) == AnswerRequest(question, context, h2)
  {
  }

  /** `generateRAGResponse(question, context, history)`, given the outcome of the
      backend call made with `AnswerRequest(question, context, history)`: a
      rejection is re-thrown unchanged, otherwise the reply text, never empty. */
  function GenerateRagResponse(question: string, context: string, history: seq<Message>,
                               reply: Outcome<Option<string>>): (r: Outcome<string>)
    ensures reply.Err? <==> r.Err?
    ensures reply.Err? ==> r.error == reply.error
    ensures r.Ok? ==> r.value != ""
    ensures reply.Ok? && reply.value.Some? && reply.value.value != "" ==> r == Ok(reply.value.value)
    ensures reply.Ok? && (reply.value.None? || reply.value.value == "") ==> r == Ok(NoResponseText)
  {
    match reply
    case Err(e) => Err(e)
    case Ok(text) => if text.Some? && text.value != "" then Ok(text.value) else Ok(NoResponseText)
  }
}
