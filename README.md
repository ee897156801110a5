# Smart study assistant: a Dafny model of its ingestion, analysis and chat logic

The app is a browser study assistant. Users paste notes or upload text files.
Every new material triggers an analysis of the whole corpus by a remote language
model, which returns topics with relevance scores. Users then ask questions that
the model answers from the full corpus, which is embedded in the system
instruction.

This project models the logic around the two backend calls:

- `AppModel` (App.tsx): the state container and its two async handlers. Each
  handler is split at its `await` into a `Begin…` and a `Complete…` method of the
  `App` class. The awaited outcome is passed to `Complete…` as an `Outcome` value.
  `Handle…` methods run both halves around the service functions.
- `GeminiService` (services/geminiService.ts): the prompt and system instruction
  as pure string functions. `analyzeStudyMaterial` and `generateRAGResponse` are
  functions of the backend's reply.
- `Chat` (components/ChatPanel.tsx): the submit guard, the input gate, the
  upload warning and the typing indicator.
- `Ingestion` (components/IngestionPanel.tsx): the paste guard, the file intake,
  the Process button's gate, the icon chosen from a title and the preview.
- `Types` (types.ts), `JsStrings` (the JavaScript `trim`, `endsWith`,
  `substring(0, n)` and `join` the code relies on) and `Wrappers` (`Option`, `Outcome`).

The backend is a parameter of the model. A call's outcome is `Err` when the awaited
promise rejects. Otherwise it is `Ok(text)`, where `text` is `None` when the
reply's `text` is undefined. `JSON.parse` followed by the unchecked cast is a
parameter `parse` too, returning `None` when parsing throws. Its one known
behaviour is required of it: `"{}"` parses to an object with no fields.

The analysis is returned without validation, so `AnalysisResult` holds its fields
as `Option`. A reply without text therefore yields a result with neither `topics`
nor `summary`. `handleMaterialAdd` copies that absent `topics` into the state
unchanged, so `AppState.topics` is an `Option` as well.

The service's doc comment promises JSON schema enforcement
(services/geminiService.ts:13-14), and the request carries a `responseSchema`
(services/geminiService.ts:28-44). The reply, however, is only parsed and cast
(services/geminiService.ts:48-49), never checked. The model follows the code.

Strings here are sequences of Dafny `char`s, which are Unicode scalar values.
JavaScript strings are sequences of UTF-16 code units, so the two agree on every
character of the Basic Multilingual Plane. `trim` strips the ECMAScript
WhiteSpace and LineTerminator characters.

## Model

| member | source | states |
|---|---|---|
| JsStrings.TrimStart | components/ChatPanel.tsx:32 | the part `trim` drops at the front is all whitespace; what remains is a suffix of the input that does not start with whitespace |
| JsStrings.TrimEnd | components/ChatPanel.tsx:32 | the part `trim` drops at the end is all whitespace; what remains is a prefix of the input that does not end with whitespace |
| JsStrings.TrimEmptyIffBlank | components/IngestionPanel.tsx:17 | `!s.trim()` holds exactly when every character of `s` is whitespace, the empty string included |
| JsStrings.EndsWith | components/IngestionPanel.tsx:160 | `endsWith(suffix)` holds exactly when the string is at least as long as `suffix` and its final characters equal those of `suffix`, one by one; `EndsWithIffConcat` characterises it as concatenation |
| JsStrings.EndsWithIffConcat | components/IngestionPanel.tsx:160 | `endsWith(suffix)` holds exactly when the string is some string followed by `suffix` |
| JsStrings.Trim | components/ChatPanel.tsx:32 | `trim` keeps a prefix of what `TrimStart` leaves and drops only whitespace after it; the result is never longer than the input and neither starts nor ends with whitespace |
| JsStrings.PrefixUpTo | services/geminiService.ts:25 | `substring(0, n)` is a prefix of the string, of length `n` or the whole string when shorter |
| JsStrings.Join | App.tsx:47 | `join(sep)` gives "" for no parts, the part itself for one part, and otherwise starts with the first part and the separator; its laws are `JoinSnoc`, `JoinStartsWithFirst` and `JoinEndsWithLast` |
| JsStrings.JoinStartsWithFirst | App.tsx:47 | a non-empty join starts with its first part |
| JsStrings.JoinEndsWithLast | App.tsx:47 | a non-empty join ends with its last part |
| JsStrings.JoinSnoc | App.tsx:47 | joining one more part gives the earlier join, the separator and the new part (just the part when there was none before) |
| GeminiService.AnalysisPrompt | services/geminiService.ts:22-25 | the prompt is the fixed instruction followed by the first min(length, 50000) characters of the corpus; it is never longer than the instruction plus 50000 |
| GeminiService.AnalysisPromptIgnoresTail | services/geminiService.ts:25 | characters past the 50000th never reach the backend: appending text to a long corpus leaves the prompt unchanged |
| GeminiService.AnalysisRequest | services/geminiService.ts:17-25 | a backend request is made exactly when the corpus is non-empty, and it carries `AnalysisPrompt` of the corpus |
| GeminiService.JsonText | services/geminiService.ts:48 | the text parsed is never empty: the reply's text when it has one, `"{}"` when it is undefined or empty |
| GeminiService.AnalyzeStudyMaterial | services/geminiService.ts:16-57 | empty corpus gives `{topics: [], summary: ''}`; a rejected call or a parse failure gives the single "Error Analyzing" topic (relevance 0, "Could not process text") with summary "Error generating analysis."; otherwise the parsed value as is; the result type has no error case, so it never throws |
| GeminiService.EmptyCorpusMakesNoCall | services/geminiService.ts:17 | for an empty corpus no request exists and the result is the same whatever the backend would reply |
| GeminiService.EmptyReplyHasNoFields | services/geminiService.ts:48-49 | a reply with undefined or empty text gives a result with neither topics nor summary |
| GeminiService.DegradedResultIsAmbiguous | services/geminiService.ts:48-55 | a reply that parses to the degraded value is indistinguishable from a failed call |
| GeminiService.SystemInstruction | services/geminiService.ts:73-84 | the instruction is the grounding rules ending in "CONTEXT:", then the whole context verbatim at a fixed offset, then the fixed tail text; its length grows with the context, without truncation |
| GeminiService.ContextRoundTrip | services/geminiService.ts:73-84 | the context can be read back from the instruction unchanged |
| GeminiService.SystemInstructionInjective | services/geminiService.ts:73-84 | two different contexts always give two different instructions |
| GeminiService.AnswerRequest | services/geminiService.ts:64-98 | the message sent is the question; the system instruction embeds exactly the context |
| GeminiService.AnswerRequestIgnoresHistory | services/geminiService.ts:94-98 | the history argument has no effect on what is sent |
| GeminiService.GenerateRagResponse | services/geminiService.ts:64-104 | a rejected call is re-thrown with the same error; otherwise the answer is the reply's text, or "No response generated." when that is undefined or empty, so it is never empty |
| Chat.InputDisabled | components/ChatPanel.tsx:95 | the input is disabled exactly when there is no material and the history has more than the welcome message |
| Chat.SubmitDisabled | components/ChatPanel.tsx:101 | the send button is disabled exactly when the input is blank or the input is disabled |
| Chat.ShowUploadWarning | components/ChatPanel.tsx:107 | the upload warning is shown exactly when the input is disabled |
| Chat.TypingIndicator | components/ChatPanel.tsx:23-27 | the indicator is on exactly when the history is non-empty and its last message is the user's |
| Chat.ChatPanel.constructor | components/ChatPanel.tsx:13-14 | the panel starts with an empty input and no indicator |
| Chat.ChatPanel.OnInputChange | components/ChatPanel.tsx:94 | typing replaces the input and nothing else |
| Chat.ChatPanel.HandleSubmit | components/ChatPanel.tsx:30-35 | blank input sends nothing and is kept; other input is sent exactly as typed, untrimmed, and the input is cleared |
| Chat.ChatPanel.OnMessagesChange | components/ChatPanel.tsx:21-28 | after the messages change the indicator equals `TypingIndicator` of them; the input is kept |
| Ingestion.IconFor | components/IngestionPanel.tsx:160-162 | JSON icon exactly for titles ending ".json"; code icon exactly for other titles ending in ".js", ".ts", ".py", ".html" or ".css"; text icon otherwise |
| Ingestion.MatchesCodePattern | components/IngestionPanel.tsx:161 | the code-file regular expression matches exactly the titles ending in one of the five code suffixes |
| Ingestion.TextIconByLastChar | components/IngestionPanel.tsx:160-162 | a title whose last character ends none of those suffixes gets the text icon |
| Ingestion.TextIconForExtension | components/IngestionPanel.tsx:160-162 | for every stem, an extension whose last character ends none of the matched suffixes gives the text icon |
| Ingestion.OtherExtensionsGetTextIcon | components/IngestionPanel.tsx:161 | for every stem, a title ending in ".jsx", ".tsx", ".md", ".csv" or ".txt" gets the text icon |
| Ingestion.JsonTitleGetsJsonIcon | components/IngestionPanel.tsx:160 | a ".json" title gets the JSON icon, though it starts with ".js" |
| Ingestion.CodeTitlesGetCodeIcon | components/IngestionPanel.tsx:161 | every title ending in one of the five code suffixes gets the code icon |
| Ingestion.Preview | components/IngestionPanel.tsx:167 | the preview is a prefix of the content of length min(length, 100) |
| Ingestion.ProcessDisabled | components/IngestionPanel.tsx:126 | the Process button is disabled exactly when the text is blank or processing is in progress |
| Ingestion.IngestionPanel.constructor | components/IngestionPanel.tsx:12-14 | the panel starts with an empty paste box and an empty file input |
| Ingestion.IngestionPanel.OnTextChange | components/IngestionPanel.tsx:118 | typing replaces the paste box and nothing else |
| Ingestion.IngestionPanel.HandleTextSubmit | components/IngestionPanel.tsx:16-20 | blank text is not forwarded and is kept; other text is forwarded untrimmed under a title starting "Snippet - ", and the box is cleared |
| Ingestion.IngestionPanel.ProcessFile | components/IngestionPanel.tsx:27-36 | no file does nothing; a file's text is forwarded unchecked, even when empty, under the file name, and the file input is reset |
| AppModel.InitialState | App.tsx:16-27 | no materials, no topics, not processing, and a history of exactly one model message that is not an error |
| AppModel.Contents | App.tsx:47 | the contents of the materials, one per material, in order |
| AppModel.Corpus | App.tsx:47 | the corpus (also the answer context of App.tsx:73) is empty without materials, otherwise starts with the first material's content and ends with the last one's; `CorpusAppend` gives its growth |
| AppModel.CorpusAppend | App.tsx:47 | the corpus with a new material is the old corpus, "\n\n" and the new content, never just the new content unless there was no material |
| AppModel.CorpusKeepsEarlierContent | App.tsx:73 | the earlier corpus and a separator start the new corpus, and the new content follows them |
| AppModel.CorpusOfTwo | App.tsx:47 | two materials are analysed as the first content, "\n\n", the second content |
| AppModel.WithProcessing | App.tsx:37 | the updater sets the processing flag (raised at App.tsx:37, lowered at App.tsx:60) and changes nothing else |
| AppModel.WithAnalysedMaterial | App.tsx:50-55 | the success updater puts the new material last, sets the topics to the analysis's, lowers the flag and keeps the history |
| AppModel.WithMessage | App.tsx:67-70 | the updater appends one message after the untouched earlier history and changes nothing else |
| AppModel.UserMessage | App.tsx:66 | the user message carries the text as given, with role user and no error flag |
| AppModel.AnswerMessage | App.tsx:76-83 | the appended model message carries the answer with no error flag, or "I encountered an error. Please try again." with the flag, exactly when the answer failed |
| AppModel.AnalysedMaterialAppends | App.tsx:50-55 | a successful add keeps the earlier materials in order, puts the new one last, replaces the topics by the analysis's, lowers the flag and keeps the history |
| AppModel.SendAppendsTwo | App.tsx:66-87 | a send grows the history by exactly two, the user's text as given and then one model message, leaving earlier entries untouched |
| AppModel.TypingWhileAnswerPending | components/ChatPanel.tsx:23-27 | the indicator is on after the user message is appended and off once the model message is |
| AppModel.ChatGateClosesWithoutMaterials | App.tsx:96 | the chat input starts enabled; after one exchange with no material it is disabled and the warning shows |
| AppModel.App.constructor | App.tsx:12-27 | the app starts in the initial state on the ingestion tab |
| AppModel.App.BeginMaterialAdd | App.tsx:36-48 | the processing flag is raised and nothing else changes; the corpus analysed is every existing material followed by the new one |
| AppModel.App.CompleteMaterialAdd | App.tsx:50-62 | on success the material is appended, the topics replaced, the flag lowered and the chat tab shown; on an exception only the flag is lowered |
| AppModel.App.HandleMaterialAdd | App.tsx:36-63 | with this service the add always succeeds: material appended, topics those of the analysis of the full corpus, flag lowered, chat tab shown, history kept |
| AppModel.App.BeginSendMessage | App.tsx:65-74 | the user message is appended first; the answer call receives the corpus of the current materials and the history before the send |
| AppModel.App.CompleteSendMessage | App.tsx:76-87 | exactly one model message is appended |
| AppModel.App.HandleSendMessage | App.tsx:65-89 | the history grows by the user message and the model message for the answer; materials, topics, flag and tab are unchanged |

## Left out

- The backend client and its calls (services/geminiService.ts:7-8, 20-46, 86-98): a foreign library. Each call's outcome is a parameter.
- JSON parsing and the response schema: `parse` is abstract. Values of the wrong type in the parsed JSON are not modelled; only absent fields are.
- The sampling temperature 0.4 and the model name: constants handed to the library, with no logic attached.
- Material ids and all timestamps: they come from the clock. `Material` and `Message` have no such fields, and id uniqueness is not claimed.
- Concurrency: overlapping handlers, and the stale state captured by `useCallback`. Each handler runs alone, so the captured state and the latest state coincide.
- Browser I/O: the file reader, drag and drop, DOM refs, scrolling, `alert`, `console.error` and the dark-mode query. The file input ref is taken to be mounted.
- Presentation-only components (components/Header.tsx, components/ResumeGuide.tsx, components/AnalyticsPanel.tsx) and NavButton in App.tsx.
- The `GeminiType` enum in types.ts:33-42: it is not used.
- Characters outside the Basic Multilingual Plane: strings here are sequences of Unicode scalar values, so the 50000-character cut of the analysis prompt (services/geminiService.ts:25) and the 100-character preview (components/IngestionPanel.tsx:167) count scalar values, not UTF-16 code units, and a cut through a surrogate pair is not modelled.
