/** The application controller (App.tsx): the state container, adding a material
    and sending a message. Each async handler is split at its `await` into a
    `Begin` method and a `Complete` method that receives the awaited outcome; the
    handler's locals that live across the `await` are passed from one to the other.
    The pure functions below are the `setAppState(prev => ...)` updaters. */
module AppModel {
  import opened Wrappers
  import opened JsStrings
  import opened Types
  import GeminiService
  import Chat

  /** The seeded welcome message. */
  const WelcomeText: string :=
    "Hello! I am your AI Tutor. Upload your notes (TXT, MD, CSV, JSON, Code) in the Ingestion tab to get started."

  /** The text of the model message that stands in for a failed answer. */
  const AnswerErrorText: string := "I encountered an error. Please try again."

  /** The separator between two materials in the corpus. */
  const Separator: string := "\n\n"

  const WelcomeMessage: Message := Message(Model, WelcomeText)

  datatype Tab = Ingest | ChatTab | Analytics | ResumeTab

  /** The state the app starts in. */
  function InitialState(): (s: AppState)
    ensures s.materials == [] && !s.isProcessing && s.topics == Some([])
    ensures |s.chatHistory| == 1 && s.chatHistory[0].role == Model && !s.chatHistory[0].isError
  {
    AppState([], false, Some([]), [WelcomeMessage])
  }

  /** The contents of the materials, in order. */
  function Contents(materials: seq<Material>): (contents: seq<string>)
    ensures |contents| == |materials|
    ensures forall i :: 0 <= i < |materials| ==> contents[i] == materials[i].content
  {
    if materials == [] then [] else Contents(materials[..|materials| - 1]) + [materials[|materials| - 1].content]
  }

  /** The corpus: every material's content in insertion order, separated by a blank line. */
  function Corpus(materials: seq<Material>): (corpus: string)
    ensures materials == [] ==> corpus == ""
    ensures materials != [] ==> materials[0].content <= corpus
    ensures materials != [] ==> EndsWith(corpus, materials[|materials| - 1].content)
  {
    var parts := Contents(materials);
    if parts == [] then Join(parts, Separator)
    else
      JoinStartsWithFirst(parts, Separator);
      JoinEndsWithLast(parts, Separator);
      Join(parts, Separator)
  }

  /** Adding a material extends the corpus of the earlier ones: it is never just the
      new content unless nothing came before. */
  lemma CorpusAppend(materials: seq<Material>, m: Material)
    ensures Corpus(materials + [m]) == if materials == [] then m.content else Corpus(materials) + Separator + m.content
  {
    assert Contents(materials + [m]) == Contents(materials) + [m.content];
    JoinSnoc(Contents(materials), m.content, Separator);
  }

  /** The corpus of the earlier materials, then a separator, starts the new corpus. */
  lemma CorpusKeepsEarlierContent(materials: seq<Material>, m: Material)
    requires materials != []
    ensures Corpus(materials) + Separator <= Corpus(materials + [m])
    ensures m.content <= Corpus(materials + [m])[|Corpus(materials)| + |Separator|..]
  {
    CorpusAppend(materials, m);
  }

  /** Two materials added in turn are analysed together, in insertion order. */
  lemma CorpusOfTwo(m1: Material, m2: Material)
    ensures Corpus([m1, m2]) == m1.content + "\n\n" + m2.content
  {
    CorpusAppend([m1], m2);
    assert [m1] + [m2] == [m1, m2];
  }

  /** Updater: raise or lower the processing flag. */
  function WithProcessing(s: AppState, flag: bool): (r: AppState)
    ensures r.isProcessing == flag
    ensures r.materials == s.materials && r.topics == s.topics && r.chatHistory == s.chatHistory
  {
    s.(isProcessing := flag)
  }

  /** Updater after a successful analysis: append the material, replace the topics. */
  function WithAnalysedMaterial(s: AppState, m: Material, analysis: AnalysisResult): (r: AppState)
    ensures |r.materials| == |s.materials| + 1 && r.materials[|s.materials|] == m
    ensures r.topics == analysis.topics && !r.isProcessing
    ensures r.chatHistory == s.chatHistory
  {
    s.(materials := s.materials + [m], topics := analysis.topics, isProcessing := false)
  }

  /** Updater: append one message to the history. */
  function WithMessage(s: AppState, msg: Message): (r: AppState)
    ensures |r.chatHistory| == |s.chatHistory| + 1
    ensures r.chatHistory[..|s.chatHistory|] == s.chatHistory && r.chatHistory[|s.chatHistory|] == msg
    ensures r.materials == s.materials && r.topics == s.topics && r.isProcessing == s.isProcessing
  {
    s.(chatHistory := s.chatHistory + [msg])
  }

  /** The user message a send appends first. */
  function UserMessage(text: string): (msg: Message)
    ensures msg.role == User && msg.content == text && !msg.isError
  {
    Message(User, text)
  }

  /** The model message a send appends once the answer is settled: the reply on
      success, the fixed apology flagged as an error on failure. */
  function AnswerMessage(answer: Outcome<string>): (msg: Message)
    ensures msg.role == Model
    ensures msg.isError <==> answer.Err?
    ensures msg.content == if answer.Ok? then answer.value else AnswerErrorText
  {
    match answer
    case Ok(text) => Message(Model, text)
    case Err(_) => Message(Model, AnswerErrorText, true)
  }

  /** A successful add leaves every earlier material in place, appends the new one
      last, replaces the topics wholesale and leaves the history alone. */
  lemma AnalysedMaterialAppends(s: AppState, m: Material, analysis: AnalysisResult)
    ensures var t := WithAnalysedMaterial(s, m, analysis);
      && |t.materials| == |s.materials| + 1
      && t.materials[..|s.materials|] == s.materials
      && t.materials[|s.materials|] == m
      && t.topics == analysis.topics
      && !t.isProcessing
      && t.chatHistory == s.chatHistory
  {
    assert (s.materials + [m])[..|s.materials|] == s.materials;
  }

  /** A send grows the history by exactly two: the user's text as given, then one
      model message; earlier entries are untouched. */
  lemma SendAppendsTwo(s: AppState, text: string, answer: Outcome<string>)
    ensures var h := WithMessage(WithMessage(s, UserMessage(text)), AnswerMessage(answer)).chatHistory;
      && |h| == |s.chatHistory| + 2
      && h[..|s.chatHistory|] == s.chatHistory
      && h[|s.chatHistory|] == Message(User, text, false)
      && h[|s.chatHistory| + 1].role == Model
      && (h[|s.chatHistory| + 1].isError <==> answer.Err?)
  {
    var h := WithMessage(WithMessage(s, UserMessage(text)), AnswerMessage(answer)).chatHistory;
    assert h == s.chatHistory + [UserMessage(text), AnswerMessage(answer)];
  }

  /** The typing indicator is on exactly while an answer is awaited: after the user
      message is appended and before the model message is. */
  lemma TypingWhileAnswerPending(s: AppState, text: string, answer: Outcome<string>)
    ensures Chat.TypingIndicator(WithMessage(s, UserMessage(text)).chatHistory)
    ensures !Chat.TypingIndicator(WithMessage(WithMessage(s, UserMessage(text)), AnswerMessage(answer)).chatHistory)
  {
  }

  /** The chat input starts enabled, and a first exchange without any material
      closes it until a material is added. */
  lemma ChatGateClosesWithoutMaterials(text: string, answer: Outcome<string>)
    ensures !Chat.InputDisabled(|InitialState().materials| > 0, InitialState().chatHistory)
    ensures var s := WithMessage(WithMessage(InitialState(), UserMessage(text)), AnswerMessage(answer));
      Chat.InputDisabled(|s.materials| > 0, s.chatHistory)
          && Chat.ShowUploadWarning(|s.materials| > 0, s.chatHistory)
  {
  }

  class App {
    /** The state container, replaced as a whole by every update. */
    var state: AppState
    /** The tab shown. */
    var activeTab: Tab

    constructor ()
      ensures state == InitialState() && activeTab == Ingest
    {
      state := InitialState();
      activeTab := Ingest;
    }

    /** `handleMaterialAdd` up to its `await`: raise the processing flag, build the
        new material and the corpus to analyse, which is every existing material
        followed by the new one. */
    method BeginMaterialAdd(content: string, title: string) returns (newMaterial: Material, allContent: string)
      modifies this
      ensures state == old(state).(isProcessing := true) && activeTab == old(activeTab)
      ensures newMaterial == Material(title, content)
      ensures allContent == Corpus(old(state).materials + [newMaterial])
    {
      state := WithProcessing(state, true);
      newMaterial := Material(title, content);
      allContent := Corpus(state.materials + [newMaterial]);
    }

    /** `handleMaterialAdd` after its `await`. On success the material is appended,
        the topics are replaced, the flag is lowered and the chat tab is shown; if
        the analysis threw only the flag is lowered. */
    method CompleteMaterialAdd(newMaterial: Material, analysis: Outcome<AnalysisResult>)
      modifies this
      ensures !state.isProcessing
      ensures analysis.Ok? ==> state == old(state).(materials := old(state).materials + [newMaterial],
                                                    topics := analysis.value.topics, isProcessing := false)
      ensures analysis.Ok? ==> activeTab == ChatTab
      ensures analysis.Err? ==> state == old(state).(isProcessing := false) && activeTab == old(activeTab)
    {
      match analysis {
        case Ok(result) =>
          state := WithAnalysedMaterial(state, newMaterial, result);
          activeTab := ChatTab;
        case Err(_) =>
          state := WithProcessing(state, false);
      }
    }

    /** The whole of `handleMaterialAdd` with the service of this model, given the
        backend's reply to the analysis request. The analysis never throws, so the
        success branch is always taken. */
    method HandleMaterialAdd(content: string, title: string, reply: Outcome<Option<string>>,
                             parse: string -> Option<AnalysisResult>)
      modifies this
      ensures state.materials == old(state).materials + [Material(title, content)]
      ensures state.topics
           == GeminiService.AnalyzeStudyMaterial(Corpus(old(state).materials + [Material(title, content)]), reply, parse).topics
      ensures !state.isProcessing && activeTab == ChatTab
      ensures state.chatHistory == old(state).chatHistory
    {
      var newMaterial, allContent := BeginMaterialAdd(content, title);
      var analysis := GeminiService.AnalyzeStudyMaterial(allContent, reply, parse);
      CompleteMaterialAdd(newMaterial, Ok(analysis));
    }

    /** `handleSendMessage` up to its `await`: append the user message as typed, and
        hand the current corpus and the history from before the send to the answer call. */
    method BeginSendMessage(text: string) returns (context: string, history: seq<Message>)
      modifies this
      ensures state == old(state).(chatHistory := old(state).chatHistory + [UserMessage(text)])
      ensures activeTab == old(activeTab)
      ensures context == Corpus(old(state).materials)
      ensures history == old(state).chatHistory
    {
      context := Corpus(state.materials);
      history := state.chatHistory;
      state := WithMessage(state, UserMessage(text));
    }

    /** `handleSendMessage` after its `await`: append exactly one model message. */
    method CompleteSendMessage(answer: Outcome<string>)
      modifies this
      ensures state == old(state).(chatHistory := old(state).chatHistory + [AnswerMessage(answer)])
      ensures activeTab == old(activeTab)
    {
      state := WithMessage(state, AnswerMessage(answer));
    }

    /** The whole of `handleSendMessage` with the service of this model, given the
        backend's reply to the answer request. */
    method HandleSendMessage(text: string, reply: Outcome<Option<string>>)
      modifies this
      ensures state.chatHistory == old(state).chatHistory + [UserMessage(text),
        AnswerMessage(GeminiService.GenerateRagResponse(text, Corpus(old(state).materials), old(state).chatHistory, reply))]
      ensures state.materials == old(state).materials && state.topics == old(state).topics
      ensures state.isProcessing == old(state).isProcessing && activeTab == old(activeTab)
    {
      var context, history := BeginSendMessage(text);
      var answer := GeminiService.GenerateRagResponse(text, context, history, reply);
      CompleteSendMessage(answer);
    }
  }
}
