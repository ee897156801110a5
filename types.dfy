/** The records of the app's data model (types.ts). Clock-derived fields (the
    material id and every timestamp) are not part of the model. */
module Types {
  import opened Wrappers

  /** A study material: a pasted snippet or an uploaded file. */
  datatype Material = Material(title: string, content: string)

  /** A topic extracted by the analysis, with its relevance score. */
  datatype Topic = Topic(name: string, relevance: int, description: string)

  /** The analysis returned to the app. The service hands back the parsed JSON
      without validating it, so either field may be absent (`None`). */
  datatype AnalysisResult = AnalysisResult(topics: Option<seq<Topic>>, summary: Option<string>)

  datatype Role = User | Model

  /** One chat message; `isError` is the optional flag, false when omitted. */
  datatype Message = Message(role: Role, content: string, isError: bool := false)

  /** The single application state container. `topics` is `None` once an analysis
      without a `topics` field has been stored. */
  datatype AppState = AppState(
    materials: seq<Material>,
    isProcessing: bool,
    topics: Option<seq<Topic>>,
    chatHistory: seq<Message>)
}
