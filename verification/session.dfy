/** The session record every page shares through the user-data context:
    the profile and plan the server produced, the answers collected so far,
    the chat transcript and the global loading flag. */
module Session {
  import opened Values
  import opened Lines

  datatype Role = User | Assistant

  /** One transcript entry, `{role, content}`.  An entry whose content is
      one of the fixed assistant lines is a `Notice` naming that line. */
  datatype Message = Message(role: Role, content: JsText) | Notice(line: Line)

  /** One answered follow-up question, `{question, answer}`. */
  datatype ResponsePair = ResponsePair(question: JsText, answer: string)

  /** The structured profile the server builds; the browser only stores it
      and sends it back, so it is kept as an opaque token. */
  datatype Profile = Profile(json: string)

  datatype Store = Store(
    userProfile: Option<Profile>,
    responses: seq<ResponsePair>,
    lifestylePlan: Option<string>,
    category: Option<string>,
    chatHistory: seq<Message>,
    isLoading: bool)

  /** The provider's state when the application mounts. */
  function Initial(): Store {
    Store(None, [], None, None, [], false)
  }

  /** The list `addResponse(question, answer)` hands to `setResponses`.  It is
      built from `captured`, the store as it was when the calling handler was
      created, not from any write made since. */
  function AddResponse(captured: Store, question: JsText, answer: string): (r: seq<ResponsePair>)
    ensures |r| == |captured.responses| + 1
    ensures r[..|captured.responses|] == captured.responses
    ensures r[|captured.responses|] == ResponsePair(question, answer)
  {
    captured.responses + [ResponsePair(question, answer)]
  }

  /** The list `addChatMessage(role, content)` hands to `setChatHistory`,
      likewise built from the captured transcript; `m` is `{role, content}`. */
  function AddChatMessage(captured: Store, m: Message): (r: seq<Message>)
    ensures |r| == |captured.chatHistory| + 1
    ensures r[..|captured.chatHistory|] == captured.chatHistory
    ensures r[|captured.chatHistory|] == m
  {
    captured.chatHistory + [m]
  }

  /** `resetData()`: clears profile, answers, plan and transcript. */
  function ResetData(s: Store): (r: Store)
    ensures r.userProfile == None && r.lifestylePlan == None
    ensures r.responses == [] && r.chatHistory == []
    ensures r.category == s.category && r.isLoading == s.isLoading
  {
    s.(userProfile := None, responses := [], lifestylePlan := None, chatHistory := [])
  }

  /** After a reset the four cleared fields are back at their initial values,
      while the category and the loading flag keep whatever they held. */
  lemma ResetRestoresInitial(s: Store)
    ensures ResetData(s) == Initial().(category := s.category, isLoading := s.isLoading)
    ensures ResetData(Initial()) == Initial()
  {
  }

  /** Resetting twice is the same as resetting once. */
  lemma ResetIdempotent(s: Store)
    ensures ResetData(ResetData(s)) == ResetData(s)
  {
  }
}
