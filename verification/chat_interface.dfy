/** The free-form question widget, a stand-alone component that no page
    of the application mounts.  One submission appends the user's text,
    asks the server, and appends the answer or one of two apologies; the
    processing flag keeps a second question out while the first is in
    flight. */
module ChatInterface {
  import opened Values
  import opened Lines
  import opened Strings
  import opened Session
  import opened Api
  import opened Batch

  /** The shared store as the widget reads it, plus its own two state
      variables: the text in the input box and the processing flag. */
  datatype Widget = Widget(store: Store, userInput: string, isProcessing: bool)

  /** The widget's own state, written through its two setters. */
  datatype Own = Own(userInput: string, isProcessing: bool)

  /** The text a transcript entry shows. */
  function Content(m: Message): JsText {
    match m
    case Message(_, content) => content
    case Notice(l) => Text(Wording(l))
  }

  /** The request a submission issues: the typed text with the profile and
      plan the widget read when the handler was created. */
  function Question(w: Widget): Request {
    AskQuestion(w.userInput, w.store.userProfile, w.store.lifestylePlan)
  }

  /** The assistant entry for each way the call can end. */
  function Answer(reply: Reply<JsText>): (m: Message)
    ensures reply.Returned? && reply.success ==> m.Message? && m.role == Assistant && Content(m) == reply.payload
    ensures reply.Returned? && !reply.success ==> m == Notice(RequestFailed)
    ensures reply.Threw? ==> m == Notice(ConnectionFailed)
  {
    match reply
    case Returned(success, payload) => if success then Message(Assistant, payload) else Notice(RequestFailed)
    case Threw => Notice(ConnectionFailed)
  }

  /** The guard at the top of the handler lets the submission through. */
  predicate Accepted(w: Widget) {
    !IsBlank(w.userInput) && !w.isProcessing
  }

  /** The handler up to the `await`: the user's message, the cleared box,
      the flag raised, and the request issued. */
  function Ask(w: Widget): (b: Batch<Own>)
    ensures b.Tracks() && b.snapshot == w.store
    ensures b.store == w.store.(chatHistory := w.store.chatHistory + [Message(User, Text(w.userInput))])
    ensures b.local == Own("", true)
    ensures b.log == [Emitted(Message(User, Text(w.userInput))), Called(Question(w))]
    ensures b.requests == [Question(w)]
  {
    var b := Begin(w.store, Own(w.userInput, w.isProcessing)).Emit(Message(User, Text(w.userInput)));
    var b1 := b.Set(b.local.(userInput := ""));
    var b2 := b1.Set(b1.local.(isProcessing := true));
    b2.Call(Question(w))
  }

  /** The widget as rendered while the request is in flight. */
  function InFlight(w: Widget): Widget {
    var b := Ask(w);
    Widget(b.store, b.local.userInput, b.local.isProcessing)
  }

  /** `handleSubmit`: a rejected submission does nothing; an accepted one
      runs `Ask`, then appends the answer for `reply` and lowers the flag in
      the `finally` block. */
  function Submit(w: Widget, reply: Reply<JsText>): (o: Outcome<Widget>)
    ensures !Accepted(w) <==> o.log == []
    ensures !Accepted(w) ==> o == Outcome(w, [], [], [])
    ensures Accepted(w) ==>
      && o.log == [Emitted(Message(User, Text(w.userInput))), Called(Question(w)), Emitted(Answer(reply))]
      && o.requests == [Question(w)]
      && o.state.store == w.store.(chatHistory := w.store.chatHistory + [Answer(reply)])
      && o.state.userInput == "" && !o.state.isProcessing
  {
    if !Accepted(w) then Outcome(w, [], [], [])
    else
      var b := Ask(w).Emit(Answer(reply));
      var b1 := b.Set(b.local.(isProcessing := false));
      b1.Commit(Widget(b1.store, b1.local.userInput, b1.local.isProcessing))
  }

  /** The user's message is visible while the request is in flight, and a
      second submission in that window is ignored, whatever its text. */
  lemma InFlightBlocksResubmit(w: Widget, text: string, reply: Reply<JsText>)
    requires Accepted(w)
    ensures Message(User, Text(w.userInput)) in InFlight(w).store.chatHistory
    ensures Submit(InFlight(w).(userInput := text), reply) == Outcome(InFlight(w).(userInput := text), [], [], [])
  {
    var h := InFlight(w).store.chatHistory;
    assert h[|h| - 1] == Message(User, Text(w.userInput));
  }

  /** The committed transcript gains exactly one entry, the answer: the
      user's own message, shown while waiting, is overwritten because both
      writes start from the transcript the handler captured. */
  lemma UserMessageReplaced(w: Widget, reply: Reply<JsText>)
    requires Accepted(w)
    ensures var h := Submit(w, reply).state.store.chatHistory;
      && |h| == |w.store.chatHistory| + 1
      && h[..|w.store.chatHistory|] == w.store.chatHistory
      && h[|h| - 1] != Message(User, Text(w.userInput))
  {
  }

  /** Whatever the text, the state and the reply, no submission leaves the
      flag raised, and a rejected one leaves everything as it was. */
  lemma ProcessingEnds(w: Widget, reply: Reply<JsText>)
    requires !w.isProcessing
    ensures !Submit(w, reply).state.isProcessing
    ensures !Accepted(w) ==> Submit(w, reply).state == w
  {
  }

  /** The three endings show three different texts: a successful answer is
      shown verbatim, and the two apologies differ from each other. */
  lemma EndingsDiffer(payload: JsText)
    ensures Content(Answer(Returned(true, payload))) == payload
    ensures Content(Answer(Returned(false, payload))) != Content(Answer(Threw))
  {
    ApologiesDiffer();
  }
}
