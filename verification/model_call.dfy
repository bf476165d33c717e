/** `call_github_model`: one completion request to the hosted model and
    what the server does when it fails.  The model client itself is a
    parameter, `complete`, giving for each model name either the generated
    text or the text of the error raised. */
module ModelCall {
  import opened Strings
  import opened Responder

  const DefaultModel := "gpt-4o-mini"

  datatype Completion = Completed(text: string) | Failed(error: string)

  /** Where the returned text came from.  The local reply and the apology are
      kept by name rather than by their wording. */
  datatype ModelText = Generated(text: string) | Offline(reply: LocalReply) | Apology

  /** The text returned and the model names tried, in order. */
  datatype ModelAnswer = ModelAnswer(result: ModelText, attempts: seq<string>)

  /** An error whose text mentions status 401 or, in any case, the word
      "authentication". */
  predicate IsAuthError(error: string) {
    Contains(error, "401") || Contains(Lower(error), "authentication")
  }

  /** A failure the server answers by retrying or apologising rather than by
      switching to the offline responder. */
  predicate IsOtherError(c: Completion) {
    c.Failed? && !IsAuthError(c.error)
  }

  /** The call with `model`: the generated text when the client succeeds;
      on an authentication error the offline reply; on any other error one
      retry with the default model, or the apology when the default model
      itself failed.  The answer never reveals which error occurred. */
  function CallModel(messages: seq<ChatMsg>, model: string, complete: string -> Completion): (c: ModelAnswer)
    ensures 1 <= |c.attempts| <= 2 && c.attempts[0] == model
    ensures |c.attempts| == 2 ==> model != DefaultModel && c.attempts[1] == DefaultModel
    ensures forall k :: 0 <= k < |c.attempts| - 1 ==> IsOtherError(complete(c.attempts[k]))
    ensures var last := complete(c.attempts[|c.attempts| - 1]);
      && (c.result.Generated? <==> last.Completed?)
      && (c.result.Generated? ==> c.result.text == last.text)
      && (c.result.Offline? <==> last.Failed? && IsAuthError(last.error))
      && (c.result.Offline? ==> c.result.reply == LocalResponse(messages))
      && (c.result == Apology <==> IsOtherError(last))
    decreases if model == DefaultModel then 0 else 1
  {
    match complete(model)
    case Completed(text) => ModelAnswer(Generated(text), [model])
    case Failed(error) =>
      if IsAuthError(error) then ModelAnswer(Offline(LocalResponse(messages)), [model])
      else if model != DefaultModel then
        var retry := CallModel(messages, DefaultModel, complete);
        ModelAnswer(retry.result, [model] + retry.attempts)
      else ModelAnswer(Apology, [model])
  }

  /** The apology means the default model was the last one tried and it
      failed for a reason other than authentication. */
  lemma ApologyOnlyAfterDefault(messages: seq<ChatMsg>, model: string, complete: string -> Completion)
    ensures var c := CallModel(messages, model, complete);
      c.result == Apology <==> IsOtherError(complete(DefaultModel)) && (model == DefaultModel || IsOtherError(complete(model)))
  {
  }

  /** A call that names the default model is never retried. */
  lemma DefaultModelTriedOnce(messages: seq<ChatMsg>, complete: string -> Completion)
    ensures CallModel(messages, DefaultModel, complete).attempts == [DefaultModel]
  {
  }
}
