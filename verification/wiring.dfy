/** Facts that span the browser and the server: what the guided chat does
    with the body `/api/collect-info` sends. */
module Wiring {
  import opened Values
  import opened Api
  import opened ChatPage
  import opened ChatPageLemmas
  import opened Responder
  import opened Routes

  /** The body as the browser's `collectInfo` hands it to the page: an
      array stays a question list, anything else is not one. */
  function Received(body: CollectBody): (r: Reply<FollowUps>)
    ensures r.Returned? && r.success == body.success
    ensures r.payload.QuestionList? <==> body.followUpQuestions.Array?
    ensures r.payload.QuestionList? ==> r.payload.items == body.followUpQuestions.items
  {
    Returned(body.success,
             if body.followUpQuestions.Array? then QuestionList(body.followUpQuestions.items) else NotAList)
  }

  /** Since the route reports success whatever the model said, the page
      falls back to its six questions exactly when the model's text did not
      parse to an array; a thrown call leaves the page before the follow-up
      phase and adopts no list at all. */
  lemma FallbackOnlyOnNonArray(p: Page, input: string, r: Replies, raw: string, parsed: Option<Json>)
    requires Accepted(p, input) && !p.local.basicInfoCollected
    requires p.local.currentQuestion == Text(GenderPrompt)
    requires r.collect == Received(CollectInfoBody(raw, parsed)) || r.collect.Threw?
    ensures var l := Submit(p, input, r).state.local;
      && (r.collect.Threw? ==> !l.basicInfoCollected && l.followUpQuestions == p.local.followUpQuestions)
      && (r.collect.Returned? ==>
            && l.basicInfoCollected
            && l.followUpQuestions == (if parsed.Some? && parsed.value.Array? then parsed.value.items else FallbackQuestions))
  {
    GenderPromptStage();
    GenderStep(p, input, r);
  }

  /** When the model service rejects the credentials, the server's offline
      reply is the ten-question array, so the page asks those ten questions
      and not its own six. */
  lemma OfflineQuestionsReachPage(p: Page, input: string, r: Replies, raw: string)
    requires Accepted(p, input) && !p.local.basicInfoCollected
    requires p.local.currentQuestion == Text(GenderPrompt)
    requires r.collect == Received(CollectInfoBody(raw, Some(Array(FollowUpQuestions))))
    ensures var l := Submit(p, input, r).state.local;
      && l.followUpQuestions == FollowUpQuestions
      && |l.followUpQuestions| == 10 != |FallbackQuestions|
  {
    FallbackOnlyOnNonArray(p, input, r, raw, Some(Array(FollowUpQuestions)));
  }
}
