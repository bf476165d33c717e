/** The requests the browser sends to the server and what each call can come
    back with.  The wrappers in the service layer return the response body
    or rethrow the transport error, so a call has exactly two kinds of
    result. */
module Api {
  import opened Values
  import opened Session

  /** The `basicInfo` object sent to `/api/collect-info`. */
  datatype BasicInfo = BasicInfo(name: string, age: string, gender: string, category: string)

  datatype Request =
    | CollectInfo(basicInfo: BasicInfo)
    | SubmitResponses(responses: seq<ResponsePair>)
    | GeneratePlan(profile: Profile)
    | AskQuestion(question: string, knownProfile: Option<Profile>, knownPlan: Option<string>)

  /** A resolved call yields the body's `success` flag and the payload field
      the caller reads; a rejected one throws. */
  datatype Reply<+T> = Returned(success: bool, payload: T) | Threw

  /** The `followUpQuestions` field as the browser sees it: either a JSON
      array (of question strings) or anything that is not an array. */
  datatype FollowUps = QuestionList(items: seq<string>) | NotAList
}
