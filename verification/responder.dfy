/** The server's offline responder, used when the model service rejects
    the credentials.  It looks only at the last user message and answers
    with one of four canned replies chosen by substring tests on its
    lower-cased text, first match winning. */
module Responder {
  import opened Strings

  /** One message of a model conversation, `{"role": …, "content": …}`. */
  datatype ChatMsg = ChatMsg(role: string, content: string)

  /** The canned replies, by name.  Only the question list's contents matter
      to the rest of the system; the other texts are not modelled. */
  datatype LocalReply =
    | TenQuestions      // a JSON array of `FollowUpQuestions`
    | ProfileSkeleton   // a JSON object with placeholder profile fields
    | PlanMarkdown      // a generic markdown lifestyle plan
    | OfflineNotice     // a sentence saying the service is offline

  /** The ten questions of the follow-up reply, in order. */
  const FollowUpQuestions: seq<string> := [
    "What is your typical daily routine (waking time, sleeping time, meal times)?",
    "What is your current diet like? Please describe what you typically eat in a day.",
    "How would you describe your stress levels (low, moderate, high)?",
    "Do you exercise regularly? If yes, what type and how often?",
    "What are your main health goals or areas you'd like to improve?",
    "Have you tried any AYUSH practices before (Ayurveda, Yoga, Unani, Siddha, Homeopathy)?",
    "Do you have any dietary restrictions or preferences?",
    "How is your sleep quality and duration?",
    "What is your water intake per day?",
    "Are you currently taking any medications or supplements?"
  ]

  const QuestionsNeedle := "generate" + " personalized follow-up questions"
  const ProfileNeedle := "create a structured profile"
  const PlanNeedle := "create a comprehensive, personalized AYUSH lifestyle plan"

  /** The content of the last message with the given role, or the empty
      text when there is none. */
  function LastContent(messages: seq<ChatMsg>, role: string): (r: string)
    ensures (forall i :: 0 <= i < |messages| ==> messages[i].role != role) ==> r == ""
    ensures r != "" ==> exists i :: 0 <= i < |messages| && messages[i] == ChatMsg(role, r)
    ensures (exists i :: 0 <= i < |messages| && messages[i].role == role) ==>
      exists i :: (&& 0 <= i < |messages| && messages[i] == ChatMsg(role, r)
                   && forall j :: i < j < |messages| ==> messages[j].role != role)
    decreases |messages|
  {
    if messages == [] then ""
    else if messages[|messages| - 1].role == role then messages[|messages| - 1].content
    else LastContent(messages[..|messages| - 1], role)
  }

  /** `generate_local_response`: the reply to the last user message. */
  function LocalResponse(messages: seq<ChatMsg>): (r: LocalReply)
    ensures var t := Lower(LastContent(messages, "user"));
      && (r == TenQuestions <==> Contains(t, QuestionsNeedle))
      && (r == ProfileSkeleton <==> !Contains(t, QuestionsNeedle) && Contains(t, ProfileNeedle))
  {
    var t := Lower(LastContent(messages, "user"));
    if Contains(t, QuestionsNeedle) then TenQuestions
    else if Contains(t, ProfileNeedle) then ProfileSkeleton
    else if Contains(t, PlanNeedle) then PlanMarkdown
    else OfflineNotice
  }

  /** The last message with the role wins: a later one replaces an earlier
      one, and messages with other roles are skipped. */
  lemma {:induction false} LastContentIsLast(messages: seq<ChatMsg>, role: string, i: nat)
    requires i < |messages| && messages[i].role == role
    requires forall j :: i < j < |messages| ==> messages[j].role != role
    ensures LastContent(messages, role) == messages[i].content
    decreases |messages|
  {
    if i < |messages| - 1 {
      LastContentIsLast(messages[..|messages| - 1], role, i);
    }
  }

  /** The plan reply is dead code: its needle holds the capitals of "AYUSH"
      but is searched for in lower-cased text, so a plan request gets the
      offline notice. */
  lemma PlanReplyUnreachable(messages: seq<ChatMsg>)
    ensures LocalResponse(messages) != PlanMarkdown
    ensures var t := Lower(LastContent(messages, "user"));
      !Contains(t, QuestionsNeedle) && !Contains(t, ProfileNeedle) ==> LocalResponse(messages) == OfflineNotice
  {
    var t := Lower(LastContent(messages, "user"));
    assert PlanNeedle[37] == 'A';
    LowerHasNoUpper(LastContent(messages, "user"), 'A');
    ContainsNeedsChar(t, PlanNeedle, 37);
  }

  /** The profile needle is already folded. */
  lemma ProfileNeedleFolded()
    ensures Lower(ProfileNeedle) == ProfileNeedle
  {
    var s := ProfileNeedle;
    forall i | 0 <= i < |s|
      ensures !('A' <= s[i] <= 'Z')
    {
      assert s[i] in s;
    }
    LowerFixes(s);
  }
}
