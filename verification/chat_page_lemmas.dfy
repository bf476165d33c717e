/** Properties of the guided chat's submit handler, branch by branch and
    over whole runs. */
module ChatPageLemmas {
  import opened Values
  import opened Lines
  import opened Strings
  import opened Session
  import opened Api
  import opened Batch
  import opened ChatPage

  lemma NamePromptStage()
    ensures StageOf(NamePrompt) == NameStage
  {
    assert StartsWith(NamePrompt[12..], "name");
    ContainsAt(NamePrompt, "name", 12);
  }

  lemma AgePromptStage()
    ensures StageOf(AgePrompt) == AgeStage
  {
    assert 'm' !in AgePrompt;
    ContainsNeedsChar(AgePrompt, "name", 2);
    assert StartsWith(AgePrompt[4..], "old");
    ContainsAt(AgePrompt, "old", 4);
  }

  lemma GenderPromptStage()
    ensures StageOf(GenderPrompt) == GenderStage
  {
    assert 'm' !in GenderPrompt;
    ContainsNeedsChar(GenderPrompt, "name", 2);
    assert 'l' !in GenderPrompt;
    ContainsNeedsChar(GenderPrompt, "old", 1);
    assert StartsWith(GenderPrompt[13..], "gender");
    ContainsAt(GenderPrompt, "gender", 13);
  }

  /** The three fixed prompts select the name, age and gender stages in
      that order, despite the stage being read off the prompt's text. */
  lemma PromptsSelectStages()
    ensures StageOf(NamePrompt) == NameStage
    ensures StageOf(AgePrompt) == AgeStage
    ensures StageOf(GenderPrompt) == GenderStage
  {
    NamePromptStage();
    AgePromptStage();
    GenderPromptStage();
  }

  /** A submission the guard lets through: non-blank text, nothing loading. */
  ghost predicate Accepted(p: Page, input: string) {
    !IsBlank(input) && !p.store.isLoading
  }

  /** An accepted submission before the basic information is complete
      runs the basic-information branch. */
  lemma SubmitBasicInfo(p: Page, input: string, r: Replies)
    requires Accepted(p, input) && !p.local.basicInfoCollected
    ensures Submit(p, input, r) == Conclude(p, BasicInfoStep(p, input, r, Prepare(p, input)))
  {
  }

  /** The name stage stores the raw input as the name and moves the prompt to
      the age question; only the greeting survives in the transcript. */
  lemma NameStep(p: Page, input: string, r: Replies)
    requires Accepted(p, input) && !p.local.basicInfoCollected
    requires p.local.currentQuestion.Text? && StageOf(p.local.currentQuestion.s) == NameStage
    ensures var o := Submit(p, input, r);
      && o.state.local == p.local.(name := input, currentQuestion := Text(AgePrompt))
      && o.state.store == p.store.(chatHistory := p.store.chatHistory + [Message(Assistant, Text(NiceToMeet(input)))])
      && o.emitted == [Message(User, Text(input)), Message(Assistant, Text(NiceToMeet(input)))]
      && o.requests == []
  {
    var b := Prepare(p, input);
    SubmitBasicInfo(p, input, r);
    ConcludeEffect(p, BasicInfoStep(p, input, r, b));
  }

  /** The age stage stores the raw input as the age and moves the prompt to
      the gender question. */
  lemma AgeStep(p: Page, input: string, r: Replies)
    requires Accepted(p, input) && !p.local.basicInfoCollected
    requires p.local.currentQuestion.Text? && StageOf(p.local.currentQuestion.s) == AgeStage
    ensures var o := Submit(p, input, r);
      && o.state.local == p.local.(age := input, currentQuestion := Text(GenderPrompt))
      && o.state.store == p.store.(chatHistory := p.store.chatHistory + [Message(Assistant, Text(GenderPrompt))])
      && o.requests == []
  {
    var b := Prepare(p, input);
    SubmitBasicInfo(p, input, r);
    ConcludeEffect(p, BasicInfoStep(p, input, r, b));
  }

  /** The gender stage sends the name and age stored earlier together with
      this input.  If the call returns, the adopted list (the server's array,
      or the six fallback questions) becomes current and its first element
      is asked; if it throws, the stage is not left and the fallback is not
      used. */
  lemma GenderStep(p: Page, input: string, r: Replies)
    requires Accepted(p, input) && !p.local.basicInfoCollected
    requires p.local.currentQuestion.Text? && StageOf(p.local.currentQuestion.s) == GenderStage
    ensures var o := Submit(p, input, r);
      && o.requests == [CollectInfo(BasicInfo(p.local.name, p.local.age, input, p.category))]
      && o.state.store == p.store.(chatHistory := o.state.store.chatHistory)
      && (r.collect.Threw? ==>
            && o.state.local == p.local.(gender := input)
            && o.state.store.chatHistory == p.store.chatHistory + [Notice(FlowError)])
      && (r.collect.Returned? ==>
            var qs := Adopted(r.collect.success, r.collect.payload);
            && o.state.local == p.local.(gender := input, followUpQuestions := qs, currentQuestion := First(qs),
                                         basicInfoCollected := true, questionIndex := 0)
            && o.state.store.chatHistory == p.store.chatHistory + [Message(Assistant, First(qs))])
  {
    var b := Prepare(p, input);
    SubmitBasicInfo(p, input, r);
    ConcludeEffect(p, BasicInfoStep(p, input, r, b));
  }

  /** A follow-up answer that is not the last: one pair (current prompt,
      input) is recorded, the index moves on by one and the next question is
      asked. */
  lemma FollowUpAnswer(p: Page, input: string, r: Replies)
    requires Accepted(p, input) && p.local.basicInfoCollected
    requires p.local.questionIndex + 1 < |p.local.followUpQuestions|
    ensures var o := Submit(p, input, r);
      var next := p.local.questionIndex + 1;
      var q := p.local.followUpQuestions[next];
      && o.state.local == p.local.(questionIndex := next, currentQuestion := Text(q))
      && o.state.store == p.store.(
           responses := p.store.responses + [ResponsePair(p.local.currentQuestion, input)],
           chatHistory := p.store.chatHistory + [Message(Assistant, Text(q))])
      && o.requests == []
  {
    var b := Prepare(p, input);
    SubmitFollowUp(p, input, r);
    FollowUpContinues(p, input, r, b);
    ConcludeQuiet(p, FollowUpStep(p, input, r, b));
  }

  /** A follow-up answer with questions left completes the `try` block
      with the pair recorded, the next question current and asked. */
  lemma FollowUpContinues(p: Page, input: string, r: Replies, b: Batch<Local>)
    requires p.local.questionIndex + 1 < |p.local.followUpQuestions|
    requires b.Tracks() && b.snapshot == p.store && b.local == p.local
    ensures var a := FollowUpStep(p, input, r, b);
      var next := p.local.questionIndex + 1;
      var q := p.local.followUpQuestions[next];
      && !a.threw && a.batch.Tracks() && |a.batch.emitted| >= 1
      && a.batch.local == p.local.(questionIndex := next, currentQuestion := Text(q))
      && a.batch.store == b.store.(responses := p.store.responses + [ResponsePair(p.local.currentQuestion, input)],
                                   chatHistory := p.store.chatHistory + [Message(Assistant, Text(q))])
      && a.batch.requests == b.requests
  {
  }

  /** The profile the submit reply yields, if any. */
  function ProfileOf(r: Reply<Option<Profile>>): Option<Profile> {
    if r.Returned? && r.success then r.payload else None
  }

  /** The plan the plan reply yields, if any. */
  function PlanOf(r: Reply<string>): Option<string> {
    if r.Returned? && r.success && r.payload != "" then Some(r.payload) else None
  }

  /** What the `catch` and `finally` blocks add: on a throw the apology is
      emitted last; either way the loading flag is cleared and the rest of
      the pending state is committed as it stands. */
  lemma ConcludeEffect(p: Page, a: Attempt)
    requires a.batch.Tracks() && |a.batch.emitted| >= 1
    ensures var o := Conclude(p, a);
      var last := if a.threw then Notice(FlowError) else a.batch.emitted[|a.batch.emitted| - 1];
      && o.state.local == a.batch.local
      && o.state.store == a.batch.store.(chatHistory := a.batch.snapshot.chatHistory + [last], isLoading := false)
      && o.requests == a.batch.requests
      && o.log == if a.threw then a.batch.log + [Emitted(Notice(FlowError))] else a.batch.log
  {
  }

  /** When the `try` block completes, nothing is added and the pending
      state is committed with the loading flag cleared. */
  lemma ConcludeQuiet(p: Page, a: Attempt)
    requires a.batch.Tracks() && |a.batch.emitted| >= 1 && !a.threw
    ensures Conclude(p, a) == Outcome(Page(p.category, a.batch.store.(isLoading := false), a.batch.local),
                                      a.batch.log, a.batch.emitted, a.batch.requests)
  {
  }

  /** An accepted submission with follow-up questions left runs the
      follow-up branch. */
  lemma SubmitFollowUp(p: Page, input: string, r: Replies)
    requires Accepted(p, input) && p.local.basicInfoCollected
    requires p.local.questionIndex < |p.local.followUpQuestions|
    ensures Submit(p, input, r) == Conclude(p, FollowUpStep(p, input, r, Prepare(p, input)))
  {
  }

  /** The last answer is recorded and the index moved to the end before the
      profile is requested. */
  lemma FollowUpEnds(p: Page, input: string, r: Replies, b: Batch<Local>)
    requires p.local.questionIndex + 1 == |p.local.followUpQuestions|
    requires b.Tracks() && b.snapshot == p.store && b.local == p.local
    ensures FollowUpStep(p, input, r, b) == FinishStep(p, r, Answered(p, input, b))
  {
  }

  /** The profile request carries the captured responses; when it yields no
      profile only the apology (or nothing, on a throw) follows. */
  lemma FinishWithoutProfile(p: Page, r: Replies, b: Batch<Local>)
    requires b.Tracks() && b.snapshot == p.store && b.requests == []
    requires ProfileOf(r.submit).None?
    ensures var a := FinishStep(p, r, b);
      && a.threw == r.submit.Threw?
      && a.batch.local == b.local
      && a.batch.requests == [SubmitResponses(p.store.responses)]
      && a.batch.store == b.store.(chatHistory := a.batch.store.chatHistory)
      && |a.batch.emitted| >= 1
      && a.batch.emitted[|a.batch.emitted| - 1] == Notice(if r.submit.Threw? then AllAnswered else ProfileFailed)
  {
  }

  /** With a profile the plan request follows it; a plan is stored only on a
      successful, non-empty reply. */
  lemma FinishWithProfile(p: Page, r: Replies, b: Batch<Local>)
    requires b.Tracks() && b.snapshot == p.store && b.requests == []
    requires ProfileOf(r.submit).Some?
    ensures var a := FinishStep(p, r, b);
      var profile := ProfileOf(r.submit).value;
      && a.threw == r.plan.Threw?
      && a.batch.local == b.local
      && a.batch.requests == [SubmitResponses(p.store.responses), GeneratePlan(profile)]
      && a.batch.store == b.store.(userProfile := Some(profile),
           lifestylePlan := if PlanOf(r.plan).Some? then PlanOf(r.plan) else b.store.lifestylePlan,
           chatHistory := a.batch.store.chatHistory)
      && |a.batch.emitted| >= 1
      && a.batch.emitted[|a.batch.emitted| - 1] == Notice(
           if r.plan.Threw? then ProfileCreated else if PlanOf(r.plan).None? then PlanFailed else ViewPlanNow)
  {
    var profile := ProfileOf(r.submit).value;
    var b1 := b.Emit(Notice(AllAnswered)).Call(SubmitResponses(p.store.responses));
    var b2 := b1.SetProfile(Some(profile));
    assert FinishStep(p, r, b) == PlanStep(r, profile, b2);
    PlanStepEffect(r, profile, b2);
  }

  /** The plan request and what its reply leaves behind. */
  lemma PlanStepEffect(r: Replies, profile: Profile, b: Batch<Local>)
    requires b.Tracks()
    ensures var a := PlanStep(r, profile, b);
      && a.threw == r.plan.Threw?
      && a.batch.local == b.local
      && a.batch.requests == b.requests + [GeneratePlan(profile)]
      && a.batch.store == b.store.(
           lifestylePlan := if PlanOf(r.plan).Some? then PlanOf(r.plan) else b.store.lifestylePlan,
           chatHistory := a.batch.store.chatHistory)
      && |a.batch.emitted| >= 1
      && a.batch.emitted[|a.batch.emitted| - 1] == Notice(
           if r.plan.Threw? then ProfileCreated else if PlanOf(r.plan).None? then PlanFailed else ViewPlanNow)
  {
  }

  /** The last answer: its pair is recorded and the index reaches the end
      of the list, yet the responses sent for the profile are the ones
      captured before this submission, without that pair. */
  lemma LastAnswer(p: Page, input: string, r: Replies)
    requires Accepted(p, input) && p.local.basicInfoCollected
    requires p.local.questionIndex + 1 == |p.local.followUpQuestions|
    ensures var o := Submit(p, input, r);
      var recorded := p.store.responses + [ResponsePair(p.local.currentQuestion, input)];
      && o.state.local == p.local.(questionIndex := |p.local.followUpQuestions|)
      && o.state.store.responses == recorded
      && |o.requests| >= 1
      && o.requests[0] == SubmitResponses(recorded[..|recorded| - 1])
  {
    var recorded := p.store.responses + [ResponsePair(p.local.currentQuestion, input)];
    assert recorded[..|recorded| - 1] == p.store.responses;
    var b := Prepare(p, input);
    var b2 := Answered(p, input, b);
    SubmitFollowUp(p, input, r);
    FollowUpEnds(p, input, r, b);
    if ProfileOf(r.submit).None? {
      FinishWithoutProfile(p, r, b2);
    } else {
      FinishWithProfile(p, r, b2);
    }
    ConcludeEffect(p, FinishStep(p, r, b2));
  }

  /** When the profile request throws or yields no profile, nothing but the
      answer is stored, no plan is requested and the matching apology is the
      one message committed. */
  lemma LastAnswerWithoutProfile(p: Page, input: string, r: Replies)
    requires Accepted(p, input) && p.local.basicInfoCollected
    requires p.local.questionIndex + 1 == |p.local.followUpQuestions|
    requires ProfileOf(r.submit).None?
    ensures var o := Submit(p, input, r);
      && o.state.store == p.store.(
           responses := o.state.store.responses,
           chatHistory := p.store.chatHistory + [
             Notice(if r.submit.Threw? then FlowError else ProfileFailed)])
      && o.requests == [SubmitResponses(p.store.responses)]
  {
    var b := Prepare(p, input);
    var b2 := Answered(p, input, b);
    SubmitFollowUp(p, input, r);
    FollowUpEnds(p, input, r, b);
    FinishWithoutProfile(p, r, b2);
    ConcludeEffect(p, FinishStep(p, r, b2));
  }

  /** When the profile request yields a profile it is stored and the plan is
      requested with it; a plan is stored only on a successful, non-empty
      reply, and the profile stays stored when the plan fails. */
  lemma LastAnswerWithProfile(p: Page, input: string, r: Replies)
    requires Accepted(p, input) && p.local.basicInfoCollected
    requires p.local.questionIndex + 1 == |p.local.followUpQuestions|
    requires ProfileOf(r.submit).Some?
    ensures var o := Submit(p, input, r);
      var profile := ProfileOf(r.submit).value;
      && o.state.store.userProfile == Some(profile)
      && o.requests == [SubmitResponses(p.store.responses), GeneratePlan(profile)]
      && o.state.store.lifestylePlan == (if PlanOf(r.plan).Some? then PlanOf(r.plan) else p.store.lifestylePlan)
      && o.state.store.chatHistory == p.store.chatHistory + [Notice(
           if r.plan.Threw? then FlowError else if PlanOf(r.plan).None? then PlanFailed else ViewPlanNow)]
  {
    var b := Prepare(p, input);
    var b2 := Answered(p, input, b);
    SubmitFollowUp(p, input, r);
    FollowUpEnds(p, input, r, b);
    FinishWithProfile(p, r, b2);
    ConcludeEffect(p, FinishStep(p, r, b2));
  }

  /** Once every follow-up is answered the confirmation branch runs. */
  lemma SubmitConfirm(p: Page, input: string, r: Replies)
    requires Accepted(p, input) && p.local.basicInfoCollected
    requires p.local.questionIndex >= |p.local.followUpQuestions|
    ensures Submit(p, input, r) == Conclude(p, ConfirmStep(input, Prepare(p, input)))
  {
  }

  /** The confirmation branch either navigates or answers, never both. */
  lemma ConfirmStepEffect(input: string, b: Batch<Local>)
    requires b.Tracks()
    ensures var a := ConfirmStep(input, b);
      var yes := Contains(Lower(input), "yes");
      && !a.threw && a.batch.local == b.local && a.batch.requests == b.requests
      && a.batch.log == b.log + [if yes then Navigated(PlanPath) else Emitted(Notice(NoProblem))]
      && a.batch.store == if yes then b.store else b.store.(chatHistory := b.snapshot.chatHistory + [Notice(NoProblem)])
  {
  }

  /** Once every follow-up is answered, a submission navigates to the plan
      exactly when the lower-cased input contains "yes", whether or not a plan
      exists; otherwise it only answers with an informational message. */
  lemma Confirmation(p: Page, input: string, r: Replies)
    requires Accepted(p, input) && p.local.basicInfoCollected
    requires p.local.questionIndex >= |p.local.followUpQuestions|
    ensures var o := Submit(p, input, r);
      var yes := Contains(Lower(input), "yes");
      && o.log == [Emitted(Message(User, Text(input))),
                   if yes then Navigated(PlanPath) else Emitted(Notice(NoProblem))]
      && o.state.local == p.local
      && o.requests == []
      && o.state.store == p.store.(chatHistory := p.store.chatHistory + [
           if yes then Message(User, Text(input)) else Notice(NoProblem)])
  {
    var b := Prepare(p, input);
    SubmitConfirm(p, input, r);
    ConfirmStepEffect(input, b);
    ConcludeQuiet(p, ConfirmStep(input, b));
  }
}
