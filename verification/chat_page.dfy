/** The guided consultation chat: name, age and gender, then the follow-up
    questions one by one, then the confirmation prompt.  While the basic
    information is incomplete the stage is inferred from the text of the
    current prompt.

    `Submit` is one run of the submit handler.  Everything the server does
    is an input (`Replies`); which of the three replies is consulted depends
    on the branch taken. */
module ChatPage {
  import opened Values
  import opened Lines
  import opened Strings
  import opened Session
  import opened Api
  import opened Batch

  const NamePrompt := "What's your name?"
  const AgePrompt := "How old are you?"
  const GenderPrompt := "What is your gender?"
  const PlanPath := "/plan"

  /** Used when the server's answer is not a successful array. */
  const FallbackQuestions: seq<string> := [
    "What is your typical daily routine?",
    "Do you have any existing health conditions?",
    "What is your current diet like?",
    "How would you describe your stress levels?",
    "Do you exercise regularly?",
    "What are your main health goals?"
  ]

  /** The page's own state variables. */
  datatype Local = Local(
    currentQuestion: JsText,
    followUpQuestions: seq<string>,
    questionIndex: nat,
    basicInfoCollected: bool,
    name: string,
    age: string,
    gender: string)

  /** `category` is the route parameter. */
  datatype Page = Page(category: string, store: Store, local: Local)

  /** What the server calls of one submission return, one per call site. */
  datatype Replies = Replies(collect: Reply<FollowUps>, submit: Reply<Option<Profile>>, plan: Reply<string>)

  /** The try block's result: the batch so far and whether it threw. */
  datatype Attempt = Attempt(batch: Batch<Local>, threw: bool)

  /** The stage chosen by the substring tests, first match wins. */
  datatype Stage = NameStage | AgeStage | GenderStage | NoStage

  function StageOf(prompt: string): (st: Stage)
    ensures st == NameStage <==> Contains(prompt, "name")
    ensures st == AgeStage <==> !Contains(prompt, "name") && Contains(prompt, "old")
    ensures st == GenderStage <==> !Contains(prompt, "name") && !Contains(prompt, "old") && Contains(prompt, "gender")
  {
    if Contains(prompt, "name") then NameStage
    else if Contains(prompt, "old") then AgeStage
    else if Contains(prompt, "gender") then GenderStage
    else NoStage
  }

  function NiceToMeet(name: string): string {
    "Nice to meet you, " + name + "! How old are you?"
  }

  /** The page after mounting: fresh local state, the two greetings written
      over the transcript, and the name prompt current. */
  function Open(category: string, store: Store): (p: Page)
    ensures p.store == store.(chatHistory := p.store.chatHistory)
    ensures p.store.chatHistory == [Notice(Hello(category)), Notice(AskName)]
    ensures p.local.currentQuestion == Text(NamePrompt) && !p.local.basicInfoCollected
    ensures p.local.name == p.local.age == p.local.gender == ""
    ensures p.local.questionIndex == 0 && p.local.followUpQuestions == []
  {
    var history := [Notice(Hello(category)), Notice(AskName)];
    Page(category, store.(chatHistory := history), Local(Text(NamePrompt), [], 0, false, "", "", ""))
  }

  /** `later` extends `earlier`: the first message emitted stays first. */
  ghost predicate Keeps(earlier: Batch<Local>, later: Batch<Local>) {
    |earlier.emitted| >= 1 ==> |later.emitted| >= 1 && later.emitted[0] == earlier.emitted[0]
  }

  /** The first element of the list, `undefined` when it is empty. */
  function First(qs: seq<string>): JsText {
    if |qs| > 0 then Text(qs[0]) else Undefined
  }

  /** The list the gender step adopts: the server's array when the call
      succeeded with one, the fixed fallback otherwise. */
  function Adopted(success: bool, payload: FollowUps): (qs: seq<string>)
    ensures success && payload.QuestionList? ==> qs == payload.items
    ensures !(success && payload.QuestionList?) ==> qs == FallbackQuestions
  {
    if success && payload.QuestionList? then payload.items else FallbackQuestions
  }

  /** Name, age and gender stages. */
  function BasicInfoStep(p: Page, input: string, r: Replies, b: Batch<Local>): (a: Attempt)
    requires b.Tracks() && b.snapshot == p.store
    ensures a.batch.Tracks() && a.batch.snapshot == p.store
    ensures Keeps(b, a.batch) && a.batch.store.category == b.store.category
  {
    var l := p.local;
    match l.currentQuestion
    case Undefined =>
      // `includes` on `undefined` throws a TypeError.
      Attempt(b, true)
    case Text(prompt) =>
      match StageOf(prompt)
      case NameStage =>
        var b1 := b.Set(b.local.(name := input)).Emit(Message(Assistant, Text(NiceToMeet(input))));
        Attempt(b1.Set(b1.local.(currentQuestion := Text(AgePrompt))), false)
      case AgeStage =>
        var b1 := b.Set(b.local.(age := input)).Emit(Message(Assistant, Text(GenderPrompt)));
        Attempt(b1.Set(b1.local.(currentQuestion := Text(GenderPrompt))), false)
      case GenderStage =>
        var b1 := b.Set(b.local.(gender := input)).Emit(Notice(Acknowledgement));
        var b2 := b1.Call(CollectInfo(BasicInfo(l.name, l.age, input, p.category)));
        (match r.collect
         case Threw => Attempt(b2, true)
         case Returned(success, payload) =>
           var qs := Adopted(success, payload);
           var b3 := b2.Set(b2.local.(followUpQuestions := qs, currentQuestion := First(qs)));
           var b4 := b3.Emit(Message(Assistant, First(qs)));
           Attempt(b4.Set(b4.local.(basicInfoCollected := true, questionIndex := 0)), false))
      case NoStage => Attempt(b, false)
  }

  /** After the profile was stored: the plan request and its outcome. */
  function PlanStep(r: Replies, profile: Profile, b: Batch<Local>): (a: Attempt)
    requires b.Tracks()
    ensures a.batch.Tracks() && a.batch.snapshot == b.snapshot
    ensures Keeps(b, a.batch) && a.batch.store.category == b.store.category
  {
    var b1 := b.Emit(Notice(ProfileCreated)).Call(GeneratePlan(profile));
    match r.plan
    case Threw => Attempt(b1, true)
    case Returned(success, plan) =>
      if success && plan != "" then
        var b2 := b1.SetPlan(Some(plan));
        Attempt(b2.Emit(Notice(PlanReady)).Emit(Notice(ViewPlanNow)), false)
      else
        Attempt(b1.Emit(Notice(PlanFailed)), false)
  }

  /** After the last answer: the profile request and its outcome. */
  function FinishStep(p: Page, r: Replies, b: Batch<Local>): (a: Attempt)
    requires b.Tracks() && b.snapshot == p.store
    ensures a.batch.Tracks() && a.batch.snapshot == p.store
    ensures Keeps(b, a.batch) && a.batch.store.category == b.store.category
  {
    var b1 := b.Emit(Notice(AllAnswered)).Call(SubmitResponses(p.store.responses));
    match r.submit
    case Threw => Attempt(b1, true)
    case Returned(success, profile) =>
      if success && profile.Some? then
        PlanStep(r, profile.value, b1.SetProfile(profile))
      else
        Attempt(b1.Emit(Notice(ProfileFailed)), false)
  }

  /** The answer's own writes: the pair (current prompt, answer) recorded
      and the index moved past it. */
  function Answered(p: Page, input: string, b: Batch<Local>): (b2: Batch<Local>)
    requires b.Tracks() && b.snapshot == p.store
    ensures b2.Tracks() && b2.snapshot == p.store
    ensures b2.store == b.store.(responses := p.store.responses + [ResponsePair(p.local.currentQuestion, input)])
    ensures b2.local == b.local.(questionIndex := p.local.questionIndex + 1)
    ensures b2.log == b.log && b2.emitted == b.emitted && b2.requests == b.requests
  {
    var b1 := b.Record(p.local.currentQuestion, input);
    b1.Set(b1.local.(questionIndex := p.local.questionIndex + 1))
  }

  /** One follow-up answer. */
  function FollowUpStep(p: Page, input: string, r: Replies, b: Batch<Local>): (a: Attempt)
    requires p.local.questionIndex < |p.local.followUpQuestions|
    requires b.Tracks() && b.snapshot == p.store
    ensures a.batch.Tracks() && a.batch.snapshot == p.store
    ensures Keeps(b, a.batch) && a.batch.store.category == b.store.category
  {
    var l := p.local;
    var b2 := Answered(p, input, b);
    var next := l.questionIndex + 1;
    if next < |l.followUpQuestions| then
      var q := l.followUpQuestions[next];
      var b3 := b2.Set(b2.local.(currentQuestion := Text(q)));
      Attempt(b3.Emit(Message(Assistant, Text(q))), false)
    else
      FinishStep(p, r, b2)
  }

  /** Once every follow-up is answered: go to the plan on a "yes". */
  function ConfirmStep(input: string, b: Batch<Local>): (a: Attempt)
    requires b.Tracks()
    ensures a.batch.Tracks() && a.batch.snapshot == b.snapshot
    ensures Keeps(b, a.batch) && a.batch.store.category == b.store.category
  {
    if Contains(Lower(input), "yes") then Attempt(b.Navigate(PlanPath), false)
    else Attempt(b.Emit(Notice(NoProblem)), false)
  }

  /** The handler's first writes: the user's message, then the loading flag. */
  function Prepare(p: Page, input: string): (b: Batch<Local>)
    ensures b.Tracks() && b.snapshot == p.store && b.local == p.local
    ensures b.store == p.store.(chatHistory := p.store.chatHistory + [Message(User, Text(input))], isLoading := true)
    ensures b.log == [Emitted(Message(User, Text(input)))]
    ensures b.emitted == [Message(User, Text(input))] && b.requests == []
  {
    Begin(p.store, p.local).Emit(Message(User, Text(input))).Loading(true)
  }

  /** The `try` block: the branch chosen by the phase. */
  function Dispatch(p: Page, input: string, r: Replies, b: Batch<Local>): (a: Attempt)
    requires b.Tracks() && b.snapshot == p.store
    ensures a.batch.Tracks() && a.batch.snapshot == p.store
    ensures Keeps(b, a.batch) && a.batch.store.category == b.store.category
  {
    var l := p.local;
    if !l.basicInfoCollected then BasicInfoStep(p, input, r, b)
    else if l.questionIndex < |l.followUpQuestions| then FollowUpStep(p, input, r, b)
    else ConfirmStep(input, b)
  }

  /** The `catch` and `finally` blocks, and the commit of the pending state. */
  function Conclude(p: Page, a: Attempt): (o: Outcome<Page>)
    requires a.batch.Tracks() && |a.batch.emitted| >= 1
    ensures |o.emitted| >= 1 && o.emitted[0] == a.batch.emitted[0]
    ensures o.state.store.chatHistory == a.batch.snapshot.chatHistory + [o.emitted[|o.emitted| - 1]]
    ensures !o.state.store.isLoading && o.state.category == p.category
    ensures o.state.store.category == a.batch.store.category
  {
    var caught := if a.threw then a.batch.Emit(Notice(FlowError)) else a.batch;
    var done := caught.Loading(false);
    done.Commit(Page(p.category, done.store, done.local))
  }

  /** One run of the submit handler: the guard, the user's message, the
      stage's work inside `try`, the apology in `catch`, and the loading
      flag cleared in `finally`.  Every `addChatMessage` call writes the
      snapshot's transcript plus its own message, so the transcript grows by
      exactly one message, the last one emitted. */
  function Submit(p: Page, input: string, r: Replies): (o: Outcome<Page>)
    ensures IsBlank(input) || p.store.isLoading ==> o == Outcome(p, [], [], [])
    ensures !IsBlank(input) && !p.store.isLoading ==>
      && |o.emitted| >= 1
      && o.emitted[0] == Message(User, Text(input))
      && o.state.store.chatHistory == p.store.chatHistory + [o.emitted[|o.emitted| - 1]]
      && !o.state.store.isLoading
    ensures o.state.category == p.category && o.state.store.category == p.store.category
  {
    if IsBlank(input) || p.store.isLoading then Outcome(p, [], [], [])
    else
      var b := Prepare(p, input);
      var a := Dispatch(p, input, r, b);
      assert |a.batch.emitted| >= 1 && a.batch.emitted[0] == Message(User, Text(input));
      Conclude(p, a)
  }

  /** The width, in percent, of the bar drawn in the page header: twenty
      points per transcript entry, capped at 100. */
  function BarWidth(p: Page): (w: nat)
    ensures w <= 100
    ensures w == 100 <==> |p.store.chatHistory| >= 5
    ensures w < 100 ==> w == 20 * |p.store.chatHistory|
  {
    var width := |p.store.chatHistory| * 20;
    if width < 100 then width else 100
  }

  /** The value the progress effect stores, or `None` when the effect leaves
      the previous value in place (before a name is known, or when the three
      basic fields are filled in some other pattern).  Real arithmetic stands
      for JavaScript's floating point. */
  function Progress(l: Local): (r: Option<real>)
    ensures !l.basicInfoCollected ==> r in {None, Some(10.0), Some(20.0), Some(30.0)}
    ensures !l.basicInfoCollected && l.name == "" ==> r == None
    ensures !l.basicInfoCollected && l.name != "" && l.age == "" ==> r == (if l.gender == "" then Some(10.0) else None)
    ensures !l.basicInfoCollected && l.name != "" && l.age != "" && l.gender == "" ==> r == Some(20.0)
    ensures !l.basicInfoCollected && l.name != "" && l.age != "" && l.gender != "" ==> r == Some(30.0)
    ensures l.basicInfoCollected ==> r.Some? && (|l.followUpQuestions| == 0 ==> r == Some(30.0))
    ensures l.basicInfoCollected && |l.followUpQuestions| > 0 ==>
      (r.value - 30.0) * (|l.followUpQuestions| as real) == 70.0 * (l.questionIndex as real)
  {
    if !l.basicInfoCollected then
      if l.name != "" && l.age == "" && l.gender == "" then Some(10.0)
      else if l.name != "" && l.age != "" && l.gender == "" then Some(20.0)
      else if l.name != "" && l.age != "" && l.gender != "" then Some(30.0)
      else None
    else if |l.followUpQuestions| > 0 then
      Some(30.0 + (l.questionIndex as real / |l.followUpQuestions| as real) * 70.0)
    else
      Some(30.0)
  }
}
