/** Properties of the guided chat over several submissions: the invariant
    tying the current prompt to the question list, the range of the
    progress value, the header bar, the three basic-information answers from a freshly opened page,
    and a run of follow-up answers. */
module ChatPageRuns {
  import opened Values
  import opened Lines
  import opened Strings
  import opened Session
  import opened Batch
  import opened ChatPage
  import opened ChatPageLemmas

  /** Once the follow-up phase has begun, the index never passes the end of
      the list and, while questions remain, the current prompt is the
      question at the index. */
  ghost predicate Consistent(l: Local) {
    l.basicInfoCollected ==>
      && l.questionIndex <= |l.followUpQuestions|
      && (l.questionIndex < |l.followUpQuestions| ==> l.currentQuestion == Text(l.followUpQuestions[l.questionIndex]))
  }

  /** The page the mount effect produces satisfies the invariant. */
  lemma OpenConsistent(category: string, store: Store)
    ensures Consistent(Open(category, store).local)
    ensures !Open(category, store).local.basicInfoCollected
  {
  }

  /** The basic-information branch either leaves the phase unfinished or
      enters the follow-up phase at index 0 with the first question asked. */
  lemma BasicInfoStepEntersAtFirst(p: Page, input: string, r: Replies, b: Batch<Local>)
    requires b.Tracks() && b.snapshot == p.store && b.local == p.local
    requires !p.local.basicInfoCollected
    ensures var l := BasicInfoStep(p, input, r, b).batch.local;
      l.basicInfoCollected ==> l.questionIndex == 0 && l.currentQuestion == First(l.followUpQuestions)
  {
  }

  /** Every submission keeps the invariant. */
  lemma SubmitKeepsConsistent(p: Page, input: string, r: Replies)
    requires Consistent(p.local)
    ensures Consistent(Submit(p, input, r).state.local)
  {
    if !Accepted(p, input) {
      assert Submit(p, input, r).state == p;
    } else if !p.local.basicInfoCollected {
      var b := Prepare(p, input);
      SubmitBasicInfo(p, input, r);
      BasicInfoStepEntersAtFirst(p, input, r, b);
      ConcludeEffect(p, BasicInfoStep(p, input, r, b));
    } else if p.local.questionIndex + 1 < |p.local.followUpQuestions| {
      FollowUpAnswer(p, input, r);
    } else if p.local.questionIndex + 1 == |p.local.followUpQuestions| {
      LastAnswer(p, input, r);
    } else {
      Confirmation(p, input, r);
    }
  }

  /** In the follow-up phase the progress value is 30 plus 70 times the
      fraction of questions answered, so it stays between 30 and 100 while the index
      does not pass the end of the list. */
  lemma ProgressWithinRange(l: Local)
    requires l.basicInfoCollected && l.questionIndex <= |l.followUpQuestions|
    ensures 30.0 <= Progress(l).value <= 100.0
    ensures l.questionIndex == |l.followUpQuestions| ==> Progress(l).value == 100.0 || |l.followUpQuestions| == 0
  {
    var n := |l.followUpQuestions|;
    if n > 0 {
      var f := l.questionIndex as real / n as real;
      assert f * (n as real) == l.questionIndex as real;
      assert 0.0 <= f <= 1.0;
    }
  }

  /** Answering one more question strictly increases the progress value. */
  lemma ProgressIncreases(l: Local)
    requires l.basicInfoCollected && l.questionIndex < |l.followUpQuestions|
    ensures Progress(l).value < Progress(l.(questionIndex := l.questionIndex + 1)).value
  {
    var n := |l.followUpQuestions| as real;
    var i := l.questionIndex as real;
    assert i / n < (i + 1.0) / n by {
      assert (i + 1.0) / n - i / n == 1.0 / n;
    }
  }

  /** The header bar counts transcript entries, not answers: a freshly
      opened page shows 40%, and each accepted submission adds 20 points up
      to the cap, whatever stage it answers. */
  lemma BarAdvances(p: Page, input: string, r: Replies, category: string, store: Store)
    requires Accepted(p, input)
    ensures BarWidth(Open(category, store)) == 40
    ensures BarWidth(Submit(p, input, r).state) == if BarWidth(p) + 20 < 100 then BarWidth(p) + 20 else 100
  {
  }

  /** `pages` is a run of submissions: each page is what the one before it
      commits on the corresponding input and replies. */
  ghost predicate Steps(pages: seq<Page>, inputs: seq<string>, rs: seq<Replies>) {
    && |pages| == |inputs| + 1 && |rs| == |inputs|
    && forall j {:trigger Submit(pages[j], inputs[j], rs[j])} :: 0 <= j < |inputs| ==> pages[j + 1] == Submit(pages[j], inputs[j], rs[j]).state
  }

  /** The rest of a run is a run. */
  lemma StepsTail(pages: seq<Page>, inputs: seq<string>, rs: seq<Replies>)
    requires Steps(pages, inputs, rs) && |inputs| >= 1
    ensures Steps(pages[1..], inputs[1..], rs[1..])
  {
    forall j | 0 <= j < |inputs| - 1
      ensures pages[1..][j + 1] == Submit(pages[1..][j], inputs[1..][j], rs[1..][j]).state
    {
      assert pages[j + 2] == Submit(pages[j + 1], inputs[j + 1], rs[j + 1]).state;
    }
  }

  /** The three basic answers from a freshly opened page.  The page the
      gender is typed on holds the name and age typed before it and the
      route's category, so by `GenderStep` those are what the request
      carries; when the call returns, the follow-up phase starts at the
      first adopted question.  The transcript then holds the two greetings
      followed by one assistant reply per answer; none of the user's own
      messages is kept. */
  lemma BasicInfoRun(pages: seq<Page>, category: string, store: Store, name: string, age: string, gender: string,
                     rs: seq<Replies>)
    requires Steps(pages, [name, age, gender], rs) && pages[0] == Open(category, store)
    requires !store.isLoading && !IsBlank(name) && !IsBlank(age) && !IsBlank(gender)
    requires rs[2].collect.Returned?
    ensures var qs := Adopted(rs[2].collect.success, rs[2].collect.payload);
      && pages[2] == Page(category, store.(chatHistory := Greeted(category, name)), Local(Text(GenderPrompt), [], 0, false, name, age, ""))
      && pages[3].local == Local(First(qs), qs, 0, true, name, age, gender)
      && pages[3].store == store.(chatHistory := Greeted(category, name) + [Message(Assistant, First(qs))])
  {
    var inputs := [name, age, gender];
    assert inputs[0] == name && inputs[1] == age && inputs[2] == gender;
    NameAt(pages, inputs, rs, category, store);
    AgeAt(pages, inputs, rs, category, store);
    GenderAt(pages, inputs, rs, category, store);
  }

  /** The transcript once the name and age are answered: the two greetings,
      the reply to the name and the gender prompt. */
  function Greeted(category: string, name: string): seq<Message> {
    [Notice(Hello(category)), Notice(AskName),
     Message(Assistant, Text(NiceToMeet(name))), Message(Assistant, Text(GenderPrompt))]
  }

  /** The first answer of a run that starts on a freshly opened page. */
  lemma NameAt(pages: seq<Page>, inputs: seq<string>, rs: seq<Replies>, category: string, store: Store)
    requires Steps(pages, inputs, rs) && |inputs| >= 1 && pages[0] == Open(category, store)
    requires !store.isLoading && !IsBlank(inputs[0])
    ensures pages[1] == Page(category, store.(chatHistory := [Notice(Hello(category)), Notice(AskName), Message(Assistant, Text(NiceToMeet(inputs[0])))]),
                             Local(Text(AgePrompt), [], 0, false, inputs[0], "", ""))
  {
    NamePromptStage();
    NameStep(pages[0], inputs[0], rs[0]);
    assert pages[1] == Submit(pages[0], inputs[0], rs[0]).state;
  }

  /** The second answer of such a run. */
  lemma AgeAt(pages: seq<Page>, inputs: seq<string>, rs: seq<Replies>, category: string, store: Store)
    requires Steps(pages, inputs, rs) && |inputs| >= 2
    requires pages[1] == Page(category, store.(chatHistory := [Notice(Hello(category)), Notice(AskName), Message(Assistant, Text(NiceToMeet(inputs[0])))]),
                              Local(Text(AgePrompt), [], 0, false, inputs[0], "", ""))
    requires !store.isLoading && !IsBlank(inputs[1])
    ensures pages[2] == Page(category, store.(chatHistory := Greeted(category, inputs[0])),
                             Local(Text(GenderPrompt), [], 0, false, inputs[0], inputs[1], ""))
  {
    AgePromptStage();
    AgeStep(pages[1], inputs[1], rs[1]);
    assert pages[2] == Submit(pages[1], inputs[1], rs[1]).state;
  }

  /** The third answer of such a run, when the call returns. */
  lemma GenderAt(pages: seq<Page>, inputs: seq<string>, rs: seq<Replies>, category: string, store: Store)
    requires Steps(pages, inputs, rs) && |inputs| >= 3
    requires pages[2] == Page(category, store.(chatHistory := Greeted(category, inputs[0])),
                              Local(Text(GenderPrompt), [], 0, false, inputs[0], inputs[1], ""))
    requires !store.isLoading && !IsBlank(inputs[2]) && rs[2].collect.Returned?
    ensures var qs := Adopted(rs[2].collect.success, rs[2].collect.payload);
      && pages[3].local == Local(First(qs), qs, 0, true, inputs[0], inputs[1], inputs[2])
      && pages[3].store == store.(chatHistory := Greeted(category, inputs[0]) + [Message(Assistant, First(qs))])
  {
    GenderPromptStage();
    GenderStep(pages[2], inputs[2], rs[2]);
    assert pages[3] == Submit(pages[2], inputs[2], rs[2]).state;
  }

  /** The pairs a run of answers records against the questions asked. */
  function Answers(questions: seq<string>, inputs: seq<string>): seq<ResponsePair>
    requires |questions| == |inputs|
  {
    seq(|inputs|, j requires 0 <= j < |inputs| => ResponsePair(Text(questions[j]), inputs[j]))
  }

  /** The assistant messages asking the given questions. */
  function Asked(questions: seq<string>): seq<Message> {
    seq(|questions|, j requires 0 <= j < |questions| => Message(Assistant, Text(questions[j])))
  }

  /** Answering k follow-up questions, none of them the last: the k pairs
      (question at the index, answer) are recorded in order, the index moves
      on by k, and the transcript gains the k questions asked next, while the
      answers themselves are not kept in it. */
  lemma {:induction false} FollowUpRun(pages: seq<Page>, inputs: seq<string>, rs: seq<Replies>)
    requires Steps(pages, inputs, rs)
    requires pages[0].local.basicInfoCollected && Consistent(pages[0].local) && !pages[0].store.isLoading
    requires pages[0].local.questionIndex + |inputs| < |pages[0].local.followUpQuestions|
    requires forall j :: 0 <= j < |inputs| ==> !IsBlank(inputs[j])
    ensures var p := pages[0];
      var q := pages[|inputs|];
      var i := p.local.questionIndex;
      var k := |inputs|;
      var list := p.local.followUpQuestions;
      && q.local == p.local.(questionIndex := i + k, currentQuestion := Text(list[i + k]))
      && q.store == p.store.(
           responses := p.store.responses + Answers(list[i..i + k], inputs),
           chatHistory := p.store.chatHistory + Asked(list[i + 1..i + k + 1]))
    decreases |inputs|
  {
    var p := pages[0];
    var i := p.local.questionIndex;
    var list := p.local.followUpQuestions;
    var k := |inputs|;
    if k == 0 {
      assert Answers(list[i..i], inputs) == [];
      assert Asked(list[i + 1..i + 1]) == [];
    } else {
      StepsTail(pages, inputs, rs);
      FirstAnswer(pages, inputs, rs);
      FollowUpRun(pages[1..], inputs[1..], rs[1..]);
      RunCompose(p, pages[1], pages[k], inputs);
    }
  }

  /** The first step of a run of follow-up answers, read off the run. */
  lemma FirstAnswer(pages: seq<Page>, inputs: seq<string>, rs: seq<Replies>)
    requires Steps(pages, inputs, rs) && |inputs| >= 1
    requires pages[0].local.basicInfoCollected && Consistent(pages[0].local) && !pages[0].store.isLoading
    requires pages[0].local.questionIndex + 1 < |pages[0].local.followUpQuestions|
    requires !IsBlank(inputs[0])
    ensures var p := pages[0];
      var i := p.local.questionIndex;
      var list := p.local.followUpQuestions;
      && pages[1].local == p.local.(questionIndex := i + 1, currentQuestion := Text(list[i + 1]))
      && pages[1].store == p.store.(responses := p.store.responses + [ResponsePair(Text(list[i]), inputs[0])],
                                    chatHistory := p.store.chatHistory + [Message(Assistant, Text(list[i + 1]))])
  {
    var p := pages[0];
    assert p.local.currentQuestion == Text(p.local.followUpQuestions[p.local.questionIndex]);
    FollowUpAnswer(p, inputs[0], rs[0]);
    assert pages[1] == Submit(p, inputs[0], rs[0]).state;
  }

  /** One answer followed by a run of k - 1 answers is a run of k answers. */
  lemma RunCompose(p: Page, p1: Page, q: Page, inputs: seq<string>)
    requires |inputs| >= 1
    requires p.local.questionIndex + |inputs| < |p.local.followUpQuestions|
    requires var i := p.local.questionIndex;
      var list := p.local.followUpQuestions;
      && p1.local == p.local.(questionIndex := i + 1, currentQuestion := Text(list[i + 1]))
      && p1.store == p.store.(responses := p.store.responses + [ResponsePair(Text(list[i]), inputs[0])],
                              chatHistory := p.store.chatHistory + [Message(Assistant, Text(list[i + 1]))])
    requires var i := p1.local.questionIndex;
      var k := |inputs| - 1;
      var list := p1.local.followUpQuestions;
      && q.local == p1.local.(questionIndex := i + k, currentQuestion := Text(list[i + k]))
      && q.store == p1.store.(
           responses := p1.store.responses + Answers(list[i..i + k], inputs[1..]),
           chatHistory := p1.store.chatHistory + Asked(list[i + 1..i + k + 1]))
    ensures var i := p.local.questionIndex;
      var k := |inputs|;
      var list := p.local.followUpQuestions;
      && q.local == p.local.(questionIndex := i + k, currentQuestion := Text(list[i + k]))
      && q.store == p.store.(
           responses := p.store.responses + Answers(list[i..i + k], inputs),
           chatHistory := p.store.chatHistory + Asked(list[i + 1..i + k + 1]))
  {
    var i := p.local.questionIndex;
    var list := p.local.followUpQuestions;
    var k := |inputs|;
    var answered := list[i..i + k];
    assert answered[1..] == list[i + 1..i + k];
    AnswersCons(answered, inputs);
    var asked := list[i + 1..i + k + 1];
    assert asked[1..] == list[i + 2..i + k + 1];
    AskedCons(asked);
  }

  /** Peels the first pair off `Answers`. */
  lemma AnswersCons(questions: seq<string>, inputs: seq<string>)
    requires |questions| == |inputs| >= 1
    ensures Answers(questions, inputs) == [ResponsePair(Text(questions[0]), inputs[0])] + Answers(questions[1..], inputs[1..])
  {
  }

  /** Peels the first message off `Asked`. */
  lemma AskedCons(questions: seq<string>)
    requires |questions| >= 1
    ensures Asked(questions) == [Message(Assistant, Text(questions[0]))] + Asked(questions[1..])
  {
  }
}
