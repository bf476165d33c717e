/** The pure parts of two server routes: how `/api/collect-info` shapes the
    model's reply, and how `/api/submit-responses` builds its prompt and
    digs a JSON object out of the model's answer. */
module Routes {
  import opened Values
  import opened Strings
  import opened Responder
  import opened ModelCall

  /** A JSON value as far as the browser tells values apart: an array (of
      question strings), a string, or anything else. */
  datatype Json = Array(items: seq<string>) | Str(s: string) | OtherJson

  /** The body `/api/collect-info` sends back. */
  datatype CollectBody = CollectBody(success: bool, followUpQuestions: Json)

  /** The user prompt of `/api/collect-info` around `infoJson`, the
      serialised basic information. */
  function CollectPrompt(infoJson: string): string {
    "Initial user information:\n" + infoJson + "\n\n" + QuestionsPhrase +
    " to better understand this individual from an AYUSH perspective."
  }

  /** The conversation sent for the follow-up questions; `system` is the
      fixed practitioner instruction. */
  function CollectMessages(system: string, infoJson: string): seq<ChatMsg> {
    [ChatMsg("system", system), ChatMsg("user", CollectPrompt(infoJson))]
  }

  /** The route's result for the model text `raw`, where `parsed` is what
      `json.loads(raw)` gives (`None` when it raises): the parsed value if
      there is one, the raw text otherwise, and success in every case. */
  function CollectInfoBody(raw: string, parsed: Option<Json>): (b: CollectBody)
    ensures b.success
    ensures b.followUpQuestions.Array? <==> parsed.Some? && parsed.value.Array?
    ensures parsed.None? ==> b.followUpQuestions == Str(raw)
    ensures parsed.Some? ==> b.followUpQuestions == parsed.value
  {
    CollectBody(true, if parsed.Some? then parsed.value else Str(raw))
  }

  /** The request for questions as the prompt writes it. */
  const QuestionsPhrase := "Generate" + " personalized follow-up questions"

  /** Folding the phrase gives the responder's needle. */
  lemma QuestionsPhraseFolds()
    ensures Lower(QuestionsPhrase) == QuestionsNeedle
  {
    var tail := " personalized follow-up questions";
    LowerAppend("Generate", tail);
    assert Lower("Generate") == "generate";
    forall i | 0 <= i < |tail|
      ensures !('A' <= tail[i] <= 'Z')
    {
      assert tail[i] in tail;
    }
    LowerFixes(tail);
  }

  /** Whatever the basic information holds, the offline responder answers
      the follow-up prompt with its ten questions, so an authentication
      failure still yields a question list. */
  lemma OfflineCollectGetsQuestions(system: string, infoJson: string, complete: string -> Completion)
    requires complete(DefaultModel).Failed? && IsAuthError(complete(DefaultModel).error)
    ensures LocalResponse(CollectMessages(system, infoJson)) == TenQuestions
    ensures CallModel(CollectMessages(system, infoJson), DefaultModel, complete).result == Offline(TenQuestions)
  {
    LastContentIsLast(CollectMessages(system, infoJson), "user", 1);
    QuestionsPhraseFolds();
    ContainsSelf(QuestionsNeedle);
    ContainsInFoldedMiddle("Initial user information:\n" + infoJson + "\n\n", QuestionsPhrase,
                           " to better understand this individual from an AYUSH perspective.", QuestionsNeedle);
  }

  /** One entry of the `responses` list as the server reads it; a missing
      key is `None`. */
  datatype Entry = Entry(question: Option<string>, answer: Option<string>)

  /** `resp.get(key, '')`. */
  function Field(v: Option<string>): string {
    if v.Some? then v.value else ""
  }

  function Block(e: Entry): string {
    "Question: " + Field(e.question) + "\nAnswer: " + Field(e.answer) + "\n\n"
  }

  /** The blocks for the entries, in order. */
  function Blocks(es: seq<Entry>): string
    decreases |es|
  {
    if es == [] then "" else Block(es[0]) + Blocks(es[1..])
  }

  const ProfileHeader := "Based on the following user responses, " + ProfileNeedle + " for AYUSH lifestyle planning:\n\n"
  const ProfileTrailer := "Create a detailed JSON structure with relevant fields extracted from these responses, including prakriti assessment, dosha imbalances, and lifestyle factors."

  /** The profile prompt: header, one block per entry, trailer. */
  function ProfilePrompt(es: seq<Entry>): string {
    ProfileHeader + Blocks(es) + ProfileTrailer
  }

  /** Blocks of a concatenation are the concatenated blocks: entries are
      rendered in order and none is dropped or repeated. */
  lemma {:induction false} BlocksAppend(a: seq<Entry>, b: seq<Entry>)
    ensures Blocks(a + b) == Blocks(a) + Blocks(b)
    decreases |a|
  {
    if a == [] {
      assert a + b == b;
    } else {
      assert (a + b)[1..] == a[1..] + b;
      BlocksAppend(a[1..], b);
    }
  }

  /** The blocks of one more entry end with that entry's block. */
  lemma BlocksSnoc(es: seq<Entry>, i: nat)
    requires i < |es|
    ensures Blocks(es[..i + 1]) == Blocks(es[..i]) + Block(es[i])
  {
    BlocksAppend(es[..i], [es[i]]);
    assert es[..i + 1] == es[..i] + [es[i]];
    assert Blocks([es[i]]) == Block(es[i]) + "";
  }

  /** The loop in `submit_responses` builds the prompt one block at a time. */
  method BuildProfilePrompt(es: seq<Entry>) returns (prompt: string)
    ensures prompt == ProfilePrompt(es)
  {
    prompt := ProfileHeader;
    for i := 0 to |es|
      invariant prompt == ProfileHeader + Blocks(es[..i])
    {
      BlocksSnoc(es, i);
      AppendAssoc(ProfileHeader, Blocks(es[..i]), Block(es[i]));
      prompt := prompt + Block(es[i]);
    }
    assert es[..|es|] == es;
    prompt := prompt + ProfileTrailer;
  }

  /** Entry `k`'s block sits between the blocks before and after it. */
  lemma BlocksSplit(es: seq<Entry>, k: nat)
    requires k < |es|
    ensures Blocks(es) == Blocks(es[..k]) + Block(es[k]) + Blocks(es[k + 1..])
  {
    assert es == es[..k] + es[k..];
    BlocksAppend(es[..k], es[k..]);
    assert es[k..][1..] == es[k + 1..];
  }

  /** The conversation sent for the profile. */
  function ProfileMessages(system: string, es: seq<Entry>): seq<ChatMsg> {
    [ChatMsg("system", system), ChatMsg("user", ProfilePrompt(es))]
  }

  /** Offline, the profile prompt gets the placeholder profile unless the
      prompt also holds the follow-up trigger phrase, which is checked first. */
  lemma OfflineProfile(system: string, es: seq<Entry>)
    ensures var t := Lower(ProfilePrompt(es));
      LocalResponse(ProfileMessages(system, es)) == (if Contains(t, QuestionsNeedle) then TenQuestions else ProfileSkeleton)
  {
    LastContentIsLast(ProfileMessages(system, es), "user", 1);
    ProfileNeedleFolded();
    ContainsSelf(ProfileNeedle);
    ContainsInFoldedMiddle("Based on the following user responses, ", ProfileNeedle,
                           " for AYUSH lifestyle planning:\n\n", ProfileNeedle);
    LowerAppend(ProfileHeader + Blocks(es), ProfileTrailer);
    LowerAppend(ProfileHeader, Blocks(es));
    ContainsInPrefix(Lower(ProfileHeader), Lower(Blocks(es)), ProfileNeedle);
    ContainsInPrefix(Lower(ProfileHeader) + Lower(Blocks(es)), Lower(ProfileTrailer), ProfileNeedle);
  }

  /** An answer that mentions the follow-up trigger phrase, in any case,
      makes the offline responder return the question list in place of a
      profile. */
  lemma AnswerHijacksOfflineProfile(system: string, es: seq<Entry>, k: nat)
    requires k < |es| && Contains(Lower(Field(es[k].answer)), QuestionsNeedle)
    ensures LocalResponse(ProfileMessages(system, es)) == TenQuestions
  {
    LastContentIsLast(ProfileMessages(system, es), "user", 1);
    var e := es[k];
    ContainsInFoldedMiddle("Question: " + Field(e.question) + "\nAnswer: ", Field(e.answer), "\n\n", QuestionsNeedle);
    BlocksSplit(es, k);
    ContainsInFoldedMiddle(Blocks(es[..k]), Block(e), Blocks(es[k + 1..]), QuestionsNeedle);
    ContainsInFoldedMiddle(ProfileHeader, Blocks(es), ProfileTrailer, QuestionsNeedle);
  }

  /** The position of the first `c` in `s`, or `|s|` when there is none. */
  function IndexOf(s: string, c: char): (r: nat)
    ensures r <= |s| && (r < |s| ==> s[r] == c)
    ensures forall k :: 0 <= k < r ==> s[k] != c
    decreases |s|
  {
    if s == [] then 0 else if s[0] == c then 0 else 1 + IndexOf(s[1..], c)
  }

  /** The position of the last `c` in `s`, or -1 when there is none. */
  function LastIndexOf(s: string, c: char): (r: int)
    ensures -1 <= r < |s| && (r >= 0 ==> s[r] == c)
    ensures forall k :: r < k < |s| ==> s[k] != c
    decreases |s|
  {
    if s == [] then -1 else if s[|s| - 1] == c then |s| - 1 else LastIndexOf(s[..|s| - 1], c)
  }

  /** A `{` somewhere before a `}`. */
  predicate HasBracedSpan(s: string) {
    exists i, j :: 0 <= i < j < |s| && s[i] == '{' && s[j] == '}'
  }

  /** The text handed to `json.loads`: the model's answer itself when, once
      stripped, it starts with `{`; otherwise the greedy match of `\{.*\}`,
      from the first `{` to the last `}`, when there is one. */
  function ExtractJson(s: string): (r: string)
    ensures StartsWith(PyStrip(s), "{") ==> r == s
    ensures r != s ==> exists i, j :: (
      && 0 <= i < j < |s| && r == s[i..j + 1]
      && s[i] == '{' && s[j] == '}'
      && (forall k :: 0 <= k < i ==> s[k] != '{')
      && (forall k :: j < k < |s| ==> s[k] != '}'))
  {
    if StartsWith(PyStrip(s), "{") then s
    else
      var i := IndexOf(s, '{');
      var j := LastIndexOf(s, '}');
      if i < j then s[i..j + 1] else s
  }

  /** The answer is replaced exactly when its stripped form does not start
      with `{` and some `{` comes before some `}`; a replaced answer is
      never the whole text. */
  lemma ExtractJsonRewrites(s: string)
    ensures ExtractJson(s) != s <==> !StartsWith(PyStrip(s), "{") && HasBracedSpan(s)
  {
    if !StartsWith(PyStrip(s), "{") {
      var i := IndexOf(s, '{');
      var j := LastIndexOf(s, '}');
      if HasBracedSpan(s) {
        var a, b :| 0 <= a < b < |s| && s[a] == '{' && s[b] == '}';
        assert i <= a && b <= j;
        if s[i..j + 1] == s {
          assert i == 0;
          StrippedStartsWithBrace(s);
          assert false;
        }
      }
    }
  }

  /** A text that starts with `{` still starts with it once stripped. */
  lemma StrippedStartsWithBrace(s: string)
    requires |s| > 0 && s[0] == '{'
    ensures StartsWith(PyStrip(s), "{")
  {
    assert TrimStart(s, IsPySpace) == s;
    TrimEndRemovesSuffix(s, IsPySpace);
  }

  /** Extracting twice is extracting once: what is extracted already starts
      with `{`. */
  lemma ExtractJsonIdempotent(s: string)
    ensures ExtractJson(ExtractJson(s)) == ExtractJson(s)
  {
    var r := ExtractJson(s);
    if r != s {
      StrippedStartsWithBrace(r);
    }
  }
}
