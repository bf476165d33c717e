# AyurAI guided consultation: a Dafny model

AyurAI is an AYUSH lifestyle coach. A React front end walks the user through a guided chat:

- name, age and gender;
- then a list of follow-up questions;
- then a confirmation prompt.

A Flask server asks a hosted language model for the follow-up questions, the structured profile and the plan. When the model service rejects the credentials, it answers from an offline responder instead.

This project models the parts of that system that carry logic:

- **Session store** (`Session`). The shared user-data context: its initial value, `addResponse`, `addChatMessage` and `resetData`.
- **Handler runs** (`Batch`). One run of an event handler under React's state model. Every setter replaces the pending value of its variable, and the context helpers build their lists from the values captured when the handler was created. So the last write wins, and a handler that emits several chat messages commits the captured transcript plus the last one only.
- **Guided chat** (`ChatPage`, `ChatPageLemmas`, `ChatPageRuns`). The submit handler as a pure function `Submit(page, input, replies)`, and the progress rule.
  - The three server calls are inputs: each either returns a body or throws.
  - Each branch of the handler gets a lemma stating its exact effect.
  - Runs of several submissions are stated as sequences of pages.
- **Question widget** (`ChatInterface`). The free-form Q&A widget, a stand-alone component that no page mounts: its guard and its three endings.
- **Offline responder** (`Responder`). `generate_local_response`.
- **Model-call fallback** (`ModelCall`). The error branch of `call_github_model`; the model client is a function parameter.
- **Server routes** (`Routes`). Shaping of the `/api/collect-info` reply; the profile prompt and the JSON extraction of `/api/submit-responses`.
- **Vector-store batching** (`VectorDb`). The batch loop of `create_vector_db`.
- **Cross-tier facts** (`Wiring`). What the guided chat does with what `/api/collect-info` really sends.

Shared pieces:

- `Values`: `Option`, and `JsText`, a string or `undefined`.
- `Lines`: the fixed assistant lines, by name.
- `Strings`: substring search, ASCII case folding, and the JavaScript `trim` and Python `strip` whitespace sets.
- `Api`: the requests and what a call can come back with.

## Model

| member | source | states |
|---|---|---|
| Session.AddResponse | frontend/src/contexts/UserDataContext.jsx:15-17 | the new answer list is the captured list, unchanged, followed by exactly one `{question, answer}` pair |
| Session.AddChatMessage | frontend/src/contexts/UserDataContext.jsx:19-21 | the new transcript is the captured transcript, unchanged, followed by exactly one `{role, content}` entry |
| Session.ResetData | frontend/src/contexts/UserDataContext.jsx:23-28 | profile and plan become null, answers and transcript become empty; category and loading flag keep their values |
| Session.ResetRestoresInitial | frontend/src/contexts/UserDataContext.jsx:8-13 | a reset store equals the initial store except for the category and loading flag it keeps; resetting the initial store changes nothing |
| Session.ResetIdempotent | frontend/src/contexts/UserDataContext.jsx:23-28 | resetting twice equals resetting once |
| Batch.Begin | frontend/src/pages/ChatPage.jsx:89-90 | a handler starts from its snapshot with nothing pending and nothing done |
| Batch.Emit | frontend/src/contexts/UserDataContext.jsx:19-21 | a chat-message write replaces the pending transcript with snapshot + [message], logs the message and keeps the committed-transcript invariant |
| Batch.Record | frontend/src/contexts/UserDataContext.jsx:15-17 | an answer write keeps the committed-transcript invariant; the pending answers become snapshot answers + [pair], built from the snapshot and not from earlier writes |
| Batch.Call | frontend/src/services/api.js:5-13 | issuing a request keeps the committed-transcript invariant and leaves every state variable as it was |
| Batch.SetProfile | frontend/src/pages/ChatPage.jsx:166 | storing the profile keeps the committed-transcript invariant and changes only the profile |
| Batch.SetPlan | frontend/src/pages/ChatPage.jsx:174 | storing the plan keeps the committed-transcript invariant and changes only the plan |
| Batch.Navigate | frontend/src/pages/ChatPage.jsx:189 | navigation keeps the committed-transcript invariant and leaves every state variable as it was |
| Batch.Loading | frontend/src/pages/ChatPage.jsx:95 | a loading-flag write keeps the committed-transcript invariant |
| Batch.Set | frontend/src/pages/ChatPage.jsx:101-103 | a page-state write keeps the committed-transcript invariant, since the transcript is untouched |
| Batch.EmitAllKeepsLast | frontend/src/contexts/UserDataContext.jsx:20 | k >= 1 chat-message writes in one handler commit snapshot + [last message]; with two or more, the intermediate ones are lost |
| Batch.RecordAllKeepsLast | frontend/src/contexts/UserDataContext.jsx:16 | k >= 1 answer writes in one handler commit snapshot answers + [last pair] |
| ChatPage.StageOf | frontend/src/pages/ChatPage.jsx:100-108 | the stage is the first of "name", "old", "gender" contained in the prompt, each iff the earlier ones are absent |
| ChatPage.Open | frontend/src/pages/ChatPage.jsx:65-81 | mounting writes exactly the category greeting and the name request over the transcript and makes the name prompt current with empty fields |
| ChatPage.Adopted | frontend/src/pages/ChatPage.jsx:122-139 | the server's list is adopted iff the call succeeded with an array; otherwise the six fixed fallback questions |
| ChatPage.BasicInfoStep | frontend/src/pages/ChatPage.jsx:99-143 | the basic-information branch keeps the snapshot, the committed-transcript invariant, the first emitted message and the category |
| ChatPage.PlanStep | frontend/src/pages/ChatPage.jsx:166-180 | the plan request keeps the committed-transcript invariant and the first emitted message |
| ChatPage.FinishStep | frontend/src/pages/ChatPage.jsx:158-184 | the profile-and-plan branch keeps the committed-transcript invariant and the first emitted message |
| ChatPage.Answered | frontend/src/pages/ChatPage.jsx:147-152 | an answer records exactly one (current prompt, input) pair after the captured answers and moves the index on by exactly one, emitting nothing |
| ChatPage.FollowUpStep | frontend/src/pages/ChatPage.jsx:146-185 | the follow-up branch keeps the committed-transcript invariant and the first emitted message |
| ChatPage.ConfirmStep | frontend/src/pages/ChatPage.jsx:186-193 | the confirmation branch keeps the committed-transcript invariant and the first emitted message |
| ChatPage.Prepare | frontend/src/pages/ChatPage.jsx:93-95 | the user's message is the first thing emitted, before any request, and the loading flag is raised |
| ChatPage.Dispatch | frontend/src/pages/ChatPage.jsx:97-193 | whichever phase runs, the user's message stays first and the committed transcript is snapshot + [last emitted] |
| ChatPage.Conclude | frontend/src/pages/ChatPage.jsx:194-199 | after catch and finally the loading flag is false and the transcript is snapshot + [last emitted] |
| ChatPage.Submit | frontend/src/pages/ChatPage.jsx:89-200 | a blank input or a loading store changes nothing; otherwise the user's message is emitted first, the transcript grows by exactly the last message emitted, and loading ends false |
| ChatPage.BarWidth | frontend/src/pages/ChatPage.jsx:222 | the header bar is full iff the transcript has at least five entries, and otherwise is 20 points per entry |
| ChatPage.Progress | frontend/src/pages/ChatPage.jsx:50-62 | before the follow-ups: unchanged without a name (or with a name and a gender but no age); 10 with a name only, 20 with name and age, 30 with all three. Afterwards it is always set: 30 for an empty list, otherwise the value v with (v - 30) * n = 70 * i for index i of n questions |
| ChatPageLemmas.PromptsSelectStages | frontend/src/pages/ChatPage.jsx:100-108 | the three fixed prompts select the name, age and gender stages respectively |
| ChatPageLemmas.SubmitBasicInfo | frontend/src/pages/ChatPage.jsx:99 | an accepted submission before basic info is complete runs the basic-information branch |
| ChatPageLemmas.NameStep | frontend/src/pages/ChatPage.jsx:100-103 | the name stage stores the input as the name and makes the age question current; the committed transcript gains only the greeting; no request is made |
| ChatPageLemmas.AgeStep | frontend/src/pages/ChatPage.jsx:104-107 | the age stage stores the input as the age and makes the gender question current; no request is made |
| ChatPageLemmas.GenderStep | frontend/src/pages/ChatPage.jsx:108-142 | the gender stage sends the stored name and age with this input. A returned call adopts the list, asks its first element, and sets collected and index 0. A thrown call leaves the phase unfinished with the list untouched and commits only the apology |
| ChatPageLemmas.FollowUpAnswer | frontend/src/pages/ChatPage.jsx:146-157 | a non-final answer records one (prompt, input) pair, moves the index by one, makes the next question current, and leaves exactly that question in the transcript |
| ChatPageLemmas.FollowUpContinues | frontend/src/pages/ChatPage.jsx:151-157 | with questions left, the follow-up branch completes without throwing and makes the next question current |
| ChatPageLemmas.ConcludeEffect | frontend/src/pages/ChatPage.jsx:194-199 | on a throw the apology is the last message committed; either way loading is cleared and the rest of the pending state is committed |
| ChatPageLemmas.ConcludeQuiet | frontend/src/pages/ChatPage.jsx:197-199 | a try block that completes is committed as it stands with loading cleared |
| ChatPageLemmas.SubmitFollowUp | frontend/src/pages/ChatPage.jsx:146 | an accepted submission with questions left runs the follow-up branch |
| ChatPageLemmas.FollowUpEnds | frontend/src/pages/ChatPage.jsx:151-163 | on the last answer the pair is recorded and the index reaches the end before the profile request |
| ChatPageLemmas.FinishWithoutProfile | frontend/src/pages/ChatPage.jsx:163-165 | with no profile in the reply, only the profile request is made and the last message is the profile apology (or the notice before a throw) |
| ChatPageLemmas.FinishWithProfile | frontend/src/pages/ChatPage.jsx:163-180 | with a profile, it is stored and the plan is requested with it; a plan is stored only on a successful non-empty reply |
| ChatPageLemmas.PlanStepEffect | frontend/src/pages/ChatPage.jsx:169-180 | the plan request is appended; the plan is stored iff the reply is successful and non-empty; the last message names the outcome |
| ChatPageLemmas.LastAnswer | frontend/src/pages/ChatPage.jsx:146-165 | the last answer's pair is recorded, yet the responses sent for the profile are the captured ones without it |
| ChatPageLemmas.LastAnswerWithoutProfile | frontend/src/pages/ChatPage.jsx:158-199 | without a profile, no plan is requested and the one committed message is the profile apology or the generic error |
| ChatPageLemmas.LastAnswerWithProfile | frontend/src/pages/ChatPage.jsx:163-199 | with a profile, the profile and plan requests are made in order; the profile stays stored even when the plan fails |
| ChatPageLemmas.SubmitConfirm | frontend/src/pages/ChatPage.jsx:187 | once every follow-up is answered, the confirmation branch runs |
| ChatPageLemmas.ConfirmStepEffect | frontend/src/pages/ChatPage.jsx:188-192 | the confirmation either navigates to /plan or emits the informational line, never both |
| ChatPageLemmas.Confirmation | frontend/src/pages/ChatPage.jsx:186-193 | it navigates to /plan iff the lower-cased input contains "yes", whether or not a plan exists; otherwise it only adds the informational line; no request is made |
| ChatPageRuns.OpenConsistent | frontend/src/pages/ChatPage.jsx:65-81 | a freshly opened page satisfies the prompt/index invariant |
| ChatPageRuns.BasicInfoStepEntersAtFirst | frontend/src/pages/ChatPage.jsx:123-142 | entering the follow-up phase sets index 0 with the first listed question current |
| ChatPageRuns.SubmitKeepsConsistent | frontend/src/pages/ChatPage.jsx:89-200 | every submission keeps the invariant: the index stays within the list, and while questions remain the prompt is the question at the index |
| ChatPageRuns.ProgressWithinRange | frontend/src/pages/ChatPage.jsx:55-61 | in the follow-up phase the progress value lies in [30, 100] and reaches 100 at the end of a non-empty list |
| ChatPageRuns.ProgressIncreases | frontend/src/pages/ChatPage.jsx:56-58 | answering one more question strictly increases the progress value |
| ChatPageRuns.BarAdvances | frontend/src/pages/ChatPage.jsx:218-224 | the header bar reads 40% on a fresh page, and every accepted submission adds 20 points up to 100, whatever stage it answers |
| ChatPageRuns.StepsTail | frontend/src/pages/ChatPage.jsx:89-200 | dropping the first submission of a run leaves a run |
| ChatPageRuns.BasicInfoRun | frontend/src/pages/ChatPage.jsx:65-143 | from a fresh page, three answers store name, age and gender and start the follow-ups at the first adopted question; the transcript keeps only the greetings and one assistant reply per answer |
| ChatPageRuns.NameAt | frontend/src/pages/ChatPage.jsx:100-103 | on a fresh page the first answer becomes the name, the age question is current, and the transcript is the two greetings plus the reply to the name |
| ChatPageRuns.AgeAt | frontend/src/pages/ChatPage.jsx:104-107 | the second answer becomes the age, the gender question is current, and the transcript gains the gender prompt |
| ChatPageRuns.GenderAt | frontend/src/pages/ChatPage.jsx:108-142 | when the collect call returns, the third answer becomes the gender and the follow-ups start at index 0 with the first adopted question asked |
| ChatPageRuns.FollowUpRun | frontend/src/pages/ChatPage.jsx:146-157 | k non-final answers record the k (question, answer) pairs in order and move the index by k; the transcript gains the k next questions and none of the answers |
| ChatPageRuns.FirstAnswer | frontend/src/pages/ChatPage.jsx:146-157 | the first answer of a run records (question at the index, answer) and makes the next listed question current and asked |
| ChatPageRuns.RunCompose | frontend/src/pages/ChatPage.jsx:146-157 | one answer followed by k - 1 answers has the effect of k answers |
| ChatInterface.Answer | frontend/src/components/ChatInterface.jsx:39-46 | a success shows `result.response` verbatim; `success: false` gives the request apology; a throw gives the connection apology |
| ChatInterface.Ask | frontend/src/components/ChatInterface.jsx:29-37 | the user's text is appended before the request is issued; the box is cleared and the flag raised |
| ChatInterface.Submit | frontend/src/components/ChatInterface.jsx:23-50 | nothing happens iff the input is blank or a request is in flight. Otherwise: user message, request, then the answer, in that order; one entry added; input cleared; flag lowered |
| ChatInterface.InFlightBlocksResubmit | frontend/src/components/ChatInterface.jsx:26-33 | while a request is in flight, the user's message is shown and any second submission is ignored |
| ChatInterface.UserMessageReplaced | frontend/src/components/ChatInterface.jsx:29-46 | the committed transcript gains exactly one entry, the answer; the user's own message is overwritten |
| ChatInterface.ProcessingEnds | frontend/src/components/ChatInterface.jsx:26-49 | from an idle widget, no submission leaves the flag raised, and a rejected one changes nothing |
| ChatInterface.EndingsDiffer | frontend/src/components/ChatInterface.jsx:39-46 | the success text is the payload, and the two apologies read differently |
| Lines.ApologiesDiffer | frontend/src/pages/ChatPage.jsx:196 | the guided chat's error line and the widget's two apologies are three different texts |
| Responder.LastContent | app.py:218-225 | the user text is empty when no message has the role; when one does, it is the content of a message with the role after which no message has it |
| Responder.LastContentIsLast | app.py:221-225 | the content of the last message with the role wins over earlier ones |
| Responder.LocalResponse | app.py:227-241 | the ten questions iff the folded user text contains the question trigger; the profile skeleton iff it does not but contains the profile trigger |
| Responder.PlanReplyUnreachable | app.py:261-297 | the plan reply can never be chosen, because its needle has upper-case "AYUSH" and the text is lower-cased; such requests get the offline notice |
| ModelCall.CallModel | app.py:199-214 | one or two attempts, the second only with gpt-4o-mini after a non-authentication failure; generated text iff the last attempt succeeded; local reply iff it failed on authentication; apology iff it failed otherwise |
| ModelCall.ApologyOnlyAfterDefault | app.py:209-214 | the apology comes back iff gpt-4o-mini failed without authentication error, as did the named model if it was another |
| ModelCall.DefaultModelTriedOnce | app.py:210 | a call naming gpt-4o-mini is never retried |
| Routes.CollectInfoBody | app.py:394-404 | success is always true; the field is an array iff the text parsed to one; the raw text when parsing fails |
| Routes.QuestionsPhraseFolds | app.py:381 | the collect prompt's request folds to the offline responder's question trigger |
| Routes.OfflineCollectGetsQuestions | app.py:378-392 | on an authentication failure, the collect prompt gets the ten offline questions, whatever the basic information |
| Routes.BlocksAppend | app.py:413-414 | rendering a concatenation of responses concatenates the renderings: entries stay in order, none dropped or repeated |
| Routes.BuildProfilePrompt | app.py:412-415 | the loop yields header, then one "Question:/Answer:" block per response in order, then trailer |
| Routes.BlocksSplit | app.py:413-414 | response k's block sits between the blocks of the responses before and after it |
| Routes.OfflineProfile | app.py:412-421 | offline, the profile prompt gets the profile skeleton unless it also contains the question trigger |
| Routes.AnswerHijacksOfflineProfile | app.py:412-415 | an answer mentioning the question trigger, in any case, makes the offline profile reply the question list |
| Routes.IndexOf | app.py:433 | the first `{`, or the length when there is none |
| Routes.LastIndexOf | app.py:433 | the last `}`, or -1 when there is none |
| Routes.ExtractJson | app.py:431-435 | an answer starting with `{` once stripped is kept; a replaced answer is the span from the first `{` to the last `}` |
| Routes.ExtractJsonRewrites | app.py:431-435 | the answer is replaced iff it does not start with `{` once stripped and some `{` precedes some `}` |
| Routes.ExtractJsonIdempotent | app.py:431-435 | extracting twice equals extracting once |
| VectorDb.BatchSpans | app.py:88-90 | ceil(n/100) spans [i, min(i+100, n)) for i = 0, 100, …; each non-empty, at most 100 long, contiguous, from 0 to n |
| VectorDb.GatherContiguous | app.py:89-95 | contiguous spans from a to b hand over exactly items a..b-1 in order |
| VectorDb.SpansCoverList | app.py:88-95 | the batches hand every item to the store exactly once, in order, at most 100 at a time |
| Strings.Lower | app.py:228 | folding keeps the length and folds each code point (ASCII only) |
| Strings.BlankIffAllSpace | frontend/src/pages/ChatPage.jsx:91 | `!input.trim()` holds iff every code point is JavaScript whitespace |
| Strings.TrimStartRemovesPrefix | frontend/src/pages/ChatPage.jsx:91 | trimming the start drops exactly the longest whitespace prefix |
| Strings.TrimEndRemovesSuffix | app.py:431 | trimming the end drops exactly the longest whitespace suffix |
| Wiring.Received | frontend/src/pages/ChatPage.jsx:121-122 | the browser sees a question list iff the body's field is a JSON array |
| Wiring.FallbackOnlyOnNonArray | app.py:394-404 | since the route always reports success, the six-question fallback is adopted iff the model text did not parse to an array; a thrown call adopts no list |
| Wiring.OfflineQuestionsReachPage | app.py:228-240 | the ten offline questions, not the six fallbacks, become the page's list when the collect call gets the offline array |

## Left out

- The hosted-model client, PDF loading, embeddings, the Chroma store, Flask routing and CORS, writing `user_profile.json`, and `serve()`. The model's text is an input string, and `complete` stands for the client.
- `json.loads` and `json.dumps`. The parse result and the serialised basic information are inputs. JSON array elements are assumed to be strings.
- Case folding and whitespace. `toLowerCase()` and `.lower()` are modelled on ASCII letters only. Trimming uses the exact JavaScript and Python whitespace sets.
- Strings.Lower: does not fold non-ASCII letters, because both runtimes' full Unicode tables are out of scope.
- Wording of fixed lines. Fixed assistant lines are kept by name (`Lines.Line`), with `Wording` giving their text. The offline responder's replies are also kept by name, and only the ten questions' contents are modelled. The profile skeleton's JSON, the plan markdown, the offline sentence and the server's apology text are not.
- System prompts. They are parameters. Temperature, token limits and `top_p` are not modelled.
- Route categories. The category is an input string; how the selection page derives it is not part of this model.
- Lines.Greeting: returns the default greeting for every string other than the four keys. The source looks the category up in a plain object, so an inherited property name such as `constructor` or `toString` yields that inherited value (a function's text) instead of the default. JavaScript's prototype chain is not modelled.
- Progress arithmetic. It uses exact reals rather than JavaScript floating point. `Progress` returns `None` where the effect does not call its setter.
- The `progress` state is computed but never displayed. The bar in the page header depends only on the transcript length (`ChatPage.BarWidth`).
- Input box. The box's text is `Submit`'s `input` parameter. Clearing it with `setUserInput('')` after the handler has read it is not modelled.
- The question widget's `userProfile` and `lifestylePlan` are read from the store and passed unchanged.
- Asynchronous scheduling, effects other than the mount greeting and progress, scrolling and animation. Each handler run is one atomic step whose awaited replies are inputs.
- The plan page, landing page, selection page, header and app shell. They are presentational.
- ChatInterface.ProcessingEnds: requires an idle widget. A submission rejected because a request is in flight leaves that request's flag raised until it finishes.
- ChatPage.BasicInfoStep: carries only the transcript invariant. The stage effects are `ChatPageLemmas.NameStep`, `AgeStep` and `GenderStep`.
- ChatPage.FollowUpStep: carries only the transcript invariant. The effects are `ChatPageLemmas.FollowUpAnswer` and `LastAnswer`.
- ChatPage.FinishStep: carries only the transcript invariant. The effects are `ChatPageLemmas.FinishWithoutProfile` and `FinishWithProfile`.
- ChatPage.PlanStep: carries only the transcript invariant. The effect is `ChatPageLemmas.PlanStepEffect`.
- ChatPage.ConfirmStep: carries only the transcript invariant. The effect is `ChatPageLemmas.ConfirmStepEffect`.
- ChatPage.Dispatch: carries only the transcript invariant and keeps the user's message first. The branch effects are the lemmas above.
- ChatPageRuns.BasicInfoRun: assumes the collect call returns. A thrown call is covered by `ChatPageLemmas.GenderStep`.
- ChatPageRuns.FollowUpRun: covers answers before the last one. The last answer is `ChatPageLemmas.LastAnswer`.
- Undefined prompt. A `currentQuestion` of `undefined` makes the basic phase's `includes` throw. This is modelled as a throw, though no run from a fresh page reaches it.
