# AI interview platform: call session and question generation, modelled in Dafny

This project models two pieces of an AI-assisted interview web application.

1. **The interview call component** (`src/components/call/index.tsx`). During a voice call it
   keeps a small state: `loading`, `isStarted`, `isCalling`, `isEnded`, the last agent and user
   transcript lines, the current `emotion`, the distinct `emotions` seen so far and the `callId`.
   The call client's `call_started`, `call_ended` and `update` events, the face detector's ticks
   and the start button change this state. When the call ends with a known call id, one summary
   record goes to the response store.
2. **The question-generation endpoint** (`src/app/api/generate-interview-questions/route.ts`).
   This `POST` handler checks for the API key and reads the body. It builds a prompt with
   defaults, asks a hosted chat-completion API for questions, and answers 200 `{text}` or
   500 `{error}`.

## Layout

- `options.dfy` — `Option` (an absent value) and `Outcome` (a value, or the message of a thrown error).
- `js_text.dfy` — `String.prototype.trim`, using the white-space and line-terminator code points of
  ECMA-262, and the decimal numeral that a template literal prints for an integer of magnitude at
  most 2^53.
- `emotion_selection.dfy` — the argmax reduction over `(name, score)` entries, seeded with
  `("neutral", 0)`.
- `emotion_log.dfy` — the append-if-new step, the list it builds from a run of samples, the `", "`
  join, and a splitter that reads the join back.
- `transcript.dfy` — the last turn per role, and the `forEach` that fills a role → content record.
- `call_session.dfy` — class `Call`. Its fields are the component's state. It has one method per
  event handler. `Valid()` is the invariant the handlers keep. `Monitor` runs the detector's ticks
  one after another and ties the stored list to the accumulation of the sampled labels.
- `call_scenarios.dfy` — client scenarios that use only the handlers' contracts. They show: a summary
  with `emotion = "neutral, happy"` handed over once; samples happy, sad, happy, angry recorded as
  happy, sad, angry; an end before any call id that never reports; a user-only update that clears
  the agent line; and, as the detection effect is written, a summary whose emotion is "".
- `question_generation.dfy` — the handler as a total function from (key present, body outcome,
  upstream outcome) to (request sent upstream, response).

React effects are modelled as running right after the handler that changes their dependency.
The storage effect (`[emotion]`) runs inside `Sample`, and only when the emotion value changed.
The summary effect (`[isEnded]`) runs inside `OnEnded`, and only when `isEnded` turns from false
to true. Nothing sets `isEnded` back to false. Every other method's `modifies` frame leaves
`isEnded` and `submitted` alone, so ending is terminal and at most one summary is ever handed over.

Where the code differs from the behaviour intended for the component, the model follows the code:
- The start action has no failure branch. If registration or the call client's start throws,
  `loading` stays raised and the button stays disabled. It does not return to a retryable state.
- An update with a transcript sets both lines. A user-only update clears the agent line.
- Transcript updates and detector ticks are not gated on the call being active.
- The dominant-emotion selector takes the detector's entries in their iteration order. It does not
  assume a closed set of labels.

## Model

| member | source | states |
|---|---|---|
| EmotionSelection.Dominant | src/components/call/index.tsx:113-116 | the selected score is at least 0 and at least every entry's score; the result is the seed ("neutral", 0) or one of the entries |
| EmotionSelection.DominantFloor | src/components/call/index.tsx:113-116 | when no score is positive the result is the seed, so the label is "neutral" |
| EmotionSelection.DominantIsFirstMaximum | src/components/call/index.tsx:113-116 | when entry k has the positive maximum and every earlier entry scores strictly less, the result is entry k: ties go to the first entry |
| EmotionSelection.DominantPositive | src/components/call/index.tsx:113-116 | when some score is positive, the result is an entry that scores strictly more than all entries before it |
| EmotionLog.AddDistinct | src/components/call/index.tsx:139-143 | the old list is a prefix of the new one and at most one label is added; the new list holds exactly the old labels plus the sample when it is non-empty; a duplicate-free list stays duplicate-free |
| EmotionLog.AddDistinctIdempotent | src/components/call/index.tsx:139-143 | re-adding a label already present leaves the list unchanged, so adding the same label twice is adding it once |
| EmotionLog.Accumulate | src/components/call/index.tsx:139-143 | the list the storage effect builds from a run of samples; it has no contract of its own, its properties are AccumulateSpec, and Monitor ties it to the component's list |
| EmotionLog.AccumulateSpec | src/components/call/index.tsx:139-143 | the accumulated list is duplicate-free and never holds ""; it holds exactly the non-empty sampled labels, in the order of their first occurrence |
| EmotionLog.Join | src/components/call/index.tsx:151 | `emotions.join(", ")`, also used for the questions at line 191; no contract of its own, its partner is Split through SplitJoin |
| EmotionLog.SplitJoin | src/components/call/index.tsx:151 | comma-free labels joined with ", " can be split back into the same list |
| Transcript.LastSpoken | src/components/call/index.tsx:165-171 | the content a role ends up with after the `forEach`; no contract of its own, its properties are LastSpokenAt and LastSpokenNone, and CollectByRole is proved against it |
| Transcript.LastSpokenAt | src/components/call/index.tsx:165-171 | when turn k is the last turn of its role, its content is what is kept for that role |
| Transcript.LastSpokenNone | src/components/call/index.tsx:165-171 | nothing is kept for a role exactly when no turn of the update has that role |
| Transcript.CollectByRole | src/components/call/index.tsx:167-168 | the record filled by the loop has a key for a role exactly when some turn has it, and the value is the content of the last such turn |
| CallSession.SlotText | src/components/call/index.tsx:169-170 | `map.agent` or `map.user`, with "" when that role has no turn: the last content of the role, or ""; no contract of its own, OnUpdate sets both lines to it |
| CallSession.SampledEmotion | src/components/call/index.tsx:109-121 | the emotion a tick yields; no contract of its own, its properties are SampledEmotionMax |
| CallSession.SampledEmotionMax | src/components/call/index.tsx:109-121 | "" without a detection; with one, "neutral" or the label of an entry whose score is at least every entry's score |
| CallSession.Call.constructor | src/components/call/index.tsx:47-57 | a fresh component: flags false, texts and call id "", no emotions, nothing submitted |
| CallSession.Call.StartOffered | src/components/call/index.tsx:216 | the start button is rendered: not started and not ended; used in the contracts of StartSucceeded and OnEnded |
| CallSession.Call.StartEnabled | src/components/call/index.tsx:216-217 | the button is rendered and not disabled (not loading); ClickStart requires it |
| CallSession.Call.TranscriptShown | src/components/call/index.tsx:222 | the transcript lines are rendered: started and not ended; used in the contracts of StartSucceeded and OnEnded |
| CallSession.Call.ClickStart | src/components/call/index.tsx:186-194 | only possible while the button is shown (not started, not ended) and enabled (not loading); raises loading and sends the questions joined with ", " plus the interviewer id; nothing else changes |
| CallSession.Call.StartSucceeded | src/components/call/index.tsx:196-203 | records the registered call id and sets started; loading drops; the button is no longer shown, and the transcript is shown unless the call has already ended |
| CallSession.Call.OnStarted | src/components/call/index.tsx:160 | sets isCalling |
| CallSession.Call.OnEnded | src/components/call/index.tsx:145-164 | isCalling false and isEnded true, so neither the button nor the transcript is shown; one summary (interview id, call id, tab-switch count, emotions joined with ", ", is_ended true) is added only on the first end and only with a non-empty call id; otherwise nothing is added |
| CallSession.Call.OnUpdate | src/components/call/index.tsx:165-171 | no transcript: both lines unchanged; otherwise each line is the last content of its role, or "" when that role is absent |
| CallSession.Call.Sample | src/components/call/index.tsx:109-143 | the emotion becomes the dominant label of a detection, or "" without one; the list grows exactly by AddDistinct, so it stays duplicate-free and "" is never added |
| CallSession.Monitor | src/components/call/index.tsx:104-143 | after a run of ticks, a list that was the accumulation of the earlier samples is the accumulation of those samples followed by the run's: skipping the effect when the emotion repeats changes nothing; the emotion shown is the last tick's label, or unchanged after an empty run |
| JsText.TrimStart | src/app/api/generate-interview-questions/route.ts:54 | the result is a suffix of the input, the dropped part is blank, and the result does not start with white space |
| JsText.TrimEnd | src/app/api/generate-interview-questions/route.ts:54 | the result is a prefix of the input, the dropped part is blank, and the result does not end with white space |
| JsText.Trim | src/app/api/generate-interview-questions/route.ts:54 | `text.trim()`, TrimStart then TrimEnd; no contract of its own, its properties are TrimEmptyIffBlank and TrimEnds |
| JsText.TrimEmptyIffBlank | src/app/api/generate-interview-questions/route.ts:54 | the trimmed text is empty exactly when the text is all white space |
| JsText.TrimEnds | src/app/api/generate-interview-questions/route.ts:54 | a non-empty trimmed text starts and ends with a character that is not white space |
| JsText.NatToDecimal | src/app/api/generate-interview-questions/route.ts:16 | at least one digit, only digits, and no leading zero |
| JsText.DecimalRoundTrip | src/app/api/generate-interview-questions/route.ts:16 | reading the numeral back gives the number |
| JsText.IntToDecimal | src/app/api/generate-interview-questions/route.ts:16 | non-empty, with a leading minus exactly for negative numbers; a count of at least 0 is all digits and reads back as itself; a negative count is a minus followed by digits that read back as its magnitude; this is what a template literal prints for magnitudes up to 2^53 (see Left out) |
| QuestionGeneration.Fields | src/app/api/generate-interview-questions/route.ts:13-24 | each prompt value is the body's own when that is truthy and the default (5, "software", "Assess candidate skills") otherwise, so no value is falsy |
| QuestionGeneration.FieldsExamples | src/app/api/generate-interview-questions/route.ts:16-21 | { role: "backend", numberOfQuestions: 3 } asks for 3 backend questions with the default objective; an empty body, and count 0 with role "", fall back to the defaults |
| QuestionGeneration.Prompt | src/app/api/generate-interview-questions/route.ts:13-24 | the prompt is the fixed lead, then exactly the numeral of the count, then a space |
| QuestionGeneration.PromptLayout | src/app/api/generate-interview-questions/route.ts:13-24 | after the numeral come " interview questions for a ", the role, " role." with the "Objective:" heading, the objective, and the closing instruction, each at the position the earlier parts' lengths fix |
| QuestionGeneration.PromptCount | src/app/api/generate-interview-questions/route.ts:13-24 | read back from the prompt, the numeral after the lead is the count, for every integer count: digits for a count of at least 0, a minus and the digits of the magnitude for a negative one; exact for the counts a double holds, magnitudes up to 2^53 (see Left out) |
| QuestionGeneration.CompletionFor | src/app/api/generate-interview-questions/route.ts:26-41 | the upstream request; no contract of its own, PostSends states what it carries |
| QuestionGeneration.CompletionText | src/app/api/generate-interview-questions/route.ts:49-52 | the text is non-empty exactly when the first choice has truthy message or delta content; message content wins over delta content |
| QuestionGeneration.Attempt | src/app/api/generate-interview-questions/route.ts:6-58 | the first failing check decides: no key gives "GROQ_API_KEY missing", then a body or upstream throw gives its message; a result is returned exactly when the reply is ok and its text is not blank, and it is that text |
| QuestionGeneration.Post | src/app/api/generate-interview-questions/route.ts:3-66 | a request goes upstream exactly when the key is present and the body was read; every run ends in 200 with a text that is not blank or in 500 with an error |
| QuestionGeneration.PostWithoutKey | src/app/api/generate-interview-questions/route.ts:7-9 | without the key: 500 "GROQ_API_KEY missing", and nothing is sent upstream |
| QuestionGeneration.PostThrows | src/app/api/generate-interview-questions/route.ts:11-43 | a body that cannot be read gives 500 with the thrown message and sends nothing; an upstream call or reply JSON that throws gives 500 with its message after the request was sent |
| QuestionGeneration.PostUpstreamFailure | src/app/api/generate-interview-questions/route.ts:45-47 | a non-ok reply gives 500 with the upstream error message, or "Groq error" when it has none |
| QuestionGeneration.PostBlankText | src/app/api/generate-interview-questions/route.ts:54-56 | an ok reply with blank text gives 500 "Empty AI response" |
| QuestionGeneration.PostSucceeds | src/app/api/generate-interview-questions/route.ts:54-58 | status 200 exactly when key, body and reply are all present, the reply is ok and its text is not blank; the body then holds that text untrimmed |
| QuestionGeneration.PostSends | src/app/api/generate-interview-questions/route.ts:11-41 | a request that goes upstream carries the model, the prompt built with defaults, temperature 0.7 and 400 tokens |
| QuestionGeneration.PostExampleText | src/app/api/generate-interview-questions/route.ts:49-58 | a completion "1. Why backend?" gives 200 with that text |
| QuestionGeneration.PostExampleEmpty | src/app/api/generate-interview-questions/route.ts:49-56 | an empty completion gives 500 "Empty AI response" |

## Left out

- Face-model loading, camera access, stream teardown and canvas drawing (index.tsx:61-90, 123-131) are device I/O and a foreign ML library. A detection is an optional sequence of (name, score) entries.
- The 300 ms `setInterval` timer and overlapping ticks (index.tsx:104-134) are timer scheduling. Each tick is one `Sample` call, and `Monitor` is a run of them. A tick whose detection throws makes no call. The mount-time guard at index.tsx:95 is not part of the handlers: as written it stops every tick (see Findings), and the handlers model the ticks the component evidently intends.
- The call client's SDK — the singleton, `startCall` with the access token, and the `on`/`off` subscriptions (index.tsx:37, 173-181, 196-198) — is foreign code. Its events are method calls. The access token is not modelled.
- The `/api/register-call` round trip (index.tsx:189-194) is network I/O. `ClickStart` returns the request body. The registered call id is the argument of `StartSucceeded`.
- `createResponse` persistence is external. Summaries are appended to the `submitted` output log.
- The tab-switch hook's file (`tabSwitchPrevention`) is not part of this model. The count it reports at the end is the `tabSwitchCount` argument of `OnEnded`.
- React batching, stale closures and re-render timing are not modelled. JSX is reduced to the guards `StartOffered`, `StartEnabled` and `TranscriptShown`.
- The class keeps no log of past samples. The link to the accumulated list is `Monitor`, which takes the earlier samples as a ghost argument.
- EmotionSelection.Dominant: scores are mathematical reals. NaN scores are not modelled. A NaN is never greater, so it could never win anyway.
- The route's `fetch`, `req.json()`, `response.json()`, `process.env` and `console` (route.ts) are I/O. Key presence is a boolean. The body and the upstream reply are `Outcome`s whose `Threw` case carries the error's message.
- Request-body fields are modelled as an optional integer or string. JavaScript values of other types (a string count, a fractional count, an object role) are not modelled.
- Content fields of the upstream reply are modelled as strings. A non-string truthy content, which would make `trim` throw, is not modelled.
- IntToDecimal: a count is modelled as an exact integer, but a JSON number is a double, and `Number::toString` prints at most 17 significant digits. Counts of magnitude above 2^53 are not modelled: 2^60 prints as 1152921504606847000, not as its exact digits. Nor is the exponent form used from 10^21.
- PromptCount: the same limit applies. The numeral reads back as the count only for counts of magnitude at most 2^53, the integers a double holds exactly and prints in full.
- A JSON body `null` is read without error, and `body.numberOfQuestions` then throws a TypeError at route.ts:16, before the fetch. The model only expresses this as a `Threw` body outcome, which gives the same 500 with the message and sends nothing.
- `src/middleware.ts` (route protection through the auth library's matcher) and the job-search page are not modelled. They delegate to external libraries and services.

## Findings

| source | as written | input that shows it | evidently intended | confidence | as-written member | corrected member |
|---|---|---|---|---|---|---|
| src/components/call/index.tsx:94-135 | the detection effect has dependencies `[]`, so it runs once, at mount; `faceapiRef.current` is only set after the `await import` at lines 67-68, so at mount the guard at line 95 returns and the 300 ms interval is never installed | any session: mount, start, end | a tick every 300 ms once the face API is loaded, recording the dominant emotions | medium, not executed | CallScenarios.SummaryWithoutTicks: with no tick, `emotions` stays [] and the summary's emotion is "" | CallSession.Monitor: with the ticks, the stored list is the accumulation of the sampled labels |
