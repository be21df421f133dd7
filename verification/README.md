# AI English tutor: conversation, speech capture and chat proxy

A Dafny model of the three pieces of sequential state handling in the
English-tutoring front-end:

- the **lesson page** (`lessonpage.tsx`): the chat transcript, the input box and
  the loading flag; the guarded `sendMessage`, the `upsertAssistant` callback that
  grows the reply as chunks stream in, completion and failure, the microphone
  toggle and the effect that copies the recognised transcript into the input box;
- the **speech hook** (`speech-recognition.ts`): the `{isListening, transcript}`
  state driven by start, stop and reset and by the recognizer's result, end and
  error callbacks, including the no-op when speech recognition is unsupported;
- the **`ai-tour` edge function** (`supabase/function/ai-tour/index.ts`): CORS
  preflight, the mode-to-prompt lookup with its tutor fallback, the message list
  forwarded to the gateway, and the mapping of the gateway's outcome (2xx, 429,
  402, other status, thrown error) and of a missing API key to the reply.

Everything is a pure function over immutable datatypes. React callbacks become
events applied one at a time (`Lesson.Step`, `Speech.Apply`); the streamed reply is
a sequence of chunk strings; the gateway call is a parameter of type
`Proxy.Upstream`; the API key is an `Option<string>`; whether the browser offers
speech recognition is the parameter `supported`.

Modules: `Wrappers` (Option/Result), `Messages` (roles and messages), `Text`
(ECMAScript `String.prototype.trim`, section 22.1.3.32 of ECMA-262), `Speech`,
`Lesson`, `Proxy`, `EndToEnd`.

User and assistant messages need not alternate: a reply that fails before its
first chunk leaves the user message unanswered, so two user messages can be
adjacent (`Lesson.UserMessagesNeedNotAlternate`). What the code does keep is proved
instead: only user and assistant messages appear, and every assistant message
directly follows a user message (`Lesson.RunPreservesWellFormed`).

## Model

| member | source | states |
|---|---|---|
| `Text.Trim` | lessonpage.tsx:27-28 | the trimmed text is a slice of the input bordered only by whitespace on both sides, and it is empty exactly when the input is all whitespace |
| `Text.TrimmedAtIsTrim` | lessonpage.tsx:28 | any split of the input into whitespace prefix, core, whitespace suffix with non-whitespace ends of the core yields exactly the trimmed text (uniqueness) |
| `Text.TrimIdempotent` | lessonpage.tsx:28 | trimming already-trimmed text changes nothing |
| `Speech.StartListening` | speech-recognition.ts:8-32 | unsupported: state unchanged; supported: listening, empty transcript, recognizer created |
| `Speech.StopListening` | speech-recognition.ts:33-38 | no effect before a recognizer exists; afterwards listening is cleared; the transcript is kept |
| `Speech.ResetTranscript` | speech-recognition.ts:39-41 | transcript becomes empty, listening flag unchanged |
| `Speech.OnResult` | speech-recognition.ts:15-21 | transcript becomes the join of every result's first alternative, listening flag unchanged |
| `Speech.OnEndOrError` | speech-recognition.ts:22-27 | listening cleared, transcript kept |
| `Speech.BuildTranscript` | speech-recognition.ts:16-19 | the handler's index loop produces exactly the in-order join of first alternatives from index 0 |
| `Speech.JoinFirstAppend` | speech-recognition.ts:15-20 | the transcript of a result list extended by new results is the old transcript followed by the new results' text |
| `Speech.RunPreservesValid` | speech-recognition.ts:28-37 | along any event sequence, each event applied by the dispatch `Speech.Apply`, the hook is never listening without a recognizer |
| `Speech.UnsupportedNeverListens` | speech-recognition.ts:6-9 | without speech support no event sequence starts listening or creates a recognizer |
| `Speech.StopThenStartClears` | speech-recognition.ts:29-37 | stop followed by start always leaves an empty transcript and listening on |
| `Speech.ResultReplaces` | speech-recognition.ts:15-20 | the transcript after a result does not depend on the transcript before it |
| `Speech.EndErrorIndistinguishable` | speech-recognition.ts:22-27 | an end event and an error event produce the same state |
| `Speech.EmptyUntilResult` | speech-recognition.ts:15-31 | from an empty transcript, no sequence of events without a result makes it non-empty |
| `Lesson.SyncInput` | lessonpage.tsx:19-21 | the input box changes only to a transcript that changed and is non-empty, and always does in that case |
| `Lesson.WithSpeech` | lessonpage.tsx:17-21 | every change of the embedded speech state runs the transcript-to-input effect; transcript, loading flag and reply text are kept |
| `Lesson.SendMessage` | lessonpage.tsx:26-47 | a request is issued exactly when the text is not blank and nothing is loading; otherwise nothing changes; an accepted send appends one trimmed user message after an unchanged prefix, clears input and transcript, sets loading and requests the new transcript in tutor mode |
| `Lesson.Upsert` | lessonpage.tsx:36-42 | a trailing assistant message gets the new content in place (same length); otherwise one assistant message is appended; all earlier messages stay |
| `Lesson.ReceiveChunk` | lessonpage.tsx:34-43 | the accumulated reply grows by the chunk and the transcript shows it via the upsert; loading, input and speech unchanged |
| `Lesson.Finish` | lessonpage.tsx:44-54 | completion and failure clear loading and keep the transcript (the user message stays on error) |
| `Lesson.Toggle` | lessonpage.tsx:62-68 | the microphone button stops when listening and starts otherwise; transcript, loading flag, input and reply text are kept |
| `Lesson.SendThenStream` | lessonpage.tsx:26-50 | after an accepted send and k chunks the transcript is the old one, the user message and, for k at least 1, one assistant message holding the in-order concatenation of the chunks; the loader (`Lesson.ShowsLoader`, the spinner condition of line 140) shows exactly while k is 0 |
| `Lesson.SendThenSession` | lessonpage.tsx:26-50 | after an accepted send, with typing, microphone, recognizer and further (rejected) send events interleaved with the chunks and before completion or failure, the page stays loading, the reply text is the in-order join of the chunks received, and the transcript is the old one, the user message and, once a chunk has arrived, one assistant message holding that text |
| `Lesson.StepKeepsHistory` | lessonpage.tsx:29-42 | every event of the page's dispatch `Lesson.Step` (typing, whose case is the textarea's change handler, send, chunk, done, failed, microphone, recognizer callbacks) keeps all messages but the last, grows the list by at most one, and rewrites the last only when it is and stays an assistant message |
| `Lesson.SendPreservesWellFormed` | lessonpage.tsx:26-32 | an accepted or rejected send keeps the transcript well formed |
| `Lesson.ChunkPreservesWellFormed` | lessonpage.tsx:34-43 | a chunk during a request keeps the transcript well formed |
| `Lesson.StepPreservesWellFormed` | lessonpage.tsx:26-55 | every event possible in a state keeps the transcript well formed |
| `Lesson.RunPreservesWellFormed` | lessonpage.tsx:11-55 | from the opening page, every possible event sequence keeps only user/assistant messages, each assistant message right after a user message, and an in-flight request ending in its user message or its reply so far |
| `Lesson.StepInput` | lessonpage.tsx:19-21 | apart from typing and sending, the only event that writes the input box is a recognition result, and it writes its non-empty transcript |
| `Lesson.InputFromUserOrSpeech` | lessonpage.tsx:19-21 | along any sequence of events without typing or sending, the input box holds what the user left there or the non-empty transcript of some recognition result of that sequence |
| `Lesson.UserMessagesNeedNotAlternate` | lessonpage.tsx:26-53 | send, failure, send leaves two adjacent user messages |
| `Proxy.SelectPrompt` | supabase/function/ai-tour/index.ts:12-29 | "tutor" and "feedback" select their own prompt, any other or missing mode the tutor prompt; the feedback prompt is chosen exactly for "feedback" |
| `Proxy.Forwarded` | supabase/function/ai-tour/index.ts:38-41 | the forwarded list has length n+1: the system prompt message, then the n client messages in order |
| `Proxy.ErrorReply` | supabase/function/ai-tour/index.ts:65-69 | a caught exception gives 500 JSON carrying the error's message, or "Unknown error" for a non-error value |
| `Proxy.MapUpstream` | supabase/function/ai-tour/index.ts:45-64 | 2xx streams the body unchanged as text/event-stream with status 200; 429 and 402 give their own status and message; other statuses give 500 "AI service error"; a throw gives the exception reply |
| `Proxy.Handle` | supabase/function/ai-tour/index.ts:6-69 | preflight gets an empty reply and no gateway call; the gateway is called exactly when the body parses, the key is set and the messages are iterable; each failure before that gives its 500 reply; the call carries the bearer key, model, streaming flag and forwarded messages, and the reply maps its outcome |
| `Proxy.HandleIsWellShaped` | supabase/function/ai-tour/index.ts:45-69 | every reply is the preflight reply, a 200 event stream, or a JSON error with status 402, 429 or 500 |
| `Proxy.PreflightIgnoresEverything` | supabase/function/ai-tour/index.ts:7 | an OPTIONS reply does not depend on the body, the key or the gateway |
| `Proxy.NoCallNoUpstreamInfluence` | supabase/function/ai-tour/index.ts:10-44 | when the gateway is not called, its outcome cannot influence the reply |
| `EndToEnd.SendReachesGatewayAsTutor` | lessonpage.tsx:45-47 | an accepted send reaches the gateway as the tutor prompt, the earlier conversation and the new trimmed user message, in order |

## Left out

- Rendering, animation, auto-scroll, markdown display and toasts of the lesson page: UI only. The toast text after a failure is not modelled; `Lesson.Finish` covers its state change.
- `streamChat` and the parsing of server-sent events: that library is not part of this model; a reply is the sequence of chunk strings it delivers, followed by a done or failed event.
- Asynchronous ordering and React state batching: events are applied one at a time. In particular the request built from the render-time `messages` (lessonpage.tsx:46) equals the current transcript in this sequential reading.
- The Enter-key handler and the send button's disabled state: both end in `sendMessage(input)`, which the `Send(text)` event covers for any text.
- Recognizer configuration (language, continuous, interim results) and the browser engine. Earlier recognizers are not stopped on restart and their callbacks update the same state; the model does not distinguish recognizers, which matches that. The `end` event that `stop()` later triggers is a separate `SpeechEnded` event.
- The actual `fetch`, `Deno.env`, `console.error` and the CORS header strings: the gateway outcome and the key are parameters, and every reply implicitly carries the CORS headers.
- Proxy.MapUpstream: reading the error body of a non-ok response for logging (index.ts:56) is assumed not to throw; a throw there would give the exception reply.
- Proxy.SelectPrompt: the prompt table has exactly the two keys, so inherited object keys such as "toString" are not modelled; non-string mode values are folded into a missing mode.
- Proxy.Handle: the JSON body's parse error and the error from spreading a non-iterable `messages` field are abstract `Thrown` values; their engine-specific texts are not modelled.
- Proxy.Handle: client messages are modelled as typed messages (a role of system, user or assistant and string content). The function forwards whatever elements `messages` spreads into, including objects with other roles, extra fields or non-string content, and the characters of a string; forwarding is modelled for typed messages only, and the n+1, in-order property does not depend on their shape.
- Speech.OnResult: every recognition result is assumed to carry at least one alternative, as browsers deliver them; a result without one would make the handler throw (speech-recognition.ts:18) and leave the transcript unchanged, which is not modelled.
- Text.Trim: Dafny strings hold Unicode scalar values, while JavaScript strings are UTF-16 and may contain lone surrogates, which cannot be represented; trimming is unaffected because every ECMAScript whitespace code point lies in the Basic Multilingual Plane.
- EndToEnd.SendReachesGatewayAsTutor: the body that the chat library posts to the edge function is assumed to be the request's messages and mode, carried through JSON unchanged; that library is not part of this model.
