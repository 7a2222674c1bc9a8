# Voice-and-text chat client: verified model of its core

This project models, in Dafny, the logic underneath a browser chat client. The
client sends conversation turns to a hosted language model, can read replies
aloud, and can take spoken input. It has four pieces:

- **Conversation controller** (`app.dfy`, module `App`). `ChatApp` holds the
  turn list, the in-flight flag and the text-to-speech toggle. The browser
  speech synthesizer is reduced to its `speaking` flag plus a ghost log of
  `Cancel` / `Utter` calls. `handleSendMessage` is split at its `await`:
  `BeginSend` runs before it, and `CompleteSend` (a reply came back) or
  `FailSend` (the catch branch) runs after it. The client never throws, so
  the catch branch is reached only when `speak` throws after the model's turn
  was placed; `ReplaceLastTwice` shows that the list then ends as `FailSend`
  leaves it. `SendMessage` runs both
  halves back to back with nothing in between.
- **Completion client** (`gemini_service.dfy`, module `GeminiService`). Pure
  functions build the request: the placeholder filter, the role mapping, and
  the system instruction with its optional context block. The SDK response
  is an input datatype in which every field is optional. The SDK call's
  outcome is also an input, `CallOutcome`: a response, a thrown `Error`, or
  some other thrown value. `SendMessageToAI` returns the request it would
  send (none when the history is empty) together with the reply.
- **Speech-input adapter** (`speech_recognition.dfy`, module
  `SpeechRecognition`). `Recognizer` is an idle/listening machine with an
  `error` field and a supported/unsupported mode. Whether the platform's
  `start()` throws is an input. Calls on the engine and transcripts handed to
  the callback go into ghost logs.
- **Input bar** (`chat_input.dfy`, module `ChatInput`). `InputBar` holds the
  typed text. `Forwarded` states what `handleSend` passes to the controller:
  the trimmed text, when it is not blank and no send is in flight.
  The `disabled` and visibility conditions of the controls are predicates.

Shared modules: `types.dfy` is the message model of `src/types.ts`.
`js_text.dfy` models JavaScript's `String.prototype.trim` and
`Array.prototype.slice` (ECMAScript sections 22.1.3.32 and 23.1.3.28).
`wrappers.dfy` holds `Option`.

Some behaviours of the code are easy to misread; the model follows the code:

- The controller stores the user's text as given, without trimming
  (`src/App.tsx:55`). Its callers trim first: the input bar at
  `src/components/ChatInput.tsx:24` and the speech adapter at
  `src/hooks/useSpeechRecognition.ts:67`.
- Each `handleSendMessage` calls the `speak` of the render in which the send
  started, and that `speak` captured the `isTtsEnabled` of that render. So
  turning speech off while a reply is awaited does not stop that reply from
  being spoken. It only cancels the utterance playing at that moment. The
  model records the captured flag as `ttsAtSend`, and
  `ToggleOffDuringFlightScenario` shows the effect.
- A reply that arrives after the chat was cleared replaces the "last element"
  of an empty list. `slice(0, -1)` of `[]` is `[]`, so the reply becomes the
  only turn (`ReplyAfterClear`, `ClearDuringFlightScenario`).
- The placeholder filter compares text only. So a user message of exactly
  `...` passes the controller's blank-text guard but is dropped from the
  request. When it is the only turn, the reply is the fixed history-issue text
  (`SentinelUserMessage`).
- The pending turn is recognised by its text alone, so the list need not hold
  at most one pending turn, and a reply need not remove it: a reply whose
  text is `...` equals the pending turn. After it, the next send leaves two
  turns that look pending, and `src/components/Message.tsx:19` keeps showing
  the earlier one as a loading indicator (`DuplicatePlaceholderScenario`).
  What does hold is `ChatApp.Valid()`: while a send is in flight, the list is
  empty or ends with the pending turn, so the turn a reply replaces is always
  that turn or nothing.

## Model

| member | source | states |
|---|---|---|
| `JsText.Trim` | src/components/ChatInput.tsx:23-24 | the trimmed text has no whitespace at either end, and it is empty exactly when the input is all whitespace (the meaning of `!text.trim()`) |
| `JsText.TrimSplit` | src/hooks/useSpeechRecognition.ts:66-67 | every string is whitespace, then its trimmed form, then whitespace |
| `JsText.PaddedTrim` | src/hooks/useSpeechRecognition.ts:66-67 | trimming a trimmed string padded with any whitespace gives that string back |
| `JsText.TrimIdempotent` | src/components/ChatInput.tsx:24 | trimming already-trimmed text changes nothing, so trimmed text passes the controller's trim guard unchanged |
| `JsText.TrimFixedPoints` | src/App.tsx:52 | trimming leaves a string unchanged exactly when it has no whitespace at either end |
| `JsText.Slice` | src/App.tsx:72 | `slice` returns the window from the relative start index to the relative end index, empty when the end is not after the start |
| `JsText.SliceDropLast` | src/App.tsx:72 | `slice(0, -1)` drops the last element, and of an empty list gives an empty list |
| `GeminiService.SystemInstruction` | src/services/geminiService.ts:25-29 | the instruction always starts with the fixed preamble, and it is longer than the preamble exactly when the context is non-empty |
| `GeminiService.SystemInstructionCarriesContext` | src/services/geminiService.ts:25-29 | the context can be read back from the instruction; a non-empty context comes after the preamble, between the `---CONTEXT---` header and the `---END CONTEXT---` footer |
| `GeminiService.SystemInstructionInjective` | src/services/geminiService.ts:25-29 | different contexts give different instructions |
| `GeminiService.KeptTurns` | src/services/geminiService.ts:31-32 | the kept turns are exactly the history's turns whose text is not `...`, and there are no more of them than history turns |
| `GeminiService.KeptTurnsAppend` | src/services/geminiService.ts:31-32 | filtering distributes over concatenation, so kept turns keep their relative order |
| `GeminiService.ToContents` | src/services/geminiService.ts:31-36 | one content per kept turn, in order; its role is `"user"` exactly for USER turns, otherwise `"model"`; it has exactly one part, holding the turn's text |
| `GeminiService.ContentsRoundTrip` | src/services/geminiService.ts:33-36 | reading each content back gives the kept turn without its sources |
| `GeminiService.PlaceholderNeverSent` | src/services/geminiService.ts:32 | a trailing pending turn does not change the request |
| `GeminiService.KeptTurnsEmpty` | src/services/geminiService.ts:38 | the filtered history is empty exactly when every turn's text is `...` |
| `GeminiService.KeepSources` | src/services/geminiService.ts:55-57 | every extracted source has a non-empty uri and title, and there are no more sources than chunks |
| `GeminiService.KeepSourcesAppend` | src/services/geminiService.ts:55-57 | extraction distributes over concatenation, so sources keep the service's order |
| `GeminiService.KeepSourcesExact` | src/services/geminiService.ts:55-57 | a source is extracted exactly when some chunk has a `web` entry with that non-empty uri and title |
| `GeminiService.CitationFilterExample` | src/services/geminiService.ts:55-57 | of `a/A`, `""/B`, `c/""` and a chunk without `web`, only `a/A` survives |
| `GeminiService.FirstCandidateGrounds` | src/services/geminiService.ts:53-54 | the grounding chunks are those of the first candidate's metadata; later candidates and the text never matter, and no candidates means no chunks |
| `GeminiService.ReplyText` | src/services/geminiService.ts:59 | the reply text is the response's text, or `""` when the response has none |
| `GeminiService.ExtractSources` | src/services/geminiService.ts:53-57 | sources are undefined exactly when the first candidate has no grounding chunks; otherwise they are the kept entries |
| `GeminiService.SendMessageToAI` | src/services/geminiService.ts:20-51 | a sent request has the fixed model name, the mapped contents, the system instruction and web search enabled |
| `GeminiService.EmptyHistoryNotSent` | src/services/geminiService.ts:38-42 | no request is sent exactly when every turn is filtered out; then, whatever the outcome, the reply is the history-issue text with no sources |
| `GeminiService.ReplyOnResponse` | src/services/geminiService.ts:53-59 | on a response, the reply text is the response's text (`""` when absent) and the sources are the extracted ones |
| `GeminiService.ErrorsBecomeApologies` | src/services/geminiService.ts:60-66 | a thrown `Error` gives the error prefix followed by its message; any other thrown value gives the unknown-error text; neither has sources, and neither is the pending text |
| `SpeechRecognition.LastResultDecides` | src/hooks/useSpeechRecognition.ts:66-67 | only the newest result is read: earlier results never change the transcript, and it is that result's first alternative, or missing when it has none |
| `SpeechRecognition.TranscriptExamples` | src/hooks/useSpeechRecognition.ts:66-68 | `"  hello  "` is delivered as `"hello"`; a blank result trims to empty |
| `SpeechRecognition.Recognizer.constructor` | src/hooks/useSpeechRecognition.ts:44-63 | supported exactly when a recognizer constructor exists; unsupported means no recognizer and the not-supported error; starts idle |
| `SpeechRecognition.Recognizer.IsSupported` | src/hooks/useSpeechRecognition.ts:118 | `isSupported` holds exactly when a recognizer exists, and when it does not, the error is the not-supported text |
| `SpeechRecognition.Recognizer.StartListening` | src/hooks/useSpeechRecognition.ts:91-104 | no-op unless a recognizer exists and the adapter is idle; otherwise it calls `start`: on success it is listening with no error; if `start` throws it stays idle with the permissions error |
| `SpeechRecognition.Recognizer.StopListening` | src/hooks/useSpeechRecognition.ts:106-111 | no-op unless listening; otherwise it calls `stop` once and is idle afterwards |
| `SpeechRecognition.Recognizer.OnResult` | src/hooks/useSpeechRecognition.ts:65-72 | delivers the trimmed first alternative of the last result exactly once, and only when it is non-empty; then stops; a missing result changes nothing |
| `SpeechRecognition.Recognizer.OnError` | src/hooks/useSpeechRecognition.ts:74-78 | the error becomes the prefix followed by the code, then the adapter stops |
| `SpeechRecognition.Recognizer.Cleanup` | src/hooks/useSpeechRecognition.ts:86-88 | when a recognizer exists, cleanup calls `stop` on it, whether or not the adapter is listening |
| `ChatInput.Forwarded` | src/components/ChatInput.tsx:22-24 | something is forwarded exactly when the text is not blank and no send is in flight; what is forwarded is the text's trim, which is non-empty and has no whitespace at either end |
| `ChatInput.SendDisabled` | src/components/ChatInput.tsx:64 | the send button is disabled exactly when the text is all whitespace or a send is in flight |
| `ChatInput.SendButtonMatchesHandler` | src/components/ChatInput.tsx:62-64 | the send button is enabled exactly when clicking it forwards something |
| `ChatInput.LockedWhileSending` | src/components/ChatInput.tsx:44-51 | while sending, the input, the mic button and the send button are disabled and nothing is forwarded |
| `ChatInput.UsableWhileListening` | src/components/ChatInput.tsx:44-64 | while listening and not sending, the text input is locked, the mic button stays enabled, and non-blank text typed earlier can still be sent, as its trim |
| `ChatInput.ForwardedPassesGuard` | src/components/ChatInput.tsx:24 | forwarded text is not blank and is its own trim, so the controller's guard accepts it |
| `ChatInput.InputBar.constructor` | src/components/ChatInput.tsx:20 | the text starts empty |
| `ChatInput.InputBar.Change` | src/components/ChatInput.tsx:41 | the text becomes the input's value |
| `ChatInput.InputBar.HandleSend` | src/components/ChatInput.tsx:22-27 | forwards `Forwarded(text, isSending)`, so the trimmed text exactly when it is not blank and no send is in flight; after a forward the text is `""`, otherwise it is unchanged |
| `ChatInput.InputBar.HandleKeyDown` | src/components/ChatInput.tsx:29-33 | only `Enter` runs `handleSend`; any other key forwards nothing and keeps the text |
| `App.ReplaceLast` | src/App.tsx:72 | every element but the last is kept, the new turn is last, and the length is unchanged, except that an empty list becomes one turn |
| `App.ReplaceLastTwice` | src/App.tsx:72-82 | replacing the last turn twice is replacing it once with the second turn, so a throwing `speak` leaves the failure turn where the pending turn was |
| `App.ReplaceAfterBegin` | src/App.tsx:58-72 | with no clear in between, the reply takes the pending turn's position, right after the user's turn |
| `App.ReplyAfterClear` | src/App.tsx:72 | a reply landing on a cleared list becomes its only turn |
| `App.UserTurnReachesService` | src/App.tsx:55-65 | unless its text is `...`, the user's new turn is sent, as the last content with role `"user"`; since the context is always empty, the instruction is the bare preamble |
| `App.SentinelUserMessage` | src/App.tsx:52-56 | a lone user message `...` passes the guard, but no request is sent and the reply is the history-issue text |
| `App.ChatApp.constructor` | src/App.tsx:15-17 | no turns, not sending, speech output on |
| `App.ChatApp.StopSpeak` | src/App.tsx:44-48 | cancels only when speaking, and is silent afterwards |
| `App.ChatApp.Unmount` | src/App.tsx:22-28 | on unmount, cancels speech if speaking |
| `App.ChatApp.Speak` | src/App.tsx:31-41 | does nothing when disabled or the text is empty; otherwise cancels any current utterance, then speaks the text |
| `App.ChatApp.UtteranceEnded` | src/App.tsx:34 | the platform's `speaking` flag falls when an utterance ends |
| `App.ChatApp.BeginSend` | src/App.tsx:50-62 | ignored while sending or for blank text; otherwise sets sending, appends the user turn (untrimmed) and then the pending turn (2 more turns), and hands the service the old turns plus the user's turn |
| `App.ChatApp.CompleteSend` | src/App.tsx:64-75 | called while sending, it finds the list empty or ending with the pending turn and replaces only that last turn by the model's turn (text and sources), speaks the reply when the send's speech flag was on, and clears sending |
| `App.ChatApp.FailSend` | src/App.tsx:76-85 | called while sending, it finds the list empty or ending with the pending turn and replaces only that last turn by the fixed failure turn without sources, and clears sending |
| `App.ChatApp.SendMessage` | src/App.tsx:50-88 | an accepted send with nothing interleaved leaves the old turns followed by the user's turn and the client's reply, and clears sending; the reply is spoken, after cancelling any current utterance, exactly when speech output is on and the reply text is non-empty; a refused one changes nothing, speech included |
| `App.ChatApp.ToggleTts` | src/App.tsx:106-114 | flips the flag, and cancels current speech exactly when the new value is off |
| `App.ChatApp.ClearChat` | src/App.tsx:116-119 | empties the turn list and stops speech; a send in flight is left alone |
| `App.ToggleListening` | src/App.tsx:98-104 | stops the adapter when listening, keeping its error; otherwise starts it, which leaves it listening with no error, or idle with the permissions error when `start` throws; without a recognizer nothing changes |
| `App.MicFollowsSupport` | src/components/ChatInput.tsx:48-51 | the mic button is shown exactly when the adapter has a recognizer; when it is hidden, the adapter shows the not-supported error |

## Left out

- Rendering: the markup of `src/App.tsx`, and all of `src/components/Message.tsx` and `src/components/ChatHistory.tsx`, including scrolling. They only reflect state.
- The SDK call and the network (`src/services/geminiService.ts:44-51`) are foreign code. Their outcome is the `CallOutcome` input. The module-load `API_KEY` check and the `env` import are not part of this model.
- The browser's `speechSynthesis` and `SpeechRecognition` objects are reduced to flags and logs. Voices, languages and the recognizer settings (`continuous`, `interimResults`, `lang`) have no behaviour here. The empty `onend` handler is not modelled.
- React hook semantics. This covers `setState` batching, so two sends before a re-render both see `isSending` false. It also covers the re-run of the recognition effect when `onTranscriptReady` changes, which stops the old recognizer and creates a new one. The adapter's handlers are modelled as reading the current `isListening`. In the code, the `stopListening` inside `onresult`/`onerror` reads the value captured when the effect last ran. This is an assumption of the model, not a claim about React.
- Interleavings beyond the `BeginSend` / `CompleteSend` split. Only clearing or toggling speech while a reply is awaited is modelled. Concurrent replies are not.
- What makes `speak` throw (a missing `SpeechSynthesisUtterance`, say) is platform behaviour. `FailSend` is the catch branch applied to the list as `BeginSend` left it; `ReplaceLastTwice` ties that to the code's two successive replacements.
- A `null` entry among the grounding chunks makes `chunk.web` throw inside the client's `try`. That error text comes from the JavaScript engine, so chunks are modelled as objects.
- `console.error` logging.
- Dafny characters are Unicode scalar values, while JavaScript strings are sequences of UTF-16 code units. A character outside the Basic Multilingual Plane is one character here and two code units there. This does not affect trimming, because every whitespace character `trim` removes lies inside that plane.
- Delivering a recognized transcript to the controller is left to the caller: `OnResult` returns it, and `ForwardedPassesGuard`/`TrimIdempotent` show that a trimmed non-empty text passes the controller's guard.
