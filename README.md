# Live interpreter session, modelled in Dafny

The application is a browser console for real-time spoken translation. The
user speaks into the microphone, and a remote live session sends back the
translated speech as audio chunks. It also sends partial transcriptions of
both sides and turn-completion and interruption signals. A React hook keeps
the session state between these events: the status, the error message, the
transcript lines, a per-speaker accumulator for the current turn, a playback
cursor, the set of pending audio sources and the device and network resources.
A presenter view shows only the finished lines of the interpreter.

The model has five modules:

- `Types`: the transcript line, the status, the two speaker names
  ("You" and `Gemini (<language>)`) and which statuses count as active.
- `Transcript`: the two transcript updaters as pure functions on the list of
  lines. A partial transcription rewrites the speaker's open last line or opens
  a new one. Turn completion marks every line final. Their effect on a `Turn`
  (status, lines, both accumulators) is proved, together with an invariant
  that every message keeps: final lines come first, and an open last line
  shows its side's accumulated text.
- `Presentation`: the presenter view's filter and its properties. The view
  is an order-preserving, complete selection of the final non-"You" lines. A
  partial transcription never changes it. After turn completion it is exactly
  the non-"You" lines.
- `Playback`: the gapless scheduler as a pure specification over the chunks
  scheduled since the last reset. Each chunk starts at `max(cursor, now)` and
  moves the cursor to its end. Windows never overlap, the cursor never moves
  back, and playback is gapless when chunks arrive ahead of the cursor. A
  `BufferSource` class models a playback handle that can be stopped.
- `LiveSession`: the hook as a class `GeminiLive` whose fields are the
  hook's state and refs. Its methods are `stopSession`, `startSession`, the
  four session callbacks, the language-change effect and its run at mount. Each method's
  `modifies` clause names exactly the fields the source writes, so "nothing
  else changes" follows from the frame. Each method keeps the invariant
  `Valid()`:
  - the cursor equals the specification cursor of the scheduled chunks;
  - sources are pending only while there is an output context;
  - pending sources end by the cursor and never overlap;
  - the transcript is consistent.

Assumptions of the model:

- Time is an exact non-negative real. The clock reading `now` is a parameter.
  Decoding a chunk is a function parameter that gives the chunk's duration.
- The start-up steps the environment decides are parameters: the API key
  (empty means unset), getting the microphone, and creating the audio contexts
  together with the connect call.
- The hook is mounted (`Mount`) before any other event. Mounting runs the
  language effect once, which only clears its first-render flag, so the first
  language change of a running session already restarts it.
- Each event is handled to completion before the next one. That includes one
  server message, even though its handler awaits the decoder between moving
  the cursor and starting the chunk.
- State writes happen in source order. React's batching of state updates is
  not modelled.

Behaviours kept as written:

- On a runtime error or a failed start, the code writes `Error` and then
  stops the session, and stopping writes `Idle` first. So the last status is
  `Idle`, and the error message stays set.
- The accumulators are not reset when a line is pushed. So a "You" line
  opened after an interpreter line in the same turn repeats the whole turn's
  input so far (`Transcript.InterleavedTurnRepeatsInput`).
- A message that carries both audio and an interruption schedules its chunk
  and stops it at once.

## Model

| member | source | states |
|---|---|---|
| `Types.RemoteSpeaker` | hooks/useGeminiLive.ts:147 | the interpreter's speaker name is never the user's "You", so the two sides never share a line |
| `Types.RemoteSpeakerInjective` | hooks/useGeminiLive.ts:147 | the speaker name determines the target language |
| `Types.IsActive` | hooks/useGeminiLive.ts:216 | a session is active exactly while Connecting, Listening or Speaking |
| `Transcript.OpenTurn` | hooks/useGeminiLive.ts:132-133 | an open turn is always the speaker's own last line, and there is none once every line is final |
| `Transcript.UpdatePartial` | hooks/useGeminiLive.ts:131-139 | the last line becomes an open line of the speaker holding the accumulated text; the length is unchanged exactly when the old last line was that speaker's open line, otherwise it grows by one; earlier lines and final lines are untouched; when a new line is opened, every old line keeps its place unchanged |
| `Transcript.MarkAllFinal` | hooks/useGeminiLive.ts:180 | same length; every line final with its speaker and text kept |
| `Transcript.ReceiveInput` | hooks/useGeminiLive.ts:130-139 | the input accumulator grows by the text, status and output side are kept, the transcript grows by at most one line, and its last line is an open "You" line holding the accumulator |
| `Transcript.ReceiveOutput` | hooks/useGeminiLive.ts:143-154 | the output accumulator grows by the text, the status is Speaking, the input side is kept, the transcript grows by at most one line, and its last line is an open interpreter line holding the accumulator |
| `Transcript.CompleteTurn` | hooks/useGeminiLive.ts:180-183 | status Listening, both accumulators empty, same number of lines, every line final |
| `Transcript.ApplyContent` | hooks/useGeminiLive.ts:129-184 | a message adds at most two lines; with turn completion it ends Listening with empty accumulators and every line final; otherwise the status is Speaking after an output transcription and unchanged without one; a message with none of the three changes nothing |
| `Transcript.InputTranscription` | hooks/useGeminiLive.ts:129-139 | input accumulator becomes old + text; an open "You" last line only changes its text to the accumulator; otherwise exactly one open "You" line with the accumulator is appended; status and output side unchanged |
| `Transcript.OutputTranscription` | hooks/useGeminiLive.ts:142-155 | the same rule for the interpreter's name and the output accumulator, and the status becomes Speaking |
| `Transcript.PartialIsLocal` | hooks/useGeminiLive.ts:131-154 | a partial event changes no line but the last, changes no final line, and adds at most one line |
| `Transcript.UpdatePartialKeepsFinalPrefix` | hooks/useGeminiLive.ts:131-154 | if final lines come before open ones, they still do after a partial event |
| `Transcript.TurnCompletion` | hooks/useGeminiLive.ts:179-184 | every line final with speaker, text and length kept; both accumulators empty; status Listening |
| `Transcript.CompleteTurnIdempotent` | hooks/useGeminiLive.ts:179-184 | completing a turn twice equals completing it once |
| `Transcript.PartialAfterCompletionOpensLine` | hooks/useGeminiLive.ts:133-138 | after turn completion the next partial event of either side appends a new open line |
| `Transcript.ReceiveInputKeepsConsistent` | hooks/useGeminiLive.ts:129-139 | an input transcription keeps the transcript invariant |
| `Transcript.ReceiveOutputKeepsConsistent` | hooks/useGeminiLive.ts:142-155 | an output transcription keeps the transcript invariant |
| `Transcript.CompleteTurnIsConsistent` | hooks/useGeminiLive.ts:179-184 | a completed turn satisfies the transcript invariant |
| `Transcript.ApplyContentKeepsConsistent` | hooks/useGeminiLive.ts:128-184 | every message's transcript handlers, in source order, keep the transcript invariant |
| `Transcript.InterleavedTurnRepeatsInput` | hooks/useGeminiLive.ts:130-138 | input "Hello ", output "Hallo ", input "world" ends with a third line "You: Hello world" after "You: Hello " |
| `Presentation.Presented` | PresentationView.tsx:19 | "You" lines and open lines are never shown; a final interpreter line of any language always is |
| `Presentation.FilteredTranscript` | PresentationView.tsx:19 | the view is no longer than the transcript, and holds only final lines of the transcript not spoken by "You" |
| `Presentation.RemoteLines` | PresentationView.tsx:19 | the lines not spoken by "You" are lines of the transcript, no more of them than its length |
| `Presentation.ViewSelectsPresentedLines` | PresentationView.tsx:19 | there are strictly increasing indices that pick the view's lines from the transcript in order, and they are exactly the positions of the final non-"You" lines |
| `Presentation.FilterAppend` | PresentationView.tsx:19 | filtering distributes over concatenation |
| `Presentation.PartialLeavesViewUnchanged` | PresentationView.tsx:19 | a partial transcription of either side leaves the view unchanged |
| `Presentation.ViewOfFinishedTranscript` | PresentationView.tsx:19 | when every line is final the view is exactly the non-"You" lines |
| `Presentation.ViewAfterTurnComplete` | hooks/useGeminiLive.ts:180 | after turn completion the view is exactly the non-"You" lines of the earlier transcript, in order, each marked final |
| `Presentation.RemoteLinesOfFinished` | hooks/useGeminiLive.ts:180 | marking lines final commutes with keeping the non-"You" lines |
| `Presentation.MarkAllFinalAppend` | hooks/useGeminiLive.ts:180 | marking lines final distributes over concatenation |
| `Playback.StartTime` | hooks/useGeminiLive.ts:160 | a chunk starts no earlier than the cursor or the clock, at one of them |
| `Playback.CursorAfter` | hooks/useGeminiLive.ts:160-169 | scheduling chunks never moves the cursor back |
| `Playback.Schedule` | hooks/useGeminiLive.ts:157-170 | one playback window per scheduled chunk |
| `Playback.ScheduleAppend` | hooks/useGeminiLive.ts:160-169 | scheduling one more chunk starts it at `max(cursor, now)`, adds its window and moves the cursor to its end |
| `Playback.WindowsDoNotOverlap` | hooks/useGeminiLive.ts:157-170 | each window starts no earlier than the initial cursor and its arrival, lasts the chunk's duration, and ends before every later window starts and by the final cursor |
| `Playback.CursorNeverDecreases` | hooks/useGeminiLive.ts:160-169 | the cursor never moves back and advances by at least the total duration |
| `Playback.GaplessWhenAhead` | hooks/useGeminiLive.ts:160-169 | when each chunk arrives before the cursor, each starts where the previous one ends and the cursor advances by exactly the total duration |
| `Playback.BufferSource.constructor` | hooks/useGeminiLive.ts:162-168 | a new source starts at the given time, lasts the buffer's duration and is not stopped |
| `Playback.BufferSource.Stop` | hooks/useGeminiLive.ts:174 | the source is stopped |
| `LiveSession.SystemInstructionNamesLanguage` | hooks/useGeminiLive.ts:106 | distinct target languages give distinct system instructions |
| `LiveSession.SystemInstruction` | hooks/useGeminiLive.ts:106 | the instruction is the fixed interpreter text with the target language in its place, and nothing else |
| `LiveSession.StartFailure` | hooks/useGeminiLive.ts:85-97 | start-up fails exactly when the key is unset, the microphone fails or the connection setup fails, with the first failing step's reason |
| `LiveSession.GeminiLive.constructor` | hooks/useGeminiLive.ts:11-33 | the first render: Idle, no error, no lines, empty accumulators, cursor 0, nothing pending, no resources |
| `LiveSession.GeminiLive.StopAudioSources` | hooks/useGeminiLive.ts:68-69 | every pending source is stopped and the set is empty |
| `LiveSession.GeminiLive.ReleaseResources` | hooks/useGeminiLive.ts:38-72 | every resource reference is null; pending sources are stopped and cleared only when there was an output context |
| `LiveSession.GeminiLive.ClearTranscript` | hooks/useGeminiLive.ts:74-76 | no lines, both accumulators empty |
| `LiveSession.GeminiLive.ResetCursor` | hooks/useGeminiLive.ts:77 | the cursor is 0 |
| `LiveSession.GeminiLive.StopSession` | hooks/useGeminiLive.ts:35-79 | Idle, no lines, empty accumulators, cursor 0, nothing pending, every pending source stopped, no resources, error kept; a second stop changes nothing |
| `LiveSession.GeminiLive.FailStart` | hooks/useGeminiLive.ts:199-203 | the start error is recorded, then the session is stopped |
| `LiveSession.GeminiLive.AcquireResources` | hooks/useGeminiLive.ts:85-97 | the failure reported is exactly the first failing start-up step; on success the microphone, both contexts and a session configured for the target language are set |
| `LiveSession.GeminiLive.StartSession` | hooks/useGeminiLive.ts:81-107 | on success: Connecting, no error, microphone, both contexts and a session configured for the target language, the rest unchanged; on failure: stopped, with the first failing step's reason as the error |
| `LiveSession.GeminiLive.OnOpen` | hooks/useGeminiLive.ts:109-127 | Listening; the capture nodes are set exactly when there is an input context |
| `LiveSession.GeminiLive.OnInputTranscription` | hooks/useGeminiLive.ts:129-140 | the session's turn is updated as the input transcription rule says |
| `LiveSession.GeminiLive.OnOutputTranscription` | hooks/useGeminiLive.ts:142-155 | the session's turn is updated as the output transcription rule says, for the current target language |
| `LiveSession.GeminiLive.OnAudioData` | hooks/useGeminiLive.ts:157-171 | a chunk is scheduled exactly when the data is non-empty and there is an output context; it starts at `max(cursor, now)` after every pending source ends, the cursor moves to its end, and it joins the pending set; its window extends the schedule |
| `LiveSession.GeminiLive.OnSourceEnded` | hooks/useGeminiLive.ts:165-167 | only that source leaves the pending set |
| `LiveSession.GeminiLive.OnInterrupted` | hooks/useGeminiLive.ts:173-177 | every pending source is stopped, the set is empty and the cursor is 0; transcript, accumulators and status are untouched |
| `LiveSession.GeminiLive.OnTurnComplete` | hooks/useGeminiLive.ts:179-184 | the session's turn is completed |
| `LiveSession.GeminiLive.OnTranscriptions` | hooks/useGeminiLive.ts:129-155 | the input transcription, then the output transcription, as the transcript rules say |
| `LiveSession.GeminiLive.OnPlayback` | hooks/useGeminiLive.ts:157-177 | audio is scheduled, then an interruption stops everything pending, including the chunk just scheduled |
| `LiveSession.GeminiLive.OnServerContent` | hooks/useGeminiLive.ts:128-185 | the handlers run in source order: the turn follows the transcript rules; the chunk and the pending set follow the playback rules |
| `LiveSession.GeminiLive.OnMessage` | hooks/useGeminiLive.ts:128-185 | a message without server content changes nothing |
| `LiveSession.GeminiLive.OnError` | hooks/useGeminiLive.ts:186-190 | the error is recorded and the session is stopped, ending Idle with the error kept |
| `LiveSession.GeminiLive.OnClose` | hooks/useGeminiLive.ts:191-195 | the status becomes Idle and nothing else changes |
| `LiveSession.GeminiLive.RunLanguageEffect` | hooks/useGeminiLive.ts:206-224 | skipped on the first render; afterwards the effect stops an active session once and starts it once, a failing start stops it once more, and an inactive session is left unchanged |
| `LiveSession.GeminiLive.Mount` | hooks/useGeminiLive.ts:206-213 | the effect's run at mount only clears the first-render flag and changes nothing else |
| `LiveSession.GeminiLive.ChangeTargetLanguage` | hooks/useGeminiLive.ts:208-224 | after the mount: the same language changes nothing; a new language restarts an active session (the effect stops once and starts once, a failing start stops once more, and a successful start is configured for the new language) and leaves an inactive one unchanged |

## Left out

- Audio coding: `createBlob`, `decode` and `decodeAudioData` come from `utils/audio`, which is not part of this model. Decoding is a function parameter that returns a duration. No PCM round trip is claimed.
- Microphone capture: `onaudioprocess` and the sending of captured frames to the session (hooks/useGeminiLive.ts:115-123) are device plumbing. `OnOpen` records only that the two capture nodes are set.
- The remote client: the `GoogleGenAI` client and the model and voice configuration are a foreign call. Only the system instruction and the outcome of start-up are modelled.
- Connection failures: a connect promise that rejects later is not caught by the `try` block. The model covers only a failure raised while the session is being set up.
- Closing the remote session: a failure to close is only logged, so the model does not represent it.
- Closed contexts: an audio context that is already closed is not distinguished from one that is set. Every set context is treated as open.
- React: state batching, the `statusRef` mirror that lags one render behind the status (the model's `OnClose` reads the status itself), and `useCallback` identities are not modelled. In particular, the model applies each `setTranscript` updater when it is queued. React may instead run an updater at the next render, where it reads the accumulator refs as they are then. For example, the output-side updater is queued after a status update. If a turn completion in the same message has emptied the output accumulator before that render, the source's finished interpreter line could hold "" where the model keeps the text.
- Timing: the 100 ms delay before restarting after a language change is left out. So is any event arriving during the `await`s of stopping, starting or decoding. Every event runs to completion in the model.
- Floating point: audio times and durations are exact reals, not doubles.
- LiveSession.GeminiLive.OnServerContent: two ways the message handler aborts part-way are not modelled. Reading the inline audio of a model turn whose first part has no inline data, or that has no parts, throws. A failed decode also aborts, after the cursor has already moved to `max(cursor, now)` but before any source is scheduled. In both cases the source skips the rest of the handler (interruption and turn completion), while the transcript updates already made remain. The model reads the audio as present or absent, and decoding always yields a duration.
- Missing text: a transcription without a `text` field, which JavaScript would append as "undefined", is out of scope. The model always receives a string.
- UI: the console layout, the language selector, status colours, scrolling and `console.error` logging are left out.
- LiveSession.GeminiLive.OnMessage: its contract states only the transcript outcome and whether a chunk was scheduled. The full playback outcome is stated by `OnServerContent`, which it calls.
