# Live voice session: playback scheduler and session lifecycle

This project models the `useLiveSession` hook of a voice client for a resume web page.
The hook opens a microphone and a speaker, connects to a hosted streaming voice model,
sends captured microphone blocks, and plays back the model's spoken answers. Playback is
gapless: each received chunk starts at `max(nextStartTime, currentTime)` and the clock
then advances by the chunk's duration. When the model reports that the user has started
talking over it (an interruption), all playback stops.

The model measures time in ticks of the 24 kHz output clock. Every playback buffer is
created at 24000 Hz with one frame per 16-bit value, so a chunk of `n` values lasts
exactly `n` ticks. That makes the scheduling rule (max, then add, then compare) exact
integer arithmetic.

Modules:

- `Wrappers`: `Option` and `Result`.
- `Pcm`: how a received chunk becomes channel data.
  - The bytes are read as little-endian signed 16-bit values.
  - An odd byte count is rejected; `new Int16Array` throws a RangeError there.
  - Each value `v` becomes the sample `v / 32768`.
  - `FillChannel` is the decode loop, proved against the function `Decode`.
  - `WriteInt16s` is a reference encoder. It is there to state the round trip.
- `SessionModel`: the hook's state as a value `Hook`, with one transition function per callback.
  - The state is the React state, the refs, and a log of effects (sources stopped,
    sources started, blocks queued for sending, handles leaked, close requests).
  - `Step` and `Run` drive the hook with any sequence of events.
  - `Inv` is what every reachable state satisfies.
- `SessionProperties`: lemmas, both about single callbacks and about arbitrary event sequences.
- `LiveSessionHook`: the class `LiveSession`.
  - Its fields are the hook's state and refs.
  - Each callback is a method that updates the fields in place. It ensures
    `Model() == <transition function>(old(Model()))` and keeps `Valid()`.
  - `StopAll` is the `forEach(node => node.stop())` loop over the active set.

The model follows the code as written. Several behaviours differ from what one might
expect, and they are stated as lemmas:

- `connect` has no guard. From `connected` it sets `connecting` again. It overwrites the
  open audio contexts without closing them (`ConnectFromAnyState`).
- Every failure path ends in `disconnected`, not `error`. The catch block sets `error`,
  then `cleanup` runs last and sets `disconnected` (`ConnectFailureReported`,
  `TeardownEndsDisconnected`).
- `cleanup` never resets `nextStartTime`. Only an interruption does. After a disconnect
  and a reconnect, the first chunk therefore waits for the old clock value
  (`ReconnectKeepsStaleClock`).
- A chunk with an odd byte count is not dropped.
  - By the time the decoder throws, the handler has already set `isTalking` and raised
    the clock.
  - The exception ends the handler, so an interruption flag in the same message is
    never handled.
  - On an idle player this leaves `isTalking` true with no source in the set. Only a late
    `ended` of an already stopped source, or a later chunk, can lower it again
    (`OddChunkAbortsHandler`, `OddChunkLeavesTalkingWithoutSources`).
- `onopen` sets `connected` even after everything has been torn down (`OpenAfterTeardown`).

## Model

| member | source | states |
|---|---|---|
| `Pcm.Int16FromLE` | hooks/useLiveSession.ts:115 | two bytes read little-endian give a value in [-32768, 32767] with the same 16 bits, negative exactly when the high byte is at least 128 |
| `Pcm.Int16LERoundTrip` | hooks/useLiveSession.ts:115 | reading back the two's-complement bytes of any 16-bit value gives the value |
| `Pcm.Int16LEBytesRoundTrip` | hooks/useLiveSession.ts:115 | encoding the value read from any byte pair gives the same pair |
| `Pcm.ReadInt16s` | hooks/useLiveSession.ts:115 | the Int16Array view succeeds iff the byte count is even, has half as many values, value i comes from bytes 2i and 2i+1, an odd count fails (the RangeError); the model's error records the length |
| `Pcm.ReadWriteRoundTrip` | hooks/useLiveSession.ts:115 | reading the little-endian encoding of any sequence of 16-bit values gives that sequence back |
| `Pcm.Decode` | hooks/useLiveSession.ts:116-120 | the buffer has one sample per 16-bit value |
| `Pcm.DecodeAt` | hooks/useLiveSession.ts:118-120 | sample i is value i divided by 32768 |
| `Pcm.DecodeInUnitRange` | hooks/useLiveSession.ts:118-120 | for 16-bit inputs every sample lies in [-1, 1) |
| `Pcm.FillChannel` | hooks/useLiveSession.ts:117-120 | the loop leaves the channel array equal to the decoded samples |
| `SessionModel.Cleanup` | hooks/useLiveSession.ts:23-56 | defines cleanup: processor, input source, stream, both contexts and analyser released, every source stopped and the set cleared, state disconnected, not talking; clock, error and session ref untouched (proved in `CleanupTearsDown`, `CleanupIdempotent`) |
| `SessionModel.Connect` | hooks/useLiveSession.ts:58-76 | defines connect up to the microphone request: connecting, error cleared, both contexts opened and the analyser created, with no guard on the current state; contexts still open are counted as leaked (`ConnectFromAnyState`) |
| `SessionModel.MicrophoneGranted` | hooks/useLiveSession.ts:78-181 | defines the rest of connect: the stream is stored; with the input context open the source, processor and session are stored and capture is wired; handles overwritten while open are counted as leaked (`ConnectThenGrantWiresCapture`) |
| `SessionModel.ErrorText` | hooks/useLiveSession.ts:185 | defines the error text of the catch block: the message when present and non-empty, the fixed text otherwise (`ConnectFailureReported`) |
| `SessionModel.ConnectThrew` | hooks/useLiveSession.ts:183-188 | defines the catch block: error text set, state error, then cleanup, which leaves disconnected (`ConnectFailureReported`, `MicrophoneRefused`) |
| `SessionModel.Opened` | hooks/useLiveSession.ts:98-101 | defines onopen: state connected and nothing else changed (`OnlyOpenConnects`, `OpenAfterTeardown`) |
| `SessionModel.Schedule` | hooks/useLiveSession.ts:122-141 | defines starting one source: a playback with a fresh id at the clock, routed through the analyser when it exists, the clock advanced by its length, the id added to the set (`ChunkScheduling`) |
| `SessionModel.PlayChunk` | hooks/useLiveSession.ts:104-141 | defines the audio branch of onmessage: talking, clock raised to max(clock, currentTime), the bytes decoded and scheduled; on an odd byte count the state after the throw keeps only the first two steps (`ChunkScheduling`, `OddChunkAbortsHandler`) |
| `SessionModel.ChunkThrows` | hooks/useLiveSession.ts:104-115 | defines when onmessage throws: a non-empty chunk reaches the decoder (output context open) with an odd byte count (`OddChunkAbortsHandler`) |
| `SessionModel.Interrupt` | hooks/useLiveSession.ts:145-153 | defines the interruption branch: every source stopped, the set cleared, clock 0, not talking (`InterruptionResets`) |
| `SessionModel.Receive` | hooks/useLiveSession.ts:102-154 | defines onmessage: the audio branch when a chunk arrives and the output context is open, then the interruption branch unless the audio branch threw (`AudioThenInterruptionInOneMessage`, `StepKeepsSchedule`) |
| `SessionModel.Ended` | hooks/useLiveSession.ts:132-137 | defines the ended listener: that id removed, talking lowered when the set becomes empty (`EndedRemovesThatSource`) |
| `SessionModel.Closed` | hooks/useLiveSession.ts:155-158 | defines onclose as cleanup (`TeardownEndsDisconnected`) |
| `SessionModel.Errored` | hooks/useLiveSession.ts:159-163 | defines onerror: the fixed connection-error text, then cleanup (`TransportErrorReported`) |
| `SessionModel.Disconnect` | hooks/useLiveSession.ts:191-198 | defines disconnect: a close request when a session was stored, then cleanup (`DisconnectRequestsClose`) |
| `SessionModel.AudioProcessed` | hooks/useLiveSession.ts:170-178 | defines onaudioprocess: the captured block appended to the outgoing queue while the processor is wired (`CaptureQueuesInOrder`) |
| `SessionModel.Step` | hooks/useLiveSession.ts:23-198 | dispatches each event to the callback it stands for (`StepKeepsInv`) |
| `SessionModel.Run` | hooks/useLiveSession.ts:23-198 | applies a sequence of callbacks in order (`RunKeepsInv`) |
| `SessionModel.Inv` | hooks/useLiveSession.ts:13-21 | defines what every reachable state of the refs satisfies: ids issued in order and below the counter, a non-empty set only while talking, the analyser exactly while the output context is open, every started source through the analyser with samples in [-1, 1) (`RunKeepsInv`) |
| `SessionProperties.InitialSatisfiesInv` | hooks/useLiveSession.ts:8-21 | the first render satisfies the invariant, holds no handle, and its (empty) schedule is well formed |
| `SessionProperties.StepKeepsInv` | hooks/useLiveSession.ts:23-198 | every callback keeps the invariant: ids issued in order, set members below the counter, non-empty set implies talking, analyser exactly with the output context, started samples in [-1, 1) |
| `SessionProperties.RunKeepsInv` | hooks/useLiveSession.ts:23-198 | any sequence of callbacks keeps the invariant |
| `SessionProperties.StepNeverReadds` | hooks/useLiveSession.ts:122-141 | a callback never puts an already issued id that has left the set back into it |
| `SessionProperties.RemovedSourceNeverReturns` | hooks/useLiveSession.ts:133-150 | once a source leaves the set (ended, interrupted or cleaned up) no later sequence of events brings it back: each source is added once and removed once |
| `SessionProperties.SourcesWereStarted` | hooks/useLiveSession.ts:139-141 | every member of the set was started, under its own id |
| `SessionProperties.StepKeepsSchedule` | hooks/useLiveSession.ts:110-141 | a callback without the interrupted flag keeps the started sources non-overlapping and ending by the clock, never shrinks the start log and never lowers the clock |
| `SessionProperties.NoOverlapWithoutInterruption` | hooks/useLiveSession.ts:110-141 | over any event sequence without an interruption the clock is monotone and the newly started sources are pairwise non-overlapping |
| `SessionProperties.ConsecutiveChunksDoNotOverlap` | hooks/useLiveSession.ts:110-141 | from the first render, with no interruption, chunk k+1 starts no earlier than chunk k's start plus its length |
| `SessionProperties.ChunkScheduling` | hooks/useLiveSession.ts:104-141 | a playable chunk starts at max(clock, currentTime), so never before either; the clock becomes start + n ticks; the set grows by exactly one fresh id; the samples are the decoded bytes; playback goes through the analyser; talking |
| `SessionProperties.BackToBackChunks` | hooks/useLiveSession.ts:110-141 | of two consecutive chunks, the second starts at max(end of the first, its device time) |
| `SessionProperties.OddChunkAbortsHandler` | hooks/useLiveSession.ts:105-115 | an odd-length chunk only sets talking and raises the clock to max(clock, currentTime); no source is started and the interruption branch is skipped |
| `SessionProperties.OddChunkLeavesTalkingWithoutSources` | hooks/useLiveSession.ts:105-115 | on an idle player an odd chunk, even one flagged interrupted, leaves talking true with an empty set |
| `SessionProperties.ChunkIgnoredAfterCleanup` | hooks/useLiveSession.ts:105 | a chunk after cleanup (no output context) changes nothing, isTalking included |
| `SessionProperties.InterruptionResets` | hooks/useLiveSession.ts:145-153 | after an interrupted message the set is empty, the clock is 0, isTalking is false, every previous source was stopped, and state and error are unchanged |
| `SessionProperties.InterruptionWhenIdle` | hooks/useLiveSession.ts:145-153 | on an empty set the interruption only zeroes the clock and lowers the flag |
| `SessionProperties.ChunkAfterInterruptionStartsNow` | hooks/useLiveSession.ts:110 | the chunk after an interruption starts at currentTime |
| `SessionProperties.AudioThenInterruptionInOneMessage` | hooks/useLiveSession.ts:104-153 | a message with audio and the flag first starts the chunk at max(clock, currentTime), then stops it with the rest: empty set, clock 0, not talking |
| `SessionProperties.EndedRemovesThatSource` | hooks/useLiveSession.ts:132-137 | ended removes exactly that id; isTalking is false iff the set is now empty, unchanged otherwise; nothing else changes |
| `SessionProperties.CleanupTearsDown` | hooks/useLiveSession.ts:23-56 | cleanup releases every handle, stops every source, empties the set, sets disconnected and not talking, keeps nextStartTime, error, the start log and the session ref |
| `SessionProperties.CleanupIdempotent` | hooks/useLiveSession.ts:23-56 | cleanup twice is cleanup once |
| `SessionProperties.TeardownEndsDisconnected` | hooks/useLiveSession.ts:155-198 | the catch block, onclose, onerror and disconnect all end in disconnected with every handle released, from any state |
| `SessionProperties.ConnectFailureReported` | hooks/useLiveSession.ts:183-188 | a connect failure leaves a non-empty error: err.message when present and non-empty, the fixed text otherwise; the final state is disconnected, not error |
| `SessionProperties.TransportErrorReported` | hooks/useLiveSession.ts:159-163 | onerror leaves the fixed connection-error text and state disconnected |
| `SessionProperties.DisconnectRequestsClose` | hooks/useLiveSession.ts:191-198 | disconnect requests a close whenever a session was ever stored, and again on a second disconnect since the ref is never cleared |
| `SessionProperties.ConnectFromAnyState` | hooks/useLiveSession.ts:58-76 | connect sets connecting and clears error from any state, opens both contexts, counts still-open contexts as leaked, keeps the set and the clock |
| `SessionProperties.OnlyOpenConnects` | hooks/useLiveSession.ts:98-99 | no callback other than onopen moves a state into connected |
| `SessionProperties.OpenAfterTeardown` | hooks/useLiveSession.ts:98-99 | onopen after cleanup yields connected with every handle released |
| `SessionProperties.ReconnectKeepsStaleClock` | hooks/useLiveSession.ts:23-56 | after disconnect, connect and onopen the clock is the old one and the first chunk starts at max(old clock, currentTime) |
| `SessionProperties.CaptureQueuesInOrder` | hooks/useLiveSession.ts:170-178 | while the processor is wired each captured block is queued once, in capture order, and nothing else changes |
| `SessionProperties.ConnectThenGrantWiresCapture` | hooks/useLiveSession.ts:58-181 | connect followed by the microphone grant leaves every ref set and the state connecting |
| `SessionProperties.ThreeBlocksThreeSends` | hooks/useLiveSession.ts:170-178 | three captured 4096-sample blocks give three queued sends in order |
| `SessionProperties.TwoHalfSecondChunks` | hooks/useLiveSession.ts:110-141 | two 0.5 s chunks on an idle clock start at 0 and exactly 12000 ticks later; talking stays true after the first ends and drops after the second |
| `SessionProperties.InterruptedChunk` | hooks/useLiveSession.ts:145-153 | a chunk interrupted before it ends is stopped, the set is empty and talking drops at once |
| `SessionProperties.MicrophoneRefused` | hooks/useLiveSession.ts:183-188 | a refused microphone leaves its message, every handle released and state disconnected |
| `LiveSessionHook.LiveSession.constructor` | hooks/useLiveSession.ts:8-21 | the fields start as the first render: disconnected, nothing open, clock 0, no sources |
| `LiveSessionHook.LiveSession.StopAll` | hooks/useLiveSession.ts:43-45 | the loop calls stop on every member of the set and changes nothing else |
| `LiveSessionHook.LiveSession.Cleanup` | hooks/useLiveSession.ts:23-56 | releases every handle, stops and clears the set, disconnected, not talking, nextStartTime and error kept; matches the cleanup transition |
| `LiveSessionHook.LiveSession.Connect` | hooks/useLiveSession.ts:58-76 | connecting, error cleared, both contexts and the analyser set, still-open contexts counted as leaked |
| `LiveSessionHook.LiveSession.MicrophoneGranted` | hooks/useLiveSession.ts:78-181 | the stream is stored; with the input context open the source, processor and session are stored too |
| `LiveSessionHook.LiveSession.ConnectFailed` | hooks/useLiveSession.ts:183-188 | error set from err.message or the fixed text, then cleanup: final state disconnected |
| `LiveSessionHook.LiveSession.OnOpen` | hooks/useLiveSession.ts:98-101 | state connected, nothing else changes |
| `LiveSessionHook.LiveSession.PlayChunk` | hooks/useLiveSession.ts:106-141 | talking, clock raised, bytes read (throws iff odd), channel filled, source started at the clock, clock advanced, id added |
| `LiveSessionHook.LiveSession.Interrupt` | hooks/useLiveSession.ts:147-152 | stops every source, clears the set, clock 0, not talking |
| `LiveSessionHook.LiveSession.OnMessage` | hooks/useLiveSession.ts:102-154 | matches the onmessage transition and reports whether the handler threw |
| `LiveSessionHook.LiveSession.OnEnded` | hooks/useLiveSession.ts:132-137 | removes the id; talking false iff the set is now empty, unchanged otherwise |
| `LiveSessionHook.LiveSession.OnClose` | hooks/useLiveSession.ts:155-158 | cleanup |
| `LiveSessionHook.LiveSession.OnError` | hooks/useLiveSession.ts:159-163 | fixed error text, then cleanup: disconnected |
| `LiveSessionHook.LiveSession.Disconnect` | hooks/useLiveSession.ts:191-198 | one close request when a session is stored, then cleanup |
| `LiveSessionHook.LiveSession.OnAudioProcess` | hooks/useLiveSession.ts:170-178 | while the processor is wired, the block is appended to the outgoing queue |

## Left out

- Web Audio, `getUserMedia` and the streaming client are foreign browser and remote APIs. They become events, booleans for the refs, and integer device times passed in as `currentTime`.
- Base64 decoding of the audio field and the capture encoder live in `utils/audio`. `utils/audio` is not part of this model. A message carries the already decoded bytes. An empty byte sequence stands for an absent or empty audio field.
- Capture blocks are queued in `effects.outbox` without encoding. The promise sequencing of each send (`sessionPromise.then`) is not modelled.
- `session.close()` after disconnect is recorded only as a close request. Its outcome and its logged errors are not modelled.
- The session configuration (model name, voice, system instruction) is data passed to the remote API and has no behaviour here.
- `Pcm.Int16FromLE`: the Int16Array view reads in the host's byte order; the model fixes little-endian, the byte order of every mainstream browser platform.
- Logging (`console.log` and `console.error` at lines 100, 146, 156, 160 and 184 of hooks/useLiveSession.ts) has no effect on the hook's state and is not modelled.
- Float32 sample rounding and the floating-point device clock are not modelled: samples are reals and time is integer ticks.
- React state updates are applied immediately, in program order. Batching does not change the final values.
- The callbacks of an earlier session that is still open are not told apart from the current one's.
- `LiveSession.MicrophoneGranted`: when the input context was released while `getUserMedia` was pending, the method stores the stream and stops. The TypeError that follows in the code is delivered as a separate `ConnectFailed` event.
- `OnAudioProcess` only queues a block while the processor is wired. The code has no such check; the browser does not invoke the callback of a disconnected processor.
- The analyser's settings and the visualizer (components/AudioVisualizer.tsx), the page (App.tsx, components/ResumeView.tsx) and the static resume data (constants.ts) are presentation, not session logic.
