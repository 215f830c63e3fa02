# browser-vad in Dafny

A model of the voice-activity-detection core of browser-vad. Here is how a
frame moves through the system:

1. The main thread hands an audio chunk to the `WorkerManager`.
2. The manager posts it to a web worker under a fresh message id. It keeps
   the request pending until the worker answers, an error arrives, or its
   5000 ms timer fires.
3. Inside the worker, `VadWorker` checks each message with the type guards
   and routes it to a `SileroProcessor`.
4. The processor buffers samples until a full frame is available. It scores
   the frame with the Silero ONNX model, carrying the recurrent state (h, c)
   from one call to the next. It answers with a `VadResult`.
5. Back on the main thread, `VadEngine` turns each accepted verdict into
   `speech_start`, `speech_data` and `speech_stop` events. It uses a
   two-state machine with a silence grace period (`minSilenceDuration`) and a
   forced cut-off (`maxSpeechDuration`).

Configuration is validated and merged over the defaults. The audio helpers
normalise and resample sample blocks.

One Dafny module per source file:

- `Types` holds the record shapes and the dynamic `Value` a record becomes
  when posted.
- `TypeGuards`
- `Validation`
- `Defaults`
- `AudioUtils`
- `Silero` holds `SileroProcessor`.
- `Worker` holds `VadWorker`.
- `Manager` holds `WorkerManager`.
- `Engine` holds `VadEngine`.

`Wrappers` holds `Option`, `Result` and `Outcome`.

Some operations change state step by step in the source. They are classes
with `modifies` clauses, and each method is proved against a pure function
of the old state:

- `VadEngine` transitions against `Engine.Step`;
- `SileroProcessor.ProcessAudio` against `Silero.ProcessAudioSpec`;
- `RejectAllPendingMessages` against `Manager.RejectionsBelow`.

The properties live as lemmas about those functions:

- alternation of starts and stops, through the reference grammar
  `Engine.Replay`;
- conservation of samples;
- the h/c pack–split round trip;
- each pending request settling at most once.

Small scenario methods drive the classes through concrete call sequences.

Inputs from outside the model arrive as parameters:

- the clock (`Date.now()`) is the integer `now`;
- the ONNX runtime is the `Loader` and `Runner` function parameters;
- worker replies, `onerror` and timer firings are method calls on the
  manager;
- the outcome of the worker round trip is a parameter of the engine.

The events the engine dispatches are a ghost log. The replies the worker
posts are the `responses` field. The promise settlements of the manager are
the `settled` field.

## Model

| member | source | states |
|---|---|---|
| TypeGuards.IsWorkerMessage | src/utils/type-guards.ts:3-10 | true exactly for an object whose `type` property is the string init, process, reset or destroy |
| TypeGuards.IsWorkerResponse | src/utils/type-guards.ts:12-19 | true exactly for an object whose `type` property is the string ready, result or error |
| TypeGuards.IsVadResult | src/utils/type-guards.ts:21-29 | true exactly for an object with a number `probability`, a boolean `isSpeech` and a number `timestamp` |
| TypeGuards.IsAudioChunk | src/utils/type-guards.ts:31-39 | true exactly for an object with Float32Array `data`, a number `timestamp` and a number `sampleRate` |
| TypeGuards.MessageKindOf | src/worker/vad-worker.ts:21-33 | the request kind the dispatcher switches on is the one whose tag the `type` property holds |
| TypeGuards.ResponseKindOf | src/worker/worker-manager.ts:46 | the reply kind is the one whose tag the `type` property holds |
| TypeGuards.DecodeVadResult | src/utils/type-guards.ts:21-29 | yields a result exactly when the guard passes, and that result re-encodes to the value's three checked fields |
| TypeGuards.DecodeAudioChunk | src/utils/type-guards.ts:31-39 | yields a chunk exactly when the guard passes, and that chunk re-encodes to the value's three checked fields |
| TypeGuards.DecodeConfig | src/worker/vad-worker.ts:23 | the configuration of an `init` message is unreadable exactly when it is `undefined` or `null` |
| TypeGuards.NonObjectsRejected | src/utils/type-guards.ts:3-39 | `null` and every non-object fail all four guards |
| TypeGuards.ExtraFieldsIgnored | src/utils/type-guards.ts:3-39 | adding a property a guard does not read leaves that guard's verdict unchanged |
| TypeGuards.VadResultRoundTrip | src/utils/type-guards.ts:21-29 | a posted result passes `isVadResult` and reads back as itself |
| TypeGuards.AudioChunkRoundTrip | src/utils/type-guards.ts:31-39 | a posted chunk passes `isAudioChunk` and reads back as itself |
| TypeGuards.ConfigRoundTrip | src/worker/vad-worker.ts:22-23 | a posted configuration reads back as itself, absent fields included |
| TypeGuards.MessageRoundTrip | src/utils/type-guards.ts:3-10 | every posted request passes `isWorkerMessage` with its own kind, configuration and chunk |
| TypeGuards.ResponseRoundTrip | src/utils/type-guards.ts:12-19 | every posted reply passes `isWorkerResponse` with its own kind, data and error |
| Validation.ValidateConfig | src/config/validation.ts:3-27 | fails with the first violated constraint in source order, and passes exactly when no present field is negative (or, for the threshold, outside [0, 1]) |
| Validation.EmptyConfigPasses | src/config/validation.ts:3-27 | a configuration with every field absent passes |
| Validation.NegativeSampleRateRejected | src/config/validation.ts:4-6 | a negative sample rate is rejected with "Sample rate must be positive" whatever else is given |
| Validation.ZeroIsLikeAbsent | src/config/validation.ts:4-10 | a zero sample rate or frame size validates exactly as an absent one, through the truthiness guard |
| Validation.ThresholdRange | src/config/validation.ts:12-14 | a threshold in [0, 1] never causes a rejection; one outside is rejected when the earlier checks pass |
| Validation.DurationsRejectedWhenNegative | src/config/validation.ts:16-26 | once the sample-rate, frame-size and threshold checks pass, a negative min-silence duration is rejected with its own message, a negative min-speech duration likewise unless min-silence is also negative (whose message then wins), and a negative max-speech duration likewise when both earlier durations pass |
| Defaults.CreateConfig | src/config/defaults.ts:13-18 | every field the user gives (zero included) wins; every absent field takes its default; all seven fields are present |
| Defaults.CreateEmptyIsDefault | src/config/defaults.ts:3-18 | merging the empty configuration gives the default configuration |
| Defaults.CreateCompleteIsIdentity | src/config/defaults.ts:13-18 | a complete configuration passes through the merge unchanged |
| Defaults.CreateIdempotent | src/config/defaults.ts:13-18 | merging an already merged configuration changes nothing |
| Defaults.OverrideThreshold | src/config/defaults.ts:13-18 | overriding one field changes that field of the merge and no other |
| AudioUtils.MaxAbsBounds | src/utils/audio-utils.ts:3-7 | the running peak bounds every sample's magnitude, and a zero peak means every sample is zero |
| AudioUtils.DivideByPeak | src/utils/audio-utils.ts:11-13 | a sample divided by a peak that bounds it has magnitude at most 1 |
| AudioUtils.NormalizeAudio | src/utils/audio-utils.ts:1-16 | the length is kept; a silent input gives zeros; otherwise every sample is divided by the peak; every output is within [-1, 1] |
| AudioUtils.OutputLength | src/utils/audio-utils.ts:27-29 | the output length is `len / ratio` rounded half up |
| AudioUtils.LeftIndexInBounds | src/utils/audio-utils.ts:31-36 | every left index the loop reads lies inside the input |
| AudioUtils.InterpolateBetween | src/utils/audio-utils.ts:37-41 | past the end the output copies the left sample; otherwise it lies between its two neighbours |
| AudioUtils.ResampleAudio | src/utils/audio-utils.ts:18-45 | equal rates return the input itself; otherwise the output has the rounded length and each sample is the interpolation at `i * ratio`, with every read in bounds |
| AudioUtils.CreateAudioBuffer | src/utils/audio-utils.ts:47-57 | the chunk holds exactly the given data, sample rate and timestamp |
| AudioUtils.CreatedBufferCrossesBoundary | src/utils/type-guards.ts:31-39 | a constructed buffer, once posted, passes `isAudioChunk` and reads back as the same chunk |
| Silero.FrameSizeOf | src/worker/silero-processor.ts:48 | `config.frameSize || 512` under JavaScript truthiness of the property as read: the configured size when truthy, 512 when it is `undefined` or 0 |
| Silero.ThresholdOf | src/worker/silero-processor.ts:54 | `config.threshold || 0.5` under JavaScript truthiness of the property as read: the configured threshold when truthy, 0.5 when it is `undefined` or 0 |
| Silero.ZeroThresholdFallsBack | src/worker/silero-processor.ts:54 | a user threshold of 0 validates as an absent one, survives the merge as 0, and after crossing to the worker is replaced by 0.5 |
| Silero.ZeroFrameSizeFallsBack | src/worker/silero-processor.ts:48 | a user frame size of 0 validates as an absent one, survives the merge as 0, and after crossing to the worker is replaced by 512 |
| Silero.RelativeIndex | src/worker/silero-processor.ts:50-51 | a `slice` bound resolves to an index within the array, and an in-range bound to itself |
| Silero.Slice | src/worker/silero-processor.ts:124-125 | an in-range `slice` is the subsequence between its bounds |
| Silero.ConcatenateAudio | src/worker/silero-processor.ts:71-76 | the result has both lengths added, with the first buffer in front and the second behind |
| Silero.Accumulate | src/worker/silero-processor.ts:44-51 | the cut frame followed by the new buffer is the old buffer followed by the chunk; a frame is cut exactly when at least `frameSize` samples are buffered; with none cut the buffer holds everything; a whole frame size gives a frame of exactly that length |
| Silero.PackedState | src/worker/silero-processor.ts:101-106 | packing succeeds exactly when h fits in 256 slots and c in the 128 from slot 128, and gives 256 values |
| Silero.PackSplitRoundTrip | src/worker/silero-processor.ts:101-125 | packing 128-value h and c into `state` and splitting it as `stateN` is split gives h and c back |
| Silero.FailedInferenceIsSilence | src/worker/silero-processor.ts:83-144 | a sample rate `BigInt` rejects, a `RangeError` while packing `state`, or a throwing `run` each yield probability 0 with the recurrent state kept; a run with no output value scores 0 |
| Silero.CombinedStateCarriesOver | src/worker/silero-processor.ts:101-125 | with the combined-state format, a model that returns its `state` as `stateN` leaves h and c unchanged |
| Silero.ProcessAudioResults | src/worker/silero-processor.ts:39-69 | a result always carries the chunk's timestamp; a scored frame is speech exactly above the threshold; a short buffer gives the neutral result and keeps every sample; no sample is lost; the session is kept |
| Silero.UnloadedRejects | src/worker/silero-processor.ts:40-42 | without a session, every call throws "Silero processor not initialized" and changes nothing |
| Silero.SileroProcessor.constructor | src/worker/silero-processor.ts:5-13 | a new processor holds its configuration and no session, state or samples |
| Silero.SileroProcessor.Initialize | src/worker/silero-processor.ts:15-30 | a loaded model installs the session with zeroed state and an empty buffer; a failed load throws "Failed to initialize Silero VAD: " plus the error and changes nothing |
| Silero.SileroProcessor.ResetState | src/worker/silero-processor.ts:32-37 | h and c become 128 zeros and the buffer is emptied; the session is kept |
| Silero.SileroProcessor.ProcessAudio | src/worker/silero-processor.ts:39-69 | the result and the new fields are those `ProcessAudioSpec` gives for the old fields, and the samples ever buffered stay equal to the frames cut followed by the buffer |
| Silero.SileroProcessor.TakeFrame | src/worker/silero-processor.ts:44-51 | the frame cut and the new buffer are those `Accumulate` gives for the old buffer and the chunk |
| Silero.SileroProcessor.RunInference | src/worker/silero-processor.ts:78-145 | throws "Session not properly initialized" without a session or state; otherwise the probability and new state are those `InferenceOf` gives |
| Silero.SileroProcessor.PackState | src/worker/silero-processor.ts:101-106 | the array filled in place is the packed state |
| Silero.SileroProcessor.Reset | src/worker/silero-processor.ts:147-149 | the same state as `resetState` |
| Silero.SileroProcessor.Destroy | src/worker/silero-processor.ts:151-158 | session, h and c are dropped and the buffer emptied, the state a new processor has |
| Worker.ProcessReply | src/worker/vad-worker.ts:59-60 | a result becomes a `result` reply carrying it; a thrown error becomes an `error` reply prefixed "Worker error: " |
| Worker.InitReply | src/worker/vad-worker.ts:47-50 | a successful load is answered `ready`, and only a successful load; a failed one is "Worker error: " plus the error |
| Worker.RepliesPassGuard | src/worker/vad-worker.ts:59-60 | every reply passes `isWorkerResponse` with its kind, and a result reply carries data that passes `isVadResult` and reads back as the result |
| Worker.VadWorker.constructor | src/worker/vad-worker.ts:5-10 | a new worker has no processor and has posted nothing |
| Worker.VadWorker.Send | src/worker/vad-worker.ts:78-84 | the reply is appended to what was posted |
| Worker.VadWorker.HandleMessage | src/worker/vad-worker.ts:12-40 | exactly one reply per message; a value failing the guard gets "Invalid message format" and changes nothing; each kind has the effect of its handler below |
| Worker.VadWorker.Initialize | src/worker/vad-worker.ts:42-51 | an existing processor is destroyed; a new one built from the configuration replaces it; `ready` once it has loaded, otherwise the prefixed error |
| Worker.VadWorker.ProcessAudio | src/worker/vad-worker.ts:53-61 | without a processor "Processor not initialized"; otherwise the processor's own result, or its error with the prefix |
| Worker.VadWorker.Reset | src/worker/vad-worker.ts:63-68 | the processor, if any, is reset; always `ready` |
| Worker.VadWorker.Destroy | src/worker/vad-worker.ts:70-76 | the processor, if any, is destroyed and dropped; always `ready` |
| Worker.GarbageIsRefused | src/worker/vad-worker.ts:15-18 | a bare string is refused with "Invalid message format" |
| Worker.ProcessBeforeInit | src/worker/vad-worker.ts:53-57 | audio before `init` is answered "Processor not initialized" |
| Worker.InitThenShortChunk | src/worker/vad-worker.ts:42-61 | after a successful `init`, a chunk shorter than a frame is answered `ready` then the neutral result stamped with its time |
| Worker.DestroyTwice | src/worker/vad-worker.ts:70-76 | `destroy` twice is answered `ready` twice, and audio afterwards is refused |
| Manager.RejectionsBelow | src/worker/worker-manager.ts:103-108 | one rejection with the same reason per pending entry, in increasing id order, and no other |
| Manager.ErrorReason | src/worker/worker-manager.ts:47 | the reply's non-empty error string, or "Unknown worker error" when the field is falsy |
| Manager.ErrorReplyReason | src/worker/worker-manager.ts:46-49 | an error reply is rejected with its own message, or with the fallback when the message is empty |
| Manager.WorkerManager.constructor | src/worker/worker-manager.ts:4-11 | no worker, not initialized, id 0, nothing pending, posted or settled |
| Manager.WorkerManager.Initialize | src/worker/worker-manager.ts:13-23 | refused with "Worker already initialized" when a worker exists; otherwise creates one and sends `init` under the current id, without setting the flag yet |
| Manager.WorkerManager.SendMessage | src/worker/worker-manager.ts:75-101 | without a worker rejects with "Worker not available" and records nothing; otherwise registers the message as pending under the current id, increments the id and posts it |
| Manager.WorkerManager.ProcessAudio | src/worker/worker-manager.ts:60-73 | refused with "Worker not initialized" unless initialized with a worker; otherwise the chunk is sent |
| Manager.WorkerManager.Reset | src/worker/worker-manager.ts:110-113 | completes at once, changing nothing, unless initialized with a worker; otherwise `reset` is sent |
| Manager.WorkerManager.Destroy | src/worker/worker-manager.ts:115-124 | with a worker sends `destroy` (the rest happens when it is answered); without one clears the flag and rejects everything pending with "Worker destroyed" |
| Manager.WorkerManager.RejectAllPendingMessages | src/worker/worker-manager.ts:103-108 | every pending request is rejected with the reason, in id order, and the map is emptied |
| Manager.WorkerManager.OnMessage | src/worker/worker-manager.ts:28-37 | a value failing `isWorkerResponse` changes nothing; any other is handled |
| Manager.WorkerManager.HandleWorkerResponse | src/worker/worker-manager.ts:45-58 | an error reply rejects everything pending; any other reply resolves the entry with id `messageId - 1` if it is pending and otherwise changes nothing |
| Manager.WorkerManager.Settle | src/worker/worker-manager.ts:52-57 | resolves the entry and resumes its caller: `init` sets the flag; `destroy` drops the worker, clears the flag and rejects the rest with "Worker destroyed" |
| Manager.WorkerManager.OnError | src/worker/worker-manager.ts:39-42 | every pending request is rejected with "Worker error" and the map is emptied |
| Manager.WorkerManager.Timeout | src/worker/worker-manager.ts:94-99 | a still-pending request is removed and rejected with "Worker message timeout"; otherwise nothing changes |
| Manager.RejectionsKeepIdsApart | src/worker/worker-manager.ts:103-108 | rejecting the pending entries keeps every settled id issued and different from every other |
| Manager.RejectAllSettlesEachOnce | src/worker/worker-manager.ts:103-108 | the rejections cover exactly the pending ids, one each |
| Manager.CallsBeforeInitialize | src/worker/worker-manager.ts:60-113 | before `initialize`, audio is refused, `reset` completes at once and nothing is posted |
| Manager.InitializeHandshake | src/worker/worker-manager.ts:13-23 | `init` goes out under id 0; `ready` resolves it and sets the flag; a second `initialize` is refused |
| Manager.Handshaken | src/worker/worker-manager.ts:13-23 | after the handshake the manager is initialized with nothing pending |
| Manager.StaleReplyResolvesNextCall | src/worker/worker-manager.ts:52-57 | after request 1 times out, the worker's late reply to it resolves request 2 |
| Manager.TwoInFlight | src/worker/worker-manager.ts:103-108 | two requests in flight are rejected oldest first |
| Manager.ErrorRejectsEveryRequest | src/worker/worker-manager.ts:45-50 | an error reply rejects both requests in flight with its message, and a later timer changes nothing |
| Manager.DestroyLifecycle | src/worker/worker-manager.ts:115-124 | once `destroy` is answered, there is no worker, no flag, and audio is refused |
| Engine.ReplayCounts | src/core/vad-engine.ts:65-116 | in a well-formed log, starts equal stops, plus one when a segment is open at the end |
| Engine.Alternation | src/core/vad-engine.ts:65-116 | in a well-formed log, each start comes when every earlier start is stopped, and each stop and each data event while exactly one start is open |
| Engine.StepPreservesReplay | src/core/vad-engine.ts:65-116 | one transition keeps a well-formed log well formed and in step with `speechState` |
| Engine.SpeechOpensSegment | src/core/vad-engine.ts:68-82 | speech while silent opens a segment at `now`, clears the grace timer and emits one `speech_start` carrying the verdict |
| Engine.SilenceWhileSilent | src/core/vad-engine.ts:68-75 | non-speech while silent changes nothing and emits nothing |
| Engine.SilenceWhileSpeaking | src/core/vad-engine.ts:84-95 | the first non-speech verdict only starts the grace timer; a later one closes the segment with itself once `minSilenceDuration` has passed; otherwise nothing changes |
| Engine.SpeechWhileSpeaking | src/core/vad-engine.ts:97-109 | the chunk is emitted and the grace timer cleared; at `maxSpeechDuration` the segment is closed with the zero-probability verdict stamped `now` |
| Engine.RunPreservesReplay | src/core/vad-engine.ts:65-116 | any sequence of verdicts keeps the event log well formed |
| Engine.SegmentationExample | src/core/vad-engine.ts:65-116 | a worked sequence of eight verdicts 250 ms apart gives one start, two data events and one stop on the quiet verdict right after the one that started the grace timer (2250 ms starts it, 2500 ms closes the segment) |
| Engine.CutOffThenRestart | src/core/vad-engine.ts:97-109 | a segment cut off at `maxSpeechDuration` is followed by a new start on the next speech verdict |
| Engine.AcceptedResult | src/core/vad-engine.ts:53-63 | only a resolved `result` reply whose data passes `isVadResult` yields a verdict, and that verdict is the data |
| Engine.ResultRepliesAccepted | src/core/vad-engine.ts:53-63 | a worker's result reply reaches the machine intact; `ready`, `error` and rejections never do |
| Engine.Detached | src/core/vad-engine.ts:118-122 | detaching clears `speechState` and leaves both timers as they were |
| Engine.DetachThenSpeechRestarts | src/core/vad-engine.ts:118-122 | detaching mid-segment and then hearing speech emits a second start with no stop between, so the log is not well formed |
| Engine.DetachClosing | src/core/vad-engine.ts:118-122 | the corrected detach closes an open segment with a stop stamped `now` and leaves the machine silent |
| Engine.DetachClosingPreservesReplay | src/core/vad-engine.ts:118-122 | the corrected detach keeps a well-formed log well formed and ends it silent |
| Engine.VadEngine.constructor | src/core/vad-engine.ts:13-27 | a new engine holds its configuration, is neither processing nor initialized, is silent and has emitted nothing |
| Engine.VadEngine.Create | src/core/vad-engine.ts:19-27 | an invalid configuration throws the first validation error; a valid one gives an engine over the merged configuration |
| Engine.VadEngine.Initialize | src/core/vad-engine.ts:29-37 | once initialized nothing happens; otherwise the flag is set exactly when setup succeeded |
| Engine.VadEngine.AttachAudioStream | src/core/vad-engine.ts:39-51 | refused with "Already processing audio stream" while processing; otherwise initializes and starts processing only on success |
| Engine.VadEngine.ProcessAudioChunk | src/core/vad-engine.ts:53-63 | an accepted verdict takes one transition; anything else, rejections included, changes nothing; the log stays well formed |
| Engine.VadEngine.HandleVadResult | src/core/vad-engine.ts:65-75 | the new fields and emitted events are those of one `Step`, and the log stays well formed |
| Engine.VadEngine.StartSpeech | src/core/vad-engine.ts:77-82 | opens a segment at `now` and emits `speech_start` |
| Engine.VadEngine.CheckSilenceDuration | src/core/vad-engine.ts:84-95 | starts the grace timer, or closes the segment once `minSilenceDuration` has passed, or changes nothing |
| Engine.VadEngine.ContinueSpeech | src/core/vad-engine.ts:97-109 | emits the chunk, clears the grace timer, and cuts the segment off at `maxSpeechDuration` |
| Engine.VadEngine.StopSpeech | src/core/vad-engine.ts:111-116 | closes the segment, zeroes both timers and emits `speech_stop` |
| Engine.VadEngine.DetachAudioStream | src/core/vad-engine.ts:118-122 | as written: stops processing and clears `speechState` without an event |
| Engine.VadEngine.DetachAudioStreamClosingSegment | src/core/vad-engine.ts:118-122 | corrected: stops processing, closes an open segment with `speech_stop`, and keeps the log well formed |
| Engine.VadEngine.Reset | src/core/vad-engine.ts:124-127 | detaches (corrected), keeping the initialized flag |
| Engine.VadEngine.Destroy | src/core/vad-engine.ts:129-134 | detaches (corrected); clears the initialized flag only when the teardown of the audio graph and worker resolved, and otherwise passes its rejection on with the flag kept |

## Left out

- Asynchrony. The Worker object, `postMessage`, `Transferable` buffer ownership, `setTimeout` and Promise scheduling are not modelled. In the source, posting a chunk transfers its buffer to the worker, so the `speech_data` event the engine later emits for that chunk carries a detached, empty array; the model's `SpeechData(chunk)` still carries the samples. Each reply, `onerror` and timer firing is a separate method call on the manager. The 5000 ms delay is only the constant `TimeoutMs`: the model does not say when a timer fires, only what it does. Interleavings inside an `await` are not modelled.
- The engine does not own its audio processor or worker manager. The outcome of opening the audio context and of the worker handshake is the `setup` parameter. The outcome of each worker round trip is the `reply` parameter.
- The engine's `reset` and `destroy` round trips to the worker and the audio graph teardown are outside the class. So is `connectStream`'s own failure.
- Engine.VadEngine.Reset: uses the corrected detach (see Findings), not the as-written one.
- Engine.VadEngine.Destroy: uses the corrected detach (see Findings), not the as-written one.
- Defaults.CreateConfig: a property given explicitly as `undefined` is modelled as absent, so it takes the default. In the source the spread copies the `undefined` over the default; a `minSilenceDuration: undefined`, for instance, passes validation and then no silence ever closes a segment.
- The ONNX runtime. `InferenceSession.create` and its options are the `Loader` parameter. `session.run` is the `Runner` parameter. Tensors are modelled only as value sequences, with the 128/256 packing; their shapes are not modelled.
- Numbers are `real`. Float32 rounding, NaN and the infinities are not modelled. The `BigInt` conversion is modelled only as throwing for a non-integer sample rate, which the inference `try` turns into probability 0.
- AudioUtils.ResampleAudio: requires both rates to be positive. The source does not check this, and a zero rate gives an infinite or NaN ratio.
- Silero.Accumulate: the frame's exact length is stated only for a positive whole frame size. Other sizes still follow `slice`'s truncation in the body.
- Silero.ProcessAudioResults: "speech exactly above the threshold" is stated only when a frame is scored. A short buffer is never speech, which matches only for thresholds of at least 0.
- A malformed chunk: a `process` message whose chunk fails `isAudioChunk` is treated as throwing a `TypeError`. In the source, a chunk with array-like `data` that is not a Float32Array would still be concatenated.
- The missing-configuration error: the text of the engine's `TypeError` for a missing configuration is fixed here. It differs between JavaScript engines.
- A non-string error reply: for a truthy `error` field that is not a string, the rejection message is a fixed marker, not JavaScript's string conversion of the value.
- Manager.WorkerManager.Settle: for a resolved `destroy`, the remaining entries are rejected before the worker and the flag are cleared. The source clears them first. Nothing observes the order, so the final state is the same.
- Worker.VadWorker.HandleMessage: the `default` branch of the switch ("Unknown message type") is not modelled. The guard admits only the four handled tags, so it cannot be reached.
- Console logging, `isMediaStream` (a browser `instanceof` check), `src/core/audio-processor.ts` (Web Audio wiring), `src/core/event-manager.ts` (event dispatch, modelled as the ghost event log), `src/index.ts` and `vite.config.ts`.

## Findings

| source | as written | input that shows it | evidently intended | confidence | as-written member | corrected member |
|---|---|---|---|---|---|---|
| src/core/vad-engine.ts:118-122 | `detachAudioStream` clears `speechState` without emitting `speech_stop` | a speech verdict (emits `speech_start`), then detach, then another speech verdict: a second `speech_start` comes with no stop between | every `speech_start` is closed by a `speech_stop` before the next one, as the transitions of lines 65-116 guarantee | medium, not executed | Engine.DetachThenSpeechRestarts | Engine.DetachClosingPreservesReplay |
