/**
 * The worker-side dispatcher: every message posted to the worker is checked
 * by `isWorkerMessage`, routed to the processor by its `type`, and answered
 * with exactly one response. `self.postMessage` is modelled as appending to
 * the `responses` field.
 */
module Worker {
  import opened Wrappers
  import opened Types
  import opened TypeGuards
  import opened Silero

  const InvalidMessageError := "Invalid message format"
  const ProcessorMissingError := "Processor not initialized"
  const WorkerErrorPrefix := "Worker error: "
  /** The `TypeError` raised when `initialize` reads `modelUrl` from a missing configuration. */
  const MissingConfigError := "TypeError: Cannot read properties of undefined (reading 'modelUrl')"

  /** The reply to a `process` message: the result, or the caught error with its prefix. */
  function ProcessReply(r: Result<VadResult>): (response: WorkerResponse)
    ensures r.Ok? ==> response.kind == ResultKind && response.data == Some(r.value)
    ensures r.Err? ==> response == ErrorResponse(WorkerErrorPrefix + r.error)
  {
    match r
    case Ok(result) => ResultResponse(result)
    case Err(e) => ErrorResponse(WorkerErrorPrefix + e)
  }

  /** The reply to an `init` message whose configuration was read. */
  function InitReply(o: Outcome): (response: WorkerResponse)
    ensures o.Pass? <==> response == ReadyResponse()
    ensures o.Fail? ==> response == ErrorResponse(WorkerErrorPrefix + o.error)
  {
    match o
    case Pass => ReadyResponse()
    case Fail(e) => ErrorResponse(WorkerErrorPrefix + e)
  }

  /**
   * Every reply the worker posts is accepted by the main-thread guard with
   * its own tag; a result reply carries a value that passes `isVadResult`.
   */
  lemma RepliesPassGuard(r: Result<VadResult>)
    ensures IsWorkerResponse(EncodeResponse(ProcessReply(r)))
    ensures r.Ok? ==> ResponseKindOf(EncodeResponse(ProcessReply(r))) == ResultKind
                      && IsVadResult(Get(EncodeResponse(ProcessReply(r)), "data"))
                      && DecodeVadResult(Get(EncodeResponse(ProcessReply(r)), "data")) == Some(r.value)
    ensures r.Err? ==> ResponseKindOf(EncodeResponse(ProcessReply(r))) == ErrorKind
  {
    ResponseRoundTrip(ProcessReply(r));
  }

  class VadWorker {
    var processor: SileroProcessor?
    /** Every response posted back to the main thread, oldest first. */
    var responses: seq<WorkerResponse>

    ghost predicate Valid()
      reads this, processor
    {
      processor != null ==> processor.Valid()
    }

    constructor ()
      ensures processor == null && responses == [] && Valid()
    {
      processor := null;
      responses := [];
    }

    /** `sendResponse` and `sendError`. */
    method Send(response: WorkerResponse)
      modifies this`responses
      ensures responses == old(responses) + [response]
    {
      responses := responses + [response];
    }

    /**
     * `handleMessage`: exactly one response per message. A value that fails
     * `isWorkerMessage` is refused and nothing else changes; otherwise the
     * message is routed by its `type` and any error its handler throws is
     * reported with the "Worker error: " prefix.
     */
    method HandleMessage(message: Value, load: Loader, run: Runner) returns (response: WorkerResponse)
      requires Valid()
      modifies this, processor
      ensures Valid()
      ensures processor != null ==> processor == old(processor) || fresh(processor)
      ensures responses == old(responses) + [response]
      ensures !IsWorkerMessage(message) ==>
        response == ErrorResponse(InvalidMessageError) && processor == old(processor)
        && (processor != null ==> processor.Snapshot() == old(processor.Snapshot()))
      ensures IsWorkerMessage(message) && MessageKindOf(message) == InitKind ==>
        InitializeDone(old(processor), DecodeConfig(Get(message, "config")), load, response)
      ensures IsWorkerMessage(message) && MessageKindOf(message) == ProcessKind ==>
        && processor == old(processor)
        && (processor == null ==> response == ErrorResponse(ProcessorMissingError))
        && (processor != null ==>
              var p := ProcessAudioSpec(processor.config, old(processor.Snapshot()), DecodeAudioChunk(Get(message, "chunk")), run);
              processor.Snapshot() == p.next && response == ProcessReply(p.result))
      ensures IsWorkerMessage(message) && MessageKindOf(message) == ResetKind ==>
        && processor == old(processor) && response == ReadyResponse()
        && (processor != null ==> processor.Snapshot() == Fresh(old(processor.session)))
      ensures IsWorkerMessage(message) && MessageKindOf(message) == DestroyKind ==>
        && processor == null && response == ReadyResponse()
        && (old(processor) != null ==> old(processor).Snapshot() == Unloaded)
    {
      if !IsWorkerMessage(message) {
        response := ErrorResponse(InvalidMessageError);
      } else {
        match MessageKindOf(message) {
          case InitKind => response := Initialize(DecodeConfig(Get(message, "config")), load);
          case ProcessKind => response := ProcessAudio(DecodeAudioChunk(Get(message, "chunk")), run);
          case ResetKind => response := Reset();
          case DestroyKind => response := Destroy();
        }
      }
      Send(response);
    }

    /** What `initialize` leaves behind: the old processor unloaded and a fresh one in its place. */
    ghost predicate InitializeDone(previous: SileroProcessor?, config: Option<VadConfig>, load: Loader,
                                   response: WorkerResponse)
      reads this, previous, processor
    {
      && processor != null && processor != previous
      && (previous != null ==> previous.Snapshot() == Unloaded)
      && (config.None? ==>
            processor.Snapshot() == Unloaded
            && response == ErrorResponse(WorkerErrorPrefix + InitializationPrefix + MissingConfigError))
      && (config.Some? ==>
            var loaded := load(ModelUrlOf(config.value));
            && processor.config == config.value
            && (loaded.Ok? ==> response == ReadyResponse() && processor.Snapshot() == Fresh(Some(loaded.value)))
            && (loaded.Err? ==>
                  response == ErrorResponse(WorkerErrorPrefix + (InitializationPrefix + loaded.error))
                  && processor.Snapshot() == Unloaded))
    }

    /**
     * `initialize`: destroy the current processor, if any, and install a new
     * one built from the configuration; `ready` once its model has loaded. A
     * missing configuration makes the new processor's `initialize` throw.
     */
    method Initialize(config: Option<VadConfig>, load: Loader) returns (response: WorkerResponse)
      requires Valid()
      modifies this`processor, processor
      ensures Valid() && fresh(processor)
      ensures InitializeDone(old(processor), config, load, response)
    {
      if processor != null {
        processor.Destroy();
      }
      if config.None? {
        processor := new SileroProcessor(EmptyConfig);
        response := ErrorResponse(WorkerErrorPrefix + InitializationPrefix + MissingConfigError);
      } else {
        processor := new SileroProcessor(config.value);
        var outcome := processor.Initialize(load);
        response := InitReply(outcome);
      }
    }

    /** `processAudio`: refused without a processor, otherwise the processor's result or error. */
    method ProcessAudio(chunk: Option<AudioChunk>, run: Runner) returns (response: WorkerResponse)
      requires Valid()
      modifies processor
      ensures Valid()
      ensures processor == null ==> response == ErrorResponse(ProcessorMissingError)
      ensures processor != null ==>
        var p := ProcessAudioSpec(processor.config, old(processor.Snapshot()), chunk, run);
        processor.Snapshot() == p.next && response == ProcessReply(p.result)
    {
      if processor == null {
        response := ErrorResponse(ProcessorMissingError);
      } else {
        var result := processor.ProcessAudio(chunk, run);
        response := ProcessReply(result);
      }
    }

    /** `reset`: clear the processor's state if there is one; always `ready`. */
    method Reset() returns (response: WorkerResponse)
      requires Valid()
      modifies processor
      ensures Valid() && response == ReadyResponse()
      ensures processor != null ==> processor.Snapshot() == Fresh(old(processor.session))
    {
      if processor != null {
        processor.Reset();
      }
      response := ReadyResponse();
    }

    /** `destroy`: release and drop the processor if there is one; always `ready`. */
    method Destroy() returns (response: WorkerResponse)
      modifies this`processor, processor
      ensures processor == null && Valid() && response == ReadyResponse()
      ensures old(processor) != null ==> old(processor).Snapshot() == Unloaded
    {
      if processor != null {
        processor.Destroy();
        processor := null;
      }
      response := ReadyResponse();
    }
  }

  /** A message that fails the guard, such as a bare string, is refused with "Invalid message format". */
  method GarbageIsRefused(load: Loader, run: Runner) returns (response: WorkerResponse)
    ensures response == ErrorResponse(InvalidMessageError)
  {
    var w := new VadWorker();
    response := w.HandleMessage(Str("init"), load, run);
  }

  /** Audio sent before any `init` is answered with "Processor not initialized". */
  method ProcessBeforeInit(chunk: AudioChunk, load: Loader, run: Runner) returns (response: WorkerResponse)
    ensures response == ErrorResponse(ProcessorMissingError)
  {
    var w := new VadWorker();
    response := w.HandleMessage(EncodeMessage(WorkerMessage(ProcessKind, None, Some(chunk))), load, run);
  }

  /**
   * After a successful `init`, a chunk shorter than one frame gets the
   * neutral result stamped with the chunk's time.
   */
  method InitThenShortChunk(config: VadConfig, chunk: AudioChunk, load: Loader, run: Runner)
    returns (ready: WorkerResponse, result: WorkerResponse)
    requires load(ModelUrlOf(config)).Ok?
    requires (|chunk.data| as real) < FrameSizeOf(config)
    ensures ready == ReadyResponse()
    ensures result == ResultResponse(VadResult(0.0, false, chunk.timestamp))
  {
    var w := new VadWorker();
    var init := EncodeMessage(WorkerMessage(InitKind, Some(config), None));
    MessageRoundTrip(WorkerMessage(InitKind, Some(config), None));
    ready := w.HandleMessage(init, load, run);
    assert w.processor.Snapshot() == Fresh(Some(load(ModelUrlOf(config)).value));
    assert w.processor.config == config;
    ProcessAudioResults(config, Fresh(Some(load(ModelUrlOf(config)).value)), chunk, run);
    var process := EncodeMessage(WorkerMessage(ProcessKind, None, Some(chunk)));
    MessageRoundTrip(WorkerMessage(ProcessKind, None, Some(chunk)));
    result := w.HandleMessage(process, load, run);
  }

  /** `destroy` is idempotent: sent twice it is answered `ready` twice, and audio is then refused. */
  method DestroyTwice(config: VadConfig, chunk: AudioChunk, load: Loader, run: Runner)
    returns (first: WorkerResponse, second: WorkerResponse, after: WorkerResponse)
    ensures first == ReadyResponse() && second == ReadyResponse()
    ensures after == ErrorResponse(ProcessorMissingError)
  {
    var w := new VadWorker();
    var init := EncodeMessage(WorkerMessage(InitKind, Some(config), None));
    MessageRoundTrip(WorkerMessage(InitKind, Some(config), None));
    var _ := w.HandleMessage(init, load, run);
    var destroy := EncodeMessage(WorkerMessage(DestroyKind, None, None));
    MessageRoundTrip(WorkerMessage(DestroyKind, None, None));
    first := w.HandleMessage(destroy, load, run);
    second := w.HandleMessage(destroy, load, run);
    var process := EncodeMessage(WorkerMessage(ProcessKind, None, Some(chunk)));
    MessageRoundTrip(WorkerMessage(ProcessKind, None, Some(chunk)));
    after := w.HandleMessage(process, load, run);
  }
}
