/**
 * The record shapes of the library (configuration, per-frame results, audio
 * chunks, the worker protocol) and the dynamic values those records become
 * when they are posted across the worker boundary.
 */
module Types {
  import opened Wrappers

  /**
   * A JavaScript value as a receiver of `postMessage` sees it: the structured
   * clone of what the sender posted. Only the kinds the library inspects are
   * distinguished; every number is a `real` (no NaN, no infinities).
   */
  datatype Value =
    | Undefined
    | Null
    | Bool(b: bool)
    | Num(n: real)
    | Str(s: string)
    | F32Array(samples: seq<real>)
    | Obj(fields: map<string, Value>)

  /** The `typeof` operator. */
  function TypeOf(v: Value): string {
    match v
    case Undefined => "undefined"
    case Bool(_) => "boolean"
    case Num(_) => "number"
    case Str(_) => "string"
    case _ => "object"
  }

  /** Property access `v.key`: only plain objects carry the properties read here. */
  function Get(v: Value, key: string): Value {
    if v.Obj? && key in v.fields then v.fields[key] else Undefined
  }

  /** JavaScript truthiness. */
  predicate Truthy(v: Value) {
    match v
    case Undefined => false
    case Null => false
    case Bool(b) => b
    case Num(n) => n != 0.0
    case Str(s) => s != ""
    case _ => true
  }

  /** Truthiness of an optional number field: absent and zero are both falsy. */
  predicate TruthyNum(o: Option<real>) {
    o.Some? && o.value != 0.0
  }

  /** `VadConfig`: every field optional. */
  datatype VadConfig = VadConfig(
    modelUrl: Option<string>,
    sampleRate: Option<real>,
    frameSize: Option<real>,
    threshold: Option<real>,
    minSilenceDuration: Option<real>,
    minSpeechDuration: Option<real>,
    maxSpeechDuration: Option<real>)

  /** The configuration with no field given. */
  const EmptyConfig := VadConfig(None, None, None, None, None, None, None)

  /** `Required<VadConfig>`: every field present. */
  datatype FullConfig = FullConfig(
    modelUrl: string,
    sampleRate: real,
    frameSize: real,
    threshold: real,
    minSilenceDuration: real,
    minSpeechDuration: real,
    maxSpeechDuration: real)

  /** The optional-field view of a complete configuration. */
  function Loosen(c: FullConfig): VadConfig {
    VadConfig(Some(c.modelUrl), Some(c.sampleRate), Some(c.frameSize), Some(c.threshold),
              Some(c.minSilenceDuration), Some(c.minSpeechDuration), Some(c.maxSpeechDuration))
  }

  /** The classifier's verdict on one frame. */
  datatype VadResult = VadResult(probability: real, isSpeech: bool, timestamp: real)

  /** A block of mono samples with its rate and capture time in milliseconds. */
  datatype AudioChunk = AudioChunk(data: seq<real>, timestamp: real, sampleRate: real)

  /** The `type` tag of a `WorkerMessage`. */
  datatype MessageKind = InitKind | ProcessKind | ResetKind | DestroyKind

  /** A request to the worker. */
  datatype WorkerMessage = WorkerMessage(kind: MessageKind, config: Option<VadConfig>, chunk: Option<AudioChunk>)

  /** The `type` tag of a `WorkerResponse`. */
  datatype ResponseKind = ReadyKind | ResultKind | ErrorKind

  /** A reply from the worker. */
  datatype WorkerResponse = WorkerResponse(kind: ResponseKind, data: Option<VadResult>, error: Option<string>)

  /** `{ type: 'ready' }` */
  function ReadyResponse(): WorkerResponse {
    WorkerResponse(ReadyKind, None, None)
  }

  /** `{ type: 'result', data }` */
  function ResultResponse(data: VadResult): WorkerResponse {
    WorkerResponse(ResultKind, Some(data), None)
  }

  /** `{ type: 'error', error }` */
  function ErrorResponse(error: string): WorkerResponse {
    WorkerResponse(ErrorKind, None, Some(error))
  }

  function MessageTag(k: MessageKind): string {
    match k
    case InitKind => "init"
    case ProcessKind => "process"
    case ResetKind => "reset"
    case DestroyKind => "destroy"
  }

  function ResponseTag(k: ResponseKind): string {
    match k
    case ReadyKind => "ready"
    case ResultKind => "result"
    case ErrorKind => "error"
  }

  /** An optional number as a property value: an absent field reads as `undefined`. */
  function NumOrUndefined(o: Option<real>): Value {
    if o.Some? then Num(o.value) else Undefined
  }

  function EncodeVadResult(r: VadResult): Value {
    Obj(map["probability" := Num(r.probability), "isSpeech" := Bool(r.isSpeech), "timestamp" := Num(r.timestamp)])
  }

  function EncodeAudioChunk(c: AudioChunk): Value {
    Obj(map["data" := F32Array(c.data), "timestamp" := Num(c.timestamp), "sampleRate" := Num(c.sampleRate)])
  }

  /** A posted configuration; an absent field reads back as `undefined`. */
  function EncodeConfig(c: VadConfig): Value {
    Obj(map[
      "modelUrl" := if c.modelUrl.Some? then Str(c.modelUrl.value) else Undefined,
      "sampleRate" := NumOrUndefined(c.sampleRate),
      "frameSize" := NumOrUndefined(c.frameSize),
      "threshold" := NumOrUndefined(c.threshold),
      "minSilenceDuration" := NumOrUndefined(c.minSilenceDuration),
      "minSpeechDuration" := NumOrUndefined(c.minSpeechDuration),
      "maxSpeechDuration" := NumOrUndefined(c.maxSpeechDuration)])
  }

  /** The structured clone of a posted `WorkerMessage`; an absent payload reads as `undefined`. */
  function EncodeMessage(m: WorkerMessage): Value {
    Obj(map[
      "type" := Str(MessageTag(m.kind)),
      "config" := if m.config.Some? then EncodeConfig(m.config.value) else Undefined,
      "chunk" := if m.chunk.Some? then EncodeAudioChunk(m.chunk.value) else Undefined])
  }

  /** The structured clone of a posted `WorkerResponse`; an absent field reads as `undefined`. */
  function EncodeResponse(r: WorkerResponse): Value {
    Obj(map[
      "type" := Str(ResponseTag(r.kind)),
      "data" := if r.data.Some? then EncodeVadResult(r.data.value) else Undefined,
      "error" := if r.error.Some? then Str(r.error.value) else Undefined])
  }
}
