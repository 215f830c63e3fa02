/**
 * The runtime type guards applied to values received across the worker
 * boundary, and the decoders that read a record back out of a value that
 * passed its guard.
 */
module TypeGuards {
  import opened Wrappers
  import opened Types

  const MessageTags: seq<string> := ["init", "process", "reset", "destroy"]
  const ResponseTags: seq<string> := ["ready", "result", "error"]

  /** `isWorkerMessage`: a non-null object whose string `type` names a request. */
  function IsWorkerMessage(v: Value): (b: bool)
    ensures b <==> v.Obj? && "type" in v.fields
                   && v.fields["type"] in {Str("init"), Str("process"), Str("reset"), Str("destroy")}
  {
    TypeOf(v) == "object" && v != Null && TypeOf(Get(v, "type")) == "string"
    && Get(v, "type").s in MessageTags
  }

  /** `isWorkerResponse`: a non-null object whose string `type` names a reply. */
  function IsWorkerResponse(v: Value): (b: bool)
    ensures b <==> v.Obj? && "type" in v.fields
                   && v.fields["type"] in {Str("ready"), Str("result"), Str("error")}
  {
    TypeOf(v) == "object" && v != Null && TypeOf(Get(v, "type")) == "string"
    && Get(v, "type").s in ResponseTags
  }

  /** `isVadResult`: numeric probability, boolean isSpeech, numeric timestamp. */
  function IsVadResult(v: Value): (b: bool)
    ensures b <==> v.Obj? && "probability" in v.fields && v.fields["probability"].Num?
                   && "isSpeech" in v.fields && v.fields["isSpeech"].Bool?
                   && "timestamp" in v.fields && v.fields["timestamp"].Num?
  {
    TypeOf(v) == "object" && v != Null
    && TypeOf(Get(v, "probability")) == "number"
    && TypeOf(Get(v, "isSpeech")) == "boolean"
    && TypeOf(Get(v, "timestamp")) == "number"
  }

  /** `isAudioChunk`: Float32Array data, numeric timestamp and sample rate. */
  function IsAudioChunk(v: Value): (b: bool)
    ensures b <==> v.Obj? && "data" in v.fields && v.fields["data"].F32Array?
                   && "timestamp" in v.fields && v.fields["timestamp"].Num?
                   && "sampleRate" in v.fields && v.fields["sampleRate"].Num?
  {
    TypeOf(v) == "object" && v != Null
    && Get(v, "data").F32Array?
    && TypeOf(Get(v, "timestamp")) == "number"
    && TypeOf(Get(v, "sampleRate")) == "number"
  }

  /** The request tag of a value that passed `isWorkerMessage`. */
  function MessageKindOf(v: Value): (k: MessageKind)
    requires IsWorkerMessage(v)
    ensures Get(v, "type") == Str(MessageTag(k))
  {
    var t := Get(v, "type").s;
    if t == "init" then InitKind
    else if t == "process" then ProcessKind
    else if t == "reset" then ResetKind
    else DestroyKind
  }

  /** The reply tag of a value that passed `isWorkerResponse`. */
  function ResponseKindOf(v: Value): (k: ResponseKind)
    requires IsWorkerResponse(v)
    ensures Get(v, "type") == Str(ResponseTag(k))
  {
    var t := Get(v, "type").s;
    if t == "ready" then ReadyKind
    else if t == "result" then ResultKind
    else ErrorKind
  }

  /** The `VadResult` a value stands for, when it passes `isVadResult`. */
  function DecodeVadResult(v: Value): (r: Option<VadResult>)
    ensures r.Some? <==> IsVadResult(v)
    ensures r.Some? ==> EncodeVadResult(r.value) == Obj(map["probability" := v.fields["probability"],
                                                            "isSpeech" := v.fields["isSpeech"],
                                                            "timestamp" := v.fields["timestamp"]])
  {
    if IsVadResult(v) then
      Some(VadResult(Get(v, "probability").n, Get(v, "isSpeech").b, Get(v, "timestamp").n))
    else None
  }

  /** The `AudioChunk` a value stands for, when it passes `isAudioChunk`. */
  function DecodeAudioChunk(v: Value): (r: Option<AudioChunk>)
    ensures r.Some? <==> IsAudioChunk(v)
    ensures r.Some? ==> EncodeAudioChunk(r.value) == Obj(map["data" := v.fields["data"],
                                                             "timestamp" := v.fields["timestamp"],
                                                             "sampleRate" := v.fields["sampleRate"]])
  {
    if IsAudioChunk(v) then
      Some(AudioChunk(Get(v, "data").samples, Get(v, "timestamp").n, Get(v, "sampleRate").n))
    else None
  }

  /** A numeric configuration property; a property of any other type is read as absent. */
  function NumField(v: Value, key: string): Option<real> {
    if Get(v, key).Num? then Some(Get(v, key).n) else None
  }

  /**
   * The configuration carried by an `init` message. `None` stands for a
   * missing (`undefined`) or `null` configuration, which cannot be read.
   */
  function DecodeConfig(v: Value): (r: Option<VadConfig>)
    ensures r.None? <==> v == Undefined || v == Null
  {
    if v == Undefined || v == Null then None
    else
      Some(VadConfig(
        if Get(v, "modelUrl").Str? then Some(Get(v, "modelUrl").s) else None,
        NumField(v, "sampleRate"), NumField(v, "frameSize"), NumField(v, "threshold"),
        NumField(v, "minSilenceDuration"), NumField(v, "minSpeechDuration"),
        NumField(v, "maxSpeechDuration")))
  }

  /** `null` and every non-object fail all four guards. */
  lemma NonObjectsRejected(v: Value)
    requires v == Null || TypeOf(v) != "object"
    ensures !IsWorkerMessage(v) && !IsWorkerResponse(v) && !IsVadResult(v) && !IsAudioChunk(v)
  {
  }

  /** Adding a property that a guard does not read leaves that guard's verdict unchanged. */
  lemma ExtraFieldsIgnored(fields: map<string, Value>, key: string, x: Value)
    ensures key != "type" ==>
      IsWorkerMessage(Obj(fields[key := x])) == IsWorkerMessage(Obj(fields))
      && IsWorkerResponse(Obj(fields[key := x])) == IsWorkerResponse(Obj(fields))
    ensures key !in {"probability", "isSpeech", "timestamp"} ==>
      IsVadResult(Obj(fields[key := x])) == IsVadResult(Obj(fields))
    ensures key !in {"data", "timestamp", "sampleRate"} ==>
      IsAudioChunk(Obj(fields[key := x])) == IsAudioChunk(Obj(fields))
  {
  }

  /** A posted `VadResult` passes `isVadResult` and decodes to itself. */
  lemma VadResultRoundTrip(r: VadResult)
    ensures DecodeVadResult(EncodeVadResult(r)) == Some(r)
  {
  }

  /** A posted `AudioChunk` passes `isAudioChunk` and decodes to itself. */
  lemma AudioChunkRoundTrip(c: AudioChunk)
    ensures DecodeAudioChunk(EncodeAudioChunk(c)) == Some(c)
  {
  }

  /** A posted configuration decodes to itself. */
  lemma ConfigRoundTrip(c: VadConfig)
    ensures DecodeConfig(EncodeConfig(c)) == Some(c)
  {
    var v := EncodeConfig(c);
    assert Get(v, "modelUrl") == if c.modelUrl.Some? then Str(c.modelUrl.value) else Undefined;
    assert NumField(v, "sampleRate") == c.sampleRate;
    assert NumField(v, "frameSize") == c.frameSize;
    assert NumField(v, "threshold") == c.threshold;
    assert NumField(v, "minSilenceDuration") == c.minSilenceDuration;
    assert NumField(v, "minSpeechDuration") == c.minSpeechDuration;
    assert NumField(v, "maxSpeechDuration") == c.maxSpeechDuration;
  }

  /** Every posted request passes `isWorkerMessage` with its own tag and payload. */
  lemma MessageRoundTrip(m: WorkerMessage)
    ensures IsWorkerMessage(EncodeMessage(m))
    ensures MessageKindOf(EncodeMessage(m)) == m.kind
    ensures m.config.Some? ==> DecodeConfig(Get(EncodeMessage(m), "config")) == m.config
    ensures m.chunk.Some? ==> DecodeAudioChunk(Get(EncodeMessage(m), "chunk")) == m.chunk
  {
    var v := EncodeMessage(m);
    assert Get(v, "type") == Str(MessageTag(m.kind));
    if m.config.Some? {
      assert Get(v, "config") == EncodeConfig(m.config.value);
      ConfigRoundTrip(m.config.value);
    }
    if m.chunk.Some? {
      assert Get(v, "chunk") == EncodeAudioChunk(m.chunk.value);
    }
  }

  /** Every posted reply passes `isWorkerResponse` with its own tag, data and error. */
  lemma ResponseRoundTrip(r: WorkerResponse)
    ensures IsWorkerResponse(EncodeResponse(r))
    ensures ResponseKindOf(EncodeResponse(r)) == r.kind
    ensures r.data.Some? ==> DecodeVadResult(Get(EncodeResponse(r), "data")) == r.data
    ensures r.error.Some? ==> Get(EncodeResponse(r), "error") == Str(r.error.value)
  {
    var v := EncodeResponse(r);
    assert Get(v, "type") == Str(ResponseTag(r.kind));
    if r.data.Some? {
      assert Get(v, "data") == EncodeVadResult(r.data.value);
    }
  }
}
