/**
 * The frame accumulator and inference invoker that run inside the worker:
 * samples are buffered until a frame is available, the frame is scored by the
 * ONNX session together with the recurrent state (h, c), and the state is
 * carried over to the next call.
 *
 * The ONNX runtime is outside the model: loading a session is a `Loader`
 * parameter and `session.run` is a `Runner` parameter, both uninterpreted.
 */
module Silero {
  import opened Wrappers
  import opened Types
  import TypeGuards
  import Validation
  import Defaults

  const StateWidth := 128
  const PackedWidth := 256
  const DefaultModelUrl := "/models/silero_vad.onnx"
  const DefaultSampleRate := 16000.0
  const DefaultFrameSize := 512.0
  const DefaultThreshold := 0.5
  const InitializationPrefix := "Failed to initialize Silero VAD: "
  const NotInitializedError := "Silero processor not initialized"
  const SessionError := "Session not properly initialized"
  /** The `TypeError` thrown when a `process` message carries no readable chunk. */
  const ChunkTypeError := "TypeError: chunk.data is not readable"

  /** A loaded model, known by the input names it declares. */
  datatype Session = Session(inputNames: set<string>)

  /** The named input tensors handed to `session.run`; an absent name is not fed. */
  datatype Feeds = Feeds(
    input: Option<seq<real>>,
    sr: Option<int>,
    state: Option<seq<real>>,
    h: Option<seq<real>>,
    c: Option<seq<real>>)

  /** What `session.run` produces: a thrown error, or the named output tensors it returned. */
  datatype RunOutcome =
    | Threw(error: string)
    | Outputs(output: Option<seq<real>>, stateN: Option<seq<real>>, hn: Option<seq<real>>, cn: Option<seq<real>>)

  /** `InferenceSession.create(url)`: the session, or the string form of what it throws. */
  type Loader = string -> Result<Session>

  /** `session.run(feeds)`. */
  type Runner = (Session, Feeds) -> RunOutcome

  /** `config.modelUrl || '/models/silero_vad.onnx'` */
  function ModelUrlOf(c: VadConfig): string {
    if c.modelUrl.Some? && c.modelUrl.value != "" then c.modelUrl.value else DefaultModelUrl
  }

  /** `config.frameSize || 512`: zero and absent fall back. */
  function FrameSizeOf(c: VadConfig): (f: real)
    ensures f == if Truthy(NumOrUndefined(c.frameSize)) then c.frameSize.value else 512.0
  {
    if TruthyNum(c.frameSize) then c.frameSize.value else DefaultFrameSize
  }

  /** `config.threshold || 0.5`: a threshold of zero falls back to 0.5. */
  function ThresholdOf(c: VadConfig): (t: real)
    ensures t == if Truthy(NumOrUndefined(c.threshold)) then c.threshold.value else 0.5
  {
    if TruthyNum(c.threshold) then c.threshold.value else DefaultThreshold
  }

  /** `config.sampleRate || 16000` */
  function SampleRateOf(c: VadConfig): real {
    if TruthyNum(c.sampleRate) then c.sampleRate.value else DefaultSampleRate
  }

  function Zeros(n: nat): (z: seq<real>)
    ensures |z| == n && forall i :: 0 <= i < n ==> z[i] == 0.0
  {
    seq(n, _ => 0.0)
  }

  /** Conversion of a number to an integer index: truncation toward zero. */
  function Trunc(x: real): int {
    if x >= 0.0 then x.Floor else -((-x).Floor)
  }

  /** How `slice` resolves an index: negative counts from the end, then clamped to the length. */
  function RelativeIndex(k: int, len: nat): (r: nat)
    ensures r <= len
    ensures 0 <= k <= len ==> r == k
  {
    if k < 0 then (if len + k < 0 then 0 else len + k)
    else if k > len then len else k
  }

  /** `s.slice(from, to)` for non-negative bounds. */
  function Slice(s: seq<real>, from: nat, to: nat): (r: seq<real>)
    requires from <= to
    ensures from <= to <= |s| ==> r == s[from..to]
  {
    var lo := if from > |s| then |s| else from;
    var hi := if to > |s| then |s| else to;
    s[lo..hi]
  }

  /** `concatenateAudio`: a fresh array holding the first buffer followed by the second. */
  function ConcatenateAudio(first: seq<real>, second: seq<real>): (r: seq<real>)
    ensures |r| == |first| + |second|
    ensures r[..|first|] == first && r[|first|..] == second
  {
    first + second
  }

  /** The frame cut from the buffer, if any, and what stays buffered. */
  datatype Split = Split(frame: Option<seq<real>>, rest: seq<real>)

  /** The cut frame, or nothing. */
  function FrameOrEmpty(s: Split): seq<real> {
    if s.frame.Some? then s.frame.value else []
  }

  /**
   * The buffer logic of `processAudio`: append the chunk, then, if at least
   * `frameSize` samples are buffered, cut exactly one frame off the front.
   * No sample is lost or reordered, at most one frame is cut, and a frame
   * size that is a positive whole number gives a frame of exactly that length.
   */
  function Accumulate(buffer: seq<real>, data: seq<real>, frameSize: real): (r: Split)
    ensures FrameOrEmpty(r) + r.rest == buffer + data
    ensures r.frame.Some? <==> (|buffer| + |data|) as real >= frameSize
    ensures r.frame.None? ==> r.rest == buffer + data
    ensures r.frame.Some? && frameSize > 0.0 && frameSize.Floor as real == frameSize ==>
      |r.frame.value| == frameSize.Floor && |r.rest| == |buffer| + |data| - frameSize.Floor
  {
    var all := ConcatenateAudio(buffer, data);
    if |all| as real >= frameSize then
      var k := RelativeIndex(Trunc(frameSize), |all|);
      assert all[..k] + all[k..] == all;
      Split(Some(all[..k]), all[k..])
    else
      Split(None, all)
  }

  /**
   * The combined 256-slot `state` input: a zeroed array, h written from slot
   * 0, then c written from slot 128. `None` when a write would run past the
   * end, where the typed-array `set` throws a `RangeError`.
   */
  function PackedState(h: seq<real>, c: seq<real>): (r: Option<seq<real>>)
    ensures r.Some? <==> |h| <= PackedWidth && |c| <= StateWidth
    ensures r.Some? ==> |r.value| == PackedWidth
  {
    if |h| > PackedWidth || |c| > StateWidth then None
    else Some(seq(PackedWidth, (i: int) requires 0 <= i < PackedWidth =>
                if StateWidth <= i < StateWidth + |c| then c[i - StateWidth]
                else if i < |h| then h[i] else 0.0))
  }

  /** Packing 128-slot h and c and splitting the result the way `stateN` is split gives h and c back. */
  lemma PackSplitRoundTrip(h: seq<real>, c: seq<real>)
    requires |h| == StateWidth && |c| == StateWidth
    ensures PackedState(h, c).Some?
    ensures Slice(PackedState(h, c).value, 0, StateWidth) == h
    ensures Slice(PackedState(h, c).value, StateWidth, PackedWidth) == c
  {
    var p := PackedState(h, c).value;
    assert p[..StateWidth] == h;
    assert p[StateWidth..PackedWidth] == c;
  }

  /** The feeds built from the inputs the session declares; `None` when packing throws. */
  function FeedsFor(session: Session, frame: seq<real>, sr: int, h: seq<real>, c: seq<real>): Option<Feeds> {
    var names := session.inputNames;
    var input := if "input" in names then Some(frame) else None;
    var rate := if "sr" in names then Some(sr) else None;
    if "state" in names then
      match PackedState(h, c)
      case None => None
      case Some(packed) => Some(Feeds(input, rate, Some(packed), None, None))
    else
      Some(Feeds(input, rate, None, if "h" in names then Some(h) else None, if "c" in names then Some(c) else None))
  }

  /** The probability scored for one frame and the recurrent state after it. */
  datatype Inference = Inference(probability: real, h: seq<real>, c: seq<real>)

  /**
   * `runInference` once the session and state exist. Every failure inside its
   * `try` (an `sr` that `BigInt` rejects, a `RangeError` while packing, a
   * throwing `run`) yields probability 0 and keeps the state. Otherwise the
   * state comes from `stateN` split in halves when present, else from `hn`
   * and `cn` where present, and the probability is the first output value, or
   * 0 when there is no output.
   */
  function InferenceOf(config: VadConfig, session: Session, h: seq<real>, c: seq<real>,
                       frame: seq<real>, run: Runner): Inference
  {
    var rate := SampleRateOf(config);
    if rate.Floor as real != rate then Inference(0.0, h, c)
    else
      match FeedsFor(session, frame, rate.Floor, h, c)
      case None => Inference(0.0, h, c)
      case Some(feeds) =>
        match run(session, feeds)
        case Threw(_) => Inference(0.0, h, c)
        case Outputs(output, stateN, hn, cn) =>
          Inference(
            if output.Some? && |output.value| > 0 then output.value[0] else 0.0,
            if stateN.Some? then Slice(stateN.value, 0, StateWidth) else hn.GetOr(h),
            if stateN.Some? then Slice(stateN.value, StateWidth, PackedWidth) else cn.GetOr(c))
  }

  /**
   * Every failure inside the `try` of `runInference` is reported as
   * probability 0 with the recurrent state kept: a sample rate `BigInt`
   * rejects, a `RangeError` while packing `state`, and a throwing `run`. A run
   * that returns no output value also scores 0.
   */
  lemma FailedInferenceIsSilence(config: VadConfig, session: Session, h: seq<real>, c: seq<real>,
                                 frame: seq<real>, run: Runner)
    ensures SampleRateOf(config).Floor as real != SampleRateOf(config) ==>
      InferenceOf(config, session, h, c, frame, run) == Inference(0.0, h, c)
    ensures "state" in session.inputNames && (|h| > PackedWidth || |c| > StateWidth) ==>
      InferenceOf(config, session, h, c, frame, run) == Inference(0.0, h, c)
    ensures var feeds := FeedsFor(session, frame, SampleRateOf(config).Floor, h, c);
      feeds.Some? && run(session, feeds.value).Threw? ==>
      InferenceOf(config, session, h, c, frame, run) == Inference(0.0, h, c)
    ensures var feeds := FeedsFor(session, frame, SampleRateOf(config).Floor, h, c);
      feeds.Some? && run(session, feeds.value).Outputs? &&
      (run(session, feeds.value).output.None? || run(session, feeds.value).output.value == []) ==>
      InferenceOf(config, session, h, c, frame, run).probability == 0.0
  {
  }

  /**
   * With the combined-state model format, a model that hands its `state`
   * input back as `stateN` leaves h and c as they were: packing and splitting
   * are inverse.
   */
  lemma CombinedStateCarriesOver(config: VadConfig, session: Session, h: seq<real>, c: seq<real>,
                                 frame: seq<real>, run: Runner)
    requires |h| == StateWidth && |c| == StateWidth
    requires "state" in session.inputNames
    requires SampleRateOf(config).Floor as real == SampleRateOf(config)
    requires forall f: Feeds :: run(session, f).Outputs? && run(session, f).stateN == f.state
    ensures InferenceOf(config, session, h, c, frame, run).h == h
    ensures InferenceOf(config, session, h, c, frame, run).c == c
  {
    PackSplitRoundTrip(h, c);
    var feeds := FeedsFor(session, frame, SampleRateOf(config).Floor, h, c);
    assert feeds.Some? && feeds.value.state == PackedState(h, c);
    assert run(session, feeds.value).stateN == PackedState(h, c);
  }

  /**
   * A zero threshold is a quirk end to end: validation treats it as absent,
   * the merge keeps it, and once the configuration has crossed to the worker
   * the processor falls back to 0.5.
   */
  lemma ZeroThresholdFallsBack(user: VadConfig)
    requires user.threshold == Some(0.0)
    ensures Validation.ValidateConfig(user) == Validation.ValidateConfig(user.(threshold := None))
    ensures Defaults.CreateConfig(user).threshold == 0.0
    ensures TypeGuards.DecodeConfig(EncodeConfig(Loosen(Defaults.CreateConfig(user)))).Some?
    ensures ThresholdOf(TypeGuards.DecodeConfig(EncodeConfig(Loosen(Defaults.CreateConfig(user)))).value) == 0.5
  {
    TypeGuards.ConfigRoundTrip(Loosen(Defaults.CreateConfig(user)));
  }

  /** The same for a zero frame size: validation skips it, the merge keeps it, the processor uses 512. */
  lemma ZeroFrameSizeFallsBack(user: VadConfig)
    requires user.frameSize == Some(0.0)
    ensures Validation.ValidateConfig(user) == Validation.ValidateConfig(user.(frameSize := None))
    ensures Defaults.CreateConfig(user).frameSize == 0.0
    ensures TypeGuards.DecodeConfig(EncodeConfig(Loosen(Defaults.CreateConfig(user)))).Some?
    ensures FrameSizeOf(TypeGuards.DecodeConfig(EncodeConfig(Loosen(Defaults.CreateConfig(user)))).value) == 512.0
  {
    TypeGuards.ConfigRoundTrip(Loosen(Defaults.CreateConfig(user)));
  }

  /** The fields of a processor. */
  datatype ProcessorState = ProcessorState(
    session: Option<Session>,
    h: Option<seq<real>>,
    c: Option<seq<real>>,
    buffer: seq<real>)

  /** A processor before `initialize` and after `destroy`. */
  const Unloaded := ProcessorState(None, None, None, [])

  /** The state `resetState` installs in a loaded processor. */
  function Fresh(session: Option<Session>): ProcessorState {
    ProcessorState(session, Some(Zeros(StateWidth)), Some(Zeros(StateWidth)), [])
  }

  /** The outcome of one `processAudio` call. */
  datatype Processed = Processed(result: Result<VadResult>, next: ProcessorState)

  /**
   * `processAudio`: without a session it throws. Otherwise the chunk is
   * buffered; with a full frame available the frame is scored and
   * `isSpeech` is `probability > threshold`; with too little data the result
   * is probability 0, not speech. The chunk's timestamp is always the result's.
   */
  function ProcessAudioSpec(config: VadConfig, s: ProcessorState, chunk: Option<AudioChunk>, run: Runner): Processed {
    if s.session.None? then Processed(Err(NotInitializedError), s)
    else if chunk.None? then Processed(Err(ChunkTypeError), s)
    else
      var split := Accumulate(s.buffer, chunk.value.data, FrameSizeOf(config));
      if split.frame.None? then
        Processed(Ok(VadResult(0.0, false, chunk.value.timestamp)), s.(buffer := split.rest))
      else if s.h.None? || s.c.None? then
        Processed(Err(SessionError), s.(buffer := split.rest))
      else
        var inference := InferenceOf(config, s.session.value, s.h.value, s.c.value, split.frame.value, run);
        Processed(
          Ok(VadResult(inference.probability, inference.probability > ThresholdOf(config), chunk.value.timestamp)),
          ProcessorState(s.session, Some(inference.h), Some(inference.c), split.rest))
  }

  /**
   * Every successful result carries the chunk's timestamp; a scored frame is
   * speech exactly when its probability exceeds the threshold; a short buffer
   * gives the neutral result and keeps every sample; the session is kept.
   */
  lemma ProcessAudioResults(config: VadConfig, s: ProcessorState, chunk: AudioChunk, run: Runner)
    requires s.session.Some?
    ensures var p := ProcessAudioSpec(config, s, Some(chunk), run);
      && (p.result.Ok? ==> p.result.value.timestamp == chunk.timestamp)
      && (p.result.Ok? && (|s.buffer| + |chunk.data|) as real >= FrameSizeOf(config) ==>
            (p.result.value.isSpeech <==> p.result.value.probability > ThresholdOf(config)))
      && ((|s.buffer| + |chunk.data|) as real < FrameSizeOf(config) ==>
            p == Processed(Ok(VadResult(0.0, false, chunk.timestamp)), s.(buffer := s.buffer + chunk.data)))
      && FrameOrEmpty(Accumulate(s.buffer, chunk.data, FrameSizeOf(config))) + p.next.buffer == s.buffer + chunk.data
      && p.next.session == s.session
  {
    var split := Accumulate(s.buffer, chunk.data, FrameSizeOf(config));
    if split.frame.Some? && s.h.Some? && s.c.Some? {
      var inference := InferenceOf(config, s.session.value, s.h.value, s.c.value, split.frame.value, run);
      assert ProcessAudioSpec(config, s, Some(chunk), run).result
        == Ok(VadResult(inference.probability, inference.probability > ThresholdOf(config), chunk.timestamp));
    }
  }

  /** A processor that has no session rejects every chunk and changes nothing. */
  lemma UnloadedRejects(config: VadConfig, s: ProcessorState, chunk: Option<AudioChunk>, run: Runner)
    requires s.session.None?
    ensures ProcessAudioSpec(config, s, chunk, run) == Processed(Err(NotInitializedError), s)
  {
  }

  class SileroProcessor {
    const config: VadConfig
    var session: Option<Session>
    var h: Option<seq<real>>
    var c: Option<seq<real>>
    var sampleBuffer: seq<real>
    /** Every sample accepted since the buffer was last emptied. */
    ghost var received: seq<real>
    /** The frames cut since then, one after the other. */
    ghost var consumed: seq<real>

    function Snapshot(): ProcessorState
      reads this
    {
      ProcessorState(session, h, c, sampleBuffer)
    }

    /** Frames cut so far followed by the buffer are exactly the samples received. */
    ghost predicate Valid()
      reads this
    {
      consumed + sampleBuffer == received
    }

    constructor (config: VadConfig)
      ensures this.config == config && Snapshot() == Unloaded
      ensures Valid() && received == []
    {
      this.config := config;
      session, h, c, sampleBuffer := None, None, None, [];
      received, consumed := [], [];
    }

    /** `initialize`: load the model named by the configuration, then zero the state. */
    method Initialize(load: Loader) returns (r: Outcome)
      modifies this
      ensures load(ModelUrlOf(config)).Ok? ==>
        r == Pass && Snapshot() == Fresh(Some(load(ModelUrlOf(config)).value)) && Valid() && received == []
      ensures load(ModelUrlOf(config)).Err? ==>
        r == Fail(InitializationPrefix + load(ModelUrlOf(config)).error)
        && Snapshot() == old(Snapshot()) && received == old(received) && consumed == old(consumed)
    {
      var created := load(ModelUrlOf(config));
      if created.Err? {
        return Fail(InitializationPrefix + created.error);
      }
      session := Some(created.value);
      ResetState();
      r := Pass;
    }

    /** `resetState`: h and c become 128 zeros and the buffer is emptied. */
    method ResetState()
      modifies this`h, this`c, this`sampleBuffer, this`received, this`consumed
      ensures Snapshot() == Fresh(session) && Valid() && received == []
    {
      h := Some(Zeros(StateWidth));
      c := Some(Zeros(StateWidth));
      sampleBuffer := [];
      received, consumed := [], [];
    }

    /** `processAudio`, against `ProcessAudioSpec`; accepted samples are accounted for. */
    method ProcessAudio(chunk: Option<AudioChunk>, run: Runner) returns (r: Result<VadResult>)
      requires Valid()
      modifies this`h, this`c, this`sampleBuffer, this`received, this`consumed
      ensures Valid()
      ensures Processed(r, Snapshot()) == ProcessAudioSpec(config, old(Snapshot()), chunk, run)
      ensures received == if old(session).Some? && chunk.Some? then old(received) + chunk.value.data else old(received)
    {
      if session.None? {
        return Err(NotInitializedError);
      }
      if chunk.None? {
        return Err(ChunkTypeError);
      }
      var frame := TakeFrame(chunk.value.data);
      if frame.Some? {
        var probability := RunInference(frame.value, run);
        if probability.Err? {
          return Err(probability.error);
        }
        var isSpeech := probability.value > ThresholdOf(config);
        r := Ok(VadResult(probability.value, isSpeech, chunk.value.timestamp));
      } else {
        r := Ok(VadResult(0.0, false, chunk.value.timestamp));
      }
    }

    /**
     * The buffer half of `processAudio`: append the samples, then cut one
     * frame off the front when enough are buffered.
     */
    method TakeFrame(data: seq<real>) returns (frame: Option<seq<real>>)
      requires Valid()
      modifies this`sampleBuffer, this`received, this`consumed
      ensures Valid() && received == old(received) + data
      ensures Split(frame, sampleBuffer) == Accumulate(old(sampleBuffer), data, FrameSizeOf(config))
    {
      var split := Accumulate(sampleBuffer, data, FrameSizeOf(config));
      consumed := consumed + FrameOrEmpty(split);
      received := received + data;
      sampleBuffer := split.rest;
      frame := split.frame;
      assert consumed + sampleBuffer == old(consumed) + (FrameOrEmpty(split) + split.rest);
    }

    /**
     * `runInference`: throws when the session or state is missing; otherwise
     * scores the frame and carries the state over as `InferenceOf` says.
     */
    method RunInference(frame: seq<real>, run: Runner) returns (p: Result<real>)
      modifies this`h, this`c
      ensures session.None? || old(h).None? || old(c).None? ==>
        p == Err(SessionError) && h == old(h) && c == old(c)
      ensures session.Some? && old(h).Some? && old(c).Some? ==>
        var inference := InferenceOf(config, session.value, old(h).value, old(c).value, frame, run);
        p == Ok(inference.probability) && h == Some(inference.h) && c == Some(inference.c)
    {
      if session.None? || h.None? || c.None? {
        return Err(SessionError);
      }
      var s, hs, cs := session.value, h.value, c.value;
      var rate := SampleRateOf(config);
      if rate.Floor as real != rate {
        return Ok(0.0);
      }
      var names := s.inputNames;
      var input := if "input" in names then Some(frame) else None;
      var sr := if "sr" in names then Some(rate.Floor) else None;
      var feeds;
      if "state" in names {
        if |hs| > PackedWidth || |cs| > StateWidth {
          return Ok(0.0);
        }
        var stateData := PackState(hs, cs);
        feeds := Feeds(input, sr, Some(stateData[..]), None, None);
      } else {
        feeds := Feeds(input, sr, None, if "h" in names then Some(hs) else None, if "c" in names then Some(cs) else None);
      }
      assert FeedsFor(s, frame, rate.Floor, hs, cs) == Some(feeds);
      var results := run(s, feeds);
      if results.Threw? {
        return Ok(0.0);
      }
      if results.stateN.Some? {
        h := Some(Slice(results.stateN.value, 0, StateWidth));
        c := Some(Slice(results.stateN.value, StateWidth, PackedWidth));
      } else {
        if results.hn.Some? { h := results.hn; }
        if results.cn.Some? { c := results.cn; }
      }
      if results.output.Some? && |results.output.value| > 0 {
        return Ok(results.output.value[0]);
      }
      return Ok(0.0);
    }

    /** Fill a zeroed 256-slot array with h from slot 0 and then c from slot 128. */
    static method PackState(h: seq<real>, c: seq<real>) returns (stateData: array<real>)
      requires |h| <= PackedWidth && |c| <= StateWidth
      ensures fresh(stateData)
      ensures PackedState(h, c) == Some(stateData[..])
    {
      stateData := new real[PackedWidth](_ => 0.0);
      for i := 0 to |h|
        invariant forall j :: 0 <= j < i ==> stateData[j] == h[j]
        invariant forall j :: i <= j < PackedWidth ==> stateData[j] == 0.0
      {
        stateData[i] := h[i];
      }
      for i := 0 to |c|
        invariant forall j :: 0 <= j < StateWidth ==> stateData[j] == if j < |h| then h[j] else 0.0
        invariant forall j :: StateWidth <= j < StateWidth + i ==> stateData[j] == c[j - StateWidth]
        invariant forall j :: StateWidth + i <= j < PackedWidth ==> stateData[j] == if j < |h| then h[j] else 0.0
      {
        stateData[StateWidth + i] := c[i];
      }
      assert stateData[..] == PackedState(h, c).value;
    }

    /** `reset`: the same as `resetState`; the session is kept. */
    method Reset()
      modifies this`h, this`c, this`sampleBuffer, this`received, this`consumed
      ensures Snapshot() == Fresh(session) && Valid() && received == []
    {
      ResetState();
    }

    /** `destroy`: drop the session and state and empty the buffer; calling it again changes nothing. */
    method Destroy()
      modifies this
      ensures Snapshot() == Unloaded && Valid() && received == []
    {
      if session.Some? {
        session := None;
      }
      h, c := None, None;
      sampleBuffer := [];
      received, consumed := [], [];
    }
  }
}
