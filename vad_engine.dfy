/**
 * The speech-segmentation state machine of the engine. Each frame verdict
 * that comes back from the worker moves a two-state machine (silent,
 * speaking) with a silence grace period and a forced cut-off, and may emit
 * `speech_start`, `speech_data` and `speech_stop` events.
 *
 * The clock (`Date.now()`) is the integer parameter `now`. Emitted events are
 * appended to a ghost log instead of being dispatched. The audio graph and the
 * worker round trip are outside the class: their outcomes arrive as
 * parameters.
 */
module Engine {
  import opened Wrappers
  import opened Types
  import opened TypeGuards
  import Validation
  import Defaults
  import Manager

  const AlreadyProcessingError := "Already processing audio stream"

  /** An event the engine dispatches. */
  datatype Event =
    | SpeechStart(result: VadResult)
    | SpeechStop(result: VadResult)
    | SpeechData(chunk: AudioChunk)

  /**
   * The segmentation fields: whether a segment is open and the two timers in
   * milliseconds, where 0 stands for "not set".
   */
  datatype Segment = Segment(speaking: bool, speechStartTime: int, silenceStartTime: int)

  /** No open segment and both timers cleared. */
  const Silent := Segment(false, 0, 0)

  /** The next segmentation fields and the events emitted on the way, in order. */
  datatype Transition = Transition(next: Segment, emitted: seq<Event>)

  /** The synthetic verdict that closes a segment cut off at `now`. */
  function CutOff(now: int): VadResult {
    VadResult(0.0, false, now as real)
  }

  /**
   * The transition table of `handleVadResult` and its helpers: speech while
   * silent opens a segment; non-speech while speaking first starts the grace
   * period and then, once `minSilence` has passed, closes the segment with
   * the triggering verdict; speech while speaking emits the chunk, clears
   * the grace period, and cuts the segment off once it has lasted
   * `maxSpeech`; non-speech while silent does nothing.
   */
  function Step(s: Segment, minSilence: real, maxSpeech: real, result: VadResult, chunk: AudioChunk, now: int): Transition {
    if result.isSpeech && !s.speaking then
      Transition(Segment(true, now, 0), [SpeechStart(result)])
    else if !result.isSpeech && s.speaking then
      if s.silenceStartTime == 0 then Transition(s.(silenceStartTime := now), [])
      else if (now - s.silenceStartTime) as real >= minSilence then Transition(Silent, [SpeechStop(result)])
      else Transition(s, [])
    else if result.isSpeech && s.speaking then
      if (now - s.speechStartTime) as real >= maxSpeech then
        Transition(Silent, [SpeechData(chunk), SpeechStop(CutOff(now))])
      else
        Transition(s.(silenceStartTime := 0), [SpeechData(chunk)])
    else
      Transition(s, [])
  }

  /** What an event does to the `speaking` flag; `None` when the event is out of place. */
  function Apply(speaking: bool, e: Event): Option<bool> {
    match e
    case SpeechStart(_) => if speaking then None else Some(true)
    case SpeechStop(_) => if speaking then Some(false) else None
    case SpeechData(_) => if speaking then Some(true) else None
  }

  /**
   * Reference semantics of an event log: replayed from silence, starts and
   * stops must alternate and data must fall inside a segment. The result is
   * whether a segment is open at the end.
   */
  function Replay(log: seq<Event>): Option<bool> {
    if log == [] then Some(false)
    else
      match Replay(log[..|log| - 1])
      case None => None
      case Some(speaking) => Apply(speaking, log[|log| - 1])
  }

  lemma ReplaySnoc(log: seq<Event>, e: Event)
    ensures Replay(log + [e]) == if Replay(log).Some? then Apply(Replay(log).value, e) else None
  {
    assert (log + [e])[..|log|] == log;
  }

  function Starts(log: seq<Event>): nat {
    if log == [] then 0 else Starts(log[..|log| - 1]) + (if log[|log| - 1].SpeechStart? then 1 else 0)
  }

  function Stops(log: seq<Event>): nat {
    if log == [] then 0 else Stops(log[..|log| - 1]) + (if log[|log| - 1].SpeechStop? then 1 else 0)
  }

  /**
   * In a well-formed log every start is matched by the stop after it, except
   * possibly the last one, which is open exactly when the replay ends speaking.
   */
  lemma {:induction false} ReplayCounts(log: seq<Event>)
    requires Replay(log).Some?
    ensures Starts(log) == Stops(log) + (if Replay(log).value then 1 else 0)
  {
    if log != [] {
      ReplayCounts(log[..|log| - 1]);
    }
  }

  /** Every prefix of a well-formed log is well formed. */
  lemma {:induction false} ReplayPrefix(log: seq<Event>, i: nat)
    requires Replay(log).Some? && i <= |log|
    ensures Replay(log[..i]).Some?
  {
    if i < |log| {
      assert log[..|log| - 1][..i] == log[..i];
      ReplayPrefix(log[..|log| - 1], i);
    } else {
      assert log[..i] == log;
    }
  }

  /**
   * Alternation, event by event: in a well-formed log a `speech_start` comes
   * only when every earlier start has been stopped, and a `speech_stop` or a
   * `speech_data` only while exactly one start is unmatched.
   */
  lemma Alternation(log: seq<Event>)
    requires Replay(log).Some?
    ensures forall i :: 0 <= i < |log| ==>
      && (log[i].SpeechStart? ==> Starts(log[..i]) == Stops(log[..i]))
      && (log[i].SpeechStop? ==> Starts(log[..i]) == Stops(log[..i]) + 1)
      && (log[i].SpeechData? ==> Starts(log[..i]) == Stops(log[..i]) + 1)
    ensures Stops(log) <= Starts(log) <= Stops(log) + 1
  {
    ReplayCounts(log);
    forall i | 0 <= i < |log|
      ensures log[i].SpeechStart? ==> Starts(log[..i]) == Stops(log[..i])
      ensures log[i].SpeechStop? ==> Starts(log[..i]) == Stops(log[..i]) + 1
      ensures log[i].SpeechData? ==> Starts(log[..i]) == Stops(log[..i]) + 1
    {
      ReplayPrefix(log, i + 1);
      assert log[..i + 1][..i] == log[..i];
      assert log[..i + 1][i] == log[i];
      ReplayPrefix(log, i);
      ReplayCounts(log[..i]);
    }
  }

  /** One transition keeps a well-formed log well formed and in step with the `speaking` flag. */
  lemma StepPreservesReplay(log: seq<Event>, s: Segment, minSilence: real, maxSpeech: real,
                            result: VadResult, chunk: AudioChunk, now: int)
    requires Replay(log) == Some(s.speaking)
    ensures var t := Step(s, minSilence, maxSpeech, result, chunk, now);
      Replay(log + t.emitted) == Some(t.next.speaking)
  {
    var t := Step(s, minSilence, maxSpeech, result, chunk, now);
    if |t.emitted| == 1 {
      ReplaySnoc(log, t.emitted[0]);
      assert t.emitted == [t.emitted[0]];
    } else if |t.emitted| == 2 {
      ReplaySnoc(log, t.emitted[0]);
      ReplaySnoc(log + [t.emitted[0]], t.emitted[1]);
      assert log + t.emitted == log + [t.emitted[0]] + [t.emitted[1]];
    } else {
      assert log + t.emitted == log;
    }
  }

  /** Speech while silent opens a segment at `now` with exactly one `speech_start` carrying the verdict. */
  lemma SpeechOpensSegment(s: Segment, minSilence: real, maxSpeech: real, result: VadResult, chunk: AudioChunk, now: int)
    requires !s.speaking && result.isSpeech
    ensures Step(s, minSilence, maxSpeech, result, chunk, now) == Transition(Segment(true, now, 0), [SpeechStart(result)])
  {
  }

  /** Non-speech while silent changes nothing and emits nothing. */
  lemma SilenceWhileSilent(s: Segment, minSilence: real, maxSpeech: real, result: VadResult, chunk: AudioChunk, now: int)
    requires !s.speaking && !result.isSpeech
    ensures Step(s, minSilence, maxSpeech, result, chunk, now) == Transition(s, [])
  {
  }

  /**
   * Non-speech while speaking: the first one only starts the grace period;
   * a later one closes the segment with itself once `minSilence` has passed
   * since then, and otherwise nothing changes.
   */
  lemma SilenceWhileSpeaking(s: Segment, minSilence: real, maxSpeech: real, result: VadResult, chunk: AudioChunk, now: int)
    requires s.speaking && !result.isSpeech
    ensures var t := Step(s, minSilence, maxSpeech, result, chunk, now);
      && (s.silenceStartTime == 0 ==> t == Transition(s.(silenceStartTime := now), []))
      && (s.silenceStartTime != 0 && (now - s.silenceStartTime) as real >= minSilence ==>
            t == Transition(Silent, [SpeechStop(result)]))
      && (s.silenceStartTime != 0 && (now - s.silenceStartTime) as real < minSilence ==> t == Transition(s, []))
      && t.next.speechStartTime == (if t.next.speaking then s.speechStartTime else 0)
  {
  }

  /**
   * Speech while speaking: the chunk is emitted and the grace period is
   * cleared; once the segment has lasted `maxSpeech` it is closed with a
   * synthetic zero-probability verdict stamped `now`.
   */
  lemma SpeechWhileSpeaking(s: Segment, minSilence: real, maxSpeech: real, result: VadResult, chunk: AudioChunk, now: int)
    requires s.speaking && result.isSpeech
    ensures var t := Step(s, minSilence, maxSpeech, result, chunk, now);
      && t.emitted[0] == SpeechData(chunk)
      && ((now - s.speechStartTime) as real >= maxSpeech ==>
            t.next == Silent && t.emitted == [SpeechData(chunk), SpeechStop(VadResult(0.0, false, now as real))])
      && ((now - s.speechStartTime) as real < maxSpeech ==>
            t.next == Segment(true, s.speechStartTime, 0) && t.emitted == [SpeechData(chunk)])
  {
  }

  /** One verdict as the engine sees it: the result, its chunk, and the time it is handled. */
  datatype Input = Input(result: VadResult, chunk: AudioChunk, now: int)

  /** A run of the machine over several verdicts, collecting everything emitted. */
  function Run(s: Segment, minSilence: real, maxSpeech: real, inputs: seq<Input>): Transition
    decreases |inputs|
  {
    if inputs == [] then Transition(s, [])
    else
      var t := Step(s, minSilence, maxSpeech, inputs[0].result, inputs[0].chunk, inputs[0].now);
      var rest := Run(t.next, minSilence, maxSpeech, inputs[1..]);
      Transition(rest.next, t.emitted + rest.emitted)
  }

  /** Any run from a state in step with a well-formed log leaves a well-formed log. */
  lemma {:induction false} RunPreservesReplay(log: seq<Event>, s: Segment, minSilence: real, maxSpeech: real, inputs: seq<Input>)
    requires Replay(log) == Some(s.speaking)
    ensures Replay(log + Run(s, minSilence, maxSpeech, inputs).emitted) == Some(Run(s, minSilence, maxSpeech, inputs).next.speaking)
    decreases |inputs|
  {
    if inputs != [] {
      var t := Step(s, minSilence, maxSpeech, inputs[0].result, inputs[0].chunk, inputs[0].now);
      StepPreservesReplay(log, s, minSilence, maxSpeech, inputs[0].result, inputs[0].chunk, inputs[0].now);
      RunPreservesReplay(log + t.emitted, t.next, minSilence, maxSpeech, inputs[1..]);
      var rest := Run(t.next, minSilence, maxSpeech, inputs[1..]);
      assert Run(s, minSilence, maxSpeech, inputs) == Transition(rest.next, t.emitted + rest.emitted);
      assert log + t.emitted + rest.emitted == log + (t.emitted + rest.emitted);
    } else {
      assert log + [] == log;
    }
  }

  /** The verdict the classifier gives a probability under the default threshold 0.5. */
  function Verdict(p: real, t: int): VadResult {
    VadResult(p, p > 0.5, t as real)
  }

  /**
   * The worked example: probabilities 0.1, 0.1, 0.9, 0.9, 0.9, 0.1, 0.1, 0.1
   * handled 250 ms apart with a 250 ms grace period give one `speech_start`
   * on the third verdict, the chunks of the fourth and fifth as data, and one
   * `speech_stop` on the seventh, where the silence has lasted 250 ms.
   */
  lemma SegmentationExample(chunk: AudioChunk)
    ensures var inputs := [
        Input(Verdict(0.1, 1000), chunk, 1000), Input(Verdict(0.1, 1250), chunk, 1250),
        Input(Verdict(0.9, 1500), chunk, 1500), Input(Verdict(0.9, 1750), chunk, 1750),
        Input(Verdict(0.9, 2000), chunk, 2000), Input(Verdict(0.1, 2250), chunk, 2250),
        Input(Verdict(0.1, 2500), chunk, 2500), Input(Verdict(0.1, 2750), chunk, 2750)];
      Run(Silent, 250.0, 30000.0, inputs)
        == Transition(Silent, [SpeechStart(Verdict(0.9, 1500)), SpeechData(chunk), SpeechData(chunk),
                               SpeechStop(Verdict(0.1, 2500))])
  {
    var inputs := [
        Input(Verdict(0.1, 1000), chunk, 1000), Input(Verdict(0.1, 1250), chunk, 1250),
        Input(Verdict(0.9, 1500), chunk, 1500), Input(Verdict(0.9, 1750), chunk, 1750),
        Input(Verdict(0.9, 2000), chunk, 2000), Input(Verdict(0.1, 2250), chunk, 2250),
        Input(Verdict(0.1, 2500), chunk, 2500), Input(Verdict(0.1, 2750), chunk, 2750)];
    assert Run(Segment(false, 0, 0), 250.0, 30000.0, inputs[7..]) == Transition(Silent, []);
    assert Run(Segment(true, 1500, 2250), 250.0, 30000.0, inputs[6..])
      == Transition(Silent, [SpeechStop(Verdict(0.1, 2500))]);
    assert Run(Segment(true, 1500, 0), 250.0, 30000.0, inputs[5..])
      == Transition(Silent, [SpeechStop(Verdict(0.1, 2500))]);
    assert Run(Segment(true, 1500, 0), 250.0, 30000.0, inputs[4..])
      == Transition(Silent, [SpeechData(chunk), SpeechStop(Verdict(0.1, 2500))]);
    assert Run(Segment(true, 1500, 0), 250.0, 30000.0, inputs[3..])
      == Transition(Silent, [SpeechData(chunk), SpeechData(chunk), SpeechStop(Verdict(0.1, 2500))]);
    assert Run(Silent, 250.0, 30000.0, inputs[2..])
      == Transition(Silent, [SpeechStart(Verdict(0.9, 1500)), SpeechData(chunk), SpeechData(chunk),
                             SpeechStop(Verdict(0.1, 2500))]);
    assert Run(Silent, 250.0, 30000.0, inputs[1..]) == Run(Silent, 250.0, 30000.0, inputs[2..]);
  }

  /**
   * The forced cut-off: speech that has lasted `maxSpeech` without any
   * silence is closed, and the very next speech verdict opens a new segment.
   */
  lemma CutOffThenRestart(start: int, maxSpeech: real, minSilence: real, r1: VadResult, r2: VadResult, chunk: AudioChunk, now: int)
    requires start != 0 && r1.isSpeech && r2.isSpeech
    requires (now - start) as real >= maxSpeech
    ensures Run(Segment(true, start, 0), minSilence, maxSpeech, [Input(r1, chunk, now), Input(r2, chunk, now)])
      == Transition(Segment(true, now, 0), [SpeechData(chunk), SpeechStop(CutOff(now)), SpeechStart(r2)])
  {
    var inputs := [Input(r1, chunk, now), Input(r2, chunk, now)];
    assert Run(Silent, minSilence, maxSpeech, inputs[1..]) == Transition(Segment(true, now, 0), [SpeechStart(r2)]);
  }

  /**
   * The filter of `processAudioChunk`: only a resolved reply of type
   * `result` whose `data` is truthy and passes `isVadResult` reaches the
   * state machine; the verdict handed over is that data.
   */
  function AcceptedResult(reply: Manager.Resolution): (r: Option<VadResult>)
    ensures r.Some? <==> reply.Resolved? && Get(reply.response, "type") == Str("result")
                         && IsVadResult(Get(reply.response, "data"))
    ensures r.Some? ==> EncodeVadResult(r.value) == Obj(map[
      "probability" := Get(reply.response, "data").fields["probability"],
      "isSpeech" := Get(reply.response, "data").fields["isSpeech"],
      "timestamp" := Get(reply.response, "data").fields["timestamp"]])
  {
    if reply.Rejected? then None
    else
      var response := reply.response;
      var data := Get(response, "data");
      if Get(response, "type") == Str("result") && Truthy(data) && IsVadResult(data) then DecodeVadResult(data)
      else None
  }

  /**
   * The worker's result reply reaches the state machine with its verdict
   * intact; `ready` and `error` replies and rejections never do.
   */
  lemma ResultRepliesAccepted(result: VadResult, error: string, reason: string)
    ensures AcceptedResult(Manager.Resolved(EncodeResponse(ResultResponse(result)))) == Some(result)
    ensures AcceptedResult(Manager.Resolved(EncodeResponse(ReadyResponse()))) == None
    ensures AcceptedResult(Manager.Resolved(EncodeResponse(ErrorResponse(error)))) == None
    ensures AcceptedResult(Manager.Rejected(reason)) == None
  {
    ResponseRoundTrip(ResultResponse(result));
    assert Get(EncodeResponse(ReadyResponse()), "type") == Str("ready");
    assert Get(EncodeResponse(ErrorResponse(error)), "type") == Str("error");
  }

  /** `detachAudioStream`'s effect on the segmentation fields, as written: the timers are left as they were. */
  function Detached(s: Segment): (d: Segment)
    ensures !d.speaking
    ensures d.speechStartTime == s.speechStartTime && d.silenceStartTime == s.silenceStartTime
  {
    s.(speaking := false)
  }

  /**
   * Detaching in the middle of a segment emits no `speech_stop`, so the
   * next speech verdict emits a second `speech_start` with no stop between
   * the two, and the log is no longer well formed.
   */
  lemma DetachThenSpeechRestarts(r1: VadResult, r2: VadResult, chunk: AudioChunk, minSilence: real, maxSpeech: real, t1: int, t2: int)
    requires r1.isSpeech && r2.isSpeech
    ensures var first := Step(Silent, minSilence, maxSpeech, r1, chunk, t1);
      var reopened := Step(Detached(first.next), minSilence, maxSpeech, r2, chunk, t2);
      && Replay(first.emitted) == Some(true)
      && reopened.emitted == [SpeechStart(r2)]
      && Replay(first.emitted + reopened.emitted) == None
  {
    var log := [SpeechStart(r1)];
    assert Replay(log) == Some(true) by {
      assert log[..0] == [];
    }
    ReplaySnoc(log, SpeechStart(r2));
  }

  /**
   * The intended detach: an open segment is closed with a synthetic
   * zero-probability verdict stamped `now`, and the machine is left silent.
   */
  function DetachClosing(s: Segment, now: int): (t: Transition)
    ensures t.next == Silent
    ensures s.speaking ==> t.emitted == [SpeechStop(CutOff(now))]
    ensures !s.speaking ==> t.emitted == []
  {
    if s.speaking then Transition(Silent, [SpeechStop(CutOff(now))]) else Transition(Silent, [])
  }

  /** The intended detach keeps a well-formed log well formed, whatever state it is called in. */
  lemma DetachClosingPreservesReplay(log: seq<Event>, s: Segment, now: int)
    requires Replay(log) == Some(s.speaking)
    ensures Replay(log + DetachClosing(s, now).emitted) == Some(false)
  {
    if s.speaking {
      ReplaySnoc(log, SpeechStop(CutOff(now)));
    } else {
      assert log + [] == log;
    }
  }

  class VadEngine {
    const config: FullConfig
    var isProcessing: bool
    var isInitialized: bool
    var speechState: bool
    var speechStartTime: int
    var silenceStartTime: int
    /** Every event dispatched so far, oldest first. */
    ghost var events: seq<Event>

    function Seg(): Segment
      reads this
    {
      Segment(speechState, speechStartTime, silenceStartTime)
    }

    /** The event log is well formed and ends speaking exactly when `speechState` is set. */
    ghost predicate SegmentsAlternate()
      reads this
    {
      Replay(events) == Some(speechState)
    }

    constructor (config: FullConfig)
      ensures this.config == config
      ensures !isProcessing && !isInitialized && Seg() == Silent && events == []
      ensures SegmentsAlternate()
    {
      this.config := config;
      isProcessing, isInitialized := false, false;
      speechState, speechStartTime, silenceStartTime := false, 0, 0;
      events := [];
    }

    /**
     * The engine's construction: the user configuration is validated (the
     * first failing check is thrown) and then merged over the defaults.
     */
    static method Create(userConfig: VadConfig) returns (r: Result<VadEngine>)
      ensures Validation.ValidateConfig(userConfig).Fail? ==> r == Err(Validation.ValidateConfig(userConfig).error)
      ensures Validation.ValidateConfig(userConfig).Pass? ==>
        && r.Ok? && fresh(r.value)
        && r.value.config == Defaults.CreateConfig(userConfig)
        && !r.value.isProcessing && !r.value.isInitialized
        && r.value.Seg() == Silent && r.value.events == []
    {
      var validation := Validation.ValidateConfig(userConfig);
      if validation.Fail? {
        return Err(validation.error);
      }
      var engine := new VadEngine(Defaults.CreateConfig(userConfig));
      r := Ok(engine);
    }

    /**
     * `initialize`: nothing happens once initialized; otherwise `setup` is
     * the outcome of opening the audio context and the worker handshake, and
     * the flag is set only when it succeeded.
     */
    method Initialize(setup: Outcome) returns (r: Outcome)
      modifies this`isInitialized
      ensures old(isInitialized) ==> r == Pass && isInitialized
      ensures !old(isInitialized) ==> r == setup && isInitialized == setup.Pass?
    {
      if isInitialized {
        return Pass;
      }
      if setup.Fail? {
        return setup;
      }
      isInitialized := true;
      r := Pass;
    }

    /**
     * `attachAudioStream`: refused while a stream is being processed;
     * otherwise initialize and start processing.
     */
    method AttachAudioStream(setup: Outcome) returns (r: Outcome)
      modifies this`isInitialized, this`isProcessing
      ensures old(isProcessing) ==> r == Fail(AlreadyProcessingError) && isProcessing && isInitialized == old(isInitialized)
      ensures !old(isProcessing) && old(isInitialized) ==> r == Pass && isProcessing && isInitialized
      ensures !old(isProcessing) && !old(isInitialized) ==>
        r == setup && isProcessing == setup.Pass? && isInitialized == setup.Pass?
    {
      if isProcessing {
        return Fail(AlreadyProcessingError);
      }
      r := Initialize(setup);
      if r.Fail? {
        return;
      }
      isProcessing := true;
    }

    /**
     * `processAudioChunk` once the worker round trip for `chunk` has ended
     * with `reply`: an accepted verdict is handled at time `now`, anything
     * else (including a rejection, which is caught and logged) changes nothing.
     */
    method ProcessAudioChunk(reply: Manager.Resolution, chunk: AudioChunk, now: int)
      modifies this`speechState, this`speechStartTime, this`silenceStartTime, this`events
      ensures AcceptedResult(reply).None? ==> Seg() == old(Seg()) && events == old(events)
      ensures AcceptedResult(reply).Some? ==>
        var t := Step(old(Seg()), config.minSilenceDuration, config.maxSpeechDuration, AcceptedResult(reply).value, chunk, now);
        Seg() == t.next && events == old(events) + t.emitted
      ensures old(SegmentsAlternate()) ==> SegmentsAlternate()
    {
      var result := AcceptedResult(reply);
      if result.Some? {
        HandleVadResult(result.value, chunk, now);
      }
    }

    /** `handleVadResult`: one transition of the table, with its events appended in order. */
    method HandleVadResult(result: VadResult, chunk: AudioChunk, now: int)
      modifies this`speechState, this`speechStartTime, this`silenceStartTime, this`events
      ensures var t := Step(old(Seg()), config.minSilenceDuration, config.maxSpeechDuration, result, chunk, now);
        Seg() == t.next && events == old(events) + t.emitted
      ensures old(SegmentsAlternate()) ==> SegmentsAlternate()
    {
      ghost var log, s := events, Seg();
      if result.isSpeech && !speechState {
        StartSpeech(result, now);
      } else if !result.isSpeech && speechState {
        CheckSilenceDuration(result, now);
      } else if result.isSpeech && speechState {
        ContinueSpeech(chunk, now);
      }
      if Replay(log) == Some(s.speaking) {
        StepPreservesReplay(log, s, config.minSilenceDuration, config.maxSpeechDuration, result, chunk, now);
      }
    }

    /** `startSpeech`: open a segment at `now` and emit `speech_start`. */
    method StartSpeech(result: VadResult, now: int)
      modifies this`speechState, this`speechStartTime, this`silenceStartTime, this`events
      ensures Seg() == Segment(true, now, 0)
      ensures events == old(events) + [SpeechStart(result)]
    {
      speechState := true;
      speechStartTime := now;
      silenceStartTime := 0;
      events := events + [SpeechStart(result)];
    }

    /** `checkSilenceDuration`: start the grace period, or close the segment once it has passed. */
    method CheckSilenceDuration(result: VadResult, now: int)
      modifies this`speechState, this`speechStartTime, this`silenceStartTime, this`events
      ensures old(silenceStartTime) == 0 ==> Seg() == old(Seg()).(silenceStartTime := now) && events == old(events)
      ensures old(silenceStartTime) != 0 && (now - old(silenceStartTime)) as real >= config.minSilenceDuration ==>
        Seg() == Silent && events == old(events) + [SpeechStop(result)]
      ensures old(silenceStartTime) != 0 && (now - old(silenceStartTime)) as real < config.minSilenceDuration ==>
        Seg() == old(Seg()) && events == old(events)
    {
      if silenceStartTime == 0 {
        silenceStartTime := now;
        return;
      }
      var silenceDuration := now - silenceStartTime;
      if silenceDuration as real >= config.minSilenceDuration {
        StopSpeech(result);
      }
    }

    /** `continueSpeech`: clear the grace period, emit the chunk, and cut the segment off once it is too long. */
    method ContinueSpeech(chunk: AudioChunk, now: int)
      modifies this`speechState, this`speechStartTime, this`silenceStartTime, this`events
      ensures (now - old(speechStartTime)) as real >= config.maxSpeechDuration ==>
        Seg() == Silent && events == old(events) + [SpeechData(chunk), SpeechStop(CutOff(now))]
      ensures (now - old(speechStartTime)) as real < config.maxSpeechDuration ==>
        Seg() == old(Seg()).(silenceStartTime := 0) && events == old(events) + [SpeechData(chunk)]
    {
      silenceStartTime := 0;
      events := events + [SpeechData(chunk)];
      var speechDuration := now - speechStartTime;
      if speechDuration as real >= config.maxSpeechDuration {
        StopSpeech(VadResult(0.0, false, now as real));
      }
    }

    /** `stopSpeech`: close the segment, clear both timers and emit `speech_stop`. */
    method StopSpeech(result: VadResult)
      modifies this`speechState, this`speechStartTime, this`silenceStartTime, this`events
      ensures Seg() == Silent
      ensures events == old(events) + [SpeechStop(result)]
    {
      speechState := false;
      speechStartTime := 0;
      silenceStartTime := 0;
      events := events + [SpeechStop(result)];
    }

    /** `detachAudioStream`, as written: stop processing and drop the segment without an event. */
    method DetachAudioStream()
      modifies this`isProcessing, this`speechState
      ensures !isProcessing && Seg() == Detached(old(Seg())) && events == old(events)
    {
      isProcessing := false;
      speechState := false;
    }

    /**
     * `reset`: detach, with the corrected detach at time `now`; the worker's
     * `reset` round trip is outside the class.
     */
    method Reset(now: int)
      modifies this`isProcessing, this`speechState, this`speechStartTime, this`silenceStartTime, this`events
      ensures !isProcessing && isInitialized == old(isInitialized)
      ensures Seg() == Silent && events == old(events) + DetachClosing(old(Seg()), now).emitted
      ensures old(SegmentsAlternate()) ==> SegmentsAlternate()
    {
      DetachAudioStreamClosingSegment(now);
    }

    /**
     * `destroy`: detach (corrected, at time `now`), then tear down the audio
     * graph and the worker, whose outcome is `teardown`. The flag is cleared
     * only once both have resolved; a rejection leaves it set and is passed on.
     */
    method Destroy(teardown: Outcome, now: int) returns (r: Outcome)
      modifies this`isProcessing, this`speechState, this`speechStartTime, this`silenceStartTime, this`events,
               this`isInitialized
      ensures r == teardown && !isProcessing
      ensures isInitialized == (old(isInitialized) && teardown.Fail?)
      ensures Seg() == Silent && events == old(events) + DetachClosing(old(Seg()), now).emitted
      ensures old(SegmentsAlternate()) ==> SegmentsAlternate()
    {
      DetachAudioStreamClosingSegment(now);
      if teardown.Fail? {
        return teardown;
      }
      isInitialized := false;
      r := Pass;
    }

    /** The corrected detach: close an open segment with `speech_stop` before going silent. */
    method DetachAudioStreamClosingSegment(now: int)
      modifies this`isProcessing, this`speechState, this`speechStartTime, this`silenceStartTime, this`events
      ensures !isProcessing
      ensures Seg() == DetachClosing(old(Seg()), now).next
      ensures events == old(events) + DetachClosing(old(Seg()), now).emitted
      ensures old(SegmentsAlternate()) ==> SegmentsAlternate()
    {
      ghost var log, s := events, Seg();
      isProcessing := false;
      if speechState {
        StopSpeech(CutOff(now));
      } else {
        speechStartTime, silenceStartTime := 0, 0;
      }
      if Replay(log) == Some(s.speaking) {
        DetachClosingPreservesReplay(log, s, now);
      }
    }
  }
}
