/**
 * Configuration validation. Every check is guarded by the truthiness of the
 * field, so an absent field and a field equal to zero skip their check.
 */
module Validation {
  import opened Wrappers
  import opened Types

  const SampleRateError := "Sample rate must be positive"
  const FrameSizeError := "Frame size must be positive"
  const ThresholdError := "Threshold must be between 0 and 1"
  const MinSilenceError := "Min silence duration must be non-negative"
  const MinSpeechError := "Min speech duration must be non-negative"
  const MaxSpeechError := "Max speech duration must be non-negative"

  /** A present field holding a negative number. */
  predicate Negative(o: Option<real>) {
    o.Some? && o.value < 0.0
  }

  /** A present threshold outside [0, 1]. */
  predicate OutOfUnit(o: Option<real>) {
    o.Some? && (o.value < 0.0 || o.value > 1.0)
  }

  /**
   * Reference definition: the message of every violated constraint, in the
   * order the guards are written.
   */
  function Violations(c: VadConfig): seq<string> {
    (if Negative(c.sampleRate) then [SampleRateError] else [])
    + (if Negative(c.frameSize) then [FrameSizeError] else [])
    + (if OutOfUnit(c.threshold) then [ThresholdError] else [])
    + (if Negative(c.minSilenceDuration) then [MinSilenceError] else [])
    + (if Negative(c.minSpeechDuration) then [MinSpeechError] else [])
    + (if Negative(c.maxSpeechDuration) then [MaxSpeechError] else [])
  }

  /**
   * `validateConfig`: passes, or fails with the message of the first guard,
   * in source order, that rejects the configuration.
   */
  function ValidateConfig(c: VadConfig): (r: Outcome)
    ensures r == if Violations(c) == [] then Pass else Fail(Violations(c)[0])
    ensures r.Pass? <==> !Negative(c.sampleRate) && !Negative(c.frameSize) && !OutOfUnit(c.threshold)
                         && !Negative(c.minSilenceDuration) && !Negative(c.minSpeechDuration)
                         && !Negative(c.maxSpeechDuration)
  {
    if TruthyNum(c.sampleRate) && c.sampleRate.value <= 0.0 then Fail(SampleRateError)
    else if TruthyNum(c.frameSize) && c.frameSize.value <= 0.0 then Fail(FrameSizeError)
    else if TruthyNum(c.threshold) && (c.threshold.value < 0.0 || c.threshold.value > 1.0) then Fail(ThresholdError)
    else if TruthyNum(c.minSilenceDuration) && c.minSilenceDuration.value < 0.0 then Fail(MinSilenceError)
    else if TruthyNum(c.minSpeechDuration) && c.minSpeechDuration.value < 0.0 then Fail(MinSpeechError)
    else if TruthyNum(c.maxSpeechDuration) && c.maxSpeechDuration.value < 0.0 then Fail(MaxSpeechError)
    else Pass
  }

  /** The configuration with no field given passes. */
  lemma EmptyConfigPasses()
    ensures ValidateConfig(EmptyConfig) == Pass
  {
  }

  /** A negative sample rate is rejected whatever the other fields hold. */
  lemma NegativeSampleRateRejected(c: VadConfig)
    requires Negative(c.sampleRate)
    ensures ValidateConfig(c) == Fail(SampleRateError)
  {
  }

  /**
   * A zero sample rate or frame size is indistinguishable from an absent one:
   * the truthiness guard skips the check, so zero passes validation.
   */
  lemma ZeroIsLikeAbsent(c: VadConfig)
    ensures ValidateConfig(c.(sampleRate := Some(0.0))) == ValidateConfig(c.(sampleRate := None))
    ensures ValidateConfig(c.(frameSize := Some(0.0))) == ValidateConfig(c.(frameSize := None))
  {
  }

  /** A threshold in [0, 1] never causes a rejection; one outside does, unless an earlier check fails. */
  lemma ThresholdRange(c: VadConfig, t: real)
    requires !Negative(c.sampleRate) && !Negative(c.frameSize)
    ensures 0.0 <= t <= 1.0 ==> ValidateConfig(c.(threshold := Some(t))) == ValidateConfig(c.(threshold := None))
    ensures (t < 0.0 || t > 1.0) ==> ValidateConfig(c.(threshold := Some(t))) == Fail(ThresholdError)
  {
  }

  /**
   * A negative duration is rejected with its own message whenever every
   * earlier check passes; otherwise the earlier check's message wins.
   */
  lemma DurationsRejectedWhenNegative(c: VadConfig, d: real)
    requires d < 0.0
    requires !Negative(c.sampleRate) && !Negative(c.frameSize) && !OutOfUnit(c.threshold)
    ensures ValidateConfig(c.(minSilenceDuration := Some(d))) == Fail(MinSilenceError)
    ensures !Negative(c.minSilenceDuration) ==>
      ValidateConfig(c.(minSpeechDuration := Some(d))) == Fail(MinSpeechError)
    ensures Negative(c.minSilenceDuration) ==>
      ValidateConfig(c.(minSpeechDuration := Some(d))) == Fail(MinSilenceError)
    ensures !Negative(c.minSilenceDuration) && !Negative(c.minSpeechDuration) ==>
      ValidateConfig(c.(maxSpeechDuration := Some(d))) == Fail(MaxSpeechError)
  {
  }
}
