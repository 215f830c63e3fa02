/** The default configuration and the merge of a user configuration over it. */
module Defaults {
  import opened Wrappers
  import opened Types

  /** `DEFAULT_CONFIG`; durations are in milliseconds. */
  const DefaultConfig := FullConfig(
    modelUrl := "/models/silero_vad.onnx",
    sampleRate := 16000.0,
    frameSize := 512.0,
    threshold := 0.5,
    minSilenceDuration := 250.0,
    minSpeechDuration := 250.0,
    maxSpeechDuration := 30000.0)

  /**
   * `createConfig`: the object spread `{ ...DEFAULT_CONFIG, ...userConfig }`.
   * Every field the user gives wins, including a zero.
   */
  function CreateConfig(user: VadConfig): (r: FullConfig)
    ensures user.modelUrl.Some? ==> r.modelUrl == user.modelUrl.value
    ensures user.modelUrl.None? ==> r.modelUrl == DefaultConfig.modelUrl
    ensures user.sampleRate.Some? ==> r.sampleRate == user.sampleRate.value
    ensures user.sampleRate.None? ==> r.sampleRate == DefaultConfig.sampleRate
    ensures user.frameSize.Some? ==> r.frameSize == user.frameSize.value
    ensures user.frameSize.None? ==> r.frameSize == DefaultConfig.frameSize
    ensures user.threshold.Some? ==> r.threshold == user.threshold.value
    ensures user.threshold.None? ==> r.threshold == DefaultConfig.threshold
    ensures user.minSilenceDuration.Some? ==> r.minSilenceDuration == user.minSilenceDuration.value
    ensures user.minSilenceDuration.None? ==> r.minSilenceDuration == DefaultConfig.minSilenceDuration
    ensures user.minSpeechDuration.Some? ==> r.minSpeechDuration == user.minSpeechDuration.value
    ensures user.minSpeechDuration.None? ==> r.minSpeechDuration == DefaultConfig.minSpeechDuration
    ensures user.maxSpeechDuration.Some? ==> r.maxSpeechDuration == user.maxSpeechDuration.value
    ensures user.maxSpeechDuration.None? ==> r.maxSpeechDuration == DefaultConfig.maxSpeechDuration
  {
    var d := DefaultConfig;
    FullConfig(
      user.modelUrl.GetOr(d.modelUrl),
      user.sampleRate.GetOr(d.sampleRate),
      user.frameSize.GetOr(d.frameSize),
      user.threshold.GetOr(d.threshold),
      user.minSilenceDuration.GetOr(d.minSilenceDuration),
      user.minSpeechDuration.GetOr(d.minSpeechDuration),
      user.maxSpeechDuration.GetOr(d.maxSpeechDuration))
  }

  /** `createConfig({})` is the default configuration. */
  lemma CreateEmptyIsDefault()
    ensures CreateConfig(EmptyConfig) == DefaultConfig
  {
  }

  /** A complete configuration passes through the merge unchanged. */
  lemma CreateCompleteIsIdentity(c: FullConfig)
    ensures CreateConfig(Loosen(c)) == c
  {
  }

  /** Merging is idempotent: merging the merged configuration again changes nothing. */
  lemma CreateIdempotent(user: VadConfig)
    ensures CreateConfig(Loosen(CreateConfig(user))) == CreateConfig(user)
  {
  }

  /** A field given later wins over the same field given earlier; the rest is unaffected. */
  lemma OverrideThreshold(user: VadConfig, t: real)
    ensures CreateConfig(user.(threshold := Some(t))) == CreateConfig(user).(threshold := t)
  {
  }
}
