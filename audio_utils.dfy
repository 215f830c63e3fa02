/**
 * Sample-level helpers: peak normalisation, linear-interpolation resampling
 * and the construction of an audio chunk. Samples are `real`; the rounding of
 * 32-bit floats is not modelled.
 */
module AudioUtils {
  import opened Wrappers
  import opened Types
  import TypeGuards

  function Abs(x: real): real {
    if x < 0.0 then -x else x
  }

  function Max(x: real, y: real): real {
    if x < y then y else x
  }

  function Min(x: real, y: real): real {
    if x < y then x else y
  }

  /** `Math.round`: halves round up. */
  function Round(x: real): int {
    (x + 0.5).Floor
  }

  /** `Math.ceil`. */
  function Ceil(x: real): int {
    if x.Floor as real == x then x.Floor else x.Floor + 1
  }

  /** The largest absolute sample value, 0 for no samples. */
  function MaxAbs(s: seq<real>): real {
    if |s| == 0 then 0.0 else Max(MaxAbs(s[..|s| - 1]), Abs(s[|s| - 1]))
  }

  /** The peak bounds every sample's magnitude, and a zero peak means silence. */
  lemma {:induction false} MaxAbsBounds(s: seq<real>)
    ensures MaxAbs(s) >= 0.0
    ensures forall i :: 0 <= i < |s| ==> Abs(s[i]) <= MaxAbs(s)
    ensures MaxAbs(s) == 0.0 ==> forall i :: 0 <= i < |s| ==> s[i] == 0.0
  {
    if |s| > 0 {
      var init := s[..|s| - 1];
      MaxAbsBounds(init);
      assert forall i :: 0 <= i < |init| ==> s[i] == init[i];
    }
  }

  lemma DivideByPeak(x: real, m: real)
    requires m > 0.0 && Abs(x) <= m
    ensures Abs(x / m) <= 1.0
  {
    if x >= 0.0 {
      assert x / m <= m / m;
    } else {
      assert -x / m <= m / m;
      assert x / m == -(-x / m);
    }
  }

  /**
   * `normalizeAudio`: every sample divided by the peak magnitude, or all
   * zeros when the peak is zero; the length is preserved.
   */
  method NormalizeAudio(audio: seq<real>) returns (normalized: seq<real>)
    ensures |normalized| == |audio|
    ensures MaxAbs(audio) == 0.0 ==> forall i :: 0 <= i < |normalized| ==> normalized[i] == 0.0
    ensures MaxAbs(audio) != 0.0 ==> forall i :: 0 <= i < |normalized| ==> normalized[i] == audio[i] / MaxAbs(audio)
    ensures forall i :: 0 <= i < |normalized| ==> Abs(normalized[i]) <= 1.0
  {
    var out := new real[|audio|](_ => 0.0);
    var max := 0.0;
    for i := 0 to |audio|
      invariant max == MaxAbs(audio[..i])
    {
      assert audio[..i + 1][..i] == audio[..i];
      max := Max(max, Abs(audio[i]));
    }
    assert audio[..|audio|] == audio;
    if max == 0.0 {
      normalized := out[..];
      return;
    }
    MaxAbsBounds(audio);
    for i := 0 to |audio|
      invariant forall j :: 0 <= j < i ==> out[j] == audio[j] / max
    {
      out[i] := audio[i] / max;
    }
    normalized := out[..];
    forall i | 0 <= i < |normalized|
      ensures Abs(normalized[i]) <= 1.0
    {
      DivideByPeak(audio[i], max);
    }
  }

  /** The number of output samples: `Math.round(len / (inRate / outRate))`. */
  function OutputLength(len: nat, ratio: real): (n: nat)
    requires ratio > 0.0
    ensures n as real <= len as real / ratio + 0.5 < n as real + 1.0
  {
    Round(len as real / ratio)
  }

  /** The source index read on the left of output sample `i`. */
  function LeftIndex(ratio: real, i: nat): int {
    (i as real * ratio).Floor
  }

  /** The source index read on the right of output sample `i`. */
  function RightIndex(ratio: real, i: nat): int {
    Ceil(i as real * ratio)
  }

  /**
   * Output sample `i`: the linear interpolation at source position
   * `i * ratio`, or the left sample when the right neighbour is past the end.
   */
  function Interpolate(input: seq<real>, ratio: real, i: nat): real
    requires ratio > 0.0
    requires 0 <= LeftIndex(ratio, i) < |input|
  {
    var index := i as real * ratio;
    var left := LeftIndex(ratio, i);
    var right := RightIndex(ratio, i);
    var fraction := index - left as real;
    if right >= |input| then input[left]
    else input[left] * (1.0 - fraction) + input[right] * fraction
  }

  /** Every left index the resampling loop reads lies within the input. */
  lemma LeftIndexInBounds(len: nat, ratio: real, i: nat)
    requires ratio > 0.0
    requires i < OutputLength(len, ratio)
    ensures 0 <= LeftIndex(ratio, i) < len
  {
    var q := len as real / ratio;
    assert i as real + 1.0 <= q + 0.5;
    assert q * ratio == len as real;
    calc {
      i as real * ratio;
    <= (q - 0.5) * ratio;
    == len as real - 0.5 * ratio;
    <  len as real;
    }
    assert 0.0 <= i as real * ratio;
  }

  lemma MulNonNegative(x: real, y: real)
    requires x >= 0.0 && y >= 0.0
    ensures x * y >= 0.0
  {
  }

  /**
   * An interpolated sample is the left sample when the right index is past the
   * end, and otherwise lies between its two neighbours.
   */
  lemma InterpolateBetween(input: seq<real>, ratio: real, i: nat)
    requires ratio > 0.0
    requires 0 <= LeftIndex(ratio, i) < |input|
    ensures LeftIndex(ratio, i) <= RightIndex(ratio, i) <= LeftIndex(ratio, i) + 1
    ensures RightIndex(ratio, i) >= |input| ==> Interpolate(input, ratio, i) == input[LeftIndex(ratio, i)]
    ensures RightIndex(ratio, i) < |input| ==>
      Min(input[LeftIndex(ratio, i)], input[RightIndex(ratio, i)]) <= Interpolate(input, ratio, i)
      <= Max(input[LeftIndex(ratio, i)], input[RightIndex(ratio, i)])
  {
    var left, right := LeftIndex(ratio, i), RightIndex(ratio, i);
    if right < |input| {
      var a, b := input[left], input[right];
      var f := i as real * ratio - left as real;
      assert 0.0 <= f < 1.0;
      assert Interpolate(input, ratio, i) == a + f * (b - a);
      if a <= b {
        assert 0.0 <= f * (b - a) <= b - a by {
          MulNonNegative(f, b - a);
          MulNonNegative(1.0 - f, b - a);
        }
      } else {
        assert a - b >= f * (a - b) >= 0.0 by {
          MulNonNegative(f, a - b);
          MulNonNegative(1.0 - f, a - b);
        }
      }
    }
  }

  /**
   * `resampleAudio`: equal rates return the input itself; otherwise
   * `round(len / ratio)` samples, each interpolated at `i * ratio` from source
   * indices that are all in bounds.
   */
  method ResampleAudio(input: seq<real>, inputSampleRate: real, outputSampleRate: real)
    returns (output: seq<real>)
    requires inputSampleRate > 0.0 && outputSampleRate > 0.0
    ensures inputSampleRate == outputSampleRate ==> output == input
    ensures inputSampleRate != outputSampleRate ==>
      var ratio := inputSampleRate / outputSampleRate;
      && |output| == OutputLength(|input|, ratio)
      && forall i :: 0 <= i < |output| ==>
           0 <= LeftIndex(ratio, i) < |input| && output[i] == Interpolate(input, ratio, i)
  {
    if inputSampleRate == outputSampleRate {
      return input;
    }
    var ratio := inputSampleRate / outputSampleRate;
    var outputLength := OutputLength(|input|, ratio);
    var out := new real[outputLength](_ => 0.0);
    for i := 0 to outputLength
      invariant forall j :: 0 <= j < i ==>
        0 <= LeftIndex(ratio, j) < |input| && out[j] == Interpolate(input, ratio, j)
    {
      LeftIndexInBounds(|input|, ratio, i);
      out[i] := Interpolate(input, ratio, i);
    }
    output := out[..];
  }

  /** `createAudioBuffer`: the capture time is a parameter here, not `Date.now()`. */
  function CreateAudioBuffer(audio: seq<real>, sampleRate: real, timestamp: real): (c: AudioChunk)
    ensures c.data == audio && c.sampleRate == sampleRate && c.timestamp == timestamp
  {
    AudioChunk(audio, timestamp, sampleRate)
  }

  /** A constructed buffer, once posted, passes `isAudioChunk` and decodes to the same chunk. */
  lemma CreatedBufferCrossesBoundary(audio: seq<real>, sampleRate: real, timestamp: real)
    ensures TypeGuards.IsAudioChunk(EncodeAudioChunk(CreateAudioBuffer(audio, sampleRate, timestamp)))
    ensures TypeGuards.DecodeAudioChunk(EncodeAudioChunk(CreateAudioBuffer(audio, sampleRate, timestamp)))
            == Some(AudioChunk(audio, timestamp, sampleRate))
  {
    TypeGuards.AudioChunkRoundTrip(CreateAudioBuffer(audio, sampleRate, timestamp));
  }
}
