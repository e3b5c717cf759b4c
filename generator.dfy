/** The long-track generator: clamp the segment duration, generate the
    planned number of segments one after another, stitch them and trim the
    result to the requested length.

    The generation engine is a parameter: generate(k, tokens) is the buffer
    the k-th generation call returns when given a budget of tokens steps.
    The call index stands for the engine's own random choices, so that two
    calls may return different buffers. */
module LofiGenerator {
  import opened Segmentation
  import opened Stitching

  /** The two diagnostics the generator reports without stopping. */
  datatype Warning =
    | SegmentTooLong
    | AudioTooShort(expected: nat, actual: nat)

  /** The buffers of the first n generation calls, in call order. */
  function Generated<T>(n: nat, tokens: nat, generate: (nat, nat) -> seq<T>): (segments: seq<seq<T>>)
    ensures |segments| == n
    ensures forall k :: 0 <= k < n ==> segments[k] == generate(k, tokens)
  {
    if n == 0 then [] else Generated(n - 1, tokens, generate) + [generate(n - 1, tokens)]
  }

  /** Each of the first n calls returns at least perSegment samples. */
  predicate FullSegments<T>(n: nat, tokens: nat, perSegment: nat, generate: (nat, nat) -> seq<T>) {
    forall k :: 0 <= k < n ==> |generate(k, tokens)| >= perSegment
  }

  /** Generate numSegments buffers, each with the same token budget, and
      collect them in the order they were generated. */
  method CollectSegments<T>(numSegments: nat, tokens: nat, generate: (nat, nat) -> seq<T>)
    returns (segments: seq<seq<T>>)
    ensures segments == Generated(numSegments, tokens, generate)
  {
    segments := [];
    for i := 0 to numSegments
      invariant |segments| == i
      invariant forall k :: 0 <= k < i ==> segments[k] == generate(k, tokens)
    {
      var audio := generate(i, tokens);
      segments := segments + [audio];
    }
  }

  /** The whole procedure, from the requested durations to the final track
      and the warnings printed on the way. */
  method GenerateLofiMusicLong<T>(totalSeconds: int, requestedSegmentSeconds: int, samplingRate: nat,
                                  generate: (nat, nat) -> seq<T>)
    returns (track: seq<T>, warnings: seq<Warning>)
    requires totalSeconds > 0 && requestedSegmentSeconds > 0
    ensures var seconds := EffectiveSegmentSeconds(requestedSegmentSeconds);
            var n := SegmentCount(totalSeconds, seconds);
            var segments := Generated(n, TokenBudget(seconds), generate);
            var desired := totalSeconds * samplingRate;
            && track == Stitch(segments, totalSeconds, samplingRate).samples
            && warnings == (if ClampWarns(requestedSegmentSeconds) then [SegmentTooLong] else [])
                           + (if TotalLength(segments) < desired then [AudioTooShort(desired, TotalLength(segments))] else [])
  {
    var clampWarnings: seq<Warning> := [];
    var segmentSeconds := requestedSegmentSeconds;
    if segmentSeconds > MaxSegmentSeconds {
      clampWarnings := [SegmentTooLong];
      segmentSeconds := FallbackSegmentSeconds;
    }

    var maxNewTokensPerSegment := segmentSeconds * TokensPerSecond;
    var numSegments := SegmentCount(totalSeconds, segmentSeconds);
    var allAudioSegments := CollectSegments(numSegments, maxNewTokensPerSegment, generate);

    var finalAudio, shortWarnings := StitchSegments(allAudioSegments, totalSeconds, samplingRate);
    track := finalAudio;
    warnings := clampWarnings + shortWarnings;
  }

  /** Join the segments in order and cut the result to the requested
      number of samples, warning when it falls short. */
  method StitchSegments<T>(segments: seq<seq<T>>, totalSeconds: nat, samplingRate: nat)
    returns (finalAudio: seq<T>, warnings: seq<Warning>)
    ensures finalAudio == Stitch(segments, totalSeconds, samplingRate).samples
    ensures warnings == if TotalLength(segments) < totalSeconds * samplingRate
                        then [AudioTooShort(totalSeconds * samplingRate, TotalLength(segments))] else []
  {
    warnings := [];
    finalAudio := Concat(segments);
    var desiredSamples := totalSeconds * samplingRate;
    if |finalAudio| > desiredSamples {
      finalAudio := finalAudio[..desiredSamples];
    } else if |finalAudio| < desiredSamples {
      warnings := [AudioTooShort(desiredSamples, |finalAudio|)];
    }
  }

  /** When every one of the planned segments is at least a full segment
      long, the stitched track has exactly the requested number of samples,
      is the start of the joined segments and raises no warning. */
  lemma FullLength<T>(segments: seq<seq<T>>, totalSeconds: int, segmentSeconds: int, samplingRate: nat)
    requires totalSeconds > 0 && segmentSeconds > 0
    requires |segments| == SegmentCount(totalSeconds, segmentSeconds)
    requires forall k :: 0 <= k < |segments| ==> |segments[k]| >= segmentSeconds * samplingRate
    ensures TotalLength(segments) >= totalSeconds * samplingRate
    ensures Stitch(segments, totalSeconds, samplingRate)
            == Trimmed(Concat(segments)[..totalSeconds * samplingRate], false)
  {
    var n, perSegment, desired := |segments|, segmentSeconds * samplingRate, totalSeconds * samplingRate;
    TotalLengthLowerBound(segments, perSegment);
    MultiplyAssociative(n, segmentSeconds, samplingRate);
    MultiplyMonotone(totalSeconds, n * segmentSeconds, samplingRate);
    assert TotalLength(segments) >= desired;
  }

  /** End to end: when every planned call returns at least a full segment
      of samples, the track of the whole procedure has exactly the requested
      number of samples and the under-length warning is not due. */
  lemma PlannedTrackFullLength<T>(totalSeconds: int, requestedSegmentSeconds: int, samplingRate: nat,
                                  generate: (nat, nat) -> seq<T>)
    requires totalSeconds > 0 && requestedSegmentSeconds > 0
    requires var seconds := EffectiveSegmentSeconds(requestedSegmentSeconds);
             FullSegments(SegmentCount(totalSeconds, seconds), TokenBudget(seconds), seconds * samplingRate, generate)
    ensures var seconds := EffectiveSegmentSeconds(requestedSegmentSeconds);
            var segments := Generated(SegmentCount(totalSeconds, seconds), TokenBudget(seconds), generate);
            && |Stitch(segments, totalSeconds, samplingRate).samples| == totalSeconds * samplingRate
            && !Stitch(segments, totalSeconds, samplingRate).tooShort
  {
    var seconds := EffectiveSegmentSeconds(requestedSegmentSeconds);
    var segments := Generated(SegmentCount(totalSeconds, seconds), TokenBudget(seconds), generate);
    FullLength(segments, totalSeconds, seconds, samplingRate);
  }
}
