/** Stitching: the generated segments are joined in the order they were
    produced and the result is cut down, never padded, to the requested
    number of samples. Samples are opaque values of type T. */
module Stitching {

  /** The number of samples in all segments together. */
  function TotalLength<T>(segments: seq<seq<T>>): (total: nat)
    ensures segments == [] ==> total == 0
  {
    if segments == [] then 0
    else TotalLength(segments[..|segments| - 1]) + |segments[|segments| - 1]|
  }

  /** The segments joined end to end in generation order. */
  function Concat<T>(segments: seq<seq<T>>): (joined: seq<T>)
    ensures |joined| == TotalLength(segments)
    ensures |segments| == 1 ==> joined == segments[0]
  {
    if segments == [] then []
    else Concat(segments[..|segments| - 1]) + segments[|segments| - 1]
  }

  /** Joining two runs of segments is joining each run and then the two results. */
  lemma {:induction false} ConcatAppend<T>(front: seq<seq<T>>, back: seq<seq<T>>)
    ensures Concat(front + back) == Concat(front) + Concat(back)
    decreases |back|
  {
    if back == [] {
      assert front + back == front;
    } else {
      var init, last := back[..|back| - 1], back[|back| - 1];
      var whole := front + back;
      assert whole[..|whole| - 1] == front + init;
      assert whole[|whole| - 1] == last;
      assert Concat(whole) == Concat(front + init) + last;
      ConcatAppend(front, init);
      assert Concat(back) == Concat(init) + last;
    }
  }

  /** Where segment i starts in the joined buffer. */
  function Offset<T>(segments: seq<seq<T>>, i: nat): (start: nat)
    requires i <= |segments|
    ensures start <= TotalLength(segments)
  {
    TotalLengthPrefix(segments, i);
    TotalLength(segments[..i])
  }

  lemma {:induction false} TotalLengthPrefix<T>(segments: seq<seq<T>>, i: nat)
    requires i <= |segments|
    ensures TotalLength(segments[..i]) <= TotalLength(segments)
    decreases |segments|
  {
    if i < |segments| {
      var init := segments[..|segments| - 1];
      assert segments[..i] == init[..i];
      TotalLengthPrefix(init, i);
    } else {
      assert segments[..i] == segments;
    }
  }

  /** Each segment sits unchanged in the joined buffer, right after all the
      segments generated before it: no reordering, no interleaving. */
  lemma SegmentInPlace<T>(segments: seq<seq<T>>, i: nat)
    requires i < |segments|
    ensures Offset(segments, i) + |segments[i]| == Offset(segments, i + 1)
    ensures Concat(segments)[Offset(segments, i)..Offset(segments, i + 1)] == segments[i]
  {
    var before, after := segments[..i], segments[i + 1..];
    assert segments[..i + 1] == before + [segments[i]];
    assert segments == before + [segments[i]] + after;
    ConcatAppend(before, [segments[i]]);
    ConcatAppend(before + [segments[i]], after);
    assert Concat([segments[i]]) == segments[i];
    assert Concat(segments[..i + 1]) == Concat(before) + segments[i];
  }

  /** Three segments are joined as A, then B, then C. */
  lemma ConcatThree<T>(a: seq<T>, b: seq<T>, c: seq<T>)
    ensures Concat([a, b, c]) == a + b + c
  {
    assert [a, b, c][..2] == [a, b];
    assert [a, b][..1] == [a];
  }

  /** If every segment has at least perSegment samples, the joined buffer
      has at least count times that many. */
  lemma {:induction false} TotalLengthLowerBound<T>(segments: seq<seq<T>>, perSegment: nat)
    requires forall i :: 0 <= i < |segments| ==> |segments[i]| >= perSegment
    ensures TotalLength(segments) >= |segments| * perSegment
    decreases |segments|
  {
    if segments != [] {
      var init := segments[..|segments| - 1];
      assert forall i :: 0 <= i < |init| ==> init[i] == segments[i];
      TotalLengthLowerBound(init, perSegment);
      assert |segments| * perSegment == |init| * perSegment + perSegment;
    }
  }

  /** The result of trimming, with whether the under-length warning is due. */
  datatype Trimmed<T> = Trimmed(samples: seq<T>, tooShort: bool)

  /** Cut the joined buffer to the desired number of samples. A longer
      buffer loses its tail; a buffer that is not longer is kept as it is,
      with a warning when it is strictly shorter. */
  function Trim<T>(audio: seq<T>, desired: nat): (t: Trimmed<T>)
    ensures t.samples <= audio
    ensures |t.samples| == if |audio| < desired then |audio| else desired
    ensures |audio| <= desired ==> t.samples == audio
    ensures t.tooShort <==> |audio| < desired
  {
    if |audio| > desired then Trimmed(audio[..desired], false)
    else Trimmed(audio, |audio| < desired)
  }

  /** Trimming a trimmed buffer to the same length changes nothing. */
  lemma TrimIdempotent<T>(audio: seq<T>, desired: nat)
    ensures Trim(Trim(audio, desired).samples, desired).samples == Trim(audio, desired).samples
  {
  }

  /** The stitched track: the segments joined in order, cut to
      totalSeconds * samplingRate samples. */
  function Stitch<T>(segments: seq<seq<T>>, totalSeconds: nat, samplingRate: nat): (t: Trimmed<T>)
    ensures t.samples <= Concat(segments)
    ensures |t.samples| == if TotalLength(segments) < totalSeconds * samplingRate
                           then TotalLength(segments) else totalSeconds * samplingRate
    ensures t.tooShort <==> TotalLength(segments) < totalSeconds * samplingRate
  {
    Trim(Concat(segments), totalSeconds * samplingRate)
  }

  /** A single segment of exactly the requested length comes back unchanged
      and without a warning. */
  lemma StitchExactSingleSegment<T>(segment: seq<T>, totalSeconds: nat, samplingRate: nat)
    requires |segment| == totalSeconds * samplingRate
    ensures Stitch([segment], totalSeconds, samplingRate) == Trimmed(segment, false)
  {
  }
}
