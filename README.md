# Segmented long-track generation, modelled in Dafny

The script `test.py` makes a lo-fi music track longer than the generation
engine can produce in one call. It does this in four steps:

1. It clamps the per-segment duration. A request above 29 seconds becomes
   28 seconds, with a warning.
2. It gives every segment a budget of 50 generation steps ("tokens") per
   second of audio.
3. It calls the engine once per segment. The number of segments is the
   ceiling of total duration over segment duration.
4. It joins the collected buffers in order and cuts the result to
   `total_duration_seconds * sampling_rate` samples. A result that is too
   long loses its tail. A result that is too short is kept, with a warning.

The model has three modules:

- `Segmentation` (`plan.dfy`) holds the plan arithmetic as pure functions
  and the lemmas about it.
- `Stitching` (`stitch.dfy`) holds joining and trimming as functions on
  sequences of opaque samples, with lemmas about order and length.
- `LofiGenerator` (`generator.dfy`) holds the procedure itself. The
  collection loop and the trimming are methods, and each method is proved
  against the functions above.

The generation engine is a parameter `generate: (nat, nat) -> seq<T>`.
`generate(k, tokens)` is the buffer that the k-th call returns for a budget
of `tokens` steps. The call index stands for the engine's random sampling,
so successive calls may return different buffers. The sampling rate is an
input natural number. The two console warnings are returned as a sequence
of `Warning` values.

## Model

| member | source | states |
|---|---|---|
| `Segmentation.EffectiveSegmentSeconds` | test.py:24-26 | the used duration is at most 29; it differs from the request exactly when the request is above 29, and is then 28 |
| `Segmentation.ClampIdempotent` | test.py:24-26 | a clamped duration never triggers the warning again, and clamping it again changes nothing |
| `Segmentation.ClampKeepsPositive` | test.py:24-26 | a positive request gives a duration between 1 and 29 |
| `Segmentation.TokenBudget` | test.py:64-66 | the step budget is a whole multiple of 50, and dividing it by 50 gives back the duration in seconds |
| `Segmentation.TokenBudgetBounded` | test.py:64-66 | after clamping, no segment asks the engine for more than 29 * 50 steps |
| `Segmentation.SegmentCount` | test.py:81 | the count is at least 1; that many segments reach the total duration, and one fewer does not |
| `Segmentation.SegmentCountMinimal` | test.py:81 | every count whose segments reach the total is at least the planned count |
| `Segmentation.SegmentCountUnique` | test.py:81 | a count that reaches the total while one fewer does not is the planned count |
| `Segmentation.DefaultRequestPlan` | test.py:9-10 | the default request of 225 s in 28 s segments gives 9 segments of 1400 steps |
| `Segmentation.OverCeilingRequestPlan` | test.py:24-26 | a 30 s request warns and becomes 28 s, so 60 s takes 3 segments |
| `Stitching.Concat` | test.py:121 | the joined buffer is as long as all segments together, and one segment joins to itself |
| `Stitching.ConcatAppend` | test.py:121 | joining two runs of segments equals joining each run and then the two results |
| `Stitching.SegmentInPlace` | test.py:121 | segment i appears unchanged in the joined buffer, right after the segments generated before it |
| `Stitching.ConcatThree` | test.py:121 | segments A, B, C join to A followed by B followed by C |
| `Stitching.TotalLengthLowerBound` | test.py:121 | if each segment has at least m samples, all of them together have at least count * m |
| `Stitching.Trim` | test.py:124-129 | the result is a prefix of the input, of length min(input length, desired); input not longer than desired is returned unchanged; the warning is due exactly when the input is strictly shorter |
| `Stitching.TrimIdempotent` | test.py:124-126 | trimming an already trimmed buffer to the same length changes nothing |
| `Stitching.Stitch` | test.py:120-129 | the final track is a prefix of the in-order join, of length min(joined length, total * rate), with the warning due exactly when the join is short |
| `Stitching.StitchExactSingleSegment` | test.py:121-129 | a single segment of exactly the desired length comes back unchanged and without a warning |
| `LofiGenerator.Generated` | test.py:91-106 | the first n generation calls give n buffers, buffer k being the k-th call's result with the segment's budget |
| `LofiGenerator.CollectSegments` | test.py:80-106 | the loop collects exactly the planned number of buffers, in generation order |
| `LofiGenerator.StitchSegments` | test.py:120-129 | the returned track is the stitched track, and the under-length warning is returned with the expected and actual lengths exactly when the join is short |
| `LofiGenerator.FullLength` | test.py:123-128 | if each of the planned segments has at least a full segment of samples, the track has exactly total * rate samples, is the start of the join, and gives no warning |
| `LofiGenerator.GenerateLofiMusicLong` | test.py:8-129 | the track is the stitched result of the planned calls, made with the clamped duration and its step budget; the warnings are the clamp warning, then the under-length warning with expected and actual lengths, each exactly when due |
| `LofiGenerator.PlannedTrackFullLength` | test.py:123-129 | if every planned call returns at least a full segment of samples, the track of the whole procedure has exactly total * rate samples and the under-length warning is not due |

## Left out

- Loading the model and the prompt processor (test.py:44-45) and encoding the prompt (test.py:71-75) are calls into an external library. The encoded prompt is not modelled.
- Device selection and moving tensors between devices (test.py:51-56, 76-77, 103-104) do not affect the result.
- The generation call itself (test.py:96-101) is neural-network sampling. It is the parameter `generate`, and nothing is assumed about the lengths it returns.
- The sampling rate comes from the model configuration (test.py:82). Here it is an input.
- Progress bars, timing and console output (test.py:39-62, 85-118, 133-139) are not modelled. The two warnings (test.py:25, 129) are returned as values instead of printed.
- Writing the WAV file (test.py:134) is file I/O.
- Sample values are floating point in the source. Here they are an opaque type `T`, because no operation looks at them.
- SegmentCount: uses exact integer ceiling division. The source computes `np.ceil` of a floating-point quotient, which could differ for durations beyond 2^53.
- GenerateLofiMusicLong: requires positive total and segment durations. The source does not check them. A zero segment duration raises a division-by-zero error there. A non-positive total gives no segments, and joining an empty list raises an error. A positive total with a negative segment duration also gives no segments, since the ceiling of the quotient is at most 0, and the join raises the same error. Both durations negative is not a case the source's callers use.
- StitchSegments: given an empty list of segments it returns an empty track, with the under-length warning when the desired length is positive, and `Concat` and `Stitch` return the empty sequence. The source's `np.concatenate` (test.py:121) raises an error on an empty list instead. The procedure never passes an empty list, because the segment count is at least 1.
- The clamp warning `SegmentTooLong` carries no value, as the message printed at test.py:25 is fixed text.
