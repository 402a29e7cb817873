// The browser's streaming microphone resampler and the voice stream that commits its phase only after
// the transport admitted a frame. Samples are reals.
module Resampler {
  import opened Results

  const TARGET_SPEECH_SAMPLE_RATE: nat := 16_000
  const MIN_SOURCE_RATE: nat := 8_000
  const MAX_SOURCE_RATE: nat := 384_000
  const MAX_SAFE_INTEGER: int := 9_007_199_254_740_991

  datatype ResampleError =
    | InvalidSize | RateChanged | InvalidState | DurationExceeded
    | IdentityContinuityLost | EmptyFrame | BoundaryLost | UnavailablePcm | BoundaryCrossed

  datatype State = State(rate: Option<nat>, seen: nat, emitted: nat, previous: Option<real>)

  datatype Preview = Preview(samples: seq<real>, state: State)

  const Initial := State(None, 0, 0, None)

  predicate IsSafeInteger(n: int) {
    -MAX_SAFE_INTEGER <= n <= MAX_SAFE_INTEGER
  }

  // ---- The incremental computation ----

  function SampleAt(st: State, samples: seq<real>, index: int): Result<real, ResampleError> {
    if index == st.seen - 1 then
      match st.previous
      case None => Err(BoundaryLost)
      case Some(x) => Ok(x)
    else if index < st.seen || index - st.seen >= |samples| then Err(UnavailablePcm)
    else Ok(samples[index - st.seen])
  }

  function Mix(left: real, right: real, remainder: nat, targetRate: nat): real
    requires targetRate > 0
  {
    left + (right - left) * (remainder as real / targetRate as real)
  }

  // One output sample of the loop, with the loop's own error checks.
  function OutputAt(st: State, samples: seq<real>, sourceRate: nat, targetRate: nat, target: nat): Result<real, ResampleError>
    requires targetRate > 0
  {
    var numerator := target * sourceRate;
    if !IsSafeInteger(numerator) then Err(InvalidSize)
    else
      var left := numerator / targetRate;
      var remainder := numerator - left * targetRate;
      var right := if remainder == 0 then left else left + 1;
      if right > st.seen + |samples| - 1 || left < st.seen - 1 then Err(BoundaryCrossed)
      else match SampleAt(st, samples, left)
           case Err(e) => Err(e)
           case Ok(a) =>
             match SampleAt(st, samples, right)
             case Err(e) => Err(e)
             case Ok(b) => RemainderIsNatural(numerator, targetRate); Ok(Mix(a, b, remainder, targetRate))
  }

  lemma RemainderIsNatural(numerator: nat, targetRate: nat)
    requires targetRate > 0
    ensures numerator - numerator / targetRate * targetRate == numerator % targetRate
  {
  }

  function Outputs(st: State, samples: seq<real>, sourceRate: nat, targetRate: nat, from: nat, count: nat)
    : Result<seq<real>, ResampleError>
    requires targetRate > 0
    decreases count
  {
    if count == 0 then Ok([])
    else match Outputs(st, samples, sourceRate, targetRate, from, count - 1)
         case Err(e) => Err(e)
         case Ok(before) =>
           match OutputAt(st, samples, sourceRate, targetRate, from + count - 1)
           case Err(e) => Err(e)
           case Ok(x) => Ok(before + [x])
  }

  function OutputLength(st: State, n: nat, sourceRate: nat, targetRate: nat): int
    requires sourceRate > 0
  {
    (st.seen + n - 1) * targetRate / sourceRate - st.emitted + 1
  }

  predicate SizesAreSafe(st: State, n: nat, targetRate: nat) {
    IsSafeInteger(st.seen + n - 1) && IsSafeInteger((st.seen + n - 1) * targetRate)
  }

  function PreviewStreamingResample(st: State, samples: seq<real>, sourceRate: nat, targetRate: nat): Result<Preview, ResampleError> {
    if sourceRate < MIN_SOURCE_RATE || sourceRate > MAX_SOURCE_RATE || targetRate == 0 || !IsSafeInteger(targetRate) then Err(InvalidSize)
    else if st.rate.Some? && st.rate.value != sourceRate then Err(RateChanged)
    else if !IsSafeInteger(st.seen) || !IsSafeInteger(st.emitted) then Err(InvalidState)
    else if !SizesAreSafe(st, |samples|, targetRate) then Err(InvalidSize)
    else
      var outputLength := OutputLength(st, |samples|, sourceRate, targetRate);
      if !IsSafeInteger(outputLength) || outputLength < 1 || outputLength * 10 > targetRate then Err(DurationExceeded)
      else if sourceRate == targetRate && outputLength != |samples| then Err(IdentityContinuityLost)
      else if samples == [] then Err(EmptyFrame)
      else
        var next := State(Some(sourceRate), st.seen + |samples|, st.emitted + outputLength, Some(samples[|samples| - 1]));
        if sourceRate == targetRate then Ok(Preview(samples, next))
        else match Outputs(st, samples, sourceRate, targetRate, st.emitted, outputLength)
             case Err(e) => Err(e)
             case Ok(output) => Ok(Preview(output, next))
  }

  // ---- The one-shot reference ----

  // How many target samples the first n source samples determine.
  function Count(n: nat, sourceRate: nat, targetRate: nat): nat
    requires sourceRate > 0
  {
    if n == 0 then 0 else (n - 1) * targetRate / sourceRate + 1
  }

  // Linear interpolation of the whole stream at position target * sourceRate / targetRate.
  function Interpolate(stream: seq<real>, sourceRate: nat, targetRate: nat, target: nat): real
    requires sourceRate > 0 && targetRate > 0 && target < Count(|stream|, sourceRate, targetRate)
  {
    InterpolationStaysInside(|stream|, sourceRate, targetRate, target);
    var left, remainder := target * sourceRate / targetRate, target * sourceRate % targetRate;
    Mix(stream[left], if remainder == 0 then stream[left] else stream[left + 1], remainder, targetRate)
  }

  function OneShot(stream: seq<real>, sourceRate: nat, targetRate: nat): seq<real>
    requires sourceRate > 0 && targetRate > 0
  {
    seq(Count(|stream|, sourceRate, targetRate),
        k requires 0 <= k < Count(|stream|, sourceRate, targetRate) => Interpolate(stream, sourceRate, targetRate, k))
  }

  // ---- Floor arithmetic ----

  lemma FloorBelow(a: nat, b: nat, k: nat)
    requires b > 0 && k <= a / b
    ensures k * b <= a
  {
    assert a / b * b <= a;
    MulMonotone(k, a / b, b);
  }

  lemma MulMonotone(x: nat, y: nat, b: nat)
    requires x <= y
    ensures x * b <= y * b
  {
  }

  lemma FloorAbove(a: nat, b: nat, k: nat)
    requires b > 0 && k > a / b
    ensures k * b > a
  {
    assert a < (a / b + 1) * b;
    MulMonotone(a / b + 1, k, b);
  }

  lemma FloorAtLeast(a: nat, b: nat, k: nat)
    requires b > 0 && k * b <= a
    ensures k <= a / b
  {
    if k > a / b { FloorAbove(a, b, k); }
  }

  lemma FloorAtMost(a: nat, b: nat, k: nat)
    requires b > 0 && a <= k * b
    ensures a / b <= k
  {
    if a / b >= k + 1 { MulMonotone(k + 1, a / b, b); }
  }

  lemma FloorStrictlyBelow(a: nat, b: nat, k: nat)
    requires b > 0 && a <= k * b && a % b != 0
    ensures a / b < k
  {
    assert a == a / b * b + a % b;
    if k <= a / b { MulMonotone(k, a / b, b); }
  }

  // Every interpolation position lies within the source samples that determine it.
  lemma InterpolationStaysInside(n: nat, sourceRate: nat, targetRate: nat, target: nat)
    requires sourceRate > 0 && targetRate > 0 && target < Count(n, sourceRate, targetRate)
    ensures var left := target * sourceRate / targetRate;
      && left <= n - 1
      && (target * sourceRate % targetRate != 0 ==> left + 1 <= n - 1)
      && target * sourceRate <= (n - 1) * targetRate
  {
    FloorBelow((n - 1) * targetRate, sourceRate, target);
    var numerator := target * sourceRate;
    FloorAtMost(numerator, targetRate, n - 1);
    if numerator % targetRate != 0 { FloorStrictlyBelow(numerator, targetRate, n - 1); }
  }

  // A target sample not determined by the first n source samples needs nothing before the last of them.
  lemma InterpolationLooksBackOne(n: nat, sourceRate: nat, targetRate: nat, target: nat)
    requires n > 0 && sourceRate > 0 && targetRate > 0 && target >= Count(n, sourceRate, targetRate)
    ensures target * sourceRate / targetRate >= n - 1
    ensures target * sourceRate > (n - 1) * targetRate
  {
    FloorAbove((n - 1) * targetRate, sourceRate, target);
    FloorAtLeast(target * sourceRate, targetRate, n - 1);
  }

  lemma CountGrows(n: nat, m: nat, sourceRate: nat, targetRate: nat)
    requires n <= m && sourceRate > 0
    ensures Count(n, sourceRate, targetRate) <= Count(m, sourceRate, targetRate)
  {
    if n > 0 {
      MulMonotone(n - 1, m - 1, targetRate);
      var a, b := (n - 1) * targetRate, (m - 1) * targetRate;
      var floor := a / sourceRate;
      FloorBelow(a, sourceRate, floor);
      FloorAtLeast(b, sourceRate, floor);
    }
  }

  // ---- The streaming invariant ----

  // `st` is what the resampler holds after the frames concatenated to `stream` were admitted.
  ghost predicate Tracks(st: State, stream: seq<real>, sourceRate: nat, targetRate: nat)
    requires sourceRate > 0
  {
    && st.seen == |stream|
    && st.emitted == Count(|stream|, sourceRate, targetRate)
    && st.rate == (if stream == [] then None else Some(sourceRate))
    && st.previous == (if stream == [] then None else Some(stream[|stream| - 1]))
  }

  // The phase bound: the next target sample lies just past the last source sample seen.
  lemma PhaseBound(st: State, stream: seq<real>, sourceRate: nat, targetRate: nat)
    requires sourceRate > 0 && targetRate > 0 && stream != [] && Tracks(st, stream, sourceRate, targetRate)
    ensures (st.seen - 1) * targetRate < st.emitted * sourceRate <= (st.seen - 1) * targetRate + sourceRate
  {
    var a := (|stream| - 1) * targetRate;
    FloorAbove(a, sourceRate, st.emitted);
    FloorBelow(a, sourceRate, a / sourceRate);
    assert (a / sourceRate + 1) * sourceRate == a / sourceRate * sourceRate + sourceRate;
  }

  // Each sample the loop computes is the one-shot interpolation of the whole stream: the boundary and
  // availability errors of the loop are unreachable.
  lemma OutputIsInterpolation(st: State, stream: seq<real>, samples: seq<real>, sourceRate: nat, targetRate: nat, target: nat)
    requires sourceRate > 0 && targetRate > 0 && Tracks(st, stream, sourceRate, targetRate)
    requires st.emitted <= target < Count(|stream + samples|, sourceRate, targetRate)
    requires SizesAreSafe(st, |samples|, targetRate)
    ensures OutputAt(st, samples, sourceRate, targetRate, target)
      == Ok(Interpolate(stream + samples, sourceRate, targetRate, target))
  {
    var whole := stream + samples;
    var numerator := target * sourceRate;
    InterpolationStaysInside(|whole|, sourceRate, targetRate, target);
    if stream != [] { InterpolationLooksBackOne(|stream|, sourceRate, targetRate, target); }
    var left := numerator / targetRate;
    RemainderIsNatural(numerator, targetRate);
    assert left >= st.seen - 1;
    SampleIsInStream(st, stream, samples, sourceRate, targetRate, left);
    if numerator % targetRate != 0 { SampleIsInStream(st, stream, samples, sourceRate, targetRate, left + 1); }
  }

  lemma SampleIsInStream(st: State, stream: seq<real>, samples: seq<real>, sourceRate: nat, targetRate: nat, index: nat)
    requires sourceRate > 0 && Tracks(st, stream, sourceRate, targetRate)
    requires st.seen - 1 <= index < |stream + samples|
    ensures SampleAt(st, samples, index) == Ok((stream + samples)[index])
  {
  }

  lemma {:induction false} OutputsAreInterpolations(
    st: State, stream: seq<real>, samples: seq<real>, sourceRate: nat, targetRate: nat, count: nat)
    requires sourceRate > 0 && targetRate > 0 && Tracks(st, stream, sourceRate, targetRate)
    requires st.emitted + count <= Count(|stream + samples|, sourceRate, targetRate)
    requires SizesAreSafe(st, |samples|, targetRate)
    ensures var r := Outputs(st, samples, sourceRate, targetRate, st.emitted, count);
      && r.Ok? && |r.value| == count
      && forall i :: 0 <= i < count ==>
           r.value[i] == Interpolate(stream + samples, sourceRate, targetRate, st.emitted + i)
  {
    if count > 0 {
      OutputsAreInterpolations(st, stream, samples, sourceRate, targetRate, count - 1);
      OutputIsInterpolation(st, stream, samples, sourceRate, targetRate, st.emitted + count - 1);
    }
  }

  // The earlier samples' interpolations do not depend on what is said later.
  lemma InterpolationIsStable(stream: seq<real>, more: seq<real>, sourceRate: nat, targetRate: nat, target: nat)
    requires sourceRate > 0 && targetRate > 0 && target < Count(|stream|, sourceRate, targetRate)
    ensures target < Count(|stream + more|, sourceRate, targetRate)
    ensures Interpolate(stream + more, sourceRate, targetRate, target) == Interpolate(stream, sourceRate, targetRate, target)
  {
    CountGrows(|stream|, |stream + more|, sourceRate, targetRate);
    InterpolationStaysInside(|stream|, sourceRate, targetRate, target);
  }

  // The condition under which a frame is admitted, in terms of the caller's own numbers.
  predicate Admissible(seen: nat, n: nat, sourceRate: nat, targetRate: nat)
    requires sourceRate > 0
  {
    var produced := Count(seen + n, sourceRate, targetRate) - Count(seen, sourceRate, targetRate);
    && MIN_SOURCE_RATE <= sourceRate <= MAX_SOURCE_RATE && targetRate > 0 && IsSafeInteger(targetRate)
    && n > 0 && IsSafeInteger(seen) && IsSafeInteger(Count(seen, sourceRate, targetRate))
    && IsSafeInteger(seen + n - 1) && IsSafeInteger((seen + n - 1) * targetRate)
    && 1 <= produced && produced * 10 <= targetRate
  }

  lemma LengthIsGrowth(st: State, stream: seq<real>, n: nat, sourceRate: nat, targetRate: nat)
    requires sourceRate > 0 && Tracks(st, stream, sourceRate, targetRate) && n > 0
    ensures OutputLength(st, n, sourceRate, targetRate)
      == Count(|stream| + n, sourceRate, targetRate) - Count(|stream|, sourceRate, targetRate)
    ensures sourceRate == targetRate ==> OutputLength(st, n, sourceRate, targetRate) == n
  {
    if sourceRate == targetRate { IdentityCounts(|stream|, sourceRate); IdentityCounts(|stream| + n, sourceRate); }
  }

  // A frame is admitted exactly when it is admissible; refused frames are refused for their size only.
  lemma AdmittedExactly(st: State, stream: seq<real>, samples: seq<real>, sourceRate: nat, targetRate: nat)
    requires sourceRate > 0 && Tracks(st, stream, sourceRate, targetRate) && samples != []
    ensures var r := PreviewStreamingResample(st, samples, sourceRate, targetRate);
      && (r.Ok? <==> Admissible(|stream|, |samples|, sourceRate, targetRate))
      && (r.Err? ==> r.error == InvalidSize || r.error == InvalidState || r.error == DurationExceeded)
  {
    LengthIsGrowth(st, stream, |samples|, sourceRate, targetRate);
    CountGrows(|stream|, |stream| + |samples|, sourceRate, targetRate);
    if targetRate > 0 && SizesAreSafe(st, |samples|, targetRate) {
      OutputsAreInterpolations(st, stream, samples, sourceRate, targetRate,
                               Count(|stream| + |samples|, sourceRate, targetRate) - st.emitted);
    }
  }

  // An admitted frame continues the one-shot output of the whole stream.
  lemma FrameContinuesOneShot(st: State, stream: seq<real>, samples: seq<real>, sourceRate: nat, targetRate: nat)
    requires sourceRate > 0 && Tracks(st, stream, sourceRate, targetRate)
    requires PreviewStreamingResample(st, samples, sourceRate, targetRate).Ok?
    ensures var p := PreviewStreamingResample(st, samples, sourceRate, targetRate).value;
      && Tracks(p.state, stream + samples, sourceRate, targetRate)
      && OneShot(stream + samples, sourceRate, targetRate) == OneShot(stream, sourceRate, targetRate) + p.samples
  {
    var whole := stream + samples;
    var p := PreviewStreamingResample(st, samples, sourceRate, targetRate).value;
    LengthIsGrowth(st, stream, |samples|, sourceRate, targetRate);
    var count := Count(|whole|, sourceRate, targetRate) - st.emitted;
    OutputsAreInterpolations(st, stream, samples, sourceRate, targetRate, count);
    var before := OneShot(stream, sourceRate, targetRate);
    forall k | 0 <= k < st.emitted + count
      ensures OneShot(whole, sourceRate, targetRate)[k] == (before + p.samples)[k]
    {
      if k < st.emitted {
        InterpolationIsStable(stream, samples, sourceRate, targetRate, k);
      } else if sourceRate == targetRate {
        IdentityCounts(|stream|, sourceRate);
        IdentityInterpolation(whole, sourceRate, k);
      }
    }
  }

  lemma IdentityCounts(n: nat, rate: nat)
    requires rate > 0
    ensures Count(n, rate, rate) == n
  {
    if n > 0 { FloorAtLeast((n - 1) * rate, rate, n - 1); FloorAtMost((n - 1) * rate, rate, n - 1); }
  }

  lemma IdentityInterpolation(stream: seq<real>, rate: nat, k: nat)
    requires rate > 0 && k < Count(|stream|, rate, rate)
    ensures k < |stream| && Interpolate(stream, rate, rate, k) == stream[k]
  {
    IdentityCounts(|stream|, rate);
    FloorAtLeast(k * rate, rate, k);
    FloorAtMost(k * rate, rate, k);
    assert k * rate % rate == k * rate - k * rate / rate * rate;
  }

  // ---- Whole streams ----

  datatype Sending = Sending(state: State, admitted: seq<real>, output: seq<real>)

  // Sends the frames in order; a frame the preview refuses leaves everything as it was.
  function SendAll(s: Sending, frames: seq<seq<real>>, sourceRate: nat, targetRate: nat): Sending
    decreases frames
  {
    if frames == [] then s
    else match PreviewStreamingResample(s.state, frames[0], sourceRate, targetRate)
         case Err(_) => SendAll(s, frames[1..], sourceRate, targetRate)
         case Ok(p) =>
           SendAll(Sending(p.state, s.admitted + frames[0], s.output + p.samples), frames[1..], sourceRate, targetRate)
  }

  lemma {:induction false} StreamIsOneShot(s: Sending, frames: seq<seq<real>>, sourceRate: nat, targetRate: nat)
    requires sourceRate > 0 && targetRate > 0
    requires Tracks(s.state, s.admitted, sourceRate, targetRate) && s.output == OneShot(s.admitted, sourceRate, targetRate)
    ensures var r := SendAll(s, frames, sourceRate, targetRate);
      && Tracks(r.state, r.admitted, sourceRate, targetRate)
      && r.output == OneShot(r.admitted, sourceRate, targetRate)
    decreases frames
  {
    if frames != [] {
      match PreviewStreamingResample(s.state, frames[0], sourceRate, targetRate)
      case Err(_) => StreamIsOneShot(s, frames[1..], sourceRate, targetRate);
      case Ok(p) =>
        FrameContinuesOneShot(s.state, s.admitted, frames[0], sourceRate, targetRate);
        StreamIsOneShot(Sending(p.state, s.admitted + frames[0], s.output + p.samples), frames[1..], sourceRate, targetRate);
    }
  }

  // Two ways of cutting a stream into frames whose admitted parts agree give the same speech samples
  // and leave the resampler in the same state.
  lemma CuttingDoesNotMatter(a: seq<seq<real>>, b: seq<seq<real>>, sourceRate: nat, targetRate: nat)
    requires sourceRate > 0 && targetRate > 0
    requires SendAll(Sending(Initial, [], []), a, sourceRate, targetRate).admitted
      == SendAll(Sending(Initial, [], []), b, sourceRate, targetRate).admitted
    ensures SendAll(Sending(Initial, [], []), a, sourceRate, targetRate)
      == SendAll(Sending(Initial, [], []), b, sourceRate, targetRate)
  {
    StreamIsOneShot(Sending(Initial, [], []), a, sourceRate, targetRate);
    StreamIsOneShot(Sending(Initial, [], []), b, sourceRate, targetRate);
  }

  // ---- What the numbers are ----

  // Target sample k belongs to the first n source samples exactly when its position k * S / T does not lie
  // beyond the last of them.
  lemma CountExactly(n: nat, sourceRate: nat, targetRate: nat, k: nat)
    requires sourceRate > 0
    ensures k < Count(n, sourceRate, targetRate) <==> n > 0 && k * sourceRate <= (n - 1) * targetRate
  {
    if n > 0 {
      var a := (n - 1) * targetRate;
      if k <= a / sourceRate { FloorBelow(a, sourceRate, k); } else { FloorAbove(a, sourceRate, k); }
    }
  }

  lemma MixWeighs(left: real, right: real, remainder: nat, targetRate: nat)
    requires targetRate > 0
    ensures targetRate as real * Mix(left, right, remainder, targetRate)
         == (targetRate as real - remainder as real) * left + remainder as real * right
  {
    var t, r, d := targetRate as real, remainder as real, right - left;
    assert t * (d * (r / t)) == d * (t * (r / t)) == d * r;
    assert t * (left + d * (r / t)) == t * left + t * (d * (r / t));
    assert (t - r) * left + r * right == t * left + d * r;
  }

  // x stands between the neighbours l and l + 1 of position k with the weights of its distance to either,
  // where l and r are the quotient and the remainder of k * S by T.
  predicate IsBetween(x: real, stream: seq<real>, sourceRate: nat, targetRate: nat, k: nat)
    requires targetRate > 0
  {
    var l, r := k * sourceRate / targetRate, k * sourceRate % targetRate;
    var right := if r == 0 then l else l + 1;
    && right < |stream|
    && targetRate as real * x == (targetRate as real - r as real) * stream[l] + r as real * stream[right]
  }

  lemma InterpolationWeighs(stream: seq<real>, sourceRate: nat, targetRate: nat, k: nat)
    requires sourceRate > 0 && targetRate > 0 && k < Count(|stream|, sourceRate, targetRate)
    ensures IsBetween(Interpolate(stream, sourceRate, targetRate, k), stream, sourceRate, targetRate, k)
  {
    InterpolationStaysInside(|stream|, sourceRate, targetRate, k);
    var l, r := k * sourceRate / targetRate, k * sourceRate % targetRate;
    MixWeighs(stream[l], stream[if r == 0 then l else l + 1], r, targetRate);
  }

  predicate IsLine(stream: seq<real>, slope: real, offset: real) {
    forall i :: 0 <= i < |stream| ==> stream[i] == slope * i as real + offset
  }

  // Where the samples lie on a line, so does the output, at its own position.
  lemma LineIsKept(stream: seq<real>, slope: real, offset: real, sourceRate: nat, targetRate: nat, k: nat)
    requires sourceRate > 0 && targetRate > 0 && k < Count(|stream|, sourceRate, targetRate)
    requires IsLine(stream, slope, offset)
    ensures Interpolate(stream, sourceRate, targetRate, k)
         == slope * ((k * sourceRate) as real / targetRate as real) + offset
  {
    InterpolationWeighs(stream, sourceRate, targetRate, k);
    var n := k * sourceRate;
    var l, r := n / targetRate, n % targetRate;
    assert n == l * targetRate + r;
    LineWeighs(slope, offset, targetRate, l, r, n, Interpolate(stream, sourceRate, targetRate, k));
  }

  lemma LineWeighs(slope: real, offset: real, targetRate: nat, l: nat, r: nat, n: nat, x: real)
    requires targetRate > 0 && n == l * targetRate + r
    requires var right := if r == 0 then l else l + 1;
      targetRate as real * x == (targetRate as real - r as real) * (slope * l as real + offset)
                                + r as real * (slope * right as real + offset)
    ensures x == slope * (n as real / targetRate as real) + offset
  {
    var t, ll, rr := targetRate as real, l as real, r as real;
    LineSum(slope, offset, t, ll, rr);
    assert n as real == ll * t + rr;
    var line := slope * (n as real / t) + offset;
    assert t * (n as real / t) == n as real;
    assert t * line == slope * (t * (n as real / t)) + t * offset;
    assert t * x == t * line;
    SameMultiple(t, x, line);
  }

  lemma LineSum(slope: real, offset: real, t: real, l: real, r: real)
    ensures (t - r) * (slope * l + offset) + r * (slope * (l + 1.0) + offset) == slope * (l * t + r) + t * offset
    ensures r == 0.0 ==> (t - r) * (slope * l + offset) + r * (slope * l + offset) == slope * (l * t + r) + t * offset
  {
    assert r * (slope * (l + 1.0) + offset) == r * (slope * l + offset) + r * slope;
    assert (t - r) * (slope * l + offset) + r * (slope * l + offset) == t * (slope * l + offset);
    assert t * (slope * l + offset) == slope * (l * t) + t * offset;
  }

  lemma SameMultiple(t: real, x: real, y: real)
    requires t > 0.0 && t * x == t * y
    ensures x == y
  {
    assert t * (x - y) == 0.0;
  }

  // So everything ever sent is the linear interpolation of everything admitted, in numbers: sample k lies
  // at k * S / T between its two neighbours, and there is one for every position up to the last sample.
  lemma SentInNumbers(frames: seq<seq<real>>, sourceRate: nat, targetRate: nat, k: nat)
    requires sourceRate > 0 && targetRate > 0
    ensures var r := SendAll(Sending(Initial, [], []), frames, sourceRate, targetRate);
      && (k < |r.output| <==> r.admitted != [] && k * sourceRate <= (|r.admitted| - 1) * targetRate)
      && (k < |r.output| ==> IsBetween(r.output[k], r.admitted, sourceRate, targetRate, k))
  {
    StreamIsOneShot(Sending(Initial, [], []), frames, sourceRate, targetRate);
    var r := SendAll(Sending(Initial, [], []), frames, sourceRate, targetRate);
    CountExactly(|r.admitted|, sourceRate, targetRate, k);
    if k < |r.output| { InterpolationWeighs(r.admitted, sourceRate, targetRate, k); }
  }

  lemma SentKeepsLine(frames: seq<seq<real>>, slope: real, offset: real, sourceRate: nat, targetRate: nat, k: nat)
    requires sourceRate > 0 && targetRate > 0
    requires IsLine(SendAll(Sending(Initial, [], []), frames, sourceRate, targetRate).admitted, slope, offset)
    requires k < |SendAll(Sending(Initial, [], []), frames, sourceRate, targetRate).output|
    ensures SendAll(Sending(Initial, [], []), frames, sourceRate, targetRate).output[k]
         == slope * ((k * sourceRate) as real / targetRate as real) + offset
  {
    StreamIsOneShot(Sending(Initial, [], []), frames, sourceRate, targetRate);
    var r := SendAll(Sending(Initial, [], []), frames, sourceRate, targetRate);
    LineIsKept(r.admitted, slope, offset, sourceRate, targetRate, k);
  }

  // ---- The loop and the stream object ----

  method FillOutput(st: State, samples: seq<real>, sourceRate: nat, targetRate: nat, count: nat)
    returns (r: Result<seq<real>, ResampleError>)
    requires targetRate > 0
    ensures r == Outputs(st, samples, sourceRate, targetRate, st.emitted, count)
  {
    var output := new real[count];
    for offset := 0 to count
      invariant Outputs(st, samples, sourceRate, targetRate, st.emitted, offset) == Ok(output[..offset])
    {
      var sample := OutputAt(st, samples, sourceRate, targetRate, st.emitted + offset);
      if sample.Err? {
        OutputsStopAtError(st, samples, sourceRate, targetRate, offset, count);
        return Err(sample.error);
      }
      output[offset] := sample.value;
      assert output[..offset + 1] == output[..offset] + [sample.value];
    }
    assert output[..] == output[..count];
    r := Ok(output[..]);
  }

  lemma {:induction false} OutputsStopAtError(
    st: State, samples: seq<real>, sourceRate: nat, targetRate: nat, offset: nat, count: nat)
    requires targetRate > 0 && offset < count
    requires Outputs(st, samples, sourceRate, targetRate, st.emitted, offset).Ok?
    requires OutputAt(st, samples, sourceRate, targetRate, st.emitted + offset).Err?
    ensures Outputs(st, samples, sourceRate, targetRate, st.emitted, count)
      == Err(OutputAt(st, samples, sourceRate, targetRate, st.emitted + offset).error)
  {
    if count - 1 > offset { OutputsStopAtError(st, samples, sourceRate, targetRate, offset, count - 1); }
  }

  lemma {:induction false} OutputsHaveCount(
    st: State, samples: seq<real>, sourceRate: nat, targetRate: nat, from: nat, count: nat)
    requires targetRate > 0 && Outputs(st, samples, sourceRate, targetRate, from, count).Ok?
    ensures |Outputs(st, samples, sourceRate, targetRate, from, count).value| == count
  {
    if count > 0 { OutputsHaveCount(st, samples, sourceRate, targetRate, from, count - 1); }
  }

  // An accepted preview is never empty and never longer than a tenth of a second.
  lemma PreviewLength(st: State, samples: seq<real>, sourceRate: nat, targetRate: nat)
    requires PreviewStreamingResample(st, samples, sourceRate, targetRate).Ok?
    ensures var produced := |PreviewStreamingResample(st, samples, sourceRate, targetRate).value.samples|;
      1 <= produced && produced * 10 <= targetRate
  {
    var count := OutputLength(st, |samples|, sourceRate, targetRate);
    if sourceRate != targetRate { OutputsHaveCount(st, samples, sourceRate, targetRate, st.emitted, count); }
  }

  datatype SendError = Closed | Overlapping | NotMono | Refused(error: ResampleError) | TransportFailed

  // BrowserVoiceStream: frame admission, with the transport request as the await in the middle.
  class BrowserVoiceStream {
    var sequence: nat
    var timestampMs: real
    var closed: bool
    var operationInFlight: bool
    var resampler: State
    ghost var sourceRate: nat
    ghost var admitted: seq<real>
    ghost var sent: seq<real>

    // Everything sent is the one-shot resampling of everything admitted, stamped with its own duration.
    ghost predicate Valid()
      reads this
    {
      && sourceRate > 0
      && Tracks(resampler, admitted, sourceRate, TARGET_SPEECH_SAMPLE_RATE)
      && sent == OneShot(admitted, sourceRate, TARGET_SPEECH_SAMPLE_RATE)
      && timestampMs == resampler.emitted as real / 16_000.0 * 1_000.0
    }

    constructor (ghost rate: nat)
      requires rate > 0
      ensures Valid() && sourceRate == rate && admitted == [] && !closed && !operationInFlight && sequence == 0
    {
      sequence, timestampMs, closed, operationInFlight, resampler := 0, 0.0, false, false, Initial;
      sourceRate, admitted, sent := rate, [], [];
    }

    // sendFrame up to the transport request.
    method BeginFrame(channelCount: nat, samples: seq<real>, rate: nat) returns (r: Result<Preview, SendError>)
      modifies this`operationInFlight
      ensures r.Ok? <==>
        && !closed && !old(operationInFlight) && channelCount == 1 && samples != []
        && PreviewStreamingResample(resampler, samples, rate, TARGET_SPEECH_SAMPLE_RATE).Ok?
      ensures r.Ok? ==>
        && PreviewStreamingResample(resampler, samples, rate, TARGET_SPEECH_SAMPLE_RATE) == Ok(r.value)
        && 1 <= |r.value.samples| <= TARGET_SPEECH_SAMPLE_RATE / 10
      ensures operationInFlight == (old(operationInFlight) || r.Ok?)
    {
      if closed { return Err(Closed); }
      if operationInFlight { return Err(Overlapping); }
      if channelCount != 1 || samples == [] { return Err(NotMono); }
      var preview := PreviewStreamingResample(resampler, samples, rate, TARGET_SPEECH_SAMPLE_RATE);
      match preview {
        case Err(e) => return Err(Refused(e));
        case Ok(p) =>
          PreviewLength(resampler, samples, rate, TARGET_SPEECH_SAMPLE_RATE);
          if |p.samples| < 1 || |p.samples| > TARGET_SPEECH_SAMPLE_RATE / 10 { return Err(Refused(DurationExceeded)); }
          operationInFlight := true;
          return Ok(p);
      }
    }

    // sendFrame after the transport answered (`terminal`) or failed: only an answer commits the phase.
    method CompleteFrame(samples: seq<real>, preview: Preview, reply: Option<bool>) returns (r: Result<bool, SendError>)
      requires Valid() && operationInFlight && samples != []
      requires PreviewStreamingResample(resampler, samples, sourceRate, TARGET_SPEECH_SAMPLE_RATE) == Ok(preview)
      modifies this
      ensures Valid() && !operationInFlight && sourceRate == old(sourceRate)
      ensures reply.None? ==>
        && r == Err(TransportFailed) && admitted == old(admitted) && sent == old(sent)
        && sequence == old(sequence) && timestampMs == old(timestampMs)
        && resampler == old(resampler) && closed == old(closed)
      ensures reply.Some? ==>
        && r == Ok(reply.value) && admitted == old(admitted) + samples && sent == old(sent) + preview.samples
        && sequence == old(sequence) + 1 && closed == (old(closed) || reply.value)
    {
      operationInFlight := false;
      if reply.None? { return Err(TransportFailed); }
      FrameContinuesOneShot(resampler, admitted, samples, sourceRate, TARGET_SPEECH_SAMPLE_RATE);
      resampler := preview.state;
      sequence := sequence + 1;
      timestampMs := timestampMs + |preview.samples| as real / 16_000.0 * 1_000.0;
      if reply.value { closed := true; }
      admitted := admitted + samples;
      sent := sent + preview.samples;
      r := Ok(reply.value);
    }

    method Cancel()
      modifies this`closed
      ensures closed
    {
      closed := true;
    }
  }
}
