// score_vad of the local speech worker for one stream: 48 kHz decimation and 512-sample windows with 64
// samples of context. The Silero model is an uninterpreted function from model input and recurrent
// state to probability and recurrent state.
module VadStream {
  import opened Sequences

  type Model = (seq<real>, seq<real>) -> (real, seq<real>)

  const WINDOW: nat := 512
  const CONTEXT: nat := 64
  const RECURRENT: nat := 2 * 128
  const MAX_VAD_STREAMS: nat := 64
  const MAX_TOMBSTONES: nat := 4_096

  // One inference: the context and the window that were fed to the model.
  datatype Fed = Fed(context: seq<real>, window: seq<real>)

  // What inference leaves behind; `fed` is the history of inferences.
  datatype Core = Core(recurrent: seq<real>, context: seq<real>, probability: real, fed: seq<Fed>)

  datatype Silero = Silero(core: Core, pending: seq<real>, pending48k: seq<real>)

  function Zeros(n: nat): seq<real> {
    seq(n, i => 0.0)
  }

  const FreshCore := Core(Zeros(RECURRENT), Zeros(CONTEXT), 0.0, [])
  const FreshSilero := Silero(FreshCore, [], [])

  function Clamp(p: real): real {
    if p < 0.0 then 0.0 else if p > 1.0 then 1.0 else p
  }

  // source[:usable:3]
  function Decimate(source: seq<real>): seq<real> {
    if |source| < 3 then [] else [source[0]] + Decimate(source[3..])
  }

  function Undecimated(source: seq<real>): seq<real> {
    if |source| < 3 then source else Undecimated(source[3..])
  }

  function Infer(model: Model, core: Core, window: seq<real>): Core
    requires |window| == WINDOW && |core.context| == CONTEXT
  {
    var input := core.context + window;
    var (probability, recurrent) := model(input, core.recurrent);
    Core(recurrent, input[|input| - CONTEXT..], Clamp(probability), core.fed + [Fed(core.context, window)])
  }

  // The inference loop: the core it ends with and the samples it leaves pending.
  function RunWindows(model: Model, core: Core, pending: seq<real>): (Core, seq<real>)
    requires |core.context| == CONTEXT
    decreases |pending|
  {
    if |pending| < WINDOW then (core, pending)
    else RunWindows(model, Infer(model, core, pending[..WINDOW]), pending[WINDOW..])
  }

  // One request's samples at 16 kHz or 48 kHz.
  function Score(model: Model, s: Silero, samples: seq<real>, at48k: bool): Silero
    requires |s.core.context| == CONTEXT
  {
    var source := s.pending48k + samples;
    var arrived := if at48k then Decimate(source) else samples;
    var (core, pending) := RunWindows(model, s.core, s.pending + arrived);
    Silero(core, pending, if at48k then Undecimated(source) else s.pending48k)
  }

  function ScoreAll(model: Model, s: Silero, requests: seq<seq<real>>, at48k: bool): Silero
    requires |s.core.context| == CONTEXT
    decreases requests
  {
    if requests == [] then s
    else
      RunKeepsContext(model, s.core,
                      s.pending + if at48k then Decimate(s.pending48k + requests[0]) else requests[0]);
      ScoreAll(model, Score(model, s, requests[0], at48k), requests[1..], at48k)
  }

  // ---- Any chunking equals the whole ----

  lemma {:induction false} RunKeepsContext(model: Model, core: Core, pending: seq<real>)
    requires |core.context| == CONTEXT
    ensures |RunWindows(model, core, pending).0.context| == CONTEXT
    ensures |RunWindows(model, core, pending).1| < WINDOW
    decreases |pending|
  {
    if |pending| >= WINDOW { RunKeepsContext(model, Infer(model, core, pending[..WINDOW]), pending[WINDOW..]); }
  }

  lemma {:induction false} DecimateInTwoParts(a: seq<real>, b: seq<real>)
    ensures Decimate(a + b) == Decimate(a) + Decimate(Undecimated(a) + b)
    ensures Undecimated(a + b) == Undecimated(Undecimated(a) + b)
    ensures |Undecimated(a)| < 3
    decreases |a|
  {
    if |a| >= 3 {
      DecimateInTwoParts(a[3..], b);
      assert (a + b)[3..] == a[3..] + b;
      assert [a[0]] + (Decimate(a[3..]) + Decimate(Undecimated(a[3..]) + b))
          == [a[0]] + Decimate(a[3..]) + Decimate(Undecimated(a[3..]) + b);
    } else {
      assert [] + Decimate(a + b) == Decimate(a + b);
    }
  }

  lemma {:induction false} RunInTwoParts(model: Model, core: Core, a: seq<real>, b: seq<real>)
    requires |core.context| == CONTEXT
    ensures var (middle, rest) := RunWindows(model, core, a);
      |middle.context| == CONTEXT && RunWindows(model, core, a + b) == RunWindows(model, middle, rest + b)
    decreases |a|
  {
    if |a| >= WINDOW {
      RunInTwoParts(model, Infer(model, core, a[..WINDOW]), a[WINDOW..], b);
      assert (a + b)[..WINDOW] == a[..WINDOW] && (a + b)[WINDOW..] == a[WINDOW..] + b;
    }
  }

  lemma ScoreInTwoParts(model: Model, s: Silero, a: seq<real>, b: seq<real>, at48k: bool)
    requires |s.core.context| == CONTEXT
    ensures var middle := Score(model, s, a, at48k);
      |middle.core.context| == CONTEXT && Score(model, s, a + b, at48k) == Score(model, middle, b, at48k)
  {
    if at48k {
      var source := s.pending48k + a;
      assert s.pending48k + (a + b) == source + b;
      DecimateInTwoParts(source, b);
      var d1, d2 := Decimate(source), Decimate(Undecimated(source) + b);
      assert s.pending + (d1 + d2) == s.pending + d1 + d2;
      RunInTwoParts(model, s.core, s.pending + d1, d2);
    } else {
      assert s.pending + (a + b) == s.pending + a + b;
      RunInTwoParts(model, s.core, s.pending + a, b);
    }
  }

  // For every split of a stream's samples into requests: the same inferences, recurrent state,
  // probability and carried samples as for the whole stream at once.
  lemma {:induction false} ChunkingDoesNotMatter(model: Model, s: Silero, requests: seq<seq<real>>, at48k: bool)
    requires |s.core.context| == CONTEXT && requests != []
    ensures ScoreAll(model, s, requests, at48k) == Score(model, s, Concat(requests), at48k)
    decreases requests
  {
    var rest := requests[1..];
    ScoreInTwoParts(model, s, requests[0], Concat(rest), at48k);
    if rest == [] {
      assert requests[0] + [] == requests[0];
    } else {
      ChunkingDoesNotMatter(model, Score(model, s, requests[0], at48k), rest, at48k);
    }
  }

  // ---- What is inferred ----

  // Every third sample, beginning with the first.
  function EveryThird(samples: seq<real>): seq<real> {
    seq(|samples| / 3, i requires 0 <= i < |samples| / 3 => samples[3 * i])
  }

  lemma EveryThirdUnrolled(samples: seq<real>)
    requires |samples| >= 3
    ensures EveryThird(samples) == [samples[0]] + EveryThird(samples[3..])
  {
    var rest := samples[3..];
    assert |samples| / 3 == |rest| / 3 + 1;
    forall i | 0 < i < |samples| / 3 ensures EveryThird(samples)[i] == EveryThird(rest)[i - 1] {
      assert samples[3 * i] == rest[3 * (i - 1)];
    }
  }

  lemma {:induction false} DecimateIsEveryThird(samples: seq<real>)
    ensures Decimate(samples) == EveryThird(samples)
    decreases |samples|
  {
    if |samples| >= 3 {
      EveryThirdUnrolled(samples);
      DecimateIsEveryThird(samples[3..]);
    }
  }

  lemma {:induction false} UndecimatedIsRest(samples: seq<real>)
    ensures Undecimated(samples) == samples[3 * (|samples| / 3)..]
    decreases |samples|
  {
    if |samples| >= 3 {
      var rest := samples[3..];
      UndecimatedIsRest(rest);
      assert |samples| / 3 == |rest| / 3 + 1;
      assert rest[3 * (|rest| / 3)..] == samples[3 * (|samples| / 3)..];
    } else {
      assert samples[0..] == samples;
    }
  }

  // x is p, cut to the range from 0 to 1.
  predicate IsCut(x: real, p: real) {
    if p < 0.0 then x == 0.0 else if p > 1.0 then x == 1.0 else x == p
  }

  // Inference i is given the recurrent state states[i] and leaves states[i + 1]; the last one's probability
  // counts.
  ghost predicate CarriesState(model: Model, core: Core, states: seq<seq<real>>) {
    && |states| == |core.fed| + 1 && states[0] == Zeros(256)
    && (forall i :: 0 <= i < |core.fed| ==> states[i + 1] == model(core.fed[i].context + core.fed[i].window, states[i]).1)
    && core.recurrent == states[|core.fed|]
    && (core.fed == [] ==> core.probability == 0.0)
    && (core.fed != [] ==>
          var last := |core.fed| - 1;
          IsCut(core.probability, model(core.fed[last].context + core.fed[last].window, states[last]).0))
  }

  // The first k windows of 512 samples were inferred, each with the 64 samples before it as context (zeros
  // before the first) and in the state the one before it left.
  ghost predicate FedFrom(model: Model, core: Core, stream: seq<real>, k: nat) {
    && 512 * k <= |stream|
    && |core.fed| == k && |core.context| == 64
    && core.context == (if k == 0 then Zeros(64) else stream[512 * k - 64..512 * k])
    && (forall i :: 0 <= i < k ==>
          && core.fed[i].window == stream[512 * i..512 * (i + 1)]
          && core.fed[i].context == (if i == 0 then Zeros(64) else stream[512 * i - 64..512 * i]))
    && (exists states :: CarriesState(model, core, states))
  }

  // What a whole stream leaves: all its windows at 16 kHz were inferred, and fewer than one window and fewer
  // than three undecimated samples are left over.
  ghost predicate InfersWhole(model: Model, r: Silero, samples: seq<real>, at48k: bool) {
    var stream := if at48k then EveryThird(samples) else samples;
    && FedFrom(model, r.core, stream, |stream| / 512)
    && r.pending == stream[512 * (|stream| / 512)..]
    && r.pending48k == (if at48k then samples[3 * (|samples| / 3)..] else [])
  }

  lemma WholeStreamInferences(model: Model, samples: seq<real>, at48k: bool)
    ensures InfersWhole(model, Score(model, FreshSilero, samples, at48k), samples, at48k)
    ensures 0.0 <= Score(model, FreshSilero, samples, at48k).core.probability <= 1.0
  {
    var stream := if at48k then EveryThird(samples) else samples;
    InferencesOfWhole(model, stream);
    ScoreOfFresh(model, samples, at48k);
    StateBoundsProbability(model, RunWindows(model, FreshCore, stream).0);
  }

  lemma ScoreOfFresh(model: Model, samples: seq<real>, at48k: bool)
    ensures var (core, pending) := RunWindows(model, FreshCore, if at48k then EveryThird(samples) else samples);
      Score(model, FreshSilero, samples, at48k)
      == Silero(core, pending, if at48k then samples[3 * (|samples| / 3)..] else [])
  {
    var stream := if at48k then EveryThird(samples) else samples;
    assert FreshSilero.pending48k + samples == samples;
    assert FreshSilero.pending + stream == stream;
    DecimateIsEveryThird(samples);
    UndecimatedIsRest(samples);
  }

  lemma StateBoundsProbability(model: Model, core: Core)
    requires exists states :: CarriesState(model, core, states)
    ensures 0.0 <= core.probability <= 1.0
  {
  }

  lemma InferencesOfWhole(model: Model, stream: seq<real>)
    ensures var (r, pending) := RunWindows(model, FreshCore, stream);
      FedFrom(model, r, stream, |stream| / WINDOW) && pending == stream[WINDOW * (|stream| / WINDOW)..]
  {
    assert stream[0..] == stream;
    assert CarriesState(model, FreshCore, [Zeros(256)]);
    InferencesFrom(model, FreshCore, stream, 0);
  }

  lemma InferCarriesState(model: Model, core: Core, window: seq<real>)
    requires |window| == WINDOW && |core.context| == CONTEXT && exists states :: CarriesState(model, core, states)
    ensures exists states :: CarriesState(model, Infer(model, core, window), states)
  {
    var states :| CarriesState(model, core, states);
    var next := Infer(model, core, window);
    var more := states + [next.recurrent];
    forall i | 0 <= i < |next.fed|
      ensures more[i + 1] == model(next.fed[i].context + next.fed[i].window, more[i]).1
    {
      if i < |core.fed| { assert next.fed[i] == core.fed[i]; }
    }
    assert CarriesState(model, next, more);
  }

  lemma OneMoreInference(model: Model, core: Core, stream: seq<real>, k: nat)
    requires WINDOW * (k + 1) <= |stream| && FedFrom(model, core, stream, k)
    ensures FedFrom(model, Infer(model, core, stream[WINDOW * k..WINDOW * (k + 1)]), stream, k + 1)
  {
    var window := stream[WINDOW * k..WINDOW * (k + 1)];
    var input := core.context + window;
    assert input[|input| - CONTEXT..] == window[WINDOW - CONTEXT..];
    assert window[WINDOW - CONTEXT..] == stream[WINDOW * (k + 1) - CONTEXT..WINDOW * (k + 1)];
    InferCarriesState(model, core, window);
    var next := Infer(model, core, window);
    forall i | 0 <= i < k + 1
      ensures next.fed[i].window == stream[WINDOW * i..WINDOW * (i + 1)]
      ensures next.fed[i].context == (if i == 0 then Zeros(CONTEXT) else stream[WINDOW * i - CONTEXT..WINDOW * i])
    {
      if i < k { assert next.fed[i] == core.fed[i]; }
    }
  }

  lemma {:induction false} InferencesFrom(model: Model, core: Core, stream: seq<real>, k: nat)
    requires WINDOW * k <= |stream| && FedFrom(model, core, stream, k)
    ensures var (r, pending) := RunWindows(model, core, stream[WINDOW * k..]);
      && FedFrom(model, r, stream, |stream| / WINDOW)
      && pending == stream[WINDOW * (|stream| / WINDOW)..]
    decreases |stream| - WINDOW * k
  {
    var pending := stream[WINDOW * k..];
    if |pending| >= WINDOW {
      OneMoreInference(model, core, stream, k);
      assert pending[..WINDOW] == stream[WINDOW * k..WINDOW * (k + 1)];
      assert pending[WINDOW..] == stream[WINDOW * (k + 1)..];
      InferencesFrom(model, Infer(model, core, pending[..WINDOW]), stream, k + 1);
    } else {
      assert k == |stream| / WINDOW;
    }
  }
}
