// One session's remote-call telemetry: operation handles, saturating counters, the bounded attempt list,
// and the consistency check the persistence reader repeats.
module Telemetry {
  import opened Results
  import opened Sequences

  const MAX_SAFE := 9007199254740991
  const MAX_ATTEMPTS := 256
  const MAX_TURN_IDS := 512
  const OUTCOMES := 8

  datatype Operation = Interviewer | Formal

  // An index into the eight terminal outcomes.
  type Outcome = n: nat | n < OUTCOMES

  type Counts = counts: seq<nat> | |counts| == OUTCOMES witness [0, 0, 0, 0, 0, 0, 0, 0]

  const NoOutcomes: Counts := [0, 0, 0, 0, 0, 0, 0, 0]

  type HandleId = nat

  datatype Attempt = Attempt(operation: Operation, outcome: Outcome, elapsed: Option<nat>,
                             requestBytes: nat, contextBytes: nat, responseBytes: nat)

  datatype Metrics = Metrics(
    partial: bool,
    turns: nat,
    turnIds: seq<string>,
    attempts: seq<Attempt>,
    interviewerCalls: nat,
    formalCalls: nat,
    outcomes: Counts,
    requestBytes: nat,
    contextBytes: nat,
    responseBytes: nat,
    pendingInterviewer: nat,
    pendingFormal: nat)

  function Min(a: nat, b: nat): nat {
    if a < b then a else b
  }

  // addBounded and decrementBounded on counts, which are never negative or fractional.
  function AddBounded(a: nat, b: nat): nat {
    Min(MAX_SAFE, Min(MAX_SAFE, a) + Min(MAX_SAFE, b))
  }

  function DecrementBounded(a: nat): nat {
    if Min(MAX_SAFE, a) == 0 then 0 else Min(MAX_SAFE, a) - 1
  }

  function EmptyMetrics(partial: bool): Metrics {
    Metrics(partial, 0, [], [], 0, 0, NoOutcomes, 0, 0, 0, 0, 0)
  }

  function Pending(m: Metrics, operation: Operation): nat {
    if operation.Interviewer? then m.pendingInterviewer else m.pendingFormal
  }

  function Calls(m: Metrics, operation: Operation): nat {
    if operation.Interviewer? then m.interviewerCalls else m.formalCalls
  }

  // ---- The operations ----

  function Begun(m: Metrics, operation: Operation): Metrics {
    if operation.Interviewer? then
      m.(interviewerCalls := AddBounded(m.interviewerCalls, 1), pendingInterviewer := AddBounded(m.pendingInterviewer, 1))
    else
      m.(formalCalls := AddBounded(m.formalCalls, 1), pendingFormal := AddBounded(m.pendingFormal, 1))
  }

  function Settled(m: Metrics, operation: Operation): Metrics {
    if operation.Interviewer? then m.(pendingInterviewer := DecrementBounded(m.pendingInterviewer))
    else m.(pendingFormal := DecrementBounded(m.pendingFormal))
  }

  function Logged(m: Metrics, attempt: Attempt): Metrics {
    var full := |m.attempts| == MAX_ATTEMPTS;
    m.(attempts := (if full then m.attempts[1..] else m.attempts) + [attempt],
       partial := m.partial || full || attempt.elapsed.None?)
  }

  function Finished(m: Metrics, attempt: Attempt): Metrics {
    var n := Settled(m, attempt.operation);
    Logged(n.(outcomes := n.outcomes[attempt.outcome := AddBounded(n.outcomes[attempt.outcome], 1)],
              requestBytes := AddBounded(n.requestBytes, attempt.requestBytes),
              contextBytes := AddBounded(n.contextBytes, attempt.contextBytes),
              responseBytes := AddBounded(n.responseBytes, attempt.responseBytes)),
           attempt)
  }

  function WithTurn(m: Metrics, turn: string): Metrics {
    if turn in m.turnIds then m
    else if |m.turnIds| == MAX_TURN_IDS then m.(partial := true)
    else m.(turns := AddBounded(m.turns, 1), turnIds := m.turnIds + [turn])
  }

  // ---- The reader's check ----

  function TerminalCount(outcomes: seq<nat>): nat {
    if outcomes == [] then 0 else AddBounded(TerminalCount(outcomes[..|outcomes| - 1]), outcomes[|outcomes| - 1])
  }

  predicate WithinBounds(m: Metrics) {
    && m.turns <= MAX_SAFE && |m.turnIds| <= MAX_TURN_IDS
    && |m.attempts| <= MAX_ATTEMPTS
    && m.interviewerCalls <= MAX_SAFE && m.formalCalls <= MAX_SAFE
    && m.requestBytes <= MAX_SAFE && m.contextBytes <= MAX_SAFE && m.responseBytes <= MAX_SAFE
    && (forall i :: 0 <= i < OUTCOMES ==> m.outcomes[i] <= MAX_SAFE)
    && m.pendingInterviewer <= m.interviewerCalls && m.pendingFormal <= m.formalCalls
  }

  predicate PassesReader(m: Metrics) {
    && WithinBounds(m)
    && AddBounded(TerminalCount(m.outcomes), AddBounded(m.pendingInterviewer, m.pendingFormal))
       == AddBounded(m.interviewerCalls, m.formalCalls)
  }

  function Sum(counts: seq<nat>): nat {
    if counts == [] then 0 else Sum(counts[..|counts| - 1]) + counts[|counts| - 1]
  }

  lemma {:induction false} TerminalIsBoundedSum(counts: seq<nat>)
    ensures TerminalCount(counts) == Min(MAX_SAFE, Sum(counts))
  {
    if counts != [] { TerminalIsBoundedSum(counts[..|counts| - 1]); }
  }

  lemma {:induction false} SumOfUpdate(counts: seq<nat>, i: nat, n: nat)
    requires i < |counts|
    ensures Sum(counts[i := n]) == Sum(counts) - counts[i] + n
    decreases counts
  {
    var last := |counts| - 1;
    if i < last {
      SumOfUpdate(counts[..last], i, n);
      assert counts[i := n][..last] == counts[..last][i := n];
    } else {
      assert counts[i := n][..last] == counts[..last];
    }
  }

  lemma {:induction false} SumAtLeast(counts: seq<nat>, i: nat)
    requires i < |counts|
    ensures counts[i] <= Sum(counts)
  {
    if i < |counts| - 1 { SumAtLeast(counts[..|counts| - 1], i); }
  }

  // Everything started and everything terminal or pending, uncapped.
  function StartedTotal(m: Metrics): nat {
    m.interviewerCalls + m.formalCalls
  }

  function AccountedTotal(m: Metrics): nat {
    Sum(m.outcomes) + m.pendingInterviewer + m.pendingFormal
  }

  lemma ReaderComparesTotals(m: Metrics)
    ensures AddBounded(TerminalCount(m.outcomes), AddBounded(m.pendingInterviewer, m.pendingFormal))
            == AddBounded(m.interviewerCalls, m.formalCalls)
       <==> Min(MAX_SAFE, AccountedTotal(m)) == Min(MAX_SAFE, StartedTotal(m))
  {
    TerminalIsBoundedSum(m.outcomes);
  }

  // What the reader accepts, in numbers: every number a safe integer, the lists within their bounds, no more
  // pending than started of either kind, and everything started terminal or pending, up to the cap.
  lemma ReaderAcceptsExactly(m: Metrics)
    ensures PassesReader(m) <==>
      && m.turns <= 9007199254740991 && |m.turnIds| <= 512 && |m.attempts| <= 256
      && m.interviewerCalls <= 9007199254740991 && m.formalCalls <= 9007199254740991
      && m.requestBytes <= 9007199254740991 && m.contextBytes <= 9007199254740991 && m.responseBytes <= 9007199254740991
      && (forall i :: 0 <= i < 8 ==> m.outcomes[i] <= 9007199254740991)
      && m.pendingInterviewer <= m.interviewerCalls && m.pendingFormal <= m.formalCalls
      && (AccountedTotal(m) == StartedTotal(m) || (AccountedTotal(m) >= 9007199254740991 && StartedTotal(m) >= 9007199254740991))
  {
    ReaderComparesTotals(m);
  }

  // What a begin adds, unless a counter is saturated.
  lemma BegunTotals(m: Metrics, operation: Operation)
    requires PassesReader(m)
    ensures var n := Begun(m, operation);
            && StartedTotal(n) == StartedTotal(m) + (if Calls(m, operation) < MAX_SAFE then 1 else 0)
            && AccountedTotal(n) == AccountedTotal(m) + (if Pending(m, operation) < MAX_SAFE then 1 else 0)
  {
  }

  lemma BegunKeepsReader(m: Metrics, operation: Operation)
    requires PassesReader(m)
    ensures PassesReader(Begun(m, operation))
  {
    BegunTotals(m, operation);
    ReaderComparesTotals(m);
    ReaderComparesTotals(Begun(m, operation));
  }

  // What a finish moves from pending to terminal.
  lemma FinishedTotals(m: Metrics, attempt: Attempt)
    requires PassesReader(m)
    ensures var n := Finished(m, attempt);
            && StartedTotal(n) == StartedTotal(m)
            && AccountedTotal(n) == AccountedTotal(m) - (if Pending(m, attempt.operation) > 0 then 1 else 0)
                                    + (if m.outcomes[attempt.outcome] < MAX_SAFE then 1 else 0)
            && m.outcomes[attempt.outcome] + m.pendingInterviewer + m.pendingFormal <= AccountedTotal(m)
  {
    var i := attempt.outcome;
    SumOfUpdate(m.outcomes, i, AddBounded(m.outcomes[i], 1));
    SumAtLeast(m.outcomes, i);
  }

  lemma FinishedStaysWithin(m: Metrics, attempt: Attempt)
    requires WithinBounds(m)
    ensures WithinBounds(Finished(m, attempt))
  {
  }

  // Saturation never breaks the check by itself; only finishing what nothing is pending for does.
  lemma FinishedKeepsReaderExactly(m: Metrics, attempt: Attempt)
    requires PassesReader(m)
    ensures PassesReader(Finished(m, attempt)) <==> Pending(m, attempt.operation) > 0 || StartedTotal(m) >= MAX_SAFE
  {
    var n := Finished(m, attempt);
    FinishedStaysWithin(m, attempt);
    FinishedTotals(m, attempt);
    ReaderComparesTotals(m);
    ReaderComparesTotals(n);
    assert Min(MAX_SAFE, AccountedTotal(n)) == Min(MAX_SAFE, StartedTotal(n))
      <==> Pending(m, attempt.operation) > 0 || StartedTotal(m) >= MAX_SAFE;
  }

  lemma TurnKeepsReader(m: Metrics, turn: string)
    requires PassesReader(m)
    ensures PassesReader(WithTurn(m, turn))
  {
    ReaderComparesTotals(m);
    ReaderComparesTotals(WithTurn(m, turn));
  }

  // ---- The session over a run ----

  // An operation handle: what it reports, and whether finish was called. `counted` is whether its begin
  // is among the counters the session holds now.
  datatype Handle = Handle(operation: Operation, finished: bool, requestBytes: nat, contextBytes: nat, responseBytes: nat,
                           counted: bool)

  // `metrics` is what load() finds, and `suspect` whether metrics begun afresh are marked partial because
  // the stored ones were unreadable. `settled` are the attempts whose finish those counters saw.
  datatype World = World(metrics: Option<Metrics>, suspect: bool, handles: map<HandleId, Handle>, settled: seq<Attempt>)

  datatype Event =
    | Begin(handle: HandleId, operation: Operation)
    | SetSizes(handle: HandleId, requestBytes: nat, contextBytes: nat, responseBytes: nat)
    | Finish(handle: HandleId, outcome: Option<Outcome>, elapsed: Option<nat>)
    | RecordTurn(turn: string)
    | Evict(suspect: bool)

  function Loaded(w: World): Metrics {
    if w.metrics.Some? then w.metrics.value else EmptyMetrics(w.suspect)
  }

  function AttemptOf(handle: Handle, outcome: Outcome, elapsed: Option<nat>): Attempt {
    Attempt(handle.operation, outcome, elapsed, handle.requestBytes, handle.contextBytes, handle.responseBytes)
  }

  function Resized(handle: Handle, requestBytes: nat, contextBytes: nat, responseBytes: nat): Handle {
    handle.(requestBytes := Min(MAX_SAFE, requestBytes), contextBytes := Min(MAX_SAFE, contextBytes),
            responseBytes := Min(MAX_SAFE, responseBytes))
  }

  // A second finish, and sizes after it, change nothing; a finish with an unknown outcome only closes
  // the handle.
  function Next(w: World, e: Event): Option<World> {
    match e
    case Begin(h, operation) =>
      if h in w.handles then None
      else Some(w.(metrics := Some(Begun(Loaded(w), operation)), handles := w.handles[h := Handle(operation, false, 0, 0, 0, true)]))
    case SetSizes(h, requestBytes, contextBytes, responseBytes) =>
      if h !in w.handles then None
      else if w.handles[h].finished then Some(w)
      else Some(w.(handles := w.handles[h := Resized(w.handles[h], requestBytes, contextBytes, responseBytes)]))
    case Finish(h, outcome, elapsed) =>
      if h !in w.handles then None
      else if w.handles[h].finished then Some(w)
      else
        var closed := w.(handles := w.handles[h := w.handles[h].(finished := true)]);
        if outcome.None? then Some(closed)
        else
          var attempt := AttemptOf(w.handles[h], outcome.value, elapsed);
          Some(closed.(metrics := Some(Finished(Loaded(w), attempt)),
                       handles := w.handles[h := w.handles[h].(finished := true, counted := false)],
                       settled := w.settled + [attempt]))
    case RecordTurn(turn) => Some(w.(metrics := Some(WithTurn(Loaded(w), turn))))
    case Evict(suspect) =>
      Some(World(None, suspect, map h | h in w.handles :: w.handles[h].(counted := false), []))
  }

  // No finish reaches counters that never saw its begin.
  predicate Matched(w: World, e: Event) {
    e.Finish? && e.handle in w.handles && !w.handles[e.handle].finished && e.outcome.Some? ==> w.handles[e.handle].counted
  }

  // ---- The invariant ----

  function Live(handles: map<HandleId, Handle>, operation: Operation): set<HandleId> {
    set h | h in handles && handles[h].counted && handles[h].operation == operation
  }

  function CountOf(attempts: seq<Attempt>, operation: Operation): nat {
    if attempts == [] then 0
    else CountOf(attempts[..|attempts| - 1], operation) + if attempts[|attempts| - 1].operation == operation then 1 else 0
  }

  function LatestAttempts(attempts: seq<Attempt>): seq<Attempt> {
    if |attempts| <= MAX_ATTEMPTS then attempts else attempts[|attempts| - MAX_ATTEMPTS..]
  }

  // Below the cap the counters are exact.
  predicate Exact(w: World, operation: Operation) {
    var m := Loaded(w);
    && Pending(m, operation) == |Live(w.handles, operation)|
    && Calls(m, operation) == CountOf(w.settled, operation) + Pending(m, operation)
  }

  predicate CountersInv(w: World) {
    StartedTotal(Loaded(w)) < MAX_SAFE ==> Exact(w, Interviewer) && Exact(w, Formal)
  }

  predicate ListsInv(m: Metrics, settled: seq<Attempt>) {
    && m.attempts == LatestAttempts(settled) && (|settled| > MAX_ATTEMPTS ==> m.partial)
    && Distinct(m.turnIds) && m.turns == |m.turnIds| <= MAX_TURN_IDS
  }

  datatype Part = RequestPart | ContextPart | ResponsePart

  function SizeOf(attempt: Attempt, part: Part): nat {
    match part
    case RequestPart => attempt.requestBytes
    case ContextPart => attempt.contextBytes
    case ResponsePart => attempt.responseBytes
  }

  function BytesOf(attempts: seq<Attempt>, part: Part): nat {
    if attempts == [] then 0
    else BytesOf(attempts[..|attempts| - 1], part) + SizeOf(attempts[|attempts| - 1], part)
  }

  function OutcomeCount(attempts: seq<Attempt>, outcome: Outcome): nat {
    if attempts == [] then 0
    else OutcomeCount(attempts[..|attempts| - 1], outcome) + if attempts[|attempts| - 1].outcome == outcome then 1 else 0
  }

  // Every total is that of all settled attempts, up to the cap.
  predicate TotalsInv(m: Metrics, settled: seq<Attempt>) {
    && (forall outcome: Outcome :: m.outcomes[outcome] == Min(MAX_SAFE, OutcomeCount(settled, outcome)))
    && m.requestBytes == Min(MAX_SAFE, BytesOf(settled, RequestPart))
    && m.contextBytes == Min(MAX_SAFE, BytesOf(settled, ContextPart))
    && m.responseBytes == Min(MAX_SAFE, BytesOf(settled, ResponsePart))
  }

  predicate SizesAreSafe(handle: Handle) {
    handle.requestBytes <= MAX_SAFE && handle.contextBytes <= MAX_SAFE && handle.responseBytes <= MAX_SAFE
  }

  predicate SizesInv(handles: map<HandleId, Handle>) {
    forall h :: h in handles ==> SizesAreSafe(handles[h])
  }

  // What every run keeps.
  predicate Recorded(w: World) {
    ListsInv(Loaded(w), w.settled) && TotalsInv(Loaded(w), w.settled)
  }

  // What matched runs keep as well.
  predicate Inv(w: World) {
    && Recorded(w)
    && PassesReader(Loaded(w))
    && CountersInv(w)
    && SizesInv(w.handles)
  }

  const Init := World(None, false, map[], [])

  lemma LiveGrows(handles: map<HandleId, Handle>, h: HandleId, handle: Handle, o: Operation)
    requires h !in handles && handle.counted
    ensures |Live(handles[h := handle], o)| == |Live(handles, o)| + if o == handle.operation then 1 else 0
  {
    var now := Live(handles[h := handle], o);
    assert now == if o == handle.operation then Live(handles, o) + {h} else Live(handles, o);
  }

  lemma LiveShrinks(handles: map<HandleId, Handle>, h: HandleId, o: Operation)
    requires h in handles && handles[h].counted
    ensures |Live(handles[h := handles[h].(finished := true, counted := false)], o)|
            == |Live(handles, o)| - if o == handles[h].operation then 1 else 0
  {
    var now := Live(handles[h := handles[h].(finished := true, counted := false)], o);
    assert now == if o == handles[h].operation then Live(handles, o) - {h} else Live(handles, o);
  }

  // Reports and closings leave the live handles alone.
  lemma LiveStays(handles: map<HandleId, Handle>, h: HandleId, handle: Handle, o: Operation)
    requires h in handles && handle.counted == handles[h].counted && handle.operation == handles[h].operation
    ensures Live(handles[h := handle], o) == Live(handles, o)
  {
  }

  lemma BeginKeepsExact(w: World, h: HandleId, operation: Operation, o: Operation)
    requires Exact(w, o) && h !in w.handles && StartedTotal(Loaded(w)) < MAX_SAFE
    ensures Exact(Next(w, Begin(h, operation)).value, o)
  {
    LiveGrows(w.handles, h, Handle(operation, false, 0, 0, 0, true), o);
  }

  lemma BegunTotal(m: Metrics, operation: Operation)
    requires StartedTotal(Begun(m, operation)) < MAX_SAFE
    ensures StartedTotal(m) < MAX_SAFE
  {
  }

  lemma BeginKeepsCounters(w: World, h: HandleId, operation: Operation)
    requires CountersInv(w) && h !in w.handles
    ensures CountersInv(Next(w, Begin(h, operation)).value)
  {
    if StartedTotal(Begun(Loaded(w), operation)) < MAX_SAFE {
      BegunTotal(Loaded(w), operation);
      BeginKeepsExact(w, h, operation, Interviewer);
      BeginKeepsExact(w, h, operation, Formal);
    }
  }

  lemma BeginKeepsInv(w: World, h: HandleId, operation: Operation)
    requires Inv(w) && h !in w.handles
    ensures Inv(Next(w, Begin(h, operation)).value)
  {
    BegunKeepsReader(Loaded(w), operation);
    BeginKeepsCounters(w, h, operation);
  }

  lemma PendingWhenLive(w: World, h: HandleId)
    requires Inv(w) && h in w.handles && w.handles[h].counted
    ensures Pending(Loaded(w), w.handles[h].operation) > 0 || StartedTotal(Loaded(w)) >= MAX_SAFE
  {
    assert h in Live(w.handles, w.handles[h].operation);
  }

  lemma LatestOfOneMore(attempts: seq<Attempt>, attempt: Attempt)
    ensures var kept := LatestAttempts(attempts);
            LatestAttempts(attempts + [attempt]) == (if |kept| == MAX_ATTEMPTS then kept[1..] else kept) + [attempt]
  {
  }

  lemma FinishKeepsExact(w: World, h: HandleId, outcome: Outcome, elapsed: Option<nat>, o: Operation)
    requires Inv(w) && h in w.handles && !w.handles[h].finished && w.handles[h].counted
    requires StartedTotal(Loaded(w)) < MAX_SAFE
    ensures Exact(Next(w, Finish(h, Some(outcome), elapsed)).value, o)
  {
    var n := Next(w, Finish(h, Some(outcome), elapsed)).value;
    assert Exact(w, o);
    PendingWhenLive(w, h);
    LiveShrinks(w.handles, h, o);
    assert n.settled[..|n.settled| - 1] == w.settled;
  }

  lemma FinishKeepsTotals(m: Metrics, settled: seq<Attempt>, attempt: Attempt)
    requires TotalsInv(m, settled)
    ensures TotalsInv(Finished(m, attempt), settled + [attempt])
  {
    var more := settled + [attempt];
    assert more[..|more| - 1] == settled;
    forall outcome: Outcome
      ensures Finished(m, attempt).outcomes[outcome] == Min(MAX_SAFE, OutcomeCount(more, outcome))
    {
      assert OutcomeCount(more, outcome) == OutcomeCount(settled, outcome) + if attempt.outcome == outcome then 1 else 0;
    }
    assert forall part :: BytesOf(more, part) == BytesOf(settled, part) + SizeOf(attempt, part);
  }

  lemma FinishKeepsLists(m: Metrics, settled: seq<Attempt>, attempt: Attempt)
    requires ListsInv(m, settled)
    ensures ListsInv(Finished(m, attempt), settled + [attempt])
  {
    LatestOfOneMore(settled, attempt);
  }

  lemma FinishKeepsCounters(w: World, h: HandleId, outcome: Outcome, elapsed: Option<nat>)
    requires Inv(w) && h in w.handles && !w.handles[h].finished && w.handles[h].counted
    ensures CountersInv(Next(w, Finish(h, Some(outcome), elapsed)).value)
  {
    if StartedTotal(Loaded(w)) < MAX_SAFE {
      FinishKeepsExact(w, h, outcome, elapsed, Interviewer);
      FinishKeepsExact(w, h, outcome, elapsed, Formal);
    }
  }

  lemma FinishKeepsInv(w: World, h: HandleId, outcome: Outcome, elapsed: Option<nat>)
    requires Inv(w) && h in w.handles && !w.handles[h].finished && w.handles[h].counted
    ensures Inv(Next(w, Finish(h, Some(outcome), elapsed)).value)
  {
    var attempt := AttemptOf(w.handles[h], outcome, elapsed);
    PendingWhenLive(w, h);
    FinishedKeepsReaderExactly(Loaded(w), attempt);
    FinishKeepsCounters(w, h, outcome, elapsed);
    FinishKeepsLists(Loaded(w), w.settled, attempt);
    FinishKeepsTotals(Loaded(w), w.settled, attempt);
  }

  lemma HandleChangeKeepsCounters(w: World, h: HandleId, handle: Handle)
    requires CountersInv(w) && h in w.handles
    requires handle.counted == w.handles[h].counted && handle.operation == w.handles[h].operation
    ensures CountersInv(w.(handles := w.handles[h := handle]))
  {
    LiveStays(w.handles, h, handle, Interviewer);
    LiveStays(w.handles, h, handle, Formal);
    var n := w.(handles := w.handles[h := handle]);
    if StartedTotal(Loaded(w)) < MAX_SAFE {
      assert Exact(w, Interviewer) && Exact(w, Formal);
      assert Exact(n, Interviewer) && Exact(n, Formal);
    }
  }

  lemma HandleChangeKeepsInv(w: World, h: HandleId, handle: Handle)
    requires Inv(w) && h in w.handles && handle.counted == w.handles[h].counted
    requires handle.operation == w.handles[h].operation && SizesAreSafe(handle)
    ensures Inv(w.(handles := w.handles[h := handle]))
  {
    HandleChangeKeepsCounters(w, h, handle);
    assert SizesInv(w.handles[h := handle]);
  }

  // The call counters do not depend on anything else in the metrics.
  lemma CountersCarryOver(w: World, n: World)
    requires CountersInv(w) && n.handles == w.handles && n.settled == w.settled
    requires forall o :: Calls(Loaded(n), o) == Calls(Loaded(w), o) && Pending(Loaded(n), o) == Pending(Loaded(w), o)
    ensures CountersInv(n)
  {
    assert Calls(Loaded(n), Interviewer) == Calls(Loaded(w), Interviewer);
    assert Calls(Loaded(n), Formal) == Calls(Loaded(w), Formal);
  }

  lemma TurnKeepsLists(m: Metrics, turn: string)
    requires Distinct(m.turnIds) && m.turns == |m.turnIds| <= MAX_TURN_IDS
    ensures Distinct(WithTurn(m, turn).turnIds) && WithTurn(m, turn).turns == |WithTurn(m, turn).turnIds|
  {
  }

  lemma TurnKeepsInv(w: World, turn: string)
    requires Inv(w)
    ensures Inv(w.(metrics := Some(WithTurn(Loaded(w), turn))))
  {
    TurnKeepsReader(Loaded(w), turn);
    TurnKeepsRecorded(w, turn);
    CountersCarryOver(w, w.(metrics := Some(WithTurn(Loaded(w), turn))));
  }

  lemma NothingCounted(w: World, o: Operation)
    requires w.metrics.None? && w.settled == [] && Live(w.handles, o) == {}
    ensures Exact(w, o)
  {
    assert Calls(Loaded(w), o) == 0 && Pending(Loaded(w), o) == 0;
    assert CountOf([], o) == 0;
  }

  lemma NothingLoaded(w: World)
    requires w.metrics.None? && w.settled == [] && Live(w.handles, Interviewer) == {} && Live(w.handles, Formal) == {}
    requires SizesInv(w.handles)
    ensures Inv(w)
  {
    NothingCounted(w, Interviewer);
    NothingCounted(w, Formal);
    EmptyPassesReader(w.suspect);
    assert ListsInv(EmptyMetrics(w.suspect), []) && TotalsInv(EmptyMetrics(w.suspect), []);
  }

  lemma StepKeepsInv(w: World, e: Event)
    requires Inv(w) && Matched(w, e) && Next(w, e).Some?
    ensures Inv(Next(w, e).value)
  {
    if e.Begin? {
      BeginKeepsInv(w, e.handle, e.operation);
    } else if e.SetSizes? {
      HandleChangeKeepsInv(w, e.handle, Resized(w.handles[e.handle], e.requestBytes, e.contextBytes, e.responseBytes));
    } else if e.Finish? {
      if !w.handles[e.handle].finished {
        if e.outcome.Some? {
          FinishKeepsInv(w, e.handle, e.outcome.value, e.elapsed);
        } else {
          HandleChangeKeepsInv(w, e.handle, w.handles[e.handle].(finished := true));
        }
      }
    } else if e.RecordTurn? {
      TurnKeepsInv(w, e.turn);
    } else {
      var n := Next(w, Evict(e.suspect)).value;
      assert Live(n.handles, Interviewer) == {} && Live(n.handles, Formal) == {};
      NothingLoaded(n);
    }
  }

  lemma EmptyPassesReader(partial: bool)
    ensures PassesReader(EmptyMetrics(partial))
  {
    var m := EmptyMetrics(partial);
    assert forall i :: 0 <= i < OUTCOMES ==> NoOutcomes[i] == 0;
    ZerosSumToZero(NoOutcomes);
    assert AccountedTotal(m) == 0 == StartedTotal(m);
    ReaderComparesTotals(m);
  }

  lemma {:induction false} ZerosSumToZero(counts: seq<nat>)
    requires forall i :: 0 <= i < |counts| ==> counts[i] == 0
    ensures Sum(counts) == 0
  {
    if counts != [] { ZerosSumToZero(counts[..|counts| - 1]); }
  }

  // ---- Runs ----

  predicate Reaches(w: World, events: seq<Event>, n: World)
    decreases events
  {
    if events == [] then n == w
    else Next(w, events[0]).Some? && Reaches(Next(w, events[0]).value, events[1..], n)
  }

  // No finish along the way reaches counters that never saw its begin.
  predicate MatchedRun(w: World, events: seq<Event>)
    decreases events
  {
    events != [] ==> Matched(w, events[0]) && (Next(w, events[0]).Some? ==> MatchedRun(Next(w, events[0]).value, events[1..]))
  }

  // Neither calls nor pending ones, nor what a handle reports, are part of the record.
  lemma RecordCarriesOver(w: World, n: World)
    requires Recorded(w) && n.settled == w.settled
    requires Loaded(n) == Loaded(w).(interviewerCalls := Loaded(n).interviewerCalls, formalCalls := Loaded(n).formalCalls,
                                     pendingInterviewer := Loaded(n).pendingInterviewer, pendingFormal := Loaded(n).pendingFormal)
    ensures Recorded(n)
  {
    assert TotalsInv(Loaded(w), w.settled);
  }

  lemma FinishKeepsRecorded(w: World, e: Event)
    requires Recorded(w) && e.Finish? && Next(w, e).Some?
    ensures Recorded(Next(w, e).value)
  {
    if !w.handles[e.handle].finished && e.outcome.Some? {
      var attempt := AttemptOf(w.handles[e.handle], e.outcome.value, e.elapsed);
      FinishKeepsLists(Loaded(w), w.settled, attempt);
      FinishKeepsTotals(Loaded(w), w.settled, attempt);
      assert Loaded(Next(w, e).value) == Finished(Loaded(w), attempt);
    } else {
      RecordCarriesOver(w, Next(w, e).value);
    }
  }

  lemma TurnKeepsRecorded(w: World, turn: string)
    requires Recorded(w)
    ensures Recorded(w.(metrics := Some(WithTurn(Loaded(w), turn))))
  {
    TurnKeepsLists(Loaded(w), turn);
    assert TotalsInv(Loaded(w), w.settled);
  }

  lemma BeginKeepsRecorded(w: World, e: Event)
    requires Recorded(w) && (e.Begin? || e.SetSizes?) && Next(w, e).Some?
    ensures Recorded(Next(w, e).value)
  {
    RecordCarriesOver(w, Next(w, e).value);
  }

  lemma NothingRecorded(suspect: bool)
    ensures ListsInv(EmptyMetrics(suspect), []) && TotalsInv(EmptyMetrics(suspect), [])
  {
    assert forall outcome: Outcome :: NoOutcomes[outcome] == 0;
  }

  lemma StepKeepsRecorded(w: World, e: Event)
    requires Recorded(w) && Next(w, e).Some?
    ensures Recorded(Next(w, e).value)
  {
    if e.Finish? {
      FinishKeepsRecorded(w, e);
    } else if e.RecordTurn? {
      TurnKeepsRecorded(w, e.turn);
    } else if e.Evict? {
      NothingRecorded(e.suspect);
    } else {
      BeginKeepsRecorded(w, e);
    }
  }

  lemma {:induction false} RunKeepsRecorded(w: World, events: seq<Event>, n: World)
    requires Recorded(w) && Reaches(w, events, n)
    ensures Recorded(n)
    decreases events
  {
    if events != [] {
      StepKeepsRecorded(w, events[0]);
      RunKeepsRecorded(Next(w, events[0]).value, events[1..], n);
    }
  }

  lemma {:induction false} RunKeepsInv(w: World, events: seq<Event>, n: World)
    requires Inv(w) && Reaches(w, events, n) && MatchedRun(w, events)
    ensures Inv(n)
    decreases events
  {
    if events != [] {
      StepKeepsInv(w, events[0]);
      RunKeepsInv(Next(w, events[0]).value, events[1..], n);
    }
  }

  lemma InitKeepsInv()
    ensures Inv(Init)
  {
    assert Live(Init.handles, Interviewer) == {} && Live(Init.handles, Formal) == {};
    NothingLoaded(Init);
  }

  lemma ReachableInv(events: seq<Event>, w: World)
    requires Reaches(Init, events, w) && MatchedRun(Init, events)
    ensures Inv(w)
  {
    InitKeepsInv();
    RunKeepsInv(Init, events, w);
  }

  // ---- Main results ----

  // After any interleaving of begins, finishes, double finishes and invalid finishes, without an eviction
  // between a begin and its finish, the counters pass the persistence reader, saturated or not.
  lemma RunsPassReader(events: seq<Event>, w: World)
    requires Reaches(Init, events, w) && MatchedRun(Init, events)
    ensures PassesReader(Loaded(w))
  {
    ReachableInv(events, w);
  }

  // And below the cap, the calls of each kind are exactly those finished plus those pending, pending
  // counting every handle that was begun and never validly finished.
  lemma StartedIsFinishedPlusPending(events: seq<Event>, w: World, operation: Operation)
    requires Reaches(Init, events, w) && MatchedRun(Init, events) && StartedTotal(Loaded(w)) < MAX_SAFE
    ensures Calls(Loaded(w), operation) == CountOf(w.settled, operation) + |Live(w.handles, operation)|
    ensures Pending(Loaded(w), operation) == |Live(w.handles, operation)|
  {
    ReachableInv(events, w);
    assert Exact(w, operation);
  }

  // Outcome counts and byte totals are those of every settled attempt, also of those the bounded list
  // has dropped, up to the cap, whatever evictions come between.
  lemma TotalsCoverDroppedAttempts(events: seq<Event>, w: World, outcome: Outcome)
    requires Reaches(Init, events, w)
    ensures Loaded(w).outcomes[outcome] == Min(MAX_SAFE, OutcomeCount(w.settled, outcome))
    ensures Loaded(w).requestBytes == Min(MAX_SAFE, BytesOf(w.settled, RequestPart))
    ensures Loaded(w).contextBytes == Min(MAX_SAFE, BytesOf(w.settled, ContextPart))
    ensures Loaded(w).responseBytes == Min(MAX_SAFE, BytesOf(w.settled, ResponsePart))
  {
    InitKeepsInv();
    RunKeepsRecorded(Init, events, w);
  }

  // The attempt list holds the latest attempts in order, and is marked partial once one is gone.
  lemma AttemptsAreLatest(events: seq<Event>, w: World)
    requires Reaches(Init, events, w)
    ensures Loaded(w).attempts == LatestAttempts(w.settled) && |Loaded(w).attempts| <= MAX_ATTEMPTS
    ensures |w.settled| > |Loaded(w).attempts| ==> Loaded(w).partial
    ensures Distinct(Loaded(w).turnIds) && Loaded(w).turns == |Loaded(w).turnIds| <= MAX_TURN_IDS
  {
    InitKeepsInv();
    RunKeepsRecorded(Init, events, w);
  }

  // The different turns recorded since the metrics were last lost, in order, on top of those before.
  function TurnsAfter(before: seq<string>, events: seq<Event>): seq<string>
    decreases events
  {
    if events == [] then before
    else
      var e, rest := events[0], events[1..];
      if e.Evict? then TurnsAfter([], rest)
      else if e.RecordTurn? && e.turn !in before then TurnsAfter(before + [e.turn], rest)
      else TurnsAfter(before, rest)
  }

  function FirstTurns(turns: seq<string>): seq<string> {
    if |turns| <= 512 then turns else turns[..512]
  }

  predicate HasUntimed(attempts: seq<Attempt>) {
    exists i :: 0 <= i < |attempts| && attempts[i].elapsed.None?
  }

  // The turns held, and exactly when the metrics are marked partial.
  predicate TurnsHeld(w: World, turns: seq<string>) {
    && Loaded(w).turnIds == FirstTurns(turns) && Distinct(turns)
    && Loaded(w).turns == |Loaded(w).turnIds|
    && (Loaded(w).partial <==> w.suspect || |turns| > 512 || |w.settled| > 256 || HasUntimed(w.settled))
  }

  lemma TurnKeepsHeld(w: World, turn: string, turns: seq<string>)
    requires Recorded(w) && TurnsHeld(w, turns)
    ensures TurnsHeld(Next(w, RecordTurn(turn)).value, if turn in turns then turns else turns + [turn])
  {
    var m := Loaded(w);
    if turn in m.turnIds {
      assert turn in turns;
    } else if turn in turns {
      assert |turns| > 512;
    } else if |turns| < 512 {
      assert FirstTurns(turns + [turn]) == turns + [turn];
    } else {
      assert (turns + [turn])[..512] == turns[..512];
    }
  }

  lemma FinishKeepsHeld(w: World, e: Event, turns: seq<string>)
    requires Recorded(w) && TurnsHeld(w, turns) && e.Finish? && Next(w, e).Some?
    ensures TurnsHeld(Next(w, e).value, turns)
  {
    if !w.handles[e.handle].finished && e.outcome.Some? {
      var attempt := AttemptOf(w.handles[e.handle], e.outcome.value, e.elapsed);
      var more := w.settled + [attempt];
      assert HasUntimed(more) <==> HasUntimed(w.settled) || attempt.elapsed.None? by {
        assert more[|w.settled|] == attempt;
        assert forall i :: 0 <= i < |w.settled| ==> more[i] == w.settled[i];
      }
    }
  }

  lemma TurnsAfterEvent(turns: seq<string>, e: Event)
    ensures TurnsAfter(turns, [e]) == if e.Evict? then [] else
                                      if e.RecordTurn? && e.turn !in turns then turns + [e.turn] else turns
  {
    assert [e][1..] == [];
  }

  lemma BeginKeepsHeld(w: World, h: HandleId, operation: Operation, turns: seq<string>)
    requires Recorded(w) && TurnsHeld(w, turns) && Next(w, Begin(h, operation)).Some?
    ensures TurnsHeld(Next(w, Begin(h, operation)).value, turns)
  {
  }

  lemma EvictKeepsHeld(w: World, suspect: bool)
    ensures TurnsHeld(Next(w, Evict(suspect)).value, [])
  {
  }

  lemma StepKeepsHeld(w: World, e: Event, turns: seq<string>)
    requires Recorded(w) && TurnsHeld(w, turns) && Next(w, e).Some?
    ensures TurnsHeld(Next(w, e).value, TurnsAfter(turns, [e]))
  {
    TurnsAfterEvent(turns, e);
    if e.RecordTurn? {
      TurnKeepsHeld(w, e.turn, turns);
    } else if e.Finish? {
      FinishKeepsHeld(w, e, turns);
    } else if e.Begin? {
      BeginKeepsHeld(w, e.handle, e.operation, turns);
    } else if e.Evict? {
      EvictKeepsHeld(w, e.suspect);
    }
  }

  lemma TurnsAfterOne(turns: seq<string>, events: seq<Event>)
    requires events != []
    ensures TurnsAfter(turns, events) == TurnsAfter(TurnsAfter(turns, [events[0]]), events[1..])
  {
    assert [events[0]][1..] == [];
  }

  lemma {:induction false} RunKeepsHeld(w: World, events: seq<Event>, n: World, turns: seq<string>)
    requires Recorded(w) && TurnsHeld(w, turns) && Reaches(w, events, n)
    ensures TurnsHeld(n, TurnsAfter(turns, events))
    decreases events
  {
    if events != [] {
      StepKeepsRecorded(w, events[0]);
      StepKeepsHeld(w, events[0], turns);
      TurnsAfterOne(turns, events);
      RunKeepsHeld(Next(w, events[0]).value, events[1..], n, TurnsAfter(turns, [events[0]]));
    }
  }

  lemma FreshHolds(w: World)
    requires w.metrics.None? && !w.suspect && w.settled == []
    ensures Recorded(w) && TurnsHeld(w, [])
  {
    NothingRecorded(w.suspect);
  }

  // In every run the turn ids held and counted are exactly the first 512 different ones recorded since the
  // metrics were last lost, and the metrics are partial exactly when something is missing from them.
  lemma TurnsAreCountedExactly(events: seq<Event>, w: World)
    requires Reaches(Init, events, w)
    ensures TurnsHeld(w, TurnsAfter([], events))
  {
    FreshHolds(Init);
    RunKeepsHeld(Init, events, w, []);
  }

  // One call from beginning to end is logged with what it reported, each number capped and in its place;
  // reports and finishes after the first valid finish change nothing.
  lemma CallIsLogged(w: World, h: HandleId, operation: Operation, request: nat, context: nat, response: nat,
                     outcome: Outcome, elapsed: Option<nat>, again: Option<Outcome>)
    requires h !in w.handles
    ensures var begun := Next(w, Begin(h, operation));
      && begun.Some?
      && var sized := Next(begun.value, SetSizes(h, request, context, response));
      && sized.Some?
      && var done := Next(sized.value, Finish(h, Some(outcome), elapsed));
      && done.Some?
      && done.value.settled == w.settled
           + [Attempt(operation, outcome, elapsed, Min(MAX_SAFE, request), Min(MAX_SAFE, context), Min(MAX_SAFE, response))]
      && Next(sized.value, Finish(h, None, elapsed)).Some?
      && Next(sized.value, Finish(h, None, elapsed)).value.settled == w.settled
      && Next(done.value, Finish(h, again, elapsed)) == Some(done.value)
      && Next(done.value, SetSizes(h, response, request, context)) == Some(done.value)
  {
  }

  // In any state whose counters pass, finishing any open handle, matched or not, leaves counters the
  // reader accepts exactly when something of its kind is pending or the cap is reached.
  lemma FinishIsSafeExactly(w: World, h: HandleId, outcome: Outcome, elapsed: Option<nat>)
    requires PassesReader(Loaded(w)) && h in w.handles && !w.handles[h].finished
    ensures Next(w, Finish(h, Some(outcome), elapsed)).Some?
    ensures PassesReader(Loaded(Next(w, Finish(h, Some(outcome), elapsed)).value)) <==> Covered(w, h)
  {
    FinishedKeepsReaderExactly(Loaded(w), AttemptOf(w.handles[h], outcome, elapsed));
  }

  // The guard: something of the handle's kind is pending, or the cap is reached.
  predicate Covered(w: World, h: HandleId)
    requires h in w.handles
  {
    Pending(Loaded(w), w.handles[h].operation) > 0 || StartedTotal(Loaded(w)) >= MAX_SAFE
  }

  predicate CoveredEvent(w: World, e: Event) {
    e.Finish? && e.handle in w.handles && !w.handles[e.handle].finished && e.outcome.Some? ==> Covered(w, e.handle)
  }

  // Every first valid finish along the way is covered at that moment.
  predicate CoveredRun(w: World, events: seq<Event>)
    decreases events
  {
    events != [] ==> CoveredEvent(w, events[0]) && (Next(w, events[0]).Some? ==> CoveredRun(Next(w, events[0]).value, events[1..]))
  }

  // The counters pass the reader whenever it looks.
  predicate AlwaysPasses(w: World, events: seq<Event>)
    decreases events
  {
    && PassesReader(Loaded(w))
    && (events != [] && Next(w, events[0]).Some? ==> AlwaysPasses(Next(w, events[0]).value, events[1..]))
  }

  lemma StepPassesExactly(w: World, e: Event)
    requires PassesReader(Loaded(w)) && Next(w, e).Some?
    ensures PassesReader(Loaded(Next(w, e).value)) <==> CoveredEvent(w, e)
  {
    if e.Begin? {
      BegunKeepsReader(Loaded(w), e.operation);
    } else if e.Finish? {
      if !w.handles[e.handle].finished && e.outcome.Some? {
        FinishIsSafeExactly(w, e.handle, e.outcome.value, e.elapsed);
      }
    } else if e.RecordTurn? {
      TurnKeepsReader(Loaded(w), e.turn);
    } else if e.Evict? {
      EmptyPassesReader(e.suspect);
    }
  }

  // Exactly which runs keep the counters acceptable throughout, evictions and unmatched finishes included.
  lemma {:induction false} PassesThroughoutExactly(w: World, events: seq<Event>)
    requires PassesReader(Loaded(w))
    ensures AlwaysPasses(w, events) <==> CoveredRun(w, events)
    decreases events
  {
    if events != [] && Next(w, events[0]).Some? {
      StepPassesExactly(w, events[0]);
      if CoveredEvent(w, events[0]) { PassesThroughoutExactly(Next(w, events[0]).value, events[1..]); }
    }
  }

  lemma {:induction false} GoesOn(w: World, events: seq<Event>, m: World, e: Event, n: World)
    requires Reaches(w, events, m) && Next(m, e) == Some(n)
    ensures Reaches(w, events + [e], n)
    decreases events
  {
    if events == [] {
      assert events + [e] == [e] && [e][1..] == [];
    } else {
      GoesOn(Next(w, events[0]).value, events[1..], m, e, n);
      assert (events + [e])[1..] == events[1..] + [e];
    }
  }

  // A handle whose begin the counters have lost.
  lemma LosesItsBegin() returns (events: seq<Event>, w: World)
    ensures Reaches(Init, events, w) && MatchedRun(Init, events)
    ensures PassesReader(Loaded(w)) && Pending(Loaded(w), Interviewer) == 0 == StartedTotal(Loaded(w))
    ensures w.handles.Keys == {0} && w.handles[0].operation == Interviewer && !w.handles[0].finished
  {
    events := [Begin(0, Interviewer), Evict(false)];
    w := World(None, false, map[0 := Handle(Interviewer, false, 0, 0, 0, false)], []);
    var begun := Next(Init, Begin(0, Interviewer)).value;
    assert begun.handles == map[0 := Handle(Interviewer, false, 0, 0, 0, true)];
    assert Next(begun, Evict(false)).value.handles == w.handles;
    var evict := [Evict(false)];
    assert evict[1..] == [] && Reaches(w, [], w) && MatchedRun(w, []);
    assert events[1..] == evict && Reaches(begun, evict, w) && MatchedRun(begun, evict);
    EmptyPassesReader(false);
  }

  // A finish after an eviction does corrupt them: a concrete run.
  lemma EvictionCanCorrupt() returns (events: seq<Event>, w: World)
    ensures Reaches(Init, events, w) && MatchedRun(Init, events) && 0 in w.handles && !w.handles[0].finished
    ensures forall outcome: Outcome, elapsed ::
              var next := Next(w, Finish(0, Some(outcome), elapsed));
              next.Some? && !PassesReader(Loaded(next.value))
  {
    events, w := LosesItsBegin();
    forall outcome: Outcome, elapsed
      ensures var next := Next(w, Finish(0, Some(outcome), elapsed)); next.Some? && !PassesReader(Loaded(next.value))
    {
      FinishIsSafeExactly(w, 0, outcome, elapsed);
    }
  }

  // Nor is it always the unmatched finish that does: with another call pending it is accepted and uses
  // that call up, and the other call's own finish then corrupts them.
  lemma UnmatchedFinishTakesAnothersCall(outcome: Outcome, elapsed: Option<nat>) returns (events: seq<Event>, w: World)
    ensures Reaches(Init, events, w) && PassesReader(Loaded(w))
    ensures w.handles.Keys == {0, 1} && w.handles[0].finished && !w.handles[1].finished && w.handles[1].counted
    ensures var next := Next(w, Finish(1, Some(outcome), elapsed)); next.Some? && !PassesReader(Loaded(next.value))
  {
    var lost;
    events, lost := LosesItsBegin();
    var other := BeginsAnotherCall(lost);
    w := TakesAnothersCall(other, outcome, elapsed);
    GoesOn(Init, events, lost, Begin(1, Interviewer), other);
    GoesOn(Init, events + [Begin(1, Interviewer)], other, Finish(0, Some(outcome), elapsed), w);
    events := events + [Begin(1, Interviewer)] + [Finish(0, Some(outcome), elapsed)];
  }

  lemma BeginsAnotherCall(lost: World) returns (other: World)
    requires PassesReader(Loaded(lost)) && Pending(Loaded(lost), Interviewer) == 0 == StartedTotal(Loaded(lost))
    requires lost.handles.Keys == {0} && lost.handles[0].operation == Interviewer && !lost.handles[0].finished
    ensures Next(lost, Begin(1, Interviewer)) == Some(other)
    ensures OneOfTwoPending(other) && other.handles[1].counted
  {
    other := Next(lost, Begin(1, Interviewer)).value;
    BegunKeepsReader(Loaded(lost), Interviewer);
  }

  // Handles 0 and 1 are open, and one interviewer call is all that was counted.
  predicate OneOfTwoPending(w: World) {
    && PassesReader(Loaded(w)) && Pending(Loaded(w), Interviewer) == 1 == StartedTotal(Loaded(w))
    && w.handles.Keys == {0, 1}
    && w.handles[0].operation == Interviewer == w.handles[1].operation
    && !w.handles[0].finished && !w.handles[1].finished
  }

  lemma TakesAnothersCall(other: World, outcome: Outcome, elapsed: Option<nat>) returns (w: World)
    requires OneOfTwoPending(other)
    ensures Next(other, Finish(0, Some(outcome), elapsed)) == Some(w) && PassesReader(Loaded(w))
    ensures w.handles.Keys == {0, 1} && w.handles[0].finished && w.handles[1] == other.handles[1]
    ensures var next := Next(w, Finish(1, Some(outcome), elapsed)); next.Some? && !PassesReader(Loaded(next.value))
  {
    w := Next(other, Finish(0, Some(outcome), elapsed)).value;
    FinishIsSafeExactly(other, 0, outcome, elapsed);
    FinishUsesOneUp(Loaded(other), AttemptOf(other.handles[0], outcome, elapsed));
    FinishIsSafeExactly(w, 1, outcome, elapsed);
  }

  lemma FinishUsesOneUp(m: Metrics, attempt: Attempt)
    requires Pending(m, attempt.operation) == 1
    ensures Pending(Finished(m, attempt), attempt.operation) == 0
    ensures StartedTotal(Finished(m, attempt)) == StartedTotal(m)
  {
  }

  // ---- The session's metrics as an object ----

  class SessionMetrics {
    var partial: bool
    var candidateSubstantiveTurns: nat
    var candidateTurnIds: seq<string>
    var remoteAttempts: seq<Attempt>
    var interviewerCalls: nat
    var formalInterpretationCalls: nat
    var outcomes: array<nat>
    var requestBytes: nat
    var contextBytes: nat
    var responseBytes: nat
    var pendingInterviewer: nat
    var pendingFormal: nat

    ghost function Value(): Metrics
      requires outcomes.Length == OUTCOMES
      reads this, outcomes
    {
      Metrics(partial, candidateSubstantiveTurns, candidateTurnIds, remoteAttempts, interviewerCalls,
              formalInterpretationCalls, outcomes[..], requestBytes, contextBytes, responseBytes, pendingInterviewer, pendingFormal)
    }

    constructor (partial: bool)
      ensures outcomes.Length == OUTCOMES && fresh(outcomes) && Value() == EmptyMetrics(partial)
    {
      this.partial, candidateSubstantiveTurns, candidateTurnIds, remoteAttempts := partial, 0, [], [];
      interviewerCalls, formalInterpretationCalls, requestBytes, contextBytes, responseBytes := 0, 0, 0, 0, 0;
      pendingInterviewer, pendingFormal := 0, 0;
      outcomes := new nat[OUTCOMES](i => 0);
    }

    // beginRemoteOperation's mutation.
    method BeginRemoteOperation(operation: Operation)
      requires outcomes.Length == OUTCOMES
      modifies this
      ensures outcomes == old(outcomes) && Value() == Begun(old(Value()), operation)
    {
      if operation.Interviewer? {
        interviewerCalls := AddBounded(interviewerCalls, 1);
        pendingInterviewer := AddBounded(pendingInterviewer, 1);
      } else {
        formalInterpretationCalls := AddBounded(formalInterpretationCalls, 1);
        pendingFormal := AddBounded(pendingFormal, 1);
      }
    }

    // The mutation of a handle's first valid finish.
    method FinishRemoteOperation(attempt: Attempt)
      requires outcomes.Length == OUTCOMES
      modifies this, outcomes
      ensures outcomes == old(outcomes) && Value() == Finished(old(Value()), attempt)
    {
      if attempt.elapsed.None? { partial := true; }
      if attempt.operation.Interviewer? {
        pendingInterviewer := DecrementBounded(pendingInterviewer);
      } else {
        pendingFormal := DecrementBounded(pendingFormal);
      }
      outcomes[attempt.outcome] := AddBounded(outcomes[attempt.outcome], 1);
      requestBytes := AddBounded(requestBytes, attempt.requestBytes);
      contextBytes := AddBounded(contextBytes, attempt.contextBytes);
      responseBytes := AddBounded(responseBytes, attempt.responseBytes);
      if |remoteAttempts| == MAX_ATTEMPTS {
        remoteAttempts := remoteAttempts[1..];
        partial := true;
      }
      remoteAttempts := remoteAttempts + [attempt];
    }

    method RecordCandidateSubstantiveTurn(turn: string)
      requires outcomes.Length == OUTCOMES
      modifies this
      ensures outcomes == old(outcomes) && Value() == WithTurn(old(Value()), turn)
    {
      if turn in candidateTurnIds { return; }
      if |candidateTurnIds| == MAX_TURN_IDS {
        partial := true;
        return;
      }
      candidateSubstantiveTurns := AddBounded(candidateSubstantiveTurns, 1);
      candidateTurnIds := candidateTurnIds + [turn];
    }
  }
}
