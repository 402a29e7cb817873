// The voice input coordinator as one system: the stream and session bindings, the operations suspended
// inside submitFrame, flush and applyEvents, the cancellations that overtake them, and the authoritative
// utterances behind them.
module VoiceInput {
  import opened Results

  type SessionId = nat
  type StreamId = nat
  type ContextId = nat
  type UtteranceId = nat
  type BasisId = nat

  const MAX_CONCURRENT_STREAMS := 4

  datatype Context = Context(
    session: SessionId,
    stream: StreamId,
    active: bool,
    operationInFlight: bool,
    utterance: Option<UtteranceId>,
    workerUtterance: Option<nat>,
    finalizedBasis: Option<BasisId>)

  datatype UtteranceStatus = Capturing | Discarded | Finalized

  // `owner` is the context whose onset began it.
  datatype Utterance = Utterance(owner: ContextId, status: UtteranceStatus)

  // `bound` is whether the callback names this stream and request; `vouched` the outcome of the audio
  // basis checks against the stream's ledger.
  datatype WorkerEvent =
    | SpeechStarted(bound: bool, worker: nat)
    | UtteranceDiscarded(bound: bool, named: Option<nat>)
    | UtteranceFinalized(bound: bool, worker: nat, basis: BasisId, vouched: bool)
    | TranscriptCandidate(bound: bool, worker: nat, basis: BasisId, blank: bool)
    | WorkerFailed(bound: bool)

  // Where an operation is suspended. `onset` is whether it has admitted an onset itself.
  datatype Stage =
    | AwaitWorker
    | Applying(rest: seq<WorkerEvent>, onset: bool)
    | Beginning(worker: nat, rest: seq<WorkerEvent>, onset: bool)
    | Begun(utterance: UtteranceId, worker: nat, rest: seq<WorkerEvent>, onset: bool)
    | Discarding(utterance: UtteranceId, next: Sequel)
    | Finalizing(utterance: UtteranceId, candidate: WorkerEvent, rest: seq<WorkerEvent>, onset: bool)
    | Committing(rest: seq<WorkerEvent>, onset: bool)
    | Committed(rest: seq<WorkerEvent>, onset: bool)

  datatype Sequel = Stop | TerminateAndStop | TerminateAndGoOn(rest: seq<WorkerEvent>, onset: bool)

  // A shutdown under way: the utterance whose discard it awaits, and the contexts it has yet to visit.
  datatype Closing = Closing(awaited: Option<UtteranceId>, rest: seq<ContextId>)

  // What an utterance was finalized with, and its context at that moment.
  datatype Transcript = Transcript(context: Context, candidate: WorkerEvent)

  // Context ids are given in the order of opening. `discardQueue` holds the discard commands of revoked
  // contexts the writer has yet to run. `discards`, `finalizes` and `commits` count what the log recorded, and
  // `transcripts` is the history of finalizations.
  datatype World = World(
    ended: set<SessionId>,
    contexts: map<ContextId, Context>,
    streams: map<StreamId, ContextId>,
    sessionStreams: map<SessionId, StreamId>,
    operations: map<ContextId, Stage>,
    utterances: map<UtteranceId, Utterance>,
    discardQueue: multiset<UtteranceId>,
    shutdowns: seq<Closing>,
    discards: multiset<UtteranceId>,
    finalizes: multiset<UtteranceId>,
    commits: multiset<ContextId>,
    transcripts: map<UtteranceId, Transcript>)

  datatype Event =
    | Open(session: SessionId, stream: StreamId, context: ContextId)
    | Operate(session: SessionId, stream: StreamId)
    | WorkerAnswers(context: ContextId, events: seq<WorkerEvent>)
    | WorkerRejects(context: ContextId)
    | Resume(context: ContextId, utterance: UtteranceId, succeeds: bool)
    | CancelStream(session: SessionId, stream: StreamId)
    | CancelSession(session: SessionId)
    | Expire(context: ContextId)
    | BeginShutdown(order: seq<ContextId>)
    | ShutdownNext(k: nat)
    | RunDiscard(utterance: UtteranceId)
    | EndSession(session: SessionId)

  // ---- Bindings ----

  predicate IsCurrent(w: World, c: ContextId)
    requires c in w.contexts
  {
    var context := w.contexts[c];
    && context.active
    && context.stream in w.streams && w.streams[context.stream] == c
    && context.session in w.sessionStreams && w.sessionStreams[context.session] == context.stream
  }

  // releaseStreamBinding compares the context in one map and only the stream id in the other.
  function Release(w: World, c: ContextId): World
    requires c in w.contexts
  {
    var context := w.contexts[c];
    w.(streams := if context.stream in w.streams && w.streams[context.stream] == c then w.streams - {context.stream} else w.streams,
       sessionStreams := if context.session in w.sessionStreams && w.sessionStreams[context.session] == context.stream
                         then w.sessionStreams - {context.session} else w.sessionStreams)
  }

  function Put(w: World, c: ContextId, context: Context): World {
    w.(contexts := w.contexts[c := context])
  }

  function Deactivated(w: World, c: ContextId): World
    requires c in w.contexts
  {
    Release(Put(w, c, w.contexts[c].(active := false)), c)
  }

  function Terminate(w: World, c: ContextId): World
    requires c in w.contexts
  {
    if w.contexts[c].active then Deactivated(w, c) else w
  }

  predicate IsCapturing(w: World, u: UtteranceId) {
    u in w.utterances && w.utterances[u].status.Capturing?
  }

  // The utterance discardCapturingUtterance will discard, if any.
  function ToDiscard(w: World, c: ContextId): Option<UtteranceId>
    requires c in w.contexts
  {
    var u := w.contexts[c].utterance;
    if u.Some? && IsCapturing(w, u.value) then u else None
  }

  // What cancellation, expiry and shutdown do to a context before they wait for anything.
  function Revoke(w: World, c: ContextId): World
    requires c in w.contexts
  {
    var n := Deactivated(w, c);
    var u := ToDiscard(n, c);
    if u.Some? then n.(discardQueue := n.discardQueue + multiset{u.value}) else n
  }

  // discardUtterance as the writer runs it; an utterance no longer capturing is refused, which the
  // caller swallows.
  function Discard(w: World, u: UtteranceId): World {
    if IsCapturing(w, u)
    then w.(utterances := w.utterances[u := w.utterances[u].(status := Discarded)], discards := w.discards + multiset{u})
    else w
  }

  // ---- Operations ----

  function At(w: World, c: ContextId, stage: Stage): World {
    w.(operations := w.operations[c := stage])
  }

  // The finally block.
  function Finish(w: World, c: ContextId): World
    requires c in w.contexts
  {
    if IsCurrent(w, c) then Put(w, c, w.contexts[c].(operationInFlight := false)) else w
  }

  function Continue(w: World, c: ContextId, next: Sequel): World
    requires c in w.contexts
  {
    match next
    case Stop => Finish(w, c)
    case TerminateAndStop => Finish(Terminate(w, c), c)
    case TerminateAndGoOn(rest, onset) => At(Terminate(w, c), c, Applying(rest, onset))
  }

  function DiscardThen(w: World, c: ContextId, next: Sequel): World
    requires c in w.contexts
  {
    var u := ToDiscard(w, c);
    if u.Some? then At(w, c, Discarding(u.value, next)) else Continue(w, c, next)
  }

  // The catch block: an error is passed on unless this operation admitted the onset of an utterance that
  // is still capturing.
  function Throw(w: World, c: ContextId, onset: bool): World
    requires c in w.contexts
  {
    if onset && ToDiscard(w, c).Some? then DiscardThen(w, c, TerminateAndStop) else Finish(w, c)
  }

  predicate BoundUtterance(context: Context, worker: nat) {
    context.workerUtterance == Some(worker) && context.utterance.Some?
  }

  // One turn of applyEvents' loop.
  function Apply(w: World, c: ContextId, rest: seq<WorkerEvent>, onset: bool): World
    requires c in w.contexts
  {
    var context := w.contexts[c];
    if rest == [] || !IsCurrent(w, c) then Finish(w, c)
    else
      var event, later := rest[0], rest[1..];
      if !event.bound then Throw(w, c, onset)
      else
        match event
        case SpeechStarted(_, worker) =>
          if context.utterance.Some? then
            if context.workerUtterance != Some(worker) then Throw(w, c, onset) else At(w, c, Applying(later, onset))
          else if context.session in w.ended then Finish(Terminate(w, c), c)
          else At(w, c, Beginning(worker, later, onset))
        case UtteranceDiscarded(_, named) =>
          if named.Some? && context.workerUtterance.Some? && named != context.workerUtterance then Throw(w, c, onset)
          else DiscardThen(w, c, TerminateAndGoOn(later, onset))
        case UtteranceFinalized(_, worker, basis, vouched) =>
          if !BoundUtterance(context, worker) || !vouched then Throw(w, c, onset)
          else At(Put(w, c, context.(finalizedBasis := Some(basis))), c, Applying(later, onset))
        case TranscriptCandidate(_, worker, basis, blank) =>
          if !BoundUtterance(context, worker) || context.finalizedBasis != Some(basis) then Throw(w, c, onset)
          else if blank then DiscardThen(w, c, TerminateAndGoOn(later, onset))
          else At(w, c, Finalizing(context.utterance.value, event, later, onset))
        case WorkerFailed(_) => DiscardThen(w, c, TerminateAndGoOn(later, onset))
  }

  // An operation taken off its await.
  function Taken(w: World, c: ContextId): World {
    w.(operations := w.operations - {c})
  }

  // How it goes on. `unused` is the id a new utterance gets; `succeeds` whether committing the episode does.
  function Resumed(w: World, c: ContextId, stage: Stage, unused: UtteranceId, succeeds: bool): World
    requires c in w.contexts && unused !in w.utterances && !stage.AwaitWorker?
  {
    var context := w.contexts[c];
    match stage
    case Applying(rest, onset) => Apply(w, c, rest, onset)
    case Beginning(worker, rest, onset) =>
      if context.session in w.ended then Throw(w, c, onset)
      else At(w.(utterances := w.utterances[unused := Utterance(c, Capturing)]), c, Begun(unused, worker, rest, onset))
    case Begun(u, worker, rest, onset) =>
      var n := Put(w, c, context.(workerUtterance := Some(worker), utterance := Some(u)));
      if IsCurrent(n, c) then At(n, c, Applying(rest, true)) else DiscardThen(n, c, Stop)
    case Discarding(u, next) => Continue(Discard(w, u), c, next)
    case Finalizing(u, candidate, rest, onset) =>
      if context.session in w.ended || !IsCapturing(w, u) then Throw(w, c, onset)
      else At(w.(utterances := w.utterances[u := w.utterances[u].(status := Finalized)], finalizes := w.finalizes + multiset{u},
                 transcripts := w.transcripts[u := Transcript(context, candidate)]),
              c, Committing(rest, onset))
    case Committing(rest, onset) =>
      if succeeds then At(w.(commits := w.commits + multiset{c}), c, Committed(rest, onset)) else Throw(w, c, onset)
    case Committed(rest, onset) => At(Terminate(w, c), c, Applying(rest, onset))
  }

  predicate IsNewest(w: World, c: ContextId) {
    forall o :: o in w.contexts ==> o < c
  }

  // The bound contexts in the order in which the source's Map holds them, that of opening.
  predicate ListsStreams(w: World, order: seq<ContextId>) {
    && (forall i :: 0 <= i < |order| ==> order[i] in w.streams.Values && order[i] in w.contexts)
    && (forall i, j :: 0 <= i < j < |order| ==> order[i] < order[j])
    && (forall c :: c in w.streams.Values ==> c in order)
  }

  // None when the event cannot happen or is refused without effect. A shutdown visits its first context
  // at once and each later one after the discard of the one before.
  function Next(w: World, e: Event): Option<World> {
    match e
    case Open(session, stream, c) =>
      if !IsNewest(w, c) || session in w.ended || stream in w.streams || session in w.sessionStreams
         || |w.streams| >= MAX_CONCURRENT_STREAMS
      then None
      else Some(w.(contexts := w.contexts[c := Context(session, stream, true, false, None, None, None)],
                   streams := w.streams[stream := c],
                   sessionStreams := w.sessionStreams[session := stream]))
    case Operate(session, stream) =>
      if stream !in w.streams || w.streams[stream] !in w.contexts then None
      else
        var c := w.streams[stream];
        var context := w.contexts[c];
        if !context.active || context.session != session || context.operationInFlight then None
        else Some(At(Put(w, c, context.(operationInFlight := true)), c, AwaitWorker))
    case WorkerAnswers(c, events) =>
      if c !in w.contexts || c !in w.operations || !w.operations[c].AwaitWorker? then None
      else if !IsCurrent(w, c) then Some(Finish(Taken(w, c), c))
      else Some(At(Taken(w, c), c, Applying(events, false)))
    case WorkerRejects(c) =>
      if c !in w.contexts || c !in w.operations || !w.operations[c].AwaitWorker? then None else Some(Finish(Taken(w, c), c))
    case Resume(c, u, succeeds) =>
      if c !in w.contexts || c !in w.operations || w.operations[c].AwaitWorker? || u in w.utterances then None
      else Some(Resumed(Taken(w, c), c, w.operations[c], u, succeeds))
    case CancelStream(session, stream) =>
      if stream !in w.streams || w.streams[stream] !in w.contexts || w.contexts[w.streams[stream]].session != session then None
      else Some(Revoke(w, w.streams[stream]))
    case CancelSession(session) =>
      if session !in w.sessionStreams then None
      else
        var stream := w.sessionStreams[session];
        if stream !in w.streams || w.streams[stream] !in w.contexts || w.contexts[w.streams[stream]].session != session
        then Some(w.(sessionStreams := w.sessionStreams - {session}))
        else Some(Revoke(w, w.streams[stream]))
    case Expire(c) =>
      if c !in w.contexts || !IsCurrent(w, c) || w.contexts[c].operationInFlight then None else Some(Revoke(w, c))
    case BeginShutdown(order) =>
      if !ListsStreams(w, order) then None
      else if order == [] then Some(w)
      else Some(Revoke(w, order[0]).(shutdowns := w.shutdowns + [Closing(ToDiscard(w, order[0]), order[1..])]))
    case ShutdownNext(k) =>
      if k >= |w.shutdowns| || w.shutdowns[k].rest == [] || w.shutdowns[k].rest[0] !in w.contexts then None
      else if w.shutdowns[k].awaited.Some? && IsCapturing(w, w.shutdowns[k].awaited.value) then None
      else
        var c, later := w.shutdowns[k].rest[0], w.shutdowns[k].rest[1..];
        Some(Revoke(w, c).(shutdowns := w.shutdowns[k := Closing(ToDiscard(w, c), later)]))
    case RunDiscard(u) =>
      if u !in w.discardQueue then None else Some(Discard(w, u).(discardQueue := w.discardQueue - multiset{u}))
    case EndSession(session) => Some(w.(ended := w.ended + {session}))
  }

  const Init := World({}, map[], map[], map[], map[], map[], multiset{}, [], multiset{}, multiset{}, multiset{}, map[])

  // ---- The invariant ----

  // The two maps are mutually inverse, and a context is active exactly while it is bound.
  ghost predicate BindingInv(w: World) {
    && (forall stream :: stream in w.streams ==>
          && w.streams[stream] in w.contexts
          && w.contexts[w.streams[stream]].stream == stream
          && w.contexts[w.streams[stream]].session in w.sessionStreams
          && w.sessionStreams[w.contexts[w.streams[stream]].session] == stream)
    && (forall session :: session in w.sessionStreams ==>
          && w.sessionStreams[session] in w.streams
          && w.contexts[w.streams[w.sessionStreams[session]]].session == session)
    && (forall c :: c in w.contexts ==>
          (w.contexts[c].active <==> w.contexts[c].stream in w.streams && w.streams[w.contexts[c].stream] == c))
  }

  predicate Awaits(w: World, c: ContextId, u: UtteranceId) {
    c in w.operations && w.operations[c].Begun? && w.operations[c].utterance == u
  }

  predicate AboutToDiscard(w: World, c: ContextId, u: UtteranceId) {
    c in w.operations && w.operations[c].Discarding? && w.operations[c].utterance == u
  }

  // A capturing utterance is never left alone: its context is bound, or something under way will see it.
  predicate LookedAfter(w: World, u: UtteranceId)
    requires u in w.utterances && w.utterances[u].owner in w.contexts
  {
    var c := w.utterances[u].owner;
    w.contexts[c].active || u in w.discardQueue || Awaits(w, c, u) || AboutToDiscard(w, c, u)
  }

  ghost predicate UtteranceInv(w: World, u: UtteranceId) {
    if u !in w.utterances then w.discards[u] == 0 && w.finalizes[u] == 0
    else
      var utterance := w.utterances[u];
      var c := utterance.owner;
      && c in w.contexts
      && (w.contexts[c].utterance == Some(u) || (w.contexts[c].utterance == None && Awaits(w, c, u)))
      && w.discards[u] == (if utterance.status.Discarded? then 1 else 0)
      && w.finalizes[u] == (if utterance.status.Finalized? then 1 else 0)
      && (utterance.status.Capturing? ==> LookedAfter(w, u))
  }

  // How many commits a context has made or is about to make.
  function CommitsDue(w: World, c: ContextId): nat {
    w.commits[c] + if c in w.operations && w.operations[c].Committing? then 1 else 0
  }

  predicate HasFinalized(w: World, c: ContextId) {
    && c in w.contexts && w.contexts[c].utterance.Some? && w.contexts[c].utterance.value in w.utterances
    && w.utterances[w.contexts[c].utterance.value].status.Finalized?
  }

  ghost predicate ContextInv(w: World, c: ContextId) {
    && (c in w.operations ==> c in w.contexts && w.contexts[c].operationInFlight)
    && CommitsDue(w, c) <= (if HasFinalized(w, c) then 1 else 0)
    && (c in w.contexts && w.contexts[c].utterance.Some? ==>
          var u := w.contexts[c].utterance.value; u in w.utterances && w.utterances[u].owner == c)
    && (c in w.operations && (w.operations[c].Beginning? || w.operations[c].Begun?) ==> w.contexts[c].utterance == None)
    && (c in w.operations && w.operations[c].Begun? ==>
          var u := w.operations[c].utterance; u in w.utterances && w.utterances[u].owner == c)
    && (c in w.operations && (w.operations[c].Finalizing? || w.operations[c].Discarding?) ==>
          w.contexts[c].utterance == Some(w.operations[c].utterance))
    && (c in w.operations && w.operations[c].Committed? ==> w.commits[c] > 0)
  }

  // What every run keeps.
  ghost predicate Core(w: World) {
    && |w.streams| <= MAX_CONCURRENT_STREAMS
    && (forall u :: UtteranceInv(w, u))
    && (forall c :: ContextInv(w, c))
  }

  // With `bound`, what undisputed runs keep as well.
  ghost predicate Inv(w: World, bound: bool) {
    Core(w) && (bound ==> BindingInv(w))
  }

  // ---- Bindings under release ----

  // Whether releasing c leaves the maps mutually inverse, in terms of the maps alone.
  predicate SafeToRelease(w: World, c: ContextId)
    requires c in w.contexts
  {
    IsCurrent(w, c)
    || !(w.contexts[c].session in w.sessionStreams && w.sessionStreams[w.contexts[c].session] == w.contexts[c].stream)
  }

  lemma ActiveIsCurrent(w: World, c: ContextId)
    requires BindingInv(w) && c in w.contexts
    ensures w.contexts[c].active <==> IsCurrent(w, c)
  {
  }

  lemma DeactivatedKeepsBinding(w: World, c: ContextId)
    requires BindingInv(w) && c in w.contexts && SafeToRelease(w, c)
    ensures BindingInv(Deactivated(w, c)) && !Deactivated(w, c).contexts[c].active
  {
    ActiveIsCurrent(w, c);
  }

  lemma SmallerMap<K, V>(a: map<K, V>, b: map<K, V>)
    requires a.Keys <= b.Keys
    ensures |a| <= |b|
  {
    SmallerSet(a.Keys, b.Keys);
    assert |a.Keys| == |a| && |b.Keys| == |b|;
  }

  lemma {:induction false} SmallerSet<T>(a: set<T>, b: set<T>)
    requires a <= b
    ensures |a| <= |b|
    decreases a
  {
    if a != {} {
      var x :| x in a;
      SmallerSet(a - {x}, b - {x});
    }
  }

  // ---- The pieces an operation is made of keep the invariant ----

  // The operation of c is in hand: nothing of it is stored.
  ghost predicate InHand(w: World, c: ContextId, bound: bool) {
    Inv(w, bound) && c in w.contexts && w.contexts[c].operationInFlight && c !in w.operations
  }

  predicate Storable(w: World, c: ContextId, stage: Stage)
    requires c in w.contexts
  {
    match stage
    case AwaitWorker => true
    case Applying(_, _) => true
    case Beginning(_, _, _) => w.contexts[c].utterance == None
    case Begun(_, _, _, _) => false
    case Discarding(u, _) => w.contexts[c].utterance == Some(u)
    case Finalizing(u, _, _, _) => w.contexts[c].utterance == Some(u)
    case Committing(_, _) => w.commits[c] == 0 && HasFinalized(w, c)
    case Committed(_, _) => w.commits[c] > 0
  }

  lemma AtKeeps(w: World, c: ContextId, stage: Stage, bound: bool)
    requires InHand(w, c, bound) && Storable(w, c, stage)
    ensures Inv(At(w, c, stage), bound)
  {
    var n := At(w, c, stage);
    forall o ensures ContextInv(n, o) { assert ContextInv(w, o); }
    forall u ensures UtteranceInv(n, u) { assert UtteranceInv(w, u); }
  }

  lemma FinishKeeps(w: World, c: ContextId, bound: bool)
    requires InHand(w, c, bound)
    ensures Inv(Finish(w, c), bound)
  {
    var n := Finish(w, c);
    forall o ensures ContextInv(n, o) { assert ContextInv(w, o); }
    forall u ensures UtteranceInv(n, u) { assert UtteranceInv(w, u); }
  }

  lemma DeactivatedKeeps(w: World, c: ContextId, bound: bool)
    requires Inv(w, bound) && c in w.contexts && (bound ==> SafeToRelease(w, c))
    requires ToDiscard(w, c).Some? ==> ToDiscard(w, c).value in w.discardQueue
    ensures Inv(Deactivated(w, c), bound)
    ensures Deactivated(w, c).contexts[c] == w.contexts[c].(active := false)
    ensures Deactivated(w, c).operations == w.operations
  {
    var n := Deactivated(w, c);
    if bound { DeactivatedKeepsBinding(w, c); }
    SmallerMap(n.streams, w.streams);
    forall o ensures ContextInv(n, o) { assert ContextInv(w, o); }
    forall u ensures UtteranceInv(n, u) { assert UtteranceInv(w, u); }
  }

  lemma TerminateKeeps(w: World, c: ContextId, bound: bool)
    requires InHand(w, c, bound) && ToDiscard(w, c).None?
    ensures InHand(Terminate(w, c), c, bound)
  {
    if w.contexts[c].active {
      if bound { ActiveIsCurrent(w, c); }
      DeactivatedKeeps(w, c, bound);
    }
  }

  lemma ContinueKeeps(w: World, c: ContextId, next: Sequel, bound: bool)
    requires InHand(w, c, bound) && ToDiscard(w, c).None?
    ensures Inv(Continue(w, c, next), bound)
  {
    TerminateKeeps(w, c, bound);
    match next
    case Stop => FinishKeeps(w, c, bound);
    case TerminateAndStop => FinishKeeps(Terminate(w, c), c, bound);
    case TerminateAndGoOn(rest, onset) => AtKeeps(Terminate(w, c), c, Applying(rest, onset), bound);
  }

  lemma DiscardThenKeeps(w: World, c: ContextId, next: Sequel, bound: bool)
    requires InHand(w, c, bound)
    ensures Inv(DiscardThen(w, c, next), bound)
  {
    var u := ToDiscard(w, c);
    if u.Some? { AtKeeps(w, c, Discarding(u.value, next), bound); } else { ContinueKeeps(w, c, next, bound); }
  }

  lemma ThrowKeeps(w: World, c: ContextId, onset: bool, bound: bool)
    requires InHand(w, c, bound)
    ensures Inv(Throw(w, c, onset), bound)
  {
    DiscardThenKeeps(w, c, TerminateAndStop, bound);
    FinishKeeps(w, c, bound);
  }

  lemma RecordBasisKeeps(w: World, c: ContextId, basis: BasisId, bound: bool)
    requires InHand(w, c, bound)
    ensures InHand(Put(w, c, w.contexts[c].(finalizedBasis := Some(basis))), c, bound)
  {
    var n := Put(w, c, w.contexts[c].(finalizedBasis := Some(basis)));
    forall o ensures ContextInv(n, o) { assert ContextInv(w, o); }
    forall u ensures UtteranceInv(n, u) { assert UtteranceInv(w, u); }
  }

  lemma ApplyKeeps(w: World, c: ContextId, rest: seq<WorkerEvent>, onset: bool, bound: bool)
    requires InHand(w, c, bound)
    ensures Inv(Apply(w, c, rest, onset), bound)
  {
    if rest == [] || !IsCurrent(w, c) {
      FinishKeeps(w, c, bound);
    } else if !rest[0].bound {
      ThrowKeeps(w, c, onset, bound);
    } else if rest[0].SpeechStarted? {
      ThrowKeeps(w, c, onset, bound);
      AtKeeps(w, c, Applying(rest[1..], onset), bound);
      ApplyOnsetKeeps(w, c, rest[0].worker, rest[1..], onset, bound);
    } else if rest[0].UtteranceFinalized? {
      ApplyFinalizedKeeps(w, c, rest, onset, bound);
    } else if rest[0].TranscriptCandidate? {
      ApplyCandidateKeeps(w, c, rest, onset, bound);
    } else {
      ThrowKeeps(w, c, onset, bound);
      DiscardThenKeeps(w, c, TerminateAndGoOn(rest[1..], onset), bound);
    }
  }

  lemma ApplyFinalizedKeeps(w: World, c: ContextId, rest: seq<WorkerEvent>, onset: bool, bound: bool)
    requires InHand(w, c, bound) && rest != [] && IsCurrent(w, c) && rest[0].bound && rest[0].UtteranceFinalized?
    ensures Inv(Apply(w, c, rest, onset), bound)
  {
    if !BoundUtterance(w.contexts[c], rest[0].worker) || !rest[0].vouched {
      ThrowKeeps(w, c, onset, bound);
    } else {
      RecordBasisKeeps(w, c, rest[0].basis, bound);
      AtKeeps(Put(w, c, w.contexts[c].(finalizedBasis := Some(rest[0].basis))), c, Applying(rest[1..], onset), bound);
    }
  }

  lemma ApplyCandidateKeeps(w: World, c: ContextId, rest: seq<WorkerEvent>, onset: bool, bound: bool)
    requires InHand(w, c, bound) && rest != [] && IsCurrent(w, c) && rest[0].bound && rest[0].TranscriptCandidate?
    ensures Inv(Apply(w, c, rest, onset), bound)
  {
    if !BoundUtterance(w.contexts[c], rest[0].worker) || w.contexts[c].finalizedBasis != Some(rest[0].basis) {
      ThrowKeeps(w, c, onset, bound);
    } else if rest[0].blank {
      DiscardThenKeeps(w, c, TerminateAndGoOn(rest[1..], onset), bound);
    } else {
      AtKeeps(w, c, Finalizing(w.contexts[c].utterance.value, rest[0], rest[1..], onset), bound);
    }
  }

  lemma ApplyOnsetKeeps(w: World, c: ContextId, worker: nat, later: seq<WorkerEvent>, onset: bool, bound: bool)
    requires InHand(w, c, bound)
    ensures w.contexts[c].utterance.None? ==> Inv(At(w, c, Beginning(worker, later, onset)), bound) && Inv(Finish(Terminate(w, c), c), bound)
  {
    if w.contexts[c].utterance.None? {
      AtKeeps(w, c, Beginning(worker, later, onset), bound);
      TerminateKeeps(w, c, bound);
      FinishKeeps(Terminate(w, c), c, bound);
    }
  }

  // ---- Resuming an operation ----

  predicate HoldsUtterance(stage: Stage) {
    stage.Begun? || stage.Discarding?
  }

  lemma TakenKeeps(w: World, c: ContextId, bound: bool)
    requires Inv(w, bound) && c in w.operations && !HoldsUtterance(w.operations[c])
    ensures InHand(Taken(w, c), c, bound)
  {
    var n := Taken(w, c);
    assert ContextInv(w, c);
    forall o ensures ContextInv(n, o) { assert ContextInv(w, o); }
    forall u ensures UtteranceInv(n, u) { assert UtteranceInv(w, u); }
  }

  lemma BeginningKeeps(w: World, c: ContextId, unused: UtteranceId, succeeds: bool, bound: bool)
    requires Inv(w, bound) && c in w.contexts && c in w.operations && w.operations[c].Beginning? && unused !in w.utterances
    ensures Inv(Resumed(Taken(w, c), c, w.operations[c], unused, succeeds), bound)
  {
    TakenKeeps(w, c, bound);
    var stage := w.operations[c];
    if w.contexts[c].session in w.ended {
      ThrowKeeps(Taken(w, c), c, stage.onset, bound);
    } else {
      var n := BegunBy(w, c, unused);
      forall o ensures ContextInv(n, o) { BegunKeepsContext(w, c, unused, o); }
      forall u ensures UtteranceInv(n, u) { BegunKeepsUtterance(w, c, unused, u); }
    }
  }

  // beginUtterance has answered with a new id.
  function BegunBy(w: World, c: ContextId, u: UtteranceId): World
    requires c in w.operations && w.operations[c].Beginning?
  {
    var stage := w.operations[c];
    At(Taken(w, c).(utterances := w.utterances[u := Utterance(c, Capturing)]), c, Begun(u, stage.worker, stage.rest, stage.onset))
  }

  lemma BegunKeepsContext(w: World, c: ContextId, u: UtteranceId, o: ContextId)
    requires ContextInv(w, c) && ContextInv(w, o)
    requires c in w.contexts && c in w.operations && w.operations[c].Beginning? && u !in w.utterances
    ensures ContextInv(BegunBy(w, c, u), o)
  {
  }

  lemma BegunKeepsUtterance(w: World, c: ContextId, u: UtteranceId, o: UtteranceId)
    requires ContextInv(w, c) && UtteranceInv(w, u) && UtteranceInv(w, o)
    requires c in w.contexts && c in w.operations && w.operations[c].Beginning? && u !in w.utterances
    ensures UtteranceInv(BegunBy(w, c, u), o)
  {
  }

  // The context of a begun utterance once its operation has noted the ids.
  function Noted(w: World, c: ContextId): World
    requires c in w.contexts && c in w.operations && w.operations[c].Begun?
  {
    var stage := w.operations[c];
    Put(Taken(w, c), c, w.contexts[c].(workerUtterance := Some(stage.worker), utterance := Some(stage.utterance)))
  }

  lemma NotedKeeps(w: World, c: ContextId, bound: bool)
    requires Inv(w, bound) && c in w.contexts && c in w.operations && w.operations[c].Begun?
    requires w.contexts[c].active || !IsCapturing(w, w.operations[c].utterance)
    ensures InHand(Noted(w, c), c, bound)
  {
    var n := Noted(w, c);
    assert ContextInv(w, c);
    forall o ensures ContextInv(n, o) { assert ContextInv(w, o); }
    forall u ensures UtteranceInv(n, u) { assert UtteranceInv(w, u); }
  }

  lemma NotedThenDiscarding(w: World, c: ContextId, bound: bool)
    requires Inv(w, bound) && c in w.contexts && c in w.operations && w.operations[c].Begun?
    ensures Inv(At(Noted(w, c), c, Discarding(w.operations[c].utterance, Stop)), bound)
  {
    var n := At(Noted(w, c), c, Discarding(w.operations[c].utterance, Stop));
    assert ContextInv(w, c);
    forall o ensures ContextInv(n, o) { assert ContextInv(w, o); }
    forall u ensures UtteranceInv(n, u) { assert UtteranceInv(w, u); }
  }

  lemma BegunKeeps(w: World, c: ContextId, unused: UtteranceId, succeeds: bool, bound: bool)
    requires Inv(w, bound) && c in w.contexts && c in w.operations && w.operations[c].Begun? && unused !in w.utterances
    ensures Inv(Resumed(Taken(w, c), c, w.operations[c], unused, succeeds), bound)
  {
    var u := w.operations[c].utterance;
    assert ContextInv(w, c);
    if IsCurrent(Noted(w, c), c) {
      NotedKeeps(w, c, bound);
      AtKeeps(Noted(w, c), c, Applying(w.operations[c].rest, true), bound);
    } else if IsCapturing(w, u) {
      NotedThenDiscarding(w, c, bound);
      assert ToDiscard(Noted(w, c), c) == Some(u);
    } else {
      NotedKeeps(w, c, bound);
      DiscardThenKeeps(Noted(w, c), c, Stop, bound);
    }
  }

  lemma DiscardingKeeps(w: World, c: ContextId, unused: UtteranceId, succeeds: bool, bound: bool)
    requires Inv(w, bound) && c in w.contexts && c in w.operations && w.operations[c].Discarding? && unused !in w.utterances
    ensures Inv(Resumed(Taken(w, c), c, w.operations[c], unused, succeeds), bound)
  {
    var stage := w.operations[c];
    assert ContextInv(w, c) && UtteranceInv(w, stage.utterance);
    var n := Discard(Taken(w, c), stage.utterance);
    forall o ensures ContextInv(n, o) { DiscardedKeepsContext(w, c, o); }
    forall u ensures UtteranceInv(n, u) { assert UtteranceInv(w, u); }
    ContinueKeeps(n, c, stage.next, bound);
  }

  lemma DiscardedKeepsContext(w: World, c: ContextId, o: ContextId)
    requires c in w.contexts && c in w.operations && w.operations[c].Discarding?
    requires ContextInv(w, c) && ContextInv(w, o) && UtteranceInv(w, w.operations[c].utterance)
    ensures ContextInv(Discard(Taken(w, c), w.operations[c].utterance), o)
  {
  }

  lemma FinalizedKeeps(w: World, c: ContextId, bound: bool)
    requires Inv(w, bound) && c in w.contexts && c in w.operations && w.operations[c].Finalizing?
    requires IsCapturing(w, w.operations[c].utterance)
    ensures Inv(FinalizedBy(w, c), bound)
  {
    var m := FinalizedBy(w, c);
    assert ContextInv(w, c);
    forall o ensures ContextInv(m, o) { FinalizedKeepsContext(w, c, o); }
    forall o ensures UtteranceInv(m, o) { FinalizedKeepsUtterance(w, c, o); }
  }

  // finalizeUtterance has succeeded.
  function FinalizedBy(w: World, c: ContextId): World
    requires c in w.contexts && c in w.operations && w.operations[c].Finalizing? && w.operations[c].utterance in w.utterances
  {
    var stage := w.operations[c];
    var u := stage.utterance;
    At(Taken(w, c).(utterances := w.utterances[u := w.utterances[u].(status := Finalized)],
                    finalizes := w.finalizes + multiset{u},
                    transcripts := w.transcripts[u := Transcript(w.contexts[c], stage.candidate)]),
       c, Committing(stage.rest, stage.onset))
  }

  lemma FinalizedKeepsContext(w: World, c: ContextId, o: ContextId)
    requires c in w.contexts && c in w.operations && w.operations[c].Finalizing? && IsCapturing(w, w.operations[c].utterance)
    requires ContextInv(w, c) && ContextInv(w, o) && UtteranceInv(w, w.operations[c].utterance)
    ensures ContextInv(FinalizedBy(w, c), o)
  {
    assert HasFinalized(w, o) ==> HasFinalized(FinalizedBy(w, c), o);
  }

  lemma FinalizedKeepsUtterance(w: World, c: ContextId, o: UtteranceId)
    requires c in w.contexts && c in w.operations && w.operations[c].Finalizing? && IsCapturing(w, w.operations[c].utterance)
    requires ContextInv(w, c) && UtteranceInv(w, w.operations[c].utterance) && UtteranceInv(w, o)
    ensures UtteranceInv(FinalizedBy(w, c), o)
  {
  }

  lemma FinalizingKeeps(w: World, c: ContextId, unused: UtteranceId, succeeds: bool, bound: bool)
    requires Inv(w, bound) && c in w.contexts && c in w.operations && w.operations[c].Finalizing? && unused !in w.utterances
    ensures Inv(Resumed(Taken(w, c), c, w.operations[c], unused, succeeds), bound)
  {
    TakenKeeps(w, c, bound);
    var stage := w.operations[c];
    assert ContextInv(w, c) && UtteranceInv(w, stage.utterance);
    if w.contexts[c].session in w.ended || !IsCapturing(w, stage.utterance) {
      ThrowKeeps(Taken(w, c), c, stage.onset, bound);
    } else {
      FinalizedKeeps(w, c, bound);
    }
  }

  lemma CommittingKeeps(w: World, c: ContextId, unused: UtteranceId, succeeds: bool, bound: bool)
    requires Inv(w, bound) && c in w.contexts && c in w.operations && w.operations[c].Committing? && unused !in w.utterances
    ensures Inv(Resumed(Taken(w, c), c, w.operations[c], unused, succeeds), bound)
  {
    TakenKeeps(w, c, bound);
    var stage := w.operations[c];
    assert ContextInv(w, c);
    if succeeds {
      var n := Taken(w, c).(commits := w.commits + multiset{c});
      forall o ensures ContextInv(n, o) { assert ContextInv(w, o); }
      forall u ensures UtteranceInv(n, u) { assert UtteranceInv(w, u); }
      AtKeeps(n, c, Committed(stage.rest, stage.onset), bound);
    } else {
      ThrowKeeps(Taken(w, c), c, stage.onset, bound);
    }
  }

  lemma CommittedKeeps(w: World, c: ContextId, unused: UtteranceId, succeeds: bool, bound: bool)
    requires Inv(w, bound) && c in w.contexts && c in w.operations && w.operations[c].Committed? && unused !in w.utterances
    ensures Inv(Resumed(Taken(w, c), c, w.operations[c], unused, succeeds), bound)
  {
    TakenKeeps(w, c, bound);
    var stage := w.operations[c];
    assert ContextInv(w, c);
    TerminateKeeps(Taken(w, c), c, bound);
    AtKeeps(Terminate(Taken(w, c), c), c, Applying(stage.rest, stage.onset), bound);
  }

  lemma ResumeKeeps(w: World, c: ContextId, unused: UtteranceId, succeeds: bool, bound: bool)
    requires Inv(w, bound) && Next(w, Resume(c, unused, succeeds)).Some?
    ensures Inv(Next(w, Resume(c, unused, succeeds)).value, bound)
  {
    var stage := w.operations[c];
    if stage.Applying? {
      TakenKeeps(w, c, bound);
      ApplyKeeps(Taken(w, c), c, stage.rest, stage.onset, bound);
    } else if stage.Beginning? {
      BeginningKeeps(w, c, unused, succeeds, bound);
    } else if stage.Begun? {
      BegunKeeps(w, c, unused, succeeds, bound);
    } else if stage.Discarding? {
      DiscardingKeeps(w, c, unused, succeeds, bound);
    } else if stage.Finalizing? {
      FinalizingKeeps(w, c, unused, succeeds, bound);
    } else if stage.Committing? {
      CommittingKeeps(w, c, unused, succeeds, bound);
    } else {
      CommittedKeeps(w, c, unused, succeeds, bound);
    }
  }

  // ---- Events from outside an operation ----

  lemma QueueKeeps(w: World, u: UtteranceId, bound: bool)
    requires Inv(w, bound)
    ensures Inv(w.(discardQueue := w.discardQueue + multiset{u}), bound)
  {
    var n := w.(discardQueue := w.discardQueue + multiset{u});
    forall o ensures ContextInv(n, o) { assert ContextInv(w, o); }
    forall o ensures UtteranceInv(n, o) { assert UtteranceInv(w, o); }
  }

  lemma RevokeKeeps(w: World, c: ContextId, bound: bool)
    requires Inv(w, bound) && c in w.contexts && (bound ==> SafeToRelease(w, c))
    ensures Inv(Revoke(w, c), bound)
  {
    var u := ToDiscard(w, c);
    if u.Some? {
      QueueKeeps(w, u.value, bound);
      var queued := w.(discardQueue := w.discardQueue + multiset{u.value});
      DeactivatedKeeps(queued, c, bound);
      RevokeQueues(w, c, u.value);
    } else {
      DeactivatedKeeps(w, c, bound);
    }
  }

  // Queueing before or after the release makes no difference.
  lemma RevokeQueues(w: World, c: ContextId, u: UtteranceId)
    requires c in w.contexts && ToDiscard(w, c) == Some(u)
    ensures Revoke(w, c) == Deactivated(w.(discardQueue := w.discardQueue + multiset{u}), c)
  {
  }

  lemma OneMore<K, V>(m: map<K, V>, key: K, value: V)
    requires key !in m
    ensures |m[key := value]| == |m| + 1
  {
    assert m[key := value].Keys == m.Keys + {key};
    assert |m[key := value].Keys| == |m[key := value]| && |m.Keys| == |m|;
  }

  lemma OpenKeepsBinding(w: World, session: SessionId, stream: StreamId, c: ContextId)
    requires BindingInv(w) && Next(w, Open(session, stream, c)).Some?
    ensures BindingInv(Next(w, Open(session, stream, c)).value)
  {
  }

  lemma OpenKeeps(w: World, session: SessionId, stream: StreamId, c: ContextId, bound: bool)
    requires Inv(w, bound) && Next(w, Open(session, stream, c)).Some?
    ensures Inv(Next(w, Open(session, stream, c)).value, bound)
  {
    var n := Next(w, Open(session, stream, c)).value;
    if bound { OpenKeepsBinding(w, session, stream, c); }
    OneMore(w.streams, stream, c);
    assert ContextInv(w, c);
    forall o ensures ContextInv(n, o) { assert ContextInv(w, o); }
    forall u ensures UtteranceInv(n, u) { assert UtteranceInv(w, u); }
  }

  lemma OperateKeeps(w: World, e: Event, bound: bool)
    requires Inv(w, bound) && e.Operate? && Next(w, e).Some?
    ensures Inv(Next(w, e).value, bound)
    ensures w.streams[e.stream] !in w.operations
  {
    var c := w.streams[e.stream];
    assert ContextInv(w, c);
    var n := Put(w, c, w.contexts[c].(operationInFlight := true));
    forall o ensures ContextInv(n, o) { assert ContextInv(w, o); }
    forall u ensures UtteranceInv(n, u) { assert UtteranceInv(w, u); }
    AtKeeps(n, c, AwaitWorker, bound);
  }

  lemma DiscardKeeps(w: World, u: UtteranceId, bound: bool)
    requires Inv(w, bound)
    ensures Inv(Discard(w, u), bound) && !IsCapturing(Discard(w, u), u)
  {
    var n := Discard(w, u);
    assert UtteranceInv(w, u);
    forall o ensures ContextInv(n, o) { assert ContextInv(w, o); }
    forall o ensures UtteranceInv(n, o) { assert UtteranceInv(w, o); }
  }

  lemma DequeueKeeps(w: World, u: UtteranceId, bound: bool)
    requires Inv(w, bound) && !IsCapturing(w, u)
    ensures Inv(w.(discardQueue := w.discardQueue - multiset{u}), bound)
  {
    var n := w.(discardQueue := w.discardQueue - multiset{u});
    forall o ensures ContextInv(n, o) { assert ContextInv(w, o); }
    forall o ensures UtteranceInv(n, o) { assert UtteranceInv(w, o); }
  }

  lemma RunDiscardKeeps(w: World, u: UtteranceId, bound: bool)
    requires Inv(w, bound) && u in w.discardQueue
    ensures Inv(Next(w, RunDiscard(u)).value, bound)
  {
    DiscardKeeps(w, u, bound);
    DequeueKeeps(Discard(w, u), u, bound);
  }

  lemma HalfRemovedKeeps(w: World, bindings: map<SessionId, StreamId>)
    requires Core(w)
    ensures Core(w.(sessionStreams := bindings))
  {
    var n := w.(sessionStreams := bindings);
    forall o ensures ContextInv(n, o) { assert ContextInv(w, o); }
    forall u ensures UtteranceInv(n, u) { assert UtteranceInv(w, u); }
  }

  lemma CancelSessionKeeps(w: World, session: SessionId, bound: bool)
    requires Inv(w, bound) && Next(w, CancelSession(session)).Some?
    ensures Inv(Next(w, CancelSession(session)).value, bound)
  {
    var stream := w.sessionStreams[session];
    if stream in w.streams && w.streams[stream] in w.contexts && w.contexts[w.streams[stream]].session == session {
      if bound { ActiveIsCurrent(w, w.streams[stream]); }
      RevokeKeeps(w, w.streams[stream], bound);
    } else {
      HalfRemovedKeeps(w, w.sessionStreams - {session});
    }
  }

  lemma ShutdownKeeps(w: World, e: Event, bound: bool)
    requires Inv(w, bound) && (e.BeginShutdown? || e.ShutdownNext?) && (bound ==> Undisputed(w, e)) && Next(w, e).Some?
    ensures Inv(Next(w, e).value, bound)
  {
    var n := Next(w, e).value;
    if e.ShutdownNext? {
      RevokeKeeps(w, w.shutdowns[e.k].rest[0], bound);
      IgnoredFieldsKeep(Revoke(w, w.shutdowns[e.k].rest[0]), n, bound);
    } else if e.order != [] {
      if bound { ActiveIsCurrent(w, e.order[0]); }
      RevokeKeeps(w, e.order[0], bound);
      IgnoredFieldsKeep(Revoke(w, e.order[0]), n, bound);
    }
  }

  // A shutdown visits no context whose stream id the same session has bound again since.
  predicate Undisputed(w: World, e: Event) {
    && e.ShutdownNext? && e.k < |w.shutdowns| && w.shutdowns[e.k].rest != []
    && w.shutdowns[e.k].rest[0] in w.contexts
    ==> SafeToRelease(w, w.shutdowns[e.k].rest[0])
  }

  // Core whatever happens, the bindings as well under an undisputed event.
  lemma StepKeepsInv(w: World, e: Event, bound: bool)
    requires Inv(w, bound) && (bound ==> Undisputed(w, e)) && Next(w, e).Some?
    ensures Inv(Next(w, e).value, bound)
  {
    var n := Next(w, e).value;
    if e.Open? {
      OpenKeeps(w, e.session, e.stream, e.context, bound);
    } else if e.Operate? {
      OperateKeeps(w, e, bound);
    } else if e.WorkerAnswers? {
      TakenKeeps(w, e.context, bound);
      FinishKeeps(Taken(w, e.context), e.context, bound);
      AtKeeps(Taken(w, e.context), e.context, Applying(e.events, false), bound);
    } else if e.WorkerRejects? {
      TakenKeeps(w, e.context, bound);
      FinishKeeps(Taken(w, e.context), e.context, bound);
    } else if e.Resume? {
      ResumeKeeps(w, e.context, e.utterance, e.succeeds, bound);
    } else if e.CancelStream? {
      if bound { ActiveIsCurrent(w, w.streams[e.stream]); }
      RevokeKeeps(w, w.streams[e.stream], bound);
    } else if e.CancelSession? {
      CancelSessionKeeps(w, e.session, bound);
    } else if e.Expire? {
      RevokeKeeps(w, e.context, bound);
    } else if e.BeginShutdown? || e.ShutdownNext? {
      ShutdownKeeps(w, e, bound);
    } else if e.RunDiscard? {
      RunDiscardKeeps(w, e.utterance, bound);
    } else {
      IgnoredFieldsKeep(w, n, bound);
    }
  }

  lemma IgnoredFieldsKeep(w: World, n: World, bound: bool)
    requires Inv(w, bound) && n == w.(shutdowns := n.shutdowns, ended := n.ended)
    ensures Inv(n, bound)
  {
    forall o ensures ContextInv(n, o) { assert ContextInv(w, o); }
    forall u ensures UtteranceInv(n, u) { assert UtteranceInv(w, u); }
  }

  // ---- Runs ----

  predicate Reaches(w: World, events: seq<Event>, n: World)
    decreases events
  {
    if events == [] then n == w
    else Next(w, events[0]).Some? && Reaches(Next(w, events[0]).value, events[1..], n)
  }

  // No shutdown visit along the way is disputed.
  predicate UndisputedRun(w: World, events: seq<Event>)
    decreases events
  {
    events != [] ==> Undisputed(w, events[0]) && (Next(w, events[0]).Some? ==> UndisputedRun(Next(w, events[0]).value, events[1..]))
  }

  lemma {:induction false} RunKeepsInv(w: World, events: seq<Event>, n: World, bound: bool)
    requires Inv(w, bound) && Reaches(w, events, n) && (bound ==> UndisputedRun(w, events))
    ensures Inv(n, bound)
    decreases events
  {
    if events != [] {
      StepKeepsInv(w, events[0], bound);
      RunKeepsInv(Next(w, events[0]).value, events[1..], n, bound);
    }
  }

  lemma ReachableInv(events: seq<Event>, w: World, bound: bool)
    requires Reaches(Init, events, w) && (bound ==> UndisputedRun(Init, events))
    ensures Inv(w, bound)
  {
    assert forall o :: ContextInv(Init, o);
    assert forall u :: UtteranceInv(Init, u);
    RunKeepsInv(Init, events, w, bound);
  }

  // ---- What utterances are finalized with ----

  predicate Names(context: Context, candidate: WorkerEvent) {
    && candidate.TranscriptCandidate? && candidate.bound && !candidate.blank
    && context.workerUtterance == Some(candidate.worker) && context.finalizedBasis == Some(candidate.basis)
  }

  ghost predicate TranscriptInv(w: World) {
    && (forall u :: w.finalizes[u] > 0 ==>
          && u in w.transcripts && w.transcripts[u].context.utterance == Some(u)
          && Names(w.transcripts[u].context, w.transcripts[u].candidate))
    && (forall c :: c in w.operations && w.operations[c].Finalizing? ==>
          c in w.contexts && Names(w.contexts[c], w.operations[c].candidate))
  }

  // Nothing was finalized, other operations stay, and no context changes what it names.
  ghost predicate Unheard(w: World, n: World, c: ContextId) {
    && n.finalizes == w.finalizes && n.transcripts == w.transcripts
    && (forall o :: o != c && o in n.operations ==> o in w.operations && n.operations[o] == w.operations[o])
    && (forall o :: o != c && o in w.contexts ==>
          && o in n.contexts && n.contexts[o].workerUtterance == w.contexts[o].workerUtterance
          && n.contexts[o].finalizedBasis == w.contexts[o].finalizedBasis)
    && (c in n.operations && n.operations[c].Finalizing? ==> c in n.contexts && Names(n.contexts[c], n.operations[c].candidate))
  }

  lemma UnheardKeeps(w: World, n: World, c: ContextId)
    requires TranscriptInv(w) && Unheard(w, n, c)
    ensures TranscriptInv(n)
  {
  }

  lemma UnheardTwice(a: World, b: World, n: World, c: ContextId)
    requires Unheard(a, b, c) && Unheard(b, n, c)
    ensures Unheard(a, n, c)
  {
  }

  lemma TerminateIsUnheard(w: World, c: ContextId)
    requires c in w.contexts && c !in w.operations
    ensures Unheard(w, Terminate(w, c), c) && c !in Terminate(w, c).operations && c in Terminate(w, c).contexts
  {
  }

  lemma FinishIsUnheard(w: World, c: ContextId)
    requires c in w.contexts && c !in w.operations
    ensures Unheard(w, Finish(w, c), c)
  {
  }

  lemma AtIsUnheard(w: World, c: ContextId, stage: Stage)
    requires c in w.contexts && (stage.Finalizing? ==> Names(w.contexts[c], stage.candidate))
    ensures Unheard(w, At(w, c, stage), c)
  {
  }

  lemma PutIsUnheard(w: World, c: ContextId, context: Context)
    requires c in w.contexts && c !in w.operations
    ensures Unheard(w, Put(w, c, context), c)
  {
  }

  lemma ContinueIsUnheard(w: World, c: ContextId, next: Sequel)
    requires c in w.contexts && c !in w.operations
    ensures Unheard(w, Continue(w, c, next), c)
  {
    var ended := Terminate(w, c);
    TerminateIsUnheard(w, c);
    match next
    case Stop => FinishIsUnheard(w, c);
    case TerminateAndStop =>
      FinishIsUnheard(ended, c);
      UnheardTwice(w, ended, Finish(ended, c), c);
    case TerminateAndGoOn(rest, onset) =>
      AtIsUnheard(ended, c, Applying(rest, onset));
      UnheardTwice(w, ended, At(ended, c, Applying(rest, onset)), c);
  }

  lemma DiscardThenIsUnheard(w: World, c: ContextId, next: Sequel)
    requires c in w.contexts && c !in w.operations
    ensures Unheard(w, DiscardThen(w, c, next), c)
  {
    var u := ToDiscard(w, c);
    if u.Some? { AtIsUnheard(w, c, Discarding(u.value, next)); } else { ContinueIsUnheard(w, c, next); }
  }

  lemma ThrowIsUnheard(w: World, c: ContextId, onset: bool)
    requires c in w.contexts && c !in w.operations
    ensures Unheard(w, Throw(w, c, onset), c)
  {
    DiscardThenIsUnheard(w, c, TerminateAndStop);
    FinishIsUnheard(w, c);
  }

  lemma ApplyIsUnheard(w: World, c: ContextId, rest: seq<WorkerEvent>, onset: bool)
    requires c in w.contexts && c !in w.operations
    ensures Unheard(w, Apply(w, c, rest, onset), c)
  {
    ThrowIsUnheard(w, c, onset);
    FinishIsUnheard(w, c);
    if rest != [] && IsCurrent(w, c) && rest[0].bound {
      if rest[0].SpeechStarted? {
        AtIsUnheard(w, c, Applying(rest[1..], onset));
        AtIsUnheard(w, c, Beginning(rest[0].worker, rest[1..], onset));
        ContinueIsUnheard(w, c, TerminateAndStop);
      } else if rest[0].UtteranceFinalized? {
        var noted := Put(w, c, w.contexts[c].(finalizedBasis := Some(rest[0].basis)));
        PutIsUnheard(w, c, w.contexts[c].(finalizedBasis := Some(rest[0].basis)));
        AtIsUnheard(noted, c, Applying(rest[1..], onset));
        UnheardTwice(w, noted, At(noted, c, Applying(rest[1..], onset)), c);
      } else if rest[0].TranscriptCandidate? {
        ApplyCandidateIsUnheard(w, c, rest, onset);
      } else {
        DiscardThenIsUnheard(w, c, TerminateAndGoOn(rest[1..], onset));
      }
    }
  }

  lemma ApplyCandidateIsUnheard(w: World, c: ContextId, rest: seq<WorkerEvent>, onset: bool)
    requires c in w.contexts && c !in w.operations && rest != [] && IsCurrent(w, c) && rest[0].bound && rest[0].TranscriptCandidate?
    ensures Unheard(w, Apply(w, c, rest, onset), c)
  {
    ThrowIsUnheard(w, c, onset);
    DiscardThenIsUnheard(w, c, TerminateAndGoOn(rest[1..], onset));
    if BoundUtterance(w.contexts[c], rest[0].worker) && w.contexts[c].finalizedBasis == Some(rest[0].basis) && !rest[0].blank {
      AtIsUnheard(w, c, Finalizing(w.contexts[c].utterance.value, rest[0], rest[1..], onset));
    }
  }

  lemma TakenIsUnheard(w: World, c: ContextId)
    ensures Unheard(w, Taken(w, c), c)
  {
  }

  lemma BegunIsUnheard(w: World, c: ContextId, stage: Stage, unused: UtteranceId, succeeds: bool)
    requires c in w.contexts && unused !in w.utterances && c !in w.operations && stage.Begun?
    ensures Unheard(w, Resumed(w, c, stage, unused, succeeds), c)
  {
    var context := w.contexts[c].(workerUtterance := Some(stage.worker), utterance := Some(stage.utterance));
    var n := Put(w, c, context);
    PutIsUnheard(w, c, context);
    AtIsUnheard(n, c, Applying(stage.rest, true));
    DiscardThenIsUnheard(n, c, Stop);
    UnheardTwice(w, n, Resumed(w, c, stage, unused, succeeds), c);
  }

  lemma DiscardingIsUnheard(w: World, c: ContextId, stage: Stage, unused: UtteranceId, succeeds: bool)
    requires c in w.contexts && unused !in w.utterances && c !in w.operations && stage.Discarding?
    ensures Unheard(w, Resumed(w, c, stage, unused, succeeds), c)
  {
    var n := Discard(w, stage.utterance);
    assert Unheard(w, n, c);
    ContinueIsUnheard(n, c, stage.next);
    UnheardTwice(w, n, Continue(n, c, stage.next), c);
  }

  lemma CommittingIsUnheard(w: World, c: ContextId, stage: Stage, unused: UtteranceId, succeeds: bool)
    requires c in w.contexts && unused !in w.utterances && c !in w.operations
    requires stage.Beginning? || stage.Committing? || stage.Committed?
    ensures Unheard(w, Resumed(w, c, stage, unused, succeeds), c)
  {
    if !stage.Committed? { ThrowIsUnheard(w, c, stage.onset); }
    if stage.Committed? { ContinueIsUnheard(w, c, TerminateAndGoOn(stage.rest, stage.onset)); }
  }

  lemma ResumeKeepsTranscripts(w: World, c: ContextId, unused: UtteranceId, succeeds: bool)
    requires Core(w) && TranscriptInv(w) && Next(w, Resume(c, unused, succeeds)).Some?
    ensures TranscriptInv(Next(w, Resume(c, unused, succeeds)).value)
  {
    var n, taken, stage := Next(w, Resume(c, unused, succeeds)).value, Taken(w, c), w.operations[c];
    TakenIsUnheard(w, c);
    UnheardKeeps(w, taken, c);
    if stage.Finalizing? {
      FinalizingKeepsTranscripts(w, c, unused, succeeds);
    } else {
      if stage.Applying? {
        ApplyIsUnheard(taken, c, stage.rest, stage.onset);
      } else if stage.Begun? {
        BegunIsUnheard(taken, c, stage, unused, succeeds);
      } else if stage.Discarding? {
        DiscardingIsUnheard(taken, c, stage, unused, succeeds);
      } else {
        CommittingIsUnheard(taken, c, stage, unused, succeeds);
      }
      UnheardKeeps(taken, n, c);
    }
  }

  lemma FinalizingKeepsTranscripts(w: World, c: ContextId, unused: UtteranceId, succeeds: bool)
    requires Core(w) && TranscriptInv(w) && Next(w, Resume(c, unused, succeeds)).Some? && w.operations[c].Finalizing?
    ensures TranscriptInv(Next(w, Resume(c, unused, succeeds)).value)
  {
    var n, taken, stage := Next(w, Resume(c, unused, succeeds)).value, Taken(w, c), w.operations[c];
    if w.contexts[c].session in w.ended || !IsCapturing(w, stage.utterance) {
      assert n == Throw(taken, c, stage.onset);
      ThrowIsUnheard(taken, c, stage.onset);
      TakenIsUnheard(w, c);
      UnheardTwice(w, taken, n, c);
      UnheardKeeps(w, n, c);
    } else {
      FinalizedKeepsTranscripts(w, c);
    }
  }

  lemma FinalizedKeepsTranscripts(w: World, c: ContextId)
    requires Core(w) && TranscriptInv(w) && c in w.contexts && c in w.operations && w.operations[c].Finalizing?
    requires IsCapturing(w, w.operations[c].utterance)
    ensures TranscriptInv(FinalizedBy(w, c))
  {
    assert ContextInv(w, c);
  }

  // Revoking a context changes nothing an operation in flight goes by.
  lemma RevokeKeepsTranscripts(w: World, c: ContextId)
    requires TranscriptInv(w) && c in w.contexts
    ensures TranscriptInv(Revoke(w, c))
  {
    RevokeTouches(w, c);
  }

  lemma RevokeTouches(w: World, c: ContextId)
    requires c in w.contexts
    ensures var n := Revoke(w, c);
      n == w.(contexts := w.contexts[c := w.contexts[c].(active := false)], streams := n.streams,
              sessionStreams := n.sessionStreams, discardQueue := n.discardQueue)
  {
  }

  lemma OutsideKeepsTranscripts(w: World, e: Event)
    requires Core(w) && TranscriptInv(w) && Next(w, e).Some?
    requires e.CancelStream? || e.CancelSession? || e.Expire?
    ensures TranscriptInv(Next(w, e).value)
  {
    if e.CancelStream? {
      RevokeKeepsTranscripts(w, w.streams[e.stream]);
    } else if e.CancelSession? {
      var stream := w.sessionStreams[e.session];
      if stream in w.streams && w.streams[stream] in w.contexts { RevokeKeepsTranscripts(w, w.streams[stream]); }
    } else {
      RevokeKeepsTranscripts(w, e.context);
    }
  }

  lemma ShutdownKeepsTranscripts(w: World, e: Event)
    requires TranscriptInv(w) && Next(w, e).Some? && (e.BeginShutdown? || e.ShutdownNext?)
    ensures TranscriptInv(Next(w, e).value)
  {
    if e.ShutdownNext? {
      RevokeKeepsTranscripts(w, w.shutdowns[e.k].rest[0]);
    } else if e.order != [] {
      RevokeKeepsTranscripts(w, e.order[0]);
    }
  }

  lemma OpenKeepsTranscripts(w: World, e: Event)
    requires e.Open? && ContextInv(w, e.context) && TranscriptInv(w) && Next(w, e).Some?
    ensures TranscriptInv(Next(w, e).value)
  {
    assert e.context !in w.contexts && e.context !in w.operations;
    UnheardKeeps(w, Next(w, e).value, e.context);
  }

  lemma SameTranscripts(w: World, n: World)
    requires TranscriptInv(w) && n.operations == w.operations && n.contexts == w.contexts
    requires n.finalizes == w.finalizes && n.transcripts == w.transcripts
    ensures TranscriptInv(n)
  {
  }

  lemma DiscardTouches(w: World, u: UtteranceId)
    ensures var n := Discard(w, u); n == w.(utterances := n.utterances, discards := n.discards)
  {
  }

  lemma DiscardKeepsTranscripts(w: World, u: UtteranceId)
    requires TranscriptInv(w) && Next(w, RunDiscard(u)).Some?
    ensures TranscriptInv(Next(w, RunDiscard(u)).value)
  {
    DiscardTouches(w, u);
    var discarded := Discard(w, u);
    SameTranscripts(w, discarded.(discardQueue := w.discardQueue - multiset{u}));
  }

  lemma EndKeepsTranscripts(w: World, session: SessionId)
    requires TranscriptInv(w) && Next(w, EndSession(session)).Some?
    ensures TranscriptInv(Next(w, EndSession(session)).value)
  {
    SameTranscripts(w, Next(w, EndSession(session)).value);
  }

  lemma StepKeepsTranscripts(w: World, e: Event)
    requires Core(w) && TranscriptInv(w) && Next(w, e).Some?
    ensures TranscriptInv(Next(w, e).value)
  {
    if e.Resume? {
      ResumeKeepsTranscripts(w, e.context, e.utterance, e.succeeds);
    } else if e.Operate? || e.WorkerAnswers? || e.WorkerRejects? {
      AnswerKeepsTranscripts(w, e);
    } else if e.CancelStream? || e.CancelSession? || e.Expire? {
      OutsideKeepsTranscripts(w, e);
    } else if e.BeginShutdown? || e.ShutdownNext? {
      ShutdownKeepsTranscripts(w, e);
    } else if e.Open? {
      OpenKeepsTranscripts(w, e);
    } else if e.RunDiscard? {
      DiscardKeepsTranscripts(w, e.utterance);
    } else {
      EndKeepsTranscripts(w, e.session);
    }
  }

  lemma AnswerKeepsTranscripts(w: World, e: Event)
    requires Core(w) && TranscriptInv(w) && Next(w, e).Some? && (e.Operate? || e.WorkerAnswers? || e.WorkerRejects?)
    ensures TranscriptInv(Next(w, e).value)
  {
    var n := Next(w, e).value;
    if e.Operate? {
      UnheardKeeps(w, n, w.streams[e.stream]);
    } else {
      var taken := Taken(w, e.context);
      TakenIsUnheard(w, e.context);
      FinishIsUnheard(taken, e.context);
      if e.WorkerAnswers? { AtIsUnheard(taken, e.context, Applying(e.events, false)); }
      UnheardTwice(w, taken, n, e.context);
      UnheardKeeps(w, n, e.context);
    }
  }

  lemma {:induction false} RunKeepsTranscripts(w: World, events: seq<Event>, n: World)
    requires Core(w) && TranscriptInv(w) && Reaches(w, events, n)
    ensures TranscriptInv(n)
    decreases events
  {
    if events != [] {
      StepKeepsInv(w, events[0], false);
      StepKeepsTranscripts(w, events[0]);
      RunKeepsTranscripts(Next(w, events[0]).value, events[1..], n);
    }
  }

  // ---- Main results ----

  // Whatever happens, at most four streams are bound at a time.
  lemma WithinStreamLimit(events: seq<Event>, w: World)
    requires Reaches(Init, events, w)
    ensures |w.streams| <= MAX_CONCURRENT_STREAMS
  {
    ReachableInv(events, w, false);
  }

  // Stream and session bindings stay mutually inverse, and cancelling a session never finds a half-removed
  // binding, over every interleaving in which no shutdown visits a stream bound again under its old id.
  lemma BindingsStayInverse(events: seq<Event>, w: World)
    requires Reaches(Init, events, w) && UndisputedRun(Init, events)
    ensures forall stream :: stream in w.streams ==>
              && w.streams[stream] in w.contexts && w.contexts[w.streams[stream]].active
              && w.contexts[w.streams[stream]].session in w.sessionStreams
              && w.sessionStreams[w.contexts[w.streams[stream]].session] == stream
    ensures forall session :: session in w.sessionStreams ==>
              && w.sessionStreams[session] in w.streams && w.streams[w.sessionStreams[session]] in w.contexts
              && w.contexts[w.streams[w.sessionStreams[session]]].session == session
  {
    ReachableInv(events, w, true);
  }

  // Each stream commits at most one turn, whatever callbacks arrive late or twice.
  lemma AtMostOneTurn(events: seq<Event>, w: World, c: ContextId)
    requires Reaches(Init, events, w)
    ensures w.commits[c] <= 1
    ensures w.commits[c] == 1 ==> HasFinalized(w, c)
  {
    ReachableInv(events, w, false);
    assert ContextInv(w, c);
  }

  // An utterance is discarded or finalized, never both and neither twice.
  lemma DiscardedOrFinalizedOnce(events: seq<Event>, w: World, u: UtteranceId)
    requires Reaches(Init, events, w)
    ensures w.discards[u] + w.finalizes[u] <= 1
    ensures u in w.utterances ==> (w.utterances[u].status.Capturing? <==> w.discards[u] + w.finalizes[u] == 0)
  {
    ReachableInv(events, w, false);
    assert UtteranceInv(w, u);
  }

  // Each finalized utterance was finalized with a transcript that holds text and names the worker's
  // utterance and exactly the audio basis its context had then.
  lemma FinalizedWithItsTranscript(events: seq<Event>, w: World, u: UtteranceId)
    requires Reaches(Init, events, w) && w.finalizes[u] > 0
    ensures u in w.transcripts && w.transcripts[u].context.utterance == Some(u)
    ensures Names(w.transcripts[u].context, w.transcripts[u].candidate)
  {
    assert forall o :: ContextInv(Init, o);
    assert forall o :: UtteranceInv(Init, o);
    RunKeepsTranscripts(Init, events, w);
  }

  // Once every operation and queued discard has run, an utterance still capturing belongs to a stream
  // nothing has revoked: no cancellation, however it overtakes an onset, leaves one behind. Unless a
  // shutdown visit was disputed, that stream is still bound.
  lemma NoCaptureLeftBehind(events: seq<Event>, w: World, u: UtteranceId)
    requires Reaches(Init, events, w) && w.operations == map[] && w.discardQueue == multiset{}
    requires IsCapturing(w, u)
    ensures w.utterances[u].owner in w.contexts && w.contexts[w.utterances[u].owner].active
    ensures w.contexts[w.utterances[u].owner].utterance == Some(u)
    ensures UndisputedRun(Init, events) ==> IsCurrent(w, w.utterances[u].owner)
  {
    ReachableInv(events, w, false);
    assert UtteranceInv(w, u);
    if UndisputedRun(Init, events) {
      ReachableInv(events, w, true);
      ActiveIsCurrent(w, w.utterances[u].owner);
    }
  }

  // Releasing a context keeps the bindings mutually inverse exactly when it is still bound, or its
  // session is not bound under its stream id any more.
  lemma ReleaseIsSafeExactly(events: seq<Event>, w: World, c: ContextId)
    requires Reaches(Init, events, w) && UndisputedRun(Init, events) && c in w.contexts
    ensures BindingInv(Revoke(w, c)) <==> SafeToRelease(w, c)
  {
    ReachableInv(events, w, true);
    if SafeToRelease(w, c) {
      RevokeKeeps(w, c, true);
    } else {
      var context, n := w.contexts[c], Revoke(w, c);
      ActiveIsCurrent(w, c);
      assert context.stream in n.streams && n.streams[context.stream] != c;
      assert w.contexts[w.streams[context.stream]].session == context.session;
      assert context.session !in n.sessionStreams;
    }
  }

  // ---- An answer nothing interferes with ----

  lemma Prepend(w: World, e: Event, m: World, events: seq<Event>, n: World)
    requires Next(w, e) == Some(m) && Reaches(m, events, n)
    ensures Reaches(w, [e] + events, n)
  {
    assert ([e] + events)[1..] == events;
  }

  // The same operation at another stage.
  function Staged(w: World, c: ContextId, stage: Stage): World {
    w.(operations := w.operations[c := stage])
  }

  lemma TakenAndPut(w: World, c: ContextId, stage: Stage)
    ensures At(Taken(w, c), c, stage) == Staged(w, c, stage)
  {
    assert (w.operations - {c})[c := stage] == w.operations[c := stage];
  }

  // The operation of c is about to take up the worker event e, for a current context.
  predicate Hears(w: World, c: ContextId, e: WorkerEvent, later: seq<WorkerEvent>, onset: bool) {
    && c in w.contexts && IsCurrent(w, c)
    && c in w.operations && w.operations[c] == Applying([e] + later, onset)
  }

  predicate HasCaptured(w: World, c: ContextId, u: UtteranceId)
    requires c in w.contexts
  {
    w.contexts[c].utterance == Some(u) && IsCapturing(w, u)
  }

  // c is no longer active and neither its stream nor its session is bound; nothing else is released.
  predicate Released(w: World, n: World, c: ContextId)
    requires c in w.contexts
  {
    && n.contexts.Keys == w.contexts.Keys
    && n.contexts[c].stream == w.contexts[c].stream && n.contexts[c].session == w.contexts[c].session
    && !n.contexts[c].active
    && (forall o :: o in w.contexts && o != c ==> n.contexts[o] == w.contexts[o])
    && n.streams == w.streams - {w.contexts[c].stream}
    && n.sessionStreams == w.sessionStreams - {w.contexts[c].session}
  }

  predicate SameCounts(w: World, n: World) {
    n.discards == w.discards && n.finalizes == w.finalizes && n.commits == w.commits
  }

  function WithStatus(w: World, u: UtteranceId, status: UtteranceStatus): map<UtteranceId, Utterance>
    requires u in w.utterances
  {
    w.utterances[u := w.utterances[u].(status := status)]
  }

  lemma TerminateReleases(w: World, c: ContextId)
    requires c in w.contexts && IsCurrent(w, c)
    ensures var n := Terminate(w, c);
      && Released(w, n, c)
      && n == w.(contexts := n.contexts, streams := n.streams, sessionStreams := n.sessionStreams)
  {
  }

  // Takes up e, then waits for the discard of u, then releases c and goes on.
  lemma DiscardsThenGoesOn(w: World, c: ContextId, e: WorkerEvent, later: seq<WorkerEvent>, onset: bool,
                           u: UtteranceId, unused: UtteranceId) returns (n: World)
    requires Hears(w, c, e, later, onset) && HasCaptured(w, c, u) && unused !in w.utterances
    requires Next(w, Resume(c, unused, true)) == Some(Staged(w, c, Discarding(u, TerminateAndGoOn(later, onset))))
    ensures Reaches(w, [Resume(c, unused, true), Resume(c, unused, true)], n)
    ensures Released(w, n, c) && c in n.operations && n.operations[c] == Applying(later, onset)
    ensures n.utterances == WithStatus(w, u, Discarded)
    ensures n.discards == w.discards + multiset{u} && n.finalizes == w.finalizes && n.commits == w.commits
  {
    var again := Resume(c, unused, true);
    var waits := Staged(w, c, Discarding(u, TerminateAndGoOn(later, onset)));
    var discarded := Discard(Taken(waits, c), u);
    n := Next(waits, again).value;
    TerminateReleases(discarded, c);
    assert Reaches(n, [], n);
    Prepend(waits, again, n, [], n);
    Prepend(w, again, waits, [again] + [], n);
    assert [again] + ([again] + []) == [again, again];
  }

  // A transcript that is blank is discarded: no turn comes of it.
  lemma BlankIsDiscarded(w: World, c: ContextId, e: WorkerEvent, later: seq<WorkerEvent>, onset: bool,
                         u: UtteranceId, unused: UtteranceId) returns (n: World)
    requires Hears(w, c, e, later, onset) && HasCaptured(w, c, u) && unused !in w.utterances
    requires e.TranscriptCandidate? && e.bound && e.blank
    requires w.contexts[c].workerUtterance == Some(e.worker) && w.contexts[c].finalizedBasis == Some(e.basis)
    ensures Reaches(w, [Resume(c, unused, true), Resume(c, unused, true)], n)
    ensures Released(w, n, c) && c in n.operations && n.operations[c] == Applying(later, onset)
    ensures n.utterances == WithStatus(w, u, Discarded)
    ensures n.discards == w.discards + multiset{u} && n.finalizes == w.finalizes && n.commits == w.commits
  {
    TakenAndPut(w, c, Discarding(u, TerminateAndGoOn(later, onset)));
    n := DiscardsThenGoesOn(w, c, e, later, onset, u, unused);
  }

  // So is a capturing utterance the worker discards or fails on.
  lemma WorkerDiscards(w: World, c: ContextId, e: WorkerEvent, later: seq<WorkerEvent>, onset: bool,
                       u: UtteranceId, unused: UtteranceId) returns (n: World)
    requires Hears(w, c, e, later, onset) && HasCaptured(w, c, u) && unused !in w.utterances && e.bound
    requires e.WorkerFailed?
      || (e.UtteranceDiscarded? && (e.named.None? || w.contexts[c].workerUtterance.None? || e.named == w.contexts[c].workerUtterance))
    ensures Reaches(w, [Resume(c, unused, true), Resume(c, unused, true)], n)
    ensures Released(w, n, c) && c in n.operations && n.operations[c] == Applying(later, onset)
    ensures n.utterances == WithStatus(w, u, Discarded)
    ensures n.discards == w.discards + multiset{u} && n.finalizes == w.finalizes && n.commits == w.commits
  {
    TakenAndPut(w, c, Discarding(u, TerminateAndGoOn(later, onset)));
    n := DiscardsThenGoesOn(w, c, e, later, onset, u, unused);
  }

  // Any other transcript is finalized and committed: exactly one turn comes of it, the stream is released,
  // and what was finalized is that transcript.
  lemma TranscriptIsCommitted(w: World, c: ContextId, e: WorkerEvent, later: seq<WorkerEvent>, onset: bool,
                              u: UtteranceId, unused: UtteranceId) returns (n: World)
    requires Hears(w, c, e, later, onset) && HasCaptured(w, c, u) && unused !in w.utterances
    requires e.TranscriptCandidate? && e.bound && !e.blank && w.contexts[c].session !in w.ended
    requires w.contexts[c].workerUtterance == Some(e.worker) && w.contexts[c].finalizedBasis == Some(e.basis)
    ensures var again := Resume(c, unused, true); Reaches(w, [again, again, again, again], n)
    ensures Released(w, n, c) && c in n.operations && n.operations[c] == Applying(later, onset)
    ensures n.utterances == WithStatus(w, u, Finalized) && n.transcripts == w.transcripts[u := Transcript(w.contexts[c], e)]
    ensures n.discards == w.discards && n.finalizes == w.finalizes + multiset{u} && n.commits == w.commits + multiset{c}
  {
    var again := Resume(c, unused, true);
    var named := Staged(w, c, Finalizing(u, e, later, onset));
    TakenAndPut(w, c, Finalizing(u, e, later, onset));
    var finalized := FinalizedBy(named, c);
    FinalizesNext(named, c, unused);
    var committed := Staged(finalized.(commits := w.commits + multiset{c}), c, Committed(later, onset));
    TakenAndPut(finalized.(commits := w.commits + multiset{c}), c, Committed(later, onset));
    CommitsNext(finalized, c, unused);
    n := Next(committed, again).value;
    TerminateReleases(Taken(committed, c), c);
    assert Reaches(n, [], n);
    Prepend(committed, again, n, [], n);
    Prepend(finalized, again, committed, [again] + [], n);
    Prepend(named, again, finalized, [again] + ([again] + []), n);
    Prepend(w, again, named, [again] + ([again] + ([again] + [])), n);
    assert [again] + ([again] + ([again] + ([again] + []))) == [again, again, again, again];
  }

  lemma FinalizesNext(w: World, c: ContextId, unused: UtteranceId)
    requires c in w.contexts && c in w.operations && w.operations[c].Finalizing? && IsCapturing(w, w.operations[c].utterance)
    requires w.contexts[c].session !in w.ended && unused !in w.utterances
    ensures Next(w, Resume(c, unused, true)) == Some(FinalizedBy(w, c))
    ensures IsCurrent(w, c) ==> IsCurrent(FinalizedBy(w, c), c)
    ensures unused !in FinalizedBy(w, c).utterances
  {
  }

  // Only a commit the writer accepts counts.
  lemma CommitsNext(w: World, c: ContextId, unused: UtteranceId)
    requires c in w.contexts && c in w.operations && w.operations[c].Committing? && unused !in w.utterances
    ensures var stage := w.operations[c];
      Next(w, Resume(c, unused, true))
      == Some(Staged(w.(commits := w.commits + multiset{c}), c, Committed(stage.rest, stage.onset)))
    ensures Next(w, Resume(c, unused, false)).Some? && SameCounts(w, Next(w, Resume(c, unused, false)).value)
  {
    var stage := w.operations[c];
    TakenAndPut(w.(commits := w.commits + multiset{c}), c, Committed(stage.rest, stage.onset));
  }

  // A first onset in an active session begins one utterance, which the context then names.
  lemma OnsetBegins(w: World, c: ContextId, e: WorkerEvent, later: seq<WorkerEvent>, onset: bool,
                    u: UtteranceId, unused: UtteranceId) returns (n: World)
    requires Hears(w, c, e, later, onset) && w.contexts[c].utterance.None?
    requires e.SpeechStarted? && e.bound && w.contexts[c].session !in w.ended
    requires u !in w.utterances && unused !in w.utterances && unused != u
    ensures Reaches(w, [Resume(c, u, true), Resume(c, u, true), Resume(c, unused, true)], n)
    ensures n == w.(contexts := w.contexts[c := w.contexts[c].(workerUtterance := Some(e.worker), utterance := Some(u))],
                    utterances := w.utterances[u := Utterance(c, Capturing)],
                    operations := w.operations[c := Applying(later, true)])
  {
    var begins := Staged(w, c, Beginning(e.worker, later, onset));
    TakenAndPut(w, c, Beginning(e.worker, later, onset));
    var begun := Staged(w.(utterances := w.utterances[u := Utterance(c, Capturing)]), c, Begun(u, e.worker, later, onset));
    TakenAndPut(w.(utterances := w.utterances[u := Utterance(c, Capturing)]), c, Begun(u, e.worker, later, onset));
    assert Taken(begins, c) == Taken(w, c);
    n := Next(begun, Resume(c, unused, true)).value;
    NotesNext(begun, c, unused);
    assert begun.operations[c := Applying(later, true)] == w.operations[c := Applying(later, true)];
    assert Reaches(n, [], n);
    Prepend(begun, Resume(c, unused, true), n, [], n);
    Prepend(begins, Resume(c, u, true), begun, [Resume(c, unused, true)] + [], n);
    Prepend(w, Resume(c, u, true), begins, [Resume(c, u, true)] + ([Resume(c, unused, true)] + []), n);
    assert [Resume(c, u, true)] + ([Resume(c, u, true)] + ([Resume(c, unused, true)] + []))
        == [Resume(c, u, true), Resume(c, u, true), Resume(c, unused, true)];
  }

  lemma NotesNext(w: World, c: ContextId, unused: UtteranceId)
    requires c in w.contexts && IsCurrent(w, c) && c in w.operations && w.operations[c].Begun? && unused !in w.utterances
    ensures var stage := w.operations[c];
      Next(w, Resume(c, unused, true))
      == Some(Staged(Put(w, c, w.contexts[c].(workerUtterance := Some(stage.worker), utterance := Some(stage.utterance))),
                     c, Applying(stage.rest, true)))
  {
    var stage := w.operations[c];
    var noted := Put(w, c, w.contexts[c].(workerUtterance := Some(stage.worker), utterance := Some(stage.utterance)));
    assert IsCurrent(Noted(w, c), c);
    TakenAndPut(noted, c, Applying(stage.rest, true));
  }

  // A repeated onset of the same utterance, and a vouched basis of it, change no more than they say.
  lemma RepeatedOnsetIsIgnored(w: World, c: ContextId, e: WorkerEvent, later: seq<WorkerEvent>, onset: bool, unused: UtteranceId)
    requires Hears(w, c, e, later, onset) && unused !in w.utterances
    requires e.SpeechStarted? && e.bound && w.contexts[c].utterance.Some? && w.contexts[c].workerUtterance == Some(e.worker)
    ensures Next(w, Resume(c, unused, true)) == Some(Staged(w, c, Applying(later, onset)))
  {
    TakenAndPut(w, c, Applying(later, onset));
  }

  lemma BasisIsNoted(w: World, c: ContextId, e: WorkerEvent, later: seq<WorkerEvent>, onset: bool, unused: UtteranceId)
    requires Hears(w, c, e, later, onset) && unused !in w.utterances
    requires e.UtteranceFinalized? && e.bound && e.vouched
    requires w.contexts[c].utterance.Some? && w.contexts[c].workerUtterance == Some(e.worker)
    ensures Next(w, Resume(c, unused, true))
         == Some(Staged(Put(w, c, w.contexts[c].(finalizedBasis := Some(e.basis))), c, Applying(later, onset)))
  {
    TakenAndPut(Put(w, c, w.contexts[c].(finalizedBasis := Some(e.basis))), c, Applying(later, onset));
  }

  // What a callback may not say to a context.
  predicate Inconsistent(context: Context, e: WorkerEvent) {
    || !e.bound
    || (e.SpeechStarted? && context.utterance.Some? && context.workerUtterance != Some(e.worker))
    || (e.UtteranceDiscarded? && e.named.Some? && context.workerUtterance.Some? && e.named != context.workerUtterance)
    || (e.UtteranceFinalized? && (context.utterance.None? || context.workerUtterance != Some(e.worker) || !e.vouched))
    || (e.TranscriptCandidate?
        && (context.utterance.None? || context.workerUtterance != Some(e.worker) || context.finalizedBasis != Some(e.basis)))
  }

  // Such a callback ends the operation: with an error that changes nothing else, unless the operation has
  // itself admitted the onset of an utterance still capturing, which is then discarded.
  lemma InconsistentEndsOperation(w: World, c: ContextId, e: WorkerEvent, later: seq<WorkerEvent>, onset: bool, unused: UtteranceId)
    requires Hears(w, c, e, later, onset) && unused !in w.utterances && Inconsistent(w.contexts[c], e)
    requires !(onset && w.contexts[c].utterance.Some? && IsCapturing(w, w.contexts[c].utterance.value))
    ensures Next(w, Resume(c, unused, true))
         == Some(Put(w, c, w.contexts[c].(operationInFlight := false)).(operations := w.operations - {c}))
  {
    assert IsCurrent(Taken(w, c), c);
  }

  lemma InconsistentAfterOnsetDiscards(w: World, c: ContextId, e: WorkerEvent, later: seq<WorkerEvent>,
                                       u: UtteranceId, unused: UtteranceId) returns (n: World)
    requires Hears(w, c, e, later, true) && HasCaptured(w, c, u) && unused !in w.utterances && Inconsistent(w.contexts[c], e)
    ensures Reaches(w, [Resume(c, unused, true), Resume(c, unused, true)], n)
    ensures Released(w, n, c) && n.operations == w.operations - {c} && n.utterances == WithStatus(w, u, Discarded)
    ensures n.discards == w.discards + multiset{u} && n.finalizes == w.finalizes && n.commits == w.commits
  {
    var again := Resume(c, unused, true);
    var waits := Staged(w, c, Discarding(u, TerminateAndStop));
    TakenAndPut(w, c, Discarding(u, TerminateAndStop));
    var discarded := Discard(Taken(waits, c), u);
    n := Next(waits, again).value;
    TerminateReleases(discarded, c);
    assert waits.operations - {c} == w.operations - {c};
    assert Reaches(n, [], n);
    Prepend(waits, again, n, [], n);
    Prepend(w, again, waits, [again] + [], n);
    assert [again] + ([again] + []) == [again, again];
  }

  // An answer for a context that has been revoked meanwhile changes nothing but ends its operation.
  lemma LateAnswerIsDropped(w: World, c: ContextId, events: seq<WorkerEvent>, onset: bool, unused: UtteranceId)
    requires c in w.contexts && !IsCurrent(w, c) && c in w.operations && unused !in w.utterances
    ensures w.operations[c].AwaitWorker? ==> Next(w, WorkerAnswers(c, events)) == Some(Taken(w, c))
    ensures w.operations[c] == Applying(events, onset) ==> Next(w, Resume(c, unused, true)) == Some(Taken(w, c))
  {
  }

  predicate Quiet(w: World, n: World) {
    n.finalizes == w.finalizes && n.utterances.Keys == w.utterances.Keys
  }

  lemma DiscardThenIsQuiet(w: World, c: ContextId, next: Sequel)
    requires c in w.contexts
    ensures Quiet(w, DiscardThen(w, c, next)) && Quiet(w, Continue(w, c, next))
  {
  }

  lemma ThrowIsQuiet(w: World, c: ContextId, onset: bool)
    requires c in w.contexts
    ensures Quiet(w, Throw(w, c, onset))
  {
    DiscardThenIsQuiet(w, c, TerminateAndStop);
  }

  lemma ApplyIsQuiet(w: World, c: ContextId, rest: seq<WorkerEvent>, onset: bool)
    requires c in w.contexts
    ensures Quiet(w, Apply(w, c, rest, onset))
  {
    if rest != [] && IsCurrent(w, c) {
      if !rest[0].bound {
        ThrowIsQuiet(w, c, onset);
      } else if rest[0].SpeechStarted? || rest[0].UtteranceFinalized? {
        ApplyOnsetIsQuiet(w, c, rest, onset);
      } else if rest[0].TranscriptCandidate? {
        ApplyCandidateIsQuiet(w, c, rest, onset);
      } else {
        ThrowIsQuiet(w, c, onset);
        DiscardThenIsQuiet(w, c, TerminateAndGoOn(rest[1..], onset));
      }
    }
  }

  lemma ApplyOnsetIsQuiet(w: World, c: ContextId, rest: seq<WorkerEvent>, onset: bool)
    requires c in w.contexts && rest != [] && IsCurrent(w, c) && rest[0].bound
    requires rest[0].SpeechStarted? || rest[0].UtteranceFinalized?
    ensures Quiet(w, Apply(w, c, rest, onset))
  {
    ThrowIsQuiet(w, c, onset);
    if rest[0].SpeechStarted? { DiscardThenIsQuiet(w, c, TerminateAndStop); }
  }

  lemma ApplyCandidateIsQuiet(w: World, c: ContextId, rest: seq<WorkerEvent>, onset: bool)
    requires c in w.contexts && rest != [] && IsCurrent(w, c) && rest[0].bound && rest[0].TranscriptCandidate?
    ensures Quiet(w, Apply(w, c, rest, onset))
  {
    ThrowIsQuiet(w, c, onset);
    DiscardThenIsQuiet(w, c, TerminateAndGoOn(rest[1..], onset));
  }

  lemma DiscardingIsQuiet(w: World, c: ContextId, unused: UtteranceId, succeeds: bool)
    requires Next(w, Resume(c, unused, succeeds)).Some? && (w.operations[c].Begun? || w.operations[c].Discarding?)
    ensures Quiet(w, Next(w, Resume(c, unused, succeeds)).value)
  {
    var taken, stage := Taken(w, c), w.operations[c];
    if stage.Begun? {
      DiscardThenIsQuiet(Noted(w, c), c, Stop);
    } else {
      DiscardThenIsQuiet(Discard(taken, stage.utterance), c, stage.next);
    }
  }

  lemma CommittingIsQuiet(w: World, c: ContextId, unused: UtteranceId, succeeds: bool)
    requires Next(w, Resume(c, unused, succeeds)).Some? && (w.operations[c].Committing? || w.operations[c].Committed?)
    ensures Quiet(w, Next(w, Resume(c, unused, succeeds)).value)
  {
    var taken, stage := Taken(w, c), w.operations[c];
    if stage.Committing? { ThrowIsQuiet(taken, c, stage.onset); }
    if stage.Committed? { DiscardThenIsQuiet(taken, c, TerminateAndGoOn(stage.rest, stage.onset)); }
  }

  lemma ResumeNeedsSession(w: World, c: ContextId, unused: UtteranceId, succeeds: bool)
    requires Next(w, Resume(c, unused, succeeds)).Some? && w.contexts[c].session in w.ended
    ensures Quiet(w, Next(w, Resume(c, unused, succeeds)).value)
  {
    var taken, stage := Taken(w, c), w.operations[c];
    if stage.Begun? || stage.Discarding? {
      DiscardingIsQuiet(w, c, unused, succeeds);
    } else if stage.Committing? || stage.Committed? {
      CommittingIsQuiet(w, c, unused, succeeds);
    } else if stage.Applying? {
      ApplyIsQuiet(taken, c, stage.rest, stage.onset);
    } else {
      ThrowIsQuiet(taken, c, stage.onset);
    }
  }

  lemma RevokeIsQuiet(w: World, c: ContextId)
    requires c in w.contexts
    ensures Quiet(w, Revoke(w, c))
  {
    RevokeTouches(w, c);
  }

  lemma CancelsAreQuiet(w: World, e: Event)
    requires Next(w, e).Some? && (e.CancelStream? || e.CancelSession? || e.Expire?)
    ensures Quiet(w, Next(w, e).value)
  {
    if e.CancelStream? {
      RevokeIsQuiet(w, w.streams[e.stream]);
    } else if e.CancelSession? {
      var stream := w.sessionStreams[e.session];
      if stream in w.streams && w.streams[stream] in w.contexts { RevokeIsQuiet(w, w.streams[stream]); }
    } else {
      RevokeIsQuiet(w, e.context);
    }
  }

  lemma ShutdownsAreQuiet(w: World, e: Event)
    requires Next(w, e).Some? && (e.BeginShutdown? || e.ShutdownNext?)
    ensures Quiet(w, Next(w, e).value)
  {
    if e.ShutdownNext? {
      RevokeIsQuiet(w, w.shutdowns[e.k].rest[0]);
    } else if e.order != [] {
      RevokeIsQuiet(w, e.order[0]);
    }
  }

  lemma AnswersAreQuiet(w: World, e: Event)
    requires Next(w, e).Some? && (e.Operate? || e.WorkerAnswers? || e.WorkerRejects?)
    ensures Quiet(w, Next(w, e).value)
  {
  }

  lemma OtherEventsAreQuiet(w: World, e: Event)
    requires !e.Resume? && Next(w, e).Some?
    ensures Quiet(w, Next(w, e).value)
  {
    if e.CancelStream? || e.CancelSession? || e.Expire? {
      CancelsAreQuiet(w, e);
    } else if e.BeginShutdown? || e.ShutdownNext? {
      ShutdownsAreQuiet(w, e);
    } else if e.Operate? || e.WorkerAnswers? || e.WorkerRejects? {
      AnswersAreQuiet(w, e);
    }
  }

  // Revoking a bound context, by a cancellation of its stream or session or by its expiry, releases it at
  // once and queues the discard of what it captures; only a bound context without an operation expires.
  lemma RevocationsRelease(w: World, c: ContextId)
    requires c in w.contexts && IsCurrent(w, c)
    ensures var n := Revoke(w, c);
      && Released(w, n, c) && SameCounts(w, n)
      && n.utterances == w.utterances && n.operations == w.operations
      && n.discardQueue == w.discardQueue
           + (if w.contexts[c].utterance.Some? && IsCapturing(w, w.contexts[c].utterance.value)
              then multiset{w.contexts[c].utterance.value} else multiset{})
      && Next(w, CancelStream(w.contexts[c].session, w.contexts[c].stream)) == Some(n)
      && Next(w, CancelSession(w.contexts[c].session)) == Some(n)
      && Next(w, Expire(c)) == (if w.contexts[c].operationInFlight then None else Some(n))
    ensures forall session :: session != w.contexts[c].session ==> Next(w, CancelStream(session, w.contexts[c].stream)) == None
  {
    RevokeTouches(w, c);
  }

  // A frame or flush is taken up exactly by the active, idle stream of its own session, and then awaits the
  // worker with everything else as it was.
  lemma OperatesExactly(w: World, session: SessionId, stream: StreamId)
    requires stream in w.streams && w.streams[stream] in w.contexts
    ensures var c, context := w.streams[stream], w.contexts[w.streams[stream]];
      Next(w, Operate(session, stream))
      == if context.active && context.session == session && !context.operationInFlight
         then Some(w.(contexts := w.contexts[c := context.(operationInFlight := true)],
                      operations := w.operations[c := AwaitWorker]))
         else None
  {
  }

  // A worker's rejection, and an empty answer, make the stream idle again.
  lemma RejectionEndsOperation(w: World, c: ContextId, unused: UtteranceId)
    requires c in w.contexts && IsCurrent(w, c) && c in w.operations && unused !in w.utterances
    ensures var idle := w.(contexts := w.contexts[c := w.contexts[c].(operationInFlight := false)], operations := w.operations - {c});
      && (w.operations[c].AwaitWorker? ==>
            && Next(w, WorkerRejects(c)) == Some(idle)
            && Next(w, WorkerAnswers(c, [])) == Some(Staged(w, c, Applying([], false))))
      && (w.operations[c].Applying? && w.operations[c].rest == [] ==> Next(w, Resume(c, unused, true)) == Some(idle))
  {
    assert IsCurrent(Taken(w, c), c);
    TakenAndPut(w, c, Applying([], false));
  }

  // No utterance begins and none is finalized once its session has ended.
  lemma AuthorityNeedsSession(w: World, e: Event)
    requires Next(w, e).Some?
    requires Next(w, e).value.finalizes != w.finalizes || Next(w, e).value.utterances.Keys != w.utterances.Keys
    ensures e.Resume? && w.contexts[e.context].session !in w.ended
  {
    if e.Resume? {
      if w.contexts[e.context].session in w.ended { ResumeNeedsSession(w, e.context, e.utterance, e.succeeds); }
    } else {
      OtherEventsAreQuiet(w, e);
    }
  }

  // A stream is opened exactly for a session that has not ended and has none, under an unused stream id,
  // while fewer than four are bound; and opening changes nothing but its own bindings.
  lemma OpensExactly(w: World, session: SessionId, stream: StreamId, c: ContextId)
    requires IsNewest(w, c)
    ensures var n := Next(w, Open(session, stream, c));
      && (n.Some? <==> session !in w.ended && stream !in w.streams && session !in w.sessionStreams && |w.streams| < 4)
      && (n.Some? ==>
            && n.value == w.(contexts := n.value.contexts, streams := n.value.streams, sessionStreams := n.value.sessionStreams)
            && n.value.streams == w.streams[stream := c] && n.value.sessionStreams == w.sessionStreams[session := stream]
            && n.value.contexts == w.contexts[c := Context(session, stream, true, false, None, None, None)])
  {
    var e := Open(session, stream, c);
    assert Next(w, e).Some? <==> session !in w.ended && stream !in w.streams && session !in w.sessionStreams && |w.streams| < 4;
  }

  // What a step leaves of the sessions that have ended.
  lemma EndedStays(w: World, e: Event)
    requires Next(w, e).Some?
    ensures Next(w, e).value.ended == if e.EndSession? then w.ended + {e.session} else w.ended
  {
    if e.Resume? {
      ResumeKeepsEnded(w, e.context, e.utterance, e.succeeds);
    } else if e.CancelStream? || e.CancelSession? || e.Expire? {
      CancelKeepsEnded(w, e);
    } else if e.BeginShutdown? || e.ShutdownNext? {
      ShutdownKeepsEnded(w, e);
    } else if e.Operate? || e.WorkerAnswers? || e.WorkerRejects? {
      AnswerKeepsEnded(w, e);
    }
  }

  lemma CancelKeepsEnded(w: World, e: Event)
    requires Next(w, e).Some? && (e.CancelStream? || e.CancelSession? || e.Expire?)
    ensures Next(w, e).value.ended == w.ended
  {
  }

  lemma ShutdownKeepsEnded(w: World, e: Event)
    requires Next(w, e).Some? && (e.BeginShutdown? || e.ShutdownNext?)
    ensures Next(w, e).value.ended == w.ended
  {
  }

  lemma AnswerKeepsEnded(w: World, e: Event)
    requires Next(w, e).Some? && (e.Operate? || e.WorkerAnswers? || e.WorkerRejects?)
    ensures Next(w, e).value.ended == w.ended
  {
  }

  lemma DiscardThenKeepsEnded(w: World, c: ContextId, next: Sequel)
    requires c in w.contexts
    ensures DiscardThen(w, c, next).ended == w.ended && Throw(w, c, true).ended == Throw(w, c, false).ended == w.ended
  {
    ContinueKeepsEnded(w, c, next);
    ContinueKeepsEnded(w, c, Stop);
  }

  lemma ApplyKeepsEnded(w: World, c: ContextId, rest: seq<WorkerEvent>, onset: bool)
    requires c in w.contexts
    ensures Apply(w, c, rest, onset).ended == w.ended
  {
    if rest != [] { DiscardThenKeepsEnded(w, c, TerminateAndGoOn(rest[1..], onset)); }
  }

  lemma ResumeKeepsEnded(w: World, c: ContextId, unused: UtteranceId, succeeds: bool)
    requires Next(w, Resume(c, unused, succeeds)).Some?
    ensures Next(w, Resume(c, unused, succeeds)).value.ended == w.ended
  {
    var taken, stage := Taken(w, c), w.operations[c];
    assert Next(w, Resume(c, unused, succeeds)).value == Resumed(taken, c, stage, unused, succeeds);
    ResumedKeepsEnded(taken, c, stage, unused, succeeds);
  }

  lemma ResumedKeepsEnded(w: World, c: ContextId, stage: Stage, unused: UtteranceId, succeeds: bool)
    requires c in w.contexts && unused !in w.utterances && !stage.AwaitWorker?
    ensures Resumed(w, c, stage, unused, succeeds).ended == w.ended
  {
    if stage.Applying? {
      ApplyKeepsEnded(w, c, stage.rest, stage.onset);
    } else if stage.Begun? {
      var n := Put(w, c, w.contexts[c].(workerUtterance := Some(stage.worker), utterance := Some(stage.utterance)));
      DiscardThenKeepsEnded(n, c, Stop);
    } else if stage.Discarding? {
      DiscardingKeepsEnded(w, c, stage.utterance, stage.next);
    } else {
      DiscardThenKeepsEnded(w, c, Stop);
    }
  }

  lemma DiscardingKeepsEnded(w: World, c: ContextId, u: UtteranceId, next: Sequel)
    requires c in w.contexts
    ensures Continue(Discard(w, u), c, next).ended == w.ended
  {
    ContinueKeepsEnded(Discard(w, u), c, next);
  }

  lemma ContinueKeepsEnded(w: World, c: ContextId, next: Sequel)
    requires c in w.contexts
    ensures Continue(w, c, next).ended == w.ended
  {
  }

  lemma {:induction false} EndedStaysInRuns(w: World, events: seq<Event>, n: World)
    requires Reaches(w, events, n)
    ensures w.ended <= n.ended
    decreases events
  {
    if events != [] {
      EndedStays(w, events[0]);
      EndedStaysInRuns(Next(w, events[0]).value, events[1..], n);
    }
  }

  lemma EndSessionEnds(w: World, session: SessionId)
    ensures Next(w, EndSession(session)).Some? && session in Next(w, EndSession(session)).value.ended
  {
  }

  lemma EndedDoesNotOpen(w: World, e: Event)
    requires e.Open? && e.session in w.ended
    ensures Next(w, e).None?
  {
  }

  // Once a session has ended, no step of any later run opens a stream for it, begins an utterance for it or
  // finalizes one, whichever context the step belongs to.
  lemma NothingAfterTheEnd(w: World, session: SessionId, events: seq<Event>, n: World, e: Event)
    requires Next(w, EndSession(session)).Some? && Reaches(Next(w, EndSession(session)).value, events, n) && Next(n, e).Some?
    ensures !(e.Open? && e.session == session)
    ensures var m := Next(n, e).value;
      m.finalizes != n.finalizes || m.utterances.Keys != n.utterances.Keys ==> e.Resume? && n.contexts[e.context].session != session
  {
    EndSessionEnds(w, session);
    EndedStaysInRuns(Next(w, EndSession(session)).value, events, n);
    EndedIsFinal(n, session, e);
  }

  lemma EndedIsFinal(w: World, session: SessionId, e: Event)
    requires session in w.ended && Next(w, e).Some?
    ensures !(e.Open? && e.session == session)
    ensures var n := Next(w, e).value;
      n.finalizes != w.finalizes || n.utterances.Keys != w.utterances.Keys ==> e.Resume? && w.contexts[e.context].session != session
  {
    if e.Open? && e.session == session { EndedDoesNotOpen(w, e); }
    var n := Next(w, e).value;
    if n.finalizes != w.finalizes || n.utterances.Keys != w.utterances.Keys { AuthorityNeedsSession(w, e); }
  }

  // ---- A shutdown that breaks the bindings ----

  // A run goes on with one more undisputed event.
  lemma {:induction false} GoesOn(w: World, events: seq<Event>, m: World, e: Event, n: World)
    requires Reaches(w, events, m) && UndisputedRun(w, events) && Next(m, e) == Some(n) && Undisputed(m, e)
    ensures Reaches(w, events + [e], n) && UndisputedRun(w, events + [e])
    decreases events
  {
    if events == [] {
      assert [e][1..] == [];
      assert events + [e] == [e];
    } else {
      GoesOn(Next(w, events[0]).value, events[1..], m, e, n);
      assert (events + [e])[1..] == events[1..] + [e];
    }
  }

  // Stream 0 of session 0 captures an utterance; stream 1 of session 1 is idle.
  const Speaking := Context(0, 0, true, true, Some(0), Some(0), None)
  const Idle := Context(1, 1, true, false, None, None, None)
  const Opened := Init.(contexts := map[0 := Context(0, 0, true, false, None, None, None), 1 := Idle],
                        streams := map[0 := 0, 1 := 1], sessionStreams := map[0 := 0, 1 := 1])
  const Captures := Opened.(contexts := map[0 := Speaking, 1 := Idle],
                            operations := map[0 := Applying([], true)], utterances := map[0 := Utterance(0, Capturing)])

  // The shutdown has revoked stream 0 and awaits its discard.
  const ClosingFirst := Captures.(contexts := map[0 := Speaking.(active := false), 1 := Idle],
                                  streams := map[1 := 1], sessionStreams := map[1 := 1],
                                  discardQueue := multiset{0}, shutdowns := [Closing(Some(0), [1])])

  // Meanwhile stream 1 has been cancelled and opened again, as context 2, and the discard has run.
  const Reopened := ClosingFirst.(contexts := map[0 := Speaking.(active := false), 1 := Idle.(active := false), 2 := Idle],
                                  streams := map[1 := 2], utterances := map[0 := Utterance(0, Discarded)],
                                  discardQueue := multiset{}, discards := multiset{0})

  lemma OpenedIsReachable() returns (events: seq<Event>)
    ensures Reaches(Init, events, Opened) && UndisputedRun(Init, events)
  {
    var first := Init.(contexts := map[0 := Context(0, 0, true, false, None, None, None)],
                       streams := map[0 := 0], sessionStreams := map[0 := 0]);
    GoesOn(Init, [], Init, Open(0, 0, 0), first);
    GoesOn(Init, [] + [Open(0, 0, 0)], first, Open(1, 1, 1), Opened);
    events := [] + [Open(0, 0, 0)] + [Open(1, 1, 1)];
  }

  const Answered := Opened.(contexts := Opened.contexts[0 := Context(0, 0, true, true, None, None, None)],
                            operations := map[0 := Applying([SpeechStarted(true, 0)], false)])

  lemma AnsweredIsReachable() returns (events: seq<Event>)
    ensures Reaches(Init, events, Answered) && UndisputedRun(Init, events)
  {
    events := OpenedIsReachable();
    var operating := Answered.(operations := map[0 := AwaitWorker]);
    GoesOn(Init, events, Opened, Operate(0, 0), operating);
    assert IsCurrent(operating, 0);
    assert Taken(operating, 0).operations == map[];
    GoesOn(Init, events + [Operate(0, 0)], operating, WorkerAnswers(0, [SpeechStarted(true, 0)]), Answered);
    events := events + [Operate(0, 0)] + [WorkerAnswers(0, [SpeechStarted(true, 0)])];
  }

  lemma OnsetStep(beginning: World)
    requires beginning == Answered.(operations := map[0 := Beginning(0, [], false)])
    ensures Next(Answered, Resume(0, 0, true)) == Some(beginning)
  {
    var taken, started := Taken(Answered, 0), SpeechStarted(true, 0);
    assert IsCurrent(taken, 0);
    assert [started][0] == started && [started][1..] == [];
    assert taken.operations[0 := Beginning(0, [], false)] == beginning.operations;
  }

  lemma NotingStep(begun: World)
    requires begun == Answered.(operations := map[0 := Begun(0, 0, [], false)], utterances := Captures.utterances)
    ensures Next(begun, Resume(0, 1, true)) == Some(Captures)
  {
    var noted := Noted(begun, 0);
    assert IsCurrent(noted, 0);
    assert noted.contexts == Captures.contexts;
    assert Captures.operations == noted.operations[0 := Applying([], true)];
  }

  lemma CapturesIsReachable() returns (events: seq<Event>)
    ensures Reaches(Init, events, Captures) && UndisputedRun(Init, events)
  {
    events := AnsweredIsReachable();
    var beginning := Answered.(operations := map[0 := Beginning(0, [], false)]);
    OnsetStep(beginning);
    GoesOn(Init, events, Answered, Resume(0, 0, true), beginning);
    var begun := beginning.(operations := map[0 := Begun(0, 0, [], false)], utterances := Captures.utterances);
    GoesOn(Init, events + [Resume(0, 0, true)], beginning, Resume(0, 0, true), begun);
    NotingStep(begun);
    GoesOn(Init, events + [Resume(0, 0, true)] + [Resume(0, 0, true)], begun, Resume(0, 1, true), Captures);
    events := events + [Resume(0, 0, true)] + [Resume(0, 0, true)] + [Resume(0, 1, true)];
  }

  lemma ClosingStep()
    ensures Next(Captures, BeginShutdown([0, 1])) == Some(ClosingFirst)
  {
    var order: seq<ContextId> := [0, 1];
    assert Captures.streams[0] == 0 && Captures.streams[1] == 1;
    assert Captures.streams.Values == {0, 1};
    assert order[0] == 0 && order[1] == 1 && order[1..] == [1];
    assert ListsStreams(Captures, order);
    assert ToDiscard(Captures, 0) == Some(0);
    RevokeQueues(Captures, 0, 0);
    var n := Revoke(Captures, 0);
    assert n.streams == map[1 := 1] && n.sessionStreams == map[1 := 1];
    assert n.contexts == ClosingFirst.contexts;
    assert n.discardQueue == multiset{0};
    assert n.(shutdowns := [Closing(Some(0), [1])]) == ClosingFirst;
    assert Captures.shutdowns + [Closing(Some(0), [1])] == [Closing(Some(0), [1])];
  }

  const Cancelled := ClosingFirst.(contexts := map[0 := Speaking.(active := false), 1 := Idle.(active := false)],
                                   streams := map[], sessionStreams := map[])
  const Again := Reopened.(utterances := map[0 := Utterance(0, Capturing)], discardQueue := multiset{0}, discards := multiset{})

  lemma CancelStep()
    ensures Next(ClosingFirst, CancelStream(1, 1)) == Some(Cancelled)
  {
    var n := Revoke(ClosingFirst, 1);
    assert ToDiscard(ClosingFirst, 1).None?;
    assert n.streams == map[] && n.sessionStreams == map[];
    assert n.contexts == Cancelled.contexts;
  }

  lemma ReopenStep()
    ensures Next(Cancelled, Open(1, 1, 2)) == Some(Again)
  {
    var n := Next(Cancelled, Open(1, 1, 2)).value;
    assert n.contexts == Again.contexts;
    assert n.streams == map[1 := 2] && n.sessionStreams == map[1 := 1];
  }

  lemma DiscardStep()
    ensures Next(Again, RunDiscard(0)) == Some(Reopened)
  {
    var n := Next(Again, RunDiscard(0)).value;
    assert n.utterances == Reopened.utterances;
    assert n.discardQueue == multiset{} && n.discards == multiset{0};
  }

  lemma ReopenedIsReachable() returns (events: seq<Event>)
    ensures Reaches(Init, events, Reopened) && UndisputedRun(Init, events)
  {
    events := CapturesIsReachable();
    ClosingStep();
    GoesOn(Init, events, Captures, BeginShutdown([0, 1]), ClosingFirst);
    events := events + [BeginShutdown([0, 1])];
    CancelStep();
    GoesOn(Init, events, ClosingFirst, CancelStream(1, 1), Cancelled);
    events := events + [CancelStream(1, 1)];
    ReopenStep();
    GoesOn(Init, events, Cancelled, Open(1, 1, 2), Again);
    events := events + [Open(1, 1, 2)];
    DiscardStep();
    GoesOn(Init, events, Again, RunDiscard(0), Reopened);
    events := events + [RunDiscard(0)];
  }

  lemma LateVisit()
    ensures Next(Reopened, ShutdownNext(0)).Some? && !BindingInv(Next(Reopened, ShutdownNext(0)).value)
  {
    var n := Next(Reopened, ShutdownNext(0)).value;
    assert 1 in n.streams && n.streams[1] == 2 && n.contexts[2].session == 1 && 1 !in n.sessionStreams;
  }

  // The unsafe case does arise: opened again while the shutdown awaits another stream's discard, a stream
  // loses its session binding when the shutdown goes on to its predecessor.
  lemma ShutdownCanBreakBindings() returns (events: seq<Event>)
    ensures Reaches(Init, events, Reopened) && UndisputedRun(Init, events)
    ensures Next(Reopened, ShutdownNext(0)).Some? && !BindingInv(Next(Reopened, ShutdownNext(0)).value)
  {
    events := ReopenedIsReachable();
    LateVisit();
  }

  // ---- The coordinator as an object ----

  // Releasing several contexts one after the other, as shutdown does when nothing comes between.
  function RevokeAll(w: World, order: seq<ContextId>): World
    requires forall i :: 0 <= i < |order| ==> order[i] in w.contexts
    decreases order
  {
    if order == [] then w
    else
      assert order[0] in w.contexts;
      RevokeAll(Revoke(w, order[0]), order[1..])
  }

  lemma RevokeAllStep(w: World, order: seq<ContextId>, i: nat)
    requires i < |order| && forall j :: 0 <= j < |order| ==> order[j] in w.contexts
    ensures RevokeAll(w, order[i..]) == RevokeAll(Revoke(w, order[i]), order[i + 1..])
  {
    assert order[i..][0] == order[i] && order[i..][1..] == order[i + 1..];
  }

  // `order` lists exactly the active contexts, once each.
  ghost predicate ListsActive(contexts: map<ContextId, Context>, order: seq<ContextId>) {
    && (forall i :: 0 <= i < |order| ==> order[i] in contexts && contexts[order[i]].active)
    && (forall i, j :: 0 <= i < j < |order| ==> order[i] != order[j])
    && (forall c :: c in contexts && contexts[c].active ==> c in order)
  }

  lemma OneFewer(contexts: map<ContextId, Context>, order: seq<ContextId>)
    requires order != [] && ListsActive(contexts, order)
    ensures ListsActive(contexts[order[0] := contexts[order[0]].(active := false)], order[1..])
  {
    var left := contexts[order[0] := contexts[order[0]].(active := false)];
    forall c | c in left && left[c].active ensures c in order[1..] {
      var i :| 0 <= i < |order| && order[i] == c;
      assert order[1..][i - 1] == c;
    }
  }

  lemma RevokeUnlists(w: World, order: seq<ContextId>)
    requires Inv(w, true) && order != [] && ListsActive(w.contexts, order)
    ensures Inv(Revoke(w, order[0]), true) && ListsActive(Revoke(w, order[0]).contexts, order[1..])
  {
    ActiveIsCurrent(w, order[0]);
    RevokeKeeps(w, order[0], true);
    OneFewer(w.contexts, order);
  }

  lemma NothingBound(w: World)
    requires BindingInv(w) && forall c :: c in w.contexts ==> !w.contexts[c].active
    ensures w.streams == map[] && w.sessionStreams == map[]
  {
    assert forall stream :: stream !in w.streams;
    assert forall session :: session !in w.sessionStreams;
  }

  // After a shutdown nothing interrupts, nothing is bound or active.
  lemma {:induction false} ShutdownReleasesAll(w: World, order: seq<ContextId>)
    requires Inv(w, true) && ListsActive(w.contexts, order)
    ensures var n := RevokeAll(w, order);
            && Inv(n, true) && n.streams == map[] && n.sessionStreams == map[]
            && forall c :: c in n.contexts ==> !n.contexts[c].active
    decreases order
  {
    if order == [] {
      NothingBound(w);
    } else {
      RevokeUnlists(w, order);
      ShutdownReleasesAll(Revoke(w, order[0]), order[1..]);
    }
  }

  class VoiceInputCoordinator {
    var ended: set<SessionId>
    var contexts: map<ContextId, Context>
    var streams: map<StreamId, ContextId>
    var sessionStreams: map<SessionId, StreamId>
    var operations: map<ContextId, Stage>
    var utterances: map<UtteranceId, Utterance>
    var discardQueue: multiset<UtteranceId>
    ghost var shutdowns: seq<Closing>
    ghost var discards: multiset<UtteranceId>
    ghost var finalizes: multiset<UtteranceId>
    ghost var commits: multiset<ContextId>
    ghost var transcripts: map<UtteranceId, Transcript>

    ghost function Value(): World
      reads this
    {
      World(ended, contexts, streams, sessionStreams, operations, utterances, discardQueue,
            shutdowns, discards, finalizes, commits, transcripts)
    }

    constructor ()
      ensures Value() == Init
    {
      ended, contexts, streams, sessionStreams, operations := {}, map[], map[], map[], map[];
      utterances, discardQueue := map[], multiset{};
      shutdowns, discards, finalizes, commits, transcripts := [], multiset{}, multiset{}, multiset{}, map[];
    }

    // openStream. Asking again for the binding a session already has is granted without a change.
    method OpenStream(session: SessionId, stream: StreamId, id: ContextId) returns (granted: bool)
      requires IsNewest(Value(), id) && forall stream :: stream in streams ==> streams[stream] in contexts
      modifies `contexts, `streams, `sessionStreams
      ensures var next := Next(old(Value()), Open(session, stream, id));
              if next.Some? then granted && Value() == next.value
              else
                && Value() == old(Value())
                && (granted <==> && session !in ended && stream in streams && contexts[streams[stream]].active
                                 && contexts[streams[stream]].session == session)
    {
      if session in ended { return false; }
      if stream in streams {
        var existing := contexts[streams[stream]];
        return existing.active && existing.session == session;
      }
      if session in sessionStreams { return false; }
      if |streams| >= MAX_CONCURRENT_STREAMS { return false; }
      contexts := contexts[id := Context(session, stream, true, false, None, None, None)];
      streams := streams[stream := id];
      sessionStreams := sessionStreams[session := stream];
      granted := true;
    }

    method ReleaseStreamBinding(c: ContextId)
      requires c in contexts
      modifies `streams, `sessionStreams
      ensures Value() == Release(old(Value()), c)
    {
      var context := contexts[c];
      if context.stream in streams && streams[context.stream] == c { streams := streams - {context.stream}; }
      if context.session in sessionStreams && sessionStreams[context.session] == context.stream {
        sessionStreams := sessionStreams - {context.session};
      }
    }

    method TerminateContext(c: ContextId)
      requires c in contexts
      modifies `contexts, `streams, `sessionStreams
      ensures Value() == Terminate(old(Value()), c)
    {
      if !contexts[c].active { return; }
      contexts := contexts[c := contexts[c].(active := false)];
      ReleaseStreamBinding(c);
    }

    // What cancelStream, cancelSession, expireIdleStream and shutdown do before they first wait.
    method RevokeContext(c: ContextId)
      requires c in contexts
      modifies `contexts, `streams, `sessionStreams, `discardQueue
      ensures Value() == Revoke(old(Value()), c)
    {
      contexts := contexts[c := contexts[c].(active := false)];
      ReleaseStreamBinding(c);
      var u := contexts[c].utterance;
      if u.Some? && u.value in utterances && utterances[u.value].status.Capturing? {
        discardQueue := discardQueue + multiset{u.value};
      }
    }

    method CancelSession(session: SessionId)
      requires forall stream :: stream in streams ==> streams[stream] in contexts
      modifies `contexts, `streams, `sessionStreams, `discardQueue
      ensures Value() == (var next := Next(old(Value()), Event.CancelSession(session));
                          if next.Some? then next.value else old(Value()))
    {
      if session !in sessionStreams { return; }
      var stream := sessionStreams[session];
      if stream !in streams || contexts[streams[stream]].session != session {
        sessionStreams := sessionStreams - {session};
        return;
      }
      RevokeContext(streams[stream]);
    }

    method ExpireIdleStream(c: ContextId)
      requires c in contexts
      modifies `contexts, `streams, `sessionStreams, `discardQueue
      ensures Value() == (var next := Next(old(Value()), Expire(c));
                          if next.Some? then next.value else old(Value()))
    {
      var context := contexts[c];
      if !(&& context.active && context.stream in streams && streams[context.stream] == c
           && context.session in sessionStreams && sessionStreams[context.session] == context.stream) {
        return;
      }
      if context.operationInFlight { return; }
      RevokeContext(c);
    }

    method Shutdown(order: seq<ContextId>)
      requires forall i :: 0 <= i < |order| ==> order[i] in contexts
      modifies `contexts, `streams, `sessionStreams, `discardQueue
      ensures Value() == RevokeAll(old(Value()), order)
    {
      var i := 0;
      assert order[0..] == order;
      while i < |order|
        invariant 0 <= i <= |order|
        invariant contexts.Keys == old(contexts.Keys)
        invariant RevokeAll(Value(), order[i..]) == RevokeAll(old(Value()), order)
      {
        ghost var before := Value();
        RevokeAllStep(before, order, i);
        RevokeContext(order[i]);
        assert Value() == Revoke(before, order[i]);
        i := i + 1;
      }
    }
  }
}
