// The exposure-safe delivery protocol end to end: ledger, stream server, sockets, renderer client and
// crash recovery as one step system. Each event is one atomic step between two awaits, so every await
// is an interleaving point.
module ExposureProtocol {
  import opened Results
  import opened Sequences
  import opened DeliveryLedger
  import opened StreamServer
  import opened RendererClients

  // The memoised recovery of SessionRecoveryCoordinator.
  datatype Memo = NotRecovered | Recovering(todo: set<DeliveryId>) | RecoveryDone

  datatype Ack = Ack(kind: AckKind, id: DeliveryId)

  // The last eight components only record history: physical writes, messages still in a socket,
  // presentations begun and finished in the browser, acknowledgements ever sent and ever accepted,
  // deliveries withdrawn before they started, and deliveries publishDelivery reported as SENT.
  datatype World = World(
    ledger: Session,
    server: Server,
    memo: Memo,
    recoveredOnce: bool,
    client: Client,
    capacity: nat,
    writes: multiset<DeliveryId>,
    inflight: multiset<DeliveryId>,
    presents: multiset<DeliveryId>,
    finished: set<DeliveryId>,
    acks: set<Ack>,
    accepted: set<Ack>,
    withdrawn: set<DeliveryId>,
    reportedSent: set<DeliveryId>)

  datatype Event =
    // the rest of the application, acting on the ledger
    | Queue(id: DeliveryId, atom: Atom)
    | ChangeGenerations(generations: map<GenerationId, GenerationStatus>, compatible: set<GenerationId>)
    | Invalidate(ids: seq<DeliveryId>)
    | ReconnectCommand(id: DeliveryId)
    // the server process
    | Crash
    | BeginRecovery
    | RecoverOne(id: DeliveryId)
    | EndRecovery(ok: bool)
    | ForgetRecovery
    // connections
    | RequestClient(c: ConnectionId)
    | AbandonClient(c: ConnectionId)
    | SocketDies(c: ConnectionId)
    | CloseEvent(c: ConnectionId)
    | CloseSessionEvent
    | ClassifyOne(id: DeliveryId)
    | ClassifyDone
    // the publication in progress
    | Publish(id: DeliveryId)
    | RecoveryAwaited(audioAvailable: bool, tooLarge: bool)
    | RecoveryRejected
    | ExecuteAudio
    | ExecuteReconnect
    | ContinueWrite(tooLarge: bool, outcome: WriteOutcome)
    | DrainSettles(drained: bool)
    | ExecuteMark
    | ContinueMark
    // the browser
    | Receive(id: DeliveryId, fingerprint: nat)
    | Lose(id: DeliveryId)
    | Begin(id: DeliveryId)
    | Complete(id: DeliveryId)
    | RejectPresentation(id: DeliveryId)
    | SendAck(ack: Ack)
    | AckAnswered(ack: Ack)
    | Reload
    // an acknowledgement command reaching the server; it may be repeated, reordered or never arrive
    | ServeAck(ack: Ack)

  function Init(capacity: nat): World {
    World(EmptySession, EmptyServer, NotRecovered, false, EmptyClient, capacity,
          multiset{}, multiset{}, multiset{}, {}, {}, {}, {}, {})
  }

  // ---- Steps ----

  function StatusOf(s: Session, id: DeliveryId): Option<Status> {
    if id in s.deliveries then Some(s.deliveries[id].status) else None
  }

  function LedgerStep(w: World, e: Event): Option<World>
    requires e.Queue? || e.ChangeGenerations? || e.Invalidate? || e.ReconnectCommand?
  {
    match e
    case Queue(id, atom) =>
      // production makes a new id for every delivery; the reducer alone would accept a used one
      if id in w.ledger.deliveries then None
      else Some(w.(ledger := w.ledger.(deliveries := w.ledger.deliveries[id := atom.(status := Queued)])))
    case ChangeGenerations(generations, compatible) =>
      Some(w.(ledger := w.ledger.(generations := generations, compatible := compatible)))
    case Invalidate(ids) =>
      if !Distinct(ids) then None
      else (match ReduceAll(w.ledger, InvalidationDrafts(w.ledger, ids))
            case None => None
            case Some(ledger) =>
              Some(w.(ledger := ledger,
                      withdrawn := w.withdrawn + set id | id in ids && StatusOf(w.ledger, id) == Some(Queued))))
    case ReconnectCommand(id) => Some(w.(ledger := Commit(w.ledger, Reconnect(w.ledger, id))))
  }

  function RecoveryStep(w: World, e: Event): Option<World>
    requires e.Crash? || e.BeginRecovery? || e.RecoverOne? || e.EndRecovery? || e.ForgetRecovery?
  {
    match e
    case Crash => Some(w.(server := EmptyServer, memo := NotRecovered, recoveredOnce := false))
    case BeginRecovery =>
      if w.memo.NotRecovered? then Some(w.(memo := Recovering(InFlight(w.ledger)))) else None
    case RecoverOne(id) =>
      if !w.memo.Recovering? || id !in w.memo.todo then None
      else Some(w.(ledger := Commit(w.ledger, RecoverDelivery(w.ledger, id)),
                   memo := Recovering(w.memo.todo - {id})))
    case EndRecovery(ok) =>
      if !w.memo.Recovering? || (ok && w.memo.todo != {}) then None
      else if ok then Some(w.(memo := RecoveryDone, recoveredOnce := true, server := EndRecoveryWait(w.server, true)))
      else Some(w.(memo := NotRecovered, server := EndRecoveryWait(w.server, false)))
    case ForgetRecovery =>
      if w.memo.RecoveryDone? then Some(w.(memo := NotRecovered)) else None
  }

  function ConnectionStep(w: World, e: Event): Option<World>
    requires e.RequestClient? || e.AbandonClient? || e.SocketDies? || e.CloseEvent? || e.CloseSessionEvent?
      || e.ClassifyOne? || e.ClassifyDone?
  {
    match e
    case RequestClient(c) =>
      (match RequestAttach(w.server, c, w.memo.RecoveryDone?)
       case None => None
       case Some(server) => Some(w.(server := server)))
    case AbandonClient(c) => Some(w.(server := Abandon(w.server, c)))
    case SocketDies(c) => Some(w.(server := Close(w.server, c)))
    case CloseEvent(c) =>
      if c in w.server.connections && w.server.connections[c].closed
      then Some(w.(server := RemoveConnection(w.server, c))) else None
    case CloseSessionEvent => Some(w.(server := CloseSession(w.server)))
    case ClassifyOne(id) =>
      if w.server.classifications == [] || id !in Unvisited(w.server, w.server.classifications[0]) then None
      else Some(w.(ledger := Commit(w.ledger, MarkPossiblyExposed(w.ledger, id)),
                   server := Visit(w.server, id)))
    case ClassifyDone =>
      if w.server.classifications == [] || Unvisited(w.server, w.server.classifications[0]) != {} then None
      else Some(w.(server := EndClassification(w.server, w.memo.RecoveryDone?)))
  }

  // Takes a segment's outcome into the world: a physical write puts one copy of the command into the
  // socket, whatever became of the write afterwards.
  function Take(w: World, id: DeliveryId, segment: Segment): World {
    w.(server := segment.server,
       writes := if segment.wrote then w.writes + multiset{id} else w.writes,
       inflight := if segment.wrote then w.inflight + multiset{id} else w.inflight,
       reportedSent := if segment.result == Some(Sent(id)) then w.reportedSent + {id} else w.reportedSent)
  }

  function PublicationStep(w: World, e: Event): Option<World>
    requires e.Publish? || e.RecoveryAwaited? || e.RecoveryRejected? || e.ExecuteAudio?
      || e.ExecuteReconnect? || e.ContinueWrite? || e.DrainSettles? || e.ExecuteMark? || e.ContinueMark?
  {
    var p := w.server.publication;
    match e
    case Publish(id) =>
      if p.Idle? then Some(Take(w, id, BeginPublish(w.server, id))) else None
    case RecoveryAwaited(audioAvailable, tooLarge) =>
      if p.AwaitRecovery? && w.recoveredOnce && p.c in w.server.connections
      then Some(Take(w, p.id, AfterRecovery(w.server, w.ledger, audioAvailable, tooLarge))) else None
    case RecoveryRejected =>
      if p.AwaitRecovery? then Some(Take(w, p.id, StreamServer.Finish(w.server, Failed(p.id)))) else None
    case ExecuteAudio =>
      if p.AwaitAudioCancel? then
        Some(w.(ledger := Commit(w.ledger, CancelBeforeExposure(w.ledger, p.id)),
                server := w.server.(publication := Idle),
                withdrawn := if StatusOf(w.ledger, p.id) == Some(Queued) then w.withdrawn + {p.id} else w.withdrawn))
      else if p.AwaitAudioMark? then
        Some(w.(ledger := Commit(w.ledger, MarkPossiblyExposed(w.ledger, p.id)),
                server := w.server.(publication := Idle)))
      else None
    case ExecuteReconnect =>
      if !p.AwaitReconnect? then None
      else
        var t := Reconnect(w.ledger, p.id);
        Some(w.(ledger := Commit(w.ledger, t),
                server := w.server.(publication := Reconnected(p.c, p.id, t.Accept? && t.result.command))))
    case ContinueWrite(tooLarge, outcome) =>
      if p.Reconnected? && p.c in w.server.connections
      then Some(Take(w, p.id, AfterReconnect(w.server, w.ledger, tooLarge, outcome))) else None
    case DrainSettles(drained) =>
      if p.AwaitDrain? then Some(Take(w, p.id, AfterDrain(w.server, drained))) else None
    case ExecuteMark =>
      if !p.AwaitMark? then None
      else Some(w.(ledger := Commit(w.ledger, MarkPossiblyExposed(w.ledger, p.id)),
                   server := w.server.(publication := Marked(p.c, p.id, p.stalled))))
    case ContinueMark =>
      if p.Marked? then Some(Take(w, p.id, AfterMark(w.server, w.ledger))) else None
  }

  function BrowserStep(w: World, e: Event): Option<World>
    requires e.Receive? || e.Lose? || e.Begin? || e.Complete? || e.RejectPresentation?
      || e.SendAck? || e.AckAnswered? || e.Reload?
    requires forall id :: id in w.client.order ==> id in w.client.tracked
  {
    var tracked := w.client.tracked;
    match e
    case Receive(id, fingerprint) =>
      if id !in w.inflight then None
      else
        var left := w.inflight - multiset{id};
        (match Handle(w.client, w.capacity, id, fingerprint)
         case Present(client) => Some(w.(inflight := left, client := client))
         case _ => Some(w.(inflight := left)))
    case Lose(id) => if id in w.inflight then Some(w.(inflight := w.inflight - multiset{id})) else None
    case Begin(id) =>
      // A presenter that reported "did not begin" does not start afterwards.
      if id !in tracked || tracked[id].began || tracked[id].rejected then None
      else Some(w.(client := Update(w.client, id, tracked[id].(began := true)),
                   presents := w.presents + multiset{id}))
    case Complete(id) =>
      if id !in tracked || !tracked[id].began then None
      else Some(w.(client := Update(w.client, id, tracked[id].(finished := true)), finished := w.finished + {id}))
    case RejectPresentation(id) =>
      if id !in tracked || tracked[id].began then None
      else Some(w.(client := Update(w.client, id, tracked[id].(rejected := true))))
    case SendAck(ack) =>
      if ack.id !in tracked || !MaySend(tracked[ack.id], ack.kind) then None
      else Some(w.(acks := w.acks + {ack}))
    case AckAnswered(ack) =>
      if ack !in w.accepted || ack.id !in tracked then None
      else (match ack.kind
            case AckExposed => Some(w.(client := Update(w.client, ack.id, tracked[ack.id].(exposedAcked := true))))
            case AckCompleted => Some(w.(client := Update(w.client, ack.id, tracked[ack.id].(completedAcked := true))))
            case AckNotExposed => Some(w.(client := Forgotten(w.client, ack.id))))
    case Reload => Some(w.(client := EmptyClient))
  }

  function Acknowledge(s: Session, ack: Ack): Transition<bool> {
    match ack.kind
    case AckExposed => AcknowledgeExposed(s, ack.id)
    case AckCompleted => AcknowledgeCompleted(s, ack.id)
    case AckNotExposed => AcknowledgeNotExposed(s, ack.id)
  }

  function ServeAckStep(w: World, ack: Ack): Option<World> {
    if ack !in w.acks then None
    else
      var t := Acknowledge(w.ledger, ack);
      Some(w.(ledger := Commit(w.ledger, t), accepted := if t.Accept? then w.accepted + {ack} else w.accepted))
  }

  function Next(w: World, e: Event): Option<World>
    requires forall id :: id in w.client.order ==> id in w.client.tracked
  {
    match e
    case Queue(_, _) => LedgerStep(w, e)
    case ChangeGenerations(_, _) => LedgerStep(w, e)
    case Invalidate(_) => LedgerStep(w, e)
    case ReconnectCommand(_) => LedgerStep(w, e)
    case Crash => RecoveryStep(w, e)
    case BeginRecovery => RecoveryStep(w, e)
    case RecoverOne(_) => RecoveryStep(w, e)
    case EndRecovery(_) => RecoveryStep(w, e)
    case ForgetRecovery => RecoveryStep(w, e)
    case RequestClient(_) => ConnectionStep(w, e)
    case AbandonClient(_) => ConnectionStep(w, e)
    case SocketDies(_) => ConnectionStep(w, e)
    case CloseEvent(_) => ConnectionStep(w, e)
    case CloseSessionEvent => ConnectionStep(w, e)
    case ClassifyOne(_) => ConnectionStep(w, e)
    case ClassifyDone => ConnectionStep(w, e)
    case Publish(_) => PublicationStep(w, e)
    case RecoveryAwaited(_, _) => PublicationStep(w, e)
    case RecoveryRejected => PublicationStep(w, e)
    case ExecuteAudio => PublicationStep(w, e)
    case ExecuteReconnect => PublicationStep(w, e)
    case ContinueWrite(_, _) => PublicationStep(w, e)
    case DrainSettles(_) => PublicationStep(w, e)
    case ExecuteMark => PublicationStep(w, e)
    case ContinueMark => PublicationStep(w, e)
    case Receive(_, _) => BrowserStep(w, e)
    case Lose(_) => BrowserStep(w, e)
    case Begin(_) => BrowserStep(w, e)
    case Complete(_) => BrowserStep(w, e)
    case RejectPresentation(_) => BrowserStep(w, e)
    case SendAck(_) => BrowserStep(w, e)
    case AckAnswered(_) => BrowserStep(w, e)
    case Reload => BrowserStep(w, e)
    case ServeAck(ack) => ServeAckStep(w, ack)
  }

  // ---- The invariant ----

  // A written delivery that is still DELIVERING is always owned by someone who will classify it.
  ghost predicate Accounted(w: World, id: DeliveryId) {
    match w.server.attached
    case Some(c) => c in w.server.connections && id in w.server.connections[c].sent
    case None =>
      if w.recoveredOnce
      then exists i :: 0 <= i < |w.server.classifications| && id in Unvisited(w.server, w.server.classifications[i])
      else w.memo.NotRecovered? || (w.memo.Recovering? && id in w.memo.todo)
  }

  predicate Publishing(p: Publication, id: DeliveryId) {
    (p.AwaitReconnect? || p.Reconnected?) && p.id == id
  }

  predicate HoldsConnection(p: Publication) {
    !p.Idle? && !p.AwaitAudioCancel? && !p.AwaitAudioMark?
  }

  ghost predicate WriteInv(w: World, id: DeliveryId) {
    var status := StatusOf(w.ledger, id);
    && w.writes[id] <= 1
    && (w.writes[id] > 0 ==> status.Some? && status != Some(Queued))
    && (w.writes[id] > 0 && status == Some(Delivering) ==> Accounted(w, id))
    && (Publishing(w.server.publication, id) ==> w.writes[id] == 0)
    && (id in w.withdrawn ==> status == Some(Cancelled) && w.writes[id] == 0)
    && (id in w.reportedSent ==> w.writes[id] > 0)
  }

  ghost predicate ClientInv(w: World, id: DeliveryId) {
    var tracked := w.client.tracked;
    && w.presents[id] + w.inflight[id] + (if id in tracked && !tracked[id].began then 1 else 0) <= w.writes[id]
    && (id in w.finished ==> w.presents[id] > 0)
    && (id in tracked ==>
          && (tracked[id].began ==> w.presents[id] > 0 && !tracked[id].rejected)
          && (tracked[id].finished ==> id in w.finished)
          && (tracked[id].exposedAcked ==> Ack(AckExposed, id) in w.accepted)
          && (tracked[id].completedAcked ==> Ack(AckCompleted, id) in w.accepted))
  }

  ghost predicate AckInv(w: World, id: DeliveryId) {
    var status := StatusOf(w.ledger, id);
    && (Ack(AckExposed, id) in w.acks ==> w.presents[id] > 0)
    && (Ack(AckCompleted, id) in w.acks ==> id in w.finished && Ack(AckExposed, id) in w.accepted)
    && (Ack(AckNotExposed, id) in w.acks ==>
          && w.presents[id] == 0 && w.inflight[id] == 0 && w.writes[id] == 1
          && (id in w.client.tracked ==> w.client.tracked[id].rejected))
    && (Ack(AckExposed, id) in w.accepted <==> status == Some(Exposed) || status == Some(Completed))
    && (Ack(AckCompleted, id) in w.accepted <==> status == Some(Completed))
    && (Ack(AckExposed, id) in w.accepted ==> Ack(AckExposed, id) in w.acks)
    && (Ack(AckCompleted, id) in w.accepted ==> Ack(AckCompleted, id) in w.acks)
    && (Ack(AckNotExposed, id) in w.accepted ==> Ack(AckNotExposed, id) in w.acks && status == Some(Cancelled))
    && (status == Some(Cancelled) ==> id in w.withdrawn || Ack(AckNotExposed, id) in w.acks)
  }

  ghost predicate ServerInv(w: World) {
    var s := w.server;
    var p := s.publication;
    && (s.attached.Some? ==> s.attached.value in s.connections && w.recoveredOnce)
    && (HoldsConnection(p) ==>
          && p.c in s.connections
          && (s.attached == Some(p.c) || s.connections[p.c].closed))
    && ((p.AwaitReconnect? || p.Reconnected?) && !s.connections[p.c].closed ==> p.id in s.connections[p.c].sent)
    && (!p.Idle? ==> w.recoveredOnce)
    && (forall c, id :: c in s.connections && !s.connections[c].closed && id in s.connections[c].sent ==>
          w.writes[id] > 0 || (Publishing(p, id) && p.c == c))
    && (p.AwaitRecovery? ==> forall id :: id in s.connections[p.c].sent ==> w.writes[id] > 0)
    && (p.AwaitDrain? || p.AwaitMark? || p.Marked? ==> w.writes[p.id] > 0)
  }

  // What the waits of an attach request come to: while one waits for classifications it waits for all
  // there are, while one waits for recovery there are none, and meanwhile nobody else gets attached.
  predicate AttachInv(w: World) {
    var s := w.server;
    && (w.memo.RecoveryDone? ==> w.recoveredOnce)
    && (s.awaiting != [] ==> s.attached.None? && s.classifications != [])
    && (forall i :: 0 <= i < |s.awaiting| ==> s.awaiting[i].left == |s.classifications|)
    && (s.recovering != [] ==> s.attached.None? && s.classifications == [] && !w.memo.RecoveryDone?)
  }

  ghost predicate Inv(w: World) {
    && w.capacity > 0
    && Valid(w.client, w.capacity)
    && ServerInv(w)
    && AttachInv(w)
    && (forall id :: WriteInv(w, id))
    && (forall id :: ClientInv(w, id))
    && (forall id :: AckInv(w, id))
  }

  lemma InitInv(capacity: nat)
    requires capacity > 0
    ensures Inv(Init(capacity))
  {
  }

  // ---- Ledger-only steps ----

  // The status changes that other parts of the application make behind the protocol's back.
  predicate QuietMove(before: Option<Status>, after: Option<Status>, withdrawn: bool) {
    || before == after
    || (before == None && after == Some(Queued))
    || (before == Some(Queued) && after == Some(Delivering))
    || (before == Some(Queued) && after == Some(Cancelled) && withdrawn)
    || (before == Some(Delivering) && after == Some(PossiblyExposed))
  }

  lemma QuietLedgerStepKeepsInv(w: World, ledger: Session, withdrawn: set<DeliveryId>)
    requires Inv(w)
    requires forall id :: QuietMove(StatusOf(w.ledger, id), StatusOf(ledger, id), id in withdrawn)
    requires forall id :: id in withdrawn <==>
      id in w.withdrawn || (StatusOf(w.ledger, id) == Some(Queued) && StatusOf(ledger, id) == Some(Cancelled))
    ensures Inv(w.(ledger := ledger, withdrawn := withdrawn))
  {
    var n := w.(ledger := ledger, withdrawn := withdrawn);
    forall id
      ensures WriteInv(n, id) && ClientInv(n, id) && AckInv(n, id)
    {
      assert WriteInv(w, id) && ClientInv(w, id) && AckInv(w, id);
      assert QuietMove(StatusOf(w.ledger, id), StatusOf(ledger, id), id in withdrawn);
      assert Accounted(w, id) ==> Accounted(n, id);
    }
  }

  lemma OneStatusStepKeepsInv(w: World, ledger: Session, id: DeliveryId)
    requires Inv(w)
    requires ledger == w.ledger || (id in w.ledger.deliveries && (
        (w.ledger.deliveries[id].status == Queued && ledger == SetStatus(w.ledger, id, Delivering)) ||
        (w.ledger.deliveries[id].status == Delivering && ledger == SetStatus(w.ledger, id, PossiblyExposed))))
    ensures Inv(w.(ledger := ledger))
  {
    forall o
      ensures QuietMove(StatusOf(w.ledger, o), StatusOf(ledger, o), o in w.withdrawn)
    {
    }
    QuietLedgerStepKeepsInv(w, ledger, w.withdrawn);
    assert w.(ledger := ledger, withdrawn := w.withdrawn) == w.(ledger := ledger);
  }

  lemma MarkKeepsInv(w: World, id: DeliveryId)
    requires Inv(w)
    ensures Inv(w.(ledger := Commit(w.ledger, MarkPossiblyExposed(w.ledger, id))))
    ensures Commit(w.ledger, MarkPossiblyExposed(w.ledger, id)) == Commit(w.ledger, RecoverDelivery(w.ledger, id))
    ensures StatusOf(Commit(w.ledger, MarkPossiblyExposed(w.ledger, id)), id) != Some(Delivering)
  {
    if id in w.ledger.deliveries { CommitEffects(w.ledger, id); }
    OneStatusStepKeepsInv(w, Commit(w.ledger, MarkPossiblyExposed(w.ledger, id)), id);
  }

  lemma ReconnectKeepsInv(w: World, id: DeliveryId)
    requires Inv(w)
    ensures Inv(w.(ledger := Commit(w.ledger, Reconnect(w.ledger, id))))
  {
    if id in w.ledger.deliveries { CommitEffects(w.ledger, id); }
    OneStatusStepKeepsInv(w, Commit(w.ledger, Reconnect(w.ledger, id)), id);
  }

  lemma LedgerStepKeepsInv(w: World, e: Event)
    requires Inv(w)
    requires e.Queue? || e.ChangeGenerations? || e.Invalidate? || e.ReconnectCommand?
    requires LedgerStep(w, e).Some?
    ensures Inv(LedgerStep(w, e).value)
  {
    var n := LedgerStep(w, e).value;
    if e.ReconnectCommand? {
      ReconnectKeepsInv(w, e.id);
    } else if e.Invalidate? {
      InvalidationEffect(w.ledger, w.ledger, e.ids);
      QuietLedgerStepKeepsInv(w, n.ledger, n.withdrawn);
    } else {
      QuietLedgerStepKeepsInv(w, n.ledger, w.withdrawn);
      assert n == w.(ledger := n.ledger, withdrawn := w.withdrawn);
    }
  }

  // ---- Recovery steps ----

  // A step that touches only the server's volatile side leaves browser and acknowledgements alone.
  lemma VolatileStepKeepsInv(w: World, n: World)
    requires Inv(w)
    requires n == w.(server := n.server, memo := n.memo, recoveredOnce := n.recoveredOnce)
    requires ServerInv(n) && AttachInv(n)
    requires forall id :: WriteInv(w, id) ==> WriteInv(n, id)
    ensures Inv(n)
  {
    forall id
      ensures WriteInv(n, id) && ClientInv(n, id) && AckInv(n, id)
    {
      assert WriteInv(w, id) && ClientInv(w, id) && AckInv(w, id);
    }
  }

  lemma RecoverOneKeepsInv(w: World, id: DeliveryId)
    requires Inv(w) && RecoveryStep(w, RecoverOne(id)).Some?
    ensures Inv(RecoveryStep(w, RecoverOne(id)).value)
  {
    var n := RecoveryStep(w, RecoverOne(id)).value;
    MarkKeepsInv(w, id);
    var m := w.(ledger := n.ledger);
    assert StatusOf(m.ledger, id) != Some(Delivering);
    forall o | WriteInv(m, o)
      ensures WriteInv(n, o)
    {
      assert o != id && Accounted(m, o) ==> Accounted(n, o);
    }
    VolatileStepKeepsInv(m, n);
  }

  // ---- Connection steps ----

  lemma CloseKeepsInv(w: World, c: ConnectionId)
    requires Inv(w)
    ensures Inv(w.(server := Close(w.server, c)))
  {
    var n := w.(server := Close(w.server, c));
    forall o | WriteInv(w, o)
      ensures WriteInv(n, o)
    {
      if Accounted(w, o) && w.server.attached.None? && w.recoveredOnce {
        var i :| 0 <= i < |w.server.classifications| && o in Unvisited(w.server, w.server.classifications[i]);
        assert o in Unvisited(n.server, n.server.classifications[i]);
      }
    }
    VolatileStepKeepsInv(w, n);
  }

  // Unregistering a connection hands every delivery it sent to a new classification. The publication
  // in progress, if it holds that very connection, must already have seen it closed.
  lemma RemoveKeepsInv(w: World, c: ConnectionId)
    requires Inv(w)
    requires HoldsConnection(w.server.publication) && w.server.publication.c == c ==>
      c in w.server.connections && w.server.connections[c].closed
    ensures Inv(w.(server := RemoveConnection(w.server, c)))
  {
    var n := w.(server := RemoveConnection(w.server, c));
    if w.server.attached == Some(c) {
      var last := |w.server.classifications|;
      assert n.server.classifications[last] == Classification(c, {});
      forall o | WriteInv(w, o)
        ensures WriteInv(n, o)
      {
        if Accounted(w, o) {
          assert o in Unvisited(n.server, n.server.classifications[last]);
          assert Accounted(n, o);
        }
      }
    }
    VolatileStepKeepsInv(w, n);
  }

  // What a new connection must be able to rely on: no delivery that was written is still DELIVERING.
  ghost predicate NothingUncertain(w: World) {
    forall id :: w.writes[id] > 0 ==> StatusOf(w.ledger, id) != Some(Delivering)
  }

  // The same as a check on the server's own state: no pending classification still has a delivery to
  // mark. It holds in particular once awaitDisconnectClassification finds nothing pending.
  predicate Classified(w: World) {
    forall i :: 0 <= i < |w.server.classifications| ==>
      forall id :: id in Unvisited(w.server, w.server.classifications[i]) ==>
        StatusOf(w.ledger, id) != Some(Delivering)
  }

  lemma ClassifiedLeavesNothingUncertain(w: World)
    requires Inv(w) && w.recoveredOnce && w.server.attached.None? && Classified(w)
    ensures NothingUncertain(w)
  {
    forall id | w.writes[id] > 0
      ensures StatusOf(w.ledger, id) != Some(Delivering)
    {
      assert WriteInv(w, id);
    }
  }

  lemma RegisterKeepsInv(w: World, c: ConnectionId)
    requires Inv(w) && w.recoveredOnce && w.server.awaiting == [] && w.server.recovering == []
    requires w.server.attached.None? ==> NothingUncertain(w)
    ensures Inv(w.(server := Register(w.server, c)))
    ensures var n := Register(w.server, c);
      n.awaiting == [] && n.recovering == [] && n.classifications == w.server.classifications
      && (w.server.attached.Some? ==> n == w.server)
  {
    VolatileStepKeepsInv(w, w.(server := Register(w.server, c)));
  }

  // Of several requests whose waits end together the first is attached and the others are refused.
  lemma {:induction false} RegisterAllKeepsInv(w: World, cs: seq<ConnectionId>)
    requires Inv(w) && w.recoveredOnce && w.server.awaiting == [] && w.server.recovering == []
    requires w.server.attached.None? ==> NothingUncertain(w)
    ensures Inv(w.(server := RegisterAll(w.server, cs)))
    decreases cs
  {
    if cs == [] {
      assert w.(server := RegisterAll(w.server, cs)) == w;
    } else {
      RegisterKeepsInv(w, cs[0]);
      RegisterAllKeepsInv(w.(server := Register(w.server, cs[0])), cs[1..]);
    }
  }

  // Requests that reach the await of recovery with nothing left to classify.
  lemma AwaitRecoveredKeepsInv(w: World, cs: seq<ConnectionId>)
    requires Inv(w) && w.server.awaiting == [] && w.server.classifications == [] && w.server.attached.None?
    ensures Inv(w.(server := AwaitRecovered(w.server, cs, w.memo.RecoveryDone?)))
  {
    if w.memo.RecoveryDone? {
      ClassifiedLeavesNothingUncertain(w);
      RegisterAllKeepsInv(w, cs);
    } else {
      VolatileStepKeepsInv(w, w.(server := AwaitRecovered(w.server, cs, false)));
    }
  }

  lemma RequestClientKeepsInv(w: World, c: ConnectionId)
    requires Inv(w) && ConnectionStep(w, RequestClient(c)).Some?
    ensures Inv(ConnectionStep(w, RequestClient(c)).value)
  {
    if w.server.classifications == [] {
      AwaitRecoveredKeepsInv(w, [c]);
    } else {
      VolatileStepKeepsInv(w, ConnectionStep(w, RequestClient(c)).value);
    }
  }

  lemma {:induction false} WithoutAwaitingMembers(awaiting: seq<Awaiting>, c: ConnectionId, left: nat)
    requires forall i :: 0 <= i < |awaiting| ==> awaiting[i].left == left
    ensures forall i :: 0 <= i < |WithoutAwaiting(awaiting, c)| ==> WithoutAwaiting(awaiting, c)[i].left == left
    ensures awaiting == [] ==> WithoutAwaiting(awaiting, c) == []
  {
    if awaiting != [] { WithoutAwaitingMembers(awaiting[1..], c, left); }
  }

  lemma AbandonKeepsInv(w: World, c: ConnectionId)
    requires Inv(w)
    ensures Inv(w.(server := Abandon(w.server, c)))
  {
    WithoutAwaitingMembers(w.server.awaiting, c, |w.server.classifications|);
    VolatileStepKeepsInv(w, w.(server := Abandon(w.server, c)));
  }

  // Requests that all wait for the same number of classifications: one fewer for each, or all go on.
  lemma {:induction false} WaitsShrink(awaiting: seq<Awaiting>, left: nat)
    requires forall i :: 0 <= i < |awaiting| ==> awaiting[i].left == left
    ensures forall i :: 0 <= i < |StillAwaiting(awaiting)| ==> StillAwaiting(awaiting)[i].left == left - 1
    ensures left > 1 ==> Resuming(awaiting) == [] && (awaiting == [] ==> StillAwaiting(awaiting) == [])
    ensures left <= 1 ==> StillAwaiting(awaiting) == []
    ensures awaiting == [] ==> Resuming(awaiting) == []
  {
    if awaiting != [] { WaitsShrink(awaiting[1..], left); }
  }

  lemma ClassifyOneKeepsInv(w: World, id: DeliveryId)
    requires Inv(w) && ConnectionStep(w, ClassifyOne(id)).Some?
    ensures Inv(ConnectionStep(w, ClassifyOne(id)).value)
  {
    var n := ConnectionStep(w, ClassifyOne(id)).value;
    MarkKeepsInv(w, id);
    var m := w.(ledger := n.ledger);
    forall o | WriteInv(m, o)
      ensures WriteInv(n, o)
    {
      if o != id && Accounted(m, o) && m.server.attached.None? && m.recoveredOnce {
        var i :| 0 <= i < |m.server.classifications| && o in Unvisited(m.server, m.server.classifications[i]);
        assert o in Unvisited(n.server, n.server.classifications[i]);
      }
    }
    VolatileStepKeepsInv(m, n);
  }

  // The classification that ends, before the requests that waited for it go on.
  function WithoutHead(w: World): World
    requires w.server.classifications != []
  {
    w.(server := w.server.(classifications := w.server.classifications[1..], awaiting := StillAwaiting(w.server.awaiting)))
  }

  lemma WithoutHeadKeepsInv(w: World)
    requires Inv(w) && ConnectionStep(w, ClassifyDone).Some?
    ensures Inv(WithoutHead(w))
  {
    var n := WithoutHead(w);
    WaitsShrink(w.server.awaiting, |w.server.classifications|);
    forall o | WriteInv(w, o)
      ensures WriteInv(n, o)
    {
      if Accounted(w, o) && w.server.attached.None? && w.recoveredOnce {
        var i :| 0 <= i < |w.server.classifications| && o in Unvisited(w.server, w.server.classifications[i]);
        assert i != 0;
        assert o in Unvisited(n.server, n.server.classifications[i - 1]);
      }
    }
    VolatileStepKeepsInv(w, n);
  }

  lemma ClassifyDoneKeepsInv(w: World)
    requires Inv(w) && ConnectionStep(w, ClassifyDone).Some?
    ensures Inv(ConnectionStep(w, ClassifyDone).value)
  {
    var m, resumed := WithoutHead(w), Resuming(w.server.awaiting);
    WithoutHeadKeepsInv(w);
    WaitsShrink(w.server.awaiting, |w.server.classifications|);
    if resumed == [] {
      assert m.server.recovering + [] == m.server.recovering;
      assert AwaitRecovered(m.server, resumed, m.memo.RecoveryDone?) == m.server;
    } else {
      AwaitRecoveredKeepsInv(m, resumed);
    }
  }

  lemma ConnectionStepKeepsInv(w: World, e: Event)
    requires Inv(w)
    requires e.RequestClient? || e.AbandonClient? || e.SocketDies? || e.CloseEvent? || e.CloseSessionEvent?
      || e.ClassifyOne? || e.ClassifyDone?
    requires ConnectionStep(w, e).Some?
    ensures Inv(ConnectionStep(w, e).value)
  {
    if e.RequestClient? {
      RequestClientKeepsInv(w, e.c);
    } else if e.AbandonClient? {
      AbandonKeepsInv(w, e.c);
    } else if e.SocketDies? {
      CloseKeepsInv(w, e.c);
    } else if e.CloseEvent? {
      RemoveKeepsInv(w, e.c);
    } else if e.CloseSessionEvent? {
      if w.server.attached.Some? {
        var c := w.server.attached.value;
        CloseKeepsInv(w, c);
        RemoveKeepsInv(w.(server := Close(w.server, c)), c);
      }
    } else if e.ClassifyOne? {
      ClassifyOneKeepsInv(w, e.id);
    } else {
      ClassifyDoneKeepsInv(w);
    }
  }

  // ---- Recovery as a whole ----

  lemma EndRecoveryKeepsInv(w: World, ok: bool)
    requires Inv(w) && RecoveryStep(w, EndRecovery(ok)).Some?
    ensures Inv(RecoveryStep(w, EndRecovery(ok)).value)
  {
    var server := w.server.(recovering := []);
    var m := if ok then w.(memo := RecoveryDone, recoveredOnce := true, server := server)
             else w.(memo := NotRecovered, server := server);
    VolatileStepKeepsInv(w, m);
    if ok {
      if w.server.recovering == [] {
        assert RecoveryStep(w, EndRecovery(ok)).value == m;
      } else {
        ClassifiedLeavesNothingUncertain(m);
        RegisterAllKeepsInv(m, w.server.recovering);
      }
    }
  }

  lemma RecoveryStepKeepsInv(w: World, e: Event)
    requires Inv(w)
    requires e.Crash? || e.BeginRecovery? || e.RecoverOne? || e.EndRecovery? || e.ForgetRecovery?
    requires RecoveryStep(w, e).Some?
    ensures Inv(RecoveryStep(w, e).value)
  {
    var n := RecoveryStep(w, e).value;
    if e.RecoverOne? {
      RecoverOneKeepsInv(w, e.id);
    } else if e.EndRecovery? {
      EndRecoveryKeepsInv(w, e.ok);
    } else {
      forall o | WriteInv(w, o)
        ensures WriteInv(n, o)
      {
        assert StatusOf(w.ledger, o) == Some(Delivering) ==> o in InFlight(w.ledger);
      }
      VolatileStepKeepsInv(w, n);
    }
  }

  // ---- Publication steps ----

  function Suspended(w: World, p: Publication): World {
    w.(server := w.server.(publication := p))
  }

  lemma SuspendedKeepsAccounting(w: World, p: Publication, id: DeliveryId)
    requires WriteInv(w, id) && (Publishing(p, id) ==> w.writes[id] == 0)
    ensures WriteInv(Suspended(w, p), id)
  {
    var n := Suspended(w, p);
    if Accounted(w, id) && w.server.attached.None? && w.recoveredOnce {
      var i :| 0 <= i < |w.server.classifications| && id in Unvisited(w.server, w.server.classifications[i]);
      assert id in Unvisited(n.server, n.server.classifications[i]);
    }
  }

  lemma SuspendKeepsInv(w: World, p: Publication)
    requires Inv(w) && ServerInv(Suspended(w, p))
    requires forall id :: Publishing(p, id) ==> w.writes[id] == 0
    ensures Inv(Suspended(w, p))
  {
    forall id | WriteInv(w, id)
      ensures WriteInv(Suspended(w, p), id)
    {
      SuspendedKeepsAccounting(w, p, id);
    }
    VolatileStepKeepsInv(w, Suspended(w, p));
  }

  // A publication may end with an unwritten id in a sent set only on a connection that is closed.
  lemma IdleKeepsInv(w: World)
    requires Inv(w)
    requires w.server.publication.AwaitReconnect? || w.server.publication.Reconnected? ==>
      w.server.connections[w.server.publication.c].closed
    ensures Inv(Suspended(w, Idle))
  {
    SuspendKeepsInv(w, Idle);
  }

  lemma ReportKeepsInv(w: World, id: DeliveryId)
    requires Inv(w) && w.writes[id] > 0
    ensures Inv(w.(reportedSent := w.reportedSent + {id}))
  {
    var n := w.(reportedSent := w.reportedSent + {id});
    forall o
      ensures WriteInv(n, o) && ClientInv(n, o) && AckInv(n, o)
    {
      assert WriteInv(w, o) && ClientInv(w, o) && AckInv(w, o);
      assert Accounted(w, o) ==> Accounted(n, o);
    }
  }

  lemma RemoveAndIdleKeepsInv(w: World, c: ConnectionId)
    requires Inv(w) && c in w.server.connections && w.server.connections[c].closed
    requires w.server.publication.AwaitReconnect? || w.server.publication.Reconnected? ==>
      w.server.connections[w.server.publication.c].closed
    ensures Inv(Suspended(w.(server := RemoveConnection(w.server, c)), Idle))
  {
    RemoveKeepsInv(w, c);
    IdleKeepsInv(w.(server := RemoveConnection(w.server, c)));
  }

  // The stream never holds an unwritten delivery's id longer than its publication.
  lemma ForgetKeepsInv(w: World)
    requires Inv(w) && w.server.publication.Reconnected?
    ensures Inv(Suspended(w.(server := Forget(w.server, w.server.publication.c, w.server.publication.id)), Idle))
  {
    var c, id := w.server.publication.c, w.server.publication.id;
    assert WriteInv(w, id);
    var n := Suspended(w.(server := Forget(w.server, c, id)), Idle);
    forall o | WriteInv(w, o)
      ensures WriteInv(n, o)
    {
      if o != id && Accounted(w, o) && w.server.attached.None? && w.recoveredOnce {
        var i :| 0 <= i < |w.server.classifications| && o in Unvisited(w.server, w.server.classifications[i]);
        assert o in Unvisited(n.server, n.server.classifications[i]);
      }
    }
    VolatileStepKeepsInv(w, n);
  }

  lemma RememberKeepsInv(w: World)
    requires Inv(w) && w.server.publication.AwaitRecovery?
    requires var c := w.server.publication.c; c in w.server.connections && !w.server.connections[c].closed
    requires w.writes[w.server.publication.id] == 0
    ensures var c, id := w.server.publication.c, w.server.publication.id;
      Inv(Suspended(w.(server := Remember(w.server, c, id)), AwaitReconnect(c, id)))
  {
    var c, id := w.server.publication.c, w.server.publication.id;
    var n := Suspended(w.(server := Remember(w.server, c, id)), AwaitReconnect(c, id));
    forall o | WriteInv(w, o)
      ensures WriteInv(n, o)
    {
    }
    VolatileStepKeepsInv(w, n);
  }

  lemma PublishKeepsInv(w: World, id: DeliveryId)
    requires Inv(w) && PublicationStep(w, Publish(id)).Some?
    ensures Inv(PublicationStep(w, Publish(id)).value)
  {
    if w.server.attached.None? {
      IdleKeepsInv(w);
    } else {
      var c := w.server.attached.value;
      if w.server.connections[c].closed {
        RemoveAndIdleKeepsInv(w, c);
      } else {
        SuspendKeepsInv(w, AwaitRecovery(c, id));
      }
    }
  }

  lemma ReleaseKeepsInv(w: World, p: Publication)
    requires Inv(w) && w.server.publication.AwaitRecovery? && !HoldsConnection(p)
    ensures Inv(Suspended(w, p))
  {
    SuspendKeepsInv(w, p);
  }

  // The decision after recovery: a written delivery never gets past it.
  lemma WrittenStopsHere(w: World, audioAvailable: bool, tooLarge: bool)
    requires Inv(w) && w.server.publication.AwaitRecovery?
    ensures var segment := AfterRecovery(w.server, w.ledger, audioAvailable, tooLarge);
      var id := w.server.publication.id;
      && (segment.result == Some(Sent(id)) ==> w.writes[id] > 0)
      && (segment.server.publication.AwaitReconnect? ==> w.writes[id] == 0)
  {
    assert WriteInv(w, w.server.publication.id);
  }

  lemma TakeKeepsInv(w: World, id: DeliveryId, segment: Segment)
    requires Inv(w.(server := segment.server)) && !segment.wrote
    requires segment.result == Some(Sent(id)) ==> w.writes[id] > 0
    ensures Inv(Take(w, id, segment))
  {
    var m := w.(server := segment.server);
    if segment.result == Some(Sent(id)) {
      ReportKeepsInv(m, id);
      assert Take(w, id, segment) == m.(reportedSent := m.reportedSent + {id});
    } else {
      assert Take(w, id, segment) == m;
    }
  }

  lemma AfterRecoveryKeepsInv(w: World, audioAvailable: bool, tooLarge: bool)
    requires Inv(w) && w.server.publication.AwaitRecovery?
    ensures Inv(w.(server := AfterRecovery(w.server, w.ledger, audioAvailable, tooLarge).server))
  {
    var c, id := w.server.publication.c, w.server.publication.id;
    var segment := AfterRecovery(w.server, w.ledger, audioAvailable, tooLarge);
    WrittenStopsHere(w, audioAvailable, tooLarge);
    if segment.result == Some(NoClient(id)) {
      RemoveAndIdleKeepsInv(w, c);
    } else if segment.server.publication.AwaitReconnect? {
      RememberKeepsInv(w);
    } else {
      ReleaseKeepsInv(w, segment.server.publication);
    }
  }

  lemma RecoveryAwaitedKeepsInv(w: World, audioAvailable: bool, tooLarge: bool)
    requires Inv(w) && PublicationStep(w, RecoveryAwaited(audioAvailable, tooLarge)).Some?
    ensures Inv(PublicationStep(w, RecoveryAwaited(audioAvailable, tooLarge)).value)
  {
    WrittenStopsHere(w, audioAvailable, tooLarge);
    AfterRecoveryKeepsInv(w, audioAvailable, tooLarge);
    TakeKeepsInv(w, w.server.publication.id, AfterRecovery(w.server, w.ledger, audioAvailable, tooLarge));
  }

  lemma ExecuteAudioKeepsInv(w: World)
    requires Inv(w) && PublicationStep(w, ExecuteAudio).Some?
    ensures Inv(PublicationStep(w, ExecuteAudio).value)
  {
    var n := PublicationStep(w, ExecuteAudio).value;
    var id := w.server.publication.id;
    if id in w.ledger.deliveries { CommitEffects(w.ledger, id); }
    var m := w.(ledger := n.ledger, withdrawn := n.withdrawn);
    if w.server.publication.AwaitAudioCancel? {
      QuietLedgerStepKeepsInv(w, n.ledger, n.withdrawn);
    } else {
      MarkKeepsInv(w, id);
      assert m == w.(ledger := n.ledger);
    }
    IdleKeepsInv(m);
  }

  lemma ExecuteReconnectKeepsInv(w: World)
    requires Inv(w) && PublicationStep(w, ExecuteReconnect).Some?
    ensures Inv(PublicationStep(w, ExecuteReconnect).value)
  {
    var n := PublicationStep(w, ExecuteReconnect).value;
    var id := w.server.publication.id;
    assert WriteInv(w, id);
    ReconnectKeepsInv(w, id);
    SuspendKeepsInv(w.(ledger := n.ledger), n.server.publication);
  }

  // The physical write itself: only ever of a delivery never written before.
  lemma WriteKeepsInv(w: World, outcome: WriteOutcome)
    requires Inv(w) && PublicationStep(w, ContinueWrite(false, outcome)).Some?
    requires AfterReconnect(w.server, w.ledger, false, outcome).wrote
    ensures Inv(PublicationStep(w, ContinueWrite(false, outcome)).value)
  {
    var n := PublicationStep(w, ContinueWrite(false, outcome)).value;
    var id := w.server.publication.id;
    assert WriteInv(w, id) && ClientInv(w, id) && AckInv(w, id);
    forall o
      ensures WriteInv(n, o) && ClientInv(n, o) && AckInv(n, o)
    {
      assert WriteInv(w, o) && ClientInv(w, o) && AckInv(w, o);
      if o != id { SuspendedKeepsAccounting(w, n.server.publication, o); }
      assert o != id && Accounted(w, o) ==> Accounted(n, o);
    }
  }

  lemma ContinueWriteKeepsInv(w: World, tooLarge: bool, outcome: WriteOutcome)
    requires Inv(w) && PublicationStep(w, ContinueWrite(tooLarge, outcome)).Some?
    ensures Inv(PublicationStep(w, ContinueWrite(tooLarge, outcome)).value)
  {
    var segment := AfterReconnect(w.server, w.ledger, tooLarge, outcome);
    if segment.wrote {
      WriteKeepsInv(w, outcome);
    } else if segment.result == Some(NoClient(w.server.publication.id)) {
      RemoveAndIdleKeepsInv(w, w.server.publication.c);
    } else {
      ForgetKeepsInv(w);
    }
  }

  lemma ContinueMarkKeepsInv(w: World)
    requires Inv(w) && PublicationStep(w, ContinueMark).Some?
    ensures Inv(PublicationStep(w, ContinueMark).value)
  {
    var c, id := w.server.publication.c, w.server.publication.id;
    IdleKeepsInv(w);
    var m := Suspended(w, Idle);
    if w.server.publication.stalled {
      CloseKeepsInv(m, c);
      m := m.(server := Close(m.server, c));
    }
    RemoveKeepsInv(m, c);
    m := m.(server := RemoveConnection(m.server, c));
    if AfterMark(w.server, w.ledger).result == Some(Sent(id)) {
      ReportKeepsInv(m, id);
    }
  }

  lemma PublicationStepKeepsInv(w: World, e: Event)
    requires Inv(w)
    requires e.Publish? || e.RecoveryAwaited? || e.RecoveryRejected? || e.ExecuteAudio?
      || e.ExecuteReconnect? || e.ContinueWrite? || e.DrainSettles? || e.ExecuteMark? || e.ContinueMark?
    requires PublicationStep(w, e).Some?
    ensures Inv(PublicationStep(w, e).value)
  {
    var n := PublicationStep(w, e).value;
    if e.Publish? {
      PublishKeepsInv(w, e.id);
    } else if e.RecoveryAwaited? {
      RecoveryAwaitedKeepsInv(w, e.audioAvailable, e.tooLarge);
    } else if e.RecoveryRejected? {
      IdleKeepsInv(w);
    } else if e.ExecuteAudio? {
      ExecuteAudioKeepsInv(w);
    } else if e.ExecuteReconnect? {
      ExecuteReconnectKeepsInv(w);
    } else if e.ContinueWrite? {
      ContinueWriteKeepsInv(w, e.tooLarge, e.outcome);
    } else if e.DrainSettles? {
      SuspendKeepsInv(w, n.server.publication);
      if e.drained { ReportKeepsInv(Suspended(w, Idle), w.server.publication.id); }
    } else if e.ExecuteMark? {
      MarkKeepsInv(w, w.server.publication.id);
      SuspendKeepsInv(w.(ledger := n.ledger), n.server.publication);
    } else {
      ContinueMarkKeepsInv(w);
    }
  }

  // ---- Browser and acknowledgement steps ----

  // The browser never touches the ledger or the server.
  lemma BrowserSideKeepsInv(w: World, n: World)
    requires Inv(w)
    requires n == w.(client := n.client, inflight := n.inflight, presents := n.presents,
                     finished := n.finished, acks := n.acks)
    requires Valid(n.client, n.capacity)
    requires forall id :: ClientInv(w, id) && AckInv(w, id) ==> ClientInv(n, id) && AckInv(n, id)
    ensures Inv(n)
  {
    forall id
      ensures WriteInv(n, id) && ClientInv(n, id) && AckInv(n, id)
    {
      assert WriteInv(w, id) && ClientInv(w, id) && AckInv(w, id);
      assert Accounted(w, id) ==> Accounted(n, id);
    }
  }

  // A message leaves the wire, and the client, if it takes it up, tracks it as not begun.
  lemma TakenUpKeeps(w: World, id: DeliveryId, client: Client, o: DeliveryId)
    requires id in w.inflight && w.writes[o] <= 1 && ClientInv(w, o) && AckInv(w, o)
    requires id in client.tracked && !client.tracked[id].began && !client.tracked[id].exposedAcked
    requires !client.tracked[id].finished && !client.tracked[id].completedAcked
    requires o in client.tracked && o != id ==> o in w.client.tracked && client.tracked[o] == w.client.tracked[o]
    ensures var n := w.(inflight := w.inflight - multiset{id}, client := client);
            ClientInv(n, o) && AckInv(n, o)
  {
  }

  lemma ReceiveKeepsInv(w: World, id: DeliveryId, fingerprint: nat)
    requires Inv(w) && BrowserStep(w, Receive(id, fingerprint)).Some?
    ensures Inv(BrowserStep(w, Receive(id, fingerprint)).value)
  {
    var n := BrowserStep(w, Receive(id, fingerprint)).value;
    if Handle(w.client, w.capacity, id, fingerprint).Present? {
      HandleKeepsValid(w.client, w.capacity, id, fingerprint);
      forall o ensures ClientInv(n, o) && AckInv(n, o) {
        assert WriteInv(w, o) && ClientInv(w, o) && AckInv(w, o);
        TakenUpKeeps(w, id, n.client, o);
      }
    }
    BrowserSideKeepsInv(w, n);
  }

  lemma BeginKeepsInv(w: World, id: DeliveryId)
    requires Inv(w) && BrowserStep(w, Begin(id)).Some?
    ensures Inv(BrowserStep(w, Begin(id)).value)
  {
    assert WriteInv(w, id) && ClientInv(w, id) && AckInv(w, id);
    BrowserSideKeepsInv(w, BrowserStep(w, Begin(id)).value);
  }

  lemma CompleteKeepsInv(w: World, id: DeliveryId)
    requires Inv(w) && BrowserStep(w, Complete(id)).Some?
    ensures Inv(BrowserStep(w, Complete(id)).value)
  {
    assert ClientInv(w, id) && AckInv(w, id);
    BrowserSideKeepsInv(w, BrowserStep(w, Complete(id)).value);
  }

  lemma RejectKeepsInv(w: World, id: DeliveryId)
    requires Inv(w) && BrowserStep(w, RejectPresentation(id)).Some?
    ensures Inv(BrowserStep(w, RejectPresentation(id)).value)
  {
    assert ClientInv(w, id) && AckInv(w, id);
    BrowserSideKeepsInv(w, BrowserStep(w, RejectPresentation(id)).value);
  }

  lemma SendAckKeepsInv(w: World, ack: Ack)
    requires Inv(w) && BrowserStep(w, SendAck(ack)).Some?
    ensures Inv(BrowserStep(w, SendAck(ack)).value)
  {
    var n := BrowserStep(w, SendAck(ack)).value;
    assert WriteInv(w, ack.id) && ClientInv(w, ack.id) && AckInv(w, ack.id);
    forall id | ClientInv(w, id) && AckInv(w, id)
      ensures ClientInv(n, id) && AckInv(n, id)
    {
      assert WriteInv(w, id);
    }
    BrowserSideKeepsInv(w, n);
  }

  // Marking a cached delivery acknowledged needs nothing but the acknowledgement having been accepted.
  lemma MarkAckedKeepsInv(w: World, id: DeliveryId, entry: Entry)
    requires Inv(w) && id in w.client.tracked
    requires var was := w.client.tracked[id];
      || (entry == was.(exposedAcked := true) && Ack(AckExposed, id) in w.accepted)
      || (entry == was.(completedAcked := true) && Ack(AckCompleted, id) in w.accepted)
    ensures Inv(w.(client := Update(w.client, id, entry)))
  {
    var n := w.(client := Update(w.client, id, entry));
    forall o | ClientInv(w, o) && AckInv(w, o)
      ensures ClientInv(n, o) && AckInv(n, o)
    {
    }
    BrowserSideKeepsInv(w, n);
  }

  lemma ForgetDeliveryKeepsInv(w: World, id: DeliveryId)
    requires Inv(w)
    ensures Inv(w.(client := Forgotten(w.client, id)))
  {
    var n := w.(client := Forgotten(w.client, id));
    ForgottenKeepsValid(w.client, w.capacity, id);
    forall o | ClientInv(w, o) && AckInv(w, o)
      ensures ClientInv(n, o) && AckInv(n, o)
    {
    }
    BrowserSideKeepsInv(w, n);
  }

  lemma AckAnsweredKeepsInv(w: World, ack: Ack)
    requires Inv(w) && BrowserStep(w, AckAnswered(ack)).Some?
    ensures Inv(BrowserStep(w, AckAnswered(ack)).value)
  {
    var entry := w.client.tracked[ack.id];
    match ack.kind
    case AckExposed => MarkAckedKeepsInv(w, ack.id, entry.(exposedAcked := true));
    case AckCompleted => MarkAckedKeepsInv(w, ack.id, entry.(completedAcked := true));
    case AckNotExposed => ForgetDeliveryKeepsInv(w, ack.id);
  }

  lemma BrowserStepKeepsInv(w: World, e: Event)
    requires Inv(w)
    requires e.Receive? || e.Lose? || e.Begin? || e.Complete? || e.RejectPresentation?
      || e.SendAck? || e.AckAnswered? || e.Reload?
    requires BrowserStep(w, e).Some?
    ensures Inv(BrowserStep(w, e).value)
  {
    if e.Receive? {
      ReceiveKeepsInv(w, e.id, e.fingerprint);
    } else if e.SendAck? {
      SendAckKeepsInv(w, e.ack);
    } else if e.AckAnswered? {
      AckAnsweredKeepsInv(w, e.ack);
    } else if e.Lose? || e.Reload? {
      BrowserSideKeepsInv(w, BrowserStep(w, e).value);
    } else if e.Begin? {
      BeginKeepsInv(w, e.id);
    } else if e.Complete? {
      CompleteKeepsInv(w, e.id);
    } else {
      RejectKeepsInv(w, e.id);
    }
  }

  // What serving an acknowledgement does to the ledger and to the accepted set.
  lemma ServeAckEffect(w: World, ack: Ack)
    requires Inv(w) && ServeAckStep(w, ack).Some?
    ensures var n := ServeAckStep(w, ack).value;
      var was, now := StatusOf(w.ledger, ack.id), StatusOf(n.ledger, ack.id);
      && n == w.(ledger := n.ledger, accepted := n.accepted)
      && (forall id :: id != ack.id ==> StatusOf(n.ledger, id) == StatusOf(w.ledger, id))
      && match ack.kind
         case AckExposed =>
           && (was == Some(Delivering) || was == Some(PossiblyExposed) || was == Some(Exposed) || was == Some(Completed))
           && now == (if was == Some(Completed) then was else Some(Exposed)) && n.accepted == w.accepted + {ack}
         case AckCompleted =>
           was != None && now == Some(Completed) && n.accepted == w.accepted + {ack}
         case AckNotExposed =>
           if was == Some(Delivering) || was == Some(Cancelled)
           then now == Some(Cancelled) && n.accepted == w.accepted + {ack}
           else now == was && n.accepted == w.accepted
  {
    assert WriteInv(w, ack.id) && ClientInv(w, ack.id) && AckInv(w, ack.id);
    if ack.id in w.ledger.deliveries { CommitEffects(w.ledger, ack.id); }
  }

  lemma ServeAckKeepsInv(w: World, ack: Ack)
    requires Inv(w) && ServeAckStep(w, ack).Some?
    ensures Inv(ServeAckStep(w, ack).value)
  {
    var n := ServeAckStep(w, ack).value;
    ServeAckEffect(w, ack);
    forall id
      ensures WriteInv(n, id) && ClientInv(n, id) && AckInv(n, id)
    {
      assert WriteInv(w, id) && ClientInv(w, id) && AckInv(w, id);
      if id == ack.id {
        ServedAckInv(w, n, ack);
      } else {
        assert Accounted(w, id) ==> Accounted(n, id);
      }
    }
  }

  lemma ServedAckInv(w: World, n: World, ack: Ack)
    requires Inv(w) && ServeAckStep(w, ack) == Some(n)
    ensures WriteInv(n, ack.id) && ClientInv(n, ack.id) && AckInv(n, ack.id)
  {
    ServeAckEffect(w, ack);
    assert WriteInv(w, ack.id) && ClientInv(w, ack.id) && AckInv(w, ack.id);
    assert Accounted(w, ack.id) ==> Accounted(n, ack.id);
  }

  // ---- Runs ----

  lemma StepKeepsInv(w: World, e: Event)
    requires Inv(w) && Next(w, e).Some?
    ensures Inv(Next(w, e).value)
  {
    if e.Queue? || e.ChangeGenerations? || e.Invalidate? || e.ReconnectCommand? {
      LedgerStepKeepsInv(w, e);
    } else if e.Crash? || e.BeginRecovery? || e.RecoverOne? || e.EndRecovery? || e.ForgetRecovery? {
      RecoveryStepKeepsInv(w, e);
    } else if e.RequestClient? || e.AbandonClient? || e.SocketDies? || e.CloseEvent? || e.CloseSessionEvent?
              || e.ClassifyOne? || e.ClassifyDone? {
      ConnectionStepKeepsInv(w, e);
    } else if e.ServeAck? {
      ServeAckKeepsInv(w, e.ack);
    } else if e.Receive? || e.Lose? || e.Begin? || e.Complete? || e.RejectPresentation?
              || e.SendAck? || e.AckAnswered? || e.Reload? {
      BrowserStepKeepsInv(w, e);
    } else {
      PublicationStepKeepsInv(w, e);
    }
  }

  // A run. The first conjunct only makes Next well-formed; it is part of Inv, so it excludes nothing.
  ghost predicate Reaches(w: World, events: seq<Event>, n: World)
    decreases events
  {
    if events == [] then n == w
    else
      && (forall id :: id in w.client.order ==> id in w.client.tracked)
      && Next(w, events[0]).Some?
      && Reaches(Next(w, events[0]).value, events[1..], n)
  }

  lemma {:induction false} ReachableInv(w: World, events: seq<Event>, n: World)
    requires Inv(w) && Reaches(w, events, n)
    ensures Inv(n)
    decreases events
  {
    if events != [] {
      StepKeepsInv(w, events[0]);
      ReachableInv(Next(w, events[0]).value, events[1..], n);
    }
  }

  // ---- Main results ----

  // Over every run, with reconnects, stalled and broken sockets, status changes during awaits,
  // repeated publishes and process crashes: at most one physical write of each delivery.
  lemma AtMostOncePhysicalWrite(capacity: nat, events: seq<Event>, w: World)
    requires capacity > 0 && Reaches(Init(capacity), events, w)
    ensures forall id :: w.writes[id] <= 1
    ensures forall id :: id in w.reportedSent ==> w.writes[id] == 1
    ensures forall id :: w.writes[id] > 0 && StatusOf(w.ledger, id) == Some(Delivering) ==> Accounted(w, id)
  {
    InitInv(capacity);
    ReachableInv(Init(capacity), events, w);
    forall id
      ensures w.writes[id] <= 1
      ensures id in w.reportedSent ==> w.writes[id] == 1
      ensures w.writes[id] > 0 && StatusOf(w.ledger, id) == Some(Delivering) ==> Accounted(w, id)
    {
      assert WriteInv(w, id);
    }
  }

  // What the ledger says about a delivery is what happened in the browser.
  ghost predicate Truthful(w: World, id: DeliveryId) {
    var status := StatusOf(w.ledger, id);
    && w.presents[id] <= 1
    && (status == Some(Exposed) ==> w.presents[id] == 1)
    && (status == Some(Completed) ==> w.presents[id] == 1 && id in w.finished)
    && (w.presents[id] == 1 ==>
          status == Some(Delivering) || status == Some(PossiblyExposed)
          || status == Some(Exposed) || status == Some(Completed))
    && (status == Some(Queued) || id in w.withdrawn ==> w.writes[id] == 0)
  }

  // Over every run, with lost, repeated and reordered acknowledgements, cache eviction and page reloads.
  lemma LedgerTellsTheTruth(capacity: nat, events: seq<Event>, w: World)
    requires capacity > 0 && Reaches(Init(capacity), events, w)
    ensures forall id :: Truthful(w, id)
  {
    InitInv(capacity);
    ReachableInv(Init(capacity), events, w);
    forall id
      ensures Truthful(w, id)
    {
      assert WriteInv(w, id) && ClientInv(w, id) && AckInv(w, id);
      if id in w.ledger.deliveries {
        match w.ledger.deliveries[id].status
        case Queued =>
        case Delivering =>
        case Exposed =>
        case Completed =>
        case Cancelled =>
        case PossiblyExposed =>
      }
    }
  }

  // No exposure acknowledgement a RendererClient ever sent is refused, whenever and however often it
  // arrives: its delivery may be classified, recovered, invalidated or completed meanwhile.
  lemma ExposureIsNeverRefused(capacity: nat, events: seq<Event>, w: World, id: DeliveryId)
    requires capacity > 0 && Reaches(Init(capacity), events, w)
    requires Ack(AckExposed, id) in w.acks
    ensures AcknowledgeExposed(w.ledger, id).Accept?
  {
    InitInv(capacity);
    ReachableInv(Init(capacity), events, w);
    assert WriteInv(w, id) && ClientInv(w, id) && AckInv(w, id);
  }

  // No completion acknowledgement a RendererClient ever sent can reach the guard
  // "Cannot complete delivery", whenever and however often it arrives.
  lemma CompletionIsNeverRefused(capacity: nat, events: seq<Event>, w: World, id: DeliveryId)
    requires capacity > 0 && Reaches(Init(capacity), events, w)
    requires Ack(AckCompleted, id) in w.acks
    ensures AcknowledgeCompleted(w.ledger, id).Accept?
  {
    InitInv(capacity);
    ReachableInv(Init(capacity), events, w);
    assert AckInv(w, id);
  }

  // A connection just registered, after the waits of its request, finds no written delivery DELIVERING:
  // in every run this holds of an attached connection that has sent nothing yet.
  lemma FreshConnectionFindsNothingUncertain(capacity: nat, events: seq<Event>, w: World)
    requires capacity > 0 && Reaches(Init(capacity), events, w)
    requires w.server.attached.Some? && w.server.attached.value in w.server.connections
    requires w.server.connections[w.server.attached.value].sent == {}
    ensures NothingUncertain(w)
  {
    InitInv(capacity);
    ReachableInv(Init(capacity), events, w);
    forall id | w.writes[id] > 0
      ensures StatusOf(w.ledger, id) != Some(Delivering)
    {
      assert WriteInv(w, id);
    }
  }

  // The world in which a connection is registered at once, without the waits of its request.
  function Attached(w: World, c: ConnectionId): World
    requires Attach(w.server, c).Some?
  {
    w.(server := Attach(w.server, c).value)
  }

  // What the waits are for: registering a connection at once, with no other request under way, is safe
  // exactly when no written delivery is DELIVERING; otherwise some continuation writes it a second time.
  lemma RegisteringAtOnceIsSafeExactly(w: World, c: ConnectionId)
    requires Inv(w) && w.recoveredOnce && w.server.publication.Idle?
    requires w.server.awaiting == [] && w.server.recovering == [] && Attach(w.server, c).Some?
    ensures NothingUncertain(w) <==>
      forall events, n :: Reaches(Attached(w, c), events, n) ==> forall id :: n.writes[id] <= 1
  {
    var m := Attached(w, c);
    if NothingUncertain(w) {
      RegisterKeepsInv(w, c);
      forall events, n | Reaches(m, events, n)
        ensures forall id :: n.writes[id] <= 1
      {
        ReachableInv(m, events, n);
        forall id
          ensures n.writes[id] <= 1
        {
          assert WriteInv(n, id);
        }
      }
    } else {
      var id :| w.writes[id] > 0 && StatusOf(w.ledger, id) == Some(Delivering);
      var events, n := UndisturbedPublication(m, c, id);
      assert Reaches(m, events, n) && !(n.writes[id] <= 1);
    }
  }

  lemma Prepend(w: World, e: Event, m: World, events: seq<Event>, n: World)
    requires forall id :: id in w.client.order ==> id in w.client.tracked
    requires Next(w, e) == Some(m) && Reaches(m, events, n)
    ensures Reaches(w, [e] + events, n)
  {
    assert ([e] + events)[1..] == events;
  }

  // A publication nothing interferes with, of a delivery this connection has not sent, writes it.
  lemma UndisturbedPublication(w: World, c: ConnectionId, id: DeliveryId) returns (events: seq<Event>, n: World)
    requires forall id :: id in w.client.order ==> id in w.client.tracked
    requires w.recoveredOnce && w.server.publication.Idle? && w.server.attached == Some(c)
    requires c in w.server.connections && !w.server.connections[c].closed && id !in w.server.connections[c].sent
    requires id in w.ledger.deliveries
    requires w.ledger.deliveries[id].status == Delivering
      || (w.ledger.deliveries[id].status == Queued && Deliverable(w.ledger, id))
    ensures Reaches(w, events, n)
    ensures n.writes == w.writes + multiset{id} && StatusOf(n.ledger, id) == Some(Delivering)
    ensures n.memo == w.memo && n.recoveredOnce == w.recoveredOnce && n.client == w.client
    ensures n.server.publication.Idle? && n.server.attached == Some(c) && n.server.connections.Keys == w.server.connections.Keys
  {
    StepsOfPublication(w, c, id);
    n := Published(w, c, id);
    assert Reaches(n, [], n);
    events := PublishThen(w, c, id, [], n);
  }

  // What becomes of a publication nothing interferes with: the status it leaves its delivery in.
  function PublishedStatus(w: World, c: ConnectionId, id: DeliveryId, audioAvailable: bool, tooLarge: bool): Option<Status>
    requires c in w.server.connections
  {
    if id !in w.ledger.deliveries then None
    else
      var atom := w.ledger.deliveries[id];
      if atom.status == Queued then
        if atom.audio && !audioAvailable then Some(Cancelled)
        else if !tooLarge && Deliverable(w.ledger, id) then Some(Delivering)
        else Some(Queued)
      else if atom.status == Delivering && atom.audio && !audioAvailable && id !in w.server.connections[c].sent
      then Some(PossiblyExposed)
      else Some(atom.status)
  }

  // And whether it writes: a delivery then DELIVERING that fits, unless this connection sent it before.
  predicate PublicationWrites(w: World, c: ConnectionId, id: DeliveryId, audioAvailable: bool, tooLarge: bool)
    requires c in w.server.connections
  {
    && PublishedStatus(w, c, id, audioAvailable, tooLarge) == Some(Delivering)
    && !tooLarge && !(StatusOf(w.ledger, id) == Some(Delivering) && id in w.server.connections[c].sent)
  }

  // What the connection remembers of it: a delivery refused by the reconnect command is forgotten.
  function SentAfter(w: World, c: ConnectionId, id: DeliveryId, audioAvailable: bool, tooLarge: bool): set<DeliveryId>
    requires c in w.server.connections
  {
    var sent := w.server.connections[c].sent;
    if PublicationWrites(w, c, id, audioAvailable, tooLarge) then sent + {id}
    else if StatusOf(w.ledger, id) == Some(Queued) && !tooLarge && (w.ledger.deliveries[id].audio ==> audioAvailable)
    then sent - {id}
    else sent
  }

  // The first two stretches of a publication, up to the command it then awaits, if any.
  function AfterFirstStretches(w: World, c: ConnectionId, id: DeliveryId, audioAvailable: bool, tooLarge: bool): World
    requires c in w.server.connections
  {
    if id !in w.ledger.deliveries then Suspended(w, Idle)
    else
      var atom := w.ledger.deliveries[id];
      if atom.status != Queued && atom.status != Delivering then Suspended(w, Idle)
      else if atom.status == Delivering && id in w.server.connections[c].sent
      then Suspended(w, Idle).(reportedSent := w.reportedSent + {id})
      else if atom.audio && !audioAvailable then
        Suspended(w, if atom.status == Queued then AwaitAudioCancel(id) else AwaitAudioMark(id))
      else if tooLarge then Suspended(w, Idle)
      else Suspended(w.(server := Remember(w.server, c, id)), AwaitReconnect(c, id))
  }

  lemma FirstStretches(w: World, c: ConnectionId, id: DeliveryId, audioAvailable: bool, tooLarge: bool)
    requires forall o :: o in w.client.order ==> o in w.client.tracked
    requires w.recoveredOnce && w.server.publication.Idle? && w.server.attached == Some(c)
    requires c in w.server.connections && !w.server.connections[c].closed
    ensures var w1 := Suspended(w, AwaitRecovery(c, id));
      && Next(w, Publish(id)) == Some(w1)
      && Next(w1, RecoveryAwaited(audioAvailable, tooLarge))
           == Some(AfterFirstStretches(w, c, id, audioAvailable, tooLarge))
  {
  }

  // The last two, for a delivery remembered before the reconnect command.
  function AfterReconnecting(w: World, c: ConnectionId, id: DeliveryId): World
    requires c in w.server.connections && id in w.ledger.deliveries
  {
    var started := w.ledger.deliveries[id].status == Delivering || Deliverable(w.ledger, id);
    if !started then Suspended(w.(server := Forget(w.server, c, id)), Idle)
    else
      Suspended(w.(ledger := Commit(w.ledger, Reconnect(w.ledger, id))), Idle).(
        writes := w.writes + multiset{id}, inflight := w.inflight + multiset{id}, reportedSent := w.reportedSent + {id})
  }

  lemma LastStretches(w: World, c: ConnectionId, id: DeliveryId) returns (w3: World)
    requires forall o :: o in w.client.order ==> o in w.client.tracked
    requires w.server.publication == AwaitReconnect(c, id) && id in w.ledger.deliveries
    requires w.ledger.deliveries[id].status == Queued || w.ledger.deliveries[id].status == Delivering
    requires c in w.server.connections && !w.server.connections[c].closed
    ensures Next(w, ExecuteReconnect) == Some(w3) && w3.client == w.client
    ensures Next(w3, ContinueWrite(false, Accepted)) == Some(AfterReconnecting(w, c, id))
  {
    StartsExactly(w.ledger, id);
    w3 := Next(w, ExecuteReconnect).value;
  }

  lemma AudioStretch(w: World, id: DeliveryId)
    requires forall o :: o in w.client.order ==> o in w.client.tracked
    requires id in w.ledger.deliveries
    requires var status := w.ledger.deliveries[id].status;
      || (status == Queued && w.server.publication == AwaitAudioCancel(id))
      || (status == Delivering && w.server.publication == AwaitAudioMark(id))
    ensures Next(w, ExecuteAudio).Some?
    ensures var n := Next(w, ExecuteAudio).value;
      && n == Suspended(w, Idle).(ledger := n.ledger, withdrawn := n.withdrawn)
      && StatusOf(n.ledger, id) == Some(if w.ledger.deliveries[id].status == Queued then Cancelled else PossiblyExposed)
      && forall o :: o != id ==> StatusOf(n.ledger, o) == StatusOf(w.ledger, o)
  {
    CommitEffects(w.ledger, id);
  }

  // What a finished publication did.
  predicate Effected(w: World, c: ConnectionId, id: DeliveryId, audioAvailable: bool, tooLarge: bool, n: World)
    requires c in w.server.connections
  {
    var wrote := PublicationWrites(w, c, id, audioAvailable, tooLarge);
    && n.server.publication.Idle? && n.server.attached == w.server.attached
    && StatusOf(n.ledger, id) == PublishedStatus(w, c, id, audioAvailable, tooLarge)
    && n.writes == (if wrote then w.writes + multiset{id} else w.writes)
    && n.inflight == (if wrote then w.inflight + multiset{id} else w.inflight)
    && c in n.server.connections
    && n.server.connections[c].sent == SentAfter(w, c, id, audioAvailable, tooLarge)
    && n.reportedSent == w.reportedSent
         + (if wrote || (StatusOf(w.ledger, id) == Some(Delivering) && id in w.server.connections[c].sent) then {id} else {})
  }

  lemma ReconnectingEffect(w: World, c: ConnectionId, id: DeliveryId, audioAvailable: bool)
    requires c in w.server.connections && id in w.ledger.deliveries
    requires w.ledger.deliveries[id].status == Delivering ==> id !in w.server.connections[c].sent
    requires w.ledger.deliveries[id].status == Queued || w.ledger.deliveries[id].status == Delivering
    requires w.ledger.deliveries[id].audio ==> audioAvailable
    ensures var n := AfterReconnecting(Suspended(w.(server := Remember(w.server, c, id)), AwaitReconnect(c, id)), c, id);
      && Effected(w, c, id, audioAvailable, false, n)
      && forall o :: o != id ==> StatusOf(n.ledger, o) == StatusOf(w.ledger, o)
  {
    StartsExactly(w.ledger, id);
    var sent := w.server.connections[c].sent;
    assert sent + {id} - {id} == sent - {id};
  }

  // A publication nothing interferes with, whatever its delivery's status, content and generation: it
  // writes exactly a startable or started delivery; unavailable audio withdraws it instead.
  lemma PublicationEffectExactly(w: World, c: ConnectionId, id: DeliveryId, audioAvailable: bool, tooLarge: bool)
    returns (events: seq<Event>, n: World)
    requires forall o :: o in w.client.order ==> o in w.client.tracked
    requires w.recoveredOnce && w.server.publication.Idle? && w.server.attached == Some(c)
    requires c in w.server.connections && !w.server.connections[c].closed
    ensures Reaches(w, events, n) && Effected(w, c, id, audioAvailable, tooLarge, n)
    ensures forall o :: o != id ==> StatusOf(n.ledger, o) == StatusOf(w.ledger, o)
  {
    var w1, second := Suspended(w, AwaitRecovery(c, id)), RecoveryAwaited(audioAvailable, tooLarge);
    var w2 := AfterFirstStretches(w, c, id, audioAvailable, tooLarge);
    FirstStretches(w, c, id, audioAvailable, tooLarge);
    if w2.server.publication.Idle? {
      n, events := w2, [];
    } else if w2.server.publication.AwaitReconnect? {
      var w3 := LastStretches(w2, c, id);
      n := AfterReconnecting(w2, c, id);
      events := Then(w2, ExecuteReconnect, w3, ContinueWrite(false, Accepted), n, [], n);
      ReconnectingEffect(w, c, id, audioAvailable);
    } else {
      AudioStretch(w2, id);
      n := Next(w2, ExecuteAudio).value;
      assert Reaches(n, [], n);
      Prepend(w2, ExecuteAudio, n, [], n);
      events := [ExecuteAudio] + [];
    }
    events := Then(w, Publish(id), w1, second, w2, events, n);
  }

  lemma Then(w: World, e: Event, w1: World, f: Event, w2: World, tail: seq<Event>, n: World) returns (events: seq<Event>)
    requires forall o :: o in w.client.order ==> o in w.client.tracked
    requires Next(w, e) == Some(w1) && w1.client == w.client
    requires Next(w1, f) == Some(w2) && Reaches(w2, tail, n)
    ensures Reaches(w, events, n)
  {
    Prepend(w1, f, w2, tail, n);
    Prepend(w, e, w1, [f] + tail, n);
    events := [e] + ([f] + tail);
  }

  // A step takes a delivery from QUEUED to DELIVERING.
  predicate Starts(w: World, n: World, id: DeliveryId) {
    StatusOf(w.ledger, id) == Some(Queued) && StatusOf(n.ledger, id) == Some(Delivering)
  }

  lemma LedgerStepStarts(w: World, e: Event, id: DeliveryId)
    requires e.Queue? || e.ChangeGenerations? || e.Invalidate? || e.ReconnectCommand?
    requires LedgerStep(w, e).Some? && Starts(w, LedgerStep(w, e).value, id)
    ensures Deliverable(w.ledger, id)
  {
    if e.Invalidate? {
      InvalidationEffect(w.ledger, w.ledger, e.ids);
    } else if e.ReconnectCommand? {
      if e.id in w.ledger.deliveries { StartsExactly(w.ledger, e.id); }
    }
  }

  lemma PublicationStepStarts(w: World, e: Event, id: DeliveryId)
    requires e.Publish? || e.RecoveryAwaited? || e.RecoveryRejected? || e.ExecuteAudio?
      || e.ExecuteReconnect? || e.ContinueWrite? || e.DrainSettles? || e.ExecuteMark? || e.ContinueMark?
    requires PublicationStep(w, e).Some? && Starts(w, PublicationStep(w, e).value, id)
    ensures Deliverable(w.ledger, id)
  {
    var p := w.server.publication;
    if e.ExecuteReconnect? {
      if p.id in w.ledger.deliveries { StartsExactly(w.ledger, p.id); }
    } else if e.ExecuteAudio? || e.ExecuteMark? {
      if p.id in w.ledger.deliveries { CommitEffects(w.ledger, p.id); }
    }
  }

  lemma RecoveryStartsNothing(w: World, e: Event, id: DeliveryId)
    requires e.Crash? || e.BeginRecovery? || e.RecoverOne? || e.EndRecovery? || e.ForgetRecovery?
    requires RecoveryStep(w, e).Some?
    ensures !Starts(w, RecoveryStep(w, e).value, id)
  {
    if e.RecoverOne? && e.id in w.ledger.deliveries { CommitEffects(w.ledger, e.id); }
  }

  lemma ConnectionStartsNothing(w: World, e: Event, id: DeliveryId)
    requires e.RequestClient? || e.AbandonClient? || e.SocketDies? || e.CloseEvent? || e.CloseSessionEvent?
      || e.ClassifyOne? || e.ClassifyDone?
    requires ConnectionStep(w, e).Some?
    ensures !Starts(w, ConnectionStep(w, e).value, id)
  {
    if e.ClassifyOne? && e.id in w.ledger.deliveries { CommitEffects(w.ledger, e.id); }
  }

  lemma OtherStepsStartNothing(w: World, e: Event, id: DeliveryId)
    requires Inv(w) && Next(w, e).Some?
    requires e.Crash? || e.BeginRecovery? || e.RecoverOne? || e.EndRecovery? || e.ForgetRecovery?
      || e.RequestClient? || e.AbandonClient? || e.SocketDies? || e.CloseEvent? || e.CloseSessionEvent?
      || e.ClassifyOne? || e.ClassifyDone?
    ensures !Starts(w, Next(w, e).value, id)
  {
    if e.Crash? || e.BeginRecovery? || e.RecoverOne? || e.EndRecovery? || e.ForgetRecovery? {
      RecoveryStartsNothing(w, e, id);
    } else {
      ConnectionStartsNothing(w, e, id);
    }
  }

  lemma BrowserStepKeepsLedger(w: World, e: Event)
    requires forall o :: o in w.client.order ==> o in w.client.tracked
    requires e.Receive? || e.Lose? || e.Begin? || e.Complete? || e.RejectPresentation?
      || e.SendAck? || e.AckAnswered? || e.Reload?
    requires BrowserStep(w, e).Some?
    ensures BrowserStep(w, e).value.ledger == w.ledger
  {
  }

  // Over every run, a step that takes a delivery from QUEUED to DELIVERING finds its generation known,
  // alive and compatible at that very moment.
  lemma StartedWhileDeliverable(capacity: nat, events: seq<Event>, w: World, e: Event, id: DeliveryId)
    requires capacity > 0 && Reaches(Init(capacity), events, w)
    requires forall o :: o in w.client.order ==> o in w.client.tracked
    requires Next(w, e).Some? && Starts(w, Next(w, e).value, id)
    ensures Deliverable(w.ledger, id)
  {
    InitInv(capacity);
    ReachableInv(Init(capacity), events, w);
    if e.Queue? || e.ChangeGenerations? || e.Invalidate? || e.ReconnectCommand? {
      LedgerStepStarts(w, e, id);
    } else if e.Publish? || e.RecoveryAwaited? || e.RecoveryRejected? || e.ExecuteAudio?
              || e.ExecuteReconnect? || e.ContinueWrite? || e.DrainSettles? || e.ExecuteMark? || e.ContinueMark? {
      PublicationStepStarts(w, e, id);
    } else if e.Receive? || e.Lose? || e.Begin? || e.Complete? || e.RejectPresentation?
              || e.SendAck? || e.AckAnswered? || e.Reload? {
      BrowserStepKeepsLedger(w, e);
    } else if e.ServeAck? {
      ServeAckEffect(w, e.ack);
    } else {
      OtherStepsStartNothing(w, e, id);
    }
  }

  // The world after that publication.
  function Published(w: World, c: ConnectionId, id: DeliveryId): World
    requires c in w.server.connections
  {
    var w2 := Suspended(w.(server := Remember(w.server, c, id)), AwaitReconnect(c, id));
    var w3 := Suspended(w2.(ledger := Commit(w.ledger, Reconnect(w.ledger, id))), Reconnected(c, id, true));
    Suspended(w3, Idle).(writes := w.writes + multiset{id}, inflight := w.inflight + multiset{id},
                         reportedSent := w.reportedSent + {id})
  }

  lemma PublishThen(w: World, c: ConnectionId, id: DeliveryId, tail: seq<Event>, n: World) returns (events: seq<Event>)
    requires forall id :: id in w.client.order ==> id in w.client.tracked
    requires w.recoveredOnce && w.server.publication.Idle? && w.server.attached == Some(c)
    requires c in w.server.connections && !w.server.connections[c].closed && id !in w.server.connections[c].sent
    requires id in w.ledger.deliveries
    requires w.ledger.deliveries[id].status == Delivering
      || (w.ledger.deliveries[id].status == Queued && Deliverable(w.ledger, id))
    requires Reaches(Published(w, c, id), tail, n)
    ensures Reaches(w, events, n)
  {
    var w1 := Suspended(w, AwaitRecovery(c, id));
    var w2 := Suspended(w.(server := Remember(w.server, c, id)), AwaitReconnect(c, id));
    StepsOfPublication(w, c, id);
    var w3 := Suspended(w2.(ledger := Commit(w.ledger, Reconnect(w.ledger, id))), Reconnected(c, id, true));
    StepOfWrite(w3, c, id);
    var write := ContinueWrite(false, Accepted);
    Prepend(w3, write, Published(w, c, id), tail, n);
    Prepend(w2, ExecuteReconnect, w3, [write] + tail, n);
    Prepend(w1, RecoveryAwaited(true, false), w2, [ExecuteReconnect] + ([write] + tail), n);
    events := [Publish(id)] + ([RecoveryAwaited(true, false)] + ([ExecuteReconnect] + ([write] + tail)));
    Prepend(w, Publish(id), w1, [RecoveryAwaited(true, false)] + ([ExecuteReconnect] + ([write] + tail)), n);
  }

  lemma StepsOfPublication(w: World, c: ConnectionId, id: DeliveryId)
    requires forall id :: id in w.client.order ==> id in w.client.tracked
    requires w.recoveredOnce && w.server.publication.Idle? && w.server.attached == Some(c)
    requires c in w.server.connections && !w.server.connections[c].closed && id !in w.server.connections[c].sent
    requires id in w.ledger.deliveries
    requires w.ledger.deliveries[id].status == Delivering
      || (w.ledger.deliveries[id].status == Queued && Deliverable(w.ledger, id))
    ensures var w1 := Suspended(w, AwaitRecovery(c, id));
      var w2 := Suspended(w.(server := Remember(w.server, c, id)), AwaitReconnect(c, id));
      var w3 := Suspended(w2.(ledger := Commit(w.ledger, Reconnect(w.ledger, id))), Reconnected(c, id, true));
      && Next(w, Publish(id)) == Some(w1)
      && Next(w1, RecoveryAwaited(true, false)) == Some(w2)
      && Next(w2, ExecuteReconnect) == Some(w3)
      && StatusOf(w3.ledger, id) == Some(Delivering)
  {
    FirstStretches(w, c, id, true, false);
    ReconnectStretch(Suspended(w.(server := Remember(w.server, c, id)), AwaitReconnect(c, id)), c, id);
  }

  lemma ReconnectStretch(w: World, c: ConnectionId, id: DeliveryId)
    requires forall id :: id in w.client.order ==> id in w.client.tracked
    requires w.server.publication == AwaitReconnect(c, id) && id in w.ledger.deliveries
    requires w.ledger.deliveries[id].status == Delivering
      || (w.ledger.deliveries[id].status == Queued && Deliverable(w.ledger, id))
    ensures var n := Suspended(w.(ledger := Commit(w.ledger, Reconnect(w.ledger, id))), Reconnected(c, id, true));
      Next(w, ExecuteReconnect) == Some(n) && StatusOf(n.ledger, id) == Some(Delivering)
  {
    CommitEffects(w.ledger, id);
  }

  lemma StepOfWrite(w: World, c: ConnectionId, id: DeliveryId)
    requires forall id :: id in w.client.order ==> id in w.client.tracked
    requires w.server.publication == Reconnected(c, id, true) && StatusOf(w.ledger, id) == Some(Delivering)
    requires c in w.server.connections && !w.server.connections[c].closed
    ensures Next(w, ContinueWrite(false, Accepted)) ==
      Some(Suspended(w, Idle).(writes := w.writes + multiset{id}, inflight := w.inflight + multiset{id},
                               reportedSent := w.reportedSent + {id}))
  {
  }

  // A recovered server with one queued delivery and a client attached.
  function Ready(): World {
    var w := Init(1);
    var ledger := Session(map[0 := Atom(0, false, {}, Queued)], map[0 := Validated], {0}, {});
    w.(ledger := ledger, memo := RecoveryDone, recoveredOnce := true, server := Attach(EmptyServer, 0).value)
  }

  lemma ReadyThen(tail: seq<Event>, n: World) returns (events: seq<Event>)
    requires Reaches(Ready(), tail, n)
    ensures Reaches(Init(1), events, n)
  {
    var atom := Atom(0, false, {}, Queued);
    var w0 := Init(1);
    var w1 := w0.(ledger := w0.ledger.(deliveries := map[0 := atom]));
    assert Next(w0, Queue(0, atom)) == Some(w1);
    var w2 := w1.(ledger := w1.ledger.(generations := map[0 := Validated], compatible := {0}));
    var w3 := w2.(memo := Recovering({}));
    assert InFlight(w2.ledger) == {};
    var w4 := w3.(memo := RecoveryDone, recoveredOnce := true);
    assert w4.(server := Attach(EmptyServer, 0).value) == Ready();
    Prepend(w4, RequestClient(0), Ready(), tail, n);
    Prepend(w3, EndRecovery(true), w4, [RequestClient(0)] + tail, n);
    Prepend(w2, BeginRecovery, w3, [EndRecovery(true)] + ([RequestClient(0)] + tail), n);
    var later := [BeginRecovery] + ([EndRecovery(true)] + ([RequestClient(0)] + tail));
    Prepend(w1, ChangeGenerations(map[0 := Validated], {0}), w2, later, n);
    events := [Queue(0, atom)] + ([ChangeGenerations(map[0 := Validated], {0})] + later);
    Prepend(w0, Queue(0, atom), w1, [ChangeGenerations(map[0 := Validated], {0})] + later, n);
  }

  // The waits are needed: a run that ends with a written delivery whose socket just died, before its
  // classification has run, where the very next request may not be registered at once.
  lemma UncertaintyIsReachable() returns (events: seq<Event>, w: World)
    ensures Reaches(Init(1), events, w) && !NothingUncertain(w)
    ensures w.recoveredOnce && w.server.publication.Idle? && Attach(w.server, 1).Some?
    ensures w.server.awaiting == [] && w.server.recovering == []
  {
    StepsOfPublication(Ready(), 0, 0);
    var n := Published(Ready(), 0, 0);
    var closed := n.(server := Close(n.server, 0));
    w := closed.(server := RemoveConnection(closed.server, 0));
    assert Reaches(w, [], w);
    Prepend(closed, CloseEvent(0), w, [], w);
    Prepend(n, SocketDies(0), closed, [CloseEvent(0)] + [], w);
    var published := PublishThen(Ready(), 0, 0, [SocketDies(0)] + ([CloseEvent(0)] + []), w);
    events := ReadyThen(published, w);
    assert w.writes[0] > 0;
  }
}
