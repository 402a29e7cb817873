// The renderer stream server of one session. Every function below is one synchronous segment of the
// source, that is, the code that runs between two awaits; the class at the end performs the same
// segments by updating its fields.
module StreamServer {
  import opened Results
  import opened Sequences
  import opened DeliveryLedger

  type ConnectionId = nat

  datatype Connection = Connection(sent: set<DeliveryId>, closed: bool)

  // Where the one serialized publication of the session is suspended.
  datatype Publication =
    | Idle
    | AwaitRecovery(c: ConnectionId, id: DeliveryId)
    | AwaitAudioCancel(id: DeliveryId)
    | AwaitAudioMark(id: DeliveryId)
    | AwaitReconnect(c: ConnectionId, id: DeliveryId)
    | Reconnected(c: ConnectionId, id: DeliveryId, command: bool)
    | AwaitDrain(c: ConnectionId, id: DeliveryId)
    | AwaitMark(c: ConnectionId, id: DeliveryId, stalled: bool)
    | Marked(c: ConnectionId, id: DeliveryId, stalled: bool)

  // One disconnect classification; `visited` are the deliveries its loop has already marked.
  datatype Classification = Classification(c: ConnectionId, visited: set<DeliveryId>)

  // An attach request waiting for the `left` classifications that were pending when it arrived.
  datatype Awaiting = Awaiting(c: ConnectionId, left: nat)

  // `connections` are all connection objects of this process; `attached` is the registered one
  // (the default of one client per session). `recovering` are the attach requests past their
  // classification wait that await recovery, in order of arrival.
  datatype Server = Server(
    connections: map<ConnectionId, Connection>,
    attached: Option<ConnectionId>,
    publication: Publication,
    classifications: seq<Classification>,
    awaiting: seq<Awaiting>,
    recovering: seq<ConnectionId>)

  datatype WriteOutcome = Accepted | Backpressure | Threw

  datatype PublishResult =
    | Sent(id: DeliveryId)
    | NoClient(id: DeliveryId)
    | NotDeliverable(id: DeliveryId)
    | MessageTooLarge(id: DeliveryId)
    | Failed(id: DeliveryId)

  // A segment either suspends again or ends with a result; `wrote` says that it called response.write.
  datatype Segment = Segment(server: Server, result: Option<PublishResult>, wrote: bool)

  const EmptyServer := Server(map[], None, Idle, [], [], [])

  // ---- Connections ----

  function Attach(s: Server, c: ConnectionId): Option<Server> {
    if s.attached.Some? || c in s.connections then None
    else Some(s.(connections := s.connections[c := Connection({}, false)], attached := Some(c)))
  }

  function Close(s: Server, c: ConnectionId): Server {
    if c !in s.connections then s
    else s.(connections := s.connections[c := s.connections[c].(closed := true)])
  }

  function RemoveConnection(s: Server, c: ConnectionId): Server {
    if s.attached != Some(c) then s
    else s.(attached := None, classifications := s.classifications + [Classification(c, {})])
  }

  function CloseSession(s: Server): Server {
    match s.attached
    case None => s
    case Some(c) => RemoveConnection(Close(s, c), c)
  }

  function Forget(s: Server, c: ConnectionId, id: DeliveryId): Server
    requires c in s.connections
  {
    s.(connections := s.connections[c := s.connections[c].(sent := s.connections[c].sent - {id})])
  }

  function Remember(s: Server, c: ConnectionId, id: DeliveryId): Server
    requires c in s.connections
  {
    s.(connections := s.connections[c := s.connections[c].(sent := s.connections[c].sent + {id})])
  }

  // ---- publishDeliveryNow ----

  function Suspend(s: Server, at: Publication): Segment {
    Segment(s.(publication := at), None, false)
  }

  function Finish(s: Server, result: PublishResult): Segment {
    Segment(s.(publication := Idle), Some(result), false)
  }

  function BeginPublish(s: Server, id: DeliveryId): Segment {
    match s.attached
    case None => Finish(s, NoClient(id))
    case Some(c) =>
      if c !in s.connections || s.connections[c].closed then Finish(RemoveConnection(s, c), NoClient(id))
      else Suspend(s, AwaitRecovery(c, id))
  }

  function AfterRecovery(s: Server, ledger: Session, audioAvailable: bool, tooLarge: bool): Segment
    requires s.publication.AwaitRecovery? && s.publication.c in s.connections
  {
    var c, id := s.publication.c, s.publication.id;
    var connection := s.connections[c];
    if id !in ledger.deliveries then Finish(s, Failed(id))
    else
      var atom := ledger.deliveries[id];
      if atom.status != Queued && atom.status != Delivering then Finish(s, NotDeliverable(id))
      else if atom.status == Delivering && id in connection.sent then Finish(s, Sent(id))
      else if atom.audio && !audioAvailable then
        Suspend(s, if atom.status == Queued then AwaitAudioCancel(id) else AwaitAudioMark(id))
      else if tooLarge then Finish(s, MessageTooLarge(id))
      else if connection.closed then Finish(RemoveConnection(s, c), NoClient(id))
      else Suspend(Remember(s, c, id), AwaitReconnect(c, id))
  }

  // The continuation after reconnect() returned; a thrown reconnect counts as no command.
  function AfterReconnect(s: Server, ledger: Session, tooLarge: bool, outcome: WriteOutcome): Segment
    requires s.publication.Reconnected? && s.publication.c in s.connections
  {
    var c, id := s.publication.c, s.publication.id;
    if !s.publication.command then Finish(Forget(s, c, id), NotDeliverable(id))
    else if tooLarge then Finish(Forget(s, c, id), MessageTooLarge(id))
    else if id !in ledger.deliveries then Finish(Forget(s, c, id), Failed(id))
    else if ledger.deliveries[id].status != Delivering then Finish(Forget(s, c, id), NotDeliverable(id))
    else if s.connections[c].closed then Finish(RemoveConnection(s, c), NoClient(id))
    else match outcome
         case Accepted => Segment(s.(publication := Idle), Some(Sent(id)), true)
         case Backpressure => Segment(s.(publication := AwaitDrain(c, id)), None, true)
         case Threw => Segment(s.(publication := AwaitMark(c, id, false)), None, true)
  }

  function AfterDrain(s: Server, drained: bool): Segment
    requires s.publication.AwaitDrain?
  {
    var c, id := s.publication.c, s.publication.id;
    if drained then Finish(s, Sent(id)) else Suspend(s, AwaitMark(c, id, true))
  }

  function AfterMark(s: Server, ledger: Session): Segment
    requires s.publication.Marked?
  {
    var c, id := s.publication.c, s.publication.id;
    if !s.publication.stalled then Finish(RemoveConnection(s, c), NotDeliverable(id))
    else
      var removed := RemoveConnection(Close(s, c), c);
      if id in ledger.deliveries
         && (ledger.deliveries[id].status == Exposed || ledger.deliveries[id].status == Completed)
      then Finish(removed, Sent(id))
      else Finish(removed, NotDeliverable(id))
  }

  // ---- classifyUncertainDisconnect ----

  function Unvisited(s: Server, k: Classification): set<DeliveryId> {
    if k.c in s.connections then s.connections[k.c].sent - k.visited else {}
  }

  function Visit(s: Server, id: DeliveryId): Server
    requires s.classifications != []
  {
    var head := s.classifications[0];
    s.(classifications := [head.(visited := head.visited + {id})] + s.classifications[1..])
  }

  // ---- handle and attach ----

  // An await of something already settled resumes before any socket event or further command, so a
  // request runs on from the end of its last wait to its registration.

  // The end of attach: capacity is checked again, and a request that is too late is refused.
  function Register(s: Server, c: ConnectionId): Server {
    match Attach(s, c)
    case None => s
    case Some(next) => next
  }

  function RegisterAll(s: Server, cs: seq<ConnectionId>): Server
    decreases cs
  {
    if cs == [] then s else RegisterAll(Register(s, cs[0]), cs[1..])
  }

  // Requests reach the await of recovery, which holds them only while recovery is not complete.
  function AwaitRecovered(s: Server, cs: seq<ConnectionId>, recovered: bool): Server {
    if recovered then RegisterAll(s, cs) else s.(recovering := s.recovering + cs)
  }

  // handle up to its first await: None is the refusal for capacity.
  function RequestAttach(s: Server, c: ConnectionId, recovered: bool): Option<Server> {
    if s.attached.Some? || c in s.connections then None
    else if s.classifications != [] then Some(s.(awaiting := s.awaiting + [Awaiting(c, |s.classifications|)]))
    else Some(AwaitRecovered(s, [c], recovered))
  }

  function StillAwaiting(awaiting: seq<Awaiting>): seq<Awaiting> {
    if awaiting == [] then []
    else (if awaiting[0].left > 1 then [Awaiting(awaiting[0].c, awaiting[0].left - 1)] else [])
         + StillAwaiting(awaiting[1..])
  }

  function Resuming(awaiting: seq<Awaiting>): seq<ConnectionId> {
    if awaiting == [] then []
    else (if awaiting[0].left > 1 then [] else [awaiting[0].c]) + Resuming(awaiting[1..])
  }

  // A classification settles, and with it the waits for it.
  function EndClassification(s: Server, recovered: bool): Server
    requires s.classifications != []
  {
    AwaitRecovered(s.(classifications := s.classifications[1..], awaiting := StillAwaiting(s.awaiting)),
                   Resuming(s.awaiting), recovered)
  }

  // Recovery settles: the requests that awaited it register in order, or are rejected with it.
  function EndRecoveryWait(s: Server, ok: bool): Server {
    var settled := s.(recovering := []);
    if ok then RegisterAll(settled, s.recovering) else settled
  }

  // A request gives up: its client left, or the session is no longer active.
  function Abandon(s: Server, c: ConnectionId): Server {
    s.(awaiting := WithoutAwaiting(s.awaiting, c), recovering := Without(s.recovering, c))
  }

  function WithoutAwaiting(awaiting: seq<Awaiting>, c: ConnectionId): seq<Awaiting> {
    if awaiting == [] then []
    else (if awaiting[0].c == c then [] else [awaiting[0]]) + WithoutAwaiting(awaiting[1..], c)
  }

  // ---- The server as an object ----

  class RendererStreamServer {
    var connections: map<ConnectionId, Connection>
    var attached: Option<ConnectionId>
    var publication: Publication
    var classifications: seq<Classification>
    var awaiting: seq<Awaiting>
    var recovering: seq<ConnectionId>

    function State(): Server
      reads this
    {
      Server(connections, attached, publication, classifications, awaiting, recovering)
    }

    constructor ()
      ensures State() == EmptyServer
    {
      connections, attached, publication, classifications, awaiting, recovering := map[], None, Idle, [], [], [];
    }

    // handle up to its registration or its first wait; false is the refusal for capacity.
    method HandleAttach(c: ConnectionId, recovered: bool) returns (ok: bool)
      requires c !in connections
      modifies this
      ensures var next := RequestAttach(old(State()), c, recovered);
        ok == next.Some? && State() == if ok then next.value else old(State())
    {
      if attached.Some? { return false; }
      if classifications != [] {
        awaiting := awaiting + [Awaiting(c, |classifications|)];
      } else if !recovered {
        recovering := recovering + [c];
      } else {
        ghost var before := State();
        assert [c][1..] == [] && RegisterAll(before, [c]) == RegisterAll(Register(before, c), []);
        ok := AttachConnection(c);
      }
      ok := true;
    }

    // attach, which checks capacity again
    method AttachConnection(c: ConnectionId) returns (ok: bool)
      modifies this`connections, this`attached
      ensures ok <==> Attach(old(State()), c).Some?
      ensures State() == if ok then Attach(old(State()), c).value else old(State())
    {
      ok := attached.None? && c !in connections;
      if ok {
        connections := connections[c := Connection({}, false)];
        attached := Some(c);
      }
    }

    method Destroy(c: ConnectionId)
      modifies this`connections
      ensures State() == Close(old(State()), c)
    {
      if c in connections {
        connections := connections[c := connections[c].(closed := true)];
      }
    }

    method Remove(c: ConnectionId)
      modifies this`attached, this`classifications
      ensures State() == RemoveConnection(old(State()), c)
    {
      if attached != Some(c) { return; }
      attached := None;
      classifications := classifications + [Classification(c, {})];
    }

    method CloseSessionConnections()
      modifies this
      ensures State() == CloseSession(old(State()))
    {
      if attached.Some? {
        var c := attached.value;
        Destroy(c);
        Remove(c);
      }
    }

    method FirstLiveConnection() returns (c: Option<ConnectionId>)
      modifies this`attached, this`classifications
      ensures c.Some? ==> attached == c && c.value in connections && !connections[c.value].closed
      ensures c.Some? ==> State() == old(State())
      ensures c.None? && old(attached).Some? ==>
        && (old(attached).value !in connections || connections[old(attached).value].closed)
        && State() == RemoveConnection(old(State()), old(attached).value)
      ensures old(attached).None? ==> State() == old(State())
    {
      c := attached;
      if c.Some? && (c.value !in connections || connections[c.value].closed) {
        Remove(c.value);
        c := None;
      }
    }

    // publishDeliveryNow up to its first await
    method StartPublication(id: DeliveryId) returns (result: Option<PublishResult>)
      requires publication == Idle
      modifies this
      ensures var segment := BeginPublish(old(State()), id);
        State() == segment.server && result == segment.result && !segment.wrote
    {
      var c := FirstLiveConnection();
      if c.None? { return Some(NoClient(id)); }
      publication := AwaitRecovery(c.value, id);
      result := None;
    }

    method ContinueAfterRecovery(ledger: Session, audioAvailable: bool, tooLarge: bool)
      returns (result: Option<PublishResult>)
      requires publication.AwaitRecovery? && publication.c in connections
      modifies this
      ensures var segment := AfterRecovery(old(State()), ledger, audioAvailable, tooLarge);
        State() == segment.server && result == segment.result && !segment.wrote
    {
      var c, id := publication.c, publication.id;
      publication := Idle;
      if id !in ledger.deliveries { return Some(Failed(id)); }
      var atom := ledger.deliveries[id];
      if atom.status != Queued && atom.status != Delivering { return Some(NotDeliverable(id)); }
      if atom.status == Delivering && id in connections[c].sent { return Some(Sent(id)); }
      if atom.audio && !audioAvailable {
        if atom.status == Queued {
          publication := AwaitAudioCancel(id);
        } else {
          publication := AwaitAudioMark(id);
        }
        return None;
      }
      if tooLarge { return Some(MessageTooLarge(id)); }
      if connections[c].closed {
        Remove(c);
        return Some(NoClient(id));
      }
      connections := connections[c := connections[c].(sent := connections[c].sent + {id})];
      publication := AwaitReconnect(c, id);
      result := None;
    }

    // The segment that re-reads the ledger and, with no further await, writes to the socket.
    method ContinueAfterReconnect(ledger: Session, tooLarge: bool, outcome: WriteOutcome)
      returns (result: Option<PublishResult>, wrote: bool)
      requires publication.Reconnected? && publication.c in connections
      modifies this
      ensures var segment := AfterReconnect(old(State()), ledger, tooLarge, outcome);
        State() == segment.server && result == segment.result && wrote == segment.wrote
      ensures wrote ==>
        && old(publication).id in ledger.deliveries
        && ledger.deliveries[old(publication).id].status == Delivering
        && !old(connections)[old(publication).c].closed
    {
      var c, id, command := publication.c, publication.id, publication.command;
      publication := Idle;
      wrote := false;
      if !command || tooLarge || id !in ledger.deliveries || ledger.deliveries[id].status != Delivering {
        connections := connections[c := connections[c].(sent := connections[c].sent - {id})];
        if !command { return Some(NotDeliverable(id)), false; }
        if tooLarge { return Some(MessageTooLarge(id)), false; }
        if id !in ledger.deliveries { return Some(Failed(id)), false; }
        return Some(NotDeliverable(id)), false;
      }
      if connections[c].closed {
        Remove(c);
        return Some(NoClient(id)), false;
      }
      wrote := true;
      match outcome {
        case Accepted => result := Some(Sent(id));
        case Backpressure => publication := AwaitDrain(c, id); result := None;
        case Threw => publication := AwaitMark(c, id, false); result := None;
      }
    }

    method ContinueAfterMark(ledger: Session) returns (result: Option<PublishResult>)
      requires publication.Marked?
      modifies this
      ensures var segment := AfterMark(old(State()), ledger);
        State() == segment.server && result == segment.result && !segment.wrote
    {
      var c, id, stalled := publication.c, publication.id, publication.stalled;
      publication := Idle;
      if stalled { Destroy(c); }
      Remove(c);
      if stalled && id in ledger.deliveries
         && (ledger.deliveries[id].status == Exposed || ledger.deliveries[id].status == Completed) {
        return Some(Sent(id));
      }
      result := Some(NotDeliverable(id));
    }
  }
}
