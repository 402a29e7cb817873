// What recovery, disconnect classification and attach requests come to when nothing interferes: the waits
// of the exposure protocol end, and end with the connection registered.
module ExposureProgress {
  import opened Results
  import opened Sequences
  import opened DeliveryLedger
  import opened StreamServer
  import opened RendererClients
  import opened ExposureProtocol

  // The status of a delivery once it has been marked as uncertain.
  function Marked(status: Option<Status>): Option<Status> {
    if status == Some(Delivering) then Some(PossiblyExposed) else status
  }

  // Only the ledger changed, and in it only the given deliveries, which are now marked.
  ghost predicate MarksExactly(w: World, n: World, ids: set<DeliveryId>) {
    forall id :: StatusOf(n.ledger, id) == if id in ids then Marked(StatusOf(w.ledger, id)) else StatusOf(w.ledger, id)
  }

  predicate Usable(w: World) {
    forall id :: id in w.client.order ==> id in w.client.tracked
  }

  lemma Unfold(w: World, events: seq<Event>, n: World)
    requires Reaches(w, events, n) && events != []
    ensures Usable(w) && Next(w, events[0]).Some? && Reaches(Next(w, events[0]).value, events[1..], n)
  {
  }

  lemma Regroup<T>(first: seq<T>, second: seq<T>)
    requires first != []
    ensures [first[0]] + (first[1..] + second) == first + second
  {
  }

  lemma {:induction false} RunOn(w: World, first: seq<Event>, m: World, second: seq<Event>, n: World)
    requires Reaches(w, first, m) && Reaches(m, second, n)
    ensures Reaches(w, first + second, n)
    decreases |first|
  {
    if first == [] {
      assert first + second == second;
    } else {
      Unfold(w, first, m);
      RunOn(Next(w, first[0]).value, first[1..], m, second, n);
      Prepend(w, first[0], Next(w, first[0]).value, first[1..] + second, n);
      Regroup(first, second);
    }
  }

  lemma OneStep(w: World, e: Event, n: World)
    requires Usable(w) && Next(w, e) == Some(n)
    ensures Reaches(w, [e], n)
  {
    assert Reaches(n, [], n);
    Prepend(w, e, n, [], n);
  }

  lemma MarkEffect(s: Session, id: DeliveryId)
    ensures var n := Commit(s, MarkPossiblyExposed(s, id));
      && n == Commit(s, RecoverDelivery(s, id))
      && StatusOf(n, id) == Marked(StatusOf(s, id))
      && forall other :: other != id ==> StatusOf(n, other) == StatusOf(s, other)
  {
    if id in s.deliveries { CommitEffects(s, id); }
  }

  // ---- Recovery ----

  lemma RecoveryVisits(w: World, id: DeliveryId)
    requires Usable(w) && w.memo.Recovering?
    ensures Next(w, RecoverOne(id)).Some? <==> id in w.memo.todo
    ensures id in w.memo.todo ==>
      var n := Next(w, RecoverOne(id)).value;
      && n == w.(ledger := n.ledger, memo := n.memo) && n.memo.Recovering?
      && id !in n.memo.todo && n.memo.todo + {id} == w.memo.todo && MarksExactly(w, n, {id})
  {
    MarkEffect(w.ledger, id);
  }

  lemma {:induction false} RecoversAll(w: World) returns (events: seq<Event>, n: World)
    requires Usable(w) && w.memo.Recovering?
    ensures Reaches(w, events, n) && n == w.(ledger := n.ledger, memo := Recovering({}))
    ensures MarksExactly(w, n, w.memo.todo)
    decreases w.memo.todo
  {
    if w.memo.todo == {} {
      events, n := [], w;
    } else {
      var id :| id in w.memo.todo;
      RecoveryVisits(w, id);
      var m := Next(w, RecoverOne(id)).value;
      OneStep(w, RecoverOne(id), m);
      events, n := RecoversAll(m);
      RunOn(w, [RecoverOne(id)], m, events, n);
      events := [RecoverOne(id)] + events;
    }
  }

  // What a recovery from here would mark: what the one under way has not visited, or everything.
  function LeftToRecover(w: World): set<DeliveryId> {
    match w.memo
    case RecoveryDone => {}
    case Recovering(todo) => todo
    case NotRecovered => InFlight(w.ledger)
  }

  // Recovery, begun if it is not under way, succeeds, and the requests that awaited it register in order.
  lemma RecoveryCompletes(w: World) returns (events: seq<Event>, n: World)
    requires Usable(w) && !w.memo.RecoveryDone?
    ensures Reaches(w, events, n) && MarksExactly(w, n, LeftToRecover(w))
    ensures n == w.(ledger := n.ledger, memo := RecoveryDone, recoveredOnce := true,
                    server := RegisterAll(w.server.(recovering := []), w.server.recovering))
  {
    var m := w.(memo := Recovering(LeftToRecover(w)));
    var begin := if w.memo.NotRecovered? then [BeginRecovery] else [];
    assert Reaches(w, begin, m) by {
      if w.memo.NotRecovered? { OneStep(w, BeginRecovery, m); }
    }
    var visits, visited := RecoversAll(m);
    var end := EndRecovery(true);
    n := Next(visited, end).value;
    OneStep(visited, end, n);
    RunOn(m, visits, visited, [end], n);
    RunOn(w, begin, m, visits + [end], n);
    events := begin + (visits + [end]);
  }

  // A recovery nothing interferes with, the first or a retry of one that was done, succeeds: whatever was
  // DELIVERING at its beginning is then possibly exposed, and everything else is as it was.
  lemma UndisturbedRecovery(w: World) returns (events: seq<Event>, n: World)
    requires Usable(w) && !w.memo.Recovering? && w.server.recovering == []
    ensures Reaches(w, events, n)
    ensures n == w.(ledger := n.ledger, memo := RecoveryDone, recoveredOnce := true)
    ensures forall id :: StatusOf(n.ledger, id) ==
              if StatusOf(w.ledger, id) == Some(Delivering) then Some(PossiblyExposed) else StatusOf(w.ledger, id)
  {
    var m := w.(memo := NotRecovered);
    var forget := if w.memo.RecoveryDone? then [ForgetRecovery] else [];
    assert Reaches(w, forget, m) by {
      if w.memo.RecoveryDone? { OneStep(w, ForgetRecovery, m); }
    }
    events, n := RecoveryCompletes(m);
    RunOn(w, forget, m, events, n);
    events := forget + events;
    assert w.server.(recovering := []) == w.server;
  }

  // ---- Classification ----

  lemma ClassificationVisits(w: World, id: DeliveryId)
    requires Usable(w) && w.server.classifications != []
    ensures var unvisited := Unvisited(w.server, w.server.classifications[0]);
      && (Next(w, ClassifyOne(id)).Some? <==> id in unvisited)
      && (id in unvisited ==>
            var n := Next(w, ClassifyOne(id)).value;
            && n == w.(ledger := n.ledger, server := w.server.(classifications := n.server.classifications))
            && n.server.classifications != [] && n.server.classifications[1..] == w.server.classifications[1..]
            && id !in Unvisited(n.server, n.server.classifications[0])
            && Unvisited(n.server, n.server.classifications[0]) + {id} == unvisited && MarksExactly(w, n, {id}))
  {
    MarkEffect(w.ledger, id);
  }

  lemma {:induction false} ClassifiesAll(w: World) returns (events: seq<Event>, n: World)
    requires Usable(w) && w.server.classifications != []
    ensures Reaches(w, events, n)
    ensures n == w.(ledger := n.ledger, server := w.server.(classifications := n.server.classifications))
    ensures n.server.classifications != [] && n.server.classifications[1..] == w.server.classifications[1..]
    ensures Unvisited(n.server, n.server.classifications[0]) == {}
    ensures MarksExactly(w, n, Unvisited(w.server, w.server.classifications[0]))
    decreases Unvisited(w.server, w.server.classifications[0])
  {
    var unvisited := Unvisited(w.server, w.server.classifications[0]);
    if unvisited == {} {
      events, n := [], w;
    } else {
      var id :| id in unvisited;
      ClassificationVisits(w, id);
      var m := Next(w, ClassifyOne(id)).value;
      OneStep(w, ClassifyOne(id), m);
      events, n := ClassifiesAll(m);
      RunOn(w, [ClassifyOne(id)], m, events, n);
      events := [ClassifyOne(id)] + events;
    }
  }

  // What classification has yet to mark.
  function LeftToClassify(s: Server, classifications: seq<Classification>): set<DeliveryId>
    decreases classifications
  {
    if classifications == [] then {} else Unvisited(s, classifications[0]) + LeftToClassify(s, classifications[1..])
  }

  lemma {:induction false} SameToClassify(s: Server, n: Server, classifications: seq<Classification>)
    requires n.connections == s.connections
    ensures LeftToClassify(n, classifications) == LeftToClassify(s, classifications)
    decreases classifications
  {
    if classifications != [] { SameToClassify(s, n, classifications[1..]); }
  }

  // Every classification a request saw comes to its end, and then the request awaits recovery or registers.
  lemma {:induction false} ClassificationsComplete(w: World, c: ConnectionId) returns (events: seq<Event>, n: World)
    requires Usable(w) && w.server.recovering == [] && w.server.classifications != []
    requires w.server.awaiting == [Awaiting(c, |w.server.classifications|)]
    ensures Reaches(w, events, n) && MarksExactly(w, n, LeftToClassify(w.server, w.server.classifications))
    ensures var server := w.server.(classifications := [], awaiting := []);
      n == w.(ledger := n.ledger,
              server := if w.memo.RecoveryDone? then Register(server, c) else server.(recovering := [c]))
    decreases |w.server.classifications|
  {
    var head, rest := w.server.classifications[0], w.server.classifications[1..];
    var visits, visited := ClassifiesAll(w);
    var m := Next(visited, ClassifyDone).value;
    OneStep(visited, ClassifyDone, m);
    RunOn(w, visits, visited, [ClassifyDone], m);
    events := visits + [ClassifyDone];
    SettlesFirst(visited, c);
    if rest == [] {
      n := m;
    } else {
      SameToClassify(w.server, m.server, rest);
      var more: seq<Event>;
      more, n := ClassificationsComplete(m, c);
      RunOn(w, events, m, more, n);
      events := events + more;
    }
  }

  lemma SettlesFirst(w: World, c: ConnectionId)
    requires Usable(w) && w.server.recovering == [] && w.server.classifications != []
    requires Unvisited(w.server, w.server.classifications[0]) == {}
    requires w.server.awaiting == [Awaiting(c, |w.server.classifications|)]
    ensures var rest := w.server.classifications[1..];
      var server := w.server.(classifications := rest, awaiting := if rest == [] then [] else [Awaiting(c, |rest|)]);
      Next(w, ClassifyDone) ==
        Some(w.(server := if rest != [] then server
                          else if w.memo.RecoveryDone? then Register(server, c) else server.(recovering := [c])))
  {
    var rest := w.server.classifications[1..];
    var one := w.server.awaiting;
    assert one[1..] == [] && StillAwaiting([]) == [] && Resuming([]) == [];
    var left := if rest == [] then [] else [Awaiting(c, |rest|)];
    var resumed := if rest == [] then [c] else [];
    assert StillAwaiting(one) == left && Resuming(one) == resumed;
    var server := w.server.(classifications := rest, awaiting := left);
    assert EndClassification(w.server, w.memo.RecoveryDone?) == AwaitRecovered(server, resumed, w.memo.RecoveryDone?);
    if rest == [] {
      RegisterOne(server, c);
      assert server.recovering + [c] == [c];
    } else {
      assert server.(recovering := server.recovering + []) == server;
    }
  }

  lemma RegisterOne(s: Server, c: ConnectionId)
    ensures RegisterAll(s, [c]) == Register(s, c)
  {
    assert [c][1..] == [];
    assert RegisterAll(Register(s, c), []) == Register(s, c);
  }

  // ---- Attach requests ----

  // A request nothing interferes with is registered, as a connection that was sent nothing, once every
  // classification it saw and recovery are over; what those mark is exactly what they had left to mark.
  lemma UndisturbedAttach(w: World, c: ConnectionId) returns (events: seq<Event>, n: World)
    requires Usable(w) && w.server.attached.None? && c !in w.server.connections
    requires w.server.awaiting == [] && w.server.recovering == []
    ensures Reaches(w, [RequestClient(c)] + events, n)
    ensures n.server == w.server.(connections := w.server.connections[c := Connection({}, false)], attached := Some(c),
                                  classifications := [])
    ensures n == w.(ledger := n.ledger, server := n.server, memo := RecoveryDone,
                    recoveredOnce := w.recoveredOnce || !w.memo.RecoveryDone?)
    ensures forall id :: StatusOf(n.ledger, id) ==
              if StatusOf(w.ledger, id) == Some(Delivering)
                 && (id in LeftToRecover(w)
                     || exists k :: 0 <= k < |w.server.classifications| && id in Unvisited(w.server, w.server.classifications[k]))
              then Some(PossiblyExposed) else StatusOf(w.ledger, id)
  {
    var w1 := Next(w, RequestClient(c)).value;
    OneStep(w, RequestClient(c), w1);
    RegisterOne(w.server, c);
    forall id ensures id in LeftToClassify(w.server, w.server.classifications)
      <==> exists k :: 0 <= k < |w.server.classifications| && id in Unvisited(w.server, w.server.classifications[k])
    {
      LeftExactly(w.server, w.server.classifications, id);
    }
    var w2 := w1;
    var waits: seq<Event> := [];
    if w.server.classifications != [] {
      SameToClassify(w.server, w1.server, w.server.classifications);
      waits, w2 := ClassificationsComplete(w1, c);
    }
    var recovers: seq<Event> := [];
    n := w2;
    if !w.memo.RecoveryDone? {
      RegisterOne(w2.server.(recovering := []), c);
      recovers, n := RecoveryCompletes(w2);
    }
    RunOn(w1, waits, w2, recovers, n);
    events := waits + recovers;
    RunOn(w, [RequestClient(c)], w1, events, n);
  }

  lemma {:induction false} LeftExactly(s: Server, classifications: seq<Classification>, id: DeliveryId)
    ensures id in LeftToClassify(s, classifications)
      <==> exists k :: 0 <= k < |classifications| && id in Unvisited(s, classifications[k])
    decreases classifications
  {
    if classifications != [] {
      var rest := classifications[1..];
      LeftExactly(s, rest, id);
      assert forall k :: 0 <= k < |rest| ==> rest[k] == classifications[k + 1];
      if k :| 0 <= k < |classifications| && id in Unvisited(s, classifications[k]) {
        if k > 0 { assert rest[k - 1] == classifications[k]; }
      }
    }
  }

  // Several requests may wait at once: each counts down the classifications it saw, they resume in the order
  // of their arrival, and the first to register is the one registered.
  lemma {:induction false} WaitsCountDown(awaiting: seq<Awaiting>, c: ConnectionId, left: nat)
    ensures c in Resuming(awaiting) <==> exists k :: 0 <= k < |awaiting| && awaiting[k].c == c && awaiting[k].left <= 1
    ensures left >= 1 ==> (Awaiting(c, left) in StillAwaiting(awaiting) <==> Awaiting(c, left + 1) in awaiting)
    ensures Awaiting(c, 0) !in StillAwaiting(awaiting)
    ensures |Resuming(awaiting)| + |StillAwaiting(awaiting)| == |awaiting|
    decreases awaiting
  {
    if awaiting != [] {
      var rest := awaiting[1..];
      WaitsCountDown(rest, c, left);
      assert awaiting == [awaiting[0]] + rest;
      assert forall k :: 0 <= k < |rest| ==> rest[k] == awaiting[k + 1];
      if k :| 0 <= k < |awaiting| && awaiting[k].c == c && awaiting[k].left <= 1 {
        if k > 0 { assert rest[k - 1] == awaiting[k]; }
      }
    }
  }

  lemma {:induction false} FirstOneRegisters(s: Server, cs: seq<ConnectionId>)
    requires cs != [] && s.attached.None? && cs[0] !in s.connections
    ensures RegisterAll(s, cs) == s.(connections := s.connections[cs[0] := Connection({}, false)], attached := Some(cs[0]))
    ensures forall others :: RegisterAll(RegisterAll(s, cs), others) == RegisterAll(s, cs)
  {
    var m := Register(s, cs[0]);
    forall others ensures RegisterAll(m, others) == m { NoneRegisters(m, others); }
  }

  lemma {:induction false} NoneRegisters(s: Server, cs: seq<ConnectionId>)
    requires s.attached.Some?
    ensures RegisterAll(s, cs) == s
    decreases cs
  {
    if cs != [] { NoneRegisters(s, cs[1..]); }
  }

  // The first k classifications settle, one after the other.
  function Settle(s: Server, k: nat, recovered: bool): Server
    decreases k
  {
    if k == 0 || s.classifications == [] then s else Settle(EndClassification(s, recovered), k - 1, recovered)
  }

  // Of two requests that wait for the same disconnects the earlier one is registered, and the later refused;
  // while recovery is not complete they await it in their order.
  lemma FirstComeFirstServed(s: Server, c: ConnectionId, d: ConnectionId, recovered: bool)
    requires s.attached.None? && s.awaiting == [] && s.recovering == [] && s.classifications != []
    requires c !in s.connections && d !in s.connections && c != d
    ensures var first := RequestAttach(s, c, recovered);
      && first.Some?
      && var second := RequestAttach(first.value, d, recovered);
      && second.Some?
      && Settle(second.value, |s.classifications|, recovered) ==
           if recovered
           then s.(classifications := [], connections := s.connections[c := Connection({}, false)], attached := Some(c))
           else s.(classifications := [], recovering := [c, d])
  {
    var k := |s.classifications|;
    var both := RequestAttach(RequestAttach(s, c, recovered).value, d, recovered).value;
    assert both == s.(awaiting := [Awaiting(c, k), Awaiting(d, k)]);
    BothSettle(both, c, d, recovered);
  }

  lemma {:induction false} BothSettle(s: Server, c: ConnectionId, d: ConnectionId, recovered: bool)
    requires s.attached.None? && s.recovering == [] && s.classifications != []
    requires c !in s.connections && d !in s.connections && c != d
    requires s.awaiting == [Awaiting(c, |s.classifications|), Awaiting(d, |s.classifications|)]
    ensures Settle(s, |s.classifications|, recovered) ==
      if recovered
      then s.(classifications := [], awaiting := [], connections := s.connections[c := Connection({}, false)], attached := Some(c))
      else s.(classifications := [], awaiting := [], recovering := [c, d])
    decreases |s.classifications|
  {
    var rest := s.classifications[1..];
    var later := [s.awaiting[1]];
    assert s.awaiting[1..] == later && later[1..] == [];
    var left := if rest == [] then [] else [Awaiting(c, |rest|), Awaiting(d, |rest|)];
    var resumed := if rest == [] then [c, d] else [];
    assert StillAwaiting(later) == (if rest == [] then [] else [Awaiting(d, |rest|)]);
    assert Resuming(later) == (if rest == [] then [d] else []);
    assert StillAwaiting(s.awaiting) == left && Resuming(s.awaiting) == resumed;
    var next := s.(classifications := rest, awaiting := left);
    assert EndClassification(s, recovered) == AwaitRecovered(next, resumed, recovered);
    if rest == [] {
      assert next.recovering + [c, d] == [c, d];
      FirstOneRegisters(next, [c, d]);
    } else {
      assert next.(recovering := next.recovering + []) == next;
      assert AwaitRecovered(next, [], recovered) == next;
      BothSettle(next, c, d, recovered);
    }
  }

  // A request given up waits for nothing any more, and no other request is affected.
  lemma AbandonsExactly(s: Server, c: ConnectionId)
    ensures var n := Abandon(s, c);
      && n == s.(awaiting := n.awaiting, recovering := n.recovering)
      && (forall a :: a in n.awaiting <==> a in s.awaiting && a.c != c)
      && (forall d :: d in n.recovering <==> d in s.recovering && d != c)
  {
    WithoutAwaitingMembers(s.awaiting, c);
    WithoutMembers(s.recovering, c);
  }

  lemma {:induction false} WithoutAwaitingMembers(awaiting: seq<Awaiting>, c: ConnectionId)
    ensures forall a :: a in WithoutAwaiting(awaiting, c) <==> a in awaiting && a.c != c
    decreases awaiting
  {
    if awaiting != [] {
      WithoutAwaitingMembers(awaiting[1..], c);
      assert awaiting == [awaiting[0]] + awaiting[1..];
    }
  }

  // ---- Writes that end in doubt ----

  // What the marking command and the stretch after it do, whatever happened to the delivery while the write
  // was in doubt: a delivery still DELIVERING is possibly exposed, the connection is given up for
  // classification, and a stalled write is reported SENT only if an acknowledgement overtook the mark.
  lemma MarkStretches(w: World) returns (n: World)
    requires Usable(w) && w.server.publication.AwaitMark?
    ensures Reaches(w, [ExecuteMark, ContinueMark], n)
    ensures var p, status := w.server.publication, StatusOf(w.ledger, w.server.publication.id);
      && MarksExactly(w, n, {p.id})
      && n == w.(ledger := n.ledger, server := n.server, reportedSent := n.reportedSent)
      && n.reportedSent == w.reportedSent
           + (if p.stalled && (status == Some(Exposed) || status == Some(Completed)) then {p.id} else {})
      && n.server == w.server.(publication := Idle, connections := n.server.connections,
                               attached := if w.server.attached == Some(p.c) then None else w.server.attached,
                               classifications := w.server.classifications
                                 + if w.server.attached == Some(p.c) then [Classification(p.c, {})] else [])
      && n.server.connections == (if p.stalled && p.c in w.server.connections
                                  then w.server.connections[p.c := w.server.connections[p.c].(closed := true)]
                                  else w.server.connections)
  {
    var p := w.server.publication;
    var m := Marks(w);
    n := GivesUp(m);
    OneStep(m, ContinueMark, n);
    Prepend(w, ExecuteMark, m, [ContinueMark], n);
  }

  lemma Marks(w: World) returns (n: World)
    requires Usable(w) && w.server.publication.AwaitMark?
    ensures var p := w.server.publication;
      && Next(w, ExecuteMark) == Some(n)
      && n == w.(ledger := n.ledger, server := w.server.(publication := Publication.Marked(p.c, p.id, p.stalled)))
      && MarksExactly(w, n, {p.id})
  {
    MarkEffect(w.ledger, w.server.publication.id);
    n := Next(w, ExecuteMark).value;
  }

  lemma GivesUp(w: World) returns (n: World)
    requires Usable(w) && w.server.publication.Marked?
    ensures Next(w, ContinueMark) == Some(n)
    ensures var p, status := w.server.publication, StatusOf(w.ledger, w.server.publication.id);
      && n == w.(server := n.server, reportedSent := n.reportedSent)
      && n.reportedSent == w.reportedSent
           + (if p.stalled && (status == Some(Exposed) || status == Some(Completed)) then {p.id} else {})
      && n.server == w.server.(publication := Idle, connections := n.server.connections,
                               attached := if w.server.attached == Some(p.c) then None else w.server.attached,
                               classifications := w.server.classifications
                                 + if w.server.attached == Some(p.c) then [Classification(p.c, {})] else [])
      && n.server.connections == (if p.stalled && p.c in w.server.connections
                                  then w.server.connections[p.c := w.server.connections[p.c].(closed := true)]
                                  else w.server.connections)
  {
    n := Next(w, ContinueMark).value;
  }

  // Everything before a write that may be attempted.
  predicate MayWrite(w: World, c: ConnectionId, id: DeliveryId) {
    && Usable(w) && w.recoveredOnce && w.server.publication.Idle? && w.server.attached == Some(c)
    && c in w.server.connections && !w.server.connections[c].closed && id !in w.server.connections[c].sent
    && id in w.ledger.deliveries
    && (w.ledger.deliveries[id].status == Delivering
        || (w.ledger.deliveries[id].status == Queued && Deliverable(w.ledger, id)))
  }

  // The delivery was written and remembered, and only the outcome of the write is open.
  ghost predicate Wrote(w: World, n: World, c: ConnectionId, id: DeliveryId) {
    && n == w.(ledger := n.ledger, server := n.server, writes := w.writes + multiset{id}, inflight := w.inflight + multiset{id})
    && StatusOf(n.ledger, id) == Some(Delivering)
    && (forall o :: o != id ==> StatusOf(n.ledger, o) == StatusOf(w.ledger, o))
    && c in w.server.connections
    && n.server == w.server.(publication := n.server.publication,
                             connections := w.server.connections[c := Connection(w.server.connections[c].sent + {id}, false)])
  }

  lemma WritesInDoubt(w: World, c: ConnectionId, id: DeliveryId, outcome: WriteOutcome) returns (events: seq<Event>, n: World)
    requires MayWrite(w, c, id) && !outcome.Accepted?
    ensures Reaches(w, events, n) && Wrote(w, n, c, id)
    ensures n.server.publication == if outcome.Backpressure? then AwaitDrain(c, id) else AwaitMark(c, id, false)
  {
    FirstStretches(w, c, id, true, false);
    var w1 := Suspended(w, AwaitRecovery(c, id));
    var w2 := AfterFirstStretches(w, c, id, true, false);
    assert w2 == Suspended(w.(server := Remember(w.server, c, id)), AwaitReconnect(c, id));
    events, n := ReconnectsAndWrites(w2, c, id, outcome);
    Prepend(w1, RecoveryAwaited(true, false), w2, events, n);
    Prepend(w, Publish(id), w1, [RecoveryAwaited(true, false)] + events, n);
    events := [Publish(id)] + ([RecoveryAwaited(true, false)] + events);
  }

  lemma ReconnectsAndWrites(w: World, c: ConnectionId, id: DeliveryId, outcome: WriteOutcome) returns (events: seq<Event>, n: World)
    requires Usable(w) && w.server.publication == AwaitReconnect(c, id) && !outcome.Accepted?
    requires c in w.server.connections && !w.server.connections[c].closed && id in w.ledger.deliveries
    requires w.ledger.deliveries[id].status == Delivering
      || (w.ledger.deliveries[id].status == Queued && Deliverable(w.ledger, id))
    ensures Reaches(w, events, n)
    ensures n == w.(ledger := n.ledger, writes := w.writes + multiset{id}, inflight := w.inflight + multiset{id},
                    server := w.server.(publication := if outcome.Backpressure? then AwaitDrain(c, id) else AwaitMark(c, id, false)))
    ensures StatusOf(n.ledger, id) == Some(Delivering)
    ensures forall o :: o != id ==> StatusOf(n.ledger, o) == StatusOf(w.ledger, o)
  {
    var m := Reconnects(w, c, id);
    n := Next(m, ContinueWrite(false, outcome)).value;
    OneStep(m, ContinueWrite(false, outcome), n);
    Prepend(w, ExecuteReconnect, m, [ContinueWrite(false, outcome)], n);
    events := [ExecuteReconnect] + [ContinueWrite(false, outcome)];
  }

  lemma Reconnects(w: World, c: ConnectionId, id: DeliveryId) returns (n: World)
    requires Usable(w) && w.server.publication == AwaitReconnect(c, id) && id in w.ledger.deliveries
    requires w.ledger.deliveries[id].status == Delivering
      || (w.ledger.deliveries[id].status == Queued && Deliverable(w.ledger, id))
    ensures Next(w, ExecuteReconnect) == Some(n)
    ensures n == w.(ledger := n.ledger, server := w.server.(publication := Reconnected(c, id, true)))
    ensures StatusOf(n.ledger, id) == Some(Delivering)
    ensures forall o :: o != id ==> StatusOf(n.ledger, o) == StatusOf(w.ledger, o)
  {
    StartsExactly(w.ledger, id);
    n := Next(w, ExecuteReconnect).value;
  }

  // A write under backpressure that drains is reported SENT and leaves the connection attached.
  lemma DrainedWrite(w: World, c: ConnectionId, id: DeliveryId) returns (events: seq<Event>, n: World)
    requires MayWrite(w, c, id)
    ensures Reaches(w, events, n)
    ensures n.server.publication.Idle? && n.server.attached == Some(c) && n.reportedSent == w.reportedSent + {id}
    ensures Wrote(w, n.(reportedSent := w.reportedSent), c, id)
  {
    var m: World;
    events, m := WritesInDoubt(w, c, id, Backpressure);
    n := Next(m, DrainSettles(true)).value;
    OneStep(m, DrainSettles(true), n);
    RunOn(w, events, m, [DrainSettles(true)], n);
    events := events + [DrainSettles(true)];
  }

  // A write that stalls or fails was still attempted once: its delivery is possibly exposed, it is not
  // reported SENT, and its connection is given up, still remembering the delivery.
  lemma UncertainWrite(w: World, c: ConnectionId, id: DeliveryId, stalls: bool) returns (events: seq<Event>, n: World)
    requires MayWrite(w, c, id)
    ensures Reaches(w, events, n)
    ensures n.writes == w.writes + multiset{id} && n.reportedSent == w.reportedSent
    ensures StatusOf(n.ledger, id) == Some(PossiblyExposed)
    ensures forall o :: o != id ==> StatusOf(n.ledger, o) == StatusOf(w.ledger, o)
    ensures n.server.publication.Idle? && n.server.attached.None?
    ensures n.server.classifications == w.server.classifications + [Classification(c, {})]
    ensures n.server.connections == w.server.connections[c := Connection(w.server.connections[c].sent + {id}, stalls)]
  {
    var m: World;
    if stalls {
      var m0: World;
      events, m0 := WritesInDoubt(w, c, id, Backpressure);
      m := Next(m0, DrainSettles(false)).value;
      OneStep(m0, DrainSettles(false), m);
      RunOn(w, events, m0, [DrainSettles(false)], m);
      events := events + [DrainSettles(false)];
    } else {
      events, m := WritesInDoubt(w, c, id, Threw);
    }
    n := MarkStretches(m);
    RunOn(w, events, m, [ExecuteMark, ContinueMark], n);
    events := events + [ExecuteMark, ContinueMark];
  }

  // Without a live connection nothing is written; a dead one is given up for classification.
  lemma PublicationWithoutClient(w: World, id: DeliveryId)
    requires Usable(w) && w.server.publication.Idle?
    requires w.server.attached.Some? ==>
      w.server.attached.value !in w.server.connections || w.server.connections[w.server.attached.value].closed
    ensures Next(w, Publish(id)) ==
      Some(w.(server := w.server.(attached := None,
                                  classifications := w.server.classifications
                                    + if w.server.attached.Some? then [Classification(w.server.attached.value, {})] else [])))
  {
    assert w.server.(publication := Idle) == w.server;
    assert w.server.classifications + [] == w.server.classifications;
  }

  // ---- A delivery from end to end ----

  // What an acknowledgement turns a delivery into, if it is accepted from this status.
  function Acknowledged(status: Status, kind: AckKind): Option<Status> {
    match kind
    case AckExposed => if status == Delivering || status == PossiblyExposed then Some(Exposed) else None
    case AckCompleted => if status == Exposed then Some(Completed) else None
    case AckNotExposed => if status == Delivering then Some(Cancelled) else None
  }

  // And what its answer does to the client.
  function Answered(client: Client, ack: Ack): Client
    requires ack.id in client.tracked
  {
    match ack.kind
    case AckExposed => Update(client, ack.id, client.tracked[ack.id].(exposedAcked := true))
    case AckCompleted => Update(client, ack.id, client.tracked[ack.id].(completedAcked := true))
    case AckNotExposed => Client(Without(client.order, ack.id), client.tracked - {ack.id})
  }

  lemma AckIsServed(w: World, ack: Ack) returns (n: World)
    requires Usable(w) && ack in w.acks && ack.id in w.ledger.deliveries
    requires Acknowledged(w.ledger.deliveries[ack.id].status, ack.kind).Some?
    ensures Next(w, ServeAck(ack)) == Some(n)
    ensures n == w.(ledger := n.ledger, accepted := w.accepted + {ack})
    ensures StatusOf(n.ledger, ack.id) == Acknowledged(w.ledger.deliveries[ack.id].status, ack.kind)
    ensures forall o :: o != ack.id ==> StatusOf(n.ledger, o) == StatusOf(w.ledger, o)
  {
    CommitEffects(w.ledger, ack.id);
    n := Next(w, ServeAck(ack)).value;
  }

  lemma AckIsAnswered(w: World, ack: Ack) returns (n: World)
    requires Usable(w) && ack in w.accepted && ack.id in w.client.tracked
    ensures Next(w, AckAnswered(ack)) == Some(n) && n == w.(client := Answered(w.client, ack))
  {
    n := Next(w, AckAnswered(ack)).value;
  }

  // An acknowledgement that is due is sent, served and answered.
  lemma AckRoundTrip(w: World, ack: Ack) returns (n: World)
    requires Usable(w) && ack.id in w.client.tracked && ack.id in w.ledger.deliveries
    requires MaySend(w.client.tracked[ack.id], ack.kind)
    requires Acknowledged(w.ledger.deliveries[ack.id].status, ack.kind).Some?
    ensures Reaches(w, [SendAck(ack), ServeAck(ack), AckAnswered(ack)], n)
    ensures n == w.(ledger := n.ledger, client := Answered(w.client, ack), acks := w.acks + {ack}, accepted := w.accepted + {ack})
    ensures StatusOf(n.ledger, ack.id) == Acknowledged(w.ledger.deliveries[ack.id].status, ack.kind)
    ensures forall o :: o != ack.id ==> StatusOf(n.ledger, o) == StatusOf(w.ledger, o)
  {
    var sent := w.(acks := w.acks + {ack});
    assert Next(w, SendAck(ack)) == Some(sent);
    var served := AckIsServed(sent, ack);
    n := AckIsAnswered(served, ack);
    OneStep(served, AckAnswered(ack), n);
    Prepend(sent, ServeAck(ack), served, [AckAnswered(ack)], n);
    Prepend(w, SendAck(ack), sent, [ServeAck(ack), AckAnswered(ack)], n);
  }

  lemma TakesUp(w: World, id: DeliveryId, fingerprint: nat) returns (n: World)
    requires Usable(w) && id in w.inflight && id !in w.client.tracked && |w.client.order| < w.capacity
    ensures Next(w, Receive(id, fingerprint)) == Some(n)
    ensures n == w.(inflight := w.inflight - multiset{id},
                    client := Client(w.client.order + [id],
                                     w.client.tracked[id := Entry(fingerprint, false, false, false, false, false)]))
  {
    n := Next(w, Receive(id, fingerprint)).value;
  }

  lemma Begins(w: World, id: DeliveryId) returns (n: World)
    requires Usable(w) && id in w.client.tracked && !w.client.tracked[id].began && !w.client.tracked[id].rejected
    ensures Next(w, Begin(id)) == Some(n)
    ensures n == w.(presents := w.presents + multiset{id},
                    client := Update(w.client, id, w.client.tracked[id].(began := true)))
  {
    n := Next(w, Begin(id)).value;
  }

  // A command in the socket that the client does not know yet is taken up, begun and acknowledged as exposed.
  lemma Presents(w: World, id: DeliveryId, fingerprint: nat) returns (events: seq<Event>, n: World)
    requires Usable(w) && id in w.inflight && id !in w.client.tracked && |w.client.order| < w.capacity
    requires id in w.ledger.deliveries && Acknowledged(w.ledger.deliveries[id].status, AckExposed).Some?
    ensures Reaches(w, events, n)
    ensures var ack := Ack(AckExposed, id);
      n == w.(ledger := n.ledger, inflight := w.inflight - multiset{id}, presents := w.presents + multiset{id},
              client := Client(w.client.order + [id],
                               w.client.tracked[id := Entry(fingerprint, true, false, false, true, false)]),
              acks := w.acks + {ack}, accepted := w.accepted + {ack})
    ensures StatusOf(n.ledger, id) == Some(Exposed)
    ensures forall o :: o != id ==> StatusOf(n.ledger, o) == StatusOf(w.ledger, o)
  {
    var taken := TakesUp(w, id, fingerprint);
    var begun := Begins(taken, id);
    n := AckRoundTrip(begun, Ack(AckExposed, id));
    events := [SendAck(Ack(AckExposed, id)), ServeAck(Ack(AckExposed, id)), AckAnswered(Ack(AckExposed, id))];
    Prepend(taken, Begin(id), begun, events, n);
    Prepend(w, Receive(id, fingerprint), taken, [Begin(id)] + events, n);
    events := [Receive(id, fingerprint)] + ([Begin(id)] + events);
  }

  // A presentation acknowledged as exposed ends and is acknowledged as completed.
  lemma Completes(w: World, id: DeliveryId) returns (events: seq<Event>, n: World)
    requires Usable(w) && id in w.client.tracked && StatusOf(w.ledger, id) == Some(Exposed)
    requires var entry := w.client.tracked[id]; entry.began && entry.exposedAcked && !entry.completedAcked
    ensures Reaches(w, events, n)
    ensures var ack := Ack(AckCompleted, id);
      n == w.(ledger := n.ledger, finished := w.finished + {id}, acks := w.acks + {ack}, accepted := w.accepted + {ack},
              client := Update(w.client, id, w.client.tracked[id].(finished := true, completedAcked := true)))
    ensures StatusOf(n.ledger, id) == Some(Completed)
    ensures forall o :: o != id ==> StatusOf(n.ledger, o) == StatusOf(w.ledger, o)
  {
    var ended := w.(finished := w.finished + {id}, client := Update(w.client, id, w.client.tracked[id].(finished := true)));
    assert Next(w, Complete(id)) == Some(ended);
    n := AckRoundTrip(ended, Ack(AckCompleted, id));
    events := [SendAck(Ack(AckCompleted, id)), ServeAck(Ack(AckCompleted, id)), AckAnswered(Ack(AckCompleted, id))];
    Prepend(w, Complete(id), ended, events, n);
    events := [Complete(id)] + events;
  }

  // Left alone, a delivery that may be written and that the client has room for is written once, presented
  // once, and ends COMPLETED with both acknowledgements accepted and answered.
  lemma UndisturbedDelivery(w: World, c: ConnectionId, id: DeliveryId, fingerprint: nat) returns (events: seq<Event>, n: World)
    requires MayWrite(w, c, id) && id !in w.client.tracked && |w.client.order| < w.capacity
    ensures Reaches(w, events, n)
    ensures StatusOf(n.ledger, id) == Some(Completed)
    ensures forall o :: o != id ==> StatusOf(n.ledger, o) == StatusOf(w.ledger, o)
    ensures n.writes == w.writes + multiset{id} && n.presents == w.presents + multiset{id} && n.inflight == w.inflight
    ensures n.finished == w.finished + {id} && n.reportedSent == w.reportedSent + {id}
    ensures n.client == Client(w.client.order + [id], w.client.tracked[id := Entry(fingerprint, true, true, false, true, true)])
    ensures {Ack(AckExposed, id), Ack(AckCompleted, id)} <= n.accepted
  {
    var written, presented: World;
    var presents, completes: seq<Event>;
    events, written := DrainedWrite(w, c, id);
    presents, presented := Presents(written, id, fingerprint);
    completes, n := Completes(presented, id);
    RunOn(w, events, written, presents, presented);
    RunOn(w, events + presents, presented, completes, n);
    events := events + presents + completes;
  }

  // A presentation that could not begin, reported before anything else became of its delivery, cancels the
  // delivery, and the client forgets it.
  lemma RejectedDelivery(w: World, id: DeliveryId) returns (events: seq<Event>, n: World)
    requires Usable(w) && id in w.client.tracked && !w.client.tracked[id].began && StatusOf(w.ledger, id) == Some(Delivering)
    ensures Reaches(w, events, n)
    ensures StatusOf(n.ledger, id) == Some(Cancelled) && id !in n.client.tracked && id !in n.client.order
    ensures forall o :: o != id ==> StatusOf(n.ledger, o) == StatusOf(w.ledger, o)
    ensures n.presents == w.presents && n.writes == w.writes && n.accepted == w.accepted + {Ack(AckNotExposed, id)}
  {
    var ack := Ack(AckNotExposed, id);
    var rejected := w.(client := Update(w.client, id, w.client.tracked[id].(rejected := true)));
    assert Next(w, RejectPresentation(id)) == Some(rejected);
    n := AckRoundTrip(rejected, ack);
    WithoutMembers(w.client.order, id);
    events := [SendAck(ack), ServeAck(ack), AckAnswered(ack)];
    Prepend(w, RejectPresentation(id), rejected, events, n);
    events := [RejectPresentation(id)] + events;
  }

  // What the safety results have to bear: sockets die, processes crash, pages are reloaded, clients leave
  // and commands on the wire are lost whenever they like, and no step of the protocol can prevent it.
  lemma NothingPreventsFailures(w: World, c: ConnectionId, id: DeliveryId)
    requires Usable(w)
    ensures Next(w, Crash) == Some(w.(server := EmptyServer, memo := NotRecovered, recoveredOnce := false))
    ensures Next(w, Reload) == Some(w.(client := EmptyClient))
    ensures id in w.inflight ==> Next(w, Lose(id)) == Some(w.(inflight := w.inflight - multiset{id}))
    ensures Next(w, SocketDies(c)) ==
      Some(if c in w.server.connections
           then w.(server := w.server.(connections := w.server.connections[c := w.server.connections[c].(closed := true)]))
           else w)
    ensures Next(w, AbandonClient(c)).Some? && Next(w, AbandonClient(c)).value.server.connections == w.server.connections
  {
    assert w.(server := w.server) == w;
  }
}
