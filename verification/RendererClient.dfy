// The browser's renderer client: its bounded delivery cache, the presentation marks and the guards
// under which it acknowledges.
module RendererClients {
  import opened Results
  import opened Sequences
  import opened DeliveryLedger

  datatype Entry = Entry(
    fingerprint: nat,
    began: bool,
    finished: bool,
    rejected: bool,
    exposedAcked: bool,
    completedAcked: bool)

  // `order` is the insertion order of the source's Map.
  datatype Client = Client(order: seq<DeliveryId>, tracked: map<DeliveryId, Entry>)

  datatype Handling = Duplicate | Mismatch | CacheFull | Present(client: Client)

  datatype AckKind = AckExposed | AckCompleted | AckNotExposed

  const EmptyClient := Client([], map[])

  ghost predicate Valid(client: Client, capacity: nat) {
    && Distinct(client.order)
    && (forall id :: id in client.order <==> id in client.tracked)
    && |client.order| <= capacity
  }

  function FirstEvictable(client: Client, i: nat): (k: nat)
    requires i <= |client.order|
    requires forall id :: id in client.order ==> id in client.tracked
    ensures i <= k <= |client.order|
    ensures k < |client.order| ==> client.tracked[client.order[k]].completedAcked
    ensures forall j :: i <= j < k ==> !client.tracked[client.order[j]].completedAcked
    decreases |client.order| - i
  {
    if i == |client.order| then i
    else if client.tracked[client.order[i]].completedAcked then i
    else FirstEvictable(client, i + 1)
  }

  function Drop(client: Client, k: nat): Client
    requires k < |client.order|
  {
    Client(client.order[..k] + client.order[k + 1..], client.tracked - {client.order[k]})
  }

  // reserveCacheSlot: None is the thrown capacity error.
  function ReserveSlot(client: Client, capacity: nat): Option<Client>
    requires forall id :: id in client.order ==> id in client.tracked
  {
    if |client.order| < capacity then Some(client)
    else
      var k := FirstEvictable(client, 0);
      if k == |client.order| then None else Some(Drop(client, k))
  }

  // handleMessage up to the start of the presentation.
  function Handle(client: Client, capacity: nat, id: DeliveryId, fingerprint: nat): Handling
    requires forall id :: id in client.order ==> id in client.tracked
  {
    if id in client.tracked then
      if client.tracked[id].fingerprint != fingerprint then Mismatch else Duplicate
    else match ReserveSlot(client, capacity)
         case None => CacheFull
         case Some(room) =>
           Present(Client(
             room.order + [id],
             room.tracked[id := Entry(fingerprint, false, false, false, false, false)]))
  }

  function Update(client: Client, id: DeliveryId, entry: Entry): Client
    requires id in client.tracked
  {
    client.(tracked := client.tracked[id := entry])
  }

  function Forgotten(client: Client, id: DeliveryId): Client {
    Client(Without(client.order, id), client.tracked - {id})
  }

  // The guards of flushAcknowledgements and of the not-exposed branch of handleMessage.
  predicate MaySend(entry: Entry, kind: AckKind) {
    match kind
    case AckExposed => entry.began && !entry.exposedAcked
    case AckCompleted => entry.finished && entry.exposedAcked && !entry.completedAcked
    case AckNotExposed => entry.rejected && !entry.began
  }

  // One run of flushAcknowledgements, given which of its sends the transport answers.
  function Flush(entry: Entry, exposedAnswered: bool, completedAnswered: bool): (Entry, seq<AckKind>) {
    var first := MaySend(entry, AckExposed);
    if first && !exposedAnswered then (entry, [AckExposed])
    else
      var exposed := if first then entry.(exposedAcked := true) else entry;
      var sent := if first then [AckExposed] else [];
      if !MaySend(exposed, AckCompleted) then (exposed, sent)
      else if !completedAnswered then (exposed, sent + [AckCompleted])
      else (exposed.(completedAcked := true), sent + [AckCompleted])
  }

  // ---- Properties ----

  // Making room gives up at most one delivery, and only one whose completion the server has recorded.
  lemma ReserveGivesUpOnlyAcknowledged(client: Client, capacity: nat)
    requires Valid(client, capacity) && capacity > 0
    requires ReserveSlot(client, capacity).Some?
    ensures var room := ReserveSlot(client, capacity).value;
      && Valid(room, capacity) && |room.order| < capacity
      && (forall id :: id in room.tracked ==> id in client.tracked && room.tracked[id] == client.tracked[id])
      && (forall id :: id in client.tracked && id !in room.tracked ==> client.tracked[id].completedAcked)
  {
    if |client.order| >= capacity {
      var k := FirstEvictable(client, 0);
      var room := Drop(client, k);
      var gone := client.order[k];
      forall id
        ensures id in room.order <==> id in client.order && id != gone
      {
        if id in client.order && id != gone {
          var i :| 0 <= i < |client.order| && client.order[i] == id;
          assert room.order[if i < k then i else i - 1] == id;
        }
      }
    }
  }

  lemma HandleKeepsValid(client: Client, capacity: nat, id: DeliveryId, fingerprint: nat)
    requires Valid(client, capacity) && capacity > 0
    requires Handle(client, capacity, id, fingerprint).Present?
    ensures var next := Handle(client, capacity, id, fingerprint).client;
      && Valid(next, capacity)
      && id in next.tracked && !next.tracked[id].began && !next.tracked[id].rejected
      && !next.tracked[id].exposedAcked && !next.tracked[id].finished
      && (forall o :: o in next.tracked && o != id ==> o in client.tracked && next.tracked[o] == client.tracked[o])
  {
    ReserveGivesUpOnlyAcknowledged(client, capacity);
  }

  // Which message is which: a delivery already tracked is a duplicate with its own fingerprint and a mismatch
  // with any other; a new one is refused only when the cache is full of deliveries not yet acknowledged as
  // completed, and otherwise becomes the latest, in place of the oldest acknowledged one if there is no room.
  lemma MessagesAreToldApart(client: Client, capacity: nat, id: DeliveryId, fingerprint: nat)
    requires Valid(client, capacity) && capacity > 0
    ensures var handling := Handle(client, capacity, id, fingerprint);
      && (id in client.tracked && client.tracked[id].fingerprint == fingerprint <==> handling == Duplicate)
      && (id in client.tracked && client.tracked[id].fingerprint != fingerprint <==> handling == Mismatch)
      && (handling == CacheFull <==>
            && id !in client.tracked && |client.order| == capacity
            && forall o :: o in client.tracked ==> !client.tracked[o].completedAcked)
      && (handling.Present? && |client.order| < capacity ==> handling.client.order == client.order + [id])
      && (handling.Present? && |client.order| == capacity ==>
            exists k :: 0 <= k < capacity && client.tracked[client.order[k]].completedAcked
              && (forall j :: 0 <= j < k ==> !client.tracked[client.order[j]].completedAcked)
              && handling.client.order == client.order[..k] + client.order[k + 1..] + [id])
      && (handling.Present? ==> handling.client.tracked[id] == Entry(fingerprint, false, false, false, false, false))
  {
    if id !in client.tracked {
      var k := FirstEvictable(client, 0);
      if k == |client.order| {
        forall o | o in client.tracked ensures !client.tracked[o].completedAcked {
          var j :| 0 <= j < |client.order| && client.order[j] == o;
        }
      } else {
        assert client.order[k] in client.tracked;
      }
    }
  }

  // What one flush does: a begun presentation not yet acknowledged sends its exposure; a finished one whose
  // exposure is acknowledged, before or by this flush, sends its completion after it; and exactly what was
  // sent and answered is recorded.
  lemma FlushEffect(entry: Entry, exposedAnswered: bool, completedAnswered: bool)
    ensures var (next, sent) := Flush(entry, exposedAnswered, completedAnswered);
      && (AckExposed in sent <==> entry.began && !entry.exposedAcked)
      && (AckCompleted in sent <==>
            && entry.finished && !entry.completedAcked
            && (entry.exposedAcked || (entry.began && exposedAnswered)))
      && sent == (if AckExposed in sent then [AckExposed] else []) + (if AckCompleted in sent then [AckCompleted] else [])
      && next == entry.(exposedAcked := entry.exposedAcked || (entry.began && exposedAnswered),
                        completedAcked := entry.completedAcked || (AckCompleted in sent && completedAnswered))
  {
  }

  lemma ForgottenKeepsValid(client: Client, capacity: nat, id: DeliveryId)
    requires Valid(client, capacity)
    ensures Valid(Forgotten(client, id), capacity)
  {
    WithoutMembers(client.order, id);
  }

  // ---- The client as an object ----

  class RendererClient {
    const capacity: nat
    var order: seq<DeliveryId>
    var tracked: map<DeliveryId, Entry>

    function State(): Client
      reads this
    {
      Client(order, tracked)
    }

    constructor (capacity: nat)
      ensures this.capacity == capacity && State() == EmptyClient
    {
      this.capacity := capacity;
      order, tracked := [], map[];
    }

    method ReserveCacheSlot() returns (ok: bool)
      requires forall id :: id in order ==> id in tracked
      modifies this
      ensures ok <==> ReserveSlot(old(State()), capacity).Some?
      ensures State() == if ok then ReserveSlot(old(State()), capacity).value else old(State())
    {
      if |order| < capacity { return true; }
      var k := 0;
      while k < |order|
        invariant k <= |order|
        invariant State() == old(State())
        invariant FirstEvictable(State(), 0) == FirstEvictable(State(), k)
      {
        if tracked[order[k]].completedAcked {
          var gone := order[k];
          order, tracked := order[..k] + order[k + 1..], tracked - {gone};
          return true;
        }
        k := k + 1;
      }
      ok := false;
    }

    method HandleMessage(id: DeliveryId, fingerprint: nat) returns (handling: Handling)
      requires Valid(State(), capacity) && capacity > 0
      modifies this
      ensures handling == Handle(old(State()), capacity, id, fingerprint)
      ensures State() == if handling.Present? then handling.client else old(State())
      ensures Valid(State(), capacity)
    {
      if id in tracked {
        return if tracked[id].fingerprint != fingerprint then Mismatch else Duplicate;
      }
      var ok := ReserveCacheSlot();
      if !ok { return CacheFull; }
      order := order + [id];
      tracked := tracked[id := Entry(fingerprint, false, false, false, false, false)];
      handling := Present(Client(order, tracked));
      HandleKeepsValid(old(State()), capacity, id, fingerprint);
    }

    // The first call of markExposureBegan; later calls only flush.
    method MarkExposureBegan(id: DeliveryId) returns (first: bool)
      requires id in tracked
      modifies this`tracked
      ensures first == !old(tracked[id].began)
      ensures State() == Update(old(State()), id, old(tracked[id]).(began := true))
    {
      first := !tracked[id].began;
      tracked := tracked[id := tracked[id].(began := true)];
    }

    // A completion callback before the exposure callback is refused and changes nothing.
    method MarkPresentationCompleted(id: DeliveryId) returns (ok: bool)
      requires id in tracked
      modifies this`tracked
      ensures ok == old(tracked[id].began)
      ensures State() == if ok then Update(old(State()), id, old(tracked[id]).(finished := true)) else old(State())
    {
      if !tracked[id].began { return false; }
      tracked := tracked[id := tracked[id].(finished := true)];
      ok := true;
    }

    method FlushAcknowledgements(id: DeliveryId, exposedAnswered: bool, completedAnswered: bool)
      returns (sent: seq<AckKind>)
      requires id in tracked
      modifies this`tracked
      ensures var (next, expected) := Flush(old(tracked[id]), exposedAnswered, completedAnswered);
        sent == expected && State() == Update(old(State()), id, next)
    {
      sent := [];
      var entry := tracked[id];
      if entry.began && !entry.exposedAcked {
        sent := sent + [AckExposed];
        if !exposedAnswered {
          tracked := tracked[id := entry];
          return;
        }
        entry := entry.(exposedAcked := true);
      }
      if entry.finished && entry.exposedAcked && !entry.completedAcked {
        sent := sent + [AckCompleted];
        if completedAnswered { entry := entry.(completedAcked := true); }
      }
      tracked := tracked[id := entry];
    }
  }
}
