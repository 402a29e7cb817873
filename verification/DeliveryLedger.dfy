// The authoritative delivery ledger of one session: the event reducer, the transition handlers of
// DeliveryCoordinator, and the serialized writer that applies the handlers' event drafts.
module DeliveryLedger {
  import opened Results
  import opened Sequences

  type DeliveryId = nat
  type GenerationId = nat
  type DisclosureId = nat

  datatype Status = Queued | Delivering | Exposed | Completed | Cancelled | PossiblyExposed

  datatype Source = Application | Renderer | Recovery

  datatype GenerationStatus = Active | ProposalReceived | Validated | Superseded | Rejected

  datatype Atom = Atom(generation: GenerationId, audio: bool, disclosures: set<DisclosureId>, status: Status)

  // `compatible` stands for the generations whose basis isGenerationBasisStillCompatible accepts;
  // the environment may change it at any time.
  datatype Session = Session(
    deliveries: map<DeliveryId, Atom>,
    generations: map<GenerationId, GenerationStatus>,
    compatible: set<GenerationId>,
    disclosed: set<DisclosureId>)

  datatype Draft =
    | DeliveryQueued(id: DeliveryId, atom: Atom)
    | DeliveryStarted(id: DeliveryId)
    | DeliveryExposed(id: DeliveryId)
    | DeliveryCompleted(id: DeliveryId)
    | DeliveryCancelled(id: DeliveryId, source: Source)
    | DeliveryPossiblyExposed(id: DeliveryId)

  datatype Refusal =
    | UnknownDelivery
    | NotQueued
    | NoGeneration
    | DeadGeneration
    | Incompatible
    | WrongStatus(status: Status)

  // What a transition handler returns to the writer, or the error it throws.
  datatype Transition<+T> = Accept(drafts: seq<Draft>, result: T) | Refuse(reason: Refusal)

  datatype ReconnectResult = ReconnectResult(status: Status, command: bool)

  const EmptySession := Session(map[], map[], {}, {})

  // ---- Reducer ----

  predicate Allowed(before: Status, after: Status) {
    match before
    case Queued => after == Delivering || after == Cancelled
    case Delivering => after == Exposed || after == PossiblyExposed
    case Exposed => after == Completed
    case PossiblyExposed => after == Exposed
    case Completed => false
    case Cancelled => false
  }

  predicate IsDisclosed(status: Status) {
    status == Exposed || status == Completed || status == PossiblyExposed
  }

  function SetStatus(s: Session, id: DeliveryId, status: Status): Session
    requires id in s.deliveries
  {
    var atom := s.deliveries[id];
    s.(deliveries := s.deliveries[id := atom.(status := status)],
       disclosed := if IsDisclosed(status) then s.disclosed + atom.disclosures else s.disclosed)
  }

  function WithDeliveryStatus(s: Session, id: DeliveryId, status: Status): Option<Session> {
    if id !in s.deliveries || !Allowed(s.deliveries[id].status, status) then None
    else Some(SetStatus(s, id, status))
  }

  function Reduce(s: Session, draft: Draft): Option<Session> {
    match draft
    case DeliveryQueued(id, atom) => Some(s.(deliveries := s.deliveries[id := atom.(status := Queued)]))
    case DeliveryStarted(id) => WithDeliveryStatus(s, id, Delivering)
    case DeliveryExposed(id) => WithDeliveryStatus(s, id, Exposed)
    case DeliveryCompleted(id) => WithDeliveryStatus(s, id, Completed)
    case DeliveryCancelled(id, source) =>
      if id in s.deliveries && s.deliveries[id].status == Delivering && source == Renderer
      then Some(SetStatus(s, id, Cancelled))
      else WithDeliveryStatus(s, id, Cancelled)
    case DeliveryPossiblyExposed(id) => WithDeliveryStatus(s, id, PossiblyExposed)
  }

  function ReduceAll(s: Session, drafts: seq<Draft>): Option<Session>
    decreases drafts
  {
    if drafts == [] then Some(s)
    else match Reduce(s, drafts[0])
         case None => None
         case Some(next) => ReduceAll(next, drafts[1..])
  }

  // ---- Handlers ----

  function StartRefusal(s: Session, id: DeliveryId): Option<Refusal> {
    if id !in s.deliveries || s.deliveries[id].status != Queued then Some(NotQueued)
    else
      var generation := s.deliveries[id].generation;
      if generation !in s.generations then Some(NoGeneration)
      else if s.generations[generation] == Superseded || s.generations[generation] == Rejected then Some(DeadGeneration)
      else if generation !in s.compatible then Some(Incompatible)
      else None
  }

  function MarkStarted(s: Session, id: DeliveryId): Transition<()> {
    match StartRefusal(s, id)
    case Some(reason) => Refuse(reason)
    case None => Accept([DeliveryStarted(id)], ())
  }

  function Reconnect(s: Session, id: DeliveryId): Transition<ReconnectResult> {
    if id !in s.deliveries then Refuse(UnknownDelivery)
    else match s.deliveries[id].status
         case Queued =>
           (match StartRefusal(s, id)
            case Some(reason) => Refuse(reason)
            case None => Accept([DeliveryStarted(id)], ReconnectResult(Delivering, true)))
         case Delivering => Accept([], ReconnectResult(Delivering, true))
         case other => Accept([], ReconnectResult(other, false))
  }

  function AcknowledgeExposed(s: Session, id: DeliveryId): Transition<bool> {
    if id !in s.deliveries then Refuse(UnknownDelivery)
    else
      var status := s.deliveries[id].status;
      if status == Exposed || status == Completed then Accept([], true)
      else if status != Delivering && status != PossiblyExposed then Refuse(WrongStatus(status))
      else Accept([DeliveryExposed(id)], true)
  }

  function AcknowledgeCompleted(s: Session, id: DeliveryId): Transition<bool> {
    if id !in s.deliveries then Refuse(UnknownDelivery)
    else
      var status := s.deliveries[id].status;
      if status == Completed then Accept([], true)
      else if status != Exposed then Refuse(WrongStatus(status))
      else Accept([DeliveryCompleted(id)], true)
  }

  function AcknowledgeNotExposed(s: Session, id: DeliveryId): Transition<bool> {
    if id !in s.deliveries then Refuse(UnknownDelivery)
    else
      var status := s.deliveries[id].status;
      if status == Cancelled then Accept([], true)
      else if status != Delivering then Refuse(WrongStatus(status))
      else Accept([DeliveryCancelled(id, Renderer)], true)
  }

  function CancelBeforeExposure(s: Session, id: DeliveryId): Transition<()> {
    if id !in s.deliveries then Refuse(UnknownDelivery)
    else if s.deliveries[id].status != Queued then Refuse(NotQueued)
    else Accept([DeliveryCancelled(id, Application)], ())
  }

  function MarkPossiblyExposed(s: Session, id: DeliveryId): Transition<bool> {
    if id !in s.deliveries then Refuse(UnknownDelivery)
    else if s.deliveries[id].status != Delivering then Accept([], false)
    else Accept([DeliveryPossiblyExposed(id)], true)
  }

  // The handler of RECOVER_DELIVERY: unlike MarkPossiblyExposed it tolerates an unknown id.
  function RecoverDelivery(s: Session, id: DeliveryId): Transition<()> {
    if id in s.deliveries && s.deliveries[id].status == Delivering
    then Accept([DeliveryPossiblyExposed(id)], ())
    else Accept([], ())
  }

  // Speech onset, a new committed turn and a terminal session all withdraw undelivered output this way.
  function InvalidationDrafts(s: Session, ids: seq<DeliveryId>): seq<Draft> {
    if ids == [] then []
    else
      var id := ids[0];
      var rest := InvalidationDrafts(s, ids[1..]);
      if id !in s.deliveries then rest
      else match s.deliveries[id].status
           case Queued => [DeliveryCancelled(id, Application)] + rest
           case Delivering => [DeliveryPossiblyExposed(id)] + rest
           case _ => rest
  }

  // The state after the writer ran a handler: a thrown handler or a draft the reducer rejects
  // leaves the state alone.
  function Commit<T>(s: Session, t: Transition<T>): Session {
    if t.Refuse? then s
    else match ReduceAll(s, t.drafts)
         case Some(next) => next
         case None => s
  }

  // ---- Properties of the reducer ----

  predicate MayHaveShown(atom: Atom) {
    atom.status == Exposed || atom.status == Completed || atom.status == PossiblyExposed
  }

  // The disclosure ledger holds exactly what some delivery may have shown.
  ghost predicate DisclosureExact(s: Session) {
    forall d :: d in s.disclosed <==>
      exists id :: id in s.deliveries && MayHaveShown(s.deliveries[id]) && d in s.deliveries[id].disclosures
  }

  // A draft of the kind production emits: deliveries are queued under fresh ids.
  predicate Fresh(s: Session, draft: Draft) {
    draft.DeliveryQueued? ==> draft.id !in s.deliveries
  }

  lemma ReduceKeepsDisclosureExact(s: Session, draft: Draft)
    requires DisclosureExact(s) && Fresh(s, draft) && Reduce(s, draft).Some?
    ensures DisclosureExact(Reduce(s, draft).value)
  {
    var n := Reduce(s, draft).value;
    var id := draft.id;
    assert forall o :: o in s.deliveries && o != id ==> o in n.deliveries && n.deliveries[o] == s.deliveries[o];
    forall d
      ensures d in n.disclosed <==>
        exists o :: o in n.deliveries && MayHaveShown(n.deliveries[o]) && d in n.deliveries[o].disclosures
    {
      if d in n.disclosed {
        if d in s.disclosed {
          var o :| o in s.deliveries && MayHaveShown(s.deliveries[o]) && d in s.deliveries[o].disclosures;
          assert MayHaveShown(n.deliveries[o]) && d in n.deliveries[o].disclosures;
        } else {
          assert MayHaveShown(n.deliveries[id]) && d in n.deliveries[id].disclosures;
        }
      }
    }
  }

  // Over any accepted event log the disclosure ledger is exactly what some delivery may have shown.
  lemma {:induction false} DisclosureExactOverLogs(s: Session, log: seq<Draft>)
    requires DisclosureExact(s) && ReduceAll(s, log).Some?
    requires QueuesFreshIds(s, log)
    ensures DisclosureExact(ReduceAll(s, log).value)
    decreases log
  {
    if log != [] {
      ReduceKeepsDisclosureExact(s, log[0]);
      DisclosureExactOverLogs(Reduce(s, log[0]).value, log[1..]);
    }
  }

  predicate QueuesFreshIds(s: Session, log: seq<Draft>)
    decreases log
  {
    log == [] ||
    (Fresh(s, log[0]) &&
     match Reduce(s, log[0])
     case None => true
     case Some(next) => QueuesFreshIds(next, log[1..]))
  }

  function Target(draft: Draft): Status {
    match draft
    case DeliveryQueued(_, _) => Queued
    case DeliveryStarted(_) => Delivering
    case DeliveryExposed(_) => Exposed
    case DeliveryCompleted(_) => Completed
    case DeliveryCancelled(_, _) => Cancelled
    case DeliveryPossiblyExposed(_) => PossiblyExposed
  }

  // From which status each event is accepted; only the renderer may cancel what is DELIVERING.
  predicate Accepts(was: Status, draft: Draft) {
    match draft
    case DeliveryQueued(_, _) => true
    case DeliveryStarted(_) => was == Queued
    case DeliveryExposed(_) => was == Delivering || was == PossiblyExposed
    case DeliveryCompleted(_) => was == Exposed
    case DeliveryCancelled(_, source) => was == Queued || (was == Delivering && source == Renderer)
    case DeliveryPossiblyExposed(_) => was == Delivering
  }

  // An event is accepted exactly from those, and then its delivery alone moves, to the status it names.
  lemma ReducesExactly(s: Session, draft: Draft)
    ensures Reduce(s, draft).Some? <==>
      draft.DeliveryQueued? || (draft.id in s.deliveries && Accepts(s.deliveries[draft.id].status, draft))
    ensures Reduce(s, draft).Some? ==>
      var n := Reduce(s, draft).value;
      && n.deliveries.Keys == s.deliveries.Keys + {draft.id}
      && n.deliveries[draft.id] == (if draft.DeliveryQueued? then draft.atom else s.deliveries[draft.id]).(status := Target(draft))
      && (forall id :: id in s.deliveries && id != draft.id ==> n.deliveries[id] == s.deliveries[id])
      && n.generations == s.generations && n.compatible == s.compatible
  {
  }

  // ---- Properties of the handlers ----

  // What an accepted command answers: an acknowledgement true, a marking whether there was anything to mark.
  lemma HandlerResults(s: Session, id: DeliveryId)
    ensures AcknowledgeExposed(s, id).Accept? ==> AcknowledgeExposed(s, id).result
    ensures AcknowledgeCompleted(s, id).Accept? ==> AcknowledgeCompleted(s, id).result
    ensures AcknowledgeNotExposed(s, id).Accept? ==> AcknowledgeNotExposed(s, id).result
    ensures MarkPossiblyExposed(s, id).Accept? ==> (MarkPossiblyExposed(s, id).result <==> s.deliveries[id].status == Delivering)
  {
  }

  // The writer's preview never rejects what a handler emits, so a refusal is always the handler's own.
  lemma HandlerDraftsAreAccepted(s: Session, id: DeliveryId)
    ensures MarkStarted(s, id).Accept? ==> ReduceAll(s, MarkStarted(s, id).drafts).Some?
    ensures Reconnect(s, id).Accept? ==> ReduceAll(s, Reconnect(s, id).drafts).Some?
    ensures AcknowledgeExposed(s, id).Accept? ==> ReduceAll(s, AcknowledgeExposed(s, id).drafts).Some?
    ensures AcknowledgeCompleted(s, id).Accept? ==> ReduceAll(s, AcknowledgeCompleted(s, id).drafts).Some?
    ensures AcknowledgeNotExposed(s, id).Accept? ==> ReduceAll(s, AcknowledgeNotExposed(s, id).drafts).Some?
    ensures CancelBeforeExposure(s, id).Accept? ==> ReduceAll(s, CancelBeforeExposure(s, id).drafts).Some?
    ensures MarkPossiblyExposed(s, id).Accept? ==> ReduceAll(s, MarkPossiblyExposed(s, id).drafts).Some?
    ensures ReduceAll(s, RecoverDelivery(s, id).drafts).Some?
  {
  }

  lemma SingleDraft(s: Session, draft: Draft)
    ensures ReduceAll(s, [draft]) == Reduce(s, draft)
  {
  }

  // What makes a delivery startable beside its status: its generation is known, alive and still compatible.
  predicate Deliverable(s: Session, id: DeliveryId)
    requires id in s.deliveries
  {
    var generation := s.deliveries[id].generation;
    && generation in s.generations
    && (s.generations[generation] == Active || s.generations[generation] == ProposalReceived
        || s.generations[generation] == Validated)
    && generation in s.compatible
  }

  // A queued delivery starts, by either command, if and only if it is deliverable; otherwise, or with any
  // other status, the session stays as it was.
  lemma StartsExactly(s: Session, id: DeliveryId)
    requires id in s.deliveries
    ensures var n := Commit(s, MarkStarted(s, id));
      && n == Commit(s, Reconnect(s, id))
      && (s.deliveries[id].status == Queued && Deliverable(s, id)
          ==> n == s.(deliveries := s.deliveries[id := s.deliveries[id].(status := Delivering)]))
      && (s.deliveries[id].status == Queued && !Deliverable(s, id) ==> n == s)
      && (s.deliveries[id].status != Queued ==> n == s)
    ensures MarkStarted(s, id).Accept? <==> s.deliveries[id].status == Queued && Deliverable(s, id)
    ensures Reconnect(s, id).Accept? <==> s.deliveries[id].status != Queued || Deliverable(s, id)
    ensures Reconnect(s, id).Accept? ==> Reconnect(s, id).result.status == Commit(s, Reconnect(s, id)).deliveries[id].status
    ensures Reconnect(s, id).Accept? ==> (Reconnect(s, id).result.command <==> Reconnect(s, id).result.status == Delivering)
  {
    SingleDraft(s, DeliveryStarted(id));
  }

  // The effect of one committed handler on the ledger, in terms of statuses.
  lemma CommitEffects(s: Session, id: DeliveryId)
    requires id in s.deliveries
    ensures var was := s.deliveries[id].status;
      && Commit(s, Reconnect(s, id)) ==
           (if was == Queued && Deliverable(s, id) then SetStatus(s, id, Delivering) else s)
      && Commit(s, AcknowledgeExposed(s, id)) ==
           (if was == Delivering || was == PossiblyExposed then SetStatus(s, id, Exposed) else s)
      && Commit(s, AcknowledgeCompleted(s, id)) ==
           (if was == Exposed then SetStatus(s, id, Completed) else s)
      && Commit(s, AcknowledgeNotExposed(s, id)) ==
           (if was == Delivering then SetStatus(s, id, Cancelled) else s)
      && Commit(s, CancelBeforeExposure(s, id)) ==
           (if was == Queued then SetStatus(s, id, Cancelled) else s)
      && Commit(s, MarkPossiblyExposed(s, id)) == Commit(s, RecoverDelivery(s, id)) ==
           (if was == Delivering then SetStatus(s, id, PossiblyExposed) else s)
  {
    SingleDraft(s, DeliveryStarted(id));
    SingleDraft(s, DeliveryExposed(id));
    SingleDraft(s, DeliveryCompleted(id));
    SingleDraft(s, DeliveryCancelled(id, Renderer));
    SingleDraft(s, DeliveryCancelled(id, Application));
    SingleDraft(s, DeliveryPossiblyExposed(id));
  }

  function Withdrawn(status: Status): Status {
    match status
    case Queued => Cancelled
    case Delivering => PossiblyExposed
    case other => other
  }

  // Invalidation withdraws exactly the named deliveries, and the reducer accepts every draft of it.
  lemma {:induction false} InvalidationEffect(base: Session, s: Session, ids: seq<DeliveryId>)
    requires Distinct(ids)
    requires s.deliveries.Keys == base.deliveries.Keys
    requires forall id :: id in ids && id in base.deliveries ==> s.deliveries[id] == base.deliveries[id]
    ensures var r := ReduceAll(s, InvalidationDrafts(base, ids));
      && r.Some?
      && r.value.deliveries.Keys == s.deliveries.Keys
      && (forall id :: id in s.deliveries ==>
            r.value.deliveries[id] ==
            if id in ids then s.deliveries[id].(status := Withdrawn(s.deliveries[id].status)) else s.deliveries[id])
    decreases ids
  {
    if ids != [] {
      var id := ids[0];
      var rest := InvalidationDrafts(base, ids[1..]);
      assert forall other :: other in ids <==> other == id || other in ids[1..];
      assert id !in ids[1..];
      if id !in base.deliveries {
        InvalidationEffect(base, s, ids[1..]);
      } else {
        var drafts := InvalidationDrafts(base, ids);
        match base.deliveries[id].status
        case Queued =>
          assert drafts[1..] == rest;
          InvalidationEffect(base, SetStatus(s, id, Cancelled), ids[1..]);
        case Delivering =>
          assert drafts[1..] == rest;
          InvalidationEffect(base, SetStatus(s, id, PossiblyExposed), ids[1..]);
        case _ =>
          InvalidationEffect(base, s, ids[1..]);
      }
    }
  }

  // ---- Crash recovery ----

  function InFlight(s: Session): set<DeliveryId> {
    set id | id in s.deliveries && s.deliveries[id].status == Delivering
  }

  // The ledger after recovery: every delivery in flight becomes possibly exposed, nothing else moves.
  ghost predicate Recovers(before: Session, after: Session) {
    && after.deliveries.Keys == before.deliveries.Keys
    && (forall id :: id in before.deliveries ==>
          after.deliveries[id] ==
          if before.deliveries[id].status == Delivering
          then before.deliveries[id].(status := PossiblyExposed)
          else before.deliveries[id])
    && after.generations == before.generations && after.compatible == before.compatible
  }

  class DeliveryCoordinator {
    var state: Session

    constructor (s: Session)
      ensures state == s
    {
      state := s;
    }

    method RecoverUncertainDeliveries() returns (recovered: seq<DeliveryId>)
      modifies this
      ensures Recovers(old(state), state)
      ensures forall id :: id in recovered <==> id in InFlight(old(state))
      ensures Distinct(recovered)
    {
      var inFlight := InFlight(state);
      recovered := [];
      var todo := inFlight;
      while todo != {}
        invariant todo <= inFlight
        invariant forall id :: id in recovered <==> id in inFlight - todo
        invariant Distinct(recovered)
        invariant state.deliveries.Keys == old(state).deliveries.Keys
        invariant forall id :: id in state.deliveries ==>
          state.deliveries[id] ==
          if id in inFlight - todo then old(state).deliveries[id].(status := PossiblyExposed)
          else old(state).deliveries[id]
        invariant state.generations == old(state).generations && state.compatible == old(state).compatible
        decreases todo
      {
        var id :| id in todo;
        CommitEffects(state, id);
        state := Commit(state, RecoverDelivery(state, id));
        recovered := recovered + [id];
        todo := todo - {id};
      }
    }
  }
}
