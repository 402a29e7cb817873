// The bridge from an accepted whiteboard observation to committed student evidence, as one system: the
// session's log and its idempotent writer, any number of bridge invocations suspended between awaits,
// recovery, and process crashes at any of those points.
module VisionBridge {
  import opened Results
  import opened Sequences

  type VisionId = nat
  type EventId = nat
  type Fingerprint = nat
  type TaskId = nat

  // `withinBounds` is the bounded-size admission check and `committable` the confidence and dimension
  // checks; `content` is everything else.
  datatype Proposal = Proposal(
    problem: nat, cites: seq<EventId>, withinBounds: bool, committable: bool, content: nat)

  datatype Bridge =
    | Unbridged
    | Skipped
    | Pending(fingerprint: Fingerprint)
    | NoProposal(fingerprint: Fingerprint)
    | Decided(fingerprint: Fingerprint, proposal: Proposal)
    | Completed(fingerprint: Fingerprint, proposal: Proposal, committed: bool)

  // An accepted vision request.
  datatype Request = Request(resultEvent: EventId, revision: nat, bridge: Bridge)

  // ---- The session and its writer ----

  datatype Command =
    | RecordDecision(id: VisionId, fingerprint: Fingerprint, proposed: Option<Proposal>)
    | ProcessEvidence(id: VisionId, proposal: Proposal, requiredRevision: nat)
    | RecordCompletion(id: VisionId, fingerprint: Fingerprint, committed: bool)

  // The deterministic request ids.
  datatype RequestKey = DecisionOf(id: VisionId) | CommitOf(id: VisionId) | CompletionOf(id: VisionId)

  datatype Processed = Processed(command: Command, value: bool)

  // `evidence` counts, per event, the evidence records that cite it; superseded and stale records stay.
  datatype Session = Session(
    requests: map<VisionId, Request>,
    problem: Option<nat>,
    revision: nat,
    known: set<EventId>,
    proposals: set<Proposal>,
    evidence: multiset<EventId>,
    processed: map<RequestKey, Processed>)

  datatype Execution = Refused | Conflict | Done(session: Session, value: bool, duplicate: bool)

  function KeyOf(command: Command): RequestKey {
    match command
    case RecordDecision(id, _, _) => DecisionOf(id)
    case ProcessEvidence(id, _, _) => CommitOf(id)
    case RecordCompletion(id, _, _) => CompletionOf(id)
  }

  predicate Scoped(s: Session, r: Request, p: Proposal) {
    p.cites == [r.resultEvent] && s.problem == Some(p.problem)
  }

  predicate MayCommit(s: Session, p: Proposal, requiredRevision: nat) {
    && s.revision == requiredRevision
    && s.problem == Some(p.problem)
    && (forall i :: 0 <= i < |p.cites| ==> p.cites[i] in s.known)
    && p.committable
  }

  function WithBridge(s: Session, id: VisionId, bridge: Bridge): Session
    requires id in s.requests
  {
    s.(requests := s.requests[id := s.requests[id].(bridge := bridge)])
  }

  // The transition handlers; None is a thrown error.
  function DecisionHandler(s: Session, id: VisionId, fingerprint: Fingerprint, proposed: Option<Proposal>): Option<Session> {
    if id !in s.requests || s.requests[id].bridge != Pending(fingerprint) then None
    else if proposed.Some? && !Scoped(s, s.requests[id], proposed.value) then None
    else Some(WithBridge(s, id, if proposed.None? then NoProposal(fingerprint) else Decided(fingerprint, proposed.value)))
  }

  function CommitHandler(s: Session, p: Proposal, requiredRevision: nat): (Session, bool) {
    var admitted := s.(proposals := s.proposals + {p});
    if MayCommit(s, p, requiredRevision) then (admitted.(evidence := s.evidence + multiset(p.cites)), true)
    else (admitted, false)
  }

  function CompletionHandler(s: Session, id: VisionId, fingerprint: Fingerprint, committed: bool): Option<Session> {
    if id !in s.requests || !s.requests[id].bridge.Decided? then None
    else
      var bridge := s.requests[id].bridge;
      if bridge.fingerprint != fingerprint || bridge.proposal !in s.proposals then None
      else if (s.evidence[s.requests[id].resultEvent] > 0) != committed then None
      else Some(WithBridge(s, id, Completed(fingerprint, bridge.proposal, committed)))
  }

  // SessionWriter.execute: a request id already processed answers as before, or conflicts.
  function Execute(s: Session, command: Command): Execution {
    var key := KeyOf(command);
    if key in s.processed then
      if s.processed[key].command != command then Conflict else Done(s, s.processed[key].value, true)
    else
      match command
      case RecordDecision(id, fingerprint, proposed) =>
        (match DecisionHandler(s, id, fingerprint, proposed)
         case None => Refused
         case Some(next) => Done(Remembered(next, command, true), true, false))
      case ProcessEvidence(id, proposal, requiredRevision) =>
        var (next, value) := CommitHandler(s, proposal, requiredRevision);
        Done(Remembered(next, command, value), value, false)
      case RecordCompletion(id, fingerprint, committed) =>
        (match CompletionHandler(s, id, fingerprint, committed)
         case None => Refused
         case Some(next) => Done(Remembered(next, command, true), true, false))
  }

  function Remembered(s: Session, command: Command, value: bool): Session {
    s.(processed := s.processed[KeyOf(command) := Processed(command, value)])
  }

  // ---- completeEvidenceBridge, cut at its awaits ----

  datatype Task =
    | Starting(id: VisionId)
    | Deciding(id: VisionId, fingerprint: Fingerprint, proposed: Option<Proposal>)
    | Resuming(id: VisionId)
    | Committing(id: VisionId, fingerprint: Fingerprint, proposal: Proposal, requiredRevision: nat)
    | Completing(id: VisionId, fingerprint: Fingerprint, committed: bool)
    | Confirming(id: VisionId)

  datatype Failure = RequestCorrupt | InterpreterMismatch | Thrown

  datatype Progress = Go(task: Task) | Bridged(count: nat) | Failed(failure: Failure)

  // What the interpreter answered counts as a proposal only in the scope of this result and problem.
  function Admitted(r: Request, problem: nat, candidate: Option<Proposal>): Option<Proposal> {
    if candidate.Some? && candidate.value.problem == problem && candidate.value.cites == [r.resultEvent]
    then candidate else None
  }

  function FromDecided(id: VisionId, r: Request): Progress
    requires r.bridge.NoProposal? || r.bridge.Decided?
  {
    if r.bridge.NoProposal? then Bridged(0)
    else Go(Committing(id, r.bridge.fingerprint, r.bridge.proposal, r.revision))
  }

  function Start(s: Session, interpreter: Option<Fingerprint>, id: VisionId, candidate: Option<Proposal>): Progress {
    if id !in s.requests then Failed(RequestCorrupt)
    else
      var r := s.requests[id];
      match r.bridge
      case Unbridged => Bridged(if s.evidence[r.resultEvent] > 0 then 1 else 0)
      case Skipped => Bridged(0)
      case Completed(_, _, committed) => Bridged(if committed then 1 else 0)
      case Pending(fingerprint) =>
        if interpreter != Some(fingerprint) then Failed(InterpreterMismatch)
        else if s.problem.None? then Failed(RequestCorrupt)
        else Go(Deciding(id, fingerprint, Admitted(r, s.problem.value, candidate)))
      case NoProposal(_) => FromDecided(id, r)
      case Decided(_, _) => FromDecided(id, r)
  }

  function Resume(s: Session, id: VisionId): Progress {
    if id !in s.requests || !(s.requests[id].bridge.NoProposal? || s.requests[id].bridge.Decided?) then Failed(RequestCorrupt)
    else FromDecided(id, s.requests[id])
  }

  function Confirm(s: Session, id: VisionId): Progress {
    if id !in s.requests || !s.requests[id].bridge.Completed? then Failed(RequestCorrupt)
    else Bridged(if s.requests[id].bridge.committed then 1 else 0)
  }

  function CommandOf(task: Task): Command
    requires task.Deciding? || task.Committing? || task.Completing?
  {
    match task
    case Deciding(id, fingerprint, proposed) => RecordDecision(id, fingerprint, proposed)
    case Committing(id, _, proposal, requiredRevision) => ProcessEvidence(id, proposal, requiredRevision)
    case Completing(id, fingerprint, committed) => RecordCompletion(id, fingerprint, committed)
  }

  function AfterCommand(task: Task, value: bool): Task
    requires task.Deciding? || task.Committing? || task.Completing?
  {
    match task
    case Deciding(id, _, _) => Resuming(id)
    case Committing(id, fingerprint, _, _) => Completing(id, fingerprint, value)
    case Completing(id, _, _) => Confirming(id)
  }

  // How many segments are left at most.
  function Rank(task: Task): nat {
    match task
    case Starting(_) => 5
    case Deciding(_, _, _) => 4
    case Resuming(_) => 3
    case Committing(_, _, _, _) => 2
    case Completing(_, _, _) => 1
    case Confirming(_) => 0
  }

  // One segment of an invocation: read the state and continue, or let the writer run its command. A
  // proposal beyond the admission bounds throws before it reaches the writer.
  function Advance(s: Session, interpreter: Option<Fingerprint>, task: Task, candidate: Option<Proposal>):
    (r: (Session, Progress))
    ensures r.1.Go? ==> r.1.task.id == task.id && Rank(r.1.task) < Rank(task)
  {
    if task.Starting? then (s, Start(s, interpreter, task.id, candidate))
    else if task.Resuming? then (s, Resume(s, task.id))
    else if task.Confirming? then (s, Confirm(s, task.id))
    else if task.Committing? && !task.proposal.withinBounds then (s, Failed(Thrown))
    else
      var execution := Execute(s, CommandOf(task));
      if execution.Done? then (execution.session, Go(AfterCommand(task, execution.value))) else (s, Failed(Thrown))
  }

  // ---- The system ----

  // Recovery walks the requests it found waiting; `before` are those accepted when it looked. One that
  // failed is forgotten and may be retried in the same process.
  datatype Recovery =
    | NotRecovering
    | Recovering(before: set<VisionId>, rest: seq<VisionId>, current: Option<Task>)
    | Recovered(before: set<VisionId>)
    | RecoveryFailed

  // `decisions` and `commits` count what the log recorded.
  datatype World = World(
    session: Session,
    interpreter: Option<Fingerprint>,
    tasks: map<TaskId, Task>,
    recovery: Recovery,
    decisions: multiset<VisionId>,
    commits: multiset<VisionId>)

  datatype Event =
    | Accept(id: VisionId, resultEvent: EventId, fingerprint: Option<Fingerprint>)
    | AcceptUnbridged(id: VisionId, resultEvent: EventId)
    | PresentProblem(problem: nat)
    | ChangeBoard(revision: nat)
    | CiteElsewhere(event: EventId)
    | Invoke(task: TaskId, id: VisionId)
    | Step(task: TaskId, candidate: Option<Proposal>)
    | BeginRecovery(waiting: seq<VisionId>)
    | RecoverNext
    | StepRecovery(candidate: Option<Proposal>)
    | EndRecovery
    | Crash(interpreter: Option<Fingerprint>)

  predicate Waiting(bridge: Bridge) {
    bridge.Pending? || bridge.Decided?
  }

  predicate IsResult(s: Session, event: EventId) {
    exists id :: id in s.requests && s.requests[id].resultEvent == event
  }

  function AcceptStep(s: Session, id: VisionId, resultEvent: EventId, bridge: Bridge): Option<Session> {
    if id in s.requests || resultEvent in s.known then None
    else Some(s.(requests := s.requests[id := Request(resultEvent, s.revision, bridge)], known := s.known + {resultEvent}))
  }

  // The log's own counts move when a task's command is recorded for the first time.
  function Counted(w: World, task: Task): World {
    var (session, progress) := Advance(w.session, w.interpreter, task, None);
    var recorded := progress.Go? && (task.Deciding? || task.Committing?) && KeyOf(CommandOf(task)) !in w.session.processed;
    if !recorded then w
    else if task.Deciding? then w.(decisions := w.decisions + multiset{task.id})
    else if progress.task.committed then w.(commits := w.commits + multiset{task.id})
    else w
  }

  // None when the event cannot happen.
  ghost function Next(w: World, e: Event): Option<World> {
    var s := w.session;
    match e
    case Accept(id, resultEvent, fingerprint) =>
      (match AcceptStep(s, id, resultEvent, if fingerprint.None? then Skipped else Pending(fingerprint.value))
       case None => None
       case Some(next) => Some(w.(session := next)))
    case AcceptUnbridged(id, resultEvent) =>
      (match AcceptStep(s, id, resultEvent, Unbridged)
       case None => None
       case Some(next) => Some(w.(session := next)))
    case PresentProblem(problem) =>
      if s.problem.Some? then None else Some(w.(session := s.(problem := Some(problem))))
    case ChangeBoard(revision) => Some(w.(session := s.(revision := revision)))
    case CiteElsewhere(event) =>
      // Verified claims cite the turn and the verification request they rest on, never a vision result.
      if IsResult(s, event) then None
      else Some(w.(session := s.(known := s.known + {event}, evidence := s.evidence + multiset{event})))
    case Invoke(task, id) =>
      if task in w.tasks then None else Some(w.(tasks := w.tasks[task := Starting(id)]))
    case Step(task, candidate) =>
      if task !in w.tasks then None
      else
        var (session, progress) := Advance(s, w.interpreter, w.tasks[task], candidate);
        Some(Counted(w, w.tasks[task]).(
          session := session,
          tasks := if progress.Go? then w.tasks[task := progress.task] else w.tasks - {task}))
    case BeginRecovery(waiting) =>
      if w.recovery.Recovering? || !(forall id :: id in waiting <==> id in s.requests && Waiting(s.requests[id].bridge))
      then None
      else Some(w.(recovery := Recovering(s.requests.Keys, waiting, None)))
    case RecoverNext =>
      if !w.recovery.Recovering? || w.recovery.current.Some? || w.recovery.rest == [] then None
      else Some(w.(recovery := w.recovery.(current := Some(Starting(w.recovery.rest[0])))))
    case StepRecovery(candidate) =>
      if !w.recovery.Recovering? || w.recovery.current.None? || w.recovery.rest == [] then None
      else
        var task := w.recovery.current.value;
        var (session, progress) := Advance(s, w.interpreter, task, candidate);
        Some(Counted(w, task).(
          session := session,
          recovery := match progress
                      case Go(next) => w.recovery.(current := Some(next))
                      case Bridged(_) => Recovering(w.recovery.before, w.recovery.rest[1..], None)
                      case Failed(_) => RecoveryFailed))
    case EndRecovery =>
      if !w.recovery.Recovering? || w.recovery.current.Some? || w.recovery.rest != [] then None
      else Some(w.(recovery := Recovered(w.recovery.before)))
    case Crash(interpreter) => Some(w.(interpreter := interpreter, tasks := map[], recovery := NotRecovering))
  }

  const EmptySession := Session(map[], None, 0, {}, {}, multiset{}, map[])

  function Init(interpreter: Option<Fingerprint>): World {
    World(EmptySession, interpreter, map[], NotRecovering, multiset{}, multiset{})
  }

  // ---- Runs ----

  ghost predicate Reaches(w: World, events: seq<Event>, n: World)
    decreases events
  {
    if events == [] then n == w
    else Next(w, events[0]).Some? && Reaches(Next(w, events[0]).value, events[1..], n)
  }

  // ---- The invariant ----

  predicate HasDecision(bridge: Bridge) {
    bridge.NoProposal? || bridge.Decided? || bridge.Completed?
  }

  predicate HasProposal(bridge: Bridge) {
    bridge.Decided? || bridge.Completed?
  }

  ghost predicate RequestInv(s: Session, decisions: multiset<VisionId>, commits: multiset<VisionId>, id: VisionId) {
    if id !in s.requests then
      && DecisionOf(id) !in s.processed && CommitOf(id) !in s.processed && CompletionOf(id) !in s.processed
      && decisions[id] == 0 && commits[id] == 0
    else
      var r := s.requests[id];
      && r.resultEvent in s.known
      && (DecisionOf(id) in s.processed <==> HasDecision(r.bridge))
      && decisions[id] == (if HasDecision(r.bridge) then 1 else 0)
      && (HasProposal(r.bridge) ==> Scoped(s, r, r.bridge.proposal))
      && (CommitOf(id) in s.processed ==>
            && HasProposal(r.bridge) && r.bridge.proposal.withinBounds && r.bridge.proposal in s.proposals
            && s.processed[CommitOf(id)].command == ProcessEvidence(id, r.bridge.proposal, r.revision))
      && s.evidence[r.resultEvent] == commits[id]
      && commits[id] == (if CommitOf(id) in s.processed && s.processed[CommitOf(id)].value then 1 else 0)
      && (r.bridge.Completed? ==>
            CommitOf(id) in s.processed && r.bridge.committed == s.processed[CommitOf(id)].value)
      && (CompletionOf(id) in s.processed <==> r.bridge.Completed?)
      && (r.bridge.Completed? ==>
            s.processed[CompletionOf(id)].command == RecordCompletion(id, r.bridge.fingerprint, r.bridge.committed))
  }

  ghost predicate SessionInv(s: Session, decisions: multiset<VisionId>, commits: multiset<VisionId>) {
    && (forall id :: RequestInv(s, decisions, commits, id))
    && (forall a, b :: a in s.requests && b in s.requests && a != b ==> s.requests[a].resultEvent != s.requests[b].resultEvent)
    && (forall event :: s.evidence[event] > 0 ==> event in s.known)
  }

  // What a suspended invocation may rely on when it wakes.
  predicate TaskInv(s: Session, task: Task) {
    if task.Starting? then true
    else if task.id !in s.requests then false
    else
      var r := s.requests[task.id];
      match task
      case Deciding(_, fingerprint, proposed) =>
        && (r.bridge.Pending? || HasDecision(r.bridge)) && r.bridge.fingerprint == fingerprint
        && (proposed.Some? ==> Scoped(s, r, proposed.value))
      case Resuming(_) => HasDecision(r.bridge)
      case Committing(_, fingerprint, proposal, requiredRevision) =>
        && HasProposal(r.bridge) && r.bridge.fingerprint == fingerprint && r.bridge.proposal == proposal
        && r.revision == requiredRevision
      case Completing(id, fingerprint, committed) =>
        && HasProposal(r.bridge) && r.bridge.fingerprint == fingerprint
        && CommitOf(id) in s.processed && s.processed[CommitOf(id)].value == committed
      case Confirming(_) => r.bridge.Completed?
  }

  predicate Settled(s: Session, id: VisionId) {
    id in s.requests && !Waiting(s.requests[id].bridge)
  }

  ghost predicate RecoveryInv(s: Session, recovery: Recovery) {
    match recovery
    case Recovering(before, rest, current) =>
      && (forall id :: id in before ==> Settled(s, id) || id in rest)
      && (current.Some? ==> rest != [] && current.value.id == rest[0] && TaskInv(s, current.value))
    case Recovered(before) => forall id :: id in before ==> Settled(s, id)
    case _ => true
  }

  ghost predicate Inv(w: World) {
    && SessionInv(w.session, w.decisions, w.commits)
    && (forall task :: task in w.tasks ==> TaskInv(w.session, w.tasks[task]))
    && RecoveryInv(w.session, w.recovery)
  }

  // ---- How a session may change ----

  predicate BridgeEvolves(a: Bridge, b: Bridge) {
    || a == b
    || (a.Pending? && HasDecision(b) && b.fingerprint == a.fingerprint)
    || (a.Decided? && b.Completed? && b.fingerprint == a.fingerprint && b.proposal == a.proposal)
  }

  ghost predicate Evolves(s: Session, n: Session) {
    && (forall id :: id in s.requests ==>
          && id in n.requests && n.requests[id].resultEvent == s.requests[id].resultEvent
          && n.requests[id].revision == s.requests[id].revision
          && BridgeEvolves(s.requests[id].bridge, n.requests[id].bridge))
    && (forall key :: key in s.processed ==> key in n.processed && n.processed[key] == s.processed[key])
    && (s.problem.Some? ==> n.problem == s.problem)
  }

  lemma ExecuteEvolves(s: Session, command: Command)
    requires Execute(s, command).Done?
    ensures Evolves(s, Execute(s, command).session)
  {
  }

  // A command that was recorded answers as before ever after, whatever else was recorded since, and changes
  // nothing again; another command under its request id conflicts.
  lemma RecordedCommandRepeats(s: Session, command: Command, n: Session, other: Command)
    requires Execute(s, command).Done? && Evolves(Execute(s, command).session, n)
    ensures Execute(n, command) == Done(n, Execute(s, command).value, true)
    ensures KeyOf(other) == KeyOf(command) && other != command ==> Execute(n, other) == Conflict
    ensures Execute(s, command).duplicate <==> KeyOf(command) in s.processed
    ensures Execute(s, command).duplicate ==> Execute(s, command).session == s
  {
  }

  lemma TaskIsStable(s: Session, n: Session, task: Task)
    requires Evolves(s, n) && TaskInv(s, task)
    ensures TaskInv(n, task)
  {
  }

  lemma RecoveryIsStable(s: Session, n: Session, recovery: Recovery)
    requires Evolves(s, n) && RecoveryInv(s, recovery)
    ensures RecoveryInv(n, recovery)
  {
    forall id | Settled(s, id) ensures Settled(n, id) {}
    if recovery.Recovering? && recovery.current.Some? { TaskIsStable(s, n, recovery.current.value); }
  }

  // ---- The writer keeps the invariant ----

  lemma DecisionKeeps(s: Session, decisions: multiset<VisionId>, commits: multiset<VisionId>, task: Task)
    requires SessionInv(s, decisions, commits) && TaskInv(s, task) && task.Deciding?
    requires DecisionOf(task.id) !in s.processed
    ensures var execution := Execute(s, CommandOf(task));
            && execution.Done? && !execution.duplicate
            && SessionInv(execution.session, decisions + multiset{task.id}, commits)
            && HasDecision(execution.session.requests[task.id].bridge)
  {
    assert RequestInv(s, decisions, commits, task.id);
    var n := Execute(s, CommandOf(task)).session;
    forall id ensures RequestInv(n, decisions + multiset{task.id}, commits, id) {
      assert RequestInv(s, decisions, commits, id);
    }
  }

  lemma CommitKeeps(s: Session, decisions: multiset<VisionId>, commits: multiset<VisionId>, task: Task)
    requires SessionInv(s, decisions, commits) && TaskInv(s, task) && task.Committing? && task.proposal.withinBounds
    requires CommitOf(task.id) !in s.processed
    ensures var execution := Execute(s, CommandOf(task));
            && execution.Done? && !execution.duplicate
            && SessionInv(execution.session, decisions, if execution.value then commits + multiset{task.id} else commits)
            && CommitOf(task.id) in execution.session.processed
            && execution.session.processed[CommitOf(task.id)].value == execution.value
  {
    assert RequestInv(s, decisions, commits, task.id);
    var execution := Execute(s, CommandOf(task));
    var counted := if execution.value then commits + multiset{task.id} else commits;
    assert task.proposal.cites == [s.requests[task.id].resultEvent];
    assert multiset(task.proposal.cites) == multiset{s.requests[task.id].resultEvent};
    forall id ensures RequestInv(execution.session, decisions, counted, id) {
      assert RequestInv(s, decisions, commits, id);
    }
  }

  lemma CompletionKeeps(s: Session, decisions: multiset<VisionId>, commits: multiset<VisionId>, task: Task)
    requires SessionInv(s, decisions, commits) && TaskInv(s, task) && task.Completing?
    ensures var execution := Execute(s, CommandOf(task));
            && execution.Done?
            && SessionInv(execution.session, decisions, commits)
            && execution.session.requests[task.id].bridge.Completed?
  {
    assert RequestInv(s, decisions, commits, task.id);
    var n := Execute(s, CommandOf(task)).session;
    forall id ensures RequestInv(n, decisions, commits, id) {
      assert RequestInv(s, decisions, commits, id);
    }
  }

  ghost predicate AdvancesWell(w: World, task: Task, candidate: Option<Proposal>) {
    var (n, progress) := Advance(w.session, w.interpreter, task, candidate);
    && SessionInv(n, Counted(w, task).decisions, Counted(w, task).commits)
    && Evolves(w.session, n)
    && (progress.Go? ==> TaskInv(n, progress.task))
    && (progress.Bridged? ==>
          Settled(n, task.id) && progress.count == n.evidence[n.requests[task.id].resultEvent] && progress.count <= 1)
  }

  lemma AdvanceDecides(w: World, task: Task, candidate: Option<Proposal>)
    requires SessionInv(w.session, w.decisions, w.commits) && TaskInv(w.session, task) && task.Deciding?
    ensures AdvancesWell(w, task, candidate)
  {
    assert RequestInv(w.session, w.decisions, w.commits, task.id);
    if DecisionOf(task.id) !in w.session.processed {
      DecisionKeeps(w.session, w.decisions, w.commits, task);
      ExecuteEvolves(w.session, CommandOf(task));
    }
  }

  lemma AdvanceCommits(w: World, task: Task, candidate: Option<Proposal>)
    requires SessionInv(w.session, w.decisions, w.commits) && TaskInv(w.session, task) && task.Committing?
    ensures AdvancesWell(w, task, candidate)
  {
    assert RequestInv(w.session, w.decisions, w.commits, task.id);
    if task.proposal.withinBounds {
      if CommitOf(task.id) !in w.session.processed { CommitKeeps(w.session, w.decisions, w.commits, task); }
      ExecuteEvolves(w.session, CommandOf(task));
    }
  }

  lemma AdvanceCompletes(w: World, task: Task, candidate: Option<Proposal>)
    requires SessionInv(w.session, w.decisions, w.commits) && TaskInv(w.session, task) && task.Completing?
    ensures AdvancesWell(w, task, candidate)
  {
    CompletionKeeps(w.session, w.decisions, w.commits, task);
    ExecuteEvolves(w.session, CommandOf(task));
  }

  // One segment keeps the session's invariant and leaves the invocation with what it needs next.
  lemma AdvanceKeeps(w: World, task: Task, candidate: Option<Proposal>)
    requires SessionInv(w.session, w.decisions, w.commits) && TaskInv(w.session, task)
    ensures AdvancesWell(w, task, candidate)
  {
    if task.Deciding? {
      AdvanceDecides(w, task, candidate);
    } else if task.Committing? {
      AdvanceCommits(w, task, candidate);
    } else if task.Completing? {
      AdvanceCompletes(w, task, candidate);
    } else {
      assert RequestInv(w.session, w.decisions, w.commits, task.id);
    }
  }

  // ---- Every event keeps the invariant ----

  // Events that change the session but no bridge.
  lemma OutsideKeeps(w: World, e: Event)
    requires Inv(w) && Next(w, e).Some?
    requires e.Accept? || e.AcceptUnbridged? || e.PresentProblem? || e.ChangeBoard? || e.CiteElsewhere?
    ensures SessionInv(Next(w, e).value.session, w.decisions, w.commits)
    ensures Evolves(w.session, Next(w, e).value.session)
  {
    var s, n := w.session, Next(w, e).value.session;
    forall id | id in s.requests ensures s.requests[id].resultEvent in s.known {
      assert RequestInv(s, w.decisions, w.commits, id);
    }
    forall id ensures RequestInv(n, w.decisions, w.commits, id) {
      assert RequestInv(s, w.decisions, w.commits, id);
    }
  }

  lemma EvolvedWorldKeepsInv(w: World, n: World)
    requires Inv(w) && Evolves(w.session, n.session) && SessionInv(n.session, n.decisions, n.commits)
    requires n.tasks == w.tasks && n.recovery == w.recovery
    ensures Inv(n)
  {
    forall task | task in w.tasks ensures TaskInv(n.session, w.tasks[task]) {
      TaskIsStable(w.session, n.session, w.tasks[task]);
    }
    RecoveryIsStable(w.session, n.session, w.recovery);
  }

  lemma InvocationKeepsInv(w: World, task: TaskId, candidate: Option<Proposal>)
    requires Inv(w) && task in w.tasks
    ensures Inv(Next(w, Step(task, candidate)).value)
  {
    var n := Next(w, Step(task, candidate)).value;
    AdvanceKeeps(w, w.tasks[task], candidate);
    EvolvedWorldKeepsInv(w, w.(session := n.session, decisions := n.decisions, commits := n.commits));
  }

  lemma RecoveryStepKeepsInv(w: World, candidate: Option<Proposal>)
    requires Inv(w) && Next(w, StepRecovery(candidate)).Some?
    ensures Inv(Next(w, StepRecovery(candidate)).value)
  {
    var n := Next(w, StepRecovery(candidate)).value;
    var task := w.recovery.current.value;
    AdvanceKeeps(w, task, candidate);
    EvolvedWorldKeepsInv(w, w.(session := n.session, decisions := n.decisions, commits := n.commits));
    var progress := Advance(w.session, w.interpreter, task, candidate).1;
    if progress.Bridged? {
      forall id | id in w.recovery.before ensures Settled(n.session, id) || id in w.recovery.rest[1..] {
        assert RecoveryInv(n.session, w.recovery);
      }
    }
  }

  lemma StepKeepsInv(w: World, e: Event)
    requires Inv(w) && Next(w, e).Some?
    ensures Inv(Next(w, e).value) && Evolves(w.session, Next(w, e).value.session)
  {
    var n := Next(w, e).value;
    if e.Step? {
      AdvanceKeeps(w, w.tasks[e.task], e.candidate);
      InvocationKeepsInv(w, e.task, e.candidate);
    } else if e.StepRecovery? {
      AdvanceKeeps(w, w.recovery.current.value, e.candidate);
      RecoveryStepKeepsInv(w, e.candidate);
    } else if e.Accept? || e.AcceptUnbridged? || e.PresentProblem? || e.ChangeBoard? || e.CiteElsewhere? {
      OutsideKeeps(w, e);
      EvolvedWorldKeepsInv(w, n);
    } else {
      assert n.session == w.session;
    }
  }

  lemma EvolvesTransitively(a: Session, b: Session, c: Session)
    requires Evolves(a, b) && Evolves(b, c)
    ensures Evolves(a, c)
  {
  }

  lemma {:induction false} RunKeepsInv(w: World, events: seq<Event>, n: World)
    requires Inv(w) && Reaches(w, events, n)
    ensures Inv(n) && Evolves(w.session, n.session)
    decreases events
  {
    if events != [] {
      var m := Next(w, events[0]).value;
      StepKeepsInv(w, events[0]);
      RunKeepsInv(m, events[1..], n);
      EvolvesTransitively(w.session, m.session, n.session);
    }
  }

  lemma ReachableInv(interpreter: Option<Fingerprint>, events: seq<Event>, w: World)
    requires Reaches(Init(interpreter), events, w)
    ensures Inv(w)
  {
    var start := Init(interpreter);
    assert forall id :: RequestInv(start.session, start.decisions, start.commits, id);
    RunKeepsInv(start, events, w);
  }

  // ---- Main results ----

  // Over every interleaving of invocations, recoveries and crashes, a request records at most one
  // decision and commits its evidence at most once, and the evidence history cites its result exactly
  // as often as it was committed.
  lemma AtMostOneDecisionAndCommit(interpreter: Option<Fingerprint>, events: seq<Event>, w: World, id: VisionId)
    requires Reaches(Init(interpreter), events, w) && id in w.session.requests
    ensures w.decisions[id] <= 1 && w.commits[id] <= 1
    ensures w.decisions[id] == 1 <==> HasDecision(w.session.requests[id].bridge)
    ensures w.commits[id] == 1 ==> HasProposal(w.session.requests[id].bridge)
    ensures w.session.evidence[w.session.requests[id].resultEvent] == w.commits[id]
  {
    ReachableInv(interpreter, events, w);
    assert RequestInv(w.session, w.decisions, w.commits, id);
  }

  // The evidence is fresh, in scope, known and confident at this moment.
  predicate Warrants(s: Session, r: Request, p: Proposal) {
    && s.revision == r.revision
    && s.problem == Some(p.problem)
    && (forall event :: event in p.cites ==> event in s.known)
    && p.committable
  }

  // A stretch that runs a commit for the first time commits exactly what is warranted then.
  lemma AdvanceCommitsExactly(w: World, task: Task, id: VisionId)
    requires SessionInv(w.session, w.decisions, w.commits) && TaskInv(w.session, task)
    ensures Counted(w, task).commits[id] == w.commits[id]
      + if && task.Committing? && task.id == id && task.proposal.withinBounds
           && CommitOf(id) !in w.session.processed
           && Warrants(w.session, w.session.requests[id], task.proposal)
        then 1 else 0
  {
    if task.Committing? && CommitOf(task.id) !in w.session.processed {
      var p := task.proposal;
      assert forall i :: 0 <= i < |p.cites| ==> p.cites[i] in p.cites;
    }
  }

  // Over every run, a step that commits a request's evidence starts while the board is at the request's
  // revision, the problem is the proposal's, everything it cites is known and its confidence suffices; and
  // what it commits is the proposal decided for that request.
  lemma CommittedOnlyWhenWarranted(interpreter: Option<Fingerprint>, events: seq<Event>, w: World, e: Event, id: VisionId)
    requires Reaches(Init(interpreter), events, w) && Next(w, e).Some?
    requires Next(w, e).value.commits[id] > w.commits[id]
    ensures id in w.session.requests && HasProposal(w.session.requests[id].bridge)
    ensures Warrants(w.session, w.session.requests[id], w.session.requests[id].bridge.proposal)
    ensures w.session.requests[id].bridge.proposal.cites == [w.session.requests[id].resultEvent]
    ensures Next(w, e).value.commits[id] == w.commits[id] + 1
  {
    ReachableInv(interpreter, events, w);
    assert RequestInv(w.session, w.decisions, w.commits, id);
    if e.Step? {
      AdvanceCommitsExactly(w, w.tasks[e.task], id);
      assert TaskInv(w.session, w.tasks[e.task]);
    } else if e.StepRecovery? {
      AdvanceCommitsExactly(w, w.recovery.current.value, id);
      assert TaskInv(w.session, w.recovery.current.value);
    }
  }

  // A completed bridge's flag is whether its evidence was committed, then and ever after: neither the
  // record nor the number of commits changes again.
  lemma CompletedFlagIsTheTruth(interpreter: Option<Fingerprint>, events: seq<Event>, w: World,
                                later: seq<Event>, n: World, id: VisionId)
    requires Reaches(Init(interpreter), events, w) && Reaches(w, later, n)
    requires id in w.session.requests && w.session.requests[id].bridge.Completed?
    ensures id in n.session.requests && n.session.requests[id].bridge == w.session.requests[id].bridge
    ensures w.session.requests[id].bridge.committed <==> w.commits[id] == 1
    ensures n.commits[id] == w.commits[id]
  {
    ReachableInv(interpreter, events, w);
    RunKeepsInv(w, later, n);
    assert RequestInv(w.session, w.decisions, w.commits, id) && RequestInv(n.session, n.decisions, n.commits, id);
  }

  // A recovery that succeeds leaves every request accepted before it settled, and settled they stay.
  lemma SuccessfulRecoveryLeavesNoneWaiting(interpreter: Option<Fingerprint>, events: seq<Event>, w: World, id: VisionId)
    requires Reaches(Init(interpreter), events, w) && w.recovery.Recovered? && id in w.recovery.before
    ensures Settled(w.session, id)
  {
    ReachableInv(interpreter, events, w);
  }

  // The writer answers every command a bridge issues, except a decision that differs from the one
  // already recorded; the only other failure is a proposal beyond the admission bounds. In particular
  // no completion is ever refused for disagreeing with the evidence history.
  lemma ThrownExactly(interpreter: Option<Fingerprint>, events: seq<Event>, w: World, task: TaskId, candidate: Option<Proposal>)
    requires Reaches(Init(interpreter), events, w) && task in w.tasks
    ensures Advance(w.session, w.interpreter, w.tasks[task], candidate).1 == Failed(Thrown)
       <==> var t := w.tasks[task];
            || (t.Committing? && !t.proposal.withinBounds)
            || (t.Deciding? && DecisionOf(t.id) in w.session.processed
                && w.session.processed[DecisionOf(t.id)].command != CommandOf(t))
  {
    ReachableInv(interpreter, events, w);
    var t := w.tasks[task];
    assert TaskInv(w.session, t) && RequestInv(w.session, w.decisions, w.commits, t.id);
    if t.Deciding? && DecisionOf(t.id) !in w.session.processed {
      DecisionKeeps(w.session, w.decisions, w.commits, t);
    } else if t.Completing? {
      CompletionKeeps(w.session, w.decisions, w.commits, t);
    }
  }

  // A decided proposal beyond the admission bounds is never completed, whatever happens later.
  lemma OutOfBoundsStaysWaiting(interpreter: Option<Fingerprint>, events: seq<Event>, w: World,
                                later: seq<Event>, n: World, id: VisionId)
    requires Reaches(Init(interpreter), events, w) && Reaches(w, later, n)
    requires id in w.session.requests && w.session.requests[id].bridge.Decided?
    requires !w.session.requests[id].bridge.proposal.withinBounds
    ensures id in n.session.requests && n.session.requests[id].bridge == w.session.requests[id].bridge
  {
    ReachableInv(interpreter, events, w);
    RunKeepsInv(w, later, n);
    assert RequestInv(n.session, n.decisions, n.commits, id);
  }

  // A recovery under way or done counts id among the requests it answers for.
  predicate AnswersFor(w: World, id: VisionId) {
    && id in w.session.requests
    && (w.recovery.Recovering? || w.recovery.Recovered? ==> id in w.recovery.before)
  }

  lemma {:induction false} RunAnswersFor(w: World, events: seq<Event>, n: World, id: VisionId)
    requires Inv(w) && Reaches(w, events, n) && AnswersFor(w, id)
    ensures AnswersFor(n, id)
    decreases events
  {
    if events != [] {
      StepKeepsInv(w, events[0]);
      RunAnswersFor(Next(w, events[0]).value, events[1..], n, id);
    }
  }

  // And so it fails every recovery begun from then on, in this process and after any number of crashes.
  lemma OutOfBoundsFailsEveryRecovery(interpreter: Option<Fingerprint>, events: seq<Event>, w: World, id: VisionId,
                                      later: seq<Event>, m: World, waiting: seq<VisionId>, rest: seq<Event>, n: World)
    requires Reaches(Init(interpreter), events, w) && Reaches(w, later, m)
    requires id in w.session.requests && w.session.requests[id].bridge.Decided?
    requires !w.session.requests[id].bridge.proposal.withinBounds
    requires Next(m, BeginRecovery(waiting)).Some? && Reaches(Next(m, BeginRecovery(waiting)).value, rest, n)
    ensures !n.recovery.Recovered?
  {
    var begun := Next(m, BeginRecovery(waiting)).value;
    ReachableInv(interpreter, events, w);
    RunKeepsInv(w, later, m);
    StepKeepsInv(m, BeginRecovery(waiting));
    OutOfBoundsStaysWaiting(interpreter, events, w, later, m, id);
    RunAnswersFor(begun, rest, n, id);
    RunKeepsInv(begun, rest, n);
    assert RequestInv(n.session, n.decisions, n.commits, id);
  }

  const Oversized := Proposal(0, [0], false, true, 0)

  // The case does arise: the decision is recorded whatever the size of the proposal.
  lemma OutOfBoundsIsReachable() returns (events: seq<Event>, w: World)
    ensures Reaches(Init(Some(0)), events, w)
    ensures 0 in w.session.requests && w.session.requests[0].bridge == Decided(0, Oversized)
  {
    var start := Init(Some(0));
    var accepted := Next(start, Accept(0, 0, Some(0))).value;
    var presented := Next(accepted, PresentProblem(0)).value;
    var invoked := Next(presented, Invoke(0, 0)).value;
    var proposed := Next(invoked, Step(0, Some(Oversized))).value;
    assert proposed.tasks == map[0 := Deciding(0, 0, Some(Oversized))];
    w := Next(proposed, Step(0, None)).value;
    assert Reaches(w, [], w);
    Prepend(proposed, Step(0, None), [], w);
    Prepend(invoked, Step(0, Some(Oversized)), [Step(0, None)] + [], w);
    Prepend(presented, Invoke(0, 0), [Step(0, Some(Oversized))] + ([Step(0, None)] + []), w);
    events := [Invoke(0, 0)] + ([Step(0, Some(Oversized))] + ([Step(0, None)] + []));
    Prepend(accepted, PresentProblem(0), events, w);
    events := [PresentProblem(0)] + events;
    Prepend(start, Accept(0, 0, Some(0)), events, w);
    events := [Accept(0, 0, Some(0))] + events;
  }

  lemma Prepend(w: World, e: Event, events: seq<Event>, n: World)
    requires Next(w, e).Some? && Reaches(Next(w, e).value, events, n)
    ensures Reaches(w, [e] + events, n)
  {
    assert ([e] + events)[1..] == events;
  }

  // ---- An invocation nothing interferes with ----

  function Run(s: Session, interpreter: Option<Fingerprint>, task: Task, candidate: Option<Proposal>): (Session, Progress)
    decreases Rank(task)
  {
    var (n, progress) := Advance(s, interpreter, task, candidate);
    if progress.Go? then Run(n, interpreter, progress.task, candidate) else (n, progress)
  }

  // What a caller can check beforehand.
  predicate Bridgeable(s: Session, interpreter: Option<Fingerprint>, id: VisionId, candidate: Option<Proposal>) {
    && id in s.requests
    && match s.requests[id].bridge
       case Pending(fingerprint) =>
         && interpreter == Some(fingerprint) && s.problem.Some?
         && var proposed := Admitted(s.requests[id], s.problem.value, candidate);
            proposed.Some? ==> proposed.value.withinBounds
       case Decided(_, proposal) => proposal.withinBounds
       case _ => true
  }

  predicate WillBridge(s: Session, interpreter: Option<Fingerprint>, task: Task, candidate: Option<Proposal>) {
    match task
    case Starting(id) => Bridgeable(s, interpreter, id, candidate)
    case Deciding(id, _, proposed) => proposed.Some? ==> proposed.value.withinBounds
    case Resuming(id) => id in s.requests && (s.requests[id].bridge.Decided? ==> s.requests[id].bridge.proposal.withinBounds)
    case Committing(_, _, proposal, _) => proposal.withinBounds
    case _ => true
  }

  // Other requests and the problem stay as they were.
  ghost predicate OnlyMoves(s: Session, n: Session, id: VisionId) {
    && n.problem == s.problem && n.requests.Keys == s.requests.Keys
    && forall o :: o in s.requests && o != id ==> n.requests[o] == s.requests[o]
  }

  // Between its own segments nothing else has moved the bridge.
  predicate Alone(s: Session, task: Task) {
    && (task.Deciding? ==> task.id in s.requests && s.requests[task.id].bridge.Pending?)
    && (task.Resuming? ==> task.id in s.requests && !s.requests[task.id].bridge.Completed?)
  }

  lemma AdvanceAlone(w: World, task: Task, candidate: Option<Proposal>)
    requires SessionInv(w.session, w.decisions, w.commits) && TaskInv(w.session, task) && Alone(w.session, task)
    ensures var (n, progress) := Advance(w.session, w.interpreter, task, candidate);
            && OnlyMoves(w.session, n, task.id)
            && (progress.Go? ==>
                  && Alone(n, progress.task)
                  && (WillBridge(n, w.interpreter, progress.task, candidate)
                      <==> WillBridge(w.session, w.interpreter, task, candidate)))
            && (!progress.Go? ==> (progress.Bridged? <==> WillBridge(w.session, w.interpreter, task, candidate)))
  {
    assert RequestInv(w.session, w.decisions, w.commits, task.id);
    if task.Deciding? {
      DecisionKeeps(w.session, w.decisions, w.commits, task);
    } else if task.Completing? {
      CompletionKeeps(w.session, w.decisions, w.commits, task);
    }
  }

  lemma {:induction false} RunBridgesExactly(w: World, task: Task, candidate: Option<Proposal>)
    returns (decisions: multiset<VisionId>, commits: multiset<VisionId>)
    requires SessionInv(w.session, w.decisions, w.commits) && TaskInv(w.session, task) && Alone(w.session, task)
    ensures var (n, progress) := Run(w.session, w.interpreter, task, candidate);
            && SessionInv(n, decisions, commits) && Evolves(w.session, n) && OnlyMoves(w.session, n, task.id)
            && (progress.Bridged? <==> WillBridge(w.session, w.interpreter, task, candidate))
            && (progress.Bridged? ==>
                  Settled(n, task.id) && progress.count == n.evidence[n.requests[task.id].resultEvent] && progress.count <= 1)
    decreases Rank(task)
  {
    AdvanceKeeps(w, task, candidate);
    AdvanceAlone(w, task, candidate);
    decisions, commits := Counted(w, task).decisions, Counted(w, task).commits;
    var (n, progress) := Advance(w.session, w.interpreter, task, candidate);
    if progress.Go? {
      var next := World(n, w.interpreter, w.tasks, w.recovery, decisions, commits);
      decisions, commits := RunBridgesExactly(next, progress.task, candidate);
      EvolvesTransitively(w.session, n, Run(n, w.interpreter, progress.task, candidate).0);
    }
  }

  // Left alone, a bridge completes exactly when its caller's own facts allow it, and reports exactly the
  // evidence the history then holds.
  lemma UndisturbedBridge(interpreter: Option<Fingerprint>, events: seq<Event>, w: World,
                          id: VisionId, candidate: Option<Proposal>)
    requires Reaches(Init(interpreter), events, w)
    ensures var (n, progress) := Run(w.session, w.interpreter, Starting(id), candidate);
            && (progress.Bridged? <==> Bridgeable(w.session, w.interpreter, id, candidate))
            && (progress.Bridged? ==>
                  Settled(n, id) && progress.count == n.evidence[n.requests[id].resultEvent] && progress.count <= 1)
  {
    ReachableInv(interpreter, events, w);
    var decisions, commits := RunBridgesExactly(w, Starting(id), candidate);
  }

  // What a bridge does with a proposal decided and not yet committed.
  lemma RunFromCommit(s: Session, interpreter: Option<Fingerprint>, decisions: multiset<VisionId>, commits: multiset<VisionId>,
                      task: Task, candidate: Option<Proposal>)
    requires SessionInv(s, decisions, commits) && TaskInv(s, task) && task.Committing? && task.proposal.withinBounds
    requires s.requests[task.id].bridge.Decided? && CommitOf(task.id) !in s.processed
    ensures var warranted := Warrants(s, s.requests[task.id], task.proposal);
            var (n, progress) := Run(s, interpreter, task, candidate);
            && progress == Bridged(if warranted then 1 else 0)
            && task.id in n.requests
            && n.requests[task.id].bridge == Completed(task.fingerprint, task.proposal, warranted)
  {
    RunFromDecided(s, interpreter, task, candidate);
    CommitKeeps(s, decisions, commits, task);
    assert RequestInv(s, decisions, commits, task.id);
    var p := task.proposal;
    assert forall i :: 0 <= i < |p.cites| ==> p.cites[i] in p.cites;
    var execution := Execute(s, CommandOf(task));
    var next := Completing(task.id, task.fingerprint, execution.value);
    var counted := if execution.value then commits + multiset{task.id} else commits;
    assert execution.session.requests == s.requests;
    CompletionKeeps(execution.session, decisions, counted, next);
  }

  // Left alone, a bridge of a proposal decided and not yet committed reports one piece of evidence if the
  // proposal is warranted now, none otherwise, and records which.
  lemma {:induction false} UndisturbedCommit(interpreter: Option<Fingerprint>, events: seq<Event>, w: World, id: VisionId, candidate: Option<Proposal>)
    requires Reaches(Init(interpreter), events, w) && id in w.session.requests
    requires var bridge := w.session.requests[id].bridge;
             bridge.Decided? && bridge.proposal.withinBounds && CommitOf(id) !in w.session.processed
    ensures var r := w.session.requests[id];
            var warranted := Warrants(w.session, r, r.bridge.proposal);
            var (n, progress) := Run(w.session, w.interpreter, Starting(id), candidate);
            && progress == Bridged(if warranted then 1 else 0)
            && id in n.requests && n.requests[id].bridge == Completed(r.bridge.fingerprint, r.bridge.proposal, warranted)
  {
    ReachableInv(interpreter, events, w);
    var s, r := w.session, w.session.requests[id];
    var task := Committing(id, r.bridge.fingerprint, r.bridge.proposal, r.revision);
    assert Run(s, w.interpreter, Starting(id), candidate) == Run(s, w.interpreter, task, candidate);
    RunFromCommit(s, w.interpreter, w.decisions, w.commits, task, candidate);
  }

  // Left alone, a bridge of a pending request takes up what the interpreter answers exactly if it is about
  // this problem and cites this result and nothing else; of that, it reports one piece of evidence if the
  // board has not moved on and the confidence suffices, and of anything else none.
  lemma {:induction false} UndisturbedProposal(interpreter: Option<Fingerprint>, events: seq<Event>, w: World, id: VisionId, candidate: Option<Proposal>)
    requires Reaches(Init(interpreter), events, w) && id in w.session.requests
    requires w.session.requests[id].bridge.Pending? && w.session.problem.Some?
    requires w.interpreter == Some(w.session.requests[id].bridge.fingerprint)
    requires candidate.Some? ==> candidate.value.withinBounds
    ensures var s, r := w.session, w.session.requests[id];
            var taken := candidate.Some? && Some(candidate.value.problem) == s.problem && candidate.value.cites == [r.resultEvent];
            var committed := taken && s.revision == r.revision && candidate.value.committable;
            var (n, progress) := Run(s, w.interpreter, Starting(id), candidate);
            && progress == Bridged(if committed then 1 else 0)
            && id in n.requests
            && n.requests[id].bridge == if taken then Completed(r.bridge.fingerprint, candidate.value, committed)
                                        else NoProposal(r.bridge.fingerprint)
  {
    ReachableInv(interpreter, events, w);
    var s, r := w.session, w.session.requests[id];
    assert RequestInv(s, w.decisions, w.commits, id);
    var task := Deciding(id, r.bridge.fingerprint, Admitted(r, s.problem.value, candidate));
    assert Run(s, w.interpreter, Starting(id), candidate) == Run(s, w.interpreter, task, candidate);
    RunFromPending(s, w.interpreter, task, candidate);
    DecisionKeeps(s, w.decisions, w.commits, task);
    var decided := Execute(s, CommandOf(task)).session;
    if task.proposed.Some? {
      var commit := Committing(id, r.bridge.fingerprint, task.proposed.value, r.revision);
      assert Resume(decided, id) == Go(commit);
      RunFromCommit(decided, w.interpreter, w.decisions + multiset{id}, w.commits, commit, candidate);
    }
  }

  // ---- A recovery nothing interferes with ----

  type Interpreter = VisionId -> Option<Proposal>

  function RecoverAll(s: Session, interpreter: Option<Fingerprint>, waiting: seq<VisionId>, propose: Interpreter): (Session, bool)
    decreases waiting
  {
    if waiting == [] then (s, true)
    else
      var (n, progress) := Run(s, interpreter, Starting(waiting[0]), propose(waiting[0]));
      if progress.Bridged? then RecoverAll(n, interpreter, waiting[1..], propose) else (n, false)
  }

  // Left alone, recovery succeeds exactly when each waiting request could be bridged by itself at the
  // outset, and then every one of them is settled: none stands in another's way.
  lemma {:induction false} UndisturbedRecovery(w: World, waiting: seq<VisionId>, propose: Interpreter)
    requires SessionInv(w.session, w.decisions, w.commits) && Distinct(waiting)
    ensures var (n, succeeded) := RecoverAll(w.session, w.interpreter, waiting, propose);
            && Evolves(w.session, n)
            && (succeeded <==> forall i :: 0 <= i < |waiting| ==>
                                 Bridgeable(w.session, w.interpreter, waiting[i], propose(waiting[i])))
            && (succeeded ==> forall i :: 0 <= i < |waiting| ==> Settled(n, waiting[i]))
    decreases waiting
  {
    if waiting != [] {
      var id := waiting[0];
      var decisions, commits := RunBridgesExactly(w, Starting(id), propose(id));
      var (m, progress) := Run(w.session, w.interpreter, Starting(id), propose(id));
      if progress.Bridged? {
        var next := w.(session := m, decisions := decisions, commits := commits);
        assert forall i :: 0 <= i < |waiting| - 1 ==> waiting[1..][i] == waiting[i + 1];
        UndisturbedRecovery(next, waiting[1..], propose);
        var n := RecoverAll(m, w.interpreter, waiting[1..], propose).0;
        EvolvesTransitively(w.session, m, n);
        forall i | 0 <= i < |waiting|
          ensures i > 0 ==> (Bridgeable(w.session, w.interpreter, waiting[i], propose(waiting[i]))
                             <==> Bridgeable(m, w.interpreter, waiting[1..][i - 1], propose(waiting[1..][i - 1])))
          ensures i > 0 && Settled(n, waiting[1..][i - 1]) ==> Settled(n, waiting[i])
        {
        }
        assert forall i :: 0 < i < |waiting| ==> waiting[i] == waiting[1..][i - 1];
      }
    }
  }

  // ---- The bridge as an object ----

  lemma RunFromPending(s: Session, interpreter: Option<Fingerprint>, task: Task, candidate: Option<Proposal>)
    requires task.Deciding?
    ensures var execution := Execute(s, CommandOf(task));
            Run(s, interpreter, task, candidate)
            == if !execution.Done? then (s, Failed(Thrown))
               else
                 var resumed := Resume(execution.session, task.id);
                 if resumed.Go? then Run(execution.session, interpreter, resumed.task, candidate)
                 else (execution.session, resumed)
  {
    var execution := Execute(s, CommandOf(task));
    if execution.Done? {
      assert Run(s, interpreter, task, candidate) == Run(execution.session, interpreter, Resuming(task.id), candidate);
    }
  }

  lemma RunFromDecided(s: Session, interpreter: Option<Fingerprint>, task: Task, candidate: Option<Proposal>)
    requires task.Committing?
    ensures var execution := Execute(s, CommandOf(task));
            Run(s, interpreter, task, candidate)
            == if !task.proposal.withinBounds || !execution.Done? then (s, Failed(Thrown))
               else
                 var completion := Execute(execution.session, RecordCompletion(task.id, task.fingerprint, execution.value));
                 if !completion.Done? then (execution.session, Failed(Thrown))
                 else (completion.session, Confirm(completion.session, task.id))
  {
    var execution := Execute(s, CommandOf(task));
    if task.proposal.withinBounds && execution.Done? {
      var next := Completing(task.id, task.fingerprint, execution.value);
      assert Run(s, interpreter, task, candidate) == Run(execution.session, interpreter, next, candidate);
      var completion := Execute(execution.session, CommandOf(next));
      if completion.Done? {
        assert Run(execution.session, interpreter, next, candidate)
            == Run(completion.session, interpreter, Confirming(task.id), candidate);
      }
    }
  }

  class WhiteboardVisionCoordinator {
    var session: Session
    const evidenceInterpreter: Option<Fingerprint>

    constructor (session: Session, evidenceInterpreter: Option<Fingerprint>)
      ensures this.session == session && this.evidenceInterpreter == evidenceInterpreter
    {
      this.session := session;
      this.evidenceInterpreter := evidenceInterpreter;
    }

    // SessionWriter.execute on this session; None is a rejection.
    method Issue(command: Command) returns (value: Option<bool>)
      modifies this
      ensures var execution := Execute(old(session), command);
              if execution.Done? then session == execution.session && value == Some(execution.value)
              else session == old(session) && value == None
    {
      var execution := Execute(session, command);
      if !execution.Done? { return None; }
      session := execution.session;
      value := Some(execution.value);
    }

    // completeEvidenceBridge, run without interleaving.
    method CompleteEvidenceBridge(id: VisionId, candidate: Option<Proposal>) returns (result: Progress)
      modifies this
      ensures (session, result) == Run(old(session), evidenceInterpreter, Starting(id), candidate)
    {
      ghost var whole := Run(session, evidenceInterpreter, Starting(id), candidate);
      if id !in session.requests { return Failed(RequestCorrupt); }
      var request := session.requests[id];
      if request.bridge.Unbridged? {
        return Bridged(if session.evidence[request.resultEvent] > 0 then 1 else 0);
      }
      if request.bridge.Skipped? { return Bridged(0); }
      if request.bridge.Completed? { return Bridged(if request.bridge.committed then 1 else 0); }
      if request.bridge.Pending? {
        if evidenceInterpreter != Some(request.bridge.fingerprint) { return Failed(InterpreterMismatch); }
        if session.problem.None? { return Failed(RequestCorrupt); }
        var proposal := None;
        if candidate.Some? && candidate.value.problem == session.problem.value
           && candidate.value.cites == [request.resultEvent] {
          proposal := candidate;
        }
        var decision := RecordDecision(id, request.bridge.fingerprint, proposal);
        RunFromPending(session, evidenceInterpreter, Deciding(id, request.bridge.fingerprint, proposal), candidate);
        var recorded := Issue(decision);
        if recorded.None? { return Failed(Thrown); }
        if id !in session.requests || !(session.requests[id].bridge.NoProposal? || session.requests[id].bridge.Decided?) {
          return Failed(RequestCorrupt);
        }
        request := session.requests[id];
      }
      if request.bridge.NoProposal? { return Bridged(0); }
      var bridge := request.bridge;
      ghost var committing := Committing(id, bridge.fingerprint, bridge.proposal, request.revision);
      assert whole == Run(session, evidenceInterpreter, committing, candidate);
      RunFromDecided(session, evidenceInterpreter, committing, candidate);
      if !bridge.proposal.withinBounds { return Failed(Thrown); }
      var committed := Issue(ProcessEvidence(id, bridge.proposal, request.revision));
      if committed.None? { return Failed(Thrown); }
      var completed := Issue(RecordCompletion(id, bridge.fingerprint, committed.value));
      if completed.None? { return Failed(Thrown); }
      if id !in session.requests || !session.requests[id].bridge.Completed? { return Failed(RequestCorrupt); }
      result := Bridged(if session.requests[id].bridge.committed then 1 else 0);
    }

    // The loop of recoverPendingVisionEvidence over the requests it found waiting; false is its throw.
    method RecoverPendingVisionEvidence(waiting: seq<VisionId>, propose: Interpreter) returns (succeeded: bool)
      modifies this
      ensures (session, succeeded) == RecoverAll(old(session), evidenceInterpreter, waiting, propose)
    {
      var i := 0;
      ghost var whole := RecoverAll(session, evidenceInterpreter, waiting, propose);
      assert waiting[0..] == waiting;
      while i < |waiting|
        invariant 0 <= i <= |waiting|
        invariant whole == RecoverAll(session, evidenceInterpreter, waiting[i..], propose)
      {
        assert waiting[i..][1..] == waiting[i + 1..];
        var recovered := CompleteEvidenceBridge(waiting[i], propose(waiting[i]));
        if !recovered.Bridged? { return false; }
        i := i + 1;
      }
      succeeded := true;
    }
  }
}
