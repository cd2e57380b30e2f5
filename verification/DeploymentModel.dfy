/** The agent's deployment transitions as a step system
    (lazarus/agent/deployments.py, lazarus/agent/server.py). */
module DeploymentModel {
  import opened Prelude

  // A step is one stretch of code between two awaits.  A transition (the
  // replacement or the removal of one deployment) first waits for its
  // deployment's lock, then runs as the one `Job` of its id; `Pc` names the await
  // it is suspended at.  `records_lock` is only ever held inside one stretch, so
  // each of its critical sections is one step that follows an await.  Whatever the
  // agent does not decide (a stop, a checksum, a spawn, a readiness wait, a save,
  // a disconnect, a child's exit) is an argument of the event.

  type Id = string

  const FIRST_PORT := 9110
  const END_PORT := 9200

  /** A committed or candidate record: what it serves (`spec`) and its port. */
  datatype Record = Record(spec: nat, port: int)

  /** A child process ever started: the record it was started from, whether it
      may still live, and what was checked about it. */
  datatype Child = Child(id: Id, record: Record, alive: bool, verified: bool, ready: bool)

  /** An `Admission` object; references to it are indices of `State.gates`. */
  datatype Gate = Gate(owner: Id, paused: bool, requests: int, idle: bool)

  datatype Task = Replace(spec: nat) | Remove

  /** A transition that waits for its deployment's lock. */
  datatype Waiter = Waiter(id: Id, task: Task, abandoned: bool)

  /** Where a transition that holds its deployment's lock is suspended. */
  datatype Pc =
    | AtRecords                            // waits for records_lock, to take a port
    | Draining(was: bool, woken: bool)     // asyncio.wait in quiesce
    | Stopping(h: nat)                     // process.stop in a thread
    | Verifying                            // the candidate's checksums in a thread
    | Loading(h: nat)                      // wait_deployment_ready
    | AtCommit(h: nat)                     // waits for records_lock, to commit
    | Reporting(h: nat)                    // memory_of, after the commit
    | UndoStopping(h: nat)                 // the rollback's stop
    | UndoVerifying                        // the previous record's checksums
    | UndoLoading(h: nat)                  // the previous record's readiness
    | UndoSaving                           // waits for records_lock, to save
    | OrphanStopping(h: nat)               // the stop of a child without a record
    | AtForget                             // waits for records_lock, to forget

  /** A transition that holds its deployment's lock.  `child` and `paused` are
      what was registered and how the gate stood when it took the lock. */
  datatype Job = Job(
    key: nat, task: Task, abandoned: bool, previous: Option<Record>,
    child: Option<nat>, paused: bool, port: Option<int>, pc: Pc)

  datatype Request =
    | Reading(id: Id, record: Record, gate: nat, process: nat)  // awaits its body
    | InFlight(id: Id, record: Record, gate: nat, process: nat)

  datatype Outcome = Unchanged | Committed | RolledBack | Failed | Stopped | Absent | Raised

  datatype Ending = Ending(id: Id, job: Job, outcome: Outcome)

  /** What held of a record's child and transition when it was committed. */
  datatype Note = Note(id: Id, record: Record, child: Child, abandoned: bool)

  datatype State = State(
    agentPort: int,
    records: map<Id, Record>,       // agent.config.deployments
    disk: map<Id, Record>,          // the records in agent.yaml
    all: seq<Child>,                // every child ever started
    children: map<Id, nat>,         // agent.deployments
    gates: seq<Gate>,               // every Admission ever made
    gate: map<Id, nat>,             // agent.deployment_admission
    reservations: set<int>,         // agent.port_reservations
    stopping: bool,
    waiting: map<nat, Waiter>,
    asked: nat,
    jobs: map<Id, Job>,
    requests: map<nat, Request>,
    endings: seq<Ending>,
    notes: seq<Note>)

  datatype Event =
    | Ask(id: Id, task: Task)
    | AbandonWaiter(key: nat)
    | Abandon(id: Id)
    | Acquire(key: nat)
    | Reserve(id: Id, busy: set<int>, valid: bool)
    | IdleSeen(id: Id)
    | DrainEnds(id: Id, timedOut: bool)
    | StopEnds(id: Id, ok: bool)
    | VerifyEnds(id: Id, ok: bool, spawned: bool)
    | ReadyEnds(id: Id, ok: bool)
    | Commit(id: Id, saved: bool)
    | Report(id: Id)
    | Persist(id: Id, saved: bool)
    | Forget(id: Id, saved: bool)
    | CancelJob(id: Id)
    | ChildExits(h: nat)
    | Arrive(key: nat, id: Id)
    | Body(key: nat, sends: bool)
    | Leave(key: nat)
    | BeginStop
    | Sweep(stopped: set<Id>)

  function Candidate(job: Job): Record {
    Record(if job.task.Replace? then job.task.spec else 0,
           if job.port.Some? then job.port.value else 0)
  }

  // ----- gates -----

  /** How the gate of an id stands; a missing one is made open on first use. */
  predicate Paused(s: State, id: Id) {
    id in s.gate && s.gate[id] < |s.gates| && s.gates[s.gate[id]].paused
  }

  function SetPaused(s: State, id: Id, paused: bool): State {
    if id in s.gate && s.gate[id] < |s.gates|
    then s.(gates := s.gates[s.gate[id] := s.gates[s.gate[id]].(paused := paused)])
    else s
  }

  function NewGate(s: State, id: Id, paused: bool): State {
    s.(gates := s.gates + [Gate(id, paused, 0, true)], gate := s.gate[id := |s.gates|])
  }

  /** A first use of an id makes its gate, open. */
  function DefaultGate(s: State, id: Id): State {
    if id in s.gate then s else NewGate(s, id, false)
  }

  function DropGate(s: State, id: Id): State {
    s.(gate := s.gate - {id})
  }

  function Enter(g: Gate): Gate {
    g.(requests := g.requests + 1, idle := false)
  }

  function Exit(g: Gate): Gate {
    g.(requests := g.requests - 1, idle := g.idle || g.requests == 1)
  }

  // ----- children -----

  function StopChild(s: State, id: Id, h: nat): State {
    var all := if h < |s.all| then s.all[h := s.all[h].(alive := false)] else s.all;
    s.(all := all, children := if Lookup(s.children, id) == Some(h) then s.children - {id} else s.children)
  }

  /** start_deployment and the registration; `verified` is how the checks of the
      record's files came out. */
  function Spawn(s: State, id: Id, record: Record, verified: bool): State {
    s.(all := s.all + [Child(id, record, true, verified, false)], children := s.children[id := |s.all|])
  }

  /** The readiness wait for a child has ended. */
  function MarkReady(s: State, h: nat, ready: bool): State {
    if h < |s.all| then s.(all := s.all[h := s.all[h].(ready := ready)]) else s
  }

  // ----- ports -----

  function Taken(s: State): set<int> {
    (set id | id in s.records :: s.records[id].port)
    + (set id | id in s.children && s.children[id] < |s.all| :: s.all[s.children[id]].record.port)
    + s.reservations + {s.agentPort}
  }

  /** The first port from `from` on that is neither taken nor listened on. */
  function FirstFree(from: int, taken: set<int>): (port: Option<int>)
    ensures port.None? <==> forall p :: from <= p < END_PORT ==> p in taken
    ensures port.Some? ==> from <= port.value < END_PORT && port.value !in taken
    ensures port.Some? ==> forall p :: from <= p < port.value ==> p in taken
    decreases END_PORT - from
  {
    if from >= END_PORT then None
    else if from !in taken then Some(from)
    else FirstFree(from + 1, taken)
  }

  // ----- transitions -----

  function GoTo(s: State, id: Id, pc: Pc): State
    requires id in s.jobs
  {
    s.(jobs := s.jobs[id := s.jobs[id].(pc := pc)])
  }

  /** A transition returns: its reservation and its lock go. */
  function Finish(s: State, id: Id, outcome: Outcome): State
    requires id in s.jobs
  {
    s.(jobs := s.jobs - {id},
       reservations := if s.jobs[id].port.Some? then s.reservations - {s.jobs[id].port.value} else s.reservations,
       endings := s.endings + [Ending(id, s.jobs[id], outcome)])
  }

  /** The part of quiesce up to its await. */
  function Drain(s: State, id: Id): State
    requires id in s.jobs
  {
    var s1 := DefaultGate(s, id);
    GoTo(SetPaused(s1, id, true), id, Draining(Paused(s1, id), false))
  }

  /** A replacement past its drain: a new closed gate, then the old child goes. */
  function Change(s: State, id: Id): State
    requires id in s.jobs
  {
    var s1 := NewGate(s, id, true);
    if id in s.children then GoTo(s1, id, Stopping(s.children[id])) else GoTo(s1, id, Verifying)
  }

  /** The except branch of a replacement, up to its first await. */
  function Undo(s: State, id: Id): State
    requires id in s.jobs
  {
    if id in s.children then GoTo(s, id, UndoStopping(s.children[id])) else Undone(s, id)
  }

  /** The rollback once no child is registered. */
  function Undone(s: State, id: Id): State
    requires id in s.jobs
  {
    if s.jobs[id].previous.None? then GoTo(DropGate(s, id), id, UndoSaving)
    else GoTo(s, id, UndoVerifying)
  }

  // What each step waits for.

  predicate MayAcquire(s: State, key: nat) {
    key in s.waiting && s.waiting[key].id !in s.jobs
  }

  predicate MayReserve(s: State, id: Id) {
    id in s.jobs && s.jobs[id].pc.AtRecords?
  }

  predicate MaySeeIdle(s: State, id: Id) {
    id in s.jobs && s.jobs[id].pc.Draining? && id in s.gate && s.gate[id] < |s.gates| && s.gates[s.gate[id]].idle
  }

  predicate MayEndDrain(s: State, id: Id, timedOut: bool) {
    id in s.jobs && s.jobs[id].pc.Draining? && (s.jobs[id].pc.woken || s.jobs[id].abandoned || timedOut)
  }

  predicate MayEndStop(s: State, id: Id) {
    id in s.jobs && (s.jobs[id].pc.Stopping? || s.jobs[id].pc.UndoStopping? || s.jobs[id].pc.OrphanStopping?)
  }

  predicate MayEndVerify(s: State, id: Id) {
    id in s.jobs && (s.jobs[id].pc.Verifying? || s.jobs[id].pc.UndoVerifying?)
  }

  predicate MayEndReady(s: State, id: Id) {
    id in s.jobs && (s.jobs[id].pc.Loading? || s.jobs[id].pc.UndoLoading?)
  }

  predicate MayCommit(s: State, id: Id) {
    id in s.jobs && s.jobs[id].pc.AtCommit?
  }

  predicate MayReport(s: State, id: Id) {
    id in s.jobs && s.jobs[id].pc.Reporting?
  }

  predicate MayPersist(s: State, id: Id) {
    id in s.jobs && s.jobs[id].pc.UndoSaving?
  }

  predicate MayForget(s: State, id: Id) {
    id in s.jobs && s.jobs[id].pc.AtForget?
  }

  predicate MayCancel(s: State, id: Id) {
    id in s.jobs && s.stopping
  }

  predicate MayTakeBody(s: State, key: nat) {
    key in s.requests && s.requests[key].Reading? && s.requests[key].gate < |s.gates|
  }

  predicate MayLeave(s: State, key: nat) {
    key in s.requests && (s.requests[key].InFlight? ==> s.requests[key].gate < |s.gates|)
  }

  predicate Enabled(s: State, e: Event) {
    match e
    case Ask(_, _) => true
    case AbandonWaiter(k) => k in s.waiting
    case Abandon(id) => id in s.jobs
    case Acquire(k) => MayAcquire(s, k)
    case Reserve(id, _, _) => MayReserve(s, id)
    case IdleSeen(id) => MaySeeIdle(s, id)
    case DrainEnds(id, timedOut) => MayEndDrain(s, id, timedOut)
    case StopEnds(id, _) => MayEndStop(s, id)
    case VerifyEnds(id, _, _) => MayEndVerify(s, id)
    case ReadyEnds(id, _) => MayEndReady(s, id)
    case Commit(id, _) => MayCommit(s, id)
    case Report(id) => MayReport(s, id)
    case Persist(id, _) => MayPersist(s, id)
    case Forget(id, _) => MayForget(s, id)
    case CancelJob(id) => MayCancel(s, id)
    case ChildExits(h) => h < |s.all|
    case Arrive(k, _) => k !in s.requests
    case Body(k, _) => MayTakeBody(s, k)
    case Leave(k) => MayLeave(s, k)
    case BeginStop => true
    case Sweep(_) => s.stopping
  }

  function DoAcquire(s: State, key: nat): State
    requires MayAcquire(s, key)
  {
    var w := s.waiting[key];
    var previous := Lookup(s.records, w.id);
    var job := Job(key, w.task, w.abandoned, previous, Lookup(s.children, w.id), Paused(s, w.id), None, AtRecords);
    var s1 := s.(waiting := s.waiting - {key}, jobs := s.jobs[w.id := job]);
    if w.abandoned then Finish(s1, w.id, Unchanged)
    else if w.task.Replace? then s1
    else if previous.Some? then Drain(s1, w.id)
    else if w.id in s.children then GoTo(s1, w.id, OrphanStopping(s.children[w.id]))
    else Finish(s1, w.id, Absent)
  }

  function DoReserve(s: State, id: Id, busy: set<int>, valid: bool): State
    requires MayReserve(s, id)
  {
    var job := s.jobs[id];
    var port := if job.previous.Some? then Some(job.previous.value.port) else FirstFree(FIRST_PORT, Taken(s) + busy);
    if job.abandoned then Finish(s, id, Unchanged)
    else if port.None? then Finish(s, id, Raised)
    else
      var s1 := s.(reservations := s.reservations + {port.value}, jobs := s.jobs[id := job.(port := port)]);
      if !valid then Finish(s1, id, Raised)
      else if job.previous.Some? then Drain(s1, id)
      else Change(s1, id)
  }

  function DoDrainEnds(s: State, id: Id, timedOut: bool): State
    requires MayEndDrain(s, id, timedOut)
  {
    var job := s.jobs[id];
    if job.abandoned then Finish(SetPaused(s, id, job.pc.was), id, Unchanged)
    else if job.task.Replace? then Change(s, id)
    else if id in s.children then GoTo(s, id, Stopping(s.children[id]))
    else GoTo(s, id, AtForget)
  }

  function DoStopEnds(s: State, id: Id, ok: bool): State
    requires MayEndStop(s, id)
  {
    var job := s.jobs[id];
    match job.pc
    case Stopping(h) =>
      if ok then GoTo(StopChild(s, id, h), id, if job.task.Replace? then Verifying else AtForget)
      else if job.task.Replace? then Undo(s, id)
      else Finish(s, id, Raised)
    case UndoStopping(h) =>
      if ok then Undone(StopChild(s, id, h), id) else Finish(s, id, Failed)
    case OrphanStopping(h) =>
      if ok then Finish(DropGate(StopChild(s, id, h), id), id, Stopped) else Finish(s, id, Raised)
    case _ => s
  }

  function DoVerifyEnds(s: State, id: Id, ok: bool, spawned: bool): State
    requires MayEndVerify(s, id)
  {
    var job := s.jobs[id];
    var starts := ok && !s.stopping && spawned;
    if job.pc.Verifying? then
      if starts then GoTo(Spawn(s, id, Candidate(job), ok), id, Loading(|s.all|)) else Undo(s, id)
    else if starts && job.previous.Some? then
      GoTo(Spawn(s, id, job.previous.value, ok), id, UndoLoading(|s.all|))
    else Finish(s, id, Failed)
  }

  function DoReadyEnds(s: State, id: Id, ok: bool): State
    requires MayEndReady(s, id)
  {
    match s.jobs[id].pc
    case Loading(h) => if ok then GoTo(MarkReady(s, h, ok), id, AtCommit(h)) else Undo(s, id)
    case UndoLoading(h) =>
      if ok then GoTo(SetPaused(MarkReady(s, h, ok), id, false), id, UndoSaving) else Finish(s, id, Failed)
    case _ => s
  }

  function DoCommit(s: State, id: Id, saved: bool): State
    requires MayCommit(s, id)
  {
    var job := s.jobs[id];
    var h := job.pc.h;
    if job.abandoned || h >= |s.all| || !s.all[h].alive || !saved then Undo(s, id)
    else
      var records := s.records[id := Candidate(job)];
      var note := Note(id, Candidate(job), s.all[h], job.abandoned);
      GoTo(SetPaused(s.(records := records, disk := records, notes := s.notes + [note]), id, false), id, Reporting(h))
  }

  function DoPersist(s: State, id: Id, saved: bool): State
    requires MayPersist(s, id)
  {
    if saved then Finish(s.(disk := s.records), id, RolledBack) else Finish(s, id, Failed)
  }

  function DoForget(s: State, id: Id, saved: bool): State
    requires MayForget(s, id)
  {
    if saved then
      Finish(DropGate(s.(records := s.records - {id}, disk := s.records - {id}), id), id, Stopped)
    else Finish(s, id, Raised)
  }

  function DoCancelJob(s: State, id: Id): State
    requires MayCancel(s, id)
  {
    Finish(s, id, if s.jobs[id].pc.Reporting? then Committed else Raised)
  }

  /** Requests come and go without touching a transition, a child or a record. */
  predicate OnlyRequests(s: State, t: State) {
    t == s.(requests := t.requests, gates := t.gates, gate := t.gate)
  }

  /** proxy_deployment up to its await for the body: a refused request leaves
      nothing but a gate made on first use. */
  function DoArrive(s: State, key: nat, id: Id): (t: State)
    requires key !in s.requests
    ensures OnlyRequests(s, t)
  {
    if id !in s.records then s
    else
      var s1 := DefaultGate(s, id);
      if Paused(s1, id) || id !in s.children then s1
      else s1.(requests := s.requests[key := Reading(id, s.records[id], s1.gate[id], s.children[id])])
  }

  /** The request may go through to the child it read before its body came. */
  predicate MaySend(s: State, r: Request) {
    && r.gate < |s.gates| && !s.gates[r.gate].paused
    && Lookup(s.children, r.id) == Some(r.process)
    && r.process < |s.all| && s.all[r.process].alive
  }

  function DoBody(s: State, key: nat, sends: bool): (t: State)
    requires MayTakeBody(s, key)
    ensures OnlyRequests(s, t)
  {
    var r := s.requests[key];
    if MaySend(s, r) && sends then
      s.(requests := s.requests[key := InFlight(r.id, r.record, r.gate, r.process)],
         gates := s.gates[r.gate := Enter(s.gates[r.gate])])
    else s.(requests := s.requests - {key})
  }

  function DoLeave(s: State, key: nat): (t: State)
    requires MayLeave(s, key)
    ensures OnlyRequests(s, t)
  {
    var r := s.requests[key];
    var s1 := s.(requests := s.requests - {key});
    if r.InFlight? then s1.(gates := s.gates[r.gate := Exit(s.gates[r.gate])]) else s1
  }

  /** Agent.stop: every registered child is stopped; `stopped` are those whose
      stop succeeds. */
  function DoSweep(s: State, stopped: set<Id>): State {
    s.(all := seq(|s.all|, h requires 0 <= h < |s.all| =>
         if s.all[h].id in stopped && Lookup(s.children, s.all[h].id) == Some(h)
         then s.all[h].(alive := false) else s.all[h]))
  }

  function Next(s: State, e: Event): State {
    if !Enabled(s, e) then s else
    match e
    case Ask(id, task) =>
      s.(waiting := s.waiting[s.asked := Waiter(id, task, false)], asked := s.asked + 1)
    case AbandonWaiter(k) => s.(waiting := s.waiting[k := s.waiting[k].(abandoned := true)])
    case Abandon(id) => s.(jobs := s.jobs[id := s.jobs[id].(abandoned := true)])
    case Acquire(k) => DoAcquire(s, k)
    case Reserve(id, busy, valid) => DoReserve(s, id, busy, valid)
    case IdleSeen(id) => GoTo(s, id, s.jobs[id].pc.(woken := true))
    case DrainEnds(id, timedOut) => DoDrainEnds(s, id, timedOut)
    case StopEnds(id, ok) => DoStopEnds(s, id, ok)
    case VerifyEnds(id, ok, spawned) => DoVerifyEnds(s, id, ok, spawned)
    case ReadyEnds(id, ok) => DoReadyEnds(s, id, ok)
    case Commit(id, saved) => DoCommit(s, id, saved)
    case Report(id) => Finish(s, id, Committed)
    case Persist(id, saved) => DoPersist(s, id, saved)
    case Forget(id, saved) => DoForget(s, id, saved)
    case CancelJob(id) => DoCancelJob(s, id)
    case ChildExits(h) => s.(all := s.all[h := s.all[h].(alive := false)])
    case Arrive(k, id) => DoArrive(s, k, id)
    case Body(k, sends) => DoBody(s, k, sends)
    case Leave(k) => DoLeave(s, k)
    case BeginStop => s.(stopping := true)
    case Sweep(stopped) => DoSweep(s, stopped)
  }

  function Run(s: State, events: seq<Event>): State
    decreases |events|
  {
    if events == [] then s else Run(Next(s, events[0]), events[1..])
  }
}
