/**
  What every step of every transition keeps, and the parts steps are made of.

  The invariant has four parts: references are in range and no live child or
  open gate is forgotten (`Shape`), ports are held by one deployment each
  (`PortsOk`), gates count the requests behind them (`CountsOk`), and each
  deployment, seen alone (`ViewOk`), is where its transition's program counter
  says.  A step of one deployment leaves every other one's view as it was, so
  `ViewOk` is proved one view at a time.
*/
module DeploymentInvariants {
  import opened Prelude
  import opened DeploymentModel

  // ----- one deployment seen alone -----

  datatype View = View(record: Option<Record>, handle: Option<nat>, child: Option<Child>, gate: Option<Gate>,
      job: Option<Job>)

  ghost function ViewOf(s: State, id: Id): View {
    View(Lookup(s.records, id), Lookup(s.children, id),
         if id in s.children && s.children[id] < |s.all| then Some(s.all[s.children[id]]) else None,
         if id in s.gate && s.gate[id] < |s.gates| then Some(s.gates[s.gate[id]]) else None,
         Lookup(s.jobs, id))
  }

  /** A recorded deployment's child, if one is registered, runs its record. */
  ghost predicate Matches(v: View) {
    v.record.Some? && v.child.Some? ==> v.child.value.record == v.record.value
  }

  ghost predicate Closed(v: View) {
    v.gate.Some? && v.gate.value.paused
  }

  /** A gate that was made closed and has been so since: no request is behind it. */
  ghost predicate Unused(v: View) {
    Closed(v) && v.gate.value.requests == 0
  }

  ghost predicate Open(v: View) {
    v.gate.Some? && !v.gate.value.paused
  }

  ghost predicate Runs(v: View, h: nat, record: Record) {
    v.handle == Some(h) && v.child.Some? && v.child.value.record == record
  }

  /** The files of the child's record were checked before it started, and it has
      been ready. */
  ghost predicate Confirmed(v: View) {
    v.child.Some? && v.child.value.verified && v.child.value.ready
  }

  ghost predicate JobOk(v: View, job: Job) {
    && v.record == (if job.pc.Reporting? then Some(Candidate(job)) else job.previous)
    && (job.port.Some? <==> job.task.Replace? && !job.pc.AtRecords?)
    && (job.port.Some? && job.previous.Some? ==> job.port.value == job.previous.value.port)
    && match job.pc
       case AtRecords =>
         job.task.Replace? && v.handle == job.child && Closed(v) == job.paused
       case Draining(was, woken) =>
         && job.previous.Some? && Closed(v) && was == job.paused && v.handle == job.child
         && (!was ==> Matches(v)) && (woken ==> v.gate.value.requests == 0)
       case Stopping(h) =>
         && Closed(v) && v.handle == Some(h)
         && (if job.task.Remove? then job.previous.Some? else Unused(v))
       case Verifying => job.task.Replace? && Unused(v) && v.handle.None?
       case Loading(h) => job.task.Replace? && Unused(v) && Runs(v, h, Candidate(job)) && v.child.value.verified
       case AtCommit(h) =>
         job.task.Replace? && Unused(v) && Runs(v, h, Candidate(job)) && Confirmed(v)
       case Reporting(h) => job.task.Replace? && Open(v) && Runs(v, h, Candidate(job)) && Confirmed(v)
       case UndoStopping(h) => job.task.Replace? && Closed(v) && v.handle == Some(h)
       case UndoVerifying => job.task.Replace? && Closed(v) && v.handle.None? && job.previous.Some?
       case UndoLoading(h) =>
         job.task.Replace? && Closed(v) && job.previous.Some? && Runs(v, h, job.previous.value)
           && v.child.value.verified
       case UndoSaving =>
         && job.task.Replace?
         && (job.previous.None? ==> v.handle.None? && v.gate.None?)
         && (job.previous.Some? ==>
              Open(v) && v.handle.Some? && Runs(v, v.handle.value, job.previous.value) && Confirmed(v))
       case OrphanStopping(h) => job.task.Remove? && job.previous.None? && v.handle == Some(h)
       case AtForget => job.task.Remove? && job.previous.Some? && Closed(v) && v.handle.None?
  }

  ghost predicate ViewOk(v: View) {
    && (v.record.Some? && !Closed(v) ==> Matches(v))
    && (Open(v) ==> v.record.Some?)
    && (v.job.None? || JobOk(v, v.job.value))
  }

  /** What an outcome promises about the deployment, seen as the transition
      returns. */
  ghost predicate EndOk(w: View, job: Job, outcome: Outcome) {
    match outcome
    case Unchanged => w.record == job.previous && w.handle == job.child && Closed(w) == job.paused
    case Committed =>
      && job.task.Replace? && w.record == Some(Candidate(job)) && Open(w)
      && w.handle.Some? && Runs(w, w.handle.value, Candidate(job)) && Confirmed(w)
    case RolledBack =>
      && job.task.Replace? && w.record == job.previous
      && (job.previous.None? ==> w.handle.None? && w.gate.None?)
      && (job.previous.Some? ==>
            Open(w) && w.handle.Some? && Runs(w, w.handle.value, job.previous.value) && Confirmed(w))
    case Failed => job.task.Replace? && w.record == job.previous
    case Stopped => job.task.Remove? && w.record.None? && w.handle.None? && w.gate.None?
    case Absent => job.task.Remove? && w.record.None? && w.handle.None?
    case Raised => w.record == job.previous
  }

  // ----- the invariant -----

  ghost predicate Shape(s: State) {
    && (forall id :: id in s.children ==> s.children[id] < |s.all| && s.all[s.children[id]].id == id)
    && (forall id :: id in s.gate ==> s.gate[id] < |s.gates| && s.gates[s.gate[id]].owner == id)
    && (forall h :: 0 <= h < |s.all| && s.all[h].alive ==> Lookup(s.children, s.all[h].id) == Some(h))
    && (forall g :: 0 <= g < |s.gates| && !s.gates[g].paused ==> Lookup(s.gate, s.gates[g].owner) == Some(g))
    && s.disk == s.records
  }

  /** A deployment holds a port by its record, its registered child or its
      reservation. */
  ghost predicate Holds(v: View, port: int) {
    || (v.record.Some? && v.record.value.port == port)
    || (v.child.Some? && v.child.value.record.port == port)
    || (v.job.Some? && v.job.value.port == Some(port))
  }

  ghost predicate HasReserved(s: State, p: int) {
    exists id :: id in s.jobs && s.jobs[id].port == Some(p)
  }

  ghost predicate PortsOk(s: State) {
    && (forall p :: p in s.reservations <==> HasReserved(s, p))
    && (forall i, j, p :: Holds(ViewOf(s, i), p) && Holds(ViewOf(s, j), p) ==> i == j)
    && (forall i :: !Holds(ViewOf(s, i), s.agentPort))
  }

  ghost function Behind(requests: map<nat, Request>, g: nat): set<nat> {
    set k | k in requests && requests[k].InFlight? && requests[k].gate == g
  }

  ghost predicate RequestOk(s: State, r: Request) {
    && r.gate < |s.gates| && s.gates[r.gate].owner == r.id
    && r.process < |s.all| && s.all[r.process].id == r.id && s.all[r.process].record == r.record
  }

  ghost predicate CountsOk(s: State) {
    && (forall k :: k in s.requests ==> RequestOk(s, s.requests[k]))
    && (forall g :: 0 <= g < |s.gates| ==>
          s.gates[g].requests == |Behind(s.requests, g)| && (s.gates[g].idle <==> s.gates[g].requests == 0))
  }

  ghost predicate Inv(s: State) {
    Shape(s) && PortsOk(s) && CountsOk(s) && forall id :: ViewOk(ViewOf(s, id))
  }

  // ----- what a step does to what is past -----

  /** No child is forgotten, revived or turned into another, and none starts
      once the agent stops. */
  ghost predicate Remembers(s: State, t: State) {
    && |s.all| <= |t.all|
    && (forall h :: 0 <= h < |s.all| ==>
          t.all[h].id == s.all[h].id && t.all[h].record == s.all[h].record && (t.all[h].alive ==> s.all[h].alive))
    && (s.stopping ==> t.stopping && |t.all| == |s.all|)
  }

  /** Gates stay, and the closed ones do not fill. */
  ghost predicate NeverFills(s: State, t: State) {
    && |s.gates| <= |t.gates|
    && forall g :: 0 <= g < |s.gates| && s.gates[g].paused ==> t.gates[g].requests <= s.gates[g].requests
  }

  /** What was true of a record when it was committed. */
  ghost predicate NoteOk(n: Note) {
    n.child.id == n.id && n.child.record == n.record && n.child.verified && n.child.ready && n.child.alive
      && !n.abandoned
  }

  ghost predicate Noted(notes: seq<Note>, id: Id, record: Record) {
    exists n :: n in notes && n.id == id && n.record == record && NoteOk(n)
  }

  /** A record is there already or is committed, soundly. */
  ghost predicate RecordsGrow(s: State, t: State) {
    && (forall n :: n in s.notes ==> n in t.notes)
    && forall id :: id in t.records ==>
         Lookup(s.records, id) == Some(t.records[id]) || Noted(t.notes, id, t.records[id])
  }

  /** The transitions that ended in a step, at most one, ended as they say. */
  ghost predicate EndsWell(s: State, t: State) {
    t.endings == s.endings
    || (&& |t.endings| == |s.endings| + 1 && t.endings[..|s.endings|] == s.endings
        && var e := t.endings[|s.endings|]; EndOk(ViewOf(t, e.id), e.job, e.outcome))
  }

  ghost predicate StepOk(s: State, t: State) {
    Inv(t) && Remembers(s, t) && NeverFills(s, t) && RecordsGrow(s, t) && EndsWell(s, t)
  }

  // ----- parts of a step of one deployment -----

  /** The requests stay where they are; gates may be added. */
  ghost predicate SameRequests(s: State, t: State) {
    && t.requests == s.requests && |s.gates| <= |t.gates|
    && (forall g :: 0 <= g < |s.gates| ==>
          t.gates[g].owner == s.gates[g].owner && t.gates[g].requests == s.gates[g].requests
            && t.gates[g].idle == s.gates[g].idle)
    && (forall g :: |s.gates| <= g < |t.gates| ==> t.gates[g].requests == 0 && t.gates[g].idle)
  }

  /** Part of a step of `id`: every other deployment looks the same, requests
      stay where they were, and nothing is reserved, given back or ended. */
  ghost predicate Part(s: State, t: State, id: Id) {
    && Shape(t) && t.agentPort == s.agentPort && t.reservations == s.reservations
    && t.waiting == s.waiting && t.asked == s.asked && t.endings == s.endings
    && (forall j :: j != id ==> ViewOf(t, j) == ViewOf(s, j))
    && SameRequests(s, t) && Remembers(s, t) && RecordsGrow(s, t)
  }

  lemma PartThenPart(s: State, t: State, u: State, id: Id)
    requires Part(s, t, id) && Part(t, u, id)
    ensures Part(s, u, id)
  {
    forall j | j != id ensures ViewOf(u, j) == ViewOf(s, j) {
      assert ViewOf(t, j) == ViewOf(s, j);
    }
    forall j | j in u.records
      ensures Lookup(s.records, j) == Some(u.records[j]) || Noted(u.notes, j, u.records[j])
    {
      if Noted(t.notes, j, u.records[j]) {
        var n :| n in t.notes && n.id == j && n.record == u.records[j] && NoteOk(n);
        assert n in u.notes;
      }
    }
  }

  lemma SetPausedPart(s: State, id: Id, paused: bool)
    requires Shape(s) && ViewOf(s, id).gate.Some?
    ensures Part(s, SetPaused(s, id, paused), id) && Shape(SetPaused(s, id, paused))
    ensures var v := ViewOf(s, id);
            ViewOf(SetPaused(s, id, paused), id) == v.(gate := Some(v.gate.value.(paused := paused)))
  {
  }

  lemma NewGateShape(s: State, id: Id, paused: bool)
    requires Shape(s) && !Open(ViewOf(s, id))
    ensures Shape(NewGate(s, id, paused))
  {
    var t := NewGate(s, id, paused);
    forall g | 0 <= g < |t.gates| && !t.gates[g].paused ensures Lookup(t.gate, t.gates[g].owner) == Some(g) {
      assert g < |s.gates| ==> t.gates[g] == s.gates[g] && Lookup(s.gate, s.gates[g].owner) == Some(g);
    }
  }

  lemma NewGatePart(s: State, id: Id, paused: bool)
    requires Shape(s) && !Open(ViewOf(s, id))
    ensures Part(s, NewGate(s, id, paused), id) && Shape(NewGate(s, id, paused))
    ensures ViewOf(NewGate(s, id, paused), id) == ViewOf(s, id).(gate := Some(Gate(id, paused, 0, true)))
  {
    NewGateShape(s, id, paused);
  }

  lemma DropGatePart(s: State, id: Id)
    requires Shape(s) && !Open(ViewOf(s, id))
    ensures Part(s, DropGate(s, id), id) && Shape(DropGate(s, id))
    ensures ViewOf(DropGate(s, id), id) == ViewOf(s, id).(gate := None)
  {
  }

  lemma StopChildPart(s: State, id: Id, h: nat)
    requires Shape(s) && ViewOf(s, id).handle == Some(h)
    ensures Part(s, StopChild(s, id, h), id) && Shape(StopChild(s, id, h))
    ensures ViewOf(StopChild(s, id, h), id) == ViewOf(s, id).(handle := None, child := None)
  {
  }

  lemma SpawnShape(s: State, id: Id, record: Record, verified: bool)
    requires Shape(s) && id !in s.children
    ensures Shape(Spawn(s, id, record, verified))
  {
    var t := Spawn(s, id, record, verified);
    forall h | 0 <= h < |t.all| && t.all[h].alive ensures Lookup(t.children, t.all[h].id) == Some(h) {
      assert h < |s.all| ==> t.all[h] == s.all[h] && Lookup(s.children, s.all[h].id) == Some(h);
    }
  }

  lemma SpawnPart(s: State, id: Id, record: Record, verified: bool)
    requires Shape(s) && ViewOf(s, id).handle.None? && !s.stopping
    ensures Part(s, Spawn(s, id, record, verified), id) && Shape(Spawn(s, id, record, verified))
    ensures ViewOf(Spawn(s, id, record, verified), id)
         == ViewOf(s, id).(handle := Some(|s.all|), child := Some(Child(id, record, true, verified, false)))
  {
    SpawnShape(s, id, record, verified);
  }

  lemma MarkReadyPart(s: State, id: Id, h: nat, ready: bool)
    requires Shape(s) && ViewOf(s, id).handle == Some(h) && ViewOf(s, id).child.Some?
    ensures Part(s, MarkReady(s, h, ready), id) && Shape(MarkReady(s, h, ready))
    ensures var v := ViewOf(s, id);
            ViewOf(MarkReady(s, h, ready), id) == v.(child := Some(v.child.value.(ready := ready)))
  {
  }

  lemma GoToPart(s: State, id: Id, pc: Pc)
    requires Shape(s) && id in s.jobs
    ensures Part(s, GoTo(s, id, pc), id) && Shape(GoTo(s, id, pc))
    ensures ViewOf(GoTo(s, id, pc), id) == ViewOf(s, id).(job := Some(s.jobs[id].(pc := pc)))
  {
  }

  /** The records, in memory and on disk, with one entry changed. */
  lemma RecordPart(s: State, id: Id, records: map<Id, Record>, notes: seq<Note>)
    requires Shape(s) && forall j :: j != id ==> Lookup(records, j) == Lookup(s.records, j)
    requires forall n :: n in s.notes ==> n in notes
    requires id in records ==> Noted(notes, id, records[id])
    ensures var t := s.(records := records, disk := records, notes := notes);
            Part(s, t, id) && Shape(t) && ViewOf(t, id) == ViewOf(s, id).(record := Lookup(records, id))
  {
  }

  lemma DrainPart(s: State, id: Id)
    requires Shape(s) && id in s.jobs
    ensures Part(s, Drain(s, id), id)
    ensures var v, w := ViewOf(s, id), ViewOf(Drain(s, id), id);
            w == v.(gate := w.gate, job := Some(s.jobs[id].(pc := Draining(Closed(v), false)))) && Closed(w)
  {
    var s1 := DefaultGate(s, id);
    if id !in s.gate { NewGatePart(s, id, false); }
    SetPausedPart(s1, id, true);
    var s2 := SetPaused(s1, id, true);
    GoToPart(s2, id, Draining(Paused(s1, id), false));
    PartThenPart(s1, s2, Drain(s, id), id);
    if id !in s.gate { PartThenPart(s, s1, Drain(s, id), id); }
  }

  lemma ChangePart(s: State, id: Id)
    requires Shape(s) && id in s.jobs && !Open(ViewOf(s, id))
    ensures Part(s, Change(s, id), id)
    ensures var v, w := ViewOf(s, id), ViewOf(Change(s, id), id);
            && w == v.(gate := w.gate, job := Some(s.jobs[id].(pc := AfterDrain(v))))
            && Unused(w)
  {
    var s1 := NewGate(s, id, true);
    NewGatePart(s, id, true);
    GoToPart(s1, id, AfterDrain(ViewOf(s, id)));
    PartThenPart(s, s1, Change(s, id), id);
  }

  ghost function AfterDrain(v: View): Pc {
    if v.handle.Some? then Stopping(v.handle.value) else Verifying
  }

  /** A rollback may begin wherever the gate is closed and the record is the
      previous one. */
  ghost predicate MayUndo(v: View) {
    && v.job.Some? && v.job.value.task.Replace? && v.record == v.job.value.previous && Closed(v)
    && v.job.value.port.Some? && (v.record.Some? ==> v.job.value.port.value == v.record.value.port)
  }

  lemma UndoneView(v: View, w: View)
    requires MayUndo(v) && v.handle.None? && v.child.None?
    requires w == if v.job.value.previous.None? then v.(gate := None, job := Some(v.job.value.(pc := UndoSaving)))
                  else v.(job := Some(v.job.value.(pc := UndoVerifying)))
    ensures GoesOn(v, w)
  {
  }

  lemma UndonePart(s: State, id: Id)
    requires Shape(s) && id in s.jobs && MayUndo(ViewOf(s, id)) && id !in s.children
    ensures Part(s, Undone(s, id), id)
    ensures GoesOn(ViewOf(s, id), ViewOf(Undone(s, id), id))
  {
    if s.jobs[id].previous.None? {
      DropGatePart(s, id);
      GoToPart(DropGate(s, id), id, UndoSaving);
      PartThenPart(s, DropGate(s, id), Undone(s, id), id);
    } else {
      GoToPart(s, id, UndoVerifying);
    }
    UndoneView(ViewOf(s, id), ViewOf(Undone(s, id), id));
  }

  lemma UndoPart(s: State, id: Id)
    requires Shape(s) && id in s.jobs && MayUndo(ViewOf(s, id))
    ensures Part(s, Undo(s, id), id)
    ensures GoesOn(ViewOf(s, id), ViewOf(Undo(s, id), id))
  {
    if id in s.children {
      GoToPart(s, id, UndoStopping(s.children[id]));
    } else {
      UndonePart(s, id);
    }
  }

  // ----- a deployment goes from one view to another -----

  ghost function PortOf(v: View): Option<int> {
    if v.job.Some? then v.job.value.port else None
  }

  ghost predicate HoldsOnly(w: View, v: View) {
    forall p :: Holds(w, p) ==> Holds(v, p)
  }

  /** It is the same transition, abandoned still if it was, and it comes to
      report only if it was not. */
  ghost predicate Follows(v: Option<Job>, w: Option<Job>) {
    v.Some? && w.Some? ==>
      && w.value.key == v.value.key
      && (v.value.abandoned ==> w.value.abandoned)
      && (w.value.pc.Reporting? ==> v.value.pc.Reporting? || !v.value.abandoned)
  }

  /** From `v` to `w` a deployment's transition goes on and stays in order. */
  ghost predicate GoesOn(v: View, w: View) {
    ViewOk(w) && HoldsOnly(w, v) && PortOf(w) == PortOf(v) && Follows(v.job, w.job)
  }

  /** From `v` to `w` a deployment's transition goes on and may then return. */
  ghost predicate MayFinish(v: View, w: View, outcome: Outcome) {
    && ViewOk(w.(job := None)) && HoldsOnly(w, v) && PortOf(w) == PortOf(v) && Follows(v.job, w.job)
    && w.job.Some? && EndOk(w.(job := None), w.job.value, outcome)
    && (outcome == Committed ==> w.job.value.pc.Reporting?)
  }

  lemma SameRequestsKeepsCounts(s: State, t: State)
    requires CountsOk(s) && SameRequests(s, t) && Remembers(s, t)
    ensures CountsOk(t)
  {
    forall g | 0 <= g < |t.gates|
      ensures t.gates[g].requests == |Behind(t.requests, g)|
    {
      if g >= |s.gates| {
        assert Behind(t.requests, g) == {};
      }
    }
  }

  /** What `id` holds after a step it held before, or nobody did. */
  ghost predicate HoldsNoOthers(s: State, t: State, id: Id) {
    forall p :: Holds(ViewOf(t, id), p) ==>
      Holds(ViewOf(s, id), p) || (p != s.agentPort && forall j :: !Holds(ViewOf(s, j), p))
  }

  ghost function PortSet(v: View): set<int> {
    if PortOf(v).Some? then {PortOf(v).value} else {}
  }

  lemma PortsKept(s: State, t: State, id: Id)
    requires PortsOk(s) && t.agentPort == s.agentPort
    requires forall j :: j != id ==> ViewOf(t, j) == ViewOf(s, j)
    requires HoldsNoOthers(s, t, id)
    requires t.reservations == s.reservations - PortSet(ViewOf(s, id)) + PortSet(ViewOf(t, id))
    ensures PortsOk(t)
  {
    forall p ensures p in t.reservations <==> HasReserved(t, p) {
      ReservationKept(s, t, id, p);
    }
    forall i, j, p | Holds(ViewOf(t, i), p) && Holds(ViewOf(t, j), p)
      ensures i == j
    {
      assert i == id || ViewOf(t, i) == ViewOf(s, i);
      assert j == id || ViewOf(t, j) == ViewOf(s, j);
    }
    forall i ensures !Holds(ViewOf(t, i), t.agentPort) {
      assert !Holds(ViewOf(s, i), s.agentPort);
    }
  }

  lemma ReservationKept(s: State, t: State, id: Id, p: int)
    requires PortsOk(s)
    requires forall j :: j != id ==> ViewOf(t, j) == ViewOf(s, j)
    requires t.reservations == s.reservations - PortSet(ViewOf(s, id)) + PortSet(ViewOf(t, id))
    ensures p in t.reservations <==> HasReserved(t, p)
  {
    if HasReserved(s, p) && PortOf(ViewOf(s, id)) != Some(p) {
      var j :| j in s.jobs && s.jobs[j].port == Some(p);
      assert ViewOf(t, j) == ViewOf(s, j);
      assert j in t.jobs && t.jobs[j].port == Some(p);
    }
    if PortOf(ViewOf(t, id)) == Some(p) {
      assert id in t.jobs && t.jobs[id].port == Some(p);
    }
    if HasReserved(t, p) && PortOf(ViewOf(t, id)) != Some(p) {
      var j :| j in t.jobs && t.jobs[j].port == Some(p);
      assert ViewOf(t, j) == ViewOf(s, j);
      assert j in s.jobs && s.jobs[j].port == Some(p);
      assert Holds(ViewOf(s, j), p);
      assert PortOf(ViewOf(s, id)) == Some(p) ==> Holds(ViewOf(s, id), p);
    }
  }

  /** A deployment that takes no port keeps the ports in order. */
  lemma PortsSame(s: State, t: State, id: Id)
    requires PortsOk(s) && t.agentPort == s.agentPort && t.reservations == s.reservations
    requires forall j :: j != id ==> ViewOf(t, j) == ViewOf(s, j)
    requires HoldsOnly(ViewOf(t, id), ViewOf(s, id)) && PortOf(ViewOf(t, id)) == PortOf(ViewOf(s, id))
    ensures PortsOk(t)
  {
    assert PortOf(ViewOf(s, id)).Some? ==> HasReserved(s, PortOf(ViewOf(s, id)).value);
    PortsKept(s, t, id);
  }

  /** The transition of `id` goes on: the state is the same transition's, or
      that with its ending. */
  ghost predicate Advances(s: State, t: State, id: Id) {
    && t.waiting == s.waiting && t.asked == s.asked
    && (forall j :: j != id ==> Lookup(t.jobs, j) == Lookup(s.jobs, j))
    && (id in t.jobs ==> t.endings == s.endings && Follows(Lookup(s.jobs, id), Lookup(t.jobs, id)))
    && (id !in t.jobs && id in s.jobs ==>
          exists e: Ending :: t.endings == s.endings + [e] && EndsJob(e, s.jobs[id]))
  }

  ghost predicate EndsJob(e: Ending, job: Job) {
    e.job.key == job.key && (e.outcome == Committed ==> job.pc.Reporting? || !job.abandoned)
  }

  /** Where only `id` looks different, every deployment is in order if `id` is. */
  lemma ViewsKept(s: State, t: State, id: Id)
    requires forall j :: ViewOk(ViewOf(s, j))
    requires forall j :: j != id ==> ViewOf(t, j) == ViewOf(s, j)
    requires ViewOk(ViewOf(t, id))
    ensures forall j :: ViewOk(ViewOf(t, j))
  {
    forall j ensures ViewOk(ViewOf(t, j)) {
      assert ViewOk(ViewOf(s, j));
    }
  }

  lemma PartKeeps(s: State, t: State, id: Id)
    requires Inv(s) && Part(s, t, id) && GoesOn(ViewOf(s, id), ViewOf(t, id))
    ensures StepOk(s, t)
    ensures id in t.jobs ==> Advances(s, t, id)
  {
    SameRequestsKeepsCounts(s, t);
    PortsSame(s, t, id);
    ViewsKept(s, t, id);
    forall j | j != id ensures Lookup(t.jobs, j) == Lookup(s.jobs, j) {
      assert ViewOf(t, j) == ViewOf(s, j);
    }
    assert Follows(ViewOf(s, id).job, ViewOf(t, id).job);
  }

  lemma FinishViews(t: State, id: Id, outcome: Outcome)
    requires id in t.jobs
    ensures var u := Finish(t, id, outcome);
            && ViewOf(u, id) == ViewOf(t, id).(job := None)
            && (forall j :: j != id ==> ViewOf(u, j) == ViewOf(t, j))
  {
  }

  lemma FinishKeeps(s: State, t: State, id: Id, outcome: Outcome)
    requires Inv(s) && Part(s, t, id) && id in t.jobs && MayFinish(ViewOf(s, id), ViewOf(t, id), outcome)
    ensures StepOk(s, Finish(t, id, outcome))
    ensures id in s.jobs ==> Advances(s, Finish(t, id, outcome), id)
  {
    var u := Finish(t, id, outcome);
    FinishViews(t, id, outcome);
    forall j | j != id ensures ViewOf(u, j) == ViewOf(s, j) {
      assert ViewOf(t, j) == ViewOf(s, j);
    }
    SameRequestsKeepsCounts(s, u);
    forall p | Holds(ViewOf(u, id), p) ensures Holds(ViewOf(s, id), p) {
      assert Holds(ViewOf(t, id), p);
    }
    PortsKept(s, u, id);
    ViewsKept(s, u, id);
    FinishAdvances(s, t, id, outcome);
  }

  lemma FinishAdvances(s: State, t: State, id: Id, outcome: Outcome)
    requires Part(s, t, id) && id in t.jobs && MayFinish(ViewOf(s, id), ViewOf(t, id), outcome)
    ensures id in s.jobs ==> Advances(s, Finish(t, id, outcome), id)
  {
    var u := Finish(t, id, outcome);
    FinishViews(t, id, outcome);
    forall j | j != id ensures Lookup(u.jobs, j) == Lookup(s.jobs, j) {
      assert ViewOf(u, j) == ViewOf(t, j) == ViewOf(s, j);
    }
    var e := Ending(id, t.jobs[id], outcome);
    assert Follows(ViewOf(s, id).job, ViewOf(t, id).job);
    if id in s.jobs {
      assert u.endings == s.endings + [e] && EndsJob(e, s.jobs[id]);
    }
  }
}
