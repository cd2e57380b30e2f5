/** What each step of the agent does to the requests in flight, their gates and the
    committed records. */
module InFlight {
  import opened Prelude
  import opened DeploymentModel
  import opened DeploymentInvariants
  import opened DeploymentSteps
  import opened DeploymentTheorems
  import opened DeploymentOutcomes

  ghost function Flying(requests: map<nat, Request>): map<nat, Request> {
    map k | k in requests && requests[k].InFlight? :: requests[k]
  }

  // ----- which step an event is -----

  /** A replacement, or a creation, makes its new gate and goes on. */
  predicate Restarts(s: State, e: Event) {
    match e
    case Reserve(id, busy, valid) =>
      && MayReserve(s, id) && !s.jobs[id].abandoned && valid && s.jobs[id].previous.None?
      && FirstFree(FIRST_PORT, Taken(s) + busy).Some?
    case DrainEnds(id, timedOut) => MayEndDrain(s, id, timedOut) && !s.jobs[id].abandoned && s.jobs[id].task.Replace?
    case _ => false
  }

  /** A creation is undone, or a removal is saved. */
  predicate Forgets(s: State, e: Event) {
    && OfJob(e) && Enabled(s, e)
    && if e.Forget? then e.saved
       else (e.StopEnds? || e.VerifyEnds? || e.ReadyEnds? || e.Commit?)
            && s.jobs[e.id].previous.None? && After(s, e) == At(UndoSaving)
  }

  /** The stop of a child without a record. */
  predicate StopsOrphan(s: State, e: Event) {
    e.StopEnds? && MayEndStop(s, e.id) && s.jobs[e.id].pc.OrphanStopping? && e.ok
  }

  predicate Commits(s: State, e: Event) {
    && e.Commit? && MayCommit(s, e.id)
    && var job := s.jobs[e.id]; !job.abandoned && Lives(s, job.pc.h) && e.saved
  }

  predicate Enters(s: State, e: Event) {
    e.Body? && MayTakeBody(s, e.key) && MaySend(s, s.requests[e.key]) && e.sends
  }

  predicate Leaves(s: State, e: Event) {
    e.Leave? && MayLeave(s, e.key) && s.requests[e.key].InFlight?
  }

  // ----- what it does -----

  /** Nothing but gates made on first use. */
  ghost predicate Calm(s: State, t: State) {
    && Flying(t.requests) == Flying(s.requests) && t.records == s.records
    && forall id :: Lookup(t.gate, id) == Lookup(s.gate, id)
                    || (id !in s.gate && id in t.gate && t.gate[id] >= |s.gates|)
  }

  /** A gate nobody is behind takes the place of the one there was. */
  ghost predicate Remade(s: State, t: State, id: Id) {
    Flying(t.requests) == Flying(s.requests) && t.records == s.records && t.gate == s.gate[id := |s.gates|]
  }

  ghost predicate Dropped(s: State, t: State, id: Id) {
    Flying(t.requests) == Flying(s.requests) && t.records == s.records - {id} && t.gate == s.gate - {id}
  }

  /** A record is committed while nobody is behind its gate. */
  ghost predicate Rewritten(s: State, t: State, id: Id) {
    && Flying(t.requests) == Flying(s.requests) && t.gate == s.gate
    && id in t.records && t.records == s.records[id := t.records[id]]
    && id in s.gate && forall k :: k in Flying(s.requests) ==> Flying(s.requests)[k].gate != s.gate[id]
  }

  /** A request enters, behind its deployment's gate and for its record. */
  ghost predicate Entered(s: State, t: State, key: nat) {
    && t.gate == s.gate && t.records == s.records
    && key !in Flying(s.requests) && key in Flying(t.requests)
    && Flying(t.requests) == Flying(s.requests)[key := Flying(t.requests)[key]]
    && var r := Flying(t.requests)[key];
       Lookup(s.gate, r.id) == Some(r.gate) && Lookup(s.records, r.id) == Some(r.record)
  }

  ghost predicate Gone(s: State, t: State, key: nat) {
    && t.gate == s.gate && t.records == s.records
    && key in Flying(s.requests) && Flying(t.requests) == Flying(s.requests) - {key}
  }

  // ----- event by event -----

  /** The requests, the records and the gates are those of `s`. */
  ghost predicate Alike(s: State, t: State) {
    t.requests == s.requests && t.records == s.records && t.gate == s.gate
  }

  ghost predicate AlikeBut(s: State, t: State, gate: map<Id, nat>) {
    t.requests == s.requests && t.records == s.records && t.gate == gate
  }

  lemma GoToAlike(s: State, id: Id, pc: Pc)
    requires id in s.jobs
    ensures Alike(s, GoTo(s, id, pc))
  {
  }

  lemma PausedAlike(s: State, id: Id, paused: bool)
    ensures Alike(s, SetPaused(s, id, paused)) && SetPaused(s, id, paused).jobs == s.jobs
  {
  }

  lemma ReadyAlike(s: State, h: nat, ready: bool)
    ensures var r := MarkReady(s, h, ready); r == s.(all := r.all)
  {
  }

  lemma FinishAlike(s: State, id: Id, outcome: Outcome)
    requires id in s.jobs
    ensures Alike(s, Finish(s, id, outcome))
  {
  }

  lemma DrainedGates(r: State, id: Id)
    requires id in r.jobs
    ensures AlikeBut(r, Drain(r, id), if id in r.gate then r.gate else r.gate[id := |r.gates|])
  {
    var s1 := DefaultGate(r, id);
    PausedAlike(s1, id, true);
    GoToAlike(SetPaused(s1, id, true), id, Draining(Paused(s1, id), false));
  }

  lemma ChangedGates(r: State, id: Id)
    requires id in r.jobs
    ensures AlikeBut(r, Change(r, id), r.gate[id := |r.gates|])
  {
    var s1 := NewGate(r, id, true);
    GoToAlike(s1, id, if id in r.children then Stopping(r.children[id]) else Verifying);
  }

  lemma UndoneGates(r: State, id: Id)
    requires id in r.jobs
    ensures AlikeBut(r, Undone(r, id), if r.jobs[id].previous.None? then r.gate - {id} else r.gate)
    ensures AlikeBut(r, Undo(r, id), if id !in r.children && r.jobs[id].previous.None? then r.gate - {id} else r.gate)
  {
  }

  /** The gates once a drain has begun. */
  function Drained(s: State, id: Id): map<Id, nat> {
    if id in s.gate then s.gate else s.gate[id := |s.gates|]
  }

  lemma AcquireEffect(s: State, key: nat)
    requires MayAcquire(s, key)
    ensures var w := s.waiting[key];
            AlikeBut(s, DoAcquire(s, key),
              if !w.abandoned && w.task.Remove? && w.id in s.records then Drained(s, w.id) else s.gate)
  {
    var w, r := s.waiting[key], Locked(s, key);
    DrainedGates(r, w.id);
    FinishAlike(r, w.id, Unchanged);
    FinishAlike(r, w.id, Absent);
    if w.id in s.children {
      GoToAlike(r, w.id, OrphanStopping(s.children[w.id]));
    }
  }

  /** A port was found. */
  lemma TakenEffect(s: State, id: Id, busy: set<int>, valid: bool, port: int, r: State)
    requires MayReserve(s, id) && !s.jobs[id].abandoned && r == Reserved(s, id, port)
    requires Some(port) == ReservedPort(s, s.jobs[id], busy)
    ensures var previous, t := s.jobs[id].previous, DoReserve(s, id, busy, valid);
            AlikeBut(s, t,
              if !valid then s.gate else if previous.Some? then Drained(s, id) else s.gate[id := |s.gates|])
  {
    if !valid {
      FinishAlike(r, id, Raised);
    } else if s.jobs[id].previous.Some? {
      DrainedGates(r, id);
    } else {
      ChangedGates(r, id);
    }
  }

  lemma ReserveEffect(s: State, id: Id, busy: set<int>, valid: bool)
    requires MayReserve(s, id)
    ensures var job, t := s.jobs[id], DoReserve(s, id, busy, valid);
            AlikeBut(s, t,
              if Restarts(s, Reserve(id, busy, valid)) then s.gate[id := |s.gates|]
              else if !job.abandoned && valid && job.previous.Some? then Drained(s, id)
              else s.gate)
  {
    var job := s.jobs[id];
    var port := ReservedPort(s, job, busy);
    if !job.abandoned && port.Some? {
      TakenEffect(s, id, busy, valid, port.value, Reserved(s, id, port.value));
    } else {
      FinishAlike(s, id, if job.abandoned then Unchanged else Raised);
    }
  }

  lemma DrainEndsEffect(s: State, id: Id, timedOut: bool)
    requires MayEndDrain(s, id, timedOut)
    ensures AlikeBut(s, DoDrainEnds(s, id, timedOut),
              if Restarts(s, DrainEnds(id, timedOut)) then s.gate[id := |s.gates|] else s.gate)
  {
    var job := s.jobs[id];
    PausedAlike(s, id, job.pc.was);
    FinishAlike(SetPaused(s, id, job.pc.was), id, Unchanged);
    ChangedGates(s, id);
    GoToAlike(s, id, if id in s.children then Stopping(s.children[id]) else AtForget);
  }

  lemma StopEndsEffect(s: State, id: Id, ok: bool)
    requires MayEndStop(s, id)
    requires s.jobs[id].pc.Stopping? ==> id in s.children
    ensures var e := StopEnds(id, ok);
            AlikeBut(s, DoStopEnds(s, id, ok), if Forgets(s, e) || StopsOrphan(s, e) then s.gate - {id} else s.gate)
  {
    var job := s.jobs[id];
    if ok {
      StoppedEffect(s, StopChild(s, id, job.pc.h), id);
    } else if job.pc.Stopping? && job.task.Replace? {
      UndoneGates(s, id);
    } else {
      FinishAlike(s, id, if job.pc.UndoStopping? then Failed else Raised);
    }
  }

  lemma StoppedEffect(s: State, r: State, id: Id)
    requires MayEndStop(s, id) && r == StopChild(s, id, s.jobs[id].pc.h)
    ensures var e := StopEnds(id, true);
            AlikeBut(s, DoStopEnds(s, id, true), if Forgets(s, e) || StopsOrphan(s, e) then s.gate - {id} else s.gate)
  {
    var job := s.jobs[id];
    if job.pc.Stopping? {
      GoToAlike(r, id, AfterStop(s, id, true).pc);
    } else if job.pc.UndoStopping? {
      UndoneGates(r, id);
    } else {
      FinishAlike(DropGate(r, id), id, DeploymentModel.Stopped);
    }
  }

  lemma VerifyEndsEffect(s: State, id: Id, ok: bool, spawned: bool)
    requires MayEndVerify(s, id)
    ensures AlikeBut(s, DoVerifyEnds(s, id, ok, spawned),
              if Forgets(s, VerifyEnds(id, ok, spawned)) then s.gate - {id} else s.gate)
  {
    var job := s.jobs[id];
    UndoneGates(s, id);
    FinishAlike(s, id, Failed);
    if job.pc.Verifying? {
      GoToAlike(Spawn(s, id, Candidate(job), ok), id, Loading(|s.all|));
    } else if job.previous.Some? {
      GoToAlike(Spawn(s, id, job.previous.value, ok), id, UndoLoading(|s.all|));
    }
  }

  lemma LoadedEffect(s: State, id: Id, ok: bool)
    requires MayEndReady(s, id) && s.jobs[id].pc.Loading?
    ensures AlikeBut(s, DoReadyEnds(s, id, ok), if Forgets(s, ReadyEnds(id, ok)) then s.gate - {id} else s.gate)
  {
    if ok {
      var h := s.jobs[id].pc.h;
      ReadyAlike(s, h, ok);
      GoToAlike(MarkReady(s, h, ok), id, AtCommit(h));
    } else {
      UndoneGates(s, id);
    }
  }

  lemma RestoredEffect(s: State, id: Id, ok: bool)
    requires MayEndReady(s, id) && s.jobs[id].pc.UndoLoading?
    ensures Alike(s, DoReadyEnds(s, id, ok))
  {
    if ok {
      var r := MarkReady(s, s.jobs[id].pc.h, ok);
      ReadyAlike(s, s.jobs[id].pc.h, ok);
      PausedAlike(r, id, false);
      GoToAlike(SetPaused(r, id, false), id, UndoSaving);
    } else {
      FinishAlike(s, id, Failed);
    }
  }

  lemma ReadyEndsEffect(s: State, id: Id, ok: bool)
    requires MayEndReady(s, id) && (s.jobs[id].pc.UndoLoading? ==> s.jobs[id].previous.Some?)
    ensures AlikeBut(s, DoReadyEnds(s, id, ok), if Forgets(s, ReadyEnds(id, ok)) then s.gate - {id} else s.gate)
  {
    if s.jobs[id].pc.Loading? {
      LoadedEffect(s, id, ok);
    } else {
      RestoredEffect(s, id, ok);
    }
  }

  lemma CommitEffect(s: State, id: Id, saved: bool)
    requires MayCommit(s, id)
    ensures var t, e := DoCommit(s, id, saved), Commit(id, saved);
            if Commits(s, e) then
              t.requests == s.requests && t.gate == s.gate && t.records == s.records[id := Candidate(s.jobs[id])]
            else AlikeBut(s, t, if Forgets(s, e) then s.gate - {id} else s.gate)
  {
    var job := s.jobs[id];
    if Commits(s, Commit(id, saved)) {
      var r := DeploymentSteps.Recorded(s, id, Note(id, Candidate(job), s.all[job.pc.h], job.abandoned));
      PausedAlike(r, id, false);
      GoToAlike(SetPaused(r, id, false), id, Reporting(job.pc.h));
    } else {
      UndoneGates(s, id);
    }
  }

  lemma ForgetEffect(s: State, id: Id, saved: bool)
    requires MayForget(s, id)
    ensures var t := DoForget(s, id, saved);
            if saved then t.requests == s.requests && t.gate == s.gate - {id} && t.records == s.records - {id}
            else Alike(s, t)
  {
    FinishAlike(s, id, Raised);
  }

  // ----- every event -----

  lemma AlikeIsCalm(s: State, t: State)
    requires Alike(s, t)
    ensures Calm(s, t)
  {
  }

  lemma FirstGateIsCalm(s: State, t: State, id: Id)
    requires AlikeBut(s, t, Drained(s, id))
    ensures Calm(s, t)
  {
    forall j
      ensures Lookup(t.gate, j) == Lookup(s.gate, j) || (j !in s.gate && j in t.gate && t.gate[j] >= |s.gates|)
    {
    }
  }

  lemma FlyingWithout(requests: map<nat, Request>, key: nat)
    ensures Flying(requests - {key}) == Flying(requests) - {key}
  {
  }

  lemma FlyingWith(requests: map<nat, Request>, key: nat, r: Request)
    requires key !in Flying(requests)
    ensures Flying(requests[key := r]) == if r.InFlight? then Flying(requests)[key := r] else Flying(requests)
  {
  }

  lemma ArriveEffect(s: State, key: nat, id: Id)
    requires key !in s.requests
    ensures var t := DoArrive(s, key, id);
            && t.records == s.records && (t.gate == s.gate || t.gate == Drained(s, id))
            && (t.requests == s.requests
                || (key in t.requests && t.requests[key].Reading? && t.requests == s.requests[key := t.requests[key]]))
  {
  }

  lemma ArriveIsCalm(s: State, key: nat, id: Id)
    requires key !in s.requests
    ensures Calm(s, DoArrive(s, key, id))
  {
    var t := DoArrive(s, key, id);
    ArriveEffect(s, key, id);
    if t.requests != s.requests {
      FlyingWith(s.requests, key, t.requests[key]);
    }
    FirstGateIsCalm(s, s.(gate := Drained(s, id)), id);
  }

  lemma SendEffect(s: State, key: nat)
    requires Inv(s) && MayTakeBody(s, key) && MaySend(s, s.requests[key])
    ensures Entered(s, DoBody(s, key, true), key)
  {
    var r := s.requests[key];
    SendIsSound(s, key);
    assert RequestOk(s, r);
    FlyingWith(s.requests, key, InFlight(r.id, r.record, r.gate, r.process));
  }

  lemma BodyEffect(s: State, key: nat, sends: bool)
    requires Inv(s) && MayTakeBody(s, key)
    ensures var t := DoBody(s, key, sends);
            if Enters(s, Body(key, sends)) then Entered(s, t, key) else Calm(s, t)
  {
    if Enters(s, Body(key, sends)) {
      SendEffect(s, key);
    } else {
      FlyingWithout(s.requests, key);
      assert Flying(s.requests) - {key} == Flying(s.requests);
    }
  }

  lemma LeaveEffect(s: State, key: nat)
    requires MayLeave(s, key)
    ensures if Leaves(s, Leave(key)) then Gone(s, DoLeave(s, key), key) else Calm(s, DoLeave(s, key))
  {
    FlyingWithout(s.requests, key);
    if !s.requests[key].InFlight? {
      assert Flying(s.requests) - {key} == Flying(s.requests);
    }
  }

  // ----- the whole step -----

  lemma JobFacts(s: State, id: Id)
    requires Inv(s) && id in s.jobs
    ensures var job := s.jobs[id];
            && (!job.pc.Reporting? ==> Lookup(s.records, id) == job.previous)
            && (job.pc.Stopping? ==> id in s.children)
            && (job.pc.UndoLoading? ==> job.previous.Some?)
            && (job.pc.OrphanStopping? ==> job.previous.None?)
            && (job.pc.AtCommit? ==> id in s.gate && Behind(s.requests, s.gate[id]) == {})
  {
    var job := s.jobs[id];
    assert ViewOk(ViewOf(s, id));
    if job.pc.AtCommit? {
      assert |Behind(s.requests, s.gate[id])| == 0;
    }
  }

  /** What an event does, by the step it is. */
  ghost predicate Does(s: State, e: Event, t: State) {
    if Restarts(s, e) then Remade(s, t, e.id)
    else if Forgets(s, e) || StopsOrphan(s, e) then Dropped(s, t, e.id)
    else if Commits(s, e) then Rewritten(s, t, e.id)
    else if Enters(s, e) then Entered(s, t, e.key)
    else if Leaves(s, e) then Gone(s, t, e.key)
    else Calm(s, t)
  }

  /** The gate goes where there is no record. */
  lemma DropDoes(s: State, e: Event, t: State)
    requires e.StopEnds? || e.VerifyEnds? || e.ReadyEnds? || (e.Commit? && !Commits(s, e))
    requires Forgets(s, e) || StopsOrphan(s, e) ==> e.id !in s.records
    requires AlikeBut(s, t, if Forgets(s, e) || StopsOrphan(s, e) then s.gate - {e.id} else s.gate)
    ensures Does(s, e, t)
  {
    if Forgets(s, e) || StopsOrphan(s, e) {
      assert s.records - {e.id} == s.records;
    } else {
      AlikeIsCalm(s, t);
    }
  }

  lemma ReserveDoes(s: State, id: Id, busy: set<int>, valid: bool)
    requires MayReserve(s, id)
    ensures Does(s, Reserve(id, busy, valid), DoReserve(s, id, busy, valid))
  {
    var t := DoReserve(s, id, busy, valid);
    ReserveEffect(s, id, busy, valid);
    if t.gate == s.gate {
      AlikeIsCalm(s, t);
    } else if !Restarts(s, Reserve(id, busy, valid)) {
      FirstGateIsCalm(s, t, id);
    }
  }

  lemma DrainEndsDoes(s: State, id: Id, timedOut: bool)
    requires MayEndDrain(s, id, timedOut)
    ensures Does(s, DrainEnds(id, timedOut), DoDrainEnds(s, id, timedOut))
  {
    DrainEndsEffect(s, id, timedOut);
    if !Restarts(s, DrainEnds(id, timedOut)) {
      AlikeIsCalm(s, DoDrainEnds(s, id, timedOut));
    }
  }

  lemma StopEndsDoes(s: State, id: Id, ok: bool)
    requires Inv(s) && MayEndStop(s, id)
    ensures Does(s, StopEnds(id, ok), DoStopEnds(s, id, ok))
  {
    JobFacts(s, id);
    StopEndsEffect(s, id, ok);
    DropDoes(s, StopEnds(id, ok), DoStopEnds(s, id, ok));
  }

  lemma VerifyEndsDoes(s: State, id: Id, ok: bool, spawned: bool)
    requires Inv(s) && MayEndVerify(s, id)
    ensures Does(s, VerifyEnds(id, ok, spawned), DoVerifyEnds(s, id, ok, spawned))
  {
    JobFacts(s, id);
    VerifyEndsEffect(s, id, ok, spawned);
    DropDoes(s, VerifyEnds(id, ok, spawned), DoVerifyEnds(s, id, ok, spawned));
  }

  lemma ReadyEndsDoes(s: State, id: Id, ok: bool)
    requires Inv(s) && MayEndReady(s, id)
    ensures Does(s, ReadyEnds(id, ok), DoReadyEnds(s, id, ok))
  {
    JobFacts(s, id);
    ReadyEndsEffect(s, id, ok);
    DropDoes(s, ReadyEnds(id, ok), DoReadyEnds(s, id, ok));
  }

  lemma CommitDoes(s: State, id: Id, saved: bool)
    requires Inv(s) && MayCommit(s, id)
    ensures Does(s, Commit(id, saved), DoCommit(s, id, saved))
  {
    JobFacts(s, id);
    CommitEffect(s, id, saved);
    if Commits(s, Commit(id, saved)) {
      NobodyBehind(s.requests, s.gate[id]);
    } else {
      DropDoes(s, Commit(id, saved), DoCommit(s, id, saved));
    }
  }

  lemma NobodyBehind(requests: map<nat, Request>, g: nat)
    requires Behind(requests, g) == {}
    ensures forall k :: k in Flying(requests) ==> Flying(requests)[k].gate != g
  {
    forall k | k in Flying(requests) ensures Flying(requests)[k].gate != g {
      assert k !in Behind(requests, g);
    }
  }

  lemma ForgetDoes(s: State, id: Id, saved: bool)
    requires MayForget(s, id)
    ensures Does(s, Forget(id, saved), DoForget(s, id, saved))
  {
    ForgetEffect(s, id, saved);
    if !saved {
      AlikeIsCalm(s, DoForget(s, id, saved));
    }
  }

  lemma AcquireDoes(s: State, key: nat)
    requires MayAcquire(s, key)
    ensures Does(s, Acquire(key), DoAcquire(s, key))
  {
    AcquireEffect(s, key);
    if DoAcquire(s, key).gate == s.gate {
      AlikeIsCalm(s, DoAcquire(s, key));
    } else {
      FirstGateIsCalm(s, DoAcquire(s, key), s.waiting[key].id);
    }
  }

  predicate Ends(e: Event) {
    e.Abandon? || e.IdleSeen? || e.Report? || e.Persist? || e.CancelJob?
  }

  lemma EndAlike(s: State, e: Event)
    requires Enabled(s, e) && Ends(e)
    ensures Alike(s, Next(s, e))
  {
    match e
    case Abandon(id) =>
    case IdleSeen(id) => GoToAlike(s, id, s.jobs[id].pc.(woken := true));
    case Report(id) => FinishAlike(s, id, DeploymentModel.Committed);
    case Persist(id, saved) => PersistAlike(s, id, saved);
    case CancelJob(id) => FinishAlike(s, id, if s.jobs[id].pc.Reporting? then DeploymentModel.Committed else Raised);
  }

  lemma PersistAlike(s: State, id: Id, saved: bool)
    requires MayPersist(s, id)
    ensures Alike(s, DoPersist(s, id, saved))
  {
  }

  predicate Aside(e: Event) {
    e.Ask? || e.AbandonWaiter? || e.ChildExits? || e.BeginStop? || e.Sweep?
  }

  lemma AsideAlike(s: State, e: Event)
    requires Enabled(s, e) && Aside(e)
    ensures Alike(s, Next(s, e))
  {
  }

  lemma QuietIsCalm(s: State, e: Event)
    requires !Enabled(s, e) || Ends(e) || Aside(e)
    ensures Calm(s, Next(s, e))
  {
    if Enabled(s, e) && Ends(e) {
      EndAlike(s, e);
    } else if Enabled(s, e) {
      AsideAlike(s, e);
    }
    AlikeIsCalm(s, Next(s, e));
  }

  lemma QuietIsNone(s: State, e: Event)
    requires !Enabled(s, e) || Ends(e) || Aside(e)
    ensures !Restarts(s, e) && !Forgets(s, e) && !StopsOrphan(s, e)
    ensures !Commits(s, e) && !Enters(s, e) && !Leaves(s, e)
  {
  }

  lemma QuietDoes(s: State, e: Event, t: State)
    requires !Enabled(s, e) || Ends(e) || Aside(e)
    requires Calm(s, t)
    ensures Does(s, e, t)
  {
    QuietIsNone(s, e);
  }

  lemma RequestDoes(s: State, e: Event)
    requires Inv(s) && Enabled(s, e) && (e.Arrive? || e.Body? || e.Leave?)
    ensures Does(s, e, Next(s, e))
  {
    match e
    case Arrive(key, id) => ArriveIsCalm(s, key, id);
    case Body(key, sends) => BodyEffect(s, key, sends);
    case Leave(key) => LeaveEffect(s, key);
  }

  lemma RollbackDoes(s: State, e: Event)
    requires Inv(s) && Enabled(s, e) && (e.StopEnds? || e.VerifyEnds? || e.ReadyEnds? || e.Commit?)
    ensures Does(s, e, Next(s, e))
  {
    match e
    case StopEnds(id, ok) => StopEndsDoes(s, id, ok);
    case VerifyEnds(id, ok, spawned) => VerifyEndsDoes(s, id, ok, spawned);
    case ReadyEnds(id, ok) => ReadyEndsDoes(s, id, ok);
    case Commit(id, saved) => CommitDoes(s, id, saved);
  }

  lemma GateDoes(s: State, e: Event)
    requires Enabled(s, e) && (e.Acquire? || e.Reserve? || e.DrainEnds? || e.Forget?)
    ensures Does(s, e, Next(s, e))
  {
    match e
    case Acquire(key) => AcquireDoes(s, key);
    case Reserve(id, busy, valid) => ReserveDoes(s, id, busy, valid);
    case DrainEnds(id, timedOut) => DrainEndsDoes(s, id, timedOut);
    case Forget(id, saved) => ForgetDoes(s, id, saved);
  }

  /** What every event does to the requests in flight, the gates and the records. */
  lemma NextDoes(s: State, e: Event)
    requires Inv(s)
    ensures Does(s, e, Next(s, e))
  {
    if !Enabled(s, e) || Ends(e) || Aside(e) {
      QuietIsCalm(s, e);
      QuietDoes(s, e, Next(s, e));
    } else if e.Arrive? || e.Body? || e.Leave? {
      RequestDoes(s, e);
    } else if e.StopEnds? || e.VerifyEnds? || e.ReadyEnds? || e.Commit? {
      RollbackDoes(s, e);
    } else {
      GateDoes(s, e);
    }
  }

  // ----- the record a request in flight was sent for -----

  /** The request is behind the current gate of its deployment. */
  predicate IsBehind(r: Request, gate: map<Id, nat>) {
    Lookup(gate, r.id) == Some(r.gate)
  }

  ghost predicate SentForRecord(s: State) {
    forall k :: k in Flying(s.requests) ==>
      var r := Flying(s.requests)[k]; IsBehind(r, s.gate) ==> Lookup(s.records, r.id) == Some(r.record)
  }

  lemma FlyingOk(s: State, k: nat)
    requires Inv(s) && k in Flying(s.requests)
    ensures Flying(s.requests)[k].gate < |s.gates|
  {
    assert RequestOk(s, s.requests[k]);
  }

  lemma StillSent(s: State, e: Event, t: State, k: nat)
    requires Does(s, e, t) && k in Flying(s.requests) && Flying(s.requests)[k].gate < |s.gates|
    requires IsBehind(Flying(s.requests)[k], t.gate)
    ensures IsBehind(Flying(s.requests)[k], s.gate)
    ensures Lookup(t.records, Flying(s.requests)[k].id) == Lookup(s.records, Flying(s.requests)[k].id)
  {
  }

  /** The requests in flight are those of before, but for one that enters. */
  lemma FliesOn(s: State, e: Event, t: State, k: nat)
    requires Does(s, e, t) && k in Flying(t.requests)
    ensures if k in Flying(s.requests) then Flying(t.requests)[k] == Flying(s.requests)[k] else Entered(s, t, k)
  {
  }

  lemma NextSentForRecord(s: State, e: Event, t: State)
    requires Inv(s) && SentForRecord(s) && t == Next(s, e)
    ensures SentForRecord(t)
  {
    NextDoes(s, e);
    forall k | k in Flying(t.requests) && IsBehind(Flying(t.requests)[k], t.gate)
      ensures var r := Flying(t.requests)[k]; Lookup(t.records, r.id) == Some(r.record)
    {
      FliesOn(s, e, t, k);
      if k in Flying(s.requests) {
        FlyingOk(s, k);
        StillSent(s, e, t, k);
      }
    }
  }

  lemma {:induction false} RunSentForRecord(s: State, events: seq<Event>)
    requires Inv(s) && SentForRecord(s)
    ensures SentForRecord(Run(s, events))
    decreases |events|
  {
    if events != [] {
      NextIsValid(s, events[0]);
      NextSentForRecord(s, events[0], Next(s, events[0]));
      RunSentForRecord(Next(s, events[0]), events[1..]);
    }
  }

  /** In every run a request in flight behind its deployment's current gate was sent
      for the record that is still the committed one: a record changes, or goes, only
      with its gate or while nobody is behind it. */
  lemma BehindTheGateForItsRecord(s: State, events: seq<Event>, k: nat)
    requires Init(s)
    requires var t := Run(s, events);
             k in t.requests && t.requests[k].InFlight? && IsBehind(t.requests[k], t.gate)
    ensures var t := Run(s, events); Lookup(t.records, t.requests[k].id) == Some(t.requests[k].record)
  {
    InitKeeps(s);
    RunSentForRecord(s, events);
    assert k in Flying(Run(s, events).requests);
  }

  // ----- a request at the proxy -----

  lemma RollbackLeavesRequests(s: State, e: Event)
    requires Inv(s) && Enabled(s, e) && (e.StopEnds? || e.VerifyEnds? || e.ReadyEnds? || e.Commit?)
    ensures Next(s, e).requests == s.requests
  {
    JobFacts(s, e.id);
    match e
    case StopEnds(id, ok) => StopEndsEffect(s, id, ok);
    case VerifyEnds(id, ok, spawned) => VerifyEndsEffect(s, id, ok, spawned);
    case ReadyEnds(id, ok) => ReadyEndsEffect(s, id, ok);
    case Commit(id, saved) => CommitEffect(s, id, saved);
  }

  lemma GatesLeaveRequests(s: State, e: Event)
    requires Enabled(s, e) && (e.Acquire? || e.Reserve? || e.DrainEnds? || e.Forget?)
    ensures Next(s, e).requests == s.requests
  {
    match e
    case Acquire(key) => AcquireEffect(s, key);
    case Reserve(id, busy, valid) => ReserveEffect(s, id, busy, valid);
    case DrainEnds(id, timedOut) => DrainEndsEffect(s, id, timedOut);
    case Forget(id, saved) => ForgetEffect(s, id, saved);
  }

  /** The event is the request's own. */
  predicate Touches(e: Event, key: nat) {
    (e.Body? || e.Leave?) && e.key == key
  }

  lemma TransitionsLeaveRequests(s: State, e: Event)
    requires Inv(s) && !e.Arrive? && !e.Body? && !e.Leave?
    ensures Next(s, e).requests == s.requests
  {
    if Enabled(s, e) {
      if e.Acquire? || e.Reserve? || e.DrainEnds? || e.Forget? {
        GatesLeaveRequests(s, e);
      } else if e.StopEnds? || e.VerifyEnds? || e.ReadyEnds? || e.Commit? {
        RollbackLeavesRequests(s, e);
      } else if Ends(e) {
        EndAlike(s, e);
      } else {
        AsideAlike(s, e);
      }
    }
  }

  lemma BodyLeavesOthers(s: State, key: nat, sends: bool, k: nat)
    requires MayTakeBody(s, key) && k in s.requests && k != key
    ensures var t := DoBody(s, key, sends); k in t.requests && t.requests[k] == s.requests[k]
  {
  }

  lemma LeaveLeavesOthers(s: State, key: nat, k: nat)
    requires MayLeave(s, key) && k in s.requests && k != key
    ensures var t := DoLeave(s, key); k in t.requests && t.requests[k] == s.requests[k]
  {
  }

  lemma RequestsLeaveEachOther(s: State, e: Event, key: nat)
    requires key in s.requests && (e.Arrive? || e.Body? || e.Leave?) && !Touches(e, key)
    ensures key in Next(s, e).requests && Next(s, e).requests[key] == s.requests[key]
  {
    if Enabled(s, e) {
      match e
      case Arrive(k, id) => ArriveEffect(s, k, id);
      case Body(k, sends) => BodyLeavesOthers(s, k, sends, key);
      case Leave(k) => LeaveLeavesOthers(s, k, key);
    }
  }

  lemma OthersLeaveRequest(s: State, e: Event, key: nat)
    requires Inv(s) && key in s.requests && !Touches(e, key)
    ensures key in Next(s, e).requests && Next(s, e).requests[key] == s.requests[key]
  {
    if e.Arrive? || e.Body? || e.Leave? {
      RequestsLeaveEachOther(s, e, key);
    } else {
      TransitionsLeaveRequests(s, e);
    }
  }

  predicate Untouched(events: seq<Event>, key: nat) {
    forall i :: 0 <= i < |events| ==> !Touches(events[i], key)
  }

  lemma {:induction false} RequestStays(s: State, events: seq<Event>, key: nat)
    requires Inv(s) && key in s.requests && Untouched(events, key)
    ensures var t := Run(s, events); Inv(t) && key in t.requests && t.requests[key] == s.requests[key]
    decreases |events|
  {
    if events != [] {
      OthersLeaveRequest(s, events[0], key);
      NextIsValid(s, events[0]);
      RequestStays(Next(s, events[0]), events[1..], key);
    }
  }

  /** The deployment has a record, its gate is not closed, and a child is registered. */
  predicate Admits(s: State, id: Id) {
    id in s.records && id in s.children && !(id in s.gate && s.gate[id] < |s.gates| && s.gates[s.gate[id]].paused)
  }

  /** In every run a request that arrives goes on to wait for its body if and only if
      its deployment admits it, with the committed record, the current gate and the
      registered child. */
  lemma WaitsForItsBodyExactlyWhen(s: State, events: seq<Event>, key: nat, id: Id)
    requires Init(s) && key !in Run(s, events).requests
    ensures var t, u := Run(s, events), Next(Run(s, events), Arrive(key, id));
            && (key in u.requests <==> Admits(t, id))
            && (key in u.requests ==>
                  && id in u.gate && (id in t.gate ==> u.gate[id] == t.gate[id])
                  && u.requests[key] == Reading(id, t.records[id], u.gate[id], t.children[id])
                  && u.gate[id] < |u.gates| && !u.gates[u.gate[id]].paused)
  {
    Reached(s, events);
    ArrivalWaits(Run(s, events), key, id);
  }

  lemma ArrivalWaits(t: State, key: nat, id: Id)
    requires Shape(t) && key !in t.requests
    ensures var u := Next(t, Arrive(key, id));
            && (key in u.requests <==> Admits(t, id))
            && (key in u.requests ==>
                  && id in u.gate && (id in t.gate ==> u.gate[id] == t.gate[id])
                  && u.requests[key] == Reading(id, t.records[id], u.gate[id], t.children[id])
                  && u.gate[id] < |u.gates| && !u.gates[u.gate[id]].paused)
  {
  }

  /** The child that was read is the one registered, and lives; the gate is open. */
  predicate MayReach(v: State, r: Request) {
    && r.gate < |v.gates| && !v.gates[r.gate].paused
    && Lookup(v.children, r.id) == Some(r.process) && r.process < |v.all| && v.all[r.process].alive
  }

  /** The request is behind its gate, on its way to its child. */
  predicate Reaches(v: State, w: State, key: nat, r: Request) {
    && key in w.requests && w.requests[key] == InFlight(r.id, r.record, r.gate, r.process)
    && r.gate < |v.gates| && |w.gates| == |v.gates| && w.gates[r.gate].requests == v.gates[r.gate].requests + 1
  }

  /** And in every run that follows it goes through, behind its gate and to its child,
      if and only if by then the gate is open, the child it read is the one registered
      and lives, and it could be sent; else it is turned away. */
  lemma GoesThroughExactlyWhen(s: State, before: seq<Event>, key: nat, id: Id, between: seq<Event>, sends: bool,
      u: State, v: State)
    requires Init(s) && key !in Run(s, before).requests && u == Next(Run(s, before), Arrive(key, id))
    requires key in u.requests && Untouched(between, key) && v == Run(u, between)
    ensures var r, w := u.requests[key], Next(v, Body(key, sends));
            && key in v.requests && v.requests[key] == r
            && (key in w.requests <==> sends && MayReach(v, r))
            && (sends && MayReach(v, r) ==> Reaches(v, w, key, r))
  {
    Reached(s, before);
    NextIsValid(Run(s, before), Arrive(key, id));
    ArrivalWaits(Run(s, before), key, id);
    RequestStays(u, between, key);
    assert RequestOk(v, v.requests[key]);
    BodyGoesThrough(v, key, sends);
  }

  lemma BodyGoesThrough(v: State, key: nat, sends: bool)
    requires key in v.requests && v.requests[key].Reading? && v.requests[key].gate < |v.gates|
    ensures var r, w := v.requests[key], Next(v, Body(key, sends));
            && (key in w.requests <==> sends && MayReach(v, r))
            && (sends && MayReach(v, r) ==> Reaches(v, w, key, r))
  {
  }
}
