/**
  Every event keeps the invariant, forgets nothing, lets every transition end as
  it says, and commits only sound records (`StepOk`); and a transition stays the
  one it was (`Advances`).  For each event there is a lemma about the view of the
  deployment whose transition takes the step, and one about the states.
*/
module DeploymentSteps {
  import opened Prelude
  import opened DeploymentModel
  import opened DeploymentInvariants

  /** A step of the transition that holds the lock of `id`. */
  ghost predicate Moves(s: State, t: State, id: Id) {
    StepOk(s, t) && Advances(s, t, id)
  }

  // ----- returning, being abandoned -----

  lemma ReturnView(v: View, outcome: Outcome)
    requires ViewOk(v) && v.job.Some? && EndOk(v.(job := None), v.job.value, outcome)
    requires outcome == Committed ==> v.job.value.pc.Reporting?
    ensures MayFinish(v, v, outcome)
  {
  }

  lemma RaisedView(v: View)
    requires ViewOk(v) && v.job.Some? && !v.job.value.pc.Reporting?
    ensures EndOk(v.(job := None), v.job.value, Raised)
    ensures v.job.value.task.Replace? ==> EndOk(v.(job := None), v.job.value, Failed)
  {
  }

  lemma SamePart(s: State, id: Id)
    requires Inv(s)
    ensures Part(s, s, id)
  {
  }

  lemma ReturnKeeps(s: State, id: Id, outcome: Outcome)
    requires Inv(s) && id in s.jobs && EndOk(ViewOf(s, id).(job := None), s.jobs[id], outcome)
    requires outcome == Committed ==> s.jobs[id].pc.Reporting?
    ensures Moves(s, Finish(s, id, outcome), id)
  {
    assert ViewOk(ViewOf(s, id));
    ReturnView(ViewOf(s, id), outcome);
    SamePart(s, id);
    FinishKeeps(s, s, id, outcome);
  }

  lemma FailKeeps(s: State, id: Id, outcome: Outcome)
    requires Inv(s) && id in s.jobs && !s.jobs[id].pc.Reporting?
    requires outcome == Raised || (outcome == Failed && s.jobs[id].task.Replace?)
    ensures Moves(s, Finish(s, id, outcome), id)
  {
    assert ViewOk(ViewOf(s, id));
    RaisedView(ViewOf(s, id));
    ReturnKeeps(s, id, outcome);
  }

  lemma AbandonView(v: View, w: View)
    requires ViewOk(v) && v.job.Some? && w == v.(job := Some(v.job.value.(abandoned := true)))
    ensures GoesOn(v, w)
  {
  }

  function Abandoned(s: State, id: Id): State
    requires id in s.jobs
  {
    s.(jobs := s.jobs[id := s.jobs[id].(abandoned := true)])
  }

  lemma AbandonKeeps(s: State, id: Id)
    requires Inv(s) && id in s.jobs
    ensures Moves(s, Abandoned(s, id), id)
  {
    var t := Abandoned(s, id);
    assert ViewOk(ViewOf(s, id));
    JobPart(s, id, s.jobs[id].(abandoned := true));
    AbandonView(ViewOf(s, id), ViewOf(t, id));
    PartKeeps(s, t, id);
  }

  // ----- acquiring the lock -----

  /** The state with the lock taken. */
  function Locked(s: State, key: nat): State
    requires key in s.waiting
  {
    var w := s.waiting[key];
    var job := Job(key, w.task, w.abandoned, Lookup(s.records, w.id), Lookup(s.children, w.id), Paused(s, w.id), None,
      AtRecords);
    s.(waiting := s.waiting - {key}, jobs := s.jobs[w.id := job])
  }

  /** The lock was free: its taking is part of the step. */
  ghost predicate Fresh(v: View, job: Job) {
    && ViewOk(v) && v.job.None?
    && job.previous == v.record && job.child == v.handle && job.paused == Closed(v)
    && job.port.None? && job.pc.AtRecords?
  }

  function NotWaiting(s: State, key: nat): State {
    s.(waiting := s.waiting - {key})
  }

  lemma LockedPart(s: State, key: nat)
    requires Inv(s) && key in s.waiting && s.waiting[key].id !in s.jobs
    ensures var id, t := s.waiting[key].id, Locked(s, key);
            && Inv(NotWaiting(s, key)) && Part(NotWaiting(s, key), t, id) && Shape(t)
            && ViewOf(NotWaiting(s, key), id) == ViewOf(s, id)
            && ViewOf(t, id) == ViewOf(s, id).(job := Some(t.jobs[id])) && Fresh(ViewOf(s, id), t.jobs[id])
  {
    var id := s.waiting[key].id;
    AsideKeeps(s, NotWaiting(s, key));
    JobPart(NotWaiting(s, key), id, Locked(s, key).jobs[id]);
    assert ViewOk(ViewOf(s, id));
  }

  lemma JobPart(s: State, id: Id, job: Job)
    requires Shape(s)
    ensures var t := s.(jobs := s.jobs[id := job]);
            Part(s, t, id) && Shape(t) && ViewOf(t, id) == ViewOf(s, id).(job := Some(job))
  {
  }

  lemma NotWaitingStep(s: State, key: nat, t: State)
    requires StepOk(NotWaiting(s, key), t)
    ensures StepOk(s, t)
  {
  }

  lemma AcquireView(v: View, job: Job, w: View)
    requires Fresh(v, job) && job.task.Replace? && w == v.(job := Some(job))
    ensures GoesOn(v, w)
  {
  }

  lemma AcquireDrainView(v: View, job: Job, w: View)
    requires Fresh(v, job) && job.task.Remove? && v.record.Some? && Closed(w)
    requires w == v.(gate := w.gate, job := Some(job.(pc := Draining(Closed(v), false))))
    ensures GoesOn(v, w)
  {
  }

  lemma AcquireOrphanView(v: View, job: Job, w: View, h: nat)
    requires Fresh(v, job) && job.task.Remove? && v.record.None? && v.handle == Some(h)
    requires w == v.(job := Some(job.(pc := OrphanStopping(h))))
    ensures GoesOn(v, w)
  {
  }

  lemma AcquireReturnView(v: View, job: Job, w: View)
    requires Fresh(v, job) && w == v.(job := Some(job))
    ensures MayFinish(v, w, Unchanged) && MayFinish(w, w, Unchanged)
    ensures job.task.Remove? && v.record.None? && v.handle.None? ==> MayFinish(v, w, Absent) && MayFinish(w, w, Absent)
  {
  }

  lemma PartAdvances(s: State, t: State, id: Id)
    requires Part(s, t, id) && id in t.jobs && Follows(Lookup(s.jobs, id), Lookup(t.jobs, id))
    ensures Advances(s, t, id)
  {
    forall j | j != id ensures Lookup(t.jobs, j) == Lookup(s.jobs, j) {
      assert ViewOf(t, j) == ViewOf(s, j);
    }
  }

  /** A step that takes a lock moves on from the state with the lock taken. */
  ghost predicate MovesFromLock(s: State, key: nat, t: State)
    requires key in s.waiting
  {
    StepOk(s, t) && Advances(Locked(s, key), t, s.waiting[key].id)
  }

  lemma AcquireReturnKeeps(s: State, key: nat, outcome: Outcome)
    requires Inv(s) && MayAcquire(s, key)
    requires var v := ViewOf(s, s.waiting[key].id);
             outcome == Unchanged || (outcome == Absent && s.waiting[key].task.Remove? && v.record.None?
               && v.handle.None?)
    ensures MovesFromLock(s, key, Finish(Locked(s, key), s.waiting[key].id, outcome))
  {
    var id, r, t := s.waiting[key].id, NotWaiting(s, key), Locked(s, key);
    LockedPart(s, key);
    AcquireReturnView(ViewOf(s, id), t.jobs[id], ViewOf(t, id));
    FinishKeeps(r, t, id, outcome);
    NotWaitingStep(s, key, Finish(t, id, outcome));
    assert Part(t, t, id);
    FinishAdvances(t, t, id, outcome);
  }

  lemma AcquireDrainKeeps(s: State, key: nat)
    requires Inv(s) && MayAcquire(s, key) && s.waiting[key].task.Remove? && s.waiting[key].id in s.records
    ensures MovesFromLock(s, key, Drain(Locked(s, key), s.waiting[key].id))
  {
    var id, r, t := s.waiting[key].id, NotWaiting(s, key), Locked(s, key);
    var u := Drain(t, id);
    LockedPart(s, key);
    DrainPart(t, id);
    PartThenPart(r, t, u, id);
    AcquireDrainView(ViewOf(s, id), t.jobs[id], ViewOf(u, id));
    PartKeeps(r, u, id);
    NotWaitingStep(s, key, u);
    PartAdvances(t, u, id);
  }

  lemma AcquireOrphanKeeps(s: State, key: nat)
    requires Inv(s) && MayAcquire(s, key) && s.waiting[key].task.Remove?
    requires s.waiting[key].id !in s.records && s.waiting[key].id in s.children
    ensures MovesFromLock(s, key, GoTo(Locked(s, key), s.waiting[key].id,
            OrphanStopping(s.children[s.waiting[key].id])))
  {
    var id, r, t := s.waiting[key].id, NotWaiting(s, key), Locked(s, key);
    var u := GoTo(t, id, OrphanStopping(s.children[id]));
    LockedPart(s, key);
    GoToPart(t, id, OrphanStopping(s.children[id]));
    PartThenPart(r, t, u, id);
    AcquireOrphanView(ViewOf(s, id), t.jobs[id], ViewOf(u, id), s.children[id]);
    PartKeeps(r, u, id);
    NotWaitingStep(s, key, u);
    PartAdvances(t, u, id);
  }

  lemma AcquireReplaceKeeps(s: State, key: nat)
    requires Inv(s) && MayAcquire(s, key) && s.waiting[key].task.Replace?
    ensures MovesFromLock(s, key, Locked(s, key))
  {
    var id, r, t := s.waiting[key].id, NotWaiting(s, key), Locked(s, key);
    LockedPart(s, key);
    AcquireView(ViewOf(s, id), t.jobs[id], ViewOf(t, id));
    PartKeeps(r, t, id);
    NotWaitingStep(s, key, t);
  }

  lemma AcquireKeeps(s: State, key: nat)
    requires Inv(s) && MayAcquire(s, key)
    ensures MovesFromLock(s, key, DoAcquire(s, key))
  {
    var w := s.waiting[key];
    if w.abandoned {
      AcquireReturnKeeps(s, key, Unchanged);
    } else if w.task.Replace? {
      AcquireReplaceKeeps(s, key);
    } else if w.id in s.records {
      AcquireDrainKeeps(s, key);
    } else if w.id in s.children {
      AcquireOrphanKeeps(s, key);
    } else {
      AcquireReturnKeeps(s, key, Absent);
    }
  }

  // ----- the drain -----

  lemma DrainAbandonedView(v: View, w: View)
    requires ViewOk(v) && v.job.Some? && v.job.value.pc.Draining?
    requires v.gate.Some? && w == v.(gate := Some(v.gate.value.(paused := v.job.value.pc.was)))
    ensures MayFinish(v, w, Unchanged)
  {
  }

  lemma DrainedReplaceView(v: View, w: View)
    requires ViewOk(v) && v.job.Some? && v.job.value.pc.Draining? && v.job.value.task.Replace?
    requires w == v.(gate := w.gate, job := Some(v.job.value.(pc := AfterDrain(v)))) && Unused(w)
    ensures GoesOn(v, w)
  {
  }

  lemma DrainedRemoveView(v: View, w: View)
    requires ViewOk(v) && v.job.Some? && v.job.value.pc.Draining? && v.job.value.task.Remove?
    requires w == v.(job := Some(v.job.value.(pc := if v.handle.Some? then Stopping(v.handle.value) else AtForget)))
    ensures GoesOn(v, w)
  {
  }

  lemma DrainingIsClosed(v: View)
    requires ViewOk(v) && v.job.Some? && v.job.value.pc.Draining?
    ensures Closed(v)
  {
  }

  lemma DrainAbandonedKeeps(s: State, id: Id)
    requires Inv(s) && id in s.jobs && s.jobs[id].pc.Draining?
    ensures Moves(s, Finish(SetPaused(s, id, s.jobs[id].pc.was), id, Unchanged), id)
  {
    var was := s.jobs[id].pc.was;
    var u := SetPaused(s, id, was);
    assert ViewOk(ViewOf(s, id));
    DrainingIsClosed(ViewOf(s, id));
    SetPausedPart(s, id, was);
    DrainAbandonedView(ViewOf(s, id), ViewOf(u, id));
    FinishKeeps(s, u, id, Unchanged);
  }

  lemma DrainEndsKeeps(s: State, id: Id, timedOut: bool)
    requires Inv(s) && MayEndDrain(s, id, timedOut)
    ensures Moves(s, DoDrainEnds(s, id, timedOut), id)
  {
    var job, v, t := s.jobs[id], ViewOf(s, id), DoDrainEnds(s, id, timedOut);
    assert ViewOk(v);
    DrainingIsClosed(v);
    if job.abandoned {
      DrainAbandonedKeeps(s, id);
    } else if job.task.Replace? {
      ChangePart(s, id);
      DrainedReplaceView(v, ViewOf(t, id));
      PartKeeps(s, t, id);
    } else {
      DrainedRemoveKeeps(s, id, if id in s.children then Stopping(s.children[id]) else AtForget);
    }
  }

  lemma DrainedRemoveKeeps(s: State, id: Id, pc: Pc)
    requires Inv(s) && id in s.jobs && s.jobs[id].pc.Draining? && s.jobs[id].task.Remove?
    requires pc == if id in s.children then Stopping(s.children[id]) else AtForget
    ensures Moves(s, GoTo(s, id, pc), id)
  {
    var t := GoTo(s, id, pc);
    assert ViewOk(ViewOf(s, id));
    GoToPart(s, id, pc);
    DrainedRemoveView(ViewOf(s, id), ViewOf(t, id));
    PartKeeps(s, t, id);
  }

  lemma IdleSeenView(v: View, w: View)
    requires ViewOk(v) && v.job.Some? && v.job.value.pc.Draining? && v.gate.Some? && v.gate.value.requests == 0
    requires w == v.(job := Some(v.job.value.(pc := v.job.value.pc.(woken := true))))
    ensures GoesOn(v, w)
  {
  }

  lemma IdleSeenKeeps(s: State, id: Id)
    requires Inv(s) && MaySeeIdle(s, id)
    ensures Moves(s, GoTo(s, id, s.jobs[id].pc.(woken := true)), id)
  {
    var t := GoTo(s, id, s.jobs[id].pc.(woken := true));
    assert ViewOk(ViewOf(s, id));
    GoToPart(s, id, s.jobs[id].pc.(woken := true));
    IdleSeenView(ViewOf(s, id), ViewOf(t, id));
    PartKeeps(s, t, id);
  }

  // ----- rollback -----

  lemma ReplacingMayUndo(v: View)
    requires ViewOk(v) && v.job.Some? && v.job.value.task.Replace?
    requires var pc := v.job.value.pc; pc.Stopping? || pc.Verifying? || pc.Loading? || pc.AtCommit?
    ensures MayUndo(v)
  {
  }

  lemma UndoKeeps(s: State, id: Id)
    requires Inv(s) && id in s.jobs && s.jobs[id].task.Replace?
    requires var pc := s.jobs[id].pc; pc.Stopping? || pc.Verifying? || pc.Loading? || pc.AtCommit?
    ensures Moves(s, Undo(s, id), id)
  {
    assert ViewOk(ViewOf(s, id));
    ReplacingMayUndo(ViewOf(s, id));
    UndoPart(s, id);
    PartKeeps(s, Undo(s, id), id);
  }

  // ----- stopping -----

  /** The child whose stop a transition awaits is the one registered. */
  lemma StopTarget(v: View)
    requires ViewOk(v) && v.job.Some?
    ensures var pc := v.job.value.pc; pc.Stopping? || pc.UndoStopping? || pc.OrphanStopping? ==> v.handle == Some(pc.h)
  {
  }

  lemma StoppedView(v: View, w: View)
    requires ViewOk(v) && v.job.Some? && v.job.value.pc.Stopping?
    requires w == v.(handle := None, child := None,
                     job := Some(v.job.value.(pc := if v.job.value.task.Replace? then Verifying else AtForget)))
    ensures GoesOn(v, w)
  {
  }

  lemma UndoStoppedView(v: View, u: View, w: View)
    requires ViewOk(v) && v.job.Some? && v.job.value.pc.UndoStopping?
    requires u == v.(handle := None, child := None)
    ensures MayUndo(u) && (GoesOn(u, w) ==> GoesOn(v, w))
  {
  }

  lemma OrphanStoppedView(v: View, u: View, w: View)
    requires ViewOk(v) && v.job.Some? && v.job.value.pc.OrphanStopping?
    requires u == v.(handle := None, child := None) && w == u.(gate := None)
    ensures MayFinish(v, w, DeploymentModel.Stopped) && !Open(u)
  {
  }

  lemma StopSucceedsKeeps(s: State, id: Id)
    requires Inv(s) && MayEndStop(s, id) && s.jobs[id].pc.Stopping?
    ensures Moves(s, DoStopEnds(s, id, true), id)
  {
    var job, v, t := s.jobs[id], ViewOf(s, id), DoStopEnds(s, id, true);
    var u := StopChild(s, id, job.pc.h);
    assert ViewOk(v);
    StopTarget(v);
    StopChildPart(s, id, job.pc.h);
    GoToPart(u, id, t.jobs[id].pc);
    PartThenPart(s, u, t, id);
    StoppedView(v, ViewOf(t, id));
    PartKeeps(s, t, id);
  }

  lemma OrphanStopSucceedsKeeps(s: State, id: Id)
    requires Inv(s) && MayEndStop(s, id) && s.jobs[id].pc.OrphanStopping?
    ensures Moves(s, DoStopEnds(s, id, true), id)
  {
    var v, u := ViewOf(s, id), StopChild(s, id, s.jobs[id].pc.h);
    var w := DropGate(u, id);
    assert ViewOk(v);
    StopTarget(v);
    StopChildPart(s, id, s.jobs[id].pc.h);
    OrphanStoppedView(v, ViewOf(u, id), ViewOf(u, id).(gate := None));
    DropGatePart(u, id);
    PartThenPart(s, u, w, id);
    FinishKeeps(s, w, id, DeploymentModel.Stopped);
  }

  lemma UndoStopSucceedsKeeps(s: State, id: Id)
    requires Inv(s) && MayEndStop(s, id) && s.jobs[id].pc.UndoStopping?
    ensures Moves(s, DoStopEnds(s, id, true), id)
  {
    var t := Undone(StopChild(s, id, s.jobs[id].pc.h), id);
    assert DoStopEnds(s, id, true) == t;
    UndoStoppedKeeps(s, id, t);
  }

  lemma UndoStoppedKeeps(s: State, id: Id, t: State)
    requires Inv(s) && MayEndStop(s, id) && s.jobs[id].pc.UndoStopping?
    requires t == Undone(StopChild(s, id, s.jobs[id].pc.h), id)
    ensures Moves(s, t, id)
  {
    var v, h := ViewOf(s, id), s.jobs[id].pc.h;
    var u := StopChild(s, id, h);
    assert ViewOk(v);
    StopTarget(v);
    StopChildPart(s, id, h);
    UndoStoppedView(v, ViewOf(u, id), ViewOf(t, id));
    UndonePart(u, id);
    PartThenPart(s, u, t, id);
    PartKeeps(s, t, id);
  }

  lemma StopEndsKeeps(s: State, id: Id, ok: bool)
    requires Inv(s) && MayEndStop(s, id)
    ensures Moves(s, DoStopEnds(s, id, ok), id)
  {
    var job := s.jobs[id];
    assert ViewOk(ViewOf(s, id));
    if ok && job.pc.UndoStopping? {
      UndoStopSucceedsKeeps(s, id);
    } else if ok && job.pc.Stopping? {
      StopSucceedsKeeps(s, id);
    } else if ok {
      OrphanStopSucceedsKeeps(s, id);
    } else if job.pc.Stopping? && job.task.Replace? {
      UndoKeeps(s, id);
    } else {
      FailKeeps(s, id, if job.pc.UndoStopping? then Failed else Raised);
    }
  }

  // ----- verifying and starting -----

  lemma StartedView(v: View, h: nat, child: Child, w: View)
    requires ViewOk(v) && v.job.Some? && v.job.value.pc.Verifying?
    requires child.record == Candidate(v.job.value) && child.verified
    requires w == v.(handle := Some(h), child := Some(child), job := Some(v.job.value.(pc := Loading(h))))
    ensures GoesOn(v, w)
  {
  }

  lemma RestartedView(v: View, h: nat, child: Child, w: View)
    requires ViewOk(v) && v.job.Some? && v.job.value.pc.UndoVerifying?
    requires v.job.value.previous == Some(child.record) && child.verified
    requires w == v.(handle := Some(h), child := Some(child), job := Some(v.job.value.(pc := UndoLoading(h))))
    ensures GoesOn(v, w)
  {
  }

  lemma VerifyingIsEmpty(v: View)
    requires ViewOk(v) && v.job.Some? && (v.job.value.pc.Verifying? || v.job.value.pc.UndoVerifying?)
    ensures v.handle.None? && v.job.value.task.Replace?
    ensures v.job.value.pc.UndoVerifying? ==> v.job.value.previous.Some?
  {
  }

  lemma StartKeeps(s: State, id: Id, record: Record, verified: bool, pc: Pc)
    requires Inv(s) && id in s.jobs && !s.stopping && verified
    requires var job := s.jobs[id];
             || (job.pc.Verifying? && record == Candidate(job) && pc == Loading(|s.all|))
             || (job.pc.UndoVerifying? && Some(record) == job.previous && pc == UndoLoading(|s.all|))
    ensures Moves(s, GoTo(Spawn(s, id, record, verified), id, pc), id)
  {
    var v, u := ViewOf(s, id), Spawn(s, id, record, verified);
    var t := GoTo(u, id, pc);
    assert ViewOk(v);
    VerifyingIsEmpty(v);
    SpawnPart(s, id, record, verified);
    GoToPart(u, id, pc);
    PartThenPart(s, u, t, id);
    if pc.Loading? {
      StartedView(v, |s.all|, ViewOf(u, id).child.value, ViewOf(t, id));
    } else {
      RestartedView(v, |s.all|, ViewOf(u, id).child.value, ViewOf(t, id));
    }
    PartKeeps(s, t, id);
  }

  lemma VerifyEndsKeeps(s: State, id: Id, ok: bool, spawned: bool)
    requires Inv(s) && MayEndVerify(s, id)
    ensures Moves(s, DoVerifyEnds(s, id, ok, spawned), id)
  {
    var job := s.jobs[id];
    assert ViewOk(ViewOf(s, id));
    VerifyingIsEmpty(ViewOf(s, id));
    if ok && !s.stopping && spawned {
      StartKeeps(s, id, if job.pc.Verifying? then Candidate(job) else job.previous.value, ok,
                 if job.pc.Verifying? then Loading(|s.all|) else UndoLoading(|s.all|));
    } else if job.pc.Verifying? {
      UndoKeeps(s, id);
    } else {
      FailKeeps(s, id, Failed);
    }
  }

  // ----- readiness -----

  /** The gate opens and the transition goes on. */
  lemma OpenedPart(r: State, id: Id, pc: Pc)
    requires Shape(r) && id in r.jobs && ViewOf(r, id).gate.Some?
    ensures var t, v := GoTo(SetPaused(r, id, false), id, pc), ViewOf(r, id);
            && Part(r, t, id)
            && ViewOf(t, id) == v.(gate := Some(v.gate.value.(paused := false)), job := Some(r.jobs[id].(pc := pc)))
  {
    var u := SetPaused(r, id, false);
    SetPausedPart(r, id, false);
    GoToPart(u, id, pc);
    PartThenPart(r, u, GoTo(u, id, pc), id);
  }

  lemma ReadyView(v: View, w: View)
    requires ViewOk(v) && v.job.Some? && v.job.value.pc.Loading? && v.child.Some?
    requires w == v.(child := Some(v.child.value.(ready := true)),
             job := Some(v.job.value.(pc := AtCommit(v.job.value.pc.h))))
    ensures GoesOn(v, w)
  {
  }

  lemma RestoredView(v: View, w: View)
    requires ViewOk(v) && v.job.Some? && v.job.value.pc.UndoLoading? && v.child.Some? && v.gate.Some?
    requires w == v.(child := Some(v.child.value.(ready := true)), gate := Some(v.gate.value.(paused := false)),
                     job := Some(v.job.value.(pc := UndoSaving)))
    ensures GoesOn(v, w)
  {
  }

  lemma LoadingRuns(v: View)
    requires ViewOk(v) && v.job.Some? && (v.job.value.pc.Loading? || v.job.value.pc.UndoLoading?)
    ensures v.handle == Some(v.job.value.pc.h) && v.child.Some? && v.gate.Some? && v.job.value.task.Replace?
  {
  }

  lemma ReadyKeeps(s: State, id: Id, h: nat, ready: bool)
    requires Inv(s) && id in s.jobs && s.jobs[id].pc == Loading(h) && ready
    ensures Moves(s, GoTo(MarkReady(s, h, ready), id, AtCommit(h)), id)
  {
    var v, u := ViewOf(s, id), MarkReady(s, h, ready);
    var t := GoTo(u, id, AtCommit(h));
    assert ViewOk(v);
    LoadingRuns(v);
    MarkReadyPart(s, id, h, ready);
    GoToPart(u, id, AtCommit(h));
    PartThenPart(s, u, t, id);
    ReadyView(v, ViewOf(t, id));
    PartKeeps(s, t, id);
  }

  lemma RestoredKeeps(s: State, id: Id, h: nat, ready: bool)
    requires Inv(s) && id in s.jobs && s.jobs[id].pc == UndoLoading(h) && ready
    ensures Moves(s, GoTo(SetPaused(MarkReady(s, h, ready), id, false), id, UndoSaving), id)
  {
    var v, u := ViewOf(s, id), MarkReady(s, h, ready);
    var t := GoTo(SetPaused(u, id, false), id, UndoSaving);
    assert ViewOk(v);
    LoadingRuns(v);
    MarkReadyPart(s, id, h, ready);
    OpenedPart(u, id, UndoSaving);
    PartThenPart(s, u, t, id);
    RestoredView(v, ViewOf(t, id));
    PartKeeps(s, t, id);
  }

  lemma ReadyEndsKeeps(s: State, id: Id, ok: bool)
    requires Inv(s) && MayEndReady(s, id)
    ensures Moves(s, DoReadyEnds(s, id, ok), id)
  {
    assert ViewOk(ViewOf(s, id));
    LoadingRuns(ViewOf(s, id));
    if ok && s.jobs[id].pc.Loading? {
      ReadyKeeps(s, id, s.jobs[id].pc.h, ok);
    } else if ok {
      RestoredKeeps(s, id, s.jobs[id].pc.h, ok);
    } else if s.jobs[id].pc.Loading? {
      UndoKeeps(s, id);
    } else {
      FailKeeps(s, id, Failed);
    }
  }

  // ----- taking a port -----

  function Reserved(s: State, id: Id, port: int): State
    requires id in s.jobs
  {
    s.(reservations := s.reservations + {port}, jobs := s.jobs[id := s.jobs[id].(port := Some(port))])
  }

  /** The port is the one `id` has by record, or one nobody has. */
  ghost predicate MayTake(s: State, id: Id, port: int) {
    && (ViewOf(s, id).record.Some? ==> ViewOf(s, id).record.value.port == port)
    && (ViewOf(s, id).record.None? ==> port != s.agentPort && forall j :: !Holds(ViewOf(s, j), port))
  }

  lemma FreePortIsNobodys(s: State, port: int)
    requires Inv(s) && port !in Taken(s)
    ensures port != s.agentPort && forall j :: !Holds(ViewOf(s, j), port)
  {
    assert !HasReserved(s, port);
    forall j ensures !Holds(ViewOf(s, j), port) {
      assert !(j in s.jobs && s.jobs[j].port == Some(port));
    }
  }

  lemma ReservedViews(s: State, id: Id, port: int)
    requires Inv(s) && id in s.jobs && s.jobs[id].port.None?
    ensures var t := Reserved(s, id, port);
            && Shape(t) && SameRequests(s, t) && Remembers(s, t) && RecordsGrow(s, t)
            && ViewOf(t, id) == ViewOf(s, id).(job := Some(s.jobs[id].(port := Some(port))))
            && (forall j :: j != id ==> ViewOf(t, j) == ViewOf(s, j))
  {
  }

  lemma NotReserved(s: State, id: Id, port: int)
    requires Inv(s) && id in s.jobs && s.jobs[id].port.None? && MayTake(s, id, port)
    ensures port !in s.reservations
  {
    if port in s.reservations {
      var j :| j in s.jobs && s.jobs[j].port == Some(port);
      assert Holds(ViewOf(s, j), port);
      assert Holds(ViewOf(s, id), port);
    }
  }

  /** Once a port is taken, what follows reserves nothing more. */
  lemma TakePorts(s: State, t: State, id: Id, port: int)
    requires Inv(s) && id in s.jobs && s.jobs[id].port.None? && MayTake(s, id, port)
    requires forall j :: j != id ==> ViewOf(t, j) == ViewOf(s, j)
    requires HoldsOnly(ViewOf(t, id), ViewOf(Reserved(s, id, port), id)) && t.agentPort == s.agentPort
    requires t.reservations == s.reservations + PortSet(ViewOf(t, id))
    ensures PortsOk(t)
  {
    ReservedViews(s, id, port);
    forall p | Holds(ViewOf(t, id), p)
      ensures Holds(ViewOf(s, id), p) || (p != s.agentPort && forall j :: !Holds(ViewOf(s, j), p))
    {
      assert Holds(ViewOf(Reserved(s, id, port), id), p);
    }
    PortsKept(s, t, id);
  }

  /** Nobody else looks different once the port is taken and the step has gone on. */
  lemma TakeOthers(s: State, t: State, id: Id, port: int)
    requires Inv(s) && id in s.jobs && s.jobs[id].port.None?
    requires Part(Reserved(s, id, port), t, id)
    ensures forall j :: j != id ==> ViewOf(t, j) == ViewOf(s, j)
  {
    ReservedViews(s, id, port);
    forall j | j != id ensures ViewOf(t, j) == ViewOf(s, j) {
      assert ViewOf(Reserved(s, id, port), j) == ViewOf(s, j);
    }
  }

  lemma TakeAdvances(s: State, t: State, id: Id, port: int)
    requires id in s.jobs && id in t.jobs && Part(Reserved(s, id, port), t, id)
    requires Follows(ViewOf(Reserved(s, id, port), id).job, ViewOf(t, id).job)
    ensures Advances(s, t, id)
  {
    PartAdvances(Reserved(s, id, port), t, id);
  }

  /** A step that takes a port and goes on. */
  lemma TakeKeeps(s: State, t: State, id: Id, port: int)
    requires Inv(s) && id in s.jobs && s.jobs[id].port.None? && MayTake(s, id, port)
    requires Part(Reserved(s, id, port), t, id) && id in t.jobs
    requires GoesOn(ViewOf(Reserved(s, id, port), id), ViewOf(t, id))
    ensures Moves(s, t, id)
  {
    TakeOthers(s, t, id, port);
    TakePorts(s, t, id, port);
    TakeStep(s, t, id, port);
    TakeAdvances(s, t, id, port);
  }

  lemma TakeStep(s: State, t: State, id: Id, port: int)
    requires Inv(s) && id in s.jobs && s.jobs[id].port.None?
    requires Part(Reserved(s, id, port), t, id) && PortsOk(t) && ViewOk(ViewOf(t, id))
    ensures StepOk(s, t)
  {
    var r := Reserved(s, id, port);
    ReservedViews(s, id, port);
    SameRequestsKeepsCounts(s, r);
    SameRequestsKeepsCounts(r, t);
    forall j ensures ViewOk(ViewOf(t, j)) {
      assert j == id || ViewOf(t, j) == ViewOf(r, j) == ViewOf(s, j);
      assert ViewOk(ViewOf(s, j));
    }
  }

  lemma TakeInvalidKeeps(s: State, id: Id, port: int)
    requires Inv(s) && id in s.jobs && s.jobs[id].pc.AtRecords? && s.jobs[id].port.None? && MayTake(s, id, port)
    ensures Moves(s, Finish(Reserved(s, id, port), id, Raised), id)
  {
    var r := Reserved(s, id, port);
    NotReserved(s, id, port);
    FailKeeps(s, id, Raised);
    var t, u := Finish(s, id, Raised), Finish(r, id, Raised);
    assert u.reservations == t.reservations;
    assert u.jobs == t.jobs;
    assert u == t.(endings := u.endings);
    ReservedViews(s, id, port);
    RelabelEnding(s, t, u, id, Ending(id, r.jobs[id], Raised));
  }

  /** The ending of a transition may carry the port it had taken. */
  lemma RelabelEnding(s: State, t: State, u: State, id: Id, e: Ending)
    requires id in s.jobs && Moves(s, t, id) && u == t.(endings := s.endings + [e]) && id !in t.jobs
    requires t == Finish(s, id, Raised) && e == Ending(id, s.jobs[id].(port := e.job.port), Raised)
    ensures Moves(s, u, id)
  {
    forall j ensures ViewOf(u, j) == ViewOf(t, j) {}
    forall p ensures HasReserved(u, p) <==> HasReserved(t, p) {}
    assert t.endings[|s.endings|] == Ending(id, s.jobs[id], Raised);
    assert PortsOk(u) && Shape(u) && CountsOk(u);
    assert EndOk(ViewOf(u, id), e.job, Raised);
    assert EndsJob(e, s.jobs[id]);
  }

  lemma ReserveDrainView(v: View, port: int, r: View, w: View)
    requires ViewOk(v) && v.job.Some? && v.job.value.pc.AtRecords? && v.record.Some? && port == v.record.value.port
    requires r == v.(job := Some(v.job.value.(port := Some(port))))
    requires w == r.(gate := w.gate, job := Some(r.job.value.(pc := Draining(Closed(r), false)))) && Closed(w)
    ensures GoesOn(r, w)
  {
  }

  lemma ReserveChangeView(v: View, port: int, r: View, w: View)
    requires ViewOk(v) && v.job.Some? && v.job.value.pc.AtRecords? && v.job.value.previous.None?
    requires r == v.(job := Some(v.job.value.(port := Some(port))))
    requires w == r.(gate := w.gate, job := Some(r.job.value.(pc := AfterDrain(r)))) && Unused(w)
    ensures GoesOn(r, w)
  {
  }

  lemma AtRecordsFacts(v: View)
    requires ViewOk(v) && v.job.Some? && v.job.value.pc.AtRecords?
    ensures v.record == v.job.value.previous && v.job.value.port.None? && (v.record.None? ==> !Open(v))
    ensures EndOk(v.(job := None), v.job.value, Unchanged)
  {
  }

  lemma TakeValidKeeps(s: State, id: Id, port: int)
    requires Inv(s) && id in s.jobs && s.jobs[id].pc.AtRecords? && MayTake(s, id, port)
    ensures var r := Reserved(s, id, port);
            Moves(s, if s.jobs[id].previous.Some? then Drain(r, id) else Change(r, id), id)
  {
    var v, r := ViewOf(s, id), Reserved(s, id, port);
    assert ViewOk(v);
    AtRecordsFacts(v);
    ReservedViews(s, id, port);
    if s.jobs[id].previous.Some? {
      var t := Drain(r, id);
      DrainPart(r, id);
      ReserveDrainView(v, port, ViewOf(r, id), ViewOf(t, id));
      TakeKeeps(s, t, id, port);
    } else {
      var t := Change(r, id);
      ChangePart(r, id);
      ReserveChangeView(v, port, ViewOf(r, id), ViewOf(t, id));
      TakeKeeps(s, t, id, port);
    }
  }

  lemma ReserveKeeps(s: State, id: Id, busy: set<int>, valid: bool)
    requires Inv(s) && MayReserve(s, id)
    ensures Moves(s, DoReserve(s, id, busy, valid), id)
  {
    var job, v := s.jobs[id], ViewOf(s, id);
    assert ViewOk(v);
    AtRecordsFacts(v);
    var port := if job.previous.Some? then Some(job.previous.value.port) else FirstFree(FIRST_PORT, Taken(s) + busy);
    if job.abandoned {
      ReturnKeeps(s, id, Unchanged);
    } else if port.None? {
      FailKeeps(s, id, Raised);
    } else {
      if job.previous.None? { FreePortIsNobodys(s, port.value); }
      if !valid {
        TakeInvalidKeeps(s, id, port.value);
      } else {
        TakeValidKeeps(s, id, port.value);
      }
    }
  }

  // ----- committing, saving, forgetting -----

  lemma CommitView(v: View, w: View)
    requires ViewOk(v) && v.job.Some? && v.job.value.pc.AtCommit? && v.gate.Some? && !v.job.value.abandoned
    requires w == v.(record := Some(Candidate(v.job.value)), gate := Some(v.gate.value.(paused := false)),
                     job := Some(v.job.value.(pc := Reporting(v.job.value.pc.h))))
    ensures GoesOn(v, w)
  {
  }

  lemma AtCommitFacts(v: View)
    requires ViewOk(v) && v.job.Some? && v.job.value.pc.AtCommit?
    ensures v.gate.Some? && v.handle == Some(v.job.value.pc.h) && v.child.Some? && v.job.value.task.Replace?
    ensures v.child.value.record == Candidate(v.job.value) && Confirmed(v)
  {
  }

  lemma CommitKeeps(s: State, id: Id, saved: bool)
    requires Inv(s) && MayCommit(s, id)
    ensures Moves(s, DoCommit(s, id, saved), id)
  {
    var job, v := s.jobs[id], ViewOf(s, id);
    var h := job.pc.h;
    assert ViewOk(v);
    AtCommitFacts(v);
    if job.abandoned || h >= |s.all| || !s.all[h].alive || !saved {
      UndoKeeps(s, id);
    } else {
      CommitSavedKeeps(s, id);
    }
  }

  /** The candidate's record, in memory and on disk, with its note. */
  function Recorded(s: State, id: Id, note: Note): State
    requires id in s.jobs
  {
    var records := s.records[id := Candidate(s.jobs[id])];
    s.(records := records, disk := records, notes := s.notes + [note])
  }

  lemma RecordedPart(s: State, id: Id, note: Note)
    requires Shape(s) && id in s.jobs && ViewOf(s, id).gate.Some?
    requires NoteOk(note) && note.id == id && note.record == Candidate(s.jobs[id])
    ensures var r, v := Recorded(s, id, note), ViewOf(s, id);
            && Part(s, r, id)
            && ViewOf(r, id) == v.(record := Some(Candidate(s.jobs[id])))
  {
    var notes := s.notes + [note];
    assert note in notes && Noted(notes, id, Candidate(s.jobs[id]));
    RecordPart(s, id, s.records[id := Candidate(s.jobs[id])], notes);
  }

  lemma CommitSavedKeeps(s: State, id: Id)
    requires Inv(s) && MayCommit(s, id) && !s.jobs[id].abandoned
    requires s.jobs[id].pc.h < |s.all| && s.all[s.jobs[id].pc.h].alive
    ensures Moves(s, DoCommit(s, id, true), id)
  {
    var job, v, t := s.jobs[id], ViewOf(s, id), DoCommit(s, id, true);
    var note := Note(id, Candidate(job), s.all[job.pc.h], job.abandoned);
    var r := Recorded(s, id, note);
    assert ViewOk(v);
    AtCommitFacts(v);
    RecordedPart(s, id, note);
    OpenedPart(r, id, Reporting(job.pc.h));
    PartThenPart(s, r, t, id);
    CommitView(v, ViewOf(t, id));
    PartKeeps(s, t, id);
  }

  lemma LastView(v: View)
    requires ViewOk(v) && v.job.Some?
    ensures v.job.value.pc.Reporting? ==> EndOk(v.(job := None), v.job.value, Committed)
    ensures v.job.value.pc.UndoSaving? ==> EndOk(v.(job := None), v.job.value, RolledBack) && v.job.value.task.Replace?
  {
  }

  lemma ReportKeeps(s: State, id: Id)
    requires Inv(s) && id in s.jobs && s.jobs[id].pc.Reporting?
    ensures Moves(s, Finish(s, id, Committed), id)
  {
    assert ViewOk(ViewOf(s, id));
    LastView(ViewOf(s, id));
    ReturnKeeps(s, id, Committed);
  }

  lemma PersistKeeps(s: State, id: Id, saved: bool)
    requires Inv(s) && MayPersist(s, id)
    ensures Moves(s, DoPersist(s, id, saved), id)
  {
    assert s.(disk := s.records) == s;
    assert ViewOk(ViewOf(s, id));
    LastView(ViewOf(s, id));
    if saved {
      ReturnKeeps(s, id, RolledBack);
    } else {
      FailKeeps(s, id, Failed);
    }
  }

  lemma ForgetView(v: View, u: View, w: View)
    requires ViewOk(v) && v.job.Some? && v.job.value.pc.AtForget?
    requires u == v.(record := None) && w == u.(gate := None)
    ensures MayFinish(v, w, DeploymentModel.Stopped) && !Open(u)
  {
  }

  /** The record a removal forgets is the one it read. */
  lemma ForgetsItsRecord(s: State, id: Id)
    requires Inv(s) && MayForget(s, id)
    ensures id in s.records && s.jobs[id].previous == Some(s.records[id])
  {
    assert ViewOk(ViewOf(s, id));
  }

  lemma ForgetKeeps(s: State, id: Id, saved: bool)
    requires Inv(s) && MayForget(s, id)
    ensures Moves(s, DoForget(s, id, saved), id)
  {
    var v := ViewOf(s, id);
    assert ViewOk(v);
    if saved {
      var records := s.records - {id};
      var r := s.(records := records, disk := records, notes := s.notes);
      RecordPart(s, id, records, s.notes);
      ForgetView(v, ViewOf(r, id), ViewOf(r, id).(gate := None));
      DropGatePart(r, id);
      PartThenPart(s, r, DropGate(r, id), id);
      FinishKeeps(s, DropGate(r, id), id, DeploymentModel.Stopped);
    } else {
      FailKeeps(s, id, Raised);
    }
  }

  lemma CancelKeeps(s: State, id: Id)
    requires Inv(s) && MayCancel(s, id)
    ensures Moves(s, DoCancelJob(s, id), id)
  {
    if s.jobs[id].pc.Reporting? {
      ReportKeeps(s, id);
    } else {
      FailKeeps(s, id, Raised);
    }
  }

  // ----- deaths, and what touches no deployment -----

  /** Children may have exited; nothing else has changed. */
  ghost predicate Deaths(s: State, t: State) {
    && t == s.(all := t.all) && |t.all| == |s.all|
    && forall h :: 0 <= h < |s.all| ==> t.all[h] == s.all[h] || t.all[h] == s.all[h].(alive := false)
  }

  lemma DeadView(v: View, w: View)
    requires ViewOk(v) && w == v.(child := w.child)
    requires v.child.Some? <==> w.child.Some?
    requires v.child.Some? ==> w.child.value.(alive := v.child.value.alive) == v.child.value
    ensures GoesOn(v, w)
  {
  }

  lemma DeathsViews(s: State, t: State, id: Id)
    requires Inv(s) && Deaths(s, t)
    ensures GoesOn(ViewOf(s, id), ViewOf(t, id))
  {
    assert ViewOk(ViewOf(s, id));
    DeadView(ViewOf(s, id), ViewOf(t, id));
  }

  lemma DeathsKeep(s: State, t: State)
    requires Inv(s) && Deaths(s, t)
    ensures StepOk(s, t)
  {
    assert Shape(t) && Remembers(s, t);
    SameRequestsKeepsCounts(s, t);
    forall id ensures GoesOn(ViewOf(s, id), ViewOf(t, id)) {
      DeathsViews(s, t, id);
    }
    forall p ensures p in t.reservations <==> HasReserved(t, p) {
      assert HasReserved(s, p) <==> HasReserved(t, p);
    }
    forall i, j, p | Holds(ViewOf(t, i), p) && Holds(ViewOf(t, j), p)
      ensures i == j
    {
      assert Holds(ViewOf(s, i), p) && Holds(ViewOf(s, j), p);
    }
  }

  /** What changes neither the records, the children, the gates, the jobs nor
      the requests. */
  lemma AsideKeeps(s: State, t: State)
    requires Inv(s) && (s.stopping ==> t.stopping)
    requires t == s.(waiting := t.waiting, asked := t.asked, stopping := t.stopping)
    ensures StepOk(s, t)
  {
    forall j ensures ViewOf(t, j) == ViewOf(s, j) {}
    forall p ensures HasReserved(s, p) <==> HasReserved(t, p) {}
    assert Shape(t) && PortsOk(t) && CountsOk(t);
  }

  // ----- requests -----

  lemma FirstGateView(v: View, id: Id, w: View)
    requires ViewOk(v) && v.record.Some? && v.gate.None? && w == v.(gate := Some(Gate(id, false, 0, true)))
    ensures GoesOn(v, w)
  {
  }

  lemma DefaultGateKeeps(s: State, id: Id)
    requires Inv(s) && id in s.records
    ensures StepOk(s, DefaultGate(s, id))
  {
    SamePart(s, id);
    if id !in s.gate {
      NewGatePart(s, id, false);
      assert ViewOk(ViewOf(s, id));
      FirstGateView(ViewOf(s, id), id, ViewOf(NewGate(s, id, false), id));
      PartKeeps(s, NewGate(s, id, false), id);
    }
  }

  /** Only the requests that await their bodies have changed. */
  lemma ReadersKeep(s: State, requests: map<nat, Request>)
    requires Inv(s)
    requires forall k :: k in requests ==> RequestOk(s, requests[k])
    requires forall g: nat :: Behind(requests, g) == Behind(s.requests, g)
    ensures StepOk(s, s.(requests := requests))
  {
    var t := s.(requests := requests);
    forall j ensures ViewOf(t, j) == ViewOf(s, j) {}
    forall p ensures HasReserved(s, p) <==> HasReserved(t, p) {}
    assert Shape(t) && PortsOk(t);
  }

  /** A request that reads an open gate reads the record its child runs. */
  lemma ReaderKeeps(s: State, key: nat, id: Id)
    requires Inv(s) && key !in s.requests
    requires id in s.records && id in s.children && id in s.gate && !Paused(s, id)
    ensures StepOk(s, s.(requests := s.requests[key := Reading(id, s.records[id], s.gate[id], s.children[id])]))
  {
    var r := Reading(id, s.records[id], s.gate[id], s.children[id]);
    assert ViewOk(ViewOf(s, id));
    assert RequestOk(s, r);
    forall g: nat ensures Behind(s.requests[key := r], g) == Behind(s.requests, g) {}
    ReadersKeep(s, s.requests[key := r]);
  }

  lemma ArriveKeeps(s: State, key: nat, id: Id)
    requires Inv(s) && key !in s.requests
    ensures StepOk(s, DoArrive(s, key, id))
  {
    if id in s.records {
      var t := DefaultGate(s, id);
      DefaultGateKeeps(s, id);
      if !Paused(t, id) && id in s.children {
        ReaderKeeps(t, key, id);
      }
    } else {
      AsideKeeps(s, s);
    }
  }

  lemma EnterView(v: View, w: View)
    requires ViewOk(v) && Open(v) && w == v.(gate := Some(Enter(v.gate.value)))
    ensures GoesOn(v, w)
  {
  }

  lemma ExitView(v: View, w: View)
    requires ViewOk(v) && v.gate.Some? && v.gate.value.requests > 0 && w == v.(gate := Some(Exit(v.gate.value)))
    ensures GoesOn(v, w)
  {
  }

  /** The state in which gate `g` counts as `gate` does. */
  function Counted(s: State, requests: map<nat, Request>, g: nat, gate: Gate): State
    requires g < |s.gates|
  {
    s.(requests := requests, gates := s.gates[g := gate])
  }

  lemma CountedViews(s: State, requests: map<nat, Request>, g: nat, gate: Gate)
    requires Shape(s) && g < |s.gates| && gate.owner == s.gates[g].owner && gate.paused == s.gates[g].paused
    ensures var t, id := Counted(s, requests, g, gate), gate.owner;
            && Shape(t)
            && (forall j :: j != id ==> ViewOf(t, j) == ViewOf(s, j))
            && ViewOf(t, id) == (if Lookup(s.gate, id) == Some(g) then ViewOf(s, id).(gate := Some(gate))
               else ViewOf(s, id))
  {
  }

  /** A gate counts one request more or less, and its owner is in order. */
  lemma CountKeeps(s: State, requests: map<nat, Request>, g: nat, gate: Gate)
    requires Inv(s) && g < |s.gates| && gate.owner == s.gates[g].owner && gate.paused == s.gates[g].paused
    requires gate.paused ==> gate.requests <= s.gates[g].requests
    requires CountsOk(Counted(s, requests, g, gate))
    requires GoesOn(ViewOf(s, gate.owner), ViewOf(Counted(s, requests, g, gate), gate.owner))
    ensures StepOk(s, Counted(s, requests, g, gate))
  {
    var t, id := Counted(s, requests, g, gate), gate.owner;
    CountedViews(s, requests, g, gate);
    PortsSame(s, t, id);
    ViewsKept(s, t, id);
    CountHistory(s, requests, g, gate);
  }

  /** Counting touches nothing that is past. */
  ghost predicate Historic(s: State, t: State) {
    Remembers(s, t) && NeverFills(s, t) && RecordsGrow(s, t) && EndsWell(s, t)
  }

  lemma CountHistory(s: State, requests: map<nat, Request>, g: nat, gate: Gate)
    requires g < |s.gates| && (s.gates[g].paused ==> gate.requests <= s.gates[g].requests)
    ensures Historic(s, Counted(s, requests, g, gate))
  {
  }

  lemma SameViewGoesOn(v: View)
    requires ViewOk(v)
    ensures GoesOn(v, v)
  {
  }

  lemma BehindGrows(requests: map<nat, Request>, key: nat, r: Request, g: nat)
    requires key in requests && !requests[key].InFlight? && r.InFlight?
    ensures Behind(requests[key := r], g) == if g == r.gate then Behind(requests, g) + {key} else Behind(requests, g)
    ensures key !in Behind(requests, g)
  {
  }

  lemma BehindShrinks(requests: map<nat, Request>, key: nat, g: nat)
    requires key in requests
    ensures Behind(requests - {key}, g) == Behind(requests, g) - {key}
    ensures key in Behind(requests, g) <==> requests[key].InFlight? && requests[key].gate == g
  {
  }

  lemma SendRefs(s: State, key: nat)
    requires CountsOk(s) && MayTakeBody(s, key) && MaySend(s, s.requests[key])
    ensures var t := DoBody(s, key, true); forall k :: k in t.requests ==> RequestOk(t, t.requests[k])
  {
    var t := DoBody(s, key, true);
    forall k | k in t.requests ensures RequestOk(t, t.requests[k]) {
      assert k in s.requests && RequestOk(s, s.requests[k]);
    }
  }

  lemma SendCounts(s: State, key: nat)
    requires CountsOk(s) && MayTakeBody(s, key) && MaySend(s, s.requests[key])
    ensures CountsOk(DoBody(s, key, true))
  {
    var t := DoBody(s, key, true);
    var r := t.requests[key];
    SendRefs(s, key);
    forall g | 0 <= g < |t.gates|
      ensures t.gates[g].requests == |Behind(t.requests, g)| && (t.gates[g].idle <==> t.gates[g].requests == 0)
    {
      SendCountsAt(s, key, g, t);
    }
  }

  lemma SendCountsAt(s: State, key: nat, g: nat, t: State)
    requires CountsOk(s) && MayTakeBody(s, key) && MaySend(s, s.requests[key]) && t == DoBody(s, key, true)
             && g < |t.gates|
    ensures t.gates[g].requests == |Behind(t.requests, g)| && (t.gates[g].idle <==> t.gates[g].requests == 0)
  {
    BehindGrows(s.requests, key, t.requests[key], g);
  }

  /** A request that is refused, or gives up before its body came. */
  lemma DropReaderKeeps(s: State, key: nat)
    requires Inv(s) && key in s.requests && s.requests[key].Reading?
    ensures StepOk(s, s.(requests := s.requests - {key}))
  {
    forall g: nat ensures Behind(s.requests - {key}, g) == Behind(s.requests, g) {
      BehindShrinks(s.requests, key, g);
    }
    ReadersKeep(s, s.requests - {key});
  }

  lemma BodyKeeps(s: State, key: nat, sends: bool)
    requires Inv(s) && MayTakeBody(s, key)
    ensures StepOk(s, DoBody(s, key, sends))
  {
    if MaySend(s, s.requests[key]) && sends {
      var r := s.requests[key];
      var gate, requests := Enter(s.gates[r.gate]), DoBody(s, key, true).requests;
      assert ViewOk(ViewOf(s, r.id)) && RequestOk(s, r);
      SendCounts(s, key);
      CountedViews(s, requests, r.gate, gate);
      if Lookup(s.gate, r.id) == Some(r.gate) {
        EnterView(ViewOf(s, r.id), ViewOf(Counted(s, requests, r.gate, gate), r.id));
      } else {
        SameViewGoesOn(ViewOf(s, r.id));
      }
      CountKeeps(s, requests, r.gate, gate);
    } else {
      DropReaderKeeps(s, key);
    }
  }

  lemma LeaveRefs(s: State, key: nat)
    requires CountsOk(s) && MayLeave(s, key) && s.requests[key].InFlight?
    ensures var t := DoLeave(s, key); forall k :: k in t.requests ==> RequestOk(t, t.requests[k])
  {
    var t := DoLeave(s, key);
    forall k | k in t.requests ensures RequestOk(t, t.requests[k]) {
      assert k in s.requests && RequestOk(s, s.requests[k]);
    }
  }

  lemma LeaveCountsAt(s: State, key: nat, g: nat, t: State)
    requires CountsOk(s) && MayLeave(s, key) && s.requests[key].InFlight? && t == DoLeave(s, key) && g < |t.gates|
    ensures t.gates[g].requests == |Behind(t.requests, g)| && (t.gates[g].idle <==> t.gates[g].requests == 0)
  {
    BehindShrinks(s.requests, key, g);
  }

  lemma LeaveCounts(s: State, key: nat)
    requires CountsOk(s) && MayLeave(s, key) && s.requests[key].InFlight?
    ensures CountsOk(DoLeave(s, key)) && s.gates[s.requests[key].gate].requests > 0
  {
    var t := DoLeave(s, key);
    LeaveRefs(s, key);
    assert key in Behind(s.requests, s.requests[key].gate);
    forall g | 0 <= g < |t.gates|
      ensures t.gates[g].requests == |Behind(t.requests, g)| && (t.gates[g].idle <==> t.gates[g].requests == 0)
    {
      LeaveCountsAt(s, key, g, t);
    }
  }

  lemma LeaveKeeps(s: State, key: nat)
    requires Inv(s) && MayLeave(s, key)
    ensures StepOk(s, DoLeave(s, key))
  {
    if s.requests[key].InFlight? {
      var r, requests := s.requests[key], s.requests - {key};
      var gate := Exit(s.gates[r.gate]);
      assert ViewOk(ViewOf(s, r.id)) && RequestOk(s, r);
      LeaveCounts(s, key);
      CountedViews(s, requests, r.gate, gate);
      if Lookup(s.gate, r.id) == Some(r.gate) {
        ExitView(ViewOf(s, r.id), ViewOf(Counted(s, requests, r.gate, gate), r.id));
      } else {
        SameViewGoesOn(ViewOf(s, r.id));
      }
      CountKeeps(s, requests, r.gate, gate);
    } else {
      DropReaderKeeps(s, key);
    }
  }

  // ----- every event -----

  /** The events of a transition that holds its lock. */
  predicate OfJob(e: Event) {
    || e.Abandon? || e.Reserve? || e.IdleSeen? || e.DrainEnds? || e.StopEnds? || e.VerifyEnds? || e.ReadyEnds?
    || e.Commit? || e.Report? || e.Persist? || e.Forget? || e.CancelJob?
  }

  lemma JobKeeps(s: State, e: Event)
    requires Inv(s) && OfJob(e) && Enabled(s, e)
    ensures Moves(s, Next(s, e), e.id)
  {
    match e
    case Abandon(id) => AbandonKeeps(s, id);
    case Reserve(id, busy, valid) => ReserveKeeps(s, id, busy, valid);
    case IdleSeen(id) => IdleSeenKeeps(s, id);
    case DrainEnds(id, timedOut) => DrainEndsKeeps(s, id, timedOut);
    case StopEnds(id, ok) => StopEndsKeeps(s, id, ok);
    case VerifyEnds(id, ok, spawned) => VerifyEndsKeeps(s, id, ok, spawned);
    case ReadyEnds(id, ok) => ReadyEndsKeeps(s, id, ok);
    case Commit(id, saved) => CommitKeeps(s, id, saved);
    case Report(id) => ReportKeeps(s, id);
    case Persist(id, saved) => PersistKeeps(s, id, saved);
    case Forget(id, saved) => ForgetKeeps(s, id, saved);
    case CancelJob(id) => CancelKeeps(s, id);
  }

  lemma NextKeeps(s: State, e: Event)
    requires Inv(s)
    ensures StepOk(s, Next(s, e))
  {
    if !Enabled(s, e) {
      AsideKeeps(s, s);
    } else if OfJob(e) {
      JobKeeps(s, e);
    } else {
      match e
      case Ask(_, _) => AsideKeeps(s, Next(s, e));
      case AbandonWaiter(_) => AsideKeeps(s, Next(s, e));
      case BeginStop => AsideKeeps(s, Next(s, e));
      case Acquire(k) => AcquireKeeps(s, k);
      case ChildExits(h) => DeathsKeep(s, Next(s, e));
      case Sweep(stopped) => DeathsKeep(s, Next(s, e));
      case Arrive(k, id) => ArriveKeeps(s, k, id);
      case Body(k, sends) => BodyKeeps(s, k, sends);
      case Leave(k) => LeaveKeeps(s, k);
    }
  }
}
