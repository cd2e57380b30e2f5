/** Which ending a transition comes to.  `EndOk` says what each outcome promises; here
    is when each may be told: a transition none of whose own steps fails ends as it was
    asked to, a replacement is told to have failed only when a step of its rollback
    did, and none is ever stuck. */
module DeploymentOutcomes {
  import opened Prelude
  import opened DeploymentModel
  import opened DeploymentInvariants
  import opened DeploymentSteps
  import opened DeploymentTheorems

  /** `id` is held by the transition `k`. */
  predicate Mine(s: State, id: Id, k: nat) {
    id in s.jobs && s.jobs[id].key == k
  }

  // ----- the failures of a transition's own steps -----

  predicate AwaitsChild(pc: Pc, h: nat) {
    pc == Loading(h) || pc == AtCommit(h)
  }

  /** The transition `k` is abandoned while that still matters, or cancelled, its candidate is refused or gets
      no port, a stop, a check, a spawn, a readiness wait or a save of its own fails,
      or its candidate exits before the commit. */
  ghost predicate StepFails(s: State, e: Event, k: nat) {
    && Enabled(s, e)
    && match e
       case AbandonWaiter(key) => key == k
       case Abandon(id) =>
         Mine(s, id, k) && if s.jobs[id].task.Replace? then !s.jobs[id].pc.Reporting? else s.jobs[id].pc.Draining?
       case Reserve(id, busy, valid) =>
         Mine(s, id, k) && (!valid || (s.jobs[id].previous.None? && FirstFree(FIRST_PORT, Taken(s) + busy).None?))
       case StopEnds(id, ok) => Mine(s, id, k) && !ok
       case VerifyEnds(id, ok, spawned) => Mine(s, id, k) && (!ok || !spawned || s.stopping)
       case ReadyEnds(id, ok) => Mine(s, id, k) && !ok
       case Commit(id, saved) => Mine(s, id, k) && !saved
       case Forget(id, saved) => Mine(s, id, k) && !saved
       case CancelJob(id) => Mine(s, id, k) && !s.jobs[id].pc.Reporting?
       case ChildExits(h) => exists id :: Mine(s, id, k) && AwaitsChild(s.jobs[id].pc, h)
       case Sweep(stopped) =>
         exists id :: Mine(s, id, k) && id in stopped && (s.jobs[id].pc.Loading? || s.jobs[id].pc.AtCommit?)
       case _ => false
  }

  /** A step of the rollback of `k` itself fails. */
  predicate RollbackFails(s: State, e: Event, k: nat) {
    && Enabled(s, e)
    && match e
       case StopEnds(id, ok) => Mine(s, id, k) && s.jobs[id].pc.UndoStopping? && !ok
       case VerifyEnds(id, ok, spawned) =>
         Mine(s, id, k) && s.jobs[id].pc.UndoVerifying? && (!ok || !spawned || s.stopping)
       case ReadyEnds(id, ok) => Mine(s, id, k) && s.jobs[id].pc.UndoLoading? && !ok
       case Persist(id, saved) => Mine(s, id, k) && !saved
       case _ => false
  }

  // ----- where a step takes its transition -----

  /** Suspended at an await, or returned. */
  datatype Control = At(pc: Pc) | Over(outcome: Outcome)

  function ToChange(s: State, id: Id): Control {
    At(if id in s.children then Stopping(s.children[id]) else Verifying)
  }

  function ToUndone(previous: Option<Record>): Control {
    At(if previous.None? then UndoSaving else UndoVerifying)
  }

  function ToUndo(s: State, id: Id): Control
    requires id in s.jobs
  {
    if id in s.children then At(UndoStopping(s.children[id])) else ToUndone(s.jobs[id].previous)
  }

  function ReservedPort(s: State, job: Job, busy: set<int>): Option<int> {
    if job.previous.Some? then Some(job.previous.value.port) else FirstFree(FIRST_PORT, Taken(s) + busy)
  }

  function AfterReserve(s: State, id: Id, busy: set<int>, valid: bool): Control
    requires MayReserve(s, id)
  {
    var job := s.jobs[id];
    if job.abandoned then Over(Unchanged)
    else if ReservedPort(s, job, busy).None? || !valid then Over(Raised)
    else if job.previous.Some? then At(Draining(Paused(s, id), false))
    else ToChange(s, id)
  }

  function AfterDrainEnds(s: State, id: Id): Control
    requires id in s.jobs
  {
    var job := s.jobs[id];
    if job.abandoned then Over(Unchanged)
    else if job.task.Replace? then ToChange(s, id)
    else At(if id in s.children then Stopping(s.children[id]) else AtForget)
  }

  function AfterStop(s: State, id: Id, ok: bool): Control
    requires MayEndStop(s, id)
  {
    var job := s.jobs[id];
    if job.pc.Stopping? then
      if ok then At(if job.task.Replace? then Verifying else AtForget)
      else if job.task.Replace? then ToUndo(s, id)
      else Over(Raised)
    else if job.pc.UndoStopping? then if ok then ToUndone(job.previous) else Over(Failed)
    else Over(if ok then DeploymentModel.Stopped else Raised)
  }

  function AfterVerify(s: State, id: Id, ok: bool, spawned: bool): Control
    requires MayEndVerify(s, id)
  {
    var job := s.jobs[id];
    var starts := ok && !s.stopping && spawned;
    if job.pc.Verifying? then if starts then At(Loading(|s.all|)) else ToUndo(s, id)
    else if starts && job.previous.Some? then At(UndoLoading(|s.all|))
    else Over(Failed)
  }

  function AfterReady(s: State, id: Id, ok: bool): Control
    requires MayEndReady(s, id)
  {
    if s.jobs[id].pc.Loading? then if ok then At(AtCommit(s.jobs[id].pc.h)) else ToUndo(s, id)
    else if ok then At(UndoSaving)
    else Over(Failed)
  }

  function AfterCommit(s: State, id: Id, saved: bool): Control
    requires MayCommit(s, id)
  {
    var job := s.jobs[id];
    if !job.abandoned && Lives(s, job.pc.h) && saved then At(Reporting(job.pc.h)) else ToUndo(s, id)
  }

  /** Where each step of a transition's own takes it. */
  function After(s: State, e: Event): Control
    requires OfJob(e) && Enabled(s, e)
  {
    match e
    case Abandon(id) => At(s.jobs[id].pc)
    case Reserve(id, busy, valid) => AfterReserve(s, id, busy, valid)
    case IdleSeen(id) => At(s.jobs[id].pc.(woken := true))
    case DrainEnds(id, _) => AfterDrainEnds(s, id)
    case StopEnds(id, ok) => AfterStop(s, id, ok)
    case VerifyEnds(id, ok, spawned) => AfterVerify(s, id, ok, spawned)
    case ReadyEnds(id, ok) => AfterReady(s, id, ok)
    case Commit(id, saved) => AfterCommit(s, id, saved)
    case Report(_) => Over(Committed)
    case Persist(_, saved) => Over(if saved then RolledBack else Failed)
    case Forget(_, saved) => Over(if saved then DeploymentModel.Stopped else Raised)
    case CancelJob(id) => Over(if s.jobs[id].pc.Reporting? then Committed else Raised)
  }

  /** From `s` to `t` the transition of `id` comes to `c`; it is the same one, and
      its ending is the one that is added. */
  ghost predicate Comes(s: State, t: State, id: Id, c: Control)
    requires id in s.jobs
  {
    match c
    case At(pc) => id in t.jobs && t.endings == s.endings && SameTransition(s.jobs[id], t.jobs[id])
      && t.jobs[id].pc == pc
    case Over(outcome) =>
      id !in t.jobs && exists e: Ending ::
        Adds(s, t, id, e, outcome)
  }

  /** The ending f of the transition of `id` is added. */
  ghost predicate Adds(s: State, t: State, id: Id, f: Ending, outcome: Outcome)
    requires id in s.jobs
  {
    t.endings == s.endings + [f] && f.id == id && SameTransition(s.jobs[id], f.job) && f.outcome == outcome
  }

  ghost predicate SameTransition(job: Job, other: Job) {
    && other.key == job.key && other.task == job.task && other.previous == job.previous
    && (job.pc.AtRecords? || other.port == job.port)
    && (job.pc.Reporting? || other.abandoned == job.abandoned)
  }

  // The parts of a step.

  lemma GoToComes(s: State, id: Id, pc: Pc)
    requires id in s.jobs
    ensures Comes(s, GoTo(s, id, pc), id, At(pc)) && GoTo(s, id, pc).all == s.all
  {
  }

  lemma FinishComes(s: State, id: Id, outcome: Outcome)
    requires id in s.jobs
    ensures Comes(s, Finish(s, id, outcome), id, Over(outcome)) && Finish(s, id, outcome).all == s.all
  {
    var e := Ending(id, s.jobs[id], outcome);
    assert Adds(s, Finish(s, id, outcome), id, e, outcome);
  }

  /** What a step does before it moves its transition does not matter to it. */
  ghost predicate Aside(s: State, r: State, id: Id) {
    && id in s.jobs && id in r.jobs && SameTransition(s.jobs[id], r.jobs[id]) && r.endings == s.endings
    && (r.jobs[id].pc.AtRecords? ==> s.jobs[id].pc.AtRecords?)
  }

  lemma AsideComes(s: State, r: State, t: State, id: Id, c: Control)
    requires Aside(s, r, id) && !s.jobs[id].pc.Reporting? && !r.jobs[id].pc.Reporting? && Comes(r, t, id, c)
    ensures Comes(s, t, id, c)
  {
    if c.Over? {
      var e: Ending :| Adds(r, t, id, e, c.outcome);
      assert Adds(s, t, id, e, c.outcome);
    }
  }

  lemma DrainComes(s: State, id: Id)
    requires id in s.jobs
    ensures Comes(s, Drain(s, id), id, At(Draining(Paused(s, id), false))) && Drain(s, id).all == s.all
  {
    var s1 := DefaultGate(s, id);
    assert s1 == s.(gates := s1.gates, gate := s1.gate) && Paused(s1, id) == Paused(s, id);
    var s2 := SetPaused(s1, id, true);
    assert s2 == s1.(gates := s2.gates);
    GoToComes(s2, id, Draining(Paused(s, id), false));
  }

  lemma ChangeComes(s: State, id: Id)
    requires id in s.jobs
    ensures Comes(s, Change(s, id), id, ToChange(s, id)) && Change(s, id).all == s.all
  {
    var s1 := NewGate(s, id, true);
    assert s1 == s.(gates := s1.gates, gate := s1.gate);
    GoToComes(s1, id, ToChange(s, id).pc);
  }

  lemma UndoneComes(s: State, id: Id)
    requires id in s.jobs
    ensures Comes(s, Undone(s, id), id, ToUndone(s.jobs[id].previous)) && Undone(s, id).all == s.all
  {
    var s1 := DropGate(s, id);
    if s.jobs[id].previous.None? {
      GoToComes(s1, id, UndoSaving);
    } else {
      GoToComes(s, id, UndoVerifying);
    }
  }

  lemma UndoComes(s: State, id: Id)
    requires id in s.jobs
    ensures Comes(s, Undo(s, id), id, ToUndo(s, id)) && Undo(s, id).all == s.all
  {
    if id in s.children {
      GoToComes(s, id, UndoStopping(s.children[id]));
    } else {
      UndoneComes(s, id);
    }
  }

  // The steps.

  lemma ReserveComes(s: State, id: Id, busy: set<int>, valid: bool)
    requires MayReserve(s, id)
    ensures Comes(s, DoReserve(s, id, busy, valid), id, AfterReserve(s, id, busy, valid))
    ensures DoReserve(s, id, busy, valid).all == s.all
  {
    var job, port := s.jobs[id], ReservedPort(s, s.jobs[id], busy);
    if job.abandoned {
      FinishComes(s, id, Unchanged);
    } else if port.None? {
      FinishComes(s, id, Raised);
    } else {
      var r := Reserved(s, id, port.value);
      assert r.all == s.all && Aside(s, r, id) && Paused(r, id) == Paused(s, id);
      TakenComes(s, r, id, valid);
    }
  }

  lemma TakenComes(s: State, r: State, id: Id, valid: bool)
    requires id in s.jobs && Aside(s, r, id) && r.all == s.all && r.children == s.children
    requires !s.jobs[id].pc.Reporting? && !r.jobs[id].pc.Reporting? && Paused(r, id) == Paused(s, id)
    ensures Comes(s, Finish(r, id, Raised), id, Over(Raised)) && Finish(r, id, Raised).all == s.all
    ensures Comes(s, Drain(r, id), id, At(Draining(Paused(s, id), false))) && Drain(r, id).all == s.all
    ensures Comes(s, Change(r, id), id, ToChange(s, id)) && Change(r, id).all == s.all
  {
    FinishComes(r, id, Raised);
    DrainComes(r, id);
    ChangeComes(r, id);
    AsideComes(s, r, Finish(r, id, Raised), id, Over(Raised));
    AsideComes(s, r, Drain(r, id), id, At(Draining(Paused(s, id), false)));
    AsideComes(s, r, Change(r, id), id, ToChange(s, id));
  }

  lemma DrainEndsComes(s: State, id: Id, timedOut: bool)
    requires MayEndDrain(s, id, timedOut)
    ensures Comes(s, DoDrainEnds(s, id, timedOut), id, AfterDrainEnds(s, id))
            && DoDrainEnds(s, id, timedOut).all == s.all
  {
    var job := s.jobs[id];
    if job.abandoned {
      var r := SetPaused(s, id, job.pc.was);
      assert r == s.(gates := r.gates);
      FinishComes(r, id, Unchanged);
      AsideComes(s, r, Finish(r, id, Unchanged), id, Over(Unchanged));
    } else if job.task.Replace? {
      ChangeComes(s, id);
    } else {
      GoToComes(s, id, AfterDrainEnds(s, id).pc);
    }
  }

  lemma StopEndsComes(s: State, id: Id, ok: bool)
    requires MayEndStop(s, id)
    ensures Comes(s, DoStopEnds(s, id, ok), id, AfterStop(s, id, ok))
    ensures DoStopEnds(s, id, ok).all == if ok then StopChild(s, id, s.jobs[id].pc.h).all else s.all
  {
    if ok {
      StoppedComes(s, StopChild(s, id, s.jobs[id].pc.h), id);
    } else if s.jobs[id].pc.Stopping? && s.jobs[id].task.Replace? {
      UndoComes(s, id);
    } else {
      FinishComes(s, id, AfterStop(s, id, false).outcome);
    }
  }

  lemma StoppedComes(s: State, r: State, id: Id)
    requires MayEndStop(s, id) && r == StopChild(s, id, s.jobs[id].pc.h)
    ensures Comes(s, DoStopEnds(s, id, true), id, AfterStop(s, id, true)) && DoStopEnds(s, id, true).all == r.all
  {
    assert r == s.(all := r.all, children := r.children);
    if s.jobs[id].pc.Stopping? {
      assert DoStopEnds(s, id, true) == GoTo(r, id, AfterStop(s, id, true).pc);
      GoToComes(r, id, AfterStop(s, id, true).pc);
    } else if s.jobs[id].pc.UndoStopping? {
      assert DoStopEnds(s, id, true) == Undone(r, id);
      UndoneComes(r, id);
    } else {
      var u := DropGate(r, id);
      FinishComes(u, id, DeploymentModel.Stopped);
      AsideComes(s, u, Finish(u, id, DeploymentModel.Stopped), id, Over(DeploymentModel.Stopped));
    }
  }

  lemma VerifyEndsComes(s: State, id: Id, ok: bool, spawned: bool)
    requires MayEndVerify(s, id)
    ensures Comes(s, DoVerifyEnds(s, id, ok, spawned), id, AfterVerify(s, id, ok, spawned))
    ensures var t := DoVerifyEnds(s, id, ok, spawned);
            && |s.all| <= |t.all| && t.all[..|s.all|] == s.all
            && (|s.all| < |t.all| ==> t.all[|s.all|].alive)
            && (AfterVerify(s, id, ok, spawned) == At(Loading(|s.all|)) ==> |s.all| < |t.all|)
  {
    var job, c := s.jobs[id], AfterVerify(s, id, ok, spawned);
    if ok && !s.stopping && spawned && (job.pc.Verifying? || job.previous.Some?) {
      var r := Spawn(s, id, if job.pc.Verifying? then Candidate(job) else job.previous.value, ok);
      assert r == s.(all := r.all, children := r.children);
      GoToComes(r, id, c.pc);
    } else if job.pc.Verifying? {
      UndoComes(s, id);
    } else {
      FinishComes(s, id, Failed);
    }
  }

  lemma ReadyEndsComes(s: State, id: Id, ok: bool)
    requires MayEndReady(s, id)
    ensures Comes(s, DoReadyEnds(s, id, ok), id, AfterReady(s, id, ok))
    ensures DoReadyEnds(s, id, ok).all == if ok then MarkReady(s, s.jobs[id].pc.h, ok).all else s.all
  {
    if ok {
      ReadiedComes(s, MarkReady(s, s.jobs[id].pc.h, ok), id);
    } else if s.jobs[id].pc.Loading? {
      UndoComes(s, id);
    } else {
      FinishComes(s, id, Failed);
    }
  }

  /** Only children differ from `s` to `r`. */
  lemma ReadiedComes(s: State, r: State, id: Id)
    requires id in s.jobs && r == s.(all := r.all)
    ensures forall pc: Pc :: Comes(s, GoTo(r, id, pc), id, At(pc)) && GoTo(r, id, pc).all == r.all
    ensures var t := GoTo(SetPaused(r, id, false), id, UndoSaving); Comes(s, t, id, At(UndoSaving)) && t.all == r.all
  {
    forall pc: Pc ensures Comes(s, GoTo(r, id, pc), id, At(pc)) && GoTo(r, id, pc).all == r.all {
      GoToComes(r, id, pc);
    }
    OpenedComes(r, id, UndoSaving);
  }

  lemma OpenedComes(r: State, id: Id, pc: Pc)
    requires id in r.jobs
    ensures var t := GoTo(SetPaused(r, id, false), id, pc); Comes(r, t, id, At(pc)) && t.all == r.all
  {
    var u := SetPaused(r, id, false);
    assert u == r.(gates := u.gates);
    GoToComes(u, id, pc);
  }

  lemma CommitComes(s: State, id: Id, saved: bool)
    requires MayCommit(s, id)
    ensures Comes(s, DoCommit(s, id, saved), id, AfterCommit(s, id, saved)) && DoCommit(s, id, saved).all == s.all
  {
    var job := s.jobs[id];
    if !job.abandoned && Lives(s, job.pc.h) && saved {
      var r := Recorded(s, id, Note(id, Candidate(job), s.all[job.pc.h], job.abandoned));
      OpenedComes(r, id, Reporting(job.pc.h));
    } else {
      UndoComes(s, id);
    }
  }

  lemma ForgetComes(s: State, id: Id, saved: bool)
    requires MayForget(s, id)
    ensures Comes(s, DoForget(s, id, saved), id, Over(if saved then DeploymentModel.Stopped else Raised))
    ensures DoForget(s, id, saved).all == s.all
  {
    if saved {
      FinishComes(DropGate(s.(records := s.records - {id}, disk := s.records - {id}), id), id, DeploymentModel.Stopped);
    } else {
      FinishComes(s, id, Raised);
    }
  }

  lemma PersistComes(s: State, id: Id, saved: bool)
    requires MayPersist(s, id)
    ensures Comes(s, DoPersist(s, id, saved), id, Over(if saved then RolledBack else Failed))
    ensures DoPersist(s, id, saved).all == s.all
  {
    FinishComes(s.(disk := s.records), id, RolledBack);
    FinishComes(s, id, Failed);
  }

  lemma AbandonComes(s: State, id: Id)
    requires id in s.jobs && (s.jobs[id].pc.Reporting? || s.jobs[id].abandoned)
    ensures Comes(s, Abandoned(s, id), id, At(s.jobs[id].pc))
  {
  }

  /** Every step of a transition's own that does not abandon it takes it where
      `After` says. */
  lemma OwnStepComes(s: State, e: Event)
    requires OfJob(e) && Enabled(s, e)
    requires e.Abandon? ==> s.jobs[e.id].pc.Reporting? || s.jobs[e.id].abandoned
    ensures Comes(s, Next(s, e), e.id, After(s, e))
  {
    match e
    case Abandon(id) => AbandonComes(s, id);
    case Reserve(id, busy, valid) => ReserveComes(s, id, busy, valid);
    case IdleSeen(id) => GoToComes(s, id, s.jobs[id].pc.(woken := true));
    case DrainEnds(id, timedOut) => DrainEndsComes(s, id, timedOut);
    case StopEnds(id, ok) => StopEndsComes(s, id, ok);
    case VerifyEnds(id, ok, spawned) => VerifyEndsComes(s, id, ok, spawned);
    case ReadyEnds(id, ok) => ReadyEndsComes(s, id, ok);
    case Commit(id, saved) => CommitComes(s, id, saved);
    case Report(id) => FinishComes(s, id, Committed);
    case Persist(id, saved) => PersistComes(s, id, saved);
    case Forget(id, saved) => ForgetComes(s, id, saved);
    case CancelJob(id) => FinishComes(s, id, if s.jobs[id].pc.Reporting? then Committed else Raised);
  }

  // ----- a transition that goes well -----

  predicate Lives(s: State, h: nat) {
    h < |s.all| && s.all[h].alive
  }

  /** The transition goes where it was asked to go. */
  predicate OnCourse(s: State, job: Job) {
    || job.pc.Reporting?
    || (&& (job.abandoned ==> job.task.Remove? && !job.pc.Draining?)
        && match job.pc
           case AtRecords => job.task.Replace?
           case Draining(_, _) => true
           case Stopping(_) => true
           case Verifying => job.task.Replace?
           case Loading(h) => job.task.Replace? && Lives(s, h)
           case AtCommit(h) => job.task.Replace? && Lives(s, h)
           case OrphanStopping(_) => job.task.Remove?
           case AtForget => job.task.Remove?
           case _ => false)
  }

  /** A replacement was committed; a removal left nothing, or found nothing. */
  predicate AsAsked(task: Task, outcome: Outcome) {
    if task.Replace? then outcome == Committed else outcome == DeploymentModel.Stopped || outcome == Absent
  }

  predicate EndsAsAsked(e: Ending) {
    AsAsked(e.job.task, e.outcome)
  }

  ghost predicate GoesWell(s: State, k: nat) {
    && (k in s.waiting ==> !s.waiting[k].abandoned)
    && (forall id :: Mine(s, id, k) ==> OnCourse(s, s.jobs[id]))
    && (forall n :: 0 <= n < |s.endings| && s.endings[n].job.key == k ==> EndsAsAsked(s.endings[n]))
  }

  /** A way on from a step `e` at which the transition stays on course. */
  ghost predicate GoodControl(s: State, e: Event, job: Job, c: Control) {
    match c
    case Over(outcome) => AsAsked(job.task, outcome)
    case At(pc) =>
      || pc.Reporting?
      || (&& (job.abandoned ==> job.task.Remove? && !pc.Draining?) && !job.pc.Reporting?
          && (pc.AtRecords? || pc.Verifying? || pc.Loading? || pc.AtCommit? ==> job.task.Replace?)
          && (pc.AtForget? || pc.OrphanStopping? ==> job.task.Remove?)
          && (pc.Loading? ==> e.VerifyEnds? && pc.h == |s.all|)
          && (pc.AtCommit? ==> e.ReadyEnds? && Lives(s, pc.h))
          && !pc.UndoStopping? && !pc.UndoVerifying? && !pc.UndoLoading? && !pc.UndoSaving?)
  }

  /** Where a transition on course is taken by a step that does not fail. */
  lemma AfterOnCourse(s: State, e: Event, job: Job)
    requires OfJob(e) && Enabled(s, e) && ViewOk(ViewOf(s, e.id)) && job == s.jobs[e.id]
    requires OnCourse(s, job) && !StepFails(s, e, job.key)
    ensures GoodControl(s, e, job, After(s, e))
  {
  }

  ghost predicate WentWell(s: State, t: State, id: Id)
    requires id in s.jobs
  {
    && (id in t.jobs ==> OnCourse(t, t.jobs[id]))
    && (id !in t.jobs ==> exists f: Ending ::
       t.endings == s.endings + [f] && f.job.key == s.jobs[id].key && EndsAsAsked(f))
  }

  lemma ComesOnCourse(s: State, t: State, e: Event, id: Id, c: Control)
    requires id in s.jobs && Comes(s, t, id, c) && GoodControl(s, e, s.jobs[id], c)
    requires c.At? && (c.pc.Loading? || c.pc.AtCommit?) ==> Lives(t, c.pc.h)
    ensures WentWell(s, t, id)
  {
    if c.Over? {
      var f: Ending :|
        Adds(s, t, id, f, c.outcome);
      assert EndsAsAsked(f);
    }
  }

  /** The child a transition comes to await lives. */
  lemma ComesToALiveChild(s: State, e: Event, c: Control)
    requires OfJob(e) && Enabled(s, e) && c == After(s, e) && GoodControl(s, e, s.jobs[e.id], c)
    requires c.At? && (c.pc.Loading? || c.pc.AtCommit?)
    ensures Lives(Next(s, e), c.pc.h)
  {
    if e.VerifyEnds? {
      VerifyEndsComes(s, e.id, e.ok, e.spawned);
    } else {
      ReadyEndsComes(s, e.id, e.ok);
    }
  }

  lemma OwnStepGoodControl(s: State, e: Event)
    requires Inv(s) && OfJob(e) && Enabled(s, e) && OnCourse(s, s.jobs[e.id]) && !StepFails(s, e, s.jobs[e.id].key)
    ensures GoodControl(s, e, s.jobs[e.id], After(s, e))
  {
    assert ViewOk(ViewOf(s, e.id));
    AfterOnCourse(s, e, s.jobs[e.id]);
  }

  lemma OwnStepOnCourse(s: State, e: Event, t: State)
    requires Inv(s) && OfJob(e) && Enabled(s, e) && OnCourse(s, s.jobs[e.id]) && !StepFails(s, e, s.jobs[e.id].key)
    requires t == Next(s, e)
    ensures WentWell(s, t, e.id)
  {
    var c := After(s, e);
    if e.Abandon? && !s.jobs[e.id].pc.Reporting? && !s.jobs[e.id].abandoned {
      assert t == Abandoned(s, e.id);
    } else {
      OwnStepComes(s, e);
      OwnStepGoodControl(s, e);
      if c.At? && (c.pc.Loading? || c.pc.AtCommit?) {
        ComesToALiveChild(s, e, c);
      }
      ComesOnCourse(s, t, e, e.id, c);
    }
  }

  /** The events that may end a child's life, or start one, or tell of it. */
  predicate OfChildren(e: Event) {
    e.StopEnds? || e.VerifyEnds? || e.ReadyEnds? || e.ChildExits? || e.Sweep?
  }

  lemma JobsLeaveChildren(s: State, e: Event)
    requires OfJob(e) && !OfChildren(e) && Enabled(s, e)
    ensures Next(s, e).all == s.all
  {
    match e
    case Reserve(id, busy, valid) => ReserveComes(s, id, busy, valid);
    case DrainEnds(id, timedOut) => DrainEndsComes(s, id, timedOut);
    case Commit(id, saved) => CommitComes(s, id, saved);
    case Persist(id, saved) => PersistComes(s, id, saved);
    case Forget(id, saved) => ForgetComes(s, id, saved);
    case _ =>
  }

  lemma AcquireLeavesChildren(s: State, key: nat)
    requires MayAcquire(s, key)
    ensures DoAcquire(s, key).all == s.all
  {
    var w, r := s.waiting[key], Locked(s, key);
    assert r.all == s.all;
    if w.abandoned {
      FinishComes(r, w.id, Unchanged);
    } else if w.task.Remove? {
      DrainComes(r, w.id);
      FinishComes(r, w.id, Absent);
    }
  }

  lemma OthersLeaveChildren(s: State, e: Event)
    requires !OfJob(e) && !OfChildren(e) && Enabled(s, e)
    ensures Next(s, e).all == s.all
  {
    match e
    case Acquire(k) => AcquireLeavesChildren(s, k);
    case Arrive(k, id) => assert OnlyRequests(s, DoArrive(s, k, id));
    case Body(k, sends) => assert OnlyRequests(s, DoBody(s, k, sends));
    case Leave(k) => assert OnlyRequests(s, DoLeave(s, k));
    case _ =>
  }

  lemma StopEndsStopsItsChild(s: State, id: Id, ok: bool, h: nat)
    requires Inv(s) && MayEndStop(s, id) && Lives(s, h) && !Lives(DoStopEnds(s, id, ok), h)
    ensures ok && s.all[h].id == id
  {
    assert ViewOk(ViewOf(s, id));
    StopTarget(ViewOf(s, id));
    StopEndsComes(s, id, ok);
  }

  lemma VerifyEndsKillsNone(s: State, id: Id, ok: bool, spawned: bool, h: nat)
    requires MayEndVerify(s, id) && Lives(s, h)
    ensures Lives(DoVerifyEnds(s, id, ok, spawned), h)
  {
    VerifyEndsComes(s, id, ok, spawned);
    assert DoVerifyEnds(s, id, ok, spawned).all[..|s.all|][h] == s.all[h];
  }

  lemma ReadyEndsKillsNone(s: State, id: Id, ok: bool, h: nat)
    requires MayEndReady(s, id) && Lives(s, h)
    ensures Lives(DoReadyEnds(s, id, ok), h)
  {
    ReadyEndsComes(s, id, ok);
  }

  /** A child stops living only by its own exit, in a sweep, or because its
      deployment's transition stopped it. */
  lemma StaysAlive(s: State, e: Event, t: State, h: nat)
    requires Inv(s) && Enabled(s, e) && t == Next(s, e) && Lives(s, h) && !Lives(t, h)
    ensures || e == ChildExits(h)
            || (e.Sweep? && s.all[h].id in e.stopped)
            || (e.StopEnds? && e.ok && e.id == s.all[h].id)
  {
    if !OfChildren(e) && OfJob(e) {
      JobsLeaveChildren(s, e);
    } else if !OfChildren(e) {
      OthersLeaveChildren(s, e);
    } else if e.StopEnds? {
      StopEndsStopsItsChild(s, e.id, e.ok, h);
    } else if e.VerifyEnds? {
      VerifyEndsKillsNone(s, e.id, e.ok, e.spawned, h);
    } else if e.ReadyEnds? {
      ReadyEndsKillsNone(s, e.id, e.ok, h);
    }
  }

  lemma AwaitedChild(s: State, id: Id)
    requires Inv(s) && id in s.jobs && (s.jobs[id].pc.Loading? || s.jobs[id].pc.AtCommit?)
    ensures s.jobs[id].pc.h < |s.all| && s.all[s.jobs[id].pc.h].id == id
  {
    assert ViewOk(ViewOf(s, id));
    assert s.children[id] == s.jobs[id].pc.h;
  }

  /** What others do leaves a transition on course. */
  lemma OthersStepOnCourse(s: State, e: Event, t: State, id: Id)
    requires Inv(s) && id in s.jobs && OnCourse(s, s.jobs[id]) && !StepFails(s, e, s.jobs[id].key)
    requires Enabled(s, e) && t == Next(s, e) && !(OfJob(e) && e.id == id)
    ensures OnCourse(t, s.jobs[id])
  {
    var pc := s.jobs[id].pc;
    if pc.Loading? || pc.AtCommit? {
      AwaitedChild(s, id);
      assert Mine(s, id, s.jobs[id].key) && AwaitsChild(pc, pc.h);
      if Lives(s, pc.h) && !Lives(t, pc.h) {
        StaysAlive(s, e, t, pc.h);
      }
    }
  }

  lemma JobOnCourse(s: State, e: Event, t: State, k: nat, id: Id)
    requires Inv(s) && GoesWell(s, k) && !StepFails(s, e, k) && OfJob(e) && Enabled(s, e)
    requires t == Next(s, e) && Advances(s, t, e.id) && Mine(t, id, k)
    ensures OnCourse(t, t.jobs[id])
  {
    SameJob(s, t, e.id, id);
    assert Mine(s, id, k);
    if id == e.id {
      OwnStepOnCourse(s, e, t);
    } else {
      assert Lookup(t.jobs, id) == Lookup(s.jobs, id);
      OthersStepOnCourse(s, e, t, id);
    }
  }

  /** If an ending is added it is that of the transition that took the step. */
  lemma EndingAdded(s: State, t: State, f: Ending, k: nat)
    requires GoesWell(s, k) && t.endings == s.endings + [f] && (f.job.key == k ==> EndsAsAsked(f))
    ensures forall n :: 0 <= n < |t.endings| && t.endings[n].job.key == k ==> EndsAsAsked(t.endings[n])
  {
    forall n | 0 <= n < |t.endings| && t.endings[n].job.key == k ensures EndsAsAsked(t.endings[n]) {
      assert n < |s.endings| ==> t.endings[n] == s.endings[n];
    }
  }

  lemma JobGoesWell(s: State, e: Event, k: nat)
    requires Inv(s) && GoesWell(s, k) && !StepFails(s, e, k) && OfJob(e) && Enabled(s, e)
    ensures GoesWell(Next(s, e), k)
  {
    var t := Next(s, e);
    JobKeeps(s, e);
    forall id | Mine(t, id, k) ensures OnCourse(t, t.jobs[id]) {
      JobOnCourse(s, e, t, k, id);
    }
    if e.id !in t.jobs {
      if s.jobs[e.id].key == k {
        OwnStepOnCourse(s, e, t);
        var f: Ending :| t.endings == s.endings + [f] && f.job.key == s.jobs[e.id].key && EndsAsAsked(f);
        EndingAdded(s, t, f, k);
      } else {
        var f: Ending :| t.endings == s.endings + [f] && EndsJob(f, s.jobs[e.id]);
        EndingAdded(s, t, f, k);
      }
    }
  }

  /** Where the taking of its lock takes a transition. */
  function AfterAcquire(s: State, key: nat): Control
    requires MayAcquire(s, key)
  {
    var w := s.waiting[key];
    if w.abandoned then Over(Unchanged)
    else if w.task.Replace? then At(AtRecords)
    else if w.id in s.records then At(Draining(Paused(s, w.id), false))
    else if w.id in s.children then At(OrphanStopping(s.children[w.id]))
    else Over(Absent)
  }

  lemma AcquireComes(s: State, key: nat)
    requires MayAcquire(s, key)
    ensures Comes(Locked(s, key), DoAcquire(s, key), s.waiting[key].id, AfterAcquire(s, key))
  {
    var w, r, c := s.waiting[key], Locked(s, key), AfterAcquire(s, key);
    if c.Over? {
      FinishComes(r, w.id, c.outcome);
    } else if c.pc.Draining? {
      assert Paused(r, w.id) == Paused(s, w.id);
      DrainComes(r, w.id);
    } else {
      GoToComes(r, w.id, c.pc);
    }
  }

  lemma AcquiredOnCourse(s: State, key: nat, t: State, k: nat, j: Id)
    requires Inv(s) && GoesWell(s, k) && MayAcquire(s, key) && t == DoAcquire(s, key)
    requires Advances(Locked(s, key), t, s.waiting[key].id) && Mine(t, j, k)
    ensures OnCourse(t, t.jobs[j])
  {
    if j == s.waiting[key].id {
      AcquireComes(s, key);
    } else {
      assert Lookup(t.jobs, j) == Lookup(Locked(s, key).jobs, j) == Lookup(s.jobs, j);
      assert Mine(s, j, k);
      OthersStepOnCourse(s, Acquire(key), t, j);
    }
  }

  lemma AcquiredEndsWell(s: State, key: nat, k: nat)
    requires GoesWell(s, k) && MayAcquire(s, key)
    ensures var t := DoAcquire(s, key);
            forall n :: 0 <= n < |t.endings| && t.endings[n].job.key == k ==> EndsAsAsked(t.endings[n])
  {
    var id, r, t := s.waiting[key].id, Locked(s, key), DoAcquire(s, key);
    AcquireComes(s, key);
    if id !in t.jobs {
      var outcome := AfterAcquire(s, key).outcome;
      var f: Ending :| Adds(r, t, id, f, outcome);
      EndingAdded(s, t, f, k);
    }
  }

  lemma AcquireGoesWell(s: State, key: nat, k: nat)
    requires Inv(s) && KeysOk(s) && GoesWell(s, k) && MayAcquire(s, key)
    ensures GoesWell(DoAcquire(s, key), k)
  {
    AcquireKeeps(s, key);
    forall j | Mine(DoAcquire(s, key), j, k) ensures OnCourse(DoAcquire(s, key), DoAcquire(s, key).jobs[j]) {
      AcquiredOnCourse(s, key, DoAcquire(s, key), k, j);
    }
    AcquiredEndsWell(s, key, k);
  }

  lemma OtherGoesWell(s: State, e: Event, k: nat)
    requires Inv(s) && KeysOk(s) && GoesWell(s, k) && !StepFails(s, e, k)
    requires Enabled(s, e) && !OfJob(e) && !e.Acquire?
    ensures GoesWell(Next(s, e), k)
  {
    var t := Next(s, e);
    if !e.Ask? && !e.AbandonWaiter? {
      OthersLeaveTransitions(s, e);
    }
    assert t.jobs == s.jobs && t.endings == s.endings;
    forall id | Mine(t, id, k) ensures OnCourse(t, t.jobs[id]) {
      assert Mine(s, id, k);
      OthersStepOnCourse(s, e, t, id);
    }
  }

  lemma NextGoesWell(s: State, e: Event, k: nat)
    requires Inv(s) && KeysOk(s) && GoesWell(s, k) && !StepFails(s, e, k)
    ensures GoesWell(Next(s, e), k)
  {
    if Enabled(s, e) {
      if OfJob(e) {
        JobGoesWell(s, e, k);
      } else if e.Acquire? {
        AcquireGoesWell(s, e.key, k);
      } else {
        OtherGoesWell(s, e, k);
      }
    }
  }

  ghost predicate NoStepFails(s: State, events: seq<Event>, k: nat)
    decreases |events|
  {
    events == [] || (!StepFails(s, events[0], k) && NoStepFails(Next(s, events[0]), events[1..], k))
  }

  lemma {:induction false} RunGoesWell(s: State, events: seq<Event>, k: nat)
    requires Inv(s) && KeysOk(s) && GoesWell(s, k) && NoStepFails(s, events, k)
    ensures GoesWell(Run(s, events), k)
    decreases |events|
  {
    if events != [] {
      NextGoesWell(s, events[0], k);
      NextKeepsKeys(s, events[0], k);
      NextKeeps(s, events[0]);
      RunGoesWell(Next(s, events[0]), events[1..], k);
    }
  }

  /** However it interleaves with everything else, a transition none of whose own
      steps fails ends as it was asked: a replacement committed, a removal with
      nothing left. */
  lemma SucceedsUnlessAStepFails(s: State, events: seq<Event>, k: nat)
    requires Init(s) && NoStepFails(s, events, k)
    ensures var t := Run(s, events);
            forall n :: 0 <= n < |t.endings| && t.endings[n].job.key == k ==> EndsAsAsked(t.endings[n])
  {
    InitKeeps(s);
    RunGoesWell(s, events, k);
  }

  // ----- a rollback that goes well -----

  ghost predicate EndedFailed(s: State, t: State) {
    |t.endings| == |s.endings| + 1 && t.endings[|s.endings|].outcome == Failed
  }

  /** A transition is told to have failed by a failure of its rollback, and by
      nothing else. */
  lemma FailsByItsRollback(s: State, e: Event)
    requires Inv(s) && OfJob(e) && Enabled(s, e) && After(s, e) == Over(Failed)
    ensures RollbackFails(s, e, s.jobs[e.id].key)
  {
    assert ViewOk(ViewOf(s, e.id));
    if e.VerifyEnds? {
      VerifyingIsEmpty(ViewOf(s, e.id));
    }
  }

  /** If a step adds an ending told to have failed, it is a failure of that
      transition's rollback. */
  lemma OwnFailure(s: State, e: Event)
    requires Inv(s) && OfJob(e) && Enabled(s, e) && EndedFailed(s, Next(s, e))
    ensures RollbackFails(s, e, Next(s, e).endings[|s.endings|].job.key)
  {
    var t := Next(s, e);
    if !e.Abandon? {
      OwnStepComes(s, e);
      var outcome := After(s, e).outcome;
      var f: Ending :| Adds(s, t, e.id, f, outcome);
      assert t.endings[|s.endings|] == f;
      FailsByItsRollback(s, e);
    }
  }

  lemma AcquireNeverFails(s: State, key: nat)
    requires MayAcquire(s, key)
    ensures !EndedFailed(s, DoAcquire(s, key))
  {
    var id, r, t := s.waiting[key].id, Locked(s, key), DoAcquire(s, key);
    AcquireComes(s, key);
    if id !in t.jobs {
      var outcome := AfterAcquire(s, key).outcome;
      var f: Ending :| Adds(r, t, id, f, outcome);
      assert t.endings[|s.endings|] == f;
    }
  }

  ghost predicate NotFailed(s: State, k: nat) {
    forall n :: 0 <= n < |s.endings| && s.endings[n].job.key == k ==> s.endings[n].outcome != Failed
  }

  lemma NotFailedAfter(s: State, t: State, k: nat)
    requires NotFailed(s, k)
    requires t.endings == s.endings || (|t.endings| == |s.endings| + 1 && t.endings[..|s.endings|] == s.endings)
    requires EndedFailed(s, t) ==> t.endings[|s.endings|].job.key != k
    ensures NotFailed(t, k)
  {
    forall n | 0 <= n < |t.endings| && t.endings[n].job.key == k ensures t.endings[n].outcome != Failed {
      assert n < |s.endings| ==> t.endings[n] == t.endings[..|s.endings|][n] == s.endings[n];
    }
  }

  lemma NextNotFailed(s: State, e: Event, k: nat)
    requires Inv(s) && NotFailed(s, k) && !RollbackFails(s, e, k)
    ensures NotFailed(Next(s, e), k)
  {
    NextKeeps(s, e);
    assert EndsWell(s, Next(s, e));
    if EndedFailed(s, Next(s, e)) {
      if OfJob(e) {
        OwnFailure(s, e);
      } else if e.Acquire? {
        AcquireNeverFails(s, e.key);
      } else if !e.Ask? && !e.AbandonWaiter? {
        OthersLeaveTransitions(s, e);
      }
    }
    NotFailedAfter(s, Next(s, e), k);
  }

  predicate NoRollbackFails(s: State, events: seq<Event>, k: nat)
    decreases |events|
  {
    events == [] || (!RollbackFails(s, events[0], k) && NoRollbackFails(Next(s, events[0]), events[1..], k))
  }

  lemma {:induction false} RunNotFailed(s: State, events: seq<Event>, k: nat)
    requires Inv(s) && NotFailed(s, k) && NoRollbackFails(s, events, k)
    ensures NotFailed(Run(s, events), k)
    decreases |events|
  {
    if events != [] {
      NextNotFailed(s, events[0], k);
      NextKeeps(s, events[0]);
      RunNotFailed(Next(s, events[0]), events[1..], k);
    }
  }

  /** In every run a replacement is told to have failed, rather than to have been
      rolled back, only if the stop, the checks, the spawn, the readiness wait or the
      save of its own rollback failed, or the agent was stopping. */
  lemma FailedOnlyByItsRollback(s: State, events: seq<Event>, k: nat)
    requires Init(s) && NoRollbackFails(s, events, k)
    ensures var t := Run(s, events);
            forall n :: 0 <= n < |t.endings| && t.endings[n].job.key == k ==> t.endings[n].outcome != Failed
  {
    InitKeeps(s);
    RunNotFailed(s, events, k);
  }

  // ----- every transition ends -----

  /** How many steps of its own a transition has before it at most. */
  function StepsLeft(pc: Pc): nat {
    match pc
    case AtRecords => 11
    case Draining(_, woken) => if woken then 9 else 10
    case Stopping(_) => 8
    case Verifying => 7
    case Loading(_) => 6
    case AtCommit(_) => 5
    case UndoStopping(_) => 4
    case UndoVerifying => 3
    case UndoLoading(_) => 2
    case UndoSaving => 1
    case Reporting(_) => 1
    case OrphanStopping(_) => 1
    case AtForget => 1
  }

  /** Each step of a transition's own brings it nearer to its end; being abandoned,
      or woken twice, takes it no further from it. */
  lemma OwnStepsRunOut(s: State, e: Event)
    requires OfJob(e) && Enabled(s, e) && e.id in Next(s, e).jobs
    ensures var before, now := StepsLeft(s.jobs[e.id].pc), StepsLeft(Next(s, e).jobs[e.id].pc);
            if e.Abandon? || (e.IdleSeen? && s.jobs[e.id].pc.woken) then now == before else now < before
  {
    if !e.Abandon? {
      OwnStepComes(s, e);
      AfterIsNearer(s, e);
    }
  }

  lemma AfterIsNearer(s: State, e: Event)
    requires OfJob(e) && Enabled(s, e) && !e.Abandon? && After(s, e).At?
    ensures var before, now := StepsLeft(s.jobs[e.id].pc), StepsLeft(After(s, e).pc);
            if e.IdleSeen? && s.jobs[e.id].pc.woken then now == before else now < before
  {
  }

  /** And there is always one it can take, whatever others do, without being
      abandoned or cancelled. */
  lemma NeverStuck(s: State, id: Id)
    requires id in s.jobs
    ensures exists e :: OfJob(e) && e.id == id && Enabled(s, e) && !e.Abandon? && !e.IdleSeen? && !e.CancelJob?
  {
    var e := match s.jobs[id].pc
      case AtRecords => Reserve(id, {}, true)
      case Draining(_, _) => DrainEnds(id, true)
      case Stopping(_) => StopEnds(id, true)
      case Verifying => VerifyEnds(id, true, true)
      case Loading(_) => ReadyEnds(id, true)
      case AtCommit(_) => Commit(id, true)
      case UndoStopping(_) => StopEnds(id, true)
      case UndoVerifying => VerifyEnds(id, true, true)
      case UndoLoading(_) => ReadyEnds(id, true)
      case UndoSaving => Persist(id, true)
      case Reporting(_) => Report(id)
      case OrphanStopping(_) => StopEnds(id, true)
      case AtForget => Forget(id, true);
    assert OfJob(e) && e.id == id && Enabled(s, e);
  }
}
