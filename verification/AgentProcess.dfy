/** The agent as the object it is: its maps are fields, and each stretch of a
    coroutine between two awaits is a method that reassigns them.  Every method
    that ends a stretch takes the state where `DeploymentModel.Next` takes it, and
    so keeps the invariant whose consequences `DeploymentTheorems` states. */
module AgentProcess {
  import opened Prelude
  import opened DeploymentModel
  import opened DeploymentInvariants
  import opened DeploymentSteps
  import opened DeploymentTheorems

  lemma ChildrenAreTheirIds(s: State)
    requires Inv(s)
    ensures forall id :: id in s.children ==> s.children[id] < |s.all| && s.all[s.children[id]].id == id
  {
    forall id | id in s.children ensures s.children[id] < |s.all| && s.all[s.children[id]].id == id {
      assert ViewOk(ViewOf(s, id));
    }
  }

  lemma LeftSound(s: State, key: nat, t: State)
    requires Inv(s) && MayLeave(s, key) && t == DoLeave(s, key)
    ensures Inv(t) && t == Next(s, Leave(key))
  {
    LeaveKeeps(s, key);
  }

  lemma SweepNone(s: State)
    ensures DoSweep(s, {}) == s
  {
    assert DoSweep(s, {}).all == s.all;
  }

  /** One child more that is stopped. */
  lemma SweepOneMore(s: State, done: set<Id>, id: Id)
    requires id in s.children && s.children[id] < |s.all| && s.all[s.children[id]].id == id
    ensures var t, h := DoSweep(s, done), s.children[id];
            DoSweep(s, done + {id}) == t.(all := t.all[h := t.all[h].(alive := false)])
  {
    var t, h := DoSweep(s, done), s.children[id];
    assert DoSweep(s, done + {id}).all == t.all[h := t.all[h].(alive := false)];
  }

  /** A sweep only ever stops what is registered. */
  lemma SweepRegistered(s: State, stopped: set<Id>)
    requires forall id :: id in s.children ==> s.children[id] < |s.all| && s.all[s.children[id]].id == id
    ensures DoSweep(s, s.children.Keys * stopped) == DoSweep(s, stopped)
  {
    assert DoSweep(s, s.children.Keys * stopped).all == DoSweep(s, stopped).all;
  }

  lemma SweptSound(s: State, stopped: set<Id>, t: State)
    requires Inv(s) && s.stopping && t == DoSweep(s, stopped)
    ensures Inv(t) && t == Next(s, Sweep(stopped))
            && (s.children.Keys <= stopped ==> forall h :: 0 <= h < |t.all| ==> !t.all[h].alive)
  {
    NextIsValid(s, Sweep(stopped));
    if s.children.Keys <= stopped {
      SweepStopsAll(s, stopped);
    }
  }

  /** A dictionary's keys in its order. */
  ghost predicate Lists(order: seq<Id>, keys: set<Id>) {
    && (forall id :: id in order <==> id in keys)
    && forall i, j :: 0 <= i < j < |order| ==> order[i] != order[j]
  }

  /** The first whose stop failed, if any did. */
  ghost predicate FirstFailure(order: seq<Id>, stopped: set<Id>, failed: Option<Id>) {
    if failed.None? then forall id :: id in order ==> id in stopped
    else exists n :: 0 <= n < |order| && order[n] == failed.value && order[n] !in stopped
                     && forall i :: 0 <= i < n ==> order[i] in stopped
  }

  /** How the start of a recorded deployment comes out: its files' checks, the rest
      of the start, and, if one fails, whether with an error that start-up logs and
      leaves behind. */
  datatype Startup = Startup(verified: bool, spawned: bool, caught: bool) {
    predicate Succeeds() {
      verified && spawned
    }

    predicate Breaks() {
      !Succeeds() && !caught
    }
  }

  /** The first n have been tried: those that could start are registered, and the
      start-up went on unless the next one's start broke it. */
  ghost predicate StartedUpTo(order: seq<Id>, startups: Id -> Startup, n: nat, started: set<Id>, broken: Option<Id>)
    requires n <= |order|
  {
    && (forall i :: 0 <= i < n ==> !startups(order[i]).Breaks())
    && (forall id :: id in started <==> id in order[..n] && startups(id).Succeeds())
    && if n == |order| then broken.None? else broken == Some(order[n]) && startups(order[n]).Breaks()
  }

  class Agent {
    const agentPort: int
    var records: map<Id, Record>
    var disk: map<Id, Record>
    var all: seq<Child>
    var children: map<Id, nat>
    var gates: seq<Gate>
    var gate: map<Id, nat>
    var reservations: set<int>
    var stopping: bool
    var waiting: map<nat, Waiter>
    var asked: nat
    var jobs: map<Id, Job>
    var requests: map<nat, Request>
    ghost var endings: seq<Ending>
    ghost var notes: seq<Note>

    ghost function Now(): State
      reads this
    {
      State(agentPort, records, disk, all, children, gates, gate, reservations, stopping, waiting, asked, jobs,
        requests, endings, notes)
    }

    ghost predicate Valid()
      reads this
    {
      Inv(Now())
    }

    constructor (agentPort: int, records: map<Id, Record>)
      ensures this.agentPort == agentPort && this.records == records && disk == records
      ensures Now() == State(agentPort, records, records, [], map[], [], map[], {}, false, map[], 0, map[], map[], [],
              [])
    {
      this.agentPort := agentPort;
      this.records, disk := records, records;
      all, children, gates, gate := [], map[], [], map[];
      reservations, stopping, waiting, asked := {}, false, map[], 0;
      jobs, requests, endings, notes := map[], map[], [], [];
    }

    /** Starts the recorded deployments, in the order of the configuration.  One whose
        start raises an OSError or a ValueError is left out; any other exception ends
        the start-up, with what had started before it registered for the last sweep. */
    method StartDeployments(order: seq<Id>, startups: Id -> Startup) returns (broken: Option<Id>)
      requires all == [] && children == map[] && gates == [] && gate == map[] && reservations == {} && !stopping
      requires waiting == map[] && asked == 0 && jobs == map[] && requests == map[] && endings == [] && notes == []
      requires disk == records && Lists(order, records.Keys)
      requires forall i, j :: i in records && j in records && i != j ==> records[i].port != records[j].port
      requires forall i :: i in records ==> records[i].port != agentPort
      modifies `all, `children
      ensures Init(Now()) && Valid()
      ensures forall h :: 0 <= h < |all| ==> all[h].verified
      ensures exists n: nat :: n <= |order| && StartedUpTo(order, startups, n, children.Keys, broken)
    {
      broken := StartRecorded(order, startups);
      InitKeeps(Now());
    }

    /** Each child is registered under its id, and runs its record. */
    ghost predicate RunsRecords()
      reads this
    {
      && (forall i :: i in children ==>
            i in records && children[i] < |all| && all[children[i]].id == i && all[children[i]].record == records[i])
      && (forall h :: 0 <= h < |all| ==> Lookup(children, all[h].id) == Some(h) && all[h].verified)
    }

    method TryStart(id: Id, startup: Startup)
      requires RunsRecords() && id in records && id !in children
      modifies `all, `children
      ensures RunsRecords()
      ensures children.Keys == old(children).Keys + if startup.Succeeds() then {id} else {}
    {
      if startup.verified && startup.spawned {
        Start(id, records[id], startup.verified);
      }
    }

    method StartRecorded(order: seq<Id>, startups: Id -> Startup) returns (broken: Option<Id>)
      requires all == [] && children == map[] && Lists(order, records.Keys)
      modifies `all, `children
      ensures RunsRecords()
      ensures exists n: nat :: n <= |order| && StartedUpTo(order, startups, n, children.Keys, broken)
    {
      for n := 0 to |order|
        invariant RunsRecords()
        invariant forall i :: 0 <= i < n ==> !startups(order[i]).Breaks()
        invariant forall id :: id in children <==> id in order[..n] && startups(id).Succeeds()
      {
        var id := order[n];
        if startups(id).Breaks() {
          assert StartedUpTo(order, startups, n, children.Keys, Some(id));
          return Some(id);
        }
        assert order[..n + 1] == order[..n] + [id];
        TryStart(id, startups(id));
      }
      broken := None;
      assert StartedUpTo(order, startups, |order|, children.Keys, broken);
    }

    // ----- gates, children, ports -----

    method SetGate(id: Id, paused: bool)
      modifies `gates
      ensures Now() == SetPaused(old(Now()), id, paused)
    {
      if id in gate && gate[id] < |gates| {
        gates := gates[gate[id] := gates[gate[id]].(paused := paused)];
      }
    }

    method AddGate(id: Id, paused: bool)
      modifies `gates, `gate
      ensures Now() == NewGate(old(Now()), id, paused)
    {
      gates, gate := gates + [Gate(id, paused, 0, true)], gate[id := |gates|];
    }

    method EnsureGate(id: Id)
      modifies `gates, `gate
      ensures Now() == DefaultGate(old(Now()), id)
    {
      if id !in gate {
        AddGate(id, false);
      }
    }

    method Start(id: Id, record: Record, verified: bool)
      modifies `all, `children
      ensures Now() == Spawn(old(Now()), id, record, verified)
    {
      all, children := all + [Child(id, record, true, verified, false)], children[id := |all|];
    }

    /** stop_deployment once process.stop has returned. */
    method Unregister(id: Id, h: nat)
      modifies `all, `children
      ensures Now() == StopChild(old(Now()), id, h)
    {
      if h < |all| {
        all := all[h := all[h].(alive := false)];
      }
      if id in children && children[id] == h {
        children := children - {id};
      }
    }

    method FreePort(busy: set<int>) returns (port: Option<int>)
      ensures port == FirstFree(FIRST_PORT, Taken(Now()) + busy)
    {
      var taken := (set id | id in records :: records[id].port)
                   + (set id | id in children && children[id] < |all| :: all[children[id]].record.port)
                   + reservations + {agentPort};
      for p := FIRST_PORT to END_PORT
        invariant FirstFree(FIRST_PORT, taken + busy) == FirstFree(p, taken + busy)
      {
        if p !in taken && p !in busy {
          return Some(p);
        }
      }
      return None;
    }

    // ----- parts of a transition -----

    method Await(id: Id, pc: Pc)
      requires id in jobs
      modifies `jobs
      ensures Now() == GoTo(old(Now()), id, pc)
    {
      jobs := jobs[id := jobs[id].(pc := pc)];
    }

    method Return(id: Id, outcome: Outcome)
      requires id in jobs
      modifies `jobs, `reservations, `endings
      ensures Now() == Finish(old(Now()), id, outcome)
    {
      if jobs[id].port.Some? {
        reservations := reservations - {jobs[id].port.value};
      }
      endings := endings + [Ending(id, jobs[id], outcome)];
      jobs := jobs - {id};
    }

    /** quiesce up to its await. */
    method Quiesce(id: Id)
      requires id in jobs
      modifies `gates, `gate, `jobs
      ensures Now() == Drain(old(Now()), id)
    {
      EnsureGate(id);
      var was := gate[id] < |gates| && gates[gate[id]].paused;
      SetGate(id, true);
      Await(id, Draining(was, false));
    }

    method BeginChange(id: Id)
      requires id in jobs
      modifies `gates, `gate, `jobs
      ensures Now() == Change(old(Now()), id)
    {
      AddGate(id, true);
      if id in children {
        Await(id, Stopping(children[id]));
      } else {
        Await(id, Verifying);
      }
    }

    method Rollback(id: Id)
      requires id in jobs
      modifies `gate, `jobs
      ensures Now() == Undo(old(Now()), id)
    {
      if id in children {
        Await(id, UndoStopping(children[id]));
      } else {
        RollbackStopped(id);
      }
    }

    method RollbackStopped(id: Id)
      requires id in jobs
      modifies `gate, `jobs
      ensures Now() == Undone(old(Now()), id)
    {
      if jobs[id].previous.None? {
        gate := gate - {id};
        Await(id, UndoSaving);
      } else {
        Await(id, UndoVerifying);
      }
    }

    // ----- the stretches of a transition -----

    method LockAcquired(key: nat)
      requires Valid() && MayAcquire(Now(), key)
      modifies this
      ensures Now() == Next(old(Now()), Acquire(key)) && Valid()
    {
      LockTaken(key);
      NextIsValid(old(Now()), Acquire(key));
    }

    method LockTaken(key: nat)
      requires MayAcquire(Now(), key)
      modifies `waiting, `jobs, `gates, `gate, `reservations, `endings
      ensures Now() == DoAcquire(old(Now()), key)
    {
      var w := waiting[key];
      var previous := Lookup(records, w.id);
      var paused := w.id in gate && gate[w.id] < |gates| && gates[gate[w.id]].paused;
      waiting := waiting - {key};
      jobs := jobs[w.id := Job(key, w.task, w.abandoned, previous, Lookup(children, w.id), paused, None, AtRecords)];
      if w.abandoned {
        Return(w.id, Unchanged);
      } else if w.task.Remove? {
        if previous.Some? {
          Quiesce(w.id);
        } else if w.id in children {
          Await(w.id, OrphanStopping(children[w.id]));
        } else {
          Return(w.id, Absent);
        }
      }
    }

    method PortReserved(id: Id, busy: set<int>, valid: bool)
      requires Valid() && MayReserve(Now(), id)
      modifies this
      ensures Now() == Next(old(Now()), Reserve(id, busy, valid)) && Valid()
    {
      PortTaken(id, busy, valid);
      NextIsValid(old(Now()), Reserve(id, busy, valid));
    }

    method PortTaken(id: Id, busy: set<int>, valid: bool)
      requires MayReserve(Now(), id)
      modifies `jobs, `gates, `gate, `reservations, `endings
      ensures Now() == DoReserve(old(Now()), id, busy, valid)
    {
      var job := jobs[id];
      if job.abandoned {
        Return(id, Unchanged);
        return;
      }
      var port := None;
      if job.previous.Some? {
        port := Some(job.previous.value.port);
      } else {
        port := FreePort(busy);
      }
      if port.None? {
        Return(id, Raised);
      } else {
        reservations := reservations + {port.value};
        jobs := jobs[id := job.(port := port)];
        if !valid {
          Return(id, Raised);
        } else if job.previous.Some? {
          Quiesce(id);
        } else {
          BeginChange(id);
        }
      }
    }

    method DrainEnded(id: Id, timedOut: bool)
      requires Valid() && MayEndDrain(Now(), id, timedOut)
      modifies this
      ensures Now() == Next(old(Now()), DrainEnds(id, timedOut)) && Valid()
    {
      Drained(id, timedOut);
      NextIsValid(old(Now()), DrainEnds(id, timedOut));
    }

    method Drained(id: Id, timedOut: bool)
      requires MayEndDrain(Now(), id, timedOut)
      modifies `jobs, `gates, `gate, `reservations, `endings
      ensures Now() == DoDrainEnds(old(Now()), id, timedOut)
    {
      var job := jobs[id];
      if job.abandoned {
        SetGate(id, job.pc.was);
        Return(id, Unchanged);
      } else if job.task.Replace? {
        BeginChange(id);
      } else if id in children {
        Await(id, Stopping(children[id]));
      } else {
        Await(id, AtForget);
      }
    }

    method StopEnded(id: Id, ok: bool)
      requires Valid() && MayEndStop(Now(), id)
      modifies this
      ensures Now() == Next(old(Now()), StopEnds(id, ok)) && Valid()
    {
      ChildStopped(id, ok);
      NextIsValid(old(Now()), StopEnds(id, ok));
    }

    method ChildStopped(id: Id, ok: bool)
      requires MayEndStop(Now(), id)
      modifies `all, `children, `jobs, `gate, `reservations, `endings
      ensures Now() == DoStopEnds(old(Now()), id, ok)
    {
      if ok {
        ChildGone(id);
      } else if jobs[id].pc.Stopping? && jobs[id].task.Replace? {
        Rollback(id);
      } else {
        Return(id, if jobs[id].pc.UndoStopping? then Failed else Raised);
      }
    }

    method ChildGone(id: Id)
      requires MayEndStop(Now(), id)
      modifies `all, `children, `jobs, `gate, `reservations, `endings
      ensures Now() == DoStopEnds(old(Now()), id, true)
    {
      var job := jobs[id];
      Unregister(id, job.pc.h);
      if job.pc.Stopping? {
        Await(id, if job.task.Replace? then Verifying else AtForget);
      } else if job.pc.UndoStopping? {
        RollbackStopped(id);
      } else {
        gate := gate - {id};
        Return(id, DeploymentModel.Stopped);
      }
    }

    method VerifyEnded(id: Id, ok: bool, spawned: bool)
      requires Valid() && MayEndVerify(Now(), id)
      modifies this
      ensures Now() == Next(old(Now()), VerifyEnds(id, ok, spawned)) && Valid()
    {
      FilesVerified(id, ok, spawned);
      NextIsValid(old(Now()), VerifyEnds(id, ok, spawned));
    }

    method FilesVerified(id: Id, ok: bool, spawned: bool)
      requires MayEndVerify(Now(), id)
      modifies `all, `children, `jobs, `gate, `reservations, `endings
      ensures Now() == DoVerifyEnds(old(Now()), id, ok, spawned)
    {
      var job := jobs[id];
      var h := |all|;
      if ok && !stopping && spawned {
        if job.pc.Verifying? {
          Start(id, Candidate(job), ok);
          Await(id, Loading(h));
        } else if job.previous.Some? {
          Start(id, job.previous.value, ok);
          Await(id, UndoLoading(h));
        } else {
          Return(id, Failed);
        }
      } else if job.pc.Verifying? {
        Rollback(id);
      } else {
        Return(id, Failed);
      }
    }

    method ReadyEnded(id: Id, ok: bool)
      requires Valid() && MayEndReady(Now(), id)
      modifies this
      ensures Now() == Next(old(Now()), ReadyEnds(id, ok)) && Valid()
    {
      ChildReady(id, ok);
      NextIsValid(old(Now()), ReadyEnds(id, ok));
    }

    method ChildReady(id: Id, ok: bool)
      requires MayEndReady(Now(), id)
      modifies `all, `jobs, `gates, `gate, `reservations, `endings
      ensures Now() == DoReadyEnds(old(Now()), id, ok)
    {
      var job := jobs[id];
      var h := job.pc.h;
      if ok && h < |all| {
        all := all[h := all[h].(ready := ok)];
      }
      if job.pc.Loading? {
        if ok {
          Await(id, AtCommit(h));
        } else {
          Rollback(id);
        }
      } else if ok {
        SetGate(id, false);
        Await(id, UndoSaving);
      } else {
        Return(id, Failed);
      }
    }

    /** The commit, with records_lock held: the record is put in memory, saved,
        and taken back if it could not be. */
    method CommitReached(id: Id, saved: bool)
      requires Valid() && MayCommit(Now(), id)
      modifies this
      ensures Now() == Next(old(Now()), Commit(id, saved)) && Valid()
    {
      Recorded(id, saved);
      NextIsValid(old(Now()), Commit(id, saved));
    }

    method Recorded(id: Id, saved: bool)
      requires MayCommit(Now(), id)
      modifies `records, `disk, `notes, `gates, `gate, `jobs
      ensures Now() == DoCommit(old(Now()), id, saved)
    {
      var job := jobs[id];
      var h := job.pc.h;
      if job.abandoned || h >= |all| || !all[h].alive {
        Rollback(id);
      } else {
        var committed := records;
        records := records[id := Candidate(job)];
        if saved {
          Saved(id, h);
        } else {
          records := committed;
          assert Now() == old(Now());
          Rollback(id);
        }
      }
    }

    method Saved(id: Id, h: nat)
      requires id in jobs && h < |all|
      modifies `disk, `notes, `gates, `jobs
      ensures var job, s := old(jobs)[id], old(Now());
              var note := Note(id, Candidate(job), all[h], job.abandoned);
              Now() == GoTo(SetPaused(s.(disk := records, notes := s.notes + [note]), id, false), id, Reporting(h))
    {
      disk := records;
      notes := notes + [Note(id, Candidate(jobs[id]), all[h], jobs[id].abandoned)];
      OpenAfterCommit(id, h);
    }

    method OpenAfterCommit(id: Id, h: nat)
      requires id in jobs
      modifies `gates, `jobs
      ensures Now() == GoTo(SetPaused(old(Now()), id, false), id, Reporting(h))
    {
      SetGate(id, false);
      Await(id, Reporting(h));
    }

    method SaveReached(id: Id, saved: bool)
      requires Valid() && MayPersist(Now(), id)
      modifies this
      ensures Now() == Next(old(Now()), Persist(id, saved)) && Valid()
    {
      RollbackSaved(id, saved);
      NextIsValid(old(Now()), Persist(id, saved));
    }

    method RollbackSaved(id: Id, saved: bool)
      requires MayPersist(Now(), id)
      modifies `disk, `jobs, `reservations, `endings
      ensures Now() == DoPersist(old(Now()), id, saved)
    {
      if saved {
        disk := records;
        Return(id, RolledBack);
      } else {
        Return(id, Failed);
      }
    }

    /** The removal has been saved: the gate goes, and it returns. */
    method Forgotten(id: Id)
      requires id in jobs
      modifies `disk, `gate, `jobs, `reservations, `endings
      ensures Now() == Finish(DropGate(old(Now()).(disk := records), id), id, DeploymentModel.Stopped)
    {
      disk := records;
      gate := gate - {id};
      Return(id, DeploymentModel.Stopped);
    }

    /** The removal's last stretch, with a save that succeeds or not. */
    method ForgetReached(id: Id, saved: bool)
      requires Valid() && Enabled(Now(), Forget(id, saved))
      modifies this
      ensures Now() == Next(old(Now()), Forget(id, saved)) && Valid()
    {
      ForgetsItsRecord(Now(), id);
      RecordForgotten(id, saved);
      NextIsValid(old(Now()), Forget(id, saved));
    }

    method RecordForgotten(id: Id, saved: bool)
      requires MayForget(Now(), id) && id in records && jobs[id].previous == Some(records[id])
      modifies `records, `disk, `gate, `jobs, `reservations, `endings
      ensures Now() == DoForget(old(Now()), id, saved)
    {
      var previous := jobs[id].previous.value;
      records := records - {id};
      if saved {
        Forgotten(id);
      } else {
        records := records[id := previous];
        assert Now() == old(Now());
        Return(id, Raised);
      }
    }

    // ----- the proxy -----

    method RequestArrived(key: nat, id: Id)
      requires Valid() && key !in Now().requests
      modifies this
      ensures Now() == Next(old(Now()), Arrive(key, id)) && Valid()
    {
      RequestRead(key, id);
      NextIsValid(old(Now()), Arrive(key, id));
    }

    method RequestRead(key: nat, id: Id)
      requires key !in requests
      modifies `gates, `gate, `requests
      ensures Now() == DoArrive(old(Now()), key, id)
    {
      if id in records {
        EnsureGate(id);
        if !(gate[id] < |gates| && gates[gate[id]].paused) && id in children {
          requests := requests[key := Reading(id, records[id], gate[id], children[id])];
        }
      }
    }

    /** admission.enter and the sending that follows it. */
    method Admit(key: nat)
      requires key in requests && requests[key].gate < |gates|
      modifies `requests, `gates
      ensures var r := old(requests)[key];
              Now() == old(Now()).(requests := old(requests)[key := InFlight(r.id, r.record, r.gate, r.process)],
                                   gates := old(gates)[r.gate := Enter(old(gates)[r.gate])])
    {
      var r := requests[key];
      requests := requests[key := InFlight(r.id, r.record, r.gate, r.process)];
      gates := gates[r.gate := Enter(gates[r.gate])];
    }

    /** The request's body has come: it is sent, or refused. */
    method BodyArrived(key: nat, sends: bool) returns (sent: bool)
      requires Valid() && Enabled(Now(), Body(key, sends))
      modifies this
      ensures Now() == Next(old(Now()), Body(key, sends)) && Valid()
      ensures sent ==> var r := old(requests)[key];
                       && r.id in records && r.process < |all| && all[r.process].alive
                       && all[r.process].id == r.id && all[r.process].record == records[r.id] == r.record
    {
      ghost var s := Now();
      sent := BodyRead(key, sends);
      if sent {
        SendIsSound(s, key);
      }
      NextIsValid(s, Body(key, sends));
    }

    method BodyRead(key: nat, sends: bool) returns (sent: bool)
      requires MayTakeBody(Now(), key)
      modifies `requests, `gates
      ensures Now() == DoBody(old(Now()), key, sends)
      ensures sent ==> MaySend(old(Now()), old(requests)[key])
    {
      var r := requests[key];
      sent := sends && !gates[r.gate].paused && r.id in children && children[r.id] == r.process
              && r.process < |all| && all[r.process].alive;
      if sent {
        Admit(key);
      } else {
        requests := requests - {key};
      }
    }

    method RequestLeft(key: nat)
      requires Valid() && MayLeave(Now(), key)
      modifies this
      ensures Now() == Next(old(Now()), Leave(key)) && Valid()
    {
      RequestGone(key);
      LeftSound(old(Now()), key, Now());
    }

    method RequestGone(key: nat)
      requires MayLeave(Now(), key)
      modifies `requests, `gates
      ensures Now() == DoLeave(old(Now()), key)
    {
      var r := requests[key];
      requests := requests - {key};
      if r.InFlight? {
        gates := gates[r.gate := Exit(gates[r.gate])];
      }
    }

    // ----- shutdown -----

    /** Agent.stop: every registered child is stopped, those of `stopped` with
        success; one that fails does not keep the rest from being stopped, and the
        first of them is what is raised at the end. */
    method Stop(order: seq<Id>, stopped: set<Id>) returns (failed: Option<Id>)
      requires Valid() && stopping && Lists(order, children.Keys)
      modifies `all
      ensures Now() == Next(old(Now()), Sweep(stopped)) && Valid()
      ensures FirstFailure(order, stopped, failed)
      ensures failed.None? ==> forall h :: 0 <= h < |all| ==> !all[h].alive
    {
      ghost var s := Now();
      ChildrenAreTheirIds(s);
      failed := StopChildren(order, stopped);
      SweptSound(s, stopped, Now());
    }

    method StopRegistered(id: Id, ghost s: State, ghost done: set<Id>)
      requires id in children && s.children == children && children[id] < |s.all| && s.all[children[id]].id == id
      requires all == DoSweep(s, done).all
      modifies `all
      ensures all == DoSweep(s, done + {id}).all
    {
      SweepOneMore(s, done, id);
      all := all[children[id] := all[children[id]].(alive := false)];
    }

    method StopChildren(order: seq<Id>, stopped: set<Id>) returns (failed: Option<Id>)
      requires forall id :: id in children ==> children[id] < |all| && all[children[id]].id == id
      requires Lists(order, children.Keys)
      modifies `all
      ensures Now() == DoSweep(old(Now()), stopped)
      ensures FirstFailure(order, stopped, failed)
    {
      ghost var s := Now();
      ghost var done: set<Id> := {};
      failed := None;
      SweepNone(s);
      for n := 0 to |order|
        invariant all == DoSweep(s, done).all
        invariant forall id :: id in done <==> id in order[..n] && id in stopped
        invariant FirstFailure(order[..n], stopped, failed)
      {
        var id := order[n];
        assert order[..n + 1] == order[..n] + [id];
        if id in stopped {
          StopRegistered(id, s, done);
          done := done + {id};
        } else if failed.None? {
          failed := Some(id);
        }
      }
      assert order[..|order|] == order;
      assert done == children.Keys * stopped;
      SweepRegistered(s, stopped);
    }
  }
}
