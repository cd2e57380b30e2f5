/** What a deployment's transitions come to, told by what was asked and by which of
    their steps failed, over whole runs. */
module DeploymentAnswers {
  import opened Prelude
  import opened DeploymentModel
  import opened DeploymentInvariants
  import opened DeploymentSteps
  import opened DeploymentTheorems
  import opened DeploymentOutcomes
  import F = InFlight

  // ----- where a transition, or an ending, comes from -----

  /** The transition k that holds `id` in `t` held it already, or has just got it. */
  ghost predicate Descends(s: State, e: Event, t: State, id: Id, k: nat)
    requires Mine(t, id, k)
  {
    || (&& Mine(s, id, k) && t.jobs[id].task == s.jobs[id].task && t.jobs[id].previous == s.jobs[id].previous
        && (s.jobs[id].pc.AtRecords? || t.jobs[id].port == s.jobs[id].port)
        && ((OfJob(e) && Enabled(s, e) && e.id == id) || t.jobs[id] == s.jobs[id]))
    || (&& e == Acquire(k) && MayAcquire(s, k) && s.waiting[k].id == id
        && t.jobs[id].task == s.waiting[k].task && t.jobs[id].previous == Lookup(s.records, id))
  }

  lemma OwnJobComes(s: State, e: Event, t: State, id: Id, k: nat)
    requires Inv(s) && OfJob(e) && Enabled(s, e) && t == Next(s, e) && Mine(t, id, k)
    ensures Descends(s, e, t, id, k)
  {
    JobKeeps(s, e);
    SameJob(s, t, e.id, id);
    if id != e.id {
      assert Lookup(t.jobs, id) == Lookup(s.jobs, id);
    } else if e.Abandon? {
      assert t == Abandoned(s, id);
    } else {
      OwnStepComes(s, e);
    }
  }

  lemma LockedJobComes(s: State, t: State, id: Id, k: nat, key: nat)
    requires Inv(s) && MayAcquire(s, key) && t == DoAcquire(s, key) && Mine(t, id, k)
    ensures Descends(s, Acquire(key), t, id, k)
  {
    AcquireKeeps(s, key);
    if id == s.waiting[key].id {
      AcquireComes(s, key);
    } else {
      assert Lookup(t.jobs, id) == Lookup(Locked(s, key).jobs, id) == Lookup(s.jobs, id);
    }
  }

  lemma JobComes(s: State, e: Event, t: State, id: Id, k: nat)
    requires Inv(s) && t == Next(s, e) && Mine(t, id, k)
    ensures Descends(s, e, t, id, k)
  {
    if Enabled(s, e) {
      if OfJob(e) {
        OwnJobComes(s, e, t, id, k);
      } else if e.Acquire? {
        LockedJobComes(s, t, id, k, e.key);
      } else if !e.Ask? && !e.AbandonWaiter? {
        OthersLeaveTransitions(s, e);
      }
    }
  }

  /** The ending f is added by the step `e`. */
  ghost predicate EndedBy(s: State, e: Event, f: Ending) {
    && Enabled(s, e)
    && if OfJob(e) then
         && e.id in s.jobs && f.id == e.id && SameTransition(s.jobs[e.id], f.job) && After(s, e) == Over(f.outcome)
       else
         && e.Acquire? && f.id == s.waiting[e.key].id && f.job.key == e.key && f.job.task == s.waiting[e.key].task
         && AfterAcquire(s, e.key) == Over(f.outcome)
  }

  lemma EndingComes(s: State, e: Event, t: State)
    requires Inv(s) && t == Next(s, e) && t.endings != s.endings
    ensures exists f :: t.endings == s.endings + [f] && EndedBy(s, e, f)
  {
    if OfJob(e) {
      JobEndingComes(s, e, t);
    } else if e.Acquire? {
      LockEndingComes(s, e.key, t);
    } else if !e.Ask? && !e.AbandonWaiter? {
      OthersLeaveTransitions(s, e);
    }
  }

  lemma JobEndingComes(s: State, e: Event, t: State)
    requires Inv(s) && OfJob(e) && t == Next(s, e) && t.endings != s.endings
    ensures exists f :: t.endings == s.endings + [f] && EndedBy(s, e, f)
  {
    if !e.Abandon? {
      OwnStepComes(s, e);
      var f: Ending :| Adds(s, t, e.id, f, After(s, e).outcome);
      assert EndedBy(s, e, f);
    }
  }

  lemma LockEndingComes(s: State, key: nat, t: State)
    requires MayAcquire(s, key) && t == DoAcquire(s, key) && t.endings != s.endings
    ensures exists f :: t.endings == s.endings + [f] && EndedBy(s, Acquire(key), f)
  {
    var r, id := Locked(s, key), s.waiting[key].id;
    AcquireComes(s, key);
    var f: Ending :| Adds(r, t, id, f, AfterAcquire(s, key).outcome);
    assert EndedBy(s, Acquire(key), f);
  }

  // ----- what was asked -----

  /** The transition k was asked for, and does, `task` for `id`. */
  ghost predicate AskedFor(s: State, k: nat, id: Id, task: Task) {
    && k < s.asked
    && (k in s.waiting ==> s.waiting[k].id == id && s.waiting[k].task == task)
    && (forall j :: Mine(s, j, k) ==> j == id && s.jobs[j].task == task)
    && (forall n :: 0 <= n < |s.endings| && s.endings[n].job.key == k ==>
          s.endings[n].id == id && s.endings[n].job.task == task)
  }

  lemma AskIsAskedFor(s: State, id: Id, task: Task)
    requires KeysOk(s)
    ensures AskedFor(Next(s, Ask(id, task)), s.asked, id, task)
  {
  }

  lemma WaitersStay(s: State, e: Event, k: nat)
    requires Inv(s) && k < s.asked
    ensures var t := Next(s, e);
            && s.asked <= t.asked
            && (k in t.waiting ==>
                  k in s.waiting && t.waiting[k].id == s.waiting[k].id && t.waiting[k].task == s.waiting[k].task)
  {
    if Enabled(s, e) {
      if OfJob(e) {
        JobKeeps(s, e);
      } else if e.Acquire? {
        AcquireKeeps(s, e.key);
      } else if !e.Ask? && !e.AbandonWaiter? {
        OthersLeaveTransitions(s, e);
      }
    }
  }

  /** Whose ending it is. */
  lemma EndingOrigin(s: State, e: Event, f: Ending)
    requires EndedBy(s, e, f)
    ensures || (Mine(s, f.id, f.job.key) && f.job.task == s.jobs[f.id].task && f.job.previous == s.jobs[f.id].previous)
            || (f.job.key in s.waiting && s.waiting[f.job.key].id == f.id && s.waiting[f.job.key].task == f.job.task)
  {
  }

  lemma EndingAskedFor(s: State, e: Event, k: nat, id: Id, task: Task, t: State)
    requires Inv(s) && AskedFor(s, k, id, task) && t == Next(s, e)
    ensures forall n :: 0 <= n < |t.endings| && t.endings[n].job.key == k ==>
              t.endings[n].id == id && t.endings[n].job.task == task
  {
    if t.endings != s.endings {
      EndingComes(s, e, t);
      var f :| t.endings == s.endings + [f] && EndedBy(s, e, f);
      EndingOrigin(s, e, f);
    }
  }

  lemma NextAskedFor(s: State, e: Event, k: nat, id: Id, task: Task, t: State)
    requires Inv(s) && AskedFor(s, k, id, task) && t == Next(s, e)
    ensures AskedFor(t, k, id, task)
  {
    WaitersStay(s, e, k);
    forall j | Mine(t, j, k) ensures j == id && t.jobs[j].task == task {
      JobComes(s, e, t, j, k);
    }
    EndingAskedFor(s, e, k, id, task, t);
  }

  lemma {:induction false} RunAskedFor(s: State, events: seq<Event>, k: nat, id: Id, task: Task)
    requires Inv(s) && AskedFor(s, k, id, task)
    ensures AskedFor(Run(s, events), k, id, task)
    decreases |events|
  {
    if events != [] {
      NextAskedFor(s, events[0], k, id, task, Next(s, events[0]));
      NextIsValid(s, events[0]);
      RunAskedFor(Next(s, events[0]), events[1..], k, id, task);
    }
  }

  // ----- what is committed -----

  /** A creation's port is one of the range. */
  ghost predicate PortsInRange(s: State) {
    forall id :: id in s.jobs && s.jobs[id].previous.None? && s.jobs[id].port.Some? ==>
      9110 <= s.jobs[id].port.value < 9200
  }

  lemma GoToPort(s: State, id: Id, pc: Pc)
    requires id in s.jobs
    ensures id in GoTo(s, id, pc).jobs && GoTo(s, id, pc).jobs[id].port == s.jobs[id].port
  {
  }

  lemma DrainPort(r: State, id: Id)
    requires id in r.jobs
    ensures id in Drain(r, id).jobs && Drain(r, id).jobs[id].port == r.jobs[id].port
  {
    var s1 := DefaultGate(r, id);
    F.PausedAlike(s1, id, true);
    GoToPort(SetPaused(s1, id, true), id, Draining(Paused(s1, id), false));
  }

  lemma ChangePort(r: State, id: Id)
    requires id in r.jobs
    ensures id in Change(r, id).jobs && Change(r, id).jobs[id].port == r.jobs[id].port
  {
    GoToPort(NewGate(r, id, true), id, if id in r.children then Stopping(r.children[id]) else Verifying);
  }

  /** A reservation that goes on has the previous port, or the lowest that is free. */
  lemma ReservedJob(s: State, id: Id, busy: set<int>, valid: bool, t: State)
    requires MayReserve(s, id) && t == DoReserve(s, id, busy, valid) && id in t.jobs
    ensures !s.jobs[id].abandoned && valid && ReservedPort(s, s.jobs[id], busy).Some?
    ensures t.jobs[id].port == ReservedPort(s, s.jobs[id], busy)
  {
    ReserveComes(s, id, busy, valid);
    var r := Reserved(s, id, ReservedPort(s, s.jobs[id], busy).value);
    DrainPort(r, id);
    ChangePort(r, id);
    TakenJob(s, id, busy, valid, r);
  }

  lemma TakenJob(s: State, id: Id, busy: set<int>, valid: bool, r: State)
    requires MayReserve(s, id) && !s.jobs[id].abandoned && ReservedPort(s, s.jobs[id], busy).Some?
    requires r == Reserved(s, id, ReservedPort(s, s.jobs[id], busy).value)
    ensures DoReserve(s, id, busy, valid) ==
              if !valid then Finish(r, id, Raised)
              else if s.jobs[id].previous.Some? then Drain(r, id) else Change(r, id)
  {
  }

  lemma LeavesRecordsByReserve(s: State, e: Event, t: State, id: Id)
    requires OfJob(e) && Enabled(s, e) && e.id == id && s.jobs[id].pc.AtRecords? && t == Next(s, e)
    requires id in t.jobs && !t.jobs[id].pc.AtRecords?
    ensures e.Reserve?
  {
  }

  lemma LockedAtRecords(s: State, key: nat, t: State)
    requires MayAcquire(s, key) && s.waiting[key].task.Replace? && t == DoAcquire(s, key)
    ensures var id := s.waiting[key].id; id in t.jobs ==> t.jobs[id].pc.AtRecords?
  {
    AcquireComes(s, key);
  }

  lemma PortInRange(s: State, e: Event, t: State, id: Id)
    requires Inv(s) && PortsInRange(s) && t == Next(s, e) && id in t.jobs
    requires t.jobs[id].previous.None? && t.jobs[id].port.Some? && !t.jobs[id].pc.AtRecords? && t.jobs[id].task.Replace?
    ensures 9110 <= t.jobs[id].port.value < 9200
  {
    var k := t.jobs[id].key;
    JobComes(s, e, t, id, k);
    if !(Mine(s, id, k) && t.jobs[id].previous == s.jobs[id].previous) {
      LockedAtRecords(s, k, t);
    } else if s.jobs[id].pc.AtRecords? && t.jobs[id] != s.jobs[id] {
      LeavesRecordsByReserve(s, e, t, id);
      ReservedJob(s, id, e.busy, e.valid, t);
    }
  }

  lemma NextPortsInRange(s: State, e: Event, t: State)
    requires Inv(s) && PortsInRange(s) && t == Next(s, e)
    ensures PortsInRange(t)
  {
    NextIsValid(s, e);
    forall id | id in t.jobs && t.jobs[id].previous.None? && t.jobs[id].port.Some?
      ensures 9110 <= t.jobs[id].port.value < 9200
    {
      assert ViewOk(ViewOf(t, id));
      PortInRange(s, e, t, id);
    }
  }

  lemma {:induction false} RunPortsInRange(s: State, events: seq<Event>)
    requires Inv(s) && PortsInRange(s)
    ensures PortsInRange(Run(s, events)) && Inv(Run(s, events))
    decreases |events|
  {
    if events != [] {
      NextPortsInRange(s, events[0], Next(s, events[0]));
      NextIsValid(s, events[0]);
      RunPortsInRange(Next(s, events[0]), events[1..]);
    }
  }

  /** A step's ending is told of the state after it. */
  lemma EndingTells(s: State, e: Event, t: State, f: Ending)
    requires Inv(s) && t == Next(s, e) && t.endings == s.endings + [f]
    ensures EndedBy(s, e, f) && EndOk(ViewOf(t, f.id), f.job, f.outcome)
  {
    EndingComes(s, e, t);
    var g :| t.endings == s.endings + [g] && EndedBy(s, e, g);
    assert (s.endings + [f])[|s.endings|] == f && (s.endings + [g])[|s.endings|] == g;
    NextKeeps(s, e);
    assert EndsWell(s, t);
  }

  /** What is recorded of a job that reports. */
  lemma ReportedPort(s: State, e: Event, f: Ending)
    requires ViewOk(ViewOf(s, f.id)) && PortsInRange(s) && EndedBy(s, e, f) && f.outcome == Committed
    ensures f.job.task.Replace? && f.job.port.Some?
    ensures if f.job.previous.Some? then f.job.port.value == f.job.previous.value.port
            else 9110 <= f.job.port.value < 9200
  {
  }

  /** In every run: when the replacement that was asked for as k is told to be
      committed, the record is of the spec that was asked for, the registered child was
      started from it, requests are let in, and its port is the previous record's, or
      one of the range if there was none. */
  lemma CommitsWhatWasAsked(s: State, before: seq<Event>, id: Id, spec: nat, after: seq<Event>, e: Event, f: Ending)
    requires Init(s)
    requires var a := Run(s, before);
             var t := Run(Next(a, Ask(id, Replace(spec))), after);
             Next(t, e).endings == t.endings + [f] && f.job.key == a.asked && f.outcome == Committed
    ensures var u := Next(Run(Next(Run(s, before), Ask(id, Replace(spec))), after), e);
            && f.id == id && id in u.records && u.records[id].spec == spec
            && id in u.children && u.children[id] < |u.all| && u.all[u.children[id]].record == u.records[id]
            && id in u.gate && u.gate[id] < |u.gates| && !u.gates[u.gate[id]].paused
            && if f.job.previous.Some? then u.records[id].port == f.job.previous.value.port
               else 9110 <= u.records[id].port < 9200
  {
    var a := Run(s, before);
    var b := Next(a, Ask(id, Replace(spec)));
    var t := Run(b, after);
    ReachedWithKeys(s, before);
    AskIsAskedFor(a, id, Replace(spec));
    NextIsValid(a, Ask(id, Replace(spec)));
    NextPortsInRange(a, Ask(id, Replace(spec)), b);
    RunAskedFor(b, after, a.asked, id, Replace(spec));
    RunPortsInRange(b, after);
    CommittedTells(t, e, f, a.asked, id, spec);
  }

  lemma CommittedTells(t: State, e: Event, f: Ending, k: nat, id: Id, spec: nat)
    requires Inv(t) && PortsInRange(t) && AskedFor(t, k, id, Replace(spec))
    requires Next(t, e).endings == t.endings + [f] && f.job.key == k && f.outcome == Committed
    ensures var u := Next(t, e);
            && f.id == id && id in u.records && u.records[id].spec == spec
            && id in u.children && u.children[id] < |u.all| && u.all[u.children[id]].record == u.records[id]
            && id in u.gate && u.gate[id] < |u.gates| && !u.gates[u.gate[id]].paused
            && if f.job.previous.Some? then u.records[id].port == f.job.previous.value.port
               else 9110 <= u.records[id].port < 9200
  {
    EndingTells(t, e, Next(t, e), f);
    assert ViewOk(ViewOf(t, f.id));
    ReportedPort(t, e, f);
    EndingOrigin(t, e, f);
  }

  lemma ReachedWithKeys(s: State, events: seq<Event>)
    requires Init(s)
    ensures var t := Run(s, events); Inv(t) && KeysOk(t) && PortsInRange(t)
  {
    InitKeeps(s);
    RunKeepsKeys(s, events, 0);
    RunPortsInRange(s, events);
  }

  /** Nobody has the port: no record, no registered child, no reservation, not the
      agent itself and no other listener. */
  ghost predicate FreeTo(s: State, busy: set<int>, port: int) {
    port != s.agentPort && port !in busy && forall j :: !Holds(ViewOf(s, j), port)
  }

  lemma TakenIsHeld(s: State, busy: set<int>, port: int)
    requires Inv(s)
    ensures port in Taken(s) + busy <==> !FreeTo(s, busy, port)
  {
    if !FreeTo(s, busy, port) && port != s.agentPort && port !in busy {
      var j :| Holds(ViewOf(s, j), port);
      HeldIsTaken(s, j, port);
    }
    if port in Taken(s) {
      TakenHolds(s, port);
    }
  }

  lemma HeldIsTaken(s: State, j: Id, port: int)
    requires Inv(s) && Holds(ViewOf(s, j), port)
    ensures port in Taken(s)
  {
    if j in s.jobs && s.jobs[j].port == Some(port) {
      assert HasReserved(s, port);
    } else if j in s.records && s.records[j].port == port {
    } else {
      assert j in s.children && s.children[j] < |s.all| && s.all[s.children[j]].record.port == port;
    }
  }

  lemma TakenHolds(s: State, port: int)
    requires Inv(s) && port in Taken(s)
    ensures port == s.agentPort || exists j :: Holds(ViewOf(s, j), port)
  {
    if port in s.reservations {
      assert HasReserved(s, port);
      var j :| j in s.jobs && s.jobs[j].port == Some(port);
      assert Holds(ViewOf(s, j), port);
    } else if j: Id :| j in s.records && s.records[j].port == port {
      assert Holds(ViewOf(s, j), port);
    } else if j: Id :| j in s.children && s.children[j] < |s.all| && s.all[s.children[j]].record.port == port {
      assert Holds(ViewOf(s, j), port);
    }
  }

  /** In every run: a creation that is valid and not abandoned goes on if and only if a
      port of the range is free, and then with the lowest of them. */
  lemma CreationsGetTheLowestFreePort(s: State, events: seq<Event>, id: Id, busy: set<int>, valid: bool)
    requires Init(s) && MayReserve(Run(s, events), id) && Run(s, events).jobs[id].previous.None?
    ensures var t, u := Run(s, events), Next(Run(s, events), Reserve(id, busy, valid));
            && (id in u.jobs <==> valid && !t.jobs[id].abandoned && exists p :: 9110 <= p < 9200 && FreeTo(t, busy, p))
            && (id in u.jobs ==> u.jobs[id].port.Some? && LowestFree(t, busy, u.jobs[id].port.value))
  {
    Reached(s, events);
    CreationPort(Run(s, events), id, busy, valid);
  }

  ghost predicate LowestFree(s: State, busy: set<int>, port: int) {
    9110 <= port < 9200 && FreeTo(s, busy, port) && forall q :: 9110 <= q < port ==> !FreeTo(s, busy, q)
  }

  lemma FirstFreeIsLowest(s: State, busy: set<int>)
    requires Inv(s)
    ensures var port := FirstFree(FIRST_PORT, Taken(s) + busy);
            && (port.Some? ==> LowestFree(s, busy, port.value))
            && (port.None? ==> forall p :: 9110 <= p < 9200 ==> !FreeTo(s, busy, p))
  {
    forall p ensures p in Taken(s) + busy <==> !FreeTo(s, busy, p) {
      TakenIsHeld(s, busy, p);
    }
  }

  lemma CreationPort(t: State, id: Id, busy: set<int>, valid: bool)
    requires Inv(t) && MayReserve(t, id) && t.jobs[id].previous.None?
    ensures var u := Next(t, Reserve(id, busy, valid));
            && (id in u.jobs <==> valid && !t.jobs[id].abandoned && exists p :: 9110 <= p < 9200 && FreeTo(t, busy, p))
            && (id in u.jobs ==> u.jobs[id].port.Some? && LowestFree(t, busy, u.jobs[id].port.value))
  {
    var u := Next(t, Reserve(id, busy, valid));
    ReserveComes(t, id, busy, valid);
    FirstFreeIsLowest(t, busy);
    if id in u.jobs {
      ReservedJob(t, id, busy, valid, u);
    }
  }

  /** And a replacement that is valid and not abandoned goes on with its record's. */
  lemma ReplacementsKeepTheirPort(s: State, events: seq<Event>, id: Id, busy: set<int>, valid: bool)
    requires Init(s) && MayReserve(Run(s, events), id) && id in Run(s, events).records
    ensures var t, u := Run(s, events), Next(Run(s, events), Reserve(id, busy, valid));
            && (id in u.jobs <==> valid && !t.jobs[id].abandoned)
            && (id in u.jobs ==> u.jobs[id].port == Some(t.records[id].port))
  {
    Reached(s, events);
    F.JobFacts(Run(s, events), id);
    ReplacementPort(Run(s, events), id, busy, valid);
  }

  lemma ReplacementPort(t: State, id: Id, busy: set<int>, valid: bool)
    requires MayReserve(t, id) && t.jobs[id].previous.Some?
    ensures var u := Next(t, Reserve(id, busy, valid));
            && (id in u.jobs <==> valid && !t.jobs[id].abandoned)
            && (id in u.jobs ==> u.jobs[id].port == Some(t.jobs[id].previous.value.port))
  {
    var u := Next(t, Reserve(id, busy, valid));
    ReserveComes(t, id, busy, valid);
    if id in u.jobs {
      ReservedJob(t, id, busy, valid, u);
    }
  }

  // ----- which steps a committed replacement cannot have had -----

  /** The transition cannot end as it was asked to any more. */
  predicate Lost(s: State, job: Job) {
    || job.pc.UndoStopping? || job.pc.UndoVerifying? || job.pc.UndoLoading? || job.pc.UndoSaving?
    || (job.abandoned && if job.task.Replace? then !job.pc.Reporting? else job.pc.Draining?)
    || ((job.pc.Loading? || job.pc.AtCommit?) && !Lives(s, job.pc.h))
  }

  ghost predicate Spoilt(s: State, k: nat) {
    && k < s.asked
    && (k in s.waiting ==> s.waiting[k].abandoned)
    && (forall id :: Mine(s, id, k) ==> Lost(s, s.jobs[id]))
    && (forall n :: 0 <= n < |s.endings| && s.endings[n].job.key == k ==> !EndsAsAsked(s.endings[n]))
  }

  /** Where a transition that is lost, or whose step fails, is taken: not to its end as
      asked, and not to a child that lives, unless it is abandoned. */
  lemma AfterLost(s: State, e: Event, job: Job)
    requires OfJob(e) && Enabled(s, e) && ViewOk(ViewOf(s, e.id)) && job == s.jobs[e.id] && !e.Abandon?
    requires Lost(s, job) || StepFails(s, e, job.key)
    ensures After(s, e).Over? ==> !AsAsked(job.task, After(s, e).outcome)
    ensures After(s, e).At? ==>
              var pc := After(s, e).pc;
              || pc.UndoStopping? || pc.UndoVerifying? || pc.UndoLoading? || pc.UndoSaving?
              || (job.abandoned && if job.task.Replace? then !pc.Reporting? else pc.Draining?)
              || (pc.AtCommit? && pc.h < |s.all| && !s.all[pc.h].alive)
    ensures After(s, e).At? ==> !job.pc.Reporting?
  {
  }

  /** No child comes back to life. */
  lemma StaysDead(s: State, e: Event, t: State)
    requires Inv(s) && t == Next(s, e)
    ensures forall h: nat :: h < |s.all| && !Lives(s, h) ==> !Lives(t, h)
  {
    NextKeeps(s, e);
    assert Remembers(s, t);
  }

  lemma ComesLost(s: State, e: Event, t: State, job: Job)
    requires OfJob(e) && Enabled(s, e) && ViewOk(ViewOf(s, e.id)) && job == s.jobs[e.id] && !e.Abandon?
    requires Lost(s, job) || StepFails(s, e, job.key)
    requires Comes(s, t, e.id, After(s, e)) && e.id in t.jobs
    requires forall h: nat :: h < |s.all| && !Lives(s, h) ==> !Lives(t, h)
    ensures Lost(t, t.jobs[e.id])
  {
    AfterLost(s, e, job);
  }

  lemma OwnStepLost(s: State, e: Event, t: State)
    requires Inv(s) && OfJob(e) && Enabled(s, e) && t == Next(s, e) && e.id in t.jobs
    requires Lost(s, s.jobs[e.id]) || StepFails(s, e, s.jobs[e.id].key)
    ensures Lost(t, t.jobs[e.id])
  {
    if e.Abandon? {
      AbandonLost(s, e.id);
    } else {
      assert ViewOk(ViewOf(s, e.id));
      StaysDead(s, e, t);
      OwnStepComes(s, e);
      ComesLost(s, e, t, s.jobs[e.id]);
    }
  }

  lemma AbandonLost(s: State, id: Id)
    requires id in s.jobs && (Lost(s, s.jobs[id]) || StepFails(s, Abandon(id), s.jobs[id].key))
    ensures Lost(Abandoned(s, id), Abandoned(s, id).jobs[id])
  {
  }

  lemma LostStays(s: State, t: State, job: Job)
    requires Lost(s, job) && forall h: nat :: h < |s.all| && !Lives(s, h) ==> !Lives(t, h)
    requires job.pc.Loading? || job.pc.AtCommit? ==> job.pc.h < |s.all|
    ensures Lost(t, job)
  {
  }

  /** The child it waits for exits. */
  lemma ExitLost(s: State, h: nat, id: Id)
    requires KeysOk(s) && id in s.jobs && h < |s.all| && StepFails(s, ChildExits(h), s.jobs[id].key)
    ensures Lost(Next(s, ChildExits(h)), s.jobs[id])
  {
    var j :| Mine(s, j, s.jobs[id].key) && AwaitsChild(s.jobs[j].pc, h);
    assert j == id;
  }

  /** Or is stopped in a sweep. */
  lemma SweepLost(s: State, stopped: set<Id>, id: Id)
    requires Inv(s) && KeysOk(s) && id in s.jobs && s.stopping && StepFails(s, Sweep(stopped), s.jobs[id].key)
    ensures Lost(DoSweep(s, stopped), s.jobs[id])
  {
    var j :| Mine(s, j, s.jobs[id].key) && j in stopped && (s.jobs[j].pc.Loading? || s.jobs[j].pc.AtCommit?);
    assert j == id;
    AwaitedChild(s, id);
    RegisteredChild(s, id);
    var h := s.jobs[id].pc.h;
    assert !DoSweep(s, stopped).all[h].alive;
  }

  lemma RegisteredChild(s: State, id: Id)
    requires Inv(s) && id in s.jobs && (s.jobs[id].pc.Loading? || s.jobs[id].pc.AtCommit?)
    ensures Lookup(s.children, id) == Some(s.jobs[id].pc.h)
  {
    assert ViewOk(ViewOf(s, id));
  }

  /** Nobody else brings it back. */
  lemma OthersLost(s: State, e: Event, t: State, id: Id)
    requires Inv(s) && KeysOk(s) && t == Next(s, e) && id in s.jobs
    requires !(OfJob(e) && Enabled(s, e) && e.id == id)
    requires Lost(s, s.jobs[id]) || StepFails(s, e, s.jobs[id].key)
    ensures Lost(t, s.jobs[id])
  {
    if Lost(s, s.jobs[id]) {
      StaysDead(s, e, t);
      if s.jobs[id].pc.Loading? || s.jobs[id].pc.AtCommit? {
        AwaitedChild(s, id);
      }
      LostStays(s, t, s.jobs[id]);
    } else if e.ChildExits? {
      ExitLost(s, e.h, id);
    } else if e.Sweep? {
      SweepLost(s, e.stopped, id);
    }
  }

  lemma JobSpoilt(s: State, e: Event, t: State, k: nat, id: Id)
    requires Inv(s) && KeysOk(s) && t == Next(s, e) && (Spoilt(s, k) || StepFails(s, e, k)) && Mine(t, id, k)
    ensures Lost(t, t.jobs[id])
  {
    JobComes(s, e, t, id, k);
    if Mine(s, id, k) {
      MineSpoilt(s, e, k, id);
      if OfJob(e) && Enabled(s, e) && e.id == id {
        OwnStepLost(s, e, t);
      } else {
        OthersLost(s, e, t, id);
      }
    } else {
      AcquireComes(s, k);
    }
  }

  lemma MineSpoilt(s: State, e: Event, k: nat, id: Id)
    requires KeysOk(s) && (Spoilt(s, k) || StepFails(s, e, k)) && Mine(s, id, k)
    ensures Lost(s, s.jobs[id]) || StepFails(s, e, s.jobs[id].key)
  {
  }

  /** The ending of a transition that is spoilt is not the one that was asked for. */
  lemma EndingSpoilt(s: State, e: Event, k: nat, f: Ending)
    requires Inv(s) && KeysOk(s) && (Spoilt(s, k) || StepFails(s, e, k)) && EndedBy(s, e, f) && f.job.key == k
    ensures !EndsAsAsked(f)
  {
    if OfJob(e) {
      MineSpoilt(s, e, k, e.id);
      assert ViewOk(ViewOf(s, e.id));
      if !e.Abandon? {
        AfterLost(s, e, s.jobs[e.id]);
      }
    }
  }

  /** The step's ending, if it is of another transition, leaves those of k alone. */
  lemma EndingsSpoilt(s: State, e: Event, t: State, k: nat)
    requires Inv(s) && KeysOk(s) && (Spoilt(s, k) || StepFails(s, e, k)) && t == Next(s, e)
    ensures forall n :: 0 <= n < |t.endings| && t.endings[n].job.key == k ==> !EndsAsAsked(t.endings[n])
  {
    NoneYet(s, e, k);
    if t.endings != s.endings {
      EndingComes(s, e, t);
      var f :| t.endings == s.endings + [f] && EndedBy(s, e, f);
      if f.job.key == k {
        EndingSpoilt(s, e, k, f);
      }
    }
  }

  /** A transition whose step fails has not ended. */
  lemma NoneYet(s: State, e: Event, k: nat)
    requires KeysOk(s) && (Spoilt(s, k) || StepFails(s, e, k))
    ensures forall n :: 0 <= n < |s.endings| && s.endings[n].job.key == k ==> !EndsAsAsked(s.endings[n])
    ensures k < s.asked
  {
    if !Spoilt(s, k) {
      assert (exists id :: Mine(s, id, k)) || k in s.waiting;
      assert NoEnding(s, k);
    }
  }

  lemma WaitersOnly(s: State, e: Event, t: State, k: nat)
    requires Inv(s) && t == Next(s, e) && k in t.waiting && k < s.asked
    ensures k in s.waiting && (t.waiting[k] == s.waiting[k] || (e == AbandonWaiter(k) && t.waiting[k].abandoned))
  {
    if Enabled(s, e) {
      if OfJob(e) {
        JobKeeps(s, e);
      } else if e.Acquire? {
        AcquireKeeps(s, e.key);
      } else if !e.Ask? && !e.AbandonWaiter? {
        OthersLeaveTransitions(s, e);
      }
    }
  }

  lemma WaiterSpoilt(s: State, e: Event, t: State, k: nat)
    requires Inv(s) && KeysOk(s) && (Spoilt(s, k) || StepFails(s, e, k)) && t == Next(s, e) && k in t.waiting
    ensures t.waiting[k].abandoned
  {
    NoneYet(s, e, k);
    WaitersOnly(s, e, t, k);
    if !Spoilt(s, k) && e != AbandonWaiter(k) {
      assert exists id :: Mine(s, id, k);
    }
  }

  lemma NextSpoilt(s: State, e: Event, t: State, k: nat)
    requires Inv(s) && KeysOk(s) && (Spoilt(s, k) || StepFails(s, e, k)) && t == Next(s, e)
    ensures Spoilt(t, k)
  {
    NoneYet(s, e, k);
    WaitersStay(s, e, k);
    if k in t.waiting {
      WaiterSpoilt(s, e, t, k);
    }
    forall id | Mine(t, id, k) ensures Lost(t, t.jobs[id]) {
      JobSpoilt(s, e, t, k, id);
    }
    EndingsSpoilt(s, e, t, k);
  }

  lemma {:induction false} RunSpoilt(s: State, events: seq<Event>, k: nat)
    requires Inv(s) && KeysOk(s) && (Spoilt(s, k) || !NoStepFails(s, events, k))
    ensures Spoilt(Run(s, events), k)
    decreases |events|
  {
    if events != [] {
      var t := Next(s, events[0]);
      if Spoilt(s, k) || StepFails(s, events[0], k) {
        NextSpoilt(s, events[0], t, k);
      }
      NextKeepsKeys(s, events[0], k);
      NextIsValid(s, events[0]);
      RunSpoilt(t, events[1..], k);
    }
  }

  /** In every run a transition that has ended has ended as it was asked to, a
      replacement committed and a removal with nothing left, if and only if none of its
      own steps failed. */
  lemma EndsAsAskedExactly(s: State, events: seq<Event>, n: nat)
    requires Init(s) && n < |Run(s, events).endings|
    ensures var f := Run(s, events).endings[n]; EndsAsAsked(f) <==> NoStepFails(s, events, f.job.key)
  {
    var k := Run(s, events).endings[n].job.key;
    InitKeeps(s);
    if NoStepFails(s, events, k) {
      SucceedsUnlessAStepFails(s, events, k);
    } else {
      RunSpoilt(s, events, k);
    }
  }

  // ----- by which step a transition ends -----

  /** A replacement is refused a port or its candidate is, or the transition is
      cancelled before it was committed. */
  predicate IsRefused(s: State, e: Event, id: Id) {
    && id in s.jobs
    && match e
       case Reserve(i, busy, valid) =>
         i == id && !s.jobs[id].abandoned && (!valid || ReservedPort(s, s.jobs[id], busy).None?)
       case CancelJob(i) => i == id && !s.jobs[id].pc.Reporting?
       case _ => false
  }

  /** A removal's stop or save fails, or it is cancelled. */
  predicate RemovalFails(s: State, e: Event, id: Id) {
    && id in s.jobs
    && match e
       case StopEnds(i, ok) => i == id && !ok
       case Forget(i, saved) => i == id && !saved
       case CancelJob(i) => i == id
       case _ => false
  }

  /** It was abandoned before it changed anything. */
  predicate GivesUp(s: State, e: Event, id: Id, k: nat) {
    || (e == Acquire(k) && k in s.waiting && s.waiting[k].abandoned)
    || ((e.Reserve? || e.DrainEnds?) && e.id == id && id in s.jobs && s.jobs[id].abandoned)
  }

  /** The step that ends a replacement tells its outcome, and the other way round. */
  ghost predicate ReplacementEndsBy(s: State, e: Event, f: Ending) {
    && (f.outcome == Committed <==>
          f.id in s.jobs && s.jobs[f.id].pc.Reporting? && (e == Report(f.id) || e == CancelJob(f.id)))
    && (f.outcome == RolledBack <==> e == Persist(f.id, true))
    && (f.outcome == Failed <==> RollbackFails(s, e, f.job.key))
    && (f.outcome == Raised <==> IsRefused(s, e, f.id))
    && (f.outcome == Unchanged <==> GivesUp(s, e, f.id, f.job.key))
    && f.outcome != DeploymentModel.Stopped && f.outcome != Absent
  }

  ghost predicate RemovalEndsBy(s: State, e: Event, f: Ending) {
    && (f.outcome == DeploymentModel.Stopped <==>
          e == Forget(f.id, true)
          || (e == StopEnds(f.id, true) && f.id in s.jobs && s.jobs[f.id].pc.OrphanStopping?))
    && (f.outcome == Absent <==> e == Acquire(f.job.key) && f.job.key in s.waiting && !s.waiting[f.job.key].abandoned)
    && (f.outcome == Raised <==> RemovalFails(s, e, f.id))
    && (f.outcome == Unchanged <==> GivesUp(s, e, f.id, f.job.key))
    && f.outcome != Committed && f.outcome != RolledBack && f.outcome != Failed
  }

  ghost predicate EndsBy(s: State, e: Event, f: Ending) {
    if f.job.task.Replace? then ReplacementEndsBy(s, e, f) else RemovalEndsBy(s, e, f)
  }

  lemma JobEndsBy(s: State, e: Event, f: Ending)
    requires Inv(s) && KeysOk(s) && OfJob(e) && EndedBy(s, e, f)
    ensures EndsBy(s, e, f)
  {
    assert ViewOk(ViewOf(s, e.id));
    if f.job.task.Replace? {
      FailsOrNot(s, e, f);
      ReplacementEnds(s, e, f);
    } else {
      RemovalEnds(s, e, f);
    }
  }

  lemma ReplacementEnds(s: State, e: Event, f: Ending)
    requires OfJob(e) && ViewOk(ViewOf(s, e.id)) && EndedBy(s, e, f) && f.job.task.Replace?
    requires f.outcome == Failed <==> RollbackFails(s, e, f.job.key)
    ensures ReplacementEndsBy(s, e, f)
  {
  }

  lemma RemovalEnds(s: State, e: Event, f: Ending)
    requires OfJob(e) && ViewOk(ViewOf(s, e.id)) && EndedBy(s, e, f) && f.job.task.Remove?
    ensures RemovalEndsBy(s, e, f)
  {
  }

  lemma FailsOrNot(s: State, e: Event, f: Ending)
    requires Inv(s) && KeysOk(s) && OfJob(e) && EndedBy(s, e, f)
    ensures f.outcome == Failed <==> RollbackFails(s, e, f.job.key)
  {
    assert ViewOk(ViewOf(s, e.id));
    if f.outcome == Failed {
      FailsByItsRollback(s, e);
    }
  }

  lemma LockEndsBy(s: State, key: nat, f: Ending)
    requires KeysOk(s) && EndedBy(s, Acquire(key), f)
    ensures EndsBy(s, Acquire(key), f)
  {
  }

  lemma StepEndsBy(s: State, e: Event, t: State, f: Ending)
    requires Inv(s) && KeysOk(s) && t == Next(s, e) && t.endings == s.endings + [f]
    ensures EndsBy(s, e, f)
  {
    EndingTells(s, e, t, f);
    if OfJob(e) {
      JobEndsBy(s, e, f);
    } else {
      LockEndsBy(s, e.key, f);
    }
  }

  /** The step that adds the nth ending. */
  ghost predicate AddsAt(s: State, events: seq<Event>, i: nat, f: Ending) {
    && i < |events|
    && var t := Run(s, events[..i]); Next(t, events[i]).endings == t.endings + [f] && EndsBy(t, events[i], f)
  }

  lemma FirstAdded(s: State, e: Event, rest: seq<Event>)
    requires Inv(s) && KeysOk(s) && |s.endings| < |Next(s, e).endings|
    ensures |Next(s, e).endings| == |s.endings| + 1 <= |Run(Next(s, e), rest).endings|
    ensures var f := Run(Next(s, e), rest).endings[|s.endings|];
            Next(s, e).endings == s.endings + [f] && EndsBy(s, e, f)
  {
    var t := Next(s, e);
    EndingComes(s, e, t);
    var g :| t.endings == s.endings + [g] && EndedBy(s, e, g);
    NextIsValid(s, e);
    EndingsStay(t, rest);
    assert Run(t, rest).endings[|s.endings|] == Run(t, rest).endings[..|t.endings|][|s.endings|] == g;
    StepEndsBy(s, e, t, g);
  }

  lemma AddedFirst(s: State, events: seq<Event>)
    requires Inv(s) && KeysOk(s) && events != [] && |s.endings| < |Next(s, events[0]).endings|
    ensures |Next(s, events[0]).endings| == |s.endings| + 1 <= |Run(s, events).endings|
    ensures AddsAt(s, events, 0, Run(s, events).endings[|s.endings|])
  {
    FirstAdded(s, events[0], events[1..]);
    assert Run(s, events[..0]) == s;
  }

  lemma {:induction false} AddedAt(s: State, events: seq<Event>, n: nat)
    requires Inv(s) && KeysOk(s) && |s.endings| <= n < |Run(s, events).endings|
    ensures exists i :: AddsAt(s, events, i, Run(s, events).endings[n])
    decreases |events|
  {
    var t, f := Next(s, events[0]), Run(s, events).endings[n];
    if n < |t.endings| {
      AddedFirst(s, events);
    } else {
      NextKeepsKeys(s, events[0], 0);
      NextIsValid(s, events[0]);
      AddedAt(t, events[1..], n);
      var i :| AddsAt(t, events[1..], i, f);
      AddedLater(s, events, i, f);
    }
  }

  lemma AddedLater(s: State, events: seq<Event>, i: nat, f: Ending)
    requires events != [] && AddsAt(Next(s, events[0]), events[1..], i, f)
    ensures AddsAt(s, events, i + 1, f)
  {
    assert events[..i + 1][0] == events[0] && events[..i + 1][1..] == events[1..][..i];
    assert Run(s, events[..i + 1]) == Run(Next(s, events[0]), events[1..][..i]);
  }

  lemma {:induction false} EndingsStay(s: State, events: seq<Event>)
    requires Inv(s)
    ensures |s.endings| <= |Run(s, events).endings| && Run(s, events).endings[..|s.endings|] == s.endings
    decreases |events|
  {
    if events != [] {
      NextKeeps(s, events[0]);
      EndingsStay(Next(s, events[0]), events[1..]);
      var t := Next(s, events[0]);
      assert t.endings[..|s.endings|] == s.endings;
      assert Run(s, events).endings[..|s.endings|] == Run(s, events).endings[..|t.endings|][..|s.endings|];
    }
  }

  /** In every run each transition ended by a step that tells its outcome: a
      replacement committed after its commit, rolled back by the saved end of its
      rollback, failed by a failed step of it, raised by a refusal or cancelled, and
      unchanged because it was abandoned first; a removal likewise. */
  lemma OutcomesTellTheLastStep(s: State, events: seq<Event>, n: nat)
    requires Init(s) && n < |Run(s, events).endings|
    ensures exists i :: AddsAt(s, events, i, Run(s, events).endings[n])
  {
    InitKeeps(s);
    AddedAt(s, events, n);
  }

  // ----- what only a save and a start can do -----

  /** A gate that goes without a save goes where there is no record. */
  lemma DroppedRecord(s: State, e: Event, t: State)
    requires Inv(s) && F.Does(s, e, t) && t.records != s.records
    ensures (e.Commit? && e.saved) || (e.Forget? && e.saved)
  {
    if OfJob(e) && Enabled(s, e) {
      F.JobFacts(s, e.id);
    }
  }

  /** agent.yaml changes by a save that succeeded, and the records with it. */
  lemma DiskChangesBySaving(s: State, events: seq<Event>, e: Event)
    requires Init(s)
    ensures var t, u := Run(s, events), Next(Run(s, events), e);
            && u.disk == u.records
            && (u.disk != t.disk ==> (e.Commit? && e.saved) || (e.Forget? && e.saved))
  {
    Reached(s, events);
    DiskStep(Run(s, events), e);
  }

  lemma DiskStep(s: State, e: Event)
    requires Inv(s)
    ensures var t := Next(s, e);
            t.disk == t.records && (t.disk != s.disk ==> (e.Commit? && e.saved) || (e.Forget? && e.saved))
  {
    F.NextDoes(s, e);
    NextIsValid(s, e);
    if Next(s, e).records != s.records {
      DroppedRecord(s, e, Next(s, e));
    }
  }

  /** Once the agent stops no child is started. */
  lemma NothingStartsAfterStopping(s: State, before: seq<Event>, after: seq<Event>)
    requires Init(s)
    ensures var t := Run(s, before); |Run(Next(t, BeginStop), after).all| == |t.all|
  {
    Reached(s, before);
    NextIsValid(Run(s, before), BeginStop);
    RunKeeps(Next(Run(s, before), BeginStop), after);
  }

  /** In every run a drain whose gate is empty can end at once, and so can one that is
      abandoned. */
  lemma EmptyDrainsCanEnd(s: State, events: seq<Event>, id: Id)
    requires Init(s) && id in Run(s, events).jobs && Run(s, events).jobs[id].pc.Draining?
    ensures var t := Run(s, events);
            && id in t.gate && t.gate[id] < |t.gates|
            && (t.gates[t.gate[id]].requests == 0 ==> Enabled(Next(t, IdleSeen(id)), DrainEnds(id, false)))
            && (t.jobs[id].abandoned ==> Enabled(t, DrainEnds(id, false)))
  {
    Reached(s, events);
    DrainingGate(Run(s, events), id);
    EmptyDrainEnds(Run(s, events), id);
  }

  lemma DrainingGate(t: State, id: Id)
    requires Inv(t) && id in t.jobs && t.jobs[id].pc.Draining?
    ensures id in t.gate && t.gate[id] < |t.gates|
    ensures t.gates[t.gate[id]].idle <==> t.gates[t.gate[id]].requests == 0
  {
    assert ViewOk(ViewOf(t, id));
  }

  lemma EmptyDrainEnds(t: State, id: Id)
    requires id in t.jobs && t.jobs[id].pc.Draining? && id in t.gate && t.gate[id] < |t.gates|
    requires t.gates[t.gate[id]].idle <==> t.gates[t.gate[id]].requests == 0
    ensures t.gates[t.gate[id]].requests == 0 ==> Enabled(Next(t, IdleSeen(id)), DrainEnds(id, false))
    ensures t.jobs[id].abandoned ==> Enabled(t, DrainEnds(id, false))
  {
  }

  /** In every run a transition that is asked for waits for its deployment's lock, and is
      nowhere else; when it gets it, it holds it or has ended. */
  lemma AskedForWaitsAndGetsTheLock(s: State, events: seq<Event>, id: Id, task: Task, key: nat)
    requires Init(s)
    ensures var t := Run(s, events);
            var u, w := Next(t, Ask(id, task)), Next(t, Acquire(key));
            && u == t.(waiting := t.waiting[t.asked := Waiter(id, task, false)], asked := t.asked + 1)
            && t.asked !in t.waiting && NoJob(t, t.asked) && NoEnding(t, t.asked)
            && (key in t.waiting && t.waiting[key].id !in t.jobs ==>
                  && w.waiting == t.waiting - {key}
                  && (Mine(w, t.waiting[key].id, key) <==> NoEnding(w, key)))
  {
    ReachedWithKeys(s, events);
    AskWaits(Run(s, events), id, task);
    if MayAcquire(Run(s, events), key) {
      LockIsGot(Run(s, events), key);
    }
  }

  lemma AskWaits(t: State, id: Id, task: Task)
    requires KeysOk(t)
    ensures Next(t, Ask(id, task)) ==
              t.(waiting := t.waiting[t.asked := Waiter(id, task, false)], asked := t.asked + 1)
    ensures t.asked !in t.waiting && NoJob(t, t.asked) && NoEnding(t, t.asked)
  {
  }

  lemma LockIsGot(t: State, key: nat)
    requires Inv(t) && KeysOk(t) && MayAcquire(t, key)
    ensures var w := DoAcquire(t, key);
            w.waiting == t.waiting - {key} && (Mine(w, t.waiting[key].id, key) <==> NoEnding(w, key))
  {
    var r, id, w := Locked(t, key), t.waiting[key].id, DoAcquire(t, key);
    AcquireKeeps(t, key);
    AcquireComes(t, key);
    if id !in w.jobs {
      var f: Ending :| Adds(r, w, id, f, AfterAcquire(t, key).outcome);
      assert w.endings[|t.endings|] == f;
    }
  }
}
