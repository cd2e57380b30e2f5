/**
  What holds in every run of the agent, whatever its transitions, requests and
  failures do and however they interleave.
*/
module DeploymentTheorems {
  import opened Prelude
  import opened DeploymentModel
  import opened DeploymentInvariants
  import opened DeploymentSteps

  /** The agent once it has started the recorded deployments: the recorded ports
      are distinct, and each recorded deployment has one child or none. */
  ghost predicate Init(s: State) {
    && s.disk == s.records && s.gates == [] && s.gate == map[] && s.reservations == {} && !s.stopping
    && s.waiting == map[] && s.jobs == map[] && s.requests == map[] && s.endings == [] && s.notes == [] && s.asked == 0
    && (forall i, j :: i in s.records && j in s.records && i != j ==> s.records[i].port != s.records[j].port)
    && (forall i :: i in s.records ==> s.records[i].port != s.agentPort)
    && (forall i :: i in s.children ==>
          i in s.records && s.children[i] < |s.all| && s.all[s.children[i]].id == i
            && s.all[s.children[i]].record == s.records[i])
    && (forall h :: 0 <= h < |s.all| ==> Lookup(s.children, s.all[h].id) == Some(h))
  }

  lemma InitKeeps(s: State)
    requires Init(s)
    ensures Inv(s)
  {
    forall i, p | Holds(ViewOf(s, i), p) ensures i in s.records && s.records[i].port == p {}
    assert PortsOk(s);
  }

  lemma NextIsValid(s: State, e: Event)
    requires Inv(s)
    ensures Inv(Next(s, e))
  {
    NextKeeps(s, e);
  }

  /** What a whole run does to what was there before it. */
  ghost predicate RunOk(s: State, t: State) {
    Inv(t) && Remembers(s, t) && RecordsGrow(s, t)
  }

  lemma StepThenRun(s: State, t: State, u: State)
    requires StepOk(s, t) && RunOk(t, u)
    ensures RunOk(s, u)
  {
    forall j | j in u.records
      ensures Lookup(s.records, j) == Some(u.records[j]) || Noted(u.notes, j, u.records[j])
    {
      if Noted(t.notes, j, u.records[j]) {
        var n :| n in t.notes && n.id == j && n.record == u.records[j] && NoteOk(n);
        assert n in u.notes;
      }
    }
  }

  lemma {:induction false} RunKeeps(s: State, events: seq<Event>)
    requires Inv(s)
    ensures RunOk(s, Run(s, events))
    decreases |events|
  {
    if events != [] {
      NextKeeps(s, events[0]);
      RunKeeps(Next(s, events[0]), events[1..]);
      StepThenRun(s, Next(s, events[0]), Run(s, events));
    }
  }

  lemma Reached(s: State, events: seq<Event>)
    requires Init(s)
    ensures RunOk(s, Run(s, events))
  {
    InitKeeps(s);
    RunKeeps(s, events);
  }

  // ----- children -----

  /** Every child ever started is dead or registered under its id; so no id has
      two that live. */
  lemma LiveChildrenAreRegistered(s: State, events: seq<Event>)
    requires Init(s)
    ensures var t := Run(s, events);
            && (forall h :: 0 <= h < |t.all| && t.all[h].alive ==> Lookup(t.children, t.all[h].id) == Some(h))
            && (forall g, h ::
                  0 <= g < |t.all| && 0 <= h < |t.all| && t.all[g].alive && t.all[h].alive && t.all[g].id == t.all[h].id
                  ==> g == h)
  {
    Reached(s, events);
  }

  /** A registration goes, or is replaced, only once its child is dead. */
  lemma RegistrationOutlivesChild(s: State, events: seq<Event>, e: Event, id: Id)
    requires Init(s) && id in Run(s, events).children
    ensures var t, u := Run(s, events), Next(Run(s, events), e);
            && t.children[id] < |u.all|
            && (Lookup(u.children, id) != Some(t.children[id]) ==> !u.all[t.children[id]].alive)
  {
    Reached(s, events);
    NextKeeps(Run(s, events), e);
  }

  /** Once the agent stops no child starts, so a last sweep whose stops all
      succeed leaves none alive, then or ever after. */
  lemma SweepLeavesNoneAlive(s: State, events: seq<Event>, stopped: set<Id>, after: seq<Event>)
    requires Init(s) && Run(s, events).stopping && Run(s, events).children.Keys <= stopped
    ensures var t := Run(Next(Run(s, events), Sweep(stopped)), after);
            |t.all| == |Run(s, events).all| && forall h :: 0 <= h < |t.all| ==> !t.all[h].alive
  {
    var t := Run(s, events);
    Reached(s, events);
    NextKeeps(t, Sweep(stopped));
    SweepStopsAll(t, stopped);
    RunKeeps(Next(t, Sweep(stopped)), after);
  }

  lemma SweepStopsAll(t: State, stopped: set<Id>)
    requires Shape(t) && t.stopping && t.children.Keys <= stopped
    ensures var u := Next(t, Sweep(stopped));
            u.stopping && |u.all| == |t.all| && forall h :: 0 <= h < |u.all| ==> !u.all[h].alive
  {
    var u := Next(t, Sweep(stopped));
    forall h | 0 <= h < |u.all| ensures !u.all[h].alive {
      assert t.all[h].alive ==> Lookup(t.children, t.all[h].id) == Some(h);
    }
  }

  // ----- requests -----

  /** A request goes through only to a live child started from the record that
      is committed for its id at that moment, and that is the record it read. */
  lemma SendsToTheCommittedRecord(s: State, events: seq<Event>, key: nat)
    requires Init(s)
    requires var t := Run(s, events);
             var u := Next(t, Body(key, true));
             Enabled(t, Body(key, true)) && key in u.requests && u.requests[key].InFlight?
    ensures var t := Run(s, events);
            var r := t.requests[key];
            && r.id in t.records && r.process < |t.all| && t.all[r.process].alive
            && t.all[r.process].id == r.id && t.all[r.process].record == t.records[r.id] == r.record
  {
    var t := Run(s, events);
    Reached(s, events);
    SendIsSound(t, key);
  }

  lemma SendIsSound(t: State, key: nat)
    requires Inv(t) && MayTakeBody(t, key) && MaySend(t, t.requests[key])
    ensures var r := t.requests[key];
            && r.id in t.records && r.process < |t.all| && t.all[r.process].alive
            && t.all[r.process].id == r.id && t.all[r.process].record == t.records[r.id] == r.record
  {
    assert RequestOk(t, t.requests[key]);
    assert ViewOk(ViewOf(t, t.requests[key].id));
  }

  /** A gate that is closed lets nobody in. */
  lemma ClosedGateNeverFills(s: State, events: seq<Event>, e: Event, g: nat)
    requires Init(s) && g < |Run(s, events).gates| && Run(s, events).gates[g].paused
    ensures var t, u := Run(s, events), Next(Run(s, events), e);
            g < |u.gates| && u.gates[g].requests <= t.gates[g].requests
  {
    Reached(s, events);
    NextKeeps(Run(s, events), e);
  }

  /** A replacement or a removal that goes on from its drain before the timeout
      finds nobody behind the gate it closed, though others may have run between
      the idle event and its own resumption. */
  lemma DrainedGateIsEmpty(s: State, events: seq<Event>, id: Id)
    requires Init(s)
    requires var t := Run(s, events); Enabled(t, DrainEnds(id, false)) && !t.jobs[id].abandoned
    ensures var t := Run(s, events);
            && id in t.records && Paused(t, id) && t.gates[t.gate[id]].requests == 0
            && forall k :: k in t.requests && t.requests[k].InFlight? ==> t.requests[k].gate != t.gate[id]
  {
    var t := Run(s, events);
    Reached(s, events);
    assert ViewOk(ViewOf(t, id));
    forall k | k in t.requests && t.requests[k].InFlight? ensures t.requests[k].gate != t.gate[id] {
      assert k in Behind(t.requests, t.requests[k].gate);
    }
  }

  // ----- ports -----

  /** No port is held, by record, by registered child or by reservation, by two
      deployments or by a deployment and the agent; and the reservations are
      those of the transitions under way. */
  lemma PortsAreDisjoint(s: State, events: seq<Event>)
    requires Init(s)
    ensures var t := Run(s, events);
            && (forall i, j, p :: Holds(ViewOf(t, i), p) && Holds(ViewOf(t, j), p) ==> i == j)
            && (forall i :: !Holds(ViewOf(t, i), t.agentPort))
            && (forall p :: p in t.reservations <==> HasReserved(t, p))
  {
    Reached(s, events);
  }

  // ----- records -----

  /** At every await the records on disk are those in memory, and each was there
      at the start or was committed from a child of its own that had been
      verified, was ready and was running, by a transition that had not been
      abandoned. */
  lemma DiskHoldsConfirmedRecords(s: State, events: seq<Event>, id: Id)
    requires Init(s) && id in Run(s, events).disk
    ensures var t := Run(s, events);
            && t.disk == t.records
            && (Lookup(s.records, id) == Some(t.disk[id])
                || exists n :: n in t.notes && n.id == id && n.record == t.disk[id]
                               && n.child.id == id && n.child.record == n.record
                               && n.child.verified && n.child.ready && n.child.alive && !n.abandoned)
  {
    Reached(s, events);
    var t := Run(s, events);
    if Lookup(s.records, id) != Some(t.records[id]) {
      var n :| n in t.notes && n.id == id && n.record == t.records[id] && NoteOk(n);
    }
  }

  // ----- outcomes -----

  /** In every run every transition ends as its outcome says: committed,
      unchanged, rolled back, or failed with the record still the previous one;
      removed, absent, or raised with the record still there. */
  lemma TransitionsEndAsTheySay(s: State, events: seq<Event>, e: Event)
    requires Init(s)
    ensures EndsWell(Run(s, events), Next(Run(s, events), e))
  {
    Reached(s, events);
    NextKeeps(Run(s, events), e);
  }

  /** Each transition ever asked for is in one place: waiting, holding its lock,
      or ended. */
  ghost predicate KeysOk(s: State) {
    && (forall k :: k in s.waiting ==> k < s.asked && NoJob(s, k) && NoEnding(s, k))
    && (forall i :: i in s.jobs ==> s.jobs[i].key < s.asked && NoEnding(s, s.jobs[i].key))
    && (forall i, j :: i in s.jobs && j in s.jobs && s.jobs[i].key == s.jobs[j].key ==> i == j)
    && (forall n :: 0 <= n < |s.endings| ==> s.endings[n].job.key < s.asked)
  }

  ghost predicate NoJob(s: State, k: nat) {
    forall i :: i in s.jobs ==> s.jobs[i].key != k
  }

  ghost predicate NoEnding(s: State, k: nat) {
    forall n :: 0 <= n < |s.endings| ==> s.endings[n].job.key != k
  }

  /** The transition `k` was abandoned before its commit check, and has not been
      committed. */
  ghost predicate Doomed(s: State, k: nat) {
    && k < s.asked
    && (k in s.waiting ==> s.waiting[k].abandoned)
    && (forall i :: i in s.jobs && s.jobs[i].key == k ==> s.jobs[i].abandoned && !s.jobs[i].pc.Reporting?)
    && (forall n :: 0 <= n < |s.endings| && s.endings[n].job.key == k ==> s.endings[n].outcome != Committed)
  }

  lemma SameJob(s: State, t: State, id: Id, j: Id)
    requires Advances(s, t, id) && id in s.jobs && j in t.jobs
    ensures j in s.jobs && t.jobs[j].key == s.jobs[j].key && Follows(Some(s.jobs[j]), Some(t.jobs[j]))
  {
    assert j == id || Lookup(t.jobs, j) == Lookup(s.jobs, j);
  }

  lemma NoNewEnding(s: State, t: State, id: Id, k: nat)
    requires Advances(s, t, id) && id in s.jobs && NoEnding(s, k) && (id in t.jobs || k != s.jobs[id].key)
    ensures NoEnding(t, k)
  {
    if id !in t.jobs {
      var e: Ending :| t.endings == s.endings + [e] && EndsJob(e, s.jobs[id]);
    }
  }

  lemma AdvancesKeepsOrder(s: State, t: State, id: Id)
    requires KeysOk(s) && Advances(s, t, id) && id in s.jobs
    ensures KeysOk(t)
  {
    forall j | j in t.jobs ensures j in s.jobs && t.jobs[j].key == s.jobs[j].key && NoEnding(t, t.jobs[j].key) {
      SameJob(s, t, id, j);
      NoNewEnding(s, t, id, t.jobs[j].key);
    }
    forall k | k in t.waiting ensures NoEnding(t, k) {
      NoNewEnding(s, t, id, k);
    }
    if id !in t.jobs {
      var e: Ending :| t.endings == s.endings + [e] && EndsJob(e, s.jobs[id]);
    }
  }

  lemma AdvancesKeepsDoomed(s: State, t: State, id: Id, k: nat)
    requires KeysOk(s) && Advances(s, t, id) && id in s.jobs && Doomed(s, k)
    ensures Doomed(t, k)
  {
    forall j | j in t.jobs && t.jobs[j].key == k ensures t.jobs[j].abandoned && !t.jobs[j].pc.Reporting? {
      SameJob(s, t, id, j);
    }
    if id !in t.jobs {
      var e: Ending :| t.endings == s.endings + [e] && EndsJob(e, s.jobs[id]);
      forall n | 0 <= n < |t.endings| && t.endings[n].job.key == k ensures t.endings[n].outcome != Committed {
        assert n < |s.endings| ==> t.endings[n] == s.endings[n];
      }
    }
  }

  lemma AdvancesKeepsKeys(s: State, t: State, id: Id, k: nat)
    requires KeysOk(s) && Advances(s, t, id) && id in s.jobs
    ensures KeysOk(t) && (Doomed(s, k) ==> Doomed(t, k))
  {
    AdvancesKeepsOrder(s, t, id);
    if Doomed(s, k) {
      AdvancesKeepsDoomed(s, t, id, k);
    }
  }

  lemma LockKeepsKeys(s: State, key: nat, k: nat)
    requires KeysOk(s) && MayAcquire(s, key)
    ensures KeysOk(Locked(s, key)) && (Doomed(s, k) ==> Doomed(Locked(s, key), k))
  {
  }

  lemma AskKeepsKeys(s: State, id: Id, task: Task, k: nat)
    requires KeysOk(s)
    ensures var t := s.(waiting := s.waiting[s.asked := Waiter(id, task, false)], asked := s.asked + 1);
            KeysOk(t) && (Doomed(s, k) ==> Doomed(t, k))
  {
  }

  lemma AbandonWaiterKeepsKeys(s: State, key: nat, k: nat)
    requires KeysOk(s) && key in s.waiting
    ensures var t := s.(waiting := s.waiting[key := s.waiting[key].(abandoned := true)]);
            KeysOk(t) && (Doomed(s, k) ==> Doomed(t, k))
  {
  }

  /** No other event touches the transitions. */
  lemma OthersLeaveTransitions(s: State, e: Event)
    requires !OfJob(e) && !e.Acquire? && !e.Ask? && !e.AbandonWaiter?
    ensures var t := Next(s, e);
            t.waiting == s.waiting && t.asked == s.asked && t.jobs == s.jobs && t.endings == s.endings
  {
    if Enabled(s, e) {
      match e
      case Arrive(k, id) => assert OnlyRequests(s, DoArrive(s, k, id));
      case Body(k, sends) => assert OnlyRequests(s, DoBody(s, k, sends));
      case Leave(k) => assert OnlyRequests(s, DoLeave(s, k));
      case ChildExits(h) =>
      case BeginStop =>
      case Sweep(stopped) =>
    }
  }

  lemma SameTransitionsKeepKeys(s: State, t: State, k: nat)
    requires KeysOk(s) && t.waiting == s.waiting && t.asked == s.asked && t.jobs == s.jobs && t.endings == s.endings
    ensures KeysOk(t) && (Doomed(s, k) ==> Doomed(t, k))
  {
  }

  lemma OtherKeepsKeys(s: State, e: Event, k: nat)
    requires KeysOk(s) && Enabled(s, e) && !OfJob(e) && !e.Acquire?
    ensures KeysOk(Next(s, e)) && (Doomed(s, k) ==> Doomed(Next(s, e), k))
  {
    if e.Ask? {
      AskKeepsKeys(s, e.id, e.task, k);
    } else if e.AbandonWaiter? {
      AbandonWaiterKeepsKeys(s, e.key, k);
    } else {
      OthersLeaveTransitions(s, e);
      SameTransitionsKeepKeys(s, Next(s, e), k);
    }
  }

  lemma JobKeepsKeys(s: State, e: Event, k: nat)
    requires Inv(s) && KeysOk(s) && Enabled(s, e) && OfJob(e)
    ensures KeysOk(Next(s, e)) && (Doomed(s, k) ==> Doomed(Next(s, e), k))
  {
    JobKeeps(s, e);
    assert e.id in s.jobs;
    AdvancesKeepsKeys(s, Next(s, e), e.id, k);
  }

  lemma AcquireKeepsKeys(s: State, key: nat, k: nat)
    requires Inv(s) && KeysOk(s) && MayAcquire(s, key)
    ensures KeysOk(DoAcquire(s, key)) && (Doomed(s, k) ==> Doomed(DoAcquire(s, key), k))
  {
    AcquireKeeps(s, key);
    LockKeepsKeys(s, key, k);
    AdvancesKeepsKeys(Locked(s, key), DoAcquire(s, key), s.waiting[key].id, k);
  }

  lemma NextKeepsKeys(s: State, e: Event, k: nat)
    requires Inv(s) && KeysOk(s)
    ensures KeysOk(Next(s, e)) && (Doomed(s, k) ==> Doomed(Next(s, e), k))
  {
    if Enabled(s, e) {
      if OfJob(e) {
        JobKeepsKeys(s, e, k);
      } else if e.Acquire? {
        AcquireKeepsKeys(s, e.key, k);
      } else {
        OtherKeepsKeys(s, e, k);
      }
    }
  }

  lemma {:induction false} RunKeepsKeys(s: State, events: seq<Event>, k: nat)
    requires Inv(s) && KeysOk(s)
    ensures KeysOk(Run(s, events)) && (Doomed(s, k) ==> Doomed(Run(s, events), k))
    decreases |events|
  {
    if events != [] {
      NextKeepsKeys(s, events[0], k);
      NextKeeps(s, events[0]);
      RunKeepsKeys(Next(s, events[0]), events[1..], k);
    }
  }

  /** A transition that is abandoned before its commit check, whether it waits
      for its lock or holds it, never ends committed. */
  lemma AbandonedNeverCommits(s: State, events: seq<Event>, k: nat, after: seq<Event>)
    requires Init(s)
    requires var t := Run(s, events);
             || (k in t.waiting && t.waiting[k].abandoned)
             || (exists i :: i in t.jobs && t.jobs[i].key == k && t.jobs[i].abandoned && !t.jobs[i].pc.Reporting?)
    ensures var u := Run(Run(s, events), after);
            forall n :: 0 <= n < |u.endings| && u.endings[n].job.key == k ==> u.endings[n].outcome != Committed
  {
    var t := Run(s, events);
    InitKeeps(s);
    RunKeeps(s, events);
    RunKeepsKeys(s, events, k);
    assert Doomed(t, k) by {
      if k in t.waiting {
        assert NoJob(t, k) && NoEnding(t, k);
      } else {
        var i :| i in t.jobs && t.jobs[i].key == k && t.jobs[i].abandoned && !t.jobs[i].pc.Reporting?;
        assert NoEnding(t, t.jobs[i].key);
      }
    }
    RunKeepsKeys(t, after, k);
  }
}
