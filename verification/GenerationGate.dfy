/** The appliance's generation gate (lazarus/appliance/api.py). */
module GenerationGate {
  // Admission slots, the recheck behind each of them, and the managed pause and
  // resume.  A step is one stretch between two awaits.  `generation_control` admits
  // one managed operation at a time, so there is one `Control`.

  import opened Prelude

  /** A generation request: queued for the semaphore; with its slot, about to be
      checked again; or between its forwarding and its response's end. */
  datatype Stage = Queued | Admitted | Forwarded

  /** The managed operation that holds generation_control, by its await. */
  datatype Control = Free | Resuming | IdleWait(woken: bool) | Quiescing

  datatype Result = Result(resume: bool, success: bool)

  /** `published` is what the manifest on disk says of the gate; None once a
      write has failed part way. */
  datatype State = State(
    capacity: Option<nat>, permits: int, waiting: int, active: int, idle: bool,
    paused: bool, published: Option<bool>,
    requests: map<nat, Stage>, control: Control, results: seq<Result>)

  datatype Event =
    | Arrive(key: nat)
    | Admit(key: nat)
    | GiveUp(key: nat)                        // cancelled while queued
    | Recheck(key: nat, healthy: bool)        // after refresh_role_observations
    | Leave(key: nat)                         // the slot is given back
    | Begin(resume: bool, wrote: bool, closed: bool)
    | IdleReturns(timedOut: bool, closed: bool)
    | QuiesceReturns(acked: bool, wrote: bool, closed: bool)
    | ResumeReturns(acked: bool, wrote: bool, closed: bool)
    | BackendPauses
    | Publish(wrote: bool)

  /** The manifest is written, or fails part way. */
  function Write(s: State, wrote: bool): State {
    s.(published := if wrote then Some(s.paused) else None)
  }

  /** The except branch: the gate closes, is published closed if it can be, and
      the operation reports that it failed. */
  function Close(s: State, resume: bool, wrote: bool): State {
    Write(s.(paused := true), wrote).(control := Free, results := s.results + [Result(resume, false)])
  }

  function Succeed(s: State, resume: bool): State {
    s.(control := Free, results := s.results + [Result(resume, true)])
  }

  function TakeSlot(s: State, key: nat): State {
    s.(active := s.active + 1, idle := false, requests := s.requests[key := Admitted])
  }

  /** The end of `slot`: the last one out sets the idle event, which wakes the
      operation that waits for it, though it resumes only later. */
  function GiveSlot(s: State, key: nat): State {
    var active := s.active - 1;
    s.(active := active, idle := s.idle || active == 0,
       permits := if s.capacity.Some? then s.permits + 1 else s.permits,
       requests := s.requests - {key},
       control := if active == 0 && s.control.IdleWait? then IdleWait(true) else s.control)
  }

  predicate Enabled(s: State, e: Event) {
    match e
    case Arrive(k) => k !in s.requests
    case Admit(k) => k in s.requests && s.requests[k].Queued? && s.permits > 0
    case GiveUp(k) => k in s.requests && s.requests[k].Queued?
    case Recheck(k, _) => k in s.requests && s.requests[k].Admitted?
    case Leave(k) => k in s.requests && !s.requests[k].Queued?
    case Begin(_, _, _) => s.control.Free?
    case IdleReturns(timedOut, _) => s.control.IdleWait? && (timedOut || s.control.woken)
    case QuiesceReturns(_, _, _) => s.control.Quiescing?
    case ResumeReturns(_, _, _) => s.control.Resuming?
    case BackendPauses => true
    case Publish(_) => true
  }

  function Next(s: State, e: Event): State {
    if !Enabled(s, e) then s else
    match e
    case Arrive(k) =>
      if s.capacity.Some? then s.(waiting := s.waiting + 1, requests := s.requests[k := Queued]) else TakeSlot(s, k)
    case Admit(k) => TakeSlot(s.(permits := s.permits - 1, waiting := s.waiting - 1), k)
    case GiveUp(k) => s.(waiting := s.waiting - 1, requests := s.requests - {k})
    case Recheck(k, healthy) =>
      if healthy && !s.paused then s.(requests := s.requests[k := Forwarded]) else GiveSlot(s, k)
    case Leave(k) => GiveSlot(s, k)
    case Begin(resume, wrote, closed) =>
      var s1 := Write(s.(paused := true), wrote);
      if !wrote then Close(s1, resume, closed)
      else s1.(control := if resume then Resuming else IdleWait(s.idle))
    case IdleReturns(timedOut, closed) =>
      if timedOut then Close(s, false, closed) else s.(control := Quiescing)
    case QuiesceReturns(acked, wrote, closed) =>
      if acked && s.paused && wrote then Succeed(Write(s, true), false) else Close(s, false, closed)
    case ResumeReturns(acked, wrote, closed) =>
      if acked && wrote then Succeed(Write(s.(paused := false), true), true) else Close(s, true, closed)
    case BackendPauses => s.(paused := true)
    case Publish(wrote) => Write(s, wrote)
  }

  function Run(s: State, events: seq<Event>): State
    decreases |events|
  {
    if events == [] then s else Run(Next(s, events[0]), events[1..])
  }

  ghost predicate Init(s: State) {
    && s.requests == map[] && s.waiting == 0 && s.active == 0 && s.idle && s.control == Free && s.results == []
    && (s.capacity.Some? ==> s.permits == s.capacity.value)
  }

  // ----- what every step keeps -----

  ghost function InStage(requests: map<nat, Stage>, stage: Stage): set<nat> {
    set k | k in requests && requests[k] == stage
  }

  ghost function InSlots(requests: map<nat, Stage>): set<nat> {
    set k | k in requests && !requests[k].Queued?
  }

  ghost predicate CountsOk(s: State) {
    && s.active == |InSlots(s.requests)| && (s.idle <==> s.active == 0)
    && s.waiting == |InStage(s.requests, Queued)|
    && (s.capacity.Some? ==> s.permits >= 0 && s.permits + s.active == s.capacity.value)
    && (s.capacity.None? ==> InStage(s.requests, Queued) == {})
  }

  ghost predicate Drained(s: State) {
    InStage(s.requests, Forwarded) == {}
  }

  /** While an operation holds the control lock the gate is closed, and once the
      idle event has been set nothing is being answered. */
  ghost predicate ControlOk(s: State) {
    && (!s.control.Free? ==> s.paused)
    && (s.control.Quiescing? || s.control == IdleWait(true) ==> Drained(s))
    && (s.control == IdleWait(false) ==> !s.idle)
  }

  ghost predicate Inv(s: State) {
    CountsOk(s) && ControlOk(s)
  }

  lemma StagesAfter(requests: map<nat, Stage>, k: nat, stage: Stage)
    ensures InSlots(requests[k := stage])
            == (if stage.Queued? then InSlots(requests) - {k} else InSlots(requests) + {k})
    ensures forall other :: InStage(requests[k := stage], other)
              == (if other == stage then InStage(requests, other) + {k} else InStage(requests, other) - {k})
  {
  }

  lemma StagesWithout(requests: map<nat, Stage>, k: nat)
    ensures InSlots(requests - {k}) == InSlots(requests) - {k}
    ensures forall other :: InStage(requests - {k}, other) == InStage(requests, other) - {k}
  {
  }

  lemma GiveSlotKeeps(s: State, k: nat)
    requires Inv(s) && k in s.requests && !s.requests[k].Queued?
    ensures Inv(GiveSlot(s, k))
  {
    StagesWithout(s.requests, k);
    assert k in InSlots(s.requests) && k !in InStage(s.requests, Queued);
    assert InStage(s.requests, Queued) - {k} == InStage(s.requests, Queued);
    if s.active == 1 {
      assert |InSlots(s.requests) - {k}| == 0;
      assert InStage(s.requests - {k}, Forwarded) <= InSlots(s.requests - {k});
    }
  }

  lemma ArriveKeeps(s: State, k: nat)
    requires Inv(s) && k !in s.requests
    ensures Inv(Next(s, Arrive(k)))
  {
    StagesAfter(s.requests, k, if s.capacity.Some? then Queued else Admitted);
    assert k !in InSlots(s.requests) && k !in InStage(s.requests, Queued) && k !in InStage(s.requests, Forwarded);
  }

  lemma AdmitKeeps(s: State, k: nat)
    requires Inv(s) && Enabled(s, Admit(k))
    ensures Inv(Next(s, Admit(k)))
  {
    StagesAfter(s.requests, k, Admitted);
    assert k in InStage(s.requests, Queued) && k !in InSlots(s.requests) && k !in InStage(s.requests, Forwarded);
  }

  lemma ForwardKeeps(s: State, k: nat)
    requires Inv(s) && k in s.requests && s.requests[k].Admitted? && !s.paused
    ensures Inv(s.(requests := s.requests[k := Forwarded]))
  {
    StagesAfter(s.requests, k, Forwarded);
    assert k in InSlots(s.requests) && k !in InStage(s.requests, Queued);
    assert InSlots(s.requests) + {k} == InSlots(s.requests);
    assert InStage(s.requests, Queued) - {k} == InStage(s.requests, Queued);
  }

  /** A step of the managed operation, or of the backend, leaves requests and
      counters as they were. */
  ghost predicate SameRequests(s: State, t: State) {
    t == s.(paused := t.paused, published := t.published, control := t.control, results := t.results)
  }

  lemma SameRequestsKeeps(s: State, t: State)
    requires CountsOk(s) && SameRequests(s, t)
    ensures CountsOk(t) && Drained(t) == Drained(s)
  {
  }

  lemma GiveUpKeeps(s: State, k: nat)
    requires Inv(s) && Enabled(s, GiveUp(k))
    ensures Inv(Next(s, GiveUp(k)))
  {
    StagesWithout(s.requests, k);
    assert k in InStage(s.requests, Queued) && k !in InSlots(s.requests);
    assert InSlots(s.requests) - {k} == InSlots(s.requests);
  }

  lemma RecheckKeeps(s: State, k: nat, healthy: bool)
    requires Inv(s) && Enabled(s, Recheck(k, healthy))
    ensures Inv(Next(s, Recheck(k, healthy)))
  {
    if healthy && !s.paused {
      ForwardKeeps(s, k);
    } else {
      GiveSlotKeeps(s, k);
    }
  }

  lemma BeginKeeps(s: State, resume: bool, wrote: bool, closed: bool)
    requires Inv(s) && s.control.Free?
    ensures Inv(Next(s, Begin(resume, wrote, closed)))
  {
    IdleIsDrained(s);
    SameRequestsKeeps(s, Next(s, Begin(resume, wrote, closed)));
  }

  lemma IdleReturnsKeeps(s: State, timedOut: bool, closed: bool)
    requires Inv(s) && Enabled(s, IdleReturns(timedOut, closed))
    ensures Inv(Next(s, IdleReturns(timedOut, closed)))
  {
    SameRequestsKeeps(s, Next(s, IdleReturns(timedOut, closed)));
  }

  lemma QuiesceReturnsKeeps(s: State, acked: bool, wrote: bool, closed: bool)
    requires Inv(s) && s.control.Quiescing?
    ensures Inv(Next(s, QuiesceReturns(acked, wrote, closed)))
  {
    SameRequestsKeeps(s, Next(s, QuiesceReturns(acked, wrote, closed)));
  }

  lemma ResumeReturnsKeeps(s: State, acked: bool, wrote: bool, closed: bool)
    requires Inv(s) && s.control.Resuming?
    ensures Inv(Next(s, ResumeReturns(acked, wrote, closed)))
  {
    SameRequestsKeeps(s, Next(s, ResumeReturns(acked, wrote, closed)));
  }

  lemma PauseKeeps(s: State)
    requires Inv(s)
    ensures Inv(s.(paused := true))
  {
    SameRequestsKeeps(s, s.(paused := true));
  }

  lemma PublishKeeps(s: State, wrote: bool)
    requires Inv(s)
    ensures Inv(Write(s, wrote))
  {
    SameRequestsKeeps(s, Write(s, wrote));
  }

  lemma NextKeeps(s: State, e: Event)
    requires Inv(s)
    ensures Inv(Next(s, e))
  {
    if Enabled(s, e) {
      match e
      case Arrive(k) => ArriveKeeps(s, k);
      case Admit(k) => AdmitKeeps(s, k);
      case GiveUp(k) => GiveUpKeeps(s, k);
      case Recheck(k, healthy) => RecheckKeeps(s, k, healthy);
      case Leave(k) => GiveSlotKeeps(s, k);
      case Begin(resume, wrote, closed) => BeginKeeps(s, resume, wrote, closed);
      case IdleReturns(timedOut, closed) => IdleReturnsKeeps(s, timedOut, closed);
      case QuiesceReturns(acked, wrote, closed) => QuiesceReturnsKeeps(s, acked, wrote, closed);
      case ResumeReturns(acked, wrote, closed) => ResumeReturnsKeeps(s, acked, wrote, closed);
      case BackendPauses => PauseKeeps(s);
      case Publish(wrote) => PublishKeeps(s, wrote);
    }
  }

  /** With the idle event set nobody has a slot, so nothing is being answered. */
  lemma IdleIsDrained(s: State)
    requires CountsOk(s)
    ensures s.idle ==> Drained(s)
  {
    assert InStage(s.requests, Forwarded) <= InSlots(s.requests);
  }

  lemma {:induction false} RunKeeps(s: State, events: seq<Event>)
    requires Inv(s)
    ensures Inv(Run(s, events))
    decreases |events|
  {
    if events != [] {
      NextKeeps(s, events[0]);
      RunKeeps(Next(s, events[0]), events[1..]);
    }
  }

  lemma Reached(s: State, events: seq<Event>)
    requires Init(s)
    ensures Inv(Run(s, events))
  {
    assert InSlots(s.requests) == {} && forall stage :: InStage(s.requests, stage) == {};
    RunKeeps(s, events);
  }

  // ----- what holds in every run -----

  /** Whenever backend.quiesce is called, and until it returns, the gate is closed
      and no generation response is between its forwarding and its end. */
  lemma QuiescesOnlyWhenDrained(s: State, events: seq<Event>)
    requires Init(s) && Run(s, events).control.Quiescing?
    ensures var t := Run(s, events);
            t.paused && forall k :: k in t.requests ==> !t.requests[k].Forwarded?
  {
    Reached(s, events);
    var t := Run(s, events);
    forall k | k in t.requests ensures !t.requests[k].Forwarded? {
      assert k !in InStage(t.requests, Forwarded);
    }
  }

  /** Slots are conserved: those taken and those free make the capacity, and the
      counters count the requests. */
  lemma SlotsAreConserved(s: State, events: seq<Event>)
    requires Init(s)
    ensures var t := Run(s, events);
            && t.active == |InSlots(t.requests)| && t.waiting == |InStage(t.requests, Queued)|
            && (t.idle <==> InSlots(t.requests) == {})
            && (t.capacity.Some? ==> t.permits >= 0 && t.permits + |InSlots(t.requests)| == t.capacity.value)
  {
    Reached(s, events);
  }

  /** The one event that opens the gate: a resume the backend acknowledged and
      the manifest published. */
  predicate Reopens(s: State, e: Event) {
    e.ResumeReturns? && Enabled(s, e) && e.acked && e.wrote
  }

  /** No step but that opens the gate, and behind a closed gate nothing is
      forwarded. */
  lemma ClosedUntilReopened(s: State, e: Event)
    requires s.paused && !Reopens(s, e)
    ensures Next(s, e).paused
    ensures InStage(Next(s, e).requests, Forwarded) <= InStage(s.requests, Forwarded)
  {
  }

  predicate NeverReopens(s: State, events: seq<Event>)
    decreases |events|
  {
    events == [] || (!Reopens(s, events[0]) && NeverReopens(Next(s, events[0]), events[1..]))
  }

  /** From the call of backend.quiesce on, until the gate reopens, no response is
      forwarded at all, however many requests take slots meanwhile. */
  lemma {:induction false} DrainedUntilReopened(s: State, events: seq<Event>)
    requires s.paused && Drained(s) && NeverReopens(s, events)
    ensures Run(s, events).paused && Drained(Run(s, events))
    decreases |events|
  {
    if events != [] {
      ClosedUntilReopened(s, events[0]);
      DrainedUntilReopened(Next(s, events[0]), events[1..]);
    }
  }

  /** The last operation that succeeded was a pause: one that did stands in the
      answers, and no resume has succeeded since. */
  ghost predicate PauseStands(results: seq<Result>) {
    exists i: nat :: i < |results| && results[i] == Result(false, true) && NoResumeAfter(results, i)
  }

  ghost predicate NoResumeAfter(results: seq<Result>, i: nat) {
    forall j :: i < j < |results| ==> results[j] != Result(true, true)
  }

  /** While a pause stands the gate is closed, and nothing is being answered. */
  ghost predicate StandsClosed(s: State) {
    PauseStands(s.results) ==> s.paused && Drained(s)
  }

  /** One more answer, unless it is a pause's success, makes no pause stand. */
  lemma AnswerAdded(results: seq<Result>, r: Result)
    requires PauseStands(results + [r]) && r != Result(false, true)
    ensures PauseStands(results) && r != Result(true, true)
  {
    var i: nat :| i < |results + [r]| && (results + [r])[i] == Result(false, true) && NoResumeAfter(results + [r], i);
    assert (results + [r])[|results|] == r;
    assert results[i] == Result(false, true);
    forall j | i < j < |results| ensures results[j] != Result(true, true) {
      assert (results + [r])[j] == results[j];
    }
    assert NoResumeAfter(results, i);
  }

  /** An event answers at most one operation, which is the one that holds the
      control lock. */
  lemma AnswersOne(s: State, e: Event)
    ensures var t := Next(s, e);
            || t.results == s.results
            || (exists r :: t.results == s.results + [r] && Answers(s, e, r))
  {
    if Enabled(s, e) {
      match e
      case Begin(resume, wrote, closed) => assert !wrote ==> Answers(s, e, Result(resume, false));
      case IdleReturns(timedOut, closed) => assert timedOut ==> Answers(s, e, Result(false, false));
      case QuiesceReturns(acked, wrote, closed) => assert Answers(s, e, Result(false, acked && s.paused && wrote));
      case ResumeReturns(acked, wrote, closed) => assert Answers(s, e, Result(true, acked && wrote));
      case _ =>
    }
  }

  predicate Answers(s: State, e: Event, r: Result) {
    && Enabled(s, e)
    && (r == Result(false, true) ==> e.QuiesceReturns?)
    && (r == Result(true, true) <==> Reopens(s, e))
  }

  lemma NextStandsClosed(s: State, e: Event)
    requires Inv(s) && StandsClosed(s)
    ensures StandsClosed(Next(s, e))
  {
    var t := Next(s, e);
    if PauseStands(t.results) {
      AnswersOne(s, e);
      if t.results == s.results {
        StaysDrained(s, e);
      } else {
        var r :| t.results == s.results + [r] && Answers(s, e, r);
        if r == Result(false, true) {
          StaysDrained(s, e);
        } else {
          AnswerAdded(s.results, r);
          StaysDrained(s, e);
        }
      }
    }
  }

  /** Behind a closed gate the drain lasts, but for a resume that succeeds. */
  lemma StaysDrained(s: State, e: Event)
    requires s.paused && Drained(s) && !Reopens(s, e)
    ensures Next(s, e).paused && Drained(Next(s, e))
  {
    ClosedUntilReopened(s, e);
  }

  lemma {:induction false} RunStandsClosed(s: State, events: seq<Event>)
    requires Inv(s) && StandsClosed(s)
    ensures StandsClosed(Run(s, events))
    decreases |events|
  {
    if events != [] {
      NextKeeps(s, events[0]);
      NextStandsClosed(s, events[0]);
      RunStandsClosed(Next(s, events[0]), events[1..]);
    }
  }

  /** Once a pause has been answered with success, and until a resume is, the gate
      is closed and nothing is answered, whatever the backend: however many
      requests arrive, operations fail, or pauses and resumes are tried. */
  lemma AnsweredPauseStands(s: State, events: seq<Event>, i: nat)
    requires Init(s)
    requires var results := Run(s, events).results;
             i < |results| && results[i] == Result(false, true)
             && forall j :: i < j < |results| ==> results[j] != Result(true, true)
    ensures var t := Run(s, events);
            t.paused && forall k :: k in t.requests ==> !t.requests[k].Forwarded?
  {
    Reached(s, []);
    RunStandsClosed(s, events);
    var t := Run(s, events);
    assert NoResumeAfter(t.results, i) && PauseStands(t.results);
    forall k | k in t.requests ensures !t.requests[k].Forwarded? {
      assert k !in InStage(t.requests, Forwarded);
    }
  }

  // ----- what every operation and every request comes to -----

  /** In every run, the operation that is begun goes on exactly when its manifest was
      written: a resume to the backend, a pause to wait until nobody has a slot. */
  lemma BeginsExactly(s: State, events: seq<Event>, resume: bool, wrote: bool, closed: bool)
    requires Init(s) && Run(s, events).control == Free
    ensures var t, u := Run(s, events), Next(Run(s, events), Begin(resume, wrote, closed));
            && u.paused && u.requests == t.requests
            && (wrote ==> u.results == t.results && u.published == Some(true)
                          && u.control == if resume then Resuming else IdleWait(InSlots(t.requests) == {}))
            && (!wrote ==> u.results == t.results + [Result(resume, false)] && u.control == Free
                           && u.published == if closed then Some(true) else None)
  {
    Reached(s, events);
    var t := Run(s, events);
    assert t.idle <==> InSlots(t.requests) == {};
  }

  /** In every run, a pause goes on from its wait to the backend unless it times out, and
      it can once nobody has a slot; it is answered with success if and only if the backend returned and the manifest
      was written. */
  lemma PausesExactly(s: State, events: seq<Event>, timedOut: bool, acked: bool, wrote: bool, closed: bool)
    requires Init(s)
    ensures var t := Run(s, events);
            && (Enabled(t, IdleReturns(timedOut, closed)) ==>
                  var u := Next(t, IdleReturns(timedOut, closed));
                  if timedOut then Failed(t, u, false, closed) else u == t.(control := Quiescing))
            && (t.control.IdleWait? ==>
                  && Failed(t, Next(t, IdleReturns(true, closed)), false, closed)
                  && (InSlots(t.requests) == {} ==> Next(t, IdleReturns(false, closed)) == t.(control := Quiescing)))
            && (t.control.Quiescing? ==>
                  var u := Next(t, QuiesceReturns(acked, wrote, closed));
                  if acked && wrote then
                    u == t.(control := Free, published := Some(true), results := t.results + [Result(false, true)])
                  else Failed(t, u, false, closed))
  {
    Reached(s, events);
  }

  /** In every run, a resume is answered with success, and opens the gate, if and only
      if the backend acknowledged it and the manifest was written. */
  lemma ResumesExactly(s: State, events: seq<Event>, acked: bool, wrote: bool, closed: bool)
    requires Init(s) && Run(s, events).control.Resuming?
    ensures var t, u := Run(s, events), Next(Run(s, events), ResumeReturns(acked, wrote, closed));
            if acked && wrote then
              u == t.(control := Free, paused := false, published := Some(false),
                      results := t.results + [Result(true, true)])
            else Failed(t, u, true, closed)
  {
    Reached(s, events);
  }

  /** The operation has been answered with a failure, behind a closed gate. */
  predicate Failed(s: State, t: State, resume: bool, closed: bool) {
    t == s.(control := Free, paused := true, published := if closed then Some(true) else None,
            results := s.results + [Result(resume, false)])
  }

  /** In every run, a request that arrives waits for a slot, or has one where slots are
      not counted; one that waits gets one when one is free; one with a slot is forwarded
      if and only if the role is healthy and the gate open, and else gives it back. */
  lemma RequestsExactly(s: State, events: seq<Event>, key: nat, healthy: bool)
    requires Init(s)
    ensures var t := Run(s, events);
            var stage := Lookup(t.requests, key);
            && (stage == None ==>
                  Next(t, Arrive(key)).requests == t.requests[key := if t.capacity.Some? then Queued else Admitted])
            && (stage == Some(Queued) ==>
                  && t.capacity.Some?
                  && Next(t, Admit(key)).requests ==
                       if |InSlots(t.requests)| < t.capacity.value then t.requests[key := Admitted] else t.requests)
            && (stage == Some(Queued) ==> Next(t, GiveUp(key)).requests == t.requests - {key})
            && (stage == Some(Admitted) ==>
                  Next(t, Recheck(key, healthy)).requests ==
                    if healthy && !t.paused then t.requests[key := Forwarded] else t.requests - {key})
            && (stage == Some(Admitted) || stage == Some(Forwarded) ==>
                  Next(t, Leave(key)).requests == t.requests - {key})
  {
    Reached(s, events);
    var t := Run(s, events);
    SameCapacity(s, events);
    if key in t.requests && t.requests[key].Queued? {
      assert key in InStage(t.requests, Queued);
    }
  }

  /** The manifest says how the gate stands whenever it was written; a backend that
      pauses closes the gate. */
  lemma PublishesTheGate(s: State, wrote: bool)
    ensures Next(s, Publish(wrote)) == s.(published := if wrote then Some(s.paused) else None)
    ensures Next(s, BackendPauses) == s.(paused := true)
  {
  }

  lemma {:induction false} SameCapacity(s: State, events: seq<Event>)
    ensures Run(s, events).capacity == s.capacity
    decreases |events|
  {
    if events != [] {
      SameCapacity(Next(s, events[0]), events[1..]);
    }
  }

  // ----- the object -----

  /** The appliance's admission, its gate and its manifest, as fields that each
      stretch of a coroutine reassigns. */
  class Appliance {
    const capacity: Option<nat>
    var permits: int
    var waiting: int
    var active: int
    var idle: bool
    var paused: bool
    var published: Option<bool>
    var requests: map<nat, Stage>
    var control: Control
    ghost var results: seq<Result>

    ghost function Now(): State
      reads this
    {
      State(capacity, permits, waiting, active, idle, paused, published, requests, control, results)
    }

    ghost predicate Valid()
      reads this
    {
      Inv(Now())
    }

    constructor (capacity: Option<nat>)
      ensures Init(Now()) && Valid() && !paused && this.capacity == capacity
    {
      this.capacity := capacity;
      permits := if capacity.Some? then capacity.value else 0;
      waiting, active, idle := 0, 0, true;
      paused, published, requests, control, results := false, None, map[], Free, [];
      new;
      Reached(Now(), []);
    }

    method WriteManifest(wrote: bool)
      modifies `published
      ensures Now() == Write(old(Now()), wrote)
    {
      published := if wrote then Some(paused) else None;
    }

    /** `slot`, up to its await for the semaphore. */
    method RequestArrived(key: nat)
      requires Valid() && key !in requests
      modifies this
      ensures Now() == Next(old(Now()), Arrive(key)) && Valid()
    {
      if capacity.Some? {
        waiting, requests := waiting + 1, requests[key := Queued];
      } else {
        active, idle, requests := active + 1, false, requests[key := Admitted];
      }
      NextKeeps(old(Now()), Arrive(key));
    }

    method SlotAcquired(key: nat)
      requires Valid() && Enabled(Now(), Admit(key))
      modifies this
      ensures Now() == Next(old(Now()), Admit(key)) && Valid()
    {
      permits := permits - 1;
      waiting := waiting - 1;
      active, idle, requests := active + 1, false, requests[key := Admitted];
      NextKeeps(old(Now()), Admit(key));
    }

    method QueueLeft(key: nat)
      requires Valid() && Enabled(Now(), GiveUp(key))
      modifies this
      ensures Now() == Next(old(Now()), GiveUp(key)) && Valid()
    {
      waiting, requests := waiting - 1, requests - {key};
      NextKeeps(old(Now()), GiveUp(key));
    }

    /** The idle event is set exactly when nobody has a slot any more, and then it
        wakes the operation that waits for it. */
    method ReleaseSlot(key: nat)
      requires Valid() && key in requests && !requests[key].Queued?
      modifies `active, `idle, `permits, `requests, `control
      ensures Now() == GiveSlot(old(Now()), key) && Valid()
      ensures idle <==> InSlots(requests) == {}
      ensures idle && old(control).IdleWait? ==> control == IdleWait(true)
    {
      GiveSlotKeeps(Now(), key);
      active := active - 1;
      requests := requests - {key};
      if active == 0 {
        idle := true;
        if control.IdleWait? {
          control := IdleWait(true);
        }
      }
      if capacity.Some? {
        permits := permits + 1;
      }
    }

    /** A request with its slot is checked again, and forwarded or turned away. */
    method Rechecked(key: nat, healthy: bool) returns (forwarded: bool)
      requires Valid() && Enabled(Now(), Recheck(key, healthy))
      modifies this
      ensures Now() == Next(old(Now()), Recheck(key, healthy)) && Valid()
      ensures forwarded <==> healthy && !old(paused)
      ensures forwarded ==> !old(control).Quiescing?
      ensures forwarded <==> key in requests
    {
      forwarded := healthy && !paused;
      if forwarded {
        requests := requests[key := Forwarded];
      } else {
        ReleaseSlot(key);
      }
      NextKeeps(old(Now()), Recheck(key, healthy));
    }

    method ResponseEnded(key: nat)
      requires Valid() && Enabled(Now(), Leave(key))
      modifies this
      ensures Now() == Next(old(Now()), Leave(key)) && Valid()
    {
      ReleaseSlot(key);
      NextKeeps(old(Now()), Leave(key));
    }

    /** The except branch of a managed operation. */
    method FailClosed(resume: bool, wrote: bool)
      modifies `paused, `published, `control, `results
      ensures Now() == Close(old(Now()), resume, wrote) && paused
    {
      paused := true;
      WriteManifest(wrote);
      control, results := Free, results + [Result(resume, false)];
    }

    method OperationBegun(resume: bool, wrote: bool, closed: bool)
      requires Valid() && control == Free
      modifies this
      ensures Now() == Next(old(Now()), Begin(resume, wrote, closed)) && Valid()
    {
      paused := true;
      WriteManifest(wrote);
      if !wrote {
        FailClosed(resume, closed);
      } else if resume {
        control := Resuming;
      } else {
        control := IdleWait(idle);
      }
      NextKeeps(old(Now()), Begin(resume, wrote, closed));
    }

    method IdleWaitEnded(timedOut: bool, closed: bool)
      requires Valid() && Enabled(Now(), IdleReturns(timedOut, closed))
      modifies this
      ensures Now() == Next(old(Now()), IdleReturns(timedOut, closed)) && Valid()
    {
      if timedOut {
        FailClosed(false, closed);
      } else {
        control := Quiescing;
      }
      NextKeeps(old(Now()), IdleReturns(timedOut, closed));
    }

    method QuiesceEnded(acked: bool, wrote: bool, closed: bool) returns (success: bool)
      requires Valid() && control == Quiescing
      modifies this
      ensures Now() == Next(old(Now()), QuiesceReturns(acked, wrote, closed)) && Valid()
      ensures success <==> acked && wrote
      ensures paused && results == old(results) + [Result(false, success)]
      ensures success ==> published == Some(true)
    {
      success := acked && paused;
      if success {
        WriteManifest(wrote);
        success := wrote;
      }
      if success {
        control, results := Free, results + [Result(false, true)];
      } else {
        FailClosed(false, closed);
      }
      NextKeeps(old(Now()), QuiesceReturns(acked, wrote, closed));
    }

    method ResumeEnded(acked: bool, wrote: bool, closed: bool) returns (success: bool)
      requires Valid() && control == Resuming
      modifies this
      ensures Now() == Next(old(Now()), ResumeReturns(acked, wrote, closed)) && Valid()
      ensures success <==> acked && wrote
      ensures success <==> !paused
      ensures results == old(results) + [Result(true, success)]
      ensures success ==> published == Some(false)
    {
      success := false;
      if acked {
        paused := false;
        WriteManifest(wrote);
        success := wrote;
      }
      if success {
        control, results := Free, results + [Result(true, true)];
      } else {
        FailClosed(true, closed);
      }
      NextKeeps(old(Now()), ResumeReturns(acked, wrote, closed));
    }
  }
}
