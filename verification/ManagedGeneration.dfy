/** The gate and the engine behind it: `managed_generation` of
    lazarus/appliance/api.py over the SlimServe backend. */
module ManagedGeneration {
  import opened Prelude
  import G = GenerationGate
  import S = SlimServe

  /** `generation_paused` is one field, which both modules write: the appliance when
      it begins, fails or succeeds, the backend when it quiesces, resumes, cleans up
      or finds its engine dead.  What the backend answers is what `SlimServe.Do`
      returns.  A child is known by its group; `quiet` are the children that have
      acknowledged a pause and no resume since, as they themselves would say. */
  datatype State = State(gate: G.State, engine: S.State, quiet: set<nat>)

  /** `turn`: the operation got the backend's lock; if not, it was cancelled while it
      waited. */
  datatype Event =
    | Appliance(gate: G.Event)
    | Backend(engine: S.Event)
    | QuiesceReturns(turn: bool, exited: bool, acked: bool, wrote: bool, closed: bool)
    | ResumeReturns(turn: bool, exited: bool, acked: bool, wrote: bool, closed: bool)

  /** The appliance's own events, and the backend's but those it is asked for. */
  predicate Enabled(s: State, e: Event) {
    match e
    case Appliance(g) => !g.QuiesceReturns? && !g.ResumeReturns? && !g.BackendPauses?
    case Backend(b) => !b.Quiesce? && !b.Resume?
    case QuiesceReturns(_, _, _, _, _) => s.gate.control.Quiescing?
    case ResumeReturns(_, _, _, _, _) => s.gate.control.Resuming?
  }

  /** backend.quiesce, and whether it returned. */
  function Quiesced(s: State, e: Event): (S.State, bool)
    requires e.QuiesceReturns?
  {
    if e.turn then S.Do(s.engine, S.Quiesce(e.exited, e.acked)) else (s.engine, false)
  }

  /** backend.resume, and whether it returned. */
  function Resumed(s: State, e: Event): (S.State, bool)
    requires e.ResumeReturns?
  {
    if e.turn then S.Do(s.engine, S.Resume(e.exited, e.acked)) else (s.engine, false)
  }

  /** A request reaches the child and the child acknowledges it. */
  predicate ChildAcknowledges(s: State, turn: bool, exited: bool, acked: bool) {
    turn && !s.engine.cleanup && s.engine.check.None? && S.Reachable(s.engine, exited) && acked
  }

  /** The gate's fields with the pause as the backend left it. */
  function Facing(gate: G.State, engine: S.State): G.State {
    gate.(paused := engine.paused)
  }

  /** The appliance has the last word on the pause. */
  function Joined(gate: G.State, engine: S.State, quiet: set<nat>): State {
    State(gate, engine.(paused := gate.paused), quiet)
  }

  function Next(s: State, e: Event): State {
    if !Enabled(s, e) then s else
    match e
    case Appliance(g) => Joined(G.Next(s.gate, g), s.engine, s.quiet)
    case Backend(b) =>
      var engine := S.Next(s.engine, b);
      State(Facing(s.gate, engine), engine, s.quiet)
    case QuiesceReturns(turn, exited, acked, wrote, closed) =>
      var (engine, ok) := Quiesced(s, e);
      Joined(G.Next(Facing(s.gate, engine), G.QuiesceReturns(ok, wrote, closed)), engine,
             if ChildAcknowledges(s, turn, exited, acked) then s.quiet + {s.engine.process.value} else s.quiet)
    case ResumeReturns(turn, exited, acked, wrote, closed) =>
      var (engine, ok) := Resumed(s, e);
      Joined(G.Next(Facing(s.gate, engine), G.ResumeReturns(ok && !engine.paused, wrote, closed)), engine,
             if ChildAcknowledges(s, turn, exited, acked) then s.quiet - {s.engine.process.value} else s.quiet)
  }

  function Run(s: State, events: seq<Event>): State
    decreases |events|
  {
    if events == [] then s else Run(Next(s, events[0]), events[1..])
  }

  ghost predicate Init(s: State) {
    G.Init(s.gate) && s.engine == S.FRESH && !s.gate.paused && s.quiet == {}
  }

  /** validate is called while no generation process is held. */
  predicate Careful(s: State, e: Event) {
    e.Backend? ==> S.Careful(s.engine, e.engine)
  }

  predicate CarefulRun(s: State, events: seq<Event>)
    decreases |events|
  {
    events == [] || (Careful(s, events[0]) && CarefulRun(Next(s, events[0]), events[1..]))
  }

  // ----- both systems take their own steps -----

  ghost predicate Shared(s: State) {
    s.gate.paused == s.engine.paused
  }

  /** What the gate sees of an event; none when nothing of it changes. */
  function GateEvent(s: State, e: Event): Option<G.Event> {
    if !Enabled(s, e) then None else
    match e
    case Appliance(g) => Some(g)
    case Backend(b) => if S.Next(s.engine, b).paused then Some(G.BackendPauses) else None
    case QuiesceReturns(_, _, _, wrote, closed) => Some(G.QuiesceReturns(Quiesced(s, e).1, wrote, closed))
    case ResumeReturns(_, _, _, wrote, closed) => Some(G.ResumeReturns(Resumed(s, e).1, wrote, closed))
  }

  /** What the engine's owner sees of it, the pause apart. */
  function EngineEvent(s: State, e: Event): Option<S.Event> {
    if !Enabled(s, e) then None else
    match e
    case Appliance(_) => None
    case Backend(b) => Some(b)
    case QuiesceReturns(turn, exited, acked, _, _) => if turn then Some(S.Quiesce(exited, acked)) else None
    case ResumeReturns(turn, exited, acked, _, _) => if turn then Some(S.Resume(exited, acked)) else None
  }

  /** A resume of the backend that returned left the pause cleared, and only that
      clears it. */
  lemma BackendClearsByResume(s: State, e: Event)
    requires Enabled(s, e)
    ensures e.Backend? && s.engine.paused ==> S.Next(s.engine, e.engine).paused
    ensures e.QuiesceReturns? ==> Quiesced(s, e).0 == s.engine
    ensures e.ResumeReturns? ==> Resumed(s, e).0 == if Resumed(s, e).1 then s.engine.(paused := false) else s.engine
  {
    if e.Backend? && s.engine.paused && !S.Next(s.engine, e.engine).paused {
      S.PauseClearsOnlyByResume(s.engine, e.engine);
    }
  }

  /** In every step the gate takes its own step, or none. */
  lemma GateSteps(s: State, e: Event)
    requires Shared(s)
    ensures Shared(Next(s, e))
    ensures Next(s, e).gate == if GateEvent(s, e).Some? then G.Next(s.gate, GateEvent(s, e).value) else s.gate
  {
    if Enabled(s, e) {
      BackendClearsByResume(s, e);
    }
  }

  /** And the engine's owner its own, or none, but for the pause. */
  lemma EngineSteps(s: State, e: Event)
    ensures var t, b := Next(s, e), EngineEvent(s, e);
            t.engine.(paused := s.engine.paused)
            == (if b.Some? then S.Next(s.engine, b.value) else s.engine).(paused := s.engine.paused)
    ensures Careful(s, e) && EngineEvent(s, e).Some? ==> S.Careful(s.engine, EngineEvent(s, e).value)
  {
  }

  // ----- what every step keeps -----

  ghost predicate Inv(s: State) {
    Shared(s) && G.Inv(s.gate) && G.StandsClosed(s.gate) && S.Inv(s.engine)
  }

  lemma PauseIsAside(s: S.State, paused: bool)
    requires S.Inv(s)
    ensures S.Inv(s.(paused := paused))
  {
  }

  lemma EngineKeeps(s: State, e: Event)
    requires S.Inv(s.engine) && Careful(s, e)
    ensures S.Inv(Next(s, e).engine)
  {
    var b := EngineEvent(s, e);
    var engine := if b.Some? then S.Next(s.engine, b.value) else s.engine;
    EngineSteps(s, e);
    if b.Some? {
      S.NextKeeps(s.engine, b.value);
    }
    PauseIsAside(engine, s.engine.paused);
    PauseIsAside(Next(s, e).engine.(paused := s.engine.paused), Next(s, e).engine.paused);
  }

  lemma NextKeeps(s: State, e: Event)
    requires Inv(s) && Careful(s, e)
    ensures Inv(Next(s, e))
  {
    GateSteps(s, e);
    EngineKeeps(s, e);
    if GateEvent(s, e).Some? {
      G.NextKeeps(s.gate, GateEvent(s, e).value);
      G.NextStandsClosed(s.gate, GateEvent(s, e).value);
    }
  }

  lemma {:induction false} RunKeeps(s: State, events: seq<Event>)
    requires Inv(s) && CarefulRun(s, events)
    ensures Inv(Run(s, events))
    decreases |events|
  {
    if events != [] {
      NextKeeps(s, events[0]);
      RunKeeps(Next(s, events[0]), events[1..]);
    }
  }

  lemma Reached(s: State, events: seq<Event>)
    requires Init(s) && CarefulRun(s, events)
    ensures Inv(Run(s, events))
  {
    G.Reached(s.gate, []);
    RunKeeps(s, events);
  }

  // ----- what an answer says -----

  /** Every live group has acknowledged the pause. */
  ghost predicate AllQuiet(s: State) {
    forall g: nat :: S.Alive(s.engine, g) ==> g in s.quiet
  }

  /** The one live group, if any, is the child that is held, and it runs. */
  ghost predicate OneResumed(s: State) {
    && s.engine.process.Some? && s.engine.client && !s.engine.cleanup && s.engine.process.value !in s.quiet
    && forall g: nat :: S.Alive(s.engine, g) ==> s.engine.process == Some(g)
  }

  ghost predicate NothingAnswered(s: State) {
    forall k :: k in s.gate.requests ==> !s.gate.requests[k].Forwarded?
  }

  /** What an operation's answer says of the gate, of the manifest and of the
      children. */
  ghost predicate AnswerOk(t: State, r: G.Result) {
    if !r.success then t.gate.paused && t.gate.published != Some(false)
    else if r.resume then !t.gate.paused && t.gate.published == Some(false) && OneResumed(t)
    else t.gate.paused && t.gate.published == Some(true) && NothingAnswered(t) && AllQuiet(t)
  }

  lemma OnlyTheHeldLives(s: S.State)
    requires S.Inv(s) && s.process.Some?
    ensures forall g: nat :: S.Alive(s, g) ==> s.process == Some(g)
  {
  }

  lemma WithdrawnIsDead(s: S.State, g: nat)
    requires S.Inv(s) && s.withdrawn == Some(true)
    ensures !S.Alive(s, g)
  {
  }

  /** A backend that returned from its quiesce had no live group, or its only one
      has acknowledged. */
  lemma QuiesceIsQuiet(s: State, e: Event)
    requires Inv(s) && Enabled(s, e) && e.QuiesceReturns? && Quiesced(s, e).1
    ensures AllQuiet(Next(s, e))
  {
    var t := Next(s, e);
    BackendClearsByResume(s, e);
    assert t.engine == s.engine.(paused := t.engine.paused);
    forall g: nat | S.Alive(t.engine, g) ensures g in t.quiet {
      assert S.Alive(s.engine, g);
      if s.engine.process.Some? {
        OnlyTheHeldLives(s.engine);
      } else {
        WithdrawnIsDead(s.engine, g);
      }
    }
  }

  lemma ResumeIsRunning(s: State, e: Event)
    requires Inv(s) && Enabled(s, e) && e.ResumeReturns? && Resumed(s, e).1
    ensures OneResumed(Next(s, e))
  {
    var t := Next(s, e);
    BackendClearsByResume(s, e);
    OnlyTheHeldLives(s.engine);
    forall g: nat | S.Alive(t.engine, g) ensures s.engine.process == Some(g) {
      assert S.Alive(s.engine, g);
    }
  }

  lemma DrainedAnswersNothing(s: G.State)
    requires G.Drained(s)
    ensures forall k :: k in s.requests ==> !s.requests[k].Forwarded?
  {
    forall k | k in s.requests ensures !s.requests[k].Forwarded? {
      assert k !in G.InStage(s.requests, G.Forwarded);
    }
  }

  /** A failure is told only of a closed gate that the manifest does not call open. */
  lemma FailureClosed(s: G.State, e: G.Event, r: G.Result)
    requires G.Next(s, e).results == s.results + [r] && !r.success
    ensures G.Next(s, e).paused && G.Next(s, e).published != Some(false)
  {
    assert (s.results + [r])[|s.results|] == r;
  }

  lemma SuccessPublished(s: G.State, e: G.Event, r: G.Result)
    requires G.Inv(s) && G.Next(s, e).results == s.results + [r] && r.success
    ensures var t := G.Next(s, e);
            if r.resume then
              e.ResumeReturns? && e.acked && !t.paused && t.published == Some(false)
            else
              && e.QuiesceReturns? && e.acked && t.paused && t.published == Some(true)
              && t.requests == s.requests && G.Drained(s)
  {
    assert (s.results + [r])[|s.results|] == r;
  }

  lemma AnswerIsSound(s: State, e: Event, r: G.Result)
    requires Inv(s) && Next(s, e).gate.results == s.gate.results + [r]
    ensures AnswerOk(Next(s, e), r)
  {
    GateSteps(s, e);
    assert |s.gate.results + [r]| != |s.gate.results|;
    var g := GateEvent(s, e).value;
    if !r.success {
      FailureClosed(s.gate, g, r);
    } else {
      SuccessPublished(s.gate, g, r);
      if r.resume {
        assert e.ResumeReturns?;
        ResumeIsRunning(s, e);
      } else {
        assert e.QuiesceReturns?;
        QuiesceIsQuiet(s, e);
        DrainedAnswersNothing(s.gate);
      }
    }
  }

  /** In every run, over every outcome of the backend's spawns, stops and cleanups,
      with an engine that dies at any time: a pause is answered with success only
      when the gate is closed, published closed and drained, and every live process
      group has acknowledged it; a resume only when the gate is open, published open
      and the one live group is the child that acknowledged it; anything else is
      answered with a failure behind a closed gate. */
  lemma AnswersAreSound(s: State, events: seq<Event>, e: Event)
    requires Init(s) && CarefulRun(s, events)
    ensures var t, u := Run(s, events), Next(Run(s, events), e);
            u.gate.results == t.gate.results
            || (exists r :: u.gate.results == t.gate.results + [r] && AnswerOk(u, r))
  {
    Reached(s, events);
    var t := Run(s, events);
    var u := Next(t, e);
    GateSteps(t, e);
    if GateEvent(t, e).Some? && u.gate.results != t.gate.results {
      G.AnswersOne(t.gate, GateEvent(t, e).value);
      var r :| u.gate.results == t.gate.results + [r] && G.Answers(t.gate, GateEvent(t, e).value, r);
      AnswerIsSound(t, e, r);
    }
  }

  // ----- what a success is worth afterwards -----

  /** From a pause's answer on, and until a resume is answered with success, the gate
      is closed and nothing is answered, whatever requests, operations, starts,
      shutdowns and failures follow. */
  lemma AnsweredPauseStands(s: State, events: seq<Event>, i: nat)
    requires Init(s) && CarefulRun(s, events)
    requires var results := Run(s, events).gate.results;
             && i < |results| && results[i] == G.Result(false, true)
             && forall j :: i < j < |results| ==> results[j] != G.Result(true, true)
    ensures Run(s, events).gate.paused && Run(s, events).engine.paused && NothingAnswered(Run(s, events))
  {
    Reached(s, events);
    var t := Run(s, events);
    assert G.NoResumeAfter(t.gate.results, i) && G.PauseStands(t.gate.results);
    DrainedAnswersNothing(t.gate);
  }

  /** The child g acknowledges a resume that the appliance asked for. */
  predicate Resumes(s: State, e: Event, g: nat) {
    e.ResumeReturns? && s.gate.control.Resuming? && e.acked && s.engine.process == Some(g)
  }

  /** A child that has acknowledged a pause stays quiet unless it acknowledges a
      resume meanwhile. */
  lemma {:induction false} QuietLasts(s: State, events: seq<Event>, g: nat)
    requires g in s.quiet && g !in Run(s, events).quiet
    ensures exists i: nat :: i < |events| && Resumes(Run(s, events[..i]), events[i], g)
    decreases |events|
  {
    if events != [] {
      var t := Next(s, events[0]);
      if g in t.quiet {
        QuietLasts(t, events[1..], g);
        var i: nat :| i < |events| - 1 && Resumes(Run(t, events[1..][..i]), events[1..][i], g);
        assert events[..i + 1][0] == events[0] && events[..i + 1][1..] == events[1..][..i];
        assert Resumes(Run(s, events[..i + 1]), events[i + 1], g);
      } else {
        assert Run(s, events[..0]) == s && Resumes(s, events[0], g);
      }
    }
  }

  /** Wherever a response is being answered the last success was a resume's, or no
      operation has succeeded yet. */
  lemma AnswersOnlyWhenResumed(s: State, events: seq<Event>, k: nat)
    requires Init(s) && CarefulRun(s, events)
    requires var t := Run(s, events); k in t.gate.requests && t.gate.requests[k].Forwarded?
    ensures var results := Run(s, events).gate.results;
            forall i :: 0 <= i < |results| && results[i] == G.Result(false, true) ==>
              exists j :: i < j < |results| && results[j] == G.Result(true, true)
  {
    var results := Run(s, events).gate.results;
    forall i | 0 <= i < |results| && results[i] == G.Result(false, true)
      ensures exists j :: i < j < |results| && results[j] == G.Result(true, true)
    {
      if forall j :: i < j < |results| ==> results[j] != G.Result(true, true) {
        AnsweredPauseStands(s, events, i);
      }
    }
  }

  // ----- when an operation succeeds -----

  /** The backend answers a quiesce: nothing of it lives or may live, or its child
      acknowledges. */
  predicate BackendQuiets(b: S.State, exited: bool, acked: bool) {
    && !b.cleanup && b.check.None?
    && ((b.withdrawn == Some(true) && b.process.None? && !b.client)
        || (b.client && b.process.Some? && !exited && acked))
  }

  /** The backend answers a resume: its child acknowledges. */
  predicate BackendResumes(b: S.State, exited: bool, acked: bool) {
    !b.cleanup && b.check.None? && b.client && b.process.Some? && !exited && acked
  }

  /** A step of a managed operation's own fails: a manifest is not written, the wait for
      idle times out, or the backend's turn or its child's acknowledgement does not
      come. */
  predicate StepFails(s: State, e: Event) {
    match e
    case Appliance(Begin(_, wrote, _)) => s.gate.control == G.Free && !wrote
    case Appliance(IdleReturns(timedOut, _)) => s.gate.control.IdleWait? && timedOut
    case QuiesceReturns(turn, exited, acked, wrote, _) =>
      s.gate.control.Quiescing? && !(turn && BackendQuiets(s.engine, exited, acked) && wrote)
    case ResumeReturns(turn, exited, acked, wrote, _) =>
      s.gate.control.Resuming? && !(turn && BackendResumes(s.engine, exited, acked) && wrote)
    case _ => false
  }

  ghost predicate AllSucceeded(results: seq<G.Result>) {
    forall i :: 0 <= i < |results| ==> results[i].success
  }

  ghost predicate NoStepFails(s: State, events: seq<Event>)
    decreases |events|
  {
    events == [] || (!StepFails(s, events[0]) && NoStepFails(Next(s, events[0]), events[1..]))
  }

  /** A step that fails is answered with a failure, and no other. */
  lemma FailsExactly(s: State, e: Event)
    requires Inv(s)
    ensures var t := Next(s, e);
            || (t.gate.results == s.gate.results && !StepFails(s, e))
            || (exists r :: t.gate.results == s.gate.results + [r] && (r.success <==> !StepFails(s, e)))
  {
    GateSteps(s, e);
    match e
    case Appliance(Begin(resume, wrote, _)) =>
      assert s.gate.control == G.Free && !wrote ==>
               Next(s, e).gate.results == s.gate.results + [G.Result(resume, false)];
    case Appliance(IdleReturns(timedOut, _)) =>
      assert StepFails(s, e) ==> Next(s, e).gate.results == s.gate.results + [G.Result(false, false)];
    case QuiesceReturns(_, _, _, _, _) =>
      assert s.gate.control.Quiescing? ==>
               Next(s, e).gate.results == s.gate.results + [G.Result(false, !StepFails(s, e))];
    case ResumeReturns(_, _, _, _, _) =>
      assert s.gate.control.Resuming? ==>
               Next(s, e).gate.results == s.gate.results + [G.Result(true, !StepFails(s, e))];
    case _ =>
  }

  lemma AllAndOne(results: seq<G.Result>, r: G.Result)
    ensures AllSucceeded(results + [r]) <==> AllSucceeded(results) && r.success
  {
    assert (results + [r])[|results|] == r;
    forall i | 0 <= i < |results| ensures (results + [r])[i] == results[i] {}
  }

  lemma {:induction false} RunSucceeds(s: State, events: seq<Event>)
    requires Inv(s) && CarefulRun(s, events)
    ensures |s.gate.results| <= |Run(s, events).gate.results|
    ensures Run(s, events).gate.results[..|s.gate.results|] == s.gate.results
    ensures AllSucceeded(Run(s, events).gate.results) <==> AllSucceeded(s.gate.results) && NoStepFails(s, events)
    decreases |events|
  {
    if events != [] {
      var t, u := Next(s, events[0]), Run(s, events);
      NextKeeps(s, events[0]);
      FailsExactly(s, events[0]);
      if t.gate.results != s.gate.results {
        var r :| t.gate.results == s.gate.results + [r] && (r.success <==> !StepFails(s, events[0]));
        AllAndOne(s.gate.results, r);
      }
      RunSucceeds(t, events[1..]);
      assert t.gate.results[..|s.gate.results|] == s.gate.results;
      assert u.gate.results[..|s.gate.results|] == u.gate.results[..|t.gate.results|][..|s.gate.results|];
    }
  }

  /** In every run, every operation that was answered was answered with success if and
      only if no step of any of them failed. */
  lemma AllSucceedExactlyWhen(s: State, events: seq<Event>)
    requires Init(s) && CarefulRun(s, events)
    ensures AllSucceeded(Run(s, events).gate.results) <==> NoStepFails(s, events)
  {
    Reached(s, []);
    RunSucceeds(s, events);
  }

  predicate InProgress(s: State, resume: bool) {
    if resume then s.gate.control.Resuming? else s.gate.control.IdleWait? || s.gate.control.Quiescing?
  }

  lemma StaysInProgress(s: State, e: Event, resume: bool)
    requires Inv(s) && InProgress(s, resume)
    ensures var t := Next(s, e);
            || (t.gate.results == s.gate.results && InProgress(t, resume))
            || t.gate.results == s.gate.results + [G.Result(resume, !StepFails(s, e))]
  {
    GateSteps(s, e);
  }

  lemma {:induction false} RunInProgress(s: State, events: seq<Event>, resume: bool)
    requires Inv(s) && CarefulRun(s, events) && InProgress(s, resume)
    requires Run(s, events).gate.results == s.gate.results
    ensures Inv(Run(s, events)) && InProgress(Run(s, events), resume)
    decreases |events|
  {
    if events != [] {
      StaysInProgress(s, events[0], resume);
      NextKeeps(s, events[0]);
      RunSucceeds(Next(s, events[0]), events[1..]);
      RunInProgress(Next(s, events[0]), events[1..], resume);
    }
  }

  /** In every run, an operation that was begun and not yet answered is answered by the
      next step that answers any, as what it is, with success if and only if that step
      does not fail. */
  lemma AnsweredExactly(s: State, before: seq<Event>, resume: bool, closed: bool, during: seq<Event>, e: Event,
      b: State, v: State)
    requires Init(s) && CarefulRun(s, before) && Run(s, before).gate.control == G.Free
    requires b == Next(Run(s, before), Appliance(G.Begin(resume, true, closed)))
    requires CarefulRun(b, during) && v == Run(b, during) && v.gate.results == b.gate.results
    ensures var u := Next(v, e);
            u.gate.results == v.gate.results || u.gate.results == v.gate.results + [G.Result(resume, !StepFails(v, e))]
  {
    var a := Run(s, before);
    Reached(s, before);
    NextKeeps(a, Appliance(G.Begin(resume, true, closed)));
    assert InProgress(b, resume);
    RunInProgress(b, during, resume);
    StaysInProgress(v, e, resume);
  }
}
