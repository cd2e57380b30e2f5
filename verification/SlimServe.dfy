/** Who owns the SlimServe process groups (lazarus/appliance/backends/slimserve.py). */
module SlimServe {
  import opened Prelude

  // `_operation` is held by validate, start, shutdown, quiesce and resume, and by
  // the cleanup of a failed watch, so each of them is one step; what their awaits
  // may do (a spawn that fails or is cancelled, a stop that is not confirmed, a wait
  // that is cut short) are its arguments. quiesce, resume and a failed watch set the
  // pause before they have the lock: that is a step of its own.

  /** A process group ever spawned here: the check's or the generation's. */
  datatype Group = Group(generation: bool, alive: bool)

  /** `withdrawn` is `_withdrawn`: None before any start-up, false while a launch
      or a cleanup is unresolved, true once withdrawal is verified. */
  datatype State = State(
    groups: seq<Group>, process: Option<nat>, check: Option<nat>, withdrawn: Option<bool>,
    cleanup: bool, client: bool, configured: bool, validated: bool, paused: bool)

  /** A spawn returns a handle, fails as an OSError with no process, or is cut
      short before it returned one, with a group started or not. */
  datatype Spawn = Spawned | NotSpawned | Lost(started: bool)

  /** How a cleanup's awaits end: the monitor is joined, the check's and the
      generation's groups are confirmed gone, the client is closed. */
  datatype Cleanup = Cleanup(joined: bool, checkGone: bool, processGone: bool, closed: bool)

  /** How a check's awaits end. */
  datatype Check = Check(spawn: Spawn, valid: bool, gone: bool)

  datatype Event =
    | Validate(check: Check)
    | Start(same: bool, check: Check, spawn: Spawn, connected: bool, loaded: bool, cleanup: Cleanup)
    | Shutdown(cleanup: Cleanup)
    | Quiesce(exited: bool, acked: bool)
    | Resume(exited: bool, acked: bool)
    | Pause
    | Exits(g: nat)

  const FRESH := State([], None, None, None, false, false, false, false, false)

  function Dead(groups: seq<Group>, g: Option<nat>): seq<Group> {
    if g.Some? && g.value < |groups| then groups[g.value := groups[g.value].(alive := false)] else groups
  }

  function Started(s: State, generation: bool): State {
    s.(groups := s.groups + [Group(generation, true)])
  }

  /** _validate_inner, and whether it returned. */
  function DoCheck(s: State, c: Check): (State, bool) {
    if s.cleanup || s.check.Some? || (s.withdrawn == Some(false) && s.process.None?) then (s, false)
    else
      var s1 := s.(withdrawn := Some(false), validated := false);
      match c.spawn
      case NotSpawned => (s1.(withdrawn := Some(s.withdrawn != Some(false))), false)
      case Lost(started) => (if started then Started(s1, false) else s1, false)
      case Spawned =>
        var s2 := Started(s1, false).(check := Some(|s.groups|), validated := c.valid);
        if !c.gone then (s2, false)
        else (s2.(groups := Dead(s2.groups, s2.check), check := None, withdrawn := Some(s.process.None?)), c.valid)
  }

  /** The monitor is joined and the groups held are stopped, the check's first. */
  function StopHeld(s: State, c: Cleanup): (State, bool) {
    if !c.joined || (s.check.Some? && !c.checkGone) then (s, false)
    else
      var s1 := s.(groups := Dead(s.groups, s.check));
      if s.process.Some? && !c.processGone then (s1, false)
      else (s1.(groups := Dead(s1.groups, s.process)), true)
  }

  /** What a cleanup lets go once the groups it held are gone. */
  function Released(s: State): State {
    s.(client := false, process := None, check := None, cleanup := false, validated := false,
       withdrawn := if s.check.Some? || s.process.Some? then Some(true) else s.withdrawn)
  }

  /** What a cleanup does before its first await: it closes ingress, unless no
      lifetime has ever been attempted here. */
  function Cleaning(s: State): State {
    s.(paused := s.paused || s.configured || s.withdrawn != Some(true), cleanup := true)
  }

  /** _shutdown_inner, and whether it returned. */
  function DoCleanup(s: State, c: Cleanup): (State, bool) {
    var (s2, gone) := StopHeld(Cleaning(s), c);
    if !gone || (s2.client && !c.closed) then (s2, false) else (Released(s2), true)
  }

  /** The launch has been told of; whether it happened is not known yet. */
  function Launching(s: State): State {
    s.(configured := true, withdrawn := Some(false))
  }

  /** start counts a backend that was never started as withdrawn. */
  function Fresh(s: State): State {
    if s.withdrawn.None? then s.(withdrawn := Some(true)) else s
  }

  /** The spawn of the generation's group, and whether it came to be loaded. */
  function Spawning(s: State, e: Event): (State, bool)
    requires e.Start?
  {
    match e.spawn
    case NotSpawned => (s.(withdrawn := Some(true)), false)
    case Lost(started) => (if started then Started(s, true) else s, false)
    case Spawned => (Started(s, true).(process := Some(|s.groups|), client := e.connected || e.loaded), e.loaded)
  }

  function DoLaunch(s: State, e: Event): (State, bool)
    requires e.Start?
  {
    var (s1, loaded) := Spawning(Launching(s), e);
    if loaded then (s1, true) else (DoCleanup(s1, e.cleanup).0, false)
  }

  function DoStart(s: State, e: Event): (State, bool)
    requires e.Start?
  {
    if s.process.Some? || s.withdrawn == Some(false) || s.cleanup then (s, false)
    else
      var s1 := Fresh(s);
      if s1.validated && e.same then DoLaunch(s1, e)
      else
        var (s2, valid) := DoCheck(s1, e.check);
        if valid then DoLaunch(s2, e) else (s2, false)
  }

  predicate Reachable(s: State, exited: bool) {
    s.client && s.process.Some? && !exited
  }

  /** quiesce: a withdrawn backend has nothing to quiesce; one that serves must
      have its child acknowledge. */
  function DoQuiesce(s: State, exited: bool, acked: bool): (State, bool) {
    if s.cleanup || s.check.Some? then (s, false)
    else if s.withdrawn == Some(true) && s.process.None? && !s.client then (s, true)
    else (s, Reachable(s, exited) && acked)
  }

  function DoResume(s: State, exited: bool, acked: bool): (State, bool) {
    if s.cleanup || s.check.Some? || !Reachable(s, exited) || !acked then (s, false)
    else (s.(paused := false), true)
  }

  /** The state after an event, and whether the operation returned rather than
      raised. */
  function Do(s: State, e: Event): (State, bool) {
    match e
    case Validate(c) => DoCheck(s, c)
    case Start(_, _, _, _, _, _) => DoStart(s, e)
    case Shutdown(c) => DoCleanup(s, c)
    case Quiesce(exited, acked) => DoQuiesce(s, exited, acked)
    case Resume(exited, acked) => DoResume(s, exited, acked)
    case Pause => (s.(paused := true), true)
    case Exits(g) => (s.(groups := Dead(s.groups, Some(g))), true)
  }

  function Next(s: State, e: Event): State {
    Do(s, e).0
  }

  function Run(s: State, events: seq<Event>): State
    decreases |events|
  {
    if events == [] then s else Run(Next(s, events[0]), events[1..])
  }

  // ----- what careful runs keep -----

  predicate Alive(s: State, g: nat) {
    g < |s.groups| && s.groups[g].alive
  }

  /** A launch whose group nobody holds a handle of may have happened. */
  predicate Fenced(s: State) {
    s.withdrawn == Some(false) && s.process.None? && s.check.None?
  }

  ghost predicate WithdrawalSound(s: State) {
    s.withdrawn == Some(true) ==> forall g :: 0 <= g < |s.groups| ==> !s.groups[g].alive
  }

  /** At most one group is alive, and it is held or fenced. */
  ghost predicate Inv(s: State) {
    && (s.process.Some? ==> s.process.value < |s.groups| && s.check.None?)
    && (s.check.Some? ==> s.check.value < |s.groups|)
    && (s.process.Some? || s.check.Some? ==> s.withdrawn == Some(false))
    && (forall g: nat :: g < |s.groups| && s.groups[g].alive ==>
          s.process == Some(g) || s.check == Some(g) || Fenced(s))
    && (forall g: nat, h: nat :: g < |s.groups| && s.groups[g].alive && h < |s.groups| && s.groups[h].alive ==> g == h)
  }

  /** validate is called while no generation process is held. */
  predicate Careful(s: State, e: Event) {
    e.Validate? ==> s.process.None?
  }

  predicate CarefulRun(s: State, events: seq<Event>)
    decreases |events|
  {
    events == [] || (Careful(s, events[0]) && CarefulRun(Next(s, events[0]), events[1..]))
  }

  lemma LoneGroupKeeps(s: State, generation: bool)
    requires Inv(s) && s.withdrawn != Some(false)
    ensures s.process.None? && s.check.None?
    ensures var t := Started(s, generation).(withdrawn := Some(false), validated := false);
            Inv(t) && Inv(t.(process := Some(|s.groups|))) && Inv(t.(check := Some(|s.groups|)))
  {
  }

  lemma CheckEndsKeeps(s: State)
    requires Inv(s) && s.check.Some?
    ensures Inv(s.(groups := Dead(s.groups, s.check), check := None, withdrawn := Some(true)))
  {
  }

  lemma CheckKeeps(s: State, c: Check)
    requires Inv(s) && s.process.None?
    ensures Inv(DoCheck(s, c).0)
    ensures DoCheck(s, c).1 ==> DoCheck(s, c).0.withdrawn == Some(true) && DoCheck(s, c).0.process.None?
  {
    if !s.cleanup && s.check.None? && s.withdrawn != Some(false) {
      LoneGroupKeeps(s, false);
      if c.spawn == Spawned {
        var t := Started(s, false).(withdrawn := Some(false), check := Some(|s.groups|), validated := c.valid);
        assert Inv(t);
        CheckEndsKeeps(t);
      }
    }
  }

  predicate Gone(s: State, g: Option<nat>) {
    g.None? || !Alive(s, g.value)
  }

  lemma DeadKeeps(s: State, g: Option<nat>, h: Option<nat>)
    requires Inv(s)
    ensures var t := s.(groups := Dead(s.groups, g)); Inv(t) && Gone(t, g) && (Gone(s, h) ==> Gone(t, h))
  {
  }

  lemma ReleasedKeeps(s: State)
    requires Inv(s) && Gone(s, s.check) && Gone(s, s.process)
    ensures Inv(Released(s))
  {
    forall g: nat | Alive(s, g) ensures Fenced(s) {
      assert s.process == Some(g) || s.check == Some(g) || Fenced(s);
    }
  }

  lemma StopHeldKeeps(s: State, c: Cleanup)
    requires Inv(s)
    ensures Inv(StopHeld(s, c).0)
    ensures StopHeld(s, c).1 ==> Inv(Released(StopHeld(s, c).0))
  {
    var s1 := s.(groups := Dead(s.groups, s.check));
    DeadKeeps(s, s.check, None);
    DeadKeeps(s1, s1.process, s1.check);
    if StopHeld(s, c).1 {
      ReleasedKeeps(s1.(groups := Dead(s1.groups, s1.process)));
    }
  }

  lemma CleanupKeeps(s: State, c: Cleanup)
    requires Inv(s)
    ensures Inv(DoCleanup(s, c).0)
  {
    StopHeldKeeps(Cleaning(s), c);
  }

  lemma LaunchingKeeps(s: State, client: bool)
    requires Inv(s) && s.withdrawn == Some(true)
    ensures Inv(Launching(s)) && Inv(Launching(s).(withdrawn := Some(true)))
    ensures Inv(Started(Launching(s), true))
    ensures Inv(Started(Launching(s), true).(process := Some(|s.groups|), client := client))
  {
    LoneGroupKeeps(s, true);
  }

  lemma LaunchKeeps(s: State, e: Event)
    requires Inv(s) && e.Start? && s.withdrawn == Some(true)
    ensures Inv(DoLaunch(s, e).0)
  {
    LaunchingKeeps(s, e.connected || e.loaded);
    CleanupKeeps(Spawning(Launching(s), e).0, e.cleanup);
  }

  lemma FreshKeeps(s: State)
    requires Inv(s) && s.withdrawn != Some(false)
    ensures Inv(Fresh(s)) && Fresh(s).withdrawn == Some(true) && Fresh(s).process.None?
  {
    assert s.withdrawn.None? || s.withdrawn.value;
  }

  lemma StartKeeps(s: State, e: Event)
    requires Inv(s) && e.Start?
    ensures Inv(DoStart(s, e).0)
  {
    if !(s.process.Some? || s.withdrawn == Some(false) || s.cleanup) {
      FreshKeeps(s);
      CheckKeeps(Fresh(s), e.check);
      if s.validated && e.same {
        LaunchKeeps(Fresh(s), e);
      } else if DoCheck(Fresh(s), e.check).1 {
        LaunchKeeps(DoCheck(Fresh(s), e.check).0, e);
      }
    }
  }

  lemma NextKeeps(s: State, e: Event)
    requires Inv(s) && Careful(s, e)
    ensures Inv(Next(s, e))
  {
    match e
    case Validate(c) => CheckKeeps(s, c);
    case Start(_, _, _, _, _, _) => StartKeeps(s, e);
    case Shutdown(c) => CleanupKeeps(s, c);
    case Quiesce(exited, acked) => assert Next(s, e) == s;
    case Resume(exited, acked) => assert Next(s, e) == s.(paused := Next(s, e).paused);
    case Pause => assert Next(s, e) == s.(paused := true);
    case Exits(g) => DeadKeeps(s, Some(g), None);
  }

  lemma {:induction false} RunKeeps(s: State, events: seq<Event>)
    requires Inv(s) && CarefulRun(s, events)
    ensures Inv(Run(s, events))
    decreases |events|
  {
    if events != [] {
      NextKeeps(s, events[0]);
      RunKeeps(Next(s, events[0]), events[1..]);
    }
  }

  /** In every run that validates only while no generation process is held,
      `_withdrawn` is true only when no group spawned here is alive, and at most
      one is alive in any case. */
  lemma WithdrawnMeansAbsent(events: seq<Event>)
    requires CarefulRun(FRESH, events)
    ensures var t := Run(FRESH, events);
            && WithdrawalSound(t)
            && forall g: nat, h: nat :: Alive(t, g) && Alive(t, h) ==> g == h
  {
    RunKeeps(FRESH, events);
    var t := Run(FRESH, events);
    forall g | 0 <= g < |t.groups| && t.withdrawn == Some(true) ensures !t.groups[g].alive {
      assert !Alive(t, g);
    }
  }

  /** So a quiesce that returns without asking a child has no child to ask. */
  lemma QuiesceAnswersForAbsenceOrChild(events: seq<Event>, exited: bool, acked: bool)
    requires CarefulRun(FRESH, events) && Do(Run(FRESH, events), Quiesce(exited, acked)).1
    ensures var t := Run(FRESH, events);
            || (forall g :: 0 <= g < |t.groups| ==> !t.groups[g].alive)
            || (acked && !exited && t.process.Some? && forall g: nat :: Alive(t, g) ==> t.process == Some(g))
  {
    RunKeeps(FRESH, events);
    WithdrawnMeansAbsent(events);
  }

  // ----- fencing -----

  /** A lost launch stays fenced, whatever is tried: nothing more is started,
      checked, quiesced or resumed. */
  lemma FencedStays(s: State, e: Event)
    requires Fenced(s)
    ensures Fenced(Next(s, e)) && |Next(s, e).groups| == |s.groups|
    ensures e.Validate? || e.Start? || e.Quiesce? || e.Resume? ==> !Do(s, e).1
  {
  }

  lemma {:induction false} FencedForever(s: State, events: seq<Event>)
    requires Fenced(s)
    ensures Fenced(Run(s, events)) && |Run(s, events).groups| == |s.groups|
    decreases |events|
  {
    if events != [] {
      FencedStays(s, events[0]);
      FencedForever(Next(s, events[0]), events[1..]);
    }
  }

  /** A launch that is cut short before it returned a handle is fenced. */
  lemma LostLaunchIsFenced(s: State, e: Event, after: seq<Event>)
    requires Inv(s) && e.Start? && e.spawn == Lost(true) && Launches(s, e)
    ensures Fenced(Run(Next(s, e), after))
  {
    var s1 := Fresh(s);
    FreshKeeps(s);
    CheckKeeps(s1, e.check);
    CutLaunchIsFenced(if s1.validated && e.same then s1 else DoCheck(s1, e.check).0, e);
    FencedForever(Next(s, e), after);
  }

  /** start gets past its guards and its validation. */
  predicate Launches(s: State, e: Event)
    requires e.Start?
  {
    && s.process.None? && s.withdrawn != Some(false) && !s.cleanup
    && ((s.validated && e.same) || DoCheck(Fresh(s), e.check).1)
  }

  lemma CutLaunchIsFenced(s: State, e: Event)
    requires e.Start? && e.spawn == Lost(true) && s.process.None? && s.check.None?
    ensures Fenced(DoLaunch(s, e).0)
  {
    FencedStays(Started(Launching(s), true), Shutdown(e.cleanup));
  }

  // ----- the pause -----

  lemma CheckLeavesPause(s: State, c: Check)
    ensures DoCheck(s, c).0.paused == s.paused
  {
  }

  lemma CleanupKeepsPause(s: State, c: Cleanup)
    ensures s.paused ==> DoCleanup(s, c).0.paused
  {
  }

  lemma StartKeepsPause(s: State, e: Event)
    requires e.Start? && s.paused
    ensures DoStart(s, e).0.paused
  {
    var s1 := Fresh(s);
    CheckLeavesPause(s1, e.check);
    LaunchKeepsPause(s1, e);
    LaunchKeepsPause(DoCheck(s1, e.check).0, e);
  }

  lemma LaunchKeepsPause(s: State, e: Event)
    requires e.Start?
    ensures s.paused ==> DoLaunch(s, e).0.paused
  {
    CleanupKeepsPause(Spawning(Launching(s), e).0, e.cleanup);
  }

  /** The pause, once set, clears only through a resume that the child has
      acknowledged. */
  lemma PauseClearsOnlyByResume(s: State, e: Event)
    requires s.paused && !Next(s, e).paused
    ensures e.Resume? && e.acked && !e.exited && s.process.Some? && s.client && !s.cleanup && Do(s, e).1
  {
    match e
    case Validate(c) => CheckLeavesPause(s, c);
    case Start(_, _, _, _, _, _) => StartKeepsPause(s, e);
    case Shutdown(c) => CleanupKeepsPause(s, c);
    case _ =>
  }

  /** A quiesce sets the pause before it waits for its turn: it finds it still
      set unless a resume succeeded meanwhile. */
  lemma {:induction false} PauseLasts(s: State, events: seq<Event>)
    requires s.paused && !Run(s, events).paused
    ensures exists i: nat :: i < |events| && events[i].Resume? && Do(Run(s, events[..i]), events[i]).1
    decreases |events|
  {
    if events != [] {
      var t := Next(s, events[0]);
      if t.paused {
        PauseLasts(t, events[1..]);
        var i: nat :| i < |events| - 1 && events[1..][i].Resume? && Do(Run(t, events[1..][..i]), events[1..][i]).1;
        assert events[..i + 1][0] == events[0] && events[..i + 1][1..] == events[1..][..i];
        assert events[i + 1].Resume?;
      } else {
        PauseClearsOnlyByResume(s, events[0]);
        assert Run(s, events[..0]) == s;
      }
    }
  }

  // ----- validate while a process is held -----

  /** Nothing that follows, carefully, makes the withdrawal claim false. */
  ghost predicate SafeAfter(s: State) {
    forall events :: CarefulRun(s, events) ==> WithdrawalSound(Run(s, events))
  }

  predicate RefusesToValidate(s: State) {
    s.cleanup || s.check.Some?
  }

  const GOOD := Cleanup(true, true, true, true)
  const CUT := Check(Lost(true), false, false)

  /** A validate whose spawn is cut short while a generation process is held, and
      a shutdown after it: the check's group is lost, and yet withdrawal is
      claimed. */
  lemma CutCheckIsForgotten(s: State)
    requires Inv(s) && s.process.Some? && !RefusesToValidate(s)
    ensures !SafeAfter(Next(s, Validate(CUT)))
  {
    var t := Next(s, Validate(CUT));
    var es := [Shutdown(GOOD)];
    var u := Next(t, Shutdown(GOOD));
    assert es[1..] == [] && Run(u, []) == u;
    assert CarefulRun(u, []);
    assert CarefulRun(t, es) && Run(t, es) == u;
    assert u.withdrawn == Some(true) && u.groups[|s.groups|].alive;
    assert !WithdrawalSound(u);
  }

  /** From a new backend: one start, one validate whose check's spawn is cancelled
      once its group runs, and one shutdown in which every await succeeds.
      Withdrawal is claimed, and the third group lives. */
  lemma CutCheckRun()
    ensures var start := Start(false, Check(Spawned, true, true), Spawned, true, true, GOOD);
            var t := Run(FRESH, [start, Validate(CUT), Shutdown(GOOD)]);
            && t.withdrawn == Some(true) && t.process.None? && t.check.None? && !t.cleanup
            && |t.groups| == 3 && t.groups[2] == Group(false, true)
  {
    var start := Start(false, Check(Spawned, true, true), Spawned, true, true, GOOD);
    var a := Next(FRESH, start);
    assert a == State([Group(false, false), Group(true, true)], Some(1), None, Some(false), false, true, true, true,
      false);
    RunOfThree(FRESH, start, Validate(CUT), Shutdown(GOOD));
  }

  lemma RunOfThree(s: State, a: Event, b: Event, c: Event)
    ensures Run(s, [a, b, c]) == Next(Next(Next(s, a), b), c)
  {
    var t := Next(s, a);
    assert [a, b, c][1..] == [b, c] && [b, c][1..] == [c] && [c][1..] == [];
    assert Run(s, [a, b, c]) == Run(t, [b, c]) == Run(Next(t, b), [c]) == Run(Next(Next(t, b), c), []);
  }

  lemma InvIsSafe(s: State)
    requires Inv(s)
    ensures SafeAfter(s)
  {
    forall events | CarefulRun(s, events) ensures WithdrawalSound(Run(s, events)) {
      RunKeeps(s, events);
      var t := Run(s, events);
      forall g | 0 <= g < |t.groups| && t.withdrawn == Some(true) ensures !t.groups[g].alive {
        assert !Alive(t, g);
      }
    }
  }

  /** A call of validate leaves the withdrawal claim true, however its awaits end
      and whatever follows, exactly when no generation process is held or it is
      refused at once. */
  lemma ValidateIsSafeExactlyWhen(s: State)
    requires Inv(s)
    ensures (forall c :: SafeAfter(Next(s, Validate(c)))) <==> s.process.None? || RefusesToValidate(s)
  {
    if s.process.None? {
      forall c ensures SafeAfter(Next(s, Validate(c))) {
        NextKeeps(s, Validate(c));
        InvIsSafe(Next(s, Validate(c)));
      }
    } else if RefusesToValidate(s) {
      InvIsSafe(s);
      forall c ensures SafeAfter(Next(s, Validate(c))) {
        assert Next(s, Validate(c)) == s;
      }
    } else {
      CutCheckIsForgotten(s);
    }
  }

  // ----- what each operation comes to -----

  /** No operation is refused for what an earlier one left unresolved. */
  predicate MayCheck(s: State) {
    !s.cleanup && s.check.None? && !(s.withdrawn == Some(false) && s.process.None?)
  }

  /** A check's spawn gave a handle, its answer accepted the configuration, and its group
      is confirmed gone. */
  predicate Accepts(c: Check) {
    c.spawn == Spawned && c.valid && c.gone
  }

  /** validate returns if and only if its check accepts; what it leaves says so. */
  lemma ValidatesExactlyWhen(s: State, c: Check)
    ensures var (t, ok) := Do(s, Validate(c));
            && (ok <==> MayCheck(s) && Accepts(c))
            && (!MayCheck(s) ==> t == s)
            && (MayCheck(s) ==>
                  && (t.validated <==> c.spawn == Spawned && c.valid)
                  && t.process == s.process && t.client == s.client && t.paused == s.paused
                  && (t.check.Some? <==> c.spawn == Spawned && !c.gone)
                  && (c.spawn == NotSpawned ==> t == s.(withdrawn := t.withdrawn, validated := false))
                  && t.groups == s.groups + (if c.spawn == Spawned then [Group(false, !c.gone)]
                                             else if c.spawn == Lost(true) then [Group(false, true)] else [])
                  && (c.spawn == Spawned && c.gone ==> t.withdrawn == Some(s.process.None?)))
  {
  }

  /** The configuration that is started was accepted by a check, this start's or the one
      that has set `validated`. */
  predicate Accepted(s: State, e: Event)
    requires e.Start?
  {
    (s.validated && e.same) || (s.check.None? && Accepts(e.check))
  }

  predicate Idle(s: State) {
    s.process.None? && s.withdrawn != Some(false) && !s.cleanup
  }

  /** start returns if and only if the backend is idle, the configuration was accepted,
      and the generation's group was spawned and came to be loaded. */
  lemma StartsExactlyWhen(s: State, e: Event)
    requires e.Start?
    ensures var (t, ok) := Do(s, e);
            && (ok <==> Idle(s) && Accepted(s, e) && e.spawn == Spawned && e.loaded)
            && (!Idle(s) ==> t == s)
            && (ok ==> && t.process == Some(|t.groups| - 1) && |t.groups| > 0
                       && t.groups[|t.groups| - 1] == Group(true, true)
                       && t.client && t.configured && t.withdrawn == Some(false) && t.paused == s.paused)
  {
    ValidatesExactlyWhen(Fresh(s), e.check);
  }

  /** The groups a cleanup holds, and its client, are all confirmed gone. */
  predicate CleansUp(s: State, c: Cleanup) {
    && c.joined && (s.check.Some? ==> c.checkGone) && (s.process.Some? ==> c.processGone)
    && (s.client ==> c.closed)
  }

  /** shutdown returns if and only if everything it held is confirmed gone; then it holds
      nothing, and claims withdrawal where it held a group. */
  lemma ShutsDownExactlyWhen(s: State, c: Cleanup)
    ensures var (t, ok) := Do(s, Shutdown(c));
            && (ok <==> CleansUp(s, c))
            && t.cleanup == !ok
            && (t.paused <==> s.paused || s.configured || s.withdrawn != Some(true))
            && |t.groups| == |s.groups|
            && (forall g: nat :: g < |s.groups| ==>
                  t.groups[g] == s.groups[g]
                  || ((s.process == Some(g) || s.check == Some(g)) && t.groups[g] == s.groups[g].(alive := false)))
            && (ok ==>
                  && t.process.None? && t.check.None? && !t.client && !t.validated
                  && t.withdrawn == (if s.process.Some? || s.check.Some? then Some(true) else s.withdrawn)
                  && forall g: nat :: Alive(t, g) ==> s.process != Some(g) && s.check != Some(g))
  {
  }

  /** A start that is refused, or whose configuration is not accepted, launches nothing. */
  lemma RefusedLaunchesNothing(s: State, e: Event)
    requires e.Start? && !(Idle(s) && Accepted(s, e))
    ensures var t := Next(s, e);
            |s.groups| <= |t.groups| && forall g: nat :: |s.groups| <= g < |t.groups| ==> !t.groups[g].generation
  {
    ValidatesExactlyWhen(Fresh(s), e.check);
  }

  lemma SpawningAdds(s: State, e: Event)
    requires e.Start?
    ensures var t := Spawning(s, e).0;
            && |t.groups| == |s.groups| + (if e.spawn == Spawned || e.spawn == Lost(true) then 1 else 0)
            && forall g: nat :: g < |s.groups| ==> t.groups[g] == s.groups[g]
  {
  }

  lemma LaunchAdds(s: State, e: Event)
    requires e.Start?
    ensures var t := DoLaunch(s, e).0;
            && |t.groups| == |s.groups| + (if e.spawn == Spawned || e.spawn == Lost(true) then 1 else 0)
            && forall g: nat :: g < |s.groups| ==> t.groups[g].generation == s.groups[g].generation
  {
    SpawningAdds(Launching(s), e);
    CleanupAdds(Spawning(Launching(s), e).0, e.cleanup);
  }

  lemma CleanupAdds(s: State, c: Cleanup)
    ensures var t := DoCleanup(s, c).0;
            |t.groups| == |s.groups|
            && forall g: nat :: g < |s.groups| ==> t.groups[g].generation == s.groups[g].generation
  {
    ShutsDownExactlyWhen(s, c);
    assert Do(s, Shutdown(c)) == DoCleanup(s, c);
  }

  /** start launches a generation group only for a configuration that was accepted. */
  lemma LaunchesOnlyTheAccepted(s: State, e: Event)
    requires e.Start?
    ensures var t := Next(s, e);
            && |s.groups| <= |t.groups|
            && forall g: nat :: |s.groups| <= g < |t.groups| && t.groups[g].generation ==>
                 Idle(s) && Accepted(s, e) && (e.spawn == Spawned || e.spawn == Lost(true))
  {
    if Idle(s) && Accepted(s, e) {
      ValidatesExactlyWhen(Fresh(s), e.check);
      if s.validated && e.same {
        LaunchAdds(Fresh(s), e);
      } else {
        LaunchAdds(DoCheck(Fresh(s), e.check).0, e);
      }
    } else {
      RefusedLaunchesNothing(s, e);
    }
  }

  /** A launch that came to a group but not to a loaded one closes ingress and is cleaned
      up: withdrawn if everything is confirmed gone, else left to a later cleanup. One
      that spawned nothing leaves the backend withdrawn. */
  lemma FailedLaunchIsCleanedUp(s: State, e: Event)
    requires e.Start? && Idle(s) && Accepted(s, e) && s.check.None? && !s.client
    ensures var t, c := Next(s, e), e.cleanup;
            && (e.spawn == Spawned && !e.loaded ==>
                  && t.paused && |t.groups| > 0 && t.groups[|t.groups| - 1].generation
                  && if c.joined && c.processGone && (e.connected ==> c.closed) then
                       && t.process.None? && !t.client && !t.cleanup && t.withdrawn == Some(true)
                       && !t.groups[|t.groups| - 1].alive
                     else t.cleanup && t.process == Some(|t.groups| - 1))
            && (e.spawn == NotSpawned && c.joined ==>
                  t.process.None? && !t.cleanup && t.withdrawn == Some(true))
  {
    ValidatesExactlyWhen(Fresh(s), e.check);
    var s1 := if s.validated && e.same then Fresh(s) else DoCheck(Fresh(s), e.check).0;
    assert s1.process.None? && s1.check.None? && !s1.client;
    FailedSpawn(s1, e);
  }

  lemma FailedSpawn(s: State, e: Event)
    requires e.Start? && s.process.None? && s.check.None? && !s.client
    ensures var t, c := DoLaunch(s, e).0, e.cleanup;
            && (e.spawn == Spawned && !e.loaded ==>
                  && t.paused && |t.groups| > 0 && t.groups[|t.groups| - 1].generation
                  && if c.joined && c.processGone && (e.connected ==> c.closed) then
                       && t.process.None? && !t.client && !t.cleanup && t.withdrawn == Some(true)
                       && !t.groups[|t.groups| - 1].alive
                     else t.cleanup && t.process == Some(|t.groups| - 1))
            && (e.spawn == NotSpawned && c.joined ==>
                  t.process.None? && !t.cleanup && t.withdrawn == Some(true))
  {
    ShutsDownExactlyWhen(Spawning(Launching(s), e).0, e.cleanup);
  }

  /** `validated` is set by a check that accepted the configuration, and by no other. */
  predicate SetsValidated(e: Event) {
    || (e.Validate? && e.check.spawn == Spawned && e.check.valid)
    || (e.Start? && e.check.spawn == Spawned && e.check.valid)
  }

  lemma ValidatedStays(s: State, e: Event)
    requires !s.validated && Next(s, e).validated
    ensures SetsValidated(e)
  {
  }

  lemma {:induction false} ValidatedByACheck(events: seq<Event>, s: State)
    requires !s.validated && Run(s, events).validated
    ensures exists i :: 0 <= i < |events| && SetsValidated(events[i])
    decreases |events|
  {
    var t := Next(s, events[0]);
    if t.validated {
      ValidatedStays(s, events[0]);
    } else {
      ValidatedByACheck(events[1..], t);
      var i :| 0 <= i < |events[1..]| && SetsValidated(events[1..][i]);
      assert SetsValidated(events[i + 1]);
    }
  }

  /** In every run from a new backend: a generation group was launched only if some check
      before it, or its own, accepted a configuration. */
  lemma NothingLaunchedUnchecked(events: seq<Event>, e: Event)
    requires e.Start? && |Next(Run(FRESH, events), e).groups| > |Run(FRESH, events).groups|
    requires var s, t := Run(FRESH, events), Next(Run(FRESH, events), e);
             exists g: nat :: |s.groups| <= g < |t.groups| && t.groups[g].generation
    ensures Accepts(e.check) || (e.same && exists i :: 0 <= i < |events| && SetsValidated(events[i]))
  {
    var s := Run(FRESH, events);
    LaunchesOnlyTheAccepted(s, e);
    if s.validated {
      ValidatedByACheck(events, FRESH);
    }
  }

  /** quiesce returns if and only if nothing was left unresolved and there is nothing to
      quiesce, or the child acknowledged; resume if and only if the child did. */
  lemma AcknowledgedExactlyWhen(s: State, exited: bool, acked: bool)
    ensures var (t, ok) := Do(s, Quiesce(exited, acked));
            t == s && (ok <==> !s.cleanup && s.check.None?
                               && ((s.withdrawn == Some(true) && s.process.None? && !s.client)
                                   || (s.client && s.process.Some? && !exited && acked)))
    ensures var (t, ok) := Do(s, Resume(exited, acked));
            && (ok <==> !s.cleanup && s.check.None? && s.client && s.process.Some? && !exited && acked)
            && t == if ok then s.(paused := false) else s
  {
  }

  /** A failed watch, and a quiesce or resume before its turn, set the pause; a group
      that exits lives no more. */
  lemma PausesAndExits(s: State, g: nat)
    ensures Next(s, Pause) == s.(paused := true)
    ensures !Alive(Next(s, Exits(g)), g) && forall h: nat :: h != g ==> (Alive(Next(s, Exits(g)), h) <==> Alive(s, h))
  {
  }

  /** In every careful run: on an idle backend with nothing unresolved a start whose
      awaits all go well returns, and its generation group is the only one alive. */
  lemma IdleBackendStarts(events: seq<Event>, e: Event)
    requires CarefulRun(FRESH, events) && e.Start? && Idle(Run(FRESH, events))
    requires Accepts(e.check) && e.spawn == Spawned && e.loaded
    ensures var (t, ok) := Do(Run(FRESH, events), e);
            ok && t.process.Some? && Alive(t, t.process.value) && t.groups[t.process.value].generation
            && forall g: nat :: Alive(t, g) ==> t.process == Some(g)
  {
    var s := Run(FRESH, events);
    RunKeeps(FRESH, events);
    NextKeeps(s, e);
    assert s.check.None?;
    StartsExactlyWhen(s, e);
  }

  // ----- the backend, with its fields updated in place -----

  /** `groups` is what the operating system runs, which the backend sees only
      through the handles it holds. */
  class SlimServeBackend {
    var groups: seq<Group>
    var process: Option<nat>
    var checkProcess: Option<nat>
    var withdrawn: Option<bool>
    var cleanupPending: bool
    var client: bool
    var config: bool
    var validatedConfig: bool
    var generationPaused: bool

    ghost function Now(): State
      reads this
    {
      State(groups, process, checkProcess, withdrawn, cleanupPending, client, config, validatedConfig, generationPaused)
    }

    /** At most one group lives, and it is held or fenced; so a withdrawal that is
        claimed is true. */
    ghost predicate Valid()
      reads this
    {
      Inv(Now())
    }

    constructor ()
      ensures Now() == FRESH && Valid()
    {
      groups := [];
      process, checkProcess, withdrawn := None, None, None;
      cleanupPending, client, config, validatedConfig, generationPaused := false, false, false, false, false;
    }

    /** Returns the new group's number, or none if no handle came back. */
    method Spawn(generation: bool, outcome: Spawn) returns (handle: Option<nat>)
      modifies `groups
      ensures handle == if outcome == Spawned then Some(|old(groups)|) else None
      ensures groups == if outcome == Spawned || outcome == Lost(true) then old(groups) + [Group(generation, true)]
                        else old(groups)
    {
      handle := None;
      if outcome == Spawned || outcome == Lost(true) {
        groups := groups + [Group(generation, true)];
      }
      if outcome == Spawned {
        handle := Some(|groups| - 1);
      }
    }

    /** A stop that returns has confirmed that the group, if one is held, is gone. */
    method StopGroup(held: Option<nat>, confirmed: bool) returns (ok: bool)
      modifies `groups
      ensures ok <==> held.None? || confirmed
      ensures groups == if confirmed then Dead(old(groups), held) else old(groups)
    {
      if held.None? {
        return true;
      }
      if confirmed && held.value < |groups| {
        groups := groups[held.value := groups[held.value].(alive := false)];
      }
      ok := confirmed;
    }

    /** What a validate may break, and when it does not. */
    method Validate(c: Check) returns (ok: bool)
      requires Valid()
      modifies this
      ensures (Now(), ok) == Do(old(Now()), Event.Validate(c))
      ensures ok <==> MayCheck(old(Now())) && Accepts(c)
      ensures old(process).None? ==> Valid()
      ensures old(process).Some? && !RefusesToValidate(old(Now())) && c == CUT ==> !SafeAfter(Now())
    {
      ghost var s := Now();
      ok := ValidateInner(c);
      ValidatesExactlyWhen(s, c);
      if s.process.None? {
        NextKeeps(s, Event.Validate(c));
      } else if !RefusesToValidate(s) {
        CutCheckIsForgotten(s);
      }
    }

    method ValidateInner(c: Check) returns (ok: bool)
      modifies this
      ensures (Now(), ok) == DoCheck(old(Now()), c)
    {
      if cleanupPending || checkProcess.Some? || (withdrawn == Some(false) && process.None?) {
        return false;
      }
      var previouslyWithdrawn := withdrawn != Some(false);
      withdrawn := Some(false);
      validatedConfig := false;
      var handle := Spawn(false, c.spawn);
      if handle.None? {
        if c.spawn == NotSpawned {
          withdrawn := Some(previouslyWithdrawn);
        }
        return false;
      }
      checkProcess := handle;
      validatedConfig := c.valid;
      var gone := StopGroup(handle, c.gone);
      if !gone {
        return false;
      }
      checkProcess := None;
      withdrawn := Some(process.None?);
      return c.valid;
    }

    /** At most one generation group, and none that nobody holds or fences, however
        the start ends. */
    method Start(e: Event) returns (ok: bool)
      requires Valid() && e.Start?
      modifies this
      ensures (Now(), ok) == Do(old(Now()), e) && Valid()
      ensures ok <==> Idle(old(Now())) && Accepted(old(Now()), e) && e.spawn == Spawned && e.loaded
      ensures ok ==> process.Some? && client && forall g: nat :: Alive(Now(), g) ==> process == Some(g)
    {
      ghost var s := Now();
      ok := StartInner(e);
      NextKeeps(s, e);
      StartsExactlyWhen(s, e);
    }

    method StartInner(e: Event) returns (ok: bool)
      requires e.Start?
      modifies this
      ensures (Now(), ok) == DoStart(old(Now()), e)
      ensures ok ==> process.Some? && client
    {
      if process.Some? || withdrawn == Some(false) || cleanupPending {
        return false;
      }
      if withdrawn.None? {
        withdrawn := Some(true);
      }
      if !(validatedConfig && e.same) {
        var valid := ValidateInner(e.check);
        if !valid {
          return false;
        }
      }
      ok := Launch(e);
    }

    /** The spawn and the wait for its readiness. */
    method SpawnGeneration(e: Event) returns (ok: bool)
      requires e.Start?
      modifies `groups, `process, `client, `withdrawn
      ensures (Now(), ok) == Spawning(old(Now()), e)
    {
      var handle := Spawn(true, e.spawn);
      if handle.Some? {
        process := handle;
        client := e.connected || e.loaded;
        return e.loaded;
      }
      if e.spawn == NotSpawned {
        withdrawn := Some(true);
      }
      return false;
    }

    method Launch(e: Event) returns (ok: bool)
      requires e.Start?
      modifies this
      ensures (Now(), ok) == DoLaunch(old(Now()), e)
      ensures ok ==> process.Some? && client
    {
      config := true;
      withdrawn := Some(false);
      ok := SpawnGeneration(e);
      if !ok {
        var _ := ShutdownInner(e.cleanup);
      }
    }

    /** A shutdown that returns leaves no group alive but one that is fenced. */
    method Shutdown(c: Cleanup) returns (ok: bool)
      requires Valid()
      modifies this
      ensures (Now(), ok) == Do(old(Now()), Event.Shutdown(c)) && Valid()
      ensures ok <==> CleansUp(old(Now()), c)
      ensures ok ==> process.None? && checkProcess.None? && !client
      ensures ok ==> Fenced(Now()) || forall g: nat :: g < |groups| ==> !groups[g].alive
    {
      ghost var s := Now();
      ok := ShutdownInner(c);
      NextKeeps(s, Event.Shutdown(c));
      ShutsDownExactlyWhen(s, c);
      assert ok && !Fenced(Now()) ==> forall g: nat :: g < |groups| ==> !Alive(Now(), g);
    }

    method StopHeldGroups(c: Cleanup) returns (ok: bool)
      modifies `groups
      ensures (Now(), ok) == StopHeld(old(Now()), c)
    {
      if !c.joined {
        return false;
      }
      ok := StopGroup(checkProcess, c.checkGone);
      if ok {
        ok := StopGroup(process, c.processGone);
      }
    }

    method BeginCleanup()
      modifies `generationPaused, `cleanupPending
      ensures Now() == Cleaning(old(Now()))
    {
      if config || withdrawn != Some(true) {
        generationPaused := true;
      }
      cleanupPending := true;
    }

    method Release()
      modifies `client, `process, `checkProcess, `cleanupPending, `withdrawn, `validatedConfig
      ensures Now() == Released(old(Now()))
    {
      if checkProcess.Some? || process.Some? {
        withdrawn := Some(true);
      }
      client, process, checkProcess, cleanupPending, validatedConfig := false, None, None, false, false;
    }

    method ShutdownInner(c: Cleanup) returns (ok: bool)
      modifies this
      ensures (Now(), ok) == DoCleanup(old(Now()), c)
    {
      BeginCleanup();
      ok := StopHeldGroups(c);
      if ok && client && !c.closed {
        return false;
      }
      if ok {
        Release();
      }
    }

    /** What quiesce, resume and a failed watch do before they have the lock. */
    method Pause()
      requires Valid()
      modifies `generationPaused
      ensures Now() == Next(old(Now()), Event.Pause) && Valid() && generationPaused
    {
      generationPaused := true;
      NextKeeps(old(Now()), Event.Pause);
    }

    /** A quiesce that returns has no group to ask, or its only live one's answer. */
    method Quiesce(exited: bool, acked: bool) returns (ok: bool)
      requires Valid()
      ensures (Now(), ok) == Do(Now(), Event.Quiesce(exited, acked))
      ensures ok ==> forall g: nat :: Alive(Now(), g) ==> acked && !exited && process == Some(g)
    {
      if cleanupPending || checkProcess.Some? {
        return false;
      }
      if withdrawn == Some(true) && process.None? && checkProcess.None? && !client {
        return true;
      }
      if !client || process.None? || exited {
        return false;
      }
      return acked;
    }

    /** A resume that returns has the acknowledgement of the only live group. */
    method Resume(exited: bool, acked: bool) returns (ok: bool)
      requires Valid()
      modifies `generationPaused
      ensures (Now(), ok) == Do(old(Now()), Event.Resume(exited, acked)) && Valid()
      ensures generationPaused == (old(generationPaused) && !ok)
      ensures ok ==> acked && !exited && forall g: nat :: Alive(Now(), g) ==> process == Some(g)
    {
      if cleanupPending || checkProcess.Some? || !client || process.None? || exited || !acked {
        return false;
      }
      generationPaused := false;
      NextKeeps(old(Now()), Event.Resume(exited, acked));
      return true;
    }
  }
}
