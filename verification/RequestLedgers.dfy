/** The agent and the ledgers of its waiting requests, together: where
    lazarus/agent/deployments.py calls lazarus/agent/queueing.py.

    A ledger follows the gate of its deployment: whoever holds a ticket of the
    current process is behind the current gate, whoever holds an older one is not. */
module RequestLedgers {
  import opened Prelude
  import D = DeploymentModel
  import I = DeploymentInvariants
  import F = InFlight
  import Deployments = DeploymentTheorems
  import Q = QueueingModel
  import Engines = QueueingTheorems

  /** The place a request in flight has or waits for: a ticket of a ledger. */
  datatype Held = Held(ledger: nat, ticket: nat)

  /** `ledgers` are all that were ever made; `ledger` is agent.deployment_queueing,
      by their numbers. */
  datatype State = State(agent: D.State, ledgers: seq<Q.Queue>, ledger: map<D.Id, nat>, held: map<nat, Held>)

  /** `answers`: the request's path is one that takes a place.  `refused`: its engine
      answered with an error, or could not be reached. */
  datatype Event =
    | Moves(agent: D.Event, answers: bool, refused: bool, times: nat -> Q.Time)
    | Observes(id: D.Id, time: Q.Time)

  /** places_of: how many requests a record's engine runs at once; none, or zero,
      where the agent does not know. */
  type Places = D.Record -> nat

  function Play(s: State, n: nat, ev: Q.Event): State
    requires n < |s.ledgers| && Q.Valid(s.ledgers[n]) && Q.Allowed(s.ledgers[n], ev)
  {
    s.(ledgers := s.ledgers[n := Q.Next(s.ledgers[n], ev)])
  }

  /** The ledger of an id, made on first use. */
  function Opened(s: State, id: D.Id): State {
    if id in s.ledger then s
    else s.(ledgers := s.ledgers + [Q.EMPTY], ledger := s.ledger[id := |s.ledgers|])
  }

  ghost function Take(s: State, key: nat, id: D.Id, places: nat, time: Q.Time): State
    requires Ready(s)
  {
    var u := Opened(s, id);
    var n := u.ledger[id];
    Play(u, n, Q.Arrive(places, time)).(held := s.held[key := Held(n, |u.ledgers[n].tickets|)])
  }

  ghost function GiveBack(s: State, key: nat, refused: bool, time: Q.Time): State
    requires Ready(s) && key in s.held
  {
    Play(s, s.held[key].ledger, Q.Leave(s.held[key].ticket, refused, time)).(held := s.held - {key})
  }

  /** Every ledger, and every ticket that is held, can take its next step. */
  ghost predicate Ready(s: State) {
    && (forall n: nat :: n < |s.ledgers| ==> Q.Inv(s.ledgers[n]))
    && (forall id :: id in s.ledger ==> s.ledger[id] < |s.ledgers|)
    && (forall k :: k in s.held ==> HeldOk(s.ledgers, s.held[k]))
  }

  predicate HeldOk(ledgers: seq<Q.Queue>, h: Held) {
    && h.ledger < |ledgers| && h.ticket < |ledgers[h.ledger].tickets|
    && ledgers[h.ledger].tickets[h.ticket].fate.Here?
  }

  /** The agent's step, and what it calls of its ledgers. */
  ghost function Moved(p: Places, s: State, e: D.Event, answers: bool, refused: bool, times: nat -> Q.Time): State
    requires Ready(s)
  {
    var u := s.(agent := D.Next(s.agent, e));
    if F.Enters(s.agent, e) then
      var r := s.agent.requests[e.key];
      if answers && p(r.record) > 0 then Take(u, e.key, r.id, p(r.record), times(0)) else u
    else if F.Leaves(s.agent, e) then
      if e.key in s.held then GiveBack(u, e.key, refused, times(0)) else u
    else if F.Restarts(s.agent, e) then
      if e.id in s.ledger then Play(u, s.ledger[e.id], Q.Restart(times, 0)) else u
    else if F.Forgets(s.agent, e) then u.(ledger := s.ledger - {e.id})
    else u
  }

  ghost function Next(p: Places, s: State, e: Event): State
    requires Ready(s)
  {
    match e
    case Observes(id, time) => if id in s.ledger then Play(s, s.ledger[id], Q.LastDay(time)) else s
    case Moves(d, answers, refused, times) => Moved(p, s, d, answers, refused, times)
  }

  ghost predicate Init(s: State) {
    Deployments.Init(s.agent) && s.ledgers == [] && s.ledger == map[] && s.held == map[]
  }

  // ----- what every step keeps -----

  /** No two requests hold one ticket, and each that has not left is held. */
  ghost predicate Lent(s: State) {
    && (forall j, k :: j in s.held && k in s.held && s.held[j] == s.held[k] ==> j == k)
    && (forall n: nat, t: nat :: n < |s.ledgers| && t < |s.ledgers[n].tickets| && s.ledgers[n].tickets[t].fate.Here? ==>
          exists k :: k in s.held && s.held[k] == Held(n, t))
  }

  /** A ledger belongs to one deployment, which has a record and a gate. */
  ghost predicate Named(s: State) {
    && (forall id :: id in s.ledger ==> id in s.agent.records && id in s.agent.gate)
    && (forall i, j :: i in s.ledger && j in s.ledger && s.ledger[i] == s.ledger[j] ==> i == j)
  }

  /** The ticket is one of the current process, in its deployment's ledger. */
  predicate Current(s: State, h: Held, id: D.Id)
    requires HeldOk(s.ledgers, h)
  {
    Lookup(s.ledger, id) == Some(h.ledger)
    && s.ledgers[h.ledger].tickets[h.ticket].process == s.ledgers[h.ledger].process
  }

  /** Who holds a ticket is in flight; the ticket is of its own deployment, and of the
      current process exactly when the request is behind the current gate. */
  ghost predicate PlacedAt(s: State, k: nat)
    requires k in s.held && HeldOk(s.ledgers, s.held[k])
  {
    && k in F.Flying(s.agent.requests)
    && var r := F.Flying(s.agent.requests)[k];
       && (forall id :: id in s.ledger && s.ledger[id] == s.held[k].ledger ==> id == r.id)
       && (Current(s, s.held[k], r.id) <==> F.IsBehind(r, s.agent.gate))
  }

  ghost predicate Placed(s: State)
    requires Ready(s)
  {
    forall k :: k in s.held ==> PlacedAt(s, k)
  }

  /** The ledger follows a first-come-first-served engine with that many places. */
  ghost predicate Follows(q: Q.Queue, places: nat) {
    exists present :: Engines.Follows(q, Engines.Engine(places, present, |q.tickets|))
  }

  ghost predicate Served(p: Places, s: State)
    requires Ready(s) && Named(s)
  {
    forall id :: id in s.ledger ==> Follows(s.ledgers[s.ledger[id]], p(s.agent.records[id]))
  }

  ghost predicate AgentOk(s: State) {
    I.Inv(s.agent) && F.SentForRecord(s.agent)
  }

  ghost predicate Inv(p: Places, s: State) {
    AgentOk(s) && Ready(s) && Lent(s) && Named(s) && Placed(s) && Served(p, s)
  }

  // ----- one ledger's steps -----

  lemma ArriveTickets(q: Q.Queue, places: nat, time: Q.Time)
    requires Q.Inv(q)
    ensures var r := Q.Next(q, Q.Arrive(places, time));
            && r.process == q.process && |r.tickets| == |q.tickets| + 1
            && (forall t: nat :: t < |q.tickets| ==> r.tickets[t] == q.tickets[t])
            && r.tickets[|q.tickets|].fate.Here? && r.tickets[|q.tickets|].process == q.process
  {
  }

  lemma LeaveTickets(q: Q.Queue, t: nat, refused: bool, time: Q.Time)
    requires Q.Inv(q) && t < |q.tickets| && q.tickets[t].fate.Here?
    ensures var r := Q.Next(q, Q.Leave(t, refused, time));
            && r.process == q.process && |r.tickets| == |q.tickets| && !r.tickets[t].fate.Here?
            && (forall u: nat :: u < |q.tickets| ==> r.tickets[u].process == q.tickets[u].process)
            && (forall u: nat :: u < |q.tickets| && u != t ==> r.tickets[u].fate == q.tickets[u].fate)
  {
  }

  lemma RestartTickets(q: Q.Queue, times: nat -> Q.Time)
    requires Q.Inv(q)
    ensures var r := Q.Next(q, Q.Restart(times, 0));
            && r.process == q.process + 1 && |r.tickets| == |q.tickets|
            && (forall u: nat :: u < |q.tickets| ==>
                  r.tickets[u].fate == q.tickets[u].fate && r.tickets[u].process == q.tickets[u].process < r.process)
  {
    Q.EndWaitsShape(q, q.line, times);
    forall u: nat | u < |q.tickets| ensures q.tickets[u].process <= q.process {
      assert Q.TicketOk(q.tickets[u], |q.made|, q.process);
    }
  }

  lemma ArriveFollows(q: Q.Queue, places: nat, time: Q.Time)
    requires Q.Inv(q) && Follows(q, places)
    ensures Follows(Q.Next(q, Q.Arrive(places, time)), places)
  {
    var ev := Q.Arrive(places, time);
    var present :| Engines.Follows(q, Engines.Engine(places, present, |q.tickets|));
    var e := Engines.Engine(places, present, |q.tickets|);
    Engines.ArriveFollows(q, e, ev, Q.Next(q, ev));
    ArriveTickets(q, places, time);
    assert Engines.Serve(e, ev) == Engines.Engine(places, Engines.Serve(e, ev).present, |q.tickets| + 1);
  }

  lemma LeaveFollows(q: Q.Queue, places: nat, t: nat, refused: bool, time: Q.Time)
    requires Q.Inv(q) && Follows(q, places) && t < |q.tickets| && q.tickets[t].fate.Here?
    ensures Follows(Q.Next(q, Q.Leave(t, refused, time)), places)
  {
    var ev := Q.Leave(t, refused, time);
    var present :| Engines.Follows(q, Engines.Engine(places, present, |q.tickets|));
    var e := Engines.Engine(places, present, |q.tickets|);
    Engines.LeaveFollows(q, e, ev, Q.Next(q, ev));
    LeaveTickets(q, t, refused, time);
    assert Engines.Serve(e, ev) == Engines.Engine(places, Engines.Serve(e, ev).present, |q.tickets|);
  }

  lemma RestartFollows(q: Q.Queue, places: nat, times: nat -> Q.Time)
    requires Q.Inv(q) && Follows(q, places)
    ensures Follows(Q.Next(q, Q.Restart(times, 0)), places)
  {
    var present :| Engines.Follows(q, Engines.Engine(places, present, |q.tickets|));
    var e := Engines.Engine(places, present, |q.tickets|);
    Engines.RestartFollows(q, e, Q.Restart(times, places));
    RestartTickets(q, times);
    assert Q.Next(q, Q.Restart(times, places)) == Q.Next(q, Q.Restart(times, 0));
    assert Engines.Serve(e, Q.Restart(times, places)) == Engines.Engine(places, [], |q.tickets|);
  }

  lemma LastDayFollows(q: Q.Queue, places: nat, time: Q.Time)
    requires Q.Inv(q) && Follows(q, places)
    ensures var r := Q.Next(q, Q.LastDay(time)); Follows(r, places) && r.tickets == q.tickets && r.process == q.process
  {
    var present :| Engines.Follows(q, Engines.Engine(places, present, |q.tickets|));
    assert Engines.Follows(Q.Next(q, Q.LastDay(time)), Engines.Engine(places, present, |q.tickets|));
  }

  lemma EmptyFollows(places: nat)
    ensures Q.Inv(Q.EMPTY) && Follows(Q.EMPTY, places)
  {
    assert Engines.Follows(Q.EMPTY, Engines.Engine(places, [], 0));
  }

  lemma SomebodyInEngine(q: Q.Queue, e: Engines.Engine)
    requires Engines.Follows(q, e) && e.present != []
    ensures exists t: nat :: t < |q.tickets| && Engines.InEngine(q.tickets[t], q.process)
  {
    assert Engines.InEngine(q.tickets[e.present[0]], q.process);
  }

  /** With nobody in the engine its places may change. */
  lemma IdleFollows(q: Q.Queue, places: nat, other: nat)
    requires Follows(q, places)
    requires forall t: nat :: t < |q.tickets| ==> !Engines.InEngine(q.tickets[t], q.process)
    ensures Follows(q, other) && q.inFlight == 0 && q.line == []
  {
    var present :| Engines.Follows(q, Engines.Engine(places, present, |q.tickets|));
    if present != [] {
      SomebodyInEngine(q, Engines.Engine(places, present, |q.tickets|));
    }
    assert Engines.Follows(q, Engines.Engine(other, present, |q.tickets|));
  }

  // ----- the agent alone takes a step -----

  /** No request that holds a ticket leaves, and no ledger is to be restarted. */
  ghost predicate AgentOnly(s: State, e: D.Event, t: State) {
    && F.Does(s.agent, e, t.agent) && t.ledgers == s.ledgers && t.held == s.held
    && t.ledger == (if F.Forgets(s.agent, e) then s.ledger - {e.id} else s.ledger)
    && (F.Leaves(s.agent, e) ==> e.key !in s.held)
    && (F.Restarts(s.agent, e) ==> e.id !in s.ledger)
    && (F.Forgets(s.agent, e) ==> !F.Restarts(s.agent, e))
  }

  lemma OrphanHasNoLedger(s: State, e: D.Event)
    requires I.Inv(s.agent) && Named(s) && F.StopsOrphan(s.agent, e)
    ensures e.id !in s.ledger
  {
    F.JobFacts(s.agent, e.id);
  }

  lemma NamesStay(s: D.State, e: D.Event, t: D.State, id: D.Id)
    requires F.Does(s, e, t) && id in s.records && id in s.gate
    requires !((F.Forgets(s, e) || F.StopsOrphan(s, e)) && e.id == id)
    ensures id in t.records && id in t.gate && (t.records[id] == s.records[id] || F.Rewritten(s, t, id))
  {
  }

  lemma AgentNamed(s: State, e: D.Event, t: State)
    requires I.Inv(s.agent) && Named(s) && AgentOnly(s, e, t)
    ensures Named(t)
  {
    forall id | id in t.ledger ensures id in t.agent.records && id in t.agent.gate {
      AgentNamedAt(s, e, t, id);
    }
  }

  lemma AgentNamedAt(s: State, e: D.Event, t: State, id: D.Id)
    requires I.Inv(s.agent) && Named(s) && AgentOnly(s, e, t) && id in t.ledger
    ensures id in t.agent.records && id in t.agent.gate
    ensures t.agent.records[id] == s.agent.records[id] || F.Rewritten(s.agent, t.agent, id)
  {
    if F.StopsOrphan(s.agent, e) {
      OrphanHasNoLedger(s, e);
    }
    NamesStay(s.agent, e, t.agent, id);
  }

  /** The request stays where it is, unless its gate goes. */
  lemma BehindStays(s: D.State, e: D.Event, t: D.State, r: D.Request)
    requires F.Does(s, e, t) && r.gate < |s.gates|
    ensures F.IsBehind(r, t.gate) <==>
              F.IsBehind(r, s.gate) && !((F.Restarts(s, e) || F.Forgets(s, e) || F.StopsOrphan(s, e)) && r.id == e.id)
  {
  }

  lemma AgentPlacedAt(s: State, e: D.Event, t: State, k: nat)
    requires Ready(s) && Named(s) && AgentOnly(s, e, t) && k in s.held && PlacedAt(s, k)
    requires F.Flying(s.agent.requests)[k].gate < |s.agent.gates|
    requires F.StopsOrphan(s.agent, e) ==> e.id !in s.ledger
    ensures PlacedAt(t, k)
  {
    StillFlies(s, e, t, k);
    BehindStays(s.agent, e, t.agent, F.Flying(s.agent.requests)[k]);
  }

  lemma AgentPlaced(s: State, e: D.Event, t: State)
    requires I.Inv(s.agent) && Ready(s) && Named(s) && Placed(s) && AgentOnly(s, e, t)
    ensures Ready(t) && Placed(t)
  {
    if F.StopsOrphan(s.agent, e) {
      OrphanHasNoLedger(s, e);
    }
    forall k | k in t.held ensures PlacedAt(t, k) {
      assert PlacedAt(s, k);
      F.FlyingOk(s.agent, k);
      AgentPlacedAt(s, e, t, k);
    }
  }

  lemma StillFlies(s: State, e: D.Event, t: State, k: nat)
    requires AgentOnly(s, e, t) && k in s.held && k in F.Flying(s.agent.requests)
    ensures k in F.Flying(t.agent.requests) && F.Flying(t.agent.requests)[k] == F.Flying(s.agent.requests)[k]
  {
  }

  /** A ticket of the current process that has not left is held by a request behind
      the current gate. */
  lemma HolderIsBehind(s: State, id: D.Id, t: nat) returns (k: nat)
    requires Ready(s) && Lent(s) && Named(s) && Placed(s) && id in s.ledger
    requires var q := s.ledgers[s.ledger[id]]; t < |q.tickets| && Engines.InEngine(q.tickets[t], q.process)
    ensures k in s.held && s.held[k] == Held(s.ledger[id], t) && k in F.Flying(s.agent.requests)
    ensures F.Flying(s.agent.requests)[k].id == id && F.Flying(s.agent.requests)[k].gate == s.agent.gate[id]
  {
    k :| k in s.held && s.held[k] == Held(s.ledger[id], t);
    assert PlacedAt(s, k);
  }

  /** With nobody behind the gate nobody is in the engine. */
  lemma NobodyInEngine(s: State, id: D.Id)
    requires Ready(s) && Lent(s) && Named(s) && Placed(s) && id in s.ledger
    requires forall k :: k in F.Flying(s.agent.requests) ==>
               F.Flying(s.agent.requests)[k].gate != s.agent.gate[id]
    ensures var q := s.ledgers[s.ledger[id]];
            forall t: nat :: t < |q.tickets| ==> !Engines.InEngine(q.tickets[t], q.process)
  {
    var q := s.ledgers[s.ledger[id]];
    forall t: nat | t < |q.tickets| ensures !Engines.InEngine(q.tickets[t], q.process) {
      if Engines.InEngine(q.tickets[t], q.process) {
        var k := HolderIsBehind(s, id, t);
      }
    }
  }

  lemma AgentServed(p: Places, s: State, e: D.Event, t: State, id: D.Id)
    requires Inv(p, s) && AgentOnly(s, e, t) && Named(t) && id in t.ledger
    ensures Follows(t.ledgers[t.ledger[id]], p(t.agent.records[id]))
  {
    var q := s.ledgers[s.ledger[id]];
    assert Follows(q, p(s.agent.records[id]));
    AgentNamedAt(s, e, t, id);
    if t.agent.records[id] != s.agent.records[id] {
      NobodyInEngine(s, id);
      IdleFollows(q, p(s.agent.records[id]), p(t.agent.records[id]));
    }
  }

  lemma AgentAllServed(p: Places, s: State, e: D.Event, t: State)
    requires Inv(p, s) && AgentOnly(s, e, t) && Ready(t) && Named(t)
    ensures Served(p, t)
  {
    forall id | id in t.ledger ensures Follows(t.ledgers[t.ledger[id]], p(t.agent.records[id])) {
      AgentServed(p, s, e, t, id);
    }
  }

  lemma AgentKeeps(p: Places, s: State, e: D.Event, t: State)
    requires Inv(p, s) && AgentOnly(s, e, t) && AgentOk(t)
    ensures Inv(p, t)
  {
    AgentNamed(s, e, t);
    AgentPlaced(s, e, t);
    AgentAllServed(p, s, e, t);
  }

  // ----- a request takes a place or waits for one -----

  lemma OpenedKeeps(p: Places, s: State, id: D.Id)
    requires Inv(p, s) && id in s.agent.records && id in s.agent.gate
    ensures Inv(p, Opened(s, id)) && id in Opened(s, id).ledger
  {
    if id !in s.ledger {
      var t := Opened(s, id);
      OpenedReady(p, s, id, t);
      forall k | k in t.held ensures PlacedAt(t, k) {
        OpenedPlacedAt(s, id, t, k);
      }
      forall j | j in t.ledger ensures Follows(t.ledgers[t.ledger[j]], p(t.agent.records[j])) {
        if j == id {
          EmptyFollows(p(s.agent.records[id]));
        }
      }
    }
  }

  lemma OpenedReady(p: Places, s: State, id: D.Id, t: State)
    requires Ready(s) && Lent(s) && Named(s)
    requires id !in s.ledger && t == Opened(s, id) && id in s.agent.records && id in s.agent.gate
    ensures Ready(t) && Lent(t) && Named(t)
  {
    EmptyFollows(p(s.agent.records[id]));
    forall n: nat, u: nat | n < |t.ledgers| && u < |t.ledgers[n].tickets| && t.ledgers[n].tickets[u].fate.Here?
      ensures exists k :: k in t.held && t.held[k] == Held(n, u)
    {
      assert t.ledgers[n] == s.ledgers[n];
    }
  }

  lemma OpenedPlacedAt(s: State, id: D.Id, t: State, k: nat)
    requires Ready(s) && Ready(t) && k in s.held && PlacedAt(s, k)
    requires id !in s.ledger && t == Opened(s, id)
    ensures PlacedAt(t, k)
  {
    assert t.ledgers[s.held[k].ledger] == s.ledgers[s.held[k].ledger];
  }

  /** One ledger goes from q to r. */
  ghost predicate Ledgers(s: State, t: State, n: nat) {
    && n < |s.ledgers| == |t.ledgers| && t.agent == s.agent && t.ledger == s.ledger
    && forall m: nat :: m < |s.ledgers| && m != n ==> t.ledgers[m] == s.ledgers[m]
  }

  lemma LedgersServed(p: Places, s: State, t: State, id: D.Id)
    requires Inv(p, s) && id in s.ledger && Ledgers(s, t, s.ledger[id]) && Ready(t)
    requires Follows(t.ledgers[t.ledger[id]], p(s.agent.records[id]))
    ensures Named(t) && Served(p, t)
  {
    forall j | j in t.ledger ensures Follows(t.ledgers[t.ledger[j]], p(t.agent.records[j])) {
      assert Follows(s.ledgers[s.ledger[j]], p(s.agent.records[j]));
    }
  }

  /** The state in which request `key` has been given a ticket of ledger n. */
  ghost function Joined(s: State, key: nat, n: nat, places: nat, time: Q.Time): State
    requires Ready(s) && n < |s.ledgers|
  {
    Play(s, n, Q.Arrive(places, time)).(held := s.held[key := Held(n, |s.ledgers[n].tickets|)])
  }

  lemma JoinReady(s: State, key: nat, n: nat, places: nat, time: Q.Time, t: State)
    requires Ready(s) && n < |s.ledgers| && key !in s.held && t == Joined(s, key, n, places, time)
    ensures Ready(t) && Ledgers(s, t, n)
    ensures t.held == s.held[key := Held(n, |s.ledgers[n].tickets|)]
    ensures t.ledgers[n] == Q.Next(s.ledgers[n], Q.Arrive(places, time))
  {
    Q.NextKeeps(s.ledgers[n], Q.Arrive(places, time));
    ArriveTickets(s.ledgers[n], places, time);
  }

  /** Who holds a ticket of before is placed as before. */
  lemma JoinPlacedAt(s: State, n: nat, places: nat, time: Q.Time, t: State, k: nat)
    requires Ready(s) && Ready(t) && Ledgers(s, t, n) && k in s.held && PlacedAt(s, k)
    requires k in t.held && t.held[k] == s.held[k]
    requires t.ledgers[n] == Q.Next(s.ledgers[n], Q.Arrive(places, time))
    ensures PlacedAt(t, k)
  {
    ArriveTickets(s.ledgers[n], places, time);
  }

  /** Who holds the new ticket is behind the current gate. */
  lemma JoinerPlaced(s: State, key: nat, n: nat, places: nat, time: Q.Time, t: State)
    requires Ready(s) && Named(s) && Ready(t) && Ledgers(s, t, n) && key in F.Flying(s.agent.requests)
    requires var r := F.Flying(s.agent.requests)[key];
             Lookup(s.ledger, r.id) == Some(n) && F.IsBehind(r, s.agent.gate)
    requires t.held == s.held[key := Held(n, |s.ledgers[n].tickets|)]
    requires t.ledgers[n] == Q.Next(s.ledgers[n], Q.Arrive(places, time))
    ensures PlacedAt(t, key)
  {
    ArriveTickets(s.ledgers[n], places, time);
  }

  lemma JoinPlaced(s: State, key: nat, n: nat, places: nat, time: Q.Time, t: State)
    requires Ready(s) && Named(s) && Placed(s) && n < |s.ledgers| && key !in s.held
    requires key in F.Flying(s.agent.requests) && t == Joined(s, key, n, places, time)
    requires var r := F.Flying(s.agent.requests)[key];
             Lookup(s.ledger, r.id) == Some(n) && F.IsBehind(r, s.agent.gate)
    ensures Ready(t) && Placed(t)
  {
    JoinReady(s, key, n, places, time, t);
    forall k | k in t.held ensures PlacedAt(t, k) {
      if k == key {
        JoinerPlaced(s, key, n, places, time, t);
      } else {
        JoinPlacedAt(s, n, places, time, t, k);
      }
    }
  }

  lemma JoinServed(p: Places, s: State, key: nat, id: D.Id, time: Q.Time, t: State)
    requires Inv(p, s) && id in s.ledger && key !in s.held
    requires t == Joined(s, key, s.ledger[id], p(s.agent.records[id]), time)
    ensures Ready(t) && Lent(t) && Named(t) && Served(p, t)
  {
    var n, places := s.ledger[id], p(s.agent.records[id]);
    JoinReady(s, key, n, places, time, t);
    ArriveTickets(s.ledgers[n], places, time);
    ArriveFollows(s.ledgers[n], places, time);
    LedgersServed(p, s, t, id);
    JoinLent(s, key, n, t);
  }

  /** A request that has entered behind the current gate joins its ledger. */
  lemma JoinKeeps(p: Places, s: State, key: nat, id: D.Id, time: Q.Time, t: State)
    requires Inv(p, s) && id in s.ledger && key !in s.held && key in F.Flying(s.agent.requests)
    requires var r := F.Flying(s.agent.requests)[key]; r.id == id && F.IsBehind(r, s.agent.gate)
    requires t == Joined(s, key, s.ledger[id], p(s.agent.records[id]), time)
    ensures Inv(p, t)
  {
    JoinServed(p, s, key, id, time, t);
    JoinPlaced(s, key, s.ledger[id], p(s.agent.records[id]), time, t);
    assert t.agent == s.agent;
  }

  /** One ticket more, and who holds it. */
  lemma JoinLent(s: State, key: nat, n: nat, t: State)
    requires Ready(s) && Lent(s) && key !in s.held && n < |s.ledgers| == |t.ledgers|
    requires t.held == s.held[key := Held(n, |s.ledgers[n].tickets|)]
    requires forall m: nat :: m < |s.ledgers| && m != n ==> t.ledgers[m] == s.ledgers[m]
    requires |t.ledgers[n].tickets| == |s.ledgers[n].tickets| + 1
    requires forall u: nat :: u < |s.ledgers[n].tickets| ==> t.ledgers[n].tickets[u] == s.ledgers[n].tickets[u]
    ensures Lent(t)
  {
    forall m: nat, u: nat | m < |t.ledgers| && u < |t.ledgers[m].tickets| && t.ledgers[m].tickets[u].fate.Here?
      ensures exists k :: k in t.held && t.held[k] == Held(m, u)
    {
      if m == n && u == |s.ledgers[n].tickets| {
        assert t.held[key] == Held(m, u);
      } else {
        var k :| k in s.held && s.held[k] == Held(m, u);
        assert t.held[k] == Held(m, u);
      }
    }
  }

  lemma TakeKeeps(p: Places, s: State, key: nat, time: Q.Time)
    requires Inv(p, s) && key !in s.held && key in F.Flying(s.agent.requests)
    requires var r := F.Flying(s.agent.requests)[key];
             F.IsBehind(r, s.agent.gate) && Lookup(s.agent.records, r.id) == Some(r.record)
    ensures var r := F.Flying(s.agent.requests)[key]; Inv(p, Take(s, key, r.id, p(r.record), time))
  {
    var r := F.Flying(s.agent.requests)[key];
    OpenedKeeps(p, s, r.id);
    JoinKeeps(p, Opened(s, r.id), key, r.id, time, Take(s, key, r.id, p(r.record), time));
  }

  // ----- a request gives its place back -----

  lemma GiveBackReady(s: State, key: nat, refused: bool, time: Q.Time, t: State)
    requires Ready(s) && Lent(s) && key in s.held && t == GiveBack(s, key, refused, time)
    ensures Ready(t) && Ledgers(s, t, s.held[key].ledger) && t.held == s.held - {key}
  {
    var h := s.held[key];
    Q.NextKeeps(s.ledgers[h.ledger], Q.Leave(h.ticket, refused, time));
    LeaveTickets(s.ledgers[h.ledger], h.ticket, refused, time);
  }

  lemma GiveBackLent(s: State, key: nat, refused: bool, time: Q.Time, t: State)
    requires Ready(s) && Lent(s) && key in s.held && t == GiveBack(s, key, refused, time)
    ensures Lent(t)
  {
    var h := s.held[key];
    LeaveTickets(s.ledgers[h.ledger], h.ticket, refused, time);
    forall n: nat, u: nat | n < |t.ledgers| && u < |t.ledgers[n].tickets| && t.ledgers[n].tickets[u].fate.Here?
      ensures exists k :: k in t.held && t.held[k] == Held(n, u)
    {
      var k :| k in s.held && s.held[k] == Held(n, u);
      assert k != key && t.held[k] == Held(n, u);
    }
  }

  lemma GiveBackPlacedAt(s: State, key: nat, refused: bool, time: Q.Time, t: State, k: nat)
    requires Ready(s) && Ready(t) && key in s.held && t == GiveBack(s, key, refused, time)
    requires k in t.held && k in s.held && PlacedAt(s, k)
    ensures PlacedAt(t, k)
  {
    var h := s.held[key];
    LeaveTickets(s.ledgers[h.ledger], h.ticket, refused, time);
  }

  lemma GiveBackFollows(p: Places, s: State, key: nat, refused: bool, time: Q.Time, t: State, id: D.Id)
    requires Ready(s) && Named(s) && Served(p, s) && key in s.held && t == GiveBack(s, key, refused, time)
    requires id in s.ledger
    ensures Follows(t.ledgers[s.ledger[id]], p(s.agent.records[id]))
  {
    var h := s.held[key];
    assert Follows(s.ledgers[s.ledger[id]], p(s.agent.records[id]));
    if s.ledger[id] == h.ledger {
      LeaveFollows(s.ledgers[h.ledger], p(s.agent.records[id]), h.ticket, refused, time);
    }
  }

  lemma GiveBackKeeps(p: Places, s: State, key: nat, refused: bool, time: Q.Time, t: State)
    requires Inv(p, s) && key in s.held && t == GiveBack(s, key, refused, time)
    ensures Inv(p, t)
  {
    GiveBackReady(s, key, refused, time, t);
    GiveBackLent(s, key, refused, time, t);
    forall k | k in t.held ensures PlacedAt(t, k) {
      GiveBackPlacedAt(s, key, refused, time, t, k);
    }
    forall id | id in t.ledger ensures Follows(t.ledgers[t.ledger[id]], p(t.agent.records[id])) {
      GiveBackFollows(p, s, key, refused, time, t, id);
    }
    assert t.agent == s.agent;
  }

  // ----- a new process, and the tally -----

  /** The same tickets have left, and they are of the same processes. */
  ghost predicate SameHolders(q: Q.Queue, r: Q.Queue) {
    && |r.tickets| == |q.tickets|
    && forall u: nat :: u < |q.tickets| ==>
         r.tickets[u].fate == q.tickets[u].fate && r.tickets[u].process == q.tickets[u].process
  }

  /** The ledger n keeps its tickets, as far as who holds them goes. */
  ghost predicate SameTickets(s: State, t: State, n: nat) {
    && n < |s.ledgers| == |t.ledgers| && t.held == s.held && t.ledger == s.ledger
    && (forall m: nat :: m < |s.ledgers| && m != n ==> t.ledgers[m] == s.ledgers[m])
    && Q.Inv(t.ledgers[n]) && SameHolders(s.ledgers[n], t.ledgers[n])
  }

  lemma SameReady(s: State, t: State, n: nat)
    requires Ready(s) && Lent(s) && SameTickets(s, t, n)
    ensures Ready(t) && Lent(t)
  {
    forall m: nat, u: nat | m < |t.ledgers| && u < |t.ledgers[m].tickets| && t.ledgers[m].tickets[u].fate.Here?
      ensures exists k :: k in t.held && t.held[k] == Held(m, u)
    {
      assert s.ledgers[m].tickets[u].fate.Here?;
    }
  }

  /** Neither does it change what process is the current one. */
  lemma SamePlaced(s: State, t: State, n: nat)
    requires Ready(s) && Lent(s) && Placed(s) && SameTickets(s, t, n)
    requires t.agent == s.agent && t.ledgers[n].process == s.ledgers[n].process
    ensures Ready(t) && Placed(t)
  {
    SameReady(s, t, n);
    forall k | k in t.held ensures PlacedAt(t, k) {
      assert PlacedAt(s, k);
    }
  }

  lemma ObservedTickets(s: State, n: nat, places: nat, time: Q.Time, t: State)
    requires Ready(s) && n < |s.ledgers| && Follows(s.ledgers[n], places) && t == Play(s, n, Q.LastDay(time))
    ensures SameTickets(s, t, n) && Ledgers(s, t, n) && t.ledgers[n].process == s.ledgers[n].process
    ensures Follows(t.ledgers[n], places)
  {
    Q.NextKeeps(s.ledgers[n], Q.LastDay(time));
    LastDayFollows(s.ledgers[n], places, time);
  }

  lemma ObserveKeeps(p: Places, s: State, id: D.Id, time: Q.Time, t: State)
    requires Inv(p, s) && id in s.ledger && t == Play(s, s.ledger[id], Q.LastDay(time))
    ensures Inv(p, t)
  {
    assert Follows(s.ledgers[s.ledger[id]], p(s.agent.records[id]));
    ObservedTickets(s, s.ledger[id], p(s.agent.records[id]), time, t);
    ObserveSame(p, s, id, t);
  }

  lemma ObserveSame(p: Places, s: State, id: D.Id, t: State)
    requires Inv(p, s) && id in s.ledger && Ledgers(s, t, s.ledger[id]) && SameTickets(s, t, s.ledger[id])
    requires t.ledgers[s.ledger[id]].process == s.ledgers[s.ledger[id]].process
    requires Follows(t.ledgers[t.ledger[id]], p(s.agent.records[id]))
    ensures Inv(p, t)
  {
    SameReady(s, t, s.ledger[id]);
    SamePlaced(s, t, s.ledger[id]);
    LedgersServed(p, s, t, id);
    assert t.agent == s.agent;
  }

  /** The tickets of the ledger n are all of processes before its current one. */
  ghost predicate Past(q: Q.Queue) {
    forall u: nat :: u < |q.tickets| ==> q.tickets[u].process < q.process
  }

  lemma RestartPlacedAt(s: State, id: D.Id, t: State, k: nat)
    requires Ready(s) && Ready(t) && Named(s) && id in s.ledger && SameTickets(s, t, s.ledger[id])
    requires Past(t.ledgers[s.ledger[id]]) && F.Remade(s.agent, t.agent, id)
    requires k in s.held && PlacedAt(s, k) && F.Flying(s.agent.requests)[k].gate < |s.agent.gates|
    ensures PlacedAt(t, k)
  {
  }

  lemma RestartPlaced(s: State, id: D.Id, t: State)
    requires I.Inv(s.agent) && Ready(s) && Named(s) && Lent(s) && Placed(s)
    requires id in s.ledger && SameTickets(s, t, s.ledger[id])
    requires Past(t.ledgers[s.ledger[id]]) && F.Remade(s.agent, t.agent, id)
    ensures Ready(t) && Lent(t) && Named(t) && Placed(t)
  {
    SameReady(s, t, s.ledger[id]);
    forall k | k in t.held ensures PlacedAt(t, k) {
      assert PlacedAt(s, k);
      F.FlyingOk(s.agent, k);
      RestartPlacedAt(s, id, t, k);
    }
  }

  lemma RestartServed(p: Places, s: State, id: D.Id, t: State)
    requires Ready(s) && Named(s) && Served(p, s) && Ready(t) && Named(t)
    requires id in s.ledger && SameTickets(s, t, s.ledger[id]) && t.agent.records == s.agent.records
    requires Follows(t.ledgers[s.ledger[id]], p(s.agent.records[id]))
    ensures Served(p, t)
  {
    forall j | j in t.ledger ensures Follows(t.ledgers[t.ledger[j]], p(t.agent.records[j])) {
      assert Follows(s.ledgers[s.ledger[j]], p(s.agent.records[j]));
    }
  }

  lemma RestartedQueue(q: Q.Queue, places: nat, times: nat -> Q.Time, r: Q.Queue)
    requires Q.Inv(q) && Follows(q, places) && r == Q.Next(q, Q.Restart(times, 0))
    ensures Q.Inv(r) && SameHolders(q, r) && Past(r) && Follows(r, places)
  {
    Q.NextKeeps(q, Q.Restart(times, 0));
    RestartTickets(q, times);
    RestartFollows(q, places, times);
  }

  lemma RestartedTickets(s: State, n: nat, places: nat, times: nat -> Q.Time, t: State)
    requires Ready(s) && n < |s.ledgers| && Follows(s.ledgers[n], places)
    requires t == Play(s, n, Q.Restart(times, 0)).(agent := t.agent)
    ensures SameTickets(s, t, n) && Past(t.ledgers[n]) && Follows(t.ledgers[n], places)
  {
    RestartedQueue(s.ledgers[n], places, times, t.ledgers[n]);
  }

  lemma RestartKeeps(p: Places, s: State, id: D.Id, times: nat -> Q.Time, t: State)
    requires Inv(p, s) && id in s.ledger && F.Remade(s.agent, t.agent, id) && AgentOk(t)
    requires t == Play(s.(agent := t.agent), s.ledger[id], Q.Restart(times, 0))
    ensures Inv(p, t)
  {
    assert Follows(s.ledgers[s.ledger[id]], p(s.agent.records[id]));
    RestartedTickets(s, s.ledger[id], p(s.agent.records[id]), times, t);
    RestartSame(p, s, id, t);
  }

  lemma RestartSame(p: Places, s: State, id: D.Id, t: State)
    requires Inv(p, s) && id in s.ledger && F.Remade(s.agent, t.agent, id) && AgentOk(t)
    requires SameTickets(s, t, s.ledger[id]) && Past(t.ledgers[s.ledger[id]])
    requires Follows(t.ledgers[s.ledger[id]], p(s.agent.records[id]))
    ensures Inv(p, t)
  {
    RestartPlaced(s, id, t);
    RestartServed(p, s, id, t);
  }

  // ----- every step, and every run -----

  lemma AgentOkNext(s: State, e: D.Event, t: State)
    requires AgentOk(s) && t.agent == D.Next(s.agent, e)
    ensures AgentOk(t) && F.Does(s.agent, e, t.agent)
  {
    Deployments.NextIsValid(s.agent, e);
    F.NextSentForRecord(s.agent, e, t.agent);
    F.NextDoes(s.agent, e);
  }

  /** The agent's step, with its ledgers left alone but for one that is forgotten. */
  function Aside(s: State, e: D.Event): State {
    s.(agent := D.Next(s.agent, e), ledger := if F.Forgets(s.agent, e) then s.ledger - {e.id} else s.ledger)
  }

  lemma AsideIsAgents(s: State, e: D.Event, t: State)
    requires F.Does(s.agent, e, D.Next(s.agent, e)) && t == Aside(s, e)
    requires F.Leaves(s.agent, e) ==> e.key !in s.held
    requires F.Restarts(s.agent, e) ==> e.id !in s.ledger
    ensures AgentOnly(s, e, t)
  {
  }

  lemma AsideKeeps(p: Places, s: State, e: D.Event, t: State)
    requires Inv(p, s) && t == Aside(s, e)
    requires F.Leaves(s.agent, e) ==> e.key !in s.held
    requires F.Restarts(s.agent, e) ==> e.id !in s.ledger
    ensures Inv(p, t)
  {
    AgentOkNext(s, e, t);
    AsideIsAgents(s, e, t);
    AgentKeeps(p, s, e, t);
  }

  lemma EnterIsAside(s: State, e: D.Event)
    requires F.Enters(s.agent, e) || F.Leaves(s.agent, e)
    ensures Aside(s, e) == s.(agent := D.Next(s.agent, e))
  {
  }

  lemma EnterKeeps(p: Places, s: State, e: D.Event, time: Q.Time, u: State)
    requires Inv(p, s) && F.Enters(s.agent, e) && u == s.(agent := D.Next(s.agent, e))
    ensures Inv(p, u) && Inv(p, Take(u, e.key, s.agent.requests[e.key].id, p(s.agent.requests[e.key].record), time))
  {
    EnterIsAside(s, e);
    AsideKeeps(p, s, e, u);
    EnteredIsFlying(s.agent, e, u.agent);
    HoldersFly(s);
    TakeKeeps(p, u, e.key, time);
  }

  lemma HoldersFly(s: State)
    requires Ready(s) && Placed(s)
    ensures forall k :: k in s.held ==> k in F.Flying(s.agent.requests)
  {
    forall k | k in s.held ensures k in F.Flying(s.agent.requests) {
      assert PlacedAt(s, k);
    }
  }

  lemma EnteredIsFlying(s: D.State, e: D.Event, t: D.State)
    requires I.Inv(s) && F.Enters(s, e) && t == D.Next(s, e)
    ensures e.key !in F.Flying(s.requests) && e.key in F.Flying(t.requests)
    ensures var r := F.Flying(t.requests)[e.key];
            && r.id == s.requests[e.key].id && r.record == s.requests[e.key].record
            && F.IsBehind(r, t.gate) && Lookup(t.records, r.id) == Some(r.record)
  {
    F.SendEffect(s, e.key);
  }

  lemma LeaveIsAside(s: State, u: State, e: D.Event, refused: bool, time: Q.Time)
    requires Ready(s) && F.Leaves(s.agent, e) && e.key in s.held && u == GiveBack(s, e.key, refused, time)
    ensures F.Leaves(u.agent, e) && e.key !in u.held
    ensures Aside(u, e) == GiveBack(s.(agent := D.Next(s.agent, e)), e.key, refused, time)
  {
    EnterIsAside(u, e);
  }

  lemma LeaveKeeps(p: Places, s: State, e: D.Event, refused: bool, time: Q.Time, u: State, t: State)
    requires Inv(p, s) && F.Leaves(s.agent, e) && e.key in s.held && u == GiveBack(s, e.key, refused, time)
    requires t == GiveBack(s.(agent := D.Next(s.agent, e)), e.key, refused, time)
    ensures Inv(p, t)
  {
    GiveBackKeeps(p, s, e.key, refused, time, u);
    LeaveIsAside(s, u, e, refused, time);
    AsideKeeps(p, u, e, t);
  }

  /** No ledger is called, but to be forgotten. */
  lemma MovedIsAside(p: Places, s: State, e: D.Event, answers: bool, refused: bool, times: nat -> Q.Time)
    requires Ready(s)
    requires !F.Enters(s.agent, e) && (F.Leaves(s.agent, e) ==> e.key !in s.held)
    requires F.Restarts(s.agent, e) ==> e.id !in s.ledger
    ensures Moved(p, s, e, answers, refused, times) == Aside(s, e)
  {
    assert F.Restarts(s.agent, e) ==> !F.Forgets(s.agent, e);
  }

  lemma MovedRestarts(p: Places, s: State, e: D.Event, answers: bool, refused: bool, times: nat -> Q.Time, t: State)
    requires Inv(p, s) && F.Restarts(s.agent, e) && e.id in s.ledger
    requires t == Moved(p, s, e, answers, refused, times)
    ensures Inv(p, t)
  {
    AgentOkNext(s, e, t);
    RestartKeeps(p, s, e.id, times, t);
  }

  lemma MovedKeeps(p: Places, s: State, e: D.Event, answers: bool, refused: bool, times: nat -> Q.Time, t: State)
    requires Inv(p, s) && t == Moved(p, s, e, answers, refused, times)
    ensures Inv(p, t)
  {
    if F.Enters(s.agent, e) {
      EnterKeeps(p, s, e, times(0), s.(agent := D.Next(s.agent, e)));
    } else if F.Leaves(s.agent, e) && e.key in s.held {
      LeaveKeeps(p, s, e, refused, times(0), GiveBack(s, e.key, refused, times(0)), t);
    } else if F.Restarts(s.agent, e) && e.id in s.ledger {
      MovedRestarts(p, s, e, answers, refused, times, t);
    } else {
      MovedIsAside(p, s, e, answers, refused, times);
      AsideKeeps(p, s, e, t);
    }
  }

  lemma NextKeeps(p: Places, s: State, e: Event)
    requires Inv(p, s)
    ensures Inv(p, Next(p, s, e))
  {
    match e
    case Observes(id, time) =>
      if id in s.ledger {
        ObserveKeeps(p, s, id, time, Next(p, s, e));
      }
    case Moves(d, answers, refused, times) => MovedKeeps(p, s, d, answers, refused, times, Next(p, s, e));
  }

  /** A run goes on while every ticket and ledger can take its next step: always, from
      the start (`RunKeeps`).  So that each request's ticket leaves once, and that a
      process's requests meet an engine with as many places, is not assumed: it is what
      the agent does. */
  ghost function Run(p: Places, s: State, events: seq<Event>): State
    decreases |events|
  {
    if events == [] || !Ready(s) then s else Run(p, Next(p, s, events[0]), events[1..])
  }

  lemma {:induction false} RunKeeps(p: Places, s: State, events: seq<Event>)
    requires Inv(p, s)
    ensures Inv(p, Run(p, s, events))
    decreases |events|
  {
    if events != [] {
      NextKeeps(p, s, events[0]);
      RunKeeps(p, Next(p, s, events[0]), events[1..]);
    }
  }

  lemma InitKeeps(p: Places, s: State)
    requires Init(s)
    ensures Inv(p, s)
  {
    Deployments.InitKeeps(s.agent);
  }

  ghost function Reached(p: Places, s: State, events: seq<Event>): (t: State)
    requires Init(s)
    ensures Inv(p, t)
  {
    InitKeeps(p, s);
    RunKeeps(p, s, events);
    Run(p, s, events)
  }

  // ----- what a ledger tells of the gate -----

  /** The requests behind a deployment's current gate that hold a ticket. */
  ghost function Ticketed(s: State, id: D.Id): set<nat> {
    set k | k in s.held && k in F.Flying(s.agent.requests) && F.Flying(s.agent.requests)[k].id == id
            && F.IsBehind(F.Flying(s.agent.requests)[k], s.agent.gate)
  }

  /** Those that came before ticket t. */
  ghost function Earlier(s: State, id: D.Id, t: nat): set<nat> {
    set k | k in Ticketed(s, id) && s.held[k].ticket < t
  }

  ghost predicate HasTicket(keys: set<nat>, held: map<nat, Held>, t: nat)
    requires forall k :: k in keys ==> k in held
  {
    exists k :: k in keys && held[k].ticket == t
  }

  /** As many keys as there are tickets, if each has one of its own and all are had. */
  lemma {:induction false} OneEach(present: seq<nat>, i: nat, keys: set<nat>, held: map<nat, Held>)
    requires i <= |present| && Q.Before(present) && forall k :: k in keys ==> k in held
    requires forall j, k :: j in keys && k in keys && held[j].ticket == held[k].ticket ==> j == k
    requires forall k :: k in keys ==> held[k].ticket in present[..i]
    requires forall j :: 0 <= j < i ==> HasTicket(keys, held, present[j])
    ensures |keys| == i
  {
    if i == 0 {
      assert keys == {};
    } else {
      assert HasTicket(keys, held, present[i - 1]);
      var k :| k in keys && held[k].ticket == present[i - 1];
      forall j | j in keys - {k} ensures held[j].ticket in present[..i - 1] {
        assert held[j].ticket in present[..i] && present[..i] == present[..i - 1] + [present[i - 1]];
      }
      forall j | 0 <= j < i - 1 ensures HasTicket(keys - {k}, held, present[j]) {
        assert HasTicket(keys, held, present[j]);
        var l :| l in keys && held[l].ticket == present[j];
        assert present[j] < present[i - 1];
      }
      OneEach(present, i - 1, keys - {k}, held);
    }
  }

  /** A request behind the gate holds a ticket that is in the engine. */
  lemma TicketIsPresent(s: State, id: D.Id, e: Engines.Engine, k: nat)
    requires Ready(s) && Placed(s) && Named(s) && id in s.ledger && k in Ticketed(s, id)
    requires Engines.Follows(s.ledgers[s.ledger[id]], e)
    ensures s.held[k].ledger == s.ledger[id] && s.held[k].ticket in e.present
  {
    assert PlacedAt(s, k);
  }

  /** The first i tickets in the engine are held by the first i requests. */
  lemma EarlierCount(s: State, id: D.Id, e: Engines.Engine, i: nat, keys: set<nat>)
    requires Ready(s) && Lent(s) && Named(s) && Placed(s) && id in s.ledger
    requires Engines.Follows(s.ledgers[s.ledger[id]], e) && i <= |e.present|
    requires forall k :: k in keys <==> k in Ticketed(s, id) && s.held[k].ticket in e.present[..i]
    ensures |keys| == i
  {
    forall j | 0 <= j < i ensures HasTicket(keys, s.held, e.present[j]) {
      var k := HolderIsBehind(s, id, e.present[j]);
      assert s.held[k].ticket == e.present[..i][j];
    }
    forall j, k | j in keys && k in keys && s.held[j].ticket == s.held[k].ticket ensures j == k {
      TicketIsPresent(s, id, e, j);
      TicketIsPresent(s, id, e, k);
    }
    OneEach(e.present, i, keys, s.held);
  }

  lemma TicketedCount(s: State, id: D.Id, e: Engines.Engine)
    requires Ready(s) && Lent(s) && Named(s) && Placed(s) && id in s.ledger
    requires Engines.Follows(s.ledgers[s.ledger[id]], e)
    ensures |Ticketed(s, id)| == |e.present|
  {
    assert e.present[..|e.present|] == e.present;
    forall k | k in Ticketed(s, id) ensures s.held[k].ticket in e.present {
      TicketIsPresent(s, id, e, k);
    }
    EarlierCount(s, id, e, |e.present|, Ticketed(s, id));
  }

  /** In every run of the agent, whatever its transitions, requests and failures do:
      a deployment's ledger counts exactly the requests that hold a ticket behind the
      deployment's current gate, and as many of them wait as there are beyond the
      committed record's places. */
  lemma LedgerCountsItsGate(p: Places, s: State, events: seq<Event>, id: D.Id)
    requires Init(s) && id in Reached(p, s, events).ledger
    ensures var t := Reached(p, s, events);
            var q := t.ledgers[t.ledger[id]];
            && id in t.agent.records && id in t.agent.gate
            && q.inFlight == |Ticketed(t, id)|
            && Ticketed(t, id) <= I.Behind(t.agent.requests, t.agent.gate[id])
            && |q.line| == Max(0, q.inFlight - p(t.agent.records[id]))
  {
    var t := Reached(p, s, events);
    var q, places := t.ledgers[t.ledger[id]], p(t.agent.records[id]);
    assert Follows(q, places);
    var present :| Engines.Follows(q, Engines.Engine(places, present, |q.tickets|));
    TicketedCount(t, id, Engines.Engine(places, present, |q.tickets|));
  }

  /** And which of them wait: those before which as many came, and are still there, as
      their record has places. */
  lemma WaitsExactlyWhen(p: Places, s: State, events: seq<Event>, id: D.Id, k: nat)
    requires Init(s) && k in Ticketed(Reached(p, s, events), id)
    ensures var t := Reached(p, s, events);
            var h := t.held[k];
            && h.ledger < |t.ledgers| && h.ticket < |t.ledgers[h.ledger].tickets|
            && (t.ledgers[h.ledger].tickets[h.ticket].waiting <==>
                |Earlier(t, id, h.ticket)| >= p(t.agent.requests[k].record))
  {
    var t := Reached(p, s, events);
    assert PlacedAt(t, k);
    var q, places := t.ledgers[t.ledger[id]], p(t.agent.records[id]);
    assert Follows(q, places);
    var present :| Engines.Follows(q, Engines.Engine(places, present, |q.tickets|));
    WaitsAt(t, id, k, Engines.Engine(places, present, |q.tickets|));
  }

  lemma WaitsAt(s: State, id: D.Id, k: nat, e: Engines.Engine)
    requires Ready(s) && Lent(s) && Named(s) && Placed(s) && id in s.ledger && k in Ticketed(s, id)
    requires Engines.Follows(s.ledgers[s.ledger[id]], e)
    ensures s.held[k].ledger == s.ledger[id]
    ensures s.ledgers[s.held[k].ledger].tickets[s.held[k].ticket].waiting <==>
              |Earlier(s, id, s.held[k].ticket)| >= e.places
  {
    TicketIsPresent(s, id, e, k);
    var i: nat :| i < |e.present| && e.present[i] == s.held[k].ticket;
    Engines.LineSplits(e, i);
    forall j ensures j in Earlier(s, id, s.held[k].ticket) <==>
                       j in Ticketed(s, id) && s.held[j].ticket in e.present[..i]
    {
      if j in Ticketed(s, id) {
        TicketIsPresent(s, id, e, j);
        BeforeAt(e.present, i, s.held[j].ticket);
      }
    }
    EarlierCount(s, id, e, i, Earlier(s, id, s.held[k].ticket));
  }

  lemma BeforeAt(line: seq<nat>, i: nat, t: nat)
    requires Q.Before(line) && i < |line| && t in line
    ensures t in line[..i] <==> t < line[i]
  {
    var j: nat :| j < |line| && line[j] == t;
    if j < i {
      assert line[..i][j] == t;
    }
  }

  /** A gate found empty has an empty line: the new process that follows a drain that
      was not cut short ends nobody's wait. */
  lemma EmptyGateEmptyLine(p: Places, s: State, events: seq<Event>, id: D.Id)
    requires Init(s) && id in Reached(p, s, events).ledger
    requires var t := Reached(p, s, events);
             Lookup(t.agent.gate, id).Some? && t.agent.gate[id] < |t.agent.gates|
             && t.agent.gates[t.agent.gate[id]].requests == 0
    ensures var t := Reached(p, s, events);
            t.ledgers[t.ledger[id]].inFlight == 0 && t.ledgers[t.ledger[id]].line == []
  {
    var t := Reached(p, s, events);
    LedgerCountsItsGate(p, s, events, id);
    assert |I.Behind(t.agent.requests, t.agent.gate[id])| == 0;
    assert Ticketed(t, id) == {};
  }

  // ----- who has a ticket -----

  /** In every run, a request that enters takes a ticket if and only if its path takes a
      place and its record's places are known; the ticket is the ledger's next, it is of
      the current process, and it is the request's own. */
  lemma TakesATicketExactlyWhen(p: Places, s: State, events: seq<Event>, e: D.Event, answers: bool, refused: bool,
      times: nat -> Q.Time)
    requires Init(s) && F.Enters(Reached(p, s, events).agent, e)
    ensures var t := Reached(p, s, events);
            var u, r := Next(p, t, Moves(e, answers, refused, times)), t.agent.requests[e.key];
            && (e.key in u.held <==> answers && p(r.record) > 0)
            && (e.key in u.held ==>
                  && HeldOk(u.ledgers, u.held[e.key]) && Current(u, u.held[e.key], r.id)
                  && u.ledgers[u.held[e.key].ledger].tickets[u.held[e.key].ticket].arrived == times(0).clock)
            && u.held - {e.key} == t.held
  {
    var t := Reached(p, s, events);
    HoldersFly(t);
    EnteredIsFlying(t.agent, e, D.Next(t.agent, e));
    EntersWithTicket(p, t, e, answers, refused, times);
  }

  lemma EntersWithTicket(p: Places, t: State, e: D.Event, answers: bool, refused: bool, times: nat -> Q.Time)
    requires Ready(t) && F.Enters(t.agent, e) && e.key !in t.held
    ensures var u, r := Moved(p, t, e, answers, refused, times), t.agent.requests[e.key];
            && (e.key in u.held <==> answers && p(r.record) > 0)
            && (e.key in u.held ==>
                  && HeldOk(u.ledgers, u.held[e.key]) && Current(u, u.held[e.key], r.id)
                  && u.ledgers[u.held[e.key].ledger].tickets[u.held[e.key].ticket].arrived == times(0).clock)
            && u.held - {e.key} == t.held
  {
    var r, w := t.agent.requests[e.key], t.(agent := D.Next(t.agent, e));
    if answers && p(r.record) > 0 {
      assert Moved(p, t, e, answers, refused, times) == Take(w, e.key, r.id, p(r.record), times(0));
      TakenTicket(w, e.key, r.id, p(r.record), times(0));
    } else {
      assert Moved(p, t, e, answers, refused, times) == w;
    }
  }

  lemma TakenTicket(w: State, key: nat, id: D.Id, places: nat, time: Q.Time)
    requires Ready(w) && key !in w.held
    ensures var u := Take(w, key, id, places, time);
            && key in u.held && HeldOk(u.ledgers, u.held[key]) && Current(u, u.held[key], id)
            && u.ledgers[u.held[key].ledger].tickets[u.held[key].ticket].arrived == time.clock
            && u.held - {key} == w.held
  {
    EmptyFollows(0);
    var o := Opened(w, id);
    ArriveTickets(o.ledgers[o.ledger[id]], places, time);
  }

  /** The request is done with. */
  predicate IsLeaving(e: Event, key: nat) {
    e.Moves? && e.agent.Leave? && e.agent.key == key
  }

  lemma GivesBackOne(s: State, key: nat, refused: bool, time: Q.Time, agent: D.State)
    requires Ready(s) && key in s.held
    ensures GiveBack(s.(agent := agent), key, refused, time).held == s.held - {key}
  {
  }

  lemma TakesOne(s: State, key: nat, id: D.Id, places: nat, time: Q.Time, agent: D.State)
    requires Ready(s)
    ensures var t := Take(s.(agent := agent), key, id, places, time);
            key in t.held && t.held == s.held[key := t.held[key]]
  {
  }

  /** A step changes what one request holds: that of the one that enters or leaves. */
  lemma MovedHolds(p: Places, s: State, e: D.Event, answers: bool, refused: bool, times: nat -> Q.Time, key: nat)
    requires Ready(s) && key in s.held
    requires F.Enters(s.agent, e) ==> e.key != key
    requires F.Leaves(s.agent, e) ==> e.key != key
    ensures var t := Moved(p, s, e, answers, refused, times); key in t.held && t.held[key] == s.held[key]
  {
    if F.Enters(s.agent, e) {
      var r := s.agent.requests[e.key];
      TakesOne(s, e.key, r.id, p(r.record), times(0), D.Next(s.agent, e));
    } else if F.Leaves(s.agent, e) {
      if e.key in s.held {
        GivesBackOne(s, e.key, refused, times(0), D.Next(s.agent, e));
      }
    }
  }

  lemma HolderStays(p: Places, s: State, e: Event, key: nat)
    requires Ready(s) && Placed(s) && I.Inv(s.agent) && key in s.held && !IsLeaving(e, key)
    ensures key in Next(p, s, e).held && Next(p, s, e).held[key] == s.held[key]
  {
    if e.Moves? {
      HoldersFly(s);
      if F.Enters(s.agent, e.agent) {
        EnteredIsFlying(s.agent, e.agent, D.Next(s.agent, e.agent));
      }
      MovedHolds(p, s, e.agent, e.answers, e.refused, e.times, key);
    }
  }

  /** In every run, who holds a ticket holds it through every step but its own leaving. */
  lemma HoldersKeepTheirTickets(p: Places, s: State, events: seq<Event>, e: Event, key: nat)
    requires Init(s) && key in Reached(p, s, events).held && !IsLeaving(e, key)
    ensures var t, u := Reached(p, s, events), Next(p, Reached(p, s, events), e);
            key in u.held && u.held[key] == t.held[key]
  {
    HolderStays(p, Reached(p, s, events), e, key);
  }

  /** In every run, a request that leaves gives its ticket up: as refused, and so not
      counted as queued, if and only if its engine refused it while it waited still for
      the current process. */
  lemma LeavesAsRefusedExactlyWhen(p: Places, s: State, events: seq<Event>, e: D.Event, answers: bool, refused: bool,
      times: nat -> Q.Time)
    requires Init(s) && F.Leaves(Reached(p, s, events).agent, e) && e.key in Reached(p, s, events).held
    ensures var t := Reached(p, s, events);
            var u, h := Next(p, t, Moves(e, answers, refused, times)), t.held[e.key];
            && u.held == t.held - {e.key} && HeldOk(t.ledgers, h) && |u.ledgers| == |t.ledgers|
            && h.ticket < |u.ledgers[h.ledger].tickets|
            && !u.ledgers[h.ledger].tickets[h.ticket].fate.Here?
            && (u.ledgers[h.ledger].tickets[h.ticket].fate.Refused? <==>
                  refused && t.ledgers[h.ledger].tickets[h.ticket].waiting)
  {
    var t := Reached(p, s, events);
    LeavesWithTicket(t, e.key, refused, times(0), D.Next(t.agent, e));
  }

  lemma LeavesWithTicket(t: State, key: nat, refused: bool, time: Q.Time, agent: D.State)
    requires Ready(t) && key in t.held
    ensures var u, h := GiveBack(t.(agent := agent), key, refused, time), t.held[key];
            && u.held == t.held - {key} && HeldOk(t.ledgers, h) && |u.ledgers| == |t.ledgers|
            && h.ticket < |u.ledgers[h.ledger].tickets|
            && !u.ledgers[h.ledger].tickets[h.ticket].fate.Here?
            && (u.ledgers[h.ledger].tickets[h.ticket].fate.Refused? <==>
                  refused && t.ledgers[h.ledger].tickets[h.ticket].waiting)
  {
    var h := t.held[key];
    LeaveFate(t.ledgers[h.ledger], h.ticket, refused, time);
  }

  lemma LeaveFate(q: Q.Queue, t: nat, refused: bool, time: Q.Time)
    requires Q.Inv(q) && t < |q.tickets| && q.tickets[t].fate.Here?
    ensures var r := Q.Next(q, Q.Leave(t, refused, time));
            && t < |r.tickets| && !r.tickets[t].fate.Here?
            && (r.tickets[t].fate.Refused? <==> refused && q.tickets[t].waiting)
  {
    LeaveTickets(q, t, refused, time);
    assert Q.TicketOk(q.tickets[t], |q.made|, q.process);
  }
}
