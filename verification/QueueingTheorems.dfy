/**
  What the ledger of the waiting requests tells, over whole runs: that it follows
  a first-come-first-served engine, and that the last day's tally is the truth
  about the requests that queued.
*/
module QueueingTheorems {
  import opened Prelude
  import opened QueueingModel

  /** Every request of the run leaves at most once. */
  ghost predicate Proper(q: Queue, events: seq<Event>)
    decreases |events|
  {
    Valid(q) && (events == [] || (Allowed(q, events[0]) && Proper(Next(q, events[0]), events[1..])))
  }

  ghost function Run(q: Queue, events: seq<Event>): (r: Queue)
    requires Proper(q, events)
    ensures Valid(r)
    decreases |events|
  {
    if events == [] then q else Run(Next(q, events[0]), events[1..])
  }

  lemma {:induction false} RunKeeps(q: Queue, events: seq<Event>)
    requires Inv(q) && Proper(q, events)
    ensures Inv(Run(q, events))
    decreases |events|
  {
    if events != [] {
      NextKeeps(q, events[0]);
      RunKeeps(Next(q, events[0]), events[1..]);
    }
  }

  // ----- the engine -----

  /** A first-come-first-served engine: the requests in it, in the order they came,
      of which the first `places` run and the others wait. */
  datatype Engine = Engine(places: nat, present: seq<nat>, came: nat) {
    function Running(): seq<nat> {
      if |present| <= places then present else present[..places]
    }

    function Waiting(): seq<nat> {
      if |present| <= places then [] else present[places..]
    }
  }

  function Serve(e: Engine, ev: Event): Engine {
    match ev
    case Arrive(_, _) => e.(present := e.present + [e.came], came := e.came + 1)
    case Leave(t, _, _) => e.(present := Without(e.present, t))
    case Restart(_, places) => e.(present := [], places := places)
    case LastDay(_) => e
  }

  function ServeAll(e: Engine, events: seq<Event>): Engine
    decreases |events|
  {
    if events == [] then e else ServeAll(Serve(e, events[0]), events[1..])
  }

  /** A request that waits leaves the line, and no other moves. */
  lemma WaiterLeavesTheLine(e: Engine, k: nat)
    requires Before(e.present) && e.places <= k < |e.present|
    ensures var t := e.present[k];
            var after := e.(present := Without(e.present, t));
            && after.Running() == e.Running() && after.Waiting() == Without(e.Waiting(), t)
            && |after.present| == |e.present| - 1
  {
    WithoutAt(e.present, k);
    WithoutAt(e.Waiting(), k - e.places);
    var left := e.present[..k] + e.present[k + 1..];
    var j := k - e.places;
    assert e.Waiting()[..j] + e.Waiting()[j + 1..] == left[e.places..];
    assert left[..e.places] == e.present[..e.places];
  }

  lemma CutAtPlaces(a: seq<nat>, b: seq<nat>, c: seq<nat>)
    requires c != []
    ensures (a + b + c)[..|a| + |b| + 1] == (a + b) + [c[0]] && (a + b + c)[|a| + |b| + 1..] == c[1..]
  {
  }

  /** A list is what is before its kth entry, the entry, and what is after it, up to
      the places and beyond. */
  lemma LeftParts(present: seq<nat>, k: nat, places: nat)
    requires k < places < |present|
    ensures var a, b, c := present[..k], present[k + 1..places], present[places..];
            && present[..k] + present[k + 1..] == a + b + c
            && present[..places][..k] + present[..places][k + 1..] == a + b
  {
    assert present[k + 1..] == present[k + 1..places] + present[places..];
  }

  /** What is left of a list without its kth entry. */
  lemma LeftOf(present: seq<nat>, k: nat, places: nat)
    requires Before(present) && k < places < |present|
    ensures var left, run := Without(present, present[k]), Without(present[..places], present[k]);
            && |left| == |present| - 1
            && left[..places] == run + [present[places]] && left[places..] == present[places..][1..]
  {
    WithoutAt(present, k);
    WithoutAt(present[..places], k);
    LeftParts(present, k, places);
    CutAtPlaces(present[..k], present[k + 1..places], present[places..]);
  }

  /** A request that runs leaves its place to the one that has waited longest. */
  lemma PlaceIsHandedOn(e: Engine, k: nat)
    requires Before(e.present) && k < |e.present| && k < e.places
    ensures var t := e.present[k];
            var after := e.(present := Without(e.present, t));
            && |after.present| == |e.present| - 1
            && if e.Waiting() == [] then after.Running() == Without(e.Running(), t) && after.Waiting() == []
               else after.Running() == Without(e.Running(), t) + [e.Waiting()[0]] && after.Waiting() == e.Waiting()[1..]
  {
    WithoutAt(e.present, k);
    if |e.present| > e.places {
      LeftOf(e.present, k, e.places);
    }
  }

  /** A process's requests all arrive at an engine with as many places. */
  predicate FixedPlaces(e: Engine, events: seq<Event>)
    decreases |events|
  {
    events == [] || ((events[0].Arrive? ==> events[0].places == e.places)
      && FixedPlaces(Serve(e, events[0]), events[1..]))
  }

  /** The ledger tells the engine's state: the current process's requests that
      have not left are those in the engine, and those that wait are its line. */
  ghost predicate Follows(q: Queue, e: Engine) {
    && e.came == |q.tickets|
    && q.inFlight == |e.present|
    && q.line == e.Waiting()
    && Before(e.present)
    && (forall i :: 0 <= i < |e.present| ==> e.present[i] < |q.tickets| && InEngine(q.tickets[e.present[i]], q.process))
    && (forall t: nat :: t < |q.tickets| && InEngine(q.tickets[t], q.process) ==> t in e.present)
  }

  predicate InEngine(k: Ticket, process: nat) {
    k.process == process && k.fate.Here?
  }

  lemma AppendWaits(e: Engine, x: nat)
    ensures e.(present := e.present + [x]).Waiting()
            == if |e.present| < e.places then e.Waiting() else e.Waiting() + [x]
  {
  }

  lemma AppendKeepsOrder(line: seq<nat>, x: nat)
    requires Before(line) && forall i :: 0 <= i < |line| ==> line[i] < x
    ensures Before(line + [x])
  {
  }

  lemma ArriveFollows(q: Queue, e: Engine, ev: Event, r: Queue)
    requires Valid(q) && Follows(q, e) && ev.Arrive? && ev.places == e.places && r == Next(q, ev)
    ensures Follows(r, Serve(e, ev))
  {
    ArrivesLast(q, ev.places, ev.time, r);
    AppendWaits(e, e.came);
    AppendKeepsOrder(e.present, e.came);
    ArrivedFollows(q, e, Serve(e, ev), r);
  }

  /** The tickets in the engine are those there were and the new one. */
  lemma ArrivedFollows(q: Queue, e: Engine, f: Engine, r: Queue)
    requires Follows(q, e) && f == e.(present := e.present + [e.came], came := e.came + 1)
    requires r.process == q.process && r.inFlight == q.inFlight + 1 && r.line == f.Waiting() && Before(f.present)
    requires |r.tickets| == |q.tickets| + 1 && r.tickets == q.tickets + [r.tickets[|q.tickets|]]
    requires InEngine(r.tickets[|q.tickets|], q.process)
    ensures Follows(r, f)
  {
    assert forall t :: 0 <= t < |q.tickets| ==> r.tickets[t] == q.tickets[t];
    assert f.present[|e.present|] == |q.tickets|;
    forall t: nat | t < |r.tickets| && InEngine(r.tickets[t], r.process) ensures t in f.present {
      if t < |q.tickets| {
        assert t in e.present;
      }
    }
  }

  lemma ArrivesLast(q: Queue, places: nat, time: Time, r: Queue)
    requires Valid(q) && r == DoArrive(q, places, time)
    ensures r.process == q.process && r.inFlight == q.inFlight + 1
    ensures r.line == if q.inFlight < places then q.line else q.line + [|q.tickets|]
    ensures |r.tickets| == |q.tickets| + 1 && r.tickets == q.tickets + [r.tickets[|q.tickets|]]
    ensures InEngine(r.tickets[|q.tickets|], q.process)
  {
  }

  lemma RestartFollows(q: Queue, e: Engine, ev: Event)
    requires Valid(q) && Follows(q, e) && ev.Restart?
    ensures Follows(Next(q, ev), Serve(e, ev))
  {
    EndWaitsShape(q, q.line, ev.times);
    var r := Next(q, ev);
    forall t: nat | t < |r.tickets| ensures !InEngine(r.tickets[t], r.process) {
      assert TicketOk(q.tickets[t], |q.made|, q.process);
      assert t in q.line || r.tickets[t] == q.tickets[t];
    }
  }

  /** What a leave does to the tickets, as far as the engine is concerned. */
  predicate OneLeft(before: seq<Ticket>, after: seq<Ticket>, t: nat, process: nat) {
    && |after| == |before|
    && forall u: nat :: u < |after| ==> InEngine(after[u], process) == (InEngine(before[u], process) && u != t)
  }

  lemma LeaveOfOne(q: Queue, t: nat, refused: bool, time: Time)
    requires Valid(q) && t < |q.tickets|
    ensures OneLeft(q.tickets, DoLeave(q, t, refused, time).tickets, t, q.process)
    ensures DoLeave(q, t, refused, time).process == q.process
  {
  }

  lemma LeaveOfLine(q: Queue, e: Engine, t: nat, refused: bool, time: Time)
    requires Valid(q) && Follows(q, e) && t < |q.tickets| && InEngine(q.tickets[t], q.process)
    ensures var r := DoLeave(q, t, refused, time);
            && r.line == Serve(e, Leave(t, refused, time)).Waiting()
            && r.inFlight == |Serve(e, Leave(t, refused, time)).present|
  {
    var k: nat :| k < |e.present| && e.present[k] == t;
    LineSplits(e, k);
    assert q.tickets[t].waiting <==> t in q.line;
    LineAfter(q, t, refused, time);
    if k >= e.places {
      WaiterLeavesTheLine(e, k);
    } else {
      PlaceIsHandedOn(e, k);
    }
  }

  lemma LineAfter(q: Queue, t: nat, refused: bool, time: Time)
    requires Valid(q) && t < |q.tickets| && q.tickets[t].process == q.process
    ensures DoLeave(q, t, refused, time).inFlight == q.inFlight - 1
    ensures DoLeave(q, t, refused, time).line ==
              if q.tickets[t].waiting then Without(q.line, t) else if q.line != [] then q.line[1..] else []
  {
  }

  lemma LineSplits(e: Engine, k: nat)
    requires Before(e.present) && k < |e.present|
    ensures e.present[k] in e.Waiting() <==> k >= e.places
  {
    if k >= e.places {
      assert e.Waiting()[k - e.places] == e.present[k];
    }
  }

  lemma LeaveFollows(q: Queue, e: Engine, ev: Event, r: Queue)
    requires Valid(q) && Follows(q, e) && ev.Leave? && Allowed(q, ev) && r == Next(q, ev)
    ensures Follows(r, Serve(e, ev))
  {
    var f := Serve(e, ev);
    LeaveOfOne(q, ev.t, ev.refused, ev.time);
    WithoutKeepsOrder(e.present, ev.t);
    LineFollows(q, e, ev.t, ev.refused, ev.time);
    forall i | 0 <= i < |f.present| ensures f.present[i] < |r.tickets| && InEngine(r.tickets[f.present[i]], r.process) {
      assert f.present[i] in f.present;
    }
  }

  lemma LineFollows(q: Queue, e: Engine, t: nat, refused: bool, time: Time)
    requires Valid(q) && Follows(q, e) && t < |q.tickets| && q.tickets[t].fate.Here?
    ensures var r := DoLeave(q, t, refused, time);
            && r.line == Serve(e, Leave(t, refused, time)).Waiting()
            && r.inFlight == |Serve(e, Leave(t, refused, time)).present|
  {
    if InEngine(q.tickets[t], q.process) {
      LeaveOfLine(q, e, t, refused, time);
    } else {
      WithoutNone(e.present, t);
    }
  }

  lemma {:induction false} RunFollows(q: Queue, e: Engine, events: seq<Event>)
    requires Inv(q) && Follows(q, e) && Proper(q, events) && FixedPlaces(e, events)
    ensures Follows(Run(q, events), ServeAll(e, events))
    decreases |events|
  {
    if events != [] {
      var ev := events[0];
      NextKeeps(q, ev);
      match ev {
        case Arrive(_, _) => ArriveFollows(q, e, ev, Next(q, ev));
        case Leave(_, _, _) => LeaveFollows(q, e, ev, Next(q, ev));
        case Restart(_, _) => RestartFollows(q, e, ev);
        case LastDay(_) =>
      }
      RunFollows(Next(q, ev), Serve(e, ev), events[1..]);
    }
  }

  /** Whatever requests arrive, leave, give up or are refused, and whenever the
      process is replaced: the ledger knows which of the current process's requests
      the engine runs, and which wait and in which order. */
  lemma LedgerFollowsTheEngine(events: seq<Event>, places: nat)
    requires Proper(EMPTY, events) && FixedPlaces(Engine(places, [], 0), events)
    ensures var q := Run(EMPTY, events);
            var e := ServeAll(Engine(places, [], 0), events);
            && q.line == e.Waiting() && q.inFlight == |e.present|
            && |q.line| == Max(0, q.inFlight - e.places)
            && (forall t: nat :: t < |q.tickets| ==> (q.tickets[t].waiting <==> t in e.Waiting()))
            && (forall t: nat :: t < |q.tickets| ==>
                  (InEngine(q.tickets[t], q.process) && !q.tickets[t].waiting <==> t in e.Running()))
  {
    assert Inv(EMPTY) && Follows(EMPTY, Engine(places, [], 0));
    RunKeeps(EMPTY, events);
    RunFollows(EMPTY, Engine(places, [], 0), events);
    FollowsTells(Run(EMPTY, events), ServeAll(Engine(places, [], 0), events));
  }

  lemma FollowsTells(q: Queue, e: Engine)
    requires Valid(q) && Follows(q, e)
    ensures |q.line| == Max(0, q.inFlight - e.places)
    ensures forall t: nat :: t < |q.tickets| ==> (q.tickets[t].waiting <==> t in e.Waiting())
    ensures forall t: nat :: t < |q.tickets| ==>
              (InEngine(q.tickets[t], q.process) && !q.tickets[t].waiting <==> t in e.Running())
  {
    forall t: nat | t < |q.tickets|
      ensures InEngine(q.tickets[t], q.process) && !q.tickets[t].waiting <==> t in e.Running()
    {
      RunsOrWaits(q, e, t);
    }
  }

  lemma RunsOrWaits(q: Queue, e: Engine, t: nat)
    requires Valid(q) && Follows(q, e) && t < |q.tickets|
    ensures InEngine(q.tickets[t], q.process) && !q.tickets[t].waiting <==> t in e.Running()
  {
    assert e.present == e.Running() + e.Waiting();
    if InEngine(q.tickets[t], q.process) {
      var k: nat :| k < |e.present| && e.present[k] == t;
      LineSplits(e, k);
      assert k < e.places ==> e.Running()[k] == t;
    }
    if t in e.Running() {
      var k: nat :| k < |e.Running()| && e.Running()[k] == t;
      assert e.present[k] == t;
      LineSplits(e, k);
    }
  }

  /** A request of an earlier process changes nothing when it leaves. */
  lemma EarlierProcessChangesNothing(q: Queue, t: nat, refused: bool, time: Time)
    requires Inv(q) && t < |q.tickets| && q.tickets[t].process != q.process
    ensures var r := DoLeave(q, t, refused, time);
            && r.line == q.line && r.inFlight == q.inFlight && r.made == q.made && r.first == q.first
            && (forall u: nat :: u < |q.tickets| && u != t ==> r.tickets[u] == q.tickets[u])
  {
  }

  // ----- the tally of the last day -----

  /** The tickets counted in buckets first to n - 1 and not refused. */
  function CountBetween(tickets: seq<Ticket>, first: nat, n: nat): nat {
    if tickets == [] then 0
    else
      var k := tickets[|tickets| - 1];
      CountBetween(tickets[..|tickets| - 1], first, n)
      + if k.counted.Some? && first <= k.counted.value < n && !k.fate.Refused? then 1 else 0
  }

  lemma {:induction false} CountOneMore(tickets: seq<Ticket>, first: nat, n: nat)
    requires first <= n
    ensures CountBetween(tickets, first, n + 1) == CountBetween(tickets, first, n) + CountIn(tickets, n)
    ensures CountBetween(tickets, first, first) == 0
  {
    if tickets != [] {
      CountOneMore(tickets[..|tickets| - 1], first, n);
    }
  }

  lemma {:induction false} SumIsCount(q: Queue, n: nat)
    requires Ledger(q) && q.first <= n <= |q.made|
    ensures SumQueued(q.made[q.first..n]) == CountBetween(q.tickets, q.first, n)
    decreases n
  {
    if n == q.first {
      CountOneMore(q.tickets, n, n);
    } else {
      SumIsCount(q, n - 1);
      CountOneMore(q.tickets, q.first, n - 1);
      var window := q.made[q.first..n];
      assert window[..|window| - 1] == q.made[q.first..n - 1];
      assert BucketOk(q.tickets, n - 1, q.made[n - 1]);
    }
  }

  lemma {:induction false} MaxIsLongest(buckets: seq<Bucket>)
    requires buckets != []
    ensures forall b :: 0 <= b < |buckets| ==> buckets[b].longest <= MaxLongest(buckets)
    ensures exists b :: 0 <= b < |buckets| && buckets[b].longest == MaxLongest(buckets)
  {
    var n := |buckets| - 1;
    if n > 0 {
      MaxIsLongest(buckets[..n]);
      var b :| 0 <= b < n && buckets[..n][b].longest == MaxLongest(buckets[..n]);
      assert buckets[b].longest == MaxLongest(buckets) || buckets[n].longest == MaxLongest(buckets);
      assert forall c :: 0 <= c < n ==> buckets[c] == buckets[..n][c];
    } else {
      assert buckets[0].longest == MaxLongest(buckets);
    }
  }

  /** A wait, so far or for good, that the tally speaks of. */
  predicate WaitOf(q: Queue, clock: real, t: nat, ms: int) {
    && t < |q.tickets|
    && var k := q.tickets[t];
       if k.waiting then ms == Waited(k.arrived, clock)
       else k.ended.Some? && q.first <= k.ended.value && ms == k.waitedMs
  }

  /** No ticket of the line came before the one that leads it. */
  predicate HeadCameFirst(q: Queue) {
    forall i :: 0 <= i < |q.line| && q.line[i] < |q.tickets| && q.line[0] < |q.tickets| ==>
      q.tickets[q.line[0]].arrived <= q.tickets[q.line[i]].arrived
  }

  lemma LongerSince(a: real, b: real, clock: real)
    requires a <= b
    ensures Waited(b, clock) <= Waited(a, clock)
  {
    var x, y := (clock - b) * 1000.0, (clock - a) * 1000.0;
    assert x <= y;
  }

  lemma TallyBoundsTheWaits(q: Queue, clock: real, t: nat, ms: int)
    requires Inv(q) && q.first < |q.made| && HeadCameFirst(q) && WaitOf(q, clock, t, ms)
    ensures ms <= Tally(q, clock).1
  {
    var kept := q.made[q.first..];
    MaxIsLongest(kept);
    var k := q.tickets[t];
    assert TicketOk(k, |q.made|, q.process);
    if k.waiting {
      LongerSince(q.tickets[q.line[0]].arrived, k.arrived, clock);
    } else {
      var b := k.ended.value;
      assert BucketOk(q.tickets, b, q.made[b]);
      assert kept[b - q.first] == q.made[b];
    }
  }

  lemma TallyIsSomeWait(q: Queue, clock: real)
    requires Inv(q) && q.first < |q.made|
    ensures Tally(q, clock).1 >= 0
    ensures Tally(q, clock).1 > 0 ==> exists t: nat :: WaitOf(q, clock, t, Tally(q, clock).1)
  {
    var kept := q.made[q.first..];
    MaxIsLongest(kept);
    var longest := MaxLongest(kept);
    var i :| 0 <= i < |kept| && kept[i].longest == longest;
    var b := q.first + i;
    assert BucketOk(q.tickets, b, q.made[b]) && q.made[b] == kept[i];
    var answer := Tally(q, clock).1;
    if answer > 0 {
      if answer == longest {
        var t :| 0 <= t < |q.tickets| && q.tickets[t].ended == Some(b) && q.tickets[t].waitedMs == longest;
        assert TicketOk(q.tickets[t], |q.made|, q.process);
        assert WaitOf(q, clock, t, answer);
      } else {
        assert WaitOf(q, clock, q.line[0], answer);
      }
    }
  }

  // ----- clocks that do not go back -----

  /** The monotonic clock's reading when a request arrives; the others do not matter. */
  predicate ClockFrom(events: seq<Event>, now: real)
    decreases |events|
  {
    events == []
    || (if events[0].Arrive? then events[0].time.clock >= now && ClockFrom(events[1..], events[0].time.clock)
        else ClockFrom(events[1..], now))
  }

  predicate Arrivals(q: Queue, now: real) {
    && (forall t, u :: 0 <= t < u < |q.tickets| ==> q.tickets[t].arrived <= q.tickets[u].arrived)
    && (forall t :: 0 <= t < |q.tickets| ==> q.tickets[t].arrived <= now)
  }

  lemma NextKeepsArrivals(q: Queue, e: Event)
    requires Inv(q) && Allowed(q, e)
    ensures |Next(q, e).tickets| == |q.tickets| + if e.Arrive? then 1 else 0
    ensures forall t :: 0 <= t < |q.tickets| ==> Next(q, e).tickets[t].arrived == q.tickets[t].arrived
    ensures e.Arrive? ==> Next(q, e).tickets[|q.tickets|].arrived == e.time.clock
  {
    if e.Restart? {
      EndWaitsShape(q, q.line, e.times);
      var r := Next(q, e);
      forall t | 0 <= t < |q.tickets| ensures r.tickets[t].arrived == q.tickets[t].arrived {
        assert t in q.line || r.tickets[t] == q.tickets[t];
      }
    }
  }

  lemma {:induction false} RunKeepsArrivals(q: Queue, events: seq<Event>, now: real)
    requires Inv(q) && Proper(q, events) && Arrivals(q, now) && ClockFrom(events, now)
    ensures HeadCameFirst(Run(q, events))
    decreases |events|
  {
    if events != [] {
      NextKeeps(q, events[0]);
      NextKeepsArrivals(q, events[0]);
      RunKeepsArrivals(Next(q, events[0]), events[1..], if events[0].Arrive? then events[0].time.clock else now);
    } else {
      assert forall i :: 0 < i < |q.line| ==> q.line[0] < q.line[i];
    }
  }

  /** The kept hours rise; those dropped are older than the last day. */
  predicate Rising(q: Queue, wall: real) {
    q.first <= |q.made| && HoursRise(q.first, q.made, HourOf(wall))
  }

  predicate HoursRise(first: nat, made: seq<Bucket>, hour: int) {
    && (forall a, b :: 0 <= a < b < |made| ==> made[a].hour < made[b].hour)
    && (forall b :: 0 <= b < |made| ==> made[b].hour <= hour)
    && (forall b :: 0 <= b < first && b < |made| ==> made[b].hour <= hour - HOURS_KEPT)
  }

  lemma HourKeepsRising(q: Queue, before: real, wall: real)
    requires Rising(q, before) && before <= wall
    ensures var made := Hour(q, wall).made;
            && (forall a, b :: 0 <= a < b < |made| ==> made[a].hour < made[b].hour)
            && (forall b :: 0 <= b < |made| ==> made[b].hour <= HourOf(wall))
            && (forall b :: 0 <= b < q.first ==> made[b].hour <= HourOf(wall) - HOURS_KEPT)
  {
    var made := Hour(q, wall).made;
    assert HourOf(before) <= HourOf(wall);
    assert forall b :: 0 <= b < |q.made| ==> made[b] == made[..|q.made|][b] == q.made[b];
    if |made| > |q.made| {
      assert made[|q.made|].hour == HourOf(wall);
      forall a | 0 <= a < |q.made| ensures made[a].hour < HourOf(wall) {
        assert a < q.first || (q.made[|q.made| - 1].hour < HourOf(wall)
          && (a < |q.made| - 1 ==> q.made[a].hour < q.made[|q.made| - 1].hour));
      }
    }
  }

  lemma HourRises(q: Queue, before: real, wall: real)
    requires Rising(q, before) && before <= wall
    ensures Rising(Hour(q, wall), wall) && KeptAreRecent(Hour(q, wall), wall)
  {
    HourKeepsRising(q, before, wall);
    var h := Hour(q, wall);
    assert h.first == Popped(h.made, q.first, HourOf(wall));
    RecentFrom(h.first, h.made, HourOf(wall));
  }

  /** The kept buckets are those of the last 24 hours, one each at most. */
  predicate KeptAreRecent(q: Queue, wall: real) {
    && (forall b :: 0 <= b < |q.made| ==> (q.first <= b <==> q.made[b].hour > HourOf(wall) - 24))
    && |q.made| - q.first <= 24
  }

  lemma RecentFrom(first: nat, made: seq<Bucket>, hour: int)
    requires HoursRise(first, made, hour) && first < |made| && made[first].hour > hour - HOURS_KEPT
    ensures forall b :: 0 <= b < |made| ==> (first <= b <==> made[b].hour > hour - HOURS_KEPT)
    ensures |made| - first <= HOURS_KEPT
  {
    Spread(made, first, |made| - 1);
  }

  lemma {:induction false} Spread(made: seq<Bucket>, a: nat, b: nat)
    requires forall i, j :: 0 <= i < j < |made| ==> made[i].hour < made[j].hour
    requires a <= b < |made|
    ensures made[b].hour - made[a].hour >= b - a
    decreases b
  {
    if a < b {
      Spread(made, a, b - 1);
    }
  }

  predicate WallOk(q: Queue, e: Event, now: real) {
    if e.Restart? then
      && (forall i: nat :: i < |q.line| ==> now <= e.times(i).wall)
      && (forall i: nat, j: nat :: i < j < |q.line| ==> e.times(i).wall <= e.times(j).wall)
    else now <= e.time.wall
  }

  function WallAfter(q: Queue, e: Event, now: real): real {
    if !e.Restart? then e.time.wall
    else if q.line == [] then now
    else e.times(|q.line| - 1).wall
  }

  ghost predicate WallFrom(q: Queue, events: seq<Event>, now: real)
    requires Proper(q, events)
    decreases |events|
  {
    events == [] || (WallOk(q, events[0], now)
      && WallFrom(Next(q, events[0]), events[1..], WallAfter(q, events[0], now)))
  }

  predicate SameHours(q: Queue, r: Queue) {
    r.first == q.first && |r.made| == |q.made| && forall b :: 0 <= b < |q.made| ==> r.made[b].hour == q.made[b].hour
  }

  lemma SameHoursRise(q: Queue, r: Queue, wall: real)
    requires Rising(q, wall) && SameHours(q, r)
    ensures Rising(r, wall)
  {
  }

  lemma LaterRises(q: Queue, before: real, wall: real)
    requires Rising(q, before) && before <= wall
    ensures Rising(q, wall)
  {
    assert HourOf(before) <= HourOf(wall);
  }

  lemma EndWaitRises(q: Queue, t: nat, time: Time, now: real)
    requires Rising(q, now) && now <= time.wall && t < |q.tickets|
    ensures Rising(EndWait(q, t, time), time.wall)
  {
    HourRises(q, now, time.wall);
    SameHoursRise(Hour(q, time.wall), EndWait(q, t, time), time.wall);
  }

  lemma {:induction false} EndWaitsRise(q: Queue, line: seq<nat>, times: nat -> Time, now: real)
    requires Rising(q, now) && line != []
    requires forall i :: 0 <= i < |line| ==> line[i] < |q.tickets|
    requires forall i: nat :: i < |line| ==> now <= times(i).wall
    requires forall i: nat, j: nat :: i < j < |line| ==> times(i).wall <= times(j).wall
    ensures Rising(EndWaits(q, line, times), times(|line| - 1).wall)
    decreases |line|
  {
    var n := |line| - 1;
    if n == 0 {
      EndWaitRises(q, line[0], times(0), now);
      assert EndWaits(q, line[..0], times) == q;
    } else {
      EndWaitsRise(q, line[..n], times, now);
      EndWaitRises(EndWaits(q, line[..n], times), line[n], times(n), times(n - 1).wall);
    }
  }

  lemma EndAndFateRises(q: Queue, ends: nat, t: nat, time: Time, now: real)
    requires Rising(q, now) && now <= time.wall && ends < |q.tickets| && t < |q.tickets|
    ensures Rising(Fated(EndWait(q, ends, time), t, Left), time.wall)
  {
    EndWaitRises(q, ends, time, now);
    SameHoursRise(EndWait(q, ends, time), Fated(EndWait(q, ends, time), t, Left), time.wall);
  }

  lemma RefuseRises(q: Queue, t: nat, wall: real)
    requires Rising(q, wall) && t < |q.tickets| && TicketOk(q.tickets[t], |q.made|, q.process)
    ensures Rising(Refuse(q, t), wall)
  {
    SameHoursRise(q, Refuse(q, t), wall);
  }

  lemma FatedRises(q: Queue, t: nat, wall: real)
    requires Rising(q, wall) && t < |q.tickets|
    ensures Rising(Fated(q, t, Left), wall)
  {
  }

  lemma HolderRises(q: Queue, t: nat, time: Time, now: real)
    requires Rising(q, now) && now <= time.wall && t < |q.tickets| && (q.line != [] ==> q.line[0] < |q.tickets|)
    ensures Rising(Fated(HandOver(q, time), t, Left), time.wall)
  {
    if q.line != [] {
      EndAndFateRises(q.(line := q.line[1..]), q.line[0], t, time, now);
    } else {
      LaterRises(q, now, time.wall);
      FatedRises(q, t, time.wall);
    }
  }

  lemma WaiterRises(q: Queue, t: nat, refused: bool, time: Time, now: real)
    requires Rising(q, now) && now <= time.wall && t < |q.tickets| && TicketOk(q.tickets[t], |q.made|, q.process)
    ensures Rising(if refused then Refuse(q, t) else Fated(EndWait(q, t, time), t, Left), time.wall)
  {
    if refused {
      LaterRises(q, now, time.wall);
      RefuseRises(q, t, time.wall);
    } else {
      EndAndFateRises(q, t, t, time, now);
    }
  }

  lemma LeaveRises(q: Queue, t: nat, refused: bool, time: Time, now: real, r: Queue)
    requires CanLeave(q, t) && Rising(q, now) && now <= time.wall && r == DoLeave(q, t, refused, time)
    ensures Rising(r, time.wall)
  {
    var q1 := q.(inFlight := q.inFlight - 1);
    LeaveIs(q, t, refused, time, r);
    if q.tickets[t].process != q.process {
      LaterRises(q, now, time.wall);
      FatedRises(q, t, time.wall);
    } else if !q.tickets[t].waiting {
      HolderRises(q1, t, time, now);
    } else {
      WaiterRises(q1.(line := Without(q.line, t)), t, refused, time, now);
    }
  }

  lemma NextRises(q: Queue, e: Event, now: real)
    requires Valid(q) && Allowed(q, e) && Rising(q, now) && WallOk(q, e, now)
    ensures Rising(Next(q, e), WallAfter(q, e, now))
  {
    match e
    case Arrive(places, time) =>
      LaterRises(q, now, time.wall);
      HourRises(q, now, time.wall);
      SameHoursRise(if q.inFlight < places then q else Hour(q, time.wall), Next(q, e), time.wall);
    case Leave(t, refused, time) => LeaveRises(q, t, refused, time, now, Next(q, e));
    case Restart(times, _) =>
      if q.line != [] {
        EndWaitsRise(q, q.line, times, now);
      } else {
        assert EndWaits(q, q.line, times) == q;
      }
    case LastDay(time) => HourRises(q, now, time.wall);
  }

  /** The wall clock's last reading in a run. */
  ghost function WallAtEnd(q: Queue, events: seq<Event>, now: real): real
    requires Proper(q, events)
    decreases |events|
  {
    if events == [] then now else WallAtEnd(Next(q, events[0]), events[1..], WallAfter(q, events[0], now))
  }

  lemma {:induction false} RunRises(q: Queue, events: seq<Event>, now: real)
    requires Inv(q) && Proper(q, events) && WallFrom(q, events, now) && Rising(q, now)
    ensures Rising(Run(q, events), WallAtEnd(q, events, now))
    decreases |events|
  {
    if events != [] {
      NextKeeps(q, events[0]);
      NextRises(q, events[0], now);
      RunRises(Next(q, events[0]), events[1..], WallAfter(q, events[0], now));
    }
  }

  // ----- the main results -----

  /** Whatever the clocks do, what the tally sums is the tickets counted in a kept
      hour and not refused: no count is lost, doubled or negative, and the last hour
      is the current one. */
  lemma TallyCounts(q: Queue, time: Time)
    requires Inv(q)
    ensures var h := Hour(q, time.wall);
            && Inv(h)
            && Tally(h, time.clock).0 == CountBetween(h.tickets, h.first, |h.made|)
            && (forall b: nat :: h.first <= b < |h.made| ==> h.made[b].queued == CountIn(h.tickets, b))
            && h.made[|h.made| - 1].hour == HourOf(time.wall)
  {
    HourKeeps(q, time.wall);
    var h := Hour(q, time.wall);
    SumIsCount(h, |h.made|);
    assert h.made[h.first..|h.made|] == h.made[h.first..];
    forall b: nat | h.first <= b < |h.made| ensures h.made[b].queued == CountIn(h.tickets, b) {
      assert BucketOk(h.tickets, b, h.made[b]);
    }
  }

  /** `longest` is the longest of the waits that ended in a kept hour and of those
      still going on, or zero. */
  ghost predicate IsLongest(q: Queue, clock: real, longest: int) {
    && longest >= 0
    && (forall t: nat, ms :: WaitOf(q, clock, t, ms) ==> ms <= longest)
    && (longest > 0 ==> exists t: nat :: WaitOf(q, clock, t, longest))
  }

  lemma TallyTells(q: Queue, time: Time)
    requires Inv(q) && HeadCameFirst(q)
    ensures Valid(Hour(q, time.wall)) && TellsTruth(Hour(q, time.wall), time.clock)
  {
    TallyCounts(q, time);
    var h := Hour(q, time.wall);
    assert HeadCameFirst(h);
    forall t: nat, ms | WaitOf(h, time.clock, t, ms) ensures ms <= Tally(h, time.clock).1 {
      TallyBoundsTheWaits(h, time.clock, t, ms);
    }
    TallyIsSomeWait(h, time.clock);
  }

  ghost predicate TellsTruth(q: Queue, clock: real)
    requires Valid(q)
  {
    Tally(q, clock).0 == CountBetween(q.tickets, q.first, |q.made|) && IsLongest(q, clock, Tally(q, clock).1)
  }

  /** The tickets counted in an hour after `hour` and not refused. */
  function QueuedSince(tickets: seq<Ticket>, made: seq<Bucket>, hour: int): nat {
    if tickets == [] then 0
    else
      var k := tickets[|tickets| - 1];
      QueuedSince(tickets[..|tickets| - 1], made, hour)
      + if k.counted.Some? && k.counted.value < |made| && made[k.counted.value].hour > hour && !k.fate.Refused? then 1
        else 0
  }

  lemma {:induction false} KeptIsSince(tickets: seq<Ticket>, made: seq<Bucket>, first: nat, hour: int)
    requires forall b :: 0 <= b < |made| ==> (first <= b <==> made[b].hour > hour)
    ensures CountBetween(tickets, first, |made|) == QueuedSince(tickets, made, hour)
  {
    if tickets != [] {
      KeptIsSince(tickets[..|tickets| - 1], made, first, hour);
    }
  }

  // ----- the main results -----

  /** With a monotonic clock, and whatever the wall clock does: the tally counts
      exactly the requests that queued in a kept hour, and its longest wait is
      exactly the longest of the waits it speaks of. */
  lemma TallyIsTrue(events: seq<Event>, start: real, time: Time, h: Queue)
    requires Proper(EMPTY, events) && ClockFrom(events, start) && h == Hour(Run(EMPTY, events), time.wall)
    ensures Valid(h) && TellsTruth(h, time.clock)
  {
    assert Inv(EMPTY);
    RunKeeps(EMPTY, events);
    RunKeepsArrivals(EMPTY, events, start);
    TallyTells(Run(EMPTY, events), time);
  }

  /** With a wall clock that does not go back, at most 24 hours are kept, and the
      tally is every request of the last 24 hours that queued. */
  lemma TallyIsTheLastDay(events: seq<Event>, start: real, time: Time)
    requires Proper(EMPTY, events) && WallFrom(EMPTY, events, start)
    requires WallAtEnd(EMPTY, events, start) <= time.wall
    ensures var h := Hour(Run(EMPTY, events), time.wall);
            && Valid(h) && KeptAreRecent(h, time.wall) && Rising(h, time.wall)
            && Tally(h, time.clock).0 == QueuedSince(h.tickets, h.made, HourOf(time.wall) - 24)
  {
    assert Inv(EMPTY);
    RunKeeps(EMPTY, events);
    RunRises(EMPTY, events, start);
    LastDayOf(Run(EMPTY, events), WallAtEnd(EMPTY, events, start), time);
  }

  lemma LastDayOf(q: Queue, before: real, time: Time)
    requires Inv(q) && Rising(q, before) && before <= time.wall
    ensures var h := Hour(q, time.wall);
            && Valid(h) && KeptAreRecent(h, time.wall) && Rising(h, time.wall)
            && Tally(h, time.clock).0 == QueuedSince(h.tickets, h.made, HourOf(time.wall) - 24)
  {
    TallyCounts(q, time);
    HourRises(q, before, time.wall);
    var h := Hour(q, time.wall);
    KeptIsSince(h.tickets, h.made, h.first, HourOf(time.wall) - 24);
  }

  /** A request that has to queue is counted in the hour it came in. */
  lemma CountedWhenItCame(q: Queue, places: nat, time: Time)
    requires Inv(q) && q.inFlight >= places
    ensures var r := DoArrive(q, places, time);
            var k := r.tickets[|q.tickets|];
            k.waiting && k.counted.Some? && k.counted.value < |r.made|
              && r.made[k.counted.value].hour == HourOf(time.wall)
  {
  }

  /** The hours of the buckets, and the buckets the tickets are counted in, stay. */
  predicate HoursStay(q: Queue, r: Queue) {
    && |q.made| <= |r.made| && (forall b :: 0 <= b < |q.made| ==> r.made[b].hour == q.made[b].hour)
    && |q.tickets| <= |r.tickets| && (forall t :: 0 <= t < |q.tickets| ==> r.tickets[t].counted == q.tickets[t].counted)
  }

  lemma EndWaitStays(q: Queue, t: nat, time: Time)
    requires q.first <= |q.made| && t < |q.tickets|
    ensures HoursStay(q, EndWait(q, t, time))
  {
    var h := Hour(q, time.wall);
    assert forall b :: 0 <= b < |q.made| ==> h.made[b] == h.made[..|q.made|][b];
  }

  lemma {:induction false} EndWaitsStay(q: Queue, line: seq<nat>, times: nat -> Time)
    requires q.first <= |q.made| && forall i :: 0 <= i < |line| ==> line[i] < |q.tickets|
    ensures HoursStay(q, EndWaits(q, line, times))
    decreases |line|
  {
    if line != [] {
      EndWaitsStay(q, line[..|line| - 1], times);
      EndWaitStays(EndWaits(q, line[..|line| - 1], times), line[|line| - 1], times(|line| - 1));
    }
  }

  lemma EndAndFateStays(q: Queue, ends: nat, t: nat, time: Time)
    requires q.first <= |q.made| && t < |q.tickets| && ends < |q.tickets|
    ensures HoursStay(q, Fated(EndWait(q, ends, time), t, Left))
  {
    EndWaitStays(q, ends, time);
  }

  lemma LeaveStays(q: Queue, t: nat, refused: bool, time: Time, r: Queue)
    requires CanLeave(q, t) && r == DoLeave(q, t, refused, time)
    ensures HoursStay(q, r)
  {
    var q1 := q.(inFlight := q.inFlight - 1);
    LeaveIs(q, t, refused, time, r);
    if q.tickets[t].process != q.process {
      assert HoursStay(q, Fated(q, t, Left));
    } else if !q.tickets[t].waiting {
      if q.line != [] {
        EndAndFateStays(q1.(line := q.line[1..]), q.line[0], t, time);
      }
    } else if !refused {
      EndAndFateStays(q1.(line := Without(q.line, t)), t, t, time);
    }
  }

  lemma HourStays(q: Queue, wall: real)
    requires q.first <= |q.made|
    ensures HoursStay(q, Hour(q, wall))
  {
    var h := Hour(q, wall);
    assert forall b :: 0 <= b < |q.made| ==> h.made[b] == h.made[..|q.made|][b];
  }

  lemma ArriveStays(q: Queue, places: nat, time: Time, r: Queue)
    requires q.first <= |q.made| && r == DoArrive(q, places, time)
    ensures HoursStay(q, r)
  {
    HourStays(q, time.wall);
  }

  lemma RestartStays(q: Queue, times: nat -> Time, r: Queue)
    requires Valid(q) && r == DoRestart(q, times)
    ensures HoursStay(q, r)
  {
    EndWaitsStay(q, q.line, times);
  }

  /** No step changes the hour of a bucket, or the bucket a ticket is counted in. */
  lemma NextStays(q: Queue, e: Event, r: Queue)
    requires Inv(q) && Allowed(q, e) && r == Next(q, e)
    ensures HoursStay(q, r)
  {
    match e
    case Arrive(places, time) => ArriveStays(q, places, time, r);
    case Leave(t, refused, time) => LeaveStays(q, t, refused, time, r);
    case Restart(times, _) => RestartStays(q, times, r);
    case LastDay(time) => HourStays(q, time.wall);
  }

  // ----- what a ticket says of its wait -----

  /** Ticket t's wait ended at that reading: it is the time since it came, told in
      the hour of the reading. */
  predicate EndedAt(q: Queue, r: Queue, t: nat, time: Time)
    requires t < |q.tickets|
  {
    && t < |r.tickets|
    && var k := r.tickets[t];
       && k.waitedMs == Waited(q.tickets[t].arrived, time.clock)
       && k.ended.Some? && k.ended.value < |r.made| && r.made[k.ended.value].hour == HourOf(time.wall)
  }

  predicate SameWait(q: Queue, r: Queue, t: nat)
    requires t < |q.tickets|
  {
    t < |r.tickets| && r.tickets[t].waitedMs == q.tickets[t].waitedMs && r.tickets[t].ended == q.tickets[t].ended
  }

  lemma EndWaitMeasures(q: Queue, t: nat, time: Time, u: nat)
    requires q.first <= |q.made| && t < |q.tickets| && u < |q.tickets|
    ensures EndedAt(q, EndWait(q, t, time), t, time)
    ensures u != t ==> SameWait(q, EndWait(q, t, time), u)
  {
  }

  /** A wait ended at reading i of a restart stays ended so when one more ends. */
  lemma StaysEnded(q: Queue, m: Queue, t: nat, time: Time, u: nat, later: Time)
    requires m.first <= |m.made| && t < |q.tickets| && EndedAt(q, m, t, time) && u < |m.tickets| && t != u
    ensures EndedAt(q, EndWait(m, u, later), t, time)
  {
    EndWaitMeasures(m, u, later, t);
    EndWaitStays(m, u, later);
  }

  lemma {:induction false} EndWaitsMeasure(q: Queue, line: seq<nat>, times: nat -> Time, t: nat)
    requires q.first <= |q.made| && Before(line) && t < |q.tickets|
    requires forall i :: 0 <= i < |line| ==> line[i] < |q.tickets|
    ensures t !in line ==> SameWait(q, EndWaits(q, line, times), t)
    ensures t in line ==> exists i: nat ::
            i < |line| && line[i] == t && EndedAt(q, EndWaits(q, line, times), t, times(i))
    decreases |line|
  {
    if line != [] {
      var n := |line| - 1;
      var m := EndWaits(q, line[..n], times);
      EndWaitsMeasure(q, line[..n], times, t);
      assert line == line[..n] + [line[n]];
      LastWaitMeasures(q, line[..n], times, t, m, line[n]);
      if t in line[..n] {
        var i: nat :| i < n && line[..n][i] == t && EndedAt(q, m, t, times(i));
        StaysEnded(q, m, t, times(i), line[n], times(n));
        assert line[i] == t;
      }
    }
  }

  lemma LastWaitMeasures(q: Queue, line: seq<nat>, times: nat -> Time, t: nat, m: Queue, u: nat)
    requires q.first <= |q.made| && t < |q.tickets| && (forall i :: 0 <= i < |line| ==> line[i] < |q.tickets|)
    requires m == EndWaits(q, line, times) && u < |m.tickets|
    ensures t == u ==> EndedAt(q, EndWait(m, u, times(|line|)), t, times(|line|))
    ensures t != u && t !in line && SameWait(q, m, t) ==> SameWait(q, EndWait(m, u, times(|line|)), t)
  {
    EndWaitsShape(q, line, times);
    EndWaitMeasures(m, u, times(|line|), t);
    assert m.tickets[t].arrived == q.tickets[t].arrived by {
      assert t in line || m.tickets[t] == q.tickets[t];
    }
  }

  lemma LeaveMeasures(q: Queue, t: nat, refused: bool, time: Time, r: Queue, u: nat)
    requires CanLeave(q, t) && u < |q.tickets| && r == DoLeave(q, t, refused, time)
    ensures var ends := if q.tickets[t].process != q.process || (q.tickets[t].waiting && refused) then None
                        else if q.tickets[t].waiting then Some(t)
                        else if q.line != [] then Some(q.line[0]) else None;
            if ends == Some(u) then EndedAt(q, r, u, time) else SameWait(q, r, u)
  {
    LeaveIs(q, t, refused, time, r);
    var q1 := q.(inFlight := q.inFlight - 1);
    if q.tickets[t].process == q.process && q.tickets[t].waiting && !refused {
      EndWaitMeasures(q1.(line := Without(q.line, t)), t, time, u);
    } else if q.tickets[t].process == q.process && !q.tickets[t].waiting && q.line != [] {
      EndWaitMeasures(q1.(line := q.line[1..]), q.line[0], time, u);
    }
  }

  /** A request that leaves the line is told the time since it came, up to the
      reading of the step that ended its wait, in the hour of that reading, unless it
      was refused; nobody else's wait changes. */
  lemma LeaveEndsTheRightWait(q: Queue, t: nat, refused: bool, time: Time, r: Queue, u: nat)
    requires Inv(q) && t < |q.tickets| && q.tickets[t].fate.Here? && r == DoLeave(q, t, refused, time)
             && u < |q.tickets|
    ensures u in q.line && u !in r.line && !(u == t && refused) ==> EndedAt(q, r, u, time)
    ensures u !in q.line || u in r.line || (u == t && refused) ==> SameWait(q, r, u)
  {
    LeaveMeasures(q, t, refused, time, r, u);
    LeaverOfLine(q, t, refused, time, r, u);
  }

  lemma HeadAndTail(line: seq<nat>, u: nat)
    requires Before(line) && line != []
    ensures u in line <==> u == line[0] || u in line[1..]
    ensures line[0] !in line[1..]
  {
    assert line == [line[0]] + line[1..];
  }

  /** Who leaves the line when ticket t leaves: itself, or the one that gets its place. */
  lemma LeaverOfLine(q: Queue, t: nat, refused: bool, time: Time, r: Queue, u: nat)
    requires Inv(q) && t < |q.tickets| && r == DoLeave(q, t, refused, time)
    ensures (u in q.line && u !in r.line) <==>
              q.tickets[t].process == q.process
              && if q.tickets[t].waiting then u == t else q.line != [] && u == q.line[0]
  {
    if q.tickets[t].process == q.process {
      LineAfter(q, t, refused, time);
      if q.tickets[t].waiting {
        WithoutKeepsOrder(q.line, t);
        assert t in q.line;
      } else if q.line != [] {
        HeadAndTail(q.line, u);
      }
    } else {
      assert r.line == q.line;
    }
  }

  lemma RestartEndsEveryWait(q: Queue, times: nat -> Time, r: Queue, u: nat)
    requires Inv(q) && r == DoRestart(q, times) && u < |q.tickets|
    ensures u in q.line ==> exists i: nat :: i < |q.line| && q.line[i] == u && EndedAt(q, r, u, times(i))
    ensures u !in q.line ==> SameWait(q, r, u)
  {
    EndWaitsMeasure(q, q.line, times, u);
    if u in q.line {
      var i: nat :| i < |q.line| && q.line[i] == u && EndedAt(q, EndWaits(q, q.line, times), u, times(i));
      assert EndedAt(q, r, u, times(i));
    }
  }

  // ----- readings -----

  /** A wait is told in whole milliseconds, cut towards zero; an hour is 3600 seconds. */
  lemma WaitsAreMilliseconds(from: real, to: real, n: int, wall: real)
    ensures Waited(from, from + n as real / 1000.0) == n
    ensures from <= to ==>
              Waited(from, to) >= 0
              && Waited(from, to) as real / 1000.0 <= to - from < (Waited(from, to) + 1) as real / 1000.0
    ensures Waited(from, to) == -Waited(to, from)
    ensures HourOf(wall) as real * 3600.0 <= wall < (HourOf(wall) + 1) as real * 3600.0
  {
    assert (from + n as real / 1000.0 - from) * 1000.0 == n as real;
  }

  /** Nobody's arrival is told anew. */
  lemma ArrivedStays(q: Queue, e: Event, t: nat)
    requires Inv(q) && Allowed(q, e) && t < |q.tickets|
    ensures t < |Next(q, e).tickets| && Next(q, e).tickets[t].arrived == q.tickets[t].arrived
  {
    match e
    case Restart(times, _) =>
      EndWaitsShape(q, q.line, times);
      assert t in q.line || EndWaits(q, q.line, times).tickets[t] == q.tickets[t];
    case _ =>
  }

  lemma {:induction false} RunKeepsArrived(q: Queue, events: seq<Event>, t: nat)
    requires Inv(q) && Proper(q, events) && t < |q.tickets|
    ensures t < |Run(q, events).tickets| && Run(q, events).tickets[t].arrived == q.tickets[t].arrived
    decreases |events|
  {
    if events != [] {
      ArrivedStays(q, events[0], t);
      NextKeeps(q, events[0]);
      RunKeepsArrived(Next(q, events[0]), events[1..], t);
    }
  }

  /** In every run, what a request waited is told from the reading at which it came. */
  lemma WaitIsSinceItCame(before: seq<Event>, places: nat, time: Time, after: seq<Event>)
    requires Proper(EMPTY, before) && Proper(Next(Run(EMPTY, before), Arrive(places, time)), after)
    ensures var q := Run(EMPTY, before);
            var t, r := |q.tickets|, Run(Next(q, Arrive(places, time)), after);
            t < |r.tickets| && r.tickets[t].arrived == time.clock
  {
    var q := Run(EMPTY, before);
    assert Inv(EMPTY);
    RunKeeps(EMPTY, before);
    NextKeeps(q, Arrive(places, time));
    RunKeepsArrived(Next(q, Arrive(places, time)), after, |q.tickets|);
  }
}
