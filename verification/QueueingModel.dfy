/**
  The ledger of the requests that waited (lazarus/agent/queueing.py) on values:
  tickets and hour buckets are numbered in the order they were made, so that a
  number stands for the object's identity.
*/
module QueueingModel {
  import opened Prelude

  const HOURS_KEPT: int := 24

  /** One reading of both clocks. */
  datatype Time = Time(clock: real, wall: real)

  datatype Bucket = Bucket(hour: int, queued: int, longest: int)

  /** Refused: it left while it waited still, turned away by the engine. */
  datatype Fate = Here | Left | Refused

  /** `counted` and `ended` number the buckets it was counted and its wait ended in. */
  datatype Ticket = Ticket(
    arrived: real, waiting: bool, waitedMs: int, counted: Option<nat>, process: nat, fate: Fate, ended: Option<nat>)

  /** `made` are all buckets ever made, `made[first..]` those still kept. */
  datatype Queue = Queue(
    process: nat, inFlight: int, line: seq<nat>, first: nat, made: seq<Bucket>, tickets: seq<Ticket>)

  datatype Event =
    | Arrive(places: nat, time: Time)
    | Leave(t: nat, refused: bool, time: Time)
    | Restart(times: nat -> Time, places: nat)   // places: the next process's
    | LastDay(time: Time)

  const EMPTY := Queue(0, 0, [], 0, [], [])

  function HourOf(wall: real): int {
    (wall / 3600.0).Floor
  }

  /** A wait in milliseconds, cut towards zero. */
  function Waited(from: real, to: real): int {
    var ms := (to - from) * 1000.0;
    if ms >= 0.0 then ms.Floor else -((-ms).Floor)
  }

  /** The first bucket from `first` on that is within the last day of `hour`. */
  function Popped(made: seq<Bucket>, first: nat, hour: int): (r: nat)
    requires first <= |made|
    ensures first <= r <= |made|
    ensures forall b :: first <= b < r ==> made[b].hour <= hour - HOURS_KEPT
    ensures r < |made| ==> made[r].hour > hour - HOURS_KEPT
    decreases |made| - first
  {
    if first < |made| && made[first].hour <= hour - HOURS_KEPT then Popped(made, first + 1, hour) else first
  }

  function Appended(q: Queue, hour: int): Queue
    requires q.first <= |q.made|
  {
    if q.first == |q.made| || q.made[|q.made| - 1].hour != hour then q.(made := q.made + [Bucket(hour, 0, 0)]) else q
  }

  function Dropped(q: Queue, hour: int): Queue
    requires q.first <= |q.made|
  {
    q.(first := Popped(q.made, q.first, hour))
  }

  /** _hour: whatever the wall clock did, the last bucket is the current hour's. */
  function Hour(q: Queue, wall: real): (r: Queue)
    requires q.first <= |q.made|
    ensures q.first <= r.first < |r.made| && r.made[|r.made| - 1].hour == HourOf(wall)
    ensures |q.made| <= |r.made| <= |q.made| + 1 && r.made[..|q.made|] == q.made
    ensures |r.made| > |q.made| ==> r.made[|q.made|] == Bucket(HourOf(wall), 0, 0)
    ensures r == q.(first := r.first, made := r.made)
  {
    var q1 := Appended(q, HourOf(wall));
    assert q1.made[|q1.made| - 1].hour == HourOf(wall);
    Dropped(q1, HourOf(wall))
  }

  /** _waited */
  function EndWait(q: Queue, t: nat, time: Time): (r: Queue)
    requires q.first <= |q.made| && t < |q.tickets|
    ensures r.first <= |r.made| && |r.tickets| == |q.tickets| && r.line == q.line
  {
    var ms := Waited(q.tickets[t].arrived, time.clock);
    var h := Hour(q, time.wall);
    var b := |h.made| - 1;
    h.(made := h.made[b := h.made[b].(longest := Max(h.made[b].longest, ms))],
       tickets := h.tickets[t := h.tickets[t].(waiting := false, waitedMs := ms, ended := Some(b))])
  }

  function EndWaits(q: Queue, line: seq<nat>, times: nat -> Time): (r: Queue)
    requires q.first <= |q.made| && forall i :: 0 <= i < |line| ==> line[i] < |q.tickets|
    ensures r.first <= |r.made| && |r.tickets| == |q.tickets|
    decreases |line|
  {
    if line == [] then q
    else EndWait(EndWaits(q, line[..|line| - 1], times), line[|line| - 1], times(|line| - 1))
  }

  function Fresh(q: Queue, clock: real, waiting: bool): Ticket {
    Ticket(clock, waiting, 0, if waiting then Some(Pred(|q.made|)) else None, q.process, Here, None)
  }

  function Pred(n: nat): nat {
    if n > 0 then n - 1 else 0
  }

  function Admit(q: Queue, clock: real): Queue {
    q.(inFlight := q.inFlight + 1, tickets := q.tickets + [Fresh(q, clock, false)])
  }

  function Enqueue(q: Queue, clock: real): Queue
    requires q.made != []
  {
    var b := |q.made| - 1;
    q.(inFlight := q.inFlight + 1,
       line := q.line + [|q.tickets|],
       made := q.made[b := q.made[b].(queued := q.made[b].queued + 1)],
       tickets := q.tickets + [Fresh(q, clock, true)])
  }

  function DoArrive(q: Queue, places: nat, time: Time): (r: Queue)
    requires q.first <= |q.made|
    ensures r.first <= |r.made|
  {
    if q.inFlight < places then Admit(q, time.clock) else Enqueue(Hour(q, time.wall), time.clock)
  }

  function Without(s: seq<nat>, t: nat): (r: seq<nat>)
    ensures forall u :: u in r ==> u in s
  {
    if s == [] then [] else if s[0] == t then s[1..] else [s[0]] + Without(s[1..], t)
  }

  function Fated(q: Queue, t: nat, fate: Fate): Queue
    requires t < |q.tickets|
  {
    q.(tickets := q.tickets[t := q.tickets[t].(fate := fate)])
  }

  /** The bucket takes back its count, if it is still kept. */
  function Uncount(q: Queue, b: Option<nat>): Queue
    requires b.Some? ==> b.value < |q.made|
  {
    if b.Some? && q.first <= b.value then
      q.(made := q.made[b.value := q.made[b.value].(queued := q.made[b.value].queued - 1)])
    else q
  }

  /** The count is taken back: it never queued. */
  function Refuse(q: Queue, t: nat): Queue
    requires q.first <= |q.made| && t < |q.tickets| && TicketOk(q.tickets[t], |q.made|, q.process)
  {
    Uncount(q.(tickets := q.tickets[t := q.tickets[t].(waiting := false, fate := Refused)]), q.tickets[t].counted)
  }

  /** The head of the line, if any, stops waiting and leaves it. */
  function HandOver(q: Queue, time: Time): Queue
    requires q.first <= |q.made| && (q.line != [] ==> q.line[0] < |q.tickets|)
  {
    if q.line != [] then EndWait(q.(line := q.line[1..]), q.line[0], time) else q
  }

  predicate CanLeave(q: Queue, t: nat) {
    && q.first <= |q.made| && t < |q.tickets| && TicketOk(q.tickets[t], |q.made|, q.process)
    && (q.line != [] ==> q.line[0] < |q.tickets|)
  }

  function DoLeave(q: Queue, t: nat, refused: bool, time: Time): (r: Queue)
    requires CanLeave(q, t)
    ensures r.first <= |r.made|
  {
    var q1 := q.(inFlight := q.inFlight - 1);
    if q.tickets[t].process != q.process then Fated(q, t, Left)
    else if !q.tickets[t].waiting then Fated(HandOver(q1, time), t, Left)
    else if refused then Refuse(q1.(line := Without(q.line, t)), t)
    else Fated(EndWait(q1.(line := Without(q.line, t)), t, time), t, Left)
  }

  function DoRestart(q: Queue, times: nat -> Time): (r: Queue)
    requires Valid(q)
    ensures r.first <= |r.made|
  {
    EndWaits(q, q.line, times).(line := [], inFlight := 0, process := q.process + 1)
  }

  function SumQueued(buckets: seq<Bucket>): int {
    if buckets == [] then 0 else SumQueued(buckets[..|buckets| - 1]) + buckets[|buckets| - 1].queued
  }

  function MaxLongest(buckets: seq<Bucket>): int {
    if buckets == [] then 0 else if |buckets| == 1 then buckets[0].longest
    else Max(MaxLongest(buckets[..|buckets| - 1]), buckets[|buckets| - 1].longest)
  }

  /** last_day's answer, of the state it leaves: `Hour(q, time.wall)`. */
  function Tally(q: Queue, clock: real): (int, int)
    requires Valid(q)
  {
    var longest := MaxLongest(q.made[q.first..]);
    (SumQueued(q.made[q.first..]),
     if q.line == [] then longest else Max(longest, Waited(q.tickets[q.line[0]].arrived, clock)))
  }

  /** A request leaves once. */
  predicate Allowed(q: Queue, e: Event) {
    e.Leave? ==> e.t < |q.tickets| && q.tickets[e.t].fate.Here?
  }

  function Next(q: Queue, e: Event): Queue
    requires Valid(q) && Allowed(q, e)
  {
    match e
    case Arrive(places, time) => DoArrive(q, places, time)
    case Leave(t, refused, time) => DoLeave(q, t, refused, time)
    case Restart(times, _) => DoRestart(q, times)
    case LastDay(time) => Hour(q, time.wall)
  }

  // ----- what every step keeps -----

  predicate Before(line: seq<nat>) {
    forall i, j :: 0 <= i < j < |line| ==> line[i] < line[j]
  }

  predicate TicketOk(k: Ticket, made: nat, process: nat) {
    && (k.counted.Some? ==> k.counted.value < made)
    && (k.ended.Some? ==> k.ended.value < made && !k.waiting)
    && k.process <= process
    && (k.waiting ==> k.fate.Here? && k.counted.Some? && k.process == process)
    && (k.fate.Refused? ==> k.counted.Some?)
  }

  ghost predicate TicketsOk(q: Queue) {
    && q.first <= |q.made|
    && forall t :: 0 <= t < |q.tickets| ==> TicketOk(q.tickets[t], |q.made|, q.process)
  }

  /** The line holds the tickets that wait, each once and in the order of arrival. */
  ghost predicate LineOk(line: seq<nat>, tickets: seq<Ticket>) {
    && Before(line)
    && (forall i :: 0 <= i < |line| ==> line[i] < |tickets| && tickets[line[i]].waiting)
    && (forall t: nat :: t < |tickets| && tickets[t].waiting ==> t in line)
  }

  ghost predicate Valid(q: Queue) {
    TicketsOk(q) && LineOk(q.line, q.tickets)
  }

  /** The tickets counted in bucket b and not refused while they waited. */
  function CountIn(tickets: seq<Ticket>, b: nat): nat {
    if tickets == [] then 0
    else CountIn(tickets[..|tickets| - 1], b) + Counts(tickets[|tickets| - 1], b)
  }

  function Counts(k: Ticket, b: nat): nat {
    if k.counted == Some(b) && !k.fate.Refused? then 1 else 0
  }

  /** The longest wait that ended in bucket b, or zero. */
  ghost predicate LongestIn(tickets: seq<Ticket>, b: nat, longest: int) {
    && longest >= 0
    && (forall t :: 0 <= t < |tickets| && tickets[t].ended == Some(b) ==> tickets[t].waitedMs <= longest)
    && (longest > 0 ==> exists t :: 0 <= t < |tickets| && tickets[t].ended == Some(b) && tickets[t].waitedMs == longest)
  }

  /** Each kept bucket tells the truth about the tickets. */
  ghost predicate Ledger(q: Queue) {
    forall b: nat :: q.first <= b < |q.made| ==> BucketOk(q.tickets, b, q.made[b])
  }

  ghost predicate BucketOk(tickets: seq<Ticket>, b: nat, k: Bucket) {
    k.queued == CountIn(tickets, b) && LongestIn(tickets, b, k.longest)
  }

  ghost predicate Books(q: Queue) {
    TicketsOk(q) && Ledger(q)
  }

  ghost predicate Inv(q: Queue) {
    Books(q) && LineOk(q.line, q.tickets)
  }

  // ----- the ledger, piece by piece -----

  lemma {:induction false} CountUpdate(tickets: seq<Ticket>, t: nat, k: Ticket, b: nat)
    requires t < |tickets|
    ensures CountIn(tickets[t := k], b) == CountIn(tickets, b) - Counts(tickets[t], b) + Counts(k, b)
  {
    var n := |tickets| - 1;
    if t < n {
      CountUpdate(tickets[..n], t, k, b);
      assert tickets[t := k][..n] == tickets[..n][t := k];
    } else {
      assert tickets[t := k][..n] == tickets[..n];
    }
  }

  lemma {:induction false} CountNone(tickets: seq<Ticket>, b: nat)
    requires forall t :: 0 <= t < |tickets| && tickets[t].counted.Some? ==> tickets[t].counted.value < b
    ensures CountIn(tickets, b) == 0
  {
    if tickets != [] {
      CountNone(tickets[..|tickets| - 1], b);
    }
  }

  lemma SameBooks(q: Queue, r: Queue)
    requires Books(q) && r == q.(line := r.line, inFlight := r.inFlight)
    ensures Books(r)
  {
    forall b: nat | r.first <= b < |r.made| ensures BucketOk(r.tickets, b, r.made[b]) {
      assert BucketOk(q.tickets, b, q.made[b]);
    }
  }

  lemma HourKeeps(q: Queue, wall: real)
    requires Books(q)
    ensures Books(Hour(q, wall))
  {
    var h := Hour(q, wall);
    CountNone(q.tickets, |q.made|);
    forall b: nat | h.first <= b < |h.made| ensures BucketOk(h.tickets, b, h.made[b]) {
      if b < |q.made| {
        assert h.made[b] == h.made[..|q.made|][b];
      }
    }
  }

  /** A ticket changes in a way that no count and no ended wait depends on. */
  lemma ChangeKeeps(q: Queue, t: nat, k: Ticket)
    requires Books(q) && t < |q.tickets|
    requires TicketOk(k, |q.made|, q.process) && k.counted == q.tickets[t].counted
    requires k.fate.Refused? == q.tickets[t].fate.Refused?
    requires k.ended == q.tickets[t].ended && k.waitedMs == q.tickets[t].waitedMs
    ensures var r := q.(tickets := q.tickets[t := k]); Books(r)
  {
    var r := q.(tickets := q.tickets[t := k]);
    forall b: nat | r.first <= b < |r.made| ensures BucketOk(r.tickets, b, r.made[b]) {
      CountUpdate(q.tickets, t, k, b);
      LongestKept(q.tickets, t, k, b, q.made[b].longest);
    }
  }

  lemma LongestKept(tickets: seq<Ticket>, t: nat, k: Ticket, b: nat, longest: int)
    requires t < |tickets| && LongestIn(tickets, b, longest)
    requires (k.ended == tickets[t].ended && k.waitedMs == tickets[t].waitedMs)
             || (tickets[t].ended.None? && k.ended != Some(b))
    ensures LongestIn(tickets[t := k], b, longest)
  {
    var after := tickets[t := k];
    if longest > 0 {
      var u :| 0 <= u < |tickets| && tickets[u].ended == Some(b) && tickets[u].waitedMs == longest;
      assert after[u].ended == Some(b) && after[u].waitedMs == longest;
    }
  }

  lemma LongestGrows(tickets: seq<Ticket>, t: nat, k: Ticket, b: nat, longest: int)
    requires t < |tickets| && LongestIn(tickets, b, longest) && tickets[t].ended.None? && k.ended == Some(b)
    ensures LongestIn(tickets[t := k], b, Max(longest, k.waitedMs))
  {
    var after := tickets[t := k];
    if longest > 0 {
      var u :| 0 <= u < |tickets| && tickets[u].ended == Some(b) && tickets[u].waitedMs == longest;
      assert after[u].ended == Some(b) && after[u].waitedMs == longest;
    }
    assert after[t] == k;
  }

  lemma EndWaitKeeps(q: Queue, t: nat, time: Time)
    requires Books(q) && t < |q.tickets| && q.tickets[t].ended.None?
    ensures Books(EndWait(q, t, time))
  {
    HourKeeps(q, time.wall);
    var h := Hour(q, time.wall);
    var r := EndWait(q, t, time);
    var k := r.tickets[t];
    forall b: nat | r.first <= b < |r.made| ensures BucketOk(r.tickets, b, r.made[b]) {
      assert BucketOk(h.tickets, b, h.made[b]);
      CountUpdate(q.tickets, t, k, b);
      if b == |h.made| - 1 {
        LongestGrows(q.tickets, t, k, b, h.made[b].longest);
      } else {
        LongestKept(q.tickets, t, k, b, h.made[b].longest);
      }
    }
  }

  // ----- the ledger, event by event -----

  lemma AdmitKeeps(q: Queue, clock: real)
    requires Books(q)
    ensures Books(Admit(q, clock))
  {
    var r := Admit(q, clock);
    assert r.tickets[..|q.tickets|] == q.tickets;
    forall b: nat | r.first <= b < |r.made| ensures BucketOk(r.tickets, b, r.made[b]) {
      assert BucketOk(q.tickets, b, q.made[b]);
      LongestLonger(q.tickets, Fresh(q, clock, false), b, q.made[b].longest);
    }
  }

  lemma EnqueueKeeps(q: Queue, clock: real)
    requires Books(q) && q.made != []
    ensures Books(Enqueue(q, clock))
  {
    var r := Enqueue(q, clock);
    assert r.tickets[..|q.tickets|] == q.tickets;
    forall b: nat | r.first <= b < |r.made| ensures BucketOk(r.tickets, b, r.made[b]) {
      assert BucketOk(q.tickets, b, q.made[b]);
      LongestLonger(q.tickets, Fresh(q, clock, true), b, q.made[b].longest);
    }
  }

  lemma ArriveKeepsLedger(q: Queue, places: nat, time: Time)
    requires Books(q)
    ensures Books(DoArrive(q, places, time))
  {
    if q.inFlight < places {
      AdmitKeeps(q, time.clock);
    } else {
      HourKeeps(q, time.wall);
      EnqueueKeeps(Hour(q, time.wall), time.clock);
    }
  }

  lemma LongestLonger(tickets: seq<Ticket>, k: Ticket, b: nat, longest: int)
    requires LongestIn(tickets, b, longest) && k.ended.None?
    ensures LongestIn(tickets + [k], b, longest)
  {
    var after := tickets + [k];
    if longest > 0 {
      var u :| 0 <= u < |tickets| && tickets[u].ended == Some(b) && tickets[u].waitedMs == longest;
      assert after[u].ended == Some(b) && after[u].waitedMs == longest;
    }
  }

  /** A refusal takes its ticket's count back. */
  lemma RefuseKeeps(q: Queue, t: nat)
    requires Books(q) && t < |q.tickets| && q.tickets[t].waiting && TicketOk(q.tickets[t], |q.made|, q.process)
    ensures Books(Refuse(q, t))
  {
    var r := Refuse(q, t);
    var k := r.tickets[t];
    forall b: nat | r.first <= b < |r.made| ensures BucketOk(r.tickets, b, r.made[b]) {
      assert BucketOk(q.tickets, b, q.made[b]);
      CountUpdate(q.tickets, t, k, b);
      LongestKept(q.tickets, t, k, b, q.made[b].longest);
    }
  }

  lemma FatedKeeps(q: Queue, t: nat)
    requires Books(q) && t < |q.tickets| && !q.tickets[t].waiting && !q.tickets[t].fate.Refused?
    ensures Books(Fated(q, t, Left))
  {
    assert TicketOk(q.tickets[t], |q.made|, q.process);
    ChangeKeeps(q, t, q.tickets[t].(fate := Left));
  }

  lemma HandOverKeeps(q: Queue, time: Time)
    requires Books(q) && (q.line != [] ==> q.line[0] < |q.tickets| && q.tickets[q.line[0]].waiting)
    ensures Books(HandOver(q, time)) && |HandOver(q, time).tickets| == |q.tickets|
    ensures forall t :: 0 <= t < |q.tickets| ==>
              HandOver(q, time).tickets[t].fate == q.tickets[t].fate
              && (HandOver(q, time).tickets[t].waiting ==> q.tickets[t].waiting)
  {
    if q.line != [] {
      SameBooks(q, q.(line := q.line[1..]));
      assert TicketOk(q.tickets[q.line[0]], |q.made|, q.process);
      EndWaitKeeps(q.(line := q.line[1..]), q.line[0], time);
    }
  }

  lemma HolderLeaves(q: Queue, t: nat, time: Time)
    requires Books(q) && (q.line != [] ==> q.line[0] < |q.tickets| && q.tickets[q.line[0]].waiting)
    requires t < |q.tickets| && !q.tickets[t].waiting && !q.tickets[t].fate.Refused?
    ensures Books(Fated(HandOver(q, time), t, Left))
  {
    HandOverKeeps(q, time);
    FatedKeeps(HandOver(q, time), t);
  }

  lemma WaiterGivesUp(q: Queue, t: nat, time: Time)
    requires Books(q) && t < |q.tickets| && q.tickets[t].waiting && TicketOk(q.tickets[t], |q.made|, q.process)
    ensures Books(Fated(EndWait(q, t, time), t, Left))
  {
    EndWaitKeeps(q, t, time);
    FatedKeeps(EndWait(q, t, time), t);
  }

  /** DoLeave's four outcomes. */
  lemma LeaveIs(q: Queue, t: nat, refused: bool, time: Time, r: Queue)
    requires CanLeave(q, t) && r == DoLeave(q, t, refused, time)
    ensures var q1 := q.(inFlight := q.inFlight - 1);
            var q2 := q1.(line := Without(q.line, t));
            if q.tickets[t].process != q.process then r == Fated(q, t, Left)
            else if !q.tickets[t].waiting then r == Fated(HandOver(q1, time), t, Left)
            else r == if refused then Refuse(q2, t) else Fated(EndWait(q2, t, time), t, Left)
  {
  }

  lemma LeaveKeepsLedger(q: Queue, t: nat, refused: bool, time: Time, r: Queue)
    requires Books(q) && CanLeave(q, t) && q.tickets[t].fate.Here? && r == DoLeave(q, t, refused, time)
    requires q.line != [] ==> q.tickets[q.line[0]].waiting
    ensures Books(r)
  {
    var q1 := q.(inFlight := q.inFlight - 1);
    LeaveIs(q, t, refused, time, r);
    if q.tickets[t].process != q.process {
      FatedKeeps(q, t);
    } else if !q.tickets[t].waiting {
      SameBooks(q, q1);
      HolderLeaves(q1, t, time);
    } else {
      WaiterKeeps(q, t, refused, time);
    }
  }

  lemma WaiterKeeps(q: Queue, t: nat, refused: bool, time: Time)
    requires Books(q) && CanLeave(q, t) && q.tickets[t].waiting
    ensures var q2 := q.(inFlight := q.inFlight - 1, line := Without(q.line, t));
            Books(if refused then Refuse(q2, t) else Fated(EndWait(q2, t, time), t, Left))
  {
    var q2 := q.(inFlight := q.inFlight - 1, line := Without(q.line, t));
    SameBooks(q, q2);
    if refused {
      RefuseKeeps(q2, t);
    } else {
      WaiterGivesUp(q2, t, time);
    }
  }

  /** What the end of a wait leaves of the tickets. */
  predicate WaitsEnded(before: seq<Ticket>, after: seq<Ticket>, line: seq<nat>) {
    && |after| == |before|
    && forall t: nat :: t < |before| ==>
         if t in line then after[t].(waitedMs := 0, ended := None)
           == before[t].(waitedMs := 0, ended := None, waiting := false)
         else after[t] == before[t]
  }

  lemma EndWaitShape(q: Queue, t: nat, time: Time)
    requires q.first <= |q.made| && t < |q.tickets|
    ensures var r := EndWait(q, t, time);
            && r.process == q.process
            && r.tickets[t].(waitedMs := 0, ended := None)
               == q.tickets[t].(waitedMs := 0, ended := None, waiting := false)
            && forall u: nat :: u < |q.tickets| && u != t ==> r.tickets[u] == q.tickets[u]
  {
  }

  lemma WaitsEndedAlso(before: seq<Ticket>, mid: seq<Ticket>, after: seq<Ticket>, line: seq<nat>, t: nat)
    requires WaitsEnded(before, mid, line) && |after| == |mid| && t < |mid|
    requires after[t].(waitedMs := 0, ended := None) == mid[t].(waitedMs := 0, ended := None, waiting := false)
    requires forall u: nat :: u < |mid| && u != t ==> after[u] == mid[u]
    ensures WaitsEnded(before, after, line + [t])
  {
    assert forall u :: u in line + [t] <==> u in line || u == t;
  }

  lemma {:induction false} EndWaitsShape(q: Queue, line: seq<nat>, times: nat -> Time)
    requires q.first <= |q.made| && forall i :: 0 <= i < |line| ==> line[i] < |q.tickets|
    ensures var r := EndWaits(q, line, times);
            WaitsEnded(q.tickets, r.tickets, line) && r.process == q.process
    decreases |line|
  {
    if line != [] {
      var n := |line| - 1;
      EndWaitsShape(q, line[..n], times);
      var m := EndWaits(q, line[..n], times);
      EndWaitShape(m, line[n], times(n));
      WaitsEndedAlso(q.tickets, m.tickets, EndWaits(q, line, times).tickets, line[..n], line[n]);
      assert line == line[..n] + [line[n]];
    }
  }

  lemma {:induction false} EndWaitsKeeps(q: Queue, line: seq<nat>, times: nat -> Time)
    requires Books(q) && Before(line)
    requires forall i :: 0 <= i < |line| ==> line[i] < |q.tickets| && q.tickets[line[i]].waiting
    ensures Books(EndWaits(q, line, times))
    decreases |line|
  {
    if line != [] {
      var n := |line| - 1;
      EndWaitsShape(q, line[..n], times);
      EndWaitsKeeps(q, line[..n], times);
      assert TicketOk(q.tickets[line[n]], |q.made|, q.process);
      EndWaitKeeps(EndWaits(q, line[..n], times), line[n], times(n));
    }
  }

  lemma RestartKeepsLedger(q: Queue, times: nat -> Time)
    requires Inv(q)
    ensures Books(DoRestart(q, times))
    ensures forall t :: 0 <= t < |q.tickets| ==> !DoRestart(q, times).tickets[t].waiting
  {
    EndWaitsShape(q, q.line, times);
    EndWaitsKeeps(q, q.line, times);
    var m := EndWaits(q, q.line, times);
    var r := DoRestart(q, times);
    forall t | 0 <= t < |r.tickets| ensures TicketOk(r.tickets[t], |r.made|, r.process) && !r.tickets[t].waiting {
      assert TicketOk(m.tickets[t], |m.made|, m.process);
      assert t in q.line ==> !m.tickets[t].waiting;
    }
    forall b: nat | r.first <= b < |r.made| ensures BucketOk(r.tickets, b, r.made[b]) {
      assert BucketOk(m.tickets, b, m.made[b]);
    }
  }

  // ----- the line -----

  lemma {:induction false} WithoutAt(s: seq<nat>, k: nat)
    requires k < |s| && forall i :: 0 <= i < k ==> s[i] != s[k]
    ensures Without(s, s[k]) == s[..k] + s[k + 1..]
  {
    if k > 0 {
      WithoutAt(s[1..], k - 1);
      assert s[..k] == [s[0]] + s[1..][..k - 1];
    }
  }

  lemma {:induction false} WithoutNone(s: seq<nat>, t: nat)
    requires t !in s
    ensures Without(s, t) == s
  {
    if s != [] {
      WithoutNone(s[1..], t);
    }
  }

  lemma WithoutKeepsOrder(line: seq<nat>, t: nat)
    requires Before(line)
    ensures Before(Without(line, t))
    ensures forall u :: u in Without(line, t) <==> u in line && u != t
  {
    if t in line {
      var k: nat :| k < |line| && line[k] == t;
      WithoutAt(line, k);
    } else {
      WithoutNone(line, t);
    }
  }

  /** The flags of the tickets are those of before, but for ticket t's, now down. */
  predicate Flags(before: seq<Ticket>, after: seq<Ticket>, t: nat) {
    && |after| == |before|
    && forall u: nat :: u < |after| ==> after[u].waiting == (before[u].waiting && u != t)
  }

  lemma LineWithout(line: seq<nat>, before: seq<Ticket>, after: seq<Ticket>, t: nat)
    requires LineOk(line, before) && Flags(before, after, t)
    ensures LineOk(Without(line, t), after)
  {
    WithoutKeepsOrder(line, t);
    var w := Without(line, t);
    forall i | 0 <= i < |w| ensures w[i] < |after| && after[w[i]].waiting {
      assert w[i] in w;
    }
  }

  lemma EndWaitFlags(q: Queue, t: nat, fated: nat, time: Time)
    requires q.first <= |q.made| && t < |q.tickets| && fated < |q.tickets|
    ensures Flags(q.tickets, Fated(EndWait(q, t, time), fated, Left).tickets, t)
  {
  }

  lemma WaiterKeepsLine(q: Queue, t: nat, refused: bool, time: Time)
    requires Valid(q) && t < |q.tickets| && q.tickets[t].process == q.process && q.tickets[t].waiting
    ensures LineOk(DoLeave(q, t, refused, time).line, DoLeave(q, t, refused, time).tickets)
  {
    EndWaitFlags(q.(inFlight := q.inFlight - 1, line := Without(q.line, t)), t, t, time);
    LineWithout(q.line, q.tickets, DoLeave(q, t, refused, time).tickets, t);
  }

  lemma LeaveKeepsLine(q: Queue, t: nat, refused: bool, time: Time)
    requires Valid(q) && t < |q.tickets|
    ensures LineOk(DoLeave(q, t, refused, time).line, DoLeave(q, t, refused, time).tickets)
  {
    if q.tickets[t].process == q.process && q.tickets[t].waiting {
      WaiterKeepsLine(q, t, refused, time);
    } else if q.tickets[t].process == q.process && q.line != [] {
      EndWaitFlags(q.(inFlight := q.inFlight - 1, line := q.line[1..]), q.line[0], t, time);
      LineWithout(q.line, q.tickets, DoLeave(q, t, refused, time).tickets, q.line[0]);
    } else {
      assert Flags(q.tickets, DoLeave(q, t, refused, time).tickets, |q.tickets|);
    }
  }

  lemma ArriveKeepsLine(q: Queue, places: nat, time: Time)
    requires Valid(q)
    ensures LineOk(DoArrive(q, places, time).line, DoArrive(q, places, time).tickets)
  {
    var r := DoArrive(q, places, time);
    forall u: nat | u < |r.tickets| && r.tickets[u].waiting ensures u in r.line {
      if u == |q.tickets| {
        assert r.line[|q.line|] == u;
      } else {
        assert u in q.line && q.tickets[u].waiting;
      }
    }
  }

  lemma NextKeeps(q: Queue, e: Event)
    requires Inv(q) && Allowed(q, e)
    ensures Inv(Next(q, e))
  {
    match e
    case Arrive(places, time) =>
      ArriveKeepsLedger(q, places, time);
      ArriveKeepsLine(q, places, time);
    case Leave(t, refused, time) =>
      LeaveKeepsLedger(q, t, refused, time, Next(q, e));
      LeaveKeepsLine(q, t, refused, time);
    case Restart(times, _) => RestartKeepsLedger(q, times);
    case LastDay(time) => HourKeeps(q, time.wall);
  }
}
