/**
  The ledger as the objects it is: tickets and hour buckets updated in place and
  told apart by identity. Each method takes the state where the function of the
  same step in `QueueingModel` takes it.
*/
module Queueing {
  import opened Prelude
  import M = QueueingModel

  /** One hour's tally; the numbers of buckets and tickets are their order of making. */
  class HourBucket {
    ghost const number: nat
    const hour: int
    var queued: int
    var longest: int

    constructor (ghost number: nat, hour: int)
      ensures this.number == number && Value() == M.Bucket(hour, 0, 0)
    {
      this.number, this.hour, queued, longest := number, hour, 0, 0;
    }

    ghost function Value(): M.Bucket
      reads this
    {
      M.Bucket(hour, queued, longest)
    }
  }

  class Ticket {
    ghost const number: nat
    const arrived: real
    const process: nat
    var waiting: bool
    var waitedMs: int
    var counted: HourBucket?
    ghost var fate: M.Fate
    ghost var ended: Option<nat>

    constructor (ghost number: nat, arrived: real, waiting: bool, process: nat)
      ensures this.number == number && counted == null
      ensures Value() == M.Ticket(arrived, waiting, 0, None, process, M.Here, None)
    {
      this.number, this.arrived, this.process, this.waiting := number, arrived, process, waiting;
      waitedMs, counted, fate, ended := 0, null, M.Here, None;
    }

    ghost function Value(): M.Ticket
      reads this
    {
      M.Ticket(arrived, waiting, waitedMs, if counted == null then None else Some(counted.number), process, fate, ended)
    }
  }

  ghost function Numbers(tickets: seq<Ticket>): (r: seq<nat>)
    ensures |r| == |tickets| && forall i :: 0 <= i < |r| ==> r[i] == tickets[i].number
  {
    seq(|tickets|, i requires 0 <= i < |tickets| => tickets[i].number)
  }

  ghost function BucketValues(buckets: seq<HourBucket>): (r: seq<M.Bucket>)
    reads buckets
    ensures |r| == |buckets| && forall i :: 0 <= i < |r| ==> r[i] == buckets[i].Value()
  {
    seq(|buckets|, i requires 0 <= i < |buckets| reads buckets => buckets[i].Value())
  }

  ghost function TicketValues(tickets: seq<Ticket>): (r: seq<M.Ticket>)
    reads tickets
    ensures |r| == |tickets| && forall i :: 0 <= i < |r| ==> r[i] == tickets[i].Value()
  {
    seq(|tickets|, i requires 0 <= i < |tickets| reads tickets => tickets[i].Value())
  }

  predicate Grown(before: seq<HourBucket>, after: seq<HourBucket>) {
    |before| <= |after| && forall b :: 0 <= b < |before| ==> after[b] == before[b]
  }

  ghost function MarkedWaited(q: M.Queue, t: nat, ms: int): M.Queue
    requires t < |q.tickets|
  {
    q.(tickets := q.tickets[t := q.tickets[t].(waiting := false, waitedMs := ms)])
  }

  ghost function RaisedLongest(q: M.Queue, t: nat, ms: int): M.Queue
    requires t < |q.tickets| && q.made != []
  {
    var b := |q.made| - 1;
    q.(made := q.made[b := q.made[b].(longest := Max(q.made[b].longest, ms))],
      tickets := q.tickets[t := q.tickets[t].(ended := Some(b))])
  }

  lemma EndWaitIs(q: M.Queue, t: nat, time: M.Time)
    requires q.first <= |q.made| && t < |q.tickets|
    ensures var ms := M.Waited(q.tickets[t].arrived, time.clock);
            M.EndWait(q, t, time) == RaisedLongest(M.Hour(MarkedWaited(q, t, ms), time.wall), t, ms)
  {
    var ms := M.Waited(q.tickets[t].arrived, time.clock);
    var h := M.Hour(q, time.wall);
    assert M.Hour(MarkedWaited(q, t, ms), time.wall) == h.(tickets := MarkedWaited(q, t, ms).tickets);
    assert M.EndWait(q, t, time).tickets == RaisedLongest(M.Hour(MarkedWaited(q, t, ms), time.wall), t, ms).tickets;
  }

  ghost function Entered(q: M.Queue, clock: real, waits: bool): M.Queue {
    q.(inFlight := q.inFlight + 1, line := if waits then q.line + [|q.tickets|] else q.line,
       tickets := q.tickets + [M.Ticket(clock, waits, 0, None, q.process, M.Here, None)])
  }

  ghost function Counted(q: M.Queue, t: nat): M.Queue
    requires t < |q.tickets| && q.made != []
  {
    var b := |q.made| - 1;
    q.(made := q.made[b := q.made[b].(queued := q.made[b].queued + 1)],
      tickets := q.tickets[t := q.tickets[t].(counted := Some(b))])
  }

  lemma ArriveIs(q: M.Queue, places: nat, time: M.Time)
    requires q.first <= |q.made|
    ensures M.DoArrive(q, places, time) ==
              if q.inFlight < places then Entered(q, time.clock, false)
              else Counted(M.Hour(Entered(q, time.clock, true), time.wall), |q.tickets|)
  {
    var h := M.Hour(q, time.wall);
    var e := Entered(q, time.clock, true);
    if q.inFlight >= places {
      assert M.Hour(e, time.wall) == h.(inFlight := e.inFlight, line := e.line, tickets := e.tickets);
      assert M.DoArrive(q, places, time).tickets == Counted(M.Hour(e, time.wall), |q.tickets|).tickets;
    }
  }

  lemma ArriveKeeps(q: M.Queue, places: nat, time: M.Time, r: M.Queue)
    requires M.Inv(q)
    requires r == if q.inFlight >= places then Counted(M.Hour(Entered(q, time.clock, true), time.wall), |q.tickets|)
                  else Entered(q, time.clock, false)
    ensures r == M.DoArrive(q, places, time) && M.Inv(r)
  {
    ArriveIs(q, places, time);
    M.NextKeeps(q, M.Arrive(places, time));
  }

  /** A waiting ticket is in the line, and every ticket of the line is one of ours. */
  lemma WaitsInLine(q: M.Queue, t: nat)
    requires M.Inv(q) && t < |q.tickets|
    ensures q.tickets[t].waiting ==> t in q.line
    ensures M.TicketOk(q.tickets[t], |q.made|, q.process)
  {
  }

  lemma StaleLeaves(q: M.Queue, t: nat, refused: bool, time: M.Time)
    requires M.Inv(q) && t < |q.tickets| && q.tickets[t].fate.Here? && q.tickets[t].process != q.process
    ensures M.Fated(q, t, M.Left) == M.DoLeave(q, t, refused, time) && M.Inv(M.Fated(q, t, M.Left))
  {
    M.NextKeeps(q, M.Leave(t, refused, time));
  }

  lemma HolderLeaves(q: M.Queue, t: nat, refused: bool, time: M.Time, r: M.Queue)
    requires M.Inv(q) && t < |q.tickets| && q.tickets[t].fate.Here?
    requires q.tickets[t].process == q.process && !q.tickets[t].waiting && (q.line != [] ==> q.line[0] < |q.tickets|)
    requires r == M.Fated(M.HandOver(q.(inFlight := q.inFlight - 1), time), t, M.Left)
    ensures r == M.DoLeave(q, t, refused, time) && M.Inv(r)
  {
    M.NextKeeps(q, M.Leave(t, refused, time));
  }

  lemma WaiterIs(q: M.Queue, t: nat, refused: bool, time: M.Time)
    requires M.CanLeave(q, t) && q.tickets[t].process == q.process && q.tickets[t].waiting
    ensures var q2 := q.(inFlight := q.inFlight - 1, line := M.Without(q.line, t));
            M.DoLeave(q, t, refused, time)
            == if refused then M.Refuse(q2, t) else M.Fated(M.EndWait(q2, t, time), t, M.Left)
  {
  }

  lemma WaiterLeaves(q: M.Queue, t: nat, refused: bool, time: M.Time, r: M.Queue)
    requires M.Inv(q) && t < |q.tickets| && q.tickets[t].fate.Here?
    requires q.tickets[t].process == q.process && q.tickets[t].waiting && M.TicketOk(q.tickets[t], |q.made|, q.process)
    requires var q2 := q.(inFlight := q.inFlight - 1, line := M.Without(q.line, t));
             r == if refused then M.Refuse(q2, t) else M.Fated(M.EndWait(q2, t, time), t, M.Left)
    ensures r == M.DoLeave(q, t, refused, time) && M.Inv(r)
  {
    WaiterIs(q, t, refused, time);
    M.NextKeeps(q, M.Leave(t, refused, time));
  }

  /** A restart's loop, one wait on. */
  lemma EndOneMore(q: M.Queue, line: seq<nat>, times: nat -> M.Time, i: nat)
    requires q.first <= |q.made| && i < |line| && forall j :: 0 <= j < |line| ==> line[j] < |q.tickets|
    ensures M.EndWaits(q, line[..i + 1], times) == M.EndWait(M.EndWaits(q, line[..i], times), line[i], times(i))
  {
    var upto := line[..i + 1];
    assert |upto| - 1 == i && upto[..i] == line[..i] && upto[i] == line[i];
  }

  lemma RestartKeeps(q: M.Queue, times: nat -> M.Time, m: M.Queue, r: M.Queue)
    requires M.Inv(q) && m == M.EndWaits(q, q.line, times)
    requires r == m.(line := [], inFlight := 0, process := m.process + 1)
    ensures r == M.DoRestart(q, times) && M.Inv(r)
  {
    M.EndWaitsShape(q, q.line, times);
    M.NextKeeps(q, M.Restart(times, 0));
  }

  lemma HourKeeps(q: M.Queue, time: M.Time, r: M.Queue)
    requires M.Inv(q) && r == M.Hour(q, time.wall)
    ensures M.Inv(r)
  {
    M.NextKeeps(q, M.LastDay(time));
  }

  class Queueing {
    var process: nat
    var inFlight: int
    var waiting: seq<Ticket>
    var hours: seq<HourBucket>
    ghost var tickets: seq<Ticket>
    ghost var made: seq<HourBucket>
    ghost var first: nat

    ghost function Now(): M.Queue
      reads this, tickets, made
    {
      M.Queue(process, inFlight, Numbers(waiting), first, BucketValues(made), TicketValues(tickets))
    }

    ghost predicate IsMade(bucket: HourBucket?)
      reads this`made
    {
      bucket != null && bucket.number < |made| && made[bucket.number] == bucket
    }

    ghost predicate IsOurs(ticket: Ticket)
      reads this`tickets
    {
      ticket.number < |tickets| && tickets[ticket.number] == ticket
    }

    /** The kept hours are the latest made. */
    ghost predicate HoursOk()
      reads this`hours, this`first, this`made
    {
      && first + |hours| == |made|
      && (forall b :: 0 <= b < |made| ==> made[b].number == b && (first <= b ==> hours[b - first] == made[b]))
    }

    /** The numbers tell the tickets and the buckets apart. */
    ghost predicate TicketsOk()
      reads this`tickets, this`waiting, this`made, tickets
    {
      && (forall t :: 0 <= t < |tickets| ==>
            tickets[t].number == t && (tickets[t].counted == null || IsMade(tickets[t].counted)))
      && (forall i :: 0 <= i < |waiting| ==> IsOurs(waiting[i]))
    }

    ghost predicate Linked()
      reads this, tickets, made
    {
      HoursOk() && TicketsOk()
    }

    ghost predicate Valid()
      reads this, tickets, made
    {
      Linked() && M.Inv(Now())
    }

    constructor ()
      ensures Valid() && Now() == M.EMPTY
    {
      process, inFlight, waiting, hours, tickets, made, first := 0, 0, [], [], [], [], 0;
    }

    /** Drops the hours at the front that are older than a day. */
    method DropOld(hour: int)
      requires Linked()
      modifies this`hours, this`first
      ensures Linked() && Now() == M.Dropped(old(Now()), hour)
    {
      ghost var values := BucketValues(made);
      while hours != [] && hours[0].hour <= hour - M.HOURS_KEPT
        invariant HoursOk()
        invariant M.Popped(values, old(first), hour) == M.Popped(values, first, hour)
        decreases |hours|
      {
        assert made[first] == hours[0];
        hours := hours[1..];
        first := first + 1;
      }
      assert hours != [] ==> made[first] == hours[0];
    }

    /** Appends the current hour's bucket, unless it is the last. */
    method Append(hour: int)
      requires Linked()
      modifies this`hours, this`made
      ensures Linked() && Now() == M.Appended(old(Now()), hour)
      ensures Grown(old(made), made) && forall b: nat :: |old(made)| <= b < |made| ==> fresh(made[b])
    {
      assert hours != [] ==> made[|made| - 1] == hours[|hours| - 1];
      if hours == [] || hours[|hours| - 1].hour != hour {
        var b := new HourBucket(|made|, hour);
        hours := hours + [b];
        made := made + [b];
        assert BucketValues(made) == old(BucketValues(made)) + [M.Bucket(hour, 0, 0)];
        assert TicketValues(tickets) == old(TicketValues(tickets));
      }
    }

    /** The current hour's bucket; those older than a day are dropped. */
    method Hour(wall: real) returns (bucket: HourBucket)
      requires Linked()
      modifies this`hours, this`made, this`first
      ensures Linked() && Now() == M.Hour(old(Now()), wall)
      ensures Grown(old(made), made) && forall b: nat :: |old(made)| <= b < |made| ==> fresh(made[b])
      ensures made != [] && bucket == made[|made| - 1]
    {
      var hour := (wall / 3600.0).Floor;
      Append(hour);
      DropOld(hour);
      ghost var h := M.Hour(old(Now()), wall);
      assert h.first < |h.made| && Now() == h;
      bucket := hours[|hours| - 1];
      assert made[|made| - 1] == bucket;
    }

    method MarkWaited(ticket: Ticket, ms: int)
      requires Linked() && IsOurs(ticket)
      modifies ticket`waiting, ticket`waitedMs
      ensures Linked() && Now() == MarkedWaited(old(Now()), ticket.number, ms)
    {
      ticket.waiting := false;
      ticket.waitedMs := ms;
      assert BucketValues(made) == old(BucketValues(made));
      assert TicketValues(tickets) == MarkedWaited(old(Now()), ticket.number, ms).tickets;
    }

    method RaiseLongest(bucket: HourBucket, ticket: Ticket, ms: int)
      requires Linked() && IsOurs(ticket) && made != [] && bucket == made[|made| - 1]
      modifies bucket`longest, ticket`ended
      ensures Linked() && Now() == RaisedLongest(old(Now()), ticket.number, ms)
    {
      bucket.longest := Max(bucket.longest, ms);
      ticket.ended := Some(bucket.number);
      assert BucketValues(made) == RaisedLongest(old(Now()), ticket.number, ms).made;
      assert TicketValues(tickets) == RaisedLongest(old(Now()), ticket.number, ms).tickets;
    }

    method RecordWait(ticket: Ticket, ms: int, wall: real)
      requires Linked() && IsOurs(ticket)
      modifies this`hours, this`made, this`first, ticket`ended, made
      ensures Linked() && Now() == RaisedLongest(M.Hour(old(Now()), wall), ticket.number, ms)
      ensures Grown(old(made), made) && forall b: nat :: |old(made)| <= b < |made| ==> fresh(made[b])
    {
      var bucket := Hour(wall);
      RaiseLongest(bucket, ticket, ms);
    }

    /** The request has its place, or has gone: its wait is over. */
    method Waited(ticket: Ticket, time: M.Time)
      requires Linked() && IsOurs(ticket)
      modifies this`hours, this`made, this`first, ticket`waiting, ticket`waitedMs, ticket`ended, made
      ensures Linked() && Now() == M.EndWait(old(Now()), ticket.number, time)
      ensures Grown(old(made), made) && forall b: nat :: |old(made)| <= b < |made| ==> fresh(made[b])
    {
      var ms := M.Waited(ticket.arrived, time.clock);
      ghost var q := Now();
      MarkWaited(ticket, ms);
      RecordWait(ticket, ms, time.wall);
      EndWaitIs(q, ticket.number, time);
    }

    method Create(clock: real, waits: bool) returns (ticket: Ticket)
      requires Linked()
      modifies this`inFlight, this`tickets
      ensures Linked() && Now() == Entered(old(Now()), clock, waits).(line := old(Now()).line)
      ensures fresh(ticket) && tickets == old(tickets) + [ticket] && ticket.number == |old(tickets)|
              && ticket.waiting == waits
    {
      ticket := new Ticket(|tickets|, clock, waits, process);
      inFlight := inFlight + 1;
      tickets := tickets + [ticket];
      assert BucketValues(made) == old(BucketValues(made));
      assert TicketValues(tickets) == old(TicketValues(tickets)) + [ticket.Value()];
    }

    method JoinLine(ticket: Ticket)
      requires Linked() && IsOurs(ticket)
      modifies this`waiting
      ensures Linked() && Now() == old(Now()).(line := old(Now()).line + [ticket.number])
    {
      ghost var line := Numbers(waiting);
      waiting := waiting + [ticket];
      assert Numbers(waiting) == line + [ticket.number];
    }

    method CountIn(ticket: Ticket, bucket: HourBucket)
      requires Linked() && IsOurs(ticket) && made != [] && bucket == made[|made| - 1]
      modifies bucket`queued, ticket`counted
      ensures Linked() && Now() == Counted(old(Now()), ticket.number)
    {
      ticket.counted := bucket;
      bucket.queued := bucket.queued + 1;
      assert BucketValues(made) == Counted(old(Now()), ticket.number).made;
      assert TicketValues(tickets) == Counted(old(Now()), ticket.number).tickets;
    }

    method Count(ticket: Ticket, wall: real)
      requires Linked() && IsOurs(ticket)
      modifies this`hours, this`made, this`first, ticket`counted, made
      ensures Linked() && Now() == Counted(M.Hour(old(Now()), wall), ticket.number)
      ensures Grown(old(made), made) && forall b: nat :: |old(made)| <= b < |made| ==> fresh(made[b])
    {
      var bucket := Hour(wall);
      CountIn(ticket, bucket);
    }

    method Take(time: M.Time, waits: bool) returns (ticket: Ticket)
      requires Linked()
      modifies this, made
      ensures Linked() && fresh(ticket) && tickets == old(tickets) + [ticket]
      ensures Now() == if waits then Counted(M.Hour(Entered(old(Now()), time.clock, true), time.wall), |old(tickets)|)
                       else Entered(old(Now()), time.clock, false)
      ensures Grown(old(made), made) && forall b: nat :: |old(made)| <= b < |made| ==> fresh(made[b])
    {
      ticket := Create(time.clock, waits);
      if waits {
        JoinLine(ticket);
        Count(ticket, time.wall);
      }
    }

    /** Hands out a new ticket, which waits unless one of the places is free. */
    method Arrive(places: nat, time: M.Time) returns (ticket: Ticket)
      requires Valid()
      modifies this, made
      ensures Valid() && Now() == M.DoArrive(old(Now()), places, time)
      ensures fresh(ticket) && tickets == old(tickets) + [ticket]
      ensures Grown(old(made), made) && forall b: nat :: |old(made)| <= b < |made| ==> fresh(made[b])
    {
      ghost var q := Now();
      ticket := Take(time, inFlight >= places);
      ArriveKeeps(q, places, time, Now());
    }

    method SetFate(ticket: Ticket)
      requires Linked() && IsOurs(ticket)
      modifies ticket`fate
      ensures Linked() && Now() == M.Fated(old(Now()), ticket.number, M.Left)
    {
      ticket.fate := M.Left;
      assert BucketValues(made) == old(BucketValues(made));
      assert TicketValues(tickets) == M.Fated(old(Now()), ticket.number, M.Left).tickets;
    }

    method Find(ticket: Ticket) returns (i: nat)
      requires ticket in waiting
      ensures i < |waiting| && waiting[i] == ticket && ticket !in waiting[..i]
    {
      i := 0;
      while waiting[i] != ticket
        invariant i < |waiting| && ticket in waiting[i..] && ticket !in waiting[..i]
        decreases |waiting| - i
      {
        i := i + 1;
      }
    }

    method Remove(ticket: Ticket)
      requires Linked() && IsOurs(ticket) && ticket in waiting
      modifies this`waiting
      ensures Linked() && Now() == old(Now()).(line := M.Without(old(Now()).line, ticket.number))
    {
      var i := Find(ticket);
      ghost var line := Numbers(waiting);
      forall j | 0 <= j < i ensures line[j] != line[i] {
        assert IsOurs(waiting[j]) && waiting[j] in waiting[..i];
      }
      M.WithoutAt(line, i);
      waiting := waiting[..i] + waiting[i + 1..];
      assert Numbers(waiting) == line[..i] + line[i + 1..];
    }

    lemma InHours(bucket: HourBucket?)
      requires Linked() && (bucket != null ==> IsMade(bucket))
      ensures bucket in hours <==> bucket != null && first <= bucket.number
    {
      assert forall i :: 0 <= i < |hours| ==> hours[i] == made[first + i];
    }

    method TakeBack(bucket: HourBucket?)
      requires Linked() && (bucket != null ==> IsMade(bucket))
      modifies bucket
      ensures Linked() && Now() == M.Uncount(old(Now()), if bucket == null then None else Some(bucket.number))
    {
      ghost var after := M.Uncount(Now(), if bucket == null then None else Some(bucket.number)).made;
      InHours(bucket);
      if bucket in hours {
        bucket.queued := bucket.queued - 1;
      }
      assert BucketValues(made) == after;
      assert TicketValues(tickets) == old(TicketValues(tickets));
    }

    method MarkRefused(ticket: Ticket)
      requires Linked() && IsOurs(ticket)
      modifies ticket`waiting, ticket`fate
      ensures Linked()
      ensures var t := ticket.number;
              var was := old(Now());
              Now() == was.(tickets := was.tickets[t := was.tickets[t].(waiting := false, fate := M.Refused)])
    {
      ghost var t := ticket.number;
      ghost var after := Now().tickets[t := Now().tickets[t].(waiting := false, fate := M.Refused)];
      ticket.waiting := false;
      ticket.fate := M.Refused;
      assert BucketValues(made) == old(BucketValues(made));
      assert TicketValues(tickets) == after;
    }

    /** It never queued: the hour it was counted in, if still kept, takes it back. */
    method Refuse(ticket: Ticket)
      requires Linked() && IsOurs(ticket)
      requires M.TicketOk(Now().tickets[ticket.number], |made|, process)
      modifies ticket`waiting, ticket`fate, made
      ensures Linked() && Now() == M.Refuse(old(Now()), ticket.number)
    {
      MarkRefused(ticket);
      TakeBack(ticket.counted);
    }

    /** The head of the line, if any, stops waiting. */
    method HandOver(time: M.Time)
      requires Linked()
      modifies this`hours, this`made, this`first, this`waiting, waiting, made
      ensures Linked() && (old(Now()).line != [] ==> old(Now()).line[0] < |old(tickets)|)
      ensures Now() == M.HandOver(old(Now()), time)
      ensures Grown(old(made), made) && forall b: nat :: |old(made)| <= b < |made| ==> fresh(made[b])
    {
      if waiting != [] {
        var head := waiting[0];
        ghost var q := Now();
        waiting := waiting[1..];
        assert Numbers(waiting) == q.line[1..];
        assert Now() == q.(line := q.line[1..]);
        Waited(head, time);
      }
    }

    /** The request gave up, or the engine turned it away. */
    method GiveUp(ticket: Ticket, refused: bool, time: M.Time)
      requires Linked() && IsOurs(ticket) && ticket in waiting
      requires M.TicketOk(Now().tickets[ticket.number], |made|, process)
      modifies this`hours, this`made, this`first, this`waiting, ticket, made
      ensures Linked()
      ensures var q := old(Now()).(line := M.Without(old(Now()).line, ticket.number));
              Now() == if refused then M.Refuse(q, ticket.number)
                       else M.Fated(M.EndWait(q, ticket.number, time), ticket.number, M.Left)
      ensures Grown(old(made), made) && forall b: nat :: |old(made)| <= b < |made| ==> fresh(made[b])
    {
      Remove(ticket);
      if refused {
        Refuse(ticket);
      } else {
        Waited(ticket, time);
        SetFate(ticket);
      }
    }

    /** The request held a place. */
    method GiveBack(ticket: Ticket, time: M.Time)
      requires Linked() && IsOurs(ticket)
      modifies this`hours, this`made, this`first, this`waiting, waiting, ticket, made
      ensures Linked() && (old(Now()).line != [] ==> old(Now()).line[0] < |old(tickets)|)
      ensures Now() == M.Fated(M.HandOver(old(Now()), time), ticket.number, M.Left)
      ensures Grown(old(made), made) && forall b: nat :: |old(made)| <= b < |made| ==> fresh(made[b])
    {
      HandOver(time);
      SetFate(ticket);
    }

    /** The ticket goes; if it held a place, the head of the line takes it over. */
    method Leave(ticket: Ticket, refused: bool, time: M.Time)
      requires Valid() && IsOurs(ticket) && ticket.fate.Here?
      modifies this`hours, this`made, this`first, this`waiting, this`inFlight, waiting, ticket, made
      ensures Valid() && Now() == M.DoLeave(old(Now()), ticket.number, refused, time)
      ensures Grown(old(made), made) && forall b: nat :: |old(made)| <= b < |made| ==> fresh(made[b])
    {
      ghost var q := Now();
      WaitsInLine(q, ticket.number);
      if ticket.process != process {
        SetFate(ticket);
        StaleLeaves(q, ticket.number, refused, time);
      } else if ticket.waiting {
        InLine(ticket);
        inFlight := inFlight - 1;
        assert Now() == q.(inFlight := q.inFlight - 1);
        GiveUp(ticket, refused, time);
        WaiterLeaves(q, ticket.number, refused, time, Now());
      } else {
        inFlight := inFlight - 1;
        assert Now() == q.(inFlight := q.inFlight - 1);
        GiveBack(ticket, time);
        HolderLeaves(q, ticket.number, refused, time, Now());
      }
    }

    lemma InLine(ticket: Ticket)
      requires Linked() && IsOurs(ticket) && ticket.number in Now().line
      ensures ticket in waiting
    {
      var i :| 0 <= i < |waiting| && Now().line[i] == ticket.number;
      assert IsOurs(waiting[i]);
    }

    /** The recorded wait of a ticket that is no longer in the line. */
    method WaitedMs(ticket: Ticket) returns (ms: Option<int>)
      requires Valid() && IsOurs(ticket)
      ensures ms == None <==> ticket.number in Now().line
      ensures ms.Some? ==> ms.value == Now().tickets[ticket.number].waitedMs
    {
      WaitsInLine(Now(), ticket.number);
      ms := if ticket.waiting then None else Some(ticket.waitedMs);
    }

    method EndNext(ghost q: M.Queue, i: nat, times: nat -> M.Time)
      requires Linked() && i < |waiting| && q.first <= |q.made|
      requires forall j :: 0 <= j < |q.line| ==> q.line[j] < |q.tickets|
      requires i < |q.line| && q.line[i] == waiting[i].number && Now() == M.EndWaits(q, q.line[..i], times)
      modifies this`hours, this`made, this`first, waiting, made
      ensures Linked() && Now() == M.EndWaits(q, q.line[..i + 1], times)
      ensures Grown(old(made), made) && forall b: nat :: |old(made)| <= b < |made| ==> fresh(made[b])
    {
      EndOneMore(q, q.line, times, i);
      Waited(waiting[i], times(i));
    }

    method EndAll(times: nat -> M.Time)
      requires Linked()
      modifies this`hours, this`made, this`first, waiting, made
      ensures Linked() && (forall i :: 0 <= i < |waiting| ==> IsOurs(waiting[i]))
      ensures Now() == M.EndWaits(old(Now()), old(Now()).line, times)
      ensures Grown(old(made), made) && forall b: nat :: |old(made)| <= b < |made| ==> fresh(made[b])
    {
      ghost var q := Now();
      var i := 0;
      while i < |waiting|
        invariant 0 <= i <= |waiting| && Linked()
        invariant Now() == M.EndWaits(q, q.line[..i], times)
        invariant Grown(old(made), made) && forall b: nat :: |old(made)| <= b < |made| ==> fresh(made[b])
      {
        EndNext(q, i, times);
        i := i + 1;
      }
      assert q.line[..i] == q.line;
    }

    method Clear()
      requires Linked()
      modifies this`waiting, this`inFlight, this`process
      ensures Linked() && Now() == old(Now()).(line := [], inFlight := 0, process := old(process) + 1)
    {
      waiting := [];
      inFlight := 0;
      process := process + 1;
      assert TicketValues(tickets) == old(TicketValues(tickets)) && BucketValues(made) == old(BucketValues(made));
    }

    /** Ends the wait of every ticket in the line, in order, empties the line and
        moves to the next process number. */
    method Restart(times: nat -> M.Time)
      requires Valid()
      modifies this`hours, this`made, this`first, this`waiting, this`inFlight, this`process, waiting, made
      ensures Valid() && Now() == M.DoRestart(old(Now()), times)
      ensures Grown(old(made), made) && forall b: nat :: |old(made)| <= b < |made| ==> fresh(made[b])
    {
      ghost var q := Now();
      EndAll(times);
      ghost var m := Now();
      Clear();
      RestartKeeps(q, times, m, Now());
    }

    lemma KeptAreHours()
      requires Linked()
      ensures Now().made[first..] == BucketValues(hours)
    {
      assert forall b :: 0 <= b < |hours| ==> hours[b] == made[first + b];
    }

    method Totals() returns (queued: int, longest: int)
      ensures queued == M.SumQueued(BucketValues(hours)) && longest == M.MaxLongest(BucketValues(hours))
    {
      ghost var kept := BucketValues(hours);
      queued, longest := 0, 0;
      for i := 0 to |hours|
        invariant queued == M.SumQueued(kept[..i]) && longest == M.MaxLongest(kept[..i])
      {
        assert kept[..i + 1][..i] == kept[..i];
        queued := queued + hours[i].queued;
        longest := if i == 0 then hours[i].longest else Max(longest, hours[i].longest);
      }
      assert kept[..|hours|] == kept;
    }

    /** The model's tally, once the buckets that are too old are gone. */
    method LastDay(time: M.Time) returns (queued: int, longest: int)
      requires Valid()
      modifies this`hours, this`made, this`first
      ensures Valid() && Now() == M.Hour(old(Now()), time.wall)
      ensures (queued, longest) == M.Tally(Now(), time.clock)
    {
      Tick(time);
      queued, longest := Longest(time.clock);
    }

    method Tick(time: M.Time)
      requires Valid()
      modifies this`hours, this`made, this`first
      ensures Valid() && Now() == M.Hour(old(Now()), time.wall)
    {
      ghost var q := Now();
      var _ := Hour(time.wall);
      HourKeeps(q, time, Now());
    }

    method Longest(clock: real) returns (queued: int, longest: int)
      requires Valid()
      ensures (queued, longest) == M.Tally(Now(), clock)
    {
      KeptAreHours();
      queued, longest := Totals();
      if waiting != [] {
        longest := Max(longest, M.Waited(waiting[0].arrived, clock));
      }
    }
  }
}
