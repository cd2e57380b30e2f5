/** The paged key/value cache (lazarus/platforms/mps/attention.py and compat.py). */
module PagedCache {
  // A token at position p of a request is written to the slot its block table names,
  // and a request's entries are gathered back block by block. `E` is one cached
  // entry; the same functions serve keys and values.

  /** Requests as the allocator sees them, and the plain list of what each has written. */
  datatype Request<E> = Request(table: seq<nat>, filled: seq<E>)

  /** `cache` is flat: block b, offset o is slot b * bs + o. */
  datatype Store<E> = Store(bs: nat, cache: seq<E>, requests: map<nat, Request<E>>)

  /** Token t belongs to the row r with start[r] <= t < start[r + 1]. */
  datatype Batch<E> = Batch(ids: seq<nat>, start: seq<nat>, positions: seq<nat>, entries: seq<E>)

  const PAD_SLOT_ID: int := -1

  // ----- slots -----

  function Slot(table: seq<nat>, bs: nat, p: nat): nat
    requires bs > 0 && p / bs < |table|
  {
    table[p / bs] * bs + p % bs
  }

  function Repeat(r: nat, n: nat): (s: seq<nat>)
    ensures |s| == n && forall i :: 0 <= i < n ==> s[i] == r
  {
    seq(n, _ => r)
  }

  function Count(start: seq<nat>, r: nat): nat
    requires r + 1 < |start|
  {
    if start[r + 1] > start[r] then start[r + 1] - start[r] else 0
  }

  /** repeat_interleave: the row of every token, from the first n offsets' counts. */
  function RowsOf(start: seq<nat>, n: nat): (s: seq<nat>)
    requires n < |start|
    ensures forall t :: 0 <= t < |s| ==> s[t] < n
  {
    if n == 0 then [] else RowsOf(start, n - 1) + Repeat(n - 1, Count(start, n - 1))
  }

  predicate Offsets(start: seq<nat>) {
    start != [] && start[0] == 0 && forall r, q :: 0 <= r <= q < |start| ==> start[r] <= start[q]
  }

  lemma {:induction false} RowsAreRanges(start: seq<nat>, n: nat)
    requires Offsets(start) && n < |start|
    ensures |RowsOf(start, n)| == start[n]
    ensures forall t :: 0 <= t < start[n] ==> start[RowsOf(start, n)[t]] <= t < start[RowsOf(start, n)[t] + 1]
  {
    if n > 0 {
      RowsAreRanges(start, n - 1);
    }
  }

  /** The row of token t is the only one whose range holds it. */
  lemma RowOf(start: seq<nat>, n: nat, r: nat, t: nat)
    requires Offsets(start) && r < n < |start| && start[r] <= t < start[r + 1]
    ensures t < |RowsOf(start, n)| && RowsOf(start, n)[t] == r
  {
    RowsAreRanges(start, n);
  }

  /** What the table, the positions and the offsets must offer: every token's block. */
  predicate Mappable(tables: seq<seq<nat>>, bs: nat, start: seq<nat>, positions: seq<nat>) {
    && bs > 0 && |start| == |tables| + 1 && |RowsOf(start, |tables|)| <= |positions|
    && forall t :: 0 <= t < |RowsOf(start, |tables|)| ==> positions[t] / bs < |tables[RowsOf(start, |tables|)[t]]|
  }

  function Slots(tables: seq<seq<nat>>, bs: nat, start: seq<nat>, positions: seq<nat>): (s: seq<nat>)
    requires Mappable(tables, bs, start, positions)
    ensures |s| == |RowsOf(start, |tables|)|
  {
    var rows := RowsOf(start, |tables|);
    seq(|rows|, t requires 0 <= t < |rows| => Slot(tables[rows[t]], bs, positions[t]))
  }

  lemma AtLeastOnce(k: int, d: nat)
    requires k >= 1
    ensures k * d >= d
  {
    assert k * d == (k - 1) * d + d;
  }

  lemma SameSplit(a: int, o: nat, b: int, u: nat, bs: nat)
    requires o < bs && u < bs && a * bs + o == b * bs + u
    ensures a == b && o == u
  {
    assert (a - b) * bs == a * bs - b * bs == u - o;
    assert (b - a) * bs == o - u;
    if a > b {
      AtLeastOnce(a - b, bs);
    } else if b > a {
      AtLeastOnce(b - a, bs);
    }
  }

  lemma SplitOnce(b: nat, o: nat, bs: nat)
    requires o < bs
    ensures (b * bs + o) / bs == b && (b * bs + o) % bs == o
  {
    var s := b * bs + o;
    SplitBack(s, bs);
    SameSplit(b, o, s / bs, s % bs, bs);
  }

  lemma SplitBack(p: nat, bs: nat)
    requires bs > 0
    ensures p == p / bs * bs + p % bs && p % bs < bs
  {
  }

  lemma Below(p: nat, n: nat, bs: nat)
    requires bs > 0
    ensures p < n * bs <==> p / bs < n
  {
    SplitBack(p, bs);
    Less(p / bs, p % bs, n, bs);
  }

  lemma Less(b: nat, o: nat, n: nat, bs: nat)
    requires o < bs
    ensures b * bs + o < n * bs <==> b < n
  {
    assert (n - b) * bs == n * bs - b * bs;
    if b < n {
      AtLeastOnce(n - b, bs);
    } else {
      assert (b - n) * bs == b * bs - n * bs;
    }
  }

  lemma SplitsDiffer(a: nat, o: nat, b: nat, u: nat, bs: nat)
    requires o < bs && u < bs && (a != b || o != u)
    ensures a * bs + o != b * bs + u
  {
    if a * bs + o == b * bs + u {
      SameSplit(a, o, b, u, bs);
    }
  }

  /** Two positions of a table without repeated blocks never share a slot. */
  lemma SlotsDiffer(table: seq<nat>, bs: nat, p: nat, q: nat)
    requires bs > 0 && p / bs < |table| && q / bs < |table| && p != q
    requires NoRepeats(table)
    ensures Slot(table, bs, p) != Slot(table, bs, q)
  {
    var i, j := p / bs, q / bs;
    SplitBack(p, bs);
    SplitBack(q, bs);
    assert i != j ==> table[i] != table[j];
    SplitsDiffer(table[i], p % bs, table[j], q % bs, bs);
  }

  predicate NoRepeats(table: seq<nat>) {
    forall i, j :: 0 <= i < j < |table| ==> table[i] != table[j]
  }

  // ----- writing -----

  /** One write after another, token by token. */
  function Scatter<E>(cache: seq<E>, slots: seq<nat>, entries: seq<E>, n: nat): (r: seq<E>)
    requires n <= |slots| && n <= |entries| && forall t :: 0 <= t < n ==> slots[t] < |cache|
    ensures |r| == |cache|
  {
    if n == 0 then cache else Scatter(cache, slots, entries, n - 1)[slots[n - 1] := entries[n - 1]]
  }

  lemma {:induction false} ScatterAt<E>(cache: seq<E>, slots: seq<nat>, entries: seq<E>, n: nat, s: nat)
    requires n <= |slots| && n <= |entries| && forall t :: 0 <= t < n ==> slots[t] < |cache|
    requires forall t, u :: 0 <= t < u < n ==> slots[t] != slots[u]
    requires s < |cache|
    ensures (forall t :: 0 <= t < n ==> slots[t] != s) ==> Scatter(cache, slots, entries, n)[s] == cache[s]
    ensures forall t :: 0 <= t < n && slots[t] == s ==> Scatter(cache, slots, entries, n)[s] == entries[t]
  {
    if n > 0 {
      ScatterAt(cache, slots, entries, n - 1, s);
    }
  }

  // ----- gathering -----

  function Ceil(n: nat, bs: nat): nat
    requires bs > 0
  {
    (n + bs - 1) / bs
  }

  function Clamp(b: nat, blocks: nat): nat {
    if b < blocks then b else if blocks == 0 then 0 else blocks - 1
  }

  function Min(a: int, b: int): int {
    if a < b then a else b
  }

  /** index_select and reshape: the first n blocks of the table, end to end. */
  function Blocks<E>(cache: seq<E>, bs: nat, table: seq<nat>, n: nat): (r: seq<E>)
    requires bs > 0 && n <= |table| && (n > 0 ==> |cache| >= bs)
    ensures |r| == n * bs
  {
    if n == 0 then []
    else
      var b := Clamp(table[n - 1], |cache| / bs);
      InBounds(b, |cache|, bs);
      Blocks(cache, bs, table, n - 1) + cache[b * bs..b * bs + bs]
  }

  lemma InBounds(b: nat, size: nat, bs: nat)
    requires bs > 0 && b < size / bs
    ensures b * bs + bs <= size
  {
    assert (b + 1) * bs <= size / bs * bs;
  }

  function Gather<E>(cache: seq<E>, bs: nat, table: seq<nat>, len: nat): (r: seq<E>)
    requires bs > 0 && Ceil(len, bs) <= |table| && (len > 0 ==> |cache| >= bs)
  {
    CeilCovers(len, bs);
    Blocks(cache, bs, table, Ceil(len, bs))[..Min(len, Ceil(len, bs) * bs)]
  }

  lemma CeilCovers(len: nat, bs: nat)
    requires bs > 0
    ensures len <= Ceil(len, bs) * bs && (len == 0 ==> Ceil(len, bs) == 0)
  {
    SplitBack(len + bs - 1, bs);
  }

  lemma PositionsCovered(len: nat, bs: nat, p: nat)
    requires bs > 0 && p < len
    ensures p / bs < Ceil(len, bs)
  {
    CeilCovers(len, bs);
    Below(p, Ceil(len, bs), bs);
  }

  lemma {:induction false} BlocksAt<E>(cache: seq<E>, bs: nat, table: seq<nat>, n: nat, p: nat)
    requires bs > 0 && n <= |table| && (n > 0 ==> |cache| >= bs)
    requires p / bs < n && table[p / bs] < |cache| / bs
    ensures p < n * bs && Slot(table, bs, p) < |cache| && Blocks(cache, bs, table, n)[p] == cache[Slot(table, bs, p)]
  {
    var b, o := p / bs, p % bs;
    InBounds(table[b], |cache|, bs);
    SplitBack(p, bs);
    Below(p, n, bs);
    Below(p, n - 1, bs);
    if b < n - 1 {
      BlocksAt(cache, bs, table, n - 1, p);
    } else {
      LastBlockAt(cache, bs, table, n, o);
    }
  }

  lemma LastBlockAt<E>(cache: seq<E>, bs: nat, table: seq<nat>, n: nat, o: nat)
    requires bs > 0 && 0 < n <= |table| && |cache| >= bs && o < bs && table[n - 1] < |cache| / bs
    ensures table[n - 1] * bs + bs <= |cache| && (n - 1) * bs + o < n * bs
    ensures Blocks(cache, bs, table, n)[(n - 1) * bs + o] == cache[table[n - 1] * bs + o]
  {
    var b := table[n - 1];
    InBounds(b, |cache|, bs);
    var before, last := Blocks(cache, bs, table, n - 1), cache[b * bs..b * bs + bs];
    assert Blocks(cache, bs, table, n) == before + last;
    assert (before + last)[|before| + o] == last[o];
  }

  // ----- a store and its requests -----

  /** Every request's entries are where its table says, position by position. */
  ghost predicate Holds<E>(s: Store<E>, r: Request<E>) {
    s.bs > 0 && NoRepeats(r.table) && forall p: nat :: p < |r.filled| ==> HoldsAt(s, r, p)
  }

  ghost predicate HoldsAt<E>(s: Store<E>, r: Request<E>, p: nat)
    requires s.bs > 0 && p < |r.filled|
  {
    && p / s.bs < |r.table| && r.table[p / s.bs] < |s.cache| / s.bs
    && Slot(r.table, s.bs, p) < |s.cache| && s.cache[Slot(r.table, s.bs, p)] == r.filled[p]
  }

  ghost predicate Refines<E>(s: Store<E>) {
    s.bs > 0 && forall id :: id in s.requests ==> Holds(s, s.requests[id])
  }

  /** Gathering a request's blocks and cutting at its length gives back exactly what
      it wrote; no block is clamped. */
  lemma GatherIsFilled<E>(s: Store<E>, r: Request<E>)
    requires Holds(s, r)
    ensures Ceil(|r.filled|, s.bs) <= |r.table| && (|r.filled| > 0 ==> |s.cache| >= s.bs)
    ensures Gather(s.cache, s.bs, r.table, |r.filled|) == r.filled
  {
    var len := |r.filled|;
    CeilCovers(len, s.bs);
    if len > 0 {
      assert HoldsAt(s, r, len - 1);
      LastPosition(len, s.bs);
      BigEnough(|s.cache|, s.bs);
    }
    var n := Ceil(len, s.bs);
    var g := Gather(s.cache, s.bs, r.table, len);
    forall p: nat | p < len ensures g[p] == r.filled[p] {
      assert HoldsAt(s, r, p);
      PositionsCovered(len, s.bs, p);
      BlocksAt(s.cache, s.bs, r.table, n, p);
    }
  }

  lemma LastPosition(len: nat, bs: nat)
    requires bs > 0 && len > 0
    ensures Ceil(len, bs) == (len - 1) / bs + 1
  {
    var b, o := (len - 1) / bs, (len - 1) % bs;
    SplitBack(len - 1, bs);
    assert (b + 1) * bs == b * bs + bs;
    SplitOnce(b + 1, o, bs);
  }

  lemma BigEnough(size: nat, bs: nat)
    requires bs > 0 && size / bs > 0
    ensures size >= bs
  {
    InBounds(0, size, bs);
  }

  // ----- a batch -----

  function Tokens<E>(b: Batch<E>): nat {
    if b.start == [] then 0 else b.start[|b.start| - 1]
  }

  predicate InRow<E>(b: Batch<E>, r: nat, t: nat) {
    r + 1 < |b.start| && b.start[r] <= t < b.start[r + 1]
  }

  /** A batch as the runner builds it: offsets that do not fall, each row's positions
      following on what its request has, a block for each. */
  ghost predicate Consistent<E>(s: Store<E>, b: Batch<E>) {
    && s.bs > 0 && Offsets(b.start) && |b.start| == |b.ids| + 1 && NoRepeats(b.ids)
    && (forall r :: 0 <= r < |b.ids| ==> b.ids[r] in s.requests)
    && Tokens(b) <= |b.positions| && Tokens(b) <= |b.entries|
    && (forall r: nat, t: nat :: InRow(b, r, t) ==> RowOk(s, b, r, t))
  }

  ghost predicate RowOk<E>(s: Store<E>, b: Batch<E>, r: nat, t: nat)
    requires s.bs > 0 && InRow(b, r, t) && r < |b.ids| && b.ids[r] in s.requests && t < |b.positions|
  {
    var q := s.requests[b.ids[r]];
    var p := b.positions[t];
    p == |q.filled| + (t - b.start[r]) && p / s.bs < |q.table| && q.table[p / s.bs] < |s.cache| / s.bs
  }

  ghost function TokenSlot<E>(s: Store<E>, b: Batch<E>, r: nat, t: nat): nat
    requires Consistent(s, b) && InRow(b, r, t)
  {
    assert RowOk(s, b, r, t);
    Slot(s.requests[b.ids[r]].table, s.bs, b.positions[t])
  }

  /** No slot is written for two rows, or holds a filled position of another request. */
  ghost predicate Apart<E>(s: Store<E>, b: Batch<E>)
    requires Consistent(s, b)
  {
    && (forall r: nat, t: nat, q: nat, u: nat :: InRow(b, r, t) && InRow(b, q, u) && r != q ==>
          TokenSlot(s, b, r, t) != TokenSlot(s, b, q, u))
    && (forall r: nat, t: nat, id, p: nat ::
          InRow(b, r, t) && id in s.requests && id != b.ids[r] && p < |s.requests[id].filled|
            && HoldsAt(s, s.requests[id], p) ==>
            TokenSlot(s, b, r, t) != Slot(s.requests[id].table, s.bs, p))
  }

  function Tables<E>(requests: map<nat, Request<E>>, ids: seq<nat>): (r: seq<seq<nat>>)
    requires forall i :: 0 <= i < |ids| ==> ids[i] in requests
    ensures |r| == |ids| && forall i :: 0 <= i < |ids| ==> r[i] == requests[ids[i]].table
  {
    seq(|ids|, i requires 0 <= i < |ids| => requests[ids[i]].table)
  }

  /** Every token lies in one row. */
  lemma TokenRow<E>(s: Store<E>, b: Batch<E>, t: nat) returns (r: nat)
    requires Consistent(s, b) && t < Tokens(b)
    ensures InRow(b, r, t) && r < |b.ids|
  {
    RowsAreRanges(b.start, |b.ids|);
    r := RowsOf(b.start, |b.ids|)[t];
  }

  lemma BatchIsMappable<E>(s: Store<E>, b: Batch<E>)
    requires Consistent(s, b)
    ensures Mappable(Tables(s.requests, b.ids), s.bs, b.start, b.positions) && |RowsOf(b.start, |b.ids|)| == Tokens(b)
  {
    RowsAreRanges(b.start, |b.ids|);
    var rows := RowsOf(b.start, |b.ids|);
    forall t: nat | t < |rows| ensures b.positions[t] / s.bs < |Tables(s.requests, b.ids)[rows[t]]| {
      assert InRow(b, rows[t], t) && RowOk(s, b, rows[t], t);
    }
  }

  lemma TokenSlotFits<E>(s: Store<E>, b: Batch<E>, r: nat, t: nat)
    requires Consistent(s, b) && InRow(b, r, t)
    ensures TokenSlot(s, b, r, t) < |s.cache|
  {
    assert RowOk(s, b, r, t);
    InBounds(s.requests[b.ids[r]].table[b.positions[t] / s.bs], |s.cache|, s.bs);
    SplitBack(b.positions[t], s.bs);
  }

  /** The slot mapping the code computes is each row's own. */
  lemma SlotsAreTokenSlots<E>(s: Store<E>, b: Batch<E>)
    requires Consistent(s, b)
    ensures Mappable(Tables(s.requests, b.ids), s.bs, b.start, b.positions)
    ensures var slots := Slots(Tables(s.requests, b.ids), s.bs, b.start, b.positions);
            && |slots| == Tokens(b)
            && forall r: nat, t: nat :: InRow(b, r, t) ==>
                 t < Tokens(b) && slots[t] == TokenSlot(s, b, r, t) < |s.cache|
  {
    BatchIsMappable(s, b);
    forall r: nat, t: nat | InRow(b, r, t)
      ensures t < Tokens(b) && RowsOf(b.start, |b.ids|)[t] == r && TokenSlot(s, b, r, t) < |s.cache|
    {
      RowOf(b.start, |b.ids|, r, t);
      TokenSlotFits(s, b, r, t);
    }
  }

  /** What _mps_compute_slot_mapping fills in for the batch. */
  ghost function BatchSlots<E>(s: Store<E>, b: Batch<E>): (slots: seq<nat>)
    requires Consistent(s, b)
    ensures |slots| == Tokens(b)
    ensures forall r: nat, t: nat :: InRow(b, r, t) ==> t < Tokens(b) && slots[t] == TokenSlot(s, b, r, t) < |s.cache|
    ensures forall t :: 0 <= t < |slots| ==> slots[t] < |s.cache|
  {
    SlotsAreTokenSlots(s, b);
    var slots := Slots(Tables(s.requests, b.ids), s.bs, b.start, b.positions);
    assert forall t: nat :: t < |slots| ==> slots[t] < |s.cache| by {
      forall t: nat | t < |slots| ensures slots[t] < |s.cache| {
        var r := TokenRow(s, b, t);
      }
    }
    slots
  }

  lemma TokenSlotsDiffer<E>(s: Store<E>, b: Batch<E>, t: nat, u: nat)
    requires Refines(s) && Consistent(s, b) && Apart(s, b) && t < u < Tokens(b)
    ensures BatchSlots(s, b)[t] != BatchSlots(s, b)[u]
  {
    var r := TokenRow(s, b, t);
    var q := TokenRow(s, b, u);
    assert RowOk(s, b, r, t) && RowOk(s, b, q, u);
    if r == q {
      assert Holds(s, s.requests[b.ids[r]]);
      SlotsDiffer(s.requests[b.ids[r]].table, s.bs, b.positions[t], b.positions[u]);
    }
  }

  /** The requests after the first n rows: each has its row's entries appended. */
  ghost function Appended<E>(requests: map<nat, Request<E>>, b: Batch<E>, n: nat): (m: map<nat, Request<E>>)
    requires Offsets(b.start) && n < |b.start| && n <= |b.ids| && Tokens(b) <= |b.entries|
    requires forall r :: 0 <= r < |b.ids| ==> b.ids[r] in requests
    ensures m.Keys == requests.Keys
  {
    if n == 0 then requests
    else
      var m := Appended(requests, b, n - 1);
      var id := b.ids[n - 1];
      m[id := m[id].(filled := m[id].filled + b.entries[b.start[n - 1]..b.start[n]])]
  }

  lemma {:induction false} AppendedAt<E>(requests: map<nat, Request<E>>, b: Batch<E>, n: nat)
    requires Offsets(b.start) && n < |b.start| && n <= |b.ids| && Tokens(b) <= |b.entries| && NoRepeats(b.ids)
    requires forall r :: 0 <= r < |b.ids| ==> b.ids[r] in requests
    ensures forall id :: id in requests && id !in b.ids[..n] ==> Appended(requests, b, n)[id] == requests[id]
    ensures forall r :: 0 <= r < n ==>
              Appended(requests, b, n)[b.ids[r]]
                == requests[b.ids[r]].(filled := requests[b.ids[r]].filled + b.entries[b.start[r]..b.start[r + 1]])
  {
    if n > 0 {
      AppendedAt(requests, b, n - 1);
      assert b.ids[..n] == b.ids[..n - 1] + [b.ids[n - 1]];
      assert b.ids[n - 1] !in b.ids[..n - 1];
    }
  }

  /** forward's writes, and the lists they stand for. */
  ghost function DoStep<E>(s: Store<E>, b: Batch<E>): Store<E>
    requires Consistent(s, b)
  {
    s.(cache := Scatter(s.cache, BatchSlots(s, b), b.entries, Tokens(b)), requests := Appended(s.requests, b, |b.ids|))
  }

  lemma WrittenAt<E>(s: Store<E>, b: Batch<E>, r: nat, t: nat)
    requires Refines(s) && Consistent(s, b) && Apart(s, b) && InRow(b, r, t)
    ensures t < Tokens(b) && DoStep(s, b).cache[TokenSlot(s, b, r, t)] == b.entries[t]
  {
    AllDiffer(s, b);
    ScatterAt(s.cache, BatchSlots(s, b), b.entries, Tokens(b), TokenSlot(s, b, r, t));
  }

  lemma AllDiffer<E>(s: Store<E>, b: Batch<E>)
    requires Refines(s) && Consistent(s, b) && Apart(s, b)
    ensures forall t, u :: 0 <= t < u < Tokens(b) ==> BatchSlots(s, b)[t] != BatchSlots(s, b)[u]
  {
    forall t, u | 0 <= t < u < Tokens(b) ensures BatchSlots(s, b)[t] != BatchSlots(s, b)[u] {
      TokenSlotsDiffer(s, b, t, u);
    }
  }

  /** A filled position keeps its entry: no token of the batch is written there. */
  lemma UntouchedAt<E>(s: Store<E>, b: Batch<E>, id: nat, p: nat)
    requires Refines(s) && Consistent(s, b) && Apart(s, b) && id in s.requests && p < |s.requests[id].filled|
    ensures var q := s.requests[id];
            && HoldsAt(s, q, p) && Slot(q.table, s.bs, p) < |s.cache|
            && DoStep(s, b).cache[Slot(q.table, s.bs, p)] == s.cache[Slot(q.table, s.bs, p)]
  {
    var q := s.requests[id];
    assert Holds(s, q) && HoldsAt(s, q, p);
    var slot := Slot(q.table, s.bs, p);
    forall t | 0 <= t < Tokens(b) ensures BatchSlots(s, b)[t] != slot {
      var r := TokenRow(s, b, t);
      assert RowOk(s, b, r, t);
      if b.ids[r] == id {
        SlotsDiffer(q.table, s.bs, b.positions[t], p);
      }
    }
    AllDiffer(s, b);
    ScatterAt(s.cache, BatchSlots(s, b), b.entries, Tokens(b), slot);
  }

  lemma NewAt<E>(s: Store<E>, b: Batch<E>, r: nat, t: nat, q: Request<E>)
    requires Refines(s) && Consistent(s, b) && Apart(s, b) && InRow(b, r, t) && r < |b.ids|
    requires var was := s.requests[b.ids[r]]; q == was.(filled := was.filled + b.entries[b.start[r]..b.start[r + 1]])
    ensures b.positions[t] < |q.filled| && HoldsAt(DoStep(s, b), q, b.positions[t])
  {
    assert RowOk(s, b, r, t);
    WrittenAt(s, b, r, t);
    var was, p := s.requests[b.ids[r]], b.positions[t];
    assert q.filled[p] == b.entries[b.start[r]..b.start[r + 1]][t - b.start[r]] == b.entries[t];
    var z := DoStep(s, b);
    assert Slot(q.table, z.bs, p) == TokenSlot(s, b, r, t);
  }

  lemma OldAt<E>(s: Store<E>, b: Batch<E>, id: nat, p: nat, q: Request<E>)
    requires Refines(s) && Consistent(s, b) && Apart(s, b) && id in s.requests
             && p < |s.requests[id].filled| <= |q.filled|
    requires q.table == s.requests[id].table && q.filled[p] == s.requests[id].filled[p]
    ensures HoldsAt(DoStep(s, b), q, p)
  {
    UntouchedAt(s, b, id, p);
  }

  lemma GrownHolds<E>(s: Store<E>, b: Batch<E>, r: nat, q: Request<E>)
    requires Refines(s) && Consistent(s, b) && Apart(s, b) && r < |b.ids|
    requires var was := s.requests[b.ids[r]]; q == was.(filled := was.filled + b.entries[b.start[r]..b.start[r + 1]])
    ensures Holds(DoStep(s, b), q)
  {
    var was, z := s.requests[b.ids[r]], DoStep(s, b);
    assert Holds(s, was);
    forall p: nat | p < |q.filled| ensures HoldsAt(z, q, p) {
      if p < |was.filled| {
        OldAt(s, b, b.ids[r], p, q);
      } else {
        var t := b.start[r] + (p - |was.filled|);
        assert InRow(b, r, t) && RowOk(s, b, r, t);
        NewAt(s, b, r, t, q);
      }
    }
  }

  lemma RowHolds<E>(s: Store<E>, b: Batch<E>, r: nat)
    requires Refines(s) && Consistent(s, b) && Apart(s, b) && r < |b.ids|
    ensures Holds(DoStep(s, b), DoStep(s, b).requests[b.ids[r]])
  {
    AppendedAt(s.requests, b, |b.ids|);
    GrownHolds(s, b, r, DoStep(s, b).requests[b.ids[r]]);
  }

  lemma OtherHolds<E>(s: Store<E>, b: Batch<E>, id: nat)
    requires Refines(s) && Consistent(s, b) && Apart(s, b) && id in s.requests && id !in b.ids
    ensures Holds(DoStep(s, b), DoStep(s, b).requests[id])
  {
    AppendedAt(s.requests, b, |b.ids|);
    var q, z := s.requests[id], DoStep(s, b);
    assert b.ids[..|b.ids|] == b.ids;
    assert Holds(s, q);
    forall p: nat | p < |q.filled| ensures HoldsAt(z, q, p) {
      UntouchedAt(s, b, id, p);
    }
  }

  lemma StepRefines<E>(s: Store<E>, b: Batch<E>)
    requires Refines(s) && Consistent(s, b) && Apart(s, b)
    ensures Refines(DoStep(s, b))
  {
    forall id | id in s.requests ensures Holds(DoStep(s, b), DoStep(s, b).requests[id]) {
      if id in b.ids {
        var r :| 0 <= r < |b.ids| && b.ids[r] == id;
        RowHolds(s, b, r);
      } else {
        OtherHolds(s, b, id);
      }
    }
  }
}
