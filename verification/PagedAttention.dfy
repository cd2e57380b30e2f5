/** Attention over the paged cache: every token is given its own prefix. */
module PagedAttention {
  // Runs of batches and what the mask and the chunking come to: every token is given
  // exactly the entries of its request up to its own position. Attention itself is a
  // function of the query and of the keys and values it is shown.

  import opened Prelude
  import opened PagedCache

  // ----- runs -----

  /** What the runner does between and in batches. A request may be admitted with a
      prefix whose blocks it shares with another. */
  datatype Event<E> =
    | Admit(id: nat, table: seq<nat>, from: Option<nat>, len: nat)
    | Grow(id: nat, blocks: seq<nat>)
    | Free(id: nat)
    | Step(batch: Batch<E>)

  ghost predicate Allowed<E>(s: Store<E>, e: Event<E>) {
    match e
    case Admit(id, table, from, len) =>
      id !in s.requests && NoRepeats(table)
      && if from.None? then len == 0
         else from.value in s.requests && SharesPrefix(s, s.requests[from.value], table, len)
    case Grow(id, blocks) => id in s.requests && NoRepeats(s.requests[id].table + blocks)
    case Free(id) => id in s.requests
    case Step(b) => Consistent(s, b) && Apart(s, b)
  }

  ghost predicate SharesPrefix<E>(s: Store<E>, q: Request<E>, table: seq<nat>, len: nat) {
    && s.bs > 0 && len <= |q.filled|
    && forall p: nat :: p < len ==> p / s.bs < |table| && p / s.bs < |q.table| && table[p / s.bs] == q.table[p / s.bs]
  }

  ghost function Next<E>(s: Store<E>, e: Event<E>): Store<E>
    requires Allowed(s, e)
  {
    match e
    case Admit(id, table, from, len) =>
      s.(requests := s.requests[id := Request(table, if from.None? then [] else s.requests[from.value].filled[..len])])
    case Grow(id, blocks) => s.(requests := s.requests[id := s.requests[id].(table := s.requests[id].table + blocks)])
    case Free(id) => s.(requests := s.requests - {id})
    case Step(b) => DoStep(s, b)
  }

  ghost predicate Runs<E>(s: Store<E>, events: seq<Event<E>>)
    decreases |events|
  {
    events == [] || (Allowed(s, events[0]) && Runs(Next(s, events[0]), events[1..]))
  }

  ghost function Run<E>(s: Store<E>, events: seq<Event<E>>): Store<E>
    requires Runs(s, events)
    decreases |events|
  {
    if events == [] then s else Run(Next(s, events[0]), events[1..])
  }

  /** A request whose table agrees, block by block, keeps its entries. */
  lemma SameEntriesHold<E>(s: Store<E>, q: Request<E>, r: Request<E>)
    requires Holds(s, q) && NoRepeats(r.table) && |r.filled| <= |q.filled| && r.filled == q.filled[..|r.filled|]
    requires forall p: nat :: p < |r.filled| ==>
               p / s.bs < |r.table| && p / s.bs < |q.table| && r.table[p / s.bs] == q.table[p / s.bs]
    ensures Holds(s, r)
  {
    forall p: nat | p < |r.filled| ensures HoldsAt(s, r, p) {
      assert HoldsAt(s, q, p);
    }
  }

  lemma GrownTableHolds<E>(s: Store<E>, q: Request<E>, r: Request<E>)
    requires Holds(s, q) && NoRepeats(r.table) && r.filled == q.filled && |q.table| <= |r.table|
             && r.table[..|q.table|] == q.table
    ensures Holds(s, r)
  {
    forall p: nat | p < |r.filled| ensures HoldsAt(s, r, p) {
      assert HoldsAt(s, q, p);
      assert r.table[p / s.bs] == r.table[..|q.table|][p / s.bs];
    }
  }

  lemma SameCacheHolds<E>(s: Store<E>, t: Store<E>, q: Request<E>)
    requires Holds(s, q) && t.bs == s.bs && t.cache == s.cache
    ensures Holds(t, q)
  {
    forall p: nat | p < |q.filled| ensures HoldsAt(t, q, p) {
      assert HoldsAt(s, q, p);
    }
  }

  lemma NextRefines<E>(s: Store<E>, e: Event<E>)
    requires Refines(s) && Allowed(s, e)
    ensures Refines(Next(s, e))
  {
    match e {
      case Step(b) => StepRefines(s, b);
      case Admit(id, table, from, _) =>
        var q := Next(s, e).requests[id];
        if from.Some? {
          SameEntriesHold(s, s.requests[from.value], q);
        }
        assert Holds(s, q);
        ChangeRefines(s, Next(s, e), id);
      case Grow(id, _) =>
        GrownTableHolds(s, s.requests[id], Next(s, e).requests[id]);
        ChangeRefines(s, Next(s, e), id);
      case Free(id) => ChangeRefines(s, Next(s, e), id);
    }
  }

  lemma ChangeRefines<E>(s: Store<E>, t: Store<E>, id: nat)
    requires Refines(s) && t.bs == s.bs && t.cache == s.cache
    requires forall i :: i in t.requests && i != id ==> i in s.requests && t.requests[i] == s.requests[i]
    requires id in t.requests ==> Holds(s, t.requests[id])
    ensures Refines(t)
  {
    forall i | i in t.requests ensures Holds(t, t.requests[i]) {
      assert i != id ==> Holds(s, s.requests[i]);
      SameCacheHolds(s, t, t.requests[i]);
    }
  }

  lemma {:induction false} RunRefines<E>(s: Store<E>, events: seq<Event<E>>)
    requires Refines(s) && Runs(s, events)
    ensures Refines(Run(s, events))
    decreases |events|
  {
    if events != [] {
      NextRefines(s, events[0]);
      RunRefines(Next(s, events[0]), events[1..]);
    }
  }

  /** The paged cache is the plain lists: whatever was admitted, shared, grown, freed
      and written, in whichever batches, a gather returns what the request wrote. */
  lemma GatherIsDense<E>(bs: nat, cache: seq<E>, events: seq<Event<E>>, id: nat)
    requires bs > 0 && Runs(Store(bs, cache, map[]), events) && id in Run(Store(bs, cache, map[]), events).requests
    ensures var s := Run(Store(bs, cache, map[]), events);
            var q := s.requests[id];
            && s.bs > 0 && Ceil(|q.filled|, s.bs) <= |q.table| && (|q.filled| > 0 ==> |s.cache| >= s.bs)
            && Gather(s.cache, s.bs, q.table, |q.filled|) == q.filled
  {
    RunRefines(Store(bs, cache, map[]), events);
    var s := Run(Store(bs, cache, map[]), events);
    GatherIsFilled(s, s.requests[id]);
  }

  // ----- the mask -----

  /** The entries a mask leaves. */
  function Masked<E>(entries: seq<E>, mask: seq<bool>): seq<E>
    requires |mask| == |entries|
  {
    if entries == [] then []
    else Masked(entries[..|entries| - 1], mask[..|mask| - 1])
         + if mask[|mask| - 1] then [entries[|entries| - 1]] else []
  }

  /** The positions up to that of query token j of the last `count`. */
  function CausalMask(len: nat, count: nat, j: nat): (m: seq<bool>)
    ensures |m| == len
  {
    seq(len, k => k <= len - count + j)
  }

  /** What query token j of `count` is shown of a request's entries. */
  function Seen<E>(entries: seq<E>, count: nat, j: nat, causal: bool): seq<E> {
    if causal && count > 1 then Masked(entries, CausalMask(|entries|, count, j)) else entries
  }

  lemma {:induction false} MaskedPrefix<E>(entries: seq<E>, mask: seq<bool>, n: nat)
    requires |mask| == |entries| && n <= |entries|
    requires forall k :: 0 <= k < |mask| ==> (mask[k] <==> k < n)
    ensures Masked(entries, mask) == entries[..n]
  {
    if entries != [] {
      var m := |entries| - 1;
      MaskedPrefix(entries[..m], mask[..m], if n <= m then n else m);
      if n <= m {
        assert entries[..m][..n] == entries[..n];
      } else {
        assert entries[..m] + [entries[m]] == entries[..n];
      }
    }
  }

  /** A token sees the positions up to its own, also where the mask is skipped; all of
      them where attention is not causal. */
  lemma SeenIsPrefix<E>(entries: seq<E>, count: nat, j: nat)
    requires j < count <= |entries|
    ensures Seen(entries, count, j, true) == entries[..|entries| - count + j + 1]
    ensures Seen(entries, count, j, false) == entries
  {
    if count > 1 {
      MaskedPrefix(entries, CausalMask(|entries|, count, j), |entries| - count + j + 1);
    }
  }

  /** The outputs of a prompt's tokens, taken in chunks. */
  function Chunked<Q, E, O>(attend: (Q, seq<E>) -> O, queries: seq<Q>, entries: seq<E>, from: nat,
      chunks: seq<nat>): (out: seq<O>)
    requires |queries| == |entries| && from + Total(chunks) == |entries|
    decreases |chunks|
  {
    if chunks == [] then []
    else
      var n := chunks[0];
      seq(n, j requires 0 <= j < n => attend(queries[from + j], Seen(entries[..from + n], n, j, true)))
      + Chunked(attend, queries, entries, from + n, chunks[1..])
  }

  function Total(chunks: seq<nat>): nat {
    if chunks == [] then 0 else chunks[0] + Total(chunks[1..])
  }

  /** However a prompt is split, each token's output is that of its own prefix. */
  lemma {:induction false} ChunkingDoesNotMatter<Q, E, O>(attend: (Q, seq<E>) -> O, queries: seq<Q>, entries: seq<E>,
      from: nat, chunks: seq<nat>)
    requires |queries| == |entries| && from + Total(chunks) == |entries|
    ensures var out := Chunked(attend, queries, entries, from, chunks);
            && |out| == |entries| - from
            && forall i :: 0 <= i < |out| ==> out[i] == attend(queries[from + i], entries[..from + i + 1])
    decreases |chunks|
  {
    if chunks != [] {
      var n := chunks[0];
      ChunkingDoesNotMatter(attend, queries, entries, from + n, chunks[1..]);
      var rest := Chunked(attend, queries, entries, from + n, chunks[1..]);
      var out := Chunked(attend, queries, entries, from, chunks);
      forall i | 0 <= i < |out| ensures out[i] == attend(queries[from + i], entries[..from + i + 1]) {
        if i < n {
          SeenIsPrefix(entries[..from + n], n, i);
          assert entries[..from + n][..from + i + 1] == entries[..from + i + 1];
        } else {
          assert out[i] == rest[i - n];
        }
      }
    }
  }

  // ----- the decode guard -----

  /** As many tokens as requests and none with more than one: exactly when every
      request has one row, in order. */
  lemma DecodeGuard(start: seq<nat>)
    requires Offsets(start)
    ensures (forall r :: 0 <= r < |start| - 1 ==> start[r + 1] - start[r] <= 1) && start[|start| - 1] == |start| - 1
            <==> forall r :: 0 <= r < |start| ==> start[r] == r
  {
    if (forall r :: 0 <= r < |start| - 1 ==> start[r + 1] - start[r] <= 1) && start[|start| - 1] == |start| - 1 {
      AtMostOneEach(start, |start| - 1);
      forall r | 0 <= r < |start| ensures start[r] == r {
        AtMostOneEach(start, r);
        LeftOver(start, r);
      }
    }
  }

  lemma {:induction false} AtMostOneEach(start: seq<nat>, r: nat)
    requires Offsets(start) && r < |start| && forall q :: 0 <= q < |start| - 1 ==> start[q + 1] - start[q] <= 1
    ensures start[r] <= r
  {
    if r > 0 {
      AtMostOneEach(start, r - 1);
      assert start[r - 1 + 1] - start[r - 1] <= 1;
    }
  }

  lemma {:induction false} LeftOver(start: seq<nat>, r: nat)
    requires Offsets(start) && r < |start| && forall q :: 0 <= q < |start| - 1 ==> start[q + 1] - start[q] <= 1
    ensures start[|start| - 1] <= start[r] + (|start| - 1 - r)
    decreases |start| - r
  {
    if r < |start| - 1 {
      LeftOver(start, r + 1);
      assert start[r + 1] - start[r] <= 1;
    }
  }

  // ----- what forward comes to -----

  /** In every batch, each token of each row is shown exactly the entries its request
      has written, in this batch or before, up to the token's own position. */
  lemma TokenSeesItsPrefix<E>(s: Store<E>, b: Batch<E>, r: nat, t: nat)
    requires Refines(s) && Consistent(s, b) && Apart(s, b) && InRow(b, r, t) && r < |b.ids|
    ensures var z := DoStep(s, b);
            var q := z.requests[b.ids[r]];
            && z.bs > 0 && Ceil(|q.filled|, z.bs) <= |q.table| && (|q.filled| > 0 ==> |z.cache| >= z.bs)
            && b.positions[t] < |q.filled| && q.filled[b.positions[t]] == b.entries[t]
            && Seen(Gather(z.cache, z.bs, q.table, |q.filled|), Count(b.start, r), t - b.start[r], true)
               == q.filled[..b.positions[t] + 1]
  {
    StepRefines(s, b);
    AppendedAt(s.requests, b, |b.ids|);
    assert RowOk(s, b, r, t);
    var z := DoStep(s, b);
    var q := z.requests[b.ids[r]];
    GatherIsFilled(z, q);
    SeenIsPrefix(q.filled, Count(b.start, r), t - b.start[r]);
    assert q.filled[b.positions[t]] == b.entries[b.start[r]..b.start[r + 1]][t - b.start[r]];
  }
}
