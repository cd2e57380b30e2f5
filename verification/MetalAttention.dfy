/**
  The slot mapping and the attention backend's forward, in place: the slot buffer,
  the two caches (blocks by offsets) and the output rows are arrays.
*/
module MetalAttention {
  import opened Prelude
  import opened PagedCache
  import opened PagedAttention

  function At(b: nat, o: nat, bs: nat): nat {
    b * bs + o
  }

  /** The array's blocks, end to end, are the flat cache. */
  ghost predicate Views<E>(a: array2<E>, cache: seq<E>)
    reads a
  {
    && |cache| == a.Length0 * a.Length1
    && forall b: nat, o: nat :: b < a.Length0 && o < a.Length1 ==>
         At(b, o, a.Length1) < |cache| && cache[At(b, o, a.Length1)] == a[b, o]
  }

  /** Fills the slot buffer, and pads what is left of it; refused under context or
      decode parallelism. */
  method ComputeSlotMapping(sm: array<int>, tables: seq<seq<nat>>, bs: nat, start: seq<nat>, positions: seq<nat>,
      cp: nat) returns (ok: bool)
    requires cp == 1 ==> Mappable(tables, bs, start, positions) && |RowsOf(start, |tables|)| <= sm.Length
    modifies sm
    ensures ok <==> cp == 1
    ensures !ok ==> sm[..] == old(sm[..])
    ensures ok ==> var slots := Slots(tables, bs, start, positions);
                   && (forall t :: 0 <= t < |slots| ==> sm[t] == slots[t])
                   && (forall t :: |slots| <= t < sm.Length ==> sm[t] == PAD_SLOT_ID)
  {
    if cp != 1 {
      return false;
    }
    var rows: seq<nat> := [];
    for r := 0 to |tables|
      invariant rows == RowsOf(start, r)
    {
      rows := rows + Repeat(r, Count(start, r));
    }
    for t := 0 to |rows|
      invariant forall u :: 0 <= u < t ==> sm[u] == Slots(tables, bs, start, positions)[u]
    {
      sm[t] := tables[rows[t]][positions[t] / bs] * bs + positions[t] % bs;
    }
    for t := |rows| to sm.Length
      invariant forall u :: 0 <= u < |rows| ==> sm[u] == Slots(tables, bs, start, positions)[u]
      invariant forall u :: |rows| <= u < t ==> sm[u] == PAD_SLOT_ID
    {
      sm[t] := PAD_SLOT_ID;
    }
    return true;
  }

  /** Writes the first n rows to their slots, each slot a block and an offset in it. */
  method ScatterInto<E>(a: array2<E>, sm: array<int>, rows: seq<E>, n: nat, ghost slots: seq<nat>, ghost cache: seq<E>)
    requires Views(a, cache) && n <= sm.Length && n <= |rows| && n == |slots|
    requires forall t :: 0 <= t < n ==> sm[t] == slots[t] < |cache|
    modifies a
    ensures Views(a, Scatter(cache, slots, rows, n))
  {
    var bs := a.Length1;
    for t := 0 to n
      invariant Views(a, Scatter(cache, slots, rows, t))
    {
      NonEmpty(a.Length0, bs, slots[t]);
      Below(slots[t], a.Length0, bs);
      SplitBack(slots[t], bs);
      var blk, off := sm[t] / bs, sm[t] % bs;
      Write(a, blk, off, rows[t], Scatter(cache, slots, rows, t));
    }
  }

  lemma NonEmpty(blocks: nat, bs: nat, slot: nat)
    requires slot < blocks * bs
    ensures bs > 0
  {
  }

  method Write<E>(a: array2<E>, blk: nat, off: nat, e: E, ghost cache: seq<E>)
    requires Views(a, cache) && blk < a.Length0 && off < a.Length1
    modifies a
    ensures At(blk, off, a.Length1) < |cache| && Views(a, cache[At(blk, off, a.Length1) := e])
  {
    var bs := a.Length1;
    assert At(blk, off, bs) < |cache|;
    a[blk, off] := e;
    forall b: nat, o: nat | b < a.Length0 && o < bs && (b != blk || o != off) ensures At(b, o, bs) != At(blk, off, bs) {
      SplitsDiffer(b, o, blk, off, bs);
    }
  }

  method ReadBlock<E>(a: array2<E>, b: nat, ghost cache: seq<E>) returns (r: seq<E>)
    requires Views(a, cache) && b < a.Length0
    ensures b * a.Length1 + a.Length1 <= |cache| && r == cache[b * a.Length1..b * a.Length1 + a.Length1]
  {
    r := [];
    for o := 0 to a.Length1
      invariant |r| == o && forall i: nat :: i < o ==> r[i] == a[b, i]
    {
      r := r + [a[b, o]];
    }
    BlockFits(b, a.Length0, a.Length1);
    assert forall o: nat :: o < a.Length1 ==> r[o] == cache[At(b, o, a.Length1)];
  }

  lemma BlockFits(b: nat, blocks: nat, bs: nat)
    requires b < blocks
    ensures b * bs + bs <= blocks * bs
  {
    AtLeastOnce(blocks - b, bs);
    assert (blocks - b) * bs == blocks * bs - b * bs;
  }

  /** The request's blocks, end to end, cut at its length. */
  method GatherFrom<E>(a: array2<E>, table: seq<nat>, len: nat, ghost cache: seq<E>) returns (r: seq<E>)
    requires Views(a, cache) && a.Length1 > 0 && Ceil(len, a.Length1) <= |table| && (len > 0 ==> a.Length0 > 0)
    ensures (len > 0 ==> |cache| >= a.Length1) && r == Gather(cache, a.Length1, table, len)
  {
    var bs := a.Length1;
    var n := (len + bs - 1) / bs;
    CeilCovers(len, bs);
    if len > 0 {
      BlockFits(0, a.Length0, bs);
    }
    SplitOnce(a.Length0, 0, bs);
    r := [];
    for i := 0 to n
      invariant r == Blocks(cache, bs, table, i)
    {
      var block := ReadBlock(a, Clamp(table[i], a.Length0), cache);
      r := r + block;
    }
    r := r[..Min(len, n * bs)];
  }

  /** A request's row of a batch: its table, and its length with this batch's tokens. */
  datatype Meta = Meta(tables: seq<seq<nat>>, start: seq<nat>, lens: seq<nat>, maxQueryLen: nat, causal: bool) {
    /** Offsets, lengths and tables agree, and the tables cover the lengths. */
    predicate Shaped(bs: nat) {
      && bs > 0 && |start| == |tables| + 1 && |lens| == |tables|
      && forall r :: 0 <= r < |tables| ==> Ceil(lens[r], bs) <= |tables[r]|
    }

    ghost predicate Fits(bs: nat, blocks: nat) {
      && Shaped(bs) && Offsets(start)
      && (forall r :: 0 <= r < |tables| ==> lens[r] > 0 ==> blocks > 0)
      && (forall r :: 0 <= r < |tables| ==> start[r + 1] - start[r] <= maxQueryLen)
    }

    predicate Has(r: nat, t: nat) {
      r + 1 < |start| && start[r] <= t < start[r + 1]
    }
  }

  /** The output of token t, query token t - start[r] of row r. */
  ghost function RowOutput<Q, K, V, O>(attend: (Q, seq<K>, seq<V>) -> O, q: Q, keys: seq<K>, values: seq<V>, m: Meta,
      r: nat, t: nat): O
    requires r + 1 < |m.start| && m.start[r] <= t
  {
    var count, j := Count(m.start, r), t - m.start[r];
    attend(q, Seen(keys, count, j, m.causal), Seen(values, count, j, m.causal))
  }

  /** Gathered from a cache that is big enough for the row. */
  ghost function RowEntries<E>(cache: seq<E>, bs: nat, m: Meta, r: nat): seq<E>
    requires bs > 0 && r < |m.lens| && r < |m.tables| && Ceil(m.lens[r], bs) <= |m.tables[r]|
  {
    if m.lens[r] > 0 && |cache| < bs then [] else Gather(cache, bs, m.tables[r], m.lens[r])
  }

  /** Every token of every row has its output. */
  ghost predicate Answered<Q, K, V, O>(attend: (Q, seq<K>, seq<V>) -> O, out: seq<O>, query: seq<Q>, kc: seq<K>,
      vc: seq<V>, bs: nat, m: Meta, rows: nat)
    requires m.Shaped(bs) && rows <= |m.tables|
  {
    forall r: nat, t: nat :: r < rows && m.Has(r, t) ==>
      t < |out| && t < |query| && out[t]
        == RowOutput(attend, query[t], RowEntries(kc, bs, m, r), RowEntries(vc, bs, m, r), m, r, t)
  }

  method WriteCaches<K, V>(sharing: bool, kcache: array2<K>, vcache: array2<V>, sm: array<int>, key: seq<K>,
      value: seq<V>, n: nat, ghost slots: seq<nat>, ghost kc: seq<K>, ghost vc: seq<V>)
    requires (kcache as object) != (vcache as object)
    requires Views(kcache, kc) && Views(vcache, vc) && |kc| == |vc|
    requires n <= sm.Length && n <= |key| && n <= |value| && n == |slots|
    requires forall t :: 0 <= t < n ==> sm[t] == slots[t] < |kc|
    modifies kcache, vcache
    ensures Views(kcache, if sharing then kc else Scatter(kc, slots, key, n))
    ensures Views(vcache, if sharing then vc else Scatter(vc, slots, value, n))
  {
    if !sharing {
      ScatterInto(kcache, sm, key, n, slots, kc);
      ScatterInto(vcache, sm, value, n, slots, vc);
    }
  }

  /** One fused call: each row's only token, over all its request has. */
  method Decode<Q, K, V, O>(attend: (Q, seq<K>, seq<V>) -> O, kcache: array2<K>, vcache: array2<V>, query: seq<Q>,
      m: Meta, out: array<O>, ghost kc: seq<K>, ghost vc: seq<V>)
    requires Views(kcache, kc) && Views(vcache, vc) && kcache.Length0 == vcache.Length0
             && kcache.Length1 == vcache.Length1
    requires m.Fits(kcache.Length1, kcache.Length0) && |query| >= |m.tables| && out.Length == |m.tables|
    requires forall r :: 0 <= r < |m.start| ==> m.start[r] == r
    modifies out
    ensures Answered(attend, out[..], query, kc, vc, kcache.Length1, m, |m.tables|)
  {
    for t := 0 to |m.tables|
      invariant Answered(attend, out[..], query, kc, vc, kcache.Length1, m, t)
    {
      var keys := GatherFrom(kcache, m.tables[t], m.lens[t], kc);
      var values := GatherFrom(vcache, m.tables[t], m.lens[t], vc);
      out[t] := attend(query[t], keys, values);
      assert out[t] == RowOutput(attend, query[t], RowEntries(kc, kcache.Length1, m, t),
        RowEntries(vc, kcache.Length1, m, t), m, t, t);
    }
  }

  /** One request after another: gather, mask, and its rows of the output. */
  method Prefill<Q, K, V, O>(attend: (Q, seq<K>, seq<V>) -> O, kcache: array2<K>, vcache: array2<V>, query: seq<Q>,
      m: Meta, out: array<O>, ghost kc: seq<K>, ghost vc: seq<V>)
    requires Views(kcache, kc) && Views(vcache, vc) && kcache.Length0 == vcache.Length0
             && kcache.Length1 == vcache.Length1
    requires m.Fits(kcache.Length1, kcache.Length0) && |query| >= m.start[|m.tables|]
             && out.Length == m.start[|m.tables|]
    modifies out
    ensures Answered(attend, out[..], query, kc, vc, kcache.Length1, m, |m.tables|)
  {
    for r := 0 to |m.tables|
      invariant Answered(attend, out[..], query, kc, vc, kcache.Length1, m, r)
    {
      if m.start[r + 1] != m.start[r] {
        var keys := GatherFrom(kcache, m.tables[r], m.lens[r], kc);
        var values := GatherFrom(vcache, m.tables[r], m.lens[r], vc);
        AnswerRow(attend, keys, values, query, m, r, out);
        assert keys == RowEntries(kc, kcache.Length1, m, r) && values == RowEntries(vc, kcache.Length1, m, r);
      }
    }
  }

  method AnswerRow<Q, K, V, O>(attend: (Q, seq<K>, seq<V>) -> O, keys: seq<K>, values: seq<V>, query: seq<Q>, m: Meta,
      r: nat, out: array<O>)
    requires Offsets(m.start) && r + 1 < |m.start| && m.start[r + 1] <= |query| && m.start[r + 1] <= out.Length
    modifies out
    ensures forall t :: m.start[r] <= t < m.start[r + 1] ==>
              out[t] == RowOutput(attend, query[t], keys, values, m, r, t)
    ensures forall t :: 0 <= t < out.Length && (t < m.start[r] || m.start[r + 1] <= t) ==> out[t] == old(out[t])
  {
    var q0, q1 := m.start[r], m.start[r + 1];
    assert Count(m.start, r) == q1 - q0;
    for t := q0 to q1
      invariant forall u :: q0 <= u < t ==> out[u] == RowOutput(attend, query[u], keys, values, m, r, u)
      invariant forall u :: 0 <= u < out.Length && (u < q0 || t <= u) ==> out[u] == old(out[u])
    {
      out[t] := attend(query[t], Seen(keys, q1 - q0, t - q0, m.causal), Seen(values, q1 - q0, t - q0, m.causal));
    }
  }

  /** What a forward needs of its tensors once it has metadata and no output scale. */
  ghost predicate Fitting<Q, K, V>(kcache: array2<K>, vcache: array2<V>, sm: array<int>, query: seq<Q>, key: seq<K>,
      value: seq<V>, m: Meta, size: nat, slots: seq<nat>, kc: seq<K>, vc: seq<V>)
    reads kcache, vcache, sm
  {
    && Views(kcache, kc) && Views(vcache, vc)
    && kcache.Length0 == vcache.Length0 && kcache.Length1 == vcache.Length1
    && m.Fits(kcache.Length1, kcache.Length0)
    && (var n := m.start[|m.tables|];
        n <= sm.Length && n <= |key| && n <= |value| && n <= |query| && n == |slots| && n == size)
    && forall t :: 0 <= t < |slots| ==> sm[t] == slots[t] < |kc|
  }

  /** The new entries are written (unless another layer's cache is shared), and every
      token of every row has its output, whichever path is taken. */
  method WriteAndAttend<Q, K, V, O>(attend: (Q, seq<K>, seq<V>) -> O, sharing: bool, quixi: bool, kcache: array2<K>,
      vcache: array2<V>, sm: array<int>, query: seq<Q>, key: seq<K>, value: seq<V>, m: Meta, out: array<O>,
      ghost slots: seq<nat>, ghost kc: seq<K>, ghost vc: seq<V>)
    requires (kcache as object) != (vcache as object) && (sm as object) != (out as object)
    requires Fitting(kcache, vcache, sm, query, key, value, m, out.Length, slots, kc, vc)
    modifies kcache, vcache, out
    ensures |kc| == |vc|
    ensures var n := |slots|;
            var k := if sharing then kc else Scatter(kc, slots, key, n);
            var v := if sharing then vc else Scatter(vc, slots, value, n);
            && Views(kcache, k) && Views(vcache, v)
            && Answered(attend, out[..], query, k, v, kcache.Length1, m, |m.tables|)
  {
    var n := m.start[|m.tables|];
    WriteCaches(sharing, kcache, vcache, sm, key, value, n, slots, kc, vc);
    ghost var k := if sharing then kc else Scatter(kc, slots, key, n);
    ghost var v := if sharing then vc else Scatter(vc, slots, value, n);
    if quixi && m.maxQueryLen == 1 && n == |m.tables| {
      DecodeGuard(m.start);
      Decode(attend, kcache, vcache, query, m, out, k, v);
    } else {
      Prefill(attend, kcache, vcache, query, m, out, k, v);
    }
  }

  /** The backend's forward. A warm-up run has no metadata and gets its output back
      as it was; a scaled output is not supported; everything else is written and
      attended to. */
  method Forward<Q, K, V, O>(attend: (Q, seq<K>, seq<V>) -> O, sharing: bool, quixi: bool, scaled: bool,
      kcache: array2<K>, vcache: array2<V>, sm: array<int>, query: seq<Q>, key: seq<K>, value: seq<V>,
      meta: Option<Meta>, out: array<O>, ghost slots: seq<nat>, ghost kc: seq<K>, ghost vc: seq<V>)
    returns (supported: bool)
    requires (kcache as object) != (vcache as object) && (sm as object) != (out as object)
    requires meta.Some? && !scaled
             ==> Fitting(kcache, vcache, sm, query, key, value, meta.value, out.Length, slots, kc, vc)
    modifies kcache, vcache, out
    ensures supported == (meta.None? || !scaled)
    ensures meta.None? || scaled ==> unchanged(kcache, vcache, out)
    ensures meta.Some? && !scaled ==>
              var n, m := |slots|, meta.value;
              && |kc| == |vc| && n <= |key| && n <= |value|
              && (forall i :: 0 <= i < n ==> slots[i] < |kc|)
              && var k := if sharing then kc else Scatter(kc, slots, key, n);
                 var v := if sharing then vc else Scatter(vc, slots, value, n);
                 && Views(kcache, k) && Views(vcache, v) && m.Shaped(kcache.Length1)
                 && Answered(attend, out[..], query, k, v, kcache.Length1, m, |m.tables|)
  {
    if meta.None? { return true; }
    if scaled { return false; }
    WriteAndAttend(attend, sharing, quixi, kcache, vcache, sm, query, key, value, meta.value, out, slots, kc, vc);
    return true;
  }

  /** Row r as the batch's metadata gives it: the request's table and new length. */
  ghost predicate Describes<E>(m: Meta, z: Store<E>, b: Batch<E>, r: nat) {
    && m.Shaped(z.bs) && m.causal && m.start == b.start && |m.tables| == |b.ids| && r < |b.ids|
       && b.ids[r] in z.requests
    && m.tables[r] == z.requests[b.ids[r]].table && m.lens[r] == |z.requests[b.ids[r]].filled|
  }

  lemma RowSeesItsPrefix<E>(s: Store<E>, b: Batch<E>, z: Store<E>, m: Meta, r: nat, t: nat)
    requires Refines(s) && Consistent(s, b) && Apart(s, b) && z == DoStep(s, b) && InRow(b, r, t)
             && Describes(m, z, b, r)
    ensures var q := z.requests[b.ids[r]];
            && b.positions[t] < |q.filled|
            && Seen(RowEntries(z.cache, z.bs, m, r), Count(m.start, r), t - m.start[r], true)
               == q.filled[..b.positions[t] + 1]
  {
    TokenSeesItsPrefix(s, b, r, t);
  }

  lemma ShownIsAttended<Q, K, V, O>(attend: (Q, seq<K>, seq<V>) -> O, q: Q, keys: seq<K>, values: seq<V>, m: Meta,
      r: nat, t: nat, ks: seq<K>, vs: seq<V>)
    requires Offsets(m.start) && r + 1 < |m.start| && m.start[r] <= t && m.causal
    requires Seen(keys, Count(m.start, r), t - m.start[r], true) == ks
    requires Seen(values, Count(m.start, r), t - m.start[r], true) == vs
    ensures RowOutput(attend, q, keys, values, m, r, t) == attend(q, ks, vs)
  {
  }

  /** So a causal forward gives each token what plain attention over the request's
      own keys and values, up to its position, would: with `Forward`'s contract, for
      the batch's slots and every run that led to the two caches. */
  lemma ForwardIsDense<Q, K, V, O>(attend: (Q, seq<K>, seq<V>) -> O, q: Q, sk: Store<K>, sv: Store<V>, bk: Batch<K>,
      bv: Batch<V>, zk: Store<K>, zv: Store<V>, m: Meta, r: nat, t: nat)
    requires Refines(sk) && Consistent(sk, bk) && Apart(sk, bk) && zk == DoStep(sk, bk)
    requires Refines(sv) && Consistent(sv, bv) && Apart(sv, bv) && zv == DoStep(sv, bv)
    requires zk.bs == zv.bs && bk.ids == bv.ids && bk.start == bv.start && bk.positions == bv.positions
    requires InRow(bk, r, t) && Describes(m, zk, bk, r) && Describes(m, zv, bv, r)
    ensures var ks, vs := zk.requests[bk.ids[r]].filled, zv.requests[bk.ids[r]].filled;
            var p := bk.positions[t];
            && p < |ks| == |vs|
            && RowOutput(attend, q, RowEntries(zk.cache, zk.bs, m, r), RowEntries(zv.cache, zk.bs, m, r), m, r, t)
               == attend(q, ks[..p + 1], vs[..p + 1])
  {
    RowSeesItsPrefix(sk, bk, zk, m, r, t);
    assert InRow(bv, r, t);
    RowSeesItsPrefix(sv, bv, zv, m, r, t);
    var p, ks, vs := bk.positions[t], zk.requests[bk.ids[r]].filled, zv.requests[bk.ids[r]].filled;
    assert |ks| == m.lens[r] == |vs|;
    var keys, values := RowEntries(zk.cache, zk.bs, m, r), RowEntries(zv.cache, zk.bs, m, r);
    ShownIsAttended(attend, q, keys, values, m, r, t, ks[..p + 1], vs[..p + 1]);
  }
}
