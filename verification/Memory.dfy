/**
  The weights a family of processes maps (lazarus/agent/memory.py): the bytes of
  each file that some member maps, once however many members map it.
*/
module Memory {
  import opened Prelude
  import opened Sorting

  /** A mapped stretch of a file: offsets start to end - 1. */
  datatype Extent = Extent(start: int, end: int)

  // ----- what is covered -----

  function Cells(from: int, to: int): (s: set<int>)
    ensures forall x :: x in s <==> from <= x < to
    ensures |s| == Max(to - from, 0)
    decreases Max(to - from, 0)
  {
    if to > from then Cells(from, to - 1) + {to - 1} else {}
  }

  predicate In(x: int, e: Extent) {
    e.start <= x < e.end
  }

  predicate Hits(extents: seq<Extent>, x: int) {
    exists i :: 0 <= i < |extents| && In(x, extents[i])
  }

  /** The file offsets some extent covers. */
  function Covered(extents: seq<Extent>): set<int> {
    if extents == [] then {}
    else
      var last := extents[|extents| - 1];
      Covered(extents[..|extents| - 1]) + Cells(Max(last.start, 0), last.end)
  }

  lemma {:induction false} CoveredIsHit(extents: seq<Extent>, x: int)
    ensures x in Covered(extents) <==> x >= 0 && Hits(extents, x)
  {
    if extents != [] {
      var n := |extents| - 1;
      CoveredIsHit(extents[..n], x);
      assert extents == extents[..n] + [extents[n]];
      HitsEither(extents[..n], [extents[n]], x);
      assert Hits([extents[n]], x) <==> In(x, extents[n]) by {
        assert [extents[n]][0] == extents[n];
      }
    }
  }

  lemma HitsEither(a: seq<Extent>, b: seq<Extent>, x: int)
    ensures Hits(a + b, x) <==> Hits(a, x) || Hits(b, x)
  {
    assert forall i :: 0 <= i < |a| ==> (a + b)[i] == a[i];
    if Hits(b, x) {
      var i :| 0 <= i < |b| && In(x, b[i]);
      assert (a + b)[|a| + i] == b[i];
    }
  }

  lemma CountOfUnion<T>(a: set<T>, b: set<T>)
    requires a !! b
    ensures |a + b| == |a| + |b|
  {
  }

  // ----- sorted -----

  predicate Leq(a: Extent, b: Extent) {
    a.start < b.start || (a.start == b.start && a.end <= b.end)
  }

  /** Pairs are sorted by their start, then by their end, and none is lost. */
  lemma SortedIsOrdered(s: seq<Extent>)
    ensures var r := Sorted(Leq, s);
            && multiset(r) == multiset(s)
            && forall i, j :: 0 <= i < j < |r| ==>
                 r[i].start < r[j].start || (r[i].start == r[j].start && r[i].end <= r[j].end)
  {
    Sorting.SortedIsOrdered(Leq, s);
    assert forall i, j :: 0 <= i < j < |Sorted(Leq, s)| ==> Leq(Sorted(Leq, s)[i], Sorted(Leq, s)[j]);
  }

  lemma SameHits(a: seq<Extent>, b: seq<Extent>, x: int)
    requires multiset(a) == multiset(b) && Hits(a, x)
    ensures Hits(b, x)
  {
    var i :| 0 <= i < |a| && In(x, a[i]);
    assert a[i] in multiset(b);
  }

  lemma SameCovered(a: seq<Extent>, b: seq<Extent>)
    requires multiset(a) == multiset(b)
    ensures Covered(a) == Covered(b)
  {
    forall x ensures x in Covered(a) <==> x in Covered(b) {
      CoveredIsHit(a, x);
      CoveredIsHit(b, x);
      if Hits(a, x) {
        SameHits(a, b, x);
      }
      if Hits(b, x) {
        SameHits(b, a, x);
      }
    }
  }

  // ----- the count -----

  /** Nothing from `reached` on is covered, and all from the latest start up to it. */
  ghost predicate Reached(c: set<int>, latest: int, reached: int) {
    && reached >= 0
    && (forall x :: x in c ==> x < reached)
    && (forall x :: 0 <= x && latest <= x < reached ==> x in c)
  }

  /** An extent starting no earlier than those before it adds its cells from `reached`
      on and no others. */
  lemma AddExtent(c: set<int>, latest: int, reached: int, e: Extent)
    requires Reached(c, latest, reached) && latest <= e.start
    ensures |c + Cells(Max(e.start, 0), e.end)| == |c| + Max(e.end - Max(e.start, reached), 0)
  {
    var more := Cells(Max(e.start, reached), e.end);
    AddedCells(c, latest, reached, e);
    CountOfUnion(c, more);
  }

  lemma AddedCells(c: set<int>, latest: int, reached: int, e: Extent)
    requires Reached(c, latest, reached) && latest <= e.start
    ensures c + Cells(Max(e.start, 0), e.end) == c + Cells(Max(e.start, reached), e.end)
    ensures c !! Cells(Max(e.start, reached), e.end)
  {
  }

  lemma AddReaches(c: set<int>, latest: int, reached: int, e: Extent)
    requires Reached(c, latest, reached) && latest <= e.start
    ensures Reached(c + Cells(Max(e.start, 0), e.end), e.start,
              if e.end > Max(e.start, reached) then e.end else reached)
  {
  }

  /** What the first i extents cover. */
  ghost function Upto(s: seq<Extent>, i: nat): set<int>
    requires i <= |s|
  {
    if i == 0 then {} else Upto(s, i - 1) + Cells(Max(s[i - 1].start, 0), s[i - 1].end)
  }

  lemma {:induction false} UptoCovers(s: seq<Extent>, i: nat)
    requires i <= |s|
    ensures Upto(s, i) == Covered(s[..i])
  {
    if i > 0 {
      UptoCovers(s, i - 1);
      assert s[..i][..i - 1] == s[..i - 1];
    }
  }

  lemma Advance(s: seq<Extent>, i: nat, latest: int, reached: int, c: set<int>)
    requires i < |s| && latest <= s[i].start && c == Upto(s, i) && Reached(c, latest, reached)
    ensures Reached(Upto(s, i + 1), s[i].start, if s[i].end > Max(s[i].start, reached) then s[i].end else reached)
    ensures |Upto(s, i + 1)| == |c| + Max(s[i].end - Max(s[i].start, reached), 0)
  {
    AddExtent(c, latest, reached, s[i]);
    AddReaches(c, latest, reached, s[i]);
  }

  method Count(s: seq<Extent>) returns (covered: int)
    requires Ordered(Leq, s)
    ensures covered == |Upto(s, |s|)|
  {
    covered := 0;
    var reached := 0;
    ghost var latest := if s == [] then 0 else s[0].start;
    for i := 0 to |s|
      invariant covered == |Upto(s, i)| && Reached(Upto(s, i), latest, reached)
      invariant i < |s| ==> latest <= s[i].start
    {
      Advance(s, i, latest, reached, Upto(s, i));
      latest := s[i].start;
      assert i + 1 < |s| ==> Leq(s[i], s[i + 1]);
      var start := Max(s[i].start, reached);
      if s[i].end > start {
        covered := covered + (s[i].end - start);
        reached := s[i].end;
      }
    }
  }

  /** The number of offsets the extents cover, whatever their order and however they
      overlap. */
  method CoveredBytes(extents: seq<Extent>) returns (covered: int)
    ensures covered == |Covered(extents)|
  {
    var s := Sorted(Leq, extents);
    Sorting.SortedIsOrdered(Leq, extents);
    SameCovered(s, extents);
    covered := Count(s);
    UptoCovers(s, |s|);
    assert s[..|s|] == s;
  }

  // ----- a family of processes -----

  /** A byte of a file. */
  datatype Byte = Byte(path: string, offset: int)

  type Mapped = map<string, seq<Extent>>

  function Extents(m: Mapped, path: string): seq<Extent> {
    if path in m then m[path] else []
  }

  /** setdefault and extend, member by member. */
  function Merged(family: seq<Mapped>, path: string): seq<Extent> {
    if family == [] then [] else Merged(family[..|family| - 1], path) + Extents(family[|family| - 1], path)
  }

  /** The bytes mapped: a byte is a file and an offset in it. */
  ghost predicate Maps(family: seq<Mapped>, path: string, x: int) {
    exists k :: 0 <= k < |family| && x in Covered(Extents(family[k], path))
  }

  lemma CoveredOfBoth(a: seq<Extent>, b: seq<Extent>)
    ensures Covered(a + b) == Covered(a) + Covered(b)
  {
    forall x ensures x in Covered(a + b) <==> x in Covered(a) || x in Covered(b) {
      CoveredIsHit(a, x);
      CoveredIsHit(b, x);
      CoveredIsHit(a + b, x);
      HitsEither(a, b, x);
    }
  }

  lemma MapsOneMore(family: seq<Mapped>, last: Mapped, path: string, x: int)
    ensures Maps(family + [last], path, x) <==> Maps(family, path, x) || x in Covered(Extents(last, path))
  {
    var all := family + [last];
    assert all[|family|] == last;
    assert forall k :: 0 <= k < |family| ==> all[k] == family[k];
  }

  lemma {:induction false} MergedCovers(family: seq<Mapped>, path: string, x: int)
    ensures x in Covered(Merged(family, path)) <==> Maps(family, path, x)
  {
    if family != [] {
      var n := |family| - 1;
      MergedCovers(family[..n], path, x);
      CoveredOfBoth(Merged(family[..n], path), Extents(family[n], path));
      MapsOneMore(family[..n], family[n], path, x);
      assert family[..n] + [family[n]] == family;
    }
  }

  /** The mapped bytes of some of the files. */
  ghost function Bytes(m: Mapped, paths: set<string>): (s: set<Byte>)
    requires paths <= m.Keys
    ensures forall t :: t in s <==> t.path in paths && t.offset in Covered(m[t.path])
  {
    set p, x | p in paths && x in Covered(m[p]) :: Byte(p, x)
  }

  /** A one-to-one image is as large. */
  lemma {:induction false} ImageCount<A, B>(a: set<A>, b: set<B>, f: A -> B)
    requires forall x :: x in a ==> f(x) in b
    requires forall y :: y in b ==> exists x :: x in a && f(x) == y
    requires forall x, y :: x in a && y in a && f(x) == f(y) ==> x == y
    ensures |a| == |b|
    decreases a
  {
    if x :| x in a {
      ImageCount(a - {x}, b - {f(x)}, f);
    }
  }

  lemma BytesOneMore(m: Mapped, paths: set<string>, path: string)
    requires paths <= m.Keys && path in m && path !in paths
    ensures |Bytes(m, paths + {path})| == |Bytes(m, paths)| + |Covered(m[path])|
  {
    var more := Bytes(m, {path});
    ImageCount(Covered(m[path]), more, x => Byte(path, x));
    assert Bytes(m, paths + {path}) == Bytes(m, paths) + more;
    CountOfUnion(Bytes(m, paths), more);
  }

  /** One member's extents put behind those gathered so far, file by file. */
  method Extend(mapped: Mapped, member: Mapped) returns (r: Mapped)
    ensures r.Keys == mapped.Keys + member.Keys
    ensures forall p :: p in r ==> r[p] == Extents(mapped, p) + Extents(member, p)
  {
    r := mapped;
    var todo := member.Keys;
    while todo != {}
      invariant todo <= member.Keys && r.Keys == mapped.Keys + (member.Keys - todo)
      invariant forall p :: p in r ==> r[p] == Extents(mapped, p) + if p in todo then [] else Extents(member, p)
      decreases todo
    {
      var path :| path in todo;
      r := r[path := Extents(r, path) + member[path]];
      todo := todo - {path};
    }
  }

  method Merge(family: seq<Mapped>) returns (mapped: Mapped)
    ensures forall p :: Extents(mapped, p) == Merged(family, p)
  {
    mapped := map[];
    for i := 0 to |family|
      invariant forall p :: Extents(mapped, p) == Merged(family[..i], p)
    {
      ghost var before := mapped;
      mapped := Extend(mapped, family[i]);
      assert family[..i + 1][..i] == family[..i];
      assert forall p :: Extents(mapped, p) == Extents(before, p) + Extents(family[i], p);
    }
    assert family[..|family|] == family;
  }

  /** The covered bytes of every file, added up. */
  method SumCovered(mapped: Mapped) returns (weights: int)
    ensures weights == |Bytes(mapped, mapped.Keys)|
  {
    weights := 0;
    var todo := mapped.Keys;
    assert mapped.Keys - todo == {};
    while todo != {}
      invariant todo <= mapped.Keys && weights == |Bytes(mapped, mapped.Keys - todo)|
      decreases todo
    {
      var path :| path in todo;
      var covered := CoveredBytes(mapped[path]);
      BytesOneMore(mapped, mapped.Keys - todo, path);
      assert mapped.Keys - (todo - {path}) == (mapped.Keys - todo) + {path};
      weights := weights + covered;
      todo := todo - {path};
    }
    assert mapped.Keys - todo == mapped.Keys;
  }

  /** The bytes of files some member of the family maps. */
  ghost function Weights(family: seq<Mapped>): (s: set<Byte>)
    ensures forall t :: t in s <==> Maps(family, t.path, t.offset)
  {
    if family == [] then {}
    else
      var n := |family| - 1;
      var last := family[n];
      assert family[..n] + [last] == family;
      assert forall t: Byte :: Maps(family, t.path, t.offset)
               <==> Maps(family[..n], t.path, t.offset) || t.offset in Covered(Extents(last, t.path)) by {
        forall t: Byte ensures Maps(family, t.path, t.offset)
          <==> Maps(family[..n], t.path, t.offset) || t.offset in Covered(Extents(last, t.path)) {
          MapsOneMore(family[..n], last, t.path, t.offset);
        }
      }
      Weights(family[..n]) + Bytes(last, last.Keys)
  }

  lemma BytesAreWeights(family: seq<Mapped>, mapped: Mapped)
    requires forall p :: Extents(mapped, p) == Merged(family, p)
    ensures Bytes(mapped, mapped.Keys) == Weights(family)
  {
    forall t ensures t in Bytes(mapped, mapped.Keys) <==> t in Weights(family) {
      MergedCovers(family, t.path, t.offset);
    }
  }

  function Sum(held: seq<Option<nat>>): nat {
    if held == [] then 0
    else Sum(held[..|held| - 1]) + if held[|held| - 1].Some? then held[|held| - 1].value else 0
  }

  /** The readings that there are, added up. */
  lemma {:induction false} SumIsTheTotal(a: seq<Option<nat>>, b: seq<Option<nat>>, n: nat)
    ensures Sum([]) == 0 && Sum([None]) == 0 && Sum([Some(n)]) == n
    ensures Sum(a + b) == Sum(a) + Sum(b)
    decreases |b|
  {
    if b == [] {
      assert a + b == a;
    } else {
      var m := |b| - 1;
      SumIsTheTotal(a, b[..m], n);
      assert (a + b)[..|a + b| - 1] == a + b[..m];
    }
  }

  /** The family's bytes, and among them those of mapped files, each counted once
      however many members map it; None if the process itself cannot be read.
      `family` is given only where mappings are counted. */
  method MemoryHeld(own: Option<nat>, descendants: seq<Option<nat>>, family: Option<seq<Mapped>>)
    returns (held: Option<(int, int)>)
    ensures held.None? <==> own.None?
    ensures held.Some? ==> held.value.1 == (if family.Some? then |Weights(family.value)| else 0)
    ensures held.Some? ==> held.value.0 == own.value + Sum(descendants) + held.value.1
  {
    if own.None? {
      return None;
    }
    var total: int := own.value;
    for i := 0 to |descendants|
      invariant total == own.value + Sum(descendants[..i])
    {
      assert descendants[..i + 1][..i] == descendants[..i];
      total := total + if descendants[i].Some? then descendants[i].value else 0;
    }
    assert descendants[..|descendants|] == descendants;
    var weights := 0;
    if family.Some? {
      var mapped := Merge(family.value);
      weights := SumCovered(mapped);
      BytesAreWeights(family.value, mapped);
    }
    return Some((total + weights, weights));
  }
}
