/** Python's sorted, for any total order. */
module Sorting {

  type Order<!T> = (T, T) -> bool

  ghost predicate IsTotal<T(!new)>(leq: Order<T>) {
    && (forall a, b :: leq(a, b) || leq(b, a))
    && (forall a, b, c :: leq(a, b) && leq(b, c) ==> leq(a, c))
  }

  ghost predicate Ordered<T>(leq: Order<T>, s: seq<T>) {
    forall i, j :: 0 <= i < j < |s| ==> leq(s[i], s[j])
  }

  function Insert<T(==)>(leq: Order<T>, e: T, s: seq<T>): (r: seq<T>)
    ensures multiset(r) == multiset(s) + multiset{e}
  {
    if s == [] || leq(e, s[0]) then [e] + s
    else
      assert s == [s[0]] + s[1..];
      [s[0]] + Insert(leq, e, s[1..])
  }

  function Sorted<T(==)>(leq: Order<T>, s: seq<T>): (r: seq<T>)
    ensures multiset(r) == multiset(s)
  {
    if s == [] then []
    else
      assert s == [s[0]] + s[1..];
      Insert(leq, s[0], Sorted(leq, s[1..]))
  }

  lemma {:induction false} InsertKeepsOrder<T(!new)>(leq: Order<T>, e: T, s: seq<T>)
    requires IsTotal(leq) && Ordered(leq, s)
    ensures Ordered(leq, Insert(leq, e, s))
  {
    if s != [] && leq(e, s[0]) {
      forall j | 0 <= j < |s| ensures leq(e, s[j]) {
        assert leq(s[0], s[j]);
      }
    } else if s != [] {
      var rest := Insert(leq, e, s[1..]);
      InsertKeepsOrder(leq, e, s[1..]);
      assert s == [s[0]] + s[1..];
      forall j | 0 <= j < |rest| ensures leq(s[0], rest[j]) {
        assert rest[j] in multiset(rest);
        assert rest[j] == e || rest[j] in s[1..];
      }
    }
  }

  lemma {:induction false} SortedIsOrdered<T(!new)>(leq: Order<T>, s: seq<T>)
    requires IsTotal(leq)
    ensures Ordered(leq, Sorted(leq, s))
  {
    if s != [] {
      SortedIsOrdered(leq, s[1..]);
      InsertKeepsOrder(leq, s[0], Sorted(leq, s[1..]));
    }
  }
}
