/** A layout's check that no two files claim one place (lazarus/agent/deployments.py). */
module Layout {
  // The folded names are sorted and each is compared with the next. A name is its
  // characters; `rank` orders characters.

  import opened Sorting

  type Name = seq<char>
  type Rank = char -> int

  // ----- orders -----

  /** Python's order of strings: by character code. */
  function ByCode(c: char): int {
    c as int
  }

  /** The slash before every other character. */
  function SlashFirst(c: char): int {
    if c == '/' then -1 else c as int
  }

  ghost predicate OneToOne(rank: Rank) {
    forall c, d :: rank(c) == rank(d) ==> c == d
  }

  predicate Less(rank: Rank, a: Name, b: Name) {
    if a == [] then b != []
    else b != [] && (rank(a[0]) < rank(b[0]) || (a[0] == b[0] && Less(rank, a[1..], b[1..])))
  }

  predicate Leq(rank: Rank, a: Name, b: Name) {
    a == b || Less(rank, a, b)
  }

  lemma {:induction false} LessIsTransitive(rank: Rank, a: Name, b: Name, c: Name)
    requires Less(rank, a, b) && Less(rank, b, c)
    ensures Less(rank, a, c)
  {
    if a != [] && a[0] == b[0] == c[0] {
      LessIsTransitive(rank, a[1..], b[1..], c[1..]);
    }
  }

  lemma {:induction false} LessIsTotal(rank: Rank, a: Name, b: Name)
    requires OneToOne(rank)
    ensures a == b || Less(rank, a, b) || Less(rank, b, a)
  {
    if a != [] && b != [] && a[0] == b[0] {
      LessIsTotal(rank, a[1..], b[1..]);
      assert a == [a[0]] + a[1..] && b == [b[0]] + b[1..];
    }
  }

  lemma {:induction false} LessIsStrict(rank: Rank, a: Name, b: Name)
    requires Less(rank, a, b)
    ensures a != b && !Less(rank, b, a)
  {
    if a != [] && a[0] == b[0] {
      LessIsStrict(rank, a[1..], b[1..]);
    }
  }

  // ----- sorting -----

  /** Names in the order of `rank`. */
  function By(rank: Rank): Order<Name> {
    (a, b) => Leq(rank, a, b)
  }

  lemma LeqIsTotal(rank: Rank)
    requires OneToOne(rank)
    ensures IsTotal(By(rank))
  {
    forall a, b ensures Leq(rank, a, b) || Leq(rank, b, a) {
      LessIsTotal(rank, a, b);
    }
    forall a, b, c | Leq(rank, a, b) && Leq(rank, b, c) ensures Leq(rank, a, c) {
      if Less(rank, a, b) && Less(rank, b, c) {
        LessIsTransitive(rank, a, b, c);
      }
    }
  }

  // ----- places -----

  /** `following` lies inside `name`, which it continues with a slash. */
  predicate Nested(name: Name, following: Name) {
    |name| < |following| && following[..|name|] == name && following[|name|] == '/'
  }

  predicate Neighbours(s: seq<Name>) {
    forall i :: 0 <= i < |s| - 1 ==> s[i + 1] != s[i] && !Nested(s[i], s[i + 1])
  }

  /** The check: sort, and compare each name with the next. */
  method PlacesApart(folded: seq<Name>) returns (ok: bool)
    ensures ok <==> Accepts(ByCode, folded)
  {
    var s := Sorted(By(ByCode), folded);
    var i := 0;
    while i + 1 < |s|
      invariant 0 <= i <= |s|
      invariant forall k :: 0 <= k < i && k + 1 < |s| ==> s[k + 1] != s[k] && !Nested(s[k], s[k + 1])
    {
      if s[i + 1] == s[i] || Nested(s[i], s[i + 1]) {
        return false;
      }
      i := i + 1;
    }
    return true;
  }

  predicate Accepts(rank: Rank, names: seq<Name>) {
    Neighbours(Sorted(By(rank), names))
  }

  ghost predicate Distinct(names: seq<Name>) {
    forall x :: multiset(names)[x] <= 1
  }

  ghost predicate Nests(names: seq<Name>, x: Name) {
    x in names && exists y :: y in names && Nested(x, y)
  }

  /** What the layout is meant to be: no two names the same, none inside another. */
  ghost predicate Apart(names: seq<Name>) {
    Distinct(names) && forall x :: !Nests(names, x)
  }

  /** In the order of rank, z comes between x and everything inside x. */
  predicate Interposed(rank: Rank, x: Name, z: Name) {
    Less(rank, x, z) && Less(rank, z, x + ['/'])
  }

  /** Some name keeps x from being compared with what is inside it. */
  ghost predicate Hidden(rank: Rank, names: seq<Name>, x: Name) {
    exists z :: z in names && Interposed(rank, x, z)
  }

  lemma {:induction false} InterposedIs(rank: Rank, x: Name, z: Name)
    requires OneToOne(rank)
    ensures Interposed(rank, x, z) <==> |x| < |z| && z[..|x|] == x && rank(z[|x|]) < rank('/')
  {
    var w := x + ['/'];
    if x != [] && z != [] && x[0] == z[0] {
      InterposedIs(rank, x[1..], z[1..]);
      assert w[1..] == x[1..] + ['/'];
      assert |x| < |z| ==> (z[..|x|] == x <==> z[1..][..|x| - 1] == x[1..]) by {
        if |x| < |z| {
          assert z[..|x|] == [z[0]] + z[1..][..|x| - 1];
          assert x == [x[0]] + x[1..];
        }
      }
    } else if x != [] && z != [] {
      assert |x| < |z| ==> z[..|x|][0] == z[0];
    } else if z != [] {
      assert w[1..] == [] && !Less(rank, z[1..], []);
      assert z[..0] == [];
    }
  }

  lemma {:induction false} NestedIsLater(rank: Rank, x: Name, y: Name)
    requires Nested(x, y)
    ensures Less(rank, x, y) && Leq(rank, x + ['/'], y)
  {
    var w := x + ['/'];
    if x != [] {
      assert y[..|x|][0] == y[0];
      assert y[1..][..|x| - 1] == y[..|x|][1..];
      NestedIsLater(rank, x[1..], y[1..]);
      assert w[1..] == x[1..] + ['/'];
      assert w == [w[0]] + w[1..] && y == [y[0]] + y[1..];
    } else {
      assert w == ['/'] && w[1..] == [];
      assert y[1..] == [] ==> y == w;
    }
  }

  /** What lies between x and something inside it is inside it too, or interposed. */
  lemma {:induction false} Between(rank: Rank, x: Name, s: Name, y: Name)
    requires OneToOne(rank) && Less(rank, x, s) && Leq(rank, s, y) && Nested(x, y)
    ensures Nested(x, s) || Interposed(rank, x, s)
  {
    if s != y {
      var w := x + ['/'];
      if x == [] {
        LessIsTotal(rank, s, w);
        assert s[1..] == [] || rank(s[0]) <= rank('/');
      } else {
        assert y[..|x|][0] == y[0];
        assert y[1..][..|x| - 1] == y[..|x|][1..];
        LessIsStrict(rank, s, y);
        assert s[0] == x[0];
        Between(rank, x[1..], s[1..], y[1..]);
        assert w[1..] == x[1..] + ['/'];
        assert Nested(x[1..], s[1..]) ==> s[..|x|] == [s[0]] + s[1..][..|x| - 1];
        assert x == [x[0]] + x[1..];
      }
    }
  }

  // ----- what the check finds -----

  lemma {:induction false} StrictlyRising(rank: Rank, s: seq<Name>)
    requires OneToOne(rank) && Ordered(By(rank), s) && forall i :: 0 <= i < |s| - 1 ==> s[i + 1] != s[i]
    ensures forall i, j :: 0 <= i < j < |s| ==> Less(rank, s[i], s[j])
    ensures Distinct(s)
  {
    if s != [] {
      var n := |s| - 1;
      StrictlyRising(rank, s[..n]);
      forall i | 0 <= i < n ensures Less(rank, s[i], s[n]) {
        assert By(rank)(s[n - 1], s[n]) && s[n - 1 + 1] != s[n - 1];
        if i < n - 1 {
          assert Less(rank, s[..n][i], s[..n][n - 1]);
          LessIsTransitive(rank, s[i], s[n - 1], s[n]);
        }
      }
      forall i, j | 0 <= i < j < |s| ensures Less(rank, s[i], s[j]) {
        if j < n {
          assert Less(rank, s[..n][i], s[..n][j]);
        }
      }
      assert s == s[..n] + [s[n]];
      forall i | 0 <= i < n ensures s[i] != s[n] {
        LessIsStrict(rank, s[i], s[n]);
      }
      assert s[n] !in multiset(s[..n]);
    }
  }

  lemma TwiceInARow(s: seq<Name>, i: nat)
    requires i + 1 < |s| && s[i + 1] == s[i]
    ensures multiset(s)[s[i]] >= 2
  {
    assert s == s[..i] + [s[i], s[i]] + s[i + 2..];
  }

  /** Accepting leaves no duplicate, and beside every name that something is inside of
      another name has come between. */
  lemma AcceptedIsHidden(rank: Rank, s: seq<Name>, x: Name)
    requires OneToOne(rank) && Ordered(By(rank), s) && Neighbours(s) && Nests(s, x)
    ensures Hidden(rank, s, x)
  {
    StrictlyRising(rank, s);
    var y :| y in s && Nested(x, y);
    var i :| 0 <= i < |s| && s[i] == x;
    var j :| 0 <= j < |s| && s[j] == y;
    NestedIsLater(rank, x, y);
    LessIsStrict(rank, x, y);
    assert i < j;
    assert By(rank)(s[i + 1], s[j]);
    Between(rank, x, s[i + 1], y);
    assert !Nested(s[i], s[i + 1]);
    assert s[i + 1] in s;
  }

  lemma HiddenIsAccepted(rank: Rank, s: seq<Name>, i: nat)
    requires OneToOne(rank) && Ordered(By(rank), s) && i + 1 < |s| && Hidden(rank, s, s[i])
    ensures !Nested(s[i], s[i + 1])
  {
    var z :| z in s && Interposed(rank, s[i], z);
    var k :| 0 <= k < |s| && s[k] == z;
    LessIsStrict(rank, s[i], z);
    assert k > i;
    if Nested(s[i], s[i + 1]) {
      NotBefore(rank, s[i], s[i + 1], z);
    }
  }

  /** What is interposed comes before all that is inside. */
  lemma NotBefore(rank: Rank, x: Name, y: Name, z: Name)
    requires Nested(x, y) && Interposed(rank, x, z)
    ensures Less(rank, z, y) && z != y && !Less(rank, y, z)
  {
    NestedIsLater(rank, x, y);
    if x + ['/'] != y {
      LessIsTransitive(rank, z, x + ['/'], y);
    }
    LessIsStrict(rank, z, y);
  }

  /** Comparing neighbours accepts exactly the layouts without duplicates in which
      every name that something is inside of is kept from it by another. */
  lemma AcceptsExactly(rank: Rank, names: seq<Name>)
    requires OneToOne(rank)
    ensures Accepts(rank, names) <==> Distinct(names) && forall x :: Nests(names, x) ==> Hidden(rank, names, x)
  {
    var s := Sorted(By(rank), names);
    LeqIsTotal(rank);
    SortedIsOrdered(By(rank), names);
    assert forall x :: x in s <==> x in names by {
      forall x ensures x in s <==> x in names {
        assert x in s <==> x in multiset(s);
        assert x in names <==> x in multiset(names);
      }
    }
    if Accepts(rank, names) {
      StrictlyRising(rank, s);
      forall x | Nests(names, x) ensures Hidden(rank, names, x) {
        AcceptedIsHidden(rank, s, x);
      }
    }
    if Distinct(names) && forall x :: Nests(names, x) ==> Hidden(rank, names, x) {
      forall i | 0 <= i < |s| - 1 ensures s[i + 1] != s[i] && !Nested(s[i], s[i + 1]) {
        if s[i + 1] == s[i] {
          TwiceInARow(s, i);
        }
        if Nested(s[i], s[i + 1]) {
          assert s[i + 1] in names;
          assert Nests(names, s[i]);
          assert Hidden(rank, s, s[i]);
          HiddenIsAccepted(rank, s, i);
        }
      }
    }
  }

  /** What the check refuses is a real conflict. */
  lemma RefusesOnlyConflicts(names: seq<Name>)
    requires !Accepts(ByCode, names)
    ensures !Apart(names)
  {
    AcceptsExactly(ByCode, names);
  }

  /** z continues x with a character before the slash. */
  predicate Shadows(x: Name, z: Name) {
    |x| < |z| && z[..|x|] == x && z[|x|] < '/'
  }

  /** The check meets its promise exactly when there is a duplicate, or nothing is
      nested, or some name that something is inside of has no other that continues it
      with a character before the slash. */
  lemma FindsConflictsExactlyWhen(names: seq<Name>)
    ensures (Accepts(ByCode, names) <==> Apart(names)) <==>
              (!Distinct(names) || (forall x :: !Nests(names, x))
               || exists x :: Nests(names, x) && forall z :: z in names ==> !Shadows(x, z))
  {
    AcceptsExactly(ByCode, names);
    forall x, z ensures Interposed(ByCode, x, z) <==> Shadows(x, z) {
      InterposedIs(ByCode, x, z);
    }
  }

  /** With the slash before every other character, the check is complete. */
  lemma SlashFirstFindsAll(names: seq<Name>)
    ensures Accepts(SlashFirst, names) <==> Apart(names)
  {
    AcceptsExactly(SlashFirst, names);
    forall x, z ensures !Interposed(SlashFirst, x, z) {
      InterposedIs(SlashFirst, x, z);
    }
  }

  /** a, a-b and a/c: a-b sorts between a and what is inside it. */
  lemma NestingMissed()
    ensures var names := ["a", "a-b", "a/c"]; Accepts(ByCode, names) && !Apart(names)
  {
    var names := ["a", "a-b", "a/c"];
    assert names[0] == "a" && names[1] == "a-b" && names[2] == "a/c";
    assert Nested("a", "a/c") && Nests(names, "a");
    assert Shadows("a", "a-b");
    InterposedIs(ByCode, "a", "a-b");
    assert Hidden(ByCode, names, "a");
    forall x | Nests(names, x) ensures Hidden(ByCode, names, x) {
      assert x == "a" by {
        assert !Nested("a-b", "a") && !Nested("a-b", "a-b") && !Nested("a-b", "a/c");
        assert !Nested("a/c", "a") && !Nested("a/c", "a-b") && !Nested("a/c", "a/c");
      }
    }
    assert Distinct(names);
    AcceptsExactly(ByCode, names);
  }

  // ----- the components' order -----

  /** A path's components, front to back. */
  function Components(s: Name): (r: seq<Name>)
    ensures r != []
  {
    if s == [] then [[]]
    else if s[0] == '/' then [[]] + Components(s[1..])
    else
      var rest := Components(s[1..]);
      [[s[0]] + rest[0]] + rest[1..]
  }

  /** Component by component, each by character code. */
  predicate PathLeq(p: seq<Name>, q: seq<Name>) {
    p == [] || (q != [] && (Less(ByCode, p[0], q[0]) || (p[0] == q[0] && PathLeq(p[1..], q[1..]))))
  }

  /** Ordering paths by their components is ordering them with the slash first. */
  lemma {:induction false} SlashFirstIsByComponent(s: Name, t: Name)
    ensures PathLeq(Components(s), Components(t)) <==> Leq(SlashFirst, s, t)
  {
    var p, q := Components(s), Components(t);
    if s == [] {
      assert p[1..] == [];
      assert p[0] == [];
    } else if t == [] {
      assert q[0] == [] && q[1..] == [];
      if s[0] == '/' {
        assert p[1..] == Components(s[1..]);
      }
    } else {
      SlashFirstIsByComponent(s[1..], t[1..]);
      var a, b := Components(s[1..]), Components(t[1..]);
      assert s == [s[0]] + s[1..] && t == [t[0]] + t[1..];
      if s[0] == '/' && t[0] == '/' {
        assert p[1..] == a && q[1..] == b;
      } else if s[0] != '/' && t[0] != '/' {
        assert p[0][1..] == a[0] && q[0][1..] == b[0];
        assert p[1..] == a[1..] && q[1..] == b[1..];
      }
    }
  }

  lemma {:induction false} NestedByOne(x: Name, y: Name)
    requires x != [] && y != [] && x[0] == y[0]
    ensures Nested(x, y) <==> Nested(x[1..], y[1..])
  {
    if |x| < |y| {
      assert y[..|x|] == [y[0]] + y[1..][..|x| - 1] && x == [x[0]] + x[1..];
    }
  }

  predicate ProperPrefix(p: seq<Name>, q: seq<Name>) {
    |p| < |q| && q[..|p|] == p
  }

  /** A name lies inside another when the other's components, and more, begin its own. */
  lemma {:induction false} NestedIsByComponent(x: Name, y: Name)
    ensures Nested(x, y) <==> ProperPrefix(Components(x), Components(y))
  {
    var p, q := Components(x), Components(y);
    if x == [] {
      if y != [] && y[0] == '/' {
        assert q[1..] == Components(y[1..]) && q[..1] == [[]];
      } else {
        assert |q| > 1 ==> q[..1][0] == q[0];
      }
    } else if y == [] {
      assert |p| >= |q|;
    } else if x[0] == y[0] {
      NestedByOne(x, y);
      NestedIsByComponent(x[1..], y[1..]);
      ComponentsByOne(x, y);
    } else {
      FirstComponentsDiffer(x, y);
      assert |x| < |y| ==> y[..|x|][0] == y[0];
    }
  }

  lemma ComponentsByOne(x: Name, y: Name)
    requires x != [] && y != [] && x[0] == y[0]
    ensures ProperPrefix(Components(x), Components(y)) <==> ProperPrefix(Components(x[1..]), Components(y[1..]))
  {
    var p, q, a, b := Components(x), Components(y), Components(x[1..]), Components(y[1..]);
    if x[0] == '/' {
      assert p == [[]] + a && q == [[]] + b;
      assert |p| < |q| ==> q[..|p|] == [[]] + b[..|a|];
      assert |p| < |q| && q[..|p|] == p ==> q[..|p|][1..] == a;
    } else {
      assert |a| < |b| ==> q[..|p|] == [[y[0]] + b[0]] + b[1..][..|a| - 1];
      assert |a| < |b| ==> b[..|a|] == [b[0]] + b[1..][..|a| - 1] && a == [a[0]] + a[1..];
      if ProperPrefix(p, q) {
        assert q[..|p|][0] == p[0] && q[..|p|][1..] == p[1..];
        assert ([y[0]] + b[0])[1..] == b[0] && ([x[0]] + a[0])[1..] == a[0];
      }
    }
  }

  lemma FirstComponentsDiffer(x: Name, y: Name)
    requires x != [] && y != [] && x[0] != y[0]
    ensures Components(x)[0] != Components(y)[0]
  {
    assert x[0] != '/' ==> Components(x)[0][0] == x[0];
    assert y[0] != '/' ==> Components(y)[0][0] == y[0];
  }
}
