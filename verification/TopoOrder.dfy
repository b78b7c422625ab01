/** Which computeds a change concerns and in which order they run: the specification of
    computeTopoOrderedComputeds, independent of how the source walks the graph. */
module TopoOrder {
  import opened Names
  import opened Lists
  import opened Computeds
  import opened Graphs

  // ---------------------------------------------------------------- sorted name lists

  predicate StrictlySorted(list: seq<Name>) {
    forall i, j | 0 <= i < j < |list| :: Less(list[i], list[j])
  }

  function Elements(list: seq<Name>): set<Name> {
    set x | x in list
  }

  /** Insert before the first greater name (`findIndex` and `splice`), or at the end. */
  function InsertSorted(list: seq<Name>, x: Name): seq<Name> {
    if list == [] then [x]
    else if Less(x, list[0]) then [x] + list
    else [list[0]] + InsertSorted(list[1..], x)
  }

  lemma {:induction false} InsertSortedElements(list: seq<Name>, x: Name)
    ensures Elements(InsertSorted(list, x)) == Elements(list) + {x}
  {
    if list != [] && !Less(x, list[0]) {
      InsertSortedElements(list[1..], x);
      assert Elements([list[0]] + InsertSorted(list[1..], x)) == {list[0]} + Elements(InsertSorted(list[1..], x));
      assert Elements(list) == {list[0]} + Elements(list[1..]);
    } else if list != [] {
      assert Elements([x] + list) == {x} + Elements(list);
    }
  }

  lemma {:induction false} InsertSortedSorts(list: seq<Name>, x: Name)
    requires StrictlySorted(list) && x !in list
    ensures StrictlySorted(InsertSorted(list, x))
  {
    if list != [] {
      var out := InsertSorted(list, x);
      if Less(x, list[0]) {
        forall i | 0 <= i < |list| ensures Less(x, list[i]) {
          if i > 0 {
            LessTransitive(x, list[0], list[i]);
          }
        }
      } else {
        LessTotal(x, list[0]);
        InsertSortedSorts(list[1..], x);
        InsertSortedElements(list[1..], x);
        forall j | 0 < j < |out| ensures Less(out[0], out[j]) {
          assert out[j] == InsertSorted(list[1..], x)[j - 1];
          assert out[j] in Elements(InsertSorted(list[1..], x));
          assert out[j] == x || out[j] in list[1..];
        }
      }
    }
  }

  /** `sort()`, with duplicates dropped as `new Set(...)` drops them. */
  function SortUnique(list: seq<Name>): seq<Name> {
    if list == [] then []
    else
      var rest := SortUnique(list[1..]);
      if list[0] in rest then rest else InsertSorted(rest, list[0])
  }

  lemma {:induction false} SortUniqueSorts(list: seq<Name>)
    ensures StrictlySorted(SortUnique(list)) && Elements(SortUnique(list)) == Elements(list)
  {
    if list != [] {
      SortUniqueSorts(list[1..]);
      assert Elements(list) == {list[0]} + Elements(list[1..]);
      var rest := SortUnique(list[1..]);
      assert list[0] in rest <==> list[0] in Elements(rest);
      if list[0] !in rest {
        InsertSortedSorts(rest, list[0]);
        InsertSortedElements(rest, list[0]);
      }
    }
  }

  predicate IsLeast(names: set<Name>, m: Name) {
    m in names && forall n | n in names && n != m :: Less(m, n)
  }

  /** A non-empty set of names has a least one. */
  lemma {:induction false} LeastExists(names: set<Name>)
    requires names != {}
    ensures exists m :: IsLeast(names, m)
    decreases |names|
  {
    var m :| m in names;
    if names == {m} {
      assert IsLeast(names, m);
    } else {
      LeastExists(names - {m});
      var k :| IsLeast(names - {m}, k);
      LessTotal(m, k);
      if Less(k, m) {
        assert IsLeast(names, k);
      } else {
        forall n | n in names && n != m ensures Less(m, n) {
          if n != k {
            LessTransitive(m, k, n);
          }
        }
        assert IsLeast(names, m);
      }
    }
  }

  ghost function Least(names: set<Name>): (m: Name)
    requires names != {}
    ensures IsLeast(names, m)
  {
    LeastExists(names);
    var m :| IsLeast(names, m);
    m
  }

  // ---------------------------------------------------------------- the affected computeds

  /** `c` depends, directly or through other computeds, on a source. */
  ghost predicate Downstream(entries: Entries, sources: set<Name>, c: Name) {
    c in entries && exists d, s :: d in entries[c].deps && s in sources && Reaches(entries, d, s)
  }

  /** The computeds downstream of the sources, and every computed upstream of those. */
  ghost predicate Concerned(entries: Entries, sources: set<Name>, n: Name) {
    n in entries && exists c :: Downstream(entries, sources, c) && Reaches(entries, c, n)
  }

  ghost function Affected(entries: Entries, sources: set<Name>): set<Name> {
    set n | n in entries && Concerned(entries, sources, n)
  }

  lemma DownstreamStep(entries: Entries, sources: set<Name>, n: Name, c: Name)
    requires (n in sources || Downstream(entries, sources, n)) && n in DepsOf(entries, c)
    ensures Downstream(entries, sources, c)
  {
    if n in sources {
      ReachesSelf(entries, n);
    } else {
      var d, s :| d in entries[n].deps && s in sources && Reaches(entries, d, s);
      ReachesCons(entries, n, d, s);
    }
  }

  /** A set that takes in every dependent of a source or of a member takes in all that is downstream. */
  lemma DownstreamComplete(entries: Entries, sources: set<Name>, closed: set<Name>, c: Name)
    requires forall n, x | (n in sources || n in closed) && n in DepsOf(entries, x) :: x in closed
    requires Downstream(entries, sources, c)
    ensures c in closed
  {
    var d, s :| d in entries[c].deps && s in sources && Reaches(entries, d, s);
    var p :| PathBetween(entries, p, d, s);
    BackAlong(entries, sources, closed, p);
    assert d in DepsOf(entries, c);
  }

  lemma {:induction false} BackAlong(entries: Entries, sources: set<Name>, closed: set<Name>, p: seq<Name>)
    requires forall n, x | (n in sources || n in closed) && n in DepsOf(entries, x) :: x in closed
    requires IsPath(entries, p) && p[|p| - 1] in sources
    ensures p[0] in sources || p[0] in closed
  {
    if |p| > 1 {
      PathTail(entries, p);
      BackAlong(entries, sources, closed, p[1..]);
    }
  }

  /** A set of computeds closed under computed dependencies contains the computeds its members reach. */
  lemma {:induction false} UpstreamComplete(entries: Entries, closed: set<Name>, p: seq<Name>)
    requires forall n, d | n in closed && d in DepsOf(entries, n) && d in entries :: d in closed
    requires IsPath(entries, p) && p[0] in closed && p[|p| - 1] in entries
    ensures p[|p| - 1] in closed
  {
    if |p| > 1 {
      PathTail(entries, p);
      assert p[1] in entries by {
        if |p| > 2 {
          PathTail(entries, p[1..]);
        }
      }
      UpstreamComplete(entries, closed, p[1..]);
    }
  }

  ghost predicate ReachedFrom(entries: Entries, from: set<Name>, n: Name) {
    exists c :: c in from && Reaches(entries, c, n)
  }

  /** Closing the downstream set upwards, with nothing it does not reach, gives the affected set. */
  lemma AffectedExact(entries: Entries, sources: set<Name>, down: set<Name>, all: set<Name>)
    requires forall c :: c in down <==> Downstream(entries, sources, c)
    requires down <= all && forall n, d | n in all && d in DepsOf(entries, n) && d in entries :: d in all
    requires forall n | n in all :: n in down || (n in entries && ReachedFrom(entries, down, n))
    ensures all == Affected(entries, sources)
  {
    forall n | n in all ensures n in Affected(entries, sources) {
      if n in down {
        ReachesSelf(entries, n);
      } else {
        var c :| c in down && Reaches(entries, c, n);
        assert Downstream(entries, sources, c);
      }
    }
    forall n | n in Affected(entries, sources) ensures n in all {
      var c :| Downstream(entries, sources, c) && Reaches(entries, c, n);
      var p :| PathBetween(entries, p, c, n);
      UpstreamComplete(entries, all, p);
    }
  }

  // ---------------------------------------------------------------- the least topological order

  predicate Ready(entries: Entries, rest: set<Name>, n: Name) {
    n in rest && forall d | d in DepsOf(entries, n) :: d !in rest
  }

  function ReadySet(entries: Entries, rest: set<Name>): set<Name> {
    set n | n in rest && Ready(entries, rest, n)
  }

  /** Repeatedly take the least name none of whose dependencies is left. */
  ghost function Order(entries: Entries, rest: set<Name>): seq<Name>
    decreases |rest|
  {
    if ReadySet(entries, rest) == {} then []
    else
      var m := Least(ReadySet(entries, rest));
      [m] + Order(entries, rest - {m})
  }

  /** Each name exactly once, and no name at or before one of its dependencies. */
  predicate Topological(entries: Entries, names: set<Name>, list: seq<Name>) {
    Elements(list) == names && NoDuplicates(list)
    && forall i, j | 0 <= i <= j < |list| :: list[j] !in DepsOf(entries, list[i])
  }

  predicate LexAtMost(a: seq<Name>, b: seq<Name>) {
    a == [] || (b != [] && (Less(a[0], b[0]) || (a[0] == b[0] && LexAtMost(a[1..], b[1..]))))
  }

  /** On an acyclic graph something is always ready: a computed of least rank. */
  lemma {:induction false} SomethingReady(entries: Entries, rank: map<Name, nat>, rest: set<Name>) returns (n: Name)
    requires Ranked(entries, rank) && rest != {} && rest <= entries.Keys
    ensures n in rest && (forall m | m in rest :: rank[n] <= rank[m]) && Ready(entries, rest, n)
    decreases |rest|
  {
    n :| n in rest;
    if rest != {n} {
      var k := SomethingReady(entries, rank, rest - {n});
      if rank[k] <= rank[n] {
        n := k;
      }
    }
  }

  lemma TopologicalCons(entries: Entries, rest: set<Name>, m: Name, tail: seq<Name>)
    requires Ready(entries, rest, m) && Topological(entries, rest - {m}, tail)
    ensures Topological(entries, rest, [m] + tail)
  {
    var list := [m] + tail;
    assert Elements(list) == {m} + Elements(tail);
    assert forall j | 0 < j < |list| :: list[j] == tail[j - 1];
    forall j | 0 <= j < |list| ensures list[j] in rest && (j > 0 ==> list[j] != m) {
      assert list[j] in Elements(list);
      if j > 0 {
        assert tail[j - 1] in Elements(tail);
      }
    }
  }

  lemma {:induction false} OrderIsTopological(entries: Entries, rank: map<Name, nat>, rest: set<Name>)
    requires Ranked(entries, rank) && rest <= entries.Keys
    ensures Topological(entries, rest, Order(entries, rest))
    decreases |rest|
  {
    if rest == {} {
      assert Elements(Order(entries, rest)) == {};
    } else {
      var w := SomethingReady(entries, rank, rest);
      assert w in ReadySet(entries, rest);
      var m := Least(ReadySet(entries, rest));
      OrderIsTopological(entries, rank, rest - {m});
      TopologicalCons(entries, rest, m, Order(entries, rest - {m}));
    }
  }

  lemma TopologicalTail(entries: Entries, rest: set<Name>, list: seq<Name>)
    requires Topological(entries, rest, list) && list != []
    ensures Ready(entries, rest, list[0]) && Topological(entries, rest - {list[0]}, list[1..])
  {
    var tail := list[1..];
    assert forall i | 0 <= i < |tail| :: tail[i] == list[i + 1];
    assert list[0] in Elements(list);
    forall x | x in rest - {list[0]} ensures x in Elements(tail) {
      assert x in Elements(list);
      var j :| 0 <= j < |list| && list[j] == x;
      assert tail[j - 1] == x;
    }
    forall x | x in Elements(tail) ensures x in rest - {list[0]} {
      var j :| 0 <= j < |tail| && tail[j] == x;
      assert x in Elements(list);
    }
    forall d | d in DepsOf(entries, list[0]) ensures d !in rest {
      assert d in rest ==> d in Elements(list);
    }
  }

  /** No topological order of the same names is lexicographically smaller. */
  lemma {:induction false} OrderIsLeast(entries: Entries, rest: set<Name>, other: seq<Name>)
    requires Topological(entries, rest, other)
    ensures LexAtMost(Order(entries, rest), other)
    decreases |rest|
  {
    if ReadySet(entries, rest) != {} {
      var m := Least(ReadySet(entries, rest));
      assert m in Elements(other);
      TopologicalTail(entries, rest, other);
      assert other[0] in ReadySet(entries, rest);
      if other[0] == m {
        OrderIsLeast(entries, rest - {m}, other[1..]);
      }
    }
  }
}
