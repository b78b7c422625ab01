/** Paths, acyclicity and chain lengths of a dependency graph. An edge runs from a computed to each
    name it depends on; a name without an entry is a leaf. */
module Graphs {
  import opened Names
  import opened Computeds

  function DepsOf(entries: Entries, n: Name): seq<Name> {
    if n in entries then entries[n].deps else []
  }

  predicate IsPath(entries: Entries, p: seq<Name>) {
    p != [] && forall i | 0 <= i < |p| - 1 :: p[i + 1] in DepsOf(entries, p[i])
  }

  ghost predicate PathBetween(entries: Entries, p: seq<Name>, a: Name, b: Name) {
    IsPath(entries, p) && p[0] == a && p[|p| - 1] == b
  }

  ghost predicate Reaches(entries: Entries, a: Name, b: Name) {
    exists p :: PathBetween(entries, p, a, b)
  }

  ghost predicate AnyReaches(entries: Entries, from: seq<Name>, b: Name) {
    exists d :: d in from && Reaches(entries, d, b)
  }

  /** Every dependency between computeds goes down in rank. */
  predicate Ranked(entries: Entries, rank: map<Name, nat>) {
    entries.Keys <= rank.Keys
    && forall c, d | c in entries && d in entries[c].deps && d in entries :: rank[d] < rank[c]
  }

  ghost predicate Acyclic(entries: Entries) {
    exists rank :: Ranked(entries, rank)
  }

  lemma ReachesSelf(entries: Entries, a: Name)
    ensures Reaches(entries, a, a)
  {
    assert PathBetween(entries, [a], a, a);
  }

  lemma ReachesStep(entries: Entries, a: Name, b: Name, c: Name)
    requires Reaches(entries, a, b) && c in DepsOf(entries, b)
    ensures Reaches(entries, a, c)
  {
    var p :| PathBetween(entries, p, a, b);
    assert PathBetween(entries, p + [c], a, c);
  }

  lemma ReachesCons(entries: Entries, a: Name, b: Name, c: Name)
    requires b in DepsOf(entries, a) && Reaches(entries, b, c)
    ensures Reaches(entries, a, c)
  {
    var p :| PathBetween(entries, p, b, c);
    assert PathBetween(entries, [a] + p, a, c);
  }

  lemma PathTail(entries: Entries, p: seq<Name>)
    requires IsPath(entries, p) && |p| > 1
    ensures p[1] in DepsOf(entries, p[0]) && IsPath(entries, p[1..])
  {
    forall i | 0 <= i < |p[1..]| - 1 ensures p[1..][i + 1] in DepsOf(entries, p[1..][i]) {
      assert p[i + 2] in DepsOf(entries, p[i + 1]);
    }
  }

  /** A set closed under dependencies contains everything its members reach. */
  lemma {:induction false} ClosedContainsPath(entries: Entries, closed: set<Name>, p: seq<Name>)
    requires IsPath(entries, p) && p[0] in closed
    requires forall n, d | n in closed && d in DepsOf(entries, n) :: d in closed
    ensures p[|p| - 1] in closed
  {
    if |p| > 1 {
      PathTail(entries, p);
      ClosedContainsPath(entries, closed, p[1..]);
    }
  }

  /** On a ranked graph a path between computeds goes strictly down, so no computed reaches itself. */
  lemma {:induction false} PathDescends(entries: Entries, rank: map<Name, nat>, p: seq<Name>)
    requires Ranked(entries, rank) && IsPath(entries, p) && |p| >= 2
    requires p[|p| - 1] in entries
    ensures p[0] in entries && rank[p[|p| - 1]] < rank[p[0]]
  {
    PathTail(entries, p);
    if |p| > 2 {
      PathDescends(entries, rank, p[1..]);
    }
  }

  lemma AcyclicHasNoLoop(entries: Entries, p: seq<Name>)
    requires Acyclic(entries) && IsPath(entries, p) && |p| >= 2
    ensures p[0] != p[|p| - 1]
  {
    var rank :| Ranked(entries, rank);
    if p[0] == p[|p| - 1] {
      assert p[1] in DepsOf(entries, p[0]);
      PathDescends(entries, rank, p);
    }
  }

  lemma {:induction false} RankBound(rank: map<Name, nat>) returns (m: nat)
    ensures forall n | n in rank :: rank[n] < m
    decreases |rank|
  {
    if rank == map[] {
      m := 0;
    } else {
      var n :| n in rank;
      var smaller := rank - {n};
      assert |smaller.Keys| < |rank.Keys| by {
        assert smaller.Keys == rank.Keys - {n};
      }
      var k := RankBound(smaller);
      m := if rank[n] < k then k else rank[n] + 1;
      forall x | x in rank ensures rank[x] < m {
        if x != n {
          assert x in smaller && smaller[x] == rank[x];
        }
      }
    }
  }

  /** Adding or replacing a node that none of its dependencies reaches keeps the graph acyclic. */
  lemma AcyclicAfterAdding(entries: Entries, name: Name, entry: Entry)
    requires Acyclic(entries) && !AnyReaches(entries, entry.deps, name)
    ensures Acyclic(entries[name := entry])
  {
    var rank :| Ranked(entries, rank);
    var below := set n | n in entries && AnyReaches(entries, entry.deps, n);
    var m := RankBound(rank);
    var after := entries[name := entry];
    var rank' := map n | n in rank.Keys + {name} ::
      if n == name then m else if n in below then rank[n] else m + 1 + rank[n];
    forall c, d | c in after && d in after[c].deps && d in after ensures rank'[d] < rank'[c] {
      if c == name {
        ReachesSelf(entries, d);
        assert d in below;
      } else if c in below {
        var f :| f in entry.deps && Reaches(entries, f, c);
        ReachesStep(entries, f, c, d);
        assert d in below;
      }
    }
    assert Ranked(after, rank');
  }

  /** Conversely a node that one of its dependencies reaches closes a loop. */
  lemma CyclicAfterAdding(entries: Entries, name: Name, entry: Entry)
    requires AnyReaches(entries, entry.deps, name)
    ensures !Acyclic(entries[name := entry])
  {
    var after := entries[name := entry];
    var d :| d in entry.deps && Reaches(entries, d, name);
    var p :| PathBetween(entries, p, d, name);
    var q := CutAtFirst(entries, p, name);
    var loop := [name] + q;
    forall i | 0 <= i < |loop| - 1 ensures loop[i + 1] in DepsOf(after, loop[i]) {
      if i > 0 {
        assert q[i] in DepsOf(entries, q[i - 1]);
      }
    }
    if Acyclic(after) {
      AcyclicHasNoLoop(after, loop);
    }
  }

  lemma {:induction false} CutAtFirst(entries: Entries, p: seq<Name>, name: Name) returns (q: seq<Name>)
    requires IsPath(entries, p) && p[|p| - 1] == name
    ensures PathBetween(entries, q, p[0], name) && name !in q[..|q| - 1]
  {
    if p[0] == name {
      q := [name];
    } else {
      PathTail(entries, p);
      var r := CutAtFirst(entries, p[1..], name);
      q := [p[0]] + r;
      forall i | 0 <= i < |q| - 1 ensures q[i + 1] in DepsOf(entries, q[i]) {
        if i > 0 {
          assert r[i] in DepsOf(entries, r[i - 1]);
        }
      }
    }
  }

  lemma AcyclicAfterRemoving(entries: Entries, name: Name)
    requires Acyclic(entries)
    ensures Acyclic(entries - {name})
  {
    var rank :| Ranked(entries, rank);
    assert Ranked(entries - {name}, rank);
  }

  // ---------------------------------------------------------------- chain lengths

  function Max(a: nat, b: nat): nat {
    if a < b then b else a
  }

  /** The number of computeds on the longest dependency chain that ends in `n`; 0 for a leaf. */
  ghost function Height(entries: Entries, rank: map<Name, nat>, n: Name): nat
    requires Ranked(entries, rank)
    decreases if n in entries then rank[n] + 1 else 0, 0
  {
    if n !in entries then 0 else 1 + Highest(entries, rank, n, |entries[n].deps|)
  }

  ghost function Highest(entries: Entries, rank: map<Name, nat>, n: Name, k: nat): nat
    requires Ranked(entries, rank) && n in entries && k <= |entries[n].deps|
    decreases rank[n], k + 1
  {
    if k == 0 then 0
    else
      var d := entries[n].deps[k - 1];
      assert d in entries[n].deps;
      Max(Height(entries, rank, d), Highest(entries, rank, n, k - 1))
  }

  lemma {:induction false} HighestBounds(entries: Entries, rank: map<Name, nat>, n: Name, k: nat, i: nat)
    requires Ranked(entries, rank) && n in entries && i < k <= |entries[n].deps|
    ensures Height(entries, rank, entries[n].deps[i]) <= Highest(entries, rank, n, k)
  {
    if i < k - 1 {
      HighestBounds(entries, rank, n, k - 1, i);
    }
  }

  lemma HeightDescends(entries: Entries, rank: map<Name, nat>, n: Name, d: Name)
    requires Ranked(entries, rank) && n in entries && d in entries[n].deps
    ensures Height(entries, rank, d) < Height(entries, rank, n)
  {
    var i :| 0 <= i < |entries[n].deps| && entries[n].deps[i] == d;
    HighestBounds(entries, rank, n, |entries[n].deps|, i);
  }

  /** No chain of computeds from `n` downwards is longer than its height... */
  lemma {:induction false} ChainAtMostHeight(entries: Entries, rank: map<Name, nat>, p: seq<Name>)
    requires Ranked(entries, rank) && IsPath(entries, p)
    requires forall i | 0 <= i < |p| :: p[i] in entries
    ensures |p| <= Height(entries, rank, p[0])
  {
    if |p| > 1 {
      PathTail(entries, p);
      HeightDescends(entries, rank, p[0], p[1]);
      ChainAtMostHeight(entries, rank, p[1..]);
    }
  }

  /** ... and one chain is exactly that long. */
  lemma {:induction false} ChainOfHeight(entries: Entries, rank: map<Name, nat>, n: Name) returns (p: seq<Name>)
    requires Ranked(entries, rank) && n in entries
    ensures IsPath(entries, p) && p[0] == n && |p| == Height(entries, rank, n)
    ensures forall i | 0 <= i < |p| :: p[i] in entries
    decreases rank[n]
  {
    var deps := entries[n].deps;
    if Highest(entries, rank, n, |deps|) == 0 {
      p := [n];
    } else {
      var k := |deps|;
      while Height(entries, rank, deps[k - 1]) != Highest(entries, rank, n, |deps|)
        invariant 0 < k <= |deps|
        invariant Highest(entries, rank, n, k) == Highest(entries, rank, n, |deps|)
        decreases k
      {
        k := k - 1;
      }
      var d := deps[k - 1];
      assert d in deps;
      var q := ChainOfHeight(entries, rank, d);
      p := [n] + q;
      forall i | 0 <= i < |p| - 1 ensures p[i + 1] in DepsOf(entries, p[i]) {
        if i > 0 {
          assert q[i] in DepsOf(entries, q[i - 1]);
        }
      }
    }
  }
}
