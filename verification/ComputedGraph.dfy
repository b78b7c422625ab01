/** The computed dependency graph: registration with its cycle check and reverse index, the cached
    topological order, and memoised evaluation (src/computed/computed-graph.ts). */
module ComputedGraphs {
  import opened Names
  import opened Values
  import opened Wrappers
  import opened Computeds
  import opened Graphs
  import opened TopoOrder
  import opened Evaluation

  function Bucket(dependents: map<Name, set<Name>>, d: Name): set<Name> {
    if d in dependents then dependents[d] else {}
  }

  /** The reverse index holds exactly the edges of the graph, and no empty bucket. */
  ghost predicate IndexExact(entries: Entries, dependents: map<Name, set<Name>>) {
    (forall c, d :: c in Bucket(dependents, d) <==> d in DepsOf(entries, c))
    && (forall d | d in dependents :: dependents[d] != {})
  }

  /** Every dependency of a visited node that is no longer on the search path was visited too. */
  predicate Explored(entries: Entries, visited: set<Name>, path: seq<Name>) {
    forall n, d | n in visited && n !in path && d in DepsOf(entries, n) :: d in visited
  }

  /** The computed dependencies of every member of `done` are in `all`. */
  predicate Closed(entries: Entries, done: set<Name>, all: set<Name>) {
    forall n, d | n in done && d in DepsOf(entries, n) && d in entries :: d in all
  }

  function Pick(index: map<Name, seq<Name>>, n: Name): seq<Name> {
    if n in index then index[n] else []
  }

  /** How many positions of a dependency list name a member of `rest`. */
  function CountIn(deps: seq<Name>, rest: set<Name>): nat {
    if deps == [] then 0
    else CountIn(deps[..|deps| - 1], rest) + (if deps[|deps| - 1] in rest then 1 else 0)
  }

  lemma {:induction false} CountInZero(deps: seq<Name>, rest: set<Name>)
    ensures CountIn(deps, rest) == 0 <==> forall d | d in deps :: d !in rest
  {
    if deps != [] {
      var front := deps[..|deps| - 1];
      CountInZero(front, rest);
      assert deps == front + [deps[|deps| - 1]];
    }
  }

  lemma {:induction false} CountInRemove(deps: seq<Name>, rest: set<Name>, m: Name)
    requires m in rest
    ensures CountIn(deps, rest) == CountIn(deps, rest - {m}) + multiset(deps)[m]
  {
    if deps != [] {
      var front := deps[..|deps| - 1];
      CountInRemove(front, rest, m);
      assert deps == front + [deps[|deps| - 1]];
    }
  }

  /** How often `adjacency` lists `c` under `m`. */
  function Times(adjacency: map<Name, seq<Name>>, m: Name, c: Name): nat {
    multiset(Pick(adjacency, m))[c]
  }

  /** `adjacency` lists each counted name under each of its dependencies, once per position. */
  ghost predicate EdgesOf(entries: Entries, affected: set<Name>, counted: set<Name>, adjacency: map<Name, seq<Name>>)
    requires counted <= entries.Keys
  {
    forall m, c | m in affected :: Times(adjacency, m, c) == if c in counted then multiset(entries[c].deps)[m] else 0
  }

  /** `after` lists what `before` lists, and `name` under the members of `deps`, once per position. */
  ghost predicate Listed(
    before: map<Name, seq<Name>>, after: map<Name, seq<Name>>, affected: set<Name>, name: Name, deps: seq<Name>)
  {
    forall m, c | m in affected ::
      Times(after, m, c) == Times(before, m, c) + (if c == name then multiset(deps)[m] else 0)
  }

  lemma TimesOneMore(adjacency: map<Name, seq<Name>>, dep: Name, name: Name, m: Name, c: Name)
    ensures Times(adjacency[dep := Pick(adjacency, dep) + [name]], m, c)
            == Times(adjacency, m, c) + if m == dep && c == name then 1 else 0
  {
  }

  lemma ListOne(before: map<Name, seq<Name>>, now: map<Name, seq<Name>>, affected: set<Name>, name: Name,
                deps: seq<Name>, dep: Name)
    requires Listed(before, now, affected, name, deps)
    ensures dep in affected ==>
              Listed(before, now[dep := Pick(now, dep) + [name]], affected, name, deps + [dep])
    ensures dep !in affected ==> Listed(before, now, affected, name, deps + [dep])
  {
    var after := if dep in affected then now[dep := Pick(now, dep) + [name]] else now;
    forall m, c | m in affected
      ensures Times(after, m, c) == Times(before, m, c) + (if c == name then multiset(deps + [dep])[m] else 0)
    {
      TimesOneMore(now, dep, name, m, c);
    }
  }

  /** One position more of the list `deps`, in degree and adjacency. */
  lemma OneMore(before: map<Name, seq<Name>>, now: map<Name, seq<Name>>, affected: set<Name>, name: Name,
                deps: seq<Name>, i: nat)
    requires i < |deps| && Listed(before, now, affected, name, deps[..i])
    ensures var after := if deps[i] in affected then now[deps[i] := Pick(now, deps[i]) + [name]] else now;
      Listed(before, after, affected, name, deps[..i + 1])
    ensures CountIn(deps[..i + 1], affected) == CountIn(deps[..i], affected) + if deps[i] in affected then 1 else 0
  {
    assert deps[..i + 1] == deps[..i] + [deps[i]] && deps[..i + 1][..i] == deps[..i];
    ListOne(before, now, affected, name, deps[..i], deps[i]);
  }

  /** The ready list as it must be: sorted, and exactly the remaining names of degree 0. */
  ghost predicate ReadyList(rest: set<Name>, inDegree: map<Name, nat>, ready: seq<Name>) {
    rest <= inDegree.Keys && StrictlySorted(ready) && forall n :: n in ready <==> n in rest && inDegree[n] == 0
  }

  /** The degrees as they must be: the dependencies still to come. */
  predicate Degrees(entries: Entries, rest: set<Name>, inDegree: map<Name, nat>) {
    rest <= inDegree.Keys && rest <= entries.Keys
    && forall n | n in rest :: inDegree[n] == CountIn(entries[n].deps, rest)
  }

  lemma ReadyIsDegreeZero(entries: Entries, rest: set<Name>, inDegree: map<Name, nat>, n: Name)
    requires Degrees(entries, rest, inDegree) && n in rest
    ensures Ready(entries, rest, n) <==> inDegree[n] == 0
  {
    CountInZero(entries[n].deps, rest);
  }

  lemma HeadIsNext(entries: Entries, rest: set<Name>, inDegree: map<Name, nat>, ready: seq<Name>)
    requires Degrees(entries, rest, inDegree) && ReadyList(rest, inDegree, ready) && ready != []
    ensures Order(entries, rest) == [ready[0]] + Order(entries, rest - {ready[0]})
  {
    forall n | n in rest ensures Ready(entries, rest, n) <==> n in ready {
      ReadyIsDegreeZero(entries, rest, inDegree, n);
    }
    assert ready[0] in ReadySet(entries, rest);
    var m := Least(ReadySet(entries, rest));
    if m != ready[0] {
      assert m in ready;
      LessAsymmetric(m, ready[0]);
    }
  }

  /** No member of `done` depends on anything in `rest`. */
  predicate NoneLeft(entries: Entries, done: set<Name>, rest: set<Name>) {
    forall n, d | n in done && d in DepsOf(entries, n) :: d !in rest
  }

  /** The children of the popped head all remain, since each depends on it. */
  lemma ChildrenRemain(entries: Entries, affected: set<Name>, rest: set<Name>, adjacency: map<Name, seq<Name>>,
                       name: Name)
    requires affected <= entries.Keys && rest <= affected && EdgesOf(entries, affected, affected, adjacency)
    requires NoneLeft(entries, affected - rest, rest) && name in rest && Ready(entries, rest, name)
    ensures forall c | c in Pick(adjacency, name) :: c in rest - {name}
  {
    forall c | c in Pick(adjacency, name) ensures c in rest - {name} {
      assert Times(adjacency, name, c) > 0;
      assert name in DepsOf(entries, c);
    }
  }

  /** With the head gone, each degree is off by the number of times the head lists the name. */
  lemma DegreesOff(entries: Entries, affected: set<Name>, rest: set<Name>, adjacency: map<Name, seq<Name>>,
                   inDegree: map<Name, nat>, name: Name, n: Name)
    requires affected <= entries.Keys && rest <= affected && EdgesOf(entries, affected, affected, adjacency)
    requires Degrees(entries, rest, inDegree) && name in rest && n in rest
    ensures inDegree[n] == CountIn(entries[n].deps, rest - {name}) + multiset(Pick(adjacency, name))[n]
  {
    CountInRemove(entries[n].deps, rest, name);
    assert Times(adjacency, name, n) == multiset(entries[n].deps)[name];
  }

  lemma ReadyTail(rest: set<Name>, inDegree: map<Name, nat>, ready: seq<Name>)
    requires ReadyList(rest, inDegree, ready) && ready != []
    ensures ReadyList(rest - {ready[0]}, inDegree, ready[1..])
  {
    assert ready == [ready[0]] + ready[1..];
    LessIrreflexive(ready[0]);
  }

  /** What the children loop needs to know once the head of the ready list is popped. */
  lemma PopHead(entries: Entries, affected: set<Name>, rest: set<Name>, adjacency: map<Name, seq<Name>>,
                inDegree: map<Name, nat>, ready: seq<Name>)
    requires affected <= entries.Keys && rest <= affected && EdgesOf(entries, affected, affected, adjacency)
    requires Degrees(entries, rest, inDegree) && ReadyList(rest, inDegree, ready) && ready != []
    requires NoneLeft(entries, affected - rest, rest)
    ensures ready[0] in rest && Ready(entries, rest, ready[0])
    ensures forall c | c in Pick(adjacency, ready[0]) :: c in rest - {ready[0]}
    ensures forall n | n in rest - {ready[0]} ::
      inDegree[n] == CountIn(entries[n].deps, rest - {ready[0]}) + multiset(Pick(adjacency, ready[0]))[n]
    ensures ReadyList(rest - {ready[0]}, inDegree, ready[1..])
    ensures NoneLeft(entries, affected - (rest - {ready[0]}), rest - {ready[0]})
  {
    var name := ready[0];
    assert name in ready;
    ReadyIsDegreeZero(entries, rest, inDegree, name);
    ChildrenRemain(entries, affected, rest, adjacency, name);
    forall n | n in rest - {name} {
      DegreesOff(entries, affected, rest, adjacency, inDegree, name, n);
    }
    ReadyTail(rest, inDegree, ready);
  }

  lemma IndexAfterRemoving(entries: Entries, dependents: map<Name, set<Name>>, name: Name, after: map<Name, set<Name>>)
    requires IndexExact(entries, dependents)
    requires forall d :: Bucket(after, d) == Bucket(dependents, d) - (if d in DepsOf(entries, name) then {name} else {})
    requires forall d | d in after :: after[d] != {}
    ensures IndexExact(entries - {name}, after)
  {
    forall c, d ensures c in Bucket(after, d) <==> d in DepsOf(entries - {name}, c) {
      assert c in Bucket(dependents, d) <==> d in DepsOf(entries, c);
    }
  }

  lemma IndexAfterAdding(entries: Entries, dependents: map<Name, set<Name>>, name: Name, entry: Entry,
                         after: map<Name, set<Name>>)
    requires name !in entries && IndexExact(entries, dependents)
    requires forall d :: Bucket(after, d) == Bucket(dependents, d) + (if d in entry.deps then {name} else {})
    requires forall d | d in after :: after[d] != {}
    ensures IndexExact(entries[name := entry], after)
  {
    forall c, d ensures c in Bucket(after, d) <==> d in DepsOf(entries[name := entry], c) {
      assert c in Bucket(dependents, d) <==> d in DepsOf(entries, c);
    }
  }

  ghost predicate MemoTrue(entries: Entries, rank: map<Name, nat>, snapshot: Stores, memo: map<Name, Value>)
    requires Ranked(entries, rank)
  {
    forall n | n in memo :: EvalResult(entries, rank, snapshot, n) == Ok(memo[n])
  }

  function Prepend(args: seq<Value>, rest: Result<seq<Value>, EvalError>): Result<seq<Value>, EvalError> {
    match rest
    case Ok(vs) => Ok(args + vs)
    case Err(e) => Err(e)
  }

  lemma PrependNil(r: Result<seq<Value>, EvalError>)
    ensures Prepend([], r) == r
  {
    assert r.Ok? ==> [] + r.value == r.value;
  }

  lemma PrependOne(entries: Entries, rank: map<Name, nat>, snapshot: Stores, n: Name, i: nat, args: seq<Value>)
    requires Ranked(entries, rank) && n in entries && i < |entries[n].deps| && entries[n].deps[i] in entries[n].deps
    ensures var one := ArgResult(entries, rank, snapshot, n, entries[n].deps[i]);
      Prepend(args, ArgResults(entries, rank, snapshot, n, i))
        == if one.Err? then Err(one.error)
           else Prepend(args + [one.value], ArgResults(entries, rank, snapshot, n, i + 1))
  {
    var one := ArgResult(entries, rank, snapshot, n, entries[n].deps[i]);
    var rest := ArgResults(entries, rank, snapshot, n, i + 1);
    if one.Ok? && rest.Ok? {
      assert args + ([one.value] + rest.value) == args + [one.value] + rest.value;
    }
  }

  lemma NothingReady(entries: Entries, rest: set<Name>, inDegree: map<Name, nat>)
    requires Degrees(entries, rest, inDegree) && ReadyList(rest, inDegree, [])
    ensures Order(entries, rest) == []
  {
    forall n | n in rest ensures !Ready(entries, rest, n) {
      ReadyIsDegreeZero(entries, rest, inDegree, n);
    }
  }

  class ComputedGraph {
    var entries: Entries
    var dependents: map<Name, set<Name>>
    var lastOutput: map<Name, Value>
    var graphVersion: nat
    var cacheVersion: int
    var cache: map<seq<Name>, seq<Name>>

    ghost predicate Valid()
      reads this
    {
      Acyclic(entries) && IndexExact(entries, dependents) && CacheExact() && lastOutput.Keys <= entries.Keys
    }

    /** A cache of the current version answers every key as a fresh computation would. */
    ghost predicate CacheExact()
      reads this
    {
      cacheVersion <= graphVersion
      && (cacheVersion == graphVersion ==>
            forall key | key in cache :: cache[key] == Order(entries, Affected(entries, Elements(key))))
    }

    constructor ()
      ensures Valid() && entries == map[]
    {
      entries, dependents, lastOutput := map[], map[], map[];
      graphVersion, cacheVersion, cache := 0, -1, map[];
      new;
      assert Ranked(entries, map[]);
    }

    // -------------------------------------------------------------- registration

    /** The search of detectCycle below `current`: `visited` is shared by all roots, `path` is the
        current branch. */
    method Search(name: Name, current: Name, visited: set<Name>, path: seq<Name>)
      returns (found: bool, visited': set<Name>, path': seq<Name>)
      requires name !in visited && (forall x | x in path :: x in visited) && Explored(entries, visited, path)
      ensures found ==> path <= path' && PathBetween(entries, path'[|path|..] + [name], current, name)
      ensures !found ==> path' == path && visited <= visited' && current in visited' && name !in visited'
      ensures !found ==> Explored(entries, visited', path)
      decreases entries.Keys - visited
    {
      if current == name {
        return true, visited, path;
      }
      if current in visited {
        return false, visited, path;
      }
      visited' := visited + {current};
      path' := path + [current];
      var deps := DepsOf(entries, current);
      for i := 0 to |deps|
        invariant path' == path + [current] && visited + {current} <= visited' && name !in visited'
        invariant forall j | 0 <= j < i :: deps[j] in visited'
        invariant Explored(entries, visited', path')
      {
        var hit, seen, trail := Search(name, deps[i], visited', path');
        if hit {
          var below := trail[|path'|..] + [name];
          assert trail[|path|..] + [name] == [current] + below;
          assert PathBetween(entries, [current] + below, current, name);
          return true, seen, trail;
        }
        visited', path' := seen, trail;
      }
      return false, visited', path;
    }

    /** Answers a trace exactly when `name` would be reachable from its own dependencies, and the
        trace is a genuine dependency path from `name` back to itself. */
    method DetectCycle(name: Name, deps: seq<Name>) returns (trace: Option<seq<Name>>)
      ensures trace.Some? <==> AnyReaches(entries, deps, name)
      ensures trace.Some? ==> |trace.value| >= 2 && trace.value[0] == name && trace.value[1] in deps
      ensures trace.Some? ==> PathBetween(entries, trace.value[1..], trace.value[1], name)
    {
      var visited: set<Name> := {};
      for i := 0 to |deps|
        invariant name !in visited && Explored(entries, visited, [])
        invariant forall j | 0 <= j < i :: deps[j] in visited
      {
        var found, seen, path := Search(name, deps[i], visited, []);
        if found {
          assert path[0..] == path;
          assert PathBetween(entries, path + [name], deps[i], name);
          assert Reaches(entries, deps[i], name);
          trace := Some([name] + path + [name]);
          assert trace.value[1..] == path + [name];
          return;
        }
        visited := seen;
      }
      if AnyReaches(entries, deps, name) {
        ghost var d :| d in deps && Reaches(entries, d, name);
        ghost var p :| PathBetween(entries, p, d, name);
        ClosedContainsPath(entries, visited, p);
      }
      trace := None;
    }

    /** removeComputedDependentLinks: duplicates in `deps` find the link gone already. */
    method RemoveLinks(name: Name, deps: seq<Name>)
      requires forall d | d in dependents :: dependents[d] != {}
      modifies this`dependents
      ensures forall d :: Bucket(dependents, d) == Bucket(old(dependents), d) - (if d in deps then {name} else {})
      ensures forall d | d in dependents :: dependents[d] != {}
    {
      for i := 0 to |deps|
        invariant forall d ::
          Bucket(dependents, d) == Bucket(old(dependents), d) - (if d in deps[..i] then {name} else {})
        invariant forall d | d in dependents :: dependents[d] != {}
      {
        var dep := deps[i];
        if dep in dependents {
          var links := dependents[dep] - {name};
          dependents := if links == {} then dependents - {dep} else dependents[dep := links];
        }
        assert deps[..i + 1] == deps[..i] + [dep];
      }
      assert deps[..|deps|] == deps;
    }

    method AddLinks(name: Name, deps: seq<Name>)
      requires forall d | d in dependents :: dependents[d] != {}
      modifies this`dependents
      ensures forall d :: Bucket(dependents, d) == Bucket(old(dependents), d) + (if d in deps then {name} else {})
      ensures forall d | d in dependents :: dependents[d] != {}
    {
      for i := 0 to |deps|
        invariant forall d ::
          Bucket(dependents, d) == Bucket(old(dependents), d) + (if d in deps[..i] then {name} else {})
        invariant forall d | d in dependents :: dependents[d] != {}
      {
        var dep := deps[i];
        dependents := dependents[dep := Bucket(dependents, dep) + {name}];
        assert deps[..i + 1] == deps[..i] + [dep];
      }
      assert deps[..|deps|] == deps;
    }

    /** Accepts exactly the registrations after which the graph is still acyclic. */
    method RegisterComputed(name: Name, entry: Entry) returns (ok: bool)
      requires Valid()
      modifies this
      ensures Valid()
      ensures ok <==> Acyclic(old(entries)[name := entry])
      ensures ok ==> entries == old(entries)[name := entry] && lastOutput == old(lastOutput) - {name}
      ensures !ok ==> unchanged(this)
    {
      hide Acyclic, Order, Affected;
      var trace := DetectCycle(name, entry.deps);
      if trace.Some? {
        CyclicAfterAdding(entries, name, entry);
        return false;
      }
      AcyclicAfterAdding(entries, name, entry);
      if name in entries {
        RemoveLinks(name, entries[name].deps);
        IndexAfterRemoving(entries, old(dependents), name, dependents);
      } else {
        assert entries - {name} == entries;
      }
      ghost var removed := dependents;
      entries := entries[name := entry];
      lastOutput := lastOutput - {name};
      AddLinks(name, entry.deps);
      IndexAfterAdding(old(entries) - {name}, removed, name, entry, dependents);
      assert entries == (old(entries) - {name})[name := entry];
      graphVersion := graphVersion + 1;
      ok := true;
    }

    method UnregisterComputed(name: Name)
      requires Valid()
      modifies this
      ensures Valid()
      ensures entries == old(entries) - {name} && lastOutput == old(lastOutput) - {name}
      ensures name !in old(entries) ==> unchanged(this)
    {
      if name !in entries {
        assert entries - {name} == entries;
        return;
      }
      AcyclicAfterRemoving(entries, name);
      RemoveLinks(name, entries[name].deps);
      IndexAfterRemoving(entries, old(dependents), name, dependents);
      entries := entries - {name};
      lastOutput := lastOutput - {name};
      graphVersion := graphVersion + 1;
    }

    /** The last output of a registered computed, as its owner keeps it. */
    method NoteOutput(name: Name, output: Value)
      requires Valid() && name in entries
      modifies this`lastOutput
      ensures Valid() && lastOutput == old(lastOutput)[name := output]
    {
      lastOutput := lastOutput[name := output];
    }

    // -------------------------------------------------------------- topological order

    /** The computeds downstream of the sources: breadth first over the reverse index, in whatever
        order the buckets list their members. */
    method CollectDownstream(sources: seq<Name>) returns (affected: set<Name>)
      requires IndexExact(entries, dependents)
      ensures forall c :: c in affected <==> Downstream(entries, Elements(sources), c)
    {
      affected := {};
      var queue := sources;
      ghost var done: set<Name> := {};
      while queue != []
        invariant forall c | c in affected :: Downstream(entries, Elements(sources), c)
        invariant forall n | n in sources || n in affected :: n in done || n in queue
        invariant forall n | n in queue :: n in sources || n in affected
        invariant forall n | n in done :: Bucket(dependents, n) <= affected
        decreases entries.Keys - affected, |queue|
      {
        var current := queue[0];
        assert queue == [current] + queue[1..];
        queue := queue[1..];
        ghost var queue0, affected0 := queue, affected;
        var todo := Bucket(dependents, current);
        while todo != {}
          invariant todo <= Bucket(dependents, current) <= todo + affected
          invariant affected0 <= affected && queue0 <= queue
          invariant affected == affected0 ==> queue == queue0
          invariant forall n | n in affected && n !in affected0 :: n in queue
          invariant forall c | c in affected :: Downstream(entries, Elements(sources), c)
          invariant forall n | n in queue :: n in sources || n in affected
          decreases todo
        {
          var dep :| dep in todo;
          todo := todo - {dep};
          if dep !in affected {
            DownstreamStep(entries, Elements(sources), current, dep);
            affected := affected + {dep};
            queue := queue + [dep];
          }
        }
        done := done + {current};
      }
      forall c | Downstream(entries, Elements(sources), c) ensures c in affected {
        assert forall n, x | n in DepsOf(entries, x) :: x in Bucket(dependents, n);
        DownstreamComplete(entries, Elements(sources), affected, c);
      }
    }

    /** expandComputedDeps: take in the computeds above `name`. */
    method ExpandComputedDeps(name: Name, affected: set<Name>) returns (wider: set<Name>)
      ensures affected <= wider
      ensures Closed(entries, {name}, wider) && Closed(entries, wider - affected, wider)
      ensures forall n | n in wider && n !in affected :: n in entries && Reaches(entries, name, n)
      decreases entries.Keys - affected
    {
      wider := affected;
      var deps := DepsOf(entries, name);
      for i := 0 to |deps|
        invariant affected <= wider
        invariant forall d | d in deps[..i] && d in entries :: d in wider
        invariant Closed(entries, wider - affected, wider)
        invariant forall n | n in wider && n !in affected :: n in entries && Reaches(entries, name, n)
      {
        var dep := deps[i];
        assert deps[..i + 1] == deps[..i] + [dep];
        if dep in entries && dep !in wider {
          ReachesSelf(entries, name);
          ReachesStep(entries, name, name, dep);
          var before := wider;
          wider := ExpandComputedDeps(dep, wider + {dep});
          forall n | n in wider && n !in before ensures n in entries && Reaches(entries, name, n) {
            if n != dep {
              ReachesCons(entries, name, dep, n);
            }
          }
        }
      }
      assert deps[..|deps|] == deps;
    }

    /** expandComputedDeps on each downstream computed in turn. */
    method ExpandAll(down: set<Name>) returns (affected: set<Name>)
      ensures down <= affected && Closed(entries, affected, affected)
      ensures forall n | n in affected :: n in down || (n in entries && ReachedFrom(entries, down, n))
    {
      affected := down;
      var todo := down;
      while todo != {}
        invariant todo <= down <= affected
        invariant Closed(entries, affected - todo, affected)
        invariant forall n | n in affected :: n in down || (n in entries && ReachedFrom(entries, down, n))
        decreases todo
      {
        var name :| name in todo;
        todo := todo - {name};
        affected := ExpandComputedDeps(name, affected);
      }
    }

    /** The affected set: everything downstream of the sources and everything upstream of that. */
    method CollectAffected(sources: seq<Name>) returns (affected: set<Name>)
      requires IndexExact(entries, dependents)
      ensures affected == Affected(entries, Elements(sources))
    {
      var down := CollectDownstream(sources);
      affected := ExpandAll(down);
      AffectedExact(entries, Elements(sources), down, affected);
    }

    /** One node of the count: its degree, and its name under each of its dependencies. */
    method CountNode(name: Name, affected: set<Name>, before: map<Name, seq<Name>>)
      returns (degree: nat, adjacency: map<Name, seq<Name>>)
      requires name in entries
      ensures degree == CountIn(entries[name].deps, affected)
      ensures Listed(before, adjacency, affected, name, entries[name].deps)
    {
      var deps := entries[name].deps;
      degree, adjacency := 0, before;
      for i := 0 to |deps|
        invariant degree == CountIn(deps[..i], affected)
        invariant Listed(before, adjacency, affected, name, deps[..i])
      {
        var dep := deps[i];
        OneMore(before, adjacency, affected, name, deps, i);
        if dep in affected {
          degree := degree + 1;
          adjacency := adjacency[dep := Pick(adjacency, dep) + [name]];
        }
      }
      assert deps[..|deps|] == deps;
    }

    /** In-degrees within the affected set, and for each name its dependents there, once per position. */
    method CountEdges(affected: set<Name>) returns (inDegree: map<Name, nat>, adjacency: map<Name, seq<Name>>)
      requires affected <= entries.Keys
      ensures inDegree.Keys == affected
      ensures forall n | n in affected :: inDegree[n] == CountIn(entries[n].deps, affected)
      ensures EdgesOf(entries, affected, affected, adjacency)
    {
      inDegree, adjacency := map[], map[];
      var todo := affected;
      while todo != {}
        invariant todo <= affected && inDegree.Keys == affected - todo
        invariant forall n | n in inDegree :: inDegree[n] == CountIn(entries[n].deps, affected)
        invariant EdgesOf(entries, affected, affected - todo, adjacency)
        decreases todo
      {
        var name :| name in todo;
        ghost var counted := affected - todo;
        todo := todo - {name};
        assert affected - todo == counted + {name};
        var degree, wider := CountNode(name, affected, adjacency);
        inDegree, adjacency := inDegree[name := degree], wider;
      }
      assert affected - todo == affected;
    }

    /** The children loop of one Kahn step: `rest` is what remains after the popped name. */
    method Release(ghost rest: set<Name>, children: seq<Name>, inDegree: map<Name, nat>, ready: seq<Name>)
      returns (inDegree': map<Name, nat>, ready': seq<Name>)
      requires rest <= inDegree.Keys && rest <= entries.Keys && forall c | c in children :: c in rest
      requires forall n | n in rest :: inDegree[n] == CountIn(entries[n].deps, rest) + multiset(children)[n]
      requires ReadyList(rest, inDegree, ready)
      ensures Degrees(entries, rest, inDegree') && ReadyList(rest, inDegree', ready')
    {
      inDegree', ready' := inDegree, ready;
      assert children[0..] == children;
      for i := 0 to |children|
        invariant ReadyList(rest, inDegree', ready')
        invariant forall n | n in rest :: inDegree'[n] == CountIn(entries[n].deps, rest) + multiset(children[i..])[n]
      {
        var child := children[i];
        assert children[i..] == [child] + children[i + 1..];
        ghost var was := inDegree';
        var newDegree := inDegree'[child] - 1;
        inDegree' := inDegree'[child := newDegree];
        if newDegree == 0 {
          InsertSortedSorts(ready', child);
          InsertSortedElements(ready', child);
          assert forall n :: n in InsertSorted(ready', child) <==> n in Elements(ready') + {child};
          ready' := InsertSorted(ready', child);
        }
      }
    }

    /** The names of degree 0, sorted. */
    method FirstReady(affected: set<Name>, inDegree: map<Name, nat>) returns (ready: seq<Name>)
      requires affected <= inDegree.Keys
      ensures ReadyList(affected, inDegree, ready)
    {
      var unsorted: seq<Name> := [];
      var todo := affected;
      while todo != {}
        invariant todo <= affected
        invariant forall n :: n in unsorted <==> n in affected - todo && inDegree[n] == 0
        decreases todo
      {
        var name :| name in todo;
        todo := todo - {name};
        if inDegree[name] == 0 {
          unsorted := unsorted + [name];
        }
      }
      ready := SortUnique(unsorted);
      SortUniqueSorts(unsorted);
      assert forall n :: n in ready <==> n in Elements(unsorted);
    }

    /** Kahn's pass over the affected set with a sorted ready list. */
    method SortAffected(affected: set<Name>) returns (sorted: seq<Name>)
      requires affected <= entries.Keys
      ensures sorted == Order(entries, affected)
    {
      var inDegree, adjacency := CountEdges(affected);
      var ready := FirstReady(affected, inDegree);
      sorted := [];
      ghost var rest := affected;
      while ready != []
        invariant rest <= affected
        invariant sorted + Order(entries, rest) == Order(entries, affected)
        invariant ReadyList(rest, inDegree, ready) && Degrees(entries, rest, inDegree)
        invariant NoneLeft(entries, affected - rest, rest)
        decreases rest
      {
        var name := ready[0];
        HeadIsNext(entries, rest, inDegree, ready);
        assert sorted + Order(entries, rest) == (sorted + [name]) + Order(entries, rest - {name});
        sorted := sorted + [name];
        PopHead(entries, affected, rest, adjacency, inDegree, ready);
        rest := rest - {name};
        inDegree, ready := Release(rest, Pick(adjacency, name), inDegree, ready[1..]);
      }
      NothingReady(entries, rest, inDegree);
    }

    /** computeTopoOrderedComputeds: the least topological order of the affected computeds. */
    method ComputeTopoOrder(sources: seq<Name>) returns (order: seq<Name>)
      requires Valid()
      ensures order == Order(entries, Affected(entries, Elements(sources)))
    {
      var affected := CollectAffected(sources);
      order := SortAffected(affected);
    }

    /** getTopoOrderedComputeds: with the cache, under any interleaving of registrations, removals and
        lookups, the answer is that of a fresh computation for the set of sources. */
    method GetTopoOrder(sources: seq<Name>) returns (order: seq<Name>)
      requires Valid()
      modifies this`cache, this`cacheVersion
      ensures Valid()
      ensures order == Order(entries, Affected(entries, Elements(sources)))
    {
      if graphVersion != cacheVersion {
        cache, cacheVersion := map[], graphVersion;
      }
      var key := SortUnique(sources);
      SortUniqueSorts(sources);
      if key in cache {
        return cache[key];
      }
      order := ComputeTopoOrder(sources);
      cache := cache[key := order];
    }

    // -------------------------------------------------------------- evaluation

    /** evaluateDeterministicComputed: the memo holds true values only, and the stack only computeds
        that rank above the current one, so the branch of the cycle error is dead. */
    method Evaluate(name: Name, snapshot: Stores, memo: map<Name, Value>, stack: set<Name>, ghost rank: map<Name, nat>)
      returns (r: Result<Value, EvalError>, memo': map<Name, Value>)
      requires Ranked(entries, rank)
      requires forall n | n in stack :: n in entries && (name in entries ==> rank[name] < rank[n])
      requires MemoTrue(entries, rank, snapshot, memo)
      ensures r == EvalResult(entries, rank, snapshot, name)
      ensures MemoTrue(entries, rank, snapshot, memo')
      decreases if name in entries then rank[name] else 0, 1
    {
      memo' := memo;
      if name in memo {
        return Ok(memo[name]), memo;
      }
      if name in stack {
        assert false; // the source throws its cycle error here
      }
      if name !in entries {
        return Err(EvalError.NotFound(name)), memo;
      }
      if entries[name].classification != Deterministic {
        return Err(NotDeterministic(name)), memo;
      }
      var deps := entries[name].deps;
      var args: seq<Value> := [];
      var i := 0;
      PrependNil(ArgResults(entries, rank, snapshot, name, 0));
      while i < |deps|
        invariant 0 <= i <= |deps| && MemoTrue(entries, rank, snapshot, memo')
        invariant Prepend(args, ArgResults(entries, rank, snapshot, name, i))
            == ArgResults(entries, rank, snapshot, name, 0)
      {
        var dep := deps[i];
        assert dep in deps;
        PrependOne(entries, rank, snapshot, name, i, args);
        if dep !in entries {
          args := args + [Read(snapshot, dep)];
        } else if entries[dep].classification != Deterministic {
          return Err(CannotCross(name, dep)), memo';
        } else {
          var arg, seen := Evaluate(dep, snapshot, memo', stack + {name}, rank);
          memo' := seen;
          if arg.Err? {
            return Err(arg.error), memo';
          }
          args := args + [arg.value];
        }
        i := i + 1;
      }
      assert args + [] == args;
      var next := Computed(entries[name], snapshot, name, args);
      memo' := memo'[name := next];
      r := Ok(next);
    }

    /** evaluateComputedFromSnapshot, with a fresh memo and an empty stack. */
    method EvaluateFromSnapshot(name: Name, snapshot: Stores) returns (r: Result<Value, EvalError>)
      requires Valid()
      ensures r.Ok? <==> name in entries && AllDeterministic(entries, name)
      ensures forall rank | Ranked(entries, rank) ::
        r == EvalResult(entries, rank, snapshot, name)
        && (r.Ok? ==> r.value == Eval(entries, rank, snapshot, name))
    {
      ghost var rank :| Ranked(entries, rank);
      var memo;
      r, memo := Evaluate(name, snapshot, map[], {}, rank);
      EvalResultValue(entries, rank, snapshot, name);
      if name in entries {
        EvalSucceeds(entries, rank, snapshot, name);
      }
      forall other | Ranked(entries, other)
        ensures r == EvalResult(entries, other, snapshot, name)
        ensures r.Ok? ==> r.value == Eval(entries, other, snapshot, name)
      {
        EvalRankFree(entries, rank, other, snapshot, name);
        EvalResultValue(entries, other, snapshot, name);
      }
    }
  }
}
