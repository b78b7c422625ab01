/** What one pass over the affected computeds in dependency order makes of the stores
    (src/core/store-hydrate-impl.ts:385-407). */
module HydrationRecompute {
  import opened Names
  import opened Values
  import opened Wrappers
  import opened Computeds
  import opened Graphs
  import opened TopoOrder
  import opened Evaluation
  import opened FlushProtocol

  // ---------------------------------------------------------------- the snapshot

  /** Does a store take the value that a snapshot has for it? One that exists may refuse the write, undefined
      always; one that does not may refuse to be created so. */
  predicate Takes(refuses: (Name, Option<Value>, Value) -> bool, stores: Stores, w: Staged) {
    if w.name in stores then w.value != Undefined && !refuses(w.name, Some(stores[w.name]), w.value)
    else !refuses(w.name, None, w.value)
  }

  /** The entries of a snapshot that are taken, in order. */
  function Taken(refuses: (Name, Option<Value>, Value) -> bool, stores: Stores, snapshot: seq<Staged>): seq<Staged> {
    if snapshot == [] then []
    else
      var last := snapshot[|snapshot| - 1];
      Taken(refuses, stores, snapshot[..|snapshot| - 1]) + if Takes(refuses, stores, last) then [last] else []
  }

  function NamesIn(entries: seq<Staged>): seq<Name> {
    if entries == [] then [] else NamesIn(entries[..|entries| - 1]) + [entries[|entries| - 1].name]
  }

  /** A snapshot is an object: it has each store once. */
  predicate NamesOnce(snapshot: seq<Staged>) {
    forall i, j | 0 <= i < j < |snapshot| :: snapshot[i].name != snapshot[j].name
  }

  lemma {:induction false} TakenAre(refuses: (Name, Option<Value>, Value) -> bool, stores: Stores,
                                    snapshot: seq<Staged>)
    ensures forall w :: w in Taken(refuses, stores, snapshot) <==> w in snapshot && Takes(refuses, stores, w)
    ensures NamesOnce(snapshot) ==> NamesOnce(Taken(refuses, stores, snapshot))
  {
    if snapshot != [] {
      var front, last := snapshot[..|snapshot| - 1], snapshot[|snapshot| - 1];
      assert snapshot == front + [last];
      TakenAre(refuses, stores, front);
      var before := Taken(refuses, stores, front);
      if NamesOnce(snapshot) {
        forall w | w in before ensures w.name != last.name {
          var i :| 0 <= i < |front| && front[i] == w;
          assert snapshot[i].name != snapshot[|snapshot| - 1].name;
        }
      }
    }
  }

  lemma {:induction false} NamesInAre(entries: seq<Staged>)
    ensures forall n :: n in NamesIn(entries) <==> exists w :: w in entries && w.name == n
  {
    if entries != [] {
      assert entries == entries[..|entries| - 1] + [entries[|entries| - 1]];
      NamesInAre(entries[..|entries| - 1]);
    }
  }

  lemma {:induction false} OverlayOnce(stores: Stores, entries: seq<Staged>)
    requires NamesOnce(entries)
    ensures var after := Overlay(stores, entries);
      && (forall w | w in entries :: w.name in after && after[w.name] == w.value)
      && (forall n | n !in NamesIn(entries) :: (n in after <==> n in stores) && Read(after, n) == Read(stores, n))
  {
    if entries != [] {
      var front, last := entries[..|entries| - 1], entries[|entries| - 1];
      OverlayOnce(stores, front);
      forall w | w in entries
        ensures w.name in Overlay(stores, entries) && Overlay(stores, entries)[w.name] == w.value
      {
        assert w == last || w in front;
      }
    }
  }

  /** The stores as hydrated: every value that is taken is there, and nothing else has moved. */
  lemma HydratedStores(refuses: (Name, Option<Value>, Value) -> bool, stores: Stores, snapshot: seq<Staged>)
    requires NamesOnce(snapshot)
    ensures var taken := Taken(refuses, stores, snapshot);
      var after := Overlay(stores, taken);
      && (forall w | w in snapshot && Takes(refuses, stores, w) :: w.name in after && after[w.name] == w.value)
      && (forall n :: n in NamesIn(taken) <==> exists w :: w in snapshot && Takes(refuses, stores, w) && w.name == n)
      && (forall n | n !in NamesIn(taken) :: (n in after <==> n in stores) && Read(after, n) == Read(stores, n))
  {
    TakenAre(refuses, stores, snapshot);
    NamesInAre(Taken(refuses, stores, snapshot));
    OverlayOnce(stores, Taken(refuses, stores, snapshot));
  }

  /** An entry is taken or not by the store as it was before: no earlier entry is for it. */
  lemma NextEntry(refuses: (Name, Option<Value>, Value) -> bool, was: Stores, snapshot: seq<Staged>, i: nat)
    requires i < |snapshot| && NamesOnce(snapshot)
    ensures var taken, after := Taken(refuses, was, snapshot[..i]), Taken(refuses, was, snapshot[..i + 1]);
      var ok := Takes(refuses, Overlay(was, taken), snapshot[i]);
      && NamesIn(after) == NamesIn(taken) + (if ok then [snapshot[i].name] else [])
      && Overlay(was, after)
           == if ok then Overlay(was, taken)[snapshot[i].name := snapshot[i].value] else Overlay(was, taken)
  {
    var front, w := snapshot[..i], snapshot[i];
    assert snapshot[..i + 1][..i] == front;
    var taken, after := Taken(refuses, was, front), Taken(refuses, was, snapshot[..i + 1]);
    HydratedStores(refuses, was, front);
    forall x | x in front ensures x.name != w.name {
      var j :| 0 <= j < |front| && front[j] == x;
      assert snapshot[j] == x;
    }
    var before := Overlay(was, taken);
    assert w.name !in NamesIn(taken);
    assert Takes(refuses, before, w) <==> Takes(refuses, was, w) by {
      assert w.name in before <==> w.name in was;
      assert Read(before, w.name) == Read(was, w.name);
    }
    if Takes(refuses, was, w) {
      assert after == taken + [w] && after[..|after| - 1] == taken;
    } else {
      assert after == taken;
    }
  }

  // ---------------------------------------------------------------- the pass

  /** What the pass goes by besides compute functions: the last outputs before it, what stores refuse, and
      which outputs are promises. */
  datatype Rules = Rules(
    lastOutput: map<Name, Value>,
    refuses: (Name, Option<Value>, Value) -> bool,
    promise: Value -> bool)

  /** An output that the pass does not write over `held`: the last output, one that the store refuses, or
      a promise. */
  predicate Stalls(rules: Rules, c: Name, held: Value, v: Value) {
    (c in rules.lastOutput && rules.lastOutput[c] == v) || Refuses(rules.refuses, c, held, v) || rules.promise(v)
  }

  /** The output of a compute function, if the pass writes it. */
  function Written(entry: Entry, rules: Rules, c: Name, held: Value, args: seq<Value>): Option<Value> {
    match entry.compute(args)
    case None => None
    case Some(v) => if Stalls(rules, c, held, v) then None else Some(v)
  }

  function Unless(entry: Entry, rules: Rules, c: Name, held: Value): Entry {
    entry.(compute := args => Written(entry, rules, c, held, args))
  }

  lemma SameUnless(entry: Entry, a: Rules, b: Rules, c: Name, held: Value, stores: Stores)
    requires a == b.(lastOutput := a.lastOutput)
    requires (c in a.lastOutput <==> c in b.lastOutput)
    requires c in a.lastOutput ==> a.lastOutput[c] == b.lastOutput[c]
    ensures RunCompute(Unless(entry, a, c, held), c, stores) == RunCompute(Unless(entry, b, c, held), c, stores)
  {
    var args := Args(entry.deps, stores);
    assert Written(entry, a, c, held, args) == Written(entry, b, c, held, args);
  }

  /** The computeds as the pass takes them: an output that is not written leaves the store's value. */
  function Effective(entries: Entries, rules: Rules, stores: Stores): Entries {
    map c | c in entries :: Unless(entries[c], rules, c, Read(stores, c))
  }

  /** Each computed of `done` holds its evaluation on `before`; every other store is as before. */
  ghost predicate Evaluated(entries: Entries, before: Stores, now: Stores, done: seq<Name>) {
    (forall n | n !in done :: Read(now, n) == Read(before, n))
    && forall rank, c | Ranked(entries, rank) && c in done :: Read(now, c) == Eval(entries, rank, before, c)
  }

  /** When the dependencies of `c` hold their evaluations and `c` is untouched, so does its recompute. */
  lemma RecomputeIsEval(entries: Entries, before: Stores, now: Stores, done: seq<Name>, c: Name, rank: map<Name, nat>)
    requires Ranked(entries, rank) && Evaluated(entries, before, now, done)
    requires c in entries && c !in done
    requires forall d | d in entries[c].deps :: if d in entries then d in done else d !in done
    ensures RunCompute(entries[c], c, now) == Eval(entries, rank, before, c)
  {
    forall d | d in entries[c].deps ensures Eval(entries, rank, before, d) == Read(now, d) {
    }
    EvalArgsAreArgs(entries, rank, before, now, c);
  }

  lemma EvaluatedStep(entries: Entries, before: Stores, now: Stores, done: seq<Name>, c: Name)
    requires Evaluated(entries, before, now, done) && c in entries && c !in done
    requires forall d | d in entries[c].deps :: if d in entries then d in done else d !in done
    ensures Evaluated(entries, before, now[c := RunCompute(entries[c], c, now)], done + [c])
  {
    forall rank | Ranked(entries, rank) ensures RunCompute(entries[c], c, now) == Eval(entries, rank, before, c) {
      RecomputeIsEval(entries, before, now, done, c, rank);
    }
  }

  lemma AffectedUpstream(entries: Entries, sources: set<Name>, c: Name, d: Name)
    requires c in Affected(entries, sources) && d in DepsOf(entries, c) && d in entries
    ensures d in Affected(entries, sources)
  {
    var top :| Downstream(entries, sources, top) && Reaches(entries, top, c);
    ReachesStep(entries, top, c, d);
  }

  /** In a topological order of the affected computeds the dependencies of each come before it. */
  lemma DependenciesFirst(entries: Entries, sources: set<Name>, order: seq<Name>, i: nat)
    requires Topological(entries, Affected(entries, sources), order) && i < |order|
    ensures order[i] in entries && order[i] !in order[..i]
    ensures forall d | d in entries[order[i]].deps :: if d in entries then d in order[..i] else d !in order[..i]
  {
    assert forall n :: n in order <==> n in Elements(order);
    assert order[i] in order;
    forall d | d in entries[order[i]].deps ensures if d in entries then d in order[..i] else d !in order[..i] {
      if d in entries {
        AffectedUpstream(entries, sources, order[i], d);
        var k :| 0 <= k < |order| && order[k] == d;
        assert order[..i][k] == d;
      } else {
        assert d !in order;
      }
    }
  }

  // ---------------------------------------------------------------- when the shortcuts do harm

  /** Evaluated on the stores, the output of `c` is one that is not written, and not what its store holds. */
  ghost predicate Stuck(entries: Entries, rank: map<Name, nat>, stores: Stores, rules: Rules, c: Name)
    requires Ranked(entries, rank) && c in entries
  {
    var out := entries[c].compute(EvalArgs(entries, rank, stores, c, 0));
    out.Some? && Stalls(rules, c, Read(stores, c), out.value) && Read(stores, c) != out.value
  }

  ghost predicate DepsRight(entries: Entries, rank: map<Name, nat>, stores: Stores, rules: Rules, c: Name)
    requires Ranked(entries, rank) && c in entries && Ranked(Effective(entries, rules, stores), rank)
  {
    forall d | d in entries[c].deps ::
      Eval(Effective(entries, rules, stores), rank, stores, d) == Eval(entries, rank, stores, d)
  }

  lemma SameDeps(entries: Entries, rank: map<Name, nat>, rules: Rules, stores: Stores)
    requires Ranked(entries, rank)
    ensures Ranked(Effective(entries, rules, stores), rank)
  {
  }

  /** A computed whose dependencies come out right comes out right itself exactly if it is not stuck. */
  lemma RightUnlessStuck(entries: Entries, rank: map<Name, nat>, stores: Stores, rules: Rules, c: Name)
    requires Ranked(entries, rank) && c in entries && Ranked(Effective(entries, rules, stores), rank)
    requires DepsRight(entries, rank, stores, rules, c)
    ensures Eval(Effective(entries, rules, stores), rank, stores, c) == Eval(entries, rank, stores, c)
      <==> !Stuck(entries, rank, stores, rules, c)
  {
    var eff, deps := Effective(entries, rules, stores), entries[c].deps;
    assert eff[c].deps == deps;
    forall k | 0 <= k < |deps|
      ensures EvalArgs(eff, rank, stores, c, 0)[k] == EvalArgs(entries, rank, stores, c, 0)[k]
    {
      EvalArgsAt(eff, rank, stores, c, 0, k);
      EvalArgsAt(entries, rank, stores, c, 0, k);
      assert deps[k] in deps;
    }
    assert EvalArgs(eff, rank, stores, c, 0) == EvalArgs(entries, rank, stores, c, 0);
  }

  /** So where nothing that `n` depends on is stuck, and `n` is not, `n` comes out right. */
  lemma {:induction false} RightUnlessSomeStuck(entries: Entries, rank: map<Name, nat>, stores: Stores, rules: Rules,
                                                n: Name)
    requires Ranked(entries, rank) && Ranked(Effective(entries, rules, stores), rank)
    requires forall c | c in entries && Reaches(entries, n, c) :: !Stuck(entries, rank, stores, rules, c)
    ensures Eval(Effective(entries, rules, stores), rank, stores, n) == Eval(entries, rank, stores, n)
    decreases if n in entries then rank[n] + 1 else 0
  {
    if n in entries {
      ReachesSelf(entries, n);
      forall d | d in entries[n].deps
        ensures Eval(Effective(entries, rules, stores), rank, stores, d) == Eval(entries, rank, stores, d)
      {
        forall c | c in entries && Reaches(entries, d, c) ensures !Stuck(entries, rank, stores, rules, c) {
          ReachesCons(entries, n, d, c);
        }
        RightUnlessSomeStuck(entries, rank, stores, rules, d);
      }
      RightUnlessStuck(entries, rank, stores, rules, n);
    }
  }

  const COMPUTED: Name := [0x62]

  /** The last output shortcut does harm: a snapshot that overwrites a computed's own store with
      something else than its last output, which the recompute yields again, is left standing. */
  lemma HydratedValueStands(stored: Value, output: Value, deps: seq<Name>, stores: Stores)
    requires stored != output && COMPUTED !in deps && stores[COMPUTED := stored] == stores
    ensures var entries := map[COMPUTED := Entry(deps, args => Some(output), Deterministic)];
      var eff := Effective(entries, Rules(map[COMPUTED := output], (n, held, v) => false, v => false), stores);
      Ranked(entries, map[COMPUTED := 0]) && Ranked(eff, map[COMPUTED := 0])
      && Eval(entries, map[COMPUTED := 0], stores, COMPUTED) == output
      && Eval(eff, map[COMPUTED := 0], stores, COMPUTED) == stored
  {
    assert Read(stores[COMPUTED := stored], COMPUTED) == stored;
  }
}
