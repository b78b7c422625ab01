/** What a computed is worth on given leaf values: recursion over the dependency graph. */
module Evaluation {
  import opened Names
  import opened Values
  import opened Wrappers
  import opened Computeds
  import opened Graphs

  /** The value of `n` on a snapshot: a leaf is read; a computed is evaluated on its evaluated
      dependencies; a throwing compute function falls back to the snapshot. */
  ghost function Eval(entries: Entries, rank: map<Name, nat>, snapshot: Stores, n: Name): Value
    requires Ranked(entries, rank)
    decreases if n in entries then rank[n] + 1 else 0, 0
  {
    if n !in entries then Read(snapshot, n)
    else
      match entries[n].compute(EvalArgs(entries, rank, snapshot, n, 0))
      case Some(v) => v
      case None => Read(snapshot, n)
  }

  /** The evaluated dependencies of `n` from position `i` on. */
  ghost function EvalArgs(entries: Entries, rank: map<Name, nat>, snapshot: Stores, n: Name, i: nat): (args: seq<Value>)
    requires Ranked(entries, rank) && n in entries && i <= |entries[n].deps|
    ensures |args| == |entries[n].deps| - i
    decreases rank[n], |entries[n].deps| + 1 - i
  {
    if i == |entries[n].deps| then []
    else
      var d := entries[n].deps[i];
      assert d in entries[n].deps;
      [Eval(entries, rank, snapshot, d)] + EvalArgs(entries, rank, snapshot, n, i + 1)
  }

  lemma {:induction false} EvalArgsAt(entries: Entries, rank: map<Name, nat>, snapshot: Stores, n: Name, i: nat, k: nat)
    requires Ranked(entries, rank) && n in entries && i <= k < |entries[n].deps|
    ensures EvalArgs(entries, rank, snapshot, n, i)[k - i] == Eval(entries, rank, snapshot, entries[n].deps[k])
    decreases k - i
  {
    hide Eval;
    if i < k {
      EvalArgsAt(entries, rank, snapshot, n, i + 1, k);
    }
  }

  lemma {:induction false} ArgsAt(deps: seq<Name>, stores: Stores, k: nat)
    requires k < |deps|
    ensures Args(deps, stores)[k] == Read(stores, deps[k])
  {
    if k > 0 {
      ArgsAt(deps[1..], stores, k - 1);
    }
  }

  /** If each dependency's evaluation is what the stores hold, so are the arguments. */
  lemma EvalArgsAreArgs(entries: Entries, rank: map<Name, nat>, snapshot: Stores, stores: Stores, n: Name)
    requires Ranked(entries, rank) && n in entries
    requires forall d | d in entries[n].deps :: Eval(entries, rank, snapshot, d) == Read(stores, d)
    ensures EvalArgs(entries, rank, snapshot, n, 0) == Args(entries[n].deps, stores)
  {
    var deps := entries[n].deps;
    forall k | 0 <= k < |deps| ensures EvalArgs(entries, rank, snapshot, n, 0)[k] == Args(deps, stores)[k] {
      EvalArgsAt(entries, rank, snapshot, n, 0, k);
      ArgsAt(deps, stores, k);
      assert deps[k] in deps;
    }
  }

  /** Stores in which every computed is up to date are a fixpoint of evaluation: evaluating any name
      from them gives back the committed value. */
  lemma {:induction false} FreshStoresEvaluate(entries: Entries, rank: map<Name, nat>, stores: Stores, n: Name)
    requires Ranked(entries, rank)
    requires forall c | c in entries :: Fresh(entries, stores, c)
    ensures Eval(entries, rank, stores, n) == Read(stores, n)
    decreases if n in entries then rank[n] + 1 else 0
  {
    if n in entries {
      forall d | d in entries[n].deps ensures Eval(entries, rank, stores, d) == Read(stores, d) {
        FreshStoresEvaluate(entries, rank, stores, d);
      }
      EvalArgsAreArgs(entries, rank, stores, stores, n);
    }
  }

  ghost predicate NeverThrows(entries: Entries) {
    forall c, args | c in entries :: entries[c].compute(args).Some?
  }

  /** Without throwing compute functions an evaluation depends on the leaves alone. */
  lemma {:induction false} EvalReadsLeaves(entries: Entries, rank: map<Name, nat>, a: Stores, b: Stores, n: Name)
    requires Ranked(entries, rank) && NeverThrows(entries)
    requires forall l | l !in entries :: Read(a, l) == Read(b, l)
    ensures Eval(entries, rank, a, n) == Eval(entries, rank, b, n)
    decreases if n in entries then rank[n] + 1 else 0
  {
    if n in entries {
      var deps := entries[n].deps;
      forall k | 0 <= k < |deps|
        ensures EvalArgs(entries, rank, a, n, 0)[k] == EvalArgs(entries, rank, b, n, 0)[k]
      {
        assert deps[k] in deps;
        EvalReadsLeaves(entries, rank, a, b, deps[k]);
        EvalArgsAt(entries, rank, a, n, 0, k);
        EvalArgsAt(entries, rank, b, n, 0, k);
      }
      assert EvalArgs(entries, rank, a, n, 0) == EvalArgs(entries, rank, b, n, 0);
    }
  }

  // ---------------------------------------------------------------- evaluation with its errors

  datatype EvalError =
    | NotFound(name: Name)
    | NotDeterministic(name: Name)
    | CannotCross(name: Name, dependency: Name)

  /** The value of `n`, or the first error a left-to-right evaluation meets. */
  ghost function EvalResult(entries: Entries, rank: map<Name, nat>, snapshot: Stores, n: Name): Result<Value, EvalError>
    requires Ranked(entries, rank)
    decreases if n in entries then rank[n] + 1 else 0, 0
  {
    if n !in entries then Err(EvalError.NotFound(n))
    else if entries[n].classification != Deterministic then Err(NotDeterministic(n))
    else
      match ArgResults(entries, rank, snapshot, n, 0)
      case Err(e) => Err(e)
      case Ok(args) => Ok(Computed(entries[n], snapshot, n, args))
  }

  function Computed(entry: Entry, snapshot: Stores, n: Name, args: seq<Value>): Value {
    match entry.compute(args)
    case Some(v) => v
    case None => Read(snapshot, n)
  }

  ghost function ArgResults(entries: Entries, rank: map<Name, nat>, snapshot: Stores, n: Name, i: nat)
    : Result<seq<Value>, EvalError>
    requires Ranked(entries, rank) && n in entries && i <= |entries[n].deps|
    decreases rank[n], |entries[n].deps| + 1 - i
  {
    if i == |entries[n].deps| then Ok([])
    else
      var d := entries[n].deps[i];
      assert d in entries[n].deps;
      match ArgResult(entries, rank, snapshot, n, d)
      case Err(e) => Err(e)
      case Ok(v) =>
        match ArgResults(entries, rank, snapshot, n, i + 1)
        case Err(e) => Err(e)
        case Ok(vs) => Ok([v] + vs)
  }

  ghost function ArgResult(entries: Entries, rank: map<Name, nat>, snapshot: Stores, n: Name, d: Name)
    : Result<Value, EvalError>
    requires Ranked(entries, rank) && n in entries && d in entries[n].deps
    decreases rank[n], 1
  {
    if d !in entries then Ok(Read(snapshot, d))
    else if entries[d].classification != Deterministic then Err(CannotCross(n, d))
    else EvalResult(entries, rank, snapshot, d)
  }

  /** A successful result is the plain value. */
  lemma {:induction false} EvalResultValue(entries: Entries, rank: map<Name, nat>, snapshot: Stores, n: Name)
    requires Ranked(entries, rank)
    ensures var r := EvalResult(entries, rank, snapshot, n); r.Ok? ==> r.value == Eval(entries, rank, snapshot, n)
    decreases if n in entries then rank[n] + 1 else 0, 0
  {
    if n in entries {
      ArgResultsValue(entries, rank, snapshot, n, 0);
    }
  }

  lemma {:induction false} ArgResultsValue(entries: Entries, rank: map<Name, nat>, snapshot: Stores, n: Name, i: nat)
    requires Ranked(entries, rank) && n in entries && i <= |entries[n].deps|
    ensures var r := ArgResults(entries, rank, snapshot, n, i);
      r.Ok? ==> r.value == EvalArgs(entries, rank, snapshot, n, i)
    decreases rank[n], |entries[n].deps| + 1 - i
  {
    if i < |entries[n].deps| {
      var d := entries[n].deps[i];
      assert d in entries[n].deps;
      if d in entries {
        EvalResultValue(entries, rank, snapshot, d);
      }
      ArgResultsValue(entries, rank, snapshot, n, i + 1);
    }
  }

  /** The result does not depend on which ranking witnesses acyclicity. */
  lemma {:induction false} EvalRankFree(entries: Entries, r1: map<Name, nat>, r2: map<Name, nat>, snapshot: Stores,
                                        n: Name)
    requires Ranked(entries, r1) && Ranked(entries, r2)
    ensures EvalResult(entries, r1, snapshot, n) == EvalResult(entries, r2, snapshot, n)
    decreases if n in entries then r1[n] + 1 else 0, 0
  {
    if n in entries {
      ArgsRankFree(entries, r1, r2, snapshot, n, 0);
    }
  }

  lemma {:induction false} ArgsRankFree(entries: Entries, r1: map<Name, nat>, r2: map<Name, nat>, snapshot: Stores,
                                        n: Name, i: nat)
    requires Ranked(entries, r1) && Ranked(entries, r2) && n in entries && i <= |entries[n].deps|
    ensures ArgResults(entries, r1, snapshot, n, i) == ArgResults(entries, r2, snapshot, n, i)
    decreases r1[n], |entries[n].deps| + 1 - i
  {
    if i < |entries[n].deps| {
      var d := entries[n].deps[i];
      assert d in entries[n].deps;
      if d in entries {
        EvalRankFree(entries, r1, r2, snapshot, d);
      }
      ArgsRankFree(entries, r1, r2, snapshot, n, i + 1);
    }
  }

  /** An evaluation succeeds exactly when `n` and every computed it reaches are deterministic. */
  lemma {:induction false} EvalSucceeds(entries: Entries, rank: map<Name, nat>, snapshot: Stores, n: Name)
    requires Ranked(entries, rank) && n in entries
    ensures EvalResult(entries, rank, snapshot, n).Ok? <==> AllDeterministic(entries, n)
    decreases rank[n]
  {
    ReachesSelf(entries, n);
    var deps := entries[n].deps;
    forall d | d in deps && d in entries
      ensures EvalResult(entries, rank, snapshot, d).Ok? <==> AllDeterministic(entries, d)
    {
      EvalSucceeds(entries, rank, snapshot, d);
    }
    ArgResultsSucceed(entries, rank, snapshot, n, 0);
    if AllDeterministic(entries, n) {
      forall d | d in deps && d in entries ensures ArgResult(entries, rank, snapshot, n, d).Ok? {
        ReachesSelf(entries, d);
        ReachesCons(entries, n, d, d);
        forall m | m in entries && Reaches(entries, d, m) ensures entries[m].classification == Deterministic {
          ReachesCons(entries, n, d, m);
        }
      }
    } else if entries[n].classification == Deterministic {
      var m :| m in entries && Reaches(entries, n, m) && entries[m].classification != Deterministic;
      var p :| PathBetween(entries, p, n, m);
      PathTail(entries, p);
      var d := p[1];
      assert PathBetween(entries, p[1..], d, m);
      assert |p| > 2 ==> p[2] in DepsOf(entries, d);
      assert d in entries && !AllDeterministic(entries, d);
      assert !ArgResult(entries, rank, snapshot, n, d).Ok?;
    }
  }

  ghost predicate AllDeterministic(entries: Entries, n: Name) {
    forall m | m in entries && Reaches(entries, n, m) :: entries[m].classification == Deterministic
  }

  lemma {:induction false} ArgResultsSucceed(entries: Entries, rank: map<Name, nat>, snapshot: Stores, n: Name, i: nat)
    requires Ranked(entries, rank) && n in entries && i <= |entries[n].deps|
    ensures ArgResults(entries, rank, snapshot, n, i).Ok? <==>
      forall k | i <= k < |entries[n].deps| :: ArgResult(entries, rank, snapshot, n, entries[n].deps[k]).Ok?
    decreases |entries[n].deps| - i
  {
    if i < |entries[n].deps| {
      ArgResultsSucceed(entries, rank, snapshot, n, i + 1);
    }
  }

  // ---------------------------------------------------------------- which error it is

  /** The first dependency that fails decides: all before it succeed, and its failure is the answer. */
  lemma {:induction false} FirstFailure(entries: Entries, rank: map<Name, nat>, snapshot: Stores, n: Name, i: nat)
    requires Ranked(entries, rank) && n in entries && i <= |entries[n].deps|
    requires ArgResults(entries, rank, snapshot, n, i).Err?
    ensures exists k: nat :: FailsAt(entries, rank, snapshot, n, i, k)
    decreases |entries[n].deps| - i
  {
    if ArgResult(entries, rank, snapshot, n, entries[n].deps[i]).Err? {
      assert FailsAt(entries, rank, snapshot, n, i, i);
    } else {
      FirstFailure(entries, rank, snapshot, n, i + 1);
      var k: nat :| FailsAt(entries, rank, snapshot, n, i + 1, k);
      assert FailsAt(entries, rank, snapshot, n, i, k);
    }
  }

  ghost predicate FailsAt(entries: Entries, rank: map<Name, nat>, snapshot: Stores, n: Name, i: nat, k: nat)
    requires Ranked(entries, rank) && n in entries && i <= |entries[n].deps|
  {
    && i <= k < |entries[n].deps|
    && (forall j | i <= j < k :: ArgResult(entries, rank, snapshot, n, entries[n].deps[j]).Ok?)
    && ArgResult(entries, rank, snapshot, n, entries[n].deps[k]).Err?
    && ArgResults(entries, rank, snapshot, n, i)
         == Err(ArgResult(entries, rank, snapshot, n, entries[n].deps[k]).error)
  }

  /** What the error of an evaluation names: `n` itself if it is no computed, or not deterministic; else a
      deterministic computed that `n` reaches and the dependency of it that is not deterministic. */
  ghost predicate Blames(entries: Entries, n: Name, e: EvalError) {
    match e
    case NotFound(m) => m == n && n !in entries
    case NotDeterministic(m) => m == n && n in entries && entries[n].classification != Deterministic
    case CannotCross(m, d) =>
      && n in entries && m in entries && Reaches(entries, n, m) && entries[m].classification == Deterministic
      && entries[n].classification == Deterministic
      && d in entries[m].deps && d in entries && entries[d].classification != Deterministic
  }

  lemma {:induction false} ErrorNamesItsCause(entries: Entries, rank: map<Name, nat>, snapshot: Stores, n: Name)
    requires Ranked(entries, rank) && EvalResult(entries, rank, snapshot, n).Err?
    ensures Blames(entries, n, EvalResult(entries, rank, snapshot, n).error)
    decreases if n in entries then rank[n] + 1 else 0
  {
    if n in entries && entries[n].classification == Deterministic {
      ReachesSelf(entries, n);
      FirstFailure(entries, rank, snapshot, n, 0);
      var k: nat :| FailsAt(entries, rank, snapshot, n, 0, k);
      var d := entries[n].deps[k];
      assert d in entries[n].deps && d in entries;
      if entries[d].classification == Deterministic {
        ErrorNamesItsCause(entries, rank, snapshot, d);
        var e := EvalResult(entries, rank, snapshot, d).error;
        ReachesCons(entries, n, d, e.name);
      }
    }
  }
}
