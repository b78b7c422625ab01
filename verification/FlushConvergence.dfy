/** How many flushes it takes. Between writes the only events are those of the flush machinery, and
    computeds settle level by level: nothing at level k or below moves after k flushes. */
module FlushConvergence {
  import opened Names
  import opened Values
  import opened Computeds
  import opened Graphs
  import opened Evaluation
  import opened FlushProtocol
  import opened FlushConsistency
  import opened FlushCare

  /** The events of flushes themselves; user listeners may be called but write nothing. */
  predicate Quiet(e: Event) {
    e.StartFlush? || e.Open? || e.Deliver? || e.Refresh? || e.Drop? || e.Retire? || e.FinishFlush?
  }

  function LevelOf(level: map<Name, nat>, n: Name): nat {
    if n in level then level[n] else 0
  }

  /** Leaves are at level 0 and every computed is above its dependencies. */
  predicate Leveled(entries: Entries, level: map<Name, nat>) {
    level.Keys == entries.Keys
    && (forall c | c in entries :: 0 < level[c])
    && (forall c, d | c in entries && d in entries[c].deps :: LevelOf(level, d) < level[c])
  }

  /** The level of a computed: the length of the longest chain of computeds that ends in it. */
  ghost function Levels(entries: Entries, rank: map<Name, nat>): (level: map<Name, nat>)
    requires Ranked(entries, rank)
    ensures Leveled(entries, level)
  {
    var level := map c | c in entries :: Height(entries, rank, c);
    assert forall c, d | c in entries && d in entries[c].deps :: LevelOf(level, d) < level[c] by {
      forall c, d | c in entries && d in entries[c].deps ensures LevelOf(level, d) < level[c] {
        HeightDescends(entries, rank, c, d);
      }
    }
    level
  }

  predicate UpToDateUpTo(s: State, level: map<Name, nat>, k: nat) {
    forall c | c in s.entries && LevelOf(level, c) <= k :: UpToDate(s, c)
  }

  predicate PendingAbove(s: State, level: map<Name, nat>, k: nat) {
    forall n | n in s.pending :: (if s.flushing then k + 1 else k) <= LevelOf(level, n)
  }

  predicate VersionsCurrent(s: State, level: map<Name, nat>, k: nat) {
    forall i | 0 <= i < |s.queue| && s.queue[i].begun && LevelOf(level, s.queue[i].name) <= k ::
      s.queue[i].version == VersionOf(s, s.queue[i].name)
  }

  /** Level k has settled: what is at k or below is up to date, what is pending lies above (strictly,
      while the next flush runs), and no task at k or below is out of date. Nobody is misled, nor can
      be. */
  ghost predicate Settled(s: State, level: map<Name, nat>, k: nat) {
    Faithful(s) && UpToDateUpTo(s, level, k) && PendingAbove(s, level, k) && VersionsCurrent(s, level, k)
  }

  /** Nothing at level k or below differs, in value or in version. */
  ghost predicate SameUpTo(s: State, t: State, level: map<Name, nat>, k: nat) {
    t.entries == s.entries && t.refuses == s.refuses && s.stores.Keys <= t.stores.Keys
    && forall n :: LevelOf(level, n) <= k ==>
      Read(t.stores, n) == Read(s.stores, n) && VersionOf(t, n) == VersionOf(s, n)
  }

  lemma StaysUpToDate(s: State, t: State, level: map<Name, nat>, k: nat)
    requires Leveled(s.entries, level) && SameUpTo(s, t, level, k) && UpToDateUpTo(s, level, k)
    ensures UpToDateUpTo(t, level, k)
  {
    forall c | c in t.entries && LevelOf(level, c) <= k ensures UpToDate(t, c) {
      ArgsAgree(s.entries[c].deps, s.stores, t.stores);
    }
  }

  /** A recompute of an up-to-date computed moves nothing. */
  lemma RecomputeOfUpToDate(s: State, c: Name)
    requires c in s.entries && c in s.stores && UpToDate(s, c)
    ensures var t := RecomputeStep(s, c, s.entries[c]);
      t.stores == s.stores && t.version == s.version && t.pending == s.pending
  {
    if !(s.flushing && Guarded(s, c)) {
      var next := RunCompute(s.entries[c], c, s.stores);
      ToldFrame(s, c, next, s.flushing);
      SettleUnwritten(Told(s, c, next, s.flushing), c, next);
    }
  }

  lemma SettleUnwritten(s: State, c: Name, next: Value)
    requires Unchanged(s, c, next) || Refused(s, c, next)
    ensures var t := Settle(s, c, next); t.stores == s.stores && t.version == s.version && t.pending == s.pending
  {
  }

  ghost predicate MovesOnly(s: State, t: State, c: Name) {
    && s.stores.Keys <= t.stores.Keys && t.pending <= s.pending + {c}
    && forall n | n != c :: Read(t.stores, n) == Read(s.stores, n) && VersionOf(t, n) == VersionOf(s, n)
  }

  lemma CommittedMoves(s: State, c: Name, v: Value, lastOutput: map<Name, Value>)
    ensures MovesOnly(s, Committed(s, c, v, lastOutput), c)
  {
  }

  lemma SettleMoves(s: State, c: Name, next: Value)
    ensures MovesOnly(s, Settle(s, c, next), c)
  {
    if Unchanged(s, c, next) || Refused(s, c, next) {
      SettleUnwritten(s, c, next);
    } else {
      CommittedMoves(s, c, next, s.lastOutput[c := next]);
    }
  }

  /** Of any computed, it moves at most that computed, which becomes pending. */
  lemma RecomputeMoves(s: State, c: Name, closure: Entry)
    ensures MovesOnly(s, RecomputeStep(s, c, closure), c)
  {
    if c in s.entries && !(s.flushing && Guarded(s, c)) {
      var next := RunCompute(closure, c, s.stores);
      ToldFrame(s, c, next, s.flushing);
      SettleMoves(Told(s, c, next, s.flushing), c, next);
    }
  }

  /** Where values and versions stay, so do those at level k and what is up to date. */
  lemma ValuesStay(s: State, t: State, level: map<Name, nat>, k: nat)
    requires UpToDateUpTo(s, level, k)
    requires t.entries == s.entries && t.refuses == s.refuses && t.stores == s.stores && t.version == s.version
    ensures SameUpTo(s, t, level, k) && UpToDateUpTo(t, level, k)
  {
    forall c | c in t.entries && LevelOf(level, c) <= k ensures UpToDate(t, c) {
      assert UpToDate(s, c);
    }
  }

  lemma RecomputeSettled(s: State, level: map<Name, nat>, k: nat, c: Name)
    requires Leveled(s.entries, level) && HaveStores(s) && s.flushing && c in s.entries
    requires UpToDateUpTo(s, level, k) && PendingAbove(s, level, k) && VersionsCurrent(s, level, k)
    ensures var t := RecomputeStep(s, c, s.entries[c]);
      && SameUpTo(s, t, level, k) && UpToDateUpTo(t, level, k) && PendingAbove(t, level, k)
      && VersionsCurrent(t, level, k)
  {
    RecomputeFrame(s, c, s.entries[c]);
    RecomputeMoves(s, c, s.entries[c]);
    if LevelOf(level, c) <= k {
      RecomputeOfUpToDate(s, c);
    }
    StaysUpToDate(s, RecomputeStep(s, c, s.entries[c]), level, k);
  }

  lemma DeliverSettled(s: State, level: map<Name, nat>, k: nat, i: nat)
    requires Leveled(s.entries, level) && Inv(s) && Settled(s, level, k) && Enabled(s, Deliver(i))
    ensures var t := Next(s, Deliver(i));
      && SameUpTo(s, t, level, k) && UpToDateUpTo(t, level, k) && PendingAbove(t, level, k)
      && VersionsCurrent(t, level, k)
  {
    CalledSettled(s, level, k, i);
    var sub := s.queue[i].todo[0];
    if sub.Recompute? && sub.computed in s.entries {
      assert TaskCurrent(s.queue[i], s.entries) && sub == Recompute(sub.computed, sub.closure);
      RecomputeSettled(Called(s, i), level, k, sub.computed);
    }
  }

  lemma CalledSettled(s: State, level: map<Name, nat>, k: nat, i: nat)
    requires Inv(s) && Settled(s, level, k) && Enabled(s, Deliver(i))
    ensures var t := Called(s, i);
      && UpToDateUpTo(t, level, k) && PendingAbove(t, level, k) && VersionsCurrent(t, level, k)
      && HaveStores(t) && SameUpTo(s, t, level, k) && t.entries == s.entries && t.flushing
  {
    var t := Called(s, i);
    forall j | 0 <= j < |t.queue| && t.queue[j].begun && LevelOf(level, t.queue[j].name) <= k
      ensures t.queue[j].version == VersionOf(t, t.queue[j].name)
    {
      assert t.queue[j].name == s.queue[j].name && t.queue[j].version == s.queue[j].version;
    }
    ValuesStay(s, t, level, k);
  }

  lemma StartSettled(s: State, level: map<Name, nat>, k: nat, plan: seq<Name>)
    requires Settled(s, level, k) && Enabled(s, StartFlush(plan))
    ensures var t := Next(s, StartFlush(plan));
      && SameUpTo(s, t, level, k) && UpToDateUpTo(t, level, k) && PendingAbove(t, level, k)
      && VersionsCurrent(t, level, k)
  {
    var t := Next(s, StartFlush(plan));
    forall j | 0 <= j < |t.queue| ensures !t.queue[j].begun {
      NoneBegun(plan, j);
    }
    ValuesStay(s, t, level, k);
  }

  lemma UpdateSettled(s: State, t: State, level: map<Name, nat>, k: nat, i: nat)
    requires Settled(s, level, k) && i < |s.queue|
    requires |t.queue| == |s.queue| && t == s.(queue := s.queue[i := t.queue[i]])
    requires t.queue[i].name == s.queue[i].name
    requires (t.queue[i].version == s.queue[i].version && s.queue[i].begun)
          || t.queue[i].version == VersionOf(s, s.queue[i].name)
    ensures SameUpTo(s, t, level, k) && UpToDateUpTo(t, level, k) && PendingAbove(t, level, k)
    ensures VersionsCurrent(t, level, k)
  {
    forall j | 0 <= j < |t.queue| && t.queue[j].begun && LevelOf(level, t.queue[j].name) <= k
      ensures t.queue[j].version == VersionOf(s, t.queue[j].name)
    {
      assert t.queue[j].name == s.queue[j].name;
    }
    ValuesStay(s, t, level, k);
  }

  lemma RemoveSettled(s: State, level: map<Name, nat>, k: nat, e: Event)
    requires Inv(s) && Settled(s, level, k) && Enabled(s, e) && (e.Drop? || e.Retire?)
    ensures var t := Next(s, e);
      && SameUpTo(s, t, level, k) && UpToDateUpTo(t, level, k) && PendingAbove(t, level, k)
      && VersionsCurrent(t, level, k)
  {
    var t := Next(s, e);
    ValuesStay(s, t, level, k);
    forall j | 0 <= j < |t.queue| && t.queue[j].begun && LevelOf(level, t.queue[j].name) <= k
      ensures t.queue[j].version == VersionOf(s, t.queue[j].name)
    {
      assert t.queue[j] == s.queue[if j < e.task then j else j + 1];
    }
    assert t.pending <= s.pending + {s.queue[e.task].name};
    assert t.stores == s.stores && t.version == s.version;
  }

  /** The end of a flush settles one more level. */
  lemma FinishSettled(s: State, level: map<Name, nat>, k: nat, inline: bool)
    requires Leveled(s.entries, level) && Inv(s) && Settled(s, level, k) && Enabled(s, FinishFlush(inline))
    ensures var t := Next(s, FinishFlush(inline));
      && SameUpTo(s, t, level, k) && UpToDateUpTo(t, level, k + 1) && PendingAbove(t, level, k + 1)
      && VersionsCurrent(t, level, k + 1)
  {
    forall c | c in s.entries && LevelOf(level, c) <= k + 1 ensures UpToDate(s, c) {
      assert Tracked(s, c);
      if Owed(s, c) {
        var d := OwedBy(s, c);
        assert false;
      }
    }
  }

  /** The number of flushes a run finishes. */
  ghost function Flushes(es: seq<Event>): nat {
    if es == [] then 0 else (if es[0].FinishFlush? then 1 else 0) + Flushes(es[1..])
  }

  lemma StepSettled(s: State, level: map<Name, nat>, k: nat, e: Event)
    requires Leveled(s.entries, level) && Inv(s) && Settled(s, level, k) && Enabled(s, e) && Quiet(e)
    ensures SameUpTo(s, Next(s, e), level, k)
    ensures Settled(Next(s, e), level, if e.FinishFlush? then k + 1 else k)
  {
    CarefulStep(s, e);
    match e
    case Deliver(i) => DeliverSettled(s, level, k, i);
    case FinishFlush(inline) => FinishSettled(s, level, k, inline);
    case StartFlush(plan) => StartSettled(s, level, k, plan);
    case Drop(_) => RemoveSettled(s, level, k, e);
    case Retire(_) => RemoveSettled(s, level, k, e);
    case Open(i) => UpdateSettled(s, Next(s, e), level, k, i);
    case Refresh(i, _) => UpdateSettled(s, Next(s, e), level, k, i);
  }

  lemma SameTransitive(s: State, t: State, u: State, level: map<Name, nat>, k: nat, j: nat)
    requires SameUpTo(s, t, level, k) && SameUpTo(t, u, level, j) && k <= j
    ensures SameUpTo(s, u, level, k)
  {
  }

  lemma {:induction false} QuietRun(s: State, level: map<Name, nat>, k: nat, es: seq<Event>)
    requires Leveled(s.entries, level) && Inv(s) && Settled(s, level, k)
    requires CanRun(s, es) && forall i | 0 <= i < |es| :: Quiet(es[i])
    ensures SameUpTo(s, Run(s, es), level, k) && Settled(Run(s, es), level, k + Flushes(es)) && Inv(Run(s, es))
    decreases |es|
  {
    if es != [] {
      var e := es[0];
      var t := Next(s, e);
      StepKeeps(s, e);
      StepSettled(s, level, k, e);
      var j := if e.FinishFlush? then k + 1 else k;
      assert forall i | 0 <= i < |es[1..]| :: es[1..][i] == es[i + 1];
      QuietRun(t, level, j, es[1..]);
      SameTransitive(s, t, Run(t, es[1..]), level, k, j);
    }
  }

  /** Any state between flushes in which nobody is misled is settled at level 0. */
  lemma SettledAtZero(s: State, level: map<Name, nat>)
    requires Inv(s) && Faithful(s) && !s.flushing && Leveled(s.entries, level)
    ensures Settled(s, level, 0)
  {
  }

  /** Level-k computeds never move after flush k: split a quiet run anywhere after k flushes. */
  lemma NothingMovesAfterItsLevel(s: State, rank: map<Name, nat>, es: seq<Event>, rest: seq<Event>, c: Name)
    requires Inv(s) && Faithful(s) && !s.flushing && Ranked(s.entries, rank)
    requires CanRun(s, es) && CanRun(Run(s, es), rest)
    requires forall e | e in es || e in rest :: Quiet(e)
    requires Height(s.entries, rank, c) <= Flushes(es)
    ensures Read(Run(Run(s, es), rest).stores, c) == Read(Run(s, es).stores, c)
  {
    var level := Levels(s.entries, rank);
    SettledAtZero(s, level);
    QuietRun(s, level, 0, es);
    QuietRun(Run(s, es), level, Flushes(es), rest);
    assert LevelOf(level, c) <= Flushes(es);
  }

  /** Evaluated on these leaves, `n` and every computed it depends on has an output, and its store
      accepts it. */
  ghost predicate Yields(s: State, rank: map<Name, nat>, snapshot: Stores, n: Name)
    requires Ranked(s.entries, rank)
    decreases if n in s.entries then rank[n] + 1 else 0
  {
    n !in s.entries
    || (s.entries[n].compute(EvalArgs(s.entries, rank, snapshot, n, 0)).Some?
        && !Refused(s, n, Eval(s.entries, rank, snapshot, n))
        && forall d | d in s.entries[n].deps :: Yields(s, rank, snapshot, d))
  }

  /** Where no compute function throws or yields anything refused, every name is such. */
  lemma {:induction false} AllYield(s: State, rank: map<Name, nat>, snapshot: Stores, n: Name)
    requires Ranked(s.entries, rank) && NeverThrows(s.entries)
    requires forall c, args | c in s.entries :: !Refused(s, c, s.entries[c].compute(args).value)
    ensures Yields(s, rank, snapshot, n)
    decreases if n in s.entries then rank[n] + 1 else 0
  {
    if n in s.entries {
      forall d | d in s.entries[n].deps ensures Yields(s, rank, snapshot, d) {
        AllYield(s, rank, snapshot, d);
      }
    }
  }

  /** Up-to-date stores hold the evaluation of every such name. */
  lemma {:induction false} YieldedValues(s: State, rank: map<Name, nat>, snapshot: Stores, n: Name)
    requires Ranked(s.entries, rank) && Yields(s, rank, snapshot, n)
    requires forall c | c in s.entries :: UpToDate(s, c)
    requires forall l | l !in s.entries :: Read(s.stores, l) == Read(snapshot, l)
    ensures Read(s.stores, n) == Eval(s.entries, rank, snapshot, n)
    decreases if n in s.entries then rank[n] + 1 else 0
  {
    if n in s.entries {
      forall d | d in s.entries[n].deps ensures Eval(s.entries, rank, snapshot, d) == Read(s.stores, d) {
        YieldedValues(s, rank, snapshot, d);
      }
      EvalArgsAreArgs(s.entries, rank, snapshot, s.stores, n);
    }
  }

  /** Everything is up to date, the leaves are as they were, and every name whose evaluation on them
      meets no error and no refused output holds that evaluation. */
  ghost predicate Converged(t: State, rank: map<Name, nat>, before: Stores)
    requires Ranked(t.entries, rank)
  {
    && (forall c | c in t.entries :: UpToDate(t, c))
    && (forall l | l !in t.entries :: Read(t.stores, l) == Read(before, l))
    && (forall n | Yields(t, rank, before, n) :: Read(t.stores, n) == Eval(t.entries, rank, before, n))
  }

  lemma UpToDateConverges(t: State, rank: map<Name, nat>, before: Stores)
    requires Ranked(t.entries, rank) && forall c | c in t.entries :: UpToDate(t, c)
    requires forall l | l !in t.entries :: Read(t.stores, l) == Read(before, l)
    ensures Converged(t, rank, before)
  {
    forall n | Yields(t, rank, before, n) ensures Read(t.stores, n) == Eval(t.entries, rank, before, n) {
      YieldedValues(t, rank, before, n);
    }
  }

  /** Convergence: once no one writes, after one flush more than the longest dependency chain nothing
      is pending and the stores have converged on the leaves that the writes left behind: every
      computed is fresh but those whose output is refused, and each whose evaluation meets no throw and
      no refusal is worth that evaluation. Where all are fresh, each is worth its evaluation on the
      stores as they are then. */
  lemma ConvergenceBound(s: State, rank: map<Name, nat>, longest: nat, es: seq<Event>)
    requires Inv(s) && Faithful(s) && !s.flushing && Ranked(s.entries, rank)
    requires forall c | c in s.entries :: Height(s.entries, rank, c) <= longest
    requires CanRun(s, es) && forall i | 0 <= i < |es| :: Quiet(es[i])
    requires Flushes(es) >= longest + 1
    ensures var t := Run(s, es);
      && t.pending == {} && t.entries == s.entries && t.refuses == s.refuses && Converged(t, rank, s.stores)
      && (forall c | c in t.entries :: Fresh(t.entries, t.stores, c) <==> !Withheld(t, c))
      && ((forall c | c in t.entries :: Fresh(t.entries, t.stores, c)) ==>
            forall c | c in t.entries :: Read(t.stores, c) == Eval(t.entries, rank, t.stores, c))
  {
    var level := Levels(s.entries, rank);
    SettledAtZero(s, level);
    QuietRun(s, level, 0, es);
    var t := Run(s, es);
    assert forall n :: LevelOf(level, n) <= longest;
    assert forall l | l !in s.entries :: Read(t.stores, l) == Read(s.stores, l);
    forall c | c in t.entries ensures UpToDate(t, c) && (Fresh(t.entries, t.stores, c) <==> !Withheld(t, c)) {
      assert HaveStores(t) && LevelOf(level, c) <= longest;
    }
    UpToDateConverges(t, rank, s.stores);
    if forall c | c in t.entries :: Fresh(t.entries, t.stores, c) {
      forall c | c in t.entries ensures Read(t.stores, c) == Eval(t.entries, rank, t.stores, c) {
        FreshStoresEvaluate(t.entries, rank, t.stores, c);
      }
    }
  }
}
