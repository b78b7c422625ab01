/** What the version check of a delivery rests on: a store's version never falls, and moves whenever its
    value does (src/core/store-write-shared.ts:58-64 and 140, src/notification/delivery.ts:136-139). */
module FlushVersions {
  import opened Names
  import opened Values
  import opened Wrappers
  import opened Computeds
  import opened FlushProtocol
  import opened FlushConsistency

  function VersionIn(version: map<Name, nat>, n: Name): nat {
    if n in version then version[n] else 0
  }

  /** A change of `n` counts. */
  predicate Counts(was: Stores, before: map<Name, nat>, stores: Stores, version: map<Name, nat>, n: Name) {
    n in was ==>
      && n in stores && VersionIn(before, n) <= VersionIn(version, n)
      && (stores[n] != was[n] ==> VersionIn(before, n) < VersionIn(version, n))
  }

  predicate Counted(s: State, t: State, n: Name) {
    Counts(s.stores, s.version, t.stores, t.version, n)
  }

  /** A batch counts each write that it commits. */
  lemma {:induction false} CommitsCount(stores: Stores, version: map<Name, nat>, commits: seq<Staged>, n: Name)
    ensures Counts(stores, version, Overlay(stores, commits), Bumped(version, commits), n)
    ensures VersionIn(Bumped(version, commits), n) == VersionIn(version, n) + CommitsOf(commits, n)
  {
    if commits != [] {
      CommitsCount(stores, version, commits[..|commits| - 1], n);
    }
  }

  /** How many of the writes are to `n`. */
  function CommitsOf(commits: seq<Staged>, n: Name): nat {
    if commits == [] then 0
    else CommitsOf(commits[..|commits| - 1], n) + if commits[|commits| - 1].name == n then 1 else 0
  }

  lemma TellingCounts(s: State, c: Name, next: Value, spend: bool, n: Name)
    requires c in s.entries
    ensures Counted(s, Settle(Told(s, c, next, spend), c, next), n)
  {
    ToldFrame(s, c, next, spend);
  }

  lemma RecomputeCounts(s: State, c: Name, closure: Entry, n: Name)
    ensures Counted(s, RecomputeStep(s, c, closure), n)
  {
    if c in s.entries && !(s.flushing && Guarded(s, c)) {
      TellingCounts(s, c, RunCompute(closure, c, s.stores), s.flushing, n);
    }
  }

  lemma DeliverCounts(s: State, i: nat, n: Name)
    requires i < |s.queue| && s.queue[i].todo != []
    ensures Counted(s, DeliverStep(s, i), n)
  {
    var sub := s.queue[i].todo[0];
    if sub.Recompute? {
      RecomputeCounts(Called(s, i), sub.computed, sub.closure, n);
    }
  }

  lemma EndCounts(s: State, ok: bool, n: Name)
    requires InBatch(s)
    ensures Counted(s, EndStep(s, ok), n)
  {
    if s.batch.depth == 1 {
      CommitsCount(s.stores, s.version, Commits(s, ok), n);
    }
  }

  lemma CreateCounts(s: State, c: Name, entry: Entry, n: Name)
    ensures Counted(s, CreateComputedStep(s, c, entry), n)
  {
  }

  lemma StepCounts(s: State, e: Event, n: Name)
    requires Enabled(s, e)
    ensures Counted(s, Next(s, e), n)
  {
    hide DeliverStep, EndStep, RecomputeStep, CreateComputedStep;
    match e
    case CreateComputed(c, entry) =>
      if !InBatch(s) {
        CreateCounts(s, c, entry, n);
      }
    case EndBatch(ok) => EndCounts(s, ok, n);
    case Deliver(i) => DeliverCounts(s, i, n);
    case Invalidate(c) =>
      if !InBatch(s) {
        RecomputeCounts(s, c, s.entries[c], n);
      }
    case Rerun(c) => TellingCounts(s, c, RunCompute(s.entries[c], c, s.stores), false, n);
    case _ =>
  }

  /** Over any run, whatever writes, recomputes, batches and hydrations there are: a store that holds another
      value than before has another version, too. */
  lemma {:induction false} RunCounts(s: State, es: seq<Event>, n: Name)
    requires CanRun(s, es)
    ensures n in s.stores ==> n in Run(s, es).stores && VersionIn(s.version, n) <= VersionIn(Run(s, es).version, n)
    ensures n in s.stores && VersionIn(Run(s, es).version, n) == VersionIn(s.version, n) ==>
      Run(s, es).stores[n] == s.stores[n]
    decreases |es|
  {
    hide Next, Enabled;
    if es != [] {
      StepCounts(s, es[0], n);
      RunCounts(Next(s, es[0]), es[1..], n);
    }
  }
}
