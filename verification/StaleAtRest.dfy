/** The ways in which a computed can come to rest stale, with what decides each, and the runs from the
    empty registry that end so. A flush copies the subscribers of a store when its turn begins, so it
    may still call the closure of a registration that a subscriber has meanwhile replaced
    (src/computed/index.ts:148-152 and 189-216, src/notification/delivery.ts:96-99). A computed whose
    function yields what its store refuses keeps the store's old value (src/computed/index.ts:207-213,
    src/core/store-replace-impl.ts:88-93). And a batch that fails drops what it has staged, but keeps
    the last outputs that it has moved, the recomputes that it has spent and the registrations that it
    has made (src/computed/index.ts:117-146 and 189-213, src/core/store-transaction.ts:226-274). */
module StaleAtRest {
  import opened Names
  import opened Values
  import opened Wrappers
  import opened Computeds
  import opened Graphs
  import opened FlushProtocol
  import opened FlushConsistency
  import opened FlushCare

  /** What a call by the closure of the registration `closure` leaves `c` with. */
  function Left(s: State, c: Name, closure: Entry): Value {
    match OutputOn(closure, s.stores)
    case Some(v) => if (c in s.lastOutput && s.lastOutput[c] == v) || Refused(s, c, v) then Read(s.stores, c) else v
    case None => Read(s.stores, c)
  }

  /** The present function has an output that is not, and is not refused by, what the store is left with. */
  predicate Lacks(s: State, c: Name, left: Value)
    requires c in s.entries
  {
    Output(s, c).Some? && Output(s, c).value != left && !Refuses(s.refuses, c, left, Output(s, c).value)
  }

  /** Exactly when a call misleads: it leaves the computed without its function's output, and that is not
      what it came with. */
  lemma WhenMisled(s: State, c: Name, closure: Entry)
    requires c in s.entries && c in s.stores && !(s.flushing && Guarded(s, c))
    ensures c in RecomputeStep(s, c, closure).misled
      <==> Lacks(s, c, Left(s, c, closure)) && Output(s, c) != Some(RunCompute(closure, c, s.stores))
  {
    var next := RunCompute(closure, c, s.stores);
    ToldHistory(s, c, next, s.flushing);
    SettleFrame(Told(s, c, next, s.flushing), c, next);
  }

  /** In particular not when both functions agree on the dependencies' present values. */
  lemma AgreeingClosure(s: State, c: Name, closure: Entry)
    requires c in s.entries && c in s.stores && !(s.flushing && Guarded(s, c))
    requires OutputOn(closure, s.stores) == Output(s, c)
    ensures c !in RecomputeStep(s, c, closure).misled
  {
    WhenMisled(s, c, closure);
  }

  /** Exactly when a call strands: it comes with the function's own output, which is the last output
      already, while the store holds something else and does not refuse it. */
  lemma WhenStranded(s: State, c: Name, closure: Entry)
    requires c in s.entries && c in s.stores && !(s.flushing && Guarded(s, c))
    ensures c in RecomputeStep(s, c, closure).stranded
      <==> Output(s, c) == Some(RunCompute(closure, c, s.stores)) && Lacks(s, c, Read(s.stores, c))
           && c in s.lastOutput && s.lastOutput[c] == Output(s, c).value
  {
    var next := RunCompute(closure, c, s.stores);
    SettleFrame(Told(s, c, next, s.flushing), c, next);
  }

  /** Exactly which computeds a batch that fails strands: of those that it has recomputed, created or
      overwritten, the ones whose stores lack their functions' outputs. */
  lemma WhenFailingStrands(s: State, ok: bool, c: Name)
    requires s.batch.depth == 1 && !GoesThrough(s, ok) && c in s.batch.touched && c in s.entries
    ensures c in EndStep(s, ok).stranded <==> Lacks(s, c, Read(s.stores, c))
  {
    FailedEnd(s, ok);
    assert UpToDate(Emptied(s, []), c) == UpToDate(s, c);
  }

  /** The end of a failing outermost batch: nothing but the batch is gone, and what it has touched judged. */
  lemma FailedEnd(s: State, ok: bool)
    requires s.batch.depth == 1 && !GoesThrough(s, ok)
    ensures EndStep(s, ok) == s.(batch := NO_BATCH, scheduled := s.scheduled || s.pending != {},
                                 misled := s.misled - s.batch.touched,
                                 stranded := (s.stranded - s.batch.touched)
                                             + LeftBehind(Emptied(s, []), s.batch.touched, []))
    ensures Emptied(s, []) == s.(batch := NO_BATCH, scheduled := s.scheduled || s.pending != {})
  {
    var e := Emptied(s, []);
    assert NamesOf([]) == {} && s.pending + {} == s.pending;
    assert e.stores == s.stores && e.version == s.version && e.pending == s.pending;
  }

  const LEAF: Name := [0x61]
  const COMPUTED: Name := [0x62]

  function Accepting(): (Name, Option<Value>, Value) -> bool {
    (n, held, v) => false
  }

  lemma LeafReachesItself(entries: Entries, leaf: Name, n: Name)
    requires leaf !in entries && n != leaf
    ensures !AnyReaches(entries, [leaf], n)
  {
    if AnyReaches(entries, [leaf], n) {
      var p :| PathBetween(entries, p, leaf, n);
      LeavesLeaf(entries, p);
    }
  }

  lemma LeavesLeaf(entries: Entries, p: seq<Name>)
    requires IsPath(entries, p) && |p| > 1
    ensures p[0] in entries
  {
    assert p[0 + 1] in DepsOf(entries, p[0]);
  }

  lemma WaitingForOne(n: Name)
    ensures Waiting([n]) == [Task(n, false, 0, [])]
  {
    assert [n][1..] == [];
  }

  lemma RunOn(s: State, es: seq<Event>, e: Event)
    requires CanRun(s, es) && Enabled(Run(s, es), e)
    ensures CanRun(s, es + [e]) && Run(s, es + [e]) == Next(Run(s, es), e)
    decreases |es|
  {
    if es == [] {
      assert Run(Next(s, e), ([] + [e])[1..]) == Next(s, e);
    } else {
      assert (es + [e])[1..] == es[1..] + [e];
      RunOn(Next(s, es[0]), es[1..], e);
    }
  }

  /** A flush of one store up to the point where its subscribers are to be called. */
  lemma FlushOpened(s0: State, before: seq<Event>, n: Name) returns (es: seq<Event>)
    requires CanRun(s0, before)
    requires var s := Run(s0, before); s.pending == {n} && !s.flushing && !InBatch(s)
    ensures CanRun(s0, es)
    ensures var s, t := Run(s0, before), Run(s0, es);
      t == s.(flushing := true, flushId := s.flushId + 1, pending := {},
              queue := [Task(n, true, VersionOf(s, n), SubsOf(s.subs, n))])
  {
    var s := Run(s0, before);
    WaitingForOne(n);
    var t := Next(s, StartFlush([n]));
    RunOn(s0, before, StartFlush([n]));
    es := before + [StartFlush([n])];
    RunOn(s0, es, Open(0));
    es := es + [Open(0)];
    assert t.queue[0 := Next(t, Open(0)).queue[0]] == [Next(t, Open(0)).queue[0]];
  }

  /** The call of the only subscriber left, the closure of another store's computed. */
  lemma LastCalled(s0: State, before: seq<Event>, n: Name, c: Name, closure: Entry) returns (es: seq<Event>)
    requires CanRun(s0, before) && n != c
    requires var s := Run(s0, before);
      s.flushing && !InBatch(s) && s.queue == [Task(n, true, VersionOf(s, n), [Recompute(c, closure)])]
    ensures CanRun(s0, es)
    ensures var s, t := Run(s0, before), Run(s0, es);
      && t == RecomputeStep(Called(s, 0), c, closure) && t.flushing && !InBatch(t)
      && t.queue == [Task(n, true, VersionOf(t, n), [])]
  {
    var s := Run(s0, before);
    assert s.queue[0].todo[1..] == [] && Called(s, 0).queue == [Task(n, true, VersionOf(s, n), [])];
    RunOn(s0, before, Deliver(0));
    es := before + [Deliver(0)];
    DeliverFrame(s, 0);
    OthersVersion(Called(s, 0), c, closure, n);
  }

  lemma OthersVersion(s: State, c: Name, closure: Entry, n: Name)
    requires n != c
    ensures VersionOf(RecomputeStep(s, c, closure), n) == VersionOf(s, n)
  {
    if c in s.entries && !(s.flushing && Guarded(s, c)) {
      ToldFrame(s, c, RunCompute(closure, c, s.stores), s.flushing);
    }
  }

  /** The end of that flush, when nobody is left to call and the version has not moved. */
  lemma FlushClosed(s0: State, before: seq<Event>, n: Name) returns (es: seq<Event>)
    requires CanRun(s0, before)
    requires var s := Run(s0, before); s.flushing && !InBatch(s) && s.queue == [Task(n, true, VersionOf(s, n), [])]
    ensures CanRun(s0, es)
    ensures var s := Run(s0, before); Run(s0, es) == s.(flushing := false, scheduled := false, queue := [])
  {
    RunOn(s0, before, Retire(0));
    es := before + [Retire(0)];
    RunOn(s0, es, FinishFlush(true));
    es := es + [FinishFlush(true)];
  }

  /** A whole flush of a store that nobody listens to. */
  lemma IdleFlush(s0: State, before: seq<Event>, n: Name) returns (es: seq<Event>)
    requires CanRun(s0, before)
    requires var s := Run(s0, before); s.pending == {n} && !s.flushing && !InBatch(s) && SubsOf(s.subs, n) == []
    ensures CanRun(s0, es)
    ensures var s := Run(s0, before);
      Run(s0, es) == s.(flushing := false, flushId := s.flushId + 1, pending := {}, scheduled := false, queue := [])
  {
    es := FlushOpened(s0, before, n);
    es := FlushClosed(s0, es, n);
  }

  // ---------------------------------------------------------------- refused outputs

  /** The leaf's value, or undefined where it is null. */
  function Optional(): Entry {
    Entry([LEAF], args => if args == [Null] then Some(Undefined) else Some(Bool(true)), Deterministic)
  }

  /** LEAF and a computed on it, and then LEAF becomes null. */
  lemma LeafWritten() returns (es: seq<Event>)
    ensures CanRun(Start(Accepting()), es)
    ensures var s := Run(Start(Accepting()), es);
      && s.entries == map[COMPUTED := Optional()] && s.stores == map[LEAF := Null, COMPUTED := Bool(true)]
      && s.lastOutput == map[COMPUTED := Bool(true)] && SubsOf(s.subs, LEAF) == [Recompute(COMPUTED, Optional())]
      && s.refuses == Accepting() && s.pending == {LEAF} && s.scheduled && !s.flushing && !InBatch(s)
      && s.misled == s.stranded == {} && s.guard == map[]
  {
    var s0 := Start(Accepting());
    var s1 := Next(s0, CreateLeaf(LEAF, Bool(true)));
    RunOn(s0, [], CreateLeaf(LEAF, Bool(true)));
    es := [] + [CreateLeaf(LEAF, Bool(true))];
    assert s1.stores == map[LEAF := Bool(true)] && Args([LEAF], s1.stores) == [Bool(true)];
    LeafReachesItself(s1.entries, LEAF, COMPUTED);
    var s2 := Next(s1, CreateComputed(COMPUTED, Optional()));
    RunOn(s0, es, CreateComputed(COMPUTED, Optional()));
    es := es + [CreateComputed(COMPUTED, Optional())];
    assert s2.stores == map[LEAF := Bool(true), COMPUTED := Bool(true)];
    RunOn(s0, es, WriteStore(LEAF, Null));
    es := es + [WriteStore(LEAF, Null)];
  }

  /** The output undefined is refused: the computed rests on its former value, and nobody is pending. */
  lemma UndefinedIsWithheld() returns (es: seq<Event>)
    ensures CanRun(Start(Accepting()), es)
    ensures var end := Run(Start(Accepting()), es);
      && AtRest(end) && COMPUTED in end.entries && end.misled == end.stranded == {}
      && Output(end, COMPUTED) == Some(Undefined) && Read(end.stores, COMPUTED) == Bool(true)
      && !Fresh(end.entries, end.stores, COMPUTED)
  {
    var s0 := Start(Accepting());
    es := LeafWritten();
    es := FlushOpened(s0, es, LEAF);
    var s1 := Run(s0, es);
    es := LastCalled(s0, es, LEAF, COMPUTED, Optional());
    var s2 := Run(s0, es);
    assert Args([LEAF], s1.stores) == [Null];
    WhenMisled(Called(s1, 0), COMPUTED, Optional());
    WhenStranded(Called(s1, 0), COMPUTED, Optional());
    assert s2.stores == s1.stores && s2.pending == {};
    es := FlushClosed(s0, es, LEAF);
  }

  // ---------------------------------------------------------------- old closures

  function Constant(b: bool): Entry {
    Entry([LEAF], args => Some(Bool(b)), Deterministic)
  }

  /** A listener on LEAF, about to hear of it. */
  lemma OneListens() returns (es: seq<Event>)
    ensures CanRun(Start(Accepting()), es)
    ensures Run(Start(Accepting()), es) == Start(Accepting()).(
              stores := map[LEAF := Null], version := map[LEAF := 0], subs := map[LEAF := [User(0)]],
              pending := {LEAF}, scheduled := true)
  {
    var s0 := Start(Accepting());
    RunOn(s0, [], Subscribe(LEAF, 0));
    es := [] + [Subscribe(LEAF, 0)];
    assert [] + [User(0)] == [User(0)] && Run(s0, es).subs == map[LEAF := [User(0)]];
    RunOn(s0, es, CreateLeaf(LEAF, Null));
    es := es + [CreateLeaf(LEAF, Null)];
  }

  /** A listener on LEAF and a computed on it, both about to hear of LEAF. */
  lemma BothListen() returns (es: seq<Event>)
    ensures CanRun(Start(Accepting()), es)
    ensures var s := Run(Start(Accepting()), es);
      && s.entries == map[COMPUTED := Constant(false)] && s.stores == map[LEAF := Null, COMPUTED := Bool(false)]
      && s.subs == map[LEAF := [User(0), Recompute(COMPUTED, Constant(false))]] && s.pending == {LEAF}
      && s.refuses == Accepting() && !s.flushing && !InBatch(s) && s.misled == s.stranded == {} && s.guard == map[]
      && s.lastOutput == map[COMPUTED := Bool(false)]
  {
    es := OneListens();
    var s := Run(Start(Accepting()), es);
    LeafReachesItself(s.entries, LEAF, COMPUTED);
    RunOn(Start(Accepting()), es, CreateComputed(COMPUTED, Constant(false)));
    es := es + [CreateComputed(COMPUTED, Constant(false))];
    OneSub(s.subs, Recompute(COMPUTED, Constant(false)));
    assert [User(0)] + [Recompute(COMPUTED, Constant(false))] == [User(0), Recompute(COMPUTED, Constant(false))];
  }

  lemma OneSub(subs: map<Name, seq<Sub>>, sub: Sub)
    ensures AddSubs(subs, [LEAF], sub) == AddSub(subs, LEAF, sub)
  {
    assert [LEAF][1..] == [];
  }

  lemma Deleted(s: State)
    requires s.entries == map[COMPUTED := Constant(false)] && SubsOf(s.subs, COMPUTED) == []
    ensures Enabled(s, DeleteComputed(COMPUTED))
    ensures var t := Next(s, DeleteComputed(COMPUTED));
      && t == s.(entries := map[], lastOutput := s.lastOutput - {COMPUTED}, subs := t.subs,
                 misled := s.misled - {COMPUTED}, stranded := s.stranded - {COMPUTED})
      && SubsOf(t.subs, COMPUTED) == []
  {
    var t := Next(s, DeleteComputed(COMPUTED));
    assert t.entries == map[];
    assert SubsOf(t.subs, COMPUTED) == [];
  }

  /** A registration is cleaned up and made anew with another function. */
  lemma MadeAnew(s: State)
    requires s.entries == map[] && !InBatch(s) && s.pending == {} && s.lastOutput == map[]
    requires s.stores == map[LEAF := Null, COMPUTED := Bool(false)] && s.refuses == Accepting()
    requires SubsOf(s.subs, COMPUTED) == []
    ensures Enabled(s, CreateComputed(COMPUTED, Constant(true)))
    ensures var t := Next(s, CreateComputed(COMPUTED, Constant(true)));
      && t.entries == map[COMPUTED := Constant(true)] && t.stores == map[LEAF := Null, COMPUTED := Bool(true)]
      && t.lastOutput == map[COMPUTED := Bool(true)] && t.misled == s.misled - {COMPUTED}
      && t.stranded == s.stranded - {COMPUTED}
      && SubsOf(t.subs, COMPUTED) == [] && t.pending == {COMPUTED} && t.refuses == Accepting()
      && t.queue == s.queue && t.flushing == s.flushing && !InBatch(t) && t.guard == s.guard
      && VersionOf(t, LEAF) == VersionOf(s, LEAF)
  {
    LeafReachesItself(s.entries, LEAF, COMPUTED);
    OneSub(s.subs, Recompute(COMPUTED, Constant(true)));
  }

  /** The listener, called first, replaces the computed by one with another function. */
  lemma Recreated() returns (es: seq<Event>)
    ensures CanRun(Start(Accepting()), es)
    ensures var s := Run(Start(Accepting()), es);
      && s.entries == map[COMPUTED := Constant(true)] && s.stores == map[LEAF := Null, COMPUTED := Bool(true)]
      && s.lastOutput == map[COMPUTED := Bool(true)] && s.misled == s.stranded == {} && SubsOf(s.subs, COMPUTED) == []
      && s.queue == [Task(LEAF, true, VersionOf(s, LEAF), [Recompute(COMPUTED, Constant(false))])]
      && s.pending == {COMPUTED} && s.refuses == Accepting() && s.flushing && !InBatch(s) && s.guard == map[]
  {
    var s0 := Start(Accepting());
    es := BothListen();
    es := FlushOpened(s0, es, LEAF);
    var s1 := Run(s0, es);
    RunOn(s0, es, Deliver(0));
    es := es + [Deliver(0)];
    assert s1.queue[0].todo[1..] == [Recompute(COMPUTED, Constant(false))];
    var s2 := Called(s1, 0);
    assert s2.queue == [Task(LEAF, true, VersionOf(s1, LEAF), [Recompute(COMPUTED, Constant(false))])];
    Deleted(s2);
    RunOn(s0, es, DeleteComputed(COMPUTED));
    es := es + [DeleteComputed(COMPUTED)];
    assert s2.lastOutput - {COMPUTED} == map[];
    MadeAnew(Next(s2, DeleteComputed(COMPUTED)));
    RunOn(s0, es, CreateComputed(COMPUTED, Constant(true)));
    es := es + [CreateComputed(COMPUTED, Constant(true))];
  }

  lemma OldClosureCalled(s: State)
    requires s.entries == map[COMPUTED := Constant(true)] && s.stores == map[LEAF := Null, COMPUTED := Bool(true)]
    requires s.lastOutput == map[COMPUTED := Bool(true)] && s.misled == s.stranded == {} && s.refuses == Accepting()
    requires s.guard == map[] && s.pending == {COMPUTED}
    ensures var t := RecomputeStep(s, COMPUTED, Constant(false));
      && t.stores == map[LEAF := Null, COMPUTED := Bool(false)] && t.misled == {COMPUTED} && t.stranded == {}
      && t.entries == s.entries && t.subs == s.subs && t.pending == {COMPUTED}
  {
    RecomputeFrame(s, COMPUTED, Constant(false));
    WhenMisled(s, COMPUTED, Constant(false));
    WhenStranded(s, COMPUTED, Constant(false));
  }

  /** Then the old closure is called, as it is on the list, and nothing tells the computed again: it
      rests on its old function's value. */
  lemma OldClosureWins() returns (es: seq<Event>)
    ensures CanRun(Start(Accepting()), es)
    ensures var end := Run(Start(Accepting()), es);
      && AtRest(end) && COMPUTED in end.entries && end.misled == {COMPUTED} && end.stranded == {}
      && Output(end, COMPUTED) == Some(Bool(true)) && Read(end.stores, COMPUTED) == Bool(false)
      && !Fresh(end.entries, end.stores, COMPUTED)
  {
    var s0 := Start(Accepting());
    es := Recreated();
    var s1 := Run(s0, es);
    es := LastCalled(s0, es, LEAF, COMPUTED, Constant(false));
    OldClosureCalled(Called(s1, 0));
    es := FlushClosed(s0, es, LEAF);
    es := IdleFlush(s0, es, COMPUTED);
  }

  // ---------------------------------------------------------------- failing batches

  function Copy(): Entry {
    Entry([LEAF], args => Some(Bool(args == [Bool(true)])), Deterministic)
  }

  /** LEAF and a copy of it; a batch changes LEAF, invalidates the copy, and fails. */
  lemma InvalidatedInFailingBatch() returns (es: seq<Event>)
    ensures CanRun(Start(Accepting()), es)
    ensures var s := Run(Start(Accepting()), es);
      && s.entries == map[COMPUTED := Copy()] && s.stores == map[LEAF := Bool(false), COMPUTED := Bool(false)]
      && s.lastOutput == map[COMPUTED := Bool(true)] && SubsOf(s.subs, LEAF) == [Recompute(COMPUTED, Copy())]
      && s.refuses == Accepting() && AtRest(s) && s.misled == s.stranded == {} && s.guard == map[]
  {
    var s0 := Start(Accepting());
    RunOn(s0, [], CreateLeaf(LEAF, Bool(false)));
    es := [] + [CreateLeaf(LEAF, Bool(false))];
    var s1 := Run(s0, es);
    assert s1.stores == map[LEAF := Bool(false)] && Args([LEAF], s1.stores) == [Bool(false)];
    LeafReachesItself(s1.entries, LEAF, COMPUTED);
    RunOn(s0, es, CreateComputed(COMPUTED, Copy()));
    es := es + [CreateComputed(COMPUTED, Copy())];
    OneSub(s1.subs, Recompute(COMPUTED, Copy()));
    var s2 := Run(s0, es);
    es := FailingBatch(s0, es);
  }

  /** LEAF changed in a batch that has just begun. */
  lemma LeafStaged(s0: State, before: seq<Event>) returns (es: seq<Event>)
    requires CanRun(s0, before)
    requires var s := Run(s0, before);
      LEAF in s.stores && LEAF !in s.entries && s.refuses == Accepting() && s.batch == NO_BATCH
    ensures CanRun(s0, es)
    ensures var s, t := Run(s0, before), Run(s0, es);
      && t == s.(batch := Batch(1, [Staged(LEAF, Bool(true))], false, {}))
      && Seen(t) == s.stores[LEAF := Bool(true)]
  {
    var s := Run(s0, before);
    RunOn(s0, before, BeginBatch);
    es := before + [BeginBatch];
    RunOn(s0, es, WriteStore(LEAF, Bool(true)));
    es := es + [WriteStore(LEAF, Bool(true))];
    assert [] + [Staged(LEAF, Bool(true))] == [Staged(LEAF, Bool(true))];
    OverlaySnoc(s.stores, [], Staged(LEAF, Bool(true)));
  }

  lemma CopyStaged(s: State)
    requires s.entries == map[COMPUTED := Copy()] && InBatch(s) && !s.flushing && s.refuses == Accepting()
    requires Seen(s) == map[LEAF := Bool(true), COMPUTED := Bool(false)]
    requires s.lastOutput == map[COMPUTED := Bool(false)]
    ensures RecomputeInBatch(s, COMPUTED) == s.(
              lastOutput := map[COMPUTED := Bool(true)],
              batch := s.batch.(commits := s.batch.commits + [Staged(COMPUTED, Bool(true))],
                                touched := s.batch.touched + {COMPUTED}))
  {
    assert Args([LEAF], Seen(s)) == [Bool(true)];
  }

  lemma CopyInvalidated(s0: State, before: seq<Event>) returns (es: seq<Event>)
    requires CanRun(s0, before)
    requires var s := Run(s0, before);
      && s.entries == map[COMPUTED := Copy()] && InBatch(s) && !s.flushing && s.refuses == Accepting()
      && Seen(s) == map[LEAF := Bool(true), COMPUTED := Bool(false)] && s.lastOutput == map[COMPUTED := Bool(false)]
    ensures CanRun(s0, es)
    ensures var s, t := Run(s0, before), Run(s0, es);
      && t == s.(lastOutput := map[COMPUTED := Bool(true)], batch := t.batch) && t.batch.depth == s.batch.depth
  {
    CopyStaged(Run(s0, before));
    RunOn(s0, before, Invalidate(COMPUTED));
    es := before + [Invalidate(COMPUTED)];
  }

  lemma CopyBatchFails(s: State)
    requires s.entries == map[COMPUTED := Copy()] && s.stores == map[LEAF := Bool(false), COMPUTED := Bool(false)]
    requires s.batch.depth == 1 && s.misled == s.stranded == s.pending == {}
    ensures EndStep(s, false) == s.(batch := NO_BATCH)
  {
    assert Args([LEAF], s.stores) == [Bool(false)];
    FailedEnd(s, false);
    assert LeftBehind(Emptied(s, []), s.batch.touched, []) == {};
  }

  lemma CopyBatchFailed(s0: State, before: seq<Event>) returns (es: seq<Event>)
    requires CanRun(s0, before)
    requires var s := Run(s0, before);
      && s.entries == map[COMPUTED := Copy()] && s.stores == map[LEAF := Bool(false), COMPUTED := Bool(false)]
      && s.batch.depth == 1 && s.misled == s.stranded == s.pending == {}
    ensures CanRun(s0, es) && Run(s0, es) == Run(s0, before).(batch := NO_BATCH)
  {
    CopyBatchFails(Run(s0, before));
    RunOn(s0, before, EndBatch(false));
    es := before + [EndBatch(false)];
  }

  lemma FailingBatch(s0: State, before: seq<Event>) returns (es: seq<Event>)
    requires CanRun(s0, before)
    requires var s := Run(s0, before);
      && s.entries == map[COMPUTED := Copy()] && s.stores == map[LEAF := Bool(false), COMPUTED := Bool(false)]
      && s.lastOutput == map[COMPUTED := Bool(false)] && s.refuses == Accepting() && s.batch == NO_BATCH
      && s.misled == s.stranded == {} && !s.flushing && s.pending == {}
    ensures CanRun(s0, es)
    ensures var s := Run(s0, before);
      Run(s0, es) == s.(lastOutput := map[COMPUTED := Bool(true)])
  {
    var s := Run(s0, before);
    es := LeafStaged(s0, before);
    var s1 := Run(s0, es);
    es := CopyInvalidated(s0, es);
    es := CopyBatchFailed(s0, es);
    assert s1.(batch := NO_BATCH) == s;
  }

  lemma CopyCalled(s: State)
    requires s.entries == map[COMPUTED := Copy()] && s.stores == map[LEAF := Bool(true), COMPUTED := Bool(false)]
    requires s.lastOutput == map[COMPUTED := Bool(true)] && s.misled == s.stranded == {} && s.refuses == Accepting()
    requires s.guard == map[] && s.pending == {}
    ensures var t := RecomputeStep(s, COMPUTED, Copy());
      && t.stores == s.stores && t.misled == {} && t.stranded == {COMPUTED} && t.entries == s.entries
      && t.pending == {} && Output(s, COMPUTED) == Some(Bool(true)) && t.refuses == s.refuses
  {
    assert Args([LEAF], s.stores) == [Bool(true)];
    RecomputeFrame(s, COMPUTED, Copy());
    WhenMisled(s, COMPUTED, Copy());
    WhenStranded(s, COMPUTED, Copy());
  }

  /** The same change outside a batch, up to where the copy is about to be told. */
  lemma LeafWrittenAgain() returns (es: seq<Event>)
    ensures CanRun(Start(Accepting()), es)
    ensures var s := Run(Start(Accepting()), es);
      && s.entries == map[COMPUTED := Copy()] && s.stores == map[LEAF := Bool(true), COMPUTED := Bool(false)]
      && s.lastOutput == map[COMPUTED := Bool(true)] && s.misled == s.stranded == {} && s.refuses == Accepting()
      && s.guard == map[] && s.pending == {} && s.flushing && !InBatch(s)
      && s.queue == [Task(LEAF, true, VersionOf(s, LEAF), [Recompute(COMPUTED, Copy())])]
  {
    var s0 := Start(Accepting());
    es := InvalidatedInFailingBatch();
    RunOn(s0, es, WriteStore(LEAF, Bool(true)));
    es := es + [WriteStore(LEAF, Bool(true))];
    es := FlushOpened(s0, es, LEAF);
  }

  /** Then its output is the last one already: the copy rests on the old value. */
  lemma FailingBatchStrands() returns (es: seq<Event>)
    ensures CanRun(Start(Accepting()), es)
    ensures var end := Run(Start(Accepting()), es);
      && AtRest(end) && COMPUTED in end.entries && end.stranded == {COMPUTED} && end.misled == {}
      && Output(end, COMPUTED) == Some(Bool(true)) && Read(end.stores, COMPUTED) == Bool(false)
      && !Fresh(end.entries, end.stores, COMPUTED) && !Withheld(end, COMPUTED)
  {
    var s0 := Start(Accepting());
    es := LeafWrittenAgain();
    var s2 := Run(s0, es);
    es := LastCalled(s0, es, LEAF, COMPUTED, Copy());
    CopyCalled(Called(s2, 0));
    es := FlushClosed(s0, es, LEAF);
  }

  lemma TwoStores() returns (es: seq<Event>)
    ensures CanRun(Start(Accepting()), es)
    ensures Run(Start(Accepting()), es) == Start(Accepting()).(
              stores := map[LEAF := Bool(false), COMPUTED := Null], version := map[LEAF := 0, COMPUTED := 0])
  {
    var s0 := Start(Accepting());
    RunOn(s0, [], CreateLeaf(LEAF, Bool(false)));
    es := [] + [CreateLeaf(LEAF, Bool(false))];
    RunOn(s0, es, CreateLeaf(COMPUTED, Null));
    es := es + [CreateLeaf(COMPUTED, Null)];
  }

  lemma CopyCreated(s: State)
    requires s.entries == map[] && InBatch(s) && s.refuses == Accepting()
    requires COMPUTED in s.stores && Seen(s) == map[LEAF := Bool(true), COMPUTED := Null]
    ensures Enabled(s, CreateComputed(COMPUTED, Copy()))
    ensures var t := CreateInBatch(s, COMPUTED, Copy());
      && t.entries == map[COMPUTED := Copy()] && t.lastOutput == s.lastOutput[COMPUTED := Bool(true)]
      && t.batch.touched == s.batch.touched + {COMPUTED} && t.batch.depth == s.batch.depth && t.stores == s.stores
      && t.pending == s.pending && t.flushing == s.flushing && t.refuses == s.refuses
  {
    LeafReachesItself(s.entries, LEAF, COMPUTED);
    assert Args([LEAF], Seen(s)) == [Bool(true)];
  }

  lemma CopyLeftBehind(s: State)
    requires s.entries == map[COMPUTED := Copy()] && s.stores == map[LEAF := Bool(false), COMPUTED := Null]
    requires s.batch.depth == 1 && s.batch.touched == {COMPUTED} && s.misled == s.stranded == s.pending == {}
    requires s.refuses == Accepting()
    ensures EndStep(s, false) == s.(batch := NO_BATCH, stranded := {COMPUTED})
    ensures Output(s, COMPUTED) == Some(Bool(false))
  {
    assert Args([LEAF], s.stores) == [Bool(false)];
    FailedEnd(s, false);
    assert LeftBehind(Emptied(s, []), s.batch.touched, []) == {COMPUTED};
  }

  /** A computed created over a store inside a batch that fails keeps its registration, with nothing
      written and nobody to tell it. Its last output need not be its function's output either. */
  lemma CreatedInFailingBatch() returns (es: seq<Event>)
    ensures CanRun(Start(Accepting()), es)
    ensures var end := Run(Start(Accepting()), es);
      && AtRest(end) && COMPUTED in end.entries && end.stranded == {COMPUTED} && end.misled == {}
      && Output(end, COMPUTED) == Some(Bool(false)) && Read(end.stores, COMPUTED) == Null
      && end.lastOutput == map[COMPUTED := Bool(true)]
      && !Fresh(end.entries, end.stores, COMPUTED) && !Withheld(end, COMPUTED)
  {
    var s0 := Start(Accepting());
    es := TwoStores();
    es := LeafStaged(s0, es);
    CopyCreated(Run(s0, es));
    RunOn(s0, es, CreateComputed(COMPUTED, Copy()));
    es := es + [CreateComputed(COMPUTED, Copy())];
    CopyLeftBehind(Run(s0, es));
    RunOn(s0, es, EndBatch(false));
    es := es + [EndBatch(false)];
  }
}
