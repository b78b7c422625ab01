/** Which runs mislead or strand nobody, and what a refused output means at rest. */
module FlushCare {
  import opened Names
  import opened Values
  import opened Wrappers
  import opened Computeds
  import opened FlushProtocol
  import opened FlushConsistency

  // ---------------------------------------------------------------- old closures

  /** Nobody holds a closure of an earlier registration: neither a subscriber set ... */
  ghost predicate LiveCurrent(s: State) {
    forall n, c, x | Recompute(c, x) in SubsOf(s.subs, n) :: c in s.entries && s.entries[c] == x
  }

  ghost predicate TaskCurrent(t: Task, entries: Entries) {
    forall c, x | Recompute(c, x) in t.todo && c in entries :: entries[c] == x
  }

  /** ... nor a task whose turn has begun. */
  ghost predicate TasksCurrent(s: State) {
    forall i | 0 <= i < |s.queue| :: TaskCurrent(s.queue[i], s.entries)
  }

  /** Can a closure of `c` still be called by a task whose turn has begun? */
  ghost predicate StillHeld(s: State, c: Name) {
    exists i, x :: 0 <= i < |s.queue| && Recompute(c, x) in s.queue[i].todo
  }

  // ---------------------------------------------------------------- last outputs

  /** Each last output is what the store holds, staged writes included, or something that it refuses. */
  ghost predicate Steady(s: State) {
    forall c | c in s.entries && c in s.lastOutput ::
      s.lastOutput[c] == Read(Seen(s), c) || RefusedThere(s, c, s.lastOutput[c])
  }

  /** What an open batch has touched will be told again, or is right where it stands. */
  ghost predicate InStep(s: State) {
    forall c | c in s.entries && c in s.batch.touched ::
      (exists d :: d in s.entries[c].deps && d in NamesOf(s.batch.commits))
      || Fits(s.refuses, c, OutputOn(s.entries[c], Seen(s)), Read(Seen(s), c))
  }

  /** Nobody is misled or stranded, and nobody can be by a step taken with care. */
  ghost predicate Faithful(s: State) {
    LiveCurrent(s) && TasksCurrent(s) && Steady(s) && InStep(s) && s.misled == {} && s.stranded == {}
  }

  /** A step taken with care: a computed is created only while no closure of its name is held, so
      outside a flush, and in one before the turns of its former dependencies begin; a computed's own
      store is not written; and no batch fails that has recomputed or created a computed. */
  ghost predicate Careful(s: State, e: Event) {
    match e
    case CreateComputed(c, _) => !StillHeld(s, c)
    case WriteStore(n, _) => n !in s.entries
    case EndBatch(ok) => InBatch(s) && (s.batch.depth > 1 || GoesThrough(s, ok) || s.batch.touched == {})
    case _ => true
  }

  // ---------------------------------------------------------------- lists stay current

  lemma {:induction false} AddSubsOnly(subs: map<Name, seq<Sub>>, deps: seq<Name>, sub: Sub, n: Name, x: Sub)
    requires x in SubsOf(AddSubs(subs, deps, sub), n)
    ensures x == sub || x in SubsOf(subs, n)
    decreases |deps|
  {
    if deps != [] {
      AddSubsOnly(AddSub(subs, deps[0], sub), deps[1..], sub, n, x);
    }
  }

  /** Whoever is subscribed after a change of the subscriber sets was so before, or is the newcomer. */
  lemma SubsChanged(subs: map<Name, seq<Sub>>, name: Name, id: nat, n: Name, x: Sub)
    ensures x in SubsOf(AddUser(subs, name, id), n) ==> x in SubsOf(subs, n) || x == User(id)
    ensures x in SubsOf(RemoveUser(subs, name, id), n) ==> x in SubsOf(subs, n)
    ensures x in SubsOf(RemoveComputed(subs, name), n) ==> x in SubsOf(subs, n) && !Tells(x, name)
  {
  }

  /** Only registering and subscribing touch registrations and subscriber sets. */
  lemma SubsFrame(s: State, e: Event)
    requires Enabled(s, e)
    requires !e.CreateComputed? && !e.DeleteComputed? && !e.Subscribe? && !e.Unsubscribe?
    ensures Next(s, e).subs == s.subs && Next(s, e).entries == s.entries && Next(s, e).refuses == s.refuses
  {
    match e
    case EndBatch(ok) => EndFrame(s, ok);
    case Deliver(i) => DeliverFrame(s, i);
    case Invalidate(c) => InvalidateFrame(s, c);
    case Rerun(c) => RerunFrame(s, c);
    case _ =>
  }

  lemma RegisteredLive(s: State, c0: Name, entry: Entry, t: State)
    requires LiveCurrent(s) && c0 !in s.entries
    requires t.entries == s.entries[c0 := entry] && t.subs == AddSubs(s.subs, entry.deps, Recompute(c0, entry))
    ensures LiveCurrent(t)
  {
    forall n, c, x | Recompute(c, x) in SubsOf(t.subs, n) ensures c in t.entries && t.entries[c] == x {
      AddSubsOnly(s.subs, entry.deps, Recompute(c0, entry), n, Recompute(c, x));
    }
  }

  /** Subscriber sets never hold old closures, whatever happens. */
  lemma LiveCurrentKept(s: State, e: Event)
    requires LiveCurrent(s) && Enabled(s, e)
    ensures LiveCurrent(Next(s, e))
  {
    if e.CreateComputed? {
      RegisteredLive(s, e.name, e.entry, Next(s, e));
    } else if e.DeleteComputed? || e.Subscribe? || e.Unsubscribe? {
      var t := Next(s, e);
      forall n, c, x | Recompute(c, x) in SubsOf(t.subs, n) ensures c in t.entries && t.entries[c] == x {
        SubsChanged(s.subs, e.name, if e.DeleteComputed? then 0 else e.id, n, Recompute(c, x));
      }
    } else {
      SubsFrame(s, e);
    }
  }

  lemma CalledCurrent(s: State, i: nat)
    requires TasksCurrent(s) && i < |s.queue| && s.queue[i].todo != []
    ensures TasksCurrent(Called(s, i))
  {
    forall j | 0 <= j < |s.queue| ensures TaskCurrent(Called(s, i).queue[j], s.entries) {
      assert TaskCurrent(s.queue[j], s.entries);
    }
  }

  lemma {:induction false} NoneBegun(plan: seq<Name>, i: nat)
    requires i < |Waiting(plan)|
    ensures Waiting(plan)[i].todo == [] && !Waiting(plan)[i].begun
  {
    if i > 0 {
      NoneBegun(plan[1..], i - 1);
    }
  }

  lemma QueueKeepsCurrent(s: State, e: Event)
    requires LiveCurrent(s) && TasksCurrent(s) && Enabled(s, e)
    requires e.StartFlush? || e.Open? || e.Refresh? || e.Drop? || e.Retire? || e.FinishFlush?
    ensures TasksCurrent(Next(s, e))
  {
    var t := Next(s, e);
    forall i | 0 <= i < |t.queue| ensures TaskCurrent(t.queue[i], t.entries) {
      if e.StartFlush? {
        NoneBegun(e.plan, i);
      } else if e.Drop? || e.Retire? {
        assert t.queue[i] == s.queue[if i < e.task then i else i + 1];
      } else if e.Open? || e.Refresh? {
        assert TaskCurrent(s.queue[i], s.entries);
      }
    }
  }

  /** Events that leave the tasks alone. */
  lemma QueueFrame(s: State, e: Event)
    requires Enabled(s, e) && !e.Deliver?
    requires !(e.StartFlush? || e.Open? || e.Refresh? || e.Drop? || e.Retire? || e.FinishFlush?)
    ensures Next(s, e).queue == s.queue
  {
    match e
    case Invalidate(c) => InvalidateFrame(s, c);
    case Rerun(c) => RerunFrame(s, c);
    case _ =>
  }

  /** Nor do tasks, if computeds are created with care: a call hands out no closure that was not on a
      list already. */
  lemma TasksCurrentKept(s: State, e: Event)
    requires LiveCurrent(s) && TasksCurrent(s) && Enabled(s, e) && Careful(s, e)
    ensures TasksCurrent(Next(s, e))
  {
    if e.Deliver? {
      DeliverFrame(s, e.task);
      CalledCurrent(s, e.task);
    } else if e.StartFlush? || e.Open? || e.Refresh? || e.Drop? || e.Retire? || e.FinishFlush? {
      QueueKeepsCurrent(s, e);
    } else {
      QueueFrame(s, e);
      if !e.CreateComputed? && !e.DeleteComputed? && !e.Subscribe? && !e.Unsubscribe? {
        SubsFrame(s, e);
      }
      var t := Next(s, e);
      forall i | 0 <= i < |t.queue| ensures TaskCurrent(t.queue[i], t.entries) {
        assert TaskCurrent(s.queue[i], s.entries);
      }
    }
  }

  // ---------------------------------------------------------------- last outputs stay steady

  /** A steady computed that is told its own output outside a batch is neither misled nor stranded. */
  lemma OwnOutputSuits(s: State, c: Name, spend: bool)
    requires c in s.entries && HaveStores(s) && s.batch == NO_BATCH && Steady(s)
    ensures var next := RunCompute(s.entries[c], c, s.stores);
      && Suits(s, c, LeftWith(s, c, next))
      && Told(s, c, next, spend).misled <= s.misled && Told(s, c, next, spend).stranded <= s.stranded
  {
    assert Seen(s) == s.stores;
  }

  lemma SettleSteady(s: State, c: Name, next: Value)
    requires c in s.entries && s.batch == NO_BATCH && Steady(s)
    ensures Steady(Settle(s, c, next))
  {
    SettleFrame(s, c, next);
    SettleStores(s, c, next);
    var t := Settle(s, c, next);
    assert Seen(s) == s.stores && Seen(t) == t.stores;
    forall x | x in t.entries && x in t.lastOutput
      ensures t.lastOutput[x] == Read(Seen(t), x) || RefusedThere(t, x, t.lastOutput[x])
    {
      if x != c {
        assert t.lastOutput[x] == s.lastOutput[x] && Read(t.stores, x) == Read(s.stores, x);
      }
    }
  }

  lemma OwnTelling(s: State, c: Name, spend: bool)
    requires c in s.entries && HaveStores(s) && s.batch == NO_BATCH && Steady(s) && s.misled == {} && s.stranded == {}
    ensures var next := RunCompute(s.entries[c], c, s.stores);
      var t := Settle(Told(s, c, next, spend), c, next);
      Steady(t) && InStep(t) && t.misled == {} && t.stranded == {}
  {
    var next := RunCompute(s.entries[c], c, s.stores);
    var told := Told(s, c, next, spend);
    OwnOutputSuits(s, c, spend);
    ToldFrame(s, c, next, spend);
    assert Steady(told);
    SettleSteady(told, c, next);
    SettleFrame(told, c, next);
  }

  lemma OwnRecompute(s: State, c: Name)
    requires HaveStores(s) && s.batch == NO_BATCH && Steady(s) && s.misled == {} && s.stranded == {}
    requires c in s.entries
    ensures var t := RecomputeStep(s, c, s.entries[c]); Steady(t) && InStep(t) && t.misled == {} && t.stranded == {}
  {
    if !(s.flushing && Guarded(s, c)) {
      OwnTelling(s, c, s.flushing);
    }
  }

  /** What of a state its computeds' last outputs and an open batch have to do with. */
  ghost predicate SameOutputs(s: State, t: State) {
    && t.entries == s.entries && t.refuses == s.refuses && t.lastOutput == s.lastOutput && t.stores == s.stores
    && t.batch == s.batch
  }

  lemma CarefulDeliver(s: State, i: nat)
    requires Inv(s) && Faithful(s) && Enabled(s, Deliver(i))
    ensures var t := DeliverStep(s, i); Steady(t) && InStep(t) && t.misled == {} && t.stranded == {}
  {
    var sub, called := s.queue[i].todo[0], Called(s, i);
    assert SameOutputs(s, called) && called.misled == {} && called.stranded == {};
    assert Steady(called) && HaveStores(called);
    if sub.Recompute? && sub.computed in s.entries {
      assert TaskCurrent(s.queue[i], s.entries) && sub == Recompute(sub.computed, sub.closure);
      OwnRecompute(called, sub.computed);
    }
  }

  /** A leaf's write moves no computed's store. */
  lemma CarefulWrite(s: State, n: Name, v: Value)
    requires Inv(s) && Faithful(s) && Enabled(s, WriteStore(n, v)) && n !in s.entries
    ensures var t := Next(s, WriteStore(n, v)); Steady(t) && InStep(t) && t.misled == {} && t.stranded == {}
  {
    var t := Next(s, WriteStore(n, v));
    if InBatch(s) {
      Restaged(s, t, Staged(n, v));
    } else {
      assert Seen(s) == s.stores && Seen(t) == t.stores;
    }
  }

  lemma OverlaySnoc(stores: Stores, commits: seq<Staged>, w: Staged)
    ensures Overlay(stores, commits + [w]) == Overlay(stores, commits)[w.name := w.value]
  {
    assert (commits + [w])[..|commits|] == commits;
  }

  /** One more staged write: what reads it will be told, and the rest sees what it saw. */
  lemma Restaged(s: State, t: State, w: Staged)
    requires InStep(s) && Steady(s) && t.refuses == s.refuses && t.stores == s.stores
    requires t.batch.commits == s.batch.commits + [w] && t.batch.touched - {w.name} <= s.batch.touched
    requires forall c | c in t.entries && c != w.name :: c in s.entries && t.entries[c] == s.entries[c]
    requires forall c | c in t.lastOutput && c != w.name :: c in s.lastOutput && t.lastOutput[c] == s.lastOutput[c]
    requires w.name in t.entries ==>
      (w.name in t.lastOutput ==> t.lastOutput[w.name] == w.value)
      && (w.name !in t.batch.touched || w.name in t.entries[w.name].deps
          || Fits(t.refuses, w.name, OutputOn(t.entries[w.name], Seen(s)), w.value))
    ensures Steady(t) && InStep(t)
  {
    OverlaySnoc(s.stores, s.batch.commits, w);
    StagedNames(s.batch.commits, w);
    forall c | c in t.entries && c in t.batch.touched
      ensures (exists d :: d in t.entries[c].deps && d in NamesOf(t.batch.commits))
           || Fits(t.refuses, c, OutputOn(t.entries[c], Seen(t)), Read(Seen(t), c))
    {
      if w.name in t.entries[c].deps {
        assert w.name in NamesOf(t.batch.commits);
      } else {
        ArgsAgree(t.entries[c].deps, Seen(s), Seen(t));
        if c != w.name {
          if d :| d in s.entries[c].deps && d in NamesOf(s.batch.commits) {
            assert d in t.entries[c].deps && d in NamesOf(t.batch.commits);
          }
        }
      }
    }
  }

  /** Nothing staged, one computed at most judged anew where it stands. */
  lemma SeenAlike(s: State, t: State, c0: Name)
    requires InStep(s) && Steady(s) && t.refuses == s.refuses && t.stores == s.stores
    requires t.batch.commits == s.batch.commits && t.batch.touched - {c0} <= s.batch.touched
    requires forall c | c in t.entries && c != c0 :: c in s.entries && t.entries[c] == s.entries[c]
    requires forall c | c in t.lastOutput && c != c0 :: c in s.lastOutput && t.lastOutput[c] == s.lastOutput[c]
    requires c0 in t.entries ==>
      (c0 in t.lastOutput ==> t.lastOutput[c0] == Read(Seen(t), c0) || RefusedThere(t, c0, t.lastOutput[c0]))
      && Fits(t.refuses, c0, OutputOn(t.entries[c0], Seen(s)), Read(Seen(s), c0))
    ensures Steady(t) && InStep(t)
  {
    assert Seen(t) == Seen(s);
    forall c | c in t.entries && c in t.batch.touched && c != c0
      ensures (exists d :: d in t.entries[c].deps && d in NamesOf(t.batch.commits))
           || Fits(t.refuses, c, OutputOn(t.entries[c], Seen(t)), Read(Seen(t), c))
    {
      if d :| d in s.entries[c].deps && d in NamesOf(s.batch.commits) {
        assert d in t.entries[c].deps && d in NamesOf(t.batch.commits);
      }
    }
  }

  lemma CarefulStaging(s: State, c: Name)
    requires Inv(s) && Faithful(s) && InBatch(s) && c in s.entries
    ensures var t := RecomputeInBatch(s, c); Steady(t) && InStep(t) && t.misled == {} && t.stranded == {}
  {
    if !(s.flushing && Guarded(s, c)) {
      var next := RunCompute(s.entries[c], c, Seen(s));
      var t := StageOutput(s, c, next);
      if t.batch.commits == s.batch.commits {
        SeenAlike(s, t, c);
      } else {
        Restaged(s, t, Staged(c, next));
      }
    }
  }

  lemma CarefulCreateInBatch(s: State, c: Name, entry: Entry)
    requires Inv(s) && Faithful(s) && Enabled(s, CreateComputed(c, entry)) && InBatch(s)
    ensures var t := CreateInBatch(s, c, entry); Steady(t) && InStep(t) && t.misled == {} && t.stranded == {}
  {
    var initial := RunCompute(entry, c, Seen(s));
    var t := CreateInBatch(s, c, entry);
    if RefusedThere(s, c, initial) {
      SeenAlike(s, t, c);
    } else {
      Restaged(s, t, Staged(c, initial));
    }
  }

  lemma CarefulCreate(s: State, c: Name, entry: Entry)
    requires Inv(s) && Faithful(s) && Enabled(s, CreateComputed(c, entry)) && !InBatch(s)
    ensures var t := CreateComputedStep(s, c, entry); Steady(t) && InStep(t) && t.misled == {} && t.stranded == {}
  {
    var t := CreateComputedStep(s, c, entry);
    assert Seen(s) == s.stores && Seen(t) == t.stores && t.batch == NO_BATCH;
    forall x | x in t.entries && x in t.lastOutput
      ensures t.lastOutput[x] == Read(Seen(t), x) || RefusedThere(t, x, t.lastOutput[x])
    {
      if x != c {
        assert Read(t.stores, x) == Read(s.stores, x) && t.lastOutput[x] == s.lastOutput[x];
      }
    }
  }

  /** A batch that goes through leaves nobody behind ... */
  lemma CarefulCommit(s: State)
    requires Inv(s) && Faithful(s) && InBatch(s)
    ensures var done := s.batch.commits;
      var t := Rejudged(Emptied(s, done), s.batch.touched, done);
      Steady(t) && InStep(t) && t.misled == {} && t.stranded == {}
  {
    var done := s.batch.commits;
    var e := Emptied(s, done);
    assert e.stores == Seen(s);
    forall c | c in s.batch.touched && c in e.entries && (forall d | d in e.entries[c].deps :: d !in NamesOf(done))
      ensures UpToDate(e, c)
    {
      assert Fits(s.refuses, c, OutputOn(s.entries[c], Seen(s)), Read(Seen(s), c));
    }
    assert LeftBehind(e, s.batch.touched, done) == {};
  }

  /** ... and neither does one that fails without having touched a computed. */
  lemma CarefulRollback(s: State)
    requires Inv(s) && Faithful(s) && InBatch(s) && s.batch.touched == {}
    ensures var t := Rejudged(Emptied(s, []), s.batch.touched, []);
      Steady(t) && InStep(t) && t.misled == {} && t.stranded == {}
  {
    var t := Rejudged(Emptied(s, []), s.batch.touched, []);
    assert t.stores == s.stores == Seen(t);
    forall c | c in t.entries && c in t.lastOutput
      ensures t.lastOutput[c] == Read(Seen(t), c) || RefusedThere(t, c, t.lastOutput[c])
    {
      assert c !in NamesOf(s.batch.commits);
      OverlayReads(s.stores, s.batch.commits, c);
      assert Read(Seen(s), c) == Read(Seen(t), c);
    }
    assert LeftBehind(Emptied(s, []), {}, []) == {};
  }

  lemma CarefulEnd(s: State, ok: bool)
    requires Inv(s) && Faithful(s) && InBatch(s) && Careful(s, EndBatch(ok))
    ensures var t := EndStep(s, ok); Steady(t) && InStep(t) && t.misled == {} && t.stranded == {}
  {
    if s.batch.depth > 1 {
      assert Seen(EndStep(s, ok)) == Seen(s);
    } else if GoesThrough(s, ok) {
      CarefulCommit(s);
    } else {
      CarefulRollback(s);
    }
  }

  lemma CarefulDelete(s: State, c: Name)
    requires Inv(s) && Faithful(s) && Enabled(s, DeleteComputed(c))
    ensures var t := Next(s, DeleteComputed(c)); Steady(t) && InStep(t) && t.misled == {} && t.stranded == {}
  {
    SeenAlike(s, Next(s, DeleteComputed(c)), c);
  }

  /** Every other step leaves last outputs and batches alone. */
  lemma CarefulOther(s: State, e: Event)
    requires Inv(s) && Faithful(s) && Enabled(s, e)
    requires !e.WriteStore? && !e.EndBatch? && !e.CreateComputed? && !e.DeleteComputed? && !e.Invalidate? && !e.Rerun?
    requires !e.Deliver?
    ensures var t := Next(s, e); Steady(t) && InStep(t) && t.misled == {} && t.stranded == {}
  {
    var t := Next(s, e);
    if e.CreateLeaf? {
      assert Seen(s) == s.stores && Seen(t) == t.stores;
    } else {
      assert Seen(s) == Seen(t);
    }
  }

  lemma CarefulStep(s: State, e: Event)
    requires Inv(s) && Faithful(s) && Enabled(s, e) && Careful(s, e)
    ensures Faithful(Next(s, e))
  {
    LiveCurrentKept(s, e);
    TasksCurrentKept(s, e);
    match e
    case WriteStore(n, v) => CarefulWrite(s, n, v);
    case EndBatch(ok) => CarefulEnd(s, ok);
    case CreateComputed(c, entry) =>
      if InBatch(s) {
        CarefulCreateInBatch(s, c, entry);
      } else {
        CarefulCreate(s, c, entry);
      }
    case DeleteComputed(c) => CarefulDelete(s, c);
    case Invalidate(c) =>
      if InBatch(s) {
        CarefulStaging(s, c);
      } else {
        OwnRecompute(s, c);
      }
    case Rerun(c) => OwnTelling(s, c, false);
    case Deliver(i) => CarefulDeliver(s, i);
    case _ => CarefulOther(s, e);
  }

  ghost predicate CarefulRun(s: State, es: seq<Event>)
    requires CanRun(s, es)
    decreases |es|
  {
    es == [] || (Careful(s, es[0]) && CarefulRun(Next(s, es[0]), es[1..]))
  }

  /** A run of steps taken with care misleads and strands nobody. */
  lemma {:induction false} CarefulMeansFaithful(s: State, es: seq<Event>)
    requires Inv(s) && Faithful(s) && CanRun(s, es) && CarefulRun(s, es)
    ensures Inv(Run(s, es)) && Faithful(Run(s, es))
    decreases |es|
  {
    if es != [] {
      StepKeeps(s, es[0]);
      CarefulStep(s, es[0]);
      CarefulMeansFaithful(Next(s, es[0]), es[1..]);
    }
  }

  // ---------------------------------------------------------------- what can be withheld

  /** What a store accepts it goes on accepting. */
  ghost predicate Steadfast(refuses: (Name, Option<Value>, Value) -> bool) {
    forall n, held, v | !Refuses(refuses, n, held, v) :: Acceptable(refuses, n, v)
  }

  predicate Acceptable(refuses: (Name, Option<Value>, Value) -> bool, n: Name, v: Value) {
    v != Undefined && !refuses(n, Some(v), v)
  }

  /** The store holds, and an open batch has staged for it, only what it accepts. */
  predicate Accepted(s: State, n: Name) {
    && n in s.stores && Acceptable(s.refuses, n, s.stores[n])
    && forall w | w in s.batch.commits && w.name == n :: Acceptable(s.refuses, n, w.value)
  }

  lemma TellingAccepted(s: State, c: Name, next: Value, spend: bool, n: Name)
    requires Steadfast(s.refuses) && c in s.entries && Accepted(s, n)
    ensures Accepted(Settle(Told(s, c, next, spend), c, next), n)
  {
    ToldFrame(s, c, next, spend);
    SettleFrame(Told(s, c, next, spend), c, next);
    SettleStores(Told(s, c, next, spend), c, next);
  }

  lemma RecomputeAccepted(s: State, c: Name, closure: Entry, n: Name)
    requires Steadfast(s.refuses) && Accepted(s, n)
    ensures Accepted(RecomputeStep(s, c, closure), n)
  {
    if c in s.entries && !(s.flushing && Guarded(s, c)) {
      TellingAccepted(s, c, RunCompute(closure, c, s.stores), s.flushing, n);
    }
  }

  lemma StagingAccepted(s: State, t: State, w: Staged, n: Name)
    requires Steadfast(s.refuses) && Accepted(s, n) && t.refuses == s.refuses && t.stores == s.stores
    requires t.batch.commits == s.batch.commits || t.batch.commits == s.batch.commits + [w]
    requires t.batch.commits == s.batch.commits + [w] ==> !RefusedThere(s, w.name, w.value)
    ensures Accepted(t, n)
  {
    StagedNames(s.batch.commits, w);
  }

  lemma {:induction false} OverlayAccepted(s: State, commits: seq<Staged>, n: Name)
    requires Accepted(s, n) && forall w | w in commits :: w in s.batch.commits
    ensures var v := Overlay(s.stores, commits); n in v && Acceptable(s.refuses, n, v[n])
    decreases |commits|
  {
    if commits != [] {
      assert commits[|commits| - 1] in commits && forall w | w in commits[..|commits| - 1] :: w in commits;
      OverlayAccepted(s, commits[..|commits| - 1], n);
    }
  }

  lemma EndAccepted(s: State, ok: bool, n: Name)
    requires Accepted(s, n) && InBatch(s)
    ensures Accepted(EndStep(s, ok), n)
  {
    EndFrame(s, ok);
    if s.batch.depth == 1 {
      OverlayAccepted(s, Commits(s, ok), n);
      RejudgedFrame(Emptied(s, Commits(s, ok)), s.batch.touched, Commits(s, ok));
    }
  }

  lemma CreateAccepted(s: State, c: Name, entry: Entry, n: Name)
    requires Steadfast(s.refuses) && Enabled(s, CreateComputed(c, entry)) && Accepted(s, n)
    ensures Accepted(Next(s, CreateComputed(c, entry)), n)
  {
    if InBatch(s) {
      StagingAccepted(s, CreateInBatch(s, c, entry), Staged(c, RunCompute(entry, c, Seen(s))), n);
    }
  }

  lemma WriteAccepted(s: State, x: Name, v: Value, n: Name)
    requires Steadfast(s.refuses) && Enabled(s, WriteStore(x, v)) && Accepted(s, n) && BatchSound(s)
    ensures Accepted(Next(s, WriteStore(x, v)), n)
  {
    if InBatch(s) {
      StagingAccepted(s, StagedWrite(s, x, v), Staged(x, v), n);
    } else {
      assert Seen(s) == s.stores;
    }
  }

  lemma InvalidateAccepted(s: State, c: Name, n: Name)
    requires Steadfast(s.refuses) && Enabled(s, Invalidate(c)) && Accepted(s, n)
    ensures Accepted(Next(s, Invalidate(c)), n)
  {
    if InBatch(s) {
      StagingAccepted(s, RecomputeInBatch(s, c), Staged(c, RunCompute(s.entries[c], c, Seen(s))), n);
    } else {
      RecomputeAccepted(s, c, s.entries[c], n);
    }
  }

  lemma DeliverAccepted(s: State, i: nat, n: Name)
    requires Steadfast(s.refuses) && Enabled(s, Deliver(i)) && Accepted(s, n)
    ensures Accepted(DeliverStep(s, i), n)
  {
    var sub := s.queue[i].todo[0];
    CalledFrame(s, i);
    if sub.Recompute? {
      RecomputeAccepted(Called(s, i), sub.computed, sub.closure, n);
    }
  }

  /** A store that holds an acceptable value will always do so. */
  lemma AcceptedStays(s: State, e: Event, n: Name)
    requires Steadfast(s.refuses) && Inv(s) && Enabled(s, e) && Accepted(s, n)
    ensures Accepted(Next(s, e), n) && Next(s, e).refuses == s.refuses
  {
    if !e.CreateComputed? && !e.DeleteComputed? && !e.Subscribe? && !e.Unsubscribe? {
      SubsFrame(s, e);
    }
    match e
    case WriteStore(x, v) => WriteAccepted(s, x, v, n);
    case EndBatch(ok) => EndAccepted(s, ok, n);
    case CreateComputed(c, entry) => CreateAccepted(s, c, entry, n);
    case Invalidate(c) => InvalidateAccepted(s, c, n);
    case Rerun(c) => TellingAccepted(s, c, RunCompute(s.entries[c], c, s.stores), false, n);
    case Deliver(i) => DeliverAccepted(s, i, n);
    case _ =>
  }

  lemma {:induction false} AcceptedStaysOverRuns(s: State, es: seq<Event>, n: Name)
    requires Steadfast(s.refuses) && Inv(s) && CanRun(s, es) && Accepted(s, n)
    ensures Accepted(Run(s, es), n)
    decreases |es|
  {
    if es != [] {
      AcceptedStays(s, es[0], n);
      StepKeeps(s, es[0]);
      AcceptedStaysOverRuns(Next(s, es[0]), es[1..], n);
    }
  }

  ghost predicate OutputRefused(s: State, c: Name)
    requires c in s.entries
  {
    Output(s, c).Some? && Refused(s, c, Output(s, c).value)
  }

  /** At rest, among computeds that are neither misled nor stranded and whose stores once held an
      acceptable value, the fresh ones are exactly those whose function's output is not refused. */
  lemma FreshUnlessRefused(s: State, es: seq<Event>, c: Name)
    requires Inv(s) && CanRun(s, es) && AtRest(Run(s, es)) && Steadfast(s.refuses) && Accepted(s, c)
    requires var t := Run(s, es); c in t.entries && c !in t.misled && c !in t.stranded
    ensures var t := Run(s, es); Fresh(t.entries, t.stores, c) <==> !OutputRefused(t, c)
  {
    ConsistentAtRest(s, es);
    AcceptedStaysOverRuns(s, es, c);
  }
}
