/** What every step of the propagation protocol keeps, and what that means at rest. */
module FlushConsistency {
  import opened Names
  import opened Values
  import opened Wrappers
  import opened Computeds
  import opened Graphs
  import opened FlushProtocol

  // ---------------------------------------------------------------- subscribers and tasks

  lemma {:induction false} AddSubsKeeps(subs: map<Name, seq<Sub>>, deps: seq<Name>, sub: Sub, n: Name, x: Sub)
    requires x in SubsOf(subs, n)
    ensures x in SubsOf(AddSubs(subs, deps, sub), n)
    decreases |deps|
  {
    if deps != [] {
      AddSubsKeeps(AddSub(subs, deps[0], sub), deps[1..], sub, n, x);
    }
  }

  lemma {:induction false} AddSubsAdds(subs: map<Name, seq<Sub>>, deps: seq<Name>, sub: Sub, d: Name)
    requires d in deps
    ensures sub in SubsOf(AddSubs(subs, deps, sub), d)
    decreases |deps|
  {
    if deps[0] == d {
      AddSubsKeeps(AddSub(subs, d, sub), deps[1..], sub, d, sub);
    } else {
      AddSubsAdds(AddSub(subs, deps[0], sub), deps[1..], sub, d);
    }
  }

  /** What goes leaves the others in their order. */
  lemma {:induction false} ExceptInOrder(a: seq<Sub>, b: seq<Sub>, gone: Sub -> bool)
    ensures Except(a + b, gone) == Except(a, gone) + Except(b, gone)
  {
    if a == [] {
      assert a + b == b;
    } else {
      assert (a + b)[1..] == a[1..] + b;
      ExceptInOrder(a[1..], b, gone);
    }
  }

  /** A registration subscribes its closure last, once for each time a store is among its dependencies. */
  lemma {:induction false} SubscribedLast(subs: map<Name, seq<Sub>>, deps: seq<Name>, sub: Sub, n: Name)
    ensures var was := if n in subs then subs[n] else [];
      var now := AddSubs(subs, deps, sub);
      (n in now <==> n in subs || n in deps)
      && (n in now ==> |now[n]| == |was| + multiset(deps)[n] && was <= now[n]
                       && forall i | |was| <= i < |now[n]| :: now[n][i] == sub)
    decreases |deps|
  {
    if deps != [] {
      var one := subs[deps[0] := (if deps[0] in subs then subs[deps[0]] else []) + [sub]];
      assert AddSub(subs, deps[0], sub) == one;
      SubscribedLast(one, deps[1..], sub, n);
      assert multiset(deps)[n] == multiset(deps[1..])[n] + if deps[0] == n then 1 else 0 by {
        assert deps == [deps[0]] + deps[1..];
      }
    }
  }

  lemma {:induction false} WaitingFor(plan: seq<Name>, n: Name) returns (i: nat)
    requires n in plan
    ensures i < |Waiting(plan)| && Waiting(plan)[i] == Task(n, false, 0, [])
  {
    if plan[0] == n {
      i := 0;
    } else {
      var j := WaitingFor(plan[1..], n);
      i := j + 1;
    }
  }

  lemma {:induction false} OverlayReads(stores: Stores, commits: seq<Staged>, n: Name)
    ensures n !in NamesOf(commits) ==> Read(Overlay(stores, commits), n) == Read(stores, n)
    ensures n in stores || n in NamesOf(commits) ==> n in Overlay(stores, commits)
    ensures n in Overlay(stores, commits) ==> n in stores || n in NamesOf(commits)
    decreases |commits|
  {
    if commits != [] {
      var front, last := commits[..|commits| - 1], commits[|commits| - 1];
      OverlayReads(stores, front, n);
      assert commits == front + [last];
      assert NamesOf(commits) == NamesOf(front) + {last.name};
    }
  }

  // ---------------------------------------------------------------- what is owed

  /** Being up to date, misled or stranded ends only where a value of `c` or of a dependency moves. */
  lemma StillTracked(s: State, t: State, c: Name)
    requires c in s.entries && c in t.entries && s.entries[c] == t.entries[c] && s.refuses == t.refuses
    requires Read(s.stores, c) == Read(t.stores, c)
    requires (c in s.misled <==> c in t.misled) && (c in s.stranded <==> c in t.stranded)
    requires forall d | d in s.entries[c].deps :: Read(s.stores, d) == Read(t.stores, d)
    requires Tracked(s, c) && (Owed(s, c) ==> Owed(t, c))
    ensures Tracked(t, c)
  {
    ArgsAgree(s.entries[c].deps, s.stores, t.stores);
  }

  lemma OwedBy(s: State, c: Name) returns (d: Name)
    requires c in s.entries && Owed(s, c)
    ensures d in s.entries[c].deps
    ensures d in s.pending || (s.flushing && !Guarded(s, c) && Outstanding(s, d, c))
  {
    d :| d in s.entries[c].deps && (d in s.pending || (s.flushing && !Guarded(s, c) && Outstanding(s, d, c)));
  }

  /** What is owed stays owed when the tasks stay, pending only grows and no guard is spent. */
  lemma OwedKept(s: State, t: State, c: Name)
    requires c in s.entries && c in t.entries && s.entries[c] == t.entries[c]
    requires Owed(s, c)
    requires s.pending <= t.pending && s.flushing == t.flushing && s.queue == t.queue
    requires Guarded(t, c) ==> Guarded(s, c)
    ensures Owed(t, c)
  {
    var d := OwedBy(s, c);
    assert Outstanding(s, d, c) ==> Outstanding(t, d, c);
    assert d in t.entries[c].deps;
  }

  /** Where the values that `c` has to do with stay, it is enough that what is owed stays owed. */
  lemma QuietlyTracked(s: State, t: State, c: Name)
    requires c in s.entries && c in t.entries && s.entries[c] == t.entries[c] && s.refuses == t.refuses
    requires Read(s.stores, c) == Read(t.stores, c)
    requires forall d | d in s.entries[c].deps :: Read(s.stores, d) == Read(t.stores, d)
    requires (c in s.misled <==> c in t.misled) && (c in s.stranded <==> c in t.stranded) && Tracked(s, c)
    requires s.pending <= t.pending && s.flushing == t.flushing && s.queue == t.queue
    requires Guarded(t, c) ==> Guarded(s, c)
    ensures Tracked(t, c)
  {
    if Owed(s, c) {
      OwedKept(s, t, c);
    }
    StillTracked(s, t, c);
  }

  /** A computed with a pending dependency is owed. */
  lemma PendingOwes(t: State, c: Name, d: Name)
    requires c in t.entries && d in t.entries[c].deps && d in t.pending
    ensures Owed(t, c) && Tracked(t, c)
  {
  }

  /** One store moves and is pending: every computed but its own, if it is one, stays tracked. */
  lemma MoveKeeps(s: State, t: State, n: Name, c: Name)
    requires c in s.entries && c != n && Tracked(s, c)
    requires t.entries == s.entries && t.refuses == s.refuses
    requires forall x | x != n :: Read(t.stores, x) == Read(s.stores, x)
    requires (c in s.misled <==> c in t.misled) && (c in s.stranded <==> c in t.stranded)
    requires t.pending == s.pending + {n} && s.flushing == t.flushing && s.queue == t.queue
    requires Guarded(t, c) ==> Guarded(s, c)
    ensures Tracked(t, c)
  {
    if n in t.entries[c].deps {
      PendingOwes(t, c, n);
    } else {
      QuietlyTracked(s, t, c);
    }
  }

  // ---------------------------------------------------------------- writes and recomputes

  lemma ToldFrame(s: State, c: Name, next: Value, spend: bool)
    requires c in s.entries
    ensures var t := Told(s, c, next, spend);
      && t.refuses == s.refuses && t.entries == s.entries && t.stores == s.stores && t.subs == s.subs
      && t.lastOutput == s.lastOutput && t.queue == s.queue && t.flushing == s.flushing && t.flushId == s.flushId
      && t.pending == s.pending && t.batch == s.batch && t.version == s.version && t.scheduled == s.scheduled
  {
  }

  lemma ToldHistory(s: State, c: Name, next: Value, spend: bool)
    requires c in s.entries
    ensures var t := Told(s, c, next, spend);
      && (c !in t.misled && c !in t.stranded <==> Suits(s, c, LeftWith(s, c, next)))
      && (c in t.misled <==> !Suits(s, c, LeftWith(s, c, next)) && Output(s, c) != Some(next))
      && (forall x | x != c :: (x in t.misled <==> x in s.misled) && (x in t.stranded <==> x in s.stranded))
      && (forall x | x != c :: Guarded(t, x) ==> Guarded(s, x))
      && (forall x | x in t.guard :: (x in s.guard && t.guard[x] == s.guard[x]) || t.guard[x] == s.flushId)
  {
  }

  lemma SettleFrame(s: State, c: Name, next: Value)
    ensures var t := Settle(s, c, next);
      && t.refuses == s.refuses && t.entries == s.entries && t.misled == s.misled && t.stranded == s.stranded
      && t.subs == s.subs && t.queue == s.queue && t.flushing == s.flushing && t.flushId == s.flushId
      && t.guard == s.guard && t.batch == s.batch
  {
  }

  lemma SettleStores(s: State, c: Name, next: Value)
    ensures var t := Settle(s, c, next);
      && ((t.stores == s.stores && t.pending == s.pending)
          || (t.stores == s.stores[c := next] && t.pending == s.pending + {c} && !Refused(s, c, next)))
      && Read(t.stores, c) == LeftWith(s, c, next)
  {
  }

  /** A computed that is told something leaves every other tracked, whatever it is told ... */
  lemma TellingKeepsOthers(s: State, c0: Name, next: Value, spend: bool, c: Name)
    requires c0 in s.entries && c in s.entries && c != c0 && Tracked(s, c)
    ensures Tracked(Settle(Told(s, c0, next, spend), c0, next), c)
  {
    var told := Told(s, c0, next, spend);
    ToldFrame(s, c0, next, spend);
    ToldHistory(s, c0, next, spend);
    SettleFrame(told, c0, next);
    SettleStores(told, c0, next);
    var t := Settle(told, c0, next);
    if t.pending == s.pending && t.stores == s.stores {
      QuietlyTracked(s, t, c);
    } else {
      MoveKeeps(s, t, c0, c);
    }
  }

  /** ... and is judged itself by its present function. */
  lemma TellingJudges(s: State, c: Name, next: Value, spend: bool)
    requires c in s.entries
    ensures Tracked(Settle(Told(s, c, next, spend), c, next), c)
  {
    var told := Told(s, c, next, spend);
    ToldFrame(s, c, next, spend);
    ToldHistory(s, c, next, spend);
    SettleFrame(told, c, next);
    SettleStores(told, c, next);
    var t := Settle(told, c, next);
    if c in s.entries[c].deps && t.stores != s.stores {
      PendingOwes(t, c, c);
    } else {
      ArgsAgree(s.entries[c].deps, s.stores, t.stores);
    }
  }

  lemma TellingStructure(s: State, c: Name, next: Value, spend: bool)
    requires Structure(s) && !InBatch(s) && c in s.entries
    ensures Structure(Settle(Told(s, c, next, spend), c, next))
  {
    var told := Told(s, c, next, spend);
    ToldFrame(s, c, next, spend);
    ToldHistory(s, c, next, spend);
    SettleFrame(told, c, next);
    SettleStores(told, c, next);
    var t := Settle(told, c, next);
    assert Subscribed(t) && HaveStores(t) && Bookkeeping(t) && BatchSound(t);
  }

  lemma TellingKeeps(s: State, c0: Name, next: Value, spend: bool)
    requires Structure(s) && !InBatch(s) && c0 in s.entries
    requires forall c | c in s.entries && c != c0 :: Tracked(s, c)
    ensures Inv(Settle(Told(s, c0, next, spend), c0, next))
  {
    TellingStructure(s, c0, next, spend);
    TellingJudges(s, c0, next, spend);
    SettleFrame(Told(s, c0, next, spend), c0, next);
    forall c | c in s.entries ensures Tracked(Settle(Told(s, c0, next, spend), c0, next), c) {
      if c != c0 {
        TellingKeepsOthers(s, c0, next, spend, c);
      }
    }
  }

  /** A recompute by any closure, unless its one run of this flush is spent. */
  lemma RecomputeKeeps(s: State, c0: Name, closure: Entry)
    requires Structure(s) && !InBatch(s)
    requires forall c | c in s.entries && c != c0 :: Tracked(s, c)
    requires c0 in s.entries && s.flushing && Guarded(s, c0) ==> Tracked(s, c0)
    ensures Inv(RecomputeStep(s, c0, closure))
  {
    if c0 in s.entries && !(s.flushing && Guarded(s, c0)) {
      TellingKeeps(s, c0, RunCompute(closure, c0, s.stores), s.flushing);
    }
  }

  lemma RerunKeeps(s: State, c: Name)
    requires Inv(s) && Enabled(s, Rerun(c))
    ensures Inv(Next(s, Rerun(c)))
  {
    TellingKeeps(s, c, RunCompute(s.entries[c], c, s.stores), false);
  }

  /** A user's write, to a leaf or over a computed's value. */
  lemma OverwriteKeeps(s: State, n: Name, v: Value)
    requires Inv(s) && !InBatch(s) && n in s.stores
    ensures Inv(Overwritten(s, n, v))
  {
    var t := Overwritten(s, n, v);
    assert Subscribed(t) && HaveStores(t) && Bookkeeping(t) && BatchSound(t);
    forall c | c in t.entries ensures Tracked(t, c) {
      if c != n {
        MoveKeeps(s, t, n, c);
      } else if n in s.entries[n].deps {
        PendingOwes(t, n, n);
      } else {
        ArgsAgree(s.entries[n].deps, s.stores, t.stores);
      }
    }
  }

  // ---------------------------------------------------------------- tasks

  /** Replacing one task by one that can still tell `c` where it could. */
  lemma OutstandingAfterUpdate(s: State, t: State, i: nat, d: Name, c: Name)
    requires i < |s.queue| && |t.queue| == |s.queue| && c in s.entries && s.entries == t.entries
    requires forall j | 0 <= j < |s.queue| && j != i :: t.queue[j] == s.queue[j]
    requires Tellable(s.queue[i], d, c, s.entries[c]) ==> Tellable(t.queue[i], d, c, s.entries[c])
    requires Outstanding(s, d, c)
    ensures Outstanding(t, d, c)
  {
    var j :| 0 <= j < |s.queue| && Tellable(s.queue[j], d, c, s.entries[c]);
    assert Tellable(t.queue[j], d, c, s.entries[c]);
  }

  lemma OutstandingAfterRemove(s: State, t: State, i: nat, d: Name, c: Name)
    requires i < |s.queue| && t.queue == Remove(s.queue, i) && c in s.entries && s.entries == t.entries
    requires !Tellable(s.queue[i], d, c, s.entries[c])
    requires Outstanding(s, d, c)
    ensures Outstanding(t, d, c)
  {
    var j :| 0 <= j < |s.queue| && Tellable(s.queue[j], d, c, s.entries[c]);
    var k := if j < i then j else j - 1;
    assert t.queue[k] == s.queue[j];
  }

  lemma DeliverKeeps(s: State, i: nat)
    requires Inv(s) && Enabled(s, Deliver(i))
    ensures Inv(Next(s, Deliver(i)))
  {
    var sub := s.queue[i].todo[0];
    var rest := Called(s, i);
    assert Subscribed(rest) && HaveStores(rest) && Bookkeeping(rest) && BatchSound(rest);
    forall c | c in s.entries && (!Tells(sub, c) || (s.flushing && Guarded(s, c)))
      ensures Tracked(rest, c)
    {
      assert Tracked(s, c);
      if Owed(s, c) {
        var d := OwedBy(s, c);
        if d !in s.pending {
          OutstandingAfterUpdate(s, rest, i, d, c);
        }
        assert d in rest.entries[c].deps;
      }
    }
    if sub.Recompute? {
      RecomputeKeeps(rest, sub.computed, sub.closure);
    }
  }

  lemma QueueEventKeeps(s: State, e: Event)
    requires Inv(s) && Enabled(s, e)
    requires e.Open? || e.Refresh? || e.Drop? || e.Retire?
    ensures Inv(Next(s, e))
  {
    var t := Next(s, e);
    assert Subscribed(t) && HaveStores(t) && Bookkeeping(t) && BatchSound(t);
    forall c | c in s.entries ensures Tracked(t, c) {
      assert Tracked(s, c);
      if Owed(s, c) {
        var d := OwedBy(s, c);
        if d !in s.pending {
          if e.Open? || e.Refresh? {
            OutstandingAfterUpdate(s, t, e.task, d, c);
          } else if !Tellable(s.queue[e.task], d, c, s.entries[c]) {
            OutstandingAfterRemove(s, t, e.task, d, c);
          }
        }
        assert d in t.entries[c].deps;
      }
    }
  }

  lemma StartFlushKeeps(s: State, plan: seq<Name>)
    requires Inv(s) && Enabled(s, StartFlush(plan))
    ensures Inv(Next(s, StartFlush(plan)))
  {
    var t := Next(s, StartFlush(plan));
    forall c | c in s.entries ensures Tracked(t, c) {
      assert Tracked(s, c);
      if Owed(s, c) {
        var d := OwedBy(s, c);
        var i := WaitingFor(plan, d);
        assert Tellable(t.queue[i], d, c, t.entries[c]);
        assert Outstanding(t, d, c);
        assert !Guarded(t, c);
        assert d in t.entries[c].deps;
      }
    }
  }

  lemma FinishKeeps(s: State, inline: bool)
    requires Inv(s) && Enabled(s, FinishFlush(inline))
    ensures Inv(Next(s, FinishFlush(inline)))
  {
    var t := Next(s, FinishFlush(inline));
    forall c | c in s.entries ensures Tracked(t, c) {
      assert Tracked(s, c);
      if Owed(s, c) {
        var d := OwedBy(s, c);
        assert d in t.entries[c].deps;
      }
    }
  }

  // ---------------------------------------------------------------- stores and registrations

  lemma CreateLeafKeeps(s: State, n: Name, v: Value)
    requires Inv(s) && Enabled(s, CreateLeaf(n, v))
    ensures Inv(Next(s, CreateLeaf(n, v)))
  {
    var t := CreateStore(s, n, v);
    assert Subscribed(t) && HaveStores(t) && Bookkeeping(t) && BatchSound(t);
    forall c | c in s.entries ensures Tracked(t, c) {
      assert Tracked(s, c) && c != n;
      if n in s.entries[c].deps {
        assert Recompute(c, s.entries[c]) in SubsOf(s.subs, n);
        PendingOwes(t, c, n);
      } else {
        QuietlyTracked(s, t, c);
      }
    }
  }

  /** Events that touch neither stores, entries, guards nor tasks. */
  lemma FrameKeeps(s: State, e: Event)
    requires Inv(s) && Enabled(s, e)
    requires e.BeginBatch? || e.FailBatch? || e.Subscribe? || e.Unsubscribe?
    ensures Inv(Next(s, e))
  {
    var t := Next(s, e);
    forall c, d | c in t.entries && d in t.entries[c].deps ensures Recompute(c, t.entries[c]) in SubsOf(t.subs, d) {
      assert Recompute(c, s.entries[c]) in SubsOf(s.subs, d);
    }
    forall c | c in s.entries && c !in t.batch.touched ensures Tracked(t, c) {
      QuietlyTracked(s, t, c);
    }
  }

  lemma DeleteKeeps(s: State, c0: Name)
    requires Inv(s) && Enabled(s, DeleteComputed(c0))
    ensures Inv(Next(s, DeleteComputed(c0)))
  {
    var t := Next(s, DeleteComputed(c0));
    forall c, d | c in t.entries && d in t.entries[c].deps ensures Recompute(c, t.entries[c]) in SubsOf(t.subs, d) {
      assert Recompute(c, s.entries[c]) in SubsOf(s.subs, d);
    }
    assert HaveStores(t) && Bookkeeping(t) && BatchSound(t);
    forall c | c in t.entries && c !in t.batch.touched ensures Tracked(t, c) {
      assert t.entries[c] == s.entries[c];
      QuietlyTracked(s, t, c);
    }
  }

  lemma RegisteredSubscribed(s: State, c0: Name, entry: Entry, t: State)
    requires Subscribed(s) && c0 !in s.entries
    requires t.entries == s.entries[c0 := entry] && t.subs == AddSubs(s.subs, entry.deps, Recompute(c0, entry))
    ensures Subscribed(t)
  {
    var sub := Recompute(c0, entry);
    forall c, d | c in t.entries && d in t.entries[c].deps ensures Recompute(c, t.entries[c]) in SubsOf(t.subs, d) {
      if c == c0 {
        AddSubsAdds(s.subs, entry.deps, sub, d);
      } else {
        AddSubsKeeps(s.subs, entry.deps, sub, d, Recompute(c, s.entries[c]));
      }
    }
  }

  lemma CreateKeepsOthers(s: State, c0: Name, entry: Entry, c: Name)
    requires Subscribed(s) && c != c0 && c in s.entries && Tracked(s, c)
    ensures Tracked(CreateComputedStep(s, c0, entry), c)
  {
    var t := CreateComputedStep(s, c0, entry);
    if c0 in s.entries[c].deps && t.stores != s.stores {
      assert Recompute(c, s.entries[c]) in SubsOf(s.subs, c0);
      PendingOwes(t, c, c0);
    } else {
      QuietlyTracked(s, t, c);
    }
  }

  lemma CreatedUpToDate(s: State, c0: Name, entry: Entry)
    requires Enabled(s, CreateComputed(c0, entry))
    ensures UpToDate(CreateComputedStep(s, c0, entry), c0)
  {
    if c0 in entry.deps {
      ReachesSelf(s.entries, c0);
    }
    ArgsAgree(entry.deps, s.stores, CreateComputedStep(s, c0, entry).stores);
  }

  lemma CreateOutsideKeeps(s: State, c0: Name, entry: Entry)
    requires Inv(s) && Enabled(s, CreateComputed(c0, entry)) && !InBatch(s)
    ensures Inv(CreateComputedStep(s, c0, entry))
  {
    var t := CreateComputedStep(s, c0, entry);
    RegisteredSubscribed(s, c0, entry, t);
    assert HaveStores(t) && Bookkeeping(t) && BatchSound(t);
    CreatedUpToDate(s, c0, entry);
    forall c | c in t.entries ensures Tracked(t, c) {
      if c != c0 {
        CreateKeepsOthers(s, c0, entry, c);
      }
    }
  }

  // ---------------------------------------------------------------- batches

  /** A step inside a batch that moves nothing but what is staged, and at most one computed's guard, last
      output, registration and history, all of which are judged at the end. */
  lemma StagingKeeps(s: State, t: State, c0: Name)
    requires Inv(s) && Structure(t) && t.refuses == s.refuses && t.stores == s.stores
    requires t.batch.touched == s.batch.touched || t.batch.touched == s.batch.touched + {c0}
    requires c0 in t.batch.touched || t == s.(batch := t.batch)
    requires forall c | c in t.entries && c != c0 ::
      && c in s.entries && t.entries[c] == s.entries[c] && (c in s.misled <==> c in t.misled)
      && (c in s.stranded <==> c in t.stranded) && (Guarded(t, c) ==> Guarded(s, c))
    requires t.pending == s.pending && t.flushing == s.flushing && t.queue == s.queue
    ensures Inv(t)
  {
    forall c | c in t.entries && c !in t.batch.touched ensures Tracked(t, c) {
      QuietlyTracked(s, t, c);
    }
  }

  lemma StagedNames(commits: seq<Staged>, w: Staged)
    ensures NamesOf(commits + [w]) == NamesOf(commits) + {w.name}
    ensures forall x | x in commits + [w] :: x in commits || x == w
  {
  }

  lemma StageWriteKeeps(s: State, n: Name, v: Value)
    requires Inv(s) && Enabled(s, WriteStore(n, v)) && InBatch(s)
    ensures Inv(StagedWrite(s, n, v))
  {
    var t := StagedWrite(s, n, v);
    StagedNames(s.batch.commits, Staged(n, v));
    assert Subscribed(t) && HaveStores(t) && Bookkeeping(t) && BatchSound(t);
    forall c | c in t.entries && c !in t.batch.touched ensures Tracked(t, c) {
      QuietlyTracked(s, t, c);
    }
  }

  lemma StageOutputKeeps(s: State, c: Name, next: Value)
    requires Inv(s) && InBatch(s) && c in s.entries
    ensures Inv(StageOutput(s, c, next))
  {
    var t := StageOutput(s, c, next);
    StagedNames(s.batch.commits, Staged(c, next));
    assert Subscribed(t) && HaveStores(t) && Bookkeeping(t) && BatchSound(t);
    StagingKeeps(s, t, c);
  }

  lemma CreateInBatchKeeps(s: State, c0: Name, entry: Entry)
    requires Inv(s) && Enabled(s, CreateComputed(c0, entry)) && InBatch(s)
    ensures Inv(CreateInBatch(s, c0, entry))
  {
    var t := CreateInBatch(s, c0, entry);
    StagedNames(s.batch.commits, Staged(c0, RunCompute(entry, c0, Seen(s))));
    RegisteredSubscribed(s, c0, entry, t);
    assert HaveStores(t) && Bookkeeping(t) && BatchSound(t);
    StagingKeeps(s, t, c0);
  }

  /** Its end leaves tracked what it has not touched ... */
  lemma EndKeepsUntouched(s: State, done: seq<Staged>, c: Name)
    requires Inv(s) && c in s.entries && c !in s.batch.touched && (done == s.batch.commits || done == [])
    ensures Tracked(Rejudged(Emptied(s, done), s.batch.touched, done), c)
  {
    var t := Rejudged(Emptied(s, done), s.batch.touched, done);
    assert Tracked(s, c) && c !in NamesOf(done);
    if d :| d in t.entries[c].deps && d in NamesOf(done) {
      PendingOwes(t, c, d);
    } else {
      OverlayReads(s.stores, done, c);
      forall d | d in s.entries[c].deps ensures Read(s.stores, d) == Read(t.stores, d) {
        OverlayReads(s.stores, done, d);
      }
      QuietlyTracked(s, t, c);
    }
  }

  /** ... and judges what it has. */
  lemma EndJudgesTouched(s: State, done: seq<Staged>, c: Name)
    requires c in s.entries && c in s.batch.touched
    ensures Tracked(Rejudged(Emptied(s, done), s.batch.touched, done), c)
  {
    var emptied := Emptied(s, done);
    var t := Rejudged(emptied, s.batch.touched, done);
    if d :| d in t.entries[c].deps && d in NamesOf(done) {
      PendingOwes(t, c, d);
    } else {
      assert UpToDate(t, c) == UpToDate(emptied, c);
      assert c in LeftBehind(emptied, s.batch.touched, done) <==> !UpToDate(emptied, c);
    }
  }

  lemma EndStructure(s: State, done: seq<Staged>)
    requires Structure(s) && InBatch(s)
    ensures Structure(Rejudged(Emptied(s, done), s.batch.touched, done))
  {
    var t := Rejudged(Emptied(s, done), s.batch.touched, done);
    forall c | c in t.entries ensures c in t.stores {
      OverlayReads(s.stores, done, c);
    }
    assert Subscribed(t) && HaveStores(t) && Bookkeeping(t) && BatchSound(t);
  }

  lemma InnerEndKeeps(s: State, ok: bool)
    requires Inv(s) && s.batch.depth > 1
    ensures Inv(EndStep(s, ok))
  {
    var t := EndStep(s, ok);
    assert Subscribed(t) && HaveStores(t) && Bookkeeping(t) && BatchSound(t);
    forall c | c in t.entries && c !in t.batch.touched ensures Tracked(t, c) {
      QuietlyTracked(s, t, c);
    }
  }

  lemma EndKeeps(s: State, ok: bool)
    requires Inv(s) && InBatch(s)
    ensures Inv(EndStep(s, ok))
  {
    if s.batch.depth > 1 {
      InnerEndKeeps(s, ok);
    } else {
      var t := EndStep(s, ok);
      var done := Commits(s, ok);
      EndStructure(s, done);
      forall c | c in t.entries ensures Tracked(t, c) {
        if c in s.batch.touched {
          EndJudgesTouched(s, done, c);
        } else {
          EndKeepsUntouched(s, done, c);
        }
      }
    }
  }

  lemma WriteKeeps(s: State, n: Name, v: Value)
    requires Inv(s) && Enabled(s, WriteStore(n, v))
    ensures Inv(Next(s, WriteStore(n, v)))
  {
    if InBatch(s) {
      StageWriteKeeps(s, n, v);
    } else {
      OverwriteKeeps(s, n, v);
    }
  }

  lemma CreateKeeps(s: State, c: Name, entry: Entry)
    requires Inv(s) && Enabled(s, CreateComputed(c, entry))
    ensures Inv(Next(s, CreateComputed(c, entry)))
  {
    if InBatch(s) {
      CreateInBatchKeeps(s, c, entry);
    } else {
      CreateOutsideKeeps(s, c, entry);
    }
  }

  lemma InvalidateKeeps(s: State, c: Name)
    requires Inv(s) && Enabled(s, Invalidate(c))
    ensures Inv(Next(s, Invalidate(c)))
  {
    if !InBatch(s) {
      RecomputeKeeps(s, c, s.entries[c]);
    } else if !(s.flushing && Guarded(s, c)) {
      StageOutputKeeps(s, c, RunCompute(s.entries[c], c, Seen(s)));
    }
  }

  // ---------------------------------------------------------------- every step, every run

  /** Every event keeps the invariant. */
  lemma StepKeeps(s: State, e: Event)
    requires Inv(s) && Enabled(s, e)
    ensures Inv(Next(s, e))
  {
    match e
    case WriteStore(n, v) => WriteKeeps(s, n, v);
    case CreateLeaf(n, v) => CreateLeafKeeps(s, n, v);
    case BeginBatch => FrameKeeps(s, e);
    case FailBatch => FrameKeeps(s, e);
    case EndBatch(ok) => EndKeeps(s, ok);
    case CreateComputed(c, entry) => CreateKeeps(s, c, entry);
    case DeleteComputed(c) => DeleteKeeps(s, c);
    case Subscribe(_, _) => FrameKeeps(s, e);
    case Unsubscribe(_, _) => FrameKeeps(s, e);
    case Invalidate(c) => InvalidateKeeps(s, c);
    case Rerun(c) => RerunKeeps(s, c);
    case StartFlush(plan) => StartFlushKeeps(s, plan);
    case Deliver(i) => DeliverKeeps(s, i);
    case FinishFlush(inline) => FinishKeeps(s, inline);
    case _ => QueueEventKeeps(s, e);
  }

  lemma {:induction false} RunKeeps(s: State, es: seq<Event>)
    requires Inv(s) && CanRun(s, es)
    ensures Inv(Run(s, es))
    decreases |es|
  {
    if es != [] {
      StepKeeps(s, es[0]);
      RunKeeps(Next(s, es[0]), es[1..]);
    }
  }

  /** Consistency at rest, over every run: whatever stores were written, batches opened, failed or
      committed, computeds created, deleted, created anew, invalidated or hydrated, listeners added or
      removed, and however deliveries interleaved, once nothing is pending, no flush runs and no batch
      is open, a computed is fresh exactly if it was neither misled nor stranded and its store does not
      refuse its function's output. */
  lemma ConsistentAtRest(s: State, es: seq<Event>)
    requires Inv(s) && CanRun(s, es) && AtRest(Run(s, es))
    ensures Consistent(Run(s, es))
  {
    RunKeeps(s, es);
    var t := Run(s, es);
    forall c | c in t.entries
      ensures Fresh(t.entries, t.stores, c) <==> c !in t.misled && c !in t.stranded && !Withheld(t, c)
    {
      assert !Owed(t, c) && Tracked(t, c);
    }
  }

  lemma EveryRunFromStart(refuses: (Name, Option<Value>, Value) -> bool, es: seq<Event>)
    requires CanRun(Start(refuses), es)
    ensures Inv(Run(Start(refuses), es))
    ensures AtRest(Run(Start(refuses), es)) ==> Consistent(Run(Start(refuses), es))
  {
    RunKeeps(Start(refuses), es);
    if AtRest(Run(Start(refuses), es)) {
      ConsistentAtRest(Start(refuses), es);
    }
  }

  // ---------------------------------------------------------------- registrations stay acyclic

  /** What a call, an invalidation and a rerun leave alone. */
  ghost predicate Recomputes(e: Event) {
    e.Deliver? || e.Invalidate? || e.Rerun?
  }

  lemma RecomputeFrame(s: State, c: Name, closure: Entry)
    ensures var t := RecomputeStep(s, c, closure);
      && t.refuses == s.refuses && t.entries == s.entries && t.subs == s.subs && t.queue == s.queue
      && t.flushing == s.flushing && t.batch == s.batch
  {
    if c in s.entries && !(s.flushing && Guarded(s, c)) {
      var next := RunCompute(closure, c, s.stores);
      ToldFrame(s, c, next, s.flushing);
      SettleFrame(Told(s, c, next, s.flushing), c, next);
    }
  }

  lemma RerunFrame(s: State, c: Name)
    requires c in s.entries
    ensures var t := RerunStep(s, c);
      && t.refuses == s.refuses && t.entries == s.entries && t.subs == s.subs && t.queue == s.queue
      && t.flushing == s.flushing && t.batch == s.batch
  {
    var next := RunCompute(s.entries[c], c, s.stores);
    ToldFrame(s, c, next, false);
    SettleFrame(Told(s, c, next, false), c, next);
  }

  lemma CalledFrame(s: State, i: nat)
    requires i < |s.queue| && s.queue[i].todo != []
    ensures var t := Called(s, i);
      && t.refuses == s.refuses && t.entries == s.entries && t.subs == s.subs
      && t.flushing == s.flushing && t.batch == s.batch && t.stores == s.stores
  {
  }

  lemma DeliverFrame(s: State, i: nat)
    requires i < |s.queue| && s.queue[i].todo != []
    ensures var t := DeliverStep(s, i);
      && t.refuses == s.refuses && t.entries == s.entries && t.subs == s.subs && t.queue == Called(s, i).queue
      && t.flushing == s.flushing && t.batch == s.batch
  {
    var sub := s.queue[i].todo[0];
    CalledFrame(s, i);
    if sub.Recompute? {
      RecomputeFrame(Called(s, i), sub.computed, sub.closure);
    }
  }

  lemma InvalidateFrame(s: State, c: Name)
    requires Enabled(s, Invalidate(c))
    ensures var t := Next(s, Invalidate(c));
      && t.refuses == s.refuses && t.entries == s.entries && t.subs == s.subs && t.queue == s.queue
      && t.flushing == s.flushing
  {
    if !InBatch(s) {
      RecomputeFrame(s, c, s.entries[c]);
    }
  }

  lemma EmptiedFrame(s: State, done: seq<Staged>)
    ensures var t := Emptied(s, done);
      && t.refuses == s.refuses && t.entries == s.entries && t.subs == s.subs && t.queue == s.queue
      && t.lastOutput == s.lastOutput && t.flushing == s.flushing && t.batch == NO_BATCH
      && (Woken(s) ==> Woken(t))
  {
  }

  lemma RejudgedFrame(s: State, touched: set<Name>, done: seq<Staged>)
    ensures var t := Rejudged(s, touched, done);
      && t.refuses == s.refuses && t.entries == s.entries && t.subs == s.subs && t.queue == s.queue
      && t.lastOutput == s.lastOutput && t.flushing == s.flushing && t.batch == s.batch
      && (Woken(s) ==> Woken(t))
  {
    var behind := LeftBehind(s, touched, done);
    assert Rejudged(s, touched, done)
        == s.(misled := s.misled - touched, stranded := (s.stranded - touched) + behind);
  }

  lemma EndFrame(s: State, ok: bool)
    requires InBatch(s)
    ensures var t := EndStep(s, ok);
      && t.refuses == s.refuses && t.entries == s.entries && t.subs == s.subs && t.queue == s.queue
      && t.lastOutput == s.lastOutput && t.flushing == s.flushing
      && (Woken(s) ==> Woken(t))
  {
    if s.batch.depth == 1 {
      EmptiedFrame(s, Commits(s, ok));
      RejudgedFrame(Emptied(s, Commits(s, ok)), s.batch.touched, Commits(s, ok));
    }
  }

  lemma StepKeepsAcyclic(s: State, e: Event)
    requires Acyclic(s.entries) && Enabled(s, e)
    ensures Acyclic(Next(s, e).entries)
  {
    match e
    case EndBatch(ok) => EndFrame(s, ok);
    case CreateComputed(c, entry) => AcyclicAfterAdding(s.entries, c, entry);
    case DeleteComputed(c) => AcyclicAfterRemoving(s.entries, c);
    case Deliver(i) => DeliverFrame(s, i);
    case Invalidate(c) => InvalidateFrame(s, c);
    case Rerun(c) => RerunFrame(s, c);
    case _ =>
  }

  // ---------------------------------------------------------------- no lost wake-up

  predicate Microtask(es: seq<Event>) {
    forall i | 0 <= i < |es| :: es[i] != FinishFlush(true)
  }

  lemma TellingKeepsWoken(s: State, c: Name, next: Value, spend: bool)
    requires Woken(s) && c in s.entries
    ensures Woken(Settle(Told(s, c, next, spend), c, next))
  {
    ToldFrame(s, c, next, spend);
    SettleFrame(Told(s, c, next, spend), c, next);
  }

  lemma DeliverKeepsWoken(s: State, i: nat)
    requires Woken(s) && i < |s.queue| && s.queue[i].todo != []
    ensures Woken(DeliverStep(s, i))
  {
    var sub := s.queue[i].todo[0];
    assert Woken(Called(s, i));
    if sub.Recompute? {
      RecomputeKeepsWoken(Called(s, i), sub.computed, sub.closure);
    }
  }

  lemma StepKeepsWoken(s: State, e: Event)
    requires Woken(s) && Enabled(s, e) && e != FinishFlush(true)
    requires Bookkeeping(s)
    ensures Woken(Next(s, e))
  {
    hide DeliverStep, RecomputeStep;
    match e
    case EndBatch(ok) => EndFrame(s, ok);
    case Deliver(i) => DeliverKeepsWoken(s, i);
    case Invalidate(c) =>
      if !InBatch(s) {
        RecomputeKeepsWoken(s, c, s.entries[c]);
      }
    case Rerun(c) => TellingKeepsWoken(s, c, RunCompute(s.entries[c], c, s.stores), false);
    case _ =>
  }

  lemma RecomputeKeepsWoken(s: State, c: Name, closure: Entry)
    requires Woken(s)
    ensures Woken(RecomputeStep(s, c, closure))
  {
    if c in s.entries && !(s.flushing && Guarded(s, c)) {
      TellingKeepsWoken(s, c, RunCompute(closure, c, s.stores), s.flushing);
    }
  }

  /** When flushes run from the scheduler, an idle scheduler means everything is consistent. */
  lemma {:induction false} UnscheduledMeansConsistent(s: State, es: seq<Event>)
    requires Inv(s) && Woken(s) && CanRun(s, es) && Microtask(es)
    ensures Woken(Run(s, es))
    ensures var t := Run(s, es); !t.scheduled && !InBatch(t) ==> AtRest(t) && Consistent(t)
    decreases |es|
  {
    if es == [] {
      if !s.scheduled && !InBatch(s) {
        ConsistentAtRest(s, []);
      }
    } else {
      StepKeeps(s, es[0]);
      StepKeepsWoken(s, es[0]);
      assert forall i | 0 <= i < |es[1..]| :: es[1..][i] == es[i + 1];
      UnscheduledMeansConsistent(Next(s, es[0]), es[1..]);
    }
  }
}
