/** The runtime that carries out batches and flushes: stores, subscribers, the pending set and what a
    batch has staged as mutable state, the flush plan, inline delivery, the flush loop and hydration.
    Every method is tied to the step system of FlushProtocol: what it does is a run of that system. */
module FlushRuntimes {
  import opened Names
  import opened Lists
  import opened Values
  import opened Wrappers
  import opened Computeds
  import opened Graphs
  import opened TopoOrder
  import opened Evaluation
  import opened ComputedGraphs
  import opened FlushProtocol
  import opened FlushConsistency
  import opened FlushCare
  import opened FlushConvergence
  import opened FlushRequests
  import opened FlushRuns
  import opened HydrationRecompute

  /** The passes after which flushPendingNotificationsInline gives up. */
  const PASS_LIMIT := 10000

  /** createComputed outside a batch in its parts: entry and output, store, subscriptions. */
  lemma CreatedInParts(s: State, c: Name, entry: Entry, settled: State, t: State)
    requires var initial := RunCompute(entry, c, s.stores);
      var s1 := s.(entries := s.entries[c := entry], lastOutput := s.lastOutput[c := initial]);
      settled == if c !in s.stores then CreateStore(s1, c, initial)
                 else if Refused(s1, c, initial) then s1 else Committed(s1, c, initial, s1.lastOutput)
    requires t == settled.(subs := AddSubs(s.subs, entry.deps, Recompute(c, entry)), misled := s.misled - {c},
                           stranded := s.stranded - {c})
    ensures t == CreateComputedStep(s, c, entry)
  {
  }

  class FlushRuntime {
    const graph: ComputedGraph
    const listener: Listener
    const refuses: (Name, Option<Value>, Value) -> bool
    const promise: Value -> bool
    var stores: Stores
    var version: map<Name, nat>
    var subs: map<Name, seq<Sub>>
    var pending: seq<Name>
    var batch: Batch
    var scheduled: bool
    var flushing: bool
    var flushId: nat
    var guard: map<Name, nat>
    var clock: nat
    /** The plans of the flushes so far, and the calls that listeners have had. */
    ghost var plans: seq<seq<Name>>
    ghost var calls: seq<ListenerCall>
    ghost var queue: seq<Task>
    ghost var misled: set<Name>
    ghost var stranded: set<Name>

    /** The state of the step system that this runtime is in. */
    ghost function View(): State
      reads this, graph
    {
      State(refuses, graph.entries, stores, version, graph.lastOutput, subs, Elements(pending),
            batch, scheduled, flushing, flushId, guard, queue, misled, stranded)
    }

    /** User listeners that ask for nothing. */
    ghost predicate Silent()
      reads this
    {
      AskNothing(listener)
    }

    ghost predicate Sound()
      reads this, graph
    {
      graph.Valid() && Inv(View())
    }

    /** The part of it that single requests need. */
    ghost predicate Ready()
      reads this, graph
    {
      graph.Valid() && HaveStores(View()) && BatchSound(View())
    }

    constructor (graph: ComputedGraph, listener: Listener, refuses: (Name, Option<Value>, Value) -> bool,
                 promise: Value -> bool)
      requires graph.Valid() && graph.entries == map[]
      ensures this.graph == graph && this.listener == listener && this.refuses == refuses && this.promise == promise
      ensures Sound() && Faithful(View()) && Woken(View()) && AtRest(View())
      ensures clock == 0 && calls == []
    {
      this.graph, this.listener, this.refuses, this.promise := graph, listener, refuses, promise;
      stores, version, subs, pending, guard := map[], map[], map[], [], map[];
      batch, scheduled, flushing, flushId, clock := NO_BATCH, false, false, 0, 0;
      plans, calls, queue, misled, stranded := [], [], [], {}, {};
    }

    method AddPending(name: Name)
      modifies this`pending
      ensures Elements(pending) == Elements(old(pending)) + {name}
    {
      if name !in pending {
        pending := pending + [name];
      }
    }

    /** notify. */
    method Notify(name: Name)
      modifies this`pending, this`scheduled
      ensures Elements(pending) == Elements(old(pending)) + {name}
      ensures scheduled == (old(scheduled) || batch.depth == 0)
    {
      AddPending(name);
      if batch.depth == 0 {
        scheduled := true;
      }
    }

    /** What getStore reads: the staged value inside a batch, else the committed one. */
    function Look(): Stores
      reads this`stores, this`batch
    {
      if batch.depth > 0 then Overlay(stores, batch.commits) else stores
    }

    // -------------------------------------------------------------- computeds

    /** commitStoreUpdate with its notify. */
    method CommitWrite(name: Name, value: Value)
      requires batch.depth == 0
      modifies this`stores, this`version, this`pending, this`scheduled
      ensures View() == Committed(old(View()), name, value, old(View()).lastOutput)
    {
      version := Bump(version, name);
      stores := stores[name := value];
      Notify(name);
    }

    /** replaceStore on a computed's store: a value that it refuses is not written. */
    method ReplaceOutput(c: Name, next: Value)
      requires batch.depth == 0
      modifies this`stores, this`version, this`pending, this`scheduled
      ensures View() == if Refused(old(View()), c, next) then old(View())
                        else Committed(old(View()), c, next, old(View()).lastOutput)
    {
      if next != Undefined && !refuses(c, Some(Read(stores, c)), next) {
        CommitWrite(c, next);
      }
    }

    lemma SettledInParts(s: State, c: Name, next: Value, noted: State, t: State)
      requires !Unchanged(s, c, next) && noted == s.(lastOutput := s.lastOutput[c := next])
      requires t == if Refused(noted, c, next) then noted else Committed(noted, c, next, noted.lastOutput)
      ensures t == Settle(s, c, next)
    {
    }

    /** The end of `_recomputeAndFlush`: nothing for an unchanged output, else the last output moves and
        the store is replaced if it lets itself. */
    method SettleOutput(c: Name, next: Value)
      requires graph.Valid() && c in graph.entries && batch.depth == 0
      modifies this`stores, this`version, this`pending, this`scheduled, graph`lastOutput
      ensures View() == Settle(old(View()), c, next) && graph.Valid()
    {
      var sameOutput := c in graph.lastOutput && graph.lastOutput[c] == next;
      if sameOutput || (c in stores && stores[c] == next) {
        return;
      }
      ghost var s := View();
      graph.NoteOutput(c, next);
      ghost var noted := View();
      ReplaceOutput(c, next);
      SettledInParts(s, c, next, noted, View());
    }

    /** What the history of the computeds notes of it. */
    ghost method Judge(c: Name, next: Value)
      requires c in graph.entries
      modifies this`misled, this`stranded
      ensures View() == Told(old(View()), c, next, false)
    {
      var told := Told(View(), c, next, false);
      misled, stranded := told.misled, told.stranded;
    }

    lemma ToldInParts(s: State, c: Name, next: Value)
      requires c in s.entries
      ensures Told(s.(guard := s.guard[c := s.flushId]), c, next, false) == Told(s, c, next, true)
    {
    }

    /** `_recomputeAndFlush` outside a batch, called by the closure of the registration `closure`. */
    method RecomputeAndFlush(c: Name, closure: Entry)
      requires graph.Valid() && batch.depth == 0
      modifies this`stores, this`version, this`pending, this`scheduled, this`guard, this`misled, this`stranded
      modifies graph`lastOutput
      ensures View() == RecomputeStep(old(View()), c, closure) && graph.Valid()
    {
      if c !in graph.entries {
        return;
      }
      ghost var before := View();
      var next := RunCompute(closure, c, stores);
      if flushing {
        if c in guard && guard[c] == flushId {
          return;
        }
        guard := guard[c := flushId];
        ToldInParts(before, c, next);
      }
      Judge(c, next);
      SettleOutput(c, next);
    }

    lemma StagedInParts(s: State, c: Name, next: Value, t: State)
      requires t == s.(lastOutput := t.lastOutput, batch := t.batch, guard := t.guard)
      requires t.guard == if s.flushing then s.guard[c := s.flushId] else s.guard
      requires t.batch == StageOutput(s, c, next).batch && t.lastOutput == StageOutput(s, c, next).lastOutput
      ensures t == StageOutput(s, c, next)
    {
    }

    /** A batch touches `c`: an output it has not seen is noted, and staged unless it is refused, which
        fails the batch. */
    method StageUnlessRefused(c: Name, next: Value)
      requires graph.Valid() && c in graph.entries && batch.depth > 0
      modifies this`batch, graph`lastOutput
      ensures graph.Valid() && graph.lastOutput == old(graph.lastOutput)[c := next]
      ensures var refused := RefusedThere(old(View()), c, next);
        batch == old(batch).(failed := old(batch).failed || refused, touched := old(batch).touched + {c},
                             commits := if refused then old(batch).commits else old(batch).commits + [Staged(c, next)])
    {
      var held := Read(Look(), c);
      var touched := batch.touched + {c};
      graph.NoteOutput(c, next);
      if next == Undefined || refuses(c, Some(held), next) {
        batch := batch.(failed := true, touched := touched);
      } else {
        batch := batch.(commits := batch.commits + [Staged(c, next)], touched := touched);
      }
    }

    /** The same for an output that may be the last one or the value seen. */
    method StageIfNew(c: Name, next: Value)
      requires graph.Valid() && c in graph.entries && batch.depth > 0
      modifies this`batch, graph`lastOutput
      ensures var s := old(View());
        && View() == s.(lastOutput := graph.lastOutput, batch := batch) && graph.Valid()
        && var t := StageOutput(s, c, next); batch == t.batch && graph.lastOutput == t.lastOutput
    {
      hide Overlay, Bumped;
      if (c in graph.lastOutput && graph.lastOutput[c] == next) || Read(Look(), c) == next {
        batch := batch.(touched := batch.touched + {c});
      } else {
        StageUnlessRefused(c, next);
      }
    }

    /** `_recomputeAndFlush` inside a batch. */
    method RecomputeStaged(c: Name)
      requires graph.Valid() && c in graph.entries && batch.depth > 0
      modifies this`batch, this`guard, graph`lastOutput
      ensures View() == RecomputeInBatch(old(View()), c) && graph.Valid()
    {
      hide StageOutput, Overlay;
      ghost var s := View();
      if flushing && c in guard && guard[c] == flushId {
        return;
      }
      var next := RunCompute(graph.entries[c], c, Look());
      StageIfNew(c, next);
      guard := if flushing then guard[c := flushId] else guard;
      StagedInParts(s, c, next, View());
    }

    /** invalidateComputed. */
    method InvalidateComputed(c: Name) returns (ghost es: seq<Event>)
      requires Ready()
      modifies this`stores, this`version, this`pending, this`scheduled, this`guard, this`misled, this`stranded
      modifies this`batch, graph`lastOutput
      ensures graph.Valid() && Leads(old(View()), es, View()) && Flushes(es) == 0
      ensures es == Answer(old(View()), ToInvalidate(c)) && batch.depth == old(batch.depth)
    {
      es := [];
      if c in graph.entries {
        es := [Invalidate(c)];
        LeadsOne(View(), Invalidate(c));
        if batch.depth > 0 {
          RecomputeStaged(c);
        } else {
          RecomputeAndFlush(c, graph.entries[c]);
        }
      }
    }

    // -------------------------------------------------------------- stores

    /** What is refused inside a batch fails it. */
    method Refuse() returns (ghost es: seq<Event>)
      modifies this`batch
      ensures Leads(old(View()), es, View()) && Flushes(es) == 0
      ensures es == Refusal(old(View())) && batch.depth == old(batch.depth)
    {
      es := [];
      if batch.depth > 0 {
        es := [FailBatch];
        LeadsOne(View(), FailBatch);
        batch := batch.(failed := true);
      }
    }

    method Overwrite(name: Name, value: Value)
      requires batch.depth == 0
      modifies this`stores, this`version, this`pending, this`scheduled, this`misled, this`stranded
      ensures View() == Overwritten(old(View()), name, value) && stores == old(stores)[name := value]
    {
      ghost var after := Overwritten(View(), name, value);
      CommitWrite(name, value);
      misled, stranded := after.misled, after.stranded;
    }

    method StageWrite(name: Name, value: Value)
      modifies this`batch
      ensures View() == StagedWrite(old(View()), name, value) && batch.depth == old(batch.depth)
    {
      batch := batch.(commits := batch.commits + [Staged(name, value)],
                      touched := if name in graph.entries then batch.touched + {name} else batch.touched);
    }

    /** A user's write to a store, be it a leaf or a computed's own. */
    method WriteUser(name: Name, value: Value) returns (ghost es: seq<Event>, ok: bool)
      requires Ready()
      modifies this`stores, this`version, this`pending, this`scheduled, this`misled, this`stranded
      modifies this`batch
      ensures Leads(old(View()), es, View()) && Flushes(es) == 0
      ensures es == Answer(old(View()), ToWrite(name, value)) && batch.depth == old(batch.depth)
      ensures ok <==> name in old(stores) && value != Undefined && !refuses(name, Some(Read(old(Look()), name)), value)
      ensures batch.depth == 0 && ok ==> stores == old(stores)[name := value]
      ensures !ok ==> stores == old(stores)
    {
      hide Overwritten, StagedWrite;
      assert Look() == Seen(View());
      ok := name in stores && value != Undefined && !refuses(name, Some(Read(Look(), name)), value);
      if !ok {
        es := Refuse();
        return;
      }
      es := [WriteStore(name, value)];
      assert es == Answer(View(), ToWrite(name, value));
      LeadsOne(View(), WriteStore(name, value));
      if batch.depth > 0 {
        StageWrite(name, value);
      } else {
        Overwrite(name, value);
      }
    }

    /** A store comes into being; subscribers that were there before it are notified. */
    method AddStore(name: Name, value: Value)
      requires batch.depth == 0
      modifies this`stores, this`version, this`pending, this`scheduled
      ensures View() == CreateStore(old(View()), name, value)
    {
      stores := stores[name := value];
      version := version[name := 0];
      if |SubsOf(subs, name)| > 0 {
        Notify(name);
      }
    }

    /** createStore: fails an open batch; nothing happens when the store exists. */
    method CreateLeafStore(name: Name, value: Value) returns (ghost es: seq<Event>, ok: bool)
      modifies this`stores, this`version, this`pending, this`scheduled, this`batch
      ensures Leads(old(View()), es, View()) && Flushes(es) == 0
      ensures es == Answer(old(View()), ToCreate(name, value)) && batch.depth == old(batch.depth)
      ensures ok <==> batch.depth == 0 && (name in old(stores) || !refuses(name, None, value))
      ensures stores == if ok && name !in old(stores) then old(stores)[name := value] else old(stores)
    {
      es := [];
      if batch.depth > 0 {
        es := Refuse();
        return es, false;
      }
      ok := name in stores || !refuses(name, None, value);
      if name !in stores && ok {
        es := [CreateLeaf(name, value)];
        LeadsOne(View(), CreateLeaf(name, value));
        AddStore(name, value);
      }
    }

    // -------------------------------------------------------------- subscriptions and registrations

    /** subscribeStore with a listener, and the function it returns. */
    method Listen(name: Name, id: nat) returns (ghost es: seq<Event>)
      modifies this`subs
      ensures Leads(old(View()), es, View()) && Flushes(es) == 0
      ensures es == Answer(old(View()), ToListen(name, id))
      ensures var was := if name in old(subs) then old(subs)[name] else [];
        subs == if User(id) in was then old(subs) else old(subs)[name := was + [User(id)]]
    {
      es := [Subscribe(name, id)];
      LeadsOne(View(), Subscribe(name, id));
      subs := AddUser(subs, name, id);
    }

    method StopListening(name: Name, id: nat) returns (ghost es: seq<Event>)
      modifies this`subs
      ensures Leads(old(View()), es, View()) && Flushes(es) == 0
      ensures es == Answer(old(View()), ToStopListening(name, id))
      ensures subs.Keys == old(subs).Keys + {name} && User(id) !in subs[name]
      ensures forall n | n in old(subs) && n != name :: subs[n] == old(subs)[n]
      ensures forall x | x != User(id) :: x in subs[name] <==> name in old(subs) && x in old(subs)[name]
    {
      es := [Unsubscribe(name, id)];
      LeadsOne(View(), Unsubscribe(name, id));
      subs := RemoveUser(subs, name, id);
    }

    /** deleteComputed. */
    method StopComputing(c: Name) returns (ghost es: seq<Event>)
      requires graph.Valid()
      modifies this`subs, this`misled, this`stranded, graph
      ensures graph.Valid() && Leads(old(View()), es, View()) && Flushes(es) == 0
      ensures es == Answer(old(View()), ToStopComputing(c)) && graph.entries == old(graph.entries) - {c}
    {
      es := [];
      if c in graph.entries {
        es := [DeleteComputed(c)];
        LeadsOne(View(), DeleteComputed(c));
        subs := RemoveComputed(subs, c);
        graph.UnregisterComputed(c);
        misled, stranded := misled - {c}, stranded - {c};
      }
    }

    /** One subscription for each dependency. */
    method SubscribeAll(deps: seq<Name>, sub: Sub)
      modifies this`subs
      ensures subs == AddSubs(old(subs), deps, sub)
    {
      assert deps[0..] == deps;
      for i := 0 to |deps|
        invariant AddSubs(subs, deps[i..], sub) == AddSubs(old(subs), deps, sub)
      {
        assert deps[i..][1..] == deps[i + 1..];
        subs := AddSub(subs, deps[i], sub);
      }
    }

    /** The store of a new computed: written if it exists, unless it refuses, and created otherwise. */
    method SettleInitial(c: Name, initial: Value)
      requires batch.depth == 0
      modifies this`stores, this`version, this`pending, this`scheduled
      ensures View() == if c !in old(stores) then CreateStore(old(View()), c, initial)
                        else if Refused(old(View()), c, initial) then old(View())
                        else Committed(old(View()), c, initial, old(View()).lastOutput)
    {
      if c !in stores {
        AddStore(c, initial);
      } else {
        ReplaceOutput(c, initial);
      }
    }

    /** The rest of createComputed, once `c` is registered in the state `s`, outside a batch ... */
    method Establish(c: Name, entry: Entry, initial: Value, ghost s: State)
      requires graph.Valid() && c in graph.entries && c !in s.entries && batch.depth == 0
      requires View() == s.(entries := s.entries[c := entry]) && initial == RunCompute(entry, c, s.stores)
      modifies this`stores, this`version, this`subs, this`pending, this`scheduled, this`misled, this`stranded
      modifies graph`lastOutput
      ensures graph.Valid() && View() == CreateComputedStep(s, c, entry)
    {
      graph.NoteOutput(c, initial);
      SettleInitial(c, initial);
      ghost var settled := View();
      SubscribeAll(entry.deps, Recompute(c, entry));
      misled, stranded := misled - {c}, stranded - {c};
      CreatedInParts(s, c, entry, settled, View());
    }

    /** ... and inside one. */
    method EstablishStaged(c: Name, entry: Entry, initial: Value, ghost s: State)
      requires graph.Valid() && c in graph.entries && c !in s.entries && batch.depth > 0
      requires View() == s.(entries := s.entries[c := entry]) && initial == RunCompute(entry, c, Seen(s))
      modifies this`batch, this`subs, this`misled, this`stranded, graph`lastOutput
      ensures graph.Valid() && View() == CreateInBatch(s, c, entry)
    {
      StageUnlessRefused(c, initial);
      SubscribeAll(entry.deps, Recompute(c, entry));
      misled, stranded := misled - {c}, stranded - {c};
    }

    method Withdraw(c: Name, ghost s: State)
      requires graph.Valid() && c !in s.entries && c in graph.entries
      requires View() == s.(entries := graph.entries) && graph.entries - {c} == s.entries
      requires c !in graph.lastOutput
      modifies graph
      ensures graph.Valid() && View() == s
    {
      graph.UnregisterComputed(c);
    }

    /** Can the store of a new computed be had? */
    function Storable(c: Name, entry: Entry): bool
      reads this`stores, this`batch
    {
      c in stores || (batch.depth == 0 && !refuses(c, None, RunCompute(entry, c, stores)))
    }

    /** The store of the new registration cannot be had, or the rest of createComputed follows. */
    method EstablishOrWithdraw(c: Name, entry: Entry, ghost s: State) returns (kept: bool)
      requires graph.Valid() && c in graph.entries && c !in s.entries && c !in graph.lastOutput
      requires View() == s.(entries := s.entries[c := entry])
      modifies this`stores, this`version, this`subs, this`pending, this`scheduled, this`misled, this`stranded
      modifies this`batch, graph
      ensures graph.Valid() && kept == old(Storable(c, entry))
      ensures View() == if !kept then s else if InBatch(s) then CreateInBatch(s, c, entry)
                        else CreateComputedStep(s, c, entry)
    {
      kept := Storable(c, entry);
      if !kept {
        assert graph.entries - {c} == s.entries;
        Withdraw(c, s);
      } else if batch.depth > 0 {
        EstablishStaged(c, entry, RunCompute(entry, c, Look()), s);
      } else {
        Establish(c, entry, RunCompute(entry, c, stores), s);
      }
    }

    /** createComputed on a name that is not registered: a cycle, or a store that cannot be had, leaves
        no registration. */
    method Register(c: Name, entry: Entry) returns (registered: bool, acyclic: bool)
      requires graph.Valid() && c !in graph.entries
      modifies this`stores, this`version, this`subs, this`pending, this`scheduled, this`misled, this`stranded
      modifies this`batch, graph
      ensures graph.Valid()
      ensures acyclic <==> Acyclic(old(graph.entries)[c := entry])
      ensures registered <==> acyclic && old(Storable(c, entry))
      ensures graph.entries == if registered then old(graph.entries)[c := entry] else old(graph.entries)
      ensures batch.depth == old(batch.depth)
      ensures View() == if !registered then old(View()) else if InBatch(old(View())) then
                          CreateInBatch(old(View()), c, entry) else CreateComputedStep(old(View()), c, entry)
    {
      ghost var s := View();
      registered := false;
      acyclic := graph.RegisterComputed(c, entry);
      if acyclic {
        assert graph.lastOutput == s.lastOutput;
        registered := EstablishOrWithdraw(c, entry, s);
      }
    }

    /** createComputed: without a name or a dependency nothing happens; else an old registration is
        cleaned up first, even where a dependency has no name and no new one follows. A store that a
        batch keeps from being created fails the batch. */
    method Compute(c: Name, entry: Entry) returns (registered: bool, ghost es: seq<Event>)
      requires graph.Valid()
      modifies this`stores, this`version, this`subs, this`pending, this`scheduled, this`misled, this`stranded
      modifies this`batch, graph
      ensures graph.Valid() && Leads(old(View()), es, View()) && Flushes(es) == 0
      ensures es == Answer(old(View()), ToCompute(c, entry)) && batch.depth == old(batch.depth)
      ensures c == [] || entry.deps == [] ==> !registered && graph.entries == old(graph.entries)
      ensures c != [] && entry.deps != [] ==>
        && graph.entries == (if registered then (old(graph.entries) - {c})[c := entry] else old(graph.entries) - {c})
        && (registered <==>
              [] !in entry.deps && Acyclic((old(graph.entries) - {c})[c := entry]) && old(Storable(c, entry)))
    {
      hide CreateComputedStep, CreateInBatch, Acyclic, AnyReaches;
      registered, es := false, [];
      if c == [] || entry.deps == [] {
        return;
      }
      es := StopComputing(c);
      if [] in entry.deps {
        return;
      }
      ghost var start, s := old(View()), View();
      RefusedForCycle(s.entries, c, entry);
      var acyclic;
      registered, acyclic := Register(c, entry);
      if registered {
        LeadsOne(s, CreateComputed(c, entry));
        LeadsConcat(start, es, s, [CreateComputed(c, entry)], View());
        es := es + [CreateComputed(c, entry)];
      } else if acyclic {
        ghost var refusal := Refuse();
        LeadsConcat(start, es, s, refusal, View());
        es := es + refusal;
      }
    }

    // -------------------------------------------------------------- batches

    /** beginTransaction and the depth counter. */
    method OpenBatch()
      modifies this`batch
      ensures View() == Next(old(View()), BeginBatch)
    {
      batch := batch.(depth := batch.depth + 1);
    }

    /** The loop over what is to be committed. */
    method CommitAll(done: seq<Staged>)
      modifies this`stores, this`version, this`pending
      ensures stores == Overlay(old(stores), done) && version == Bumped(old(version), done)
      ensures Elements(pending) == Elements(old(pending)) + NamesOf(done)
    {
      for i := 0 to |done|
        invariant stores == Overlay(old(stores), done[..i]) && version == Bumped(old(version), done[..i])
        invariant Elements(pending) == Elements(old(pending)) + NamesOf(done[..i])
      {
        assert done[..i + 1][..i] == done[..i] && done[..i + 1] == done[..i] + [done[i]];
        StagedNames(done[..i], done[i]);
        version := Bump(version, done[i].name);
        stores := stores[done[i].name := done[i].value];
        AddPending(done[i].name);
      }
      assert done[..|done|] == done;
    }

    /** The end of the outermost batch: commit or drop, and a flush if stores are pending. */
    method EmptyBatch(done: seq<Staged>)
      requires batch.depth == 1
      modifies this`stores, this`version, this`pending, this`scheduled, this`batch
      ensures View() == Emptied(old(View()), done)
    {
      CommitAll(done);
      ElementsEmpty(pending);
      batch := NO_BATCH;
      scheduled := scheduled || |pending| > 0;
    }

    /** endTransaction and the rest of setStoreBatch: `ok` says that the body returned, and that no
        commit failed. */
    method CloseBatch(ok: bool)
      requires batch.depth > 0
      modifies this`stores, this`version, this`pending, this`scheduled, this`batch
      modifies this`misled, this`stranded
      ensures View() == EndStep(old(View()), ok) && batch.depth == old(batch.depth) - 1
    {
      if batch.depth > 1 {
        batch := batch.(depth := batch.depth - 1, failed := batch.failed || !ok);
        return;
      }
      ghost var s := View();
      var done := if ok && !batch.failed then batch.commits else [];
      EmptyBatch(done);
      ghost var after := Rejudged(View(), s.batch.touched, done);
      misled, stranded := after.misled, after.stranded;
    }

    // -------------------------------------------------------------- requests

    /** Whatever a listener asks for. */
    method Perform(r: Request) returns (ghost es: seq<Event>)
      requires Sound()
      modifies this`stores, this`version, this`subs, this`pending, this`scheduled, this`guard, this`misled
      modifies this`stranded, this`batch, graph
      ensures Sound() && Leads(old(View()), es, View()) && Flushes(es) == 0 && batch.depth == old(batch.depth)
      ensures es == Answer(old(View()), r)
      decreases r, 1
    {
      ghost var before := View();
      match r {
        case ToWrite(name, value) =>
          var ok;
          es, ok := WriteUser(name, value);
        case ToCreate(name, value) =>
          var ok;
          es, ok := CreateLeafStore(name, value);
        case ToCompute(name, entry) =>
          var registered;
          registered, es := Compute(name, entry);
        case ToStopComputing(name) => es := StopComputing(name);
        case ToInvalidate(name) => es := InvalidateComputed(name);
        case ToListen(name, id) => es := Listen(name, id);
        case ToStopListening(name, id) => es := StopListening(name, id);
        case ToBatch(body, ok) => es := SetStoreBatch(body, ok);
      }
      RunKeeps(before, es);
    }

    /** setStoreBatch with what its body asks for. */
    method SetStoreBatch(body: seq<Request>, ok: bool) returns (ghost es: seq<Event>)
      requires Sound()
      modifies this`stores, this`version, this`subs, this`pending, this`scheduled, this`guard, this`misled
      modifies this`stranded, this`batch, graph
      ensures Sound() && Leads(old(View()), es, View()) && Flushes(es) == 0 && batch.depth == old(batch.depth)
      ensures es == Answer(old(View()), ToBatch(body, ok))
      decreases body, 1
    {
      hide Inv, Answer, Answers, EndStep;
      ghost var start := View();
      LeadsOne(start, BeginBatch);
      StepKeeps(start, BeginBatch);
      OpenBatch();
      ghost var begun := View();
      ghost var inner := PerformAll(body);
      ghost var done := View();
      LeadsOne(done, EndBatch(ok));
      StepKeeps(done, EndBatch(ok));
      CloseBatch(ok);
      LeadsConcat3(start, [BeginBatch], begun, inner, done, [EndBatch(ok)], View());
      es := [BeginBatch] + inner + [EndBatch(ok)];
      BatchAnswer(start, inner, body, ok);
    }

    method PerformAll(requests: seq<Request>) returns (ghost es: seq<Event>)
      requires Sound()
      modifies this`stores, this`version, this`subs, this`pending, this`scheduled, this`guard, this`misled
      modifies this`stranded, this`batch, graph
      ensures Sound() && Leads(old(View()), es, View()) && Flushes(es) == 0 && batch.depth == old(batch.depth)
      ensures es == Answers(old(View()), requests)
      decreases requests, 0
    {
      es := [];
      ghost var start := View();
      for i := 0 to |requests|
        invariant Sound() && batch.depth == old(batch.depth)
        invariant Leads(start, es, View()) && Flushes(es) == 0 && es == Answers(start, requests[..i])
      {
        assert requests[..i + 1][..i] == requests[..i];
        ghost var before := View();
        ghost var more := Perform(requests[i]);
        LeadsConcat(start, es, before, more, View());
        es := es + more;
      }
      assert requests[..|requests|] == requests;
    }

    // -------------------------------------------------------------- the plan

    /** The first half of buildFlushPlan: pending priority stores, then the other pending stores in
        order of notification; the pending set is emptied. */
    method OrderPending(priority: seq<Name>) returns (names: seq<Name>)
      modifies this`pending
      ensures names == Named(old(pending), priority) && pending == []
    {
      var pendingSet, prioritySet := Elements(pending), Elements(priority);
      names := [];
      for i := 0 to |priority|
        invariant names == Keep(priority[..i], pendingSet)
      {
        assert priority[..i + 1][..i] == priority[..i];
        if priority[i] in pendingSet {
          names := names + [priority[i]];
        }
      }
      assert priority[..|priority|] == priority;
      for i := 0 to |pending|
        invariant names == Keep(priority, pendingSet) + Exclude(pending[..i], prioritySet)
      {
        assert pending[..i + 1][..i] == pending[..i];
        if pending[i] !in prioritySet {
          names := names + [pending[i]];
        }
      }
      assert pending[..|pending|] == pending;
      pending := [];
    }

    /** Its second half: computeds in their order, unless named already. */
    method AppendComputeds(named: seq<Name>, order: seq<Name>) returns (names: seq<Name>)
      requires NoDuplicates(order)
      ensures names == named + Exclude(order, Elements(named))
    {
      names := named;
      for i := 0 to |order|
        invariant names == named + Exclude(order[..i], Elements(named))
        invariant forall n :: n in names ==> n in named || n in order[..i]
      {
        assert order[..i + 1] == order[..i] + [order[i]];
        assert order[..i + 1][..i] == order[..i];
        if order[i] !in names {
          names := names + [order[i]];
        }
      }
      assert order[..|order|] == order;
    }

    /** buildFlushPlan: names every pending store, so that none is forgotten. */
    method BuildFlushPlan(priority: seq<Name>) returns (plan: seq<Name>)
      requires graph.Valid()
      modifies this`pending, graph`cache, graph`cacheVersion
      ensures graph.Valid() && pending == []
      ensures plan == FlushPlan(graph.entries, old(pending), priority)
      ensures Elements(old(pending)) <= Elements(plan)
    {
      NamedElements(pending, priority);
      var named := OrderPending(priority);
      var order := graph.GetTopoOrder(named);
      ghost var rank :| Ranked(graph.entries, rank);
      OrderIsTopological(graph.entries, rank, Affected(graph.entries, Elements(named)));
      plan := AppendComputeds(named, order);
      ElementsConcat(named, Exclude(order, Elements(named)));
    }

    // -------------------------------------------------------------- inline delivery

    /** A listener is called with its snapshot; whatever it asks for happens at once. */
    method CallListener(id: nat, name: Name, snapshot: Value) returns (ghost es: seq<Event>)
      requires Sound() && batch.depth == 0
      modifies this`stores, this`version, this`subs, this`pending, this`scheduled, this`guard, this`misled
      modifies this`stranded, this`batch, graph
      modifies this`clock, this`calls
      ensures Sound() && batch.depth == 0 && Leads(old(View()), es, View()) && Flushes(es) == 0
      ensures var asked := listener(old(clock), id, snapshot);
        && es == Answers(old(View()), asked)
        && calls == old(calls) + [ListenerCall(old(clock), id, name, snapshot, asked)]
      ensures clock == old(clock) + 1 && (Silent() ==> es == [])
    {
      var requests := listener(clock, id, snapshot);
      calls := calls + [ListenerCall(clock, id, name, snapshot, requests)];
      clock := clock + 1;
      es := PerformAll(requests);
    }

    /** One subscriber call of the store at the head of the queue. */
    method CallSubscriber(name: Name, sub: Sub, snapshot: Value) returns (ghost es: seq<Event>)
      requires Sound() && batch.depth == 0
      requires queue != [] && queue[0].begun && queue[0].todo != [] && queue[0].todo[0] == sub
      modifies this`stores, this`version, this`subs, this`pending, this`scheduled, this`guard, this`misled
      modifies this`stranded, this`batch, graph
      modifies this`queue, this`clock, this`calls
      ensures Sound() && batch.depth == 0 && Leads(old(View()), es, View()) && Flushes(es) == 0
      ensures queue == old(queue)[0 := old(queue)[0].(todo := old(queue)[0].todo[1..])]
      ensures es == CallEvents(old(View()), listener, old(clock), snapshot, sub)
      ensures calls == old(calls) + Hearing(listener, old(clock), name, snapshot, [sub])
      ensures clock == NextNumber(old(clock), sub)
      ensures Silent() ==> AllQuiet(es)
    {
      hide Answers, Hearing, CallEvents, RecomputeStep;
      ghost var before, k := View(), clock;
      es := [Deliver(0)];
      LeadsOne(before, Deliver(0));
      StepKeeps(before, Deliver(0));
      queue := queue[0 := queue[0].(todo := queue[0].todo[1..])];
      ghost var called := View();
      assert called == Called(before, 0);
      ghost var asked := [];
      match sub {
        case Recompute(c, closure) => RecomputeAndFlush(c, closure);
        case User(id) =>
          asked := CallListener(id, name, snapshot);
          LeadsConcat(before, es, called, asked, View());
      }
      OneCall(before, listener, k, name, snapshot, sub, asked);
      es := es + asked;
    }

    /** The turn of the head store begins: its version and its subscribers are read. */
    method OpenHead(name: Name) returns (storeVersion: nat, subsArray: seq<Sub>, ghost es: seq<Event>)
      requires queue != [] && queue[0].name == name && !queue[0].begun && batch.depth == 0
      modifies this`queue
      ensures queue == [Task(name, true, storeVersion, subsArray)] + old(queue)[1..]
      ensures es == [Open(0)] && subsArray == SubsOf(subs, name)
      ensures Leads(old(View()), es, View()) && Flushes(es) == 0 && AllQuiet(es)
    {
      storeVersion := if name in version then version[name] else 0;
      subsArray := SubsOf(subs, name);
      es := [Open(0)];
      LeadsOne(View(), Open(0));
      queue := queue[0 := Task(name, true, storeVersion, subsArray)];
    }

    /** After the subscriber loop: pending again if the version moved. */
    method RetireHead(name: Name, storeVersion: nat) returns (ghost es: seq<Event>)
      requires queue != [] && queue[0] == Task(name, true, storeVersion, []) && batch.depth == 0
      modifies this`pending, this`queue
      ensures queue == old(queue)[1..]
      ensures es == [Retire(0)]
      ensures Leads(old(View()), es, View()) && Flushes(es) == 0 && AllQuiet(es)
    {
      es := [Retire(0)];
      LeadsOne(View(), Retire(0));
      if (if name in version then version[name] else 0) != storeVersion {
        AddPending(name);
      }
      queue := queue[1..];
      assert Remove(old(queue), 0) == queue;
    }

    /** The subscriber loop of one store. */
    method CallSubscribers(name: Name, storeVersion: nat, subsArray: seq<Sub>, snapshot: Value)
      returns (ghost es: seq<Event>)
      requires Sound() && batch.depth == 0
      requires queue != [] && queue[0] == Task(name, true, storeVersion, subsArray)
      modifies this`stores, this`version, this`subs, this`pending, this`scheduled, this`guard, this`misled
      modifies this`stranded, this`batch, graph
      modifies this`queue, this`clock, this`calls
      ensures Sound() && batch.depth == 0 && Leads(old(View()), es, View()) && Flushes(es) == 0
      ensures queue == [Task(name, true, storeVersion, [])] + old(queue)[1..]
      ensures es == CallsEvents(old(View()), listener, old(clock), snapshot, subsArray)
      ensures calls == old(calls) + Hearing(listener, old(clock), name, snapshot, subsArray)
      ensures clock == old(clock) + |Hearing(listener, old(clock), name, snapshot, subsArray)|
      ensures Silent() ==> AllQuiet(es)
    {
      hide Inv, Leads, Flushes, CallEvents, CallsEvents, Hearing;
      ghost var start := View();
      LeadsNone(start);
      es := [];
      assert subsArray[0..] == subsArray;
      for j := 0 to |subsArray|
        invariant Sound() && batch.depth == 0 && Leads(start, es, View()) && Flushes(es) == 0
        invariant queue == [Task(name, true, storeVersion, subsArray[j..])] + old(queue)[1..]
        invariant es + CallsEvents(View(), listener, clock, snapshot, subsArray[j..])
               == CallsEvents(start, listener, old(clock), snapshot, subsArray)
        invariant calls + Hearing(listener, clock, name, snapshot, subsArray[j..])
               == old(calls) + Hearing(listener, old(clock), name, snapshot, subsArray)
        invariant clock + |Hearing(listener, clock, name, snapshot, subsArray[j..])|
               == old(clock) + |Hearing(listener, old(clock), name, snapshot, subsArray)|
        invariant Silent() ==> AllQuiet(es)
      {
        assert subsArray[j..][1..] == subsArray[j + 1..];
        ghost var before := View();
        ghost var k := clock;
        ghost var call := CallSubscriber(name, subsArray[j], snapshot);
        CallTaken(before, View(), call, listener, k, name, snapshot, subsArray[j..]);
        LeadsConcat(start, es, before, call, View());
        es := es + call;
      }
      assert subsArray[|subsArray|..] == [];
      NobodyLeft(View(), listener, clock, name, snapshot);
    }

    /** The inline loop body of deliverFlush for one store: snapshot, version and subscribers at the
        start, each of those subscribers once, and the store pending again if its version moved
        meanwhile. */
    method DeliverStore(name: Name) returns (ghost es: seq<Event>)
      requires Sound() && batch.depth == 0
      requires queue != [] && queue[0].name == name && !queue[0].begun
      modifies this`stores, this`version, this`subs, this`pending, this`scheduled, this`guard, this`misled
      modifies this`stranded, this`batch, graph
      modifies this`queue, this`clock, this`calls
      ensures Sound() && batch.depth == 0 && Leads(old(View()), es, View()) && Flushes(es) == 0
      ensures queue == old(queue)[1..]
      ensures es == TurnEvents(old(View()), listener, old(clock), name)
      ensures calls == old(calls) + TurnCalls(old(View()), listener, old(clock), name)
      ensures clock == old(clock) + |TurnCalls(old(View()), listener, old(clock), name)|
      ensures Silent() ==> AllQuiet(es)
    {
      hide Inv, Flushes, CallsEvents, Hearing, CanRun, Run;
      ghost var start := View();
      var storeVersion, subsArray;
      storeVersion, subsArray, es := OpenHead(name);
      RunKeeps(start, es);
      ghost var begun := View();
      ghost var calls := CallSubscribers(name, storeVersion, subsArray, Read(stores, name));
      ghost var called := View();
      ghost var last := RetireHead(name, storeVersion);
      RunKeeps(called, last);
      LeadsConcat3(start, es, begun, calls, called, last, View());
      es := es + calls + last;
    }

    /** The inline loop of deliverFlush over the plan. */
    method DeliverInline(plan: seq<Name>) returns (ghost es: seq<Event>)
      requires Sound() && batch.depth == 0 && queue == Waiting(plan)
      modifies this`stores, this`version, this`subs, this`pending, this`scheduled, this`guard, this`misled
      modifies this`stranded, this`batch, graph
      modifies this`queue, this`clock, this`calls
      ensures Sound() && batch.depth == 0 && Leads(old(View()), es, View()) && Flushes(es) == 0 && queue == []
      ensures es == PlanEvents(old(View()), listener, old(clock), plan)
      ensures calls == old(calls) + PlanCalls(old(View()), listener, old(clock), plan)
      ensures Silent() ==> AllQuiet(es)
    {
      hide Inv, Leads, Flushes, TurnEvents, TurnCalls, PlanEvents, PlanCalls;
      ghost var start := View();
      LeadsNone(start);
      es := [];
      assert plan[0..] == plan;
      for i := 0 to |plan|
        invariant Sound() && batch.depth == 0 && Leads(start, es, View()) && Flushes(es) == 0
        invariant queue == Waiting(plan[i..])
        invariant es + PlanEvents(View(), listener, clock, plan[i..]) == PlanEvents(start, listener, old(clock), plan)
        invariant calls + PlanCalls(View(), listener, clock, plan[i..])
               == old(calls) + PlanCalls(start, listener, old(clock), plan)
        invariant Silent() ==> AllQuiet(es)
      {
        assert plan[i..][1..] == plan[i + 1..] && plan[i..][0] == plan[i];
        ghost var before := View();
        ghost var k := clock;
        ghost var store := DeliverStore(plan[i]);
        TurnTaken(before, View(), store, listener, k, plan[i..]);
        LeadsConcat(start, es, before, store, View());
        es := es + store;
      }
      assert plan[|plan|..] == [];
      NoTurnLeft(View(), listener, clock);
    }

    method BeginFlush(priority: seq<Name>) returns (plan: seq<Name>, ghost es: seq<Event>)
      requires Sound() && !flushing && batch.depth == 0 && (scheduled || pending != [])
      modifies this`pending, this`queue, this`flushing, this`flushId, this`plans, graph`cache, graph`cacheVersion
      ensures Sound() && flushing && queue == Waiting(plan)
      ensures Leads(old(View()), es, View()) && Flushes(es) == 0 && AllQuiet(es)
      ensures es == [StartFlush(plan)]
      ensures plan == FlushPlan(graph.entries, old(pending), priority) && pending == []
      ensures Elements(old(pending)) <= Elements(plan) && plans == old(plans) + [plan]
    {
      ghost var start := View();
      ElementsEmpty(pending);
      plan := BuildFlushPlan(priority);
      plans := plans + [plan];
      es := StartFlushing(plan, start);
    }

    /** The plan is made and the pending set empty. */
    method StartFlushing(plan: seq<Name>, ghost start: State) returns (ghost es: seq<Event>)
      requires graph.Valid() && Inv(start) && Enabled(start, StartFlush(plan))
      requires View() == start.(pending := {}) && pending == []
      modifies this`queue, this`flushing, this`flushId
      ensures Sound() && flushing && queue == Waiting(plan)
      ensures Leads(start, es, View()) && Flushes(es) == 0 && AllQuiet(es)
      ensures es == [StartFlush(plan)]
    {
      es := [StartFlush(plan)];
      flushing := true;
      flushId := flushId + 1;
      queue := Waiting(plan);
      StartLeads(start, View(), plan);
    }

    /** The finish step: after an inline flush the loop, not the scheduler, takes the next pass. */
    method FinishDelivery(inline: bool) returns (ghost es: seq<Event>)
      requires Sound() && flushing && queue == [] && batch.depth == 0
      modifies this`flushing, this`scheduled
      ensures Sound() && !flushing && scheduled == (!inline && pending != [])
      ensures Leads(old(View()), es, View()) && Flushes(es) == 1 && AllQuiet(es)
      ensures es == [FinishFlush(inline)]
    {
      es := [FinishFlush(inline)];
      LeadsOne(View(), FinishFlush(inline));
      StepKeeps(View(), FinishFlush(inline));
      ElementsEmpty(pending);
      flushing := false;
      scheduled := !inline && |pending| > 0;
    }

    /** Delivery of the whole plan and the finish step. */
    method DeliverAndFinish(plan: seq<Name>, inline: bool) returns (ghost es: seq<Event>)
      requires Sound() && flushing && batch.depth == 0 && queue == Waiting(plan)
      modifies this`stores, this`version, this`subs, this`pending, this`scheduled, this`guard, this`misled
      modifies this`stranded, this`batch, graph
      modifies this`queue, this`clock, this`calls
      modifies this`flushing
      ensures Sound() && !flushing && batch.depth == 0 && scheduled == (!inline && pending != [])
      ensures Leads(old(View()), es, View()) && Flushes(es) == 1
      ensures es == PlanEvents(old(View()), listener, old(clock), plan) + [FinishFlush(inline)]
      ensures calls == old(calls) + PlanCalls(old(View()), listener, old(clock), plan)
      ensures Silent() ==> AllQuiet(es)
      ensures Silent() ==>
        forall n, id | n in plan && n !in old(graph.entries) && User(id) in SubsOf(old(subs), n) ::
          WasTold(PlanCalls(old(View()), listener, old(clock), plan), id, n, Read(old(stores), n))
    {
      hide Inv, Flushes, PlanEvents, PlanCalls;
      ghost var start := View();
      ghost var k := clock;
      ghost var delivery := DeliverInline(plan);
      ghost var delivered := View();
      ghost var ending := FinishDelivery(inline);
      es := delivery + ending;
      LeadsConcat(start, delivery, delivered, ending, View());
      if Silent() {
        forall n, id | n in plan && n !in start.entries && User(id) in SubsOf(start.subs, n)
          ensures WasTold(PlanCalls(start, listener, k, plan), id, n, Read(start.stores, n))
        {
          LeavesAreHeard(start, listener, k, plan, n, id);
        }
      }
    }

    /** flushRegistry with inline delivery, asked for inline or by the scheduler: one whole flush. */
    method FlushRegistry(priority: seq<Name>, inline: bool) returns (ghost es: seq<Event>)
      requires Sound() && !flushing && batch.depth == 0 && (scheduled || pending != [])
      modifies this`stores, this`version, this`subs, this`pending, this`scheduled, this`guard, this`misled
      modifies this`stranded, this`batch, graph
      modifies this`queue, this`clock, this`calls, this`plans
      modifies this`flushing, this`flushId
      ensures Sound() && !flushing && batch.depth == 0 && scheduled == (!inline && pending != [])
      ensures Leads(old(View()), es, View()) && Flushes(es) == 1
      ensures var plan := FlushPlan(old(graph.entries), old(pending), priority);
        var begun := After(old(View()), [StartFlush(plan)]);
        && es == [StartFlush(plan)] + PlanEvents(begun, listener, old(clock), plan) + [FinishFlush(inline)]
        && calls == old(calls) + PlanCalls(begun, listener, old(clock), plan) && plans == old(plans) + [plan]
      ensures PlannedSince(old(plans), plans, 1, priority)
      ensures Silent() ==> AllQuiet(es)
      ensures Silent() ==>
        forall n, id | n in old(pending) && n !in old(graph.entries) && User(id) in SubsOf(old(subs), n) ::
          WasTold(calls[|old(calls)|..], id, n, Read(old(stores), n))
    {
      hide Sound, Flushes, CanRun, Run, PlanEvents, PlanCalls, FlushPlan, SubsOf;
      ghost var start := View();
      var plan;
      ghost var opening;
      plan, opening := BeginFlush(priority);
      ghost var started, k := View(), clock;
      assert started.subs == start.subs && started.stores == start.stores && started.entries == start.entries;
      assert forall n | n in old(pending) :: n in Elements(old(pending));
      ghost var rest := DeliverAndFinish(plan, inline);
      es := opening + rest;
      LeadsConcat(start, opening, started, rest, View());
      assert calls[|old(calls)|..] == PlanCalls(started, listener, k, plan);
    }

    /** The loop of flushPendingNotificationsInline: passes until nothing is scheduled or pending, or
        until the limit. */
    method FlushPasses(priority: seq<Name>, ghost rank: map<Name, nat>, ghost longest: nat)
      returns (passes: nat, ghost es: seq<Event>)
      requires Sound() && !flushing && batch.depth == 0
      requires LongestChain(graph.entries, rank, longest)
      modifies this`stores, this`version, this`subs, this`pending, this`scheduled, this`guard, this`misled
      modifies this`stranded, this`batch, graph
      modifies this`queue, this`clock, this`calls, this`plans
      modifies this`flushing, this`flushId
      ensures Sound() && !flushing && batch.depth == 0
      ensures Leads(old(View()), es, View()) && Flushes(es) == passes
      ensures PlannedSince(old(plans), plans, passes, priority) && old(calls) <= calls
      ensures passes <= PASS_LIMIT ==> pending == [] && !scheduled
      ensures Silent() ==> AllQuiet(es)
      ensures Silent() && old(Faithful(View())) ==> passes <= longest + 1
    {
      hide PlanEvents, PlanCalls, FlushPlan, PlannedSince, After, LongestChain;
      passes, es := 0, [];
      NothingPlanned(plans, priority);
      ghost var start := View();
      ghost var settles := Silent() && Faithful(start);
      while (scheduled || pending != []) && !flushing
        invariant Sound() && !flushing && batch.depth == 0 && passes <= PASS_LIMIT
        invariant Leads(start, es, View()) && Flushes(es) == passes
        invariant PlannedSince(old(plans), plans, passes, priority) && old(calls) <= calls
        invariant Silent() ==> AllQuiet(es)
        invariant settles ==> passes <= longest + 1
        invariant passes > 0 ==> !scheduled
        decreases PASS_LIMIT - passes
      {
        ElementsEmpty(pending);
        if settles {
          StillPending(start, rank, longest, es, View());
        }
        ghost var before := View();
        ghost var made := plans;
        ghost var flush := FlushRegistry(priority, true);
        PlannedOnce(old(plans), made, plans, passes, priority);
        LeadsConcat(start, es, before, flush, View());
        es := es + flush;
        passes := passes + 1;
        if passes > PASS_LIMIT {
          break;
        }
      }
    }

    /** flushPendingNotificationsInline. When it returns normally outside a batch, every computed is
        fresh that is neither misled, stranded nor withheld, whatever listeners asked for; with silent
        listeners, and nobody misled or stranded before, it needs at most one pass more than the longest
        dependency chain and converges on the leaves as they were. */
    method FlushPending(priority: seq<Name>, ghost rank: map<Name, nat>, ghost longest: nat)
      returns (threw: bool, passes: nat)
      requires Sound() && !flushing
      requires LongestChain(graph.entries, rank, longest)
      modifies this`stores, this`version, this`subs, this`pending, this`scheduled, this`guard, this`misled
      modifies this`stranded, this`batch, graph
      modifies this`queue, this`clock, this`calls, this`plans
      modifies this`flushing, this`flushId
      ensures Sound() && !flushing
      ensures old(batch.depth) > 0 ==> unchanged(this) && unchanged(graph) && passes == 0
      ensures PlannedSince(old(plans), plans, passes, priority) && old(calls) <= calls
      ensures threw <==> passes > 10000
      ensures batch.depth == 0 && !threw ==> pending == [] && !scheduled && Consistent(View())
      ensures Silent() && old(Faithful(View())) ==> passes <= longest + 1
      ensures batch.depth == 0 && !threw && Silent() && old(Faithful(View())) ==>
        graph.entries == old(graph.entries) && Converged(View(), rank, old(stores))
    {
      passes, threw := 0, false;
      NothingPlanned(plans, priority);
      if batch.depth > 0 {
        return;
      }
      ghost var start := View();
      ghost var es;
      passes, es := FlushPasses(priority, rank, longest);
      threw := passes > PASS_LIMIT;
      if !threw {
        ElementsEmpty(pending);
        ConsistentAtRest(start, es);
        if Silent() && Faithful(start) {
          QuietConverged(start, rank, es, View());
        }
      }
    }

    // -------------------------------------------------------------- hydration

    ghost function HydrationRules(): Rules
      reads graph`lastOutput
    {
      Rules(graph.lastOutput, refuses, promise)
    }

    /** The last outputs are `was` but for that of `c`. */
    ghost predicate LastOutputsBut(c: Name, was: map<Name, Value>)
      reads graph`lastOutput
    {
      forall n | n != c :: (n in graph.lastOutput <==> n in was)
                           && (n in graph.lastOutput ==> graph.lastOutput[n] == was[n])
    }

    /** An output of the pass: noted, and written unless it is the last one, the value held, or refused. */
    method RunAgain(c: Name, next: Value)
      requires graph.Valid() && c in graph.entries && c in stores && batch.depth == 0
      modifies this`stores, this`version, this`pending, this`scheduled, this`misled, this`stranded, graph`lastOutput
      ensures graph.Valid() && View() == Settle(Told(old(View()), c, next, false), c, next)
      ensures stores == old(stores)[c := LeftWith(old(View()), c, next)]
      ensures LastOutputsBut(c, old(graph.lastOutput))
    {
      SettledStores(View(), c, next);
      Judge(c, next);
      SettleOutput(c, next);
    }

    lemma SettledStores(s: State, c: Name, next: Value)
      requires c in s.entries && c in s.stores
      ensures var t := Settle(Told(s, c, next, false), c, next);
        && t.stores == s.stores[c := LeftWith(s, c, next)]
        && forall n | n != c :: (n in t.lastOutput <==> n in s.lastOutput)
             && (n in t.lastOutput ==> t.lastOutput[n] == s.lastOutput[n])
    {
      ToldFrame(s, c, next, false);
    }

    /** One computed of the pass: a throw, a promise, the last output again, and a refused output leave
        its store alone. */
    method RecomputeHydrated(c: Name) returns (ghost es: seq<Event>)
      requires graph.Valid() && c in graph.entries && c in stores && batch.depth == 0
      modifies this`stores, this`version, this`pending, this`scheduled, this`misled, this`stranded, graph`lastOutput
      ensures graph.Valid() && Leads(old(View()), es, View()) && Flushes(es) == 0 && AllHydrating(es)
      ensures stores == old(stores)[c := RunCompute(
                Unless(graph.entries[c], old(HydrationRules()), c, Read(old(stores), c)), c, old(stores))]
      ensures LastOutputsBut(c, old(graph.lastOutput))
    {
      var entry := graph.entries[c];
      es := [];
      match entry.compute(Args(entry.deps, stores))
      case None =>
      case Some(next) =>
        if !promise(next) {
          es := [Rerun(c)];
          LeadsOne(View(), Rerun(c));
          RunAgain(c, next);
        }
    }

    /** The recompute loop of hydrateStores over a topological order. */
    method RecomputeInOrder(order: seq<Name>, ghost sources: set<Name>) returns (ghost es: seq<Event>)
      requires graph.Valid() && batch.depth == 0 && forall c | c in graph.entries :: c in stores
      requires Topological(graph.entries, Affected(graph.entries, sources), order)
      modifies this`stores, this`version, this`pending, this`scheduled, this`misled, this`stranded, graph`lastOutput
      ensures graph.Valid() && Leads(old(View()), es, View()) && Flushes(es) == 0 && AllHydrating(es)
      ensures Evaluated(Effective(graph.entries, old(HydrationRules()), old(stores)), old(stores), stores, order)
    {
      ghost var rules, was, start := HydrationRules(), stores, View();
      ghost var eff := Effective(graph.entries, rules, was);
      es := [];
      for i := 0 to |order|
        invariant graph.Valid() && forall c | c in graph.entries :: c in stores
        invariant Leads(start, es, View()) && Flushes(es) == 0 && AllHydrating(es)
        invariant Evaluated(eff, was, stores, order[..i])
        invariant forall n | n !in order[..i] :: (n in graph.lastOutput <==> n in rules.lastOutput)
                    && (n in graph.lastOutput ==> graph.lastOutput[n] == rules.lastOutput[n])
      {
        var c := order[i];
        assert order[..i + 1] == order[..i] + [c];
        DependenciesFirst(graph.entries, sources, order, i);
        SameUnless(graph.entries[c], HydrationRules(), rules, c, Read(was, c), stores);
        EvaluatedStep(eff, was, stores, order[..i], c);
        ghost var before := View();
        ghost var one := RecomputeHydrated(c);
        LeadsConcat(start, es, before, one, View());
        es := es + one;
      }
      assert order[..|order|] == order;
    }

    /** The pass of hydrateStores, once the sources are written: recomputing in topological order gives
        every affected computed its evaluation on the hydrated snapshot, where an output that is the last
        output already, refused, or a promise leaves the store's value in place of the evaluation; every
        other store is left alone. A computed that depends on nothing stuck gets its plain evaluation,
        even where computeds upstream were stale before. */
    method RecomputeAfterHydration(sources: seq<Name>) returns (ghost es: seq<Event>)
      requires graph.Valid() && batch.depth == 0 && forall c | c in graph.entries :: c in stores
      modifies this`stores, this`version, this`pending, this`scheduled, this`misled, this`stranded
      modifies graph`lastOutput, graph`cache, graph`cacheVersion
      ensures graph.Valid() && graph.entries == old(graph.entries)
      ensures Leads(old(View()), es, View()) && Flushes(es) == 0 && AllHydrating(es)
      ensures forall n | n !in Affected(graph.entries, Elements(sources)) :: Read(stores, n) == Read(old(stores), n)
      ensures var eff := Effective(graph.entries, old(HydrationRules()), old(stores));
        forall rank, c | Ranked(eff, rank) && c in Affected(graph.entries, Elements(sources)) ::
          Read(stores, c) == Eval(eff, rank, old(stores), c)
      ensures forall rank, c | Ranked(graph.entries, rank) && c in Affected(graph.entries, Elements(sources))
                && (forall m | m in graph.entries && Reaches(graph.entries, c, m) ::
                      !Stuck(graph.entries, rank, old(stores), old(HydrationRules()), m)) ::
                Read(stores, c) == Eval(graph.entries, rank, old(stores), c)
    {
      ghost var was, rules, entries := stores, HydrationRules(), graph.entries;
      ghost var rank :| Ranked(graph.entries, rank);
      OrderIsTopological(graph.entries, rank, Affected(graph.entries, Elements(sources)));
      var order := graph.GetTopoOrder(sources);
      assert forall n :: n in order <==> n in Elements(order);
      es := RecomputeInOrder(order, Elements(sources));
      forall rank, c | Ranked(entries, rank) && c in Affected(entries, Elements(sources))
          && (forall m | m in entries && Reaches(entries, c, m) :: !Stuck(entries, rank, was, rules, m))
        ensures Read(stores, c) == Eval(entries, rank, was, c)
      {
        SameDeps(entries, rank, rules, was);
        RightUnlessSomeStuck(entries, rank, was, rules, c);
      }
    }

    /** One store of a snapshot: written if it exists, else created; what is refused is left. */
    method WriteEntry(entry: Staged) returns (ghost es: seq<Event>, ok: bool)
      requires Ready() && batch.depth == 0
      modifies this`stores, this`version, this`pending, this`scheduled, this`misled, this`stranded
      modifies this`batch
      ensures Leads(old(View()), es, View()) && Flushes(es) == 0 && batch.depth == 0 && AllHydrating(es)
      ensures es == Answer(old(View()), if entry.name in old(stores) then ToWrite(entry.name, entry.value)
                                        else ToCreate(entry.name, entry.value))
      ensures ok <==> Takes(refuses, old(stores), entry)
      ensures stores == if ok then old(stores)[entry.name := entry.value] else old(stores)
    {
      if entry.name in stores {
        es, ok := WriteUser(entry.name, entry.value);
      } else {
        es, ok := CreateLeafStore(entry.name, entry.value);
      }
    }

    /** The stores of a snapshot: what is taken is written, in order, and nothing else moves. */
    method WriteSnapshot(snapshot: seq<Staged>) returns (sources: seq<Name>, ghost es: seq<Event>)
      requires Sound() && batch.depth == 0 && NamesOnce(snapshot)
      modifies this`stores, this`version, this`pending, this`scheduled, this`misled, this`stranded
      modifies this`batch
      ensures Sound() && batch.depth == 0 && Leads(old(View()), es, View()) && Flushes(es) == 0 && AllHydrating(es)
      ensures sources == NamesIn(Taken(refuses, old(stores), snapshot))
      ensures stores == Overlay(old(stores), Taken(refuses, old(stores), snapshot))
      ensures forall w | w in snapshot && Takes(refuses, old(stores), w) ::
                w.name in sources && w.name in stores && stores[w.name] == w.value
      ensures forall n | n !in sources :: (n in stores <==> n in old(stores)) && Read(stores, n) == Read(old(stores), n)
    {
      sources, es := [], [];
      ghost var start := View();
      HydratedStores(refuses, stores, snapshot);
      for i := 0 to |snapshot|
        invariant Sound() && batch.depth == 0 && Leads(start, es, View()) && Flushes(es) == 0 && AllHydrating(es)
        invariant sources == NamesIn(Taken(refuses, old(stores), snapshot[..i]))
        invariant stores == Overlay(old(stores), Taken(refuses, old(stores), snapshot[..i]))
      {
        NextEntry(refuses, old(stores), snapshot, i);
        ghost var before := View();
        ghost var one;
        var ok;
        one, ok := WriteEntry(snapshot[i]);
        if ok {
          sources := sources + [snapshot[i].name];
        }
        LeadsConcat(start, es, before, one, View());
        RunKeeps(before, one);
        es := es + one;
      }
      assert snapshot[..|snapshot|] == snapshot;
    }

    /** hydrateStores of a snapshot that is trusted or not. Inside a batch it fails the batch, and a snapshot
        that is not trusted does nothing. Else it is a run of the protocol like any other that writes the
        snapshot and recomputes: each store that takes its value holds it, unless it is a computed's that is
        recomputed; each affected computed that depends on nothing stuck holds its evaluation on the stores
        as hydrated; and all other stores are as they were. */
    method Hydrate(snapshot: seq<Staged>, trusted: bool) returns (ghost es: seq<Event>)
      requires Sound() && NamesOnce(snapshot)
      modifies this`stores, this`version, this`pending, this`scheduled, this`misled, this`stranded
      modifies this`batch, graph`lastOutput, graph`cache, graph`cacheVersion
      ensures Sound() && Leads(old(View()), es, View()) && Flushes(es) == 0
      ensures old(batch.depth) > 0 ==> es == [FailBatch]
      ensures old(batch.depth) == 0 && !trusted ==> es == []
      ensures old(batch.depth) == 0 && trusted ==>
        var taken := Taken(refuses, old(stores), snapshot);
        var hydrated, affected := Overlay(old(stores), taken), Affected(graph.entries, Elements(NamesIn(taken)));
        && AllHydrating(es) && graph.entries == old(graph.entries)
        && (forall n | n !in affected :: Read(stores, n) == Read(hydrated, n))
        && (forall w | w in snapshot && Takes(refuses, old(stores), w) && w.name !in affected ::
              Read(stores, w.name) == w.value)
        && (forall rank, c | Ranked(graph.entries, rank) && c in affected
                && (forall m | m in graph.entries && Reaches(graph.entries, c, m) ::
                      !Stuck(graph.entries, rank, hydrated, old(HydrationRules()), m)) ::
              Read(stores, c) == Eval(graph.entries, rank, hydrated, c))
    {
      ghost var start := View();
      es := [];
      if batch.depth > 0 {
        es := Refuse();
        RunKeeps(start, es);
        return;
      }
      if trusted {
        var sources;
        sources, es := WriteSnapshot(snapshot);
        NothingAffected(graph.entries);
        if sources != [] {
          ghost var written := View();
          ghost var pass := RecomputeAfterHydration(sources);
          RunKeeps(written, pass);
          LeadsConcat(start, es, written, pass, View());
          es := es + pass;
        }
      }
    }
  }
}
