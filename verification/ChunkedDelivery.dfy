/** Chunked delivery of one flush: a round-robin queue of per-store tasks, in slices, with a priority
    phase first (src/notification/delivery.ts:144-333). Between chunks, and inside every subscriber
    call, anyone may write stores, subscribe and unsubscribe. */
module ChunkedDelivery {
  import opened Names
  import opened Lists
  import opened Values
  import opened Wrappers
  import opened Computeds
  import opened ChunkedTasks

  ghost predicate Called(log: Log, snapshots: map<Name, Value>, name: Name, sub: Sub) {
    name in snapshots && Delivery(name, sub, snapshots[name]) in log
  }

  predicate Extends(now: map<Name, Served>, before: map<Name, Served>, name: Name) {
    name !in before && (now == before || (name in now && now == before[name := now[name]]))
  }

  predicate Grown(now: map<Name, Served>, before: map<Name, Served>) {
    forall n | n in before :: n in now && now[n] == before[n]
  }

  ghost predicate AllPlaced(names: set<Name>, tasks: seq<Task>, completed: set<Name>) {
    forall n | n in names :: HasTask(tasks, n) || n in completed
  }

  lemma PlacedAfterTurn(names: set<Name>, task: Task, rest: seq<Task>, r: seq<Task>, t: Task, after: seq<Task>,
                        before: set<Name>, completed: set<Name>)
    requires AllPlaced(names, [task] + (rest + r), before) && before <= completed && t.name == task.name
    requires (after == rest && t.name in completed) || after == rest + [t]
    ensures AllPlaced(names, after + r, completed)
  {
    assert ([task] + (rest + r))[1..] == rest + r;
    if after == rest + [t] {
      NamesRequeued(rest, r, t);
    }
  }

  /** The phases: priority stores first and alone, then the others, then one done call. */
  ghost predicate PhaseOk(phase: Phase, first: set<Name>, log: Log, doneCalls: nat, q: seq<Task>, r: seq<Task>) {
    && (forall t | t in r :: t.name !in first)
    && (phase.Priority? ==> (forall t | t in q :: t.name in first) && forall d | d in log :: d.name in first)
    && (!phase.Priority? ==> r == [] && forall t | t in q :: t.name !in first)
    && doneCalls == (if phase.Finished? then 1 else 0)
    && (phase.Finished? ==> q == [])
  }

  lemma FirstPhase(q: seq<Task>, r: seq<Task>, first: set<Name>)
    requires (forall t | t in q :: t.name in first) && forall t | t in r :: t.name !in first
    ensures PhaseOk(Priority, first, multiset{}, 0, q, r) && PhaseOk(Regular, first, multiset{}, 0, r, [])
  {
  }

  /** Calls that write nothing, subscribe nobody and raise no mutation error. */
  ghost predicate Quiet(calls: nat -> Call) {
    NoWrites(calls) && NoJoins(calls) && Checked(calls)
  }

  datatype Course = Course(total: nat, version: map<Name, nat>, pending: set<Name>)

  /** What is known of a run besides what every run keeps. */
  datatype Watch = Anything | Undisturbed(course: Course) | Growing(name: Name)

  datatype Scene = Scene(version: map<Name, nat>, subs: map<Name, seq<Sub>>, pending: set<Name>,
                         planned: set<Name>, completed: map<Name, Served>, log: Log, clock: nat)

  /** A run nobody disturbs: nothing but the queue moves, and the slices done and owed add up. */
  ghost predicate OnCourse(now: Scene, c: Course, size: SliceSize, tasks: seq<Task>, turns: nat)
    requires Sized(size)
  {
    && AllCurrent(tasks, now.version) && AllCovered(tasks, now.subs)
    && now.version == c.version && now.pending == c.pending && turns + Work(size, tasks) == c.total
    && AllPlaced(now.planned, tasks, now.completed.Keys)
  }

  /** A store that gains a subscriber for each one called: more always listen than were called. */
  ghost predicate Outgrown(now: Scene, name: Name, tasks: seq<Task>) {
    && now.planned == {name} && name !in now.completed && name !in now.pending
    && AllCurrent(tasks, now.version) && |now.log| == now.clock && MoreListen(now, name)
  }

  ghost predicate MoreListen(now: Scene, name: Name) {
    forall s: nat | s <= now.clock :: s in LiveSubs(now.subs, name)
  }

  ghost predicate HoldsIn(now: Scene, w: Watch, calls: nat -> Call, size: SliceSize, tasks: seq<Task>, turns: nat)
    requires Sized(size)
  {
    match w
    case Anything => true
    case Undisturbed(c) => Quiet(calls) && OnCourse(now, c, size, tasks, turns)
    case Growing(name) => NewcomerEachCall(name, calls) && Outgrown(now, name, tasks)
  }

  /** What every stretch of a run does: one log entry for each call, and nothing is taken back. */
  ghost predicate Moved(calls: nat -> Call, before: Scene, now: Scene) {
    && before.clock <= now.clock && now.subs == AfterCalls(before.subs, calls, before.clock, now.clock)
    && (NoWrites(calls) ==> now.version == before.version)
    && before.pending <= now.pending && now.planned == before.planned && Grown(now.completed, before.completed)
    && before.log <= now.log && |now.log| == |before.log| + (now.clock - before.clock)
  }

  lemma MovedOn(calls: nat -> Call, a: Scene, b: Scene, c: Scene)
    requires Moved(calls, a, b) && Moved(calls, b, c)
    ensures Moved(calls, a, c)
  {
    CallsCompose(a.subs, calls, a.clock, b.clock, c.clock);
  }

  /** Subscriptions counted in two stretches, with fewer stores to count in the second. */
  lemma TallyOn(all: multiset<Name>, some: multiset<Name>, calls: nat -> Call, k: nat, l: nat, m: nat)
    requires some <= all && k <= l <= m
    ensures CallJoins(all, calls, k, l) + CallJoins(some, calls, l, m) <= CallJoins(all, calls, k, m)
  {
    CallJoinsCompose(all, calls, k, l, m);
    FewerCallJoins(some, all, calls, l, m);
  }

  /** What a turn of `task`, `t` afterwards, does: whole unless a write cut it short. */
  ghost predicate TurnTaken(calls: nat -> Call, before: Scene, now: Scene, size: SliceSize, task: Task, t: Task,
                            rest: seq<Task>, queue: seq<Task>)
    requires Sized(size)
  {
    && Moved(calls, before, now) && Extends(now.completed, before.completed, task.name)
    && t.name == task.name && t.version == task.version && (queue == rest || queue == rest + [t])
    && (NoWrites(calls) && VersionIn(before.version, task.name) == task.version ==>
          Uncut(calls, before, now, size, task, t, rest, queue))
  }

  ghost predicate Uncut(calls: nat -> Call, before: Scene, now: Scene, size: SliceSize, task: Task, t: Task,
                        rest: seq<Task>, queue: seq<Task>)
    requires Sized(size) && before.clock <= now.clock
  {
    && now.pending == before.pending
    && ((queue == rest && task.name in now.completed && Waiting(t) == {}) || queue == rest + [t])
    && (Covers(task, before.subs) && Covers(task, now.subs) ==>
          Later(task, t, now.clock - before.clock)
          && (Checked(calls) ==> Slices(size, |Waiting(task)|) == 1 + Slices(size, |Waiting(t)|)))
  }

  lemma TurnDropped(calls: nat -> Call, before: Scene, now: Scene, size: SliceSize, task: Task, rest: seq<Task>)
    requires Sized(size) && now == before.(pending := before.pending + {task.name})
    requires task.name !in before.completed && VersionIn(before.version, task.name) != task.version
    ensures TurnTaken(calls, before, now, size, task, task, rest, rest)
  {
  }

  lemma TurnServed(calls: nat -> Call, before: Scene, now: Scene, size: SliceSize, task: Task, t: Task,
                   rest: seq<Task>, queue: seq<Task>)
    requires Sized(size) && Moved(calls, before, now) && Extends(now.completed, before.completed, task.name)
    requires t.name == task.name && t.version == task.version && (queue == rest || queue == rest + [t])
    requires NoWrites(calls) ==>
      now.pending == before.pending && (queue == rest ==> task.name in now.completed && Waiting(t) == {})
    requires Covers(task, before.subs) && Covers(task, now.subs) ==> Later(task, t, now.clock - before.clock)
    requires NoWrites(calls) && Checked(calls) && Covers(task, before.subs) && Covers(task, now.subs) ==>
      Slices(size, |Waiting(task)|) == 1 + Slices(size, |Waiting(t)|)
    ensures TurnTaken(calls, before, now, size, task, t, rest, queue)
  {
  }

  /** An undisturbed turn: one slice done, one slice less owed. */
  lemma CourseKept(calls: nat -> Call, before: Scene, now: Scene, c: Course, size: SliceSize, task: Task, t: Task,
                   rest: seq<Task>, r: seq<Task>, queue: seq<Task>, turns: nat)
    requires Sized(size) && TurnTaken(calls, before, now, size, task, t, rest, queue) && Quiet(calls)
    requires OnCourse(before, c, size, [task] + (rest + r), turns)
    ensures OnCourse(now, c, size, queue + r, turns + 1)
  {
    var tasks := [task] + (rest + r);
    assert task in tasks && tasks[1..] == rest + r;
    assert forall o | o in rest + r :: o in tasks;
    NoJoinsShrinks(before.subs, calls, before.clock, now.clock);
    StillCovered(tasks, before.subs, now.subs);
    WorkRequeued(size, rest, r, t);
    PlacedAfterTurn(now.planned, task, rest, r, t, queue, before.completed.Keys, now.completed.Keys);
  }

  /** A store that was outgrown and still is not served goes on being outgrown. */
  lemma OutgrownStill(calls: nat -> Call, before: Scene, now: Scene, name: Name, size: SliceSize, task: Task, t: Task,
                      rest: seq<Task>, r: seq<Task>, queue: seq<Task>)
    requires Sized(size) && TurnTaken(calls, before, now, size, task, t, rest, queue) && NewcomerEachCall(name, calls)
    requires Outgrown(before, name, [task] + (rest + r)) && task.name in before.planned
    requires |now.log| == now.clock && MoreListen(now, task.name) ==> task.name !in now.completed
    ensures Outgrown(now, name, queue + r)
  {
    var tasks := [task] + (rest + r);
    assert task in tasks && forall o | o in rest + r :: o in tasks;
    GrowsByCalls(name, before.subs, calls, before.clock, now.clock);
  }

  lemma WatchKept(calls: nat -> Call, before: Scene, now: Scene, w: Watch, size: SliceSize, task: Task, t: Task,
                  rest: seq<Task>, r: seq<Task>, queue: seq<Task>, turns: nat)
    requires Sized(size) && TurnTaken(calls, before, now, size, task, t, rest, queue)
    requires HoldsIn(before, w, calls, size, [task] + (rest + r), turns) && task.name in before.planned
    requires |now.log| == now.clock && MoreListen(now, task.name) ==> task.name !in now.completed
    ensures HoldsIn(now, w, calls, size, queue + r, turns + 1)
  {
    match w {
      case Anything =>
      case Undisturbed(c) => CourseKept(calls, before, now, c, size, task, t, rest, r, queue, turns);
      case Growing(name) => OutgrownStill(calls, before, now, name, size, task, t, rest, r, queue);
    }
  }

  class DeliveryRun {
    const sliceSize: SliceSize
    // what it was started with: the plan, the priority stores, and the registry at that time
    ghost const names: seq<Name>
    ghost const priority: Option<set<Name>>
    ghost const atStart: Registry
    ghost const first: set<Name>
    ghost const snapshots: map<Name, Value>
    ghost const audience: map<Name, set<Sub>>
    // the registry, as far as delivery touches it
    var stores: Stores
    var version: map<Name, nat>
    var subs: map<Name, seq<Sub>>
    var pending: set<Name>
    // the running delivery
    var phase: Phase
    var queue: seq<Task>
    var regular: seq<Task>
    var doneCalls: nat
    var turns: nat
    var clock: nat
    // its history
    ghost var log: Log
    ghost var completed: map<Name, Served>
    /** The subscriptions made so far to stores that had a task then. */
    ghost var joined: nat

    function VersionOf(name: Name): nat
      reads this`version
    {
      VersionIn(version, name)
    }

    /** A task knows whom its store's snapshot went to, and a moved version is pending already. */
    ghost predicate TaskOk(t: Task)
      reads this`version, this`pending, this`log, this`completed
    {
      && t.name in snapshots && t.snapshot == snapshots[t.name] && t.name !in completed
      && t.name in audience && (forall s | s in audience[t.name] || s in t.notified :: s in t.subscribers)
      && (forall s :: s in t.notified <==> Called(log, snapshots, t.name, s))
      && (VersionOf(t.name) != t.version ==> t.name in pending)
    }

    ghost predicate OthersOk(tasks: seq<Task>, name: Name)
      reads this`version, this`pending, this`log, this`completed
    {
      forall t | t in tasks :: t.name != name && TaskOk(t)
    }

    ghost predicate TasksOk(tasks: seq<Task>)
      reads this`version, this`pending, this`log, this`completed
    {
      NamesDistinct(tasks) && forall t | t in tasks :: TaskOk(t) && Waiting(t) != {}
    }

    /** Every call so far: once per store and subscriber, always with the store's one snapshot. */
    ghost predicate LogOk()
      reads this`log, this`completed
    {
      && (forall d | d in log :: d.name in snapshots && d.snapshot == snapshots[d.name] && log[d] == 1)
      && (forall n, s | n in completed && s in completed[n].called :: Called(log, snapshots, n, s))
      && (forall n | n in completed :: n in audience && audience[n] <= completed[n].called)
      && (forall n | n in completed :: completed[n].listening <= completed[n].called)
    }

    /** No store of the plan is lost: it is queued, served, or pending again. */
    ghost predicate Accounted(tasks: seq<Task>)
      reads this`pending, this`completed
    {
      forall n | n in snapshots :: HasTask(tasks, n) || n in pending || n in completed
    }

    ghost predicate TasksSound(tasks: seq<Task>)
      reads this`version, this`pending, this`log, this`completed
    {
      LogOk() && TasksOk(tasks) && Accounted(tasks)
    }

    ghost predicate Valid()
      reads this`version, this`pending, this`log, this`completed
      reads this`queue, this`regular, this`phase, this`doneCalls
    {
      && Sized(sliceSize) && TasksSound(queue + regular)
      && PhaseOk(phase, first, log, doneCalls, queue, regular)
    }

    /** What the other tasks keep while the task of one store is off the queue. */
    ghost predicate RestOk(tasks: seq<Task>, name: Name)
      reads this`version, this`pending, this`log, this`completed
    {
      && NamesDistinct(tasks) && OthersOk(tasks, name) && (forall t | t in tasks :: Waiting(t) != {})
      && (forall n | n in snapshots :: n == name || HasTask(tasks, n) || n in pending || n in completed)
    }

    ghost predicate Between(name: Name)
      reads this`version, this`pending, this`log, this`completed
      reads this`queue, this`regular, this`phase, this`doneCalls
    {
      && Sized(sliceSize) && LogOk() && RestOk(queue + regular, name)
      && PhaseOk(phase, first, log, doneCalls, queue, regular)
      && !phase.Finished? && (phase.Priority? <==> name in first)
    }

    /** What subscriber calls from number `k` on have done to versions and subscriptions. */
    ghost predicate CallsDid(calls: nat -> Call, k: nat, v: map<Name, nat>, s: map<Name, seq<Sub>>)
      reads this`clock, this`version, this`subs
    {
      k <= clock && subs == AfterCalls(s, calls, k, clock) && (NoWrites(calls) ==> version == v)
    }

    ghost function Now(): Scene
      reads this`version, this`subs, this`pending, this`completed, this`log, this`clock
    {
      Scene(version, subs, pending, snapshots.Keys, completed, log, clock)
    }

    ghost predicate Watched(w: Watch, calls: nat -> Call, tasks: seq<Task>, turns: nat)
      reads this`version, this`subs, this`pending, this`completed, this`log, this`clock
    {
      Sized(sliceSize) && HoldsIn(Now(), w, calls, sliceSize, tasks, turns)
    }

    // -------------------------------------------------------------- what others may do

    /** One action of anyone: a write to a store that there is counts in its version and makes it pending. */
    method PerformOne(action: Action)
      modifies this`stores, this`version, this`subs, this`pending
      ensures subs == AfterAction(old(subs), action)
      ensures if Lands(old(stores), action) then
                && stores == old(stores)[action.name := action.value]
                && version == old(version)[action.name := old(VersionOf(action.name)) + 1]
                && pending == old(pending) + {action.name}
              else stores == old(stores) && version == old(version) && pending == old(pending)
    {
      match action {
        case Write(name, value) =>
          if name in stores {
            stores := stores[name := value];
            version := version[name := VersionOf(name) + 1];
            pending := pending + {name};
          }
        case Subscribe(name, sub) =>
          if sub !in LiveSubs(subs, name) {
            subs := subs[name := LiveSubs(subs, name) + [sub]];
          }
        case Unsubscribe(name, sub) =>
          subs := subs[name := Without(LiveSubs(subs, name), sub)];
      }
    }

    /** What somebody asks for, in order. */
    method Perform(actions: seq<Action>)
      modifies this`stores, this`version, this`subs, this`pending
      ensures stores == AfterWrites(old(stores), actions) && subs == AfterActions(old(subs), actions)
      ensures forall n :: VersionOf(n) == old(VersionOf(n)) + WritesTo(old(stores), actions, n)
      ensures forall n :: n in pending <==> n in old(pending) || WritesTo(old(stores), actions, n) > 0
      ensures Writeless(actions) ==> version == old(version) && pending == old(pending)
    {
      for i := 0 to |actions|
        invariant stores == AfterWrites(old(stores), actions[..i]) && subs == AfterActions(old(subs), actions[..i])
        invariant forall n :: VersionOf(n) == old(VersionOf(n)) + WritesTo(old(stores), actions[..i], n)
        invariant forall n :: n in pending <==> n in old(pending) || WritesTo(old(stores), actions[..i], n) > 0
        invariant Writeless(actions) ==> version == old(version) && pending == old(pending)
      {
        assert actions[..i + 1][..i] == actions[..i] && actions[i] in actions;
        PerformOne(actions[i]);
      }
      assert actions[..|actions|] == actions;
    }

    /** The same between two chunks. */
    method Interfere(actions: seq<Action>)
      requires Valid()
      modifies this`stores, this`version, this`subs, this`pending, this`joined
      ensures Valid() && old(pending) <= pending
      ensures stores == AfterWrites(old(stores), actions) && subs == AfterActions(old(subs), actions)
      ensures joined == old(joined) + Joins(NamesOf(queue + regular), actions)
      ensures Debt(queue + regular, subs) + old(joined) <= old(Debt(queue + regular, subs)) + joined
    {
      hide NamesOf, Debt, PhaseOk;
      ghost var tasks := queue + regular;
      DebtAfterActions(NamesOf(tasks), tasks, subs, actions);
      joined := joined + Joins(NamesOf(tasks), actions);
      Perform(actions);
      forall t | t in tasks ensures TaskOk(t) {
        assert old(TaskOk(t));
      }
    }

    // -------------------------------------------------------------- one slice

    /** refreshSubscribers: subscribers that joined meanwhile go to the end of the list. */
    method RefreshSubscribers(task: Task) returns (t: Task)
      requires TaskOk(task)
      ensures TaskOk(t) && t == task.(subscribers := t.subscribers) && Covers(t, subs)
      ensures task.subscribers <= t.subscribers
      ensures forall s | s in t.subscribers :: s in task.subscribers || s in LiveSubs(subs, task.name)
      ensures Covers(task, subs) ==> t == task
      ensures Waiting(t) == Owes(task, subs) == Owes(t, subs) && Waiting(task) <= Waiting(t)
    {
      t := task;
      var live := LiveSubs(subs, task.name);
      for i := 0 to |live|
        invariant TaskOk(t) && t == task.(subscribers := t.subscribers) && task.subscribers <= t.subscribers
        invariant forall s :: s in t.subscribers <==> s in task.subscribers || s in live[..i]
        invariant Covers(task, subs) ==> t == task
      {
        assert live[..i + 1] == live[..i] + [live[i]];
        if live[i] !in t.subscribers {
          t := t.(subscribers := t.subscribers + [live[i]]);
        }
      }
      assert live[..|live|] == live;
    }

    /** The log entry of a call. */
    ghost method Record(t: Task, sub: Sub, others: seq<Task>)
      requires OthersOk(others, t.name) && TaskOk(t) && LogOk() && sub in t.subscribers && sub !in t.notified
      modifies this`log
      ensures TaskOk(Notify(t, sub)) && LogOk() && OthersOk(others, t.name)
      ensures log == old(log) + multiset{Delivery(t.name, sub, t.snapshot)}
    {
      assert forall o | o in others :: old(TaskOk(o));
      log := log + multiset{Delivery(t.name, sub, t.snapshot)};
    }

    /** One subscriber call, recorded in the log. */
    method CallSubscriber(t: Task, sub: Sub, calls: nat -> Call, ghost others: seq<Task>)
      returns (after: Task, raised: Raised)
      requires OthersOk(others, t.name) && TaskOk(t) && LogOk() && sub in t.subscribers && sub !in t.notified
      modifies this`stores, this`version, this`subs, this`pending, this`clock, this`log
      ensures after == Notify(t, sub) && TaskOk(after) && LogOk() && OthersOk(others, t.name)
      ensures log == old(log) + multiset{Delivery(t.name, sub, t.snapshot)} && old(pending) <= pending
      ensures clock == old(clock) + 1 && subs == AfterActions(old(subs), calls(old(clock)).actions)
      ensures stores == AfterWrites(old(stores), calls(old(clock)).actions) && raised == calls(old(clock)).raised
      ensures NoWrites(calls) ==> version == old(version) && pending == old(pending)
      ensures Checked(calls) ==> !raised.MutationError?
    {
      hide LogOk, Called;
      after := Notify(t, sub);
      Record(t, sub, others);
      label recorded:
      assert forall o | o in others :: old@recorded(TaskOk(o));
      var call := calls(clock);
      clock := clock + 1;
      Perform(call.actions);
      raised := call.raised;
    }

    /** What follows a call that counts: a moved version ends the slice, its store pending. */
    method CheckVersion(t: Task, ghost others: seq<Task>) returns (versionChanged: bool)
      requires OthersOk(others, t.name) && TaskOk(t) && LogOk()
      modifies this`pending
      ensures TaskOk(t) && LogOk() && OthersOk(others, t.name)
      ensures old(pending) <= pending && (versionChanged ==> t.name in pending)
      ensures versionChanged <==> VersionOf(t.name) != t.version
      ensures !versionChanged ==> pending == old(pending)
    {
      versionChanged := VersionOf(t.name) != t.version;
      if versionChanged {
        pending := pending + {t.name};
      }
    }

    /** One turn of the slice loop: whoever was called before is skipped; the call; the version check. */
    method ServeNext(t: Task, sub: Sub, sent: nat, calls: nat -> Call, ghost others: seq<Task>)
      returns (after: Task, count: nat, versionChanged: bool)
      requires OthersOk(others, t.name) && TaskOk(t) && LogOk() && sub in t.subscribers
      modifies this`stores, this`version, this`subs, this`pending, this`clock, this`log
      ensures after == Notify(t, sub) && TaskOk(after) && LogOk() && OthersOk(others, t.name)
      ensures (forall d | d in log :: d in old(log) || d.name == t.name) && old(log) <= log
      ensures |log| == |old(log)| + (clock - old(clock))
      ensures clock == old(clock) + if sub in t.notified then 0 else 1
      ensures CallsDid(calls, old(clock), old(version), old(subs))
      ensures old(pending) <= pending && (versionChanged ==> t.name in pending)
      ensures sent <= count <= sent + (clock - old(clock)) && (versionChanged ==> clock > old(clock))
      ensures Checked(calls) ==> count == sent + (clock - old(clock))
      ensures Checked(calls) && old(VersionOf(t.name)) == t.version ==>
        (versionChanged <==> VersionOf(t.name) != t.version)
      ensures NoWrites(calls) && old(VersionOf(t.name)) == t.version ==> !versionChanged && pending == old(pending)
    {
      after, count, versionChanged := Notify(t, sub), sent, false;
      if sub in t.notified {
        assert after == t;
        return;
      }
      var raised;
      after, raised := CallSubscriber(t, sub, calls, others);
      if !raised.MutationError? {
        count := sent + 1;
        versionChanged := CheckVersion(after, others);
      }
    }

    ghost predicate SliceOk(task: Task, t: Task, others: seq<Task>, was: Log, wasPending: set<Name>, made: nat)
      reads this`version, this`pending, this`log, this`completed
    {
      && t == task.(notified := t.notified) && TaskOk(t) && LogOk() && OthersOk(others, task.name)
      && (forall d | d in log :: d in was || d.name == task.name) && was <= log && |log| == |was| + made
      && wasPending <= pending
    }

    /** deliverSlice. */
    method DeliverSlice(task: Task, calls: nat -> Call, ghost others: seq<Task>)
      returns (t: Task, versionChanged: bool)
      requires Sized(sliceSize)
      requires OthersOk(others, task.name) && TaskOk(task) && LogOk() && VersionOf(task.name) == task.version
      modifies this`stores, this`version, this`subs, this`pending, this`clock, this`log
      ensures CallsDid(calls, old(clock), old(version), old(subs)) && Later(task, t, clock - old(clock))
      ensures SliceOk(task, t, others, old(log), old(pending), clock - old(clock))
      ensures FirstServed(task, t)
      ensures versionChanged ==> task.name in pending
      ensures Checked(calls) ==> (versionChanged <==> VersionOf(task.name) != task.version)
      ensures Waiting(task) != {} ==> clock > old(clock)
      ensures NoWrites(calls) ==> !versionChanged && pending == old(pending)
      ensures Checked(calls) && !versionChanged && Waiting(task) != {} ==>
        Slices(sliceSize, |Waiting(task)|) == 1 + Slices(sliceSize, |Waiting(t)|)
    {
      hide ServedFirst, TaskOk, LogOk, OthersOk, Slices;
      t, versionChanged := task, false;
      var sent := 0;
      var index := 0;
      NobodyServed(task);
      while index < |task.subscribers| && Room(sliceSize, sent) && !versionChanged
        invariant CallsDid(calls, old(clock), old(version), old(subs)) && Later(task, t, clock - old(clock))
        invariant SliceOk(task, t, others, old(log), old(pending), clock - old(clock))
        invariant ServedUpTo(task, index, t.notified) && ServedFirst(task, index, t)
        invariant (sliceSize.AtMost? ==> sent <= sliceSize.count) && sent <= clock - old(clock)
        invariant versionChanged ==> task.name in pending && clock > old(clock)
        invariant Checked(calls) ==>
          sent == clock - old(clock) && (versionChanged <==> VersionOf(task.name) != task.version)
        invariant NoWrites(calls) ==> !versionChanged && pending == old(pending)
        decreases |task.subscribers| - index
      {
        NotifyServes(t, task.subscribers[index]);
        ServedOneMore(task, index, t);
        ghost var k := clock;
        t, sent, versionChanged := ServeNext(t, task.subscribers[index], sent, calls, others);
        CallsCompose(old(subs), calls, old(clock), k, clock);
        index := index + 1;
      }
      SliceEnds(task, t, index, sent, clock - old(clock), versionChanged);
    }

    /** Why a slice ends: someone was called, and unless a version moved it was a full slice. */
    lemma SliceEnds(task: Task, t: Task, index: nat, sent: nat, made: nat, versionChanged: bool)
      requires Sized(sliceSize) && (sliceSize.AtMost? ==> sent <= sliceSize.count) && sent <= made
      requires Later(task, t, made) && ServedUpTo(task, index, t.notified)
      requires index == |task.subscribers| || !Room(sliceSize, sent) || versionChanged
      requires versionChanged ==> made > 0
      ensures Waiting(task) != {} ==> made > 0
      ensures sent == made && !versionChanged && Waiting(task) != {} ==>
        Slices(sliceSize, |Waiting(task)|) == 1 + Slices(sliceSize, |Waiting(t)|)
    {
      if index == |task.subscribers| {
        assert Waiting(t) == {};
      }
      if sent == made && !versionChanged && Waiting(task) != {} {
        OneSliceLess(sliceSize, task, t, index, sent);
      }
    }

    // -------------------------------------------------------------- one task

    lemma Taken()
      requires Valid() && queue != []
      ensures RestOk(queue[1..] + regular, queue[0].name) && TaskOk(queue[0]) && Waiting(queue[0]) != {}
      ensures queue + regular == [queue[0]] + (queue[1..] + regular)
    {
      HeadTaken(queue, regular);
      assert queue[0] in queue + regular;
    }

    method TakeHead() returns (task: Task)
      requires Valid() && queue != []
      modifies this`queue, this`turns
      ensures Between(task.name) && TaskOk(task) && Waiting(task) != {}
      ensures task == old(queue[0]) && queue == old(queue[1..]) && turns == old(turns) + 1
    {
      hide NamesOf;
      Taken();
      task := queue[0];
      assert PhaseOk(phase, first, log, doneCalls, queue[1..], regular) && !phase.Finished?;
      queue, turns := queue[1..], turns + 1;
    }

    lemma Back(task: Task)
      requires RestOk(queue + regular, task.name) && TaskOk(task) && Waiting(task) != {}
      ensures TasksOk(queue + [task] + regular) && Accounted(queue + [task] + regular)
    {
      NamesRequeued(queue, regular, task);
      NoTaskNamed(queue + regular, task.name);
    }

    method Requeue(task: Task)
      requires Between(task.name) && TaskOk(task) && Waiting(task) != {}
      modifies this`queue
      ensures Valid() && queue == old(queue) + [task]
    {
      Back(task);
      assert PhaseOk(phase, first, log, doneCalls, queue + [task], regular);
      queue := queue + [task];
    }

    /** The task is done: its store's subscribers, live ones included, have all been given the snapshot. */
    ghost method Complete(task: Task)
      requires Between(task.name) && TaskOk(task) && Waiting(task) == {} && Covers(task, subs)
      modifies this`completed
      ensures Valid() && Extends(completed, old(completed), task.name) && Given(task.name)
    {
      hide NamesOf, PhaseOk;
      assert forall s | s in task.subscribers :: s !in Waiting(task);
      completed := completed[task.name := Served(set s | s in task.subscribers,
                                                 set s | s in LiveSubs(subs, task.name))];
    }

    /** What a chunk's calls have done to everything but the tasks. */
    ghost predicate Went(calls: nat -> Call, k: nat, v: map<Name, nat>, s: map<Name, seq<Sub>>, p: set<Name>, l: Log)
      reads this`clock, this`version, this`subs, this`pending, this`log
    {
      CallsDid(calls, k, v, s) && p <= pending && l <= log && |log| == |l| + (clock - k)
    }

    /** deliverSlice with the rest of the queue in place. */
    method SliceAmongOthers(task: Task, calls: nat -> Call) returns (t: Task, versionChanged: bool)
      requires Between(task.name) && TaskOk(task) && Waiting(task) != {} && VersionOf(task.name) == task.version
      modifies this`stores, this`version, this`subs, this`pending, this`clock, this`log
      ensures Between(task.name) && TaskOk(t) && clock > old(clock) && Later(task, t, clock - old(clock))
      ensures Went(calls, old(clock), old(version), old(subs), old(pending), old(log))
      ensures versionChanged ==> task.name in pending
      ensures Checked(calls) ==> (versionChanged <==> VersionOf(task.name) != task.version)
      ensures NoWrites(calls) ==> !versionChanged && pending == old(pending)
      ensures Checked(calls) && !versionChanged ==>
        Slices(sliceSize, |Waiting(task)|) == 1 + Slices(sliceSize, |Waiting(t)|)
    {
      t, versionChanged := DeliverSlice(task, calls, queue + regular);
    }

    /** The task's next slice, for whoever listens now. */
    method NextSlice(task: Task, calls: nat -> Call) returns (t: Task, versionChanged: bool)
      requires Between(task.name) && TaskOk(task) && Waiting(task) != {} && VersionOf(task.name) == task.version
      modifies this`stores, this`version, this`subs, this`pending, this`clock, this`log
      ensures Between(task.name) && TaskOk(t) && clock > old(clock)
      ensures t.name == task.name && t.version == task.version
      ensures Went(calls, old(clock), old(version), old(subs), old(pending), old(log))
      ensures versionChanged ==> task.name in pending
      ensures Checked(calls) ==> (versionChanged <==> VersionOf(task.name) != task.version)
      ensures NoWrites(calls) ==> !versionChanged && pending == old(pending)
      ensures |Owes(t, old(subs))| + (clock - old(clock)) == |Owes(task, old(subs))|
      ensures old(Covers(task, subs)) ==> Later(task, t, clock - old(clock))
      ensures Checked(calls) && !versionChanged && old(Covers(task, subs)) ==>
        Slices(sliceSize, |Waiting(task)|) == 1 + Slices(sliceSize, |Waiting(t)|)
    {
      var refreshed := RefreshSubscribers(task);
      ghost var live := subs;
      t, versionChanged := SliceAmongOthers(refreshed, calls);
      assert Owes(t, live) == Waiting(t);
    }

    /** After a slice that saw no version change: round again for whoever still waits, or complete. */
    method FinishTurn(task: Task) returns (t: Task)
      requires Between(task.name) && TaskOk(task)
      modifies this`queue, this`completed
      ensures Valid() && Extends(completed, old(completed), task.name)
      ensures t.name == task.name && t.version == task.version
      ensures task.name in completed ==> Given(task.name)
      ensures (Waiting(t) == {} && queue == old(queue) && task.name in completed)
           || (Waiting(t) != {} && queue == old(queue) + [t])
      ensures Covers(t, subs) && Owes(t, subs) == Owes(task, subs) && (Covers(task, subs) ==> t == task)
    {
      t := RefreshSubscribers(task);
      var hasUnnotified := exists s | s in t.subscribers :: s !in t.notified;
      if hasUnnotified {
        var s :| s in t.subscribers && s !in t.notified;
        assert s in Waiting(t);
        Requeue(t);
      } else {
        Complete(t);
      }
    }

    /** A version that moved before the task's turn: the store is pending, its task is dropped. */
    method Drop(task: Task)
      requires Between(task.name)
      modifies this`pending
      ensures Valid() && pending == old(pending) + {task.name}
    {
      hide NamesOf;
      assert forall t | t in queue + regular :: old(TaskOk(t));
      pending := pending + {task.name};
    }

    lemma PendingAgain(name: Name)
      requires Between(name) && name in pending
      ensures Valid()
    {
    }

    /** The store is done with, and whoever is subscribed to it has been called with its snapshot. */
    ghost predicate Given(name: Name)
      reads this`subs, this`completed
    {
      name in completed && forall s :: s in LiveSubs(subs, name) <==> s in completed[name].listening
    }

    lemma Alone(name: Name)
      requires Between(name)
      ensures NamesDistinct(queue + regular) && !HasTask(queue + regular, name)
    {
      NoTaskNamed(queue + regular, name);
    }

    /** A turn pays off one call at least, but for what was subscribed meanwhile. */
    ghost predicate Paid(debt: nat, names: multiset<Name>, calls: nat -> Call, k: nat)
      reads this`clock, this`subs, this`queue, this`regular
    {
      && k <= clock && NamesOf(queue + regular) <= names
      && Debt(queue + regular, subs) < debt + CallJoins(names, calls, k, clock)
    }

    lemma TurnPays(rest: seq<Task>, task: Task, t: Task, u: Task, s: map<Name, seq<Sub>>, calls: nat -> Call, k: nat)
      requires NamesDistinct(rest + regular) && !HasTask(rest + regular, task.name) && k < clock
      requires subs == AfterCalls(s, calls, k, clock)
      requires t.name == u.name == task.name && Owes(u, subs) == Owes(t, subs)
      requires |Owes(t, s)| + (clock - k) == |Owes(task, s)|
      requires queue == rest || queue == rest + [u]
      ensures Paid(|Owes(task, s)| + Debt(rest + regular, s), NamesOf(rest + regular) + multiset{task.name}, calls, k)
    {
      DebtOfTurn(NamesOf(rest + regular) + multiset{task.name}, rest, regular, task, t, u, clock - k, s, calls, k);
      TurnNames(rest, regular, u);
    }

    /** The turn of a task whose version has not moved; `t` is the task after it. */
    method ServeCurrent(task: Task, calls: nat -> Call) returns (t: Task)
      requires Between(task.name) && TaskOk(task) && Waiting(task) != {} && VersionOf(task.name) == task.version
      modifies this`stores, this`version, this`subs, this`pending, this`clock, this`log
      modifies this`queue, this`completed
      ensures Valid() && clock > old(clock) && t.name == task.name && t.version == task.version
      ensures Went(calls, old(clock), old(version), old(subs), old(pending), old(log))
      ensures Extends(completed, old(completed), task.name) && (task.name in completed ==> Given(task.name))
      ensures task.name in completed && Checked(calls) ==> VersionOf(task.name) == task.version
      ensures queue == old(queue) || (queue == old(queue) + [t] && Waiting(t) != {})
      ensures Paid(|Owes(task, old(subs))| + old(Debt(queue + regular, subs)),
                   old(NamesOf(queue + regular)) + multiset{task.name}, calls, old(clock))
      ensures old(Covers(task, subs)) && Covers(task, subs) ==> Later(task, t, clock - old(clock))
      ensures NoWrites(calls) ==>
        pending == old(pending) && (queue == old(queue) ==> task.name in completed && Waiting(t) == {})
      ensures NoWrites(calls) && Checked(calls) && old(Covers(task, subs)) && Covers(task, subs) ==>
        Slices(sliceSize, |Waiting(task)|) == 1 + Slices(sliceSize, |Waiting(t)|)
    {
      hide Valid, Between, TaskOk, NamesOf, Debt;
      Alone(task.name);
      ghost var was, rest, k := subs, queue, clock;
      var sent, versionChanged := NextSlice(task, calls);
      t := sent;
      if versionChanged {
        PendingAgain(task.name);
      } else {
        t := FinishTurn(sent);
      }
      TurnPays(rest, task, sent, t, was, calls, k);
    }

    /** The turn of a task that is off the queue; `t` is the task after it. */
    method ServeTask(task: Task, calls: nat -> Call) returns (ghost t: Task)
      requires Between(task.name) && TaskOk(task) && Waiting(task) != {}
      modifies this`stores, this`version, this`subs, this`pending, this`clock, this`log
      modifies this`queue, this`completed
      ensures Valid() && TurnTaken(calls, old(Now()), Now(), sliceSize, task, t, old(queue), queue)
      ensures task.name in completed ==> Given(task.name)
      ensures task.name in completed && Checked(calls) ==> VersionOf(task.name) == task.version
      ensures Paid(|Owes(task, old(subs))| + old(Debt(queue + regular, subs)),
                   old(NamesOf(queue + regular)) + multiset{task.name}, calls, old(clock))
    {
      hide NamesOf, Debt, CallJoins, TurnTaken;
      ghost var before, rest := Now(), queue;
      if VersionOf(task.name) != task.version {
        Drop(task);
        t := task;
        TurnDropped(calls, before, Now(), sliceSize, task, rest);
      } else {
        t := ServeCurrent(task, calls);
        TurnServed(calls, before, Now(), sliceSize, task, t, rest, queue);
      }
    }

    /** Those called are fewer than those who listen: not all of them have been given the snapshot. */
    lemma NeverServed(name: Name)
      requires LogOk() && name in snapshots && |log| == clock && MoreListen(Now(), name)
      ensures !Given(name)
    {
      if Given(name) {
        var calls := set s: nat | s <= clock :: Delivery(name, s, snapshots[name]);
        forall s: nat | s <= clock ensures Delivery(name, s, snapshots[name]) in log {
          assert s in completed[name].listening && s in completed[name].called && Called(log, snapshots, name, s);
        }
        Naturals(clock, name, snapshots[name]);
        AllIn(calls, log);
      }
    }

    /** The same under watch. */
    method ServeWatched(task: Task, calls: nat -> Call, ghost w: Watch)
      requires Between(task.name) && TaskOk(task) && Waiting(task) != {}
      requires turns > 0 && Watched(w, calls, [task] + (queue + regular), turns - 1)
      modifies this`stores, this`version, this`subs, this`pending, this`clock, this`log
      modifies this`queue, this`completed
      ensures Valid() && Watched(w, calls, queue + regular, turns)
      ensures Moved(calls, old(Now()), Now())
      ensures Extends(completed, old(completed), task.name) && (task.name in completed ==> Given(task.name))
      ensures task.name in completed && Checked(calls) ==> VersionOf(task.name) == task.version
      ensures Paid(|Owes(task, old(subs))| + old(Debt(queue + regular, subs)),
                   old(NamesOf(queue + regular)) + multiset{task.name}, calls, old(clock))
    {
      hide NamesOf, Debt;
      ghost var before, rest := Now(), queue;
      ghost var t := ServeTask(task, calls);
      if |log| == clock && MoreListen(Now(), task.name) {
        NeverServed(task.name);
      }
      WatchKept(calls, before, Now(), w, sliceSize, task, t, rest, regular, queue, turns - 1);
    }

    lemma PaidOfAll(task: Task, rest: seq<Task>, tasks: seq<Task>, s: map<Name, seq<Sub>>, calls: nat -> Call, k: nat)
      requires tasks == [task] + rest
      requires Paid(|Owes(task, s)| + Debt(rest, s), NamesOf(rest) + multiset{task.name}, calls, k)
      ensures Paid(Debt(tasks, s), NamesOf(tasks), calls, k)
    {
      OfHead(task, rest, s);
    }

    /** processNext on a non-empty queue. */
    method TakeTurn(calls: nat -> Call, ghost w: Watch)
      requires Valid() && queue != [] && Watched(w, calls, queue + regular, turns)
      modifies this`stores, this`version, this`subs, this`pending, this`clock, this`log
      modifies this`queue, this`completed, this`turns
      ensures Valid() && Watched(w, calls, queue + regular, turns)
      ensures Moved(calls, old(Now()), Now())
      ensures var name := old(queue[0].name);
        && Extends(completed, old(completed), name) && (name in completed ==> Given(name))
        && (name in completed && Checked(calls) ==> VersionOf(name) == old(queue[0].version))
      ensures Paid(old(Debt(queue + regular, subs)), old(NamesOf(queue + regular)), calls, old(clock))
      ensures turns == old(turns) + 1
    {
      hide Valid, Between, TaskOk, NamesOf, Debt, Paid;
      ghost var tasks, s, k := queue + regular, subs, clock;
      var task := TakeHead();
      ghost var rest := queue + regular;
      assert tasks == [task] + rest;
      ServeWatched(task, calls, w);
      PaidOfAll(task, rest, tasks, s, calls, k);
    }

    /** The same, with the subscriptions made meanwhile to stores that had a task counted. */
    method ServeHead(calls: nat -> Call, ghost w: Watch)
      requires Valid() && queue != [] && Watched(w, calls, queue + regular, turns)
      modifies this`stores, this`version, this`subs, this`pending, this`clock, this`log
      modifies this`queue, this`completed, this`turns, this`joined
      ensures Valid() && Watched(w, calls, queue + regular, turns)
      ensures Moved(calls, old(Now()), Now())
      ensures var name := old(queue[0].name);
        && Extends(completed, old(completed), name) && (name in completed ==> Given(name))
        && (name in completed && Checked(calls) ==> VersionOf(name) == old(queue[0].version))
      ensures joined == old(joined) + CallJoins(old(NamesOf(queue + regular)), calls, old(clock), clock)
      ensures NamesOf(queue + regular) <= old(NamesOf(queue + regular))
      ensures Debt(queue + regular, subs) + old(joined) < old(Debt(queue + regular, subs)) + joined
      ensures turns == old(turns) + 1
    {
      hide NamesOf;
      ghost var names, k := NamesOf(queue + regular), clock;
      TakeTurn(calls, w);
      joined := joined + CallJoins(names, calls, k, clock);
    }

    // -------------------------------------------------------------- chunks

    /** The priority queue is done: the regular queue's turn. */
    method StartRegular()
      requires Valid() && queue == [] && phase.Priority?
      modifies this`queue, this`regular, this`phase
      ensures Valid() && queue + regular == old(queue + regular) && phase.Regular? && Now() == old(Now())
    {
      hide NamesOf;
      assert queue + regular == regular && regular + [] == regular;
      SetQueues(regular, [], Regular);
    }

    /** The regular queue is done: the one call of `done`. */
    method Finish()
      requires Valid() && queue == [] && phase.Regular?
      modifies this`phase, this`doneCalls
      ensures Valid() && phase.Finished? && queue + regular == [] && Now() == old(Now())
      ensures doneCalls == old(doneCalls) + 1
    {
      hide NamesOf;
      phase, doneCalls := Finished, doneCalls + 1;
    }

    /** Since call `k`, subscriptions to the stores `names` alone were counted, and no task has come in. */
    ghost predicate Tallied(calls: nat -> Call, k: nat, was: nat, names: multiset<Name>)
      reads this`clock, this`joined, this`queue, this`regular
    {
      k <= clock && was <= joined <= was + CallJoins(names, calls, k, clock) && NamesOf(queue + regular) <= names
    }

    /** One chunk: processNext, with the done calls that follow at once. */
    method ProcessNext(calls: nat -> Call, ghost w: Watch)
      requires Valid() && !phase.Finished? && Watched(w, calls, queue + regular, turns)
      modifies this`stores, this`version, this`subs, this`pending, this`clock, this`log
      modifies this`queue, this`completed, this`turns, this`regular, this`phase, this`doneCalls, this`joined
      ensures Valid() && Watched(w, calls, queue + regular, turns)
      ensures Moved(calls, old(Now()), Now()) && turns >= old(turns)
      ensures Tallied(calls, old(clock), old(joined), old(NamesOf(queue + regular)))
      ensures old(queue + regular) != [] ==>
        turns > old(turns) && Debt(queue + regular, subs) + old(joined) < old(Debt(queue + regular, subs)) + joined
      ensures old(queue + regular) == [] ==> phase.Finished?
      decreases phase.Priority?, 1
    {
      hide Valid, NamesOf, Debt;
      ghost var a, names := Now(), NamesOf(queue + regular);
      if queue != [] {
        ServeHead(calls, w);
      }
      ghost var b := Now();
      if queue == [] {
        ghost var left := NamesOf(queue + regular);
        QueueDone(calls, w);
        MovedOn(calls, a, b, Now());
        TallyOn(names, left, calls, a.clock, b.clock, clock);
      }
    }

    method QueueDone(calls: nat -> Call, ghost w: Watch)
      requires Valid() && queue == [] && !phase.Finished? && Watched(w, calls, queue + regular, turns)
      modifies this`stores, this`version, this`subs, this`pending, this`clock, this`log
      modifies this`queue, this`completed, this`turns, this`regular, this`phase, this`doneCalls, this`joined
      ensures Valid() && Watched(w, calls, queue + regular, turns)
      ensures Moved(calls, old(Now()), Now()) && turns >= old(turns)
      ensures Tallied(calls, old(clock), old(joined), old(NamesOf(queue + regular)))
      ensures old(queue + regular) != [] ==>
        turns > old(turns) && Debt(queue + regular, subs) + old(joined) < old(Debt(queue + regular, subs)) + joined
      ensures Debt(queue + regular, subs) + old(joined) <= old(Debt(queue + regular, subs)) + joined
      ensures old(queue + regular) == [] ==> phase.Finished?
      decreases phase.Priority?, 0
    {
      hide Valid;
      if phase.Priority? {
        StartRegular();
        ProcessNext(calls, w);
      } else {
        Finish();
      }
    }

    method SetQueues(q: seq<Task>, r: seq<Task>, p: Phase)
      requires Sized(sliceSize) && TasksSound(q + r)
      requires PhaseOk(p, first, log, doneCalls, q, r)
      modifies this`phase, this`queue, this`regular
      ensures Valid() && queue == q && regular == r && phase == p
    {
      hide NamesOf;
      queue, regular, phase := q, r, p;
    }

    // -------------------------------------------------------------- whole runs

    /** The chunks of a run nobody disturbs: one slice for each that is owed, and every store served. */
    method RunUndisturbed(calls: nat -> Call, ghost c: Course)
      requires Valid() && Started() && !phase.Finished? && Quiet(calls)
      requires OnCourse(Now(), c, sliceSize, queue + regular, turns)
      modifies this`stores, this`version, this`subs, this`pending, this`clock, this`log
      modifies this`queue, this`completed, this`turns, this`regular, this`phase, this`doneCalls, this`joined
      ensures Valid() && phase.Finished? && turns == c.total
      ensures version == c.version && pending == c.pending
      ensures forall n | n in names && n in atStart.subs && atStart.subs[n] != [] :: n in completed
    {
      hide NamesOf, Debt;
      while !phase.Finished?
        invariant Valid() && Watched(Undisturbed(c), calls, queue + regular, turns)
        decreases c.total - turns, !phase.Finished?
      {
        ProcessNext(calls, Undisturbed(c));
      }
      AllServed(c);
    }

    lemma AllServed(c: Course)
      requires Valid() && phase.Finished? && OnCourse(Now(), c, sliceSize, queue + regular, turns)
      ensures turns == c.total && forall n | n in snapshots :: n in completed
    {
      assert queue + regular == [];
    }

    ghost predicate Kept(p: set<Name>, l: Log, done: map<Name, Served>)
      reads this`pending, this`log, this`completed
    {
      p <= pending && l <= log && Grown(completed, done)
    }

    /** A chunk, and what others do before it. */
    method Chunk(actions: seq<Action>, calls: nat -> Call)
      requires Valid() && !phase.Finished?
      modifies this`stores, this`version, this`subs, this`pending, this`clock, this`log
      modifies this`queue, this`completed, this`turns, this`regular, this`phase, this`doneCalls, this`joined
      ensures Valid() && Kept(old(pending), old(log), old(completed)) && old(clock) <= clock
      ensures NamesOf(queue + regular) <= old(NamesOf(queue + regular))
      ensures var names := old(NamesOf(queue + regular));
        old(joined) <= joined <= old(joined) + Joins(names, actions) + CallJoins(names, calls, old(clock), clock)
      ensures phase.Finished? || Debt(queue + regular, subs) + old(joined) < old(Debt(queue + regular, subs)) + joined
    {
      Interfere(actions);
      ProcessNext(calls, Anything);
    }

    /** Any run: anything may happen between two chunks, and inside the calls of each. There are never
        more chunks than there were calls owed at the start and subscriptions made, by the time of each,
        to stores that still had a task; and the one that calls `done`. */
    method RunDisturbed(between: seq<seq<Action>>, calls: nat -> Call) returns (chunks: nat)
      requires Valid()
      modifies this`stores, this`version, this`subs, this`pending, this`clock, this`log
      modifies this`queue, this`completed, this`turns, this`regular, this`phase, this`doneCalls, this`joined
      ensures Valid() && Kept(old(pending), old(log), old(completed))
      ensures phase.Finished? || chunks == |between|
      ensures chunks + old(joined) <= old(Debt(queue + regular, subs)) + joined + if phase.Finished? then 1 else 0
    {
      hide Valid, Debt;
      chunks := 0;
      for i := 0 to |between|
        invariant Valid() && Kept(old(pending), old(log), old(completed)) && old(joined) <= joined
        invariant !phase.Finished? ==> chunks == i
        invariant !phase.Finished? ==>
          chunks + Debt(queue + regular, subs) + old(joined) <= old(Debt(queue + regular, subs)) + joined
        invariant phase.Finished? ==> chunks + old(joined) <= old(Debt(queue + regular, subs)) + joined + 1
      {
        if !phase.Finished? {
          Chunk(between[i], calls);
          chunks := chunks + 1;
        } else {
          Interfere(between[i]);
        }
      }
    }

    /** A run in which, all told, only so many subscriptions are made to the stores that have a task at the
        start: `between(i)` is what others do before chunk `i`. However much is written, unsubscribed,
        raised, or subscribed elsewhere, it ends, and `done` is called once: each chunk makes a call that
        was owed, or drops a task with one. */
    method RunToEnd(between: nat -> Call, calls: nat -> Call, ghost joins: nat) returns (chunks: nat)
      requires Valid() && JoinsAtMost(NamesOf(queue + regular), between, calls, clock, joins)
      modifies this`stores, this`version, this`subs, this`pending, this`clock, this`log
      modifies this`queue, this`completed, this`turns, this`regular, this`phase, this`doneCalls, this`joined
      ensures Valid() && phase.Finished? && doneCalls == 1
      ensures chunks + old(joined) <= old(Debt(queue + regular, subs)) + joined + 1 && joined <= old(joined) + joins
      ensures Kept(old(pending), old(log), old(completed))
    {
      chunks := 0;
      ghost var k, debt, names, was := clock, Debt(queue + regular, subs), NamesOf(queue + regular), joined;
      while !phase.Finished?
        invariant Valid() && Kept(old(pending), old(log), old(completed))
        invariant k <= clock && NamesOf(queue + regular) <= names
        invariant was <= joined <= was + CallJoins(names, between, 0, chunks) + CallJoins(names, calls, k, clock)
        invariant chunks + was <= debt + joined + if phase.Finished? then 1 else 0
        invariant !phase.Finished? ==> chunks + Debt(queue + regular, subs) + was <= debt + joined
        decreases debt + joins - chunks, !phase.Finished?
      {
        ghost var l, left := clock, NamesOf(queue + regular);
        Chunk(between(chunks).actions, calls);
        FewerJoins(left, names, between(chunks).actions);
        TallyOn(names, left, calls, k, l, clock);
        chunks := chunks + 1;
        assert CallJoins(names, between, 0, chunks) + CallJoins(names, calls, k, clock) <= joins;
      }
      assert CallJoins(names, between, 0, chunks) + CallJoins(names, calls, k, clock) <= joins;
    }

    /** A run under the eyes of a store that is outgrown: it goes on for ever. */
    method RunOutgrown(name: Name, calls: nat -> Call, chunks: nat)
      requires Valid() && !phase.Finished? && NewcomerEachCall(name, calls) && Outgrown(Now(), name, queue + regular)
      modifies this`stores, this`version, this`subs, this`pending, this`clock, this`log
      modifies this`queue, this`completed, this`turns, this`regular, this`phase, this`doneCalls, this`joined
      ensures Valid() && !phase.Finished? && doneCalls == 0 && turns >= old(turns) + chunks
    {
      for i := 0 to chunks
        invariant Valid() && !phase.Finished? && turns >= old(turns) + i
        invariant Watched(Growing(name), calls, queue + regular, turns)
      {
        StillQueued(name);
        ProcessNext(calls, Growing(name));
        StillQueued(name);
      }
    }

    lemma StillQueued(name: Name)
      requires Valid() && Outgrown(Now(), name, queue + regular)
      ensures queue + regular != [] && !phase.Finished?
    {
      assert name in snapshots;
    }

    /** The priority phase calls subscribers of priority stores alone, and it is over only when each of
        those, if somebody was subscribed to it at the start, has been served or is pending again. */
    lemma PriorityComesFirst()
      requires Valid() && Started()
      ensures phase.Priority? ==> forall d | d in log :: priority.Some? && d.name in priority.value
      ensures !phase.Priority? && priority.Some? ==>
        forall n | n in names && n in priority.value && n in atStart.subs && atStart.subs[n] != [] ::
          n in pending || n in completed
    {
      if !phase.Priority? {
        forall n | n in first && n in snapshots ensures n in pending || n in completed {
          NoTaskNamed(queue + regular, n);
        }
      }
    }

    /** What a finished delivery has done, whatever others did meanwhile. Every store of the plan that had
        subscribers is pending again, or its value at the start has gone to all of those, and to all who
        were subscribed when it was done with; nobody was called twice, or with anything else. */
    lemma Outcome()
      requires Valid() && Started() && phase.Finished?
      ensures doneCalls == 1
      ensures forall n | n in names && n in atStart.subs && atStart.subs[n] != [] ::
                n in pending || (n in completed && completed[n].listening <= completed[n].called
                                 && forall s | s in atStart.subs[n] :: s in completed[n].called)
      ensures forall n, s | n in completed && s in completed[n].called ::
                log[Delivery(n, s, if n in atStart.stores then atStart.stores[n] else Null)] == 1
      ensures forall d | d in log ::
                && d.name in names && log[d] == 1
                && d.snapshot == if d.name in atStart.stores then atStart.stores[d.name] else Null
    {
      assert queue + regular == [];
      forall n, s | n in completed && s in completed[n].called
        ensures n in snapshots && log[Delivery(n, s, snapshots[n])] == 1
      {
        assert Called(log, snapshots, n, s);
      }
    }

    // -------------------------------------------------------------- the start

    /** The constants say how the delivery began. */
    ghost predicate Started() {
      && snapshots == Snapshots(names, atStart) && audience == Audience(names, atStart)
      && first == PriorityNames(names, priority)
    }

    ghost predicate Untouched()
      reads this`stores, this`version, this`subs, this`log, this`completed
      reads this`clock, this`turns, this`doneCalls
    {
      Started() && atStart == Registry(stores, version, subs)
      && log == multiset{} && completed == map[] && clock == turns == doneCalls == 0
    }

    /** deliverFlush: both queues are built before anyone is called. */
    constructor (stores: Stores, version: map<Name, nat>, subs: map<Name, seq<Sub>>, pending: set<Name>,
                 names: seq<Name>, priority: Option<set<Name>>, sliceSize: SliceSize)
      requires Sized(sliceSize) && NoDuplicates(names)
      ensures Valid() && !phase.Finished? && Untouched() && this.names == names && this.priority == priority
      ensures this.sliceSize == sliceSize && this.version == version && this.subs == subs && this.pending == pending
      ensures this.stores == stores && queue + regular == PlanTasks(names, priority, Registry(stores, version, subs))
      ensures OnCourse(Now(), Course(Owed(sliceSize, subs, names), version, pending), sliceSize, queue + regular, 0)
    {
      hide NamesOf, Valid, OnCourse, Snapshots, Audience, PriorityNames;
      this.stores, this.version, this.subs, this.pending := stores, version, subs, pending;
      this.sliceSize := sliceSize;
      this.names, this.priority, atStart := names, priority, Registry(stores, version, subs);
      first := PriorityNames(names, priority);
      snapshots := Snapshots(names, Registry(stores, version, subs));
      audience := Audience(names, Registry(stores, version, subs));
      turns, clock, doneCalls, joined, log, completed := 0, 0, 0, 0, multiset{}, map[];
      phase := Regular;
      new;
      BuildQueues(names, priority);
    }

    method BuildQueues(names: seq<Name>, priority: Option<set<Name>>)
      requires Sized(sliceSize) && NoDuplicates(names) && Untouched()
      requires names == this.names && priority == this.priority
      modifies this`queue, this`regular, this`phase
      ensures Valid() && !phase.Finished?
      ensures queue + regular == PlanTasks(names, priority, Registry(stores, version, subs))
      ensures OnCourse(Now(), Course(Owed(sliceSize, subs, names), version, pending), sliceSize, queue + regular, 0)
    {
      hide NamesOf;
      var q := BuildQueue(names, priority, true);
      var r := BuildQueue(names, priority, false);
      Starts(names, priority);
      Classes(names, priority, Registry(stores, version, subs));
      FirstPhase(q, r, first);
      if q != [] {
        SetQueues(q, r, Priority);
      } else {
        assert q + r == r && r + [] == r;
        SetQueues(r, [], Regular);
      }
    }

    /** The first queues: one task for each store of the plan that has subscribers. */
    lemma Starts(names: seq<Name>, priority: Option<set<Name>>)
      requires Sized(sliceSize) && NoDuplicates(names) && Untouched()
      requires names == this.names && priority == this.priority
      ensures var tasks := PlanTasks(names, priority, Registry(stores, version, subs));
        && TasksSound(tasks)
        && OnCourse(Now(), Course(Owed(sliceSize, subs, names), version, pending), sliceSize, tasks, 0)
    {
      var reg := Registry(stores, version, subs);
      var tasks := PlanTasks(names, priority, reg);
      AllTasks(names, priority, reg);
      WorkIsOwed(sliceSize, names, priority, reg);
      forall t | t in tasks ensures TaskOk(t) && Waiting(t) != {} && VersionOf(t.name) == t.version && Covers(t, subs) {
        assert t == TaskFor(t.name, reg);
        assert t.subscribers[0] in Waiting(t);
      }
    }

    /** The stores of one class of the plan that have a subscriber, in the plan's order. */
    method BuildQueue(names: seq<Name>, priority: Option<set<Name>>, wanted: bool) returns (tasks: seq<Task>)
      ensures tasks == TasksFor(names, priority, wanted, Registry(stores, version, subs))
      ensures forall t | t in tasks ::
                && t.name in names && wanted == (priority.Some? && t.name in priority.value)
                && t.name in subs && t.subscribers == subs[t.name] != [] && t.notified == {}
                && t.snapshot == (if t.name in stores then stores[t.name] else Null)
                && t.version == (if t.name in version then version[t.name] else 0)
      ensures forall n | n in names && n in subs && subs[n] != []
                && wanted == (priority.Some? && n in priority.value) :: exists t :: t in tasks && t.name == n
    {
      QueueMembers(names, priority, wanted, Registry(stores, version, subs));
      ghost var reg := Registry(stores, version, subs);
      tasks := [];
      for i := 0 to |names|
        invariant tasks + TasksFor(names[i..], priority, wanted, reg) == TasksFor(names, priority, wanted, reg)
      {
        ghost var before := tasks;
        if IsPriority(priority, names[i]) == wanted && LiveSubs(subs, names[i]) != [] {
          tasks := tasks + [TaskFor(names[i], Registry(stores, version, subs))];
        }
        NextName(before, names, i, priority, wanted, reg);
        assert tasks == before + OneTask(names[i], priority, wanted, reg);
      }
    }
  }

  lemma {:induction false} Naturals(n: nat, name: Name, snapshot: Value)
    ensures |set s: nat | s <= n :: Delivery(name, s, snapshot)| == n + 1
  {
    if n > 0 {
      Naturals(n - 1, name, snapshot);
      assert (set s: nat | s <= n :: Delivery(name, s, snapshot))
          == (set s: nat | s <= n - 1 :: Delivery(name, s, snapshot)) + {Delivery(name, n, snapshot)};
    } else {
      assert (set s: nat | s <= n :: Delivery(name, s, snapshot)) == {Delivery(name, 0, snapshot)};
    }
  }

  lemma {:induction false} AllIn(calls: set<Delivery>, log: Log)
    requires forall d | d in calls :: d in log
    ensures |calls| <= |log|
  {
    if calls != {} {
      var d :| d in calls;
      AllIn(calls - {d}, log - multiset{d});
    }
  }

  /** Subscribers of one store who each subscribe somebody new: however many chunks are run, `done` is
      not called. */
  method NewcomersNeverDone(name: Name, value: Value, priority: Option<set<Name>>, size: SliceSize,
                            calls: nat -> Call, chunks: nat) returns (run: DeliveryRun)
    requires Sized(size) && NewcomerEachCall(name, calls)
    ensures fresh(run) && run.Valid() && run.turns >= chunks && !run.phase.Finished? && run.doneCalls == 0
  {
    hide NamesOf, DeliveryRun.Valid;
    run := new DeliveryRun(map[name := value], map[], map[name := [0]], {}, [name], priority, size);
    assert run.snapshots.Keys == {name};
    run.RunOutgrown(name, calls, chunks);
  }
}
