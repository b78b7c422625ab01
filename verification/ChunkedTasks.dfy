/** The tasks of a chunked delivery as values: who still waits, the queue with one task taken off or put
    back, the slices that are owed, and what subscriber calls do to the subscriptions. */
module ChunkedTasks {
  import opened Names
  import opened Lists
  import opened Values
  import opened Wrappers
  import opened Computeds

  type Sub = nat

  datatype Action =
    | Write(name: Name, value: Value)
    | Subscribe(name: Name, sub: Sub)
    | Unsubscribe(name: Name, sub: Sub)

  /** How a subscriber call ends: normally, with an error that is only logged, or with a mutation error
      under the default safety mode, which is logged and not counted against the slice. */
  datatype Raised = Nothing | PlainError | MutationError

  datatype Call = Call(actions: seq<Action>, raised: Raised)

  datatype Task = Task(name: Name, snapshot: Value, version: nat, subscribers: seq<Sub>, notified: set<Sub>)

  /** A store that is done with: whom its snapshot went to, and who was subscribed when that was settled. */
  datatype Served = Served(called: set<Sub>, listening: set<Sub>)

  /** One subscriber call made for a store. */
  datatype Delivery = Delivery(name: Name, sub: Sub, snapshot: Value)

  /** The calls made so far, with how often each was made. */
  type Log = multiset<Delivery>

  datatype Phase = Priority | Regular | Finished

  datatype SliceSize = Unlimited | AtMost(count: nat)

  /** The registry as a delivery finds it. */
  datatype Registry = Registry(stores: Stores, version: map<Name, nat>, subs: map<Name, seq<Sub>>)

  predicate Sized(size: SliceSize) {
    size.AtMost? ==> size.count > 0
  }

  predicate Room(size: SliceSize, sent: nat) {
    size.Unlimited? || sent < size.count
  }

  function LiveSubs(subs: map<Name, seq<Sub>>, name: Name): seq<Sub> {
    if name in subs then subs[name] else []
  }

  function VersionIn(version: map<Name, nat>, name: Name): nat {
    if name in version then version[name] else 0
  }

  // ------------------------------------------------------------------ what calls do to subscriptions

  function AfterAction(subs: map<Name, seq<Sub>>, action: Action): map<Name, seq<Sub>> {
    match action
    case Write(_, _) => subs
    case Subscribe(name, sub) =>
      if sub in LiveSubs(subs, name) then subs else subs[name := LiveSubs(subs, name) + [sub]]
    case Unsubscribe(name, sub) => subs[name := Without(LiveSubs(subs, name), sub)]
  }

  /** A write is one if there is a store to write to. */
  predicate Lands(stores: Stores, action: Action) {
    action.Write? && action.name in stores
  }

  function AfterWrites(stores: Stores, actions: seq<Action>): (after: Stores)
    ensures after.Keys == stores.Keys
  {
    if actions == [] then stores
    else
      var last, before := actions[|actions| - 1], AfterWrites(stores, actions[..|actions| - 1]);
      if Lands(stores, last) then before[last.name := last.value] else before
  }

  /** How many writes a list of actions makes to `n`. */
  function WritesTo(stores: Stores, actions: seq<Action>, n: Name): nat {
    if actions == [] then 0
    else
      var last := actions[|actions| - 1];
      WritesTo(stores, actions[..|actions| - 1], n) + if Lands(stores, last) && last.name == n then 1 else 0
  }

  function AfterActions(subs: map<Name, seq<Sub>>, actions: seq<Action>): map<Name, seq<Sub>> {
    if actions == [] then subs
    else AfterAction(AfterActions(subs, actions[..|actions| - 1]), actions[|actions| - 1])
  }

  /** The subscriptions after calls number `k` up to `m`. */
  function AfterCalls(subs: map<Name, seq<Sub>>, calls: nat -> Call, k: nat, m: nat): map<Name, seq<Sub>>
    requires k <= m
    decreases m - k
  {
    if k == m then subs else AfterActions(AfterCalls(subs, calls, k, m - 1), calls(m - 1).actions)
  }

  lemma {:induction false} CallsCompose(subs: map<Name, seq<Sub>>, calls: nat -> Call, k: nat, l: nat, m: nat)
    requires k <= l <= m
    ensures AfterCalls(AfterCalls(subs, calls, k, l), calls, l, m) == AfterCalls(subs, calls, k, m)
    decreases m - l
  {
    if l < m {
      CallsCompose(subs, calls, k, l, m - 1);
    }
  }

  predicate Joinless(actions: seq<Action>) {
    forall a | a in actions :: !a.Subscribe?
  }

  predicate Writeless(actions: seq<Action>) {
    forall a | a in actions :: !a.Write?
  }

  ghost predicate NoJoins(calls: nat -> Call) {
    forall i :: Joinless(calls(i).actions)
  }

  ghost predicate NoWrites(calls: nat -> Call) {
    forall i :: Writeless(calls(i).actions)
  }

  /** Calls after each of which the version is checked: none raises a mutation error. */
  ghost predicate Checked(calls: nat -> Call) {
    forall i :: !calls(i).raised.MutationError?
  }

  /** Nobody has a subscription that was not there before. */
  ghost predicate Shrunk(now: map<Name, seq<Sub>>, before: map<Name, seq<Sub>>) {
    forall n, s | s in LiveSubs(now, n) :: s in LiveSubs(before, n)
  }

  lemma {:induction false} JoinlessShrinks(subs: map<Name, seq<Sub>>, actions: seq<Action>)
    requires Joinless(actions)
    ensures Shrunk(AfterActions(subs, actions), subs)
  {
    if actions != [] {
      assert actions[|actions| - 1] in actions;
      assert forall a | a in actions[..|actions| - 1] :: a in actions;
      JoinlessShrinks(subs, actions[..|actions| - 1]);
    }
  }

  lemma {:induction false} NoJoinsShrinks(subs: map<Name, seq<Sub>>, calls: nat -> Call, k: nat, m: nat)
    requires k <= m && NoJoins(calls)
    ensures Shrunk(AfterCalls(subs, calls, k, m), subs)
    decreases m - k
  {
    if k < m {
      NoJoinsShrinks(subs, calls, k, m - 1);
      JoinlessShrinks(AfterCalls(subs, calls, k, m - 1), calls(m - 1).actions);
    }
  }

  /** Each call subscribes somebody new to `name`. */
  ghost predicate NewcomerEachCall(name: Name, calls: nat -> Call) {
    forall i: nat :: calls(i) == Call([Subscribe(name, i + 1)], Nothing)
  }

  lemma {:induction false} GrowsByCalls(name: Name, subs: map<Name, seq<Sub>>, calls: nat -> Call, k: nat, m: nat)
    requires k <= m && NewcomerEachCall(name, calls)
    requires forall s: nat | s <= k :: s in LiveSubs(subs, name)
    ensures NoWrites(calls) && Checked(calls)
    ensures forall s: nat | s <= m :: s in LiveSubs(AfterCalls(subs, calls, k, m), name)
    decreases m - k
  {
    if k < m {
      GrowsByCalls(name, subs, calls, k, m - 1);
      var before, actions := AfterCalls(subs, calls, k, m - 1), calls(m - 1).actions;
      assert actions == [Subscribe(name, m)] && actions[..0] == [];
      assert AfterActions(before, actions) == AfterAction(AfterActions(before, actions[..0]), actions[0]);
    }
  }

  // ------------------------------------------------------------------ tasks

  /** The stores that have a task, with how many. */
  function NamesOf(tasks: seq<Task>): multiset<Name> {
    if tasks == [] then multiset{} else multiset{tasks[0].name} + NamesOf(tasks[1..])
  }

  ghost predicate NamesDistinct(tasks: seq<Task>) {
    forall n :: NamesOf(tasks)[n] <= 1
  }

  predicate HasTask(tasks: seq<Task>, name: Name) {
    name in NamesOf(tasks)
  }

  lemma {:induction false} NamesAppend(a: seq<Task>, b: seq<Task>)
    ensures NamesOf(a + b) == NamesOf(a) + NamesOf(b)
  {
    if a == [] {
      assert a + b == b;
    } else {
      assert (a + b)[1..] == a[1..] + b;
      NamesAppend(a[1..], b);
    }
  }

  lemma NamesRequeued(queue: seq<Task>, regular: seq<Task>, t: Task)
    ensures NamesOf(queue + [t] + regular) == NamesOf(queue + regular) + multiset{t.name}
  {
    NamesAppend(queue + [t], regular);
    NamesAppend(queue, [t]);
    NamesAppend(queue, regular);
    assert NamesOf([t]) == multiset{t.name} + NamesOf([t][1..]);
  }

  lemma {:induction false} TaskHasName(tasks: seq<Task>, t: Task)
    requires t in tasks
    ensures HasTask(tasks, t.name)
  {
    if t != tasks[0] {
      TaskHasName(tasks[1..], t);
    }
  }

  lemma {:induction false} NoTaskNamed(tasks: seq<Task>, name: Name)
    requires forall t | t in tasks :: t.name != name
    ensures !HasTask(tasks, name)
  {
    if tasks != [] {
      assert tasks[0] in tasks;
      NoTaskNamed(tasks[1..], name);
    }
  }

  lemma HeadTaken(queue: seq<Task>, regular: seq<Task>)
    requires queue != [] && NamesDistinct(queue + regular)
    ensures queue + regular == [queue[0]] + (queue[1..] + regular)
    ensures NamesOf(queue + regular) == multiset{queue[0].name} + NamesOf(queue[1..] + regular)
    ensures NamesDistinct(queue[1..] + regular)
    ensures forall t | t in queue[1..] + regular :: t.name != queue[0].name
  {
    var rest := queue[1..] + regular;
    assert (queue + regular)[1..] == rest;
    assert forall n :: NamesOf(queue + regular)[n] <= 1 && NamesOf(queue + regular)[n] >= NamesOf(rest)[n];
    forall t | t in rest ensures t.name != queue[0].name {
      TaskHasName(rest, t);
    }
  }

  /** The subscribers of a task that still wait. */
  function Waiting(t: Task): set<Sub> {
    set s | s in t.subscribers && s !in t.notified
  }

  function Notify(t: Task, sub: Sub): Task {
    t.(notified := t.notified + {sub})
  }

  lemma NotifyServes(t: Task, sub: Sub)
    requires sub in t.subscribers
    ensures |Waiting(t)| == |Waiting(Notify(t, sub))| + if sub in t.notified then 0 else 1
  {
    assert Waiting(Notify(t, sub)) == Waiting(t) - {sub};
  }

  predicate ServedUpTo(t: Task, index: nat, notified: set<Sub>) {
    index <= |t.subscribers| && forall j | 0 <= j < index :: t.subscribers[j] in notified
  }

  function Members(subs: seq<Sub>): set<Sub> {
    set s | s in subs
  }

  /** Those called since are the first on the list, down to position `index`. */
  predicate ServedFirst(task: Task, index: nat, t: Task) {
    index <= |task.subscribers| && t.notified == task.notified + Members(task.subscribers[..index])
  }

  ghost predicate FirstServed(task: Task, t: Task) {
    exists index: nat :: ServedFirst(task, index, t)
  }

  lemma NobodyServed(task: Task)
    ensures ServedFirst(task, 0, task)
  {
  }

  lemma ServedOneMore(task: Task, index: nat, t: Task)
    requires index < |task.subscribers| && ServedUpTo(task, index, t.notified) && ServedFirst(task, index, t)
    ensures ServedUpTo(task, index + 1, Notify(t, task.subscribers[index]).notified)
    ensures ServedFirst(task, index + 1, Notify(t, task.subscribers[index]))
  {
    assert task.subscribers[..index + 1] == task.subscribers[..index] + [task.subscribers[index]];
  }

  /** Every live subscriber is on the task's list. */
  ghost predicate Covers(t: Task, subs: map<Name, seq<Sub>>) {
    forall s | s in LiveSubs(subs, t.name) :: s in t.subscribers
  }

  ghost predicate AllCovered(tasks: seq<Task>, subs: map<Name, seq<Sub>>) {
    forall t | t in tasks :: Covers(t, subs)
  }

  lemma StillCovered(tasks: seq<Task>, before: map<Name, seq<Sub>>, now: map<Name, seq<Sub>>)
    requires AllCovered(tasks, before) && Shrunk(now, before)
    ensures AllCovered(tasks, now)
  {
    forall t, s | t in tasks && s in LiveSubs(now, t.name) ensures s in t.subscribers {
      assert Covers(t, before) && s in LiveSubs(before, t.name);
    }
  }

  /** No task's store has moved since its snapshot. */
  predicate AllCurrent(tasks: seq<Task>, version: map<Name, nat>) {
    forall t | t in tasks :: VersionIn(version, t.name) == t.version
  }

  /** `t` is `task` after `made` more calls. */
  predicate Later(task: Task, t: Task, made: nat) {
    t == task.(notified := t.notified) && |Waiting(t)| + made == |Waiting(task)|
  }

  // ------------------------------------------------------------------ slices

  /** Slices it takes to serve `k` subscribers. */
  function Slices(size: SliceSize, k: nat): nat
    requires Sized(size)
  {
    if k == 0 then 0
    else if size.Unlimited? then 1
    else 1 + Slices(size, if k > size.count then k - size.count else 0)
  }

  function Work(size: SliceSize, tasks: seq<Task>): nat
    requires Sized(size)
  {
    if tasks == [] then 0 else Slices(size, |Waiting(tasks[0])|) + Work(size, tasks[1..])
  }

  lemma {:induction false} WorkAppend(size: SliceSize, a: seq<Task>, b: seq<Task>)
    requires Sized(size)
    ensures Work(size, a + b) == Work(size, a) + Work(size, b)
  {
    if a == [] {
      assert a + b == b;
    } else {
      assert (a + b)[1..] == a[1..] + b;
      WorkAppend(size, a[1..], b);
    }
  }

  lemma WorkRequeued(size: SliceSize, queue: seq<Task>, regular: seq<Task>, t: Task)
    requires Sized(size)
    ensures Work(size, queue + [t] + regular) == Work(size, queue + regular) + Slices(size, |Waiting(t)|)
  {
    WorkAppend(size, queue + [t], regular);
    WorkAppend(size, queue, [t]);
    WorkAppend(size, queue, regular);
    assert Work(size, [t]) == Slices(size, |Waiting(t)|) + Work(size, [t][1..]);
  }

  /** A slice that ends for lack of room or of subscribers is one slice of the work. */
  lemma OneSliceLess(size: SliceSize, task: Task, t: Task, index: nat, sent: nat)
    requires Sized(size) && (size.AtMost? ==> sent <= size.count) && Waiting(task) != {} && Later(task, t, sent)
    requires ServedUpTo(task, index, t.notified)
    requires index == |task.subscribers| || !Room(size, sent)
    ensures Slices(size, |Waiting(task)|) == 1 + Slices(size, |Waiting(t)|)
  {
    if index == |task.subscribers| {
      assert Waiting(t) == {};
    }
  }

  /** So many slices and no fewer. */
  lemma {:induction false} SlicesRoundUp(count: nat, k: nat)
    requires count > 0
    ensures k <= Slices(AtMost(count), k) * count < k + count
  {
    if k > 0 {
      var rest := if k > count then k - count else 0;
      SlicesRoundUp(count, rest);
      assert Slices(AtMost(count), k) * count == count + Slices(AtMost(count), rest) * count;
    }
  }

  // ------------------------------------------------------------------ what is still owed, and joining

  /** Whoever a task has still to call: on its list or live by now, and not called yet. */
  function Owes(t: Task, subs: map<Name, seq<Sub>>): set<Sub> {
    set s | s in t.subscribers + LiveSubs(subs, t.name) && s !in t.notified
  }

  function Debt(tasks: seq<Task>, subs: map<Name, seq<Sub>>): nat {
    if tasks == [] then 0 else |Owes(tasks[0], subs)| + Debt(tasks[1..], subs)
  }

  /** The subscriptions to stores among `names` that a list of actions asks for, and calls number `k` up
      to `m`. */
  function Joins(names: multiset<Name>, actions: seq<Action>): nat {
    if actions == [] then 0
    else
      var last := actions[|actions| - 1];
      Joins(names, actions[..|actions| - 1]) + if last.Subscribe? && last.name in names then 1 else 0
  }

  function CallJoins(names: multiset<Name>, calls: nat -> Call, k: nat, m: nat): nat
    requires k <= m
    decreases m - k
  {
    if k == m then 0 else CallJoins(names, calls, k, m - 1) + Joins(names, calls(m - 1).actions)
  }

  lemma {:induction false} CallJoinsCompose(names: multiset<Name>, calls: nat -> Call, k: nat, l: nat, m: nat)
    requires k <= l <= m
    ensures CallJoins(names, calls, k, l) + CallJoins(names, calls, l, m) == CallJoins(names, calls, k, m)
    decreases m - l
  {
    if l < m {
      CallJoinsCompose(names, calls, k, l, m - 1);
    }
  }

  lemma {:induction false} FewerJoins(some: multiset<Name>, all: multiset<Name>, actions: seq<Action>)
    requires some <= all
    ensures Joins(some, actions) <= Joins(all, actions)
  {
    if actions != [] {
      FewerJoins(some, all, actions[..|actions| - 1]);
    }
  }

  lemma {:induction false} FewerCallJoins(some: multiset<Name>, all: multiset<Name>, calls: nat -> Call, k: nat, m: nat)
    requires some <= all && k <= m
    ensures CallJoins(some, calls, k, m) <= CallJoins(all, calls, k, m)
    decreases m - k
  {
    if k < m {
      FewerCallJoins(some, all, calls, k, m - 1);
      FewerJoins(some, all, calls(m - 1).actions);
    }
  }

  /** All that others do, and all that subscribers do from call `k` on, makes so many subscriptions to the
      stores `names` at most. */
  ghost predicate JoinsAtMost(names: multiset<Name>, between: nat -> Call, calls: nat -> Call, k: nat, joins: nat) {
    forall j: nat, m | k <= m :: CallJoins(names, between, 0, j) + CallJoins(names, calls, k, m) <= joins
  }

  /** Where nobody subscribes there are none. */
  lemma NoJoinsAtAll(names: multiset<Name>, between: nat -> Call, calls: nat -> Call, k: nat)
    requires NoJoins(between) && NoJoins(calls)
    ensures JoinsAtMost(names, between, calls, k, 0)
  {
    forall j: nat, m | k <= m ensures CallJoins(names, between, 0, j) + CallJoins(names, calls, k, m) <= 0 {
      NoCallJoins(names, between, 0, j);
      NoCallJoins(names, calls, k, m);
    }
  }

  lemma {:induction false} NoCallJoins(names: multiset<Name>, calls: nat -> Call, k: nat, m: nat)
    requires k <= m && NoJoins(calls)
    ensures CallJoins(names, calls, k, m) == 0
    decreases m - k
  {
    if k < m {
      NoCallJoins(names, calls, k, m - 1);
      JoinlessJoins(names, calls(m - 1).actions);
    }
  }

  lemma {:induction false} JoinlessJoins(names: multiset<Name>, actions: seq<Action>)
    requires Joinless(actions)
    ensures Joins(names, actions) == 0
  {
    if actions != [] {
      assert actions[|actions| - 1] in actions;
      assert forall a | a in actions[..|actions| - 1] :: a in actions;
      JoinlessJoins(names, actions[..|actions| - 1]);
    }
  }

  lemma {:induction false} DebtAppend(a: seq<Task>, b: seq<Task>, subs: map<Name, seq<Sub>>)
    ensures Debt(a + b, subs) == Debt(a, subs) + Debt(b, subs)
  {
    if a == [] {
      assert a + b == b;
    } else {
      assert (a + b)[1..] == a[1..] + b;
      DebtAppend(a[1..], b, subs);
    }
  }

  lemma OfHead(task: Task, rest: seq<Task>, subs: map<Name, seq<Sub>>)
    ensures NamesOf([task] + rest) == NamesOf(rest) + multiset{task.name}
    ensures Debt([task] + rest, subs) == |Owes(task, subs)| + Debt(rest, subs)
  {
    assert ([task] + rest)[1..] == rest;
  }

  lemma DebtRequeued(queue: seq<Task>, regular: seq<Task>, t: Task, subs: map<Name, seq<Sub>>)
    ensures Debt(queue + [t] + regular, subs) == Debt(queue + regular, subs) + |Owes(t, subs)|
  {
    DebtAppend(queue + [t], regular, subs);
    DebtAppend(queue, [t], subs);
    DebtAppend(queue, regular, subs);
    assert Debt([t], subs) == |Owes(t, subs)| + Debt([t][1..], subs);
  }

  /** An action owes at most one more call to the task of its own store, none to the others. */
  lemma OwesAfterAction(t: Task, subs: map<Name, seq<Sub>>, action: Action)
    ensures action.name != t.name || !action.Subscribe? ==> |Owes(t, AfterAction(subs, action))| <= |Owes(t, subs)|
    ensures |Owes(t, AfterAction(subs, action))| <= |Owes(t, subs)| + 1
  {
    var now, was := Owes(t, AfterAction(subs, action)), Owes(t, subs);
    if action.Subscribe? && action.name == t.name {
      assert now <= was + {action.sub};
      Fewer(now, was + {action.sub});
    } else {
      assert now <= was;
      Fewer(now, was);
    }
  }

  lemma {:induction false} Fewer(a: set<Sub>, b: set<Sub>)
    requires a <= b
    ensures |a| <= |b|
  {
    if a != {} {
      var s :| s in a;
      Fewer(a - {s}, b - {s});
    }
  }

  lemma {:induction false} DebtAfterAction(tasks: seq<Task>, subs: map<Name, seq<Sub>>, action: Action)
    requires NamesDistinct(tasks)
    ensures Debt(tasks, AfterAction(subs, action))
         <= Debt(tasks, subs) + if action.Subscribe? && HasTask(tasks, action.name) then 1 else 0
  {
    if tasks != [] {
      var t, rest := tasks[0], tasks[1..];
      assert forall n :: NamesOf(rest)[n] <= NamesOf(tasks)[n] <= 1;
      assert NamesOf(tasks)[t.name] == 1 + NamesOf(rest)[t.name];
      DebtAfterAction(rest, subs, action);
      OwesAfterAction(t, subs, action);
    }
  }

  lemma {:induction false} DebtAfterActions(names: multiset<Name>, tasks: seq<Task>, subs: map<Name, seq<Sub>>,
                                            actions: seq<Action>)
    requires NamesDistinct(tasks) && NamesOf(tasks) <= names
    ensures Debt(tasks, AfterActions(subs, actions)) <= Debt(tasks, subs) + Joins(names, actions)
  {
    if actions != [] {
      DebtAfterActions(names, tasks, subs, actions[..|actions| - 1]);
      DebtAfterAction(tasks, AfterActions(subs, actions[..|actions| - 1]), actions[|actions| - 1]);
    }
  }

  /** Only a subscription to a store that has a task makes the debt grow, each by one call at most. */
  lemma {:induction false} DebtAfterCalls(names: multiset<Name>, tasks: seq<Task>, subs: map<Name, seq<Sub>>,
                                          calls: nat -> Call, k: nat, m: nat)
    requires k <= m && NamesDistinct(tasks) && NamesOf(tasks) <= names
    ensures Debt(tasks, AfterCalls(subs, calls, k, m)) <= Debt(tasks, subs) + CallJoins(names, calls, k, m)
    decreases m - k
  {
    if k < m {
      DebtAfterCalls(names, tasks, subs, calls, k, m - 1);
      DebtAfterActions(names, tasks, AfterCalls(subs, calls, k, m - 1), calls(m - 1).actions);
    }
  }

  lemma TurnNames(queue: seq<Task>, regular: seq<Task>, t: Task)
    requires NamesDistinct(queue + regular) && !HasTask(queue + regular, t.name)
    ensures NamesDistinct(queue + [t] + regular)
    ensures NamesOf(queue + [t] + regular) == NamesOf(queue + regular) + multiset{t.name}
  {
    NamesRequeued(queue, regular, t);
  }

  /** A turn: `t` is the task at the end of its slice, `u` the same with its list refreshed. */
  lemma DebtOfTurn(names: multiset<Name>, queue: seq<Task>, regular: seq<Task>, task: Task, t: Task, u: Task, made: nat,
                   subs: map<Name, seq<Sub>>, calls: nat -> Call, k: nat)
    requires NamesDistinct(queue + regular) && !HasTask(queue + regular, task.name)
    requires names == NamesOf(queue + regular) + multiset{task.name}
    requires t.name == task.name && |Owes(t, subs)| + made == |Owes(task, subs)|
    requires var now := AfterCalls(subs, calls, k, k + made); Owes(u, now) == Owes(t, now)
    ensures var now := AfterCalls(subs, calls, k, k + made);
      var most := |Owes(task, subs)| + Debt(queue + regular, subs) + CallJoins(names, calls, k, k + made);
      Debt(queue + [u] + regular, now) + made <= most && Debt(queue + regular, now) + made <= most
  {
    hide NamesOf, Debt;
    var now, tasks := AfterCalls(subs, calls, k, k + made), queue + [t] + regular;
    TurnNames(queue, regular, t);
    DebtRequeued(queue, regular, t, subs);
    DebtRequeued(queue, regular, t, now);
    DebtRequeued(queue, regular, u, now);
    DebtAfterCalls(names, tasks, subs, calls, k, k + made);
  }

  // ------------------------------------------------------------------ the first queues

  predicate IsPriority(priority: Option<set<Name>>, name: Name) {
    priority.Some? && name in priority.value
  }

  function PriorityNames(names: seq<Name>, priority: Option<set<Name>>): set<Name> {
    set n | n in names && IsPriority(priority, n)
  }

  /** What each store of the plan is worth to its subscribers, and who they are, at the start. */
  function Snapshots(names: seq<Name>, reg: Registry): map<Name, Value> {
    map n | n in names && LiveSubs(reg.subs, n) != [] :: Read(reg.stores, n)
  }

  function Audience(names: seq<Name>, reg: Registry): map<Name, set<Sub>> {
    map n | n in names && LiveSubs(reg.subs, n) != [] :: set s | s in LiveSubs(reg.subs, n)
  }

  function TaskFor(name: Name, reg: Registry): Task {
    Task(name, Read(reg.stores, name), VersionIn(reg.version, name), LiveSubs(reg.subs, name), {})
  }

  function OneTask(name: Name, priority: Option<set<Name>>, wanted: bool, reg: Registry): seq<Task> {
    if IsPriority(priority, name) == wanted && LiveSubs(reg.subs, name) != [] then [TaskFor(name, reg)] else []
  }

  function TasksFor(names: seq<Name>, priority: Option<set<Name>>, wanted: bool, reg: Registry): seq<Task> {
    if names == [] then []
    else OneTask(names[0], priority, wanted, reg) + TasksFor(names[1..], priority, wanted, reg)
  }

  /** Both classes, the priority stores first. */
  function PlanTasks(names: seq<Name>, priority: Option<set<Name>>, reg: Registry): seq<Task> {
    TasksFor(names, priority, true, reg) + TasksFor(names, priority, false, reg)
  }

  lemma NextName(before: seq<Task>, names: seq<Name>, i: nat, priority: Option<set<Name>>, wanted: bool, reg: Registry)
    requires i < |names|
    ensures before + TasksFor(names[i..], priority, wanted, reg)
         == before + OneTask(names[i], priority, wanted, reg) + TasksFor(names[i + 1..], priority, wanted, reg)
  {
    assert names[i..][1..] == names[i + 1..];
  }

  /** A task for each wanted store with subscribers, one each. */
  lemma {:induction false} TasksForNames(names: seq<Name>, priority: Option<set<Name>>, wanted: bool, reg: Registry)
    requires NoDuplicates(names)
    ensures forall n :: NamesOf(TasksFor(names, priority, wanted, reg))[n]
                     == if n in names && IsPriority(priority, n) == wanted && LiveSubs(reg.subs, n) != [] then 1 else 0
  {
    if names != [] {
      var one, rest := OneTask(names[0], priority, wanted, reg), TasksFor(names[1..], priority, wanted, reg);
      TasksForNames(names[1..], priority, wanted, reg);
      NamesAppend(one, rest);
      assert NamesOf(one) == if one == [] then multiset{} else multiset{names[0]};
      assert names[0] !in names[1..] && forall n :: n in names <==> n == names[0] || n in names[1..];
    }
  }

  lemma {:induction false} TasksForMembers(names: seq<Name>, priority: Option<set<Name>>, wanted: bool, reg: Registry)
    ensures forall t | t in TasksFor(names, priority, wanted, reg) ::
              t == TaskFor(t.name, reg) && t.name in names
              && LiveSubs(reg.subs, t.name) != [] && IsPriority(priority, t.name) == wanted
  {
    if names != [] {
      TasksForMembers(names[1..], priority, wanted, reg);
    }
  }

  /** What a task is made of, and which stores of the plan get one. */
  lemma QueueMembers(names: seq<Name>, priority: Option<set<Name>>, wanted: bool, reg: Registry)
    ensures var tasks := TasksFor(names, priority, wanted, reg);
      && (forall t | t in tasks ::
            && t.name in names && wanted == (priority.Some? && t.name in priority.value)
            && t.name in reg.subs && t.subscribers == reg.subs[t.name] != [] && t.notified == {}
            && t.snapshot == (if t.name in reg.stores then reg.stores[t.name] else Null)
            && t.version == (if t.name in reg.version then reg.version[t.name] else 0))
      && (forall n | n in names && n in reg.subs && reg.subs[n] != []
                     && wanted == (priority.Some? && n in priority.value) :: exists t :: t in tasks && t.name == n)
  {
    TasksForMembers(names, priority, wanted, reg);
    forall n | n in names && n in reg.subs && reg.subs[n] != [] && wanted == (priority.Some? && n in priority.value)
      ensures exists t :: t in TasksFor(names, priority, wanted, reg) && t.name == n
    {
      TaskOfName(names, priority, wanted, reg, n);
    }
  }

  lemma {:induction false} TaskOfName(names: seq<Name>, priority: Option<set<Name>>, wanted: bool, reg: Registry,
                                      n: Name)
    requires n in names && LiveSubs(reg.subs, n) != [] && IsPriority(priority, n) == wanted
    ensures TaskFor(n, reg) in TasksFor(names, priority, wanted, reg)
  {
    if names[0] != n {
      TaskOfName(names[1..], priority, wanted, reg, n);
    }
  }

  lemma AllTasks(names: seq<Name>, priority: Option<set<Name>>, reg: Registry)
    requires NoDuplicates(names)
    ensures var tasks := PlanTasks(names, priority, reg);
      && NamesDistinct(tasks)
      && (forall n :: HasTask(tasks, n) <==> n in names && LiveSubs(reg.subs, n) != [])
      && (forall t | t in tasks :: t == TaskFor(t.name, reg) && t.name in names && LiveSubs(reg.subs, t.name) != [])
  {
    TasksForNames(names, priority, true, reg);
    TasksForNames(names, priority, false, reg);
    TasksForMembers(names, priority, true, reg);
    TasksForMembers(names, priority, false, reg);
    NamesAppend(TasksFor(names, priority, true, reg), TasksFor(names, priority, false, reg));
  }

  lemma Classes(names: seq<Name>, priority: Option<set<Name>>, reg: Registry)
    ensures forall t | t in TasksFor(names, priority, true, reg) :: t.name in PriorityNames(names, priority)
    ensures forall t | t in TasksFor(names, priority, false, reg) :: t.name !in PriorityNames(names, priority)
  {
    TasksForMembers(names, priority, true, reg);
    TasksForMembers(names, priority, false, reg);
  }

  /** The slices a plan takes: for each store, its subscribers in slices. */
  function Owed(size: SliceSize, subs: map<Name, seq<Sub>>, names: seq<Name>): nat
    requires Sized(size)
  {
    if names == [] then 0
    else Slices(size, |set s | s in LiveSubs(subs, names[0])|) + Owed(size, subs, names[1..])
  }

  lemma OneTaskWork(size: SliceSize, name: Name, priority: Option<set<Name>>, reg: Registry)
    requires Sized(size)
    ensures Work(size, OneTask(name, priority, true, reg)) + Work(size, OneTask(name, priority, false, reg))
         == Slices(size, |set s | s in LiveSubs(reg.subs, name)|)
  {
    assert Waiting(TaskFor(name, reg)) == set s | s in LiveSubs(reg.subs, name);
    assert LiveSubs(reg.subs, name) == [] ==> (set s | s in LiveSubs(reg.subs, name)) == {};
  }

  lemma {:induction false} WorkIsOwed(size: SliceSize, names: seq<Name>, priority: Option<set<Name>>, reg: Registry)
    requires Sized(size)
    ensures Work(size, PlanTasks(names, priority, reg)) == Owed(size, reg.subs, names)
  {
    WorkAppend(size, TasksFor(names, priority, true, reg), TasksFor(names, priority, false, reg));
    if names != [] {
      var rest := names[1..];
      WorkIsOwed(size, rest, priority, reg);
      WorkAppend(size, TasksFor(rest, priority, true, reg), TasksFor(rest, priority, false, reg));
      OneTaskWork(size, names[0], priority, reg);
      WorkAppend(size, OneTask(names[0], priority, true, reg), TasksFor(rest, priority, true, reg));
      WorkAppend(size, OneTask(names[0], priority, false, reg), TasksFor(rest, priority, false, reg));
    }
  }
}
