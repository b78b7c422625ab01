/** The propagation protocol between writes, batches, flushes and computed stores, as a step system.
    A state carries everything a step reads: stores, versions, the open batch with what it has staged,
    the pending set, the running flush with its undelivered tasks, and the per-flush recompute guard. */
module FlushProtocol {
  import opened Names
  import opened Values
  import opened Wrappers
  import opened Computeds
  import opened Graphs

  /** A subscriber function: the recompute closure of a computed, which keeps the registration it was
      made for, or a user's listener. */
  datatype Sub = Recompute(computed: Name, closure: Entry) | User(id: nat)

  /** One store of a flush plan. When its turn has begun: the version read at that time and the
      subscribers still to call, in order. */
  datatype Task = Task(name: Name, begun: bool, version: nat, todo: seq<Sub>)

  datatype Staged = Staged(name: Name, value: Value)

  /** The open batch: its depth, the writes to commit when it goes through, whether something has marked
      it failed, and the computeds that it has recomputed, created or overwritten. */
  datatype Batch = Batch(depth: nat, commits: seq<Staged>, failed: bool, touched: set<Name>)

  const NO_BATCH := Batch(0, [], false, {})

  /** `refuses` says which values sanitising, validation or middleware turn away, when a store is created
      and when it holds a value. `misled` are the computeds last told, outside a batch, a value that is
      not their own function's; `stranded` those whose own output did not reach their store, as it was
      their last output already or as a batch was the last to touch them. */
  datatype State = State(
    refuses: (Name, Option<Value>, Value) -> bool,
    entries: Entries,
    stores: Stores,
    version: map<Name, nat>,
    lastOutput: map<Name, Value>,
    subs: map<Name, seq<Sub>>,
    pending: set<Name>,
    batch: Batch,
    scheduled: bool,
    flushing: bool,
    flushId: nat,
    guard: map<Name, nat>,
    queue: seq<Task>,
    misled: set<Name>,
    stranded: set<Name>)

  datatype Event =
    | WriteStore(name: Name, value: Value)
    | CreateLeaf(name: Name, value: Value)
    | BeginBatch
    | FailBatch
    | EndBatch(ok: bool)
    | CreateComputed(name: Name, entry: Entry)
    | DeleteComputed(name: Name)
    | Subscribe(name: Name, id: nat)
    | Unsubscribe(name: Name, id: nat)
    | Invalidate(name: Name)
    | Rerun(name: Name)
    | StartFlush(plan: seq<Name>)
    | Open(task: nat)
    | Deliver(task: nat)
    | Refresh(task: nat, extra: seq<Sub>)
    | Drop(task: nat)
    | Retire(task: nat)
    | FinishFlush(inline: bool)

  function VersionOf(s: State, name: Name): nat {
    if name in s.version then s.version[name] else 0
  }

  function SubsOf(subs: map<Name, seq<Sub>>, name: Name): seq<Sub> {
    if name in subs then subs[name] else []
  }

  function AddSub(subs: map<Name, seq<Sub>>, name: Name, sub: Sub): map<Name, seq<Sub>> {
    subs[name := SubsOf(subs, name) + [sub]]
  }

  /** One subscription per position of the dependency list, as createComputed makes them. */
  function AddSubs(subs: map<Name, seq<Sub>>, deps: seq<Name>, sub: Sub): map<Name, seq<Sub>>
    decreases |deps|
  {
    if deps == [] then subs else AddSubs(AddSub(subs, deps[0], sub), deps[1..], sub)
  }

  function Except(list: seq<Sub>, gone: Sub -> bool): (rest: seq<Sub>)
    ensures forall x :: x in rest <==> x in list && !gone(x)
  {
    if list == [] then [] else (if gone(list[0]) then [] else [list[0]]) + Except(list[1..], gone)
  }

  predicate Tells(sub: Sub, c: Name) {
    sub.Recompute? && sub.computed == c
  }

  function RemoveComputed(subs: map<Name, seq<Sub>>, c: Name): map<Name, seq<Sub>> {
    map n | n in subs :: Except(subs[n], (sub: Sub) => Tells(sub, c))
  }

  predicate Listens(list: seq<Sub>, id: nat) {
    exists i | 0 <= i < |list| :: list[i].User? && list[i].id == id
  }

  /** A subscriber set holds a listener once. */
  function AddUser(subs: map<Name, seq<Sub>>, name: Name, id: nat): map<Name, seq<Sub>> {
    if Listens(SubsOf(subs, name), id) then subs else AddSub(subs, name, User(id))
  }

  function RemoveUser(subs: map<Name, seq<Sub>>, name: Name, id: nat): map<Name, seq<Sub>> {
    subs[name := Except(SubsOf(subs, name), (sub: Sub) => sub.User? && sub.id == id)]
  }

  predicate Guarded(s: State, c: Name) {
    c in s.guard && s.guard[c] == s.flushId
  }

  // ---------------------------------------------------------------- what a batch has staged

  /** What `getStore` reads while the writes are staged, and what stays when they are committed. */
  function Overlay(stores: Stores, commits: seq<Staged>): Stores {
    if commits == [] then stores
    else
      var last := commits[|commits| - 1];
      Overlay(stores, commits[..|commits| - 1])[last.name := last.value]
  }

  function Bump(version: map<Name, nat>, name: Name): map<Name, nat> {
    version[name := (if name in version then version[name] else 0) + 1]
  }

  function Bumped(version: map<Name, nat>, commits: seq<Staged>): map<Name, nat> {
    if commits == [] then version
    else Bump(Bumped(version, commits[..|commits| - 1]), commits[|commits| - 1].name)
  }

  function NamesOf(commits: seq<Staged>): set<Name> {
    set w | w in commits :: w.name
  }

  function Seen(s: State): Stores {
    Overlay(s.stores, s.batch.commits)
  }

  predicate InBatch(s: State) {
    s.batch.depth > 0
  }

  // ---------------------------------------------------------------- writes

  /** Whole-store undefined is refused whatever the store's rules are. */
  predicate Refuses(refuses: (Name, Option<Value>, Value) -> bool, name: Name, held: Value, value: Value) {
    value == Undefined || refuses(name, Some(held), value)
  }

  predicate Refused(s: State, name: Name, value: Value) {
    Refuses(s.refuses, name, Read(s.stores, name), value)
  }

  /** The same inside a batch, for the value staged. */
  predicate RefusedThere(s: State, name: Name, value: Value) {
    Refuses(s.refuses, name, Read(Seen(s), name), value)
  }

  /** A committed write outside a batch: the value, the version bump, and `notify`, which adds to the
      pending set and schedules a flush. */
  function Committed(s: State, name: Name, value: Value, lastOutput: map<Name, Value>): State {
    s.(stores := s.stores[name := value],
       version := Bump(s.version, name),
       lastOutput := lastOutput,
       pending := s.pending + {name},
       scheduled := true)
  }

  /** A write by a user, to a leaf or over a computed's value. */
  function Overwritten(s: State, name: Name, value: Value): State {
    s.(stores := s.stores[name := value],
       version := Bump(s.version, name),
       pending := s.pending + {name},
       scheduled := true,
       misled := if name in s.entries && !Suits(s, name, value) then s.misled + {name} else s.misled - {name},
       stranded := s.stranded - {name})
  }

  function StagedWrite(s: State, name: Name, value: Value): State {
    s.(batch := s.batch.(commits := s.batch.commits + [Staged(name, value)],
                         touched := if name in s.entries then s.batch.touched + {name} else s.batch.touched))
  }

  predicate Unchanged(s: State, c: Name, next: Value) {
    (c in s.lastOutput && s.lastOutput[c] == next) || (c in s.stores && s.stores[c] == next)
  }

  /** Store a new output, unless it is the last output or the committed value already. The last output
      moves even when the store refuses the value. */
  function Settle(s: State, c: Name, next: Value): State {
    if Unchanged(s, c, next) then s
    else if Refused(s, c, next) then s.(lastOutput := s.lastOutput[c := next])
    else Committed(s, c, next, s.lastOutput[c := next])
  }

  /** The value that `c` is left with. */
  function LeftWith(s: State, c: Name, next: Value): Value {
    if Unchanged(s, c, next) || Refused(s, c, next) then Read(s.stores, c) else next
  }

  /** What the function of an entry makes of its dependencies' values; None when it throws. */
  function OutputOn(entry: Entry, stores: Stores): Option<Value> {
    entry.compute(Args(entry.deps, stores))
  }

  function Output(s: State, c: Name): Option<Value>
    requires c in s.entries
  {
    OutputOn(s.entries[c], s.stores)
  }

  /** A store would be right to hold `value` when its function has `output`: nothing better is known,
      or nothing else fits. */
  predicate Fits(refuses: (Name, Option<Value>, Value) -> bool, c: Name, output: Option<Value>, value: Value) {
    match output
    case None => true
    case Some(v) => v == value || Refuses(refuses, c, value, v)
  }

  predicate Suits(s: State, c: Name, value: Value)
    requires c in s.entries
  {
    Fits(s.refuses, c, Output(s, c), value)
  }

  /** `c` is told `next`; inside a flush its one recompute may be spent on it. If the value it is left
      with does not suit its own function, was it misled, or was this its own output? */
  function Told(s: State, c: Name, next: Value, spend: bool): State
    requires c in s.entries
  {
    var suits := Suits(s, c, LeftWith(s, c, next));
    var own := Output(s, c) == Some(next);
    s.(guard := if spend then s.guard[c := s.flushId] else s.guard,
       misled := if suits || own then s.misled - {c} else s.misled + {c},
       stranded := if !suits && own then s.stranded + {c} else s.stranded - {c})
  }

  /** `_recomputeAndFlush` outside a batch, by the closure made for the registration `closure`. */
  function RecomputeStep(s: State, c: Name, closure: Entry): State {
    if c !in s.entries || (s.flushing && Guarded(s, c)) then s
    else
      var next := RunCompute(closure, c, s.stores);
      Settle(Told(s, c, next, s.flushing), c, next)
  }

  /** Inside a batch it reads what is staged and stages its output; a refusal fails the batch. */
  function RecomputeInBatch(s: State, c: Name): State
    requires c in s.entries
  {
    if s.flushing && Guarded(s, c) then s
    else StageOutput(s, c, RunCompute(s.entries[c], c, Seen(s)))
  }

  function StageOutput(s: State, c: Name, next: Value): State {
    var same := (c in s.lastOutput && s.lastOutput[c] == next) || Read(Seen(s), c) == next;
    var refused := RefusedThere(s, c, next);
    s.(guard := if s.flushing then s.guard[c := s.flushId] else s.guard,
       lastOutput := if same then s.lastOutput else s.lastOutput[c := next],
       batch := s.batch.(
         commits := if same || refused then s.batch.commits else s.batch.commits + [Staged(c, next)],
         failed := s.batch.failed || (!same && refused),
         touched := s.batch.touched + {c}))
  }

  /** The recompute pass after a hydration, one computed: no guard. */
  function RerunStep(s: State, c: Name): State
    requires c in s.entries
  {
    var next := RunCompute(s.entries[c], c, s.stores);
    Settle(Told(s, c, next, false), c, next)
  }

  /** A store comes into being: its subscribers, if it has any already, are notified. */
  function CreateStore(s: State, n: Name, v: Value): State {
    var heard := SubsOf(s.subs, n) != [];
    s.(stores := s.stores[n := v],
       version := s.version[n := 0],
       pending := if heard then s.pending + {n} else s.pending,
       scheduled := s.scheduled || heard)
  }

  /** `createComputed` on a name that is not registered, outside a batch: entry and first output; the
      store is written if it exists, unless it refuses the output, and created otherwise; one
      subscription per dependency. */
  function CreateComputedStep(s: State, c: Name, entry: Entry): State {
    var initial := RunCompute(entry, c, s.stores);
    var kept := c in s.stores && Refused(s, c, initial);
    var heard := !kept && (c in s.stores || SubsOf(s.subs, c) != []);
    s.(entries := s.entries[c := entry],
       lastOutput := s.lastOutput[c := initial],
       stores := if kept then s.stores else s.stores[c := initial],
       version := if kept then s.version else if c in s.stores then Bump(s.version, c) else s.version[c := 0],
       pending := if heard then s.pending + {c} else s.pending,
       scheduled := s.scheduled || heard,
       subs := AddSubs(s.subs, entry.deps, Recompute(c, entry)),
       misled := s.misled - {c},
       stranded := s.stranded - {c})
  }

  /** Inside a batch, where the store has to exist: the registration is made at once, the first output
      is staged, and a refusal fails the batch. */
  function CreateInBatch(s: State, c: Name, entry: Entry): State {
    var initial := RunCompute(entry, c, Seen(s));
    var refused := RefusedThere(s, c, initial);
    s.(entries := s.entries[c := entry],
       lastOutput := s.lastOutput[c := initial],
       subs := AddSubs(s.subs, entry.deps, Recompute(c, entry)),
       misled := s.misled - {c},
       stranded := s.stranded - {c},
       batch := s.batch.(
         commits := if refused then s.batch.commits else s.batch.commits + [Staged(c, initial)],
         failed := s.batch.failed || refused,
         touched := s.batch.touched + {c}))
  }

  // ---------------------------------------------------------------- the end of a batch

  /** The outermost batch is over and `done` is committed, which is nothing if it failed. */
  function Emptied(s: State, done: seq<Staged>): State {
    s.(stores := Overlay(s.stores, done),
       version := Bumped(s.version, done),
       pending := s.pending + NamesOf(done),
       batch := NO_BATCH,
       scheduled := s.scheduled || s.pending + NamesOf(done) != {})
  }

  /** The computeds that the batch has touched and leaves out of date, with nobody to tell them. */
  ghost function LeftBehind(t: State, touched: set<Name>, done: seq<Staged>): set<Name> {
    set c | c in touched && c in t.entries && !UpToDate(t, c)
            && forall d | d in t.entries[c].deps :: d !in NamesOf(done)
  }

  ghost function Rejudged(t: State, touched: set<Name>, done: seq<Staged>): State {
    t.(misled := t.misled - touched, stranded := (t.stranded - touched) + LeftBehind(t, touched, done))
  }

  predicate GoesThrough(s: State, ok: bool) {
    ok && !s.batch.failed
  }

  /** What is committed at the end of the outermost batch. */
  function Commits(s: State, ok: bool): seq<Staged> {
    if GoesThrough(s, ok) then s.batch.commits else []
  }

  /** `ok` says that the body returned and that no commit failed; a failed commit is rolled back. */
  ghost function EndStep(s: State, ok: bool): State
    requires InBatch(s)
  {
    if s.batch.depth > 1 then s.(batch := s.batch.(depth := s.batch.depth - 1, failed := s.batch.failed || !ok))
    else Rejudged(Emptied(s, Commits(s, ok)), s.batch.touched, Commits(s, ok))
  }

  // ---------------------------------------------------------------- flushes

  /** The tasks of a plan whose turns have not begun. */
  function Waiting(plan: seq<Name>): seq<Task> {
    if plan == [] then [] else [Task(plan[0], false, 0, [])] + Waiting(plan[1..])
  }

  function Remove(queue: seq<Task>, i: nat): seq<Task>
    requires i < |queue|
  {
    queue[..i] + queue[i + 1..]
  }

  /** The turn of task `i` begins: its store's version and subscribers are read. */
  function Begun(s: State, i: nat): State
    requires i < |s.queue|
  {
    var name := s.queue[i].name;
    s.(queue := s.queue[i := Task(name, true, VersionOf(s, name), SubsOf(s.subs, name))])
  }

  /** The head subscriber of task `i` is taken off its list. */
  function Called(s: State, i: nat): State
    requires i < |s.queue| && s.queue[i].todo != []
  {
    s.(queue := s.queue[i := s.queue[i].(todo := s.queue[i].todo[1..])])
  }

  function DeliverStep(s: State, i: nat): State
    requires i < |s.queue| && s.queue[i].todo != []
  {
    var sub := s.queue[i].todo[0];
    if sub.Recompute? then RecomputeStep(Called(s, i), sub.computed, sub.closure) else Called(s, i)
  }

  /** When each event can happen. Writes, batches, user subscriptions, registrations and invalidations
      may happen at any point, so they stand for whatever user subscribers and code between chunks do.
      The body of a batch runs in one go: no step of a flush falls inside it. A write that is refused
      does nothing outside a batch and fails an open one, as does whatever needs a store created in it. */
  ghost predicate Enabled(s: State, e: Event) {
    match e
    case WriteStore(n, v) => n in s.stores && !RefusedThere(s, n, v)
    case CreateLeaf(n, v) => n !in s.stores && !InBatch(s) && !s.refuses(n, None, v)
    case BeginBatch => true
    case FailBatch => InBatch(s)
    case EndBatch(_) => InBatch(s)
    case CreateComputed(c, entry) =>
      c !in s.entries && !AnyReaches(s.entries, entry.deps, c)
      && (c in s.stores || (!InBatch(s) && !s.refuses(c, None, RunCompute(entry, c, s.stores))))
    case DeleteComputed(c) => c in s.entries
    case Subscribe(_, _) => true
    case Unsubscribe(_, _) => true
    case Invalidate(c) => c in s.entries
    case Rerun(c) => c in s.entries && !InBatch(s)
    case StartFlush(plan) =>
      !InBatch(s) && (s.scheduled || s.pending != {}) && !s.flushing && forall n | n in s.pending :: n in plan
    case Open(i) => !InBatch(s) && i < |s.queue| && !s.queue[i].begun
    case Deliver(i) => !InBatch(s) && i < |s.queue| && s.queue[i].begun && s.queue[i].todo != []
    case Refresh(i, extra) =>
      !InBatch(s) && i < |s.queue| && s.queue[i].begun
      && forall x | x in extra :: x in SubsOf(s.subs, s.queue[i].name)
    case Drop(i) =>
      !InBatch(s) && i < |s.queue| && s.queue[i].begun && s.queue[i].version != VersionOf(s, s.queue[i].name)
    case Retire(i) => !InBatch(s) && i < |s.queue| && s.queue[i].begun && s.queue[i].todo == []
    case FinishFlush(_) => !InBatch(s) && s.flushing && s.queue == []
  }

  ghost function Next(s: State, e: Event): State
    requires Enabled(s, e)
  {
    match e
    case WriteStore(n, v) => if InBatch(s) then StagedWrite(s, n, v) else Overwritten(s, n, v)
    case CreateLeaf(n, v) => CreateStore(s, n, v)
    case BeginBatch => s.(batch := s.batch.(depth := s.batch.depth + 1))
    case FailBatch => s.(batch := s.batch.(failed := true))
    case EndBatch(ok) => EndStep(s, ok)
    case CreateComputed(c, entry) => if InBatch(s) then CreateInBatch(s, c, entry) else CreateComputedStep(s, c, entry)
    case DeleteComputed(c) =>
      s.(entries := s.entries - {c}, lastOutput := s.lastOutput - {c}, subs := RemoveComputed(s.subs, c),
         misled := s.misled - {c}, stranded := s.stranded - {c})
    case Subscribe(n, id) => s.(subs := AddUser(s.subs, n, id))
    case Unsubscribe(n, id) => s.(subs := RemoveUser(s.subs, n, id))
    case Invalidate(c) => if InBatch(s) then RecomputeInBatch(s, c) else RecomputeStep(s, c, s.entries[c])
    case Rerun(c) => RerunStep(s, c)
    case StartFlush(plan) =>
      s.(flushing := true, flushId := s.flushId + 1, pending := {}, queue := Waiting(plan))
    case Open(i) => Begun(s, i)
    case Deliver(i) => DeliverStep(s, i)
    case Refresh(i, extra) => s.(queue := s.queue[i := s.queue[i].(todo := s.queue[i].todo + extra)])
    case Drop(i) => s.(pending := s.pending + {s.queue[i].name}, queue := Remove(s.queue, i))
    case Retire(i) =>
      s.(pending := if s.queue[i].version != VersionOf(s, s.queue[i].name) then s.pending + {s.queue[i].name}
                    else s.pending,
         queue := Remove(s.queue, i))
    case FinishFlush(inline) =>
      s.(flushing := false, scheduled := !inline && s.pending != {})
  }

  /** A run: each event is enabled where it happens. */
  ghost predicate CanRun(s: State, es: seq<Event>)
    decreases |es|
  {
    es == [] || (Enabled(s, es[0]) && CanRun(Next(s, es[0]), es[1..]))
  }

  ghost function Run(s: State, es: seq<Event>): State
    requires CanRun(s, es)
    decreases |es|
  {
    if es == [] then s else Run(Next(s, es[0]), es[1..])
  }

  // ---------------------------------------------------------------- the invariant

  /** `c` is yet to be told of its dependency `d` by the closure of its present registration. */
  ghost predicate Tellable(t: Task, d: Name, c: Name, entry: Entry) {
    t.name == d && (!t.begun || Recompute(c, entry) in t.todo)
  }

  ghost predicate Outstanding(s: State, d: Name, c: Name)
    requires c in s.entries
  {
    exists i :: 0 <= i < |s.queue| && Tellable(s.queue[i], d, c, s.entries[c])
  }

  /** Somebody still has to tell `c`: a dependency waits for the next flush, or is undelivered in
      this one while `c` has not used its one recompute of the flush. */
  ghost predicate Owed(s: State, c: Name)
    requires c in s.entries
  {
    exists d | d in s.entries[c].deps ::
      d in s.pending || (s.flushing && !Guarded(s, c) && Outstanding(s, d, c))
  }

  predicate UpToDate(s: State, c: Name)
    requires c in s.entries
  {
    Suits(s, c, Read(s.stores, c))
  }

  /** A computed that nobody has to tell any more is out of date exactly if it was misled or stranded. */
  ghost predicate Tracked(s: State, c: Name)
    requires c in s.entries
  {
    Owed(s, c) || (UpToDate(s, c) <==> c !in s.misled && c !in s.stranded)
  }

  ghost predicate Subscribed(s: State) {
    forall c, d | c in s.entries && d in s.entries[c].deps :: Recompute(c, s.entries[c]) in SubsOf(s.subs, d)
  }

  predicate HaveStores(s: State) {
    forall c | c in s.entries :: c in s.stores
  }

  predicate Bookkeeping(s: State) {
    && (forall c | c in s.guard :: s.guard[c] <= s.flushId)
    && (!s.flushing ==> s.queue == [])
  }

  /** What is staged is staged for stores, and the computeds among them are touched. */
  predicate BatchSound(s: State) {
    && (!InBatch(s) ==> s.batch == NO_BATCH)
    && forall w | w in s.batch.commits :: w.name in s.stores && (w.name in s.entries ==> w.name in s.batch.touched)
  }

  /** No lost wake-up: a pending store outside a batch always has a flush scheduled. */
  predicate Woken(s: State) {
    (s.flushing ==> s.scheduled) && (!InBatch(s) && s.pending != {} ==> s.scheduled)
  }

  /** What an open batch has touched is judged when it is over. */
  ghost predicate NothingForgotten(s: State) {
    forall c | c in s.entries && c !in s.batch.touched :: Tracked(s, c)
  }

  ghost predicate Structure(s: State) {
    Subscribed(s) && HaveStores(s) && Bookkeeping(s) && BatchSound(s)
  }

  ghost predicate Inv(s: State) {
    Structure(s) && NothingForgotten(s)
  }

  /** Nothing pending, no flush running, no batch open. */
  predicate AtRest(s: State) {
    s.pending == {} && !s.flushing && !InBatch(s)
  }

  /** The function's output is one that the store refuses, and the store holds something else. */
  predicate Withheld(s: State, c: Name)
    requires c in s.entries
  {
    match Output(s, c)
    case None => false
    case Some(v) => Refused(s, c, v) && Read(s.stores, c) != v
  }

  /** Every computed store equals its compute function on the current dependency values, but for
      outputs withheld and computeds misled or stranded. */
  ghost predicate Consistent(s: State) {
    forall c | c in s.entries ::
      Fresh(s.entries, s.stores, c) <==> c !in s.misled && c !in s.stranded && !Withheld(s, c)
  }

  /** The registry before anything is created. */
  function Start(refuses: (Name, Option<Value>, Value) -> bool): State {
    State(refuses, map[], map[], map[], map[], map[], {}, NO_BATCH, false, false, 0, map[], [], {}, {})
  }
}
