/** What a batch of writes means: staging, the commit steps and their failures, and the same writes
    made one by one. */
module Transactions {
  import opened Names
  import opened Values
  import opened Wrappers
  import opened Computeds

  /** A meta entry: the fields a rollback restores, and `rest` for those it does not. */
  datatype Meta = Meta(updateCount: nat, updatedAt: nat, correlation: Option<Name>, metrics: seq<nat>, rest: Value)

  /** One entry of `lastRuntimePatches`. */
  datatype PatchRecord = PatchRecord(store: Name, value: Value)

  /** The part of the registry that commits and rollbacks touch; pending is in order of notification,
      and `factories` holds what the initialiser of each lazy store will produce: None if it fails. */
  datatype Registry = Registry(
    stores: Stores,
    meta: map<Name, Meta>,
    pending: seq<Name>,
    lastPatches: seq<PatchRecord>,
    factories: map<Name, Option<Value>>)

  /** Every store has its meta entry, and only stores have initialisers. */
  predicate Fit(r: Registry) {
    r.factories.Keys <= r.stores.Keys <= r.meta.Keys
  }

  datatype Outcome = Done | Throws(message: Name) | MarksFailed(message: Name)

  datatype CommitResult = CommitResult(registry: Registry, outcome: Outcome)

  /** What a store's write hooks do to the registry during a commit: anything at all. */
  type Hook = Registry -> CommitResult

  /** What a batch does when it commits: an update, or the value a lazy store was given on first use. */
  datatype CommitStep =
    | CommitStep(name: Name, value: Value, correlation: Option<Name>)
    | Materialize(name: Name, value: Value)

  const MAX_SAFE_INTEGER := 9007199254740991

  /** bumpUpdateCount. */
  function Bump(count: nat): nat {
    if count >= MAX_SAFE_INTEGER then 0 else count + 1
  }

  function AddPending(r: Registry, name: Name): Registry {
    if name in r.pending then r else r.(pending := r.pending + [name])
  }

  /** The value and meta writes of commitStoreUpdate, before its hooks. */
  function WriteValue(r: Registry, step: CommitStep, now: nat): Registry
    requires step.CommitStep? && step.name in r.meta
  {
    var entry := r.meta[step.name];
    r.(stores := r.stores[step.name := step.value],
       meta := r.meta[step.name := entry.(
         updateCount := Bump(entry.updateCount), updatedAt := now, correlation := step.correlation)])
  }

  /** commitStoreUpdate: the value is set before a missing meta entry is noticed; hooks run before the
      notification, and a throwing hook prevents it. */
  function CommitUpdate(r: Registry, step: CommitStep, hooks: Name -> Hook, now: nat): CommitResult
    requires step.CommitStep?
  {
    if step.name !in r.meta then
      CommitResult(r.(stores := r.stores[step.name := step.value]), Throws([]))
    else
      var after := hooks(step.name)(WriteValue(r, step, now));
      if after.outcome.Throws? then after
      else CommitResult(AddPending(after.registry, step.name), after.outcome)
  }

  /** The first value of a lazy store, without version, hooks or notification; its initialiser is gone. */
  function WriteInitial(r: Registry, name: Name, value: Value): Registry {
    r.(stores := r.stores[name := value], factories := r.factories - {name})
  }

  function RunStep(r: Registry, step: CommitStep, hooks: Name -> Hook, now: nat): CommitResult {
    if step.Materialize? then CommitResult(WriteInitial(r, step.name, step.value), Done)
    else CommitUpdate(r, step, hooks, now)
  }

  /** The commit loop: stop at the first step that throws or marks the transaction failed. */
  function RunCommits(r: Registry, steps: seq<CommitStep>, hooks: Name -> Hook, now: nat): CommitResult
    decreases |steps|
  {
    if steps == [] then CommitResult(r, Done)
    else
      var first := RunStep(r, steps[0], hooks, now);
      if first.outcome.Done? then RunCommits(first.registry, steps[1..], hooks, now) else first
  }

  // ---------------------------------------------------------------- rollback

  /** restoreTransactionRollbackSnapshot: stores, pending and patches as captured; the restorable meta
      fields of entries that still exist. Initialisers are not restored. */
  function Restore(now: Registry, snapshot: Registry): Registry {
    Registry(snapshot.stores, RestoredMeta(now.meta, snapshot.meta), snapshot.pending, snapshot.lastPatches,
             now.factories)
  }

  function RestoredMeta(now: map<Name, Meta>, captured: map<Name, Meta>): map<Name, Meta> {
    map n | n in now :: if n in captured then RestoreMeta(now[n], captured[n]) else now[n]
  }

  function RestoreMeta(now: Meta, snapshot: Meta): Meta {
    snapshot.(rest := now.rest)
  }

  /** Names and values, pending stores and patches as before, and so are the counters of every entry
      that was there before and still is. */
  ghost predicate RolledBack(before: Registry, after: Registry) {
    && after.stores == before.stores
    && after.pending == before.pending
    && after.lastPatches == before.lastPatches
    && forall n | n in before.meta && n in after.meta ::
         && after.meta[n].updateCount == before.meta[n].updateCount
         && after.meta[n].updatedAt == before.meta[n].updatedAt
         && after.meta[n].correlation == before.meta[n].correlation
         && after.meta[n].metrics == before.meta[n].metrics
  }

  // ---------------------------------------------------------------- what a batch body does

  datatype WriteResult = Accepted | Refused(reason: Reason)

  /** What a set computes from the previous value: the next value and its patches, or a rejection by
      validation, path checks, a throwing mutator or middleware. */
  datatype Update = NewValue(value: Defined, patches: seq<PatchRecord>) | Reject(reason: Reason)

  /** A JavaScript value that was thrown; only its truthiness and message matter. */
  datatype Thrown = Falsy | Truthy(message: Name)

  /** How a batch body ends. */
  datatype Exit = Returns | ReturnsPromise | ThrowsValue(thrown: Thrown)

  datatype Op =
    | Set(name: Name, update: Value -> Update, correlation: Option<Name>)
    | Replace(name: Name, value: Value, correlation: Option<Name>)
    | Batch(body: seq<Op>, exit: Exit)

  /** The transaction state between begin and end. */
  datatype Tx = Tx(
    staged: map<Name, Value>,
    commits: seq<CommitStep>,
    patches: seq<PatchRecord>,
    failure: Option<Name>)

  const EMPTY := Tx(map[], [], [], None)

  /** markTransactionFailed keeps the first error. */
  function Mark(tx: Tx, message: Name): Tx {
    if tx.failure.Some? then tx else tx.(failure := Some(message))
  }

  /** A value as a write inside the batch reads it: staged, else committed. */
  function Seen(r: Registry, tx: Tx, name: Name): Value {
    if name in tx.staged then tx.staged[name] else Read(r.stores, name)
  }

  function Stage(tx: Tx, step: CommitStep, patches: seq<PatchRecord>): Tx {
    Tx(tx.staged[step.name := step.value], tx.commits + [step], tx.patches + patches, tx.failure)
  }

  /** endTransaction is told of an error only when the exit's error value is truthy. */
  function ExitError(exit: Exit): Option<Name> {
    match exit
    case Returns => None
    case ReturnsPromise => Some([])
    case ThrowsValue(Falsy) => None
    case ThrowsValue(Truthy(message)) => Some(message)
  }

  function EndInner(tx: Tx, exit: Exit): Tx {
    match ExitError(exit)
    case None => tx
    case Some(message) => Mark(tx, message)
  }

  /** The initialiser of a lazy store has still to run. */
  predicate Unready(r: Registry, name: Name) {
    name in r.factories && (name in r.stores ==> r.stores[name] == Undefined)
  }

  /** It has not run in this batch either. */
  predicate UnreadyInTx(r: Registry, tx: Tx, name: Name) {
    name !in tx.staged && Unready(r, name)
  }

  /** materializeInitial inside a batch, for an initialiser that does not fail. */
  function ReadyInTx(r: Registry, tx: Tx, name: Name): Tx {
    if UnreadyInTx(r, tx, name) && r.factories[name].Some? then
      tx.(staged := tx.staged[name := r.factories[name].value],
          commits := tx.commits + [Materialize(name, r.factories[name].value)])
    else tx
  }

  /** A set inside a batch. A store whose initialiser fails refuses it without marking the batch; any
      other refusal marks it. `same` is the shallow-equality shortcut. */
  function SetInTx(r: Registry, tx: Tx, name: Name, update: Value -> Update, correlation: Option<Name>,
                   same: (Value, Value) -> bool): (Tx, WriteResult)
  {
    if UnreadyInTx(r, tx, name) && r.factories[name].None? then (tx, Refused(Validate))
    else SetReadyInTx(r, ReadyInTx(r, tx, name), name, update, correlation, same)
  }

  function SetReadyInTx(r: Registry, tx: Tx, name: Name, update: Value -> Update, correlation: Option<Name>,
                        same: (Value, Value) -> bool): (Tx, WriteResult)
  {
    if name !in r.stores then (Mark(tx, []), Refused(NotFound))
    else
      var prev := Seen(r, tx, name);
      match update(prev)
      case Reject(reason) => (Mark(tx, []), Refused(reason))
      case NewValue(next, patches) =>
        if same(prev, next) then (tx, Accepted)
        else (Stage(tx, CommitStep(name, next, correlation), patches), Accepted)
  }

  /** A replace inside a batch: no equality shortcut, no initialiser. An empty name is refused without
      marking the batch. */
  function ReplaceInTx(r: Registry, tx: Tx, name: Name, value: Value, correlation: Option<Name>): (Tx, WriteResult) {
    if name == [] then (tx, Refused(InvalidArgs))
    else if name !in r.stores then (Mark(tx, []), Refused(NotFound))
    else if value == Undefined then (Mark(tx, []), Refused(Validate))
    else (Stage(tx, CommitStep(name, value, correlation), [PatchRecord(name, value)]), Accepted)
  }

  function OpInTx(r: Registry, tx: Tx, op: Op, same: (Value, Value) -> bool): Tx
    decreases op, 0
  {
    match op
    case Set(name, update, correlation) => SetInTx(r, tx, name, update, correlation, same).0
    case Replace(name, value, correlation) => ReplaceInTx(r, tx, name, value, correlation).0
    case Batch(body, exit) => EndInner(OpsInTx(r, tx, body, same), exit)
  }

  function OpsInTx(r: Registry, tx: Tx, ops: seq<Op>, same: (Value, Value) -> bool): Tx
    decreases ops, 1
  {
    if ops == [] then tx else OpsInTx(r, OpInTx(r, tx, ops[0], same), ops[1..], same)
  }

  // ---------------------------------------------------------------- the same writes, one by one

  /** A write outside any batch, by a store without hooks. */
  function DirectCommit(r: Registry, step: CommitStep, patches: seq<PatchRecord>, now: nat): Registry
    requires step.CommitStep? && step.name in r.meta
  {
    AddPending(WriteValue(r, step, now), step.name).(lastPatches := if patches == [] then r.lastPatches else patches)
  }

  predicate InitFails(r: Registry, name: Name) {
    Unready(r, name) && r.factories[name].None?
  }

  /** materializeInitial outside a batch. */
  function Readied(r: Registry, name: Name): Registry {
    if Unready(r, name) && r.factories[name].Some? then WriteInitial(r, name, r.factories[name].value) else r
  }

  function DirectSet(r: Registry, name: Name, update: Value -> Update, correlation: Option<Name>,
                     same: (Value, Value) -> bool, now: nat): (Registry, WriteResult)
    requires Fit(r)
  {
    if InitFails(r, name) then (r, Refused(Validate))
    else SetReady(Readied(r, name), name, update, correlation, same, now)
  }

  function SetReady(r: Registry, name: Name, update: Value -> Update, correlation: Option<Name>,
                    same: (Value, Value) -> bool, now: nat): (Registry, WriteResult)
    requires Fit(r)
  {
    if name !in r.stores then (r, Refused(NotFound))
    else
      match update(r.stores[name])
      case Reject(reason) => (r, Refused(reason))
      case NewValue(next, patches) =>
        if same(r.stores[name], next) then (r, Accepted)
        else (DirectCommit(r, CommitStep(name, next, correlation), patches, now), Accepted)
  }

  function DirectReplace(r: Registry, name: Name, value: Value, correlation: Option<Name>, now: nat)
    : (Registry, WriteResult)
    requires Fit(r)
  {
    if name == [] then (r, Refused(InvalidArgs))
    else if name !in r.stores then (r, Refused(NotFound))
    else if value == Undefined then (r, Refused(Validate))
    else (DirectCommit(r, CommitStep(name, value, correlation), [PatchRecord(name, value)], now), Accepted)
  }

  /** The writes of an op without the batches around them. */
  function DirectOp(r: Registry, op: Op, same: (Value, Value) -> bool, now: nat): (after: Registry)
    requires Fit(r)
    ensures Fit(after) && after.stores.Keys == r.stores.Keys && after.meta.Keys == r.meta.Keys
    decreases op, 0
  {
    match op
    case Set(name, update, correlation) => DirectSet(r, name, update, correlation, same, now).0
    case Replace(name, value, correlation) => DirectReplace(r, name, value, correlation, now).0
    case Batch(body, _) => DirectOps(r, body, same, now)
  }

  function DirectOps(r: Registry, ops: seq<Op>, same: (Value, Value) -> bool, now: nat): (after: Registry)
    requires Fit(r)
    ensures Fit(after) && after.stores.Keys == r.stores.Keys && after.meta.Keys == r.meta.Keys
    decreases ops, 1
  {
    if ops == [] then r else DirectOps(DirectOp(r, ops[0], same, now), ops[1..], same, now)
  }

  /** The patches those direct writes report, in order. */
  function OpPatches(r: Registry, op: Op, same: (Value, Value) -> bool, now: nat): seq<PatchRecord>
    requires Fit(r)
    decreases op, 0
  {
    match op
    case Set(name, update, _) => if InitFails(r, name) then [] else SetPatches(Readied(r, name), name, update, same)
    case Replace(name, value, _) =>
      if name != [] && name in r.stores && value != Undefined then [PatchRecord(name, value)] else []
    case Batch(body, _) => OpsPatches(r, body, same, now)
  }

  function SetPatches(r: Registry, name: Name, update: Value -> Update, same: (Value, Value) -> bool)
    : seq<PatchRecord>
  {
    if name !in r.stores then []
    else
      match update(r.stores[name])
      case Reject(_) => []
      case NewValue(next, patches) => if same(r.stores[name], next) then [] else patches
  }

  function OpsPatches(r: Registry, ops: seq<Op>, same: (Value, Value) -> bool, now: nat): seq<PatchRecord>
    requires Fit(r)
    decreases ops, 1
  {
    if ops == [] then []
    else OpPatches(r, ops[0], same, now) + OpsPatches(DirectOp(r, ops[0], same, now), ops[1..], same, now)
  }

  // ---------------------------------------------------------------- a batch that succeeds

  ghost predicate NoHooks(hooks: Name -> Hook) {
    forall n, r :: hooks(n)(r) == CommitResult(r, Done)
  }

  /** Equal but for time stamps and the last patches. */
  ghost predicate SameWrites(a: Registry, b: Registry) {
    && a.stores == b.stores && a.pending == b.pending && a.meta.Keys == b.meta.Keys && a.factories == b.factories
    && forall n | n in a.meta :: a.meta[n] == b.meta[n].(updatedAt := a.meta[n].updatedAt)
  }

  /** Committing what is staged so far on `r` gives what the direct writes gave, `d`. */
  ghost predicate Simulates(r: Registry, tx: Tx, hooks: Name -> Hook, now: nat, d: Registry) {
    var c := RunCommits(r, tx.commits, hooks, now);
    && c.outcome.Done? && SameWrites(c.registry, d)
    && d.stores.Keys == r.stores.Keys
    && (forall n | n in r.stores :: Seen(r, tx, n) == d.stores[n])
    && SameInitialisers(r, tx, d)
  }

  /** What the batch finds uninitialised is what the direct writes find so, with the same outcome. */
  ghost predicate SameInitialisers(r: Registry, tx: Tx, d: Registry) {
    forall n :: (UnreadyInTx(r, tx, n) <==> Unready(d, n)) && (Unready(d, n) ==> d.factories[n] == r.factories[n])
  }

  lemma {:induction false} RunCommitsSnoc(r: Registry, steps: seq<CommitStep>, step: CommitStep, hooks: Name -> Hook,
                                          now: nat)
    requires RunCommits(r, steps, hooks, now).outcome.Done?
    ensures RunCommits(r, steps + [step], hooks, now)
         == RunStep(RunCommits(r, steps, hooks, now).registry, step, hooks, now)
    decreases |steps|
  {
    if steps == [] {
      assert steps + [step] == [step];
      assert RunCommits(r, [step][1..], hooks, now) == CommitResult(r, Done);
    } else {
      assert (steps + [step])[0] == steps[0] && (steps + [step])[1..] == steps[1..] + [step];
      RunCommitsSnoc(RunStep(r, steps[0], hooks, now).registry, steps[1..], step, hooks, now);
    }
  }

  lemma QuietCommit(r: Registry, step: CommitStep, hooks: Name -> Hook, now: nat)
    requires NoHooks(hooks) && step.CommitStep? && step.name in r.meta
    ensures RunStep(r, step, hooks, now) == CommitResult(AddPending(WriteValue(r, step, now), step.name), Done)
  {
    var written := WriteValue(r, step, now);
    assert hooks(step.name)(written) == CommitResult(written, Done);
  }

  lemma StageSimulates(r: Registry, tx: Tx, hooks: Name -> Hook, now1: nat, d: Registry, now2: nat,
                       step: CommitStep, patches: seq<PatchRecord>)
    requires NoHooks(hooks) && Simulates(r, tx, hooks, now1, d)
    requires step.CommitStep? && step.value != Undefined && step.name in r.stores && step.name in d.meta
    ensures Simulates(r, Stage(tx, step, patches), hooks, now1, DirectCommit(d, step, patches, now2))
  {
    RunCommitsSnoc(r, tx.commits, step, hooks, now1);
    var c := RunCommits(r, tx.commits, hooks, now1).registry;
    QuietCommit(c, step, hooks, now1);
    StageKeepsInitialisers(r, tx, d, step, patches, DirectCommit(d, step, patches, now2));
  }

  lemma StageKeepsInitialisers(r: Registry, tx: Tx, d: Registry, step: CommitStep, patches: seq<PatchRecord>,
                               after: Registry)
    requires SameInitialisers(r, tx, d) && step.value != Undefined && d.stores.Keys == r.stores.Keys
    requires after.factories == d.factories && after.stores == d.stores[step.name := step.value]
    ensures SameInitialisers(r, Stage(tx, step, patches), after)
  {
    forall n ensures (UnreadyInTx(r, Stage(tx, step, patches), n) <==> Unready(after, n))
                  && (Unready(after, n) ==> after.factories[n] == r.factories[n]) {
      assert UnreadyInTx(r, tx, n) <==> Unready(d, n);
    }
  }

  /** Initialising a lazy store in the batch simulates initialising it at once. */
  lemma ReadySimulates(r: Registry, tx: Tx, name: Name, hooks: Name -> Hook, now1: nat, d: Registry)
    requires Simulates(r, tx, hooks, now1, d) && Fit(d)
    ensures Simulates(r, ReadyInTx(r, tx, name), hooks, now1, Readied(d, name)) && Fit(Readied(d, name))
  {
    assert UnreadyInTx(r, tx, name) <==> Unready(d, name);
    if Unready(d, name) && d.factories[name].Some? {
      var step := Materialize(name, d.factories[name].value);
      RunCommitsSnoc(r, tx.commits, step, hooks, now1);
      var tx1, d1 := ReadyInTx(r, tx, name), Readied(d, name);
      forall n
        ensures (UnreadyInTx(r, tx1, n) <==> Unready(d1, n)) && (Unready(d1, n) ==> d1.factories[n] == r.factories[n])
      {
        assert UnreadyInTx(r, tx, n) <==> Unready(d, n);
      }
    }
  }

  lemma {:induction false} FailureStaysOp(r: Registry, tx: Tx, op: Op, same: (Value, Value) -> bool)
    requires tx.failure.Some?
    ensures OpInTx(r, tx, op, same).failure == tx.failure
    decreases op, 0
  {
    if op.Batch? {
      FailureStays(r, tx, op.body, same);
    }
  }

  lemma {:induction false} FailureStays(r: Registry, tx: Tx, ops: seq<Op>, same: (Value, Value) -> bool)
    requires tx.failure.Some?
    ensures OpsInTx(r, tx, ops, same).failure == tx.failure
    decreases ops, 1
  {
    if ops != [] {
      FailureStaysOp(r, tx, ops[0], same);
      FailureStays(r, OpInTx(r, tx, ops[0], same), ops[1..], same);
    }
  }

  lemma NothingFailedBefore(r: Registry, tx: Tx, ops: seq<Op>, same: (Value, Value) -> bool)
    requires OpsInTx(r, tx, ops, same).failure.None?
    ensures tx.failure.None?
  {
    if tx.failure.Some? {
      FailureStays(r, tx, ops, same);
    }
  }

  lemma SetSimulates(r: Registry, tx: Tx, name: Name, update: Value -> Update, correlation: Option<Name>,
                     same: (Value, Value) -> bool, hooks: Name -> Hook, now1: nat, d: Registry, now2: nat)
    requires NoHooks(hooks) && Simulates(r, tx, hooks, now1, d) && Fit(d)
    requires SetReadyInTx(r, tx, name, update, correlation, same).0.failure.None?
    ensures var after := SetReadyInTx(r, tx, name, update, correlation, same).0;
      && Simulates(r, after, hooks, now1, SetReady(d, name, update, correlation, same, now2).0)
      && after.patches == tx.patches + SetPatches(d, name, update, same)
  {
    var out := update(Seen(r, tx, name));
    if out.NewValue? && !same(Seen(r, tx, name), out.value) {
      StageSimulates(r, tx, hooks, now1, d, now2, CommitStep(name, out.value, correlation), out.patches);
    }
  }

  lemma {:induction false} OpSimulates(r: Registry, tx: Tx, op: Op, same: (Value, Value) -> bool,
                                       hooks: Name -> Hook, now1: nat, d: Registry, now2: nat)
    requires NoHooks(hooks) && Simulates(r, tx, hooks, now1, d) && Fit(d)
    requires OpInTx(r, tx, op, same).failure.None?
    ensures Simulates(r, OpInTx(r, tx, op, same), hooks, now1, DirectOp(d, op, same, now2))
    ensures OpInTx(r, tx, op, same).patches == tx.patches + OpPatches(d, op, same, now2)
    decreases op, 0
  {
    match op
    case Set(name, update, correlation) =>
      assert UnreadyInTx(r, tx, name) <==> Unready(d, name);
      if !InitFails(d, name) {
        ReadySimulates(r, tx, name, hooks, now1, d);
        SetSimulates(r, ReadyInTx(r, tx, name), name, update, correlation, same, hooks, now1, Readied(d, name), now2);
      }
    case Replace(name, value, correlation) =>
      if name != [] {
        StageSimulates(r, tx, hooks, now1, d, now2, CommitStep(name, value, correlation), [PatchRecord(name, value)]);
      }
    case Batch(body, exit) =>
      OpsSimulate(r, tx, body, same, hooks, now1, d, now2);
  }

  lemma {:induction false} OpsSimulate(r: Registry, tx: Tx, ops: seq<Op>, same: (Value, Value) -> bool,
                                       hooks: Name -> Hook, now1: nat, d: Registry, now2: nat)
    requires NoHooks(hooks) && Simulates(r, tx, hooks, now1, d) && Fit(d)
    requires OpsInTx(r, tx, ops, same).failure.None?
    ensures Simulates(r, OpsInTx(r, tx, ops, same), hooks, now1, DirectOps(d, ops, same, now2))
    ensures OpsInTx(r, tx, ops, same).patches == tx.patches + OpsPatches(d, ops, same, now2)
    decreases ops, 1
  {
    if ops != [] {
      var tx1 := OpInTx(r, tx, ops[0], same);
      var d1 := DirectOp(d, ops[0], same, now2);
      NothingFailedBefore(r, tx1, ops[1..], same);
      OpSimulates(r, tx, ops[0], same, hooks, now1, d, now2);
      OpsSimulate(r, tx1, ops[1..], same, hooks, now1, d1, now2);
      var first, rest := OpPatches(d, ops[0], same, now2), OpsPatches(d1, ops[1..], same, now2);
      assert tx.patches + first + rest == tx.patches + (first + rest);
    }
  }

  /** A body in which nothing fails, committed at once, leaves every store with the value and update
      count, and the pending list in the order, that the same writes made one by one leave; and its
      patches are theirs, concatenated. */
  lemma BatchRefinesDirect(r: Registry, ops: seq<Op>, same: (Value, Value) -> bool,
                           hooks: Name -> Hook, now1: nat, now2: nat)
    requires NoHooks(hooks) && Fit(r)
    requires OpsInTx(r, EMPTY, ops, same).failure.None?
    ensures var tx := OpsInTx(r, EMPTY, ops, same);
      var c := RunCommits(r, tx.commits, hooks, now1);
      c.outcome.Done? && SameWrites(c.registry, DirectOps(r, ops, same, now2))
      && tx.patches == OpsPatches(r, ops, same, now2)
  {
    OpsSimulate(r, EMPTY, ops, same, hooks, now1, r, now2);
    assert [] + OpsPatches(r, ops, same, now2) == OpsPatches(r, ops, same, now2);
  }

  // ---------------------------------------------------------------- update counts

  /** Does a write to `n` come of this op, made directly? A refused one is none, nor is one that the
      equality shortcut drops. */
  function OpWrites(d: Registry, op: Op, n: Name, same: (Value, Value) -> bool, now: nat): nat
    requires Fit(d)
    decreases op, 0
  {
    match op
    case Set(name, update, _) =>
      if name == n && n in d.stores && !InitFails(d, n) && Changes(Read(Readied(d, n).stores, n), update, same) then 1
      else 0
    case Replace(name, value, _) =>
      if name == n && n != [] && n in d.stores && value != Undefined then 1 else 0
    case Batch(body, _) => OpsWrites(d, body, n, same, now)
  }

  predicate Changes(held: Value, update: Value -> Update, same: (Value, Value) -> bool) {
    update(held).NewValue? && !same(held, update(held).value)
  }

  /** How many writes to `n` come of a body, made one by one. */
  function OpsWrites(d: Registry, ops: seq<Op>, n: Name, same: (Value, Value) -> bool, now: nat): nat
    requires Fit(d)
    decreases ops, 1
  {
    if ops == [] then 0
    else OpWrites(d, ops[0], n, same, now) + OpsWrites(DirectOp(d, ops[0], same, now), ops[1..], n, same, now)
  }

  /** A count after so many writes: it wraps after the largest safe integer. */
  function Counted(before: nat, writes: nat): nat {
    (before + writes) % (MAX_SAFE_INTEGER + 1)
  }

  lemma CountedOn(before: nat, a: nat, b: nat)
    ensures Counted(Counted(before, a), b) == Counted(before, a + b)
  {
  }

  lemma SetCounts(d: Registry, name: Name, update: Value -> Update, correlation: Option<Name>, n: Name,
                  same: (Value, Value) -> bool, now: nat)
    requires Fit(d) && n in d.meta && d.meta[n].updateCount <= MAX_SAFE_INTEGER
    ensures n in DirectSet(d, name, update, correlation, same, now).0.meta
    ensures DirectSet(d, name, update, correlation, same, now).0.meta[n].updateCount
         == Counted(d.meta[n].updateCount, OpWrites(d, Set(name, update, correlation), n, same, now))
  {
  }

  lemma {:induction false} OpCounts(d: Registry, op: Op, n: Name, same: (Value, Value) -> bool, now: nat)
    requires Fit(d) && n in d.meta && d.meta[n].updateCount <= MAX_SAFE_INTEGER
    ensures DirectOp(d, op, same, now).meta[n].updateCount
         == Counted(d.meta[n].updateCount, OpWrites(d, op, n, same, now))
    decreases op, 0
  {
    match op
    case Set(name, update, correlation) => SetCounts(d, name, update, correlation, n, same, now);
    case Replace(_, _, _) =>
    case Batch(body, _) => OpsCount(d, body, n, same, now);
  }

  /** One by one: each store counts its writes. */
  lemma {:induction false} OpsCount(d: Registry, ops: seq<Op>, n: Name, same: (Value, Value) -> bool, now: nat)
    requires Fit(d) && n in d.meta && d.meta[n].updateCount <= MAX_SAFE_INTEGER
    ensures DirectOps(d, ops, same, now).meta[n].updateCount
         == Counted(d.meta[n].updateCount, OpsWrites(d, ops, n, same, now))
    decreases ops, 1
  {
    if ops != [] {
      var d1 := DirectOp(d, ops[0], same, now);
      OpCounts(d, ops[0], n, same, now);
      OpsCount(d1, ops[1..], n, same, now);
      CountedOn(d.meta[n].updateCount, OpWrites(d, ops[0], n, same, now), OpsWrites(d1, ops[1..], n, same, now));
    }
  }

  /** A batch that goes through leaves each store with its old count and one for each write to it that its
      body makes, whatever the stores, the values and the nesting. */
  lemma BatchCountsWrites(r: Registry, ops: seq<Op>, same: (Value, Value) -> bool, hooks: Name -> Hook, now: nat,
                          n: Name)
    requires NoHooks(hooks) && Fit(r) && n in r.meta && r.meta[n].updateCount <= MAX_SAFE_INTEGER
    requires OpsInTx(r, EMPTY, ops, same).failure.None?
    ensures var tx := OpsInTx(r, EMPTY, ops, same);
      var after := RunCommits(r, tx.commits, hooks, now).registry;
      n in after.meta
      && after.meta[n].updateCount == (r.meta[n].updateCount + OpsWrites(r, ops, n, same, now)) % (MAX_SAFE_INTEGER + 1)
  {
    hide OpsWrites, RunCommits, DirectOps, OpsInTx;
    BatchRefinesDirect(r, ops, same, hooks, now, now);
    OpsCount(r, ops, n, same, now);
  }

  // ---------------------------------------------------------------- which bodies succeed

  /** Made directly, one by one, every write would be accepted, or refused by its store's own failed
      initialiser or for an empty name; and every inner body ends well. */
  predicate OpAccepted(d: Registry, op: Op, same: (Value, Value) -> bool, now: nat)
    requires Fit(d)
    decreases op, 0
  {
    match op
    case Set(name, update, correlation) =>
      InitFails(d, name) || DirectSet(d, name, update, correlation, same, now).1.Accepted?
    case Replace(name, value, correlation) =>
      name == [] || DirectReplace(d, name, value, correlation, now).1.Accepted?
    case Batch(body, exit) => OpsAccepted(d, body, same, now) && ExitError(exit).None?
  }

  predicate OpsAccepted(d: Registry, ops: seq<Op>, same: (Value, Value) -> bool, now: nat)
    requires Fit(d)
    decreases ops, 1
  {
    ops == [] || (OpAccepted(d, ops[0], same, now) && OpsAccepted(DirectOp(d, ops[0], same, now), ops[1..], same, now))
  }

  lemma SetSucceedsIffAccepted(r: Registry, tx: Tx, name: Name, update: Value -> Update, correlation: Option<Name>,
                               same: (Value, Value) -> bool, hooks: Name -> Hook, now1: nat, d: Registry, now2: nat)
    requires NoHooks(hooks) && Simulates(r, tx, hooks, now1, d) && Fit(d) && tx.failure.None?
    ensures SetInTx(r, tx, name, update, correlation, same).0.failure.None?
       <==> InitFails(d, name) || DirectSet(d, name, update, correlation, same, now2).1.Accepted?
  {
    hide RunCommits, SameWrites;
    assert UnreadyInTx(r, tx, name) <==> Unready(d, name);
    ReadySimulates(r, tx, name, hooks, now1, d);
  }

  lemma {:induction false} OpSucceedsIffAccepted(r: Registry, tx: Tx, op: Op, same: (Value, Value) -> bool,
                                                 hooks: Name -> Hook, now1: nat, d: Registry, now2: nat)
    requires NoHooks(hooks) && Simulates(r, tx, hooks, now1, d) && Fit(d) && tx.failure.None?
    ensures OpInTx(r, tx, op, same).failure.None? <==> OpAccepted(d, op, same, now2)
    decreases op, 0
  {
    match op
    case Set(name, update, correlation) =>
      SetSucceedsIffAccepted(r, tx, name, update, correlation, same, hooks, now1, d, now2);
    case Replace(_, _, _) =>
    case Batch(body, _) => OpsSucceedIffAccepted(r, tx, body, same, hooks, now1, d, now2);
  }

  lemma {:induction false} OpsSucceedIffAccepted(r: Registry, tx: Tx, ops: seq<Op>, same: (Value, Value) -> bool,
                                                 hooks: Name -> Hook, now1: nat, d: Registry, now2: nat)
    requires NoHooks(hooks) && Simulates(r, tx, hooks, now1, d) && Fit(d) && tx.failure.None?
    ensures OpsInTx(r, tx, ops, same).failure.None? <==> OpsAccepted(d, ops, same, now2)
    decreases ops, 1
  {
    if ops != [] {
      var tx1 := OpInTx(r, tx, ops[0], same);
      OpSucceedsIffAccepted(r, tx, ops[0], same, hooks, now1, d, now2);
      if tx1.failure.Some? {
        FailureStays(r, tx1, ops[1..], same);
      } else {
        OpSimulates(r, tx, ops[0], same, hooks, now1, d, now2);
        OpsSucceedIffAccepted(r, tx1, ops[1..], same, hooks, now1, DirectOp(d, ops[0], same, now2), now2);
      }
    }
  }

  /** The body of an outermost batch fails it exactly when one of its writes, made one by one, would be
      refused, or an inner body fails. */
  lemma BodySucceedsIffAccepted(r: Registry, ops: seq<Op>, same: (Value, Value) -> bool, now: nat)
    requires Fit(r)
    ensures OpsInTx(r, EMPTY, ops, same).failure.None? <==> OpsAccepted(r, ops, same, now)
  {
    OpsSucceedIffAccepted(r, EMPTY, ops, same, _ => registry => CommitResult(registry, Done), now, r, now);
  }

  predicate PendingOnce(r: Registry) {
    forall i, j | 0 <= i < j < |r.pending| :: r.pending[i] != r.pending[j]
  }

  predicate Updates(step: CommitStep, name: Name) {
    step.CommitStep? && step.name == name
  }

  /** Committing keeps each store pending at most once and makes every committed store pending. */
  lemma {:induction false} CommitsPendOnce(r: Registry, steps: seq<CommitStep>, hooks: Name -> Hook, now: nat)
    requires NoHooks(hooks) && PendingOnce(r)
    requires forall i | 0 <= i < |steps| :: steps[i].CommitStep? ==> steps[i].name in r.meta
    ensures var c := RunCommits(r, steps, hooks, now);
      c.outcome.Done? && PendingOnce(c.registry)
      && (forall n :: n in c.registry.pending <==>
            n in r.pending || exists i :: 0 <= i < |steps| && Updates(steps[i], n))
    decreases |steps|
  {
    if steps != [] {
      var first := RunStep(r, steps[0], hooks, now);
      if steps[0].CommitStep? {
        QuietCommit(r, steps[0], hooks, now);
      }
      forall i | 0 <= i < |steps[1..]| && steps[1..][i].CommitStep? ensures steps[1..][i].name in first.registry.meta {
        assert steps[1..][i] == steps[i + 1];
      }
      CommitsPendOnce(first.registry, steps[1..], hooks, now);
      var c := RunCommits(r, steps, hooks, now).registry;
      forall n ensures n in c.pending <==> n in r.pending || exists i :: 0 <= i < |steps| && Updates(steps[i], n) {
        if exists i :: 0 <= i < |steps| && Updates(steps[i], n) {
          var i :| 0 <= i < |steps| && Updates(steps[i], n);
          if i > 0 {
            assert Updates(steps[1..][i - 1], n);
          }
        }
        if j: nat :| j < |steps[1..]| && Updates(steps[1..][j], n) {
          assert Updates(steps[j + 1], n);
        }
      }
    }
  }

  // ---------------------------------------------------------------- a batch that fails

  /** What the outermost end makes of a registry: untouched when the body failed, committed, or rolled
      back from wherever the failing commit step left it. */
  function Outermost(r: Registry, tx: Tx, hooks: Name -> Hook, now: nat): (Registry, bool) {
    if tx.failure.Some? then (r, false)
    else
      var c := RunCommits(r, tx.commits, hooks, now);
      if c.outcome.Done?
      then (c.registry.(lastPatches := if tx.patches == [] then c.registry.lastPatches else tx.patches), true)
      else (Restore(c.registry, r), false)
  }

  /** Atomicity: whatever the body and the commit steps did, a batch that does not succeed is undone. */
  lemma FailureIsUndone(r: Registry, tx: Tx, hooks: Name -> Hook, now: nat)
    requires !Outermost(r, tx, hooks, now).1
    ensures RolledBack(r, Outermost(r, tx, hooks, now).0)
  {
    var c := RunCommits(r, tx.commits, hooks, now);
    if tx.failure.None? {
      assert forall n | n in r.meta && n in c.registry.meta ::
        Restore(c.registry, r).meta[n] == r.meta[n].(rest := c.registry.meta[n].rest);
    }
  }

  /** A batch whose body throws commits all the same exactly when nothing failed before and the thrown
      value is falsy: endTransaction tests the error by truthiness. */
  lemma ThrowingBodyFails(r: Registry, ops: seq<Op>, thrown: Thrown, same: (Value, Value) -> bool)
    ensures var tx := OpsInTx(r, EMPTY, ops, same);
      EndInner(tx, ThrowsValue(thrown)).failure.None? <==> tx.failure.None? && thrown.Falsy?
  {
  }

  /** Exactly when an outermost batch without commit hooks goes through: each of its writes would be
      accepted on its own or refused by its store's failed initialiser or for an empty name, no inner
      body fails, and its body returns no promise and throws nothing but, at most, a falsy value. */
  lemma BatchSucceedsIff(r: Registry, ops: seq<Op>, exit: Exit, same: (Value, Value) -> bool, hooks: Name -> Hook,
                         now: nat)
    requires NoHooks(hooks) && Fit(r)
    ensures Outermost(r, EndInner(OpsInTx(r, EMPTY, ops, same), exit), hooks, now).1
       <==> OpsAccepted(r, ops, same, now) && (exit.Returns? || exit == ThrowsValue(Falsy))
  {
    BodySucceedsIffAccepted(r, ops, same, now);
    if OpsInTx(r, EMPTY, ops, same).failure.None? {
      BatchRefinesDirect(r, ops, same, hooks, now, now);
    }
  }

  lemma OneReplace(r: Registry, name: Name, value: Value, same: (Value, Value) -> bool, hooks: Name -> Hook, now: nat)
    requires NoHooks(hooks) && name != [] && name in r.stores && name in r.meta && value != Undefined
    ensures var tx := OpsInTx(r, EMPTY, [Replace(name, value, None)], same);
      tx.failure.None? && Outermost(r, tx, hooks, now).1
      && Outermost(r, tx, hooks, now).0.stores == r.stores[name := value]
  {
    var op, step := Replace(name, value, None), CommitStep(name, value, None);
    assert OpInTx(r, EMPTY, op, same).commits == [step];
    assert OpsInTx(r, EMPTY, [op], same) == OpsInTx(r, OpInTx(r, EMPTY, op, same), [op][1..], same);
    QuietCommit(r, step, hooks, now);
    assert RunCommits(r, [step], hooks, now)
        == RunCommits(RunStep(r, step, hooks, now).registry, [step][1..], hooks, now);
  }

  /** What a body loses by throwing a falsy value: any replace it has made is committed. */
  lemma FalsyThrowCommits(r: Registry, name: Name, value: Value, hooks: Name -> Hook, same: (Value, Value) -> bool,
                          now: nat)
    requires NoHooks(hooks) && name != [] && name in r.stores && name in r.meta
    requires value != Undefined && value != r.stores[name]
    ensures var body := OpsInTx(r, EMPTY, [Replace(name, value, None)], same);
      var end := Outermost(r, EndInner(body, ThrowsValue(Falsy)), hooks, now);
      end.1 && end.0.stores == r.stores[name := value] && end.0.stores != r.stores
  {
    OneReplace(r, name, value, same, hooks, now);
    assert r.stores[name := value][name] != r.stores[name];
  }

  /** A set refused by its store's failed initialiser leaves the batch unmarked: a write made before it
      is committed all the same. */
  lemma FailedInitialiserCommits(r: Registry, name: Name, value: Value, unready: Name, update: Value -> Update,
                                 hooks: Name -> Hook, same: (Value, Value) -> bool, now: nat)
    requires NoHooks(hooks) && name != [] && name in r.stores && name in r.meta
    requires value != Undefined && value != r.stores[name] && InitFails(r, unready) && unready != name
    ensures var tx := OpsInTx(r, EMPTY, [Replace(name, value, None), Set(unready, update, None)], same);
      && SetInTx(r, OpsInTx(r, EMPTY, [Replace(name, value, None)], same), unready, update, None, same).1
          == Refused(Validate)
      && Outermost(r, tx, hooks, now).1 && Outermost(r, tx, hooks, now).0.stores == r.stores[name := value] != r.stores
  {
    var first, second := Replace(name, value, None), Set(unready, update, None);
    OneReplace(r, name, value, same, hooks, now);
    var tx := OpInTx(r, EMPTY, first, same);
    assert OpsInTx(r, EMPTY, [first], same) == OpsInTx(r, tx, [first][1..], same) == tx;
    assert [first, second][1..] == [second] && [second][1..] == [];
    assert OpInTx(r, tx, second, same) == tx;
    assert OpsInTx(r, tx, [second], same) == OpsInTx(r, tx, [], same) == tx;
    assert r.stores[name := value][name] != r.stores[name];
  }

  /** A replace of the empty name is refused and leaves the batch unmarked, too: the write after it is
      committed. */
  lemma EmptyNameCommits(r: Registry, lost: Value, name: Name, value: Value, hooks: Name -> Hook,
                         same: (Value, Value) -> bool, now: nat)
    requires NoHooks(hooks) && name != [] && name in r.stores && name in r.meta
    requires value != Undefined && value != r.stores[name]
    ensures ReplaceInTx(r, EMPTY, [], lost, None).1 == Refused(InvalidArgs)
    ensures var tx := OpsInTx(r, EMPTY, [Replace([], lost, None), Replace(name, value, None)], same);
      Outermost(r, tx, hooks, now).1 && Outermost(r, tx, hooks, now).0.stores == r.stores[name := value] != r.stores
  {
    var first, second := Replace([], lost, None), Replace(name, value, None);
    assert OpInTx(r, EMPTY, first, same) == EMPTY;
    assert [first, second][1..] == [second];
    assert OpsInTx(r, EMPTY, [first, second], same) == OpsInTx(r, EMPTY, [second], same);
    OneReplace(r, name, value, same, hooks, now);
    assert r.stores[name := value][name] != r.stores[name];
  }

  // ---------------------------------------------------------------- what a rollback forgets

  /** What `getStore` would give: a lazy store is initialised by its first read. */
  function ReadLazy(r: Registry, name: Name): Value {
    if InitFails(r, name) then Null
    else Read(Readied(r, name).stores, name)
  }

  /** The steps that ran, the failing one included. */
  function Ran(r: Registry, steps: seq<CommitStep>, hooks: Name -> Hook, now: nat): nat
    decreases |steps|
  {
    if steps == [] then 0
    else
      var first := RunStep(r, steps[0], hooks, now);
      if first.outcome.Done? then 1 + Ran(first.registry, steps[1..], hooks, now) else 1
  }

  predicate Initialised(steps: seq<CommitStep>, name: Name) {
    exists i :: 0 <= i < |steps| && steps[i].Materialize? && steps[i].name == name
  }

  ghost predicate HooksKeepFactories(hooks: Name -> Hook) {
    forall n, r :: hooks(n)(r).registry.factories == r.factories
  }

  lemma {:induction false} RanWithin(r: Registry, steps: seq<CommitStep>, hooks: Name -> Hook, now: nat)
    ensures Ran(r, steps, hooks, now) <= |steps|
    decreases |steps|
  {
    if steps != [] && RunStep(r, steps[0], hooks, now).outcome.Done? {
      RanWithin(RunStep(r, steps[0], hooks, now).registry, steps[1..], hooks, now);
    }
  }

  /** Exactly which initialisers a batch that fails while committing has lost: those of the stores that
      the steps up to the failing one initialised. The rollback does not bring them back. */
  lemma {:induction false} LostInitialisers(r: Registry, steps: seq<CommitStep>, hooks: Name -> Hook, now: nat,
                                            name: Name)
    requires HooksKeepFactories(hooks)
    ensures Ran(r, steps, hooks, now) <= |steps|
    ensures name in Restore(RunCommits(r, steps, hooks, now).registry, r).factories
       <==> name in r.factories && !Initialised(steps[..Ran(r, steps, hooks, now)], name)
    decreases |steps|
  {
    if steps != [] {
      var first, k := RunStep(r, steps[0], hooks, now), Ran(r, steps, hooks, now);
      RanWithin(r, steps, hooks, now);
      assert steps[..k] == [steps[0]] + steps[1..k];
      if first.outcome.Done? {
        LostInitialisers(first.registry, steps[1..], hooks, now, name);
        assert steps[1..][..k - 1] == steps[1..k];
        assert Initialised(steps[1..k], name) ==> Initialised(steps[..k], name) by {
          if i :| 0 <= i < |steps[1..k]| && steps[1..k][i].Materialize? && steps[1..k][i].name == name {
            assert steps[..k][i + 1] == steps[1..k][i];
          }
        }
        assert Initialised(steps[..k], name) ==>
            Initialised(steps[1..k], name) || (steps[0].Materialize? && steps[0].name == name) by {
          if i :| 0 <= i < k && steps[..k][i].Materialize? && steps[..k][i].name == name && i > 0 {
            assert steps[1..k][i - 1] == steps[..k][i];
          }
        }
        assert steps[0].Materialize? && steps[0].name == name ==>
            steps[..k][0].Materialize? && steps[..k][0].name == name;
      }
    }
  }

  /** What a lazy store that nothing had read yet is worth after a failed commit: what its initialiser
      gives, unless the failed commit had run it; then undefined, for good. */
  lemma LazyStoreAfterRollback(r: Registry, tx: Tx, hooks: Name -> Hook, now: nat, name: Name)
    requires HooksKeepFactories(hooks) && tx.failure.None? && !Outermost(r, tx, hooks, now).1
    requires Unready(r, name) && name in r.stores
    ensures Ran(r, tx.commits, hooks, now) <= |tx.commits|
    ensures ReadLazy(Outermost(r, tx, hooks, now).0, name)
         == if Initialised(tx.commits[..Ran(r, tx.commits, hooks, now)], name) then Undefined else ReadLazy(r, name)
  {
    LostInitialisers(r, tx.commits, hooks, now, name);
    FactoriesOnlyShrink(r, tx.commits, hooks, now);
  }

  lemma {:induction false} FactoriesOnlyShrink(r: Registry, steps: seq<CommitStep>, hooks: Name -> Hook, now: nat)
    requires HooksKeepFactories(hooks)
    ensures forall n | n in RunCommits(r, steps, hooks, now).registry.factories ::
              n in r.factories && RunCommits(r, steps, hooks, now).registry.factories[n] == r.factories[n]
    decreases |steps|
  {
    if steps != [] && RunStep(r, steps[0], hooks, now).outcome.Done? {
      FactoriesOnlyShrink(RunStep(r, steps[0], hooks, now).registry, steps[1..], hooks, now);
    }
  }

  lemma ThreeOps(r: Registry, tx: Tx, a: Op, b: Op, c: Op, same: (Value, Value) -> bool)
    ensures OpsInTx(r, tx, [a, b, c], same)
         == OpInTx(r, OpInTx(r, OpInTx(r, tx, a, same), b, same), c, same)
  {
    assert [a, b, c][1..] == [b, c] && [b, c][1..] == [c] && [c][1..] == [];
    var tx1 := OpInTx(r, tx, a, same);
    var tx2 := OpInTx(r, tx1, b, same);
    assert OpsInTx(r, tx2, [c], same) == OpsInTx(r, OpInTx(r, tx2, c, same), [], same);
  }

  lemma ThreeCommits(r: Registry, a: CommitStep, b: CommitStep, c: CommitStep, hooks: Name -> Hook, now: nat)
    requires RunStep(r, a, hooks, now).outcome.Done?
    requires RunStep(RunStep(r, a, hooks, now).registry, b, hooks, now).outcome.Done?
    ensures var r2 := RunStep(RunStep(r, a, hooks, now).registry, b, hooks, now).registry;
      var last := RunStep(r2, c, hooks, now);
      !last.outcome.Done? ==> RunCommits(r, [a, b, c], hooks, now) == last && Ran(r, [a, b, c], hooks, now) == 3
  {
    var r1 := RunStep(r, a, hooks, now).registry;
    var r2 := RunStep(r1, b, hooks, now).registry;
    assert [a, b, c][1..] == [b, c] && [b, c][1..] == [c];
    assert Ran(r1, [b, c], hooks, now) == 1 + Ran(r2, [c], hooks, now);
    assert RunCommits(r1, [b, c], hooks, now) == RunCommits(r2, [c], hooks, now);
  }

  /** Concretely: a body that first touches a lazy store and then replaces `a` and `b`, where the hook of
      `a` leaves `b` without its meta entry, so that the commit of `b` throws. The batch is rolled back,
      and the lazy store has lost its value. */
  lemma RollbackForgetsInitialiser(r: Registry, lazyName: Name, v: Defined, touch: Value -> Update,
                                   a: Name, x: Defined, b: Name, y: Defined,
                                   same: (Value, Value) -> bool, hooks: Name -> Hook, now: nat)
    requires Fit(r) && Unready(r, lazyName) && r.factories[lazyName] == Some(v)
    requires touch(v) == NewValue(v, []) && same(v, v)
    requires a in r.stores && b in r.stores && a != [] && b != []
    requires HooksKeepFactories(hooks)
    requires forall s :: hooks(a)(s).outcome.Done? && b !in hooks(a)(s).registry.meta
    ensures var tx := OpsInTx(r, EMPTY, [Set(lazyName, touch, None), Replace(a, x, None), Replace(b, y, None)], same);
      var after := Outermost(r, tx, hooks, now);
      tx.failure.None? && !after.1 && ReadLazy(r, lazyName) == v && ReadLazy(after.0, lazyName) == Undefined
  {
    var op1, op2, op3 := Set(lazyName, touch, None), Replace(a, x, None), Replace(b, y, None);
    var s1, s2, s3 := Materialize(lazyName, v), CommitStep(a, x, None), CommitStep(b, y, None);
    ThreeOps(r, EMPTY, op1, op2, op3, same);
    var tx := OpsInTx(r, EMPTY, [op1, op2, op3], same);
    assert OpInTx(r, EMPTY, op1, same).commits == [s1];
    assert tx.commits == [s1, s2, s3];
    ThreeCommits(r, s1, s2, s3, hooks, now);
    LazyStoreAfterRollback(r, tx, hooks, now, lazyName);
    assert tx.commits[..3][0].Materialize?;
  }
}
