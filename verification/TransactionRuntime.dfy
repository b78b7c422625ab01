/** The registry with its transaction state: nested batches, staging, the commit loop with rollback
    (src/core/store-transaction.ts, store-write-shared.ts, store-notify.ts, store-set-impl.ts). */
module TransactionRuntimes {
  import opened Names
  import opened Values
  import opened Wrappers
  import opened Computeds
  import opened Transactions

  class StoreRegistry {
    const hooks: Name -> Hook
    const same: (Value, Value) -> bool
    var stores: Stores
    var meta: map<Name, Meta>
    var pending: seq<Name>
    var lastPatches: seq<PatchRecord>
    var factories: map<Name, Option<Value>>
    var depth: nat
    var commits: seq<CommitStep>
    var staged: map<Name, Value>
    var patches: seq<PatchRecord>
    var failed: bool
    var error: Option<Name>
    var batchDepth: nat
    var scheduled: bool

    function Reg(): Registry
      reads this
    {
      Registry(stores, meta, pending, lastPatches, factories)
    }

    function TxState(): Tx
      reads this
    {
      Tx(staged, commits, patches, error)
    }

    /** An error is recorded exactly when the transaction is marked failed. */
    predicate Valid()
      reads this
    {
      failed <==> error.Some?
    }

    constructor (hooks: Name -> Hook, same: (Value, Value) -> bool)
      ensures Valid() && depth == 0 && Reg() == Registry(map[], map[], [], [], map[])
    {
      this.hooks, this.same := hooks, same;
      stores, meta, pending, lastPatches, factories := map[], map[], [], [], map[];
      depth, commits, staged, patches, failed, error := 0, [], map[], [], false, None;
      batchDepth, scheduled := 0, false;
    }

    method BeginTransaction()
      requires Valid()
      modifies this`depth, this`commits, this`staged, this`patches, this`failed, this`error
      ensures Valid() && depth == old(depth) + 1
      ensures TxState() == if old(depth) == 0 then EMPTY else old(TxState())
    {
      depth := depth + 1;
      if depth == 1 {
        ResetTransaction();
      }
    }

    method ResetTransaction()
      modifies this`commits, this`staged, this`patches, this`failed, this`error
      ensures Valid() && TxState() == EMPTY
    {
      commits, staged, patches, failed, error := [], map[], [], false, None;
    }

    method MarkTransactionFailed(message: Name)
      requires Valid()
      modifies this`failed, this`error
      ensures Valid() && TxState() == Mark(old(TxState()), message)
    {
      failed := true;
      if error.None? {
        error := Some(message);
      }
    }

    /** commitStoreUpdate: one commit step, which may throw or mark the transaction failed. */
    method CommitStoreUpdate(step: CommitStep, now: nat) returns (outcome: Outcome)
      requires step.CommitStep?
      modifies this`stores, this`meta, this`pending, this`lastPatches, this`factories
      ensures CommitResult(Reg(), outcome) == CommitUpdate(old(Reg()), step, hooks, now)
    {
      if step.name !in meta {
        stores := stores[step.name := step.value];
        return Throws([]);
      }
      var entry := meta[step.name];
      var count := if entry.updateCount >= MAX_SAFE_INTEGER then 0 else entry.updateCount + 1;
      stores := stores[step.name := step.value];
      meta := meta[step.name := entry.(updateCount := count, updatedAt := now, correlation := step.correlation)];
      var after := hooks(step.name)(Reg());
      stores, meta, factories := after.registry.stores, after.registry.meta, after.registry.factories;
      pending, lastPatches := after.registry.pending, after.registry.lastPatches;
      outcome := after.outcome;
      if !outcome.Throws? && step.name !in pending {
        pending := pending + [step.name];
      }
    }

    /** One registered commit function: an update, or the first value of a lazy store. */
    method RunCommit(step: CommitStep, now: nat) returns (outcome: Outcome)
      modifies this`stores, this`meta, this`pending, this`lastPatches, this`factories
      ensures CommitResult(Reg(), outcome) == RunStep(old(Reg()), step, hooks, now)
    {
      outcome := Done;
      if step.Materialize? {
        SetInitial(step.name, step.value);
      } else {
        outcome := CommitStoreUpdate(step, now);
      }
    }

    method SetInitial(name: Name, value: Value)
      modifies this`stores, this`factories
      ensures Reg() == WriteInitial(old(Reg()), name, value)
    {
      stores, factories := stores[name := value], factories - {name};
    }

    /** The store half of restoreTransactionRollbackSnapshot: captured values back, other names gone. */
    method RestoreStores(captured: Stores)
      modifies this`stores
      ensures stores == captured
    {
      var extra := stores.Keys;
      var todo := captured.Keys;
      while todo != {}
        invariant todo <= captured.Keys
        invariant extra == old(stores).Keys - (captured.Keys - todo)
        invariant stores.Keys == old(stores).Keys + (captured.Keys - todo)
        invariant forall n | n in captured && n !in todo :: stores[n] == captured[n]
        decreases todo
      {
        var name :| name in todo;
        stores := stores[name := captured[name]];
        extra := extra - {name};
        todo := todo - {name};
      }
      stores := stores - extra;
    }

    /** Its meta half: the restorable fields of entries that still exist. */
    method RestoreMetaEntries(captured: map<Name, Meta>)
      modifies this`meta
      ensures meta == RestoredMeta(old(meta), captured)
    {
      var todo := captured.Keys;
      while todo != {}
        invariant todo <= captured.Keys && meta.Keys == old(meta).Keys
        invariant forall n | n in meta ::
          meta[n] == if n in captured && n !in todo then RestoreMeta(old(meta)[n], captured[n]) else old(meta)[n]
        decreases todo
      {
        var name :| name in todo;
        if name in meta {
          meta := meta[name := RestoreMeta(meta[name], captured[name])];
        }
        todo := todo - {name};
      }
    }

    /** restoreTransactionRollbackSnapshot. */
    method RestoreSnapshot(snapshot: Registry)
      modifies this`stores, this`meta, this`pending, this`lastPatches, this`factories
      ensures Reg() == Restore(old(Reg()), snapshot)
    {
      RestoreStores(snapshot.stores);
      RestoreMetaEntries(snapshot.meta);
      pending, lastPatches := snapshot.pending, snapshot.lastPatches;
    }

    /** The commit loop of endTransaction: every step, or the state before the first. */
    method CommitAll(now: nat) returns (finalError: Option<Name>)
      requires Valid() && !failed
      modifies this`stores, this`meta, this`pending, this`lastPatches, this`factories, this`failed, this`error
      ensures var c := RunCommits(old(Reg()), commits, hooks, now);
        && (finalError.None? <==> c.outcome.Done?)
        && Reg() == if c.outcome.Done? then c.registry else Restore(c.registry, old(Reg()))
    {
      var snapshot := Reg();
      finalError := None;
      var i := 0;
      assert commits[0..] == commits;
      while i < |commits|
        invariant 0 <= i <= |commits| && !failed && Valid() && finalError.None?
        invariant RunCommits(Reg(), commits[i..], hooks, now) == RunCommits(snapshot, commits, hooks, now)
      {
        assert commits[i..][1..] == commits[i + 1..];
        var outcome := RunCommit(commits[i], now);
        if !outcome.Done? {
          MarkTransactionFailed(outcome.message);
          finalError := error;
          RestoreSnapshot(snapshot);
          return;
        }
        i := i + 1;
      }
    }

    /** endTransaction, told of the error a batch ended with; a falsy error is no error to it. */
    method EndTransaction(err: Option<Thrown>, now: nat) returns (finalError: Option<Name>)
      requires Valid() && depth > 0
      modifies this`stores, this`meta, this`pending, this`lastPatches, this`factories, this`depth, this`commits
      modifies this`staged, this`patches, this`failed, this`error
      ensures Valid() && depth == old(depth) - 1
      ensures old(depth) > 1 ==>
        finalError.None? && Reg() == old(Reg()) && TxState() == Told(old(TxState()), err)
      ensures old(depth) == 1 ==>
        && Reg() == Outermost(old(Reg()), Told(old(TxState()), err), hooks, now).0
        && (finalError.None? <==> Outermost(old(Reg()), Told(old(TxState()), err), hooks, now).1)
    {
      if err.Some? && err.value.Truthy? {
        MarkTransactionFailed(err.value.message);
      }
      depth := depth - 1;
      if depth > 0 {
        return None;
      }
      finalError := error;
      if finalError.None? {
        finalError := CommitAll(now);
      }
      if finalError.None? && patches != [] {
        lastPatches := patches;
      }
      ResetTransaction();
    }

    // -------------------------------------------------------------- writes

    /** stageOrCommitUpdate. */
    method StageOrCommit(step: CommitStep, report: seq<PatchRecord>, now: nat) returns (outcome: Outcome)
      requires Valid() && step.CommitStep?
      modifies this`stores, this`meta, this`pending, this`lastPatches, this`factories, this`commits, this`staged
      modifies this`patches
      ensures Valid()
      ensures depth > 0 ==>
        outcome.Done? && Reg() == old(Reg()) && TxState() == Stage(old(TxState()), step, report)
      ensures depth == 0 ==>
        TxState() == old(TxState())
        && CommitResult(Reg(), outcome) == Reported(CommitUpdate(old(Reg()), step, hooks, now), report)
    {
      if depth > 0 {
        staged := staged[step.name := step.value];
        patches := patches + report;
        commits := commits + [step];
        return Done;
      }
      outcome := CommitStoreUpdate(step, now);
      if !outcome.Throws? && report != [] {
        lastPatches := report;
      }
    }

    /** getStoreValueRef: the staged value inside a batch, else the committed one. */
    method SeenValue(name: Name) returns (value: Value)
      ensures value == if depth > 0 then Seen(Reg(), TxState(), name) else Read(stores, name)
    {
      if depth > 0 && name in staged {
        return staged[name];
      }
      value := Read(stores, name);
    }

    method Refuse(reason: Reason) returns (result: WriteResult)
      requires Valid()
      modifies this`failed, this`error
      ensures Valid() && result == Refused(reason)
      ensures TxState() == if depth > 0 then Mark(old(TxState()), []) else old(TxState())
    {
      if depth > 0 {
        MarkTransactionFailed([]);
      }
      result := Refused(reason);
    }

    /** materializeInitial: the first use of a lazy store runs its initialiser, which may fail. */
    method MaterializeInitial(name: Name) returns (ok: bool)
      requires Valid()
      modifies this`stores, this`factories, this`commits, this`staged
      ensures Valid()
      ensures depth > 0 ==>
        ok == !(UnreadyInTx(old(Reg()), old(TxState()), name) && old(factories)[name].None?)
        && Reg() == old(Reg())
        && TxState() == if ok then ReadyInTx(old(Reg()), old(TxState()), name) else old(TxState())
      ensures depth == 0 ==>
        ok == !InitFails(old(Reg()), name)
        && TxState() == old(TxState()) && Reg() == if ok then Readied(old(Reg()), name) else old(Reg())
    {
      if depth > 0 && name in staged {
        return true;
      }
      if (name in stores && stores[name] != Undefined) || name !in factories {
        return true;
      }
      if factories[name].None? {
        return false;
      }
      var value := factories[name].value;
      if depth > 0 {
        staged := staged[name := value];
        commits := commits + [Materialize(name, value)];
      } else {
        SetInitial(name, value);
      }
      return true;
    }

    /** setStoreInternal: a lazy store is initialised first, and refuses the write if that fails; a
        missing store or a rejected update fails the batch; an update that is the same by the equality
        shortcut is accepted and writes nothing. */
    method SetStore(name: Name, update: Value -> Update, correlation: Option<Name>, now: nat)
      returns (result: WriteResult, outcome: Outcome)
      requires Valid() && Fit(Reg())
      modifies this`stores, this`meta, this`pending, this`lastPatches, this`factories, this`commits, this`staged,
               this`patches, this`failed, this`error
      ensures Valid()
      ensures depth > 0 ==>
        outcome.Done? && Reg() == old(Reg())
        && (TxState(), result) == SetInTx(old(Reg()), old(TxState()), name, update, correlation, same)
      ensures depth == 0 ==> result == DirectSet(old(Reg()), name, update, correlation, same, now).1
      ensures depth == 0 && NoHooks(hooks) ==>
        outcome.Done? && Reg() == DirectSet(old(Reg()), name, update, correlation, same, now).0
    {
      outcome := Done;
      var ready := MaterializeInitial(name);
      if !ready {
        return Refused(Validate), Done;
      }
      result, outcome := SetReadyStore(name, update, correlation, now);
    }

    /** The rest of setStoreInternal, for a store that needs no initialiser any more. */
    method SetReadyStore(name: Name, update: Value -> Update, correlation: Option<Name>, now: nat)
      returns (result: WriteResult, outcome: Outcome)
      requires Valid() && Fit(Reg())
      modifies this`stores, this`meta, this`pending, this`lastPatches, this`factories, this`commits, this`staged,
               this`patches, this`failed, this`error
      ensures Valid()
      ensures depth > 0 ==>
        outcome.Done? && Reg() == old(Reg())
        && (TxState(), result) == SetReadyInTx(old(Reg()), old(TxState()), name, update, correlation, same)
      ensures depth == 0 ==> result == SetReady(old(Reg()), name, update, correlation, same, now).1
      ensures depth == 0 && NoHooks(hooks) ==>
        outcome.Done? && Reg() == SetReady(old(Reg()), name, update, correlation, same, now).0
    {
      outcome := Done;
      if name !in stores {
        result := Refuse(NotFound);
        return;
      }
      var prev := SeenValue(name);
      match update(prev) {
        case Reject(reason) =>
          result := Refuse(reason);
        case NewValue(next, report) =>
          result := Accepted;
          if !same(prev, next) {
            var step := CommitStep(name, next, correlation);
            if NoHooks(hooks) {
              QuietCommit(Reg(), step, hooks, now);
            }
            outcome := StageOrCommit(step, report, now);
          }
      }
    }

    /** replaceStore: no equality shortcut, and undefined is refused. */
    method ReplaceStore(name: Name, value: Value, correlation: Option<Name>, now: nat)
      returns (result: WriteResult, outcome: Outcome)
      requires Valid() && Fit(Reg())
      modifies this`stores, this`meta, this`pending, this`lastPatches, this`factories, this`commits, this`staged,
               this`patches, this`failed, this`error
      ensures Valid()
      ensures depth > 0 ==>
        outcome.Done? && Reg() == old(Reg())
        && (TxState(), result) == ReplaceInTx(old(Reg()), old(TxState()), name, value, correlation)
      ensures depth == 0 ==> result == DirectReplace(old(Reg()), name, value, correlation, now).1
      ensures depth == 0 && NoHooks(hooks) ==>
        outcome.Done? && Reg() == DirectReplace(old(Reg()), name, value, correlation, now).0
    {
      outcome := Done;
      if name == [] {
        return Refused(InvalidArgs), Done;
      }
      if name !in stores {
        result := Refuse(NotFound);
        return;
      }
      if value == Undefined {
        result := Refuse(Validate);
        return;
      }
      var step := CommitStep(name, value, correlation);
      if NoHooks(hooks) {
        QuietCommit(Reg(), step, hooks, now);
      }
      outcome := StageOrCommit(step, [PatchRecord(name, value)], now);
      result := Accepted;
    }

    // -------------------------------------------------------------- batches

    /** The statements of a batch body. Nothing is committed while it runs. */
    method RunBody(ops: seq<Op>, now: nat)
      requires Valid() && depth > 0 && Fit(Reg()) && batchDepth > 0
      modifies this
      ensures Valid() && depth == old(depth) && batchDepth == old(batchDepth) && scheduled == old(scheduled)
      ensures Reg() == old(Reg()) && TxState() == OpsInTx(old(Reg()), old(TxState()), ops, same)
      decreases ops, 1
    {
      var i := 0;
      assert ops[0..] == ops;
      while i < |ops|
        invariant 0 <= i <= |ops| && Valid() && depth == old(depth) && batchDepth == old(batchDepth)
        invariant scheduled == old(scheduled) && Reg() == old(Reg())
        invariant OpsInTx(Reg(), TxState(), ops[i..], same) == OpsInTx(old(Reg()), old(TxState()), ops, same)
      {
        assert ops[i..][0] == ops[i] && ops[i..][1..] == ops[i + 1..];
        match ops[i] {
          case Set(name, update, correlation) =>
            var _, _ := SetStore(name, update, correlation, now);
          case Replace(name, value, correlation) =>
            var _, _ := ReplaceStore(name, value, correlation, now);
          case Batch(body, exit) =>
            var _ := SetStoreBatch(body, exit, now);
        }
        i := i + 1;
      }
    }

    lemma TruthyFails(r: Registry, tx: Tx, err: Option<Thrown>, now: nat)
      ensures err.Some? && err.value.Truthy? ==> !Outermost(r, Told(tx, err), hooks, now).1
    {
    }

    /** The finally part of a batch: end the transaction, close the batch, schedule a flush. */
    method CloseBatch(err: Option<Thrown>, now: nat) returns (txError: Option<Name>)
      requires Valid() && depth > 0 && batchDepth > 0
      modifies this
      ensures Valid() && depth == old(depth) - 1 && batchDepth == old(batchDepth) - 1
      ensures old(depth) > 1 ==>
        txError.None? && Reg() == old(Reg()) && TxState() == Told(old(TxState()), err)
      ensures old(depth) == 1 ==>
        && Reg() == Outermost(old(Reg()), Told(old(TxState()), err), hooks, now).0
        && (txError.None? <==> Outermost(old(Reg()), Told(old(TxState()), err), hooks, now).1)
      ensures old(depth) == 1 && txError.Some? ==> RolledBack(old(Reg()), Reg())
      ensures err.Some? && err.value.Truthy? && old(depth) == 1 ==> txError.Some?
      ensures scheduled == (old(scheduled) || (batchDepth == 0 && pending != []))
    {
      hide Outermost, RolledBack;
      ghost var before, tx := Reg(), Told(TxState(), err);
      TruthyFails(before, TxState(), err, now);
      txError := EndTransaction(err, now);
      if depth == 0 && txError.Some? {
        FailureIsUndone(before, tx, hooks, now);
      }
      batchDepth := batchDepth - 1;
      if batchDepth == 0 && pending != [] {
        scheduled := true;
      }
    }

    /** setStoreBatch. Inside another batch it only stages and marks; at the outermost level it commits
        the whole body or, failing at any point, leaves the registry rolled back. */
    method SetStoreBatch(body: seq<Op>, exit: Exit, now: nat) returns (batchError: Option<Name>)
      requires Valid() && Fit(Reg())
      modifies this
      ensures Valid() && depth == old(depth) && batchDepth == old(batchDepth)
      ensures old(depth) > 0 ==>
        Reg() == old(Reg()) && TxState() == EndInner(OpsInTx(old(Reg()), old(TxState()), body, same), exit)
      ensures old(depth) == 0 ==>
        var end := Outermost(old(Reg()), EndInner(OpsInTx(old(Reg()), EMPTY, body, same), exit), hooks, now);
        Reg() == end.0 && (batchError.None? <==> end.1)
      ensures old(depth) == 0 && batchError.Some? ==> RolledBack(old(Reg()), Reg())
      ensures scheduled == (old(scheduled) || (batchDepth == 0 && pending != []))
      decreases body, 2
    {
      batchDepth := batchDepth + 1;
      BeginTransaction();
      RunBody(body, now);
      var err := ExitValue(exit);
      ToldExit(TxState(), exit);
      batchError := CloseBatch(err, now);
      if batchError.None? && err.Some? && err.value.Truthy? {
        batchError := Some(err.value.message);
      }
    }
  }

  /** The error value that setStoreBatch hands to endTransaction. */
  function ExitValue(exit: Exit): Option<Thrown> {
    match exit
    case Returns => None
    case ReturnsPromise => Some(Truthy([]))
    case ThrowsValue(thrown) => Some(thrown)
  }

  lemma ToldExit(tx: Tx, exit: Exit)
    ensures Told(tx, ExitValue(exit)) == EndInner(tx, exit)
  {
  }

  /** Outside a batch a write that did not throw reports its patches at once. */
  function Reported(c: CommitResult, report: seq<PatchRecord>): CommitResult {
    if c.outcome.Throws? || report == [] then c else c.(registry := c.registry.(lastPatches := report))
  }

  function Told(tx: Tx, err: Option<Thrown>): Tx {
    if err.Some? && err.value.Truthy? then Mark(tx, err.value.message) else tx
  }
}
