/** applyStorePatchesAtomic: a list of patches applied as one batch (src/psr/index.ts:410-626). */
module PatchBatches {
  import opened Names
  import opened Values
  import opened Wrappers
  import opened Computeds
  import opened PatchPaths
  import opened Transactions
  import opened TransactionRuntimes

  const MAX_DEPTH := 10

  datatype PatchOp = SetOp | MergeOp | DeleteOp | InsertOp

  /** A patch as callers hand it over: None where a field is missing or of the wrong type. */
  datatype RawPatch = RawPatch(
    id: Option<Name>,
    store: Option<Name>,
    path: Option<seq<Segment>>,
    op: Option<PatchOp>,
    value: Option<Value>,
    metaValid: bool)

  datatype Patch = Patch(id: Name, store: Name, path: seq<Segment>, op: PatchOp, value: Value)

  datatype PatchApplyResult = Applied | Failed(reason: Reason, failedPatchId: Option<Name>)

  /** What a path write is given: segments, or the string or list that stood in a root merge. */
  datatype PathInput = Segments(path: seq<Name>) | RootMergeValue(value: Value)

  /** setByPath with its safety check: any function of the previous value, the path and the written
      value. */
  type PathWrite = (Value, PathInput, Value) -> Update

  /** normalizePublicPatch. */
  function Normalize(raw: RawPatch): Option<Patch> {
    if raw.id.None? || raw.id.value == [] then None
    else if raw.store.None? || raw.store.value == [] then None
    else if raw.path.None? || raw.op.None? then None
    else if !raw.op.value.DeleteOp? && raw.value.None? then None
    else if !raw.metaValid || |raw.path.value| > MAX_DEPTH then None
    else Some(Patch(raw.id.value, raw.store.value, raw.path.value, raw.op.value,
                    if raw.value.Some? then raw.value.value else Undefined))
  }

  /** resolvePatchFailureId. */
  function FailureId(raw: RawPatch): Option<Name> {
    if raw.id.Some? && raw.id.value != [] then raw.id else None
  }

  /** What a patch asks of its store, given the value the store has at that point. */
  datatype Intent = Overwrite(value: Value) | Change(update: Update) | Impossible(reason: Reason)

  function Structured(transformed: Result<Value, Reason>): Intent {
    match transformed
    case Ok(v) => Overwrite(v)
    case Err(reason) => Impossible(reason)
  }

  /** `setStore(name, value)` as a root merge reaches it: records merge, null merges nothing, a string
      or a list is taken for a path, anything else is refused. */
  function RootMerge(store: Name, prev: Value, value: Value, pathWrite: PathWrite): Update {
    match value
    case Record(fields) =>
      if prev.Record? then NewValue(Record(prev.fields + fields), [PatchRecord(store, value)]) else Reject(Validate)
    case Null => if prev.Record? then NewValue(prev, [PatchRecord(store, value)]) else Reject(Validate)
    case Text(_) => pathWrite(prev, RootMergeValue(value), Undefined)
    case List(_) => pathWrite(prev, RootMergeValue(value), Undefined)
    case _ => Reject(InvalidArgs)
  }

  function Keys(path: seq<Segment>): seq<Name> {
    if path == [] then [] else [KeyOf(path[0])] + Keys(path[1..])
  }

  /** The patches that go through applyStructuredRuntimePatch, which does not mark the transaction. */
  predicate IsStructured(patch: Patch) {
    patch.op.DeleteOp? || patch.op.InsertOp? || (patch.op.MergeOp? && patch.path != [])
  }

  /** applyNormalizedPatch. */
  function IntentOf(patch: Patch, prev: Value, pathWrite: PathWrite): Intent {
    match patch.op
    case SetOp =>
      if patch.path == [] then Overwrite(patch.value)
      else Change(pathWrite(prev, Segments(Keys(patch.path)), patch.value))
    case MergeOp =>
      if patch.path == [] then Change(RootMerge(patch.store, prev, patch.value, pathWrite))
      else Structured(MergeAt(prev, patch.path, patch.value))
    case DeleteOp => Structured(DeleteAt(prev, patch.path))
    case InsertOp => Structured(InsertAt(prev, patch.path, patch.value))
  }

  /** The value a store has for a patch: a lazy store without a value yet is initialised by a patch that
      goes through `setStore`. */
  function PatchBase(stores: Stores, factories: map<Name, Option<Value>>, patch: Patch): Result<Value, Reason> {
    if patch.store !in stores then Err(NotFound)
    else if IsStructured(patch) then
      if stores[patch.store] == Undefined then Err(NotFound) else Ok(stores[patch.store])
    else if patch.op.SetOp? && patch.path == [] then Ok(stores[patch.store])
    else if stores[patch.store] != Undefined || patch.store !in factories then Ok(stores[patch.store])
    else if factories[patch.store].None? then Err(Validate)
    else Ok(factories[patch.store].value)
  }

  /** One patch applied to plain stores. */
  function PatchStores(stores: Stores, factories: map<Name, Option<Value>>, patch: Patch,
                       same: (Value, Value) -> bool, pathWrite: PathWrite): Result<Stores, Reason>
  {
    match PatchBase(stores, factories, patch)
    case Err(reason) => Err(reason)
    case Ok(prev) =>
      match IntentOf(patch, prev, pathWrite)
      case Overwrite(v) => if v == Undefined then Err(Validate) else Ok(stores[patch.store := v])
      case Change(Reject(reason)) => Err(reason)
      case Change(NewValue(next, _)) => Ok(stores[patch.store := if same(prev, next) then prev else next])
      case Impossible(reason) => Err(reason)
  }

  /** A patch that is accepted touches no store but its own. */
  lemma OthersKept(stores: Stores, factories: map<Name, Option<Value>>, patch: Patch, same: (Value, Value) -> bool,
                   pathWrite: PathWrite, n: Name)
    requires PatchStores(stores, factories, patch, same, pathWrite).Ok? && n != patch.store
    ensures var after := PatchStores(stores, factories, patch, same, pathWrite).value;
      Read(after, n) == Read(stores, n) && (n in after <==> n in stores)
  {
  }

  /** A record merged into a store, at its root or below, is read back field by field, and every other
      field at that place is as before; a root merge that makes no difference by `same` is no write. */
  lemma MergePatchReads(stores: Stores, factories: map<Name, Option<Value>>, patch: Patch,
                        same: (Value, Value) -> bool, pathWrite: PathWrite, k: Name)
    requires PatchStores(stores, factories, patch, same, pathWrite).Ok? && patch.op.MergeOp? && patch.value.Record?
    ensures PatchBase(stores, factories, patch).Ok?
    ensures var prev := PatchBase(stores, factories, patch).value;
      var next := PatchStores(stores, factories, patch, same, pathWrite).value[patch.store];
      ReadAt(prev, patch.path).Ok? && ReadAt(prev, patch.path).value.Record?
      && (patch.path != [] || !same(prev, Record(prev.fields + patch.value.fields)) ==>
            ReadAt(next, patch.path + [Key(k)])
              == if k in patch.value.fields then Ok(patch.value.fields[k]) else ReadAt(prev, patch.path + [Key(k)]))
  {
    var prev := PatchBase(stores, factories, patch).value;
    if patch.path == [] {
      var next := PatchStores(stores, factories, patch, same, pathWrite).value[patch.store];
      assert [] + [Key(k)] == [Key(k)] && [Key(k)][1..] == [];
      ReadLast(prev, [], Key(k));
      ReadLast(next, [], Key(k));
    } else {
      MergeOutcome(prev, patch.path, patch.value);
      MergeReads(prev, patch.path, patch.value, k);
    }
  }

  /** When a root merge is accepted: a record or null into a record, where null merges nothing; a string or a
      list if the path write takes it; nothing else. */
  lemma RootMergeOutcome(stores: Stores, factories: map<Name, Option<Value>>, patch: Patch,
                         same: (Value, Value) -> bool, pathWrite: PathWrite)
    requires patch.op.MergeOp? && patch.path == [] && PatchBase(stores, factories, patch).Ok?
    ensures var prev, after := PatchBase(stores, factories, patch).value,
                               PatchStores(stores, factories, patch, same, pathWrite);
      && (patch.value.Record? || patch.value.Null? ==>
            if prev.Record? then after.Ok? else after == Err(Validate))
      && (patch.value.Null? && prev.Record? ==> after == Ok(stores[patch.store := prev]))
      && (patch.value.Text? || patch.value.List? ==>
            (after.Ok? <==> pathWrite(prev, RootMergeValue(patch.value), Undefined).NewValue?))
      && (patch.value.Undefined? || patch.value.Bool? || patch.value.Number? ==> after == Err(InvalidArgs))
  {
  }

  /** What any other patch makes of its store: a set at the root is the value itself, deletions and
      insertions are those at the path. */
  lemma OtherPatches(stores: Stores, factories: map<Name, Option<Value>>, patch: Patch,
                     same: (Value, Value) -> bool, pathWrite: PathWrite)
    requires PatchStores(stores, factories, patch, same, pathWrite).Ok?
    ensures PatchBase(stores, factories, patch).Ok?
    ensures var prev := PatchBase(stores, factories, patch).value;
      var next := PatchStores(stores, factories, patch, same, pathWrite).value[patch.store];
      && (patch.op == SetOp && patch.path == [] ==> next == patch.value)
      && (patch.op == DeleteOp ==> DeleteAt(prev, patch.path) == Ok(next))
      && (patch.op == InsertOp ==> InsertAt(prev, patch.path, patch.value) == Ok(next))
  {
  }

  /** What a set below the root hands to the path write: the segments as keys, in order. */
  lemma {:induction false} KeysInOrder(path: seq<Segment>, i: nat)
    requires i < |path|
    ensures |Keys(path)| == |path| && Keys(path)[i] == KeyOf(path[i])
  {
    KeysLength(path);
    if i > 0 {
      KeysInOrder(path[1..], i - 1);
    }
  }

  lemma {:induction false} KeysLength(path: seq<Segment>)
    ensures |Keys(path)| == |path|
  {
    if path != [] {
      KeysLength(path[1..]);
    }
  }

  /** The left fold of a patch list: each patch reads what the earlier ones wrote. A failure carries
      the id of the first patch that is refused. */
  function FoldPatches(stores: Stores, factories: map<Name, Option<Value>>, patches: seq<Patch>,
                       same: (Value, Value) -> bool, pathWrite: PathWrite): Result<Stores, (Reason, Name)>
    decreases |patches|
  {
    if patches == [] then Ok(stores)
    else
      match PatchStores(stores, factories, patches[0], same, pathWrite)
      case Err(reason) => Err((reason, patches[0].id))
      case Ok(next) => FoldPatches(next, factories, patches[1..], same, pathWrite)
  }

  /** What is staged over what is committed; without hooks, committing it would give just that. An
      undefined value is staged only by an initialiser that yields it. */
  ghost predicate Staged(r: Registry, tx: Tx, hooks: Name -> Hook, now: nat, stores: Stores) {
    && stores == r.stores + tx.staged && stores.Keys == r.stores.Keys
    && (forall n | n in tx.staged && tx.staged[n] == Undefined && n in r.factories :: r.factories[n] == Some(Undefined))
    && (NoHooks(hooks) ==>
          var c := RunCommits(r, tx.commits, hooks, now);
          c.outcome.Done? && c.registry.stores == stores && c.registry.meta.Keys == r.meta.Keys)
  }

  lemma StageStaged(r: Registry, tx: Tx, hooks: Name -> Hook, now: nat, stores: Stores,
                    step: CommitStep, report: seq<PatchRecord>)
    requires Staged(r, tx, hooks, now, stores) && step.name in r.stores && step.name in r.meta
    requires step.CommitStep? && step.value != Undefined
    ensures Staged(r, Stage(tx, step, report), hooks, now, stores[step.name := step.value])
  {
    if NoHooks(hooks) {
      RunCommitsSnoc(r, tx.commits, step, hooks, now);
      QuietCommit(RunCommits(r, tx.commits, hooks, now).registry, step, hooks, now);
    }
  }

  /** Initialising a lazy store stages the value that a patch of it starts from. */
  lemma ReadyStaged(r: Registry, tx: Tx, hooks: Name -> Hook, now: nat, stores: Stores, patch: Patch)
    requires Staged(r, tx, hooks, now, stores) && patch.store in r.stores
    requires !IsStructured(patch) && !(patch.op.SetOp? && patch.path == [])
    ensures UnreadyInTx(r, tx, patch.store) && r.factories[patch.store].None?
       <==> PatchBase(stores, r.factories, patch).Err?
    ensures PatchBase(stores, r.factories, patch).Ok? ==>
      var base := PatchBase(stores, r.factories, patch).value;
      && Seen(r, ReadyInTx(r, tx, patch.store), patch.store) == base
      && Staged(r, ReadyInTx(r, tx, patch.store), hooks, now, stores[patch.store := base])
  {
    var name := patch.store;
    if UnreadyInTx(r, tx, name) && r.factories[name].Some? {
      if NoHooks(hooks) {
        RunCommitsSnoc(r, tx.commits, Materialize(name, r.factories[name].value), hooks, now);
      }
    } else if PatchBase(stores, r.factories, patch).Ok? {
      assert stores[name := stores[name]] == stores;
    }
  }

  /** The updater that such a patch hands to `setStore`. */
  function Setter(patch: Patch, pathWrite: PathWrite): Value -> Update {
    v => match IntentOf(patch, v, pathWrite) case Change(update) => update case _ => Reject(InvalidArgs)
  }

  /** `setStore` with that updater is one step of the fold. */
  lemma SetStaged(r: Registry, tx: Tx, hooks: Name -> Hook, now: nat, stores: Stores, patch: Patch,
                  same: (Value, Value) -> bool, pathWrite: PathWrite)
    requires Staged(r, tx, hooks, now, stores) && patch.store in r.stores && patch.store in r.meta
    requires !IsStructured(patch) && !(patch.op.SetOp? && patch.path == [])
    ensures var out := SetInTx(r, tx, patch.store, Setter(patch, pathWrite), None, same);
      match PatchStores(stores, r.factories, patch, same, pathWrite)
      case Ok(next) => out.1.Accepted? && Staged(r, out.0, hooks, now, next) && out.0.failure == tx.failure
      case Err(reason) => out.1 == Refused(reason)
  {
    ReadyStaged(r, tx, hooks, now, stores, patch);
    var base := PatchBase(stores, r.factories, patch);
    if base.Ok? {
      var update := Setter(patch, pathWrite)(base.value);
      if update.NewValue? && !same(base.value, update.value) {
        StageStaged(r, ReadyInTx(r, tx, patch.store), hooks, now, stores[patch.store := base.value],
                    CommitStep(patch.store, update.value, None), update.patches);
      }
    }
  }

  /** A patch that goes through `setStore`, as one step of the fold. */
  method ApplySet(reg: StoreRegistry, patch: Patch, pathWrite: PathWrite, now: nat, ghost stores: Stores)
    returns (result: WriteResult)
    requires reg.Valid() && reg.depth > 0 && Fit(reg.Reg()) && patch.store in reg.stores
    requires Staged(reg.Reg(), reg.TxState(), reg.hooks, now, stores)
    requires !IsStructured(patch) && !(patch.op.SetOp? && patch.path == [])
    modifies reg`stores, reg`meta, reg`pending, reg`lastPatches, reg`factories, reg`commits, reg`staged, reg`patches,
             reg`failed, reg`error
    ensures reg.Valid() && reg.Reg() == old(reg.Reg())
    ensures match PatchStores(stores, old(reg.factories), patch, reg.same, pathWrite)
      case Ok(next) =>
        result.Accepted? && Staged(reg.Reg(), reg.TxState(), reg.hooks, now, next)
        && reg.TxState().failure == old(reg.TxState().failure)
      case Err(reason) => result == Refused(reason)
  {
    hide RunCommits, Staged;
    SetStaged(reg.Reg(), reg.TxState(), reg.hooks, now, stores, patch, reg.same, pathWrite);
    var outcome;
    result, outcome := reg.SetStore(patch.store, Setter(patch, pathWrite), None, now);
  }

  /** replaceStore with the value that a patch comes to, as one step of the fold. */
  method ApplyOverwrite(reg: StoreRegistry, name: Name, v: Value, now: nat, ghost stores: Stores)
    returns (result: WriteResult)
    requires reg.Valid() && reg.depth > 0 && Fit(reg.Reg()) && name in reg.stores && name != []
    requires Staged(reg.Reg(), reg.TxState(), reg.hooks, now, stores)
    modifies reg`stores, reg`meta, reg`pending, reg`lastPatches, reg`factories, reg`commits, reg`staged, reg`patches,
             reg`failed, reg`error
    ensures reg.Valid() && reg.Reg() == old(reg.Reg())
    ensures v == Undefined ==> result == Refused(Validate)
    ensures v != Undefined ==>
      result.Accepted? && Staged(reg.Reg(), reg.TxState(), reg.hooks, now, stores[name := v])
      && reg.TxState().failure == old(reg.TxState().failure)
  {
    if v != Undefined {
      StageStaged(reg.Reg(), reg.TxState(), reg.hooks, now, stores, CommitStep(name, v, None), [PatchRecord(name, v)]);
    }
    var outcome;
    result, outcome := reg.ReplaceStore(name, v, None, now);
  }

  /** applyNormalizedPatch inside the open transaction: one step of the fold, or its refusal. */
  method ApplyNormalized(reg: StoreRegistry, patch: Patch, pathWrite: PathWrite, now: nat, ghost stores: Stores)
    returns (result: WriteResult)
    requires reg.Valid() && reg.depth > 0 && Fit(reg.Reg()) && patch.store != []
    requires Staged(reg.Reg(), reg.TxState(), reg.hooks, now, stores)
    modifies reg`stores, reg`meta, reg`pending, reg`lastPatches, reg`factories, reg`commits, reg`staged, reg`patches,
             reg`failed, reg`error
    ensures reg.Valid() && reg.Reg() == old(reg.Reg())
    ensures match PatchStores(stores, old(reg.factories), patch, reg.same, pathWrite)
      case Ok(next) =>
        result.Accepted? && Staged(reg.Reg(), reg.TxState(), reg.hooks, now, next)
        && reg.TxState().failure == old(reg.TxState().failure)
      case Err(reason) => result == Refused(reason)
  {
    if patch.store !in reg.stores {
      if IsStructured(patch) {
        result := Refused(NotFound);
      } else {
        result := reg.Refuse(NotFound);
      }
      return;
    }
    if !IsStructured(patch) && !(patch.op.SetOp? && patch.path == []) {
      result := ApplySet(reg, patch, pathWrite, now, stores);
      return;
    }
    var prev := reg.SeenValue(patch.store);
    assert prev == stores[patch.store];
    if IsStructured(patch) && prev == Undefined {
      return Refused(NotFound);
    }
    var intent := IntentOf(patch, prev, pathWrite);
    if intent.Impossible? {
      return Refused(intent.reason);
    }
    result := ApplyOverwrite(reg, patch.store, intent.value, now, stores);
  }

  /** A patch names itself and a store, has a path of ten segments at most, an operation, a value unless
      it deletes, and valid metadata. */
  predicate WellFormed(raw: RawPatch) {
    && raw.id.Some? && raw.id.value != [] && raw.store.Some? && raw.store.value != []
    && raw.path.Some? && |raw.path.value| <= 10 && raw.op.Some? && raw.metaValid
    && (raw.op.value == DeleteOp || raw.value.Some?)
  }

  /** `raws[i]` is the first malformed patch. */
  predicate FirstMalformed(raws: seq<RawPatch>, i: nat) {
    i < |raws| && !WellFormed(raws[i]) && forall j | 0 <= j < i :: WellFormed(raws[j])
  }

  /** `patches` is the normalised form of a list without malformed patches. */
  predicate NormalizedAs(raws: seq<RawPatch>, patches: seq<Patch>) {
    |patches| == |raws| && forall j | 0 <= j < |raws| ::
      var raw, patch := raws[j], patches[j];
      && WellFormed(raw) && patch.id == raw.id.value && patch.store == raw.store.value
      && patch.path == raw.path.value && patch.op == raw.op.value
      && patch.value == if raw.value.Some? then raw.value.value else Undefined
  }

  method NormalizeAll(raws: seq<RawPatch>) returns (r: Result<seq<Patch>, nat>)
    ensures r.Ok? ==> NormalizedAs(raws, r.value)
    ensures r.Err? ==> FirstMalformed(raws, r.error)
  {
    var patches: seq<Patch> := [];
    for i := 0 to |raws|
      invariant NormalizedAs(raws[..i], patches)
    {
      var normalized := Normalize(raws[i]);
      if normalized.None? {
        assert forall j | 0 <= j < i :: raws[..i][j] == raws[j];
        return Err(i);
      }
      patches := patches + [normalized.value];
    }
    assert raws[..|raws|] == raws;
    r := Ok(patches);
  }

  predicate StoresNamed(patches: seq<Patch>) {
    forall p | p in patches :: p.store != []
  }

  /** The patch loop inside the open transaction: the fold, stopping at the first refusal. */
  method ApplyAll(reg: StoreRegistry, patches: seq<Patch>, pathWrite: PathWrite, now: nat)
    returns (failure: Option<(Reason, Name)>, ghost stores: Stores)
    requires reg.Valid() && reg.depth > 0 && Fit(reg.Reg()) && reg.TxState() == EMPTY && StoresNamed(patches)
    modifies reg`stores, reg`meta, reg`pending, reg`lastPatches, reg`factories, reg`commits, reg`staged, reg`patches
    modifies reg`failed, reg`error
    ensures reg.Valid() && reg.Reg() == old(reg.Reg())
    ensures match FoldPatches(old(reg.stores), old(reg.factories), patches, reg.same, pathWrite)
      case Ok(all) =>
        failure.None? && all == stores && reg.TxState().failure.None?
        && Staged(reg.Reg(), reg.TxState(), reg.hooks, now, stores)
      case Err(e) => failure == Some(e)
  {
    failure, stores := None, reg.stores;
    assert patches[0..] == patches;
    for i := 0 to |patches|
      invariant reg.Valid() && reg.Reg() == old(reg.Reg()) && failure.None? && reg.TxState().failure.None?
      invariant Staged(reg.Reg(), reg.TxState(), reg.hooks, now, stores)
      invariant FoldPatches(stores, reg.factories, patches[i..], reg.same, pathWrite)
             == FoldPatches(old(reg.stores), old(reg.factories), patches, reg.same, pathWrite)
    {
      assert patches[i..][0] == patches[i] && patches[i..][1..] == patches[i + 1..];
      ghost var step := PatchStores(stores, reg.factories, patches[i], reg.same, pathWrite);
      var result := ApplyNormalized(reg, patches[i], pathWrite, now, stores);
      if result.Refused? {
        failure := Some((result.reason, patches[i].id));
        return;
      }
      stores := step.value;
    }
  }

  /** The transaction of applyStorePatchesAtomic, for a list without malformed patches. */
  method ApplyInTransaction(reg: StoreRegistry, patches: seq<Patch>, pathWrite: PathWrite, now: nat)
    returns (result: PatchApplyResult)
    requires reg.Valid() && reg.depth == 0 && Fit(reg.Reg()) && patches != [] && StoresNamed(patches)
    modifies reg
    ensures reg.Valid() && reg.depth == 0
    ensures NoHooks(reg.hooks) ==>
      match FoldPatches(old(reg.stores), old(reg.factories), patches, reg.same, pathWrite)
      case Ok(all) => result.Applied? && reg.stores == all
      case Err((reason, id)) => result == Failed(reason, Some(id)) && reg.Reg() == old(reg.Reg())
    ensures result.Failed? ==> RolledBack(old(reg.Reg()), reg.Reg())
  {
    hide RunCommits;
    reg.batchDepth := reg.batchDepth + 1;
    reg.BeginTransaction();
    var failure;
    ghost var stores;
    failure, stores := ApplyAll(reg, patches, pathWrite, now);
    var err := if failure.Some? then Some(Truthy([])) else None;
    var finalError := reg.CloseBatch(err, now);
    if failure.Some? {
      result := Failed(failure.value.0, Some(failure.value.1));
    } else if finalError.Some? {
      result := Failed(Validate, Some(patches[|patches| - 1].id));
    } else {
      result := Applied;
    }
  }

  /** applyStorePatchesAtomic outside any batch. A malformed patch anywhere refuses the whole list
      before anything is opened. Otherwise, where no hook interferes, the stores become the fold of the
      list or the registry does not change and the first refused patch is named; and whatever hooks
      do, a list that is not applied is rolled back. */
  method ApplyStorePatchesAtomic(reg: StoreRegistry, raws: seq<RawPatch>, pathWrite: PathWrite, now: nat)
    returns (result: PatchApplyResult)
    requires reg.Valid() && reg.depth == 0 && Fit(reg.Reg())
    modifies reg
    ensures reg.Valid() && reg.depth == 0
    ensures forall i: nat | FirstMalformed(raws, i) ::
      && result == Failed(InvalidArgs, if raws[i].id.Some? && raws[i].id.value != [] then raws[i].id else None)
      && reg.Reg() == old(reg.Reg())
    ensures forall patches | NormalizedAs(raws, patches) && NoHooks(reg.hooks) ::
      match FoldPatches(old(reg.stores), old(reg.factories), patches, reg.same, pathWrite)
      case Ok(all) => result.Applied? && reg.stores == all
      case Err((reason, id)) => result == Failed(reason, Some(id)) && reg.Reg() == old(reg.Reg())
    ensures result.Failed? ==> RolledBack(old(reg.Reg()), reg.Reg())
  {
    if raws == [] {
      return Applied;
    }
    var normalized := NormalizeAll(raws);
    match normalized {
      case Err(first) =>
        assert forall i: nat | FirstMalformed(raws, i) :: i == first;
        result := Failed(InvalidArgs, FailureId(raws[first]));
      case Ok(patches) =>
        assert forall other | NormalizedAs(raws, other) :: other == patches;
        result := ApplyInTransaction(reg, patches, pathWrite, now);
    }
  }
}
