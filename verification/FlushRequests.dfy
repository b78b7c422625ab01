/** What listeners hear and ask for during a flush, as values: the events that a request comes to, and
    the calls and events of a store's turn and of a whole plan. */
module FlushRequests {
  import opened Names
  import opened Values
  import opened Wrappers
  import opened Computeds
  import opened Graphs
  import opened FlushProtocol
  import opened FlushConsistency
  import opened FlushRuns

  /** What a user listener asks for when it is called. */
  datatype Request =
    | ToWrite(name: Name, value: Value)
    | ToCreate(name: Name, value: Value)
    | ToCompute(name: Name, entry: Entry)
    | ToStopComputing(name: Name)
    | ToInvalidate(name: Name)
    | ToListen(name: Name, id: nat)
    | ToStopListening(name: Name, id: nat)
    | ToBatch(body: seq<Request>, ok: bool)

  /** What a listener says at each of its calls: it may depend on all that has happened, by the number of
      the call, as well as on the listener and on the snapshot it is given. */
  type Listener = (nat, nat, Value) -> seq<Request>

  /** One call of a listener: its number, who was called for which store with what, and what it asked for. */
  datatype ListenerCall = ListenerCall(number: nat, id: nat, store: Name, snapshot: Value, asked: seq<Request>)

  ghost function After(s: State, es: seq<Event>): State {
    if CanRun(s, es) then Run(s, es) else s
  }

  lemma AfterOne(s: State, e: Event)
    requires Enabled(s, e)
    ensures After(s, [e]) == Next(s, e)
  {
    LeadsOne(s, e);
  }

  // ---------------------------------------------------------------- requests

  /** What cannot be had fails an open batch, and does nothing outside one. */
  function Refusal(s: State): seq<Event> {
    if InBatch(s) then [FailBatch] else []
  }

  /** createComputed: an old registration goes first, even where no new one can be made. */
  ghost function Registration(s: State, c: Name, entry: Entry): seq<Event> {
    if c == [] || entry.deps == [] then []
    else
      (if c in s.entries then [DeleteComputed(c)] else [])
      + if [] in entry.deps || AnyReaches(s.entries - {c}, entry.deps, c) then []
        else if c in s.stores || (!InBatch(s) && !s.refuses(c, None, RunCompute(entry, c, s.stores)))
        then [CreateComputed(c, entry)]
        else Refusal(s)
  }

  /** The events that a request comes to. */
  ghost function Answer(s: State, r: Request): seq<Event>
    decreases r, 1
  {
    match r
    case ToWrite(n, v) => if n in s.stores && !RefusedThere(s, n, v) then [WriteStore(n, v)] else Refusal(s)
    case ToCreate(n, v) =>
      if InBatch(s) then Refusal(s)
      else if n in s.stores || s.refuses(n, None, v) then []
      else [CreateLeaf(n, v)]
    case ToCompute(c, entry) => Registration(s, c, entry)
    case ToStopComputing(c) => if c in s.entries then [DeleteComputed(c)] else []
    case ToInvalidate(c) => if c in s.entries then [Invalidate(c)] else []
    case ToListen(n, id) => [Subscribe(n, id)]
    case ToStopListening(n, id) => [Unsubscribe(n, id)]
    case ToBatch(body, ok) => [BeginBatch] + Answers(After(s, [BeginBatch]), body) + [EndBatch(ok)]
  }

  /** The same for a list of requests, each made where the one before it has led. */
  ghost function Answers(s: State, rs: seq<Request>): seq<Event>
    decreases rs, 0
  {
    if rs == [] then []
    else
      var before := Answers(s, rs[..|rs| - 1]);
      before + Answer(After(s, before), rs[|rs| - 1])
  }

  lemma BatchAnswer(s: State, inner: seq<Event>, body: seq<Request>, ok: bool)
    requires inner == Answers(Next(s, BeginBatch), body)
    ensures [BeginBatch] + inner + [EndBatch(ok)] == Answer(s, ToBatch(body, ok))
  {
    AfterOne(s, BeginBatch);
  }

  // ---------------------------------------------------------------- calls

  /** The calls that a list of subscribers comes to, from call number `k` on. */
  ghost function Hearing(listener: Listener, k: nat, store: Name, snapshot: Value, subs: seq<Sub>): seq<ListenerCall>
    decreases |subs|
  {
    if subs == [] then []
    else
      match subs[0]
      case Recompute(_, _) => Hearing(listener, k, store, snapshot, subs[1..])
      case User(id) =>
        [ListenerCall(k, id, store, snapshot, listener(k, id, snapshot))]
        + Hearing(listener, k + 1, store, snapshot, subs[1..])
  }

  /** The listeners of a list of subscribers, in order. */
  function Ids(subs: seq<Sub>): seq<nat> {
    if subs == [] then []
    else (match subs[0] case Recompute(_, _) => [] case User(id) => [id]) + Ids(subs[1..])
  }

  lemma {:induction false} IdsAre(subs: seq<Sub>, id: nat)
    ensures id in Ids(subs) <==> User(id) in subs
  {
    if subs != [] {
      IdsAre(subs[1..], id);
      assert User(id) in subs <==> User(id) == subs[0] || User(id) in subs[1..];
    }
  }

  /** Exactly the listeners among the subscribers are called, as often as they are on the list, in its order;
      each is given the snapshot, and what it says at that call is what it asks for. */
  lemma {:induction false} EachIsHeard(listener: Listener, k: nat, store: Name, snapshot: Value, subs: seq<Sub>)
    ensures var heard, ids := Hearing(listener, k, store, snapshot, subs), Ids(subs);
      |heard| == |ids| && forall i | 0 <= i < |ids| ::
        heard[i] == ListenerCall(k + i, ids[i], store, snapshot, listener(k + i, ids[i], snapshot))
    decreases |subs|
  {
    if subs != [] {
      var heard, ids := Hearing(listener, k, store, snapshot, subs), Ids(subs);
      if subs[0].User? {
        EachIsHeard(listener, k + 1, store, snapshot, subs[1..]);
        forall i | 0 <= i < |ids|
          ensures heard[i] == ListenerCall(k + i, ids[i], store, snapshot, listener(k + i, ids[i], snapshot))
        {
          if i > 0 {
            assert heard[i] == Hearing(listener, k + 1, store, snapshot, subs[1..])[i - 1];
            assert ids[i] == Ids(subs[1..])[i - 1] && k + 1 + (i - 1) == k + i;
          }
        }
      } else {
        EachIsHeard(listener, k, store, snapshot, subs[1..]);
        assert ids == Ids(subs[1..]);
      }
    }
  }

  /** The events of one subscriber's call: its delivery, and all that it asks for. */
  ghost function CallEvents(s: State, listener: Listener, k: nat, snapshot: Value, sub: Sub): seq<Event> {
    [Deliver(0)]
    + match sub
      case Recompute(_, _) => []
      case User(id) => Answers(After(s, [Deliver(0)]), listener(k, id, snapshot))
  }

  lemma OneCall(s: State, listener: Listener, k: nat, name: Name, snapshot: Value, sub: Sub, asked: seq<Event>)
    requires Enabled(s, Deliver(0))
    requires asked == if sub.User? then Answers(Next(s, Deliver(0)), listener(k, sub.id, snapshot)) else []
    ensures [Deliver(0)] + asked == CallEvents(s, listener, k, snapshot, sub)
    ensures Hearing(listener, k, name, snapshot, [sub])
         == if sub.User? then [ListenerCall(k, sub.id, name, snapshot, listener(k, sub.id, snapshot))] else []
  {
    AfterOne(s, Deliver(0));
    assert [sub][1..] == [];
  }

  function NextNumber(k: nat, sub: Sub): nat {
    if sub.User? then k + 1 else k
  }

  ghost function CallsEvents(s: State, listener: Listener, k: nat, snapshot: Value, subs: seq<Sub>): seq<Event>
    decreases |subs|
  {
    if subs == [] then []
    else
      var one := CallEvents(s, listener, k, snapshot, subs[0]);
      one + CallsEvents(After(s, one), listener, NextNumber(k, subs[0]), snapshot, subs[1..])
  }

  /** One call taken off the list. */
  lemma CallTaken(s: State, t: State, one: seq<Event>, listener: Listener, k: nat, name: Name, snapshot: Value,
                  subs: seq<Sub>)
    requires subs != [] && Leads(s, one, t) && one == CallEvents(s, listener, k, snapshot, subs[0])
    ensures CallsEvents(s, listener, k, snapshot, subs)
         == one + CallsEvents(t, listener, NextNumber(k, subs[0]), snapshot, subs[1..])
    ensures Hearing(listener, k, name, snapshot, subs)
         == Hearing(listener, k, name, snapshot, [subs[0]])
            + Hearing(listener, NextNumber(k, subs[0]), name, snapshot, subs[1..])
    ensures NextNumber(k, subs[0]) == k + |Hearing(listener, k, name, snapshot, [subs[0]])|
  {
    assert [subs[0]][1..] == [];
  }

  lemma NobodyLeft(s: State, listener: Listener, k: nat, name: Name, snapshot: Value)
    ensures CallsEvents(s, listener, k, snapshot, []) == [] && Hearing(listener, k, name, snapshot, []) == []
  {
  }

  /** A store's turn at the head of the queue: the listeners among its subscribers at that time are called
      with its value at that time. */
  ghost function TurnCalls(s: State, listener: Listener, k: nat, store: Name): seq<ListenerCall> {
    Hearing(listener, k, store, Read(s.stores, store), SubsOf(s.subs, store))
  }

  ghost function TurnEvents(s: State, listener: Listener, k: nat, store: Name): seq<Event> {
    [Open(0)]
    + CallsEvents(After(s, [Open(0)]), listener, k, Read(s.stores, store), SubsOf(s.subs, store))
    + [Retire(0)]
  }

  /** The turns of a plan, each where the one before it has led. */
  ghost function PlanCalls(s: State, listener: Listener, k: nat, plan: seq<Name>): seq<ListenerCall>
    decreases |plan|
  {
    if plan == [] then []
    else
      var calls := TurnCalls(s, listener, k, plan[0]);
      calls + PlanCalls(After(s, TurnEvents(s, listener, k, plan[0])), listener, k + |calls|, plan[1..])
  }

  ghost function PlanEvents(s: State, listener: Listener, k: nat, plan: seq<Name>): seq<Event>
    decreases |plan|
  {
    if plan == [] then []
    else
      var es := TurnEvents(s, listener, k, plan[0]);
      es + PlanEvents(After(s, es), listener, k + |TurnCalls(s, listener, k, plan[0])|, plan[1..])
  }

  lemma NoTurnLeft(s: State, listener: Listener, k: nat)
    ensures PlanEvents(s, listener, k, []) == [] && PlanCalls(s, listener, k, []) == []
  {
  }

  /** One turn taken off the plan. */
  lemma TurnTaken(s: State, t: State, one: seq<Event>, listener: Listener, k: nat, plan: seq<Name>)
    requires plan != [] && Leads(s, one, t) && one == TurnEvents(s, listener, k, plan[0])
    ensures var heard := TurnCalls(s, listener, k, plan[0]);
      && PlanEvents(s, listener, k, plan) == one + PlanEvents(t, listener, k + |heard|, plan[1..])
      && PlanCalls(s, listener, k, plan) == heard + PlanCalls(t, listener, k + |heard|, plan[1..])
  {
    hide TurnEvents, TurnCalls, CanRun, Run;
  }

  // ---------------------------------------------------------------- when listeners ask for nothing

  ghost predicate AskNothing(listener: Listener) {
    forall call, id, v :: listener(call, id, v) == []
  }

  predicate InTurn(e: Event) {
    e.Open? || e.Deliver? || e.Retire?
  }

  ghost predicate AllInTurn(es: seq<Event>) {
    forall e | e in es :: InTurn(e)
  }

  lemma {:induction false} CallsInTurn(s: State, listener: Listener, k: nat, snapshot: Value, subs: seq<Sub>)
    requires AskNothing(listener)
    ensures AllInTurn(CallsEvents(s, listener, k, snapshot, subs))
    decreases |subs|
  {
    if subs != [] {
      var one := CallEvents(s, listener, k, snapshot, subs[0]);
      assert one == [Deliver(0)];
      CallsInTurn(After(s, one), listener, NextNumber(k, subs[0]), snapshot, subs[1..]);
    }
  }

  lemma TurnInTurn(s: State, listener: Listener, k: nat, store: Name)
    requires AskNothing(listener)
    ensures AllInTurn(TurnEvents(s, listener, k, store))
  {
    CallsInTurn(After(s, [Open(0)]), listener, k, Read(s.stores, store), SubsOf(s.subs, store));
  }

  lemma {:induction false} RunSplit(s: State, a: seq<Event>, b: seq<Event>)
    requires CanRun(s, a + b)
    ensures CanRun(s, a) && CanRun(Run(s, a), b)
    decreases |a|
  {
    hide Next, Enabled;
    if a == [] {
      assert a + b == b;
    } else {
      assert (a + b)[0] == a[0] && (a + b)[1..] == a[1..] + b;
      RunSplit(Next(s, a[0]), a[1..], b);
    }
  }

  lemma CallInTurn(s: State, i: nat)
    requires i < |s.queue| && s.queue[i].todo != []
    ensures var t := DeliverStep(s, i);
      t.subs == s.subs && t.entries == s.entries && forall l | l !in s.entries :: Read(t.stores, l) == Read(s.stores, l)
  {
    DeliverFrame(s, i);
  }

  lemma StepInTurn(s: State, e: Event)
    requires Enabled(s, e) && InTurn(e)
    ensures var t := Next(s, e);
      t.subs == s.subs && t.entries == s.entries && forall l | l !in s.entries :: Read(t.stores, l) == Read(s.stores, l)
  {
    hide DeliverStep, EndStep, CreateInBatch, CreateComputedStep;
    if e.Deliver? {
      CallInTurn(s, e.task);
    }
  }

  /** The turns of a flush touch no subscriber set and no leaf. */
  lemma {:induction false} TurnsFrame(s: State, es: seq<Event>)
    requires CanRun(s, es) && AllInTurn(es)
    ensures var t := Run(s, es);
      t.subs == s.subs && t.entries == s.entries && forall l | l !in s.entries :: Read(t.stores, l) == Read(s.stores, l)
    decreases |es|
  {
    hide Next, Enabled;
    if es != [] {
      StepInTurn(s, es[0]);
      TurnsFrame(Next(s, es[0]), es[1..]);
    }
  }

  predicate WasTold(calls: seq<ListenerCall>, id: nat, store: Name, snapshot: Value) {
    exists i :: 0 <= i < |calls| && calls[i].id == id && calls[i].store == store && calls[i].snapshot == snapshot
  }

  /** Then every listener of a leaf of the plan is called with the leaf's value. */
  lemma {:induction false} LeavesAreHeard(s: State, listener: Listener, k: nat, plan: seq<Name>, n: Name, id: nat)
    requires AskNothing(listener) && CanRun(s, PlanEvents(s, listener, k, plan))
    requires n in plan && n !in s.entries && User(id) in SubsOf(s.subs, n)
    ensures WasTold(PlanCalls(s, listener, k, plan), id, n, Read(s.stores, n))
    decreases |plan|
  {
    hide TurnEvents, TurnCalls, CanRun, Run;
    var one, heard := TurnEvents(s, listener, k, plan[0]), TurnCalls(s, listener, k, plan[0]);
    var t, rest := After(s, one), PlanCalls(After(s, one), listener, k + |heard|, plan[1..]);
    if plan[0] == n {
      TurnHeard(s, listener, k, n, id);
      var i :| 0 <= i < |heard| && heard[i].id == id && heard[i].store == n && heard[i].snapshot == Read(s.stores, n);
      assert (heard + rest)[i] == heard[i];
    } else {
      RunSplit(s, one, PlanEvents(t, listener, k + |heard|, plan[1..]));
      TurnInTurn(s, listener, k, plan[0]);
      TurnsFrame(s, one);
      LeavesAreHeard(t, listener, k + |heard|, plan[1..], n, id);
      var i :| 0 <= i < |rest| && rest[i].id == id && rest[i].store == n && rest[i].snapshot == Read(s.stores, n);
      assert (heard + rest)[|heard| + i] == rest[i];
    }
  }

  lemma TurnHeard(s: State, listener: Listener, k: nat, n: Name, id: nat)
    requires User(id) in SubsOf(s.subs, n)
    ensures WasTold(TurnCalls(s, listener, k, n), id, n, Read(s.stores, n))
  {
    var subs, snapshot := SubsOf(s.subs, n), Read(s.stores, n);
    IdsAre(subs, id);
    EachIsHeard(listener, k, n, snapshot, subs);
    var i :| 0 <= i < |Ids(subs)| && Ids(subs)[i] == id;
    assert TurnCalls(s, listener, k, n)[i].id == id;
  }
}
