/** The plan of a flush as a value, and how runs of the protocol are put together. */
module FlushRuns {
  import opened Names
  import opened Lists
  import opened Values
  import opened Wrappers
  import opened Computeds
  import opened Graphs
  import opened TopoOrder
  import opened Evaluation
  import opened FlushProtocol
  import opened FlushConsistency
  import opened FlushCare
  import opened FlushConvergence

  /** The members of `list` that are in `members`, in order. */
  function Keep(list: seq<Name>, members: set<Name>): seq<Name> {
    if list == [] then []
    else
      var last := list[|list| - 1];
      Keep(list[..|list| - 1], members) + (if last in members then [last] else [])
  }

  /** The members of `list` that are not in `members`, in order. */
  function Exclude(list: seq<Name>, members: set<Name>): seq<Name> {
    if list == [] then []
    else
      var last := list[|list| - 1];
      Exclude(list[..|list| - 1], members) + (if last in members then [] else [last])
  }

  lemma ElementsConcat(a: seq<Name>, b: seq<Name>)
    ensures Elements(a + b) == Elements(a) + Elements(b)
  {
  }

  lemma ElementsEmpty(list: seq<Name>)
    ensures Elements(list) == {} <==> list == []
  {
    assert list != [] ==> list[0] in Elements(list);
  }

  lemma {:induction false} KeepElements(list: seq<Name>, members: set<Name>)
    ensures Elements(Keep(list, members)) == Elements(list) * members
    ensures Elements(Exclude(list, members)) == Elements(list) - members
  {
    if list != [] {
      var front, last := list[..|list| - 1], list[|list| - 1];
      KeepElements(front, members);
      assert list == front + [last];
      ElementsConcat(front, [last]);
      ElementsConcat(Keep(front, members), if last in members then [last] else []);
      ElementsConcat(Exclude(front, members), if last in members then [] else [last]);
    }
  }

  function Named(pending: seq<Name>, priority: seq<Name>): seq<Name> {
    Keep(priority, Elements(pending)) + Exclude(pending, Elements(priority))
  }

  ghost function FlushPlan(entries: Entries, pending: seq<Name>, priority: seq<Name>): seq<Name> {
    var named := Named(pending, priority);
    named + Exclude(Order(entries, Affected(entries, Elements(named))), Elements(named))
  }

  /** `plan` was made with these priorities. */
  ghost predicate Planned(plan: seq<Name>, priority: seq<Name>) {
    exists entries, pending :: plan == FlushPlan(entries, pending, priority)
  }

  /** So many plans more, each made with these priorities. */
  ghost predicate PlannedSince(before: seq<seq<Name>>, now: seq<seq<Name>>, n: nat, priority: seq<Name>) {
    before <= now && |now| == |before| + n && forall i | |before| <= i < |now| :: Planned(now[i], priority)
  }

  lemma NothingPlanned(plans: seq<seq<Name>>, priority: seq<Name>)
    ensures PlannedSince(plans, plans, 0, priority)
  {
  }

  lemma PlannedOnce(before: seq<seq<Name>>, made: seq<seq<Name>>, now: seq<seq<Name>>, n: nat, priority: seq<Name>)
    requires PlannedSince(before, made, n, priority) && PlannedSince(made, now, 1, priority)
    ensures PlannedSince(before, now, n + 1, priority)
  {
  }

  /** Priorities only reorder: exactly the pending stores are named. */
  lemma NamedElements(pending: seq<Name>, priority: seq<Name>)
    ensures Elements(Named(pending, priority)) == Elements(pending)
  {
    KeepElements(priority, Elements(pending));
    KeepElements(pending, Elements(priority));
    ElementsConcat(Keep(priority, Elements(pending)), Exclude(pending, Elements(priority)));
  }

  predicate Increasing(at: seq<nat>) {
    forall i, j | 0 <= i < j < |at| :: at[i] < at[j]
  }

  /** What is kept stands in the order of the list: `at` says where each comes from. */
  lemma {:induction false} KeptInOrder(list: seq<Name>, members: set<Name>) returns (at: seq<nat>)
    ensures |at| == |Keep(list, members)| && Increasing(at)
    ensures forall i | 0 <= i < |at| :: at[i] < |list| && list[at[i]] == Keep(list, members)[i]
                && list[at[i]] in members
  {
    at := [];
    if list != [] {
      var front := list[..|list| - 1];
      at := KeptInOrder(front, members);
      assert forall i | 0 <= i < |at| :: list[at[i]] == front[at[i]];
      if list[|list| - 1] in members {
        at := at + [|list| - 1];
      }
    }
  }

  lemma {:induction false} ExcludedInOrder(list: seq<Name>, members: set<Name>) returns (at: seq<nat>)
    ensures |at| == |Exclude(list, members)| && Increasing(at)
    ensures forall i | 0 <= i < |at| :: at[i] < |list| && list[at[i]] == Exclude(list, members)[i]
                && list[at[i]] !in members
  {
    at := [];
    if list != [] {
      var front := list[..|list| - 1];
      at := ExcludedInOrder(front, members);
      assert forall i | 0 <= i < |at| :: list[at[i]] == front[at[i]];
      if list[|list| - 1] !in members {
        at := at + [|list| - 1];
      }
    }
  }

  /** A plan begins with the pending priority stores in the order of their configuration; then come the
      other pending stores in the order of their notification; then computeds that were not pending, in
      the order of the graph. `first` and `second` say where the named ones come from, and `rest` where
      the others do. */
  lemma PlanInOrder(entries: Entries, pending: seq<Name>, priority: seq<Name>)
    returns (first: seq<nat>, second: seq<nat>, rest: seq<nat>)
    ensures var plan := FlushPlan(entries, pending, priority);
      var order := Order(entries, Affected(entries, Elements(pending)));
      && |plan| == |first| + |second| + |rest| && Increasing(first) && Increasing(second) && Increasing(rest)
      && (forall i | 0 <= i < |first| :: first[i] < |priority| && plan[i] == priority[first[i]] && plan[i] in pending)
      && (forall i | 0 <= i < |second| ::
            && second[i] < |pending| && plan[|first| + i] == pending[second[i]] && plan[|first| + i] !in priority)
      && (forall i | 0 <= i < |rest| ::
            && rest[i] < |order| && plan[|first| + |second| + i] == order[rest[i]]
            && plan[|first| + |second| + i] !in pending)
      && (forall n | n in pending :: n in plan[..|first| + |second|])
  {
    var named := Named(pending, priority);
    var order := Order(entries, Affected(entries, Elements(named)));
    NamedElements(pending, priority);
    first := KeptInOrder(priority, Elements(pending));
    second := ExcludedInOrder(pending, Elements(priority));
    rest := ExcludedInOrder(order, Elements(named));
    var plan := FlushPlan(entries, pending, priority);
    assert plan[..|first| + |second|] == named;
    forall n | n in pending ensures n in named {
      assert n in Elements(pending);
    }
  }

  lemma {:induction false} RunConcat(s: State, a: seq<Event>, b: seq<Event>)
    requires CanRun(s, a) && CanRun(Run(s, a), b)
    ensures CanRun(s, a + b) && Run(s, a + b) == Run(Run(s, a), b)
    decreases |a|
  {
    hide Next, Enabled;
    if a == [] {
      assert a + b == b;
    } else {
      assert (a + b)[0] == a[0] && (a + b)[1..] == a[1..] + b;
      RunConcat(Next(s, a[0]), a[1..], b);
    }
  }

  lemma {:induction false} FlushesConcat(a: seq<Event>, b: seq<Event>)
    ensures Flushes(a + b) == Flushes(a) + Flushes(b)
  {
    if a == [] {
      assert a + b == b;
    } else {
      FlushesConcat(a[1..], b);
      assert (a + b)[1..] == a[1..] + b;
    }
  }

  ghost predicate AllQuiet(es: seq<Event>) {
    forall e | e in es :: Quiet(e)
  }

  /** Nothing but writes, new stores and recomputes. */
  ghost predicate AllHydrating(es: seq<Event>) {
    forall e | e in es :: e.WriteStore? || e.CreateLeaf? || e.Rerun?
  }

  lemma NothingAffected(entries: Entries)
    ensures Affected(entries, {}) == {}
  {
  }

  /** `es` takes `s` to `t`. */
  ghost predicate Leads(s: State, es: seq<Event>, t: State) {
    CanRun(s, es) && Run(s, es) == t
  }

  lemma LeadsConcat(s: State, a: seq<Event>, t: State, b: seq<Event>, u: State)
    requires Leads(s, a, t) && Leads(t, b, u)
    ensures Leads(s, a + b, u) && Flushes(a + b) == Flushes(a) + Flushes(b)
  {
    RunConcat(s, a, b);
    FlushesConcat(a, b);
  }

  lemma LeadsNone(s: State)
    ensures Leads(s, [], s) && Flushes([]) == 0
  {
  }

  lemma LeadsOne(s: State, e: Event)
    requires Enabled(s, e)
    ensures Leads(s, [e], Next(s, e)) && Flushes([e]) == if e.FinishFlush? then 1 else 0
  {
    assert Run(Next(s, e), [e][1..]) == Next(s, e);
    assert Flushes([e]) == (if e.FinishFlush? then 1 else 0) + Flushes([e][1..]);
  }

  ghost predicate LongestChain(entries: Entries, rank: map<Name, nat>, longest: nat) {
    Ranked(entries, rank) && forall c | c in entries :: Height(entries, rank, c) <= longest
  }

  /** As long as something is pending, a quiet run has finished no more flushes than the longest chain. */
  lemma StillPending(s: State, rank: map<Name, nat>, longest: nat, es: seq<Event>, t: State)
    requires Inv(s) && Faithful(s) && !s.flushing && LongestChain(s.entries, rank, longest)
    requires Leads(s, es, t) && AllQuiet(es)
    ensures t.pending != {} ==> Flushes(es) <= longest
  {
    if Flushes(es) > longest {
      ConvergenceBound(s, rank, longest, es);
    }
  }

  /** A quiet run that ends at rest, and began with nobody misled, has converged. */
  lemma QuietConverged(s: State, rank: map<Name, nat>, es: seq<Event>, t: State)
    requires Inv(s) && Faithful(s) && !s.flushing && Ranked(s.entries, rank)
    requires Leads(s, es, t) && AllQuiet(es) && AtRest(t)
    ensures t.entries == s.entries && Converged(t, rank, s.stores)
  {
    var level := Levels(s.entries, rank);
    SettledAtZero(s, level);
    QuietRun(s, level, 0, es);
    forall l | l !in s.entries ensures Read(t.stores, l) == Read(s.stores, l) {
      assert LevelOf(level, l) == 0;
    }
    forall c | c in t.entries ensures UpToDate(t, c) {
      assert Tracked(t, c) && !Owed(t, c);
    }
    UpToDateConverges(t, rank, s.stores);
  }

  lemma StartLeads(s: State, t: State, plan: seq<Name>)
    requires Inv(s) && Enabled(s, StartFlush(plan))
    requires t == s.(flushing := true, flushId := s.flushId + 1, pending := {}, queue := Waiting(plan))
    ensures Leads(s, [StartFlush(plan)], t) && Flushes([StartFlush(plan)]) == 0 && AllQuiet([StartFlush(plan)])
    ensures Inv(t)
  {
    StepKeeps(s, StartFlush(plan));
    LeadsOne(s, StartFlush(plan));
  }

  lemma LeadsConcat3(s: State, a: seq<Event>, t: State, b: seq<Event>, u: State, c: seq<Event>, v: State)
    requires Leads(s, a, t) && Leads(t, b, u) && Leads(u, c, v)
    ensures Leads(s, a + b + c, v) && Flushes(a + b + c) == Flushes(a) + Flushes(b) + Flushes(c)
  {
    LeadsConcat(s, a, t, b, u);
    LeadsConcat(s, a + b, u, c, v);
  }

  /** A registration makes a cycle exactly if a dependency leads back to it. */
  lemma RefusedForCycle(entries: Entries, c: Name, entry: Entry)
    requires Acyclic(entries) && c !in entries
    ensures Acyclic(entries[c := entry]) <==> !AnyReaches(entries, entry.deps, c)
  {
    if !AnyReaches(entries, entry.deps, c) {
      AcyclicAfterAdding(entries, c, entry);
    } else {
      CyclicAfterAdding(entries, c, entry);
    }
  }
}
