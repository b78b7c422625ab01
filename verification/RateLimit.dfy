/** The fixed-window rate limiter with pruning (src/async/rate.ts:18-64). */
module RateLimit {
  import opened Names

  const RATE_WINDOW_MS: nat := 1000
  const RATE_MAX: nat := 100

  /** One slot's window: when it began and how many hits it has admitted. */
  datatype Window = Closed | Open(start: int, count: nat)

  type Windows = map<Name, Window>

  function WindowOf(w: Windows, slot: Name): Window {
    if slot in w then w[slot] else Closed
  }

  predicate Running(w: Window, now: int) {
    w.Open? && now - w.start < RATE_WINDOW_MS
  }

  /** One hit: whether it is limited, and the slot's window after it. */
  predicate Limited(w: Window, now: int) {
    Running(w, now) && w.count >= RATE_MAX
  }

  function AfterHit(w: Window, now: int): Window {
    if Limited(w, now) then w else if Running(w, now) then Open(w.start, w.count + 1) else Open(now, 1)
  }

  /** What a prune that is not skipped leaves. */
  function AfterPrune(w: Windows, now: int): Windows {
    map s | s in w && !(w[s].Open? && now - w[s].start > RATE_WINDOW_MS) :: w[s]
  }

  datatype Event = Hit(slot: Name, at: int) | Prune(at: int)

  datatype State = State(windows: Windows, lastAt: int)

  function Step(s: State, e: Event): State {
    match e
    case Hit(slot, at) => s.(windows := s.windows[slot := AfterHit(WindowOf(s.windows, slot), at)])
    case Prune(at) => if at - s.lastAt < RATE_WINDOW_MS then s else State(AfterPrune(s.windows, at), at)
  }

  // ------------------------------------------------------------------ the registry

  class RateRegistry {
    var windowStart: map<Name, int>
    var counts: map<Name, nat>
    var lastAt: int

    ghost predicate Valid()
      reads this
    {
      windowStart.Keys == counts.Keys
    }

    ghost function Current(): State
      reads this
      requires Valid()
    {
      State(map s | s in windowStart :: Open(windowStart[s], counts[s]), lastAt)
    }

    constructor ()
      ensures Valid() && Current() == State(map[], 0)
    {
      windowStart, counts, lastAt := map[], map[], 0;
    }

    /** registerRateHit. */
    method RegisterRateHit(slot: Name, now: int) returns (limited: bool)
      requires Valid()
      modifies this`windowStart, this`counts
      ensures Valid() && limited == Limited(WindowOf(old(Current()).windows, slot), now)
      ensures Current() == Step(old(Current()), Hit(slot, now))
    {
      var count := if slot in counts then counts[slot] else 0;
      if slot in windowStart && now - windowStart[slot] < RATE_WINDOW_MS {
        if count >= RATE_MAX {
          return true;
        }
        counts := counts[slot := count + 1];
        return false;
      }
      windowStart, counts := windowStart[slot := now], counts[slot := 1];
      return false;
    }

    /** pruneRateCountersForRegistry. */
    method Prune(now: int)
      requires Valid()
      modifies this
      ensures Valid() && Current() == Step(old(Current()), Event.Prune(now))
    {
      if now - lastAt < RATE_WINDOW_MS {
        return;
      }
      lastAt := now;
      var todo := windowStart.Keys;
      while todo != {}
        invariant Valid() && todo <= windowStart.Keys <= old(windowStart).Keys && lastAt == now
        invariant forall s | s in windowStart :: windowStart[s] == old(windowStart)[s] && counts[s] == old(counts)[s]
        invariant forall s | s in old(windowStart) ::
          s in windowStart <==> s in todo || now - old(windowStart)[s] <= RATE_WINDOW_MS
      {
        var slot :| slot in todo;
        todo := todo - {slot};
        if now - windowStart[slot] > RATE_WINDOW_MS {
          windowStart, counts := windowStart - {slot}, counts - {slot};
        }
      }
    }
  }

  // ------------------------------------------------------------------ runs

  /** The verdicts of the hits of a run, in order. */
  function Verdicts(s: State, run: seq<Event>): seq<bool>
    decreases |run|
  {
    if run == [] then []
    else
      (if run[0].Hit? then [Limited(WindowOf(s.windows, run[0].slot), run[0].at)] else [])
      + Verdicts(Step(s, run[0]), run[1..])
  }

  function HitsOnly(run: seq<Event>): seq<Event> {
    if run == [] then [] else (if run[0].Hit? then [run[0]] else []) + HitsOnly(run[1..])
  }

  /** No event is earlier than the one before it, nor than `since`. */
  predicate Ordered(run: seq<Event>, since: int) {
    run == [] || (run[0].at >= since && Ordered(run[1..], run[0].at))
  }

  /** From `now` on, two windows answer alike: they are the same or neither is running. */
  predicate Alike(a: Window, b: Window, now: int) {
    a == b || (!Running(a, now) && !Running(b, now))
  }

  ghost predicate AllAlike(a: Windows, b: Windows, now: int) {
    forall s :: Alike(WindowOf(a, s), WindowOf(b, s), now)
  }

  lemma PrunedAlike(a: Windows, b: Windows, since: int, now: int)
    requires AllAlike(a, b, since) && since <= now
    ensures AllAlike(AfterPrune(a, now), b, now) && AllAlike(a, b, now)
  {
    forall s
      ensures Alike(WindowOf(AfterPrune(a, now), s), WindowOf(b, s), now) && Alike(WindowOf(a, s), WindowOf(b, s), now)
    {
      assert Alike(WindowOf(a, s), WindowOf(b, s), since);
    }
  }

  lemma HitAlike(a: Windows, b: Windows, since: int, slot: Name, now: int)
    requires AllAlike(a, b, since) && since <= now
    ensures Limited(WindowOf(a, slot), now) == Limited(WindowOf(b, slot), now)
    ensures AllAlike(a[slot := AfterHit(WindowOf(a, slot), now)], b[slot := AfterHit(WindowOf(b, slot), now)], now)
  {
    var a', b' := a[slot := AfterHit(WindowOf(a, slot), now)], b[slot := AfterHit(WindowOf(b, slot), now)];
    forall s ensures Alike(WindowOf(a', s), WindowOf(b', s), now) {
      assert Alike(WindowOf(a, s), WindowOf(b, s), since) && Alike(WindowOf(a, slot), WindowOf(b, slot), since);
    }
  }

  /** Prunes inserted anywhere in a run change no verdict. */
  lemma {:induction false} PrunesAreInvisible(s: State, t: State, run: seq<Event>, since: int)
    requires AllAlike(s.windows, t.windows, since) && Ordered(run, since)
    ensures Verdicts(s, run) == Verdicts(t, HitsOnly(run))
    decreases |run|
  {
    if run != [] {
      var e := run[0];
      if e.Hit? {
        HitAlike(s.windows, t.windows, since, e.slot, e.at);
        PrunesAreInvisible(Step(s, e), Step(t, e), run[1..], e.at);
        assert ([e] + HitsOnly(run[1..]))[1..] == HitsOnly(run[1..]);
      } else {
        PrunedAlike(s.windows, t.windows, since, e.at);
        PrunesAreInvisible(Step(s, e), t, run[1..], e.at);
        assert HitsOnly(run) == HitsOnly(run[1..]) && Verdicts(s, run) == Verdicts(Step(s, e), run[1..]);
      }
    }
  }

  lemma PrunesChangeNoVerdict(run: seq<Event>, start: int)
    requires Ordered(run, start)
    ensures Verdicts(State(map[], 0), run) == Verdicts(State(map[], 0), HitsOnly(run))
  {
    PrunesAreInvisible(State(map[], 0), State(map[], 0), run, start);
  }

  // ------------------------------------------------------------------ how many hits get through

  /** The hits on a slot that a run admits from `from` to `from` plus one window, both ends included. */
  function Admitted(s: State, run: seq<Event>, slot: Name, from: int): nat
    decreases |run|
  {
    if run == [] then 0
    else (if Counts(s, run[0], slot, from) then 1 else 0) + Admitted(Step(s, run[0]), run[1..], slot, from)
  }

  predicate Counts(s: State, e: Event, slot: Name, from: int) {
    e.Hit? && e.slot == slot && from <= e.at <= from + 1000 && !Limited(WindowOf(s.windows, slot), e.at)
  }

  /** How many more hits the window leaves to the interval. */
  function Left(w: Window, now: int, from: int): int {
    if now > from + RATE_WINDOW_MS then 0
    else if w.Closed? || w.start <= from - RATE_WINDOW_MS then (if now > from then RATE_MAX else 2 * RATE_MAX)
    else if w.start <= from then 2 * RATE_MAX - w.count
    else RATE_MAX - w.count
  }

  predicate Sound(w: Window, now: int) {
    w.Open? ==> w.start <= now && w.count <= RATE_MAX
  }

  lemma {:induction false} AdmittedAtMostLeft(s: State, run: seq<Event>, slot: Name, from: int, now: int)
    requires Ordered(run, now) && Sound(WindowOf(s.windows, slot), now)
    ensures Admitted(s, run, slot, from) <= Left(WindowOf(s.windows, slot), now, from)
    decreases |run|
  {
    if run != [] {
      var e := run[0];
      AdmittedAtMostLeft(Step(s, e), run[1..], slot, from, e.at);
    }
  }

  /** Of any run, at most 200 hits on a slot, twice the maximum, are admitted within any interval of
      one window. */
  lemma AtMostTwoWindows(run: seq<Event>, slot: Name, from: int, start: int)
    requires Ordered(run, start)
    ensures Admitted(State(map[], 0), run, slot, from) <= 200
  {
    AdmittedAtMostLeft(State(map[], 0), run, slot, from, start);
  }

  // ------------------------------------------------------------------ and how many are let through

  function After(s: State, run: seq<Event>): State
    decreases |run|
  {
    if run == [] then s else After(Step(s, run[0]), run[1..])
  }

  /** What a window has counted since `from`. */
  function CountSince(w: Window, from: int): nat {
    if w.Open? && w.start >= from then w.count else 0
  }

  predicate EndsBy(run: seq<Event>, at: int) {
    forall e | e in run :: e.at <= at
  }

  lemma {:induction false} CountedWereAdmitted(s: State, run: seq<Event>, slot: Name, from: int, now: int)
    requires Ordered(run, now) && EndsBy(run, from + RATE_WINDOW_MS) && Sound(WindowOf(s.windows, slot), now)
    ensures CountSince(WindowOf(After(s, run).windows, slot), from)
         <= CountSince(WindowOf(s.windows, slot), from) + Admitted(s, run, slot, from)
    decreases |run|
  {
    if run != [] {
      assert run[0] in run && run[0].at <= from + RATE_WINDOW_MS;
      CountedWereAdmitted(Step(s, run[0]), run[1..], slot, from, run[0].at);
    }
  }

  /** A hit is limited only if 100 hits on its slot were admitted within the 1000 ms before it. */
  lemma LimitedOnlyWhenFull(run: seq<Event>, slot: Name, now: int, start: int)
    requires Ordered(run, start) && EndsBy(run, now)
    requires Limited(WindowOf(After(State(map[], 0), run).windows, slot), now)
    ensures Admitted(State(map[], 0), run, slot, now - 1000) >= 100
  {
    CountedWereAdmitted(State(map[], 0), run, slot, now - RATE_WINDOW_MS, start);
  }
}
