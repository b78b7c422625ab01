/** Which store owns which async cache slot, and the pruning of a store's cached slots
    (src/async/cache.ts:25, 105-199 and 377-412). */
module AsyncSlotIndex {
  import opened Names
  import opened Wrappers

  const MAX_CACHE_SLOTS_PER_STORE: nat := 100

  type Slot = Name

  datatype Meta = Meta(timestamp: int, expiresAt: Option<int>)

  predicate Expired(meta: Meta, now: int) {
    meta.expiresAt.Some? && meta.expiresAt.value <= now
  }

  predicate IsStoreSlot(name: Name, key: Slot) {
    key == name || name + [0x3A] <= key
  }

  /** The slots of each store that owns one. */
  function Inverted(owners: map<Slot, Name>): map<Name, set<Slot>> {
    map n | n in owners.Values :: set s | s in owners && owners[s] == n
  }

  /** What it means for the two indexes to be exact inverses, with no empty bucket. */
  lemma InvertedIsExact(owners: map<Slot, Name>, byStore: map<Name, set<Slot>>)
    ensures byStore == Inverted(owners) <==>
      (forall n | n in byStore :: byStore[n] != {})
      && (forall s, n :: (n in byStore && s in byStore[n]) <==> (s in owners && owners[s] == n))
  {
    var inv := Inverted(owners);
    if (forall n | n in byStore :: byStore[n] != {})
       && (forall s, n :: (n in byStore && s in byStore[n]) <==> (s in owners && owners[s] == n)) {
      forall n ensures n in byStore <==> n in inv {
        if n in byStore {
          var s :| s in byStore[n];
          assert owners[s] == n;
        }
        if n in inv {
          var s :| s in owners && owners[s] == n;
        }
      }
      forall n | n in byStore ensures byStore[n] == inv[n] {
      }
    }
    forall n | n in inv ensures inv[n] != {} {
      var s :| s in owners && owners[s] == n;
      assert s in inv[n];
    }
  }

  /** A slot has its store's name, or that with a colon and something after it. */
  lemma StoreSlots(name: Name, rest: Name, key: Slot)
    ensures IsStoreSlot(name, name) && IsStoreSlot(name, name + [0x3A] + rest)
    ensures IsStoreSlot(name, key) ==> key == name || key == name + [0x3A] + key[|name| + 1..]
  {
  }

  lemma BucketsShrink(before: map<Slot, Name>, after: map<Slot, Name>, name: Name)
    requires (forall s | s in after :: s in before && before[s] == after[s]) && name in Inverted(after)
    ensures name in Inverted(before) && Inverted(after)[name] <= Inverted(before)[name]
  {
    var s :| s in after && after[s] == name;
    assert before[s] == name;
  }

  lemma SubsetSize(a: set<Slot>, b: set<Slot>)
    requires a <= b
    ensures |a| <= |b|
  {
    assert b == a + (b - a);
  }

  // ------------------------------------------------------------------ by age

  function AsSet(slots: seq<Slot>): set<Slot> {
    set s | s in slots
  }

  /** A list of a set, each member once. */
  ghost predicate Lists(slots: seq<Slot>, members: set<Slot>) {
    AsSet(slots) == members && |slots| == |members|
  }

  lemma ListsOneMore(slots: seq<Slot>, members: set<Slot>, slot: Slot)
    requires Lists(slots, members) && slot !in members
    ensures Lists(slots + [slot], members + {slot})
  {
    assert AsSet(slots + [slot]) == AsSet(slots) + {slot};
  }

  lemma {:induction false} SizeAtMostLength(slots: seq<Slot>)
    ensures |AsSet(slots)| <= |slots|
  {
    if slots != [] {
      SizeAtMostLength(slots[1..]);
      assert AsSet(slots) == AsSet(slots[1..]) + {slots[0]};
    }
  }

  lemma FrontAndBack(slots: seq<Slot>, members: set<Slot>, n: nat)
    requires Lists(slots, members) && n <= |slots|
    ensures AsSet(slots[..n]) + AsSet(slots[n..]) == members && AsSet(slots[..n]) !! AsSet(slots[n..])
    ensures |AsSet(slots[n..])| == |slots| - n
  {
    assert slots == slots[..n] + slots[n..];
    assert AsSet(slots[..n]) + AsSet(slots[n..]) == members;
    SizeAtMostLength(slots[..n]);
    SizeAtMostLength(slots[n..]);
    FullSizeIsDisjoint(AsSet(slots[..n]), AsSet(slots[n..]), members);
  }

  lemma FullSizeIsDisjoint(a: set<Slot>, b: set<Slot>, both: set<Slot>)
    requires a + b == both && |both| >= |a| + |b|
    ensures a !! b && |both| == |a| + |b|
  {
    assert |a + b| + |a * b| == |a| + |b|;
    assert a * b == {};
    assert forall s | s in a :: s !in a * b ==> s !in b;
  }

  function Age(slot: Slot, metas: map<Slot, Meta>): int {
    if slot in metas then metas[slot].timestamp else 0
  }

  /** Array.prototype.sort by timestamp, which is stable. */
  function SortByAge(slots: seq<Slot>, metas: map<Slot, Meta>): seq<Slot> {
    if slots == [] then [] else InsertByAge(slots[0], SortByAge(slots[1..], metas), metas)
  }

  function InsertByAge(slot: Slot, sorted: seq<Slot>, metas: map<Slot, Meta>): seq<Slot> {
    if sorted == [] || Age(slot, metas) <= Age(sorted[0], metas) then [slot] + sorted
    else [sorted[0]] + InsertByAge(slot, sorted[1..], metas)
  }

  predicate OldestFirst(slots: seq<Slot>, metas: map<Slot, Meta>) {
    forall i, j | 0 <= i < j < |slots| :: Age(slots[i], metas) <= Age(slots[j], metas)
  }

  lemma {:induction false} InsertedOnce(slot: Slot, sorted: seq<Slot>, metas: map<Slot, Meta>)
    ensures multiset(InsertByAge(slot, sorted, metas)) == multiset(sorted) + multiset{slot}
  {
    if sorted != [] {
      InsertedOnce(slot, sorted[1..], metas);
      assert sorted == [sorted[0]] + sorted[1..];
    }
  }

  lemma {:induction false} InsertedOldestFirst(slot: Slot, sorted: seq<Slot>, metas: map<Slot, Meta>)
    requires OldestFirst(sorted, metas)
    ensures OldestFirst(InsertByAge(slot, sorted, metas), metas)
  {
    if sorted != [] && Age(slot, metas) > Age(sorted[0], metas) {
      var rest := InsertByAge(slot, sorted[1..], metas);
      InsertedOldestFirst(slot, sorted[1..], metas);
      InsertedOnce(slot, sorted[1..], metas);
      forall s | s in rest ensures Age(sorted[0], metas) <= Age(s, metas) {
        assert s in multiset(rest) && (s in multiset(sorted[1..]) || s == slot);
      }
    }
  }

  lemma {:induction false} SortedByAge(slots: seq<Slot>, metas: map<Slot, Meta>)
    ensures OldestFirst(SortByAge(slots, metas), metas) && multiset(SortByAge(slots, metas)) == multiset(slots)
    ensures var sorted := SortByAge(slots, metas);
      forall i, j | 0 <= i < j < |sorted| && sorted[i] in metas && sorted[j] in metas ::
        metas[sorted[i]].timestamp <= metas[sorted[j]].timestamp
  {
    if slots != [] {
      SortedByAge(slots[1..], metas);
      InsertedOldestFirst(slots[0], SortByAge(slots[1..], metas), metas);
      InsertedOnce(slots[0], SortByAge(slots[1..], metas), metas);
      assert slots == [slots[0]] + slots[1..];
    }
  }

  lemma SameElements(a: seq<Slot>, b: seq<Slot>, members: set<Slot>)
    requires Lists(a, members) && multiset(a) == multiset(b)
    ensures Lists(b, members)
  {
    forall s ensures s in a <==> s in b {
      assert s in a <==> s in multiset(a);
      assert s in b <==> s in multiset(b);
    }
    assert |multiset(a)| == |a| && |multiset(b)| == |b|;
  }

  lemma FrontIsOldest(sorted: seq<Slot>, n: nat, metas: map<Slot, Meta>)
    requires OldestFirst(sorted, metas) && n <= |sorted|
    ensures forall e, k | e in AsSet(sorted[..n]) && k in AsSet(sorted[n..]) :: Age(e, metas) <= Age(k, metas)
  {
    forall e, k | e in AsSet(sorted[..n]) && k in AsSet(sorted[n..]) ensures Age(e, metas) <= Age(k, metas) {
      var i :| 0 <= i < n && sorted[i] == e;
      var j :| n <= j < |sorted| && sorted[j] == k;
    }
  }

  /** Of a store's live entries, `evicted` go and `kept` stay: the newest, at most the maximum. */
  ghost predicate KeepsNewest(live: set<Slot>, evicted: set<Slot>, kept: set<Slot>, metas: map<Slot, Meta>) {
    && evicted + kept == live <= metas.Keys && evicted !! kept
    && |kept| == (if |live| <= 100 then |live| else 100)
    && forall e, k | e in evicted && k in kept :: metas[e].timestamp <= metas[k].timestamp
  }

  lemma KeepsNewestIn(live: set<Slot>, evicted: set<Slot>, kept: set<Slot>, metas: map<Slot, Meta>,
                      wider: map<Slot, Meta>)
    requires KeepsNewest(live, evicted, kept, metas) && forall s | s in metas :: s in wider && wider[s] == metas[s]
    ensures KeepsNewest(live, evicted, kept, wider)
  {
  }

  lemma MinusTwice<T>(m: map<Slot, T>, a: set<Slot>, b: set<Slot>)
    ensures m - a - b == m - (a + b)
  {
  }

  /** Dropping the front of the list sorted by age keeps the newest. */
  lemma FrontGone(live: set<Slot>, sorted: seq<Slot>, metas: map<Slot, Meta>, n: nat)
    requires Lists(sorted, live) && OldestFirst(sorted, metas) && n == |sorted| - MAX_CACHE_SLOTS_PER_STORE > 0
        && live <= metas.Keys
    ensures KeepsNewest(live, AsSet(sorted[..n]), AsSet(sorted[n..]), metas)
  {
    FrontIsOldest(sorted, n, metas);
    FrontAndBack(sorted, live, n);
  }

  // ------------------------------------------------------------------ the registry

  class AsyncSlots {
    const forbidden: set<Slot>
    var owners: map<Slot, Name>
    var slotsByStore: map<Name, set<Slot>>
    var cacheMeta: map<Slot, Meta>
    var requestVersion: set<Slot>
    var requestSequence: set<Slot>
    var inflight: set<Slot>
    var rateWindowStart: set<Slot>
    var rateCount: set<Slot>

    ghost predicate Valid()
      reads this`owners, this`slotsByStore
    {
      slotsByStore == Inverted(owners) && [] !in owners.Values
    }

    constructor (forbidden: set<Slot>)
      ensures Valid() && owners == map[] && cacheMeta == map[] && this.forbidden == forbidden
    {
      this.forbidden := forbidden;
      owners, slotsByStore, cacheMeta := map[], map[], map[];
      requestVersion, requestSequence, inflight, rateWindowStart, rateCount := {}, {}, {}, {}, {};
    }

    predicate HasSlotReferences(slot: Slot)
      reads this`cacheMeta, this`requestVersion, this`requestSequence, this`inflight, this`rateWindowStart
      reads this`rateCount
    {
      slot !in forbidden
      && (slot in inflight || slot in requestVersion || slot in requestSequence || slot in cacheMeta
          || slot in rateWindowStart || slot in rateCount)
    }

    /** The slot loses its owner, and the store the slot. The two indexes stay exact inverses exactly if
        no other store owned it. */
    method RemoveTrackedAsyncSlot(name: Name, slot: Slot)
      requires Valid()
      modifies this`owners, this`slotsByStore
      ensures owners == old(owners) - {slot}
      ensures Valid() <==> (slot in old(owners) ==> old(owners)[slot] == name)
    {
      InvertedIsExact(owners, slotsByStore);
      if name in slotsByStore {
        var slots := slotsByStore[name] - {slot};
        slotsByStore := if slots == {} then slotsByStore - {name} else slotsByStore[name := slots];
      }
      owners := owners - {slot};
      InvertedIsExact(owners, slotsByStore);
      if slot in old(owners) && old(owners)[slot] != name {
        assert slot in slotsByStore[old(owners)[slot]];
      }
    }

    method TrackAsyncSlot(name: Name, slot: Slot)
      requires Valid() && name != []
      modifies this`owners, this`slotsByStore
      ensures Valid() && owners == old(owners)[slot := name]
    {
      if slot in owners && owners[slot] != name {
        RemoveTrackedAsyncSlot(owners[slot], slot);
      }
      InvertedIsExact(owners, slotsByStore);
      owners := owners[slot := name];
      slotsByStore := slotsByStore[name := (if name in slotsByStore then slotsByStore[name] else {}) + {slot}];
      InvertedIsExact(owners, slotsByStore);
    }

    method ReleaseAsyncSlotIfOrphaned(slot: Slot)
      requires Valid()
      modifies this`owners, this`slotsByStore
      ensures Valid() && owners == if HasSlotReferences(slot) then old(owners) else old(owners) - {slot}
    {
      if !HasSlotReferences(slot) && slot in owners {
        RemoveTrackedAsyncSlot(owners[slot], slot);
      }
    }

    /** What the scan finds for a store that has no bucket: unowned keys of its form, and its base slot. */
    function CollectStoreSlotsByScan(name: Name): set<Slot>
      reads this`owners, this`cacheMeta, this`requestVersion, this`requestSequence, this`inflight
      reads this`rateWindowStart, this`rateCount
    {
      var keys := inflight + requestVersion + requestSequence + cacheMeta.Keys + rateWindowStart + rateCount;
      (set s | s in owners && owners[s] == name)
      + (set s | s in keys && s !in owners && IsStoreSlot(name, s))
      + (if name in keys && name !in forbidden then {name} else {})
    }

    function TrackedOrScanned(name: Name): set<Slot>
      reads this`owners, this`slotsByStore
      reads this`cacheMeta, this`requestVersion, this`requestSequence, this`inflight, this`rateWindowStart
      reads this`rateCount
    {
      if name in slotsByStore then slotsByStore[name] else CollectStoreSlotsByScan(name)
    }

    /** Which cached slots a prune of `name` looks at: those it owns; where it owns none, those that nobody
        owns and that have its form; and then its base slot, whoever owns that. */
    lemma Looked(name: Name, s: Slot)
      requires Valid() && s in cacheMeta && s !in forbidden
      ensures s in TrackedOrScanned(name) <==>
        || (s in owners && owners[s] == name)
        || (name !in owners.Values && s !in owners && name + [0x3A] <= s)
        || (name !in owners.Values && s == name)
    {
      InvertedIsExact(owners, slotsByStore);
      assert s in owners && owners[s] == name ==> name in owners.Values;
    }

    /** Slots that only their cache entry and request counters kept alive. */
    function Orphans(slots: set<Slot>): set<Slot>
      reads this`inflight, this`rateWindowStart, this`rateCount
    {
      set s | s in slots && s !in inflight && s !in rateWindowStart && s !in rateCount
    }

    method DropEntry(slot: Slot)
      requires Valid() && slot !in forbidden
      modifies this`owners, this`slotsByStore, this`cacheMeta, this`requestVersion, this`requestSequence
      ensures Valid() && cacheMeta == old(cacheMeta) - {slot}
      ensures requestVersion == old(requestVersion) - {slot} && requestSequence == old(requestSequence) - {slot}
      ensures owners == old(owners) - Orphans({slot})
    {
      cacheMeta, requestVersion, requestSequence :=
        cacheMeta - {slot}, requestVersion - {slot}, requestSequence - {slot};
      ReleaseAsyncSlotIfOrphaned(slot);
    }

    /** The slots of `tracked` with a cache entry, by what the prune makes of them. */
    function Cached(tracked: set<Slot>): set<Slot>
      reads this`cacheMeta
    {
      set s | s in tracked && s !in forbidden && s in cacheMeta
    }

    /** The first loop: expired entries go, the others are listed. */
    method DropExpired(tracked: set<Slot>, now: int)
      returns (live: seq<Slot>, ghost members: set<Slot>, ghost gone: set<Slot>)
      requires Valid()
      modifies this`owners, this`slotsByStore, this`cacheMeta, this`requestVersion, this`requestSequence
      ensures Valid()
      ensures gone == set s | s in old(Cached(tracked))
                      && old(cacheMeta)[s].expiresAt.Some? && old(cacheMeta)[s].expiresAt.value <= now
      ensures Lists(live, members) && members == old(Cached(tracked)) - gone
      ensures Gone(gone, old(cacheMeta), old(requestVersion), old(requestSequence), old(owners))
    {
      live, members, gone := [], {}, {};
      var todo := tracked;
      while todo != {}
        invariant todo <= tracked && Valid() && Lists(live, members)
        invariant forall s :: s in gone <==> s in old(Cached(tracked)) && s !in todo && Expired(old(cacheMeta)[s], now)
        invariant forall s :: s in members <==>
          s in old(Cached(tracked)) && s !in todo && !Expired(old(cacheMeta)[s], now)
        invariant Gone(gone, old(cacheMeta), old(requestVersion), old(requestSequence), old(owners))
      {
        var slot :| slot in todo;
        todo := todo - {slot};
        if slot !in forbidden && slot in cacheMeta {
          if Expired(cacheMeta[slot], now) {
            DropEntry(slot);
            gone := gone + {slot};
          } else {
            ListsOneMore(live, members, slot);
            live, members := live + [slot], members + {slot};
          }
        }
      }
    }

    /** The state without the entries of some slots. */
    ghost predicate Gone(gone: set<Slot>, metas: map<Slot, Meta>, versions: set<Slot>, sequences: set<Slot>,
                         owned: map<Slot, Name>)
      reads this`owners, this`cacheMeta, this`requestVersion, this`requestSequence, this`inflight
      reads this`rateWindowStart, this`rateCount
    {
      && cacheMeta == metas - gone && requestVersion == versions - gone && requestSequence == sequences - gone
      && owners == owned - Orphans(gone)
    }

    /** pruneAsyncCache. */
    method PruneAsyncCache(name: Name, now: int)
      returns (ghost expired: set<Slot>, ghost evicted: set<Slot>, ghost kept: set<Slot>)
      requires Valid()
      modifies this`owners, this`slotsByStore, this`cacheMeta, this`requestVersion, this`requestSequence
      ensures Valid()
      ensures expired == set s | s in old(Cached(TrackedOrScanned(name)))
                         && old(cacheMeta)[s].expiresAt.Some? && old(cacheMeta)[s].expiresAt.value <= now
      ensures KeepsNewest(old(Cached(TrackedOrScanned(name))) - expired, evicted, kept, old(cacheMeta))
      ensures Gone(expired + evicted, old(cacheMeta), old(requestVersion), old(requestSequence), old(owners))
      ensures forall s | s in old(owners) && old(owners)[s] != name && s != name :: s !in expired && s !in evicted
      ensures name in slotsByStore ==> |Cached(slotsByStore[name])| <= 100
    {
      var live;
      ghost var members;
      forall s | s in Cached(TrackedOrScanned(name)) && s in owners && owners[s] != name ensures s == name {
        Looked(name, s);
      }
      live, members, expired := DropExpired(TrackedOrScanned(name), now);
      ghost var metas := cacheMeta;
      evicted, kept := EvictOverflow(live, members);
      KeepsNewestIn(members, evicted, kept, metas, old(cacheMeta));
      GoneTwice(old(cacheMeta), old(requestVersion), old(requestSequence), old(owners), expired, evicted);
      if name in slotsByStore {
        BucketsShrink(old(owners), owners, name);
        SubsetSize(Cached(slotsByStore[name]), kept);
      }
    }

    lemma GoneTwice(metas: map<Slot, Meta>, versions: set<Slot>, sequences: set<Slot>, owned: map<Slot, Name>,
                    a: set<Slot>, b: set<Slot>)
      requires Gone(b, metas - a, versions - a, sequences - a, owned - Orphans(a))
      ensures Gone(a + b, metas, versions, sequences, owned)
    {
      MinusTwice(metas, a, b);
      assert Orphans(a + b) == Orphans(a) + Orphans(b);
      MinusTwice(owned, Orphans(a), Orphans(b));
    }

    /** All but the newest MAX_CACHE_SLOTS_PER_STORE go. */
    method EvictOverflow(live: seq<Slot>, ghost members: set<Slot>)
      returns (ghost evicted: set<Slot>, ghost kept: set<Slot>)
      requires Valid() && Lists(live, members) && members !! forbidden && members <= cacheMeta.Keys
      modifies this`owners, this`slotsByStore, this`cacheMeta, this`requestVersion, this`requestSequence
      ensures Valid() && KeepsNewest(members, evicted, kept, old(cacheMeta))
      ensures Gone(evicted, old(cacheMeta), old(requestVersion), old(requestSequence), old(owners))
    {
      evicted, kept := {}, members;
      if |live| <= MAX_CACHE_SLOTS_PER_STORE {
        return;
      }
      SortedByAge(live, cacheMeta);
      var sorted := SortByAge(live, cacheMeta);
      SameElements(live, sorted, members);
      var overflow := |live| - MAX_CACHE_SLOTS_PER_STORE;
      FrontGone(members, sorted, cacheMeta, overflow);
      kept := AsSet(sorted[overflow..]);
      evicted := Evict(sorted[..overflow]);
    }

    method Evict(slots: seq<Slot>) returns (ghost gone: set<Slot>)
      requires Valid() && AsSet(slots) !! forbidden
      modifies this`owners, this`slotsByStore, this`cacheMeta, this`requestVersion, this`requestSequence
      ensures Valid() && gone == AsSet(slots)
      ensures Gone(gone, old(cacheMeta), old(requestVersion), old(requestSequence), old(owners))
    {
      gone := {};
      for i := 0 to |slots|
        invariant Valid() && gone == AsSet(slots[..i])
        invariant Gone(gone, old(cacheMeta), old(requestVersion), old(requestSequence), old(owners))
      {
        assert slots[i] in AsSet(slots);
        DropEntry(slots[i]);
        gone := gone + {slots[i]};
        assert slots[..i + 1] == slots[..i] + [slots[i]];
      }
      assert slots[..|slots|] == slots;
    }
  }
}
