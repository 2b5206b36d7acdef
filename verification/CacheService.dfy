/**
 Writing into the cache: capacity checks, reclaiming of expired entries, eviction and
 insertion.  Writers hold one lock, so a write runs alone against the index; the bytes
 available in the backend and its failures are arguments.
 */
module CacheServices {
  import opened Basics
  import opened MapSum
  import opened LexOrder
  import opened CacheIndexes
  import opened CacheCapacity

  datatype RejectReason = ZeroCapacity | IncomingLargerThanCapacity | NoEvictionCandidate | StagingBudgetExceeded
                        | RestoredBudgetExceeded | GlobalCapacityExceeded | LowWatermarkExceeded

  datatype EvictOutcome = Room | Rejected(reason: RejectReason) | DeleteFailed

  datatype PutOutcome = Stored(storageId: nat) | Refused(reason: RejectReason) | BackendFailed

  // ----------------------------------------------------------------- pressure

  /** The bounds that one write has to respect. */
  datatype Plan = Plan(total: nat, stagingBudget: nat, restoredBudget: nat, target: Option<nat>)

  predicate BoundsHold(plan: Plan, stagingUsed: nat, restoredUsed: nat) {
    && stagingUsed <= plan.stagingBudget
    && restoredUsed <= plan.restoredBudget
    && stagingUsed + restoredUsed <= plan.total
    && (plan.target.Some? ==> stagingUsed + restoredUsed <= plan.target.value)
  }

  /** Usage as it would be with the incoming bytes added. */
  datatype Pressure = Pressure(stagingAfter: nat, restoredAfter: nat, usedAfter: nat)

  function PressureOf(stagingUsed: nat, restoredUsed: nat, incoming: nat, category: Category): Pressure {
    Pressure(SatAdd(stagingUsed, if category == Staging then incoming else 0),
             SatAdd(restoredUsed, if category == Restored then incoming else 0),
             SatAdd(stagingUsed + restoredUsed, incoming))
  }

  predicate StagingPressure(p: Pressure, plan: Plan) { p.stagingAfter > plan.stagingBudget }

  predicate RestoredPressure(p: Pressure, plan: Plan) { p.restoredAfter > plan.restoredBudget }

  predicate WatermarkPressure(p: Pressure, plan: Plan) { plan.target.Some? && p.usedAfter > plan.target.value }

  predicate ShouldEvict(p: Pressure, plan: Plan) {
    StagingPressure(p, plan) || RestoredPressure(p, plan) || WatermarkPressure(p, plan) || p.usedAfter > plan.total
  }

  function ChooseVictimCategory(p: Pressure, plan: Plan, hasRestored: bool): Option<Category> {
    if StagingPressure(p, plan) then None
    else if hasRestored && (RestoredPressure(p, plan) || WatermarkPressure(p, plan) || p.usedAfter > plan.total)
    then Some(Restored)
    else None
  }

  // ------------------------------------------------------------------- traces

  /** The restored index after evicting these keys in turn. */
  ghost function Without(m: Index, trace: seq<CacheKey>): Index {
    if trace == [] then m else Without(m, trace[..|trace| - 1]) - {trace[|trace| - 1]}
  }

  lemma WithoutOne(m: Index, trace: seq<CacheKey>, k: CacheKey)
    ensures Without(m, trace + [k]) == Without(m, trace) - {k}
  {
    assert (trace + [k])[..|trace|] == trace;
  }

  ghost function PressureAfter(staging: Index, restored: Index, trace: seq<CacheKey>, incoming: nat,
                               category: Category): Pressure
  {
    PressureOf(Used(staging), Used(Without(restored, trace)), incoming, category)
  }

  /** The i-th eviction: the bounds were broken, staging was within its budget, the victim was least. */
  ghost predicate Justified(policy: Policy, staging: Index, restored: Index, trace: seq<CacheKey>, i: nat, incoming: nat,
                            category: Category, plan: Plan)
    requires i < |trace|
  {
    var before := Without(restored, trace[..i]);
    var p := PressureAfter(staging, restored, trace[..i], incoming, category);
    && ShouldEvict(p, plan) && !StagingPressure(p, plan)
    && trace[i] in before && Least(policy, before, trace[i])
  }

  ghost predicate AllJustified(policy: Policy, staging: Index, restored: Index, trace: seq<CacheKey>, incoming: nat,
                               category: Category, plan: Plan)
  {
    forall i :: 0 <= i < |trace| ==> Justified(policy, staging, restored, trace, i, incoming, category, plan)
  }

  lemma OneMoreJustified(policy: Policy, staging: Index, restored: Index, trace: seq<CacheKey>, k: CacheKey,
                         incoming: nat, category: Category, plan: Plan)
    requires AllJustified(policy, staging, restored, trace, incoming, category, plan)
    requires var p := PressureAfter(staging, restored, trace, incoming, category);
             ShouldEvict(p, plan) && !StagingPressure(p, plan)
    requires k in Without(restored, trace) && Least(policy, Without(restored, trace), k)
    ensures AllJustified(policy, staging, restored, trace + [k], incoming, category, plan)
  {
    forall i | 0 <= i < |trace + [k]|
      ensures Justified(policy, staging, restored, trace + [k], i, incoming, category, plan)
    {
      if i < |trace| {
        assert Justified(policy, staging, restored, trace, i, incoming, category, plan);
        assert (trace + [k])[..i] == trace[..i];
      } else {
        assert (trace + [k])[..i] == trace;
      }
    }
  }

  lemma {:induction false} WithoutShrinks(m: Index, trace: seq<CacheKey>, i: nat)
    requires i <= |trace|
    ensures Without(m, trace).Keys <= Without(m, trace[..i]).Keys
    ensures forall k :: k in Without(m, trace) ==> k in m && Without(m, trace)[k] == m[k]
    ensures forall j :: 0 <= j < i ==> trace[j] !in Without(m, trace)
    decreases |trace|
  {
    if trace != [] {
      var n := |trace| - 1;
      WithoutShrinks(m, trace[..n], if i <= n then i else n);
      if i <= n {
        assert trace[..n][..i] == trace[..i];
      } else {
        assert trace[..i] == trace;
      }
    } else {
      assert trace[..i] == trace;
    }
  }

  /** The evicted entries are a down-set of the order: none comes after an entry that stayed. */
  lemma EvictedIsDownSet(policy: Policy, staging: Index, restored: Index, trace: seq<CacheKey>, incoming: nat,
                         category: Category, plan: Plan, i: nat, kept: CacheKey)
    requires AllJustified(policy, staging, restored, trace, incoming, category, plan)
    requires i < |trace| && kept in Without(restored, trace)
    ensures trace[i] in restored && kept in restored && kept !in trace
    ensures LexLe(Rank(policy, trace[i], restored[trace[i]]), Rank(policy, kept, restored[kept]))
  {
    assert Justified(policy, staging, restored, trace, i, incoming, category, plan);
    WithoutShrinks(restored, trace, i);
    WithoutShrinks(restored, trace, |trace|);
    WithoutShrinks(restored, trace[..i], 0);
  }

  lemma EvictedUnderPressure(policy: Policy, staging: Index, restored: Index, trace: seq<CacheKey>, incoming: nat,
                             category: Category, plan: Plan, i: nat)
    requires AllJustified(policy, staging, restored, trace, incoming, category, plan) && i < |trace|
    ensures ShouldEvict(PressureAfter(staging, restored, trace[..i], incoming, category), plan)
  {
    assert Justified(policy, staging, restored, trace, i, incoming, category, plan);
  }

  // ------------------------------------------------- evicting the own entry

  /** What is left once every entry that comes strictly before `k` is gone. */
  ghost function FromRank(policy: Policy, m: Index, k: CacheKey): Index
    requires k in m
  {
    map j | j in m && LexLe(Rank(policy, k, m[k]), Rank(policy, j, m[j])) :: m[j]
  }

  /** No other entry ties with `k` in the order. */
  ghost predicate RankedAlone(policy: Policy, m: Index, k: CacheKey)
    requires k in m
  {
    forall j :: j in m && j != k && LexLe(Rank(policy, k, m[k]), Rank(policy, j, m[j])) ==>
      !LexLe(Rank(policy, j, m[j]), Rank(policy, k, m[k]))
  }

  lemma UsedMonotone(a: Index, b: Index)
    requires a.Keys <= b.Keys && forall k :: k in a ==> a[k] == b[k]
    ensures Used(a) <= Used(b)
  {
    SumSubmap(Sizes(a), Sizes(b));
  }

  /** Less usage never means more pressure. */
  lemma PressureMonotone(stagingUsed: nat, less: nat, more: nat, incoming: nat, category: Category, plan: Plan)
    requires less <= more && ShouldEvict(PressureOf(stagingUsed, less, incoming, category), plan)
    ensures ShouldEvict(PressureOf(stagingUsed, more, incoming, category), plan)
  {}

  /** An entry falls victim only if evicting all that come strictly before it would not have been enough. */
  lemma VictimNeeded(policy: Policy, staging: Index, restored: Index, trace: seq<CacheKey>, incoming: nat,
                     category: Category, plan: Plan, k: CacheKey)
    requires AllJustified(policy, staging, restored, trace, incoming, category, plan)
    requires k in restored && k in trace
    ensures ShouldEvict(PressureOf(Used(staging), Used(FromRank(policy, restored, k)), incoming, category), plan)
  {
    var i :| 0 <= i < |trace| && trace[i] == k;
    assert Justified(policy, staging, restored, trace, i, incoming, category, plan);
    var before := Without(restored, trace[..i]);
    WithoutShrinks(restored, trace[..i], 0);
    UsedMonotone(before, FromRank(policy, restored, k));
    PressureMonotone(Used(staging), Used(before), Used(FromRank(policy, restored, k)), incoming, category, plan);
  }

  /** If the loop made room and `k` stayed, then evicting what comes strictly before it was enough. */
  lemma SparedEnough(policy: Policy, staging: Index, restored: Index, trace: seq<CacheKey>, incoming: nat,
                     category: Category, plan: Plan, k: CacheKey)
    requires AllJustified(policy, staging, restored, trace, incoming, category, plan)
    requires !ShouldEvict(PressureAfter(staging, restored, trace, incoming, category), plan)
    requires k in restored && k !in trace && RankedAlone(policy, restored, k)
    ensures !ShouldEvict(PressureOf(Used(staging), Used(FromRank(policy, restored, k)), incoming, category), plan)
  {
    var kept, from := Without(restored, trace), FromRank(policy, restored, k);
    OthersStay(restored, trace, k);
    forall j | j in from
      ensures j in kept && kept[j] == from[j]
    {
      if j in trace {
        var i :| 0 <= i < |trace| && trace[i] == j;
        EvictedIsDownSet(policy, staging, restored, trace, incoming, category, plan, i, k);
      }
      OthersStay(restored, trace, j);
      WithoutShrinks(restored, trace, 0);
    }
    UsedMonotone(from, kept);
    if ShouldEvict(PressureOf(Used(staging), Used(from), incoming, category), plan) {
      PressureMonotone(Used(staging), Used(from), Used(kept), incoming, category, plan);
    }
  }

  lemma {:induction false} OthersStay(m: Index, trace: seq<CacheKey>, k: CacheKey)
    requires k in m && k !in trace
    ensures k in Without(m, trace)
    decreases |trace|
  {
    if trace != [] {
      OthersStay(m, trace[..|trace| - 1], k);
    }
  }

  /**
   When the loop makes room, an entry without ties is evicted iff evicting everything strictly before it
   would not have made room.
   */
  lemma VictimIff(policy: Policy, staging: Index, restored: Index, trace: seq<CacheKey>, incoming: nat,
                  category: Category, plan: Plan, k: CacheKey)
    requires AllJustified(policy, staging, restored, trace, incoming, category, plan)
    requires !ShouldEvict(PressureAfter(staging, restored, trace, incoming, category), plan)
    requires k in restored && RankedAlone(policy, restored, k)
    ensures k in trace <==>
            ShouldEvict(PressureOf(Used(staging), Used(FromRank(policy, restored, k)), incoming, category), plan)
  {
    if k in trace {
      VictimNeeded(policy, staging, restored, trace, incoming, category, plan, k);
    } else {
      SparedEnough(policy, staging, restored, trace, incoming, category, plan, k);
    }
  }

  // ---- an overwrite that evicts its own entry

  function RestoredAt(name: string, size: nat, lastAccess: int): Entry {
    Entry(0, Xattrs("b", name, None, size, 0, 0, lastAccess, 0, Restored))
  }

  const OWN: CacheKey := CacheKey("b", "own", None)
  const OTHER: CacheKey := CacheKey("b", "other", None)

  /** Two restored entries of 50 and 40 bytes; the one about to be overwritten was used less recently. */
  const HELD: Index := map[OWN := RestoredAt("own", 50, 1), OTHER := RestoredAt("other", 40, 2).(storageId := 1)]

  lemma HeldUsage()
    ensures Used(HELD) == 90 && Used(HELD - {OWN}) == 40
    ensures Used((HELD - {OWN})[OWN := RestoredAt("own", 70, 3)]) == 110
  {
    assert OWN != OTHER by {
      assert |OWN.key| != |OTHER.key|;
    }
    UsedRemove(HELD, OWN);
    UsedRemove(HELD - {OWN}, OTHER);
    assert HELD - {OWN} - {OTHER} == map[];
    assert Sizes(map[]) == map[];
    UsedInsert(HELD - {OWN}, OWN, RestoredAt("own", 70, 3));
  }

  lemma OwnIsLeast(k: CacheKey)
    requires k in HELD
    ensures Least(Lru, HELD, k) <==> k == OWN
  {
    assert OWN != OTHER by {
      assert |OWN.key| != |OTHER.key|;
    }
    LexTotal(Rank(Lru, OWN, HELD[OWN]), Rank(Lru, OWN, HELD[OWN]));
  }

  /**
   A restored budget of 100 bytes holds, and 20 more bytes are announced for an object of 50.  The loop
   evicts that very object and stops; the insertion of its 70 bytes then breaks the budget.
   */
  lemma SelfEvictionBreaksBudget(trace: seq<CacheKey>)
    requires var plan := Plan(200, 100, 100, None);
             && AllJustified(Lru, map[], HELD, trace, 20, Restored, plan)
             && !ShouldEvict(PressureAfter(map[], HELD, trace, 20, Restored), plan)
    ensures var plan := Plan(200, 100, 100, None);
            && !ShouldEvict(PressureOf(0, Used(HELD), 0, Restored), plan)
            && trace == [OWN]
            && Used(Without(HELD, trace)[OWN := RestoredAt("own", 70, 3)]) > plan.restoredBudget
  {
    var plan := Plan(200, 100, 100, None);
    HeldUsage();
    assert Sizes(map[]) == map[];
    assert Without(HELD, []) == HELD;
    assert trace != [];
    assert Justified(Lru, map[], HELD, trace, 0, 20, Restored, plan) && trace[..0] == [];
    OwnIsLeast(trace[0]);
    assert Without(HELD, [OWN]) == HELD - {OWN} by {
      WithoutOne(HELD, [], OWN);
      assert [] + [OWN] == [OWN];
    }
    if |trace| > 1 {
      assert trace[..1] == [OWN];
      assert !ShouldEvict(PressureAfter(map[], HELD, trace[..1], 20, Restored), plan);
      EvictedUnderPressure(Lru, map[], HELD, trace, 20, Restored, plan, 1);
    }
  }

  /** Such a trace exists, so the overwrite does go wrong. */
  lemma SelfEvictionHappens()
    ensures var plan := Plan(200, 100, 100, None);
            && AllJustified(Lru, map[], HELD, [OWN], 20, Restored, plan)
            && !ShouldEvict(PressureAfter(map[], HELD, [OWN], 20, Restored), plan)
  {
    var plan := Plan(200, 100, 100, None);
    HeldUsage();
    OwnIsLeast(OWN);
    assert Sizes(map[]) == map[];
    assert Without(HELD, []) == HELD;
    OneMoreJustified(Lru, map[], HELD, [], OWN, 20, Restored, plan);
    WithoutOne(HELD, [], OWN);
    assert [] + [OWN] == [OWN];
  }

  // ---------------------------------------------------------------- the cache

  ghost predicate Shrank(now: Index, was: Index) {
    forall k :: k in now ==> k in was && now[k] == was[k]
  }

  predicate Expired(e: Entry, now: int) { 0 < e.xattrs.expireAt <= now }

  ghost predicate NoneExpired(m: Index, now: int) {
    forall k :: k in m ==> !Expired(m[k], now)
  }

  predicate Deletable(e: Entry, live: set<nat>, faulty: set<nat>) { e.storageId in live && e.storageId !in faulty }

  /** The index points every key at a blob of its own. */
  ghost predicate IdsDiffer(m: Index) {
    forall j, k :: j in m && k in m && j != k ==> m[j].storageId != m[k].storageId
  }

  /** Indexed ids were handed out, and no two entries share one. */
  ghost predicate IdsOk(staging: Index, restored: Index, nextId: nat) {
    && IdsDiffer(staging) && IdsDiffer(restored)
    && (forall j, k :: j in staging && k in restored ==> staging[j].storageId != restored[k].storageId)
    && (forall j :: j in staging ==> staging[j].storageId < nextId)
    && (forall k :: k in restored ==> restored[k].storageId < nextId)
  }

  /**
   Reclaiming the keys `all`, with those in `left` still to come: every other entry stays, and an
   entry that was dealt with is gone if its blob could be deleted.
   */
  ghost predicate Reclaiming(was: Index, had: set<nat>, all: set<CacheKey>, left: set<CacheKey>, now: Index,
                             live: set<nat>, faulty: set<nat>)
  {
    && left <= all <= was.Keys && Shrank(now, was) && live <= had
    && (forall k :: k in was && k !in now ==> Deletable(was[k], had, faulty))
    && (forall k :: k in was && (k !in all || k in left) ==> k in now)
    && (forall k :: k in left && Deletable(was[k], had, faulty) ==> was[k].storageId in live)
    && (forall k :: k in all && k !in left && Deletable(was[k], had, faulty) ==> k !in now)
  }

  lemma ReclaimStep(was: Index, had: set<nat>, all: set<CacheKey>, left: set<CacheKey>, now: Index,
                    live: set<nat>, faulty: set<nat>, k: CacheKey)
    requires Reclaiming(was, had, all, left, now, live, faulty) && k in left && IdsDiffer(was)
    ensures k in now && now[k] == was[k]
    ensures Deletable(was[k], live, faulty) ==>
              Reclaiming(was, had, all, left - {k}, now - {k}, live - {was[k].storageId}, faulty)
    ensures !Deletable(was[k], live, faulty) ==> Reclaiming(was, had, all, left - {k}, now, live, faulty)
  {}

  /** What reclaiming before a put of `k` leaves: all but the expired entries whose blobs could be deleted. */
  ghost predicate ReclaimsFor(was: Index, had: set<nat>, k: CacheKey, category: Category, now: int, faulty: set<nat>,
                              reclaimed: Index)
  {
    && Shrank(reclaimed, was)
    && forall j :: j in was ==>
         (j !in reclaimed <==>
            (category == Staging || j != k) && Expired(was[j], now) && Deletable(was[j], had, faulty))
  }

  /** By how much the object stored under `k` grows. */
  function Growth(index: Index, k: CacheKey, size: nat): nat {
    SatSub(size, if k in index then index[k].xattrs.size else 0)
  }

  /** The capacity that a write observes: what the indexes use and what the backend still has, up to the maximum. */
  ghost function TotalOver(staging: Index, reclaimed: Index, available: nat, maxSize: nat): nat {
    Min(SatAdd(Used(staging) + Used(reclaimed), available), maxSize)
  }

  /** The indexes after a put that reclaimed, evicted `trace` and inserted. */
  ghost predicate Placed(staging: Index, reclaimed: Index, trace: seq<CacheKey>, k: CacheKey, entry: Entry,
                         staging': Index, restored': Index)
  {
    var kept := Without(reclaimed, trace);
    if entry.xattrs.category == Staging then staging' == staging[k := entry] && restored' == kept
    else staging' == staging && restored' == kept[k := entry]
  }

  /**
   The bounds after a put that grew by `delta`: they hold unless the put evicted the entry that it replaces,
   and then iff what is left together with the whole new object is within them.
   */
  ghost predicate BoundsAfterPut(plan: Plan, reclaimed: Index, trace: seq<CacheKey>, k: CacheKey, xattrs: Xattrs,
                                 staging': Index, restored': Index)
  {
    if xattrs.category == Staging || k !in trace then BoundsHold(plan, Used(staging'), Used(restored'))
    else BoundsHold(plan, Used(staging'), Used(restored'))
         <==> BoundsHold(plan, Used(staging'), Used(Without(reclaimed, trace)) + xattrs.size)
  }

  /** Exactly when a put evicts the entry that it replaces, in terms of the index before the eviction. */
  ghost predicate SelfEvictedIff(policy: Policy, staging: Index, reclaimed: Index, trace: seq<CacheKey>, k: CacheKey,
                                 delta: nat, plan: Plan)
  {
    k in reclaimed && RankedAlone(policy, reclaimed, k) ==>
      (k in trace <==>
         ShouldEvict(PressureOf(Used(staging), Used(FromRank(policy, reclaimed, k)), delta, Restored), plan))
  }

  lemma PlacedWithinBounds(staging: Index, reclaimed: Index, trace: seq<CacheKey>, k: CacheKey, entry: Entry,
                           delta: nat, plan: Plan, staging': Index, restored': Index)
    requires Placed(staging, reclaimed, trace, k, entry, staging', restored') && plan.total < U64_MAX
    requires !ShouldEvict(PressureAfter(staging, reclaimed, trace, delta, entry.xattrs.category), plan)
    requires var index := if entry.xattrs.category == Staging then staging else reclaimed;
             entry.xattrs.size == delta + (if k in index then index[k].xattrs.size else 0)
    ensures BoundsAfterPut(plan, reclaimed, trace, k, entry.xattrs, staging', restored')
  {
    UsedInsert(staging, k, entry);
    UsedInsert(Without(reclaimed, trace), k, entry);
    WithoutShrinks(reclaimed, trace, |trace|);
    if k in reclaimed && k !in trace {
      OthersStay(reclaimed, trace, k);
    }
  }

  /** Everything that is promised about room: justified evictions, the bounds, and when the own entry goes. */
  ghost predicate PutFits(policy: Policy, batch: nat, staging: Index, reclaimed: Index, trace: seq<CacheKey>,
                          k: CacheKey, xattrs: Xattrs, growth: nat, plan: Plan, staging': Index, restored': Index)
  {
    && |trace| <= batch
    && AllJustified(policy, staging, reclaimed, trace, growth, xattrs.category, plan)
    && (growth > 0 && plan.total < U64_MAX ==> BoundsAfterPut(plan, reclaimed, trace, k, xattrs, staging', restored'))
    && (growth > 0 && xattrs.category == Restored ==>
          SelfEvictedIff(policy, staging, reclaimed, trace, k, growth, plan))
  }

  /** Reclaiming spares the entry that is about to be replaced, so the growth is the same afterwards. */
  lemma GrowthUnaffected(was: Index, had: set<nat>, k: CacheKey, now: int, faulty: set<nat>, reclaimed: Index, size: nat)
    requires ReclaimsFor(was, had, k, Restored, now, faulty, reclaimed)
    ensures Growth(reclaimed, k, size) == Growth(was, k, size)
  {}

  lemma PlacedFits(policy: Policy, batch: nat, staging: Index, reclaimed: Index, trace: seq<CacheKey>, k: CacheKey,
                   entry: Entry, growth: nat, plan: Plan, staging': Index, restored': Index)
    requires Placed(staging, reclaimed, trace, k, entry, staging', restored') && |trace| <= batch
    requires AllJustified(policy, staging, reclaimed, trace, growth, entry.xattrs.category, plan)
    requires growth > 0 ==> !ShouldEvict(PressureAfter(staging, reclaimed, trace, growth, entry.xattrs.category), plan)
    requires growth == Growth(if entry.xattrs.category == Staging then staging else reclaimed, k, entry.xattrs.size)
    ensures PutFits(policy, batch, staging, reclaimed, trace, k, entry.xattrs, growth, plan, staging', restored')
  {
    if growth > 0 {
      if plan.total < U64_MAX {
        PlacedWithinBounds(staging, reclaimed, trace, k, entry, growth, plan, staging', restored');
      }
      if entry.xattrs.category == Restored && k in reclaimed && RankedAlone(policy, reclaimed, k) {
        VictimIff(policy, staging, reclaimed, trace, growth, Restored, plan, k);
      }
    }
  }

  class CacheService {
    const maxSize: nat
    const policy: Policy
    const batch: nat
    const watermark: nat -> Option<nat>
    const stagingCapacity: nat
    const restoredCapacity: nat
    var staging: Index
    var restored: Index
    var usedCapacity: nat
    var evictCount: nat
    var evictBytes: nat
    var live: set<nat>
    var nextId: nat

    /** The stored total is the sum of the entry sizes; ids below `nextId` were handed out, each once. */
    ghost predicate Valid()
      reads this
    {
      && batch >= 1
      && usedCapacity == Used(staging) + Used(restored)
      && (forall id :: id in live ==> id < nextId)
      && IdsOk(staging, restored, nextId)
    }

    constructor (maxSize: nat, policy: Policy, batch: nat, watermark: nat -> Option<nat>,
                 stagingCapacity: nat, restoredCapacity: nat)
      ensures Valid() && staging == map[] && restored == map[] && live == {}
    {
      this.maxSize, this.policy, this.watermark := maxSize, policy, watermark;
      this.batch := if batch == 0 then 1 else batch;
      this.stagingCapacity, this.restoredCapacity := stagingCapacity, restoredCapacity;
      staging, restored, usedCapacity := map[], map[], 0;
      evictCount, evictBytes, live, nextId := 0, 0, {}, 1;
      assert Sizes(map[]) == map[];
    }

    method RecomputeUsedCapacity()
      modifies this`usedCapacity
      ensures usedCapacity == Used(staging) + Used(restored)
    {
      var s := UsedBytes(staging);
      var r := UsedBytes(restored);
      usedCapacity := s + r;
    }

    function EffectiveTotal(available: nat): nat
      reads this
    {
      Min(SatAdd(usedCapacity, available), maxSize)
    }

    function PlanFor(total: nat): Plan
    {
      var (s, r) := Split(total, stagingCapacity, restoredCapacity);
      Plan(total, s, r, watermark(total))
    }

    /** The backend deletes a blob unless it is unreadable or the deletion fails. */
    method BackendDelete(id: nat, faulty: set<nat>) returns (ok: bool)
      modifies this`live
      ensures ok <==> id in old(live) && id !in faulty
      ensures live == if ok then old(live) - {id} else old(live)
    {
      ok := id in live && id !in faulty;
      if ok {
        live := live - {id};
      }
    }

    method MeasurePressure(incoming: nat, category: Category) returns (p: Pressure)
      requires Valid()
      ensures p == PressureOf(Used(staging), Used(restored), incoming, category)
    {
      var s := UsedBytes(staging);
      var r := UsedBytes(restored);
      p := Pressure(SatAdd(s, if category == Staging then incoming else 0),
                    SatAdd(r, if category == Restored then incoming else 0),
                    SatAdd(usedCapacity, incoming));
    }

    /** Takes the victim out of the index, then out of the backend; a failing backend puts it back. */
    method EvictOne(k: CacheKey, faulty: set<nat>) returns (ok: bool)
      requires Valid() && k in restored
      modifies this`restored, this`usedCapacity, this`evictCount, this`evictBytes, this`live
      ensures Valid()
      ensures restored == if ok then old(restored) - {k} else old(restored)
      ensures ok <==> old(restored)[k].storageId in old(live) && old(restored)[k].storageId !in faulty
      ensures live == if ok then old(live) - {old(restored)[k].storageId} else old(live)
      ensures evictCount == old(evictCount) + 1 && evictBytes == old(evictBytes) + old(restored)[k].xattrs.size
    {
      var victim := restored[k];
      restored := restored - {k};
      evictCount := evictCount + 1;
      evictBytes := evictBytes + victim.xattrs.size;
      RecomputeUsedCapacity();
      ok := BackendDelete(victim.storageId, faulty);
      if !ok {
        restored := restored[k := victim];
        assert restored == old(restored);
        RecomputeUsedCapacity();
      }
    }

    /**
     The eviction loop.  Staging never changes; at most a batch is evicted, each victim least
     in the order among what is left and only while the bounds are broken; success means that
     the bounds hold; a staging rejection evicts nothing; giving up means that the batch is
     used up or nothing is left to evict.
     */
    method EvictIfNeeded(incoming: nat, category: Category, available: nat, faulty: set<nat>)
      returns (r: EvictOutcome, ghost trace: seq<CacheKey>)
      requires Valid()
      modifies this`restored, this`usedCapacity, this`evictCount, this`evictBytes, this`live
      ensures Valid() && live <= old(live)
      ensures var plan := PlanFor(old(EffectiveTotal(available)));
              && |trace| <= batch
              && restored == Without(old(restored), trace)
              && AllJustified(policy, staging, old(restored), trace, incoming, category, plan)
              && (r == Room && incoming > 0 ==>
                    !ShouldEvict(PressureOf(Used(staging), Used(restored), incoming, category), plan))
              && (r.Rejected? ==> Truthful(r.reason, incoming, category, plan, trace))
              && (incoming == 0 || (incoming <= plan.total
                    && !ShouldEvict(old(PressureOf(Used(staging), Used(restored), incoming, category)), plan))
                  ==> r == Room && trace == [])
      ensures r == DeleteFailed ==>
                exists k :: k in restored && Least(policy, restored, k) && !Deletable(restored[k], live, faulty)
      ensures r == Rejected(StagingBudgetExceeded) ==> trace == []
      ensures r != Rejected(NoEvictionCandidate)
    {
      trace := [];
      if incoming == 0 {
        return Room, trace;
      }
      var total := EffectiveTotal(available);
      if total == 0 {
        return Rejected(ZeroCapacity), trace;
      }
      if incoming > total {
        return Rejected(IncomingLargerThanCapacity), trace;
      }
      var plan := PlanFor(total);
      ghost var initial := PressureOf(Used(staging), Used(restored), incoming, category);
      for i := 0 to batch
        invariant Valid() && live <= old(live)
        invariant i > 0 ==> ShouldEvict(initial, plan)
        invariant |trace| == i
        invariant restored == Without(old(restored), trace)
        invariant AllJustified(policy, staging, old(restored), trace, incoming, category, plan)
      {
        var p := MeasurePressure(incoming, category);
        if !ShouldEvict(p, plan) {
          return Room, trace;
        }
        var victimCategory := ChooseVictimCategory(p, plan, restored != map[]);
        if victimCategory.None? {
          StagingHolds(old(restored), trace, incoming, category, plan);
          r := RejectOrRoom(p, plan);
          return;
        }
        var victim := SelectCandidate(policy, restored);
        if victim.None? {
          assert false;
          return Rejected(NoEvictionCandidate), trace;
        }
        OneMoreJustified(policy, staging, old(restored), trace, victim.value, incoming, category, plan);
        WithoutOne(old(restored), trace, victim.value);
        var ok := EvictOne(victim.value, faulty);
        if !ok {
          return DeleteFailed, trace;
        }
        trace := trace + [victim.value];
      }
      StagingHolds(old(restored), trace, incoming, category, plan);
      var p := MeasurePressure(incoming, category);
      r := RejectOrRoom(p, plan);
    }

    /** Why a rejection happened. */
    ghost predicate Truthful(reason: RejectReason, incoming: nat, category: Category, plan: Plan, trace: seq<CacheKey>)
      reads this
    {
      var p := PressureOf(Used(staging), Used(restored), incoming, category);
      match reason
      case ZeroCapacity => plan.total == 0
      case IncomingLargerThanCapacity => incoming > plan.total
      case NoEvictionCandidate => false
      case StagingBudgetExceeded => StagingPressure(p, plan)
      case RestoredBudgetExceeded => RestoredPressure(p, plan) && (|trace| == batch || restored == map[])
      case GlobalCapacityExceeded => p.usedAfter > plan.total && (|trace| == batch || restored == map[])
      case LowWatermarkExceeded => WatermarkPressure(p, plan) && (|trace| == batch || restored == map[])
    }

    /** Evicting restored entries cannot create pressure on staging. */
    lemma StagingHolds(before: Index, trace: seq<CacheKey>, incoming: nat, category: Category, plan: Plan)
      requires AllJustified(policy, staging, before, trace, incoming, category, plan)
      ensures trace != [] ==> !StagingPressure(PressureOf(Used(staging), Used(restored), incoming, category), plan)
    {
      if trace != [] {
        assert Justified(policy, staging, before, trace, 0, incoming, category, plan);
      }
    }

    /** The last check after the loop; its final branch cannot be reached. */
    static method RejectOrRoom(p: Pressure, plan: Plan) returns (r: EvictOutcome)
      ensures r == Room <==> !ShouldEvict(p, plan)
      ensures r.Rejected? || r.Room?
      ensures r.Rejected? ==>
                match r.reason
                case StagingBudgetExceeded => StagingPressure(p, plan)
                case RestoredBudgetExceeded => RestoredPressure(p, plan) && !StagingPressure(p, plan)
                case GlobalCapacityExceeded => p.usedAfter > plan.total && !StagingPressure(p, plan)
                case LowWatermarkExceeded => WatermarkPressure(p, plan) && !StagingPressure(p, plan)
                case _ => false
    {
      if !ShouldEvict(p, plan) {
        return Room;
      }
      if p.stagingAfter > plan.stagingBudget {
        r := Rejected(StagingBudgetExceeded);
      } else if p.restoredAfter > plan.restoredBudget {
        r := Rejected(RestoredBudgetExceeded);
      } else if p.usedAfter > plan.total {
        r := Rejected(GlobalCapacityExceeded);
      } else if plan.target.Some? && p.usedAfter > plan.target.value {
        r := Rejected(LowWatermarkExceeded);
      } else {
        assert false;
        r := Room;
      }
    }

    /** Removes an entry unless its blob cannot be deleted. */
    method DeleteRestored(k: CacheKey, faulty: set<nat>) returns (removed: bool)
      requires Valid()
      modifies this`restored, this`usedCapacity, this`live
      ensures Valid() && live <= old(live)
      ensures removed <==> k in old(restored) && old(restored)[k].storageId in old(live)
                           && old(restored)[k].storageId !in faulty
      ensures restored == if removed then old(restored) - {k} else old(restored)
      ensures live == if removed then old(live) - {old(restored)[k].storageId} else old(live)
    {
      if k !in restored {
        return false;
      }
      removed := BackendDelete(restored[k].storageId, faulty);
      if removed {
        restored := restored - {k};
        RecomputeUsedCapacity();
      }
    }

    /** Drops every expired restored entry other than the one about to be overwritten, and nothing else. */
    method ReclaimExpired(skip: Option<CacheKey>, now: int, faulty: set<nat>)
      requires Valid()
      modifies this`restored, this`usedCapacity, this`live
      ensures Valid() && live <= old(live)
      ensures var was := old(restored);
              var expired := set k | k in was && skip != Some(k) && Expired(was[k], now);
              && Reclaiming(was, old(live), expired, {}, restored, live, faulty)
              && (expired == {} ==> restored == was)
    {
      ghost var was, had := restored, live;
      var expired := set k | k in restored && skip != Some(k) && Expired(restored[k], now);
      ghost var all := expired;
      while expired != {}
        invariant Valid() && live <= had
        invariant Reclaiming(was, had, all, expired, restored, live, faulty)
        decreases |expired|
      {
        var k :| k in expired;
        ReclaimStep(was, had, all, expired, restored, live, faulty, k);
        var _ := DeleteRestored(k, faulty);
        expired := expired - {k};
      }
    }

    /** The object fits as things are: nothing to reclaim, no pressure. */
    ghost predicate NothingInTheWay(k: CacheKey, xattrs: Xattrs, available: nat, availableLater: nat, now: int)
      reads this
    {
      var delta := Growth(if xattrs.category == Staging then staging else restored, k, xattrs.size);
      var total := EffectiveTotal(availableLater);
      && 0 < EffectiveTotal(available) && xattrs.size <= EffectiveTotal(available)
      && NoneExpired(restored, now)
      && (delta == 0 || (delta <= total
            && !ShouldEvict(PressureOf(Used(staging), Used(restored), delta, xattrs.category), PlanFor(total))))
    }

    /** Reclaims before a put of `k`. */
    method ReclaimFor(k: CacheKey, category: Category, now: int, faulty: set<nat>)
      requires Valid()
      modifies this`restored, this`usedCapacity, this`live
      ensures Valid() && live <= old(live)
      ensures ReclaimsFor(old(restored), old(live), k, category, now, faulty, restored)
      ensures NoneExpired(old(restored), now) ==> restored == old(restored)
    {
      ReclaimExpired(if category == Restored then Some(k) else None, now, faulty);
    }

    /** Makes room after reclaiming; the plan is that of the capacity observed then. */
    method MakeRoom(delta: nat, category: Category, available: nat, faulty: set<nat>)
      returns (refusal: Option<PutOutcome>, ghost trace: seq<CacheKey>)
      requires Valid()
      modifies this`restored, this`usedCapacity, this`evictCount, this`evictBytes, this`live
      ensures Valid() && live <= old(live) && |trace| <= batch
      ensures refusal.Some? ==> !refusal.value.Stored?
      ensures var plan := PlanFor(TotalOver(staging, old(restored), available, maxSize));
              && restored == Without(old(restored), trace)
              && AllJustified(policy, staging, old(restored), trace, delta, category, plan)
              && (refusal.None? && delta > 0 ==>
                    !ShouldEvict(PressureAfter(staging, old(restored), trace, delta, category), plan))
              && (delta == 0 || (delta <= plan.total
                    && !ShouldEvict(PressureOf(Used(staging), Used(old(restored)), delta, category), plan))
                  ==> refusal.None? && trace == [])
    {
      var outcome;
      outcome, trace := EvictIfNeeded(delta, category, available, faulty);
      match outcome
      case Room => refusal := None;
      case Rejected(reason) => refusal := Some(Refused(reason));
      case DeleteFailed => refusal := Some(BackendFailed);
    }

    /** Everything before the write: size checks, reclaiming, eviction. */
    method Admit(k: CacheKey, xattrs: Xattrs, available: nat, availableLater: nat, now: int, faulty: set<nat>)
      returns (refusal: Option<PutOutcome>, delta: nat, ghost reclaimed: Index, ghost trace: seq<CacheKey>)
      requires Valid()
      modifies this`restored, this`usedCapacity, this`evictCount, this`evictBytes, this`live
      ensures Valid() && live <= old(live)
      ensures delta == Growth(if xattrs.category == Staging then staging else old(restored), k, xattrs.size)
      ensures refusal.Some? ==> !refusal.value.Stored?
      ensures Shrank(reclaimed, old(restored)) && restored == Without(reclaimed, trace)
      ensures old(NothingInTheWay(k, xattrs, available, availableLater, now)) ==>
                refusal.None? && reclaimed == old(restored) && trace == []
      ensures refusal.None? ==>
                && ReclaimsFor(old(restored), old(live), k, xattrs.category, now, faulty, reclaimed)
                && |trace| <= batch
      ensures var plan := PlanFor(TotalOver(staging, reclaimed, availableLater, maxSize));
              refusal.None? ==>
                && AllJustified(policy, staging, reclaimed, trace, delta, xattrs.category, plan)
                && (delta > 0 ==> !ShouldEvict(PressureAfter(staging, reclaimed, trace, delta, xattrs.category), plan))
    {
      reclaimed, trace := restored, [];
      var total := EffectiveTotal(available);
      delta := Growth(if xattrs.category == Staging then staging else restored, k, xattrs.size);
      if total == 0 {
        return Some(Refused(ZeroCapacity)), delta, reclaimed, trace;
      }
      if xattrs.size > total {
        return Some(Refused(IncomingLargerThanCapacity)), delta, reclaimed, trace;
      }
      ReclaimFor(k, xattrs.category, now, faulty);
      reclaimed := restored;
      refusal, trace := MakeRoom(delta, xattrs.category, availableLater, faulty);
    }

    /**
     Stores an object.  The plan is that of the capacity observed after reclaiming.  After a put that grew the
     object all bounds of the plan hold, unless the put evicted the very entry that it replaces; then they hold
     iff what is left together with the whole new object is within them.
     */
    method PutBytes(k: CacheKey, xattrs: Xattrs, available: nat, availableLater: nat, now: int, faulty: set<nat>,
                    writes: bool)
      returns (r: PutOutcome, ghost reclaimed: Index, ghost trace: seq<CacheKey>)
      requires Valid()
      modifies this
      ensures Valid()
      ensures !r.Stored? ==> staging == old(staging) && Shrank(restored, old(restored)) && live <= old(live)
      ensures writes && old(NothingInTheWay(k, xattrs, available, availableLater, now)) ==>
                r.Stored? && reclaimed == old(restored) && trace == []
      ensures r.Stored? ==>
                && r.storageId == old(nextId) && r.storageId in live && nextId == old(nextId) + 1
                && ReclaimsFor(old(restored), old(live), k, xattrs.category, now, faulty, reclaimed)
                && Placed(old(staging), reclaimed, trace, k, Entry(r.storageId, xattrs), staging, restored)
      ensures var plan := PlanFor(TotalOver(old(staging), reclaimed, availableLater, maxSize));
              var growth := Growth(if xattrs.category == Staging then old(staging) else old(restored), k, xattrs.size);
              r.Stored? ==> PutFits(policy, batch, old(staging), reclaimed, trace, k, xattrs, growth, plan, staging, restored)
    {
      var refusal, delta;
      refusal, delta, reclaimed, trace := Admit(k, xattrs, available, availableLater, now, faulty);
      WithoutShrinks(reclaimed, trace, 0);
      if refusal.Some? {
        return refusal.value, reclaimed, trace;
      }
      if !writes {
        nextId := nextId + 1;
        return BackendFailed, reclaimed, trace;
      }
      if xattrs.category == Restored {
        GrowthUnaffected(old(restored), old(live), k, now, faulty, reclaimed, xattrs.size);
      }
      r := Stored(nextId);
      Store(k, xattrs, faulty, reclaimed, trace, delta, PlanFor(TotalOver(staging, reclaimed, availableLater, maxSize)));
    }

    /** Inserts the object and deletes the blob that it replaces. */
    method Store(k: CacheKey, xattrs: Xattrs, faulty: set<nat>, ghost reclaimed: Index, ghost trace: seq<CacheKey>,
                 ghost growth: nat, ghost plan: Plan)
      requires Valid() && restored == Without(reclaimed, trace) && |trace| <= batch
      requires AllJustified(policy, staging, reclaimed, trace, growth, xattrs.category, plan)
      requires growth > 0 ==> !ShouldEvict(PressureAfter(staging, reclaimed, trace, growth, xattrs.category), plan)
      requires growth == Growth(if xattrs.category == Staging then staging else reclaimed, k, xattrs.size)
      modifies this`staging, this`restored, this`usedCapacity, this`live, this`nextId
      ensures Valid() && nextId == old(nextId) + 1 && old(nextId) in live
      ensures Placed(old(staging), reclaimed, trace, k, Entry(old(nextId), xattrs), staging, restored)
      ensures PutFits(policy, batch, old(staging), reclaimed, trace, k, xattrs, growth, plan, staging, restored)
    {
      var previous := Insert(k, xattrs);
      PlacedFits(policy, batch, old(staging), reclaimed, trace, k, Entry(nextId - 1, xattrs), growth, plan, staging,
                 restored);
      if previous.Some? && previous.value != nextId - 1 {
        var _ := BackendDelete(previous.value, faulty);
      }
    }

    /** Writes the blob under a fresh id and points the index at it. */
    method Insert(k: CacheKey, xattrs: Xattrs) returns (previous: Option<nat>)
      requires Valid()
      modifies this`staging, this`restored, this`usedCapacity, this`live, this`nextId
      ensures Valid() && nextId == old(nextId) + 1 && live == old(live) + {old(nextId)}
      ensures xattrs.category == Staging ==>
                staging == old(staging)[k := Entry(old(nextId), xattrs)] && restored == old(restored)
      ensures xattrs.category == Restored ==>
                restored == old(restored)[k := Entry(old(nextId), xattrs)] && staging == old(staging)
      ensures var was := if xattrs.category == Staging then old(staging) else old(restored);
              previous == if k in was then Some(was[k].storageId) else None
    {
      var entry := Entry(nextId, xattrs);
      live, nextId := live + {nextId}, nextId + 1;
      if xattrs.category == Staging {
        previous := if k in staging then Some(staging[k].storageId) else None;
        staging := staging[k := entry];
      } else {
        previous := if k in restored then Some(restored[k].storageId) else None;
        restored := restored[k := entry];
      }
      RecomputeUsedCapacity();
    }
  }
}
