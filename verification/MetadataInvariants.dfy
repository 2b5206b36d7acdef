/**
 What every command keeps: map keys derived from their values, objects inside
 existing buckets with exact bucket counters, and the exact condition under
 which a version-less lookup does not depend on the hash map's iteration order.
 */
module MetadataInvariants {
  import opened Basics
  import opened MetadataTypes
  import opened MetadataSpec
  import opened MapSum

  // ------------------------------------------------------- derived map keys

  ghost predicate ObjectKeysDerived(objects: map<ObjectKey, ObjectMetadata>) {
    forall k :: k in objects ==> KeyOf(objects[k]) == k
  }

  ghost predicate BucketKeysDerived(m: map<string, BucketInfo>) { forall k :: k in m ==> m[k].name == k }
  ghost predicate BundleKeysDerived(m: map<string, ArchiveBundle>) { forall k :: k in m ==> m[k].id == k }
  ghost predicate ArchiveTaskKeysDerived(m: map<string, ArchiveTask>) { forall k :: k in m ==> m[k].id == k }
  ghost predicate RecallTaskKeysDerived(m: map<string, RecallTask>) { forall k :: k in m ==> m[k].id == k }
  ghost predicate TapeKeysDerived(m: map<string, TapeInfo>) { forall k :: k in m ==> m[k].id == k }
  ghost predicate SchedulerKeysDerived(m: map<nat, SchedulerWorker>) { forall k :: k in m ==> m[k].nodeId == k }
  ghost predicate CacheKeysDerived(m: map<nat, CacheWorker>) { forall k :: k in m ==> m[k].nodeId == k }
  ghost predicate TapeWorkerKeysDerived(m: map<nat, TapeWorker>) { forall k :: k in m ==> m[k].nodeId == k }

  /** Every map of the state is keyed by the key its values carry. */
  ghost predicate KeysDerived(s: MetadataState) {
    && ObjectKeysDerived(s.objects) && BucketKeysDerived(s.buckets) && BundleKeysDerived(s.archiveBundles)
    && ArchiveTaskKeysDerived(s.archiveTasks) && RecallTaskKeysDerived(s.recallTasks) && TapeKeysDerived(s.tapes)
    && SchedulerKeysDerived(s.schedulerWorkers) && CacheKeysDerived(s.cacheWorkers)
    && TapeWorkerKeysDerived(s.tapeWorkers)
  }

  predicate ChangesObjects(c: Command) {
    c.PutObject? || c.DeleteObject? || c.UpdateStorageClass? || c.UpdateArchiveLocation?
    || c.CompleteArchiveObject? || c.UpdateRestoreStatus?
  }

  lemma MapsKeepKeys(s: MetadataState, objects: map<ObjectKey, ObjectMetadata>, buckets: map<string, BucketInfo>,
                     bundles: map<string, ArchiveBundle>)
    requires KeysDerived(s) && ObjectKeysDerived(objects) && BucketKeysDerived(buckets) && BundleKeysDerived(bundles)
    ensures KeysDerived(s.(objects := objects))
    ensures KeysDerived(s.(buckets := buckets))
    ensures KeysDerived(s.(archiveBundles := bundles))
    ensures KeysDerived(s.(objects := objects, buckets := buckets))
    ensures KeysDerived(s.(objects := objects, archiveBundles := bundles))
  {
  }

  lemma RefreshKeepsKeys(s: MetadataState, bucket: string)
    requires KeysDerived(s)
    ensures KeysDerived(RefreshStats(s, bucket))
  {
    if bucket in s.buckets {
      MapsKeepKeys(s, s.objects, s.buckets[bucket := WithStats(s.buckets[bucket], s.objects, bucket)],
                   s.archiveBundles);
    }
  }

  lemma PutOrDeleteKeepsKeys(s: MetadataState, c: Command, now: Timestamp, order: seq<ObjectKey>)
    requires Enumerates(order, s.objects) && (c.PutObject? || c.DeleteObject?)
    requires KeysDerived(s)
    ensures Apply(s, c, now, order).Ok? ==> KeysDerived(Apply(s, c, now, order).value)
  {
    match c
    case PutObject(o) =>
      var stored := o.(createdAt := Stamped(o.createdAt, now), updatedAt := Some(now));
      var objects := s.objects[KeyOf(o) := stored];
      MapsKeepKeys(s, objects, s.buckets, s.archiveBundles);
      RefreshKeepsKeys(s.(objects := objects), o.bucket);
    case DeleteObject(b, k) =>
      var objects := s.objects - {ObjectKey(b, k, None)};
      MapsKeepKeys(s, objects, s.buckets, s.archiveBundles);
      RefreshKeepsKeys(s.(objects := objects), b);
  }

  /** Rewriting an object in place, its identity kept, and recording a bundle under its own id. */
  lemma RewriteKeepsKeys(s: MetadataState, k: ObjectKey, o: ObjectMetadata, bundle: ArchiveBundle)
    requires KeysDerived(s) && KeyOf(o) == k
    ensures KeysDerived(s.(objects := s.objects[k := o]))
    ensures KeysDerived(s.(objects := s.objects[k := o],
                           archiveBundles := s.archiveBundles[bundle.id := bundle]))
  {
    MapsKeepKeys(s, s.objects[k := o], s.buckets, s.archiveBundles[bundle.id := bundle]);
  }

  lemma RewritingCommandKeepsKeys(s: MetadataState, c: Command, now: Timestamp, order: seq<ObjectKey>)
    requires Enumerates(order, s.objects) && ChangesObjects(c) && !c.PutObject? && !c.DeleteObject?
    requires KeysDerived(s)
    ensures Apply(s, c, now, order).Ok? ==> KeysDerived(Apply(s, c, now, order).value)
  {
    var r := Apply(s, c, now, order);
    if r.Ok? {
      if c.CompleteArchiveObject? {
        var f := Find(s.objects, order, c.request.bucket, c.request.key, c.request.versionId).value;
        RewriteKeepsKeys(s, f, Archived(s.objects[f], c.request.bundle.value, c.request, now), c.request.bundle.value);
      } else {
        var f := Find(s.objects, order, c.bucket, c.key, None).value;
        var unused := ArchiveBundle("", "", [], [], 0, 0, 0, None, 0, None, None);
        RewriteKeepsKeys(s, f, r.value.objects[f], unused);
      }
    }
  }

  lemma DeregistrationKeepsKeys(s: MetadataState, c: Command)
    requires Deregisters(c) && KeysDerived(s)
    ensures KeysDerived(ApplyDeregistration(s, c).value)
  {
    var t := ApplyDeregistration(s, c).value;
    assert SchedulerKeysDerived(t.schedulerWorkers);
    assert CacheKeysDerived(t.cacheWorkers);
    assert TapeWorkerKeysDerived(t.tapeWorkers);
  }

  lemma RegistrationKeepsKeys(s: MetadataState, c: Command, now: Timestamp)
    requires Registers(c)
    requires KeysDerived(s)
    ensures KeysDerived(ApplyRegistration(s, c, now).value)
  {
    var t := ApplyRegistration(s, c, now).value;
    assert TapeKeysDerived(t.tapes);
    assert SchedulerKeysDerived(t.schedulerWorkers);
    assert CacheKeysDerived(t.cacheWorkers);
    assert TapeWorkerKeysDerived(t.tapeWorkers);
  }

  lemma WorkerMapsKeepKeys(s: MetadataState, sw: map<nat, SchedulerWorker>, cw: map<nat, CacheWorker>,
                           tw: map<nat, TapeWorker>)
    requires KeysDerived(s) && SchedulerKeysDerived(sw) && CacheKeysDerived(cw) && TapeWorkerKeysDerived(tw)
    ensures KeysDerived(s.(schedulerWorkers := sw))
    ensures KeysDerived(s.(cacheWorkers := cw))
    ensures KeysDerived(s.(tapeWorkers := tw))
  {
  }

  lemma WorkerStatusKeepsKeys(s: MetadataState, workerType: int, id: nat, status: int)
    requires KeysDerived(s)
    ensures var r := ApplyWorkerStatus(s, workerType, id, status); r.Ok? ==> KeysDerived(r.value)
  {
    var sw, cw, tw := s.schedulerWorkers, s.cacheWorkers, s.tapeWorkers;
    if workerType == WORKER_SCHEDULER && id in sw {
      WorkerMapsKeepKeys(s, sw[id := sw[id].(status := status)], cw, tw);
    } else if workerType == WORKER_CACHE && id in cw {
      WorkerMapsKeepKeys(s, sw, cw[id := cw[id].(status := status)], tw);
    } else if workerType == WORKER_TAPE && id in tw {
      WorkerMapsKeepKeys(s, sw, cw, tw[id := tw[id].(status := status)]);
    }
  }

  lemma HeartbeatKeepsKeys(s: MetadataState, workerType: int, id: nat, p: HeartbeatPayload, now: Timestamp)
    requires KeysDerived(s)
    ensures var r := ApplyHeartbeat(s, workerType, id, p, now); r.Ok? ==> KeysDerived(r.value)
  {
    var sw, cw, tw := s.schedulerWorkers, s.cacheWorkers, s.tapeWorkers;
    if workerType == WORKER_SCHEDULER && id in sw {
      WorkerMapsKeepKeys(s, sw[id := BeatScheduler(sw[id], p, now)], cw, tw);
    } else if workerType == WORKER_CACHE && id in cw {
      WorkerMapsKeepKeys(s, sw, cw[id := BeatCache(cw[id], p, now)], tw);
    } else if workerType == WORKER_TAPE && id in tw {
      WorkerMapsKeepKeys(s, sw, cw, tw[id := BeatTape(tw[id], p, now)]);
    }
  }

  lemma ClusterCommandKeepsKeys(s: MetadataState, c: Command, now: Timestamp)
    requires ChangesCluster(c)
    requires KeysDerived(s)
    ensures ApplyCluster(s, c, now).Ok? ==> KeysDerived(ApplyCluster(s, c, now).value)
  {
    if Deregisters(c) {
      DeregistrationKeepsKeys(s, c);
    } else if c.UpdateWorkerStatus? {
      WorkerStatusKeepsKeys(s, c.workerType, c.nodeId, c.status);
    } else if c.Heartbeat? {
      HeartbeatKeepsKeys(s, c.workerType, c.nodeId, c.payload, now);
    } else {
      RegistrationKeepsKeys(s, c, now);
    }
  }

  lemma TaskMapsKeepKeys(s: MetadataState, a: map<string, ArchiveTask>, r: map<string, RecallTask>)
    requires KeysDerived(s) && ArchiveTaskKeysDerived(a) && RecallTaskKeysDerived(r)
    ensures KeysDerived(s.(archiveTasks := a))
    ensures KeysDerived(s.(recallTasks := r))
  {
  }

  lemma TaskCommandKeepsKeys(s: MetadataState, c: Command, now: Timestamp, order: seq<ObjectKey>)
    requires Enumerates(order, s.objects)
    requires c.PutArchiveTask? || c.UpdateArchiveTask? || c.PutRecallTask? || c.UpdateRecallTask?
    requires KeysDerived(s)
    ensures Apply(s, c, now, order).Ok? ==> KeysDerived(Apply(s, c, now, order).value)
  {
    match c
    case PutArchiveTask(t) =>
      TaskMapsKeepKeys(s, s.archiveTasks[t.id := t.(createdAt := Stamped(t.createdAt, now))], s.recallTasks);
    case UpdateArchiveTask(t) => TaskMapsKeepKeys(s, s.archiveTasks[t.id := t], s.recallTasks);
    case PutRecallTask(t) =>
      TaskMapsKeepKeys(s, s.archiveTasks, s.recallTasks[t.id := t.(createdAt := Stamped(t.createdAt, now))]);
    case UpdateRecallTask(t) => TaskMapsKeepKeys(s, s.archiveTasks, s.recallTasks[t.id := t]);
  }

  lemma RecordCommandKeepsKeys(s: MetadataState, c: Command, now: Timestamp, order: seq<ObjectKey>)
    requires Enumerates(order, s.objects)
    requires c.CreateBucket? || c.DeleteBucket? || c.PutArchiveBundle? || c.UpdateArchiveBundleStatus?
    requires KeysDerived(s)
    ensures Apply(s, c, now, order).Ok? ==> KeysDerived(Apply(s, c, now, order).value)
  {
    var r := Apply(s, c, now, order);
    if r.Ok? {
      MapsKeepKeys(s, s.objects, r.value.buckets, r.value.archiveBundles);
    }
  }

  lemma CommandKeepsKeys(s: MetadataState, c: Command, now: Timestamp, order: seq<ObjectKey>)
    requires Enumerates(order, s.objects)
    requires KeysDerived(s)
    ensures Apply(s, c, now, order).Ok? ==> KeysDerived(Apply(s, c, now, order).value)
  {
    if ChangesObjects(c) {
      ObjectCommandKeepsKeys(s, c, now, order);
    } else if ChangesCluster(c) {
      ApplyClusterKeepsKeys(s, c, now, order);
    } else if c.CreateBucket? || c.DeleteBucket? || c.PutArchiveBundle? || c.UpdateArchiveBundleStatus? {
      RecordCommandKeepsKeys(s, c, now, order);
    } else {
      TaskCommandKeepsKeys(s, c, now, order);
    }
  }

  lemma ApplyClusterKeepsKeys(s: MetadataState, c: Command, now: Timestamp, order: seq<ObjectKey>)
    requires Enumerates(order, s.objects)
    requires KeysDerived(s) && ChangesCluster(c)
    ensures Apply(s, c, now, order).Ok? ==> KeysDerived(Apply(s, c, now, order).value)
  {
    ClusterCommandKeepsKeys(s, c, now);
    assert Apply(s, c, now, order) == ApplyCluster(s, c, now);
  }

  lemma ObjectCommandKeepsKeys(s: MetadataState, c: Command, now: Timestamp, order: seq<ObjectKey>)
    requires Enumerates(order, s.objects)
    requires KeysDerived(s) && ChangesObjects(c)
    ensures Apply(s, c, now, order).Ok? ==> KeysDerived(Apply(s, c, now, order).value)
  {
    if c.PutObject? || c.DeleteObject? {
      PutOrDeleteKeepsKeys(s, c, now, order);
    } else {
      RewritingCommandKeepsKeys(s, c, now, order);
    }
  }

  /** Every state that any run of commands reaches from the empty store has derived keys. */
  lemma {:induction false} RunKeepsKeys(s: MetadataState, run: seq<Call>)
    requires ValidRun(s, run)
    requires KeysDerived(s)
    ensures KeysDerived(AfterAll(s, run))
    decreases |run|
  {
    if run != [] {
      CommandKeepsKeys(s, run[0].command, run[0].now, run[0].order);
      RunKeepsKeys(After(s, run[0]), run[1..]);
    }
  }

  // ------------------------------------------------------ bucket statistics

  ghost predicate BucketStatsExact(info: BucketInfo, objects: map<ObjectKey, ObjectMetadata>, bucket: string) {
    && info.objectCount == Wrap64(|BucketSizes(objects, bucket)|)
    && info.totalSize == Wrap64(Sum(BucketSizes(objects, bucket)))
  }

  ghost predicate StatsMatch(objects: map<ObjectKey, ObjectMetadata>, buckets: map<string, BucketInfo>) {
    && (forall k :: k in objects ==> objects[k].bucket in buckets)
    && (forall b :: b in buckets ==> BucketStatsExact(buckets[b], objects, b))
  }

  ghost predicate StatsExact(s: MetadataState) {
    StatsMatch(s.objects, s.buckets)
  }

  predicate CreatesWithZeroCounters(c: Command) {
    c.CreateBucket? ==> c.bucketInfo.objectCount == 0 && c.bucketInfo.totalSize == 0
  }

  /** The objects of `bucket` have the same sizes in both maps. */
  ghost predicate SameIn(a: map<ObjectKey, ObjectMetadata>, b: map<ObjectKey, ObjectMetadata>, bucket: string) {
    && (forall k :: k in a && a[k].bucket == bucket ==> k in b && b[k].bucket == bucket && b[k].size == a[k].size)
    && (forall k :: k in b && b[k].bucket == bucket ==> k in a && a[k].bucket == bucket)
  }

  lemma SameStats(a: map<ObjectKey, ObjectMetadata>, b: map<ObjectKey, ObjectMetadata>, bucket: string, info: BucketInfo)
    requires SameIn(a, b, bucket)
    requires BucketStatsExact(info, a, bucket)
    ensures BucketStatsExact(info, b, bucket)
  {
    assert BucketSizes(a, bucket) == BucketSizes(b, bucket);
  }

  lemma TouchSameIn(objects: map<ObjectKey, ObjectMetadata>, k: ObjectKey, o: ObjectMetadata, bucket: string)
    requires k in objects && o.bucket == objects[k].bucket && o.size == objects[k].size
    ensures SameIn(objects, objects[k := o], bucket)
  {
  }

  lemma PutSameIn(objects: map<ObjectKey, ObjectMetadata>, o: ObjectMetadata, bucket: string)
    requires ObjectKeysDerived(objects) && bucket != o.bucket
    ensures SameIn(objects, objects[KeyOf(o) := o], bucket)
  {
    assert KeyOf(o) in objects ==> objects[KeyOf(o)].bucket == o.bucket;
  }

  lemma TouchKeepsStats(objects: map<ObjectKey, ObjectMetadata>, buckets: map<string, BucketInfo>,
                        k: ObjectKey, o: ObjectMetadata)
    requires StatsMatch(objects, buckets) && k in objects
    requires o.bucket == objects[k].bucket && o.size == objects[k].size
    ensures StatsMatch(objects[k := o], buckets)
  {
    var touched := objects[k := o];
    forall b | b in buckets ensures BucketStatsExact(buckets[b], touched, b) {
      TouchSameIn(objects, k, o, b);
      SameStats(objects, touched, b, buckets[b]);
    }
  }

  /** After the objects of one bucket changed, refreshing that bucket restores all statistics. */
  lemma RefreshRestoresStats(objects: map<ObjectKey, ObjectMetadata>, changed: map<ObjectKey, ObjectMetadata>,
                             buckets: map<string, BucketInfo>, bucket: string)
    requires StatsMatch(objects, buckets) && bucket in buckets
    requires forall k :: k in changed ==> changed[k].bucket in buckets
    requires forall b :: b in buckets && b != bucket ==> SameIn(objects, changed, b)
    ensures StatsMatch(changed, buckets[bucket := WithStats(buckets[bucket], changed, bucket)])
  {
    var refreshed := buckets[bucket := WithStats(buckets[bucket], changed, bucket)];
    forall b | b in refreshed ensures BucketStatsExact(refreshed[b], changed, b) {
      if b != bucket {
        SameStats(objects, changed, b, buckets[b]);
      }
    }
  }

  lemma PutKeepsStats(objects: map<ObjectKey, ObjectMetadata>, buckets: map<string, BucketInfo>, o: ObjectMetadata)
    requires StatsMatch(objects, buckets) && ObjectKeysDerived(objects) && o.bucket in buckets
    ensures var changed := objects[KeyOf(o) := o];
            StatsMatch(changed, buckets[o.bucket := WithStats(buckets[o.bucket], changed, o.bucket)])
  {
    var changed := objects[KeyOf(o) := o];
    forall b | b in buckets && b != o.bucket ensures SameIn(objects, changed, b) {
      PutSameIn(objects, o, b);
    }
    RefreshRestoresStats(objects, changed, buckets, o.bucket);
  }

  lemma DeleteKeepsStats(objects: map<ObjectKey, ObjectMetadata>, buckets: map<string, BucketInfo>,
                         k: ObjectKey, left: map<ObjectKey, ObjectMetadata>)
    requires StatsMatch(objects, buckets) && ObjectKeysDerived(objects) && k in objects && left == objects - {k}
    ensures k.bucket in buckets
    ensures StatsMatch(left, buckets[k.bucket := WithStats(buckets[k.bucket], left, k.bucket)])
  {
    assert KeyOf(objects[k]) == k;
    forall b | b in buckets && b != k.bucket ensures SameIn(objects, left, b) {
      DeleteSameIn(objects, k, left, b);
    }
    RefreshRestoresStats(objects, left, buckets, k.bucket);
  }

  lemma DeleteSameIn(objects: map<ObjectKey, ObjectMetadata>, k: ObjectKey, left: map<ObjectKey, ObjectMetadata>,
                     b: string)
    requires k in objects && objects[k].bucket != b && left == objects - {k}
    ensures SameIn(objects, left, b)
  {}

  lemma CreateKeepsStats(objects: map<ObjectKey, ObjectMetadata>, buckets: map<string, BucketInfo>, info: BucketInfo)
    requires StatsMatch(objects, buckets) && info.name !in buckets
    requires info.objectCount == 0 && info.totalSize == 0
    ensures StatsMatch(objects, buckets[info.name := info])
  {
    assert BucketSizes(objects, info.name) == map[];
    assert BucketStatsExact(info, objects, info.name);
  }

  lemma DropKeepsStats(objects: map<ObjectKey, ObjectMetadata>, buckets: map<string, BucketInfo>,
                       left: map<string, BucketInfo>, name: string)
    requires StatsMatch(objects, buckets) && left == buckets - {name}
    requires forall k :: k in objects ==> objects[k].bucket != name
    ensures StatsMatch(objects, left)
  {
    forall b | b in left ensures BucketStatsExact(left[b], objects, b) {
      assert left[b] == buckets[b];
    }
  }

  lemma PutOrDeleteKeepsStats(s: MetadataState, c: Command, now: Timestamp, order: seq<ObjectKey>)
    requires Enumerates(order, s.objects) && (c.PutObject? || c.DeleteObject?)
    requires StatsExact(s) && ObjectKeysDerived(s.objects)
    ensures Apply(s, c, now, order).Ok? ==> StatsExact(Apply(s, c, now, order).value)
  {
    if Apply(s, c, now, order).Ok? {
      match c
      case PutObject(o) =>
        PutKeepsStats(s.objects, s.buckets, o.(createdAt := Stamped(o.createdAt, now), updatedAt := Some(now)));
      case DeleteObject(b, k) =>
        var gone := ObjectKey(b, k, None);
        DeleteKeepsStats(s.objects, s.buckets, gone, s.objects - {gone});
    }
  }

  lemma RewritingCommandKeepsStats(s: MetadataState, c: Command, now: Timestamp, order: seq<ObjectKey>)
    requires Enumerates(order, s.objects) && ChangesObjects(c) && !c.PutObject? && !c.DeleteObject?
    requires StatsExact(s)
    ensures Apply(s, c, now, order).Ok? ==> StatsExact(Apply(s, c, now, order).value)
  {
    var r := Apply(s, c, now, order);
    if r.Ok? {
      var f := if c.CompleteArchiveObject?
               then Find(s.objects, order, c.request.bucket, c.request.key, c.request.versionId).value
               else Find(s.objects, order, c.bucket, c.key, None).value;
      TouchKeepsStats(s.objects, s.buckets, f, r.value.objects[f]);
    }
  }

  lemma BucketCommandKeepsStats(s: MetadataState, c: Command, now: Timestamp, order: seq<ObjectKey>)
    requires Enumerates(order, s.objects) && (c.CreateBucket? || c.DeleteBucket?)
    requires StatsExact(s) && CreatesWithZeroCounters(c)
    ensures Apply(s, c, now, order).Ok? ==> StatsExact(Apply(s, c, now, order).value)
  {
    var r := Apply(s, c, now, order);
    if r.Ok? {
      match c
      case CreateBucket(b) => CreateKeepsStats(s.objects, s.buckets, b.(createdAt := Stamped(b.createdAt, now)));
      case DeleteBucket(name) => DropKeepsStats(s.objects, s.buckets, r.value.buckets, name);
    }
  }

  lemma OtherCommandsKeepObjects(s: MetadataState, c: Command, now: Timestamp, order: seq<ObjectKey>)
    requires Enumerates(order, s.objects)
    requires !ChangesObjects(c) && !c.CreateBucket? && !c.DeleteBucket?
    ensures var r := Apply(s, c, now, order);
            r.Ok? ==> r.value.objects == s.objects && r.value.buckets == s.buckets
  {
  }

  lemma CommandKeepsStats(s: MetadataState, c: Command, now: Timestamp, order: seq<ObjectKey>)
    requires Enumerates(order, s.objects)
    requires StatsExact(s) && ObjectKeysDerived(s.objects) && CreatesWithZeroCounters(c)
    ensures Apply(s, c, now, order).Ok? ==> StatsExact(Apply(s, c, now, order).value)
  {
    if c.PutObject? || c.DeleteObject? {
      PutOrDeleteKeepsStats(s, c, now, order);
    } else if ChangesObjects(c) {
      RewritingCommandKeepsStats(s, c, now, order);
    } else if c.CreateBucket? || c.DeleteBucket? {
      BucketCommandKeepsStats(s, c, now, order);
    } else {
      OtherCommandsKeepObjects(s, c, now, order);
    }
  }

  /**
   In every state reachable by commands whose CreateBucket carries zero counters,
   each object lies in an existing bucket and each bucket's counters are the count
   and the byte sum of its objects.
   */
  lemma {:induction false} RunKeepsStats(s: MetadataState, run: seq<Call>)
    requires ValidRun(s, run)
    requires KeysDerived(s) && StatsExact(s)
    requires forall i :: 0 <= i < |run| ==> CreatesWithZeroCounters(run[i].command)
    ensures StatsExact(AfterAll(s, run))
    decreases |run|
  {
    if run != [] {
      var call := run[0];
      CommandKeepsKeys(s, call.command, call.now, call.order);
      CommandKeepsStats(s, call.command, call.now, call.order);
      RunKeepsStats(After(s, call), run[1..]);
    }
  }

  // ------------------------------------------- lookups and iteration order

  ghost predicate IsLatest(objects: map<ObjectKey, ObjectMetadata>, bucket: string, key: string, k: ObjectKey) {
    && k in objects && Matches(k, bucket, key)
    && forall j :: j in objects && Matches(j, bucket, key) ==> LooksAtLeastAsNew(objects, k, j)
  }

  /** No two versions of the object share the greatest timestamp. */
  ghost predicate UniqueLatest(objects: map<ObjectKey, ObjectMetadata>, bucket: string, key: string) {
    forall j, k :: IsLatest(objects, bucket, key, j) && IsLatest(objects, bucket, key, k) ==> j == k
  }

  ghost predicate LookupIgnoresOrder(objects: map<ObjectKey, ObjectMetadata>, bucket: string, key: string) {
    forall o1, o2 :: Enumerates(o1, objects) && Enumerates(o2, objects) ==>
                       Latest(objects, o1, bucket, key) == Latest(objects, o2, bucket, key)
  }

  lemma {:induction false} LatestIsNewest(objects: map<ObjectKey, ObjectMetadata>, order: seq<ObjectKey>,
                                          bucket: string, key: string)
    requires forall k :: k in order ==> k in objects
    ensures var l := Latest(objects, order, bucket, key);
            match l
            case None => forall k :: k in order ==> !Matches(k, bucket, key)
            case Some(b) => Matches(b, bucket, key)
                            && forall k :: k in order && Matches(k, bucket, key) ==> LooksAtLeastAsNew(objects, b, k)
  {
    if order != [] {
      var init := order[..|order| - 1];
      assert forall k :: k in order ==> k in init || k == order[|order| - 1];
      LatestIsNewest(objects, init, bucket, key);
    }
  }

  /** The version-less lookup finds a most recently updated version exactly when one exists. */
  lemma FindReturnsLatest(objects: map<ObjectKey, ObjectMetadata>, order: seq<ObjectKey>, bucket: string, key: string)
    requires Enumerates(order, objects)
    ensures var r := Find(objects, order, bucket, key, None);
            if r.Some? then IsLatest(objects, bucket, key, r.value)
            else forall k :: k in objects ==> !Matches(k, bucket, key)
  {
    LatestIsNewest(objects, order, bucket, key);
  }

  lemma TieShowsOrder(objects: map<ObjectKey, ObjectMetadata>, bucket: string, key: string, j: ObjectKey, k: ObjectKey)
    requires IsLatest(objects, bucket, key, j) && IsLatest(objects, bucket, key, k) && j != k
    ensures !LookupIgnoresOrder(objects, bucket, key)
  {
    var o1 := EndingWith(objects, bucket, key, j);
    var o2 := EndingWith(objects, bucket, key, k);
    assert Latest(objects, o1, bucket, key) != Latest(objects, o2, bucket, key);
  }

  /** The lookup is independent of the iteration order iff the latest version is unique. */
  lemma OrderIndependence(objects: map<ObjectKey, ObjectMetadata>, bucket: string, key: string)
    ensures LookupIgnoresOrder(objects, bucket, key) <==> UniqueLatest(objects, bucket, key)
  {
    if UniqueLatest(objects, bucket, key) {
      forall o1, o2 | Enumerates(o1, objects) && Enumerates(o2, objects)
        ensures Latest(objects, o1, bucket, key) == Latest(objects, o2, bucket, key)
      {
        FindReturnsLatest(objects, o1, bucket, key);
        FindReturnsLatest(objects, o2, bucket, key);
      }
    } else {
      var j, k :| IsLatest(objects, bucket, key, j) && IsLatest(objects, bucket, key, k) && j != k;
      TieShowsOrder(objects, bucket, key, j, k);
    }
  }

  /** Some order visits a latest version last, and then selects it. */
  lemma EndingWith(objects: map<ObjectKey, ObjectMetadata>, bucket: string, key: string, k: ObjectKey)
    returns (order: seq<ObjectKey>)
    requires IsLatest(objects, bucket, key, k)
    ensures Enumerates(order, objects) && Latest(objects, order, bucket, key) == Some(k)
  {
    var init := Listed(objects.Keys - {k});
    order := init + [k];
    assert order[..|order| - 1] == init;
    LatestIsNewest(objects, init, bucket, key);
  }

  /** When the command's lookup has a unique latest version, the whole transition ignores the order. */
  lemma ApplyIgnoresOrder(s: MetadataState, c: Command, now: Timestamp, o1: seq<ObjectKey>, o2: seq<ObjectKey>)
    requires Enumerates(o1, s.objects) && Enumerates(o2, s.objects)
    requires LookupTargetUnique(s, c)
    ensures Apply(s, c, now, o1) == Apply(s, c, now, o2)
  {
    match c {
      case UpdateStorageClass(b, k, _) => OrderIndependence(s.objects, b, k);
      case UpdateArchiveLocation(b, k, _, _, _, _) => OrderIndependence(s.objects, b, k);
      case UpdateRestoreStatus(b, k, _, _) => OrderIndependence(s.objects, b, k);
      case CompleteArchiveObject(r) => OrderIndependence(s.objects, r.bucket, r.key);
      case _ =>
    }
  }

  /** The version-less lookup that `c` makes, if any, has at most one latest version. */
  ghost predicate LookupTargetUnique(s: MetadataState, c: Command) {
    match c
    case UpdateStorageClass(b, k, _) => UniqueLatest(s.objects, b, k)
    case UpdateArchiveLocation(b, k, _, _, _, _) => UniqueLatest(s.objects, b, k)
    case UpdateRestoreStatus(b, k, _, _) => UniqueLatest(s.objects, b, k)
    case CompleteArchiveObject(r) => r.versionId.Some? || UniqueLatest(s.objects, r.bucket, r.key)
    case _ => true
  }
}
