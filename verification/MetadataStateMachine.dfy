/**
 The in-place state machine: nine maps updated statement by statement.  Each method is proved to perform exactly the transition
 of `MetadataSpec.Apply`, and to leave every map alone when it reports an error,
 also where a map was already written before the last check.
 */
module MetadataMachine {
  import opened Basics
  import opened MetadataTypes
  import opened MetadataSpec
  import opened MapSum

  ghost function SeqSum(s: seq<nat>): nat {
    if s == [] then 0 else SeqSum(s[..|s| - 1]) + s[|s| - 1]
  }

  /** The sizes of one bucket's objects, in whatever order the hash map yields them. */
  method SizesInBucket(objects: map<ObjectKey, ObjectMetadata>, bucketName: string) returns (sizes: seq<nat>)
    ensures |sizes| == |BucketSizes(objects, bucketName)|
    ensures SeqSum(sizes) == Sum(BucketSizes(objects, bucketName))
  {
    sizes := [];
    var rest := objects.Keys;
    ghost var seen: map<ObjectKey, nat> := map[];
    while rest != {}
      invariant rest <= objects.Keys
      invariant SeenSoFar(seen, objects, bucketName, rest)
      invariant |sizes| == |seen| && SeqSum(sizes) == Sum(seen)
      decreases rest
    {
      var k :| k in rest;
      if objects[k].bucket == bucketName {
        var size := objects[k].size;
        SumInsert(seen, k, size);
        assert (sizes + [size])[..|sizes|] == sizes;
        sizes, seen := sizes + [size], seen[k := size];
      }
      rest := rest - {k};
    }
    assert seen == BucketSizes(objects, bucketName);
  }

  /** The two u64 counters of one bucket, wrapping as a release build does. */
  method BucketTotals(objects: map<ObjectKey, ObjectMetadata>, bucketName: string)
    returns (objectCount: nat, totalSize: nat)
    ensures objectCount == Wrap64(|BucketSizes(objects, bucketName)|)
    ensures totalSize == Wrap64(Sum(BucketSizes(objects, bucketName)))
  {
    var sizes := SizesInBucket(objects, bucketName);
    objectCount, totalSize := 0, 0;
    for i := 0 to |sizes|
      invariant objectCount == Wrap64(i)
      invariant totalSize == Wrap64(SeqSum(sizes[..i]))
    {
      assert sizes[..i + 1][..i] == sizes[..i];
      WrapAdd(i, 1);
      WrapAdd(SeqSum(sizes[..i]), sizes[i]);
      objectCount := Wrap64(objectCount + 1);
      totalSize := Wrap64(totalSize + sizes[i]);
    }
    assert sizes[..|sizes|] == sizes;
  }

  /** `seen` holds the sizes of the bucket's objects outside `rest`. */
  ghost predicate SeenSoFar(seen: map<ObjectKey, nat>, objects: map<ObjectKey, ObjectMetadata>,
                          bucketName: string, rest: set<ObjectKey>)
  {
    && (forall k :: k in seen <==> k in objects && k !in rest && objects[k].bucket == bucketName)
    && (forall k :: k in seen ==> seen[k] == objects[k].size)
  }

  class MetadataStateMachine {
    var objects: map<ObjectKey, ObjectMetadata>
    var buckets: map<string, BucketInfo>
    var archiveBundles: map<string, ArchiveBundle>
    var archiveTasks: map<string, ArchiveTask>
    var recallTasks: map<string, RecallTask>
    var tapes: map<string, TapeInfo>
    var schedulerWorkers: map<nat, SchedulerWorker>
    var cacheWorkers: map<nat, CacheWorker>
    var tapeWorkers: map<nat, TapeWorker>

    ghost function State(): MetadataState
      reads this
    {
      MetadataState(objects, buckets, archiveBundles, archiveTasks, recallTasks, tapes,
                    schedulerWorkers, cacheWorkers, tapeWorkers)
    }

    /** The new state and the returned status are those of `result`; an error changes nothing. */
    twostate predicate Performs(result: Result<MetadataState>, status: Status)
      reads this
    {
      match result
      case Ok(next) => status == Done && State() == next
      case Err(code) => status == Failed(code) && State() == old(State())
    }

    constructor (initial: MetadataState)
      ensures State() == initial
    {
      objects, buckets, archiveBundles := initial.objects, initial.buckets, initial.archiveBundles;
      archiveTasks, recallTasks, tapes := initial.archiveTasks, initial.recallTasks, initial.tapes;
      schedulerWorkers, cacheWorkers, tapeWorkers :=
        initial.schedulerWorkers, initial.cacheWorkers, initial.tapeWorkers;
    }

    method RefreshBucketStats(bucketName: string)
      modifies this`buckets
      ensures State() == RefreshStats(old(State()), bucketName)
    {
      if bucketName in buckets {
        var objectCount, totalSize := BucketTotals(objects, bucketName);
        buckets := buckets[bucketName := buckets[bucketName].(objectCount := objectCount, totalSize := totalSize)];
      }
    }

    /** The read lookup: the last maximum along the iteration, or the named version. */
    method FindObject(bucket: string, key: string, versionId: Option<string>, order: seq<ObjectKey>)
      returns (r: Result<ObjectMetadata>)
      requires Enumerates(order, objects)
      ensures var k := Find(objects, order, bucket, key, versionId);
              r == if k.Some? then Ok(objects[k.value]) else Err(NotFound)
    {
      if versionId.Some? {
        var k := ObjectKey(bucket, key, versionId);
        if k in objects { return Ok(objects[k]); } else { return Err(NotFound); }
      }
      var best: Option<(ObjectKey, ObjectMetadata)> := None;
      for i := 0 to |order|
        invariant best == var l := Latest(objects, order[..i], bucket, key);
                          if l.Some? then Some((l.value, objects[l.value])) else None
      {
        assert order[..i + 1][..i] == order[..i];
        var candidate := order[i];
        if Matches(candidate, bucket, key) {
          var found := objects[candidate];
          if best.None? || NoLater(SortKey(best.value.1.updatedAt), SortKey(found.updatedAt)) {
            best := Some((candidate, found));
          }
        }
      }
      assert order[..|order|] == order;
      r := if best.Some? then Ok(best.value.1) else Err(NotFound);
    }

    /** The mutable lookup: selects a key among the map's keys, then indexes the map with it. */
    method FindObjectMut(bucket: string, key: string, versionId: Option<string>, order: seq<ObjectKey>)
      returns (r: Result<ObjectKey>)
      requires Enumerates(order, objects)
      ensures var k := Find(objects, order, bucket, key, versionId);
              r == if k.Some? then Ok(k.value) else Err(NotFound)
    {
      if versionId.Some? {
        var k := ObjectKey(bucket, key, versionId);
        if k in objects { return Ok(k); } else { return Err(NotFound); }
      }
      var selected: Option<ObjectKey> := None;
      for i := 0 to |order|
        invariant selected == Latest(objects, order[..i], bucket, key)
      {
        assert order[..i + 1][..i] == order[..i];
        var right := order[i];
        if Matches(right, bucket, key) {
          if selected.None? {
            selected := Some(right);
          } else {
            var left := selected.value;
            var leftTs := if left in objects then SortKey(objects[left].updatedAt) else (0, 0);
            var rightTs := if right in objects then SortKey(objects[right].updatedAt) else (0, 0);
            if NoLater(leftTs, rightTs) { selected := Some(right); }
          }
        }
      }
      assert order[..|order|] == order;
      if selected.None? || selected.value !in objects { return Err(NotFound); }
      r := Ok(selected.value);
    }

    method ValidateArchivePreconditions(o: ObjectMetadata, r: CompleteArchiveRequest) returns (status: Status)
      ensures status == if ArchivePreconditionsHold(o, r) then Done else Failed(FailedPrecondition)
    {
      if o.versionId != r.versionId { return Failed(FailedPrecondition); }
      if r.expectedSize.None? || o.size != r.expectedSize.value { return Failed(FailedPrecondition); }
      if r.expectedChecksum.None? || o.checksum != r.expectedChecksum.value { return Failed(FailedPrecondition); }
      if r.expectedStorageClass.None? || o.storageClass != r.expectedStorageClass.value {
        return Failed(FailedPrecondition);
      }
      if r.expectedUpdatedAt.None? || o.updatedAt != r.expectedUpdatedAt { return Failed(FailedPrecondition); }
      return Done;
    }

    /**
     The archive commit.  The bundle is recorded before the second lookup, whose
     failure would leave the bundle behind: both lookups choose the same object,
     so that failure cannot happen.
     */
    method CompleteArchive(r: CompleteArchiveRequest, now: Timestamp, order: seq<ObjectKey>) returns (status: Status)
      requires Enumerates(order, objects)
      modifies this
      ensures Performs(ApplyComplete(old(State()), r, now, order), status)
    {
      if r.bundle.None? { return Failed(InvalidArgument); }
      var bundle := r.bundle.value;
      if bundle.id == "" { return Failed(InvalidArgument); }
      var found := FindObject(r.bucket, r.key, r.versionId, order);
      if found.Err? { return Failed(found.code); }
      var valid := ValidateArchivePreconditions(found.value, r);
      if valid.Failed? { return valid; }
      if bundle.id in archiveBundles {
        if archiveBundles[bundle.id] != bundle { return Failed(AlreadyExists); }
      } else {
        archiveBundles := archiveBundles[bundle.id := bundle];
      }
      var selected := FindObjectMut(r.bucket, r.key, r.versionId, order);
      if selected.Err? { assert false; return Failed(NotFound); }
      objects := objects[selected.value := objects[selected.value].(
        archiveId := Some(bundle.id), tapeId := Some(bundle.tapeId), tapeSet := bundle.tapeSet,
        tapeBlockOffset := Some(r.tapeBlockOffset), storageClass := r.storageClass, updatedAt := Some(now))];
      status := Done;
      assert archiveBundles == old(archiveBundles)[bundle.id := bundle];
    }

    method ApplyObjectCommand(c: Command, now: Timestamp, order: seq<ObjectKey>) returns (status: Status)
      requires Enumerates(order, objects)
      requires c.PutObject? || c.DeleteObject? || c.UpdateStorageClass? || c.UpdateArchiveLocation?
               || c.CompleteArchiveObject? || c.UpdateRestoreStatus?
      modifies this
      ensures Performs(Apply(old(State()), c, now, order), status)
    {
      match c
      case PutObject(o) =>
        if o.bucket !in buckets { return Failed(NotFound); }
        var stored := o.(createdAt := Stamped(o.createdAt, now), updatedAt := Some(now));
        objects := objects[KeyOf(stored) := stored];
        RefreshBucketStats(stored.bucket);
        status := Done;
      case DeleteObject(bucket, key) =>
        var k := ObjectKey(bucket, key, None);
        var removed := k in objects;
        objects := objects - {k};
        if !removed {
          assert objects == old(objects);
          return Failed(NotFound);
        }
        RefreshBucketStats(bucket);
        status := Done;
      case UpdateStorageClass(bucket, key, storageClass) =>
        var k := FindObjectMut(bucket, key, None, order);
        if k.Err? { return Failed(k.code); }
        objects := objects[k.value := objects[k.value].(storageClass := storageClass, updatedAt := Some(now))];
        status := Done;
      case UpdateArchiveLocation(bucket, key, archiveId, tapeId, tapeSet, offset) =>
        var k := FindObjectMut(bucket, key, None, order);
        if k.Err? { return Failed(k.code); }
        objects := objects[k.value := objects[k.value].(archiveId := Some(archiveId), tapeId := Some(tapeId),
          tapeSet := tapeSet, tapeBlockOffset := Some(offset), updatedAt := Some(now))];
        status := Done;
      case CompleteArchiveObject(r) =>
        status := CompleteArchive(r, now, order);
      case UpdateRestoreStatus(bucket, key, next, expireAt) =>
        var k := FindObjectMut(bucket, key, None, order);
        if k.Err? { return Failed(k.code); }
        var valid := ValidateRestore(objects[k.value].restoreStatus, next);
        if valid.Failed? { return valid; }
        objects := objects[k.value := objects[k.value].(restoreStatus := Some(next),
          restoreExpireAt := expireAt, updatedAt := Some(now))];
        status := Done;
    }

    method ApplyBucketCommand(c: Command, now: Timestamp, order: seq<ObjectKey>) returns (status: Status)
      requires Enumerates(order, objects)
      requires c.CreateBucket? || c.DeleteBucket?
      modifies this
      ensures Performs(Apply(old(State()), c, now, order), status)
    {
      match c
      case CreateBucket(b) =>
        if b.name in buckets { return Failed(AlreadyExists); }
        buckets := buckets[b.name := b.(createdAt := Stamped(b.createdAt, now))];
        status := Done;
      case DeleteBucket(name) =>
        var hasObjects := false;
        for i := 0 to |order|
          invariant hasObjects <==> exists j :: 0 <= j < i && objects[order[j]].bucket == name
        {
          if objects[order[i]].bucket == name { hasObjects := true; }
        }
        assert hasObjects <==> exists k :: k in objects && objects[k].bucket == name;
        if hasObjects { return Failed(FailedPrecondition); }
        var present := name in buckets;
        buckets := buckets - {name};
        if !present {
          assert buckets == old(buckets);
          return Failed(NotFound);
        }
        status := Done;
    }

    method ApplyBundleCommand(c: Command, now: Timestamp, order: seq<ObjectKey>) returns (status: Status)
      requires Enumerates(order, objects)
      requires c.PutArchiveBundle? || c.UpdateArchiveBundleStatus?
      modifies this
      ensures Performs(Apply(old(State()), c, now, order), status)
    {
      match c
      case PutArchiveBundle(b) =>
        archiveBundles := archiveBundles[b.id := b.(createdAt := Stamped(b.createdAt, now))];
        status := Done;
      case UpdateArchiveBundleStatus(id, next) =>
        if id !in archiveBundles { return Failed(NotFound); }
        var bundle := archiveBundles[id];
        var valid := ValidateBundle(bundle.status, next);
        if valid.Failed? { return valid; }
        bundle := bundle.(status := next);
        if next == BUNDLE_COMPLETED { bundle := bundle.(completedAt := Some(now)); }
        archiveBundles := archiveBundles[id := bundle];
        status := Done;
    }

    method ApplyTaskCommand(c: Command, now: Timestamp, order: seq<ObjectKey>) returns (status: Status)
      requires Enumerates(order, objects)
      requires c.PutArchiveTask? || c.UpdateArchiveTask? || c.PutRecallTask? || c.UpdateRecallTask?
      modifies this
      ensures Performs(Apply(old(State()), c, now, order), status)
    {
      match c
      case PutArchiveTask(t) =>
        var task := t.(createdAt := Stamped(t.createdAt, now));
        if task.id in archiveTasks {
          return if SameArchiveTask(archiveTasks[task.id], task) then Done else Failed(AlreadyExists);
        }
        archiveTasks := archiveTasks[task.id := task];
        status := Done;
      case UpdateArchiveTask(t) =>
        if t.id !in archiveTasks { return Failed(NotFound); }
        var valid := ValidateTask(archiveTasks[t.id].status, t.status);
        if valid.Failed? { return valid; }
        archiveTasks := archiveTasks[t.id := t];
        status := Done;
      case PutRecallTask(t) =>
        var task := t.(createdAt := Stamped(t.createdAt, now));
        if task.id in recallTasks {
          return if SameRecallTask(recallTasks[task.id], task) then Done else Failed(AlreadyExists);
        }
        recallTasks := recallTasks[task.id := task];
        status := Done;
      case UpdateRecallTask(t) =>
        if t.id !in recallTasks { return Failed(NotFound); }
        var valid := ValidateRestore(Some(recallTasks[t.id].status), t.status);
        if valid.Failed? { return valid; }
        recallTasks := recallTasks[t.id := t];
        status := Done;
    }

    method Register(c: Command, now: Timestamp) returns (status: Status)
      requires Registers(c)
      modifies this
      ensures Performs(ApplyRegistration(old(State()), c, now), status)
    {
      status := Done;
      match c
      case PutTape(t) => tapes := tapes[t.id := t.(registeredAt := Stamped(t.registeredAt, now))];
      case UpdateTape(t) => tapes := tapes[t.id := t];
      case RegisterSchedulerWorker(w) =>
        schedulerWorkers := schedulerWorkers[w.nodeId := w.(lastHeartbeat := Some(now))];
      case RegisterCacheWorker(w) => cacheWorkers := cacheWorkers[w.nodeId := w.(lastHeartbeat := Some(now))];
      case RegisterTapeWorker(w) => tapeWorkers := tapeWorkers[w.nodeId := w.(lastHeartbeat := Some(now))];
    }

    method Deregister(c: Command) returns (status: Status)
      requires Deregisters(c)
      modifies this
      ensures Performs(ApplyDeregistration(old(State()), c), status)
    {
      status := Done;
      match c
      case DeregisterSchedulerWorker(id) => schedulerWorkers := schedulerWorkers - {id};
      case DeregisterCacheWorker(id) => cacheWorkers := cacheWorkers - {id};
      case DeregisterTapeWorker(id) => tapeWorkers := tapeWorkers - {id};
    }

    method SetWorkerStatus(workerType: int, id: nat, next: int) returns (status: Status)
      modifies this
      ensures Performs(ApplyWorkerStatus(old(State()), workerType, id, next), status)
    {
      status := Done;
      if workerType == WORKER_SCHEDULER && id in schedulerWorkers {
        schedulerWorkers := schedulerWorkers[id := schedulerWorkers[id].(status := next)];
      } else if workerType == WORKER_CACHE && id in cacheWorkers {
        cacheWorkers := cacheWorkers[id := cacheWorkers[id].(status := next)];
      } else if workerType == WORKER_TAPE && id in tapeWorkers {
        tapeWorkers := tapeWorkers[id := tapeWorkers[id].(status := next)];
      } else {
        status := Failed(NotFound);
      }
    }

    method RecordHeartbeat(workerType: int, id: nat, p: HeartbeatPayload, now: Timestamp) returns (status: Status)
      modifies this
      ensures Performs(ApplyHeartbeat(old(State()), workerType, id, p, now), status)
    {
      status := Done;
      if workerType == WORKER_SCHEDULER {
        if id !in schedulerWorkers { return Failed(NotFound); }
        var worker := schedulerWorkers[id].(lastHeartbeat := Some(now));
        if p.SchedulerPayload? {
          worker := worker.(pendingArchiveTasks := p.pendingArchiveTasks,
            pendingRecallTasks := p.pendingRecallTasks, activeJobs := p.activeJobs);
        }
        schedulerWorkers := schedulerWorkers[id := worker];
      } else if workerType == WORKER_CACHE {
        if id !in cacheWorkers { return Failed(NotFound); }
        var worker := cacheWorkers[id].(lastHeartbeat := Some(now));
        if p.CachePayload? { worker := worker.(usedCapacity := p.usedCapacity, blobCount := p.blobCount); }
        cacheWorkers := cacheWorkers[id := worker];
      } else if workerType == WORKER_TAPE {
        if id !in tapeWorkers { return Failed(NotFound); }
        var worker := tapeWorkers[id].(lastHeartbeat := Some(now));
        if p.TapePayload? { worker := worker.(drives := p.drives); }
        tapeWorkers := tapeWorkers[id := worker];
      } else {
        return Failed(InvalidArgument);
      }
    }

    method ApplyClusterCommand(c: Command, now: Timestamp) returns (status: Status)
      requires ChangesCluster(c)
      modifies this
      ensures Performs(ApplyCluster(old(State()), c, now), status)
    {
      if c.UpdateWorkerStatus? {
        status := SetWorkerStatus(c.workerType, c.nodeId, c.status);
      } else if c.Heartbeat? {
        status := RecordHeartbeat(c.workerType, c.nodeId, c.payload, now);
      } else if Deregisters(c) {
        status := Deregister(c);
      } else {
        status := Register(c, now);
      }
    }

    /** One command.  It either performs the specified transition or changes nothing at all. */
    method ApplyCommand(c: Command, now: Timestamp, order: seq<ObjectKey>) returns (status: Status)
      requires Enumerates(order, objects)
      modifies this
      ensures Performs(Apply(old(State()), c, now, order), status)
      ensures status.Failed? ==> State() == old(State())
    {
      if c.PutObject? || c.DeleteObject? || c.UpdateStorageClass? || c.UpdateArchiveLocation?
         || c.CompleteArchiveObject? || c.UpdateRestoreStatus? {
        status := ApplyObjectCommand(c, now, order);
      } else if c.CreateBucket? || c.DeleteBucket? {
        status := ApplyBucketCommand(c, now, order);
      } else if c.PutArchiveBundle? || c.UpdateArchiveBundleStatus? {
        status := ApplyBundleCommand(c, now, order);
      } else if c.PutArchiveTask? || c.UpdateArchiveTask? || c.PutRecallTask? || c.UpdateRecallTask? {
        status := ApplyTaskCommand(c, now, order);
      } else {
        status := ApplyClusterCommand(c, now);
      }
    }
  }
}
