/**
 Which accepted commands write the clock reading into a record.  The metadata service executes
 each command twice, with two readings; the two results are equal exactly when the readings are
 equal or the command stamps nothing.
 */
module ClockReadings {
  import opened Basics
  import opened MetadataTypes
  import opened MetadataSpec

  /** Commands on one object that set its update time. */
  predicate TouchesObject(c: Command) {
    c.PutObject? || c.UpdateStorageClass? || c.UpdateArchiveLocation? || c.CompleteArchiveObject?
    || c.UpdateRestoreStatus?
  }

  /** The command, if accepted in this state, stores the clock reading. */
  predicate Stamps(s: MetadataState, c: Command) {
    || TouchesObject(c)
    || (c.CreateBucket? && c.bucketInfo.createdAt.None?)
    || (c.PutArchiveBundle? && c.bundle.createdAt.None?)
    || (c.UpdateArchiveBundleStatus? && c.status == BUNDLE_COMPLETED)
    || (c.PutArchiveTask? && c.archiveTask.id !in s.archiveTasks && c.archiveTask.createdAt.None?)
    || (c.PutRecallTask? && c.recallTask.id !in s.recallTasks && c.recallTask.createdAt.None?)
    || (c.PutTape? && c.tape.registeredAt.None?)
    || c.RegisterSchedulerWorker? || c.RegisterCacheWorker? || c.RegisterTapeWorker? || c.Heartbeat?
  }

  /** Both readings lead to the same verdict, and to the same state iff they are equal or nothing is stamped. */
  ghost predicate SameIff(a: Result<MetadataState>, b: Result<MetadataState>, now: Timestamp, now': Timestamp,
                          stamps: bool)
  {
    && (a.Ok? <==> b.Ok?)
    && (a.Ok? ==> (a.value == b.value <==> now == now' || !stamps))
  }

  lemma PutReads(s: MetadataState, o: ObjectMetadata, now: Timestamp, now': Timestamp)
    ensures SameIff(ApplyPutObject(s, o, now), ApplyPutObject(s, o, now'), now, now', true)
  {
    if o.bucket in s.buckets {
      assert ApplyPutObject(s, o, now).value.objects[KeyOf(o)].updatedAt == Some(now);
      assert ApplyPutObject(s, o, now').value.objects[KeyOf(o)].updatedAt == Some(now');
    }
  }

  /** An update under a found key shows the stamp. */
  lemma StampShows(objects: map<ObjectKey, ObjectMetadata>, k: ObjectKey, o: ObjectMetadata, o': ObjectMetadata)
    requires o.updatedAt != o'.updatedAt
    ensures objects[k := o] != objects[k := o']
  {
    assert objects[k := o][k] == o && objects[k := o'][k] == o';
  }

  lemma LookupCommandReads(s: MetadataState, c: Command, now: Timestamp, now': Timestamp, order: seq<ObjectKey>)
    requires Enumerates(order, s.objects)
    requires c.UpdateStorageClass? || c.UpdateArchiveLocation? || c.UpdateRestoreStatus?
    ensures SameIff(Apply(s, c, now, order), Apply(s, c, now', order), now, now', true)
  {
    var found := Find(s.objects, order, c.bucket, c.key, None);
    var a, b := Apply(s, c, now, order), Apply(s, c, now', order);
    if now != now' && a.Ok? {
      StampShows(s.objects, found.value, a.value.objects[found.value], b.value.objects[found.value]);
    }
  }

  lemma CommitReads(s: MetadataState, r: CompleteArchiveRequest, now: Timestamp, now': Timestamp, order: seq<ObjectKey>)
    requires Enumerates(order, s.objects)
    ensures SameIff(ApplyComplete(s, r, now, order), ApplyComplete(s, r, now', order), now, now', true)
  {
    var a, b := ApplyComplete(s, r, now, order), ApplyComplete(s, r, now', order);
    if now != now' && a.Ok? {
      var k := Find(s.objects, order, r.bucket, r.key, r.versionId).value;
      StampShows(s.objects, k, a.value.objects[k], b.value.objects[k]);
    }
  }

  lemma BucketReads(s: MetadataState, b: BucketInfo, now: Timestamp, now': Timestamp)
    ensures SameIff(ApplyCreateBucket(s, b, now), ApplyCreateBucket(s, b, now'), now, now', b.createdAt.None?)
  {
    if b.name !in s.buckets {
      assert ApplyCreateBucket(s, b, now).value.buckets[b.name].createdAt == Stamped(b.createdAt, now);
      assert ApplyCreateBucket(s, b, now').value.buckets[b.name].createdAt == Stamped(b.createdAt, now');
    }
  }

  lemma BundleReads(s: MetadataState, c: Command, now: Timestamp, now': Timestamp, order: seq<ObjectKey>)
    requires Enumerates(order, s.objects) && (c.PutArchiveBundle? || c.UpdateArchiveBundleStatus?)
    ensures SameIff(Apply(s, c, now, order), Apply(s, c, now', order), now, now', Stamps(s, c))
  {
    var a, b := Apply(s, c, now, order), Apply(s, c, now', order);
    if a.Ok? {
      var id := if c.PutArchiveBundle? then c.bundle.id else c.bundleId;
      assert a.value.archiveBundles[id] == b.value.archiveBundles[id] <==> now == now' || !Stamps(s, c);
    }
  }

  lemma ArchiveTaskReads(s: MetadataState, t: ArchiveTask, now: Timestamp, now': Timestamp)
    ensures SameIff(ApplyPutArchiveTask(s, t, now), ApplyPutArchiveTask(s, t, now'), now, now',
                    t.id !in s.archiveTasks && t.createdAt.None?)
  {
    if t.id !in s.archiveTasks {
      assert ApplyPutArchiveTask(s, t, now).value.archiveTasks[t.id].createdAt == Stamped(t.createdAt, now);
      assert ApplyPutArchiveTask(s, t, now').value.archiveTasks[t.id].createdAt == Stamped(t.createdAt, now');
    }
  }

  lemma RecallTaskReads(s: MetadataState, t: RecallTask, now: Timestamp, now': Timestamp)
    ensures SameIff(ApplyPutRecallTask(s, t, now), ApplyPutRecallTask(s, t, now'), now, now',
                    t.id !in s.recallTasks && t.createdAt.None?)
  {
    if t.id !in s.recallTasks {
      assert ApplyPutRecallTask(s, t, now).value.recallTasks[t.id].createdAt == Stamped(t.createdAt, now);
      assert ApplyPutRecallTask(s, t, now').value.recallTasks[t.id].createdAt == Stamped(t.createdAt, now');
    }
  }

  lemma RegistrationReads(s: MetadataState, c: Command, now: Timestamp, now': Timestamp)
    requires Registers(c)
    ensures SameIff(ApplyRegistration(s, c, now), ApplyRegistration(s, c, now'), now, now', Stamps(s, c))
  {
    var a, b := ApplyRegistration(s, c, now).value, ApplyRegistration(s, c, now').value;
    match c {
      case PutTape(t) => assert a.tapes[t.id] == b.tapes[t.id] <==> now == now' || !Stamps(s, c);
      case UpdateTape(_) =>
      case RegisterSchedulerWorker(w) => assert a.schedulerWorkers[w.nodeId].lastHeartbeat == Some(now);
        assert b.schedulerWorkers[w.nodeId].lastHeartbeat == Some(now');
      case RegisterCacheWorker(w) => assert a.cacheWorkers[w.nodeId].lastHeartbeat == Some(now);
        assert b.cacheWorkers[w.nodeId].lastHeartbeat == Some(now');
      case RegisterTapeWorker(w) => assert a.tapeWorkers[w.nodeId].lastHeartbeat == Some(now);
        assert b.tapeWorkers[w.nodeId].lastHeartbeat == Some(now');
    }
  }

  lemma UpdateShows<K, V>(m: map<K, V>, k: K, v: V, v': V)
    ensures m[k := v] == m[k := v'] <==> v == v'
  {
    assert m[k := v][k] == v && m[k := v'][k] == v';
  }

  lemma SchedulerBeatReads(s: MetadataState, id: nat, p: HeartbeatPayload, now: Timestamp, now': Timestamp)
    ensures SameIff(ApplyHeartbeat(s, WORKER_SCHEDULER, id, p, now), ApplyHeartbeat(s, WORKER_SCHEDULER, id, p, now'), now, now', true)
  {
    if id in s.schedulerWorkers {
      var beat, beat' := BeatScheduler(s.schedulerWorkers[id], p, now), BeatScheduler(s.schedulerWorkers[id], p, now');
      assert beat.lastHeartbeat == Some(now) && beat'.lastHeartbeat == Some(now');
      UpdateShows(s.schedulerWorkers, id, beat, beat');
    }
  }

  lemma CacheBeatReads(s: MetadataState, id: nat, p: HeartbeatPayload, now: Timestamp, now': Timestamp)
    ensures SameIff(ApplyHeartbeat(s, WORKER_CACHE, id, p, now), ApplyHeartbeat(s, WORKER_CACHE, id, p, now'), now, now', true)
  {
    if id in s.cacheWorkers {
      var beat, beat' := BeatCache(s.cacheWorkers[id], p, now), BeatCache(s.cacheWorkers[id], p, now');
      assert beat.lastHeartbeat == Some(now) && beat'.lastHeartbeat == Some(now');
      UpdateShows(s.cacheWorkers, id, beat, beat');
    }
  }

  lemma TapeBeatReads(s: MetadataState, id: nat, p: HeartbeatPayload, now: Timestamp, now': Timestamp)
    ensures SameIff(ApplyHeartbeat(s, WORKER_TAPE, id, p, now), ApplyHeartbeat(s, WORKER_TAPE, id, p, now'), now, now', true)
  {
    if id in s.tapeWorkers {
      var beat, beat' := BeatTape(s.tapeWorkers[id], p, now), BeatTape(s.tapeWorkers[id], p, now');
      assert beat.lastHeartbeat == Some(now) && beat'.lastHeartbeat == Some(now');
      UpdateShows(s.tapeWorkers, id, beat, beat');
    }
  }

  lemma HeartbeatReads(s: MetadataState, workerType: int, id: nat, p: HeartbeatPayload, now: Timestamp, now': Timestamp)
    ensures SameIff(ApplyHeartbeat(s, workerType, id, p, now), ApplyHeartbeat(s, workerType, id, p, now'), now, now', true)
  {
    if workerType == WORKER_SCHEDULER {
      SchedulerBeatReads(s, id, p, now, now');
    } else if workerType == WORKER_CACHE {
      CacheBeatReads(s, id, p, now, now');
    } else if workerType == WORKER_TAPE {
      TapeBeatReads(s, id, p, now, now');
    }
  }

  lemma ClusterReads(s: MetadataState, c: Command, now: Timestamp, now': Timestamp)
    requires ChangesCluster(c)
    ensures SameIff(ApplyCluster(s, c, now), ApplyCluster(s, c, now'), now, now', Stamps(s, c))
  {
    if c.Heartbeat? {
      HeartbeatReads(s, c.workerType, c.nodeId, c.payload, now, now');
    } else if Registers(c) {
      RegistrationReads(s, c, now, now');
    }
  }

  lemma ApplyClusterReads(s: MetadataState, c: Command, now: Timestamp, now': Timestamp, order: seq<ObjectKey>)
    requires Enumerates(order, s.objects) && ChangesCluster(c)
    ensures SameIff(Apply(s, c, now, order), Apply(s, c, now', order), now, now', Stamps(s, c))
  {
    ClusterReads(s, c, now, now');
    assert Apply(s, c, now, order) == ApplyCluster(s, c, now);
    assert Apply(s, c, now', order) == ApplyCluster(s, c, now');
  }

  lemma ObjectCommandReads(s: MetadataState, c: Command, now: Timestamp, now': Timestamp, order: seq<ObjectKey>)
    requires Enumerates(order, s.objects) && TouchesObject(c)
    ensures SameIff(Apply(s, c, now, order), Apply(s, c, now', order), now, now', true)
  {
    if c.PutObject? {
      PutReads(s, c.objectMetadata, now, now');
    } else if c.CompleteArchiveObject? {
      CommitReads(s, c.request, now, now', order);
    } else {
      LookupCommandReads(s, c, now, now', order);
    }
  }

  lemma StoreCommandReads(s: MetadataState, c: Command, now: Timestamp, now': Timestamp, order: seq<ObjectKey>)
    requires Enumerates(order, s.objects)
    requires c.DeleteObject? || c.CreateBucket? || c.DeleteBucket? || c.PutArchiveTask? || c.UpdateArchiveTask?
             || c.PutRecallTask? || c.UpdateRecallTask?
    ensures SameIff(Apply(s, c, now, order), Apply(s, c, now', order), now, now', Stamps(s, c))
  {
    if c.CreateBucket? {
      BucketReads(s, c.bucketInfo, now, now');
    } else if c.PutArchiveTask? {
      ArchiveTaskReads(s, c.archiveTask, now, now');
    } else if c.PutRecallTask? {
      RecallTaskReads(s, c.recallTask, now, now');
    }
  }

  /** For every command: the two executions agree iff their readings do or the command stamps nothing. */
  lemma ReadingsMatterIffStamped(s: MetadataState, c: Command, now: Timestamp, now': Timestamp, order: seq<ObjectKey>)
    requires Enumerates(order, s.objects)
    ensures SameIff(Apply(s, c, now, order), Apply(s, c, now', order), now, now', Stamps(s, c))
  {
    if TouchesObject(c) {
      ObjectCommandReads(s, c, now, now', order);
    } else if ChangesCluster(c) {
      ApplyClusterReads(s, c, now, now', order);
    } else if c.PutArchiveBundle? || c.UpdateArchiveBundleStatus? {
      BundleReads(s, c, now, now', order);
    } else {
      StoreCommandReads(s, c, now, now', order);
    }
  }
}
