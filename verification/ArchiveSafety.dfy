/**
 Safety of the archive protocol over every interleaving: an archived object names a
 bundle that never changes and that describes it exactly, and GET returns bytes with
 the recorded checksum and size although it compares only sizes.
 */
module ArchiveSafety {
  import opened Basics
  import opened MetadataTypes
  import opened MetadataSpec
  import opened ArchiveProtocol

  type Bundles = map<string, ArchiveBundle>

  // ------------------------------------------------------------- checksums

  lemma {:induction false} DigestIsTrimmed(s: string)
    requires IsDigest(s)
    ensures Trim(s) == s && StripDigestPrefix(s) == s
  {
    assert IsHexDigit(s[0]) && IsHexDigit(s[|s| - 1]);
    assert "sha256:"[0] == 's' && "SHA256:"[0] == 'S';
  }

  /** On digests the forgiving comparison of checksums is equality. */
  lemma DigestsMatchExactly(a: string, b: string)
    requires IsDigest(a) && IsDigest(b)
    ensures ChecksumMatches(a, b) <==> a == b
  {
    DigestIsTrimmed(a);
    forall i | 0 <= i < 64
      ensures ToLower(a[i]) == a[i] && ToLower(b[i]) == b[i]
    {
      assert IsHexDigit(a[i]) && IsHexDigit(b[i]);
    }
  }

  /** What validating staged bytes against an object with a digest establishes. */
  lemma ValidationIsExact(sha: Sha, o: ObjectMetadata, s: Staged)
    requires PrintsDigests(sha) && IsDigest(o.checksum)
    requires StagedMatches(sha, o, s)
    ensures s.bucket == o.bucket && s.key == o.key && s.versionId == o.versionId
    ensures o.size == |s.data| && o.checksum == sha(s.data)
  {
    DigestIsTrimmed(o.checksum);
    DigestsMatchExactly(o.checksum, sha(s.data));
  }

  // ------------------------------------------------------------ invariants

  /** The bundle recorded for a key describes exactly these bytes at this place on tape. */
  ghost predicate Recorded(bundles: Bundles, bucket: string, key: string, size: nat, checksum: string,
                           tapeId: string, filemark: nat)
  {
    var id := BundleIdFor(bucket, key);
    && id in bundles
    && bundles[id].entries == [BundleEntry(bucket, key, None, size, 0, filemark, checksum)]
    && bundles[id].tapeId == tapeId
  }

  /** An archived object names its recorded bundle. */
  ghost predicate ColdOk(bundles: Bundles, o: ObjectMetadata) {
    && o.versionId == None
    && o.archiveId == Some(BundleIdFor(o.bucket, o.key))
    && o.tapeId.Some? && o.tapeBlockOffset.Some?
    && Recorded(bundles, o.bucket, o.key, o.size, o.checksum, o.tapeId.value, o.tapeBlockOffset.value)
  }

  ghost predicate ObjectOk(bundles: Bundles, k: ObjectKey, o: ObjectMetadata) {
    && KeyOf(o) == k && k.versionId == None
    && IsDigest(o.checksum)
    && (o.storageClass == COLD ==> ColdOk(bundles, o))
  }

  ghost predicate ObjectsOk(bundles: Bundles, objects: map<ObjectKey, ObjectMetadata>) {
    forall k :: k in objects ==> ObjectOk(bundles, k, objects[k])
  }

  ghost predicate TaskOk(bundles: Bundles, t: RecallTask) {
    && t.versionId == None
    && t.archiveId == BundleIdFor(t.bucket, t.key)
    && Recorded(bundles, t.bucket, t.key, t.objectSize, t.checksum, t.tapeId, t.tapeBlockOffset)
  }

  ghost predicate TasksOk(bundles: Bundles, tasks: map<string, RecallTask>) {
    forall id :: id in tasks ==> TaskOk(bundles, tasks[id])
  }

  /** These bytes are what the recorded bundle of the key describes. */
  ghost predicate DataOk(sha: Sha, bundles: Bundles, k: ObjectKey, data: seq<Byte>) {
    var id := BundleIdFor(k.bucket, k.key);
    && id in bundles && |bundles[id].entries| == 1
    && bundles[id].entries[0].size == |data|
    && bundles[id].entries[0].checksum == sha(data)
  }

  ghost predicate RestoredOk(sha: Sha, bundles: Bundles, restored: map<ObjectKey, seq<Byte>>) {
    forall k :: k in restored ==> DataOk(sha, bundles, k, restored[k])
  }

  ghost predicate ThreadOk(sha: Sha, bundles: Bundles, th: Thread) {
    if th.RestoreRead? || th.GetRead? then ColdOk(bundles, th.found)
    else if th.GetDone? then sha(th.data) == th.found.checksum && |th.data| == th.found.size
    else if th.ArchiveReady? then
      th.current.versionId == None && th.current.size == |th.staged.data| && th.current.checksum == sha(th.staged.data)
    else if th.RecallChecked? || th.RecallVerified? then
      && TaskOk(bundles, th.task)
      && KeyOf(th.found) == At(th.task.bucket, th.task.key)
      && (th.RecallVerified? ==> sha(th.data) == th.task.checksum && |th.data| == th.task.objectSize)
    else if th.RestoreMarked? || th.RecallStart? || th.RecallClaimWrite? || th.RecallMarkObject? || th.RecallClaimed?
            || th.RecallStored? || th.RecallDone? || th.RecallUpdate?
    then TaskOk(bundles, th.task)
    else true
  }

  ghost predicate ThreadsOk(sha: Sha, bundles: Bundles, threads: map<nat, Thread>) {
    forall t :: t in threads ==> ThreadOk(sha, bundles, threads[t])
  }

  ghost predicate MetaOk(m: MetadataState) {
    ObjectsOk(m.archiveBundles, m.objects) && TasksOk(m.archiveBundles, m.recallTasks)
  }

  ghost predicate WorldOk(sha: Sha, w: World) {
    && MetaOk(w.meta)
    && RestoredOk(sha, w.meta.archiveBundles, w.restored)
    && ThreadsOk(sha, w.meta.archiveBundles, w.threads)
  }

  // --------------------------------------------------------- bundles only grow

  /** Every bundle recorded in `a` is recorded, unchanged, in `b`. */
  ghost predicate Grows(a: Bundles, b: Bundles) {
    forall id :: id in a ==> id in b && b[id] == a[id]
  }

  lemma GrowthKeepsThread(sha: Sha, a: Bundles, b: Bundles, th: Thread)
    requires Grows(a, b) && ThreadOk(sha, a, th)
    ensures ThreadOk(sha, b, th)
  {}

  lemma GrowthKeepsTasks(a: Bundles, b: Bundles, tasks: map<string, RecallTask>)
    requires Grows(a, b) && TasksOk(a, tasks)
    ensures TasksOk(b, tasks)
  {
    forall id | id in tasks
      ensures TaskOk(b, tasks[id])
    {
      assert TaskOk(a, tasks[id]);
    }
  }

  lemma GrowthKeepsObjects(a: Bundles, b: Bundles, objects: map<ObjectKey, ObjectMetadata>)
    requires Grows(a, b) && ObjectsOk(a, objects)
    ensures ObjectsOk(b, objects)
  {
    forall k | k in objects
      ensures ObjectOk(b, k, objects[k])
    {
      assert ObjectOk(a, k, objects[k]);
    }
  }

  lemma GrowthKeepsRestored(sha: Sha, a: Bundles, b: Bundles, restored: map<ObjectKey, seq<Byte>>)
    requires Grows(a, b) && RestoredOk(sha, a, restored)
    ensures RestoredOk(sha, b, restored)
  {
    forall k | k in restored
      ensures DataOk(sha, b, k, restored[k])
    {
      assert DataOk(sha, a, k, restored[k]);
    }
  }

  lemma GrowthKeepsThreads(sha: Sha, a: Bundles, b: Bundles, threads: map<nat, Thread>)
    requires Grows(a, b) && ThreadsOk(sha, a, threads)
    ensures ThreadsOk(sha, b, threads)
  {
    forall t | t in threads
      ensures ThreadOk(sha, b, threads[t])
    {
      GrowthKeepsThread(sha, a, b, threads[t]);
    }
  }

  // ---------------------------------------------------------------- commands

  /** A commit whose bundle describes the object that it expects. */
  ghost predicate HonestCommit(r: CompleteArchiveRequest) {
    && r.versionId == None && r.bundle.Some? && r.storageClass == COLD
    && r.bundle.value.id == BundleIdFor(r.bucket, r.key)
    && r.expectedSize.Some? && r.expectedChecksum.Some?
    && r.bundle.value.entries == [BundleEntry(r.bucket, r.key, None, r.expectedSize.value, 0, r.tapeBlockOffset,
                                              r.expectedChecksum.value)]
  }

  /** The commands that the scheduler issues, with what it knows about their arguments. */
  ghost predicate SchedulerIssued(bundles: Bundles, c: Command) {
    if c.PutObject? then
      c.objectMetadata.versionId == None && c.objectMetadata.storageClass != COLD && IsDigest(c.objectMetadata.checksum)
    else if c.CompleteArchiveObject? then HonestCommit(c.request)
    else if c.PutRecallTask? || c.UpdateRecallTask? then TaskOk(bundles, c.recallTask)
    else c.DeleteObject? || c.UpdateRestoreStatus? || c.CreateBucket? || c.DeleteBucket? || c.PutArchiveTask?
         || c.UpdateArchiveTask?
  }

  lemma UpdateKeepsObjects(bundles: Bundles, objects: map<ObjectKey, ObjectMetadata>, k: ObjectKey, o: ObjectMetadata)
    requires ObjectsOk(bundles, objects) && ObjectOk(bundles, k, o)
    ensures ObjectsOk(bundles, objects[k := o])
  {}

  lemma FoundMatches(objects: map<ObjectKey, ObjectMetadata>, order: seq<ObjectKey>, bucket: string, key: string)
    requires Enumerates(order, objects)
    ensures var f := Find(objects, order, bucket, key, None); f.Some? ==> Matches(f.value, bucket, key)
  {
    LatestMatches(objects, order, bucket, key);
  }

  lemma {:induction false} LatestMatches(objects: map<ObjectKey, ObjectMetadata>, order: seq<ObjectKey>,
                                         bucket: string, key: string)
    requires forall k :: k in order ==> k in objects
    ensures var f := Latest(objects, order, bucket, key); f.Some? ==> Matches(f.value, bucket, key)
  {
    if order != [] {
      LatestMatches(objects, order[..|order| - 1], bucket, key);
    }
  }

  /** A commit records its bundle once and for all and makes the object name it. */
  lemma CommitKeepsMeta(m: MetadataState, r: CompleteArchiveRequest, now: Timestamp, order: seq<ObjectKey>)
    requires Enumerates(order, m.objects) && MetaOk(m) && HonestCommit(r)
    requires ApplyComplete(m, r, now, order).Ok?
    ensures var m' := ApplyComplete(m, r, now, order).value;
            Grows(m.archiveBundles, m'.archiveBundles) && MetaOk(m')
  {
    var m' := ApplyComplete(m, r, now, order).value;
    assert Grows(m.archiveBundles, m'.archiveBundles);
    GrowthKeepsObjects(m.archiveBundles, m'.archiveBundles, m.objects);
    GrowthKeepsTasks(m.archiveBundles, m'.archiveBundles, m.recallTasks);
    FoundMatches(m.objects, order, r.bucket, r.key);
    var k := Find(m.objects, order, r.bucket, r.key, None).value;
    assert ObjectOk(m.archiveBundles, k, m.objects[k]);
    UpdateKeepsObjects(m'.archiveBundles, m.objects, k, m'.objects[k]);
  }

  lemma RestoreStatusKeepsMeta(m: MetadataState, c: Command, now: Timestamp, order: seq<ObjectKey>)
    requires Enumerates(order, m.objects) && MetaOk(m) && c.UpdateRestoreStatus?
    requires Apply(m, c, now, order).Ok?
    ensures var m' := Apply(m, c, now, order).value;
            m'.archiveBundles == m.archiveBundles && MetaOk(m')
  {
    var m' := Apply(m, c, now, order).value;
    var k := Find(m.objects, order, c.bucket, c.key, None).value;
    assert ObjectOk(m.archiveBundles, k, m.objects[k]);
    UpdateKeepsObjects(m.archiveBundles, m.objects, k, m'.objects[k]);
  }

  lemma PutKeepsMeta(m: MetadataState, o: ObjectMetadata, now: Timestamp)
    requires MetaOk(m) && o.versionId == None && o.storageClass != COLD && IsDigest(o.checksum)
    requires ApplyPutObject(m, o, now).Ok?
    ensures var m' := ApplyPutObject(m, o, now).value;
            m'.archiveBundles == m.archiveBundles && MetaOk(m')
  {
    var m' := ApplyPutObject(m, o, now).value;
    UpdateKeepsObjects(m.archiveBundles, m.objects, KeyOf(o), m'.objects[KeyOf(o)]);
  }

  lemma UpdateKeepsTasks(bundles: Bundles, tasks: map<string, RecallTask>, t: RecallTask)
    requires TasksOk(bundles, tasks) && TaskOk(bundles, t)
    ensures TasksOk(bundles, tasks[t.id := t])
  {}

  lemma PutTaskKeepsMeta(m: MetadataState, t: RecallTask, now: Timestamp)
    requires MetaOk(m) && TaskOk(m.archiveBundles, t)
    ensures var r := ApplyPutRecallTask(m, t, now);
            r.Ok? ==> r.value.archiveBundles == m.archiveBundles && MetaOk(r.value)
  {
    UpdateKeepsTasks(m.archiveBundles, m.recallTasks, t.(createdAt := Stamped(t.createdAt, now)));
  }

  lemma UpdateTaskKeepsMeta(m: MetadataState, t: RecallTask)
    requires MetaOk(m) && TaskOk(m.archiveBundles, t)
    ensures var r := ApplyUpdateRecallTask(m, t);
            r.Ok? ==> r.value.archiveBundles == m.archiveBundles && MetaOk(r.value)
  {
    UpdateKeepsTasks(m.archiveBundles, m.recallTasks, t);
  }

  /** Every scheduler command keeps the invariant, and no recorded bundle ever changes. */
  lemma CommandKeepsMeta(m: MetadataState, c: Command, now: Timestamp, order: seq<ObjectKey>)
    requires Enumerates(order, m.objects) && MetaOk(m) && SchedulerIssued(m.archiveBundles, c)
    requires Apply(m, c, now, order).Ok?
    ensures var m' := Apply(m, c, now, order).value;
            Grows(m.archiveBundles, m'.archiveBundles) && MetaOk(m')
  {
    if c.CompleteArchiveObject? {
      CommitKeepsMeta(m, c.request, now, order);
    } else if c.UpdateRestoreStatus? {
      RestoreStatusKeepsMeta(m, c, now, order);
    } else if c.PutObject? {
      PutKeepsMeta(m, c.objectMetadata, now);
    } else if c.PutRecallTask? {
      PutTaskKeepsMeta(m, c.recallTask, now);
    } else if c.UpdateRecallTask? {
      UpdateTaskKeepsMeta(m, c.recallTask);
    } else {
      OtherCommandKeepsMeta(m, c, now, order);
    }
  }

  lemma OtherCommandKeepsMeta(m: MetadataState, c: Command, now: Timestamp, order: seq<ObjectKey>)
    requires Enumerates(order, m.objects) && MetaOk(m)
    requires c.DeleteObject? || c.CreateBucket? || c.DeleteBucket? || c.PutArchiveTask? || c.UpdateArchiveTask?
    requires Apply(m, c, now, order).Ok?
    ensures var m' := Apply(m, c, now, order).value;
            m'.archiveBundles == m.archiveBundles && MetaOk(m')
  {}

  lemma EffectKeepsMeta(m: MetadataState, c: Command, seen: Observation)
    requires Enumerates(seen.order, m.objects) && MetaOk(m) && SchedulerIssued(m.archiveBundles, c)
    ensures var m' := Effect(m, c, seen);
            Grows(m.archiveBundles, m'.archiveBundles) && MetaOk(m')
  {
    if Run(m, c, seen).Ok? {
      CommandKeepsMeta(m, c, seen.serverNow, seen.order);
    }
  }

  lemma HeadIsOk(m: MetadataState, seen: Observation, bucket: string, key: string)
    requires Enumerates(seen.order, m.objects) && MetaOk(m)
    ensures var o := Head(m, seen, bucket, key);
            o.Some? ==> KeyOf(o.value) == At(bucket, key) && ObjectOk(m.archiveBundles, At(bucket, key), o.value)
  {
    FoundMatches(m.objects, seen.order, bucket, key);
    var k := Find(m.objects, seen.order, bucket, key, None);
    if k.Some? {
      assert ObjectOk(m.archiveBundles, k.value, m.objects[k.value]);
    }
  }

  // -------------------------------------------------------------------- steps

  /** What a step of one thread must establish, the other threads standing still. */
  ghost predicate StepOk(sha: Sha, w: World, next: World, th: Thread) {
    && Grows(w.meta.archiveBundles, next.meta.archiveBundles)
    && MetaOk(next.meta)
    && RestoredOk(sha, next.meta.archiveBundles, next.restored)
    && ThreadOk(sha, next.meta.archiveBundles, th)
  }

  /** A step that only runs a command. */
  lemma CommandStep(sha: Sha, w: World, c: Command, seen: Observation)
    requires Enumerates(seen.order, w.meta.objects)
    requires WorldOk(sha, w) && SchedulerIssued(w.meta.archiveBundles, c)
    ensures StepOk(sha, w, w.(meta := Effect(w.meta, c, seen)), Idle)
  {
    EffectKeepsMeta(w.meta, c, seen);
    GrowthKeepsRestored(sha, w.meta.archiveBundles, Effect(w.meta, c, seen).archiveBundles, w.restored);
  }

  lemma PutStep(sha: Sha, w: World, th: Thread, seen: Observation)
    requires PrintsDigests(sha) && Enumerates(seen.order, w.meta.objects)
    requires Putting(th)
    requires WorldOk(sha, w)
    ensures StepOk(sha, w, StepPut(sha, w, th, seen).0, StepPut(sha, w, th, seen).1)
  {
    if th.PutStaged? {
      CommandStep(sha, w, PutObject(NewObject(th.bucket, th.key, |th.body|, sha(th.body), th.contentType,
                                              seen.clientNow)), seen);
    }
  }

  lemma DeleteStep(sha: Sha, w: World, th: Thread, seen: Observation)
    requires Enumerates(seen.order, w.meta.objects)
    requires Deleting(th)
    requires WorldOk(sha, w)
    ensures StepOk(sha, w, StepDelete(w, th, seen).0, StepDelete(w, th, seen).1)
  {
    if th.DeleteStart? {
      CommandStep(sha, w, DeleteObject(th.bucket, th.key), seen);
    }
  }

  lemma RestoreStep(sha: Sha, w: World, th: Thread, seen: Observation)
    requires Enumerates(seen.order, w.meta.objects)
    requires Restoring(th)
    requires WorldOk(sha, w) && ThreadOk(sha, w.meta.archiveBundles, th)
    ensures StepOk(sha, w, StepRestore(w, th, seen).0, StepRestore(w, th, seen).1)
  {
    if th.RestoreStart? {
      HeadIsOk(w.meta, seen, th.bucket, th.key);
    } else if th.RestoreRead? {
      CommandStep(sha, w, UpdateRestoreStatus(th.found.bucket, th.found.key, RESTORE_PENDING, Some(seen.expireAt)), seen);
    } else if th.RestoreMarked? {
      CommandStep(sha, w, PutRecallTask(th.task), seen);
    } else {
      CommandStep(sha, w, UpdateRestoreStatus(th.bucket, th.key, RESTORE_FAILED, None), seen);
    }
  }

  /** The size comparison of GET finds bytes that the one recorded bundle describes. */
  lemma GetStep(sha: Sha, w: World, th: Thread, seen: Observation)
    requires Enumerates(seen.order, w.meta.objects)
    requires Getting(th)
    requires WorldOk(sha, w) && ThreadOk(sha, w.meta.archiveBundles, th)
    ensures StepOk(sha, w, StepGet(w, th, seen).0, StepGet(w, th, seen).1)
  {
    if th.GetStart? {
      HeadIsOk(w.meta, seen, th.bucket, th.key);
    } else if KeyOf(th.found) in w.restored {
      assert DataOk(sha, w.meta.archiveBundles, KeyOf(th.found), w.restored[KeyOf(th.found)]);
    }
  }

  lemma ArchiveClaimStep(sha: Sha, w: World, th: Thread, seen: Observation)
    requires Enumerates(seen.order, w.meta.objects)
    requires ClaimingArchive(th)
    requires WorldOk(sha, w)
    ensures StepOk(sha, w, StepArchiveClaim(w, th, seen).0, StepArchiveClaim(w, th, seen).1)
  {
    if th.ArchiveClaim? {
      CommandStep(sha, w, PutArchiveTask(th.claim), seen);
    } else if th.ArchiveClaimWrite? {
      CommandStep(sha, w, UpdateArchiveTask(th.claim), seen);
    }
  }

  lemma ArchiveWriteStep(sha: Sha, w: World, th: Thread, seen: Observation)
    requires PrintsDigests(sha) && Enumerates(seen.order, w.meta.objects)
    requires Archiving(th)
    requires WorldOk(sha, w) && ThreadOk(sha, w.meta.archiveBundles, th)
    ensures StepOk(sha, w, StepArchiveWrite(sha, w, th, seen).0, StepArchiveWrite(sha, w, th, seen).1)
  {
    if th.ArchiveWritten? {
      HeadIsOk(w.meta, seen, th.staged.bucket, th.staged.key);
      var o := Head(w.meta, seen, th.staged.bucket, th.staged.key);
      if o.Some? && StagedMatches(sha, o.value, th.staged) {
        ValidationIsExact(sha, o.value, th.staged);
      }
    } else if th.ArchiveReady? {
      var bundle := NewBundle(sha, th.current.bucket, th.current.key, th.staged.data, th.write, seen.clientNow);
      CommandStep(sha, w, CompleteArchiveObject(CommitRequest(th.current, bundle, th.write)), seen);
    }
  }

  lemma ArchiveFinishStep(sha: Sha, w: World, th: Thread, seen: Observation)
    requires Enumerates(seen.order, w.meta.objects)
    requires FinishingArchive(th)
    requires WorldOk(sha, w)
    ensures StepOk(sha, w, StepArchiveFinish(w, th, seen).0, StepArchiveFinish(w, th, seen).1)
  {
    if th.ArchiveFinishWrite? {
      CommandStep(sha, w, UpdateArchiveTask(th.claim), seen);
    }
  }

  lemma RecallTakeStep(sha: Sha, w: World, th: Thread, seen: Observation)
    requires Enumerates(seen.order, w.meta.objects)
    requires th.RecallClaimWrite? || th.RecallMarkObject?
    requires WorldOk(sha, w) && ThreadOk(sha, w.meta.archiveBundles, th)
    ensures StepOk(sha, w, StepRecallClaim(w, th, seen).0, StepRecallClaim(w, th, seen).1)
  {
    var c := if th.RecallClaimWrite? then UpdateRecallTask(th.task)
             else UpdateRestoreStatus(th.task.bucket, th.task.key, RESTORE_IN_PROGRESS, th.task.expireAt);
    CommandStep(sha, w, c, seen);
    GrowthKeepsThread(sha, w.meta.archiveBundles, Effect(w.meta, c, seen).archiveBundles, th);
  }

  lemma RecallClaimStep(sha: Sha, w: World, th: Thread, seen: Observation)
    requires Enumerates(seen.order, w.meta.objects)
    requires ClaimingRecall(th)
    requires WorldOk(sha, w) && ThreadOk(sha, w.meta.archiveBundles, th)
    ensures StepOk(sha, w, StepRecallClaim(w, th, seen).0, StepRecallClaim(w, th, seen).1)
  {
    if th.RecallStart? {
      CommandStep(sha, w, PutRecallTask(th.task), seen);
    } else if th.RecallClaimRead? {
      assert th.taskId in w.meta.recallTasks ==> TaskOk(w.meta.archiveBundles, w.meta.recallTasks[th.taskId]);
    } else {
      RecallTakeStep(sha, w, th, seen);
    }
  }

  lemma RecallReportStep(sha: Sha, w: World, th: Thread, seen: Observation)
    requires Enumerates(seen.order, w.meta.objects)
    requires th.RecallStored? || th.RecallDone?
    requires WorldOk(sha, w) && ThreadOk(sha, w.meta.archiveBundles, th)
    ensures StepOk(sha, w, StepRecall(sha, w, th, seen).0, StepRecall(sha, w, th, seen).1)
  {
    if th.RecallStored? {
      CommandStep(sha, w, UpdateRecallTask(th.task.(status := RESTORE_COMPLETED, completedAt := Some(seen.clientNow),
                                                    error := None)), seen);
    } else {
      CommandStep(sha, w, UpdateRestoreStatus(th.task.bucket, th.task.key, RESTORE_COMPLETED,
                                              if th.task.expireAt.Some? then th.task.expireAt else Some(seen.expireAt)),
                  seen);
    }
  }

  lemma RecallStep(sha: Sha, w: World, th: Thread, seen: Observation)
    requires Enumerates(seen.order, w.meta.objects)
    requires Recalling(th)
    requires WorldOk(sha, w) && ThreadOk(sha, w.meta.archiveBundles, th)
    ensures StepOk(sha, w, StepRecall(sha, w, th, seen).0, StepRecall(sha, w, th, seen).1)
  {
    if th.RecallClaimed? {
      HeadIsOk(w.meta, seen, th.task.bucket, th.task.key);
    } else if th.RecallVerified? {
      assert DataOk(sha, w.meta.archiveBundles, KeyOf(th.found), th.data);
    } else if th.RecallStored? || th.RecallDone? {
      RecallReportStep(sha, w, th, seen);
    }
  }

  lemma RecallGiveUpStep(sha: Sha, w: World, th: Thread, seen: Observation)
    requires Enumerates(seen.order, w.meta.objects)
    requires th.RecallFail? || th.RecallRetry?
    requires WorldOk(sha, w)
    ensures StepOk(sha, w, StepRecallFail(w, th, seen).0, StepRecallFail(w, th, seen).1)
  {
    if th.taskId in w.meta.recallTasks {
      assert TaskOk(w.meta.archiveBundles, w.meta.recallTasks[th.taskId]);
    }
  }

  lemma RecallFailStep(sha: Sha, w: World, th: Thread, seen: Observation)
    requires Enumerates(seen.order, w.meta.objects)
    requires FailingRecall(th)
    requires WorldOk(sha, w) && ThreadOk(sha, w.meta.archiveBundles, th)
    ensures StepOk(sha, w, StepRecallFail(w, th, seen).0, StepRecallFail(w, th, seen).1)
  {
    if th.RecallUpdate? {
      CommandStep(sha, w, UpdateRecallTask(th.task), seen);
    } else if th.RecallUpdateObject? {
      CommandStep(sha, w, UpdateRestoreStatus(th.bucket, th.key, th.status, th.expireAt), seen);
    } else {
      RecallGiveUpStep(sha, w, th, seen);
    }
  }

  lemma ClientStep(sha: Sha, w: World, th: Thread, seen: Observation)
    requires PrintsDigests(sha) && Enumerates(seen.order, w.meta.objects)
    requires Putting(th) || Deleting(th) || Restoring(th) || Getting(th)
    requires WorldOk(sha, w) && ThreadOk(sha, w.meta.archiveBundles, th)
    ensures StepOk(sha, w, StepClient(sha, w, th, seen).0, StepClient(sha, w, th, seen).1)
  {
    if Putting(th) {
      PutStep(sha, w, th, seen);
    } else if Deleting(th) {
      DeleteStep(sha, w, th, seen);
    } else if Restoring(th) {
      RestoreStep(sha, w, th, seen);
    } else {
      GetStep(sha, w, th, seen);
    }
  }

  lemma ArchiverStep(sha: Sha, w: World, th: Thread, seen: Observation)
    requires PrintsDigests(sha) && Enumerates(seen.order, w.meta.objects)
    requires ClaimingArchive(th) || Archiving(th) || FinishingArchive(th)
    requires WorldOk(sha, w) && ThreadOk(sha, w.meta.archiveBundles, th)
    ensures StepOk(sha, w, StepArchiver(sha, w, th, seen).0, StepArchiver(sha, w, th, seen).1)
  {
    if ClaimingArchive(th) {
      ArchiveClaimStep(sha, w, th, seen);
    } else if Archiving(th) {
      ArchiveWriteStep(sha, w, th, seen);
    } else {
      ArchiveFinishStep(sha, w, th, seen);
    }
  }

  lemma RecallerStep(sha: Sha, w: World, th: Thread, seen: Observation)
    requires PrintsDigests(sha) && Enumerates(seen.order, w.meta.objects)
    requires ClaimingRecall(th) || Recalling(th) || FailingRecall(th)
    requires WorldOk(sha, w) && ThreadOk(sha, w.meta.archiveBundles, th)
    ensures StepOk(sha, w, StepRecaller(sha, w, th, seen).0, StepRecaller(sha, w, th, seen).1)
  {
    if ClaimingRecall(th) {
      RecallClaimStep(sha, w, th, seen);
    } else if Recalling(th) {
      RecallStep(sha, w, th, seen);
    } else {
      RecallFailStep(sha, w, th, seen);
    }
  }

  lemma ThreadStep(sha: Sha, w: World, th: Thread, seen: Observation)
    requires PrintsDigests(sha) && Enumerates(seen.order, w.meta.objects)
    requires WorldOk(sha, w) && ThreadOk(sha, w.meta.archiveBundles, th)
    ensures StepOk(sha, w, StepThread(sha, w, th, seen).0, StepThread(sha, w, th, seen).1)
  {
    if Putting(th) || Deleting(th) || Restoring(th) || Getting(th) {
      ClientStep(sha, w, th, seen);
    } else if ClaimingArchive(th) || Archiving(th) || FinishingArchive(th) {
      ArchiverStep(sha, w, th, seen);
    } else if ClaimingRecall(th) || Recalling(th) || FailingRecall(th) {
      RecallerStep(sha, w, th, seen);
    }
  }

  // --------------------------------------------------------------------- runs

  /** The stepping thread ends in `th`, all others carry over. */
  lemma InterleavingKeepsWorld(sha: Sha, w: World, next: World, t: nat, th: Thread)
    requires WorldOk(sha, w) && StepOk(sha, w, next, th)
    ensures WorldOk(sha, next.(threads := w.threads[t := th]))
  {
    GrowthKeepsThreads(sha, w.meta.archiveBundles, next.meta.archiveBundles, w.threads);
  }

  lemma AdministrationKeepsWorld(sha: Sha, w: World, c: Command, seen: Observation)
    requires Enumerates(seen.order, w.meta.objects) && Administrative(c)
    requires WorldOk(sha, w)
    ensures var m := Effect(w.meta, c, seen);
            WorldOk(sha, w.(meta := m)) && Grows(w.meta.archiveBundles, m.archiveBundles)
  {
    CommandStep(sha, w, c, seen);
    GrowthKeepsThreads(sha, w.meta.archiveBundles, Effect(w.meta, c, seen).archiveBundles, w.threads);
  }

  lemma FailureKeepsThread(sha: Sha, bundles: Bundles, th: Thread, retriable: bool)
    requires ThreadOk(sha, bundles, th)
    ensures ThreadOk(sha, bundles, AfterFailure(th, retriable))
  {}

  lemma ThreadUpdateKeepsWorld(sha: Sha, w: World, t: nat, th: Thread)
    requires WorldOk(sha, w) && ThreadOk(sha, w.meta.archiveBundles, th)
    ensures WorldOk(sha, w.(threads := w.threads[t := th]))
  {}

  /** Threads come, fail and go, and cache entries vanish, without touching the metadata. */
  lemma QuietEventKeepsWorld(sha: Sha, w: World, e: Event)
    requires WorldOk(sha, w)
    requires !e.Step? && !e.ReplyLost? && !e.Administer?
    ensures WorldOk(sha, Next(sha, w, e)) && Next(sha, w, e).meta == w.meta
  {
    if e.Spawn? {
      if IsStart(e.start) {
        ThreadUpdateKeepsWorld(sha, w, e.thread, e.start);
      }
    } else if e.SpawnRecall? {
      if e.taskId in w.meta.recallTasks {
        assert TaskOk(w.meta.archiveBundles, w.meta.recallTasks[e.taskId]);
        ThreadUpdateKeepsWorld(sha, w, e.thread, RecallStart(w.meta.recallTasks[e.taskId]));
      }
    } else if e.CallFails? {
      if e.thread in w.threads {
        FailureKeepsThread(sha, w.meta.archiveBundles, w.threads[e.thread], e.retriable);
        ThreadUpdateKeepsWorld(sha, w, e.thread, AfterFailure(w.threads[e.thread], e.retriable));
      }
    }
  }

  lemma StepKeepsWorld(sha: Sha, w: World, t: nat, seen: Observation, lost: bool, retriable: bool)
    requires PrintsDigests(sha) && Enumerates(seen.order, w.meta.objects)
    requires WorldOk(sha, w) && t in w.threads
    ensures var e := if lost then ReplyLost(t, seen, retriable) else Step(t, seen);
            && WorldOk(sha, Next(sha, w, e))
            && Grows(w.meta.archiveBundles, Next(sha, w, e).meta.archiveBundles)
  {
    var th := w.threads[t];
    ThreadStep(sha, w, th, seen);
    var (next, th') := StepThread(sha, w, th, seen);
    if lost {
      FailureKeepsThread(sha, next.meta.archiveBundles, th, retriable);
      InterleavingKeepsWorld(sha, w, next, t, AfterFailure(th, retriable));
    } else {
      InterleavingKeepsWorld(sha, w, next, t, th');
    }
  }

  /** Every event keeps the invariant and every recorded bundle. */
  lemma EventKeepsWorld(sha: Sha, w: World, e: Event)
    requires PrintsDigests(sha) && WorldOk(sha, w)
    ensures WorldOk(sha, Next(sha, w, e))
    ensures Grows(w.meta.archiveBundles, Next(sha, w, e).meta.archiveBundles)
  {
    if e.Step? || e.ReplyLost? {
      if e.thread in w.threads && Enumerates(e.seen.order, w.meta.objects) {
        StepKeepsWorld(sha, w, e.thread, e.seen, e.ReplyLost?, e.ReplyLost? && e.retriable);
      }
    } else if e.Administer? {
      if Administrative(e.command) && Enumerates(e.seen.order, w.meta.objects) {
        AdministrationKeepsWorld(sha, w, e.command, e.seen);
      }
    } else {
      QuietEventKeepsWorld(sha, w, e);
    }
  }

  lemma {:induction false} RunKeepsWorld(sha: Sha, w: World, events: seq<Event>)
    requires PrintsDigests(sha) && WorldOk(sha, w)
    ensures WorldOk(sha, RunEvents(sha, w, events))
    ensures Grows(w.meta.archiveBundles, RunEvents(sha, w, events).meta.archiveBundles)
    decreases |events|
  {
    if events != [] {
      EventKeepsWorld(sha, w, events[0]);
      RunKeepsWorld(sha, Next(sha, w, events[0]), events[1..]);
    }
  }

  /** In every interleaving, a finished GET holds bytes of the recorded checksum and size. */
  lemma GetReturnsRecordedBytes(sha: Sha, events: seq<Event>, t: nat)
    requires PrintsDigests(sha)
    requires t in RunEvents(sha, EMPTY_WORLD, events).threads
    requires RunEvents(sha, EMPTY_WORLD, events).threads[t].GetDone?
    ensures var done := RunEvents(sha, EMPTY_WORLD, events).threads[t];
            sha(done.data) == done.found.checksum && |done.data| == done.found.size
  {
    RunKeepsWorld(sha, EMPTY_WORLD, events);
  }

  /**
   In every reachable state an archived object names a bundle whose single entry is that
   object, and the same bundle is still recorded, unchanged, however the run goes on.
   */
  lemma ArchivedObjectNamesItsBundle(sha: Sha, events: seq<Event>, later: seq<Event>, k: ObjectKey)
    requires PrintsDigests(sha)
    requires var m := RunEvents(sha, EMPTY_WORLD, events).meta;
             k in m.objects && m.objects[k].storageClass == COLD
    ensures var w := RunEvents(sha, EMPTY_WORLD, events);
            var o := w.meta.objects[k];
            && o.archiveId.Some? && o.archiveId.value in w.meta.archiveBundles
            && o.tapeBlockOffset.Some?
            && (var bundle := w.meta.archiveBundles[o.archiveId.value];
                && bundle.entries == [BundleEntry(o.bucket, o.key, o.versionId, o.size, 0, o.tapeBlockOffset.value,
                                                  o.checksum)]
                && o.tapeId == Some(bundle.tapeId)
                && (var after := RunEvents(sha, w, later).meta.archiveBundles;
                    o.archiveId.value in after && after[o.archiveId.value] == bundle))
  {
    var w := RunEvents(sha, EMPTY_WORLD, events);
    RunKeepsWorld(sha, EMPTY_WORLD, events);
    RunKeepsWorld(sha, w, later);
    assert ObjectOk(w.meta.archiveBundles, k, w.meta.objects[k]);
  }

  /** A key that was archived once is never archived with other content or elsewhere. */
  lemma ArchivedContentIsFinal(sha: Sha, events: seq<Event>, later: seq<Event>, k: ObjectKey)
    requires PrintsDigests(sha)
    requires var w := RunEvents(sha, EMPTY_WORLD, events);
             k in w.meta.objects && w.meta.objects[k].storageClass == COLD
    requires var w := RunEvents(sha, EMPTY_WORLD, events); var w' := RunEvents(sha, w, later);
             k in w'.meta.objects && w'.meta.objects[k].storageClass == COLD
    ensures var w := RunEvents(sha, EMPTY_WORLD, events); var w' := RunEvents(sha, w, later);
            var o := w.meta.objects[k]; var o' := w'.meta.objects[k];
            && o'.size == o.size && o'.checksum == o.checksum
            && o'.tapeId == o.tapeId && o'.tapeBlockOffset == o.tapeBlockOffset
  {
    var w := RunEvents(sha, EMPTY_WORLD, events);
    RunKeepsWorld(sha, EMPTY_WORLD, events);
    RunKeepsWorld(sha, w, later);
    assert ObjectOk(w.meta.archiveBundles, k, w.meta.objects[k]);
    var w' := RunEvents(sha, w, later);
    assert ObjectOk(w'.meta.archiveBundles, k, w'.meta.objects[k]);
  }
}
