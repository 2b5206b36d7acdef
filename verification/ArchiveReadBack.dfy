/**
 The archive protocol does its work: from every reachable world, a body that is put under a key without an archive
 history can be archived, restored, recalled and read back, byte for byte, whatever else the store holds and
 wherever the other threads stand.
 */
module ArchiveReadBack {
  import opened Basics
  import opened MetadataTypes
  import opened MetadataSpec
  import opened ArchiveProtocol
  import opened ArchiveSafety

  // ------------------------------------------------------------ reachability

  ghost predicate Reaches(sha: Sha, from: World, to: World) {
    exists events :: RunEvents(sha, from, events) == to
  }

  lemma {:induction false} RunOneMore(sha: Sha, w: World, events: seq<Event>, e: Event)
    ensures RunEvents(sha, w, events + [e]) == Next(sha, RunEvents(sha, w, events), e)
    decreases |events|
  {
    if events == [] {
      assert events + [e] == [e];
      assert RunEvents(sha, Next(sha, w, e), []) == Next(sha, w, e);
    } else {
      assert (events + [e])[1..] == events[1..] + [e];
      RunOneMore(sha, Next(sha, w, events[0]), events[1..], e);
    }
  }

  /** The world is reached from `from` and satisfies the archive invariant. */
  ghost predicate Along(sha: Sha, from: World, w: World) {
    PrintsDigests(sha) && WorldOk(sha, w) && Reaches(sha, from, w)
  }

  lemma Continue(sha: Sha, from: World, w: World, e: Event) returns (w': World)
    requires Along(sha, from, w)
    ensures w' == Next(sha, w, e) && Along(sha, from, w')
  {
    w' := Next(sha, w, e);
    var events :| RunEvents(sha, from, events) == w;
    RunOneMore(sha, from, events, e);
    EventKeepsWorld(sha, w, e);
  }

  /** The world after thread `t` stepped to `th`, with this metadata. */
  ghost function Stepped(w: World, t: nat, m: MetadataState, th: Thread): World {
    w.(meta := m, threads := w.threads[t := th])
  }

  // ------------------------------------------------------------- one object

  /** The store holds this object, among any others. */
  ghost predicate Keeps(m: MetadataState, o: ObjectMetadata) {
    KeyOf(o) in m.objects && m.objects[KeyOf(o)] == o && o.versionId == None
  }

  lemma {:induction false} LatestFinds(objects: map<ObjectKey, ObjectMetadata>, order: seq<ObjectKey>,
                                       bucket: string, key: string, k: ObjectKey)
    requires forall j :: j in order ==> j in objects
    requires k in order && Matches(k, bucket, key)
    ensures Latest(objects, order, bucket, key).Some?
  {
    var n := |order| - 1;
    if order[n] != k {
      LatestFinds(objects, order[..n], bucket, key, k);
    }
  }

  /** In a store of version-less objects every lookup of a key finds its object, whatever the iteration order. */
  lemma Finds(m: MetadataState, o: ObjectMetadata, seen: Observation)
    requires MetaOk(m) && Keeps(m, o) && Enumerates(seen.order, m.objects)
    ensures Find(m.objects, seen.order, o.bucket, o.key, None) == Some(KeyOf(o))
    ensures Head(m, seen, o.bucket, o.key) == Some(o)
  {
    LatestFinds(m.objects, seen.order, o.bucket, o.key, KeyOf(o));
    FoundMatches(m.objects, seen.order, o.bucket, o.key);
    var k := Find(m.objects, seen.order, o.bucket, o.key, None).value;
    assert ObjectOk(m.archiveBundles, k, m.objects[k]);
  }

  ghost function WithObject(m: MetadataState, o: ObjectMetadata): MetadataState {
    m.(objects := m.objects[KeyOf(o) := o])
  }

  function WithRestore(o: ObjectMetadata, status: int, expireAt: Option<Timestamp>, now: Timestamp): ObjectMetadata {
    o.(restoreStatus := Some(status), restoreExpireAt := expireAt, updatedAt := Some(now))
  }

  lemma StatusRuns(m: MetadataState, o: ObjectMetadata, status: int, expireAt: Option<Timestamp>, seen: Observation)
    requires MetaOk(m) && Keeps(m, o) && Enumerates(seen.order, m.objects)
    requires ValidateRestore(o.restoreStatus, status) == Done
    ensures Run(m, UpdateRestoreStatus(o.bucket, o.key, status, expireAt), seen)
            == Ok(WithObject(m, WithRestore(o, status, expireAt, seen.serverNow)))
  {
    Finds(m, o, seen);
  }

  // --------------------------------------------------------------------- PUT

  /** The object as its PUT leaves it. */
  ghost predicate Pending(sha: Sha, o: ObjectMetadata, body: seq<Byte>) {
    && o.storageClass == COLD_PENDING && o.size == |body| && o.checksum == sha(body)
    && o.restoreStatus == None && o.updatedAt.Some?
  }

  function StagedBody(sha: Sha, bucket: string, key: string, body: seq<Byte>): Staged {
    Staged(bucket, key, None, |body|, Some(sha(body)), body)
  }

  /** A PUT into an existing bucket records a pending object and changes nothing else that matters here. */
  lemma PutRecords(sha: Sha, w: World, t: nat, seen: Observation, bucket: string, key: string, body: seq<Byte>)
    requires t in w.threads && w.threads[t] == PutStaged(bucket, key, body, None)
    requires Enumerates(seen.order, w.meta.objects) && bucket in w.meta.buckets
    ensures var w' := Next(sha, w, Step(t, seen));
            var o := NewObject(bucket, key, |body|, sha(body), None, seen.clientNow).(updatedAt := Some(seen.serverNow));
            && w'.meta.objects == w.meta.objects[At(bucket, key) := o]
            && w'.meta.archiveTasks == w.meta.archiveTasks && w'.meta.recallTasks == w.meta.recallTasks
            && w'.meta.archiveBundles == w.meta.archiveBundles && w'.meta.buckets.Keys == w.meta.buckets.Keys
            && w' == Stepped(w, t, w'.meta, Idle)
  {}

  // ----------------------------------------------------------------- archive

  lemma ArchiveFindsPending(sha: Sha, w: World, t: nat, seen: Observation, o: ObjectMetadata, tapeId: string)
    requires MetaOk(w.meta) && Keeps(w.meta, o) && Enumerates(seen.order, w.meta.objects)
    requires o.storageClass == COLD_PENDING
    requires t in w.threads && w.threads[t] == ArchiveStart(o.bucket, o.key, tapeId)
    ensures Next(sha, w, Step(t, seen))
            == Stepped(w, t, w.meta, ArchiveClaim(o, NewArchiveTask(o, tapeId, seen.clientNow)))
  {
    Finds(w.meta, o, seen);
  }

  lemma ArchiveTaskStored(sha: Sha, w: World, t: nat, seen: Observation, o: ObjectMetadata, task: ArchiveTask)
    requires Enumerates(seen.order, w.meta.objects) && task.id !in w.meta.archiveTasks && task.createdAt.Some?
    requires t in w.threads && w.threads[t] == ArchiveClaim(o, task)
    ensures Next(sha, w, Step(t, seen))
            == Stepped(w, t, w.meta.(archiveTasks := w.meta.archiveTasks[task.id := task]), ArchiveClaimRead(o, task.id))
  {}

  function StartedTask(task: ArchiveTask, now: Timestamp): ArchiveTask {
    task.(status := TASK_IN_PROGRESS, error := None, startedAt := Some(now))
  }

  lemma ArchiveTaskRead(sha: Sha, w: World, t: nat, seen: Observation, o: ObjectMetadata, task: ArchiveTask)
    requires Enumerates(seen.order, w.meta.objects)
    requires task.id in w.meta.archiveTasks && w.meta.archiveTasks[task.id] == task && task.status == TASK_PENDING
    requires t in w.threads && w.threads[t] == ArchiveClaimRead(o, task.id)
    ensures Next(sha, w, Step(t, seen)) == Stepped(w, t, w.meta, ArchiveClaimWrite(o, StartedTask(task, seen.clientNow)))
  {}

  lemma ArchiveTaskTaken(sha: Sha, w: World, t: nat, seen: Observation, o: ObjectMetadata, task: ArchiveTask)
    requires Enumerates(seen.order, w.meta.objects) && task.status == TASK_IN_PROGRESS
    requires task.id in w.meta.archiveTasks && w.meta.archiveTasks[task.id].status == TASK_PENDING
    requires t in w.threads && w.threads[t] == ArchiveClaimWrite(o, task)
    ensures Next(sha, w, Step(t, seen))
            == Stepped(w, t, w.meta.(archiveTasks := w.meta.archiveTasks[task.id := task]), ArchiveClaimed(o, task.id))
  {}

  lemma ArchiveReadsStaging(sha: Sha, w: World, t: nat, seen: Observation, o: ObjectMetadata, body: seq<Byte>, id: string)
    requires PrintsDigests(sha) && Enumerates(seen.order, w.meta.objects)
    requires o.versionId == None && Pending(sha, o, body)
    requires KeyOf(o) in w.staging && w.staging[KeyOf(o)] == StagedBody(sha, o.bucket, o.key, body)
    requires t in w.threads && w.threads[t] == ArchiveClaimed(o, id)
    ensures StagedMatches(sha, o, w.staging[KeyOf(o)])
    ensures Next(sha, w, Step(t, seen)) == Stepped(w, t, w.meta, ArchiveStaged(w.staging[KeyOf(o)], id))
  {
    assert IsDigest(sha(body));
    DigestIsTrimmed(sha(body));
    DigestsMatchExactly(sha(body), sha(body));
  }

  lemma ArchiveWritesTape(sha: Sha, w: World, t: nat, seen: Observation, staged: Staged, id: string)
    requires Enumerates(seen.order, w.meta.objects) && seen.tapeWrite.bytesWritten == |staged.data|
    requires t in w.threads && w.threads[t] == ArchiveStaged(staged, id)
    ensures Next(sha, w, Step(t, seen)) == Stepped(w, t, w.meta, ArchiveWritten(staged, seen.tapeWrite, id))
  {}

  lemma ArchiveRechecks(sha: Sha, w: World, t: nat, seen: Observation, o: ObjectMetadata, staged: Staged,
                        write: TapeWrite, id: string)
    requires MetaOk(w.meta) && Keeps(w.meta, o) && Enumerates(seen.order, w.meta.objects)
    requires o.storageClass == COLD_PENDING && StagedMatches(sha, o, staged)
    requires t in w.threads && w.threads[t] == ArchiveWritten(staged, write, id)
    ensures Next(sha, w, Step(t, seen)) == Stepped(w, t, w.meta, ArchiveReady(o, staged, write, id))
  {
    Finds(w.meta, o, seen);
  }

  function ArchivedObject(o: ObjectMetadata, write: TapeWrite, now: Timestamp): ObjectMetadata {
    o.(storageClass := COLD, archiveId := Some(BundleIdFor(o.bucket, o.key)), tapeId := Some(write.tapeId),
       tapeSet := write.tapeSet, tapeBlockOffset := Some(write.filemarkStart), updatedAt := Some(now))
  }

  lemma CommitRuns(m: MetadataState, o: ObjectMetadata, bundle: ArchiveBundle, write: TapeWrite, seen: Observation)
    requires MetaOk(m) && Keeps(m, o) && o.updatedAt.Some? && Enumerates(seen.order, m.objects)
    requires bundle.id == BundleIdFor(o.bucket, o.key) && bundle.id !in m.archiveBundles
    requires bundle.tapeId == write.tapeId && bundle.tapeSet == write.tapeSet
    ensures Run(m, CompleteArchiveObject(CommitRequest(o, bundle, write)), seen)
            == Ok(WithObject(m, ArchivedObject(o, write, seen.serverNow)).(
                    archiveBundles := m.archiveBundles[bundle.id := bundle]))
  {
    Finds(m, o, seen);
    assert |bundle.id| > 0;
  }

  /** The commit turns the object Cold at the place that the tape reported. */
  lemma ArchiveCommits(sha: Sha, w: World, t: nat, seen: Observation, o: ObjectMetadata, staged: Staged,
                       write: TapeWrite, id: string)
    requires MetaOk(w.meta) && Keeps(w.meta, o) && o.updatedAt.Some? && Enumerates(seen.order, w.meta.objects)
    requires BundleIdFor(o.bucket, o.key) !in w.meta.archiveBundles
    requires t in w.threads && w.threads[t] == ArchiveReady(o, staged, write, id)
    ensures var bundle := NewBundle(sha, o.bucket, o.key, staged.data, write, seen.clientNow);
            Next(sha, w, Step(t, seen))
            == Stepped(w, t, WithObject(w.meta, ArchivedObject(o, write, seen.serverNow)).(
                         archiveBundles := w.meta.archiveBundles[bundle.id := bundle]),
                       ArchiveCommitted(o.bucket, o.key, write, id))
  {
    CommitRuns(w.meta, o, NewBundle(sha, o.bucket, o.key, staged.data, write, seen.clientNow), write, seen);
  }

  // ----------------------------------------------------------------- restore

  lemma RestoreFinds(sha: Sha, w: World, t: nat, seen: Observation, o: ObjectMetadata)
    requires MetaOk(w.meta) && Keeps(w.meta, o) && MayRestore(o, 0) && Enumerates(seen.order, w.meta.objects)
    requires t in w.threads && w.threads[t] == RestoreStart(o.bucket, o.key, 0, 1)
    ensures Next(sha, w, Step(t, seen)) == Stepped(w, t, w.meta, RestoreRead(o, 0, 1))
  {
    Finds(w.meta, o, seen);
  }

  lemma RestoreMarks(sha: Sha, w: World, t: nat, seen: Observation, o: ObjectMetadata)
    requires MetaOk(w.meta) && Keeps(w.meta, o) && MayRestore(o, 0) && Enumerates(seen.order, w.meta.objects)
    requires o.restoreStatus == None && t in w.threads && w.threads[t] == RestoreRead(o, 0, 1)
    ensures Next(sha, w, Step(t, seen))
            == Stepped(w, t, WithObject(w.meta, WithRestore(o, RESTORE_PENDING, Some(seen.expireAt), seen.serverNow)),
                       RestoreMarked(NewRecallTask(o, 0, 1, seen.expireAt, seen.clientNow)))
  {
    StatusRuns(w.meta, o, RESTORE_PENDING, Some(seen.expireAt), seen);
  }

  lemma RestoreQueues(sha: Sha, w: World, t: nat, seen: Observation, task: RecallTask)
    requires Enumerates(seen.order, w.meta.objects) && task.id !in w.meta.recallTasks && task.createdAt.Some?
    requires t in w.threads && w.threads[t] == RestoreMarked(task)
    ensures Next(sha, w, Step(t, seen))
            == Stepped(w, t, w.meta.(recallTasks := w.meta.recallTasks[task.id := task]), Idle)
  {}

  // ------------------------------------------------------------------ recall

  function ClaimedTask(task: RecallTask, now: Timestamp): RecallTask {
    task.(status := RESTORE_IN_PROGRESS, error := None, startedAt := Some(now))
  }

  lemma RecallOffers(sha: Sha, w: World, t: nat, seen: Observation, task: RecallTask)
    requires Enumerates(seen.order, w.meta.objects)
    requires task.id in w.meta.recallTasks && w.meta.recallTasks[task.id] == task
    requires t in w.threads && w.threads[t] == RecallStart(task)
    ensures Next(sha, w, Step(t, seen)) == Stepped(w, t, w.meta, RecallClaimRead(task.id))
  {}

  lemma RecallReads(sha: Sha, w: World, t: nat, seen: Observation, task: RecallTask)
    requires Enumerates(seen.order, w.meta.objects) && task.status == RESTORE_PENDING
    requires task.id in w.meta.recallTasks && w.meta.recallTasks[task.id] == task
    requires t in w.threads && w.threads[t] == RecallClaimRead(task.id)
    ensures Next(sha, w, Step(t, seen)) == Stepped(w, t, w.meta, RecallClaimWrite(ClaimedTask(task, seen.clientNow)))
  {}

  lemma RecallTakes(sha: Sha, w: World, t: nat, seen: Observation, task: RecallTask)
    requires Enumerates(seen.order, w.meta.objects) && task.status == RESTORE_IN_PROGRESS
    requires task.id in w.meta.recallTasks && w.meta.recallTasks[task.id].status == RESTORE_PENDING
    requires t in w.threads && w.threads[t] == RecallClaimWrite(task)
    ensures Next(sha, w, Step(t, seen))
            == Stepped(w, t, w.meta.(recallTasks := w.meta.recallTasks[task.id := task]), RecallMarkObject(task))
  {}

  lemma RecallMarks(sha: Sha, w: World, t: nat, seen: Observation, task: RecallTask, o: ObjectMetadata)
    requires MetaOk(w.meta) && Keeps(w.meta, o) && Enumerates(seen.order, w.meta.objects)
    requires o.restoreStatus == Some(RESTORE_PENDING) && task.bucket == o.bucket && task.key == o.key
    requires t in w.threads && w.threads[t] == RecallMarkObject(task)
    ensures Next(sha, w, Step(t, seen))
            == Stepped(w, t, WithObject(w.meta, WithRestore(o, RESTORE_IN_PROGRESS, task.expireAt, seen.serverNow)),
                       RecallClaimed(task))
  {
    StatusRuns(w.meta, o, RESTORE_IN_PROGRESS, task.expireAt, seen);
  }

  /** The recall task is for the body of this archived object. */
  ghost predicate Recalls(sha: Sha, task: RecallTask, o: ObjectMetadata, body: seq<Byte>) {
    && task.bucket == o.bucket && task.key == o.key && o.archiveId == Some(task.archiveId)
    && task.tapeBlockOffset < U32 && task.objectSize == |body| && task.checksum == sha(body)
  }

  lemma RecallChecks(sha: Sha, w: World, t: nat, seen: Observation, task: RecallTask, o: ObjectMetadata,
                     body: seq<Byte>)
    requires MetaOk(w.meta) && Keeps(w.meta, o) && Enumerates(seen.order, w.meta.objects)
    requires o.storageClass == COLD && Recalls(sha, task, o, body)
    requires t in w.threads && w.threads[t] == RecallClaimed(task)
    ensures Next(sha, w, Step(t, seen)) == Stepped(w, t, w.meta, RecallChecked(o, task))
  {
    Finds(w.meta, o, seen);
  }

  lemma RecallVerifies(sha: Sha, w: World, t: nat, seen: Observation, task: RecallTask, o: ObjectMetadata,
                       body: seq<Byte>)
    requires Enumerates(seen.order, w.meta.objects) && Recalls(sha, task, o, body) && seen.tapeData == body
    requires t in w.threads && w.threads[t] == RecallChecked(o, task)
    ensures Next(sha, w, Step(t, seen)) == Stepped(w, t, w.meta, RecallVerified(o, task, body))
  {}

  lemma RecallStores(sha: Sha, w: World, t: nat, seen: Observation, task: RecallTask, o: ObjectMetadata,
                     body: seq<Byte>)
    requires Enumerates(seen.order, w.meta.objects)
    requires t in w.threads && w.threads[t] == RecallVerified(o, task, body)
    ensures Next(sha, w, Step(t, seen))
            == Stepped(w, t, w.meta, RecallStored(task)).(restored := w.restored[KeyOf(o) := body])
  {}

  function DoneTask(task: RecallTask, now: Timestamp): RecallTask {
    task.(status := RESTORE_COMPLETED, completedAt := Some(now), error := None)
  }

  lemma RecallCompletes(sha: Sha, w: World, t: nat, seen: Observation, task: RecallTask)
    requires Enumerates(seen.order, w.meta.objects)
    requires task.id in w.meta.recallTasks && w.meta.recallTasks[task.id].status == RESTORE_IN_PROGRESS
    requires t in w.threads && w.threads[t] == RecallStored(task)
    ensures var done := DoneTask(task, seen.clientNow);
            Next(sha, w, Step(t, seen))
            == Stepped(w, t, w.meta.(recallTasks := w.meta.recallTasks[task.id := done]), RecallDone(done))
  {}

  lemma RecallReports(sha: Sha, w: World, t: nat, seen: Observation, task: RecallTask, o: ObjectMetadata)
    requires MetaOk(w.meta) && Keeps(w.meta, o) && Enumerates(seen.order, w.meta.objects)
    requires o.restoreStatus == Some(RESTORE_IN_PROGRESS) && task.bucket == o.bucket && task.key == o.key
    requires t in w.threads && w.threads[t] == RecallDone(task)
    ensures var expireAt := if task.expireAt.Some? then task.expireAt else Some(seen.expireAt);
            Next(sha, w, Step(t, seen))
            == Stepped(w, t, WithObject(w.meta, WithRestore(o, RESTORE_COMPLETED, expireAt, seen.serverNow)), Idle)
  {
    var expireAt := if task.expireAt.Some? then task.expireAt else Some(seen.expireAt);
    StatusRuns(w.meta, o, RESTORE_COMPLETED, expireAt, seen);
  }

  // --------------------------------------------------------------------- GET

  lemma GetFinds(sha: Sha, w: World, t: nat, seen: Observation, o: ObjectMetadata)
    requires MetaOk(w.meta) && Keeps(w.meta, o) && Enumerates(seen.order, w.meta.objects)
    requires o.storageClass == COLD && o.restoreStatus == Some(RESTORE_COMPLETED)
    requires t in w.threads && w.threads[t] == GetStart(o.bucket, o.key)
    ensures Next(sha, w, Step(t, seen)) == Stepped(w, t, w.meta, GetRead(o))
  {
    Finds(w.meta, o, seen);
  }

  lemma GetReads(sha: Sha, w: World, t: nat, seen: Observation, o: ObjectMetadata, body: seq<Byte>)
    requires Enumerates(seen.order, w.meta.objects)
    requires KeyOf(o) in w.restored && w.restored[KeyOf(o)] == body && o.size == |body|
    requires t in w.threads && w.threads[t] == GetRead(o)
    ensures Next(sha, w, Step(t, seen)) == Stepped(w, t, w.meta, GetDone(o, body))
  {}

  // ------------------------------------------------------------------ phases

  lemma {:induction false} FreshThread(used: set<nat>) returns (t: nat)
    ensures t !in used && forall u :: u in used ==> u < t
    decreases |used|
  {
    if used == {} {
      t := 0;
    } else {
      var u :| u in used;
      var v := FreshThread(used - {u});
      t := if v > u then v else u + 1;
      assert forall x :: x in used ==> x == u || x in used - {u};
    }
  }

  /** An observation whose iteration order fits this state. */
  ghost function Look(seen: Observation, m: MetadataState): (r: Observation)
    ensures Enumerates(r.order, m.objects)
    ensures r == seen.(order := r.order)
  {
    seen.(order := Listed(m.objects.Keys))
  }

  lemma Launch(sha: Sha, from: World, w: World, start: Thread) returns (w': World, t: nat)
    requires Along(sha, from, w) && IsStart(start)
    ensures Along(sha, from, w') && t !in w.threads && w' == w.(threads := w.threads[t := start])
  {
    t := FreshThread(w.threads.Keys);
    w' := Continue(sha, from, w, Spawn(t, start));
  }

  lemma StagePhase(sha: Sha, from: World, w: World, seen: Observation, bucket: string, key: string, body: seq<Byte>)
    returns (w': World, t: nat)
    requires Along(sha, from, w)
    ensures Along(sha, from, w') && w'.meta == w.meta && t !in w.threads
    ensures w'.threads == w.threads[t := PutStaged(bucket, key, body, None)]
    ensures w'.staging == w.staging[At(bucket, key) := StagedBody(sha, bucket, key, body)]
  {
    w', t := Launch(sha, from, w, PutStart(bucket, key, body, None));
    w' := Continue(sha, from, w', Step(t, Look(seen, w'.meta)));
  }

  lemma RecordPhase(sha: Sha, from: World, w: World, seen: Observation, t: nat, bucket: string, key: string,
                    body: seq<Byte>) returns (w': World, o: ObjectMetadata)
    requires Along(sha, from, w) && bucket in w.meta.buckets
    requires t in w.threads && w.threads[t] == PutStaged(bucket, key, body, None)
    ensures Along(sha, from, w') && Keeps(w'.meta, o) && KeyOf(o) == At(bucket, key) && Pending(sha, o, body)
    ensures w'.meta.archiveTasks == w.meta.archiveTasks && w'.meta.archiveBundles == w.meta.archiveBundles
    ensures w'.meta.recallTasks == w.meta.recallTasks && w'.meta.buckets.Keys == w.meta.buckets.Keys
    ensures w'.staging == w.staging && w'.threads == w.threads[t := Idle]
  {
    var look := Look(seen, w.meta);
    PutRecords(sha, w, t, look, bucket, key, body);
    o := NewObject(bucket, key, |body|, sha(body), None, look.clientNow).(updatedAt := Some(look.serverNow));
    w' := Continue(sha, from, w, Step(t, look));
  }

  lemma PutPhase(sha: Sha, from: World, w: World, seen: Observation, bucket: string, key: string, body: seq<Byte>)
    returns (w': World, o: ObjectMetadata, t: nat)
    requires Along(sha, from, w) && bucket in w.meta.buckets
    ensures Along(sha, from, w') && Keeps(w'.meta, o) && KeyOf(o) == At(bucket, key) && Pending(sha, o, body)
    ensures At(bucket, key) in w'.staging && w'.staging[At(bucket, key)] == StagedBody(sha, bucket, key, body)
    ensures w'.meta.archiveTasks == w.meta.archiveTasks && w'.meta.archiveBundles == w.meta.archiveBundles
    ensures w'.meta.recallTasks == w.meta.recallTasks && w'.meta.buckets.Keys == w.meta.buckets.Keys
    ensures t !in w.threads && w'.threads == w.threads[t := Idle]
  {
    w', t := StagePhase(sha, from, w, seen, bucket, key, body);
    w', o := RecordPhase(sha, from, w', seen, t, bucket, key, body);
  }

  /** An agent without competitors claims the archive task. */
  lemma ClaimArchivePhase(sha: Sha, from: World, w: World, seen: Observation, o: ObjectMetadata)
    returns (w': World, t: nat)
    requires Along(sha, from, w) && Keeps(w.meta, o) && o.storageClass == COLD_PENDING
    requires BundleIdFor(o.bucket, o.key) !in w.meta.archiveTasks
    ensures Along(sha, from, w') && w'.meta == w.meta.(archiveTasks := w'.meta.archiveTasks)
    ensures w'.staging == w.staging && t in w'.threads
    ensures w'.threads[t] == ArchiveClaimed(o, BundleIdFor(o.bucket, o.key))
  {
    var look := Look(seen, w.meta);
    w', t := Launch(sha, from, w, ArchiveStart(o.bucket, o.key, "tape"));
    var task := NewArchiveTask(o, "tape", look.clientNow);
    ArchiveFindsPending(sha, w', t, look, o, "tape");
    w' := Continue(sha, from, w', Step(t, look));
    ArchiveTaskStored(sha, w', t, look, o, task);
    w' := Continue(sha, from, w', Step(t, look));
    ArchiveTaskRead(sha, w', t, look, o, task);
    w' := Continue(sha, from, w', Step(t, look));
    ArchiveTaskTaken(sha, w', t, look, o, StartedTask(task, look.clientNow));
    w' := Continue(sha, from, w', Step(t, look));
  }

  /** The agent writes the staged body to tape and rechecks the object. */
  lemma WriteTapePhase(sha: Sha, from: World, w: World, seen: Observation, t: nat, o: ObjectMetadata, body: seq<Byte>,
                       id: string) returns (w': World)
    requires Along(sha, from, w) && Keeps(w.meta, o) && Pending(sha, o, body)
    requires KeyOf(o) in w.staging && w.staging[KeyOf(o)] == StagedBody(sha, o.bucket, o.key, body)
    requires t in w.threads && w.threads[t] == ArchiveClaimed(o, id) && seen.tapeWrite.bytesWritten == |body|
    ensures Along(sha, from, w') && w'.meta == w.meta && t in w'.threads
    ensures w'.threads[t] == ArchiveReady(o, StagedBody(sha, o.bucket, o.key, body), seen.tapeWrite, id)
  {
    var look, staged := Look(seen, w.meta), StagedBody(sha, o.bucket, o.key, body);
    ArchiveReadsStaging(sha, w, t, look, o, body, id);
    w' := Continue(sha, from, w, Step(t, look));
    ArchiveWritesTape(sha, w', t, look, staged, id);
    w' := Continue(sha, from, w', Step(t, look));
    ArchiveRechecks(sha, w', t, look, o, staged, seen.tapeWrite, id);
    w' := Continue(sha, from, w', Step(t, look));
  }

  /** What is said about an archived body. */
  ghost predicate ArchivedAs(sha: Sha, o: ObjectMetadata, body: seq<Byte>) {
    && o.storageClass == COLD && o.size == |body| && o.checksum == sha(body)
    && o.archiveId.Some? && o.tapeId.Some? && o.tapeBlockOffset.Some? && o.tapeBlockOffset.value < U32
  }

  lemma ArchivePhase(sha: Sha, from: World, w: World, seen: Observation, t: nat, o: ObjectMetadata, body: seq<Byte>,
                     id: string) returns (w': World, o': ObjectMetadata)
    requires Along(sha, from, w) && Keeps(w.meta, o) && Pending(sha, o, body)
    requires KeyOf(o) in w.staging && w.staging[KeyOf(o)] == StagedBody(sha, o.bucket, o.key, body)
    requires t in w.threads && w.threads[t] == ArchiveClaimed(o, id)
    requires seen.tapeWrite.bytesWritten == |body| && seen.tapeWrite.filemarkStart < U32
    requires BundleIdFor(o.bucket, o.key) !in w.meta.archiveBundles
    ensures Along(sha, from, w') && Keeps(w'.meta, o') && KeyOf(o') == KeyOf(o)
    ensures ArchivedAs(sha, o', body) && o'.restoreStatus == None && w'.meta.recallTasks == w.meta.recallTasks
    ensures w'.meta.buckets == w.meta.buckets
    ensures t in w'.threads && w'.threads[t] == ArchiveCommitted(o.bucket, o.key, seen.tapeWrite, id)
  {
    var look := Look(seen, w.meta);
    w' := WriteTapePhase(sha, from, w, seen, t, o, body, id);
    ArchiveCommits(sha, w', t, look, o, StagedBody(sha, o.bucket, o.key, body), seen.tapeWrite, id);
    w' := Continue(sha, from, w', Step(t, look));
    o' := ArchivedObject(o, seen.tapeWrite, look.serverNow);
  }

  /** A client asks for the archived object; a recall task is queued. */
  lemma RestorePhase(sha: Sha, from: World, w: World, seen: Observation, o: ObjectMetadata, body: seq<Byte>)
    returns (w': World, o': ObjectMetadata, task: RecallTask)
    requires Along(sha, from, w) && Keeps(w.meta, o) && ArchivedAs(sha, o, body) && o.restoreStatus == None
    requires RecallIdFor(o.bucket, o.key) !in w.meta.recallTasks
    ensures Along(sha, from, w') && Keeps(w'.meta, o') && KeyOf(o') == KeyOf(o)
    ensures ArchivedAs(sha, o', body) && o'.restoreStatus == Some(RESTORE_PENDING)
    ensures Recalls(sha, task, o', body) && task.status == RESTORE_PENDING
    ensures task.id in w'.meta.recallTasks && w'.meta.recallTasks[task.id] == task
  {
    var look := Look(seen, w.meta);
    var t;
    w', t := Launch(sha, from, w, RestoreStart(o.bucket, o.key, 0, 1));
    RestoreFinds(sha, w', t, look, o);
    w' := Continue(sha, from, w', Step(t, look));
    RestoreMarks(sha, w', t, look, o);
    w' := Continue(sha, from, w', Step(t, look));
    o' := WithRestore(o, RESTORE_PENDING, Some(look.expireAt), look.serverNow);
    task := NewRecallTask(o, 0, 1, look.expireAt, look.clientNow);
    RestoreQueues(sha, w', t, look, task);
    w' := Continue(sha, from, w', Step(t, look));
  }

  /** A recall agent without competitors claims its recall task and marks the object. */
  lemma ClaimRecallPhase(sha: Sha, from: World, w: World, seen: Observation, o: ObjectMetadata, task: RecallTask)
    returns (w': World, o': ObjectMetadata, t: nat, claimed: RecallTask)
    requires Along(sha, from, w) && Keeps(w.meta, o) && o.restoreStatus == Some(RESTORE_PENDING)
    requires task.id in w.meta.recallTasks && w.meta.recallTasks[task.id] == task && task.status == RESTORE_PENDING
    requires task.bucket == o.bucket && task.key == o.key
    ensures Along(sha, from, w') && Keeps(w'.meta, o')
    ensures claimed == ClaimedTask(task, seen.clientNow)
    ensures o' == WithRestore(o, RESTORE_IN_PROGRESS, task.expireAt, seen.serverNow)
    ensures t in w'.threads && w'.threads[t] == RecallClaimed(claimed)
    ensures claimed.id in w'.meta.recallTasks && w'.meta.recallTasks[claimed.id] == claimed
  {
    var look := Look(seen, w.meta);
    t := FreshThread(w.threads.Keys);
    w' := Continue(sha, from, w, SpawnRecall(t, task.id));
    assert w' == w.(threads := w.threads[t := RecallStart(task)]);
    RecallOffers(sha, w', t, look, task);
    w' := Continue(sha, from, w', Step(t, look));
    RecallReads(sha, w', t, look, task);
    w' := Continue(sha, from, w', Step(t, look));
    claimed := ClaimedTask(task, look.clientNow);
    RecallTakes(sha, w', t, look, claimed);
    w' := Continue(sha, from, w', Step(t, look));
    RecallMarks(sha, w', t, look, claimed, o);
    w' := Continue(sha, from, w', Step(t, look));
    o' := WithRestore(o, RESTORE_IN_PROGRESS, task.expireAt, look.serverNow);
  }

  /** The agent brings the body from tape into the cache. */
  lemma FetchPhase(sha: Sha, from: World, w: World, seen: Observation, t: nat, o: ObjectMetadata, task: RecallTask,
                   body: seq<Byte>) returns (w': World)
    requires Along(sha, from, w) && Keeps(w.meta, o) && o.storageClass == COLD && Recalls(sha, task, o, body)
    requires t in w.threads && w.threads[t] == RecallClaimed(task) && seen.tapeData == body
    ensures Along(sha, from, w') && w'.meta == w.meta
    ensures w'.restored == w.restored[KeyOf(o) := body] && t in w'.threads && w'.threads[t] == RecallStored(task)
  {
    var look := Look(seen, w.meta);
    RecallChecks(sha, w, t, look, task, o, body);
    w' := Continue(sha, from, w, Step(t, look));
    RecallVerifies(sha, w', t, look, task, o, body);
    w' := Continue(sha, from, w', Step(t, look));
    RecallStores(sha, w', t, look, task, o, body);
    w' := Continue(sha, from, w', Step(t, look));
  }

  /** The agent reports the recall as completed. */
  lemma ReportPhase(sha: Sha, from: World, w: World, seen: Observation, t: nat, o: ObjectMetadata, task: RecallTask)
    returns (w': World, o': ObjectMetadata)
    requires Along(sha, from, w) && Keeps(w.meta, o) && o.restoreStatus == Some(RESTORE_IN_PROGRESS)
    requires task.bucket == o.bucket && task.key == o.key
    requires task.id in w.meta.recallTasks && w.meta.recallTasks[task.id].status == RESTORE_IN_PROGRESS
    requires t in w.threads && w.threads[t] == RecallStored(task)
    ensures Along(sha, from, w') && Keeps(w'.meta, o') && w'.restored == w.restored
    ensures o'.restoreStatus == Some(RESTORE_COMPLETED)
    ensures o' == o.(restoreStatus := o'.restoreStatus, restoreExpireAt := o'.restoreExpireAt, updatedAt := o'.updatedAt)
  {
    var look := Look(seen, w.meta);
    var done := DoneTask(task, look.clientNow);
    RecallCompletes(sha, w, t, look, task);
    w' := Continue(sha, from, w, Step(t, look));
    RecallReports(sha, w', t, look, done, o);
    w' := Continue(sha, from, w', Step(t, look));
    o' := WithRestore(o, RESTORE_COMPLETED, if done.expireAt.Some? then done.expireAt else Some(look.expireAt),
                      look.serverNow);
  }

  lemma GetPhase(sha: Sha, from: World, w: World, seen: Observation, o: ObjectMetadata, body: seq<Byte>)
    returns (w': World, t: nat)
    requires Along(sha, from, w) && Keeps(w.meta, o) && o.storageClass == COLD && o.size == |body|
    requires o.restoreStatus == Some(RESTORE_COMPLETED) && KeyOf(o) in w.restored && w.restored[KeyOf(o)] == body
    ensures Along(sha, from, w') && t in w'.threads && w'.threads[t] == GetDone(o, body)
  {
    var look := Look(seen, w.meta);
    w', t := Launch(sha, from, w, GetStart(o.bucket, o.key));
    GetFinds(sha, w', t, look, o);
    w' := Continue(sha, from, w', Step(t, look));
    GetReads(sha, w', t, look, o, body);
    w' := Continue(sha, from, w', Step(t, look));
  }

  // ------------------------------------------------------------- whole runs

  /** The key has no archive history: no bundle and no task carries its id. */
  predicate NeverArchived(m: MetadataState, bucket: string, key: string) {
    && BundleIdFor(bucket, key) !in m.archiveTasks && BundleIdFor(bucket, key) !in m.archiveBundles
    && RecallIdFor(bucket, key) !in m.recallTasks
  }

  lemma PutAndArchive(sha: Sha, from: World, w: World, seen: Observation, bucket: string, key: string, body: seq<Byte>)
    returns (w': World, o: ObjectMetadata)
    requires Along(sha, from, w) && bucket in w.meta.buckets && NeverArchived(w.meta, bucket, key)
    requires seen.tapeWrite.bytesWritten == |body| && seen.tapeWrite.filemarkStart < U32
    ensures Along(sha, from, w') && Keeps(w'.meta, o) && KeyOf(o) == At(bucket, key)
    ensures ArchivedAs(sha, o, body) && o.restoreStatus == None && w'.meta.recallTasks == w.meta.recallTasks
  {
    var pending, t;
    w', pending, t := PutPhase(sha, from, w, seen, bucket, key, body);
    w', t := ClaimArchivePhase(sha, from, w', seen, pending);
    w', o := ArchivePhase(sha, from, w', seen, t, pending, body, BundleIdFor(bucket, key));
  }

  lemma RestoreAndClaim(sha: Sha, from: World, w: World, seen: Observation, o: ObjectMetadata, body: seq<Byte>)
    returns (w': World, o': ObjectMetadata, t: nat, task: RecallTask)
    requires Along(sha, from, w) && Keeps(w.meta, o) && ArchivedAs(sha, o, body) && o.restoreStatus == None
    requires RecallIdFor(o.bucket, o.key) !in w.meta.recallTasks
    ensures Along(sha, from, w') && Keeps(w'.meta, o') && KeyOf(o') == KeyOf(o)
    ensures ArchivedAs(sha, o', body) && o'.restoreStatus == Some(RESTORE_IN_PROGRESS) && Recalls(sha, task, o', body)
    ensures t in w'.threads && w'.threads[t] == RecallClaimed(task)
    ensures task.id in w'.meta.recallTasks && w'.meta.recallTasks[task.id].status == RESTORE_IN_PROGRESS
  {
    var queued;
    w', o', queued := RestorePhase(sha, from, w, seen, o, body);
    w', o', t, task := ClaimRecallPhase(sha, from, w', seen, o', queued);
  }

  lemma FetchAndGet(sha: Sha, from: World, w: World, seen: Observation, t: nat, o: ObjectMetadata, task: RecallTask,
                    body: seq<Byte>) returns (w': World, o': ObjectMetadata, u: nat)
    requires Along(sha, from, w) && Keeps(w.meta, o) && ArchivedAs(sha, o, body) && Recalls(sha, task, o, body)
    requires o.restoreStatus == Some(RESTORE_IN_PROGRESS) && seen.tapeData == body
    requires t in w.threads && w.threads[t] == RecallClaimed(task)
    requires task.id in w.meta.recallTasks && w.meta.recallTasks[task.id].status == RESTORE_IN_PROGRESS
    ensures Along(sha, from, w') && KeyOf(o') == KeyOf(o) && u in w'.threads && w'.threads[u] == GetDone(o', body)
  {
    w' := FetchPhase(sha, from, w, seen, t, o, task, body);
    w', o' := ReportPhase(sha, from, w', seen, t, o, task);
    w', u := GetPhase(sha, from, w', seen, o', body);
  }

  /**
   From every reachable world, for every bucket that exists, every key without an archive history and every body,
   some continuation puts the body, archives it, recalls it and has a GET return it.
   */
  lemma BodyCanBeReadBack(sha: Sha, before: seq<Event>, seen: Observation, bucket: string, key: string, body: seq<Byte>)
    requires PrintsDigests(sha) && seen.tapeData == body
    requires seen.tapeWrite.bytesWritten == |body| && seen.tapeWrite.filemarkStart < U32
    requires var w := RunEvents(sha, EMPTY_WORLD, before);
             bucket in w.meta.buckets && NeverArchived(w.meta, bucket, key)
    ensures var w := RunEvents(sha, EMPTY_WORLD, before);
            exists events, t, o ::
              && t in RunEvents(sha, w, events).threads && KeyOf(o) == At(bucket, key)
              && RunEvents(sha, w, events).threads[t] == GetDone(o, body)
  {
    var w := RunEvents(sha, EMPTY_WORLD, before);
    RunKeepsWorld(sha, EMPTY_WORLD, before);
    assert RunEvents(sha, w, []) == w;
    var w1, o1 := PutAndArchive(sha, w, w, seen, bucket, key, body);
    var w2, o2, t, task := RestoreAndClaim(sha, w, w1, seen, o1, body);
    var w3, o3, u := FetchAndGet(sha, w, w2, seen, t, o2, task, body);
    var events :| RunEvents(sha, w, events) == w3;
  }

  // ----------------------------------------------- a PUT that overlaps a commit

  /** The object waits to be archived, but its staged bytes are gone. */
  ghost predicate Stranded(w: World, k: ObjectKey) {
    k in w.meta.objects && w.meta.objects[k].storageClass == COLD_PENDING && k !in w.staging
  }

  lemma CleanUpForgets(sha: Sha, w: World, t: nat, seen: Observation)
    requires t in w.threads && w.threads[t].ArchiveCommitted? && Enumerates(seen.order, w.meta.objects)
    ensures var w' := Next(sha, w, Step(t, seen));
            w'.meta == w.meta && w'.staging == w.staging - {At(w.threads[t].bucket, w.threads[t].key)}
  {}

  /** After its commit an agent deletes staging by key: this strands the object iff a PUT has made it pending again. */
  lemma CommitStrandsIff(sha: Sha, w: World, t: nat, seen: Observation)
    requires t in w.threads && w.threads[t].ArchiveCommitted? && Enumerates(seen.order, w.meta.objects)
    ensures var k := At(w.threads[t].bucket, w.threads[t].key);
            Stranded(Next(sha, w, Step(t, seen)), k)
            <==> k in w.meta.objects && w.meta.objects[k].storageClass == COLD_PENDING
  {}

  lemma CommitPhase(sha: Sha, from: World, w: World, seen: Observation, bucket: string, key: string, body: seq<Byte>)
    returns (w': World, t: nat)
    requires Along(sha, from, w) && bucket in w.meta.buckets && NeverArchived(w.meta, bucket, key)
    requires seen.tapeWrite.bytesWritten == |body| && seen.tapeWrite.filemarkStart < U32
    ensures Along(sha, from, w') && bucket in w'.meta.buckets && t in w'.threads
    ensures w'.threads[t] == ArchiveCommitted(bucket, key, seen.tapeWrite, BundleIdFor(bucket, key))
  {
    var pending, u, o;
    w', pending, u := PutPhase(sha, from, w, seen, bucket, key, body);
    w', t := ClaimArchivePhase(sha, from, w', seen, pending);
    w', o := ArchivePhase(sha, from, w', seen, t, pending, body, BundleIdFor(bucket, key));
  }

  lemma OverwriteAndCleanUp(sha: Sha, from: World, w: World, seen: Observation, t: nat, bucket: string, key: string,
                            body: seq<Byte>) returns (w': World)
    requires Along(sha, from, w) && bucket in w.meta.buckets && t in w.threads
    requires w.threads[t].ArchiveCommitted? && w.threads[t].bucket == bucket && w.threads[t].key == key
    ensures Along(sha, from, w') && Stranded(w', At(bucket, key))
    ensures w'.meta.objects[At(bucket, key)].checksum == sha(body)
  {
    var o, u;
    w', o, u := PutPhase(sha, from, w, seen, bucket, key, body);
    var look := Look(seen, w'.meta);
    CleanUpForgets(sha, w', t, look);
    w' := Continue(sha, from, w', Step(t, look));
  }

  /** From every reachable world: a PUT of another body between the commit and the clean-up loses its bytes. */
  lemma OverlappingPutIsStranded(sha: Sha, before: seq<Event>, seen: Observation, bucket: string, key: string,
                                 body: seq<Byte>, body': seq<Byte>)
    requires PrintsDigests(sha)
    requires seen.tapeWrite.bytesWritten == |body| && seen.tapeWrite.filemarkStart < U32
    requires var w := RunEvents(sha, EMPTY_WORLD, before);
             bucket in w.meta.buckets && NeverArchived(w.meta, bucket, key)
    ensures var w := RunEvents(sha, EMPTY_WORLD, before); var k := At(bucket, key);
            exists events ::
              && Stranded(RunEvents(sha, w, events), k)
              && RunEvents(sha, w, events).meta.objects[k].checksum == sha(body')
  {
    var w := RunEvents(sha, EMPTY_WORLD, before);
    RunKeepsWorld(sha, EMPTY_WORLD, before);
    assert RunEvents(sha, w, []) == w;
    var w1, t := CommitPhase(sha, w, w, seen, bucket, key, body);
    var w2 := OverwriteAndCleanUp(sha, w, w1, seen, t, bucket, key, body');
    var events :| RunEvents(sha, w, events) == w2;
  }
}
