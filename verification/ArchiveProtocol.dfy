/**
 The scheduler's PUT, DELETE, RESTORE, GET, archive and recall procedures as a
 transition system.  Any number of threads run interleaved; each step is one call
 to the metadata service, the cache or the tape, with the local work that follows
 it.  The metadata service executes commands one at a time.  The tape is
 adversarial: a read may return any bytes.  A call may fail before or after it took
 effect, a thread may crash, and the cache may drop any entry.
 */
module ArchiveProtocol {
  import opened Basics
  import opened MetadataTypes
  import opened MetadataSpec

  // ------------------------------------------------------------- checksums

  predicate IsWhitespace(c: char) {
    var n := c as int;
    9 <= n <= 13 || n == 32 || n == 0x85 || n == 0xA0 || n == 0x1680 || 0x2000 <= n <= 0x200A
    || n == 0x2028 || n == 0x2029 || n == 0x202F || n == 0x205F || n == 0x3000
  }

  function TrimStart(s: string): string {
    if s != "" && IsWhitespace(s[0]) then TrimStart(s[1..]) else s
  }

  function TrimEnd(s: string): string {
    if s != "" && IsWhitespace(s[|s| - 1]) then TrimEnd(s[..|s| - 1]) else s
  }

  function Trim(s: string): string { TrimEnd(TrimStart(s)) }

  function ToLower(c: char): char {
    if 'A' <= c <= 'Z' then (c as int + 32) as char else c
  }

  predicate EqIgnoreCase(a: string, b: string) {
    |a| == |b| && forall i :: 0 <= i < |a| ==> ToLower(a[i]) == ToLower(b[i])
  }

  function StripDigestPrefix(s: string): string {
    if "sha256:" <= s || "SHA256:" <= s then s[7..] else s
  }

  predicate ChecksumMatches(expected: string, computed: string) {
    EqIgnoreCase(StripDigestPrefix(Trim(expected)), computed)
  }

  predicate IsHexDigit(c: char) { '0' <= c <= '9' || 'a' <= c <= 'f' }

  /** A SHA-256 digest as it is printed: 64 lower-case hexadecimal digits. */
  predicate IsDigest(s: string) {
    |s| == 64 && forall i :: 0 <= i < |s| ==> IsHexDigit(s[i])
  }

  type Sha = seq<Byte> -> string

  /** The only fact about the hash: it prints digests.  Collisions are allowed. */
  ghost predicate PrintsDigests(sha: Sha) {
    forall d :: IsDigest(sha(d))
  }

  // -------------------------------------------------------- records and ids

  datatype Staged = Staged(bucket: string, key: string, versionId: Option<string>, size: nat,
                           checksum: Option<string>, data: seq<Byte>)

  datatype TapeWrite = TapeWrite(tapeId: string, tapeSet: seq<string>, filemarkStart: nat, filemarkEnd: nat,
                                 bytesWritten: nat)

  function BundleIdFor(bucket: string, key: string): string { "phase1-bundle:" + bucket + "/" + key }

  function RecallIdFor(bucket: string, key: string): string { "phase1-recall:" + bucket + "/" + key }

  /** The staged bytes are the object's: same identity, size and checksum. */
  predicate StagedMatches(sha: Sha, o: ObjectMetadata, s: Staged) {
    && s.bucket == o.bucket && s.key == o.key && s.versionId == o.versionId
    && s.size == |s.data|
    && o.size == |s.data|
    && (s.checksum.Some? && Trim(s.checksum.value) != "" ==> ChecksumMatches(s.checksum.value, sha(s.data)))
    && (Trim(o.checksum) != "" ==> ChecksumMatches(Trim(o.checksum), sha(s.data)))
  }

  function NewObject(bucket: string, key: string, size: nat, checksum: string, contentType: Option<string>,
                     now: Timestamp): ObjectMetadata
  {
    ObjectMetadata(bucket, key, None, size, checksum, contentType, Some(checksum), COLD_PENDING,
                   None, None, [], None, None, None, Some(now), Some(now))
  }

  function NewArchiveTask(o: ObjectMetadata, tapeId: string, now: Timestamp): ArchiveTask {
    var id := BundleIdFor(o.bucket, o.key);
    ArchiveTask(id, id, tapeId, None, 1, o.size, 0, TASK_PENDING, 0, Some(now), None, None, None)
  }

  function NewBundle(sha: Sha, bucket: string, key: string, data: seq<Byte>, w: TapeWrite, now: Timestamp)
    : ArchiveBundle
  {
    ArchiveBundle(BundleIdFor(bucket, key), w.tapeId, w.tapeSet,
                  [BundleEntry(bucket, key, None, |data|, 0, w.filemarkStart, sha(data))],
                  w.bytesWritten, w.filemarkStart, w.filemarkEnd, Some(sha(data)),
                  BUNDLE_COMPLETED, Some(now), Some(now))
  }

  function CommitRequest(o: ObjectMetadata, bundle: ArchiveBundle, w: TapeWrite): CompleteArchiveRequest {
    CompleteArchiveRequest(o.bucket, o.key, o.versionId, Some(o.size), Some(o.checksum), Some(o.storageClass),
                           o.updatedAt, Some(bundle), w.filemarkStart, COLD)
  }

  function NewRecallTask(o: ObjectMetadata, tier: int, days: nat, expireAt: Timestamp, now: Timestamp): RecallTask
    requires o.archiveId.Some? && o.tapeId.Some? && o.tapeBlockOffset.Some?
  {
    RecallTask(RecallIdFor(o.bucket, o.key), o.bucket, o.key, o.versionId, o.archiveId.value, o.tapeId.value,
               o.tapeSet, o.tapeBlockOffset.value, o.size, o.checksum, tier, days, Some(expireAt),
               RESTORE_PENDING, None, 0, Some(now), None, None, None)
  }

  /** Rust's u32::saturating_add(1). */
  function NextRetry(n: nat): nat { Min(n + 1, U32 - 1) }

  // ----------------------------------------------------------------- threads

  /** Where a thread is; the fields are its local variables. */
  datatype Thread =
    | Idle
    // put_object
    | PutStart(bucket: string, key: string, body: seq<Byte>, contentType: Option<string>)
    | PutStaged(bucket: string, key: string, body: seq<Byte>, contentType: Option<string>)
    | PutRollback(bucket: string, key: string)
    // delete_object
    | DeleteStart(bucket: string, key: string)
    | DeleteRestored(bucket: string, key: string)
    | DeleteStaged(bucket: string, key: string)
    // restore_object
    | RestoreStart(bucket: string, key: string, tier: int, days: nat)
    | RestoreRead(found: ObjectMetadata, tier: int, days: nat)
    | RestoreMarked(task: RecallTask)
    | RestoreUndo(bucket: string, key: string)
    // get_object
    | GetStart(bucket: string, key: string)
    | GetRead(found: ObjectMetadata)
    | GetDone(found: ObjectMetadata, data: seq<Byte>)
    // archive_staging_batch, one entry
    | ArchiveStart(bucket: string, key: string, tapeId: string)
    | ArchiveDrop(bucket: string, key: string)
    | ArchiveClaim(found: ObjectMetadata, claim: ArchiveTask)
    | ArchiveClaimRead(found: ObjectMetadata, taskId: string)
    | ArchiveClaimWrite(found: ObjectMetadata, claim: ArchiveTask)
    | ArchiveClaimed(found: ObjectMetadata, taskId: string)
    | ArchiveStaged(staged: Staged, taskId: string)
    | ArchiveWritten(staged: Staged, write: TapeWrite, taskId: string)
    | ArchiveReady(current: ObjectMetadata, staged: Staged, write: TapeWrite, taskId: string)
    | ArchiveCommitted(bucket: string, key: string, write: TapeWrite, taskId: string)
    | ArchiveFinish(taskId: string, bytesWritten: nat)
    | ArchiveFinishWrite(claim: ArchiveTask)
    | ArchiveFail(taskId: string)
    // recall_pending_batch, one task
    | RecallStart(task: RecallTask)
    | RecallClaimRead(taskId: string)
    | RecallClaimWrite(task: RecallTask)
    | RecallMarkObject(task: RecallTask)
    | RecallClaimed(task: RecallTask)
    | RecallChecked(found: ObjectMetadata, task: RecallTask)
    | RecallVerified(found: ObjectMetadata, task: RecallTask, data: seq<Byte>)
    | RecallStored(task: RecallTask)
    | RecallDone(task: RecallTask)
    | RecallFail(taskId: string)
    | RecallRetry(taskId: string)
    | RecallUpdate(task: RecallTask)
    | RecallUpdateObject(bucket: string, key: string, status: int, expireAt: Option<Timestamp>)

  predicate Putting(th: Thread) {
    th.PutStart? || th.PutStaged? || th.PutRollback?
  }

  predicate Deleting(th: Thread) {
    th.DeleteStart? || th.DeleteRestored? || th.DeleteStaged?
  }

  predicate Restoring(th: Thread) {
    th.RestoreStart? || th.RestoreRead? || th.RestoreMarked? || th.RestoreUndo?
  }

  predicate Getting(th: Thread) {
    th.GetStart? || th.GetRead?
  }

  predicate ClaimingArchive(th: Thread) {
    th.ArchiveStart? || th.ArchiveDrop? || th.ArchiveClaim? || th.ArchiveClaimRead? || th.ArchiveClaimWrite?
  }

  predicate Archiving(th: Thread) {
    th.ArchiveClaimed? || th.ArchiveStaged? || th.ArchiveWritten? || th.ArchiveReady?
  }

  predicate FinishingArchive(th: Thread) {
    th.ArchiveCommitted? || th.ArchiveFinish? || th.ArchiveFinishWrite? || th.ArchiveFail?
  }

  predicate ClaimingRecall(th: Thread) {
    th.RecallStart? || th.RecallClaimRead? || th.RecallClaimWrite? || th.RecallMarkObject?
  }

  predicate Recalling(th: Thread) {
    th.RecallClaimed? || th.RecallChecked? || th.RecallVerified? || th.RecallStored? || th.RecallDone?
  }

  predicate FailingRecall(th: Thread) {
    th.RecallFail? || th.RecallRetry? || th.RecallUpdate? || th.RecallUpdateObject?
  }

  predicate IsStart(t: Thread) {
    t.PutStart? || t.DeleteStart? || t.RestoreStart? || t.GetStart? || t.ArchiveStart?
  }

  datatype World = World(
    meta: MetadataState,
    staging: map<ObjectKey, Staged>,
    restored: map<ObjectKey, seq<Byte>>,
    threads: map<nat, Thread>)

  const EMPTY_WORLD: World := World(EMPTY_STATE, map[], map[], map[])

  /** What one step observes from outside: clocks, hash order, tape results. */
  datatype Observation = Observation(
    serverNow: Timestamp, clientNow: Timestamp, expireAt: Timestamp, order: seq<ObjectKey>,
    tapeData: seq<Byte>, tapeWrite: TapeWrite)

  datatype Event =
    | Spawn(thread: nat, start: Thread)
    | SpawnRecall(thread: nat, taskId: string)
    | Step(thread: nat, seen: Observation)
    | CallFails(thread: nat, retriable: bool)
    | ReplyLost(thread: nat, seen: Observation, retriable: bool)
    | Crash(thread: nat)
    | Administer(command: Command, seen: Observation)
    | DropStaging(entry: ObjectKey)
    | EvictRestored(entry: ObjectKey)

  // ------------------------------------------------------------------ steps

  function At(bucket: string, key: string): ObjectKey { ObjectKey(bucket, key, None) }

  /** head_object and get_object. */
  ghost function Head(m: MetadataState, seen: Observation, bucket: string, key: string): Option<ObjectMetadata>
    requires Enumerates(seen.order, m.objects)
  {
    var k := Find(m.objects, seen.order, bucket, key, None);
    if k.Some? then Some(m.objects[k.value]) else None
  }

  ghost function Run(m: MetadataState, c: Command, seen: Observation): Result<MetadataState>
    requires Enumerates(seen.order, m.objects)
  {
    Apply(m, c, seen.serverNow, seen.order)
  }

  /** The state after a command whose error, if any, the caller handles. */
  ghost function Effect(m: MetadataState, c: Command, seen: Observation): MetadataState
    requires Enumerates(seen.order, m.objects)
  {
    match Run(m, c, seen)
    case Ok(next) => next
    case Err(_) => m
  }

  ghost function StepPut(sha: Sha, w: World, th: Thread, seen: Observation): (World, Thread)
    requires Enumerates(seen.order, w.meta.objects)
    requires Putting(th)
  {
    var k := At(th.bucket, th.key);
    match th
    case PutStart(b, key, body, ct) =>
      (w.(staging := w.staging[k := Staged(b, key, None, |body|, Some(sha(body)), body)]), PutStaged(b, key, body, ct))
    case PutStaged(b, key, body, ct) =>
      var c := PutObject(NewObject(b, key, |body|, sha(body), ct, seen.clientNow));
      (w.(meta := Effect(w.meta, c, seen)), if Run(w.meta, c, seen).Ok? then Idle else PutRollback(b, key))
    case PutRollback(b, key) =>
      (w.(staging := w.staging - {k}), Idle)
  }

  ghost function StepDelete(w: World, th: Thread, seen: Observation): (World, Thread)
    requires Enumerates(seen.order, w.meta.objects)
    requires Deleting(th)
  {
    var k := At(th.bucket, th.key);
    match th
    case DeleteStart(b, key) =>
      var c := DeleteObject(b, key);
      (w.(meta := Effect(w.meta, c, seen)), if Run(w.meta, c, seen).Ok? then DeleteRestored(b, key) else Idle)
    case DeleteRestored(b, key) => (w.(restored := w.restored - {k}), DeleteStaged(b, key))
    case DeleteStaged(b, key) => (w.(staging := w.staging - {k}), Idle)
  }

  const RESTORE_TIER_EXPEDITED: int := 1

  /** The checks of restore_object between reading the object and marking it. */
  predicate MayRestore(o: ObjectMetadata, tier: int) {
    && o.storageClass == COLD
    && tier != RESTORE_TIER_EXPEDITED
    && (var st := if o.restoreStatus.Some? then ToRestoreStatus(o.restoreStatus.value) else None;
        st == None || st == Some(RestoreUnspecified))
    && o.archiveId.Some? && o.tapeId.Some? && o.tapeBlockOffset.Some?
  }

  ghost function StepRestore(w: World, th: Thread, seen: Observation): (World, Thread)
    requires Enumerates(seen.order, w.meta.objects)
    requires Restoring(th)
  {
    match th
    case RestoreStart(b, k, tier, days) =>
      var o := Head(w.meta, seen, b, k);
      (w, if o.Some? && MayRestore(o.value, tier)
          then RestoreRead(o.value, tier, if days == 0 then 1 else days) else Idle)
    case RestoreRead(o, tier, days) =>
      var c := UpdateRestoreStatus(o.bucket, o.key, RESTORE_PENDING, Some(seen.expireAt));
      (w.(meta := Effect(w.meta, c, seen)),
       if Run(w.meta, c, seen).Ok? && o.archiveId.Some? && o.tapeId.Some? && o.tapeBlockOffset.Some?
       then RestoreMarked(NewRecallTask(o, tier, days, seen.expireAt, seen.clientNow)) else Idle)
    case RestoreMarked(task) =>
      var c := PutRecallTask(task);
      (w.(meta := Effect(w.meta, c, seen)),
       if Run(w.meta, c, seen).Ok? then Idle else RestoreUndo(task.bucket, task.key))
    case RestoreUndo(b, k) =>
      (w.(meta := Effect(w.meta, UpdateRestoreStatus(b, k, RESTORE_FAILED, None), seen)), Idle)
  }

  /** GET compares the cached size with the recorded one; it never hashes. */
  ghost function StepGet(w: World, th: Thread, seen: Observation): (World, Thread)
    requires Enumerates(seen.order, w.meta.objects)
    requires Getting(th)
  {
    match th
    case GetStart(b, k) =>
      var o := Head(w.meta, seen, b, k);
      (w, if o.Some? && o.value.storageClass == COLD && o.value.restoreStatus == Some(RESTORE_COMPLETED)
          then GetRead(o.value) else Idle)
    case GetRead(o) =>
      (w, if KeyOf(o) in w.restored && o.size == |w.restored[KeyOf(o)]|
          then GetDone(o, w.restored[KeyOf(o)]) else Idle)
  }

  ghost function StepArchiveClaim(w: World, th: Thread, seen: Observation): (World, Thread)
    requires Enumerates(seen.order, w.meta.objects)
    requires ClaimingArchive(th)
  {
    match th
    case ArchiveStart(b, k, tapeId) =>
      var o := Head(w.meta, seen, b, k);
      (w, if o.None? then Idle
          else if o.value.storageClass != COLD_PENDING then ArchiveDrop(b, k)
          else ArchiveClaim(o.value, NewArchiveTask(o.value, tapeId, seen.clientNow)))
    case ArchiveDrop(b, k) => (w.(staging := w.staging - {At(b, k)}), Idle)
    case ArchiveClaim(o, task) =>
      var c := PutArchiveTask(task);
      var r := Run(w.meta, c, seen);
      (w.(meta := Effect(w.meta, c, seen)),
       if r.Ok? || r.code == AlreadyExists then ArchiveClaimRead(o, task.id) else ArchiveFail(task.id))
    case ArchiveClaimRead(o, id) =>
      (w, if id !in w.meta.archiveTasks then ArchiveFail(id)
          else
            var task := w.meta.archiveTasks[id];
            if task.status == TASK_PENDING
            then ArchiveClaimWrite(o, task.(status := TASK_IN_PROGRESS, error := None,
                                            startedAt := Some(seen.clientNow)))
            else if task.status == TASK_IN_PROGRESS || task.status == TASK_COMPLETED || task.status == TASK_FAILED
            then Idle
            else ArchiveFail(id))
    case ArchiveClaimWrite(o, task) =>
      var c := UpdateArchiveTask(task);
      var r := Run(w.meta, c, seen);
      (w.(meta := Effect(w.meta, c, seen)),
       if r.Ok? then ArchiveClaimed(o, task.id)
       else if r.code == FailedPrecondition then Idle else ArchiveFail(task.id))
  }

  ghost function StepArchiveWrite(sha: Sha, w: World, th: Thread, seen: Observation): (World, Thread)
    requires Enumerates(seen.order, w.meta.objects)
    requires Archiving(th)
  {
    match th
    case ArchiveClaimed(o, id) =>
      var k := At(o.bucket, o.key);
      (w, if k in w.staging && StagedMatches(sha, o, w.staging[k])
          then ArchiveStaged(w.staging[k], id) else ArchiveFail(id))
    case ArchiveStaged(st, id) =>
      (w, if seen.tapeWrite.bytesWritten == |st.data|
          then ArchiveWritten(st, seen.tapeWrite, id) else ArchiveFail(id))
    case ArchiveWritten(st, write, id) =>
      var o := Head(w.meta, seen, st.bucket, st.key);
      (w, if o.Some? && o.value.storageClass == COLD_PENDING && StagedMatches(sha, o.value, st)
          then ArchiveReady(o.value, st, write, id) else ArchiveFail(id))
    case ArchiveReady(o, st, write, id) =>
      var bundle := NewBundle(sha, o.bucket, o.key, st.data, write, seen.clientNow);
      var c := CompleteArchiveObject(CommitRequest(o, bundle, write));
      (w.(meta := Effect(w.meta, c, seen)),
       if Run(w.meta, c, seen).Ok? then ArchiveCommitted(o.bucket, o.key, write, id) else ArchiveFail(id))
  }

  ghost function StepArchiveFinish(w: World, th: Thread, seen: Observation): (World, Thread)
    requires Enumerates(seen.order, w.meta.objects)
    requires FinishingArchive(th)
  {
    match th
    case ArchiveCommitted(b, k, write, id) =>
      (w.(staging := w.staging - {At(b, k)}), ArchiveFinish(id, write.bytesWritten))
    case ArchiveFinish(id, bytes) =>
      (w, if id !in w.meta.archiveTasks then ArchiveFail(id)
          else if w.meta.archiveTasks[id].status == TASK_COMPLETED then Idle
          else ArchiveFinishWrite(w.meta.archiveTasks[id].(status := TASK_COMPLETED, bytesWritten := bytes,
                                                           error := None, completedAt := Some(seen.clientNow))))
    case ArchiveFinishWrite(task) =>
      var c := UpdateArchiveTask(task);
      var r := Run(w.meta, c, seen);
      (w.(meta := Effect(w.meta, c, seen)),
       if r.Ok? || r.code == FailedPrecondition || task.status == TASK_FAILED then Idle else ArchiveFail(task.id))
    case ArchiveFail(id) =>
      (w, if id in w.meta.archiveTasks && w.meta.archiveTasks[id].status != TASK_COMPLETED
             && w.meta.archiveTasks[id].status != TASK_FAILED
          then var t := w.meta.archiveTasks[id];
               ArchiveFinishWrite(t.(status := TASK_FAILED, error := Some("failed"),
                                     completedAt := Some(seen.clientNow), retryCount := NextRetry(t.retryCount)))
          else Idle)
  }

  /** The calls of one claim of a recall task; they touch only the metadata service. */
  ghost function ClaimStep(m: MetadataState, th: Thread, seen: Observation): (MetadataState, Thread)
    requires Enumerates(seen.order, m.objects)
    requires ClaimingRecall(th)
  {
    match th
    case RecallStart(task) =>
      var c := PutRecallTask(task);
      var r := Run(m, c, seen);
      (Effect(m, c, seen), if r.Ok? || r.code == AlreadyExists then RecallClaimRead(task.id) else Idle)
    case RecallClaimRead(id) =>
      (m, if id in m.recallTasks
             && (m.recallTasks[id].status == RESTORE_PENDING || m.recallTasks[id].status == RESTORE_WAITING_FOR_MEDIA)
          then RecallClaimWrite(m.recallTasks[id].(status := RESTORE_IN_PROGRESS, error := None,
                                                   startedAt := Some(seen.clientNow)))
          else Idle)
    case RecallClaimWrite(task) =>
      var c := UpdateRecallTask(task);
      (Effect(m, c, seen), if Run(m, c, seen).Ok? then RecallMarkObject(task) else Idle)
    case RecallMarkObject(task) =>
      var c := UpdateRestoreStatus(task.bucket, task.key, RESTORE_IN_PROGRESS, task.expireAt);
      (Effect(m, c, seen), if Run(m, c, seen).Ok? then RecallClaimed(task) else Idle)
  }

  ghost function StepRecallClaim(w: World, th: Thread, seen: Observation): (World, Thread)
    requires Enumerates(seen.order, w.meta.objects)
    requires ClaimingRecall(th)
  {
    var (m, next) := ClaimStep(w.meta, th, seen);
    (w.(meta := m), next)
  }

  ghost function StepRecall(sha: Sha, w: World, th: Thread, seen: Observation): (World, Thread)
    requires Enumerates(seen.order, w.meta.objects)
    requires Recalling(th)
  {
    match th
    case RecallClaimed(task) =>
      var o := Head(w.meta, seen, task.bucket, task.key);
      (w, if o.Some? && o.value.storageClass == COLD && o.value.archiveId == Some(task.archiveId)
             && task.tapeBlockOffset < U32
          then RecallChecked(o.value, task) else RecallFail(task.id))
    case RecallChecked(o, task) =>
      (w, if |seen.tapeData| == task.objectSize && sha(seen.tapeData) == task.checksum
          then RecallVerified(o, task, seen.tapeData) else RecallFail(task.id))
    case RecallVerified(o, task, data) =>
      (w.(restored := w.restored[KeyOf(o) := data]), RecallStored(task))
    case RecallStored(task) =>
      var done := task.(status := RESTORE_COMPLETED, completedAt := Some(seen.clientNow), error := None);
      var c := UpdateRecallTask(done);
      (w.(meta := Effect(w.meta, c, seen)), if Run(w.meta, c, seen).Ok? then RecallDone(done) else RecallFail(task.id))
    case RecallDone(task) =>
      var c := UpdateRestoreStatus(task.bucket, task.key, RESTORE_COMPLETED,
                                   if task.expireAt.Some? then task.expireAt else Some(seen.expireAt));
      (w.(meta := Effect(w.meta, c, seen)), if Run(w.meta, c, seen).Ok? then Idle else RecallFail(task.id))
  }

  ghost function StepRecallFail(w: World, th: Thread, seen: Observation): (World, Thread)
    requires Enumerates(seen.order, w.meta.objects)
    requires FailingRecall(th)
  {
    match th
    case RecallFail(id) =>
      (w, if id in w.meta.recallTasks && w.meta.recallTasks[id].status != RESTORE_COMPLETED
             && w.meta.recallTasks[id].status != RESTORE_FAILED
          then var t := w.meta.recallTasks[id];
               RecallUpdate(t.(status := RESTORE_FAILED, retryCount := NextRetry(t.retryCount),
                               completedAt := Some(seen.clientNow), error := Some("failed")))
          else Idle)
    case RecallRetry(id) =>
      (w, if id in w.meta.recallTasks && w.meta.recallTasks[id].status == RESTORE_IN_PROGRESS
          then var t := w.meta.recallTasks[id];
               RecallUpdate(t.(status := RESTORE_WAITING_FOR_MEDIA, error := Some("retry"), startedAt := None,
                               retryCount := NextRetry(t.retryCount)))
          else Idle)
    case RecallUpdate(task) =>
      var c := UpdateRecallTask(task);
      var r := Run(w.meta, c, seen);
      (w.(meta := Effect(w.meta, c, seen)),
       if r.Ok? || (r.code == FailedPrecondition && task.status == RESTORE_FAILED)
       then RecallUpdateObject(task.bucket, task.key, task.status,
                               if task.status == RESTORE_FAILED then None else task.expireAt)
       else Idle)
    case RecallUpdateObject(b, k, status, expireAt) =>
      (w.(meta := Effect(w.meta, UpdateRestoreStatus(b, k, status, expireAt), seen)), Idle)
  }

  ghost function StepClient(sha: Sha, w: World, th: Thread, seen: Observation): (World, Thread)
    requires Enumerates(seen.order, w.meta.objects)
    requires Putting(th) || Deleting(th) || Restoring(th) || Getting(th)
  {
    if Putting(th) then StepPut(sha, w, th, seen)
    else if Deleting(th) then StepDelete(w, th, seen)
    else if Restoring(th) then StepRestore(w, th, seen)
    else StepGet(w, th, seen)
  }

  ghost function StepArchiver(sha: Sha, w: World, th: Thread, seen: Observation): (World, Thread)
    requires Enumerates(seen.order, w.meta.objects)
    requires ClaimingArchive(th) || Archiving(th) || FinishingArchive(th)
  {
    if ClaimingArchive(th) then StepArchiveClaim(w, th, seen)
    else if Archiving(th) then StepArchiveWrite(sha, w, th, seen)
    else StepArchiveFinish(w, th, seen)
  }

  ghost function StepRecaller(sha: Sha, w: World, th: Thread, seen: Observation): (World, Thread)
    requires Enumerates(seen.order, w.meta.objects)
    requires ClaimingRecall(th) || Recalling(th) || FailingRecall(th)
  {
    if ClaimingRecall(th) then StepRecallClaim(w, th, seen)
    else if Recalling(th) then StepRecall(sha, w, th, seen)
    else StepRecallFail(w, th, seen)
  }

  ghost function StepThread(sha: Sha, w: World, th: Thread, seen: Observation): (World, Thread)
    requires Enumerates(seen.order, w.meta.objects)
  {
    if Putting(th) || Deleting(th) || Restoring(th) || Getting(th) then StepClient(sha, w, th, seen)
    else if ClaimingArchive(th) || Archiving(th) || FinishingArchive(th) then StepArchiver(sha, w, th, seen)
    else if ClaimingRecall(th) || Recalling(th) || FailingRecall(th) then StepRecaller(sha, w, th, seen)
    else (w, th)
  }

  /** Where a failed call leaves a thread: an agent that owns a task goes on to record the failure. */
  function AfterFailure(th: Thread, retriable: bool): Thread {
    if th.ArchiveClaimRead? || th.ArchiveClaimed? || th.ArchiveStaged? || th.ArchiveWritten? || th.ArchiveReady?
       || th.ArchiveCommitted? || th.ArchiveFinish?
    then ArchiveFail(th.taskId)
    else if th.ArchiveClaim? || th.ArchiveClaimWrite? || (th.ArchiveFinishWrite? && th.claim.status == TASK_COMPLETED)
    then ArchiveFail(th.claim.id)
    else if th.RecallClaimed? || th.RecallChecked? || th.RecallVerified? || th.RecallStored? || th.RecallDone?
    then (if retriable then RecallRetry(th.task.id) else RecallFail(th.task.id))
    else if th.PutStaged? then PutRollback(th.bucket, th.key)
    else if th.DeleteRestored? then DeleteStaged(th.bucket, th.key)
    else if th.RestoreMarked? then RestoreUndo(th.task.bucket, th.task.key)
    else if th.GetDone? then th
    else Idle
  }

  /** Bucket administration; no other command reaches the metadata service from outside the threads. */
  predicate Administrative(c: Command) { c.CreateBucket? || c.DeleteBucket? }

  /** The system after one event; an event that is not enabled changes nothing. */
  ghost function Next(sha: Sha, w: World, e: Event): World {
    match e
    case Spawn(t, start) =>
      if t !in w.threads && IsStart(start) then w.(threads := w.threads[t := start]) else w
    case SpawnRecall(t, id) =>
      if t !in w.threads && id in w.meta.recallTasks
         && (w.meta.recallTasks[id].status == RESTORE_PENDING
             || w.meta.recallTasks[id].status == RESTORE_WAITING_FOR_MEDIA)
      then w.(threads := w.threads[t := RecallStart(w.meta.recallTasks[id])]) else w
    case Step(t, seen) =>
      if t in w.threads && Enumerates(seen.order, w.meta.objects) then
        var (next, th) := StepThread(sha, w, w.threads[t], seen);
        next.(threads := w.threads[t := th])
      else w
    case CallFails(t, retriable) =>
      if t in w.threads then w.(threads := w.threads[t := AfterFailure(w.threads[t], retriable)]) else w
    case ReplyLost(t, seen, retriable) =>
      if t in w.threads && Enumerates(seen.order, w.meta.objects) then
        var (next, _) := StepThread(sha, w, w.threads[t], seen);
        next.(threads := w.threads[t := AfterFailure(w.threads[t], retriable)])
      else w
    case Crash(t) => w.(threads := w.threads - {t})
    case Administer(c, seen) =>
      if Administrative(c) && Enumerates(seen.order, w.meta.objects)
      then w.(meta := Effect(w.meta, c, seen)) else w
    case DropStaging(k) => w.(staging := w.staging - {k})
    case EvictRestored(k) => w.(restored := w.restored - {k})
  }

  ghost function RunEvents(sha: Sha, w: World, events: seq<Event>): World
    decreases |events|
  {
    if events == [] then w else RunEvents(sha, Next(sha, w, events[0]), events[1..])
  }
}
