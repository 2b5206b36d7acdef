/**
 The records kept by the metadata service and the commands that change them.
 Enumerations travel as plain integers, as they do in the protobuf messages, so
 that undefined values stay representable.
 */
module MetadataTypes {
  import opened Basics

  datatype Timestamp = Timestamp(seconds: int, nanos: int)

  const COLD_PENDING: int := 1
  const COLD: int := 2

  datatype RestoreStatus = RestoreUnspecified | RestorePending | RestoreWaitingForMedia
                         | RestoreInProgress | RestoreCompleted | RestoreExpired | RestoreFailed

  const RESTORE_PENDING: int := 1
  const RESTORE_WAITING_FOR_MEDIA: int := 2
  const RESTORE_IN_PROGRESS: int := 3
  const RESTORE_COMPLETED: int := 4
  const RESTORE_EXPIRED: int := 5
  const RESTORE_FAILED: int := 6

  function ToRestoreStatus(value: int): Option<RestoreStatus> {
    match value
    case 0 => Some(RestoreUnspecified)
    case 1 => Some(RestorePending)
    case 2 => Some(RestoreWaitingForMedia)
    case 3 => Some(RestoreInProgress)
    case 4 => Some(RestoreCompleted)
    case 5 => Some(RestoreExpired)
    case 6 => Some(RestoreFailed)
    case _ => None
  }

  datatype BundleStatus = BundleUnspecified | BundlePending | BundleWriting | BundleCompleted | BundleFailed

  const BUNDLE_COMPLETED: int := 3

  function ToBundleStatus(value: int): Option<BundleStatus> {
    match value
    case 0 => Some(BundleUnspecified)
    case 1 => Some(BundlePending)
    case 2 => Some(BundleWriting)
    case 3 => Some(BundleCompleted)
    case 4 => Some(BundleFailed)
    case _ => None
  }

  datatype TaskStatus = TaskUnspecified | TaskPending | TaskInProgress | TaskCompleted | TaskFailed

  const TASK_PENDING: int := 1
  const TASK_IN_PROGRESS: int := 2
  const TASK_COMPLETED: int := 3
  const TASK_FAILED: int := 4

  function ToTaskStatus(value: int): Option<TaskStatus> {
    match value
    case 0 => Some(TaskUnspecified)
    case 1 => Some(TaskPending)
    case 2 => Some(TaskInProgress)
    case 3 => Some(TaskCompleted)
    case 4 => Some(TaskFailed)
    case _ => None
  }

  const WORKER_SCHEDULER: int := 1
  const WORKER_CACHE: int := 2
  const WORKER_TAPE: int := 3

  datatype ObjectKey = ObjectKey(bucket: string, key: string, versionId: Option<string>)

  datatype ObjectMetadata = ObjectMetadata(
    bucket: string, key: string, versionId: Option<string>,
    size: nat, checksum: string, contentType: Option<string>, etag: Option<string>,
    storageClass: int, archiveId: Option<string>, tapeId: Option<string>,
    tapeSet: seq<string>, tapeBlockOffset: Option<nat>,
    restoreStatus: Option<int>, restoreExpireAt: Option<Timestamp>,
    createdAt: Option<Timestamp>, updatedAt: Option<Timestamp>)

  datatype BundleEntry = BundleEntry(
    bucket: string, key: string, versionId: Option<string>, size: nat,
    offsetInBundle: nat, tapeBlockOffset: nat, checksum: string)

  datatype ArchiveBundle = ArchiveBundle(
    id: string, tapeId: string, tapeSet: seq<string>, entries: seq<BundleEntry>,
    totalSize: nat, filemarkStart: nat, filemarkEnd: nat, checksum: Option<string>,
    status: int, createdAt: Option<Timestamp>, completedAt: Option<Timestamp>)

  datatype ArchiveTask = ArchiveTask(
    id: string, bundleId: string, tapeId: string, driveId: Option<string>,
    objectCount: nat, totalSize: nat, bytesWritten: nat, status: int, retryCount: nat,
    createdAt: Option<Timestamp>, startedAt: Option<Timestamp>,
    completedAt: Option<Timestamp>, error: Option<string>)

  datatype RecallTask = RecallTask(
    id: string, bucket: string, key: string, versionId: Option<string>,
    archiveId: string, tapeId: string, tapeSet: seq<string>, tapeBlockOffset: nat,
    objectSize: nat, checksum: string, tier: int, days: nat, expireAt: Option<Timestamp>,
    status: int, driveId: Option<string>, retryCount: nat,
    createdAt: Option<Timestamp>, startedAt: Option<Timestamp>,
    completedAt: Option<Timestamp>, error: Option<string>)

  datatype BucketInfo = BucketInfo(
    name: string, createdAt: Option<Timestamp>, owner: Option<string>,
    versioningEnabled: bool, objectCount: nat, totalSize: nat)

  /** Fields that no command reads or changes are folded into `details`. */
  datatype TapeInfo = TapeInfo(id: string, registeredAt: Option<Timestamp>, details: string)

  datatype SchedulerWorker = SchedulerWorker(
    nodeId: nat, status: int, lastHeartbeat: Option<Timestamp>,
    pendingArchiveTasks: nat, pendingRecallTasks: nat, activeJobs: nat, details: string)

  datatype CacheWorker = CacheWorker(
    nodeId: nat, status: int, lastHeartbeat: Option<Timestamp>,
    usedCapacity: nat, blobCount: nat, details: string)

  datatype TapeWorker = TapeWorker(
    nodeId: nat, status: int, lastHeartbeat: Option<Timestamp>, drives: seq<string>, details: string)

  datatype CompleteArchiveRequest = CompleteArchiveRequest(
    bucket: string, key: string, versionId: Option<string>,
    expectedSize: Option<nat>, expectedChecksum: Option<string>,
    expectedStorageClass: Option<int>, expectedUpdatedAt: Option<Timestamp>,
    bundle: Option<ArchiveBundle>, tapeBlockOffset: nat, storageClass: int)

  datatype HeartbeatPayload =
    | NoPayload
    | SchedulerPayload(pendingArchiveTasks: nat, pendingRecallTasks: nat, activeJobs: nat)
    | CachePayload(usedCapacity: nat, blobCount: nat)
    | TapePayload(drives: seq<string>)

  datatype Command =
    | PutObject(objectMetadata: ObjectMetadata)
    | DeleteObject(bucket: string, key: string)
    | UpdateStorageClass(bucket: string, key: string, storageClass: int)
    | UpdateArchiveLocation(bucket: string, key: string, archiveId: string, tapeId: string,
                            tapeSet: seq<string>, tapeBlockOffset: nat)
    | CompleteArchiveObject(request: CompleteArchiveRequest)
    | UpdateRestoreStatus(bucket: string, key: string, status: int, expireAt: Option<Timestamp>)
    | CreateBucket(bucketInfo: BucketInfo)
    | DeleteBucket(name: string)
    | PutArchiveBundle(bundle: ArchiveBundle)
    | UpdateArchiveBundleStatus(bundleId: string, status: int)
    | PutArchiveTask(archiveTask: ArchiveTask)
    | UpdateArchiveTask(archiveTask: ArchiveTask)
    | PutRecallTask(recallTask: RecallTask)
    | UpdateRecallTask(recallTask: RecallTask)
    | PutTape(tape: TapeInfo)
    | UpdateTape(tape: TapeInfo)
    | RegisterSchedulerWorker(schedulerWorker: SchedulerWorker)
    | DeregisterSchedulerWorker(nodeId: nat)
    | RegisterCacheWorker(cacheWorker: CacheWorker)
    | DeregisterCacheWorker(nodeId: nat)
    | RegisterTapeWorker(tapeWorker: TapeWorker)
    | DeregisterTapeWorker(nodeId: nat)
    | UpdateWorkerStatus(workerType: int, nodeId: nat, status: int)
    | Heartbeat(workerType: int, nodeId: nat, payload: HeartbeatPayload)

  datatype MetadataState = MetadataState(
    objects: map<ObjectKey, ObjectMetadata>,
    buckets: map<string, BucketInfo>,
    archiveBundles: map<string, ArchiveBundle>,
    archiveTasks: map<string, ArchiveTask>,
    recallTasks: map<string, RecallTask>,
    tapes: map<string, TapeInfo>,
    schedulerWorkers: map<nat, SchedulerWorker>,
    cacheWorkers: map<nat, CacheWorker>,
    tapeWorkers: map<nat, TapeWorker>)

  const EMPTY_STATE: MetadataState :=
    MetadataState(map[], map[], map[], map[], map[], map[], map[], map[], map[])

  function KeyOf(o: ObjectMetadata): ObjectKey { ObjectKey(o.bucket, o.key, o.versionId) }
}
