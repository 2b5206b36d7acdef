/**
 What each metadata command means: a pure transition on the nine maps.  The
 clock reading and the enumeration order of the object map are arguments, since
 the implementation reads the first inside the transition and its version-less
 lookup depends on the second.
 */
module MetadataSpec {
  import opened Basics
  import opened MetadataTypes
  import opened MapSum

  // ---------------------------------------------------------------- lookups

  function SortKey(t: Option<Timestamp>): (int, int) {
    match t
    case Some(ts) => (ts.seconds, ts.nanos)
    case None => (0, 0)
  }

  predicate NoLater(a: (int, int), b: (int, int)) {
    a.0 < b.0 || (a.0 == b.0 && a.1 <= b.1)
  }

  predicate Matches(k: ObjectKey, bucket: string, key: string) {
    k.bucket == bucket && k.key == key
  }

  /** `order` lists the keys of `objects`, each once: one iteration of the hash map. */
  ghost predicate Enumerates(order: seq<ObjectKey>, objects: map<ObjectKey, ObjectMetadata>) {
    && NoDuplicates(order)
    && (forall k :: k in order <==> k in objects)
  }

  predicate LooksAtLeastAsNew(objects: map<ObjectKey, ObjectMetadata>, a: ObjectKey, b: ObjectKey)
    requires a in objects && b in objects
  {
    NoLater(SortKey(objects[b].updatedAt), SortKey(objects[a].updatedAt))
  }

  /** The last of the most recently updated versions of an object along `order`. */
  function Latest(objects: map<ObjectKey, ObjectMetadata>, order: seq<ObjectKey>, bucket: string, key: string)
    : Option<ObjectKey>
    requires forall k :: k in order ==> k in objects
    ensures Latest(objects, order, bucket, key).Some? ==> Latest(objects, order, bucket, key).value in order
  {
    if order == [] then None else
      var last := order[|order| - 1];
      var best := Latest(objects, order[..|order| - 1], bucket, key);
      if !Matches(last, bucket, key) then best
      else if best.None? || LooksAtLeastAsNew(objects, last, best.value) then Some(last)
      else best
  }

  function Find(objects: map<ObjectKey, ObjectMetadata>, order: seq<ObjectKey>,
                bucket: string, key: string, versionId: Option<string>): (r: Option<ObjectKey>)
    requires forall k :: k in order ==> k in objects
    ensures r.Some? ==> r.value in objects
  {
    if versionId.Some? then
      var k := ObjectKey(bucket, key, versionId);
      if k in objects then Some(k) else None
    else
      Latest(objects, order, bucket, key)
  }

  // ---------------------------------------------------- transition tables

  predicate RestoreTransitionOk(current: Option<RestoreStatus>, next: RestoreStatus) {
    match current
    case None => true
    case Some(RestorePending) =>
      next == RestoreInProgress || next == RestoreWaitingForMedia || next == RestoreFailed
    case Some(RestoreWaitingForMedia) =>
      next == RestoreInProgress || next == RestorePending || next == RestoreFailed
    case Some(RestoreInProgress) => next == RestoreCompleted || next == RestoreFailed
    case Some(RestoreCompleted) => next == RestoreExpired
    case Some(RestoreExpired) => false
    case Some(RestoreFailed) => false
    case Some(RestoreUnspecified) => true
  }

  function ValidateRestore(current: Option<int>, next: int): Status {
    var cur := if current.Some? then ToRestoreStatus(current.value) else None;
    match ToRestoreStatus(next)
    case None => Failed(InvalidArgument)
    case Some(n) => if RestoreTransitionOk(cur, n) then Done else Failed(FailedPrecondition)
  }

  predicate BundleTransitionOk(current: BundleStatus, next: BundleStatus) {
    match current
    case BundlePending => next == BundleWriting
    case BundleWriting => next == BundleCompleted || next == BundleFailed
    case BundleFailed => next == BundlePending
    case BundleCompleted => false
    case BundleUnspecified => true
  }

  function ValidateBundle(current: int, next: int): Status {
    match (ToBundleStatus(current), ToBundleStatus(next))
    case (Some(c), Some(n)) => if BundleTransitionOk(c, n) then Done else Failed(FailedPrecondition)
    case _ => Failed(InvalidArgument)
  }

  predicate TaskTransitionOk(current: TaskStatus, next: TaskStatus) {
    match current
    case TaskPending => next == TaskInProgress
    case TaskInProgress => next == TaskCompleted || next == TaskFailed
    case TaskFailed => next == TaskPending
    case TaskCompleted => false
    case TaskUnspecified => true
  }

  function ValidateTask(current: int, next: int): Status {
    match (ToTaskStatus(current), ToTaskStatus(next))
    case (Some(c), Some(n)) => if TaskTransitionOk(c, n) then Done else Failed(FailedPrecondition)
    case _ => Failed(InvalidArgument)
  }

  /** The compare-and-swap guard of an archive commit. */
  predicate ArchivePreconditionsHold(o: ObjectMetadata, r: CompleteArchiveRequest) {
    && o.versionId == r.versionId
    && r.expectedSize == Some(o.size)
    && r.expectedChecksum == Some(o.checksum)
    && r.expectedStorageClass == Some(o.storageClass)
    && r.expectedUpdatedAt.Some?
    && o.updatedAt == r.expectedUpdatedAt
  }

  /** Two archive tasks carry the same payload; timestamps do not matter. */
  predicate SameArchiveTask(a: ArchiveTask, b: ArchiveTask) {
    a.(createdAt := None, startedAt := None, completedAt := None)
    == b.(createdAt := None, startedAt := None, completedAt := None)
  }

  /** Two recall tasks carry the same payload; timestamps, expiry and error text do not matter. */
  predicate SameRecallTask(a: RecallTask, b: RecallTask) {
    a.(expireAt := None, createdAt := None, startedAt := None, completedAt := None, error := None)
    == b.(expireAt := None, createdAt := None, startedAt := None, completedAt := None, error := None)
  }

  // ---------------------------------------------------- bucket statistics

  /** The sizes of the objects that name `bucket`. */
  ghost function BucketSizes(objects: map<ObjectKey, ObjectMetadata>, bucket: string): map<ObjectKey, nat> {
    map k | k in objects && objects[k].bucket == bucket :: objects[k].size
  }

  ghost function WithStats(info: BucketInfo, objects: map<ObjectKey, ObjectMetadata>, bucket: string): BucketInfo {
    info.(objectCount := Wrap64(|BucketSizes(objects, bucket)|),
          totalSize := Wrap64(Sum(BucketSizes(objects, bucket))))
  }

  ghost function RefreshStats(s: MetadataState, bucket: string): MetadataState {
    if bucket in s.buckets
    then s.(buckets := s.buckets[bucket := WithStats(s.buckets[bucket], s.objects, bucket)])
    else s
  }

  // ------------------------------------------------------------- commands

  function Stamped(t: Option<Timestamp>, now: Timestamp): Option<Timestamp> {
    if t.None? then Some(now) else t
  }

  ghost function ApplyPutObject(s: MetadataState, o: ObjectMetadata, now: Timestamp): Result<MetadataState> {
    if o.bucket !in s.buckets then Err(NotFound) else
      var stored := o.(createdAt := Stamped(o.createdAt, now), updatedAt := Some(now));
      Ok(RefreshStats(s.(objects := s.objects[KeyOf(o) := stored]), o.bucket))
  }

  ghost function ApplyDeleteObject(s: MetadataState, bucket: string, key: string): Result<MetadataState> {
    var k := ObjectKey(bucket, key, None);
    if k !in s.objects then Err(NotFound) else
      Ok(RefreshStats(s.(objects := s.objects - {k}), bucket))
  }

  ghost function Archived(o: ObjectMetadata, bundle: ArchiveBundle, r: CompleteArchiveRequest, now: Timestamp)
    : ObjectMetadata
  {
    o.(archiveId := Some(bundle.id), tapeId := Some(bundle.tapeId), tapeSet := bundle.tapeSet,
       tapeBlockOffset := Some(r.tapeBlockOffset), storageClass := r.storageClass, updatedAt := Some(now))
  }

  ghost function ApplyComplete(s: MetadataState, r: CompleteArchiveRequest, now: Timestamp, order: seq<ObjectKey>)
    : Result<MetadataState>
    requires Enumerates(order, s.objects)
  {
    if r.bundle.None? || r.bundle.value.id == "" then Err(InvalidArgument) else
      var bundle := r.bundle.value;
      var found := Find(s.objects, order, r.bucket, r.key, r.versionId);
      if found.None? then Err(NotFound)
      else if !ArchivePreconditionsHold(s.objects[found.value], r) then Err(FailedPrecondition)
      else if bundle.id in s.archiveBundles && s.archiveBundles[bundle.id] != bundle then Err(AlreadyExists)
      else
        Ok(s.(objects := s.objects[found.value := Archived(s.objects[found.value], bundle, r, now)],
              archiveBundles := s.archiveBundles[bundle.id := bundle]))
  }

  ghost function ApplyRestoreStatus(s: MetadataState, bucket: string, key: string, status: int,
                                    expireAt: Option<Timestamp>, now: Timestamp, order: seq<ObjectKey>)
    : Result<MetadataState>
    requires Enumerates(order, s.objects)
  {
    var found := Find(s.objects, order, bucket, key, None);
    if found.None? then Err(NotFound) else
      var o := s.objects[found.value];
      match ValidateRestore(o.restoreStatus, status)
      case Failed(code) => Err(code)
      case Done =>
        Ok(s.(objects := s.objects[found.value :=
               o.(restoreStatus := Some(status), restoreExpireAt := expireAt, updatedAt := Some(now))]))
  }

  ghost function ApplyStorageClass(s: MetadataState, bucket: string, key: string, storageClass: int,
                                   now: Timestamp, order: seq<ObjectKey>): Result<MetadataState>
    requires Enumerates(order, s.objects)
  {
    var found := Find(s.objects, order, bucket, key, None);
    if found.None? then Err(NotFound) else
      Ok(s.(objects := s.objects[found.value :=
             s.objects[found.value].(storageClass := storageClass, updatedAt := Some(now))]))
  }

  ghost function ApplyArchiveLocation(s: MetadataState, c: Command, now: Timestamp, order: seq<ObjectKey>)
    : Result<MetadataState>
    requires Enumerates(order, s.objects) && c.UpdateArchiveLocation?
  {
    var found := Find(s.objects, order, c.bucket, c.key, None);
    if found.None? then Err(NotFound) else
      Ok(s.(objects := s.objects[found.value :=
             s.objects[found.value].(archiveId := Some(c.archiveId), tapeId := Some(c.tapeId),
                                     tapeSet := c.tapeSet, tapeBlockOffset := Some(c.tapeBlockOffset),
                                     updatedAt := Some(now))]))
  }

  ghost function ApplyCreateBucket(s: MetadataState, b: BucketInfo, now: Timestamp): Result<MetadataState> {
    if b.name in s.buckets then Err(AlreadyExists)
    else Ok(s.(buckets := s.buckets[b.name := b.(createdAt := Stamped(b.createdAt, now))]))
  }

  ghost function ApplyDeleteBucket(s: MetadataState, name: string): Result<MetadataState> {
    if exists k :: k in s.objects && s.objects[k].bucket == name then Err(FailedPrecondition)
    else if name !in s.buckets then Err(NotFound)
    else Ok(s.(buckets := s.buckets - {name}))
  }

  ghost function ApplyBundleStatus(s: MetadataState, id: string, status: int, now: Timestamp): Result<MetadataState> {
    if id !in s.archiveBundles then Err(NotFound) else
      var b := s.archiveBundles[id];
      match ValidateBundle(b.status, status)
      case Failed(code) => Err(code)
      case Done =>
        var completed := if status == BUNDLE_COMPLETED then Some(now) else b.completedAt;
        Ok(s.(archiveBundles := s.archiveBundles[id := b.(status := status, completedAt := completed)]))
  }

  ghost function ApplyPutArchiveTask(s: MetadataState, t: ArchiveTask, now: Timestamp): Result<MetadataState> {
    if t.id in s.archiveTasks then
      if SameArchiveTask(s.archiveTasks[t.id], t) then Ok(s) else Err(AlreadyExists)
    else
      Ok(s.(archiveTasks := s.archiveTasks[t.id := t.(createdAt := Stamped(t.createdAt, now))]))
  }

  ghost function ApplyUpdateArchiveTask(s: MetadataState, t: ArchiveTask): Result<MetadataState> {
    if t.id !in s.archiveTasks then Err(NotFound) else
      match ValidateTask(s.archiveTasks[t.id].status, t.status)
      case Failed(code) => Err(code)
      case Done => Ok(s.(archiveTasks := s.archiveTasks[t.id := t]))
  }

  ghost function ApplyPutRecallTask(s: MetadataState, t: RecallTask, now: Timestamp): Result<MetadataState> {
    if t.id in s.recallTasks then
      if SameRecallTask(s.recallTasks[t.id], t) then Ok(s) else Err(AlreadyExists)
    else
      Ok(s.(recallTasks := s.recallTasks[t.id := t.(createdAt := Stamped(t.createdAt, now))]))
  }

  ghost function ApplyUpdateRecallTask(s: MetadataState, t: RecallTask): Result<MetadataState> {
    if t.id !in s.recallTasks then Err(NotFound) else
      match ValidateRestore(Some(s.recallTasks[t.id].status), t.status)
      case Failed(code) => Err(code)
      case Done => Ok(s.(recallTasks := s.recallTasks[t.id := t]))
  }

  /** Objects, buckets, bundles and tasks are the same in both states. */
  ghost predicate OnlyClusterChanges(s: MetadataState, t: MetadataState) {
    && t.objects == s.objects && t.buckets == s.buckets && t.archiveBundles == s.archiveBundles
    && t.archiveTasks == s.archiveTasks && t.recallTasks == s.recallTasks
  }

  ghost function ApplyWorkerStatus(s: MetadataState, workerType: int, id: nat, status: int)
    : (r: Result<MetadataState>)
    ensures r.Ok? ==> OnlyClusterChanges(s, r.value)
  {
    if workerType == WORKER_SCHEDULER && id in s.schedulerWorkers then
      Ok(s.(schedulerWorkers := s.schedulerWorkers[id := s.schedulerWorkers[id].(status := status)]))
    else if workerType == WORKER_CACHE && id in s.cacheWorkers then
      Ok(s.(cacheWorkers := s.cacheWorkers[id := s.cacheWorkers[id].(status := status)]))
    else if workerType == WORKER_TAPE && id in s.tapeWorkers then
      Ok(s.(tapeWorkers := s.tapeWorkers[id := s.tapeWorkers[id].(status := status)]))
    else Err(NotFound)
  }

  function BeatScheduler(w: SchedulerWorker, p: HeartbeatPayload, now: Timestamp): SchedulerWorker {
    var beaten := w.(lastHeartbeat := Some(now));
    match p
    case SchedulerPayload(a, r, j) => beaten.(pendingArchiveTasks := a, pendingRecallTasks := r, activeJobs := j)
    case _ => beaten
  }

  function BeatCache(w: CacheWorker, p: HeartbeatPayload, now: Timestamp): CacheWorker {
    var beaten := w.(lastHeartbeat := Some(now));
    match p
    case CachePayload(used, blobs) => beaten.(usedCapacity := used, blobCount := blobs)
    case _ => beaten
  }

  function BeatTape(w: TapeWorker, p: HeartbeatPayload, now: Timestamp): TapeWorker {
    var beaten := w.(lastHeartbeat := Some(now));
    match p
    case TapePayload(drives) => beaten.(drives := drives)
    case _ => beaten
  }

  ghost function ApplyHeartbeat(s: MetadataState, workerType: int, id: nat, p: HeartbeatPayload, now: Timestamp)
    : (r: Result<MetadataState>)
    ensures r.Ok? ==> OnlyClusterChanges(s, r.value)
  {
    if workerType == WORKER_SCHEDULER then
      if id !in s.schedulerWorkers then Err(NotFound)
      else Ok(s.(schedulerWorkers := s.schedulerWorkers[id := BeatScheduler(s.schedulerWorkers[id], p, now)]))
    else if workerType == WORKER_CACHE then
      if id !in s.cacheWorkers then Err(NotFound)
      else Ok(s.(cacheWorkers := s.cacheWorkers[id := BeatCache(s.cacheWorkers[id], p, now)]))
    else if workerType == WORKER_TAPE then
      if id !in s.tapeWorkers then Err(NotFound)
      else Ok(s.(tapeWorkers := s.tapeWorkers[id := BeatTape(s.tapeWorkers[id], p, now)]))
    else Err(InvalidArgument)
  }

  ghost function ApplyRegistration(s: MetadataState, c: Command, now: Timestamp): (r: Result<MetadataState>)
    requires Registers(c)
    ensures r.Ok? ==> OnlyClusterChanges(s, r.value)
  {
    match c
    case PutTape(t) => Ok(s.(tapes := s.tapes[t.id := t.(registeredAt := Stamped(t.registeredAt, now))]))
    case UpdateTape(t) => Ok(s.(tapes := s.tapes[t.id := t]))
    case RegisterSchedulerWorker(w) =>
      Ok(s.(schedulerWorkers := s.schedulerWorkers[w.nodeId := w.(lastHeartbeat := Some(now))]))
    case RegisterCacheWorker(w) =>
      Ok(s.(cacheWorkers := s.cacheWorkers[w.nodeId := w.(lastHeartbeat := Some(now))]))
    case RegisterTapeWorker(w) =>
      Ok(s.(tapeWorkers := s.tapeWorkers[w.nodeId := w.(lastHeartbeat := Some(now))]))
  }

  ghost function ApplyDeregistration(s: MetadataState, c: Command): (r: Result<MetadataState>)
    requires Deregisters(c)
    ensures r.Ok? ==> OnlyClusterChanges(s, r.value)
  {
    match c
    case DeregisterSchedulerWorker(id) => Ok(s.(schedulerWorkers := s.schedulerWorkers - {id}))
    case DeregisterCacheWorker(id) => Ok(s.(cacheWorkers := s.cacheWorkers - {id}))
    case DeregisterTapeWorker(id) => Ok(s.(tapeWorkers := s.tapeWorkers - {id}))
  }

  predicate Registers(c: Command) {
    c.PutTape? || c.UpdateTape? || c.RegisterSchedulerWorker? || c.RegisterCacheWorker? || c.RegisterTapeWorker?
  }

  predicate Deregisters(c: Command) {
    c.DeregisterSchedulerWorker? || c.DeregisterCacheWorker? || c.DeregisterTapeWorker?
  }

  /** Commands about tapes and workers. */
  predicate ChangesCluster(c: Command) {
    Registers(c) || Deregisters(c) || c.UpdateWorkerStatus? || c.Heartbeat?
  }

  ghost function ApplyCluster(s: MetadataState, c: Command, now: Timestamp): (r: Result<MetadataState>)
    requires ChangesCluster(c)
    ensures r.Ok? ==> OnlyClusterChanges(s, r.value)
  {
    if c.UpdateWorkerStatus? then ApplyWorkerStatus(s, c.workerType, c.nodeId, c.status)
    else if c.Heartbeat? then ApplyHeartbeat(s, c.workerType, c.nodeId, c.payload, now)
    else if Deregisters(c) then ApplyDeregistration(s, c)
    else ApplyRegistration(s, c, now)
  }

  /** The transition of one command; an error carries no state, because nothing may have changed. */
  ghost function Apply(s: MetadataState, c: Command, now: Timestamp, order: seq<ObjectKey>): Result<MetadataState>
    requires Enumerates(order, s.objects)
  {
    match c
    case PutObject(o) => ApplyPutObject(s, o, now)
    case DeleteObject(b, k) => ApplyDeleteObject(s, b, k)
    case UpdateStorageClass(b, k, sc) => ApplyStorageClass(s, b, k, sc, now, order)
    case UpdateArchiveLocation(_, _, _, _, _, _) => ApplyArchiveLocation(s, c, now, order)
    case CompleteArchiveObject(r) => ApplyComplete(s, r, now, order)
    case UpdateRestoreStatus(b, k, st, e) => ApplyRestoreStatus(s, b, k, st, e, now, order)
    case CreateBucket(b) => ApplyCreateBucket(s, b, now)
    case DeleteBucket(n) => ApplyDeleteBucket(s, n)
    case PutArchiveBundle(b) =>
      Ok(s.(archiveBundles := s.archiveBundles[b.id := b.(createdAt := Stamped(b.createdAt, now))]))
    case UpdateArchiveBundleStatus(id, st) => ApplyBundleStatus(s, id, st, now)
    case PutArchiveTask(t) => ApplyPutArchiveTask(s, t, now)
    case UpdateArchiveTask(t) => ApplyUpdateArchiveTask(s, t)
    case PutRecallTask(t) => ApplyPutRecallTask(s, t, now)
    case UpdateRecallTask(t) => ApplyUpdateRecallTask(s, t)
    case _ => ApplyCluster(s, c, now)
  }

  // ----------------------------------------------------------------- runs

  /** One accepted-or-rejected command together with what its execution observed. */
  datatype Call = Call(command: Command, now: Timestamp, order: seq<ObjectKey>)

  /** A rejected command leaves the state alone. */
  ghost function After(s: MetadataState, call: Call): MetadataState
    requires Enumerates(call.order, s.objects)
  {
    match Apply(s, call.command, call.now, call.order)
    case Ok(next) => next
    case Err(_) => s
  }

  /** Each call of the run enumerates the object map of the state it meets. */
  ghost predicate ValidRun(s: MetadataState, run: seq<Call>)
    decreases |run|
  {
    run == [] || (Enumerates(run[0].order, s.objects) && ValidRun(After(s, run[0]), run[1..]))
  }

  ghost function AfterAll(s: MetadataState, run: seq<Call>): MetadataState
    requires ValidRun(s, run)
    decreases |run|
  {
    if run == [] then s else AfterAll(After(s, run[0]), run[1..])
  }
}
