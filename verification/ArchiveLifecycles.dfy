/**
 The lives of archive tasks and of bundles under any command run.  Neither is ever removed.  An
 archive task moves back only by being reset from Failed to Pending, so it can be claimed once more
 than it was reset.  A bundle keeps its contents unless it is stored again under its id.
 */
module ArchiveLifecycles {
  import opened Basics
  import opened MetadataTypes
  import opened MetadataSpec
  import opened CommandFrames

  // ----------------------------------------------------------- archive tasks

  /** How far an archive task has come; undefined status values never change. */
  function TaskRank(status: int): nat {
    match ToTaskStatus(status)
    case None => 0
    case Some(TaskUnspecified) => 0
    case Some(TaskPending) => 1
    case Some(TaskInProgress) => 2
    case Some(TaskCompleted) => 3
    case Some(TaskFailed) => 3
  }

  predicate TaskStarted(s: MetadataState, id: string) {
    id in s.archiveTasks && TaskRank(s.archiveTasks[id].status) >= 2
  }

  /** Completed tasks, and tasks with an undefined status, are final. */
  predicate TaskFinal(status: int) { status == TASK_COMPLETED || ToTaskStatus(status).None? }

  /** A failed task goes back to Pending. */
  predicate IsReset(s: MetadataState, c: Command, id: string) {
    && c.UpdateArchiveTask? && c.archiveTask.id == id && id in s.archiveTasks
    && s.archiveTasks[id].status == TASK_FAILED && c.archiveTask.status == TASK_PENDING
  }

  /** The command is accepted and takes the archive task into InProgress: a successful claim. */
  ghost predicate IsClaim(s: MetadataState, call: Call, id: string)
    requires Enumerates(call.order, s.objects)
  {
    && call.command.UpdateArchiveTask? && call.command.archiveTask.id == id
    && call.command.archiveTask.status == TASK_IN_PROGRESS
    && Apply(s, call.command, call.now, call.order).Ok?
  }

  lemma TaskUpdate(current: int, next: int)
    requires ValidateTask(current, next) == Done
    ensures !TaskFinal(current) && ToTaskStatus(next).Some?
    ensures TaskRank(next) < TaskRank(current) <==> current == TASK_FAILED && next == TASK_PENDING
    ensures next == TASK_IN_PROGRESS ==> TaskRank(current) < 2
    ensures TaskRank(current) >= 2 && TaskRank(next) >= 2 ==> TaskRank(current) < TaskRank(next)
  {}

  /** What one command does to an archive task. */
  ghost predicate TaskMoves(s: MetadataState, call: Call, id: string)
    requires Enumerates(call.order, s.objects)
  {
    var t := After(s, call);
    && (id in s.archiveTasks ==>
          && id in t.archiveTasks
          && (TaskFinal(s.archiveTasks[id].status) ==> t.archiveTasks[id] == s.archiveTasks[id])
          && (TaskRank(t.archiveTasks[id].status) < TaskRank(s.archiveTasks[id].status)
              <==> IsReset(s, call.command, id)))
    && (IsClaim(s, call, id) ==> !TaskStarted(s, id) && TaskStarted(t, id))
    && (IsReset(s, call.command, id) ==> TaskStarted(s, id) && !TaskStarted(t, id))
    && (TaskStarted(s, id) && !IsReset(s, call.command, id) ==> TaskStarted(t, id))
  }

  lemma UpdateResult(s: MetadataState, t: ArchiveTask, id: string)
    ensures var r := ApplyUpdateArchiveTask(s, t);
            r.Ok? && id in s.archiveTasks ==>
              && id in r.value.archiveTasks
              && (TaskFinal(s.archiveTasks[id].status) ==> r.value.archiveTasks[id] == s.archiveTasks[id])
              && (TaskRank(r.value.archiveTasks[id].status) < TaskRank(s.archiveTasks[id].status)
                  <==> IsReset(s, UpdateArchiveTask(t), id))
    ensures var r := ApplyUpdateArchiveTask(s, t);
            r.Ok? && t.id == id ==>
              && id in s.archiveTasks && r.value.archiveTasks[id] == t
              && (t.status == TASK_IN_PROGRESS ==> !TaskStarted(s, id))
    ensures IsReset(s, UpdateArchiveTask(t), id) ==> ApplyUpdateArchiveTask(s, t).Ok?
  {
    if t.id in s.archiveTasks && ValidateTask(s.archiveTasks[t.id].status, t.status) == Done {
      TaskUpdate(s.archiveTasks[t.id].status, t.status);
    }
  }

  lemma UpdateMovesTask(s: MetadataState, call: Call, id: string)
    requires Enumerates(call.order, s.objects) && call.command.UpdateArchiveTask?
    ensures TaskMoves(s, call, id)
  {
    UpdateResult(s, call.command.archiveTask, id);
  }

  lemma PutMovesTask(s: MetadataState, call: Call, id: string)
    requires Enumerates(call.order, s.objects) && call.command.PutArchiveTask?
    ensures TaskMoves(s, call, id)
  {}

  /** Under any of the 24 commands. */
  lemma CommandMovesTask(s: MetadataState, call: Call, id: string)
    requires Enumerates(call.order, s.objects)
    ensures TaskMoves(s, call, id)
  {
    if call.command.UpdateArchiveTask? {
      UpdateMovesTask(s, call, id);
    } else if call.command.PutArchiveTask? {
      PutMovesTask(s, call, id);
    } else {
      CallFrame(s, call);
    }
  }

  ghost function Claims(s: MetadataState, run: seq<Call>, id: string): nat
    requires ValidRun(s, run)
    decreases |run|
  {
    if run == [] then 0 else (if IsClaim(s, run[0], id) then 1 else 0) + Claims(After(s, run[0]), run[1..], id)
  }

  ghost function Resets(s: MetadataState, run: seq<Call>, id: string): nat
    requires ValidRun(s, run)
    decreases |run|
  {
    if run == [] then 0
    else (if IsReset(s, run[0].command, id) then 1 else 0) + Resets(After(s, run[0]), run[1..], id)
  }

  /** In any command run an archive task is claimed at most once more than it is reset. */
  lemma {:induction false} OneClaimPerReset(s: MetadataState, run: seq<Call>, id: string)
    requires ValidRun(s, run)
    ensures Claims(s, run, id) + (if TaskStarted(s, id) then 1 else 0) <= 1 + Resets(s, run, id)
    decreases |run|
  {
    if run != [] {
      CommandMovesTask(s, run[0], id);
      OneClaimPerReset(After(s, run[0]), run[1..], id);
    }
  }

  /** Archive tasks are never removed, final ones never change, and without a reset they only advance. */
  lemma {:induction false} TaskRunAdvances(s: MetadataState, run: seq<Call>, id: string)
    requires ValidRun(s, run) && id in s.archiveTasks
    ensures id in AfterAll(s, run).archiveTasks
    ensures TaskFinal(s.archiveTasks[id].status) ==> AfterAll(s, run).archiveTasks[id] == s.archiveTasks[id]
    ensures Resets(s, run, id) == 0 ==>
              TaskRank(s.archiveTasks[id].status) <= TaskRank(AfterAll(s, run).archiveTasks[id].status)
    decreases |run|
  {
    if run != [] {
      CommandMovesTask(s, run[0], id);
      TaskRunAdvances(After(s, run[0]), run[1..], id);
    }
  }

  // ----------------------------------------------------------------- bundles

  /** Everything but the status and the completion time. */
  function Contents(b: ArchiveBundle): ArchiveBundle { b.(status := 0, completedAt := None) }

  predicate BundleFinal(status: int) { status == BUNDLE_COMPLETED || ToBundleStatus(status).None? }

  predicate StoresBundle(c: Command, id: string) { c.PutArchiveBundle? && c.bundle.id == id }

  /** What one command other than storing the id again does to a bundle. */
  ghost predicate BundleMoves(s: MetadataState, call: Call, id: string)
    requires Enumerates(call.order, s.objects)
  {
    var t := After(s, call);
    id in s.archiveBundles ==>
      && id in t.archiveBundles
      && (!StoresBundle(call.command, id) ==>
            && Contents(t.archiveBundles[id]) == Contents(s.archiveBundles[id])
            && (BundleFinal(s.archiveBundles[id].status) ==> t.archiveBundles[id] == s.archiveBundles[id])
            && (t.archiveBundles[id] != s.archiveBundles[id] && t.archiveBundles[id].status == BUNDLE_COMPLETED ==>
                  t.archiveBundles[id].completedAt == Some(call.now)))
  }

  lemma BundleUpdate(current: int, next: int)
    requires ValidateBundle(current, next) == Done
    ensures !BundleFinal(current)
  {}

  lemma StatusResult(s: MetadataState, changed: string, status: int, now: Timestamp, id: string)
    requires id in s.archiveBundles
    ensures var r := ApplyBundleStatus(s, changed, status, now);
            r.Ok? ==>
              && id in r.value.archiveBundles
              && Contents(r.value.archiveBundles[id]) == Contents(s.archiveBundles[id])
              && (BundleFinal(s.archiveBundles[id].status) ==> r.value.archiveBundles[id] == s.archiveBundles[id])
              && (r.value.archiveBundles[id] != s.archiveBundles[id]
                  && r.value.archiveBundles[id].status == BUNDLE_COMPLETED ==>
                    r.value.archiveBundles[id].completedAt == Some(now))
  {
    if changed in s.archiveBundles && ValidateBundle(s.archiveBundles[changed].status, status) == Done {
      BundleUpdate(s.archiveBundles[changed].status, status);
    }
  }

  lemma StatusMovesBundle(s: MetadataState, call: Call, id: string)
    requires Enumerates(call.order, s.objects) && call.command.UpdateArchiveBundleStatus?
    ensures BundleMoves(s, call, id)
  {
    if id in s.archiveBundles {
      StatusResult(s, call.command.bundleId, call.command.status, call.now, id);
    }
  }

  lemma CommitMovesBundle(s: MetadataState, call: Call, id: string)
    requires Enumerates(call.order, s.objects)
    requires call.command.CompleteArchiveObject? || call.command.PutArchiveBundle?
    ensures BundleMoves(s, call, id)
  {}

  lemma CommandMovesBundle(s: MetadataState, call: Call, id: string)
    requires Enumerates(call.order, s.objects)
    ensures BundleMoves(s, call, id)
  {
    if call.command.UpdateArchiveBundleStatus? {
      StatusMovesBundle(s, call, id);
    } else if call.command.CompleteArchiveObject? || call.command.PutArchiveBundle? {
      CommitMovesBundle(s, call, id);
    } else {
      CallFrame(s, call);
    }
  }

  /**
   Bundles are never removed.  In a run that does not store the id again, the contents never change, and a completed
   bundle does not change at all.
   */
  lemma {:induction false} BundleRunKeepsContents(s: MetadataState, run: seq<Call>, id: string)
    requires ValidRun(s, run) && id in s.archiveBundles
    ensures id in AfterAll(s, run).archiveBundles
    ensures (forall i :: 0 <= i < |run| ==> !StoresBundle(run[i].command, id)) ==>
              && Contents(AfterAll(s, run).archiveBundles[id]) == Contents(s.archiveBundles[id])
              && (BundleFinal(s.archiveBundles[id].status) ==>
                    AfterAll(s, run).archiveBundles[id] == s.archiveBundles[id])
    decreases |run|
  {
    if run != [] {
      CommandMovesBundle(s, run[0], id);
      BundleRunKeepsContents(After(s, run[0]), run[1..], id);
      assert forall i :: 0 <= i < |run[1..]| ==> run[1..][i] == run[i + 1];
    }
  }

  /** Storing an id again replaces even a completed bundle: the exception is real. */
  lemma StoringReplaces(s: MetadataState, b: ArchiveBundle, now: Timestamp, order: seq<ObjectKey>)
    requires Enumerates(order, s.objects) && b.createdAt.Some?
    ensures After(s, Call(PutArchiveBundle(b), now, order)).archiveBundles == s.archiveBundles[b.id := b]
  {}
}
