/**
 Competing recall agents.  Each claim of a recall task is a put, a get and an update
 against the metadata service; any number of claims interleave, with any other commands
 in between.  At most one claim of a task ever succeeds.
 */
module RecallClaims {
  import opened Basics
  import opened MetadataTypes
  import opened MetadataSpec
  import opened CommandFrames
  import opened ArchiveProtocol

  // ----------------------------------------------- the life of a recall task

  /** How far a task has come; undefined status values count as not started. */
  function Rank(status: int): nat {
    match ToRestoreStatus(status)
    case None => 0
    case Some(RestoreUnspecified) => 0
    case Some(RestorePending) => 1
    case Some(RestoreWaitingForMedia) => 1
    case Some(RestoreInProgress) => 2
    case Some(RestoreCompleted) => 3
    case Some(RestoreFailed) => 3
    case Some(RestoreExpired) => 4
  }

  predicate Final(status: int) { status == RESTORE_FAILED || status == RESTORE_EXPIRED }

  predicate InProgress(s: MetadataState, id: string) {
    id in s.recallTasks && s.recallTasks[id].status == RESTORE_IN_PROGRESS
  }

  predicate Started(s: MetadataState, id: string) {
    id in s.recallTasks && Rank(s.recallTasks[id].status) >= 2
  }

  /** An accepted update moves a started task strictly forward and leaves a final one alone. */
  lemma UpdateMovesForward(current: int, next: int)
    requires ValidateRestore(Some(current), next) == Done
    ensures Rank(current) <= Rank(next)
    ensures Rank(current) >= 2 ==> Rank(current) < Rank(next)
    ensures !Final(current)
  {}

  /** What no command can undo about a recall task. */
  ghost predicate Advances(s: MetadataState, t: MetadataState, id: string) {
    id in s.recallTasks ==>
      && id in t.recallTasks
      && Rank(s.recallTasks[id].status) <= Rank(t.recallTasks[id].status)
      && (Final(s.recallTasks[id].status) ==> t.recallTasks[id] == s.recallTasks[id])
  }

  lemma CommandAdvances(s: MetadataState, call: Call, id: string)
    requires Enumerates(call.order, s.objects)
    ensures Advances(s, After(s, call), id)
    ensures Started(s, id) && !InProgress(s, id) ==> !InProgress(After(s, call), id)
  {
    if call.command.UpdateRecallTask? || call.command.PutRecallTask? {
      TaskCommandAdvances(s, call.command.recallTask, call.now, id);
    } else {
      CallFrame(s, call);
    }
  }

  lemma TaskCommandAdvances(s: MetadataState, t: RecallTask, now: Timestamp, id: string)
    ensures var r := ApplyPutRecallTask(s, t, now);
            r.Ok? ==> Advances(s, r.value, id)
                      && (id in s.recallTasks ==> r.value.recallTasks[id] == s.recallTasks[id])
    ensures var r := ApplyUpdateRecallTask(s, t);
            r.Ok? ==> Advances(s, r.value, id)
                      && (Started(s, id) && !InProgress(s, id) ==> !InProgress(r.value, id))
  {
    if t.id in s.recallTasks && ValidateRestore(Some(s.recallTasks[t.id].status), t.status) == Done {
      UpdateMovesForward(s.recallTasks[t.id].status, t.status);
    }
  }

  /** How often task `id` enters InProgress along a run. */
  ghost function Entries(s: MetadataState, run: seq<Call>, id: string): nat
    requires ValidRun(s, run)
    decreases |run|
  {
    if run == [] then 0 else
      var t := After(s, run[0]);
      (if !InProgress(s, id) && InProgress(t, id) then 1 else 0) + Entries(t, run[1..], id)
  }

  /** In any command run a task enters InProgress at most once, and never after it was further. */
  lemma {:induction false} EntersInProgressOnce(s: MetadataState, run: seq<Call>, id: string)
    requires ValidRun(s, run)
    ensures Entries(s, run, id) <= 1
    ensures Started(s, id) ==> Entries(s, run, id) == 0
    decreases |run|
  {
    if run != [] {
      CommandAdvances(s, run[0], id);
      EntersInProgressOnce(After(s, run[0]), run[1..], id);
    }
  }

  /** Tasks are never removed; Failed and Expired tasks never change again. */
  lemma {:induction false} RunAdvances(s: MetadataState, run: seq<Call>, id: string)
    requires ValidRun(s, run)
    ensures Advances(s, AfterAll(s, run), id)
    decreases |run|
  {
    if run != [] {
      CommandAdvances(s, run[0], id);
      RunAdvances(After(s, run[0]), run[1..], id);
    }
  }

  // ------------------------------------------------------------------ claims

  /** Claims in progress, each at its thread position; a claim that returned true rests at `RecallClaimed`. */
  datatype Contest = Contest(meta: MetadataState, claims: map<nat, Thread>)

  datatype Move =
    | Begin(claim: nat, task: RecallTask)
    | Proceed(claim: nat, seen: Observation)
    | Abandon(claim: nat)
    | Other(call: Call)

  ghost function Proceeds(m: MetadataState, c: Thread, seen: Observation): (MetadataState, Thread)
    requires Enumerates(seen.order, m.objects)
  {
    if ClaimingRecall(c) then ClaimStep(m, c, seen) else (m, c)
  }

  ghost function MoveOn(g: Contest, v: Move): Contest {
    match v
    case Begin(i, task) =>
      if i in g.claims then g else g.(claims := g.claims[i := RecallStart(task)])
    case Proceed(i, seen) =>
      if i in g.claims && Enumerates(seen.order, g.meta.objects) then
        var (m, c) := Proceeds(g.meta, g.claims[i], seen);
        Contest(m, g.claims[i := c])
      else g
    case Abandon(i) =>
      if i in g.claims && !g.claims[i].RecallClaimed? then g.(claims := g.claims[i := Idle]) else g
    case Other(call) =>
      if Enumerates(call.order, g.meta.objects) then g.(meta := After(g.meta, call)) else g
  }

  ghost function Play(g: Contest, moves: seq<Move>): Contest
    decreases |moves|
  {
    if moves == [] then g else Play(MoveOn(g, moves[0]), moves[1..])
  }

  predicate Taken(c: Thread) { c.RecallMarkObject? || c.RecallClaimed? }

  /** The claim's update to InProgress was accepted. */
  predicate Holds(c: Thread, id: string) {
    Taken(c) && c.task.id == id
  }

  ghost predicate HeldIsStarted(g: Contest) {
    forall i :: i in g.claims && Taken(g.claims[i]) ==> Started(g.meta, g.claims[i].task.id)
  }

  ghost predicate OneHolder(g: Contest) {
    forall i, j, id :: i in g.claims && j in g.claims && Holds(g.claims[i], id) && Holds(g.claims[j], id) ==> i == j
  }

  predicate AsksInProgress(c: Thread) { c.RecallClaimWrite? ==> c.task.status == RESTORE_IN_PROGRESS }

  ghost predicate UpdatesAsk(g: Contest) {
    forall i :: i in g.claims ==> AsksInProgress(g.claims[i])
  }

  ghost predicate Fair(g: Contest) {
    HeldIsStarted(g) && OneHolder(g) && UpdatesAsk(g)
  }

  lemma CallKeepsStarted(s: MetadataState, call: Call, id: string)
    requires Enumerates(call.order, s.objects) && Started(s, id)
    ensures Started(After(s, call), id)
  {
    CommandAdvances(s, call, id);
  }

  /** Whatever a claim does next, started tasks stay started. */
  lemma ClaimKeepsStarted(m: MetadataState, c: Thread, seen: Observation, id: string)
    requires Enumerates(seen.order, m.objects) && Started(m, id)
    ensures Started(Proceeds(m, c, seen).0, id)
  {
    if c.RecallStart? {
      CallKeepsStarted(m, Call(PutRecallTask(c.task), seen.serverNow, seen.order), id);
    } else if c.RecallClaimWrite? {
      CallKeepsStarted(m, Call(UpdateRecallTask(c.task), seen.serverNow, seen.order), id);
    } else if c.RecallMarkObject? {
      CallKeepsStarted(m, Call(UpdateRestoreStatus(c.task.bucket, c.task.key, RESTORE_IN_PROGRESS, c.task.expireAt),
                               seen.serverNow, seen.order), id);
    }
  }

  /** A claim comes to hold a task only if that task was not started, and then it is. */
  lemma HoldingStarts(m: MetadataState, c: Thread, seen: Observation, id: string)
    requires Enumerates(seen.order, m.objects) && AsksInProgress(c)
    requires Holds(Proceeds(m, c, seen).1, id) && !Holds(c, id)
    ensures !Started(m, id) && Started(Proceeds(m, c, seen).0, id)
  {
    assert c.RecallClaimWrite? && c.task.id == id;
    assert ValidateRestore(Some(m.recallTasks[id].status), RESTORE_IN_PROGRESS) == Done;
    UpdateMovesForward(m.recallTasks[id].status, RESTORE_IN_PROGRESS);
  }

  lemma ProceedIsFair(g: Contest, i: nat, seen: Observation)
    requires Fair(g) && i in g.claims && Enumerates(seen.order, g.meta.objects)
    ensures Fair(MoveOn(g, Proceed(i, seen)))
  {
    var (m, c) := Proceeds(g.meta, g.claims[i], seen);
    var h := Contest(m, g.claims[i := c]);
    assert AsksInProgress(g.claims[i]);
    forall j | j in h.claims && Taken(h.claims[j])
      ensures Started(m, h.claims[j].task.id)
    {
      var id := h.claims[j].task.id;
      if j == i && !Holds(g.claims[i], id) {
        HoldingStarts(g.meta, g.claims[i], seen, id);
      } else {
        assert Holds(g.claims[j], id);
        ClaimKeepsStarted(g.meta, g.claims[i], seen, id);
      }
    }
    forall id, j | j in g.claims && Holds(c, id) && Holds(g.claims[j], id)
      ensures Holds(g.claims[i], id)
    {
      assert Started(g.meta, g.claims[j].task.id);
      if !Holds(g.claims[i], id) {
        HoldingStarts(g.meta, g.claims[i], seen, id);
      }
    }
    assert OneHolder(h);
  }

  lemma MoveIsFair(g: Contest, v: Move)
    requires Fair(g)
    ensures Fair(MoveOn(g, v))
  {
    if v.Proceed? {
      if v.claim in g.claims && Enumerates(v.seen.order, g.meta.objects) {
        ProceedIsFair(g, v.claim, v.seen);
      }
    } else if v.Other? {
      if Enumerates(v.call.order, g.meta.objects) {
        var h := MoveOn(g, v);
        forall i | i in h.claims && Taken(h.claims[i])
          ensures Started(h.meta, h.claims[i].task.id)
        {
          CallKeepsStarted(g.meta, v.call, g.claims[i].task.id);
        }
      }
    }
  }

  lemma {:induction false} PlayIsFair(g: Contest, moves: seq<Move>)
    requires Fair(g)
    ensures Fair(Play(g, moves))
    decreases |moves|
  {
    if moves != [] {
      MoveIsFair(g, moves[0]);
      PlayIsFair(MoveOn(g, moves[0]), moves[1..]);
    }
  }

  /**
   From any metadata state, however claims and other commands interleave, two different
   claims never both succeed on one task, and a claimed task is at least in progress.
   */
  lemma AtMostOneClaimSucceeds(m: MetadataState, moves: seq<Move>, i: nat, j: nat)
    requires var g := Play(Contest(m, map[]), moves);
             i in g.claims && g.claims[i].RecallClaimed? && j in g.claims && g.claims[j].RecallClaimed?
    ensures var g := Play(Contest(m, map[]), moves);
            && Started(g.meta, g.claims[i].task.id)
            && (i != j ==> g.claims[i].task.id != g.claims[j].task.id)
  {
    var g := Play(Contest(m, map[]), moves);
    PlayIsFair(Contest(m, map[]), moves);
    assert Holds(g.claims[i], g.claims[i].task.id) && Holds(g.claims[j], g.claims[j].task.id);
  }

  /** The first three calls of a claim that meets no competitor: the recall task is taken. */
  lemma LoneClaimTakes(m: MetadataState, task: RecallTask, seen: Observation)
    requires Enumerates(seen.order, m.objects)
    requires task.id in m.recallTasks && m.recallTasks[task.id] == task
    requires task.status == RESTORE_PENDING || task.status == RESTORE_WAITING_FOR_MEDIA
    ensures var taken := task.(status := RESTORE_IN_PROGRESS, error := None, startedAt := Some(seen.clientNow));
            && ClaimStep(m, RecallStart(task), seen) == (m, RecallClaimRead(task.id))
            && ClaimStep(m, RecallClaimRead(task.id), seen) == (m, RecallClaimWrite(taken))
            && ClaimStep(m, RecallClaimWrite(taken), seen)
               == (m.(recallTasks := m.recallTasks[task.id := taken]), RecallMarkObject(taken))
  {}

  lemma LoneMark(m: MetadataState, task: RecallTask, seen: Observation)
    requires Enumerates(seen.order, m.objects)
    ensures var (m', c) := ClaimStep(m, RecallMarkObject(task), seen);
            var found := Find(m.objects, seen.order, task.bucket, task.key, None);
            && m'.recallTasks == m.recallTasks
            && (c.RecallClaimed? <==>
                  found.Some? && ValidateRestore(m.objects[found.value].restoreStatus, RESTORE_IN_PROGRESS) == Done)
  {}

  /** A claim that meets no competitor succeeds iff the object may go to InProgress. */
  lemma LoneClaimSucceedsIff(m: MetadataState, task: RecallTask, seen: Observation)
    requires Enumerates(seen.order, m.objects)
    requires task.id in m.recallTasks && m.recallTasks[task.id] == task
    requires task.status == RESTORE_PENDING || task.status == RESTORE_WAITING_FOR_MEDIA
    ensures var p := Proceed(0, seen);
            var found := Find(m.objects, seen.order, task.bucket, task.key, None);
            var g := MoveOn(MoveOn(MoveOn(MoveOn(Contest(m, map[0 := RecallStart(task)]), p), p), p), p);
            && 0 in g.claims && InProgress(g.meta, task.id)
            && (g.claims[0].RecallClaimed? <==>
                  found.Some? && ValidateRestore(m.objects[found.value].restoreStatus, RESTORE_IN_PROGRESS) == Done)
  {
    LoneClaimTakes(m, task, seen);
    var p := Proceed(0, seen);
    var taken := task.(status := RESTORE_IN_PROGRESS, error := None, startedAt := Some(seen.clientNow));
    var g1 := MoveOn(Contest(m, map[0 := RecallStart(task)]), p);
    assert g1 == Contest(m, map[0 := RecallClaimRead(task.id)]);
    var g2 := MoveOn(g1, p);
    assert g2 == Contest(m, map[0 := RecallClaimWrite(taken)]);
    var g3 := MoveOn(g2, p);
    assert g3 == Contest(m.(recallTasks := m.recallTasks[task.id := taken]), map[0 := RecallMarkObject(taken)]);
    LoneMark(g3.meta, taken, seen);
  }

  // ----------------------------------------------------------------- retries

  /** A retriable failure asks for InProgress to WaitingForMedia; the service refuses and nothing changes. */
  lemma RetryChangesNothing(w: World, task: RecallTask, seen: Observation)
    requires Enumerates(seen.order, w.meta.objects)
    requires InProgress(w.meta, task.id) && task.status == RESTORE_WAITING_FOR_MEDIA
    ensures StepRecallFail(w, RecallUpdate(task), seen) == (w, Idle)
  {}

  /** The call completes or fails the recall task. */
  predicate Settles(call: Call, id: string) {
    && call.command.UpdateRecallTask? && call.command.recallTask.id == id
    && (call.command.recallTask.status == RESTORE_COMPLETED || call.command.recallTask.status == RESTORE_FAILED)
  }

  lemma UnsettledTaskStays(s: MetadataState, t: RecallTask, now: Timestamp, id: string)
    requires InProgress(s, id)
    ensures var r := ApplyPutRecallTask(s, t, now);
            r.Ok? ==> id in r.value.recallTasks && r.value.recallTasks[id] == s.recallTasks[id]
    ensures var r := ApplyUpdateRecallTask(s, t);
            r.Ok? && !(t.id == id && (t.status == RESTORE_COMPLETED || t.status == RESTORE_FAILED)) ==>
              id in r.value.recallTasks && r.value.recallTasks[id] == s.recallTasks[id]
  {}

  lemma UnsettledStays(s: MetadataState, call: Call, id: string)
    requires Enumerates(call.order, s.objects) && InProgress(s, id) && !Settles(call, id)
    ensures InProgress(After(s, call), id) && After(s, call).recallTasks[id] == s.recallTasks[id]
  {
    if call.command.UpdateRecallTask? || call.command.PutRecallTask? {
      UnsettledTaskStays(s, call.command.recallTask, call.now, id);
    } else {
      CallFrame(s, call);
    }
  }

  /**
   After a retriable failure the recall task is stuck: in every continuation without a completing or failing update it
   stays InProgress, unchanged.
   */
  lemma {:induction false} StuckInProgress(s: MetadataState, run: seq<Call>, id: string)
    requires ValidRun(s, run) && InProgress(s, id)
    requires forall i :: 0 <= i < |run| ==> !Settles(run[i], id)
    ensures InProgress(AfterAll(s, run), id) && AfterAll(s, run).recallTasks[id] == s.recallTasks[id]
    decreases |run|
  {
    if run != [] {
      UnsettledStays(s, run[0], id);
      StuckInProgress(After(s, run[0]), run[1..], id);
    }
  }

  ghost predicate NoneHolds(g: Contest, id: string) {
    forall i :: i in g.claims ==> !Holds(g.claims[i], id)
  }

  lemma StartedIsNotTaken(g: Contest, v: Move, id: string)
    requires Fair(g) && Started(g.meta, id) && NoneHolds(g, id)
    ensures Started(MoveOn(g, v).meta, id) && NoneHolds(MoveOn(g, v), id)
  {
    if v.Proceed? && v.claim in g.claims && Enumerates(v.seen.order, g.meta.objects) {
      ClaimKeepsStarted(g.meta, g.claims[v.claim], v.seen, id);
      assert AsksInProgress(g.claims[v.claim]);
      if Holds(Proceeds(g.meta, g.claims[v.claim], v.seen).1, id) {
        HoldingStarts(g.meta, g.claims[v.claim], v.seen, id);
      }
    } else if v.Other? && Enumerates(v.call.order, g.meta.objects) {
      CallKeepsStarted(g.meta, v.call, id);
    }
  }

  /** And no later claim of a started task ever succeeds, whatever else happens. */
  lemma {:induction false} StartedIsNeverClaimedAgain(g: Contest, moves: seq<Move>, id: string)
    requires Fair(g) && Started(g.meta, id) && NoneHolds(g, id)
    ensures NoneHolds(Play(g, moves), id)
    decreases |moves|
  {
    if moves != [] {
      StartedIsNotTaken(g, moves[0], id);
      MoveIsFair(g, moves[0]);
      StartedIsNeverClaimedAgain(MoveOn(g, moves[0]), moves[1..], id);
    }
  }
}
