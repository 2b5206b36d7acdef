/**
 The local persistent metadata backend.  A proposal is applied to the service's
 in-memory state, then logged, applied to the storage's own state machine and
 saved as a snapshot; only the snapshot is read back when the store is reopened.
 */
module Durability {
  import opened Basics
  import opened MetadataTypes
  import opened MetadataSpec
  import opened MetadataInvariants
  import opened MetadataMachine
  import opened ClockReadings
  import opened Snapshot

  const TERM: nat := 1

  datatype LogEntry = LogEntry(term: nat, command: Command)

  /** The durable key-value store: the log records and the latest snapshot. */
  datatype Disk = Disk(log: map<nat, LogEntry>, snapshot: Option<seq<Byte>>)

  const BLANK_DISK: Disk := Disk(map[], None)

  /** Opening reads the snapshot and never replays the log. */
  function Reopen(c: Codecs, d: Disk): Result<MetadataState> {
    match d.snapshot
    case None => Ok(EMPTY_STATE)
    case Some(bytes) => DecodeSnapshot(c, bytes)
  }

  /** A proposed command with what its two executions and the snapshot writer observed. */
  datatype Proposal = Proposal(
    command: Command,
    memoryNow: Timestamp, memoryOrder: seq<ObjectKey>,
    storageNow: Timestamp, storageOrder: seq<ObjectKey>,
    enumeration: Enumeration)

  datatype Node = Node(memory: MetadataState, machine: MetadataState, disk: Disk, proposed: nat)

  function Opened(s: MetadataState, d: Disk): Node { Node(s, s, d, |d.log|) }

  // ------------------------------------------------------ what propose does

  ghost predicate ObservesState(n: Node, p: Proposal) {
    && Enumerates(p.memoryOrder, n.memory.objects)
    && Enumerates(p.storageOrder, n.machine.objects)
    && (var r := Apply(n.machine, p.command, p.storageNow, p.storageOrder);
        r.Ok? ==> EnumeratesState(p.enumeration, r.value))
  }

  function Logged(d: Disk, c: Command): Disk {
    d.(log := d.log[|d.log| + 1 := LogEntry(TERM, c)])
  }

  /** What storage does with a command: its new state, the successive durable states, the log index. */
  ghost function StorageStep(c: Codecs, s: MetadataState, d: Disk, command: Command, now: Timestamp,
                             order: seq<ObjectKey>, e: Enumeration): (MetadataState, seq<Disk>, Result<nat>)
    requires Enumerates(order, s.objects)
    requires var r := Apply(s, command, now, order); r.Ok? ==> EnumeratesState(e, r.value)
  {
    var logged := Logged(d, command);
    match Apply(s, command, now, order)
    case Err(_) => (s, [logged], Err(Internal))
    case Ok(t) => (t, [logged, logged.(snapshot := Some(EncodeSnapshot(c, t, e)))], Ok(|d.log| + 1))
  }

  ghost function StepOf(c: Codecs, n: Node, p: Proposal): (MetadataState, seq<Disk>, Result<nat>)
    requires ObservesState(n, p)
  {
    StorageStep(c, n.machine, n.disk, p.command, p.storageNow, p.storageOrder, p.enumeration)
  }

  /** The successive durable states while storage handles one proposal. */
  ghost function StorageWrites(c: Codecs, n: Node, p: Proposal): (r: seq<Disk>)
    requires ObservesState(n, p)
    ensures |r| > 0
  {
    StepOf(c, n, p).1
  }

  /** The node after one proposal: memory first, then storage, then the commit counter. */
  ghost function Proposed(c: Codecs, n: Node, p: Proposal): (Node, Status)
    requires ObservesState(n, p)
  {
    match Apply(n.memory, p.command, p.memoryNow, p.memoryOrder)
    case Err(code) => (n, Failed(code))
    case Ok(m) =>
      var (s, writes, index) := StepOf(c, n, p);
      var disk := StorageWrites(c, n, p)[|writes| - 1];
      if index.Err? then (Node(m, s, disk, n.proposed), Failed(Internal))
      else (Node(m, s, disk, index.value), Done)
  }

  // ------------------------------------------------------------ agreement

  /** Log records are numbered 1..n without a gap. */
  ghost predicate LogDense(log: map<nat, LogEntry>) {
    forall i :: i in log <==> 1 <= i <= |log|
  }

  /** Memory, the storage state machine and the durable snapshot hold the same state. */
  ghost predicate Agrees(c: Codecs, n: Node) {
    && n.memory == n.machine
    && KeysDerived(n.memory)
    && Reopen(c, n.disk) == Ok(n.memory)
    && LogDense(n.disk.log)
    && n.proposed == |n.disk.log|
  }

  /** Both executions see the same clock value, if it matters, and no hash-order tie decides the lookup. */
  ghost predicate SameObservations(n: Node, p: Proposal) {
    && (p.memoryNow == p.storageNow || !Stamps(n.memory, p.command))
    && LookupTargetUnique(n.memory, p.command)
  }

  /** The state the command leads to, if any, can be read back from a snapshot. */
  ghost predicate SnapshotReadable(c: Codecs, n: Node, p: Proposal)
    requires ObservesState(n, p)
  {
    var r := Apply(n.machine, p.command, p.storageNow, p.storageOrder);
    r.Ok? ==> AllLawful(c, r.value) && WithinLimits(c, r.value)
  }

  lemma LogStaysDense(d: Disk, c: Command)
    requires LogDense(d.log)
    ensures LogDense(Logged(d, c).log) && |Logged(d, c).log| == |d.log| + 1
  {
    assert |d.log| + 1 !in d.log;
  }

  lemma LimitsFitMemory(c: Codecs, s: MetadataState)
    requires WithinLimits(c, s)
    ensures InMemory(c, s)
  {
  }

  /** The two executions of a proposal take the same decision and reach the same state. */
  lemma ExecutionsAgree(n: Node, p: Proposal)
    requires n.memory == n.machine && ObservesState(n, p) && SameObservations(n, p)
    ensures var a := Apply(n.memory, p.command, p.memoryNow, p.memoryOrder);
            var b := Apply(n.machine, p.command, p.storageNow, p.storageOrder);
            (a.Ok? <==> b.Ok?) && (a.Ok? ==> a.value == b.value)
  {
    ApplyIgnoresOrder(n.memory, p.command, p.storageNow, p.memoryOrder, p.storageOrder);
    ReadingsMatterIffStamped(n.memory, p.command, p.memoryNow, p.storageNow, p.memoryOrder);
  }

  /** One proposal: storage takes the same decision as memory, and everything agrees again. */
  lemma ProposalAgrees(c: Codecs, n: Node, p: Proposal)
    requires Agrees(c, n) && ObservesState(n, p)
    requires SameObservations(n, p) && SnapshotReadable(c, n, p)
    ensures var (after, status) := Proposed(c, n, p);
            && Agrees(c, after)
            && after.memory == After(n.memory, Call(p.command, p.memoryNow, p.memoryOrder))
            && (status.Failed? ==> after == n)
            && (status == Done ==> after.proposed == n.proposed + 1)
  {
    ExecutionsAgree(n, p);
    var r := Apply(n.memory, p.command, p.memoryNow, p.memoryOrder);
    if r.Ok? {
      CommandKeepsKeys(n.memory, p.command, p.memoryNow, p.memoryOrder);
      LimitsFitMemory(c, r.value);
      SnapshotRoundTrip(c, r.value, p.enumeration);
      LogStaysDense(n.disk, p.command);
    }
  }

  lemma DoneLeaves(c: Codecs, n: Node, p: Proposal)
    requires n.memory == n.machine && KeysDerived(n.memory)
    requires ObservesState(n, p) && SameObservations(n, p) && Proposed(c, n, p).1 == Done
    ensures var after := Proposed(c, n, p).0;
            && KeysDerived(after.machine) && after.memory == after.machine && EnumeratesState(p.enumeration, after.machine)
            && after.disk.snapshot == Some(EncodeSnapshot(c, after.machine, p.enumeration))
  {
    ExecutionsAgree(n, p);
    CommandKeepsKeys(n.memory, p.command, p.memoryNow, p.memoryOrder);
  }

  /** An accepted command can be read back after a restart exactly when the new state is within the limits. */
  lemma ReadableIffWithinLimits(c: Codecs, n: Node, p: Proposal)
    requires Agrees(c, n) && ObservesState(n, p) && SameObservations(n, p)
    requires Proposed(c, n, p).1 == Done
    requires AllLawful(c, Proposed(c, n, p).0.machine) && InMemory(c, Proposed(c, n, p).0.machine)
    ensures Reopen(c, Proposed(c, n, p).0.disk).Ok? <==> WithinLimits(c, Proposed(c, n, p).0.memory)
  {
    DoneLeaves(c, n, p);
    SnapshotRoundTrip(c, Proposed(c, n, p).0.machine, p.enumeration);
  }

  /**
   For every command, without a lookup tie: memory and storage agree after a proposal iff the command was
   rejected, or both executions read the same clock value, or the command stores no clock value.
   */
  lemma ClocksMustAgree(c: Codecs, n: Node, p: Proposal)
    requires n.memory == n.machine && ObservesState(n, p) && LookupTargetUnique(n.memory, p.command)
    ensures Proposed(c, n, p).0.memory == Proposed(c, n, p).0.machine
            <==> Apply(n.memory, p.command, p.memoryNow, p.memoryOrder).Err?
                 || p.memoryNow == p.storageNow || !Stamps(n.memory, p.command)
  {
    ApplyIgnoresOrder(n.memory, p.command, p.storageNow, p.memoryOrder, p.storageOrder);
    ReadingsMatterIffStamped(n.memory, p.command, p.memoryNow, p.storageNow, p.memoryOrder);
  }

  // --------------------------------------------------------------- crashes

  /** The durable writes of a proposal; a command that memory rejects never reaches storage. */
  ghost function DurableWrites(c: Codecs, n: Node, p: Proposal): seq<Disk>
    requires ObservesState(n, p)
  {
    if Apply(n.memory, p.command, p.memoryNow, p.memoryOrder).Ok? then StorageWrites(c, n, p) else []
  }

  /** The disk after the first k durable writes of a proposal. */
  ghost function DiskAfter(c: Codecs, n: Node, p: Proposal, k: nat): Disk
    requires ObservesState(n, p)
  {
    var writes := DurableWrites(c, n, p);
    if k == 0 || writes == [] then n.disk else writes[Min(k, |writes|) - 1]
  }

  /** What happens to a node: a proposal runs to its end, or the node crashes after k writes of it and is reopened. */
  datatype Incident = Submit(proposal: Proposal) | CrashDuring(proposal: Proposal, writes: nat)

  ghost function NodeAfter(c: Codecs, n: Node, i: Incident): Result<Node>
    requires ObservesState(n, i.proposal)
  {
    match i
    case Submit(p) => Ok(Proposed(c, n, p).0)
    case CrashDuring(p, k) =>
      var d := DiskAfter(c, n, p, k);
      var s :- Reopen(c, d);
      Ok(Opened(s, d))
  }

  /** The command took effect: it ran to its end, or the crash came after its snapshot was written. */
  predicate TakesEffect(i: Incident) { i.Submit? || i.writes >= 2 }

  function CallOf(i: Incident): Call {
    Call(i.proposal.command, i.proposal.memoryNow, i.proposal.memoryOrder)
  }

  /** A crash anywhere inside a proposal reopens to the state just before or just after it, and all copies agree. */
  lemma CrashKeepsOneState(c: Codecs, n: Node, p: Proposal, k: nat)
    requires Agrees(c, n) && ObservesState(n, p)
    requires SameObservations(n, p) && SnapshotReadable(c, n, p)
    ensures var r := NodeAfter(c, n, CrashDuring(p, k));
            && r.Ok? && Agrees(c, r.value)
            && r.value.memory == if k >= 2 then After(n.memory, Call(p.command, p.memoryNow, p.memoryOrder))
                                 else n.memory
  {
    ProposalAgrees(c, n, p);
    ExecutionsAgree(n, p);
    LogStaysDense(n.disk, p.command);
  }

  // ----------------------------------------------------------------- runs

  ghost predicate GoodIncident(c: Codecs, n: Node, i: Incident) {
    ObservesState(n, i.proposal) && SameObservations(n, i.proposal) && SnapshotReadable(c, n, i.proposal)
  }

  ghost predicate GoodRun(c: Codecs, n: Node, run: seq<Incident>)
    decreases |run|
  {
    run == [] ||
    (&& GoodIncident(c, n, run[0])
     && (var next := NodeAfter(c, n, run[0]); next.Ok? ==> GoodRun(c, next.value, run[1..])))
  }

  ghost function RunIncidents(c: Codecs, n: Node, run: seq<Incident>): Result<Node>
    requires GoodRun(c, n, run)
    decreases |run|
  {
    if run == [] then Ok(n) else
      var next :- NodeAfter(c, n, run[0]);
      RunIncidents(c, next, run[1..])
  }

  /** The commands that took effect, as the pure state machine sees them. */
  function Calls(run: seq<Incident>): seq<Call> {
    if run == [] then [] else (if TakesEffect(run[0]) then [CallOf(run[0])] else []) + Calls(run[1..])
  }

  lemma IncidentAgrees(c: Codecs, n: Node, i: Incident)
    requires Agrees(c, n) && GoodIncident(c, n, i)
    ensures var r := NodeAfter(c, n, i);
            r.Ok? && Agrees(c, r.value) && r.value.memory == if TakesEffect(i) then After(n.memory, CallOf(i)) else n.memory
  {
    if i.Submit? {
      ProposalAgrees(c, n, i.proposal);
    } else {
      CrashKeepsOneState(c, n, i.proposal, i.writes);
    }
  }

  /** Along every run, with crashes wherever they fall, all copies agree and follow the pure state machine. */
  lemma {:induction false} RunAgrees(c: Codecs, n: Node, run: seq<Incident>)
    requires Agrees(c, n) && GoodRun(c, n, run)
    ensures RunIncidents(c, n, run).Ok? && Agrees(c, RunIncidents(c, n, run).value)
    ensures ValidRun(n.memory, Calls(run))
    ensures RunIncidents(c, n, run).value.memory == AfterAll(n.memory, Calls(run))
    decreases |run|
  {
    if run != [] {
      IncidentAgrees(c, n, run[0]);
      RunAgrees(c, NodeAfter(c, n, run[0]).value, run[1..]);
      if TakesEffect(run[0]) {
        assert Calls(run)[1..] == Calls(run[1..]);
      } else {
        assert Calls(run) == Calls(run[1..]);
      }
    }
  }

  /**
   From a freshly opened blank store, after any run with any crashes: memory, the storage state machine and the
   reopened snapshot are the state of the pure machine after exactly the commands that took effect, and the log
   holds exactly the indices 1..n.
   */
  lemma OpenedRunIsDurable(c: Codecs, run: seq<Incident>)
    requires GoodRun(c, Opened(EMPTY_STATE, BLANK_DISK), run)
    ensures ValidRun(EMPTY_STATE, Calls(run))
    ensures var r := RunIncidents(c, Opened(EMPTY_STATE, BLANK_DISK), run);
            var s := AfterAll(EMPTY_STATE, Calls(run));
            && r.Ok? && r.value.memory == s && r.value.machine == s
            && Reopen(c, r.value.disk) == Ok(s) && LogDense(r.value.disk.log)
  {
    RunAgrees(c, Opened(EMPTY_STATE, BLANK_DISK), run);
  }

  // -------------------------------------------- runs whose codecs exist

  ghost function StateAfter(s: MetadataState, i: Incident): MetadataState
    requires Enumerates(i.proposal.memoryOrder, s.objects)
  {
    if TakesEffect(i) then After(s, CallOf(i)) else s
  }

  /** The run without its codecs: observations fit the states it meets, and no state has too many records. */
  ghost predicate FeasibleRun(s: MetadataState, run: seq<Incident>)
    decreases |run|
  {
    run == [] ||
    (var p := run[0].proposal;
     && ObservesState(Opened(s, BLANK_DISK), p) && SameObservations(Opened(s, BLANK_DISK), p)
     && (var r := Apply(s, p.command, p.storageNow, p.storageOrder); r.Ok? ==> FewMessages(r.value))
     && FeasibleRun(StateAfter(s, run[0]), run[1..]))
  }

  /** The states that the run may write to a snapshot. */
  ghost function SavedStates(s: MetadataState, run: seq<Incident>): (r: seq<MetadataState>)
    requires FeasibleRun(s, run)
    ensures |r| <= |run| && forall i :: 0 <= i < |r| ==> FewMessages(r[i])
    decreases |run|
  {
    if run == [] then [] else
      var p := run[0].proposal;
      var r := Apply(s, p.command, p.storageNow, p.storageOrder);
      (if r.Ok? then [r.value] else []) + SavedStates(StateAfter(s, run[0]), run[1..])
  }

  lemma {:induction false} CoveredRunIsGood(c: Codecs, n: Node, run: seq<Incident>)
    requires Agrees(c, n) && FeasibleRun(n.memory, run)
    requires forall t :: t in SavedStates(n.memory, run) ==> AllLawful(c, t) && WithinLimits(c, t)
    ensures GoodRun(c, n, run)
    decreases |run|
  {
    if run != [] {
      var p := run[0].proposal;
      var r := Apply(n.memory, p.command, p.storageNow, p.storageOrder);
      if r.Ok? {
        assert SavedStates(n.memory, run)[0] == r.value;
      }
      IncidentAgrees(c, n, run[0]);
      var rest := SavedStates(StateAfter(n.memory, run[0]), run[1..]);
      assert forall t :: t in rest ==> t in SavedStates(n.memory, run);
      CoveredRunIsGood(c, NodeAfter(c, n, run[0]).value, run[1..]);
    }
  }

  /** For every feasible run there are codecs under which it is good, so the theorems above speak of all of them. */
  lemma FeasibleRunHasCodecs(run: seq<Incident>) returns (c: Codecs)
    requires FeasibleRun(EMPTY_STATE, run) && |run| * MAX_MESSAGES < U64
    ensures GoodRun(c, Opened(EMPTY_STATE, BLANK_DISK), run)
  {
    var saved := SavedStates(EMPTY_STATE, run);
    assert |saved| * MAX_MESSAGES <= |run| * MAX_MESSAGES;
    c := CodecsFor(saved);
    CoveredRunIsGood(c, Opened(EMPTY_STATE, BLANK_DISK), run);
  }

  // ------------------------------------------------------- implementation

  /** The storage half: a durable log and snapshot beside its own state machine. */
  class LocalSingleNodeMetadataRaft {
    const codecs: Codecs
    const machine: MetadataStateMachine
    var log: map<nat, LogEntry>
    var snapshot: Option<seq<Byte>>

    ghost function OnDisk(): Disk
      reads this
    {
      Disk(log, snapshot)
    }

    constructor (codecs: Codecs, disk: Disk, state: MetadataState)
      ensures this.codecs == codecs && OnDisk() == disk
      ensures fresh(machine) && machine.State() == state
    {
      this.codecs := codecs;
      log, snapshot := disk.log, disk.snapshot;
      machine := new MetadataStateMachine(state);
    }

    /** Fails exactly when a snapshot is present and unreadable. */
    static method Open(codecs: Codecs, disk: Disk) returns (r: Result<LocalSingleNodeMetadataRaft>)
      ensures match Reopen(codecs, disk)
              case Err(code) => r == Err(code)
              case Ok(s) => r.Ok? && fresh(r.value) && fresh(r.value.machine) && r.value.codecs == codecs
                            && r.value.OnDisk() == disk && r.value.machine.State() == s
    {
      if disk.snapshot.None? {
        var node := new LocalSingleNodeMetadataRaft(codecs, disk, EMPTY_STATE);
        return Ok(node);
      }
      var decoded := ReadSnapshot(codecs, disk.snapshot.value);
      if decoded.Err? { return Err(decoded.code); }
      var node := new LocalSingleNodeMetadataRaft(codecs, disk, decoded.value);
      r := Ok(node);
    }

    /** Log, apply, save; `writes` records the durable state after each write. */
    method Propose(c: Command, now: Timestamp, order: seq<ObjectKey>, e: Enumeration)
      returns (r: Result<nat>, ghost writes: seq<Disk>)
      requires Enumerates(order, machine.objects)
      requires var next := Apply(machine.State(), c, now, order); next.Ok? ==> EnumeratesState(e, next.value)
      modifies this, machine
      ensures (machine.State(), writes, r)
              == StorageStep(codecs, old(machine.State()), old(OnDisk()), c, now, order, e)
      ensures |writes| > 0 && OnDisk() == writes[|writes| - 1]
    {
      var index := AppendLogEntry(c);
      ghost var logged := OnDisk();
      var status := machine.ApplyCommand(c, now, order);
      if status.Failed? { return Err(Internal), [logged]; }
      SaveSnapshot(e);
      return Ok(index), [logged, OnDisk()];
    }

    method AppendLogEntry(c: Command) returns (index: nat)
      modifies this`log
      ensures index == |old(log)| + 1 && OnDisk() == Logged(old(OnDisk()), c)
    {
      index := |log| + 1;
      log := log[index := LogEntry(TERM, c)];
    }

    method SaveSnapshot(e: Enumeration)
      requires EnumeratesState(e, machine.State())
      modifies this`snapshot
      ensures OnDisk() == old(OnDisk()).(snapshot := Some(EncodeSnapshot(codecs, machine.State(), e)))
    {
      var state := MetadataState(machine.objects, machine.buckets, machine.archiveBundles, machine.archiveTasks,
                                 machine.recallTasks, machine.tapes, machine.schedulerWorkers,
                                 machine.cacheWorkers, machine.tapeWorkers);
      var bytes := WriteSnapshot(codecs, state, e);
      snapshot := Some(bytes);
    }
  }

  /** The service half: the shared in-memory state, its storage and the commit counter. */
  class RaftMetadataBackend {
    const memory: MetadataStateMachine
    const storage: LocalSingleNodeMetadataRaft
    var proposedCommands: nat

    ghost predicate Valid() {
      memory != storage.machine
    }

    ghost function View(): Node
      reads this, memory, storage, storage.machine
    {
      Node(memory.State(), storage.machine.State(), storage.OnDisk(), proposedCommands)
    }

    constructor (storage: LocalSingleNodeMetadataRaft, initial: MetadataState)
      ensures Valid() && this.storage == storage && fresh(memory)
      ensures View() == Node(initial, storage.machine.State(), storage.OnDisk(), |storage.log|)
    {
      this.storage := storage;
      memory := new MetadataStateMachine(initial);
      proposedCommands := |storage.log|;
    }

    /** Applies to memory first, then to storage, then advances the commit counter. */
    method ProposeLocalApply(p: Proposal) returns (status: Status, ghost writes: seq<Disk>)
      requires Valid() && ObservesState(View(), p)
      modifies this, memory, storage, storage.machine
      ensures (View(), status) == Proposed(storage.codecs, old(View()), p)
      ensures writes == if Apply(old(memory.State()), p.command, p.memoryNow, p.memoryOrder).Ok?
                        then StorageWrites(storage.codecs, old(View()), p) else []
    {
      writes := [];
      status := memory.ApplyCommand(p.command, p.memoryNow, p.memoryOrder);
      if status.Failed? { return; }
      assert storage.OnDisk() == old(storage.OnDisk()) && storage.machine.State() == old(storage.machine.State());
      var persisted, w := storage.Propose(p.command, p.storageNow, p.storageOrder, p.enumeration);
      writes := w;
      if persisted.Err? { return Failed(Internal), writes; }
      proposedCommands := persisted.value;
      status := Done;
    }
  }
}
