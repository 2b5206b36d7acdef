/** Which commands leave the tasks and the bundles alone. */
module CommandFrames {
  import opened Basics
  import opened MetadataTypes
  import opened MetadataSpec

  predicate OnRecallTask(c: Command) { c.PutRecallTask? || c.UpdateRecallTask? }

  predicate OnArchiveTask(c: Command) { c.PutArchiveTask? || c.UpdateArchiveTask? }

  predicate OnBundle(c: Command) { c.PutArchiveBundle? || c.UpdateArchiveBundleStatus? || c.CompleteArchiveObject? }

  /** The maps that this command may not touch are the same. */
  ghost predicate Framed(s: MetadataState, t: MetadataState, c: Command) {
    && (!OnRecallTask(c) ==> t.recallTasks == s.recallTasks)
    && (!OnArchiveTask(c) ==> t.archiveTasks == s.archiveTasks)
    && (!OnBundle(c) ==> t.archiveBundles == s.archiveBundles)
  }

  lemma LookupCommandFrame(s: MetadataState, c: Command, now: Timestamp, order: seq<ObjectKey>)
    requires Enumerates(order, s.objects)
    requires c.UpdateStorageClass? || c.UpdateArchiveLocation? || c.CompleteArchiveObject? || c.UpdateRestoreStatus?
    ensures var r := Apply(s, c, now, order); r.Ok? ==> Framed(s, r.value, c)
  {}

  lemma StoreCommandFrame(s: MetadataState, c: Command, now: Timestamp, order: seq<ObjectKey>)
    requires Enumerates(order, s.objects)
    requires c.PutObject? || c.DeleteObject? || c.CreateBucket? || c.DeleteBucket? || c.PutArchiveBundle?
             || c.UpdateArchiveBundleStatus?
    ensures var r := Apply(s, c, now, order); r.Ok? ==> Framed(s, r.value, c)
  {}

  lemma TaskCommandFrame(s: MetadataState, c: Command, now: Timestamp, order: seq<ObjectKey>)
    requires Enumerates(order, s.objects)
    requires OnRecallTask(c) || OnArchiveTask(c)
    ensures var r := Apply(s, c, now, order); r.Ok? ==> Framed(s, r.value, c)
  {}

  lemma ClusterCommandFrame(s: MetadataState, c: Command, now: Timestamp, order: seq<ObjectKey>)
    requires Enumerates(order, s.objects) && ChangesCluster(c)
    ensures var r := Apply(s, c, now, order); r.Ok? ==> Framed(s, r.value, c)
  {
    assert Apply(s, c, now, order) == ApplyCluster(s, c, now);
  }

  lemma CallFrame(s: MetadataState, call: Call)
    requires Enumerates(call.order, s.objects)
    ensures Framed(s, After(s, call), call.command)
  {
    var c := call.command;
    if c.UpdateStorageClass? || c.UpdateArchiveLocation? || c.CompleteArchiveObject? || c.UpdateRestoreStatus? {
      LookupCommandFrame(s, c, call.now, call.order);
    } else if ChangesCluster(c) {
      ClusterCommandFrame(s, c, call.now, call.order);
    } else if OnRecallTask(c) || OnArchiveTask(c) {
      TaskCommandFrame(s, c, call.now, call.order);
    } else {
      StoreCommandFrame(s, c, call.now, call.order);
    }
  }
}
