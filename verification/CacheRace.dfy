/**
 Overwrites and deletes of cache entries that interleave.  A put writes a blob under a fresh
 id, points the index at it and then deletes the blob it replaced; a delete reads the id,
 deletes the blob and removes the entry only if it still has that id.  Backend deletes may
 fail at any time.
 */
module CacheRace {
  import opened Basics
  import opened CacheIndexes
  import opened CacheRebuild

  datatype Place = Place(category: Category, key: CacheKey)

  datatype Op =
    | PutStart(place: Place)
    | PutWritten(place: Place, id: nat)
    | PutInserted(replaced: Option<nat>)
    | DeleteStart(place: Place)
    | DeleteRead(place: Place, id: nat)
    | BlobDeleted(place: Place, id: nat)
    | Finished

  datatype Cache = Cache(index: map<Place, nat>, live: set<nat>, nextId: nat, ops: map<nat, Op>)

  datatype Event = Begin(op: nat, start: Op) | Step(op: nat, deletes: bool)

  function StepOp(c: Cache, op: Op, deletes: bool): (Cache, Op) {
    match op
    case PutStart(p) => (c.(live := c.live + {c.nextId}, nextId := c.nextId + 1), PutWritten(p, c.nextId))
    case PutWritten(p, id) =>
      (c.(index := c.index[p := id]), PutInserted(if p in c.index then Some(c.index[p]) else None))
    case PutInserted(replaced) =>
      (if replaced.Some? && deletes then c.(live := c.live - {replaced.value}) else c, Finished)
    case DeleteStart(p) => (c, if p in c.index then DeleteRead(p, c.index[p]) else Finished)
    case DeleteRead(p, id) => if deletes then (c.(live := c.live - {id}), BlobDeleted(p, id)) else (c, Finished)
    case BlobDeleted(p, id) =>
      (if p in c.index && c.index[p] == id then c.(index := c.index - {p}) else c, Finished)
    case Finished => (c, Finished)
  }

  function Next(c: Cache, e: Event): Cache {
    match e
    case Begin(t, start) =>
      if t !in c.ops && (start.PutStart? || start.DeleteStart?) then c.(ops := c.ops[t := start]) else c
    case Step(t, deletes) =>
      if t in c.ops then
        var (next, op) := StepOp(c, c.ops[t], deletes);
        next.(ops := c.ops[t := op])
      else c
  }

  function Run(c: Cache, events: seq<Event>): Cache
    decreases |events|
  {
    if events == [] then c else Run(Next(c, events[0]), events[1..])
  }

  // --------------------------------------------------------------- invariant

  /** The operation has hold of this id. */
  predicate Mentions(op: Op, id: nat) {
    match op
    case PutWritten(_, i) => i == id
    case PutInserted(replaced) => replaced == Some(id)
    case DeleteRead(_, i) => i == id
    case BlobDeleted(_, i) => i == id
    case _ => false
  }

  ghost predicate IdsHandedOut(c: Cache) {
    && (forall p :: p in c.index ==> c.index[p] < c.nextId)
    && (forall id :: id in c.live ==> id < c.nextId)
    && (forall t, id: nat :: t in c.ops && Mentions(c.ops[t], id) ==> id < c.nextId)
  }

  ghost predicate IdsUnique(c: Cache) {
    forall p, q :: p in c.index && q in c.index && c.index[p] == c.index[q] ==> p == q
  }

  /** A blob written but not yet indexed is live, and only its writer knows it. */
  ghost predicate WrittenIsPrivate(c: Cache) {
    forall t :: t in c.ops && c.ops[t].PutWritten? ==>
      && c.ops[t].id in c.live
      && (forall p :: p in c.index ==> c.index[p] != c.ops[t].id)
      && (forall u :: u in c.ops && Mentions(c.ops[u], c.ops[t].id) ==> u == t)
  }

  /** A replaced id is gone from the index; a delete holds an id that is at its place or gone. */
  ghost predicate HeldIsLocal(c: Cache) {
    forall t, p :: t in c.ops && p in c.index && Mentions(c.ops[t], c.index[p]) ==>
      (c.ops[t].DeleteRead? || c.ops[t].BlobDeleted?) && c.ops[t].place == p
  }

  /** A delete of exactly this entry stands between its backend delete and its index removal. */
  ghost predicate BeingDeleted(c: Cache, p: Place)
    requires p in c.index
  {
    exists t :: t in c.ops && c.ops[t] == BlobDeleted(p, c.index[p])
  }

  ghost predicate IndexIsLive(c: Cache) {
    forall p :: p in c.index ==> c.index[p] in c.live || BeingDeleted(c, p)
  }

  ghost predicate Good(c: Cache) {
    IdsHandedOut(c) && IdsUnique(c) && WrittenIsPrivate(c) && HeldIsLocal(c) && IndexIsLive(c)
  }

  lemma StillBeingDeleted(c: Cache, d: Cache, t: nat, p: Place)
    requires t in c.ops && p in c.index && p in d.index && d.index[p] == c.index[p]
    requires BeingDeleted(c, p) && c.ops[t] != BlobDeleted(p, c.index[p])
    requires forall u :: u in c.ops && u != t ==> u in d.ops && d.ops[u] == c.ops[u]
    ensures BeingDeleted(d, p)
  {
    var u :| u in c.ops && c.ops[u] == BlobDeleted(p, c.index[p]);
    assert u in d.ops && d.ops[u] == BlobDeleted(p, d.index[p]);
  }

  lemma PutStartIsGood(c: Cache, t: nat, deletes: bool)
    requires Good(c) && t in c.ops && c.ops[t].PutStart?
    ensures Good(Next(c, Step(t, deletes)))
  {
    var d := Next(c, Step(t, deletes));
    forall p | p in d.index
      ensures d.index[p] in d.live || BeingDeleted(d, p)
    {
      if c.index[p] !in c.live {
        StillBeingDeleted(c, d, t, p);
      }
    }
  }

  lemma InsertIsGood(c: Cache, t: nat, deletes: bool)
    requires Good(c) && t in c.ops && c.ops[t].PutWritten?
    ensures Good(Next(c, Step(t, deletes)))
  {
    var d := Next(c, Step(t, deletes));
    var place := c.ops[t].place;
    forall p | p in d.index
      ensures d.index[p] in d.live || BeingDeleted(d, p)
    {
      if p != place && c.index[p] !in c.live {
        StillBeingDeleted(c, d, t, p);
      }
    }
    assert Mentions(c.ops[t], c.ops[t].id);
  }

  lemma FinishPutIsGood(c: Cache, t: nat, deletes: bool)
    requires Good(c) && t in c.ops && c.ops[t].PutInserted?
    ensures Good(Next(c, Step(t, deletes)))
  {
    var d := Next(c, Step(t, deletes));
    forall p | p in d.index
      ensures d.index[p] in d.live || BeingDeleted(d, p)
    {
      assert !Mentions(c.ops[t], c.index[p]);
      if c.index[p] !in c.live {
        StillBeingDeleted(c, d, t, p);
      }
    }
    forall u | u in d.ops && d.ops[u].PutWritten?
      ensures d.ops[u].id in d.live
    {
      assert !Mentions(c.ops[t], c.ops[u].id);
    }
  }

  lemma ReadIsGood(c: Cache, t: nat, deletes: bool)
    requires Good(c) && t in c.ops && (c.ops[t].DeleteStart? || c.ops[t].Finished?)
    ensures Good(Next(c, Step(t, deletes)))
  {
    var d := Next(c, Step(t, deletes));
    forall p | p in d.index
      ensures d.index[p] in d.live || BeingDeleted(d, p)
    {
      if c.index[p] !in c.live {
        StillBeingDeleted(c, d, t, p);
      }
    }
  }

  lemma DeleteBlobIsGood(c: Cache, t: nat, deletes: bool)
    requires Good(c) && t in c.ops && c.ops[t].DeleteRead?
    ensures Good(Next(c, Step(t, deletes)))
  {
    var d := Next(c, Step(t, deletes));
    var id := c.ops[t].id;
    assert Mentions(c.ops[t], id);
    forall p | p in d.index
      ensures d.index[p] in d.live || BeingDeleted(d, p)
    {
      if c.index[p] == id && deletes {
        assert d.ops[t] == BlobDeleted(p, d.index[p]);
      } else if c.index[p] !in c.live {
        StillBeingDeleted(c, d, t, p);
      }
    }
    forall u | u in d.ops && d.ops[u].PutWritten?
      ensures d.ops[u].id in d.live
    {
      assert c.ops[u].id != id;
    }
  }

  lemma RemoveIsGood(c: Cache, t: nat, deletes: bool)
    requires Good(c) && t in c.ops && c.ops[t].BlobDeleted?
    ensures Good(Next(c, Step(t, deletes)))
  {
    var d := Next(c, Step(t, deletes));
    forall p | p in d.index
      ensures d.index[p] in d.live || BeingDeleted(d, p)
    {
      assert c.ops[t] != BlobDeleted(p, c.index[p]);
      if c.index[p] !in c.live {
        StillBeingDeleted(c, d, t, p);
      }
    }
  }

  lemma BeginIsGood(c: Cache, t: nat, start: Op)
    requires Good(c)
    ensures Good(Next(c, Begin(t, start)))
  {
    var d := Next(c, Begin(t, start));
    forall p | p in d.index
      ensures d.index[p] in d.live || BeingDeleted(d, p)
    {
      if c.index[p] !in c.live {
        var u :| u in c.ops && c.ops[u] == BlobDeleted(p, c.index[p]);
        assert d.ops[u] == c.ops[u];
      }
    }
  }

  lemma EventIsGood(c: Cache, e: Event)
    requires Good(c)
    ensures Good(Next(c, e))
  {
    if e.Begin? {
      BeginIsGood(c, e.op, e.start);
    } else if e.op in c.ops {
      match c.ops[e.op]
      case PutStart(_) => PutStartIsGood(c, e.op, e.deletes);
      case PutWritten(_, _) => InsertIsGood(c, e.op, e.deletes);
      case PutInserted(_) => FinishPutIsGood(c, e.op, e.deletes);
      case DeleteStart(_) => ReadIsGood(c, e.op, e.deletes);
      case DeleteRead(_, _) => DeleteBlobIsGood(c, e.op, e.deletes);
      case BlobDeleted(_, _) => RemoveIsGood(c, e.op, e.deletes);
      case Finished => ReadIsGood(c, e.op, e.deletes);
    }
  }

  lemma {:induction false} RunIsGood(c: Cache, events: seq<Event>)
    requires Good(c)
    ensures Good(Run(c, events))
    decreases |events|
  {
    if events != [] {
      EventIsGood(c, events[0]);
      RunIsGood(Next(c, events[0]), events[1..]);
    }
  }

  /** The index by place. */
  ghost function Places(staging: Index, restored: Index): map<Place, nat> {
    (map k | k in staging :: Place(Staging, k) := staging[k].storageId)
    + (map k | k in restored :: Place(Restored, k) := restored[k].storageId)
  }

  /** A cache just rebuilt: distinct live ids below the counter, nothing under way. */
  ghost predicate Rebuilt(c: Cache) {
    && c.ops == map[] && IdsUnique(c)
    && (forall p :: p in c.index ==> c.index[p] in c.live)
    && (forall id :: id in c.live ==> id < c.nextId)
  }

  lemma IndexedIsListed(staging: Index, restored: Index, listing: Listing, p: Place)
    requires IndexOf(staging, Staging, listing) && IndexOf(restored, Restored, listing)
    requires p in Places(staging, restored)
    ensures var m := if p.category == Staging then staging else restored;
            && p.key in m && Places(staging, restored)[p] == m[p.key].storageId
            && Rivals(m[p.key], p.category, p.key) && OnList(listing, m[p.key])
  {}

  lemma ListedOnce(listing: Listing, d: Entry, e: Entry)
    requires IdsDistinct(listing) && OnList(listing, d) && OnList(listing, e) && d.storageId == e.storageId
    ensures d == e
  {
    var i :| 0 <= i < |listing| && listing[i] == (d.storageId, d.xattrs);
    var j :| 0 <= j < |listing| && listing[j] == (e.storageId, e.xattrs);
  }

  /** What a restart establishes is what the race theorems start from, whichever stale blobs could be deleted. */
  lemma RestartIsRebuilt(staging: Index, restored: Index, stale: seq<nat>, listing: Listing, fileIds: seq<nat>,
                         live: set<nat>, nextId: nat)
    requires IdsDistinct(listing) && Accounted(staging, restored, stale, listing)
    requires IndexOf(staging, Staging, listing) && IndexOf(restored, Restored, listing)
    requires forall i :: 0 <= i < |listing| ==> listing[i].0 in fileIds
    requires forall i :: 0 <= i < |fileIds| ==> fileIds[i] < nextId
    requires forall i :: 0 <= i < |listing| && listing[i].0 !in stale ==> listing[i].0 in live
    requires forall id :: id in live ==> id in fileIds
    ensures Rebuilt(Cache(Places(staging, restored), live, nextId, map[]))
  {
    var c := Cache(Places(staging, restored), live, nextId, map[]);
    forall p | p in c.index
      ensures c.index[p] in live
    {
      IndexedIsListed(staging, restored, listing, p);
      var e := (if p.category == Staging then staging else restored)[p.key];
      var i :| 0 <= i < |listing| && listing[i] == (e.storageId, e.xattrs);
      assert Indexed(staging, restored, listing[i].0, listing[i].1);
    }
    forall p, q | p in c.index && q in c.index && c.index[p] == c.index[q]
      ensures p == q
    {
      IndexedIsListed(staging, restored, listing, p);
      IndexedIsListed(staging, restored, listing, q);
      ListedOnce(listing, (if p.category == Staging then staging else restored)[p.key],
                 (if q.category == Staging then staging else restored)[q.key]);
    }
  }

  /**
   However puts and deletes interleave, every indexed id is live in the backend unless a delete of
   that same id stands between its backend delete and its index removal.
   */
  lemma IndexedIdsAreLive(c: Cache, events: seq<Event>, p: Place)
    requires Rebuilt(c) && p in Run(c, events).index
    ensures Run(c, events).index[p] in Run(c, events).live || BeingDeleted(Run(c, events), p)
  {
    RunIsGood(c, events);
  }

  /** Once every operation has finished, every indexed id is live. */
  lemma QuiescentIndexIsLive(c: Cache, events: seq<Event>, p: Place)
    requires Rebuilt(c) && p in Run(c, events).index
    requires forall t :: t in Run(c, events).ops ==> Run(c, events).ops[t].Finished?
    ensures Run(c, events).index[p] in Run(c, events).live
  {
    IndexedIdsAreLive(c, events, p);
  }

  /** An entry disappears only by a delete that had read exactly the id it held. */
  lemma RemovedIsWhatWasRead(c: Cache, e: Event, p: Place)
    requires p in c.index && p !in Next(c, e).index
    ensures e.Step? && e.op in c.ops && c.ops[e.op] == BlobDeleted(p, c.index[p])
  {}

  /** The operation is a delete that has read this id and has not finished. */
  predicate HasRead(op: Op, p: Place, id: nat) { op == DeleteRead(p, id) || op == BlobDeleted(p, id) }

  /** As long as a delete is under way, an entry with the id that it read was there when it read it. */
  lemma {:induction false} ReadIdIsOld(c: Cache, events: seq<Event>, t: nat, p: Place, id: nat, q: Place)
    requires Good(c) && t in c.ops && HasRead(c.ops[t], p, id)
    requires var d := Run(c, events); t in d.ops && HasRead(d.ops[t], p, id) && q in d.index && d.index[q] == id
    ensures q in c.index && c.index[q] == id
    decreases |events|
  {
    if events != [] {
      var d := Next(c, events[0]);
      EventIsGood(c, events[0]);
      if t in d.ops && HasRead(d.ops[t], p, id) {
        ReadIdIsOld(d, events[1..], t, p, id, q);
        IdNotReinserted(c, events[0], t, p, id, q);
      } else {
        FinishedStays(d, events[1..], t);
      }
    }
  }

  lemma IdNotReinserted(c: Cache, e: Event, t: nat, p: Place, id: nat, q: Place)
    requires Good(c) && t in c.ops && HasRead(c.ops[t], p, id)
    requires var d := Next(c, e); q in d.index && d.index[q] == id
    ensures q in c.index && c.index[q] == id
  {
    assert Mentions(c.ops[t], id);
    if e.Step? && e.op in c.ops && c.ops[e.op].PutWritten? {
      assert c.ops[e.op].id != id;
    }
  }

  lemma {:induction false} FinishedStays(c: Cache, events: seq<Event>, t: nat)
    requires t in c.ops && c.ops[t].Finished?
    ensures t in Run(c, events).ops && Run(c, events).ops[t].Finished?
    decreases |events|
  {
    if events != [] {
      FinishedStays(Next(c, events[0]), events[1..], t);
    }
  }

  /**
   Over every run: once a delete has read its id, no entry that is put in place after that, by whatever
   interleaving, is ever removed by that delete.
   */
  lemma LaterEntriesSurvive(c: Cache, events: seq<Event>, t: nat, p: Place, id: nat, deletes: bool, q: Place)
    requires Good(c) && t in c.ops && HasRead(c.ops[t], p, id)
    requires var d := Run(c, events); q in d.index && !(q in c.index && c.index[q] == d.index[q])
    ensures q in Next(Run(c, events), Step(t, deletes)).index
    ensures Next(Run(c, events), Step(t, deletes)).index[q] == Run(c, events).index[q]
  {
    var d := Run(c, events);
    OpKeepsItsId(c, events, t, p, id);
    if HasRead(d.ops[t], p, id) && d.index[q] == id {
      ReadIdIsOld(c, events, t, p, id, q);
    }
  }

  lemma {:induction false} OpKeepsItsId(c: Cache, events: seq<Event>, t: nat, p: Place, id: nat)
    requires t in c.ops && (HasRead(c.ops[t], p, id) || c.ops[t].Finished?)
    ensures var d := Run(c, events); t in d.ops && (HasRead(d.ops[t], p, id) || d.ops[t].Finished?)
    decreases |events|
  {
    if events != [] {
      OpKeepsItsId(Next(c, events[0]), events[1..], t, p, id);
    }
  }

  /** Ids are fresh: what a put inserts was never indexed before, so it is newer than anything read earlier. */
  lemma InsertedIsFresh(c: Cache, events: seq<Event>, t: nat)
    requires Rebuilt(c)
    requires t in Run(c, events).ops && Run(c, events).ops[t].PutWritten?
    ensures var d := Run(c, events);
            && d.ops[t].id in d.live
            && (forall p :: p in d.index ==> d.index[p] != d.ops[t].id)
            && (forall u :: u in d.ops && u != t ==> !Mentions(d.ops[u], d.ops[t].id))
  {
    RunIsGood(c, events);
  }

  /** A put that runs alone leaves its fresh blob indexed and live and the replaced blob deleted. */
  lemma PutAlone(c: Cache, t: nat, p: Place)
    requires t !in c.ops && c.nextId !in c.live && (p in c.index ==> c.index[p] < c.nextId)
    ensures var d := Run(c, [Begin(t, PutStart(p)), Step(t, true), Step(t, true), Step(t, true)]);
            && d.index == c.index[p := c.nextId]
            && d.live == c.live + {c.nextId} - (if p in c.index then {c.index[p]} else {})
            && d.nextId == c.nextId + 1 && d.ops == c.ops[t := Finished]
  {
    var c1 := Next(c, Begin(t, PutStart(p)));
    var c2 := Next(c1, Step(t, true));
    var c3 := Next(c2, Step(t, true));
    var c4 := Next(c3, Step(t, true));
    assert c4.ops == c.ops[t := Finished];
    RunFour(c, Begin(t, PutStart(p)), Step(t, true), Step(t, true), Step(t, true));
  }

  /** A delete that runs alone removes the entry and its blob. */
  lemma DeleteAlone(c: Cache, t: nat, p: Place)
    requires t !in c.ops && p in c.index
    ensures var d := Run(c, [Begin(t, DeleteStart(p)), Step(t, true), Step(t, true), Step(t, true)]);
            && d.index == c.index - {p} && d.live == c.live - {c.index[p]}
            && d.nextId == c.nextId && d.ops == c.ops[t := Finished]
  {
    var c1 := Next(c, Begin(t, DeleteStart(p)));
    var c2 := Next(c1, Step(t, true));
    var c3 := Next(c2, Step(t, true));
    var c4 := Next(c3, Step(t, true));
    assert c4.ops == c.ops[t := Finished];
    RunFour(c, Begin(t, DeleteStart(p)), Step(t, true), Step(t, true), Step(t, true));
  }

  lemma RunFour(c: Cache, e1: Event, e2: Event, e3: Event, e4: Event)
    ensures Run(c, [e1, e2, e3, e4]) == Next(Next(Next(Next(c, e1), e2), e3), e4)
  {
    var c1 := Next(c, e1);
    var c2 := Next(c1, e2);
    var c3 := Next(c2, e3);
    assert [e1, e2, e3, e4][1..] == [e2, e3, e4] && Run(c, [e1, e2, e3, e4]) == Run(c1, [e2, e3, e4]);
    assert [e2, e3, e4][1..] == [e3, e4] && Run(c1, [e2, e3, e4]) == Run(c2, [e3, e4]);
    assert [e3, e4][1..] == [e4] && Run(c2, [e3, e4]) == Run(c3, [e4]);
    assert [e4][1..] == [] && Run(c3, [e4]) == Run(Next(c3, e4), []);
  }
}
