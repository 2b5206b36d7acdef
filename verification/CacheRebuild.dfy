/**
 Rebuilding the cache index after a restart from the backend's listing, whose order is
 arbitrary.  Per category and key the entry with the greatest (cached_at, storage id) wins.
 */
module CacheRebuild {
  import opened Basics
  import opened MapSum
  import opened CacheIndexes

  type Listing = seq<(nat, Xattrs)>

  function KeyFor(x: Xattrs): CacheKey { CacheKey(x.bucket, x.key, x.versionId) }

  /** The candidate is strictly greater by (cached_at, storage id). */
  predicate Replaces(current: Entry, candidate: Entry) {
    current.xattrs.cachedAt < candidate.xattrs.cachedAt
    || (current.xattrs.cachedAt == candidate.xattrs.cachedAt && current.storageId < candidate.storageId)
  }

  predicate OnList(listing: Listing, e: Entry) { (e.storageId, e.xattrs) in listing }

  predicate Rivals(e: Entry, category: Category, k: CacheKey) {
    e.xattrs.category == category && KeyFor(e.xattrs) == k
  }

  /** Under each key stands a listed entry that no listed rival beats, and every listed key is there. */
  ghost predicate IndexOf(m: Index, category: Category, listing: Listing) {
    && (forall k :: k in m ==> OnList(listing, m[k]) && Rivals(m[k], category, k))
    && (forall e: Entry :: OnList(listing, e) && e.xattrs.category == category ==>
          KeyFor(e.xattrs) in m && !Replaces(m[KeyFor(e.xattrs)], e))
  }

  predicate IdsDistinct(listing: Listing) {
    forall i, j :: 0 <= i < j < |listing| ==> listing[i].0 != listing[j].0
  }

  predicate Indexed(staging: Index, restored: Index, id: nat, x: Xattrs) {
    var m := if x.category == Staging then staging else restored;
    KeyFor(x) in m && m[KeyFor(x)].storageId == id
  }

  /** Each listed id is either indexed or stale, never both, and stale ids are listed once. */
  ghost predicate Accounted(staging: Index, restored: Index, stale: seq<nat>, listing: Listing) {
    && (forall i :: 0 <= i < |listing| ==>
          (listing[i].0 in stale <==> !Indexed(staging, restored, listing[i].0, listing[i].1)))
    && NoDuplicates(stale)
    && (forall s :: s in stale ==> exists i :: 0 <= i < |listing| && listing[i].0 == s)
  }

  /** Puts the entry into one category's index; the loser's id, if any, is stale. */
  method Admit(m: Index, e: Entry) returns (next: Index, loser: Option<nat>)
    ensures var k := KeyFor(e.xattrs);
            if k !in m then next == m[k := e] && loser == None
            else if Replaces(m[k], e) then next == m[k := e] && loser == Some(m[k].storageId)
            else next == m && loser == Some(e.storageId)
  {
    var k := KeyFor(e.xattrs);
    next, loser := m, None;
    if k in m && !Replaces(m[k], e) {
      loser := Some(e.storageId);
    } else {
      if k in m {
        loser := Some(m[k].storageId);
      }
      next := m[k := e];
    }
  }

  lemma AdmitKeepsIndex(m: Index, category: Category, listing: Listing, e: Entry, next: Index)
    requires IndexOf(m, category, listing) && e.xattrs.category == category
    requires var k := KeyFor(e.xattrs);
             next == if k !in m || Replaces(m[k], e) then m[k := e] else m
    ensures IndexOf(next, category, listing + [(e.storageId, e.xattrs)])
  {
    var more := listing + [(e.storageId, e.xattrs)];
    forall f: Entry | OnList(more, f) && f.xattrs.category == category
      ensures KeyFor(f.xattrs) in next && !Replaces(next[KeyFor(f.xattrs)], f)
    {
      if f != e {
        assert OnList(listing, f);
      }
    }
    forall k | k in next
      ensures OnList(more, next[k]) && Rivals(next[k], category, k)
    {
      if next[k] == e {
        assert more[|listing|] == (e.storageId, e.xattrs);
      } else {
        assert OnList(listing, m[k]);
      }
    }
  }

  lemma OtherCategoryKeeps(m: Index, category: Category, listing: Listing, e: Entry)
    requires IndexOf(m, category, listing) && e.xattrs.category != category
    ensures IndexOf(m, category, listing + [(e.storageId, e.xattrs)])
  {
    var more := listing + [(e.storageId, e.xattrs)];
    forall f: Entry | OnList(more, f) && f.xattrs.category == category
      ensures KeyFor(f.xattrs) in m && !Replaces(m[KeyFor(f.xattrs)], f)
    {
      assert OnList(listing, f);
    }
  }

  /** The rebuild loop. */
  method RebuildIndex(listing: Listing)
    returns (staging: Index, restored: Index, stale: seq<nat>, used: nat)
    requires IdsDistinct(listing)
    ensures IndexOf(staging, Staging, listing) && IndexOf(restored, Restored, listing)
    ensures Accounted(staging, restored, stale, listing)
    ensures used == Used(staging) + Used(restored)
  {
    staging, restored, stale := map[], map[], [];
    for i := 0 to |listing|
      invariant IndexOf(staging, Staging, listing[..i]) && IndexOf(restored, Restored, listing[..i])
      invariant Accounted(staging, restored, stale, listing[..i])
    {
      var e := Entry(listing[i].0, listing[i].1);
      assert listing[..i + 1] == listing[..i] + [(e.storageId, e.xattrs)];
      ghost var staging0, restored0, stale0 := staging, restored, stale;
      var loser;
      if e.xattrs.category == Staging {
        staging, loser := Admit(staging, e);
        AdmitKeepsIndex(staging0, Staging, listing[..i], e, staging);
        OtherCategoryKeeps(restored, Restored, listing[..i], e);
      } else {
        restored, loser := Admit(restored, e);
        AdmitKeepsIndex(restored0, Restored, listing[..i], e, restored);
        OtherCategoryKeeps(staging, Staging, listing[..i], e);
      }
      if loser.Some? {
        stale := stale + [loser.value];
      }
      StepAccounts(staging0, restored0, stale0, listing[..i], e, staging, restored, loser);
    }
    assert listing[..|listing|] == listing;
    var s := UsedBytes(staging);
    var r := UsedBytes(restored);
    used := s + r;
  }

  /** One more listed entry: exactly one id of the pair that met becomes stale. */
  lemma StepAccounts(staging: Index, restored: Index, stale: seq<nat>, listing: Listing, e: Entry,
                     staging': Index, restored': Index, loser: Option<nat>)
    requires IndexOf(staging, Staging, listing) && IndexOf(restored, Restored, listing)
    requires Accounted(staging, restored, stale, listing)
    requires IdsDistinct(listing + [(e.storageId, e.xattrs)])
    requires var m := if e.xattrs.category == Staging then staging else restored;
             var k := KeyFor(e.xattrs);
             var wins := k !in m || Replaces(m[k], e);
             && loser == (if k !in m then None else if wins then Some(m[k].storageId) else Some(e.storageId))
             && staging' == (if wins && e.xattrs.category == Staging then staging[k := e] else staging)
             && restored' == (if wins && e.xattrs.category == Restored then restored[k := e] else restored)
    ensures Accounted(staging', restored', if loser.Some? then stale + [loser.value] else stale,
                      listing + [(e.storageId, e.xattrs)])
  {
    var more := listing + [(e.storageId, e.xattrs)];
    var stale' := if loser.Some? then stale + [loser.value] else stale;
    var n := |listing|;
    assert more[n].0 == e.storageId;
    forall s | s in stale
      ensures s != e.storageId
    {
      var i :| 0 <= i < n && listing[i].0 == s;
      assert more[i].0 != more[n].0;
    }
    assert e.storageId !in stale;
    if loser.Some? {
      CurrentIsListed(staging, restored, stale, listing, e);
    }
    assert NoDuplicates(stale');
    assert forall s :: s in stale' <==> s in stale || loser == Some(s);
    forall i | 0 <= i < |more|
      ensures more[i].0 in stale' <==> !Indexed(staging', restored', more[i].0, more[i].1)
    {
      if i < n {
        assert more[i] == listing[i];
        assert listing[i].0 in stale <==> !Indexed(staging, restored, listing[i].0, listing[i].1);
        assert more[i].0 != more[n].0;
      }
    }
    forall s | s in stale'
      ensures exists i :: 0 <= i < |more| && more[i].0 == s
    {
      if s in stale {
        var i :| 0 <= i < n && listing[i].0 == s;
        assert more[i].0 == s;
      } else if s != e.storageId {
        var i :| 0 <= i < n && listing[i].0 == s;
        assert more[i].0 == s;
      }
    }
  }

  /** The entry that a newcomer meets was listed under the same key, is not stale, and has another id. */
  lemma CurrentIsListed(staging: Index, restored: Index, stale: seq<nat>, listing: Listing, e: Entry)
    requires IndexOf(staging, Staging, listing) && IndexOf(restored, Restored, listing)
    requires Accounted(staging, restored, stale, listing)
    requires IdsDistinct(listing + [(e.storageId, e.xattrs)])
    requires KeyFor(e.xattrs) in (if e.xattrs.category == Staging then staging else restored)
    ensures var id := (if e.xattrs.category == Staging then staging else restored)[KeyFor(e.xattrs)].storageId;
            && id != e.storageId && id !in stale
            && (exists i :: 0 <= i < |listing| && listing[i].0 == id)
            && (forall i :: 0 <= i < |listing| && listing[i].0 == id ==>
                  KeyFor(listing[i].1) == KeyFor(e.xattrs) && listing[i].1.category == e.xattrs.category)
  {
    var m := if e.xattrs.category == Staging then staging else restored;
    var current := m[KeyFor(e.xattrs)];
    assert OnList(listing, current);
    var j :| 0 <= j < |listing| && listing[j] == (current.storageId, current.xattrs);
    assert Indexed(staging, restored, listing[j].0, listing[j].1);
    var more := listing + [(e.storageId, e.xattrs)];
    assert more[j].0 != more[|listing|].0;
    forall i | 0 <= i < |listing| && listing[i].0 == current.storageId
      ensures i == j
    {
      assert more[i].0 == more[j].0;
    }
  }

  /** The greatest entry of a key is unique, since ids differ. */
  lemma WinnerUnique(a: Entry, b: Entry)
    requires !Replaces(a, b) && !Replaces(b, a)
    ensures a.storageId == b.storageId
  {}

  /** Any two orderings of the same listing rebuild the same index. */
  lemma RebuildIgnoresOrder(m1: Index, m2: Index, category: Category, l1: Listing, l2: Listing)
    requires IdsDistinct(l1) && (forall x :: x in l1 <==> x in l2)
    requires IndexOf(m1, category, l1) && IndexOf(m2, category, l2)
    ensures m1 == m2
  {
    forall k | k in m1
      ensures k in m2 && m1[k] == m2[k]
    {
      assert OnList(l2, m1[k]);
      assert OnList(l1, m2[k]);
      WinnerUnique(m1[k], m2[k]);
      var i :| 0 <= i < |l1| && l1[i] == (m1[k].storageId, m1[k].xattrs);
      var j :| 0 <= j < |l1| && l1[j] == (m2[k].storageId, m2[k].xattrs);
    }
    forall k | k in m2
      ensures k in m1
    {
      assert OnList(l1, m2[k]);
    }
  }

  /** The id counter restarts above the id of every metadata file, readable or not. */
  method DiscoverNextId(fileIds: seq<nat>) returns (next: nat)
    ensures forall i :: 0 <= i < |fileIds| ==> fileIds[i] < next
    ensures next == 1 || exists i :: 0 <= i < |fileIds| && fileIds[i] + 1 == next
  {
    var max := 0;
    for i := 0 to |fileIds|
      invariant forall j :: 0 <= j < i ==> fileIds[j] <= max
      invariant max == 0 || exists j :: 0 <= j < i && fileIds[j] == max
    {
      if fileIds[i] > max {
        max := fileIds[i];
      }
    }
    next := max + 1;
  }
}
