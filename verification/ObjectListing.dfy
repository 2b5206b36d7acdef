/**
 Listing objects: the metadata service filters, sorts and cuts off a page; the scheduler folds
 keys that contain a delimiter into common prefixes.
 */
module ObjectListing {
  import opened Basics
  import opened LexOrder
  import opened MetadataTypes
  import opened MetadataSpec

  type Objects = seq<ObjectMetadata>

  // ----------------------------------------------------------------- sorting

  predicate VersionLe(a: Option<string>, b: Option<string>) {
    a.None? || (b.Some? && StrLe(a.value, b.value))
  }

  /** By key, then by version. */
  predicate SortLe(a: ObjectMetadata, b: ObjectMetadata) {
    StrLt(a.key, b.key) || (a.key == b.key && VersionLe(a.versionId, b.versionId))
  }

  predicate SameVersion(a: ObjectMetadata, b: ObjectMetadata) { a.key == b.key && a.versionId == b.versionId }

  lemma VersionOrder(a: Option<string>, b: Option<string>, c: Option<string>)
    ensures VersionLe(a, b) || VersionLe(b, a)
    ensures VersionLe(a, b) && VersionLe(b, a) ==> a == b
    ensures VersionLe(a, b) && VersionLe(b, c) ==> VersionLe(a, c)
  {
    if a.Some? && b.Some? {
      StrTotal(a.value, b.value);
      if StrLe(a.value, b.value) && StrLe(b.value, a.value) {
        StrAntisymmetric(a.value, b.value);
      }
      if c.Some? && StrLe(a.value, b.value) && StrLe(b.value, c.value) {
        StrTransitive(a.value, b.value, c.value);
      }
    }
  }

  lemma StrLtTransitive(a: string, b: string, c: string)
    requires StrLe(a, b) && StrLe(b, c) && (a != b || b != c)
    ensures StrLt(a, c)
  {
    StrTransitive(a, b, c);
    if a == c {
      StrAntisymmetric(a, b);
    }
  }

  lemma SortOrder(a: ObjectMetadata, b: ObjectMetadata, c: ObjectMetadata)
    ensures SortLe(a, b) || SortLe(b, a)
    ensures SortLe(a, b) && SortLe(b, a) ==> SameVersion(a, b)
    ensures SortLe(a, b) && SortLe(b, c) ==> SortLe(a, c)
  {
    VersionOrder(a.versionId, b.versionId, c.versionId);
    StrTotal(a.key, b.key);
    if StrLe(a.key, b.key) && StrLe(b.key, a.key) {
      StrAntisymmetric(a.key, b.key);
    }
    if SortLe(a, b) && SortLe(b, c) && (a.key != b.key || b.key != c.key) {
      StrTotal(a.key, a.key);
      StrTotal(b.key, b.key);
      StrLtTransitive(a.key, b.key, c.key);
    }
  }

  predicate Sorted(s: Objects) {
    forall i, j :: 0 <= i < j < |s| ==> SortLe(s[i], s[j])
  }

  function Insert(o: ObjectMetadata, s: Objects): Objects {
    if s == [] || SortLe(o, s[0]) then [o] + s else [s[0]] + Insert(o, s[1..])
  }

  function SortObjects(s: Objects): Objects {
    if s == [] then [] else Insert(s[0], SortObjects(s[1..]))
  }

  lemma {:induction false} InsertKeepsElements(o: ObjectMetadata, s: Objects)
    ensures multiset(Insert(o, s)) == multiset(s) + multiset{o}
  {
    if s != [] && !SortLe(o, s[0]) {
      InsertKeepsElements(o, s[1..]);
      assert s == [s[0]] + s[1..];
    }
  }

  lemma {:induction false} InsertSorts(o: ObjectMetadata, s: Objects)
    requires Sorted(s)
    ensures Sorted(Insert(o, s))
  {
    if s == [] {
    } else if SortLe(o, s[0]) {
      forall j | 0 <= j < |s|
        ensures SortLe(o, s[j])
      {
        SortOrder(o, s[0], s[j]);
      }
    } else {
      InsertSorts(o, s[1..]);
      InsertKeepsElements(o, s[1..]);
      SortOrder(s[0], o, o);
      var rest := Insert(o, s[1..]);
      forall j | 0 <= j < |rest|
        ensures SortLe(s[0], rest[j])
      {
        assert rest[j] in multiset(rest);
        assert rest[j] in s[1..] || rest[j] == o;
      }
    }
  }

  /** Sorting yields a sorted permutation. */
  lemma {:induction false} SortObjectsSorts(s: Objects)
    ensures Sorted(SortObjects(s)) && multiset(SortObjects(s)) == multiset(s)
  {
    if s != [] {
      SortObjectsSorts(s[1..]);
      InsertSorts(s[0], SortObjects(s[1..]));
      InsertKeepsElements(s[0], SortObjects(s[1..]));
      assert s == [s[0]] + s[1..];
    }
  }

  /** No two of these objects share key and version. */
  predicate VersionsDistinct(s: Objects) {
    forall i, j :: 0 <= i < j < |s| ==> !SameVersion(s[i], s[j])
  }

  /** A sorted permutation of distinct versions is unique. */
  lemma {:induction false} SortedUnique(a: Objects, b: Objects)
    requires Sorted(a) && Sorted(b) && multiset(a) == multiset(b)
    requires forall x, y :: x in a && y in a && SameVersion(x, y) ==> x == y
    ensures a == b
  {
    assert |a| == |multiset(a)| == |multiset(b)| == |b|;
    if a != [] {
      HeadsEqual(a, b);
      assert a == [a[0]] + a[1..] && b == [b[0]] + b[1..];
      assert multiset(a[1..]) == multiset(a) - multiset{a[0]};
      assert multiset(b[1..]) == multiset(b) - multiset{a[0]};
      SortedUnique(a[1..], b[1..]);
    }
  }

  lemma HeadsEqual(a: Objects, b: Objects)
    requires Sorted(a) && Sorted(b) && multiset(a) == multiset(b) && a != [] && b != []
    requires forall x, y :: x in a && y in a && SameVersion(x, y) ==> x == y
    ensures a[0] == b[0]
  {
    assert a[0] in multiset(b) && b[0] in multiset(a);
    var i :| 0 <= i < |b| && b[i] == a[0];
    var j :| 0 <= j < |a| && a[j] == b[0];
    SortOrder(a[0], b[0], b[0]);
    SortOrder(a[0], a[0], a[0]);
    SortOrder(b[0], b[0], b[0]);
    assert SortLe(b[0], b[i]) && SortLe(a[0], a[j]);
  }

  // --------------------------------------------------------------- filtering

  predicate OnPage(o: ObjectMetadata, bucket: string, prefix: string, marker: string) {
    o.bucket == bucket && prefix <= o.key && StrLt(marker, o.key)
  }

  function Filtered(s: Objects, bucket: string, prefix: string, marker: string): Objects {
    if s == [] then [] else
      (if OnPage(s[0], bucket, prefix, marker) then [s[0]] else []) + Filtered(s[1..], bucket, prefix, marker)
  }

  lemma {:induction false} FilteredCount(s: Objects, bucket: string, prefix: string, marker: string, o: ObjectMetadata)
    ensures multiset(Filtered(s, bucket, prefix, marker))[o]
         == if OnPage(o, bucket, prefix, marker) then multiset(s)[o] else 0
  {
    if s != [] {
      FilteredCount(s[1..], bucket, prefix, marker, o);
      assert s == [s[0]] + s[1..];
    }
  }

  lemma FilteredMembers(s: Objects, bucket: string, prefix: string, marker: string, o: ObjectMetadata)
    ensures o in Filtered(s, bucket, prefix, marker) <==> o in s && OnPage(o, bucket, prefix, marker)
  {
    FilteredCount(s, bucket, prefix, marker, o);
    assert o in s <==> multiset(s)[o] > 0;
    assert o in Filtered(s, bucket, prefix, marker) <==> multiset(Filtered(s, bucket, prefix, marker))[o] > 0;
  }

  lemma {:induction false} FilteredConcat(a: Objects, b: Objects, bucket: string, prefix: string, marker: string)
    ensures Filtered(a + b, bucket, prefix, marker)
         == Filtered(a, bucket, prefix, marker) + Filtered(b, bucket, prefix, marker)
  {
    if a == [] {
      assert a + b == b;
    } else {
      assert (a + b)[1..] == a[1..] + b;
      FilteredConcat(a[1..], b, bucket, prefix, marker);
    }
  }

  lemma {:induction false} FilteredAllOrNone(s: Objects, bucket: string, prefix: string, marker: string)
    ensures (forall i :: 0 <= i < |s| ==> OnPage(s[i], bucket, prefix, marker)) ==>
              Filtered(s, bucket, prefix, marker) == s
    ensures (forall i :: 0 <= i < |s| ==> !OnPage(s[i], bucket, prefix, marker)) ==>
              Filtered(s, bucket, prefix, marker) == []
  {
    if s != [] {
      FilteredAllOrNone(s[1..], bucket, prefix, marker);
      assert s == [s[0]] + s[1..];
      assert forall i :: 0 <= i < |s[1..]| ==> s[1..][i] == s[i + 1];
    }
  }

  /** The filter keeps order, and thereby sortedness. */
  lemma {:induction false} FilteredSorted(s: Objects, bucket: string, prefix: string, marker: string)
    requires Sorted(s)
    ensures Sorted(Filtered(s, bucket, prefix, marker))
  {
    if s != [] {
      FilteredSorted(s[1..], bucket, prefix, marker);
      var rest := Filtered(s[1..], bucket, prefix, marker);
      forall j | 0 <= j < |rest|
        ensures SortLe(s[0], rest[j])
      {
        FilteredMembers(s[1..], bucket, prefix, marker, rest[j]);
        assert rest[j] in s[1..];
      }
    }
  }

  function Matching(s: Objects, bucket: string, prefix: string, marker: string): Objects {
    SortObjects(Filtered(s, bucket, prefix, marker))
  }

  lemma MatchingMembers(s: Objects, bucket: string, prefix: string, marker: string)
    ensures Sorted(Matching(s, bucket, prefix, marker))
    ensures forall o :: o in Matching(s, bucket, prefix, marker) <==> o in s && OnPage(o, bucket, prefix, marker)
    ensures |Matching(s, bucket, prefix, marker)| == |Filtered(s, bucket, prefix, marker)|
  {
    var f, m := Filtered(s, bucket, prefix, marker), Matching(s, bucket, prefix, marker);
    SortObjectsSorts(f);
    assert |m| == |multiset(m)| == |multiset(f)| == |f|;
    forall o
      ensures o in m <==> o in s && OnPage(o, bucket, prefix, marker)
    {
      FilteredMembers(s, bucket, prefix, marker, o);
      assert o in m <==> o in multiset(m);
      assert o in f <==> o in multiset(f);
    }
  }

  // ------------------------------------------------------------------- pages

  datatype Page = Page(objects: Objects, nextMarker: Option<string>, truncated: bool)

  /** One page of the metadata service; zero means no limit. */
  function ListObjects(s: Objects, bucket: string, prefix: string, marker: string, maxKeys: nat): Page {
    var m := Matching(s, bucket, prefix, marker);
    if maxKeys > 0 && |m| > maxKeys
    then Page(m[..maxKeys], Some(m[maxKeys - 1].key), true)
    else Page(m, None, false)
  }

  lemma {:induction false} FilteredShrinks(s: Objects, bucket: string, prefix: string, marker: string, next: string)
    requires StrLe(marker, next)
    ensures |Filtered(s, bucket, prefix, next)| <= |Filtered(s, bucket, prefix, marker)|
    ensures (exists o :: o in s && OnPage(o, bucket, prefix, marker) && !OnPage(o, bucket, prefix, next)) ==>
              |Filtered(s, bucket, prefix, next)| < |Filtered(s, bucket, prefix, marker)|
  {
    if s != [] {
      FilteredShrinks(s[1..], bucket, prefix, marker, next);
      if StrLt(next, s[0].key) {
        StrLtTransitive(marker, next, s[0].key);
      }
      assert forall o :: o in s ==> o == s[0] || o in s[1..];
    }
  }

  /** Following the marker of a truncated page leaves strictly fewer objects. */
  lemma NextIsShorter(s: Objects, bucket: string, prefix: string, marker: string, maxKeys: nat)
    requires ListObjects(s, bucket, prefix, marker, maxKeys).truncated
    ensures var next := ListObjects(s, bucket, prefix, marker, maxKeys).nextMarker.value;
            |Matching(s, bucket, prefix, next)| < |Matching(s, bucket, prefix, marker)|
  {
    var m := Matching(s, bucket, prefix, marker);
    MatchingMembers(s, bucket, prefix, marker);
    var last := m[maxKeys - 1];
    assert last in s && OnPage(last, bucket, prefix, marker);
    MatchingMembers(s, bucket, prefix, last.key);
    FilteredShrinks(s, bucket, prefix, marker, last.key);
  }

  /** All pages, following next_marker until a page is not truncated. */
  ghost function Follow(s: Objects, bucket: string, prefix: string, marker: string, maxKeys: nat): Objects
    decreases |Matching(s, bucket, prefix, marker)|
  {
    var page := ListObjects(s, bucket, prefix, marker, maxKeys);
    if !page.truncated then page.objects else
      assert |Matching(s, bucket, prefix, page.nextMarker.value)| < |Matching(s, bucket, prefix, marker)| by {
        NextIsShorter(s, bucket, prefix, marker, maxKeys);
      }
      page.objects + Follow(s, bucket, prefix, page.nextMarker.value, maxKeys)
  }

  /** Filtering the sorted list is sorting the filtered list. */
  lemma MatchingFromMatching(s: Objects, bucket: string, prefix: string, marker: string, next: string)
    requires VersionsDistinct(Filtered(s, bucket, prefix, marker)) && StrLe(marker, next)
    ensures Matching(s, bucket, prefix, next) == Filtered(Matching(s, bucket, prefix, marker), bucket, prefix, next)
  {
    var m := Matching(s, bucket, prefix, marker);
    var a, b := Matching(s, bucket, prefix, next), Filtered(m, bucket, prefix, next);
    SortObjectsSorts(Filtered(s, bucket, prefix, next));
    SortObjectsSorts(Filtered(s, bucket, prefix, marker));
    FilteredSorted(m, bucket, prefix, next);
    forall o
      ensures multiset(a)[o] == multiset(b)[o]
    {
      FilteredCount(s, bucket, prefix, next, o);
      FilteredCount(m, bucket, prefix, next, o);
      FilteredCount(s, bucket, prefix, marker, o);
      if OnPage(o, bucket, prefix, next) {
        StrLtTransitive(marker, next, o.key);
      }
    }
    assert multiset(a) == multiset(b);
    forall x, y | x in a && y in a && SameVersion(x, y)
      ensures x == y
    {
      DistinctMembers(s, bucket, prefix, marker, next, x, y);
    }
    SortedUnique(a, b);
  }

  lemma DistinctMembers(s: Objects, bucket: string, prefix: string, marker: string, next: string,
                        x: ObjectMetadata, y: ObjectMetadata)
    requires VersionsDistinct(Filtered(s, bucket, prefix, marker)) && StrLe(marker, next)
    requires x in Matching(s, bucket, prefix, next) && y in Matching(s, bucket, prefix, next) && SameVersion(x, y)
    ensures x == y
  {
    MatchingMembers(s, bucket, prefix, next);
    StrLtTransitive(marker, next, x.key);
    StrLtTransitive(marker, next, y.key);
    FilteredMembers(s, bucket, prefix, marker, x);
    FilteredMembers(s, bucket, prefix, marker, y);
  }

  /** In a sorted list, what follows the key at n - 1 is the tail iff the next key differs. */
  lemma TailIffKeyChanges(m: Objects, bucket: string, prefix: string, n: nat)
    requires Sorted(m) && 0 < n < |m|
    requires forall i :: 0 <= i < |m| ==> m[i].bucket == bucket && prefix <= m[i].key
    ensures Filtered(m, bucket, prefix, m[n - 1].key) == m[n..] <==> m[n].key != m[n - 1].key
  {
    var next := m[n - 1].key;
    if m[n].key == next {
      FilteredMembers(m, bucket, prefix, next, m[n]);
      assert m[n..][0] == m[n];
    } else {
      forall i | 0 <= i < n
        ensures !OnPage(m[..n][i], bucket, prefix, next)
      {
        assert i == n - 1 || SortLe(m[i], m[n - 1]);
        if StrLt(next, m[i].key) {
          StrAntisymmetric(m[i].key, next);
        }
      }
      assert SortLe(m[n - 1], m[n]);
      forall i | 0 <= i < |m[n..]|
        ensures OnPage(m[n..][i], bucket, prefix, next)
      {
        assert i == 0 || SortLe(m[n], m[n + i]);
        if i > 0 && m[n].key != m[n + i].key {
          StrLtTransitive(next, m[n].key, m[n + i].key);
        }
      }
      FilteredAllOrNone(m[..n], bucket, prefix, next);
      FilteredAllOrNone(m[n..], bucket, prefix, next);
      FilteredConcat(m[..n], m[n..], bucket, prefix, next);
      assert m == m[..n] + m[n..];
    }
  }

  /** The next page continues exactly where this one stopped iff the cut does not split the versions of one key. */
  lemma NextPageContinuesIff(s: Objects, bucket: string, prefix: string, marker: string, maxKeys: nat)
    requires VersionsDistinct(Filtered(s, bucket, prefix, marker))
    requires ListObjects(s, bucket, prefix, marker, maxKeys).truncated
    ensures var m := Matching(s, bucket, prefix, marker);
            var next := ListObjects(s, bucket, prefix, marker, maxKeys).nextMarker.value;
            Matching(s, bucket, prefix, next) == m[maxKeys..] <==> m[maxKeys].key != m[maxKeys - 1].key
  {
    var m := Matching(s, bucket, prefix, marker);
    MatchingMembers(s, bucket, prefix, marker);
    assert m[maxKeys - 1] in m;
    MatchingFromMatching(s, bucket, prefix, marker, m[maxKeys - 1].key);
    forall i | 0 <= i < |m|
      ensures m[i].bucket == bucket && prefix <= m[i].key
    {
      assert m[i] in m;
    }
    TailIffKeyChanges(m, bucket, prefix, maxKeys);
  }

  predicate KeysDiffer(s: Objects) {
    forall i, j :: 0 <= i < j < |s| ==> s[i].key != s[j].key
  }

  /** One version per key among the objects of the bucket. */
  predicate KeysDistinct(s: Objects, bucket: string) {
    forall i, j :: 0 <= i < j < |s| && s[i].bucket == bucket && s[j].bucket == bucket ==> s[i].key != s[j].key
  }

  lemma {:induction false} FilteredKeysDistinct(s: Objects, bucket: string, prefix: string, marker: string)
    requires KeysDistinct(s, bucket)
    ensures KeysDiffer(Filtered(s, bucket, prefix, marker))
  {
    if s != [] {
      FilteredKeysDistinct(s[1..], bucket, prefix, marker);
      var rest := Filtered(s[1..], bucket, prefix, marker);
      forall j | 0 <= j < |rest| && s[0].bucket == bucket
        ensures rest[j].key != s[0].key
      {
        FilteredMembers(s[1..], bucket, prefix, marker, rest[j]);
        var k :| 0 <= k < |s[1..]| && s[1..][k] == rest[j];
        assert s[k + 1] == rest[j];
      }
    }
  }

  lemma MatchingKeysDistinct(s: Objects, bucket: string, prefix: string, marker: string)
    requires KeysDistinct(s, bucket)
    ensures VersionsDistinct(Filtered(s, bucket, prefix, marker))
    ensures KeysDiffer(Matching(s, bucket, prefix, marker))
  {
    var f, m := Filtered(s, bucket, prefix, marker), Matching(s, bucket, prefix, marker);
    FilteredKeysDistinct(s, bucket, prefix, marker);
    SortObjectsSorts(f);
    forall i, j | 0 <= i < j < |m|
      ensures m[i].key != m[j].key
    {
      TwoPlaces(f, m, i, j);
    }
  }

  /** Two places of a permutation come from two places. */
  lemma TwoPlaces(f: Objects, m: Objects, i: nat, j: nat)
    requires multiset(f) == multiset(m) && i < j < |m|
    requires KeysDiffer(f)
    ensures m[i].key != m[j].key
  {
    assert m[i] in multiset(f) && m[j] in multiset(f);
    var a :| 0 <= a < |f| && f[a] == m[i];
    var b :| 0 <= b < |f| && f[b] == m[j];
    if m[i] == m[j] {
      CountsTwice(m, i, j);
      CountsOnce(f, a);
      assert false;
    }
  }

  lemma CountsTwice(s: Objects, i: nat, j: nat)
    requires i < j < |s| && s[i] == s[j]
    ensures multiset(s)[s[i]] >= 2
  {
    assert s == s[..j] + [s[j]] + s[j + 1..];
    assert s[i] in s[..j];
  }

  lemma CountsOnce(s: Objects, a: nat)
    requires a < |s| && KeysDiffer(s)
    ensures multiset(s)[s[a]] == 1
  {
    assert s == s[..a] + [s[a]] + s[a + 1..];
    assert s[a] !in s[..a] && s[a] !in s[a + 1..];
  }

  /**
   With one version per key, following next_marker with any limit ends and the pages concatenate
   to exactly the sorted list of matching objects.
   */
  lemma {:induction false} PagesConcatenate(s: Objects, bucket: string, prefix: string, marker: string, maxKeys: nat)
    requires KeysDistinct(s, bucket)
    ensures Follow(s, bucket, prefix, marker, maxKeys) == Matching(s, bucket, prefix, marker)
    decreases |Matching(s, bucket, prefix, marker)|
  {
    var page := ListObjects(s, bucket, prefix, marker, maxKeys);
    if page.truncated {
      var m := Matching(s, bucket, prefix, marker);
      MatchingKeysDistinct(s, bucket, prefix, marker);
      NextPageContinuesIff(s, bucket, prefix, marker, maxKeys);
      NextIsShorter(s, bucket, prefix, marker, maxKeys);
      PagesConcatenate(s, bucket, prefix, page.nextMarker.value, maxKeys);
      assert m == m[..maxKeys] + m[maxKeys..];
    }
  }

  // ------------------------------------------------- the objects of a state

  /** The objects of a state along one iteration of its hash map. */
  function ObjectsAlong(order: seq<ObjectKey>, objects: map<ObjectKey, ObjectMetadata>): Objects
    requires forall k :: k in order ==> k in objects
  {
    seq(|order|, i requires 0 <= i < |order| => objects[order[i]])
  }

  lemma {:induction false} FilteredVersionsDistinct(s: Objects, bucket: string, prefix: string, marker: string)
    requires forall i, j :: 0 <= i < j < |s| ==> KeyOf(s[i]) != KeyOf(s[j])
    ensures VersionsDistinct(Filtered(s, bucket, prefix, marker))
  {
    if s != [] {
      FilteredVersionsDistinct(s[1..], bucket, prefix, marker);
      var rest := Filtered(s[1..], bucket, prefix, marker);
      forall j | 0 <= j < |rest| && s[0].bucket == bucket
        ensures !SameVersion(s[0], rest[j])
      {
        FilteredMembers(s[1..], bucket, prefix, marker, rest[j]);
        var k :| 0 <= k < |s[1..]| && s[1..][k] == rest[j];
        assert s[k + 1] == rest[j];
      }
    }
  }

  /** In a state whose keys are derived from its objects, listings never meet one version twice. */
  lemma StateVersionsDistinct(order: seq<ObjectKey>, objects: map<ObjectKey, ObjectMetadata>, bucket: string,
                              prefix: string, marker: string)
    requires Enumerates(order, objects) && forall k :: k in objects ==> KeyOf(objects[k]) == k
    ensures VersionsDistinct(Filtered(ObjectsAlong(order, objects), bucket, prefix, marker))
  {
    FilteredVersionsDistinct(ObjectsAlong(order, objects), bucket, prefix, marker);
  }

  /** Objects without versions have one entry per key, so their pages concatenate to the whole listing. */
  lemma VersionlessPagesConcatenate(order: seq<ObjectKey>, objects: map<ObjectKey, ObjectMetadata>, bucket: string,
                                    prefix: string, marker: string, maxKeys: nat)
    requires Enumerates(order, objects) && forall k :: k in objects ==> KeyOf(objects[k]) == k && k.versionId == None
    ensures var s := ObjectsAlong(order, objects);
            Follow(s, bucket, prefix, marker, maxKeys) == Matching(s, bucket, prefix, marker)
  {
    var s := ObjectsAlong(order, objects);
    forall i, j | 0 <= i < j < |s| && s[i].bucket == bucket && s[j].bucket == bucket
      ensures s[i].key != s[j].key
    {
      assert KeyOf(s[i]) == order[i] && KeyOf(s[j]) == order[j];
    }
    PagesConcatenate(s, bucket, prefix, marker, maxKeys);
  }

  /** Two versions of one key, pages of one: the second version is never listed. */
  lemma SplitVersionsAreSkipped(a: ObjectMetadata, b: ObjectMetadata)
    requires a.bucket == b.bucket && a.key == b.key != "" && a.versionId == None && b.versionId == Some("v")
    ensures Matching([a, b], a.bucket, "", "") == [a, b]
    ensures Follow([a, b], a.bucket, "", "", 1) == [a]
  {
    var s := [a, b];
    PairIsSorted(a, b);
    FilteredAllOrNone(s, a.bucket, "", a.key);
    assert Matching(s, a.bucket, "", a.key) == [];
    assert ListObjects(s, a.bucket, "", "", 1) == Page([a], Some(a.key), true);
    assert Follow(s, a.bucket, "", a.key, 1) == [];
  }

  lemma PairIsSorted(a: ObjectMetadata, b: ObjectMetadata)
    requires a.bucket == b.bucket && a.key == b.key != "" && a.versionId == None && b.versionId == Some("v")
    ensures Matching([a, b], a.bucket, "", "") == [a, b]
  {
    assert StrLt("", a.key);
    FilteredAllOrNone([a, b], a.bucket, "", "");
    SortObjectsSorts([a, b]);
    SortedUnique([a, b], SortObjects([a, b]));
  }
}
