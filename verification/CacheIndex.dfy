/** Cache entries, the bytes they use and the order in which they are evicted. */
module CacheIndexes {
  import opened Basics
  import opened MapSum
  import opened LexOrder

  datatype CacheKey = CacheKey(bucket: string, key: string, versionId: Option<string>)

  datatype Category = Staging | Restored

  /** Checksum, content type and etag are carried along untouched and left out. */
  datatype Xattrs = Xattrs(
    bucket: string, key: string, versionId: Option<string>, size: nat, expireAt: int, cachedAt: int,
    lastAccessAt: int, accessCount: nat, category: Category)

  datatype Entry = Entry(storageId: nat, xattrs: Xattrs)

  type Index = map<CacheKey, Entry>

  // -------------------------------------------------------------- used bytes

  ghost function Sizes(m: Index): map<CacheKey, nat> { map k | k in m :: m[k].xattrs.size }

  ghost function Used(m: Index): nat { Sum(Sizes(m)) }

  lemma UsedInsert(m: Index, k: CacheKey, e: Entry)
    ensures k in m ==> Used(m[k := e]) + m[k].xattrs.size == Used(m) + e.xattrs.size
    ensures k !in m ==> Used(m[k := e]) == Used(m) + e.xattrs.size
  {
    SumInsert(Sizes(m), k, e.xattrs.size);
    assert Sizes(m[k := e]) == Sizes(m)[k := e.xattrs.size];
  }

  lemma UsedRemove(m: Index, k: CacheKey)
    requires k in m
    ensures Used(m) == m[k].xattrs.size + Used(m - {k})
  {
    SumRemove(Sizes(m), k);
    assert Sizes(m - {k}) == Sizes(m) - {k};
  }

  /** The iterator sum over one index; the order in which keys come does not matter. */
  method UsedBytes(m: Index) returns (n: nat)
    ensures n == Used(m)
  {
    n := 0;
    var rest := m;
    while rest != map[]
      invariant n + Used(rest) == Used(m)
      decreases |rest|
    {
      var k :| k in rest;
      UsedRemove(rest, k);
      n := n + rest[k].xattrs.size;
      rest := rest - {k};
    }
    assert Sizes(rest) == map[];
  }

  // ----------------------------------------------------------- eviction order

  datatype Policy = Lru | Lfu

  function Cursor(k: CacheKey): string {
    k.bucket + "\0" + k.key + "\0" + k.versionId.GetOr("")
  }

  /** The tuple by which a victim is chosen, as one sequence compared lexicographically. */
  function Rank(policy: Policy, k: CacheKey, e: Entry): seq<int> {
    var x := e.xattrs;
    match policy
    case Lru => [x.lastAccessAt, x.cachedAt, x.size, x.accessCount] + Codes(x.key)
    case Lfu => [x.accessCount, x.lastAccessAt, x.cachedAt, x.size] + Codes(Cursor(k))
  }

  /** No entry of the index comes before `k`. */
  ghost predicate Least(policy: Policy, m: Index, k: CacheKey)
    requires k in m
  {
    forall j :: j in m ==> LexLe(Rank(policy, k, m[k]), Rank(policy, j, m[j]))
  }

  method SelectCandidate(policy: Policy, m: Index) returns (r: Option<CacheKey>)
    ensures r.None? <==> m == map[]
    ensures r.Some? ==> r.value in m && Least(policy, m, r.value)
  {
    if m == map[] {
      return None;
    }
    var best :| best in m;
    var rest := m.Keys;
    LexTotal(Rank(policy, best, m[best]), Rank(policy, best, m[best]));
    while rest != {}
      invariant rest <= m.Keys && best in m
      invariant forall j :: j in m && j !in rest ==> LexLe(Rank(policy, best, m[best]), Rank(policy, j, m[j]))
      invariant LexLe(Rank(policy, best, m[best]), Rank(policy, best, m[best]))
      decreases |rest|
    {
      var k :| k in rest;
      LexTotal(Rank(policy, best, m[best]), Rank(policy, k, m[k]));
      if !LexLe(Rank(policy, best, m[best]), Rank(policy, k, m[k])) {
        forall j | j in m && j !in rest
          ensures LexLe(Rank(policy, k, m[k]), Rank(policy, j, m[j]))
        {
          LexTransitive(Rank(policy, k, m[k]), Rank(policy, best, m[best]), Rank(policy, j, m[j]));
        }
        LexTotal(Rank(policy, k, m[k]), Rank(policy, k, m[k]));
        best := k;
      }
      rest := rest - {k};
    }
    r := Some(best);
  }
}
