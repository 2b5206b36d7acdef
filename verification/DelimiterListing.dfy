/** The scheduler's page: keys that contain the delimiter after the prefix are folded into common prefixes. */
module DelimiterListing {
  import opened Basics
  import opened LexOrder
  import opened MetadataTypes
  import opened ObjectListing

  // ------------------------------------------------------------ common prefixes

  predicate OccursAt(s: string, d: string, i: nat) { i + |d| <= |s| && s[i..i + |d|] == d }

  /** The first occurrence of the delimiter at or after `i`. */
  function FindFrom(s: string, d: string, i: nat): (r: Option<nat>)
    requires i <= |s|
    ensures r.Some? ==> i <= r.value && OccursAt(s, d, r.value)
    ensures forall j :: i <= j < (if r.Some? then r.value else |s|) ==> !OccursAt(s, d, j)
    decreases |s| - i
  {
    if OccursAt(s, d, i) then Some(i)
    else if i == |s| then None
    else FindFrom(s, d, i + 1)
  }

  /** The common prefix that stands for a key, if the delimiter occurs after the prefix. */
  function CommonPrefix(key: string, prefix: string, delimiter: string): Option<string> {
    if delimiter == "" || !(prefix <= key) then None else
      var suffix := key[|prefix|..];
      match FindFrom(suffix, delimiter, 0)
      case Some(pos) => Some(prefix + suffix[..pos + |delimiter|])
      case None => None
  }

  lemma CommonPrefixIsPrefix(key: string, prefix: string, delimiter: string)
    ensures var c := CommonPrefix(key, prefix, delimiter); c.Some? ==> c.value <= key
  {
    var c := CommonPrefix(key, prefix, delimiter);
    if c.Some? {
      assert key == prefix + key[|prefix|..];
    }
  }

  /** No common prefix is a proper prefix of another: the first occurrence of the delimiter ends it. */
  lemma PrefixFree(a: string, b: string, prefix: string, delimiter: string)
    requires CommonPrefix(a, prefix, delimiter).Some? && CommonPrefix(b, prefix, delimiter).Some?
    requires CommonPrefix(a, prefix, delimiter).value <= CommonPrefix(b, prefix, delimiter).value
    ensures CommonPrefix(a, prefix, delimiter) == CommonPrefix(b, prefix, delimiter)
  {
    var ca, cb := CommonPrefix(a, prefix, delimiter).value, CommonPrefix(b, prefix, delimiter).value;
    var sa, sb := a[|prefix|..], b[|prefix|..];
    var i, j := FindFrom(sa, delimiter, 0).value, FindFrom(sb, delimiter, 0).value;
    assert ca == prefix + sa[..i + |delimiter|] && cb == prefix + sb[..j + |delimiter|];
    assert sa[..i + |delimiter|] == ca[|prefix|..];
    assert sa[..i + |delimiter|] <= sb[..j + |delimiter|] by {
      assert sb[..j + |delimiter|] == cb[|prefix|..];
    }
    assert OccursAt(sb, delimiter, i) by {
      assert sa[i..i + |delimiter|] == sb[i..i + |delimiter|];
    }
    assert j <= i && |cb| <= |ca|;
    assert ca == cb;
  }

  /** Keys in order have common prefixes in order. */
  lemma CommonPrefixesInOrder(a: string, b: string, prefix: string, delimiter: string)
    requires StrLe(a, b)
    requires CommonPrefix(a, prefix, delimiter).Some? && CommonPrefix(b, prefix, delimiter).Some?
    requires CommonPrefix(a, prefix, delimiter) != CommonPrefix(b, prefix, delimiter)
    ensures StrLt(CommonPrefix(a, prefix, delimiter).value, CommonPrefix(b, prefix, delimiter).value)
  {
    var ca, cb := CommonPrefix(a, prefix, delimiter).value, CommonPrefix(b, prefix, delimiter).value;
    CommonPrefixIsPrefix(a, prefix, delimiter);
    CommonPrefixIsPrefix(b, prefix, delimiter);
    if ca <= cb {
      PrefixFree(a, b, prefix, delimiter);
    } else if cb <= ca {
      PrefixFree(b, a, prefix, delimiter);
    } else {
      StrPrefixesInOrder(a, b, ca, cb);
    }
  }

  // -------------------------------------------------------------------- pages

  ghost function Select(s: Objects, keep: ObjectMetadata -> bool): Objects {
    if s == [] then [] else
      var n := |s| - 1;
      Select(s[..n], keep) + (if keep(s[n]) then [s[n]] else [])
  }

  lemma {:induction false} SelectCount(s: Objects, keep: ObjectMetadata -> bool, o: ObjectMetadata)
    ensures multiset(Select(s, keep))[o] == if keep(o) then multiset(s)[o] else 0
  {
    if s != [] {
      var n := |s| - 1;
      SelectCount(s[..n], keep, o);
      assert s == s[..n] + [s[n]];
    }
  }

  /** The objects that appear as themselves. */
  ghost function Plain(s: Objects, prefix: string, delimiter: string): Objects {
    Select(s, (o: ObjectMetadata) => CommonPrefix(o.key, prefix, delimiter).None?)
  }

  /** The common prefixes of these objects, each where it first occurs. */
  function FoldedPrefixes(s: Objects, prefix: string, delimiter: string): seq<string> {
    if s == [] then [] else
      var n := |s| - 1;
      var earlier := FoldedPrefixes(s[..n], prefix, delimiter);
      var c := CommonPrefix(s[n].key, prefix, delimiter);
      if c.Some? && c.value !in earlier then earlier + [c.value] else earlier
  }

  ghost predicate StandsFor(c: string, s: Objects, prefix: string, delimiter: string) {
    exists i :: 0 <= i < |s| && CommonPrefix(s[i].key, prefix, delimiter) == Some(c)
  }

  /** Exactly the common prefixes of the objects are listed. */
  lemma {:induction false} FoldedMembers(s: Objects, prefix: string, delimiter: string, c: string)
    ensures c in FoldedPrefixes(s, prefix, delimiter) <==> StandsFor(c, s, prefix, delimiter)
  {
    if s != [] {
      var n := |s| - 1;
      FoldedMembers(s[..n], prefix, delimiter, c);
      assert StandsFor(c, s[..n], prefix, delimiter) ==> StandsFor(c, s, prefix, delimiter) by {
        if i :| 0 <= i < |s[..n]| && CommonPrefix(s[..n][i].key, prefix, delimiter) == Some(c) {
          assert s[i] == s[..n][i];
        }
      }
      assert StandsFor(c, s, prefix, delimiter) ==>
          StandsFor(c, s[..n], prefix, delimiter) || CommonPrefix(s[n].key, prefix, delimiter) == Some(c) by {
        if i :| 0 <= i < |s| && CommonPrefix(s[i].key, prefix, delimiter) == Some(c) {
          assert i < n ==> s[..n][i] == s[i];
        }
      }
    }
  }

  predicate StrictlyIncreasing(prefixes: seq<string>) {
    forall i, j :: 0 <= i < j < |prefixes| ==> StrLt(prefixes[i], prefixes[j])
  }

  /** Sorted keys list their common prefixes in strictly increasing order. */
  lemma {:induction false} FoldedIncreasing(s: Objects, prefix: string, delimiter: string)
    requires Sorted(s)
    ensures StrictlyIncreasing(FoldedPrefixes(s, prefix, delimiter))
  {
    if s != [] {
      var n := |s| - 1;
      FoldedIncreasing(s[..n], prefix, delimiter);
      var earlier := FoldedPrefixes(s[..n], prefix, delimiter);
      var c := CommonPrefix(s[n].key, prefix, delimiter);
      if c.Some? && c.value !in earlier {
        forall i | 0 <= i < |earlier|
          ensures StrLt(earlier[i], c.value)
        {
          EarlierIsLess(s, prefix, delimiter, earlier[i]);
        }
      }
    }
  }

  lemma EarlierIsLess(s: Objects, prefix: string, delimiter: string, c: string)
    requires Sorted(s) && s != [] && c in FoldedPrefixes(s[..|s| - 1], prefix, delimiter)
    requires CommonPrefix(s[|s| - 1].key, prefix, delimiter).Some?
    requires CommonPrefix(s[|s| - 1].key, prefix, delimiter) != Some(c)
    ensures StrLt(c, CommonPrefix(s[|s| - 1].key, prefix, delimiter).value)
  {
    var n := |s| - 1;
    FoldedMembers(s[..n], prefix, delimiter, c);
    var i :| 0 <= i < |s[..n]| && CommonPrefix(s[..n][i].key, prefix, delimiter) == Some(c);
    assert SortLe(s[i], s[n]);
    StrTotal(s[i].key, s[i].key);
    CommonPrefixesInOrder(s[i].key, s[n].key, prefix, delimiter);
  }

  /** The name of something on the page. */
  ghost predicate Emitted(name: string, contents: Objects, commonPrefixes: seq<string>) {
    name in commonPrefixes || exists o :: o in contents && o.key == name
  }

  lemma VisitOne(s: Objects, i: nat, prefix: string, delimiter: string)
    requires i < |s|
    ensures var c := CommonPrefix(s[i].key, prefix, delimiter);
            var folded := FoldedPrefixes(s[..i], prefix, delimiter);
            && Plain(s[..i + 1], prefix, delimiter)
               == Plain(s[..i], prefix, delimiter) + (if c.None? then [s[i]] else [])
            && FoldedPrefixes(s[..i + 1], prefix, delimiter)
               == (if c.Some? && c.value !in folded then folded + [c.value] else folded)
  {
    assert s[..i + 1][..i] == s[..i];
  }

  /**
   Builds a page.  It emits at most `maxKeys` items; it is truncated iff a matching object was left
   unvisited; the visited objects appear as themselves, in order, or under their common prefix; and
   the common prefixes come in strictly increasing order.
   */
  method BuildListObjectsPage(objects: Objects, bucket: string, prefix: string, marker: string, delimiter: string,
                              maxKeys: nat)
    returns (contents: Objects, commonPrefixes: seq<string>, nextMarker: Option<string>, truncated: bool,
             ghost visited: nat)
    ensures var m := Matching(objects, bucket, prefix, marker);
            && visited <= |m| && (truncated <==> visited < |m|)
            && contents == Plain(m[..visited], prefix, delimiter)
            && commonPrefixes == FoldedPrefixes(m[..visited], prefix, delimiter)
    ensures StrictlyIncreasing(commonPrefixes)
    ensures maxKeys > 0 ==> |contents| + |commonPrefixes| <= maxKeys
    ensures truncated ==> maxKeys > 0 && |contents| + |commonPrefixes| == maxKeys
    ensures nextMarker.Some? <==> truncated
    ensures nextMarker.Some? ==> Emitted(nextMarker.value, contents, commonPrefixes)
  {
    var filtered := Matching(objects, bucket, prefix, marker);
    MatchingMembers(objects, bucket, prefix, marker);
    var emitted := 0;
    var lastEmitted: Option<string> := None;
    contents, commonPrefixes, nextMarker, truncated := [], [], None, false;
    var i := 0;
    while i < |filtered|
      invariant i <= |filtered|
      invariant contents == Plain(filtered[..i], prefix, delimiter)
      invariant commonPrefixes == FoldedPrefixes(filtered[..i], prefix, delimiter)
      invariant emitted == |contents| + |commonPrefixes|
      invariant maxKeys > 0 ==> emitted <= maxKeys
      invariant emitted > 0 ==> lastEmitted.Some?
      invariant lastEmitted.Some? ==> Emitted(lastEmitted.value, contents, commonPrefixes)
    {
      if maxKeys > 0 && emitted >= maxKeys {
        truncated, nextMarker := true, lastEmitted;
        break;
      }
      var o := filtered[i];
      VisitOne(filtered, i, prefix, delimiter);
      var c := CommonPrefix(o.key, prefix, delimiter);
      if c.Some? {
        if c.value !in commonPrefixes {
          commonPrefixes := commonPrefixes + [c.value];
          emitted := emitted + 1;
          lastEmitted := c;
        }
      } else {
        contents := contents + [o];
        emitted := emitted + 1;
        lastEmitted := Some(o.key);
        assert o in contents;
      }
      i := i + 1;
    }
    FoldedIncreasing(filtered[..i], prefix, delimiter);
    visited := i;
  }

  /**
   A page that visits everything represents every matching object exactly once: as content as often
   as it matches, or by its one common prefix, which is listed once.
   */
  lemma FullPageIsExact(objects: Objects, bucket: string, prefix: string, marker: string, delimiter: string,
                        o: ObjectMetadata)
    requires o in objects && OnPage(o, bucket, prefix, marker)
    ensures var m := Matching(objects, bucket, prefix, marker);
            var contents, folded := Plain(m, prefix, delimiter), FoldedPrefixes(m, prefix, delimiter);
            var c := CommonPrefix(o.key, prefix, delimiter);
            if c.None? then multiset(contents)[o] == multiset(objects)[o]
            else o !in contents && c.value in folded && NoDuplicates(folded)
  {
    var m := Matching(objects, bucket, prefix, marker);
    MatchingMembers(objects, bucket, prefix, marker);
    SortObjectsSorts(Filtered(objects, bucket, prefix, marker));
    FilteredCount(objects, bucket, prefix, marker, o);
    SelectCount(m, (p: ObjectMetadata) => CommonPrefix(p.key, prefix, delimiter).None?, o);
    var contents := Plain(m, prefix, delimiter);
    assert o in contents <==> multiset(contents)[o] > 0;
    FoldedIncreasing(m, prefix, delimiter);
    var c := CommonPrefix(o.key, prefix, delimiter);
    if c.Some? {
      assert o in m;
      var i :| 0 <= i < |m| && m[i] == o;
      FoldedMembers(m, prefix, delimiter, c.value);
    }
  }
}
