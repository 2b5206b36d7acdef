/** Lexicographic order, by which the source compares tuples and strings. */
module LexOrder {

  predicate LexLe(a: seq<int>, b: seq<int>) {
    a == [] || (b != [] && (a[0] < b[0] || (a[0] == b[0] && LexLe(a[1..], b[1..]))))
  }

  lemma {:induction false} LexTotal(a: seq<int>, b: seq<int>)
    ensures LexLe(a, b) || LexLe(b, a)
  {
    if a != [] && b != [] {
      LexTotal(a[1..], b[1..]);
    }
  }

  lemma {:induction false} LexTransitive(a: seq<int>, b: seq<int>, c: seq<int>)
    requires LexLe(a, b) && LexLe(b, c)
    ensures LexLe(a, c)
  {
    if a != [] && a[0] == b[0] == c[0] {
      LexTransitive(a[1..], b[1..], c[1..]);
    }
  }

  lemma {:induction false} LexAntisymmetric(a: seq<int>, b: seq<int>)
    requires LexLe(a, b) && LexLe(b, a)
    ensures a == b
  {
    if a != [] {
      LexAntisymmetric(a[1..], b[1..]);
      assert a == [a[0]] + a[1..] && b == [b[0]] + b[1..];
    }
  }

  /** Prefixes of ordered sequences, neither a prefix of the other, are in the same order. */
  lemma {:induction false} PrefixesInOrder(a: seq<int>, b: seq<int>, p: seq<int>, q: seq<int>)
    requires LexLe(a, b) && p <= a && q <= b
    requires !(p <= q) && !(q <= p)
    ensures LexLe(p, q)
  {
    assert p[0] == a[0] && q[0] == b[0];
    if a[0] == b[0] {
      assert p == [a[0]] + p[1..] && q == [a[0]] + q[1..];
      PrefixesInOrder(a[1..], b[1..], p[1..], q[1..]);
    }
  }

  // ------------------------------------------------------------------ strings

  /** Character codes; UTF-8 keeps their order. */
  function Codes(s: string): (r: seq<int>)
    ensures |r| == |s| && forall i :: 0 <= i < |s| ==> r[i] == s[i] as int
  {
    seq(|s|, i requires 0 <= i < |s| => s[i] as int)
  }

  predicate StrLe(a: string, b: string) { LexLe(Codes(a), Codes(b)) }

  predicate StrLt(a: string, b: string) { StrLe(a, b) && a != b }

  lemma StrTotal(a: string, b: string)
    ensures StrLe(a, b) || StrLe(b, a)
  {
    LexTotal(Codes(a), Codes(b));
  }

  lemma StrAntisymmetric(a: string, b: string)
    requires StrLe(a, b) && StrLe(b, a)
    ensures a == b
  {
    LexAntisymmetric(Codes(a), Codes(b));
    forall i | 0 <= i < |a|
      ensures a[i] == b[i]
    {
      assert Codes(a)[i] == Codes(b)[i];
    }
  }

  lemma StrTransitive(a: string, b: string, c: string)
    requires StrLe(a, b) && StrLe(b, c)
    ensures StrLe(a, c)
  {
    LexTransitive(Codes(a), Codes(b), Codes(c));
  }

  lemma CodesOfPrefix(p: string, q: string)
    ensures p <= q <==> Codes(p) <= Codes(q)
  {
    if Codes(p) <= Codes(q) {
      forall i | 0 <= i < |p|
        ensures p[i] == q[i]
      {
        assert Codes(p)[i] == Codes(q)[i];
      }
    }
  }

  lemma StrPrefixesInOrder(a: string, b: string, p: string, q: string)
    requires StrLe(a, b) && p <= a && q <= b
    requires !(p <= q) && !(q <= p)
    ensures StrLt(p, q)
  {
    CodesOfPrefix(p, a);
    CodesOfPrefix(q, b);
    CodesOfPrefix(p, q);
    CodesOfPrefix(q, p);
    PrefixesInOrder(Codes(a), Codes(b), Codes(p), Codes(q));
  }
}
