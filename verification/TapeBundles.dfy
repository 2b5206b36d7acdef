/**
 Bundles on one drive: writing appends a data record and a filemark at the cursor and
 hands out filemark numbers from a counter kept per drive; reading rewinds, seeks and reads.
 */
module TapeBundles {
  import opened Basics
  import opened VirtualTapes

  /** A drive with its tape and the next filemark number that it will hand out. */
  datatype Deck = Deck(tape: Tape, nextFilemark: nat)

  const USIZE_MAX: nat := U64_MAX

  function Next32(n: nat): nat { if n + 1 == U32 then 0 else n + 1 }

  function Written(t: Tape, data: seq<Byte>): Tape {
    Appended(Appended(t, Data(data)), Filemark)
  }

  function WriteBundle(d: Deck, data: seq<Byte>): ((nat, nat), Deck) {
    var next := Next32(d.nextFilemark);
    ((d.nextFilemark, next), Deck(Written(d.tape, data), next))
  }

  /** A requested length of zero means no limit. */
  function Limit(length: nat): nat { if length == 0 then USIZE_MAX else Min(length, USIZE_MAX) }

  function ReadBundle(t: Tape, filemark: nat, length: nat): (Result<seq<Byte>>, Tape) {
    var (found, at) := if filemark > 0 then SeekFrom(Rewound(t), filemark) else (true, Rewound(t));
    if found then
      var (data, last) := ReadFrom(at, Limit(length));
      (Ok(data), last)
    else (Err(FailedPrecondition), at)
  }

  // ------------------------------------------------------------ segment algebra

  lemma {:induction false} SegmentsOfConcat(a: seq<Record>, b: seq<Record>)
    ensures var sa, sb := Segments(a), Segments(b);
            var m := |sa| - 1;
            Segments(a + b) == sa[..m] + [sa[m] + sb[0]] + sb[1..]
  {
    var sa, sb := Segments(a), Segments(b);
    if a == [] {
      assert a + b == b;
      assert [] + sb[0] == sb[0];
      assert sb == [sb[0]] + sb[1..];
    } else {
      assert (a + b)[1..] == a[1..] + b;
      SegmentsOfConcat(a[1..], b);
      JoinFirst(a[0], Segments(a[1..]), sb);
    }
  }

  function Join(r: Record, s: seq<seq<Byte>>): seq<seq<Byte>>
    requires |s| >= 1
  {
    match r
    case Filemark => [[]] + s
    case Data(d) => [d + s[0]] + s[1..]
  }

  lemma JoinFirst(r: Record, s: seq<seq<Byte>>, t: seq<seq<Byte>>)
    requires |s| >= 1 && |t| >= 1
    ensures var m := |s| - 1; var j := Join(r, s); var k := |j| - 1;
            Join(r, s[..m] + [s[m] + t[0]] + t[1..]) == j[..k] + [j[k] + t[0]] + t[1..]
  {
    var m := |s| - 1;
    if r.Data? && m == 0 {
      Associative(r.bytes, s[0], t[0]);
    }
  }

  /** Every bundle on the tape is closed by its filemark. */
  predicate Complete(records: seq<Record>) {
    records != [] ==> records[|records| - 1].Filemark?
  }

  lemma MarksOfConcat(a: seq<Record>, b: seq<Record>)
    ensures Marks(a + b) == Marks(a) + Marks(b)
  {
    SegmentsOfConcat(a, b);
  }

  lemma CompleteEndsEmpty(records: seq<Record>)
    requires Complete(records)
    ensures Segments(records)[Marks(records)] == []
  {
    if records != [] {
      var n := |records| - 1;
      assert records == records[..n] + [Filemark];
      SegmentsOfConcat(records[..n], [Filemark]);
      assert Segments([Filemark]) == [[], []] by {
        assert [Filemark][1..] == [];
      }
    }
  }

  lemma SegmentsOfBundle(data: seq<Byte>)
    ensures Segments([Data(data), Filemark]) == [data, []]
  {
    assert [Data(data), Filemark][1..] == [Filemark];
    assert [Filemark][1..] == [];
    assert data + [] == data;
  }

  // ------------------------------------------------------------------ writing

  lemma WrittenRecords(t: Tape, data: seq<Byte>)
    requires t.recordIndex <= |t.records|
    ensures Written(t, data).records == t.records[..t.recordIndex] + [Data(data), Filemark]
    ensures Written(t, data).recordIndex == t.recordIndex + 2 && Written(t, data).byteOffset == 0
  {}

  /** The write adds one bundle after all bundles that the tape held. */
  ghost predicate AddsBundle(before: seq<Record>, after: seq<Record>, data: seq<Byte>) {
    Segments(after) == Segments(before)[..Marks(before)] + [data, []]
  }

  /** A write to a tape of complete bundles keeps them all iff the cursor is at the end of the records. */
  lemma WriteAppendsIffAtEnd(t: Tape, data: seq<Byte>)
    requires CursorOk(t) && Complete(t.records)
    ensures AddsBundle(t.records, Written(t, data).records, data) <==> t.recordIndex == |t.records|
  {
    var i := t.recordIndex;
    WrittenRecords(t, data);
    SegmentsOfBundle(data);
    SegmentsOfConcat(t.records[..i], [Data(data), Filemark]);
    if i == |t.records| {
      assert t.records[..i] == t.records;
      CompleteEndsEmpty(t.records);
      assert [] + data == data;
    } else {
      assert t.records == t.records[..i] + t.records[i..];
      MarksOfConcat(t.records[..i], t.records[i..]);
      LastMarkCounts(t.records[i..]);
    }
  }

  lemma LastMarkCounts(records: seq<Record>)
    requires records != [] && Complete(records)
    ensures Marks(records) > 0
  {
    var n := |records| - 1;
    assert records == records[..n] + [Filemark];
    MarksOfConcat(records[..n], [Filemark]);
  }

  // -------------------------------------------------------------- whole runs

  /** The records of a tape that holds exactly these bundles. */
  function Layout(bundles: seq<seq<Byte>>): seq<Record> {
    if bundles == [] then [] else [Data(bundles[0]), Filemark] + Layout(bundles[1..])
  }

  lemma {:induction false} LayoutOfAppend(bundles: seq<seq<Byte>>, b: seq<Byte>)
    ensures Layout(bundles + [b]) == Layout(bundles) + [Data(b), Filemark]
  {
    if bundles == [] {
      assert bundles + [b] == [b];
      assert [b][1..] == [];
    } else {
      assert (bundles + [b])[1..] == bundles[1..] + [b];
      LayoutOfAppend(bundles[1..], b);
    }
  }

  lemma {:induction false} SegmentsOfLayout(bundles: seq<seq<Byte>>)
    ensures Segments(Layout(bundles)) == bundles + [[]] && Complete(Layout(bundles))
  {
    if bundles != [] {
      SegmentsOfLayout(bundles[1..]);
      SegmentsOfBundle(bundles[0]);
      SegmentsOfConcat([Data(bundles[0]), Filemark], Layout(bundles[1..]));
    }
  }

  /** The drive holds these bundles and its counter is their number. */
  predicate Stores(d: Deck, bundles: seq<seq<Byte>>) {
    && d.tape.records == Layout(bundles)
    && CursorOk(d.tape)
    && d.nextFilemark == |bundles|
  }

  predicate AtEnd(t: Tape) { t.recordIndex == |t.records| }

  datatype Operation = Write(data: seq<Byte>) | Read(filemark: nat, length: nat) | Rewind

  function Perform(d: Deck, op: Operation): Deck {
    match op
    case Write(data) => WriteBundle(d, data).1
    case Read(filemark, length) => d.(tape := ReadBundle(d.tape, filemark, length).1)
    case Rewind => d.(tape := Rewound(d.tape))
  }

  function PerformAll(d: Deck, ops: seq<Operation>): Deck
    decreases |ops|
  {
    if ops == [] then d else PerformAll(Perform(d, ops[0]), ops[1..])
  }

  /** Every write of the run meets the cursor at the end of the records. */
  predicate WritesAtEnd(d: Deck, ops: seq<Operation>)
    decreases |ops|
  {
    ops == [] || ((ops[0].Write? ==> AtEnd(d.tape)) && WritesAtEnd(Perform(d, ops[0]), ops[1..]))
  }

  function BundlesOf(ops: seq<Operation>): seq<seq<Byte>> {
    if ops == [] then [] else (if ops[0].Write? then [ops[0].data] else []) + BundlesOf(ops[1..])
  }

  /** A read at any filemark returns that bundle, up to the limit, and keeps the records. */
  lemma ReadReturnsBundle(t: Tape, bundles: seq<seq<Byte>>, filemark: nat, length: nat)
    requires t.records == Layout(bundles)
    ensures var (r, last) := ReadBundle(t, filemark, length);
            && last.records == t.records && CursorOk(last)
            && (filemark > |bundles| ==> r == Err(FailedPrecondition))
            && (filemark == |bundles| ==> r == Ok([]))
            && (filemark < |bundles| ==>
                  var b := bundles[filemark]; r == Ok(b[..Min(Limit(length), |b|)]))
  {
    SegmentsOfLayout(bundles);
    RewindSeekRead(t, filemark, Limit(length));
    SeekCounts(Rewound(t), filemark);
    ReadAdvances(SeekFrom(Rewound(t), filemark).1, Limit(length));
  }

  lemma WriteStores(d: Deck, bundles: seq<seq<Byte>>, data: seq<Byte>)
    requires Stores(d, bundles) && AtEnd(d.tape) && |bundles| + 1 < U32
    ensures Stores(WriteBundle(d, data).1, bundles + [data])
    ensures WriteBundle(d, data).0 == (|bundles|, |bundles| + 1)
    ensures AtEnd(WriteBundle(d, data).1.tape)
  {
    WrittenRecords(d.tape, data);
    LayoutOfAppend(bundles, data);
    assert d.tape.records[..|d.tape.records|] == d.tape.records;
  }

  /** Any interleaving of reads, rewinds and end-of-data writes stores exactly the bundles written, in order. */
  lemma {:induction false} RunStoresBundles(d: Deck, bundles: seq<seq<Byte>>, ops: seq<Operation>)
    requires Stores(d, bundles) && WritesAtEnd(d, ops)
    requires |bundles| + |BundlesOf(ops)| < U32
    ensures Stores(PerformAll(d, ops), bundles + BundlesOf(ops))
    decreases |ops|
  {
    if ops == [] {
      assert bundles + [] == bundles;
    } else if ops[0].Write? {
      WriteStores(d, bundles, ops[0].data);
      RunStoresBundles(Perform(d, ops[0]), bundles + [ops[0].data], ops[1..]);
      assert bundles + [ops[0].data] + BundlesOf(ops[1..]) == bundles + BundlesOf(ops);
    } else {
      if ops[0].Read? {
        ReadReturnsBundle(d.tape, bundles, ops[0].filemark, ops[0].length);
      }
      assert BundlesOf(ops) == BundlesOf(ops[1..]);
      RunStoresBundles(Perform(d, ops[0]), bundles, ops[1..]);
    }
  }

  /** The pairs handed out by a row of writes. */
  function WriteAll(d: Deck, bundles: seq<seq<Byte>>): (seq<(nat, nat)>, Deck)
    decreases |bundles|
  {
    if bundles == [] then ([], d) else
      var (pair, next) := WriteBundle(d, bundles[0]);
      var (pairs, last) := WriteAll(next, bundles[1..]);
      ([pair] + pairs, last)
  }

  lemma {:induction false} WriteAllNumbers(d: Deck, stored: seq<seq<Byte>>, bundles: seq<seq<Byte>>)
    requires Stores(d, stored) && AtEnd(d.tape) && |stored| + |bundles| < U32
    ensures var (pairs, last) := WriteAll(d, bundles);
            && |pairs| == |bundles|
            && (forall i :: 0 <= i < |bundles| ==> pairs[i] == (|stored| + i, |stored| + i + 1))
            && Stores(last, stored + bundles)
    decreases |bundles|
  {
    if bundles == [] {
      assert stored + bundles == stored;
    } else {
      WriteStores(d, stored, bundles[0]);
      WriteAllNumbers(WriteBundle(d, bundles[0]).1, stored + [bundles[0]], bundles[1..]);
      assert stored + [bundles[0]] + bundles[1..] == stored + bundles;
    }
  }

  /** The results of a row of reads. */
  function ReadMany(t: Tape, requests: seq<(nat, nat)>): (seq<Result<seq<Byte>>>, Tape)
    decreases |requests|
  {
    if requests == [] then ([], t) else
      var (r, next) := ReadBundle(t, requests[0].0, requests[0].1);
      var (rs, last) := ReadMany(next, requests[1..]);
      ([r] + rs, last)
  }

  lemma {:induction false} ReadManyReturnsBundles(t: Tape, bundles: seq<seq<Byte>>, requests: seq<(nat, nat)>)
    requires t.records == Layout(bundles)
    ensures var (rs, last) := ReadMany(t, requests);
            && last.records == t.records && |rs| == |requests|
            && (forall i :: 0 <= i < |requests| && requests[i].0 < |bundles| ==>
                  var b := bundles[requests[i].0]; rs[i] == Ok(b[..Min(Limit(requests[i].1), |b|)]))
    decreases |requests|
  {
    if requests != [] {
      ReadReturnsBundle(t, bundles, requests[0].0, requests[0].1);
      ReadManyReturnsBundles(ReadBundle(t, requests[0].0, requests[0].1).1, bundles, requests[1..]);
    }
  }

  /**
   On a blank tape n writes return the pairs (i, i + 1); afterwards any reads in any order,
   with no limit or with the exact size, return each bundle's exact bytes and keep the records.
   */
  lemma {:induction false} BlankTapeRoundTrip(barcode: string, bundles: seq<seq<Byte>>, requests: seq<(nat, nat)>)
    requires |bundles| < U32 && forall b :: b in bundles ==> |b| <= USIZE_MAX
    requires forall i :: 0 <= i < |requests| ==> requests[i].0 < |bundles|
    requires forall i :: 0 <= i < |requests| ==> requests[i].1 == 0 || requests[i].1 == |bundles[requests[i].0]|
    ensures var (pairs, deck) := WriteAll(Deck(Blank(barcode), 0), bundles);
            var (rs, last) := ReadMany(deck.tape, requests);
            && |pairs| == |bundles| && (forall i :: 0 <= i < |pairs| ==> pairs[i] == (i, i + 1))
            && |rs| == |requests| && (forall i :: 0 <= i < |rs| ==> rs[i] == Ok(bundles[requests[i].0]))
            && last.records == deck.tape.records
  {
    WriteAllNumbers(Deck(Blank(barcode), 0), [], bundles);
    assert [] + bundles == bundles;
    var (pairs, deck) := WriteAll(Deck(Blank(barcode), 0), bundles);
    ReadManyReturnsBundles(deck.tape, bundles, requests);
    forall i | 0 <= i < |requests|
      ensures ReadMany(deck.tape, requests).0[i] == Ok(bundles[requests[i].0])
    {
      var b := bundles[requests[i].0];
      assert b[..|b|] == b;
    }
  }

  // ------------------------------------------------------- a write after a read

  lemma AtEndIffNothingAhead(t: Tape)
    requires CursorOk(t) && Complete(t.records)
    ensures AtEnd(t) <==> |Ahead(t)| == 1
  {
    if !AtEnd(t) {
      LastMarkCounts(t.records[t.recordIndex..]);
    }
  }

  /** The read went past the last filemark, or started there. */
  predicate ReadsPastLast(bundles: seq<seq<Byte>>, k: nat, length: nat) {
    k >= |bundles| || (k == |bundles| - 1 && Limit(length) > |bundles[k]|)
  }

  /** Any read leaves the cursor at the end iff it started there, ran off the tape, or read past the last filemark. */
  lemma CursorAfterRead(t: Tape, bundles: seq<seq<Byte>>, k: nat, length: nat)
    requires t.records == Layout(bundles)
    ensures AtEnd(ReadBundle(t, k, length).1) <==> ReadsPastLast(bundles, k, length)
  {
    SegmentsOfLayout(bundles);
    var start := Rewound(t);
    assert t.records[0..] == t.records;
    SeekFindsSegment(start, k);
    SeekCounts(start, k);
    var at := SeekFrom(start, k).1;
    if k <= |bundles| {
      ReadAdvances(at, Limit(length));
      ReadLeavesRest(at, Limit(length));
      AtEndIffNothingAhead(ReadFrom(at, Limit(length)).1);
    }
  }

  /** Hence exactly when a write after a read keeps all bundles. */
  lemma WriteAfterRead(t: Tape, bundles: seq<seq<Byte>>, k: nat, length: nat, data: seq<Byte>)
    requires t.records == Layout(bundles)
    ensures var after := ReadBundle(t, k, length).1;
            AddsBundle(t.records, Written(after, data).records, data) <==> ReadsPastLast(bundles, k, length)
  {
    CursorAfterRead(t, bundles, k, length);
    ReadReturnsBundle(t, bundles, k, length);
    SegmentsOfLayout(bundles);
    WriteAppendsIffAtEnd(ReadBundle(t, k, length).1, data);
  }

  /** A recall asks for the exact size of a non-empty object, so the next write never keeps all bundles. */
  lemma RecallThenArchiveLosesBundle(t: Tape, bundles: seq<seq<Byte>>, k: nat, data: seq<Byte>)
    requires t.records == Layout(bundles) && k < |bundles| && 0 < |bundles[k]| <= USIZE_MAX
    ensures !AddsBundle(t.records, Written(ReadBundle(t, k, |bundles[k]|).1, data).records, data)
  {
    WriteAfterRead(t, bundles, k, |bundles[k]|, data);
  }
}
