/**
 A sequential tape of data records and filemarks with a cursor.  `Segments` is the
 reference reading of a tape: the byte strings between its filemarks.
 */
module VirtualTapes {
  import opened Basics

  datatype Record = Data(bytes: seq<Byte>) | Filemark

  /** A tape as a value: the state of a `VirtualTape`. */
  datatype Tape = Tape(barcode: string, records: seq<Record>, recordIndex: nat, byteOffset: nat)

  function Blank(barcode: string): Tape { Tape(barcode, [], 0, 0) }

  // -------------------------------------------------------------- reference

  /** The byte strings delimited by filemarks; a tape with n filemarks has n + 1 of them. */
  function Segments(records: seq<Record>): (s: seq<seq<Byte>>)
    ensures |s| == Marks(records) + 1
  {
    if records == [] then [[]] else
      var rest := Segments(records[1..]);
      match records[0]
      case Filemark => [[]] + rest
      case Data(b) => [b + rest[0]] + rest[1..]
  }

  function Marks(records: seq<Record>): nat {
    if records == [] then 0 else (if records[0].Filemark? then 1 else 0) + Marks(records[1..])
  }

  function ByteCount(records: seq<Record>): nat {
    if records == [] then 0 else (if records[0].Data? then |records[0].bytes| else 0) + ByteCount(records[1..])
  }

  /** The cursor stands on the tape and, inside a record, before its end. */
  predicate CursorOk(t: Tape) {
    && t.recordIndex <= |t.records|
    && (t.byteOffset > 0 ==>
          && t.recordIndex < |t.records|
          && t.records[t.recordIndex].Data?
          && t.byteOffset < |t.records[t.recordIndex].bytes|)
  }

  /** What lies ahead of the cursor, segment by segment. */
  function Ahead(t: Tape): (s: seq<seq<Byte>>)
    requires CursorOk(t)
    ensures |s| >= 1
  {
    var s := Segments(t.records[t.recordIndex..]);
    if t.byteOffset == 0 then s else [s[0][t.byteOffset..]] + s[1..]
  }

  /** The records that the cursor has passed. */
  function Passed(t: Tape): seq<Record> { t.records[..Min(t.recordIndex, |t.records|)] }

  function Position(t: Tape): nat { ByteCount(Passed(t)) + t.byteOffset }

  function CurrentFilemark(t: Tape): nat { Marks(Passed(t)) }

  // -------------------------------------------------------------- operations

  function Rewound(t: Tape): Tape { t.(recordIndex := 0, byteOffset := 0) }

  /** Appending cuts off whatever follows the cursor. */
  function Appended(t: Tape, r: Record): Tape {
    var kept := if t.recordIndex < |t.records| then t.records[..t.recordIndex] else t.records;
    t.(records := kept + [r], recordIndex := |kept| + 1, byteOffset := 0)
  }

  function ReadFrom(t: Tape, n: nat): (seq<Byte>, Tape)
    decreases |t.records| - t.recordIndex
  {
    if n == 0 || t.recordIndex >= |t.records| then ([], t) else
      var past := t.(recordIndex := t.recordIndex + 1, byteOffset := 0);
      match t.records[t.recordIndex]
      case Filemark => ([], past)
      case Data(d) =>
        var start := Min(t.byteOffset, |d|);
        var end := Min(start + n, |d|);
        if end == |d| then
          var (rest, last) := ReadFrom(past, n - (end - start));
          (d[start..end] + rest, last)
        else (d[start..end], t.(byteOffset := end))
  }

  function SeekFrom(t: Tape, count: nat): (bool, Tape)
    decreases |t.records| - t.recordIndex
  {
    if count == 0 || t.recordIndex >= |t.records| then (count == 0, t) else
      var past := t.(recordIndex := t.recordIndex + 1, byteOffset := 0);
      SeekFrom(past, if t.records[t.recordIndex].Filemark? then count - 1 else count)
  }

  /** The tape drive's data structure; every method refines the operation on values. */
  class VirtualTape {
    const barcode: string
    var records: seq<Record>
    var recordIndex: nat
    var byteOffset: nat

    function Value(): Tape
      reads this
    {
      Tape(barcode, records, recordIndex, byteOffset)
    }

    constructor (barcode: string)
      ensures Value() == Blank(barcode)
    {
      this.barcode := barcode;
      records, recordIndex, byteOffset := [], 0, 0;
    }

    method Rewind()
      modifies this
      ensures Value() == Rewound(old(Value()))
    {
      recordIndex, byteOffset := 0, 0;
    }

    method AppendData(data: seq<Byte>)
      modifies this
      ensures Value() == Appended(old(Value()), Data(data))
    {
      if recordIndex < |records| {
        records := records[..recordIndex];
      }
      records := records + [Data(data)];
      recordIndex, byteOffset := |records|, 0;
    }

    method AppendFilemark()
      modifies this
      ensures Value() == Appended(old(Value()), Filemark)
    {
      if recordIndex < |records| {
        records := records[..recordIndex];
      }
      records := records + [Filemark];
      recordIndex, byteOffset := |records|, 0;
    }

    method Read(maxLen: nat) returns (out: seq<Byte>)
      modifies this
      ensures (out, Value()) == ReadFrom(old(Value()), maxLen)
    {
      out := [];
      ghost var full := ReadFrom(Value(), maxLen);
      assert out + full.0 == full.0;
      while |out| < maxLen && recordIndex < |records|
        invariant |out| <= maxLen
        invariant out + ReadFrom(Value(), maxLen - |out|).0 == full.0
        invariant ReadFrom(Value(), maxLen - |out|).1 == full.1
        decreases |records| - recordIndex, maxLen - |out|
      {
        match records[recordIndex]
        case Filemark =>
          recordIndex, byteOffset := recordIndex + 1, 0;
          assert out + [] == out;
          return;
        case Data(data) =>
          var start := Min(byteOffset, |data|);
          var end := Min(start + maxLen - |out|, |data|);
          ghost var before := out;
          out := out + data[start..end];
          if end == |data| {
            recordIndex, byteOffset := recordIndex + 1, 0;
            Associative(before, data[start..end], ReadFrom(Value(), maxLen - |out|).0);
          } else {
            byteOffset := end;
            assert out + [] == out;
          }
      }
      assert out + [] == out;
    }

    method SeekFilemark(count: nat) returns (found: bool)
      modifies this
      ensures (found, Value()) == SeekFrom(old(Value()), count)
    {
      var left := count;
      while left > 0 && recordIndex < |records|
        invariant SeekFrom(Value(), left) == SeekFrom(old(Value()), count)
        invariant records == old(records)
        decreases |records| - recordIndex
      {
        match records[recordIndex]
        case Filemark =>
          left := left - 1;
          recordIndex, byteOffset := recordIndex + 1, 0;
        case Data(_) =>
          recordIndex, byteOffset := recordIndex + 1, 0;
      }
      found := left == 0;
    }

    method CurrentPosition() returns (bytes: nat)
      ensures bytes == Position(Value())
    {
      bytes := 0;
      var i, end := 0, Min(recordIndex, |records|);
      while i < end
        invariant i <= end
        invariant bytes == ByteCount(records[..i])
      {
        CountsOfAppend(records[..i], records[i]);
        assert records[..i + 1] == records[..i] + [records[i]];
        if records[i].Data? {
          bytes := bytes + |records[i].bytes|;
        }
        i := i + 1;
      }
      bytes := bytes + byteOffset;
    }
  }

  // ------------------------------------------------------------------ lemmas

  lemma Associative(a: seq<Byte>, b: seq<Byte>, c: seq<Byte>)
    ensures a + (b + c) == a + b + c
  {}

  lemma {:induction false} CountsOfAppend(records: seq<Record>, r: Record)
    ensures ByteCount(records + [r]) == ByteCount(records) + (if r.Data? then |r.bytes| else 0)
    ensures Marks(records + [r]) == Marks(records) + (if r.Filemark? then 1 else 0)
  {
    if records == [] {
      assert records + [r] == [r];
    } else {
      assert (records + [r])[1..] == records[1..] + [r];
      CountsOfAppend(records[1..], r);
    }
  }

  lemma StepPast(t: Tape)
    requires t.recordIndex < |t.records|
    ensures var past := t.(recordIndex := t.recordIndex + 1, byteOffset := 0);
            var r := t.records[t.recordIndex];
            && Position(past) == Position(t) - t.byteOffset + (if r.Data? then |r.bytes| else 0)
            && CurrentFilemark(past) == CurrentFilemark(t) + (if r.Filemark? then 1 else 0)
  {
    CountsOfAppend(t.records[..t.recordIndex], t.records[t.recordIndex]);
    assert t.records[..t.recordIndex + 1] == t.records[..t.recordIndex] + [t.records[t.recordIndex]];
  }

  /** A read keeps the records, leaves a good cursor and advances by what it returned. */
  lemma {:induction false} ReadAdvances(t: Tape, n: nat)
    requires CursorOk(t)
    ensures var (out, last) := ReadFrom(t, n);
            && last.records == t.records && last.barcode == t.barcode && CursorOk(last)
            && Position(last) == Position(t) + |out|
    decreases |t.records| - t.recordIndex
  {
    if n > 0 && t.recordIndex < |t.records| {
      StepPast(t);
      var past := t.(recordIndex := t.recordIndex + 1, byteOffset := 0);
      match t.records[t.recordIndex]
      case Filemark =>
      case Data(d) =>
        var end := Min(t.byteOffset + n, |d|);
        if end == |d| {
          ReadAdvances(past, n - (end - t.byteOffset));
        }
    }
  }

  /** What lies ahead after reading n bytes: a read that wants more than the segment passes its filemark. */
  function AheadAfter(ahead: seq<seq<Byte>>, n: nat): seq<seq<Byte>>
    requires |ahead| >= 1
  {
    if n <= |ahead[0]| then [ahead[0][n..]] + ahead[1..]
    else if |ahead| > 1 then ahead[1..]
    else [[]]
  }

  /** How one record shapes what lies ahead. */
  lemma AheadOfRecord(t: Tape)
    requires CursorOk(t) && t.recordIndex < |t.records|
    ensures var past := t.(recordIndex := t.recordIndex + 1, byteOffset := 0);
            match t.records[t.recordIndex]
            case Filemark => Ahead(t) == [[]] + Ahead(past)
            case Data(d) => Ahead(t) == [d[t.byteOffset..] + Ahead(past)[0]] + Ahead(past)[1..]
  {
    var here := t.records[t.recordIndex..];
    assert here[0] == t.records[t.recordIndex] && here[1..] == t.records[t.recordIndex + 1..];
    if here[0].Data? {
      var d, rest := here[0].bytes, Segments(here[1..]);
      assert (d + rest[0])[t.byteOffset..] == d[t.byteOffset..] + rest[0];
    }
  }

  /** These are the next n bytes of the segment under the cursor, or what it still has. */
  ghost predicate Returns(t: Tape, out: seq<Byte>, n: nat)
    requires CursorOk(t)
  {
    out == Ahead(t)[0][..Min(n, |Ahead(t)[0]|)]
  }

  lemma ReturnsInside(t: Tape, n: nat)
    requires CursorOk(t) && t.recordIndex < |t.records| && t.records[t.recordIndex].Data?
    requires t.byteOffset + n < |t.records[t.recordIndex].bytes|
    ensures Returns(t, t.records[t.recordIndex].bytes[t.byteOffset..t.byteOffset + n], n)
  {
    AheadOfRecord(t);
    var d := t.records[t.recordIndex].bytes;
    var rest := Ahead(t.(recordIndex := t.recordIndex + 1, byteOffset := 0))[0];
    assert (d[t.byteOffset..] + rest)[..n] == d[t.byteOffset..t.byteOffset + n];
  }

  lemma ReturnsPast(t: Tape, n: nat, out: seq<Byte>)
    requires CursorOk(t) && t.recordIndex < |t.records| && t.records[t.recordIndex].Data?
    requires t.byteOffset + n >= |t.records[t.recordIndex].bytes|
    requires Returns(t.(recordIndex := t.recordIndex + 1, byteOffset := 0), out,
                     t.byteOffset + n - |t.records[t.recordIndex].bytes|)
    ensures var d := t.records[t.recordIndex].bytes;
            Returns(t, d[t.byteOffset..|d|] + out, n)
  {
    AheadOfRecord(t);
    var d := t.records[t.recordIndex].bytes;
    var rest := Ahead(t.(recordIndex := t.recordIndex + 1, byteOffset := 0))[0];
    assert d[t.byteOffset..|d|] == d[t.byteOffset..];
    var m := t.byteOffset + n - |d|;
    assert (d[t.byteOffset..] + rest)[..Min(n, |d| - t.byteOffset + |rest|)]
        == d[t.byteOffset..] + rest[..Min(m, |rest|)];
  }

  /** A read returns the next n bytes of the segment and never crosses its filemark. */
  lemma {:induction false} ReadStaysInSegment(t: Tape, n: nat)
    requires CursorOk(t)
    ensures Returns(t, ReadFrom(t, n).0, n)
    decreases |t.records| - t.recordIndex
  {
    if n == 0 || t.recordIndex >= |t.records| {
    } else if t.records[t.recordIndex].Filemark? {
      AheadOfRecord(t);
    } else if t.byteOffset + n < |t.records[t.recordIndex].bytes| {
      ReturnsInside(t, n);
    } else {
      var past := t.(recordIndex := t.recordIndex + 1, byteOffset := 0);
      var m := t.byteOffset + n - |t.records[t.recordIndex].bytes|;
      ReadStaysInSegment(past, m);
      ReturnsPast(t, n, ReadFrom(past, m).0);
    }
  }

  lemma DropAcross(d: seq<Byte>, ahead: seq<seq<Byte>>, n: nat)
    requires |ahead| >= 1
    ensures AheadAfter([d + ahead[0]] + ahead[1..], n)
         == if n >= |d| then AheadAfter(ahead, n - |d|) else [d[n..] + ahead[0]] + ahead[1..]
  {
    if n < |d| {
      assert (d + ahead[0])[n..] == d[n..] + ahead[0];
    } else if n <= |d| + |ahead[0]| {
      assert (d + ahead[0])[n..] == ahead[0][n - |d|..];
    }
  }

  /** The tape `last` is what reading n bytes from `t` may leave. */
  ghost predicate Leaves(t: Tape, last: Tape, n: nat)
    requires CursorOk(t)
  {
    CursorOk(last) && Ahead(last) == AheadAfter(Ahead(t), n)
  }

  lemma ReadStops(t: Tape, n: nat)
    requires CursorOk(t)
    requires n == 0 || t.recordIndex >= |t.records| || t.records[t.recordIndex].Filemark?
    ensures Leaves(t, ReadFrom(t, n).1, n)
  {
    var ahead := Ahead(t);
    if n == 0 {
      assert [ahead[0][0..]] + ahead[1..] == ahead;
    } else if t.recordIndex < |t.records| {
      AheadOfRecord(t);
    }
  }

  lemma ReadInsideRecord(t: Tape, n: nat)
    requires CursorOk(t) && t.recordIndex < |t.records| && t.records[t.recordIndex].Data?
    requires n > 0 && t.byteOffset + n < |t.records[t.recordIndex].bytes|
    ensures Leaves(t, ReadFrom(t, n).1, n)
  {
    var here := t.records[t.recordIndex..];
    var s := Segments(here);
    assert here[0] == t.records[t.recordIndex] && |here[0].bytes| <= |s[0]|;
    assert Ahead(t)[0] == s[0][t.byteOffset..] && Ahead(t)[1..] == s[1..];
    assert s[0][t.byteOffset..][n..] == s[0][t.byteOffset + n..];
  }

  lemma ReadPastRecord(t: Tape, n: nat, last: Tape)
    requires CursorOk(t) && t.recordIndex < |t.records| && t.records[t.recordIndex].Data?
    requires t.byteOffset + n >= |t.records[t.recordIndex].bytes|
    requires Leaves(t.(recordIndex := t.recordIndex + 1, byteOffset := 0), last,
                    t.byteOffset + n - |t.records[t.recordIndex].bytes|)
    ensures Leaves(t, last, n)
  {
    AheadOfRecord(t);
    var past := t.(recordIndex := t.recordIndex + 1, byteOffset := 0);
    DropAcross(t.records[t.recordIndex].bytes[t.byteOffset..], Ahead(past), n);
  }

  /** Where a read leaves the tape. */
  lemma {:induction false} ReadLeavesRest(t: Tape, n: nat)
    requires CursorOk(t)
    ensures Leaves(t, ReadFrom(t, n).1, n)
    decreases |t.records| - t.recordIndex
  {
    if n == 0 || t.recordIndex >= |t.records| || t.records[t.recordIndex].Filemark? {
      ReadStops(t, n);
    } else if t.byteOffset + n < |t.records[t.recordIndex].bytes| {
      ReadInsideRecord(t, n);
    } else {
      var past := t.(recordIndex := t.recordIndex + 1, byteOffset := 0);
      var m := t.byteOffset + n - |t.records[t.recordIndex].bytes|;
      ReadLeavesRest(past, m);
      ReadPastRecord(t, n, ReadFrom(past, m).1);
    }
  }

  /** Any sequence of reads advances the position by exactly the bytes returned. */
  function ReadAll(t: Tape, lengths: seq<nat>): (seq<Byte>, Tape)
    decreases |lengths|
  {
    if lengths == [] then ([], t) else
      var (out, next) := ReadFrom(t, lengths[0]);
      var (rest, last) := ReadAll(next, lengths[1..]);
      (out + rest, last)
  }

  lemma {:induction false} ReadsAdvance(t: Tape, lengths: seq<nat>)
    requires CursorOk(t)
    ensures var (out, last) := ReadAll(t, lengths);
            && last.records == t.records && CursorOk(last)
            && Position(last) == Position(t) + |out|
    decreases |lengths|
  {
    if lengths != [] {
      ReadAdvances(t, lengths[0]);
      ReadsAdvance(ReadFrom(t, lengths[0]).1, lengths[1..]);
    }
  }

  function Total(lengths: seq<nat>): nat {
    if lengths == [] then 0 else lengths[0] + Total(lengths[1..])
  }

  /** Chunked reads within a segment return the same bytes as one read of the total. */
  lemma {:induction false} ChunksConcatenate(t: Tape, lengths: seq<nat>)
    requires CursorOk(t) && Total(lengths) <= |Ahead(t)[0]|
    ensures ReadAll(t, lengths).0 == Ahead(t)[0][..Total(lengths)]
    decreases |lengths|
  {
    if lengths != [] {
      ReadStaysInSegment(t, lengths[0]);
      ReadLeavesRest(t, lengths[0]);
      ChunksConcatenate(ReadFrom(t, lengths[0]).1, lengths[1..]);
    }
  }

  lemma {:induction false} SeekCounts(t: Tape, count: nat)
    requires CursorOk(t)
    ensures var (found, last) := SeekFrom(t, count);
            && last.records == t.records && last.barcode == t.barcode && CursorOk(last)
            && (found ==> CurrentFilemark(last) == CurrentFilemark(t) + count)
            && (!found ==> last.recordIndex == |t.records|)
    decreases |t.records| - t.recordIndex
  {
    if count > 0 && t.recordIndex < |t.records| {
      StepPast(t);
      var past := t.(recordIndex := t.recordIndex + 1, byteOffset := 0);
      SeekCounts(past, if t.records[t.recordIndex].Filemark? then count - 1 else count);
    }
  }

  lemma DropPast(first: seq<Byte>, rest: seq<seq<Byte>>, count: nat)
    requires count > 0
    ensures count <= |rest| ==> ([first] + rest)[count..] == rest[count - 1..]
  {}

  /** Seeking succeeds iff enough filemarks lie ahead, and then stands at that segment. */
  lemma {:induction false} SeekFindsSegment(t: Tape, count: nat)
    requires CursorOk(t)
    ensures var (found, last) := SeekFrom(t, count);
            && CursorOk(last)
            && (found <==> count < |Ahead(t)|)
            && (found ==> Ahead(last) == Ahead(t)[count..])
    decreases |t.records| - t.recordIndex
  {
    SeekCounts(t, count);
    if count > 0 && t.recordIndex < |t.records| {
      AheadOfRecord(t);
      var past := t.(recordIndex := t.recordIndex + 1, byteOffset := 0);
      if t.records[t.recordIndex].Filemark? {
        SeekFindsSegment(past, count - 1);
        DropPast([], Ahead(past), count);
      } else {
        SeekFindsSegment(past, count);
        DropPast(Ahead(t)[0], Ahead(past)[1..], count);
        DropPast(Ahead(past)[0], Ahead(past)[1..], count);
      }
    }
  }

  /** Rewinding, seeking filemark k and reading n returns the first n bytes of segment k. */
  lemma RewindSeekRead(t: Tape, k: nat, n: nat)
    ensures var (found, at) := SeekFrom(Rewound(t), k);
            && (found <==> k <= Marks(t.records))
            && (found ==>
                  && CurrentFilemark(at) == k
                  && (var segment := Segments(t.records)[k];
                      ReadFrom(at, n).0 == segment[..Min(n, |segment|)] && ReadFrom(at, n).1.records == t.records))
  {
    SeekFindsSegment(Rewound(t), k);
    SeekCounts(Rewound(t), k);
    assert t.records[0..] == t.records;
    var (found, at) := SeekFrom(Rewound(t), k);
    if found {
      ReadStaysInSegment(at, n);
      ReadAdvances(at, n);
    }
  }
}
