/**
 The binary metadata snapshot: a magic string and nine sections, each a
 little-endian message count followed by length-prefixed messages.  The message
 encodings themselves are a parameter.
 */
module Snapshot {
  import opened Basics
  import opened MetadataTypes
  import opened MetadataSpec
  import opened MetadataInvariants

  /** One protobuf message type's encoder and decoder. */
  datatype Codec<!M> = Codec(enc: M -> seq<Byte>, dec: seq<Byte> -> Option<M>)

  /** The decoder gives this message back. */
  predicate Inverts<M(==)>(c: Codec<M>, m: M) { c.dec(c.enc(m)) == Some(m) }

  /** The decoder inverts the encoder on these messages, and each encoding is as long as a u64 can say. */
  ghost predicate Lawful<M(!new)>(c: Codec<M>, messages: seq<M>) {
    forall i :: 0 <= i < |messages| ==> Inverts(c, messages[i]) && |c.enc(messages[i])| < U64
  }

  // "COLDMETA2\n"
  const SNAPSHOT_MAGIC: seq<Byte> := [67, 79, 76, 68, 77, 69, 84, 65, 50, 10]
  const MAX_MESSAGES: nat := 1_000_000
  const MAX_MESSAGE_BYTES: nat := 64 * 1024 * 1024

  // ------------------------------------------------- little-endian integers

  function Pow256(k: nat): nat { if k == 0 then 1 else 256 * Pow256(k - 1) }

  function LeBytes(n: nat, k: nat): (r: seq<Byte>)
    ensures |r| == k
  {
    if k == 0 then [] else [n % 256] + LeBytes(n / 256, k - 1)
  }

  function FromLe(b: seq<Byte>): nat {
    if b == [] then 0 else b[0] + 256 * FromLe(b[1..])
  }

  lemma {:induction false} LeRoundTrip(n: nat, k: nat)
    requires n < Pow256(k)
    ensures FromLe(LeBytes(n, k)) == n
  {
    if k > 0 {
      LeRoundTrip(n / 256, k - 1);
      assert LeBytes(n, k)[1..] == LeBytes(n / 256, k - 1);
    }
  }

  lemma Pow8()
    ensures Pow256(8) == U64
  {
    assert Pow256(4) == 0x1_0000_0000;
  }

  function Le64(n: nat): (r: seq<Byte>)
    ensures |r| == 8
  {
    LeBytes(n, 8)
  }

  function ReadU64(cursor: seq<Byte>): Result<(nat, seq<Byte>)> {
    if |cursor| < 8 then Err(Internal) else Ok((FromLe(cursor[..8]), cursor[8..]))
  }

  lemma ReadWritten(n: nat, rest: seq<Byte>)
    requires n < U64
    ensures ReadU64(Le64(n) + rest) == Ok((n, rest))
  {
    Pow8();
    LeRoundTrip(n, 8);
    assert (Le64(n) + rest)[..8] == Le64(n);
    assert (Le64(n) + rest)[8..] == rest;
  }

  // --------------------------------------------------------------- sections

  function Framed<M>(c: Codec<M>, m: M): seq<Byte> { Le64(|c.enc(m)|) + c.enc(m) }

  function Body<M>(c: Codec<M>, messages: seq<M>): seq<Byte> {
    if messages == [] then [] else Framed(c, messages[0]) + Body(c, messages[1..])
  }

  function Section<M>(c: Codec<M>, messages: seq<M>): seq<Byte> {
    Le64(|messages|) + Body(c, messages)
  }

  function ReadMessage<M>(c: Codec<M>, cursor: seq<Byte>): (r: Result<(M, seq<Byte>)>)
    ensures r.Err? ==> r.code == Internal
  {
    var (len, after) :- ReadU64(cursor);
    if len > MAX_MESSAGE_BYTES || |after| < len then Err(Internal) else
      match c.dec(after[..len])
      case None => Err(Internal)
      case Some(m) => Ok((m, after[len..]))
  }

  function ReadBody<M>(c: Codec<M>, cursor: seq<Byte>, count: nat): (r: Result<(seq<M>, seq<Byte>)>)
    ensures r.Err? ==> r.code == Internal
  {
    if count == 0 then Ok(([], cursor)) else
      var (m, after) :- ReadMessage(c, cursor);
      var (ms, rest) :- ReadBody(c, after, count - 1);
      Ok(([m] + ms, rest))
  }

  function ReadSection<M>(c: Codec<M>, cursor: seq<Byte>): Result<(seq<M>, seq<Byte>)> {
    var (count, after) :- ReadU64(cursor);
    if count > MAX_MESSAGES then Err(Internal) else ReadBody(c, after, count)
  }

  predicate SmallMessages<M>(c: Codec<M>, messages: seq<M>) {
    forall i :: 0 <= i < |messages| ==> |c.enc(messages[i])| <= MAX_MESSAGE_BYTES
  }

  predicate WithinSection<M>(c: Codec<M>, messages: seq<M>) {
    |messages| <= MAX_MESSAGES && SmallMessages(c, messages)
  }

  lemma MessageRoundTrip<M(!new)>(c: Codec<M>, m: M, rest: seq<Byte>)
    requires Inverts(c, m) && |c.enc(m)| < U64
    ensures ReadMessage(c, Framed(c, m) + rest)
            == if |c.enc(m)| <= MAX_MESSAGE_BYTES then Ok((m, rest)) else Err(Internal)
  {
    var e := c.enc(m);
    assert Framed(c, m) + rest == Le64(|e|) + (e + rest);
    ReadWritten(|e|, e + rest);
    assert (e + rest)[..|e|] == e && (e + rest)[|e|..] == rest;
  }

  lemma {:induction false} BodyRoundTrip<M(!new)>(c: Codec<M>, messages: seq<M>, rest: seq<Byte>)
    requires Lawful(c, messages)
    ensures ReadBody(c, Body(c, messages) + rest, |messages|)
            == if SmallMessages(c, messages) then Ok((messages, rest)) else Err(Internal)
  {
    if messages == [] {
      assert Body(c, messages) + rest == rest;
    } else {
      var m, tail := messages[0], messages[1..];
      assert Body(c, messages) + rest == Framed(c, m) + (Body(c, tail) + rest);
      MessageRoundTrip(c, m, Body(c, tail) + rest);
      BodyRoundTrip(c, tail, rest);
      assert messages == [m] + tail;
      assert SmallMessages(c, messages) <==> |c.enc(m)| <= MAX_MESSAGE_BYTES && SmallMessages(c, tail);
    }
  }

  /** Reading back a written section succeeds exactly within the reader's limits. */
  lemma SectionRoundTrip<M(!new)>(c: Codec<M>, messages: seq<M>, rest: seq<Byte>)
    requires Lawful(c, messages) && |messages| < U64
    ensures ReadSection(c, Section(c, messages) + rest)
            == if WithinSection(c, messages) then Ok((messages, rest)) else Err(Internal)
  {
    var after := Body(c, messages) + rest;
    assert Section(c, messages) + rest == Le64(|messages|) + after;
    ReadWritten(|messages|, after);
    BodyRoundTrip(c, messages, rest);
  }

  /** Appends one section to the buffer, message by message. */
  method WriteMessages<M>(out: seq<Byte>, c: Codec<M>, messages: seq<M>) returns (r: seq<Byte>)
    ensures r == out + Section(c, messages)
  {
    var encoded: seq<seq<Byte>> := [];
    for i := 0 to |messages|
      invariant |encoded| == i
      invariant forall j :: 0 <= j < i ==> encoded[j] == c.enc(messages[j])
    {
      encoded := encoded + [c.enc(messages[i])];
    }
    r := out + Le64(|encoded|);
    for i := 0 to |encoded|
      invariant r + Body(c, messages[i..]) == out + Section(c, messages)
    {
      assert messages[i..][1..] == messages[i + 1..];
      r := r + Le64(|encoded[i]|);
      r := r + encoded[i];
    }
  }

  /** Consumes one section from the cursor, message by message. */
  method ReadMessages<M>(cursor: seq<Byte>, c: Codec<M>) returns (r: Result<(seq<M>, seq<Byte>)>)
    ensures r == ReadSection(c, cursor)
  {
    var header := ReadU64(cursor);
    if header.Err? { return Err(Internal); }
    var (count, rest) := header.value;
    if count > MAX_MESSAGES { return Err(Internal); }
    var messages: seq<M> := [];
    ghost var whole := ReadBody(c, rest, count);
    assert whole.Ok? ==> messages + whole.value.0 == whole.value.0;
    for i := 0 to count
      invariant ReadSection(c, cursor) ==
                var tail := ReadBody(c, rest, count - i);
                if tail.Err? then Err(Internal) else Ok((messages + tail.value.0, tail.value.1))
    {
      var lenHeader := ReadU64(rest);
      if lenHeader.Err? { return Err(Internal); }
      var (len, after) := lenHeader.value;
      if len > MAX_MESSAGE_BYTES { return Err(Internal); }
      if |after| < len { return Err(Internal); }
      var decoded := c.dec(after[..len]);
      if decoded.None? { return Err(Internal); }
      assert ReadMessage(c, rest) == Ok((decoded.value, after[len..]));
      ghost var tail := ReadBody(c, after[len..], count - i - 1);
      if tail.Ok? {
        assert messages + ([decoded.value] + tail.value.0) == (messages + [decoded.value]) + tail.value.0;
      }
      messages := messages + [decoded.value];
      rest := after[len..];
    }
    r := Ok((messages, rest));
    assert messages + [] == messages;
  }

  // ------------------------------------------------------ maps and sections

  /** `order` lists the keys of `m`, each once. */
  ghost predicate Orders<K(!new), V>(order: seq<K>, m: map<K, V>) {
    && NoDuplicates(order)
    && (forall k :: k in order <==> k in m)
  }

  function Values<K, V>(m: map<K, V>, order: seq<K>): (r: seq<V>)
    requires forall k :: k in order ==> k in m
    ensures |r| == |order|
    ensures forall i :: 0 <= i < |order| ==> r[i] == m[order[i]]
  {
    if order == [] then [] else [m[order[0]]] + Values(m, order[1..])
  }

  /** Collects messages into a map under their own keys; a later message wins. */
  function Collect<K, V>(keyOf: V -> K, messages: seq<V>): map<K, V> {
    if messages == [] then map[] else
      var last := messages[|messages| - 1];
      Collect(keyOf, messages[..|messages| - 1])[keyOf(last) := last]
  }

  lemma {:induction false} CollectMembers<K(!new), V>(keyOf: V -> K, m: map<K, V>, order: seq<K>)
    requires NoDuplicates(order) && forall k :: k in order ==> k in m
    requires forall k :: k in m ==> keyOf(m[k]) == k
    ensures forall k :: k in Collect(keyOf, Values(m, order)) <==> k in order
    ensures forall k :: k in order ==> k in Collect(keyOf, Values(m, order))
                                       && Collect(keyOf, Values(m, order))[k] == m[k]
  {
    if order != [] {
      var init := order[..|order| - 1];
      var last := order[|order| - 1];
      assert Values(m, order)[..|order| - 1] == Values(m, init);
      assert order == init + [last];
      CollectMembers(keyOf, m, init);
    }
  }

  /** Whatever order the map is enumerated in, collecting its values gives the map back. */
  lemma CollectValues<K(!new), V>(keyOf: V -> K, m: map<K, V>, order: seq<K>)
    requires Orders(order, m)
    requires forall k :: k in m ==> keyOf(m[k]) == k
    ensures Collect(keyOf, Values(m, order)) == m
  {
    CollectMembers(keyOf, m, order);
  }

  lemma {:induction false} OrderLength<K(!new), V>(order: seq<K>, m: map<K, V>)
    requires Orders(order, m)
    ensures |order| == |m|
    decreases |order|
  {
    if order == [] {
      assert m == map[];
    } else {
      var init, last := order[..|order| - 1], order[|order| - 1];
      assert order == init + [last];
      assert forall k :: k in init <==> k in m - {last};
      OrderLength(init, m - {last});
      assert (m - {last}).Keys == m.Keys - {last};
    }
  }

  /** A map fits the reader's limits: not too many messages, none too large. */
  ghost predicate Fits<K(!new), V>(c: Codec<V>, m: map<K, V>) {
    && |m| <= MAX_MESSAGES
    && forall k :: k in m ==> |c.enc(m[k])| <= MAX_MESSAGE_BYTES
  }

  /** The decoder inverts the encoder on the values of the map. */
  ghost predicate InvertsAll<K(!new), V>(c: Codec<V>, m: map<K, V>) {
    forall k :: k in m ==> Inverts(c, m[k])
  }

  /** Counts and lengths fit in a u64, as they do for anything in memory. */
  ghost predicate Addressable<K(!new), V>(c: Codec<V>, m: map<K, V>) {
    && |m| < U64
    && forall k :: k in m ==> |c.enc(m[k])| < U64
  }

  /** Reads one section and collects it under the messages' own keys. */
  function ReadKeyed<K, V>(c: Codec<V>, keyOf: V -> K, cursor: seq<Byte>): Result<(map<K, V>, seq<Byte>)> {
    var (messages, rest) :- ReadSection(c, cursor);
    Ok((Collect(keyOf, messages), rest))
  }

  /** One map through a written section and back, in any enumeration order. */
  lemma MapRoundTrip<K(!new), V(!new)>(c: Codec<V>, keyOf: V -> K, m: map<K, V>, order: seq<K>, rest: seq<Byte>)
    requires InvertsAll(c, m) && Addressable(c, m) && Orders(order, m)
    requires forall k :: k in m ==> keyOf(m[k]) == k
    ensures ReadKeyed(c, keyOf, Section(c, Values(m, order)) + rest)
            == if Fits(c, m) then Ok((m, rest)) else Err(Internal)
  {
    OrderLength(order, m);
    SectionRoundTrip(c, Values(m, order), rest);
    CollectValues(keyOf, m, order);
    assert WithinSection(c, Values(m, order)) <==> Fits(c, m) by {
      if WithinSection(c, Values(m, order)) {
        forall k | k in m ensures |c.enc(m[k])| <= MAX_MESSAGE_BYTES {
          var i :| 0 <= i < |order| && order[i] == k;
          assert Values(m, order)[i] == m[k];
        }
      }
    }
  }

  function BucketName(b: BucketInfo): string { b.name }
  function BundleId(b: ArchiveBundle): string { b.id }
  function ArchiveTaskId(t: ArchiveTask): string { t.id }
  function RecallTaskId(t: RecallTask): string { t.id }
  function TapeId(t: TapeInfo): string { t.id }
  function SchedulerId(w: SchedulerWorker): nat { w.nodeId }
  function CacheId(w: CacheWorker): nat { w.nodeId }
  function TapeWorkerId(w: TapeWorker): nat { w.nodeId }

  // ------------------------------------------------------------ whole state

  datatype Codecs = Codecs(
    objects: Codec<ObjectMetadata>, buckets: Codec<BucketInfo>, bundles: Codec<ArchiveBundle>,
    archiveTasks: Codec<ArchiveTask>, recallTasks: Codec<RecallTask>, tapes: Codec<TapeInfo>,
    schedulers: Codec<SchedulerWorker>, caches: Codec<CacheWorker>, tapeWorkers: Codec<TapeWorker>)

  /** The decoders invert the encoders on every message of the state. */
  ghost predicate AllLawful(c: Codecs, s: MetadataState) {
    && InvertsAll(c.objects, s.objects) && InvertsAll(c.buckets, s.buckets) && InvertsAll(c.bundles, s.archiveBundles)
    && InvertsAll(c.archiveTasks, s.archiveTasks) && InvertsAll(c.recallTasks, s.recallTasks)
    && InvertsAll(c.tapes, s.tapes) && InvertsAll(c.schedulers, s.schedulerWorkers)
    && InvertsAll(c.caches, s.cacheWorkers) && InvertsAll(c.tapeWorkers, s.tapeWorkers)
  }

  /** The order in which each of the nine hash maps yields its values. */
  datatype Enumeration = Enumeration(
    objects: seq<ObjectKey>, buckets: seq<string>, bundles: seq<string>, archiveTasks: seq<string>,
    recallTasks: seq<string>, tapes: seq<string>, schedulers: seq<nat>, caches: seq<nat>, tapeWorkers: seq<nat>)

  ghost predicate EnumeratesState(e: Enumeration, s: MetadataState) {
    && Orders(e.objects, s.objects) && Orders(e.buckets, s.buckets) && Orders(e.bundles, s.archiveBundles)
    && Orders(e.archiveTasks, s.archiveTasks) && Orders(e.recallTasks, s.recallTasks) && Orders(e.tapes, s.tapes)
    && Orders(e.schedulers, s.schedulerWorkers) && Orders(e.caches, s.cacheWorkers)
    && Orders(e.tapeWorkers, s.tapeWorkers)
  }

  /** The state's maps stay within what the snapshot reader accepts. */
  ghost predicate WithinLimits(c: Codecs, s: MetadataState) {
    && Fits(c.objects, s.objects) && Fits(c.buckets, s.buckets) && Fits(c.bundles, s.archiveBundles)
    && Fits(c.archiveTasks, s.archiveTasks) && Fits(c.recallTasks, s.recallTasks) && Fits(c.tapes, s.tapes)
    && Fits(c.schedulers, s.schedulerWorkers) && Fits(c.caches, s.cacheWorkers) && Fits(c.tapeWorkers, s.tapeWorkers)
  }

  /** Every count and every encoded length fits in a u64, as it does for any state in memory. */
  ghost predicate InMemory(c: Codecs, s: MetadataState) {
    && Addressable(c.objects, s.objects) && Addressable(c.buckets, s.buckets)
    && Addressable(c.bundles, s.archiveBundles) && Addressable(c.archiveTasks, s.archiveTasks)
    && Addressable(c.recallTasks, s.recallTasks) && Addressable(c.tapes, s.tapes)
    && Addressable(c.schedulers, s.schedulerWorkers) && Addressable(c.caches, s.cacheWorkers)
    && Addressable(c.tapeWorkers, s.tapeWorkers)
  }

  function WorkerSections(c: Codecs, s: MetadataState, e: Enumeration): seq<Byte>
    requires EnumeratesState(e, s)
  {
    Section(c.schedulers, Values(s.schedulerWorkers, e.schedulers))
    + (Section(c.caches, Values(s.cacheWorkers, e.caches))
       + (Section(c.tapeWorkers, Values(s.tapeWorkers, e.tapeWorkers)) + []))
  }

  function TaskSections(c: Codecs, s: MetadataState, e: Enumeration, rest: seq<Byte>): seq<Byte>
    requires EnumeratesState(e, s)
  {
    Section(c.archiveTasks, Values(s.archiveTasks, e.archiveTasks))
    + (Section(c.recallTasks, Values(s.recallTasks, e.recallTasks))
       + (Section(c.tapes, Values(s.tapes, e.tapes)) + rest))
  }

  function ObjectSections(c: Codecs, s: MetadataState, e: Enumeration, rest: seq<Byte>): seq<Byte>
    requires EnumeratesState(e, s)
  {
    Section(c.objects, Values(s.objects, e.objects))
    + (Section(c.buckets, Values(s.buckets, e.buckets))
       + (Section(c.bundles, Values(s.archiveBundles, e.bundles)) + rest))
  }

  function EncodeSnapshot(c: Codecs, s: MetadataState, e: Enumeration): seq<Byte>
    requires EnumeratesState(e, s)
  {
    SNAPSHOT_MAGIC + ObjectSections(c, s, e, TaskSections(c, s, e, WorkerSections(c, s, e)))
  }

  function ReadObjects(c: Codecs, s: MetadataState, cursor: seq<Byte>): Result<(MetadataState, seq<Byte>)> {
    var (objects, c1) :- ReadKeyed(c.objects, KeyOf, cursor);
    var (buckets, c2) :- ReadKeyed(c.buckets, BucketName, c1);
    var (bundles, c3) :- ReadKeyed(c.bundles, BundleId, c2);
    Ok((s.(objects := objects, buckets := buckets, archiveBundles := bundles), c3))
  }

  function ReadTasks(c: Codecs, s: MetadataState, cursor: seq<Byte>): Result<(MetadataState, seq<Byte>)> {
    var (archiveTasks, c1) :- ReadKeyed(c.archiveTasks, ArchiveTaskId, cursor);
    var (recallTasks, c2) :- ReadKeyed(c.recallTasks, RecallTaskId, c1);
    var (tapes, c3) :- ReadKeyed(c.tapes, TapeId, c2);
    Ok((s.(archiveTasks := archiveTasks, recallTasks := recallTasks, tapes := tapes), c3))
  }

  function ReadWorkers(c: Codecs, s: MetadataState, cursor: seq<Byte>): Result<(MetadataState, seq<Byte>)> {
    var (schedulers, c1) :- ReadKeyed(c.schedulers, SchedulerId, cursor);
    var (caches, c2) :- ReadKeyed(c.caches, CacheId, c1);
    var (tapeWorkers, c3) :- ReadKeyed(c.tapeWorkers, TapeWorkerId, c2);
    Ok((s.(schedulerWorkers := schedulers, cacheWorkers := caches, tapeWorkers := tapeWorkers), c3))
  }

  function DecodeSnapshot(c: Codecs, bytes: seq<Byte>): Result<MetadataState> {
    if !(SNAPSHOT_MAGIC <= bytes) then Err(Internal) else
      var (s1, c1) :- ReadObjects(c, EMPTY_STATE, bytes[|SNAPSHOT_MAGIC|..]);
      var (s2, c2) :- ReadTasks(c, s1, c1);
      var (s3, c3) :- ReadWorkers(c, s2, c2);
      if c3 != [] then Err(Internal) else Ok(s3)
  }

  lemma ObjectsRoundTrip(c: Codecs, s: MetadataState, e: Enumeration, t: MetadataState, rest: seq<Byte>)
    requires AllLawful(c, s) && EnumeratesState(e, s) && KeysDerived(s) && InMemory(c, s)
    ensures ReadObjects(c, t, ObjectSections(c, s, e, rest))
            == if Fits(c.objects, s.objects) && Fits(c.buckets, s.buckets) && Fits(c.bundles, s.archiveBundles)
               then Ok((t.(objects := s.objects, buckets := s.buckets, archiveBundles := s.archiveBundles), rest))
               else Err(Internal)
  {
    var r3 := Section(c.bundles, Values(s.archiveBundles, e.bundles)) + rest;
    var r2 := Section(c.buckets, Values(s.buckets, e.buckets)) + r3;
    MapRoundTrip(c.objects, KeyOf, s.objects, e.objects, r2);
    MapRoundTrip(c.buckets, BucketName, s.buckets, e.buckets, r3);
    MapRoundTrip(c.bundles, BundleId, s.archiveBundles, e.bundles, rest);
  }

  lemma TasksRoundTrip(c: Codecs, s: MetadataState, e: Enumeration, t: MetadataState, rest: seq<Byte>)
    requires AllLawful(c, s) && EnumeratesState(e, s) && KeysDerived(s) && InMemory(c, s)
    ensures ReadTasks(c, t, TaskSections(c, s, e, rest))
            == if Fits(c.archiveTasks, s.archiveTasks) && Fits(c.recallTasks, s.recallTasks) && Fits(c.tapes, s.tapes)
               then Ok((t.(archiveTasks := s.archiveTasks, recallTasks := s.recallTasks, tapes := s.tapes), rest))
               else Err(Internal)
  {
    var r3 := Section(c.tapes, Values(s.tapes, e.tapes)) + rest;
    var r2 := Section(c.recallTasks, Values(s.recallTasks, e.recallTasks)) + r3;
    MapRoundTrip(c.archiveTasks, ArchiveTaskId, s.archiveTasks, e.archiveTasks, r2);
    MapRoundTrip(c.recallTasks, RecallTaskId, s.recallTasks, e.recallTasks, r3);
    MapRoundTrip(c.tapes, TapeId, s.tapes, e.tapes, rest);
  }

  lemma WorkersRoundTrip(c: Codecs, s: MetadataState, e: Enumeration, t: MetadataState)
    requires AllLawful(c, s) && EnumeratesState(e, s) && KeysDerived(s) && InMemory(c, s)
    ensures ReadWorkers(c, t, WorkerSections(c, s, e))
            == if Fits(c.schedulers, s.schedulerWorkers) && Fits(c.caches, s.cacheWorkers)
                  && Fits(c.tapeWorkers, s.tapeWorkers)
               then Ok((t.(schedulerWorkers := s.schedulerWorkers, cacheWorkers := s.cacheWorkers,
                           tapeWorkers := s.tapeWorkers), []))
               else Err(Internal)
  {
    var r3 := Section(c.tapeWorkers, Values(s.tapeWorkers, e.tapeWorkers)) + [];
    var r2 := Section(c.caches, Values(s.cacheWorkers, e.caches)) + r3;
    MapRoundTrip(c.schedulers, SchedulerId, s.schedulerWorkers, e.schedulers, r2);
    MapRoundTrip(c.caches, CacheId, s.cacheWorkers, e.caches, r3);
    MapRoundTrip(c.tapeWorkers, TapeWorkerId, s.tapeWorkers, e.tapeWorkers, []);
  }

  /**
   Decoding an encoded snapshot gives the same state back, for any enumeration
   order of the nine maps, exactly when the state is within the reader's limits.
   */
  lemma SnapshotRoundTrip(c: Codecs, s: MetadataState, e: Enumeration)
    requires AllLawful(c, s) && EnumeratesState(e, s) && KeysDerived(s) && InMemory(c, s)
    ensures DecodeSnapshot(c, EncodeSnapshot(c, s, e)) == if WithinLimits(c, s) then Ok(s) else Err(Internal)
  {
    var workers := WorkerSections(c, s, e);
    var tasks := TaskSections(c, s, e, workers);
    var body := ObjectSections(c, s, e, tasks);
    assert (SNAPSHOT_MAGIC + body)[|SNAPSHOT_MAGIC|..] == body;
    var s1 := EMPTY_STATE.(objects := s.objects, buckets := s.buckets, archiveBundles := s.archiveBundles);
    var s2 := s1.(archiveTasks := s.archiveTasks, recallTasks := s.recallTasks, tapes := s.tapes);
    ObjectsRoundTrip(c, s, e, EMPTY_STATE, tasks);
    TasksRoundTrip(c, s, e, s1, workers);
    WorkersRoundTrip(c, s, e, s2);
  }

  /** Every reachable state within the limits survives a snapshot. */
  lemma ReachableRoundTrip(c: Codecs, run: seq<Call>, e: Enumeration)
    requires ValidRun(EMPTY_STATE, run)
    requires var s := AfterAll(EMPTY_STATE, run); AllLawful(c, s) && EnumeratesState(e, s) && WithinLimits(c, s)
    ensures DecodeSnapshot(c, EncodeSnapshot(c, AfterAll(EMPTY_STATE, run), e)) == Ok(AfterAll(EMPTY_STATE, run))
  {
    RunKeepsKeys(EMPTY_STATE, run);
    SnapshotRoundTrip(c, AfterAll(EMPTY_STATE, run), e);
  }

  // ----------------------------------------------------- codecs that qualify

  ghost function IndexIn<M>(messages: seq<M>, m: M): (i: nat)
    ensures m in messages ==> i < |messages| && messages[i] == m
    ensures i <= |messages|
  {
    if messages == [] then 0 else if messages[0] == m then 0 else 1 + IndexIn(messages[1..], m)
  }

  /** For any finite stock of messages some codec inverts each of them, in eight bytes: it writes the index. */
  lemma CodecFor<M(!new)>(stock: seq<M>) returns (c: Codec<M>)
    requires |stock| < U64
    ensures forall m :: m in stock ==> Inverts(c, m) && |c.enc(m)| == 8
  {
    c := Codec(m => Le64(IndexIn(stock, m)),
               (b: seq<Byte>) => if FromLe(b) < |stock| then Some(stock[FromLe(b)]) else None);
    forall m | m in stock
      ensures Inverts(c, m) && |c.enc(m)| == 8
    {
      Pow8();
      LeRoundTrip(IndexIn(stock, m), 8);
    }
  }

  /** All values of these maps. */
  ghost function StockOf<K(!new), V>(maps: seq<map<K, V>>): (r: seq<V>)
    ensures forall i, k :: 0 <= i < |maps| && k in maps[i] ==> maps[i][k] in r
  {
    if maps == [] then [] else
      var keys := Listed(maps[0].Keys);
      var here := Values(maps[0], keys);
      assert forall k :: k in maps[0] ==> maps[0][k] in here by {
        forall k | k in maps[0]
          ensures maps[0][k] in here
        {
          var i :| 0 <= i < |keys| && keys[i] == k;
          assert here[i] == maps[0][k];
        }
      }
      here + StockOf(maps[1..])
  }

  lemma {:induction false} StockBounded<K(!new), V>(maps: seq<map<K, V>>)
    requires forall i :: 0 <= i < |maps| ==> |maps[i]| <= MAX_MESSAGES
    ensures |StockOf(maps)| <= |maps| * MAX_MESSAGES
  {
    if maps != [] {
      StockBounded(maps[1..]);
      assert |maps[0].Keys| == |maps[0]|;
    }
  }

  lemma CodecForMaps<K(!new), V(!new)>(maps: seq<map<K, V>>) returns (c: Codec<V>)
    requires |maps| * MAX_MESSAGES < U64
    requires forall i :: 0 <= i < |maps| ==> |maps[i]| <= MAX_MESSAGES
    ensures forall i :: 0 <= i < |maps| ==> InvertsAll(c, maps[i]) && Fits(c, maps[i])
  {
    StockBounded(maps);
    c := CodecFor(StockOf(maps));
  }

  /** No map of the state is larger than one section may be. */
  ghost predicate FewMessages(s: MetadataState) {
    && |s.objects| <= MAX_MESSAGES && |s.buckets| <= MAX_MESSAGES && |s.archiveBundles| <= MAX_MESSAGES
    && |s.archiveTasks| <= MAX_MESSAGES && |s.recallTasks| <= MAX_MESSAGES && |s.tapes| <= MAX_MESSAGES
    && |s.schedulerWorkers| <= MAX_MESSAGES && |s.cacheWorkers| <= MAX_MESSAGES && |s.tapeWorkers| <= MAX_MESSAGES
  }

  /** Any number of states have codecs that satisfy every hypothesis made about codecs. */
  lemma CodecsFor(states: seq<MetadataState>) returns (c: Codecs)
    requires |states| * MAX_MESSAGES < U64
    requires forall i :: 0 <= i < |states| ==> FewMessages(states[i])
    ensures forall i :: 0 <= i < |states| ==> AllLawful(c, states[i]) && WithinLimits(c, states[i])
  {
    var n := |states|;
    var m1 := seq(n, i requires 0 <= i < n => states[i].objects);
    var m2 := seq(n, i requires 0 <= i < n => states[i].buckets);
    var m3 := seq(n, i requires 0 <= i < n => states[i].archiveBundles);
    var m4 := seq(n, i requires 0 <= i < n => states[i].archiveTasks);
    var m5 := seq(n, i requires 0 <= i < n => states[i].recallTasks);
    var m6 := seq(n, i requires 0 <= i < n => states[i].tapes);
    var m7 := seq(n, i requires 0 <= i < n => states[i].schedulerWorkers);
    var m8 := seq(n, i requires 0 <= i < n => states[i].cacheWorkers);
    var m9 := seq(n, i requires 0 <= i < n => states[i].tapeWorkers);
    var objects := CodecForMaps(m1);
    var buckets := CodecForMaps(m2);
    var bundles := CodecForMaps(m3);
    var archiveTasks := CodecForMaps(m4);
    var recallTasks := CodecForMaps(m5);
    var tapes := CodecForMaps(m6);
    var schedulers := CodecForMaps(m7);
    var caches := CodecForMaps(m8);
    var tapeWorkers := CodecForMaps(m9);
    c := Codecs(objects, buckets, bundles, archiveTasks, recallTasks, tapes, schedulers, caches, tapeWorkers);
    forall i | 0 <= i < n
      ensures AllLawful(c, states[i]) && WithinLimits(c, states[i])
    {
      assert InvertsAll(objects, m1[i]) && InvertsAll(buckets, m2[i]) && InvertsAll(bundles, m3[i]);
      assert InvertsAll(archiveTasks, m4[i]) && InvertsAll(recallTasks, m5[i]) && InvertsAll(tapes, m6[i]);
      assert InvertsAll(schedulers, m7[i]) && InvertsAll(caches, m8[i]) && InvertsAll(tapeWorkers, m9[i]);
    }
  }

  lemma Reassociate(out: seq<Byte>, a: seq<Byte>, b: seq<Byte>, c: seq<Byte>, rest: seq<Byte>)
    ensures out + a + b + c + rest == out + (a + (b + (c + rest)))
  {
  }

  method WriteObjects(c: Codecs, s: MetadataState, e: Enumeration, buffer: seq<Byte>, ghost rest: seq<Byte>)
    returns (out: seq<Byte>)
    requires EnumeratesState(e, s)
    ensures out + rest == buffer + ObjectSections(c, s, e, rest)
  {
    var objects, buckets := Values(s.objects, e.objects), Values(s.buckets, e.buckets);
    var bundles := Values(s.archiveBundles, e.bundles);
    out := WriteMessages(buffer, c.objects, objects);
    out := WriteMessages(out, c.buckets, buckets);
    out := WriteMessages(out, c.bundles, bundles);
    Reassociate(buffer, Section(c.objects, objects), Section(c.buckets, buckets), Section(c.bundles, bundles), rest);
  }

  method WriteTasks(c: Codecs, s: MetadataState, e: Enumeration, buffer: seq<Byte>, ghost rest: seq<Byte>)
    returns (out: seq<Byte>)
    requires EnumeratesState(e, s)
    ensures out + rest == buffer + TaskSections(c, s, e, rest)
  {
    var archives, recalls := Values(s.archiveTasks, e.archiveTasks), Values(s.recallTasks, e.recallTasks);
    var tapes := Values(s.tapes, e.tapes);
    out := WriteMessages(buffer, c.archiveTasks, archives);
    out := WriteMessages(out, c.recallTasks, recalls);
    out := WriteMessages(out, c.tapes, tapes);
    Reassociate(buffer, Section(c.archiveTasks, archives), Section(c.recallTasks, recalls), Section(c.tapes, tapes),
                rest);
  }

  method WriteWorkers(c: Codecs, s: MetadataState, e: Enumeration, buffer: seq<Byte>) returns (out: seq<Byte>)
    requires EnumeratesState(e, s)
    ensures out == buffer + WorkerSections(c, s, e)
  {
    var schedulers, caches := Values(s.schedulerWorkers, e.schedulers), Values(s.cacheWorkers, e.caches);
    var tapeWorkers := Values(s.tapeWorkers, e.tapeWorkers);
    out := WriteMessages(buffer, c.schedulers, schedulers);
    out := WriteMessages(out, c.caches, caches);
    out := WriteMessages(out, c.tapeWorkers, tapeWorkers);
    Reassociate(buffer, Section(c.schedulers, schedulers), Section(c.caches, caches),
                Section(c.tapeWorkers, tapeWorkers), []);
    assert out + [] == out;
  }

  /** The buffer-filling encoder writes exactly the specified bytes. */
  method WriteSnapshot(c: Codecs, s: MetadataState, e: Enumeration) returns (out: seq<Byte>)
    requires EnumeratesState(e, s)
    ensures out == EncodeSnapshot(c, s, e)
  {
    ghost var workers := WorkerSections(c, s, e);
    out := WriteObjects(c, s, e, SNAPSHOT_MAGIC, TaskSections(c, s, e, workers));
    out := WriteTasks(c, s, e, out, workers);
    out := WriteWorkers(c, s, e, out);
  }

  method ReadMessagesKeyed<K, V>(cursor: seq<Byte>, c: Codec<V>, keyOf: V -> K)
    returns (r: Result<(map<K, V>, seq<Byte>)>)
    ensures r == ReadKeyed(c, keyOf, cursor)
  {
    var messages := ReadMessages(cursor, c);
    if messages.Err? { return Err(messages.code); }
    var collected: map<K, V> := map[];
    var list := messages.value.0;
    for i := 0 to |list|
      invariant collected == Collect(keyOf, list[..i])
    {
      assert list[..i + 1][..i] == list[..i];
      collected := collected[keyOf(list[i]) := list[i]];
    }
    assert list[..|list|] == list;
    r := Ok((collected, messages.value.1));
  }

  /** The cursor-advancing decoder reads what the specification reads. */
  method ReadSnapshot(c: Codecs, bytes: seq<Byte>) returns (r: Result<MetadataState>)
    ensures r == DecodeSnapshot(c, bytes)
  {
    if !(SNAPSHOT_MAGIC <= bytes) { return Err(Internal); }
    var objects := ReadMessagesKeyed(bytes[|SNAPSHOT_MAGIC|..], c.objects, KeyOf);
    if objects.Err? { return Err(objects.code); }
    var buckets := ReadMessagesKeyed(objects.value.1, c.buckets, BucketName);
    if buckets.Err? { return Err(buckets.code); }
    var bundles := ReadMessagesKeyed(buckets.value.1, c.bundles, BundleId);
    if bundles.Err? { return Err(bundles.code); }
    var archiveTasks := ReadMessagesKeyed(bundles.value.1, c.archiveTasks, ArchiveTaskId);
    if archiveTasks.Err? { return Err(archiveTasks.code); }
    var recallTasks := ReadMessagesKeyed(archiveTasks.value.1, c.recallTasks, RecallTaskId);
    if recallTasks.Err? { return Err(recallTasks.code); }
    var tapes := ReadMessagesKeyed(recallTasks.value.1, c.tapes, TapeId);
    if tapes.Err? { return Err(tapes.code); }
    var schedulers := ReadMessagesKeyed(tapes.value.1, c.schedulers, SchedulerId);
    if schedulers.Err? { return Err(schedulers.code); }
    var caches := ReadMessagesKeyed(schedulers.value.1, c.caches, CacheId);
    if caches.Err? { return Err(caches.code); }
    var tapeWorkers := ReadMessagesKeyed(caches.value.1, c.tapeWorkers, TapeWorkerId);
    if tapeWorkers.Err? { return Err(tapeWorkers.code); }
    if tapeWorkers.value.1 != [] { return Err(Internal); }
    r := Ok(MetadataState(objects.value.0, buckets.value.0, bundles.value.0, archiveTasks.value.0, recallTasks.value.0,
                          tapes.value.0, schedulers.value.0, caches.value.0, tapeWorkers.value.0));
  }
}
