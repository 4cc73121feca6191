/**
 * A run as a partitioned document stream: the run start, its descriptors,
 * its events and its stop (if any), in that order, served in partitions of
 * 100 documents (`PARTITION_SIZE`). The partition reader is modelled as written and
 * next to it as intended, where partition `i` is the `i`-th slice of the
 * canonical stream.
 */
module RunPartition {
  import opened Documents
  import opened RunFile

  function Min(a: int, b: int): int { if a < b then a else b }

  function Max(a: int, b: int): int { if a < b then b else a }

  /** `x` moved into `[0, n]`. */
  function Clamp(x: int, n: nat): (c: nat)
    ensures c <= n
  {
    if x < 0 then 0 else if x > n then n else x
  }

  // ---------------------------------------------------------------------------
  // Counting

  /** One start, every descriptor, every event, and the stop when there is one. */
  function DocumentCount(descriptorCount: nat, eventCount: nat, hasStop: bool): nat
  {
    1 + descriptorCount + eventCount + (if hasStop then 1 else 0)
  }

  /** `ceil(count / PARTITION_SIZE)`: the fewest partitions that hold `count` documents. */
  function PartitionCount(count: nat): (np: nat)
    ensures 100 * np >= count
    ensures np > 0 ==> 100 * (np - 1) < count
  {
    (count + 99) / 100
  }

  /** Document `n` of a stream falls in partition `i` exactly when `i` is its quotient. */
  lemma LastPartitionHoldsLastDocument(count: nat, i: int)
    requires count >= 1
    ensures i == PartitionCount(count) - 1 <==> 100 * i <= count - 1 < 100 * (i + 1)
  {
  }

  // ---------------------------------------------------------------------------
  // The canonical stream

  /** The run start followed by the descriptors: the `offset` documents before the first event. */
  function Header(start: Body, descriptors: seq<Body>): (h: seq<Doc>)
    ensures |h| == |descriptors| + 1
  {
    [Doc(Start, start)] + Tagged(Descriptor, descriptors)
  }

  /** The header holds the start first, then the descriptors in order, and no event. */
  lemma HeaderDocs(start: Body, descriptors: seq<Body>)
    ensures Header(start, descriptors)[0] == Doc(Start, start)
    ensures forall k :: 0 <= k < |descriptors| ==> Header(start, descriptors)[k + 1] == Doc(Descriptor, descriptors[k])
    ensures NoEvents(Header(start, descriptors))
  {
    var h, t := Header(start, descriptors), Tagged(Descriptor, descriptors);
    assert h == [Doc(Start, start)] + t;
    forall k | 0 <= k < |h|
      ensures h[k].kind != Event
    {
      if k > 0 {
        assert h[k] == t[k - 1];
      }
    }
  }

  function StopDocs(stop: Option<Body>): seq<Doc>
  {
    if stop.Some? then [Doc(Stop, stop.value)] else []
  }

  /** Every document of the run in order: start, descriptors, events, stop. */
  function Canonical(start: Body, descriptors: seq<Body>, events: seq<Body>, stop: Option<Body>): (c: seq<Doc>)
    ensures |c| == DocumentCount(|descriptors|, |events|, stop.Some?)
  {
    Header(start, descriptors) + Tagged(Event, events) + StopDocs(stop)
  }

  /** `doc.pop('_id', None)` on every document of a payload. */
  function StripIds(docs: seq<Doc>): (r: seq<Doc>)
    ensures |r| == |docs|
    ensures forall k :: 0 <= k < |docs| ==> r[k] == Doc(docs[k].kind, WithoutId(docs[k].body))
  {
    seq(|docs|, k requires 0 <= k < |docs| => Doc(docs[k].kind, WithoutId(docs[k].body)))
  }

  lemma StripIdsAppend(a: seq<Doc>, b: seq<Doc>)
    ensures StripIds(a + b) == StripIds(a) + StripIds(b)
  {
  }

  lemma TaggedSlice(kind: Kind, s: seq<Body>, a: nat, b: nat)
    requires a <= b <= |s|
    ensures Tagged(kind, s[a..b]) == Tagged(kind, s)[a..b]
  {
  }

  /** A clamped slice of a concatenation is the concatenation of the clamped slices of its parts. */
  lemma SliceOfConcat(x: seq<Doc>, y: seq<Doc>, a: int, b: int)
    requires a <= b
    ensures (x + y)[Clamp(a, |x + y|)..Clamp(b, |x + y|)] ==
            x[Clamp(a, |x|)..Clamp(b, |x|)] + y[Clamp(a - |x|, |y|)..Clamp(b - |x|, |y|)]
  {
    var xy := x + y;
    var lo, hi := Clamp(a, |xy|), Clamp(b, |xy|);
    var left := x[Clamp(a, |x|)..Clamp(b, |x|)];
    var right := y[Clamp(a - |x|, |y|)..Clamp(b - |x|, |y|)];
    assert |xy[lo..hi]| == |left| + |right|;
    forall k | 0 <= k < hi - lo
      ensures xy[lo..hi][k] == (left + right)[k]
    {
      if k < |left| {
        assert xy[lo + k] == x[Clamp(a, |x|) + k];
      } else {
        assert xy[lo + k] == y[Clamp(a - |x|, |y|) + (k - |left|)];
      }
    }
  }

  /** A clamped slice of three sequences put together, part by part. */
  lemma ThreeWaySlice(h: seq<Doc>, e: seq<Doc>, s: seq<Doc>, a: int, b: int)
    requires a <= b
    ensures (h + e + s)[Clamp(a, |h + e + s|)..Clamp(b, |h + e + s|)] ==
            h[Clamp(a, |h|)..Clamp(b, |h|)] + e[Clamp(a - |h|, |e|)..Clamp(b - |h|, |e|)] +
            s[Clamp(a - (|h| + |e|), |s|)..Clamp(b - (|h| + |e|), |s|)]
  {
    SliceOfConcat(h, e, a, b);
    SliceOfConcat(h + e, s, a, b);
  }

  // ---------------------------------------------------------------------------
  // One partition

  /** The header documents at positions `[first, last)`, as `islice` takes them. */
  function HeaderSlice(h: seq<Doc>, first: int, last: int): seq<Doc>
    requires 0 <= first <= last || |h| <= first
  {
    if first < |h| then h[first..Min(last, |h|)] else []
  }

  /** The events a cursor asked for `skip` and `limit` yields, tagged; none unless `limit` is positive. */
  function EventSlice(events: seq<Body>, skip: int, limit: int): seq<Doc>
  {
    if limit > 0 then Tagged(Event, Window(events, skip, Some(limit))) else []
  }

  /**
   * `read_partition(i)` as written: the header documents with positions in
   * `[100 i, 100 i + 100)`, then the events of the cursor asked for
   * `skip = max(0, 100 i - len(payload))` and `limit = 100 - len(payload)`
   * (`stop - start` is always 100),
   * then the stop when `i` is the last partition and the limit was positive;
   * a negative `i` makes the header slice fail.
   */
  function PartitionAsWritten(start: Body, descriptors: seq<Body>, events: seq<Body>, stop: Option<Body>, i: int): Result<seq<Doc>>
  {
    var h := Header(start, descriptors);
    if 100 * i < |h| && 100 * i < 0 then Err(NegativeSlice)
    else
      var head := HeaderSlice(h, 100 * i, 100 * i + 100);
      var limit := 100 - |head|;
      var evs := EventSlice(events, Max(0, 100 * i - |head|), limit);
      var tail := if limit > 0 && i == PartitionCount(DocumentCount(|descriptors|, |events|, stop.Some?)) - 1
                  then StopDocs(stop) else [];
      Ok(StripIds(head + evs + tail))
  }

  /**
   * `read_partition(i)` as intended: the event cursor is asked for the event
   * ordinals `[100 i - offset, 100 i + 100 - offset)`, and the last partition
   * carries the stop.
   */
  function Partition(start: Body, descriptors: seq<Body>, events: seq<Body>, stop: Option<Body>, i: nat): seq<Doc>
  {
    var h := Header(start, descriptors);
    var first, last := 100 * i, 100 * i + 100;
    var head := HeaderSlice(h, first, last);
    var skip := Max(0, first - |h|);
    var limit := last - |h|;
    var evs := EventSlice(events, skip, limit);
    var count := DocumentCount(|descriptors|, |events|, stop.Some?);
    var tail := if i == PartitionCount(count) - 1 then StopDocs(stop) else [];
    StripIds(head + evs + tail)
  }

  /** The documents of `c` at positions `[100 i, 100 i + 100)`. */
  function Slice(c: seq<Doc>, i: nat): seq<Doc>
  {
    c[Clamp(100 * i, |c|)..Clamp(100 * i + 100, |c|)]
  }

  lemma HeaderSliceIsClamped(h: seq<Doc>, first: int, last: int)
    requires 0 <= first <= last
    ensures HeaderSlice(h, first, last) == h[Clamp(first, |h|)..Clamp(last, |h|)]
  {
  }

  lemma EventSliceIsClamped(events: seq<Body>, offset: int, first: int, last: int)
    requires first <= last
    ensures EventSlice(events, Max(0, first - offset), last - offset) ==
            Tagged(Event, events)[Clamp(first - offset, |events|)..Clamp(last - offset, |events|)]
  {
    var skip, limit := Max(0, first - offset), last - offset;
    var a, b := Clamp(first - offset, |events|), Clamp(last - offset, |events|);
    if limit > 0 {
      assert WindowStart(|events|, skip, Some(limit)) == a && WindowEnd(|events|, Some(limit)) == b;
      TaggedSlice(Event, events, a, b);
    }
  }

  lemma StopSliceIsClamped(stop: Option<Body>, position: nat, i: nat)
    ensures var s := StopDocs(stop);
            (if i == PartitionCount(position + |s|) - 1 then s else []) ==
            s[Clamp(100 * i - position, |s|)..Clamp(100 * i + 100 - position, |s|)]
  {
    if stop.Some? {
      LastPartitionHoldsLastDocument(position + 1, i);
    }
  }

  /** The parts partition `i` is assembled from. */
  lemma PartitionParts(start: Body, descriptors: seq<Body>, events: seq<Body>, stop: Option<Body>, i: nat,
                       head: seq<Doc>, evs: seq<Doc>, tail: seq<Doc>)
    requires head == HeaderSlice(Header(start, descriptors), 100 * i, 100 * i + 100)
    requires evs == EventSlice(events, Max(0, 100 * i - (|descriptors| + 1)), 100 * i + 100 - (|descriptors| + 1))
    requires tail == if i == PartitionCount(DocumentCount(|descriptors|, |events|, stop.Some?)) - 1 then StopDocs(stop) else []
    ensures Partition(start, descriptors, events, stop, i) == StripIds(head + evs + tail)
  {
  }

  /** Slice `i` of a header, events and a stop, part by part. */
  lemma SliceParts(h: seq<Doc>, events: seq<Body>, stop: Option<Body>, i: nat)
    ensures var e, s := Tagged(Event, events), StopDocs(stop);
            Slice(h + e + s, i) ==
            HeaderSlice(h, 100 * i, 100 * i + 100) +
            EventSlice(events, Max(0, 100 * i - |h|), 100 * i + 100 - |h|) +
            (if i == PartitionCount(|h| + |events| + |s|) - 1 then s else [])
  {
    var e, s := Tagged(Event, events), StopDocs(stop);
    var first, last := 100 * i, 100 * i + 100;
    ThreeWaySlice(h, e, s, first, last);
    HeaderSliceIsClamped(h, first, last);
    EventSliceIsClamped(events, |h|, first, last);
    StopSliceIsClamped(stop, |h| + |e|, i);
  }

  /** Partition `i` is the `i`-th slice of 100 documents of the canonical stream. */
  lemma PartitionIsSlice(start: Body, descriptors: seq<Body>, events: seq<Body>, stop: Option<Body>, i: nat)
    ensures Partition(start, descriptors, events, stop, i) == StripIds(Slice(Canonical(start, descriptors, events, stop), i))
  {
    var h := Header(start, descriptors);
    var s := StopDocs(stop);
    SliceParts(h, events, stop, i);
    assert DocumentCount(|descriptors|, |events|, stop.Some?) == |h| + |events| + |s|;
    var head := HeaderSlice(h, 100 * i, 100 * i + 100);
    var evs := EventSlice(events, Max(0, 100 * i - |h|), 100 * i + 100 - |h|);
    var tail := if i == PartitionCount(|h| + |events| + |s|) - 1 then s else [];
    PartitionParts(start, descriptors, events, stop, i, head, evs, tail);
  }

  /** The documents of several payloads, one after the other. */
  function Concat(parts: seq<seq<Doc>>): seq<Doc>
  {
    if parts == [] then [] else Concat(parts[..|parts| - 1]) + parts[|parts| - 1]
  }

  /** `read_canonical` as intended: every partition, in order. */
  function ReadCanonical(start: Body, descriptors: seq<Body>, events: seq<Body>, stop: Option<Body>): seq<Doc>
  {
    var n := PartitionCount(|Canonical(start, descriptors, events, stop)|);
    Concat(seq(n, j requires 0 <= j < n => Partition(start, descriptors, events, stop, j)))
  }

  lemma StripIdsSplit(c: seq<Doc>, m: nat, n: nat)
    requires m <= n <= |c|
    ensures StripIds(c[..n]) == StripIds(c[..m]) + StripIds(c[m..n])
  {
    assert c[..n] == c[..m] + c[m..n];
    StripIdsAppend(c[..m], c[m..n]);
  }

  /** Consecutive slices of `c`, one after the other, are a prefix of `c`. */
  lemma {:induction false} ConcatOfSlices(c: seq<Doc>, parts: seq<seq<Doc>>)
    requires forall j :: 0 <= j < |parts| ==> parts[j] == StripIds(Slice(c, j))
    ensures Concat(parts) == StripIds(c[..Clamp(100 * |parts|, |c|)])
  {
    if parts != [] {
      var k := |parts| - 1;
      var lo, hi := Clamp(100 * k, |c|), Clamp(100 * k + 100, |c|);
      assert parts[k] == StripIds(c[lo..hi]);
      assert Concat(parts) == Concat(parts[..k]) + parts[k];
      ConcatOfSlices(c, parts[..k]);
      StripIdsSplit(c, lo, hi);
    }
  }

  /** Reading every partition yields the whole run, each document once and in order. */
  lemma ReadingAllPartitionsYieldsTheRun(start: Body, descriptors: seq<Body>, events: seq<Body>, stop: Option<Body>)
    ensures ReadCanonical(start, descriptors, events, stop) == StripIds(Canonical(start, descriptors, events, stop))
  {
    var c := Canonical(start, descriptors, events, stop);
    var n := PartitionCount(|c|);
    var parts := seq(n, j requires 0 <= j < n => Partition(start, descriptors, events, stop, j));
    forall j | 0 <= j < n
      ensures parts[j] == StripIds(Slice(c, j))
    {
      PartitionIsSlice(start, descriptors, events, stop, j);
    }
    ConcatOfSlices(c, parts);
    assert c[..|c|] == c;
  }

  /** No document of `docs` is an event. */
  predicate NoEvents(docs: seq<Doc>)
  {
    forall k :: 0 <= k < |docs| ==> docs[k].kind != Event
  }

  /** As written, the first partition is the intended one. */
  lemma FirstPartitionAsWritten(start: Body, descriptors: seq<Body>, events: seq<Body>, stop: Option<Body>)
    ensures PartitionAsWritten(start, descriptors, events, stop, 0) == Ok(Partition(start, descriptors, events, stop, 0))
  {
    var h := Header(start, descriptors);
    if |h| > 100 {
      var count := DocumentCount(|descriptors|, |events|, stop.Some?);
      assert PartitionCount(count) > 1;
      WindowEmpty(events, 0, 100 - |h|);
    }
  }

  /**
   * As written, no partition after the first carries an event: its cursor is
   * asked to skip at least as many events as its limit allows.
   */
  lemma LaterPartitionsHaveNoEventsAsWritten(start: Body, descriptors: seq<Body>, events: seq<Body>, stop: Option<Body>, i: int)
    requires i >= 1
    ensures PartitionAsWritten(start, descriptors, events, stop, i).Ok?
    ensures NoEvents(PartitionAsWritten(start, descriptors, events, stop, i).value)
  {
    var h := Header(start, descriptors);
    var head := HeaderSlice(h, 100 * i, 100 * i + 100);
    var skip, limit := Max(0, 100 * i - |head|), 100 - |head|;
    var evs := EventSlice(events, skip, limit);
    if limit > 0 {
      WindowEmpty(events, skip, limit);
    }
    assert evs == [];
    var tail := if limit > 0 && i == PartitionCount(DocumentCount(|descriptors|, |events|, stop.Some?)) - 1 then StopDocs(stop) else [];
    PartitionAsWrittenParts(start, descriptors, events, stop, i, head, evs, tail);
    HeaderSliceHasNoEvents(start, descriptors, 100 * i, 100 * i + 100);
    NoEventsConcat(head, tail);
    assert head + evs + tail == head + tail;
    StripIdsKeepsKinds(head + tail);
  }

  lemma HeaderSliceHasNoEvents(start: Body, descriptors: seq<Body>, first: int, last: int)
    requires 0 <= first <= last || |descriptors| + 1 <= first
    ensures NoEvents(HeaderSlice(Header(start, descriptors), first, last))
  {
    HeaderDocs(start, descriptors);
  }

  lemma NoEventsConcat(a: seq<Doc>, b: seq<Doc>)
    requires NoEvents(a) && NoEvents(b)
    ensures NoEvents(a + b)
  {
  }

  lemma StripIdsKeepsKinds(docs: seq<Doc>)
    requires NoEvents(docs)
    ensures NoEvents(StripIds(docs))
  {
  }

  /**
   * As written, a run whose events do not all fit in the first partition
   * loses the rest: the second partition differs from the intended one.
   */
  lemma SecondPartitionLosesEventsAsWritten(start: Body, descriptors: seq<Body>, events: seq<Body>, stop: Option<Body>)
    requires |descriptors| + 1 <= 100 < |descriptors| + 1 + |events|
    ensures PartitionAsWritten(start, descriptors, events, stop, 1) != Ok(Partition(start, descriptors, events, stop, 1))
  {
    PartitionIsSlice(start, descriptors, events, stop, 1);
    SecondSliceStartsWithEvent(start, descriptors, events, stop);
    LaterPartitionsHaveNoEventsAsWritten(start, descriptors, events, stop, 1);
    var p := Partition(start, descriptors, events, stop, 1);
    assert p[0].kind == Event;
  }

  lemma SecondSliceStartsWithEvent(start: Body, descriptors: seq<Body>, events: seq<Body>, stop: Option<Body>)
    requires |descriptors| + 1 <= 100 < |descriptors| + 1 + |events|
    ensures var c := Canonical(start, descriptors, events, stop);
            Slice(c, 1) != [] && Slice(c, 1)[0].kind == Event
  {
    var h, e := Header(start, descriptors), Tagged(Event, events);
    var c := Canonical(start, descriptors, events, stop);
    assert c[100] == e[100 - |h|];
    assert Slice(c, 1)[0] == c[100];
  }

  /** `for _, doc in payload: doc.pop('_id', None)`, one document at a time. */
  method PopIds(payload: seq<Doc>) returns (r: seq<Doc>)
    ensures r == StripIds(payload)
  {
    r := payload;
    for k := 0 to |r|
      invariant |r| == |payload|
      invariant forall j :: 0 <= j < k ==> r[j] == Doc(payload[j].kind, WithoutId(payload[j].body))
      invariant forall j :: k <= j < |r| ==> r[j] == payload[j]
    {
      r := r[k := Doc(r[k].kind, WithoutId(r[k].body))];
    }
  }

  // ---------------------------------------------------------------------------
  // The run catalog

  /** `[doc['uid'] for doc in descriptors]`. */
  function DescriptorUids(descriptors: seq<Body>): (r: Result<seq<Json>>)
    ensures r.Ok? <==> forall k :: 0 <= k < |descriptors| ==> "uid" in descriptors[k]
    ensures r.Ok? ==> |r.value| == |descriptors|
    ensures r.Ok? ==> forall k :: 0 <= k < |descriptors| ==> r.value[k] == descriptors[k]["uid"]
  {
    if descriptors == [] then Ok([])
    else if "uid" !in descriptors[0] then Err(KeyError)
    else match DescriptorUids(descriptors[1..])
      case Err(e) => Err(e)
      case Ok(rest) => Ok([descriptors[0]["uid"]] + rest)
  }

  /** The parts a partition is assembled from, when the header slice does not fail. */
  lemma PartitionAsWrittenParts(start: Body, descriptors: seq<Body>, events: seq<Body>, stop: Option<Body>, i: int,
                                head: seq<Doc>, evs: seq<Doc>, tail: seq<Doc>)
    requires 0 <= 100 * i || |descriptors| + 1 <= 100 * i
    requires head == HeaderSlice(Header(start, descriptors), 100 * i, 100 * i + 100)
    requires evs == EventSlice(events, Max(0, 100 * i - |head|), 100 - |head|)
    requires tail == if 100 - |head| > 0 && i == PartitionCount(DocumentCount(|descriptors|, |events|, stop.Some?)) - 1
                     then StopDocs(stop) else []
    ensures PartitionAsWritten(start, descriptors, events, stop, i) == Ok(StripIds(head + evs + tail))
  {
    assert |Header(start, descriptors)| == |descriptors| + 1;
  }

  /** The uids of a list, as the membership test `in descriptor_uids` sees them. */
  function UidSet(uids: seq<Json>): set<Json>
  {
    set u | u in uids
  }

  /** The events of a run file that belong to any of its descriptors. */
  function RunEvents(docs: seq<Doc>): Result<seq<Body>>
  {
    match DescriptorUids(OfKind(docs, Descriptor))
    case Err(e) => Err(e)
    case Ok(uids) => Hits(docs, EventsOf(UidSet(uids)))
  }

  /** What `read_partition(i)` returns for a run file, errors included. */
  function ReadPartitionOf(docs: seq<Doc>, start: Body, i: int): Result<seq<Doc>>
  {
    match LastStop(docs)
    case Err(e) => Err(e)
    case Ok(stop) =>
      match RunEvents(docs)
      case Err(e) => Err(e)
      case Ok(events) => PartitionAsWritten(start, OfKind(docs, Descriptor), events, stop, i)
  }

  /** Once the stop and the events of a run file are read, a partition depends on them alone. */
  lemma ReadPartitionOfLoaded(docs: seq<Doc>, start: Body, i: int, stop: Option<Body>, events: seq<Body>)
    requires LastStop(docs) == Ok(stop) && RunEvents(docs) == Ok(events)
    ensures ReadPartitionOf(docs, start, i) == PartitionAsWritten(start, OfKind(docs, Descriptor), events, stop, i)
  {
  }

  /**
   * One run, read from its run file. The accessors the catalog was given are
   * the scans of `RunFile` over `docs`; `runStart` is what the start accessor
   * returns.
   */
  class RunCatalog {
    const docs: seq<Doc>
    const runStart: Body
    var stopDoc: Option<Body>
    var descriptors: seq<Body>
    var offset: int
    var npartitions: nat

    constructor (docs: seq<Doc>, runStart: Body)
      ensures this.docs == docs && this.runStart == runStart
      ensures stopDoc == None && descriptors == [] && offset == 0 && npartitions == 0
    {
      this.docs := docs;
      this.runStart := runStart;
      stopDoc := None;
      descriptors := [];
      offset := 0;
      npartitions := 0;
    }

    /**
     * `_load`: reads the stop, the descriptors and the event count, and sets
     * the number of partitions. A failing step leaves the fields it has not
     * reached as they were.
     */
    method Load() returns (failure: Option<Error>)
      modifies this
      ensures LastStop(docs).Err? ==> failure == Some(LastStop(docs).error) && unchanged(this)
      ensures LastStop(docs).Ok? ==>
                && stopDoc == LastStop(docs).value
                && descriptors == OfKind(docs, Descriptor)
                && offset == |descriptors| + 1
      ensures LastStop(docs).Ok? ==> (failure.None? <==> RunEvents(docs).Ok?)
      ensures LastStop(docs).Ok? && RunEvents(docs).Err? ==>
                failure == Some(RunEvents(docs).error) && npartitions == old(npartitions)
      ensures failure.None? ==>
                npartitions == PartitionCount(DocumentCount(|descriptors|, |RunEvents(docs).value|, stopDoc.Some?))
    {
      var stop := LastStop(docs);
      if stop.Err? {
        return Some(stop.error);
      }
      stopDoc := stop.value;
      descriptors := CollectDescriptors(docs);
      offset := |descriptors| + 1;
      var uids := DescriptorUids(descriptors);
      if uids.Err? {
        return Some(uids.error);
      }
      var eventCount := CountMatches(docs, EventsOf(UidSet(uids.value)));
      if eventCount.Err? {
        return Some(eventCount.error);
      }
      var count := DocumentCount(|descriptors|, eventCount.value, stopDoc.Some?);
      npartitions := PartitionCount(count);
      return None;
    }

    /**
     * `read_partition(i)`: loads the run, then assembles the partition.
     */
    method ReadPartition(i: int) returns (r: Result<seq<Doc>>)
      modifies this
      ensures r == ReadPartitionOf(docs, runStart, i)
      ensures LastStop(docs).Ok? ==>
                && stopDoc == LastStop(docs).value
                && descriptors == OfKind(docs, Descriptor)
                && offset == |descriptors| + 1
      ensures LastStop(docs).Err? ==> unchanged(this)
      ensures LastStop(docs).Ok? ==>
                npartitions == if RunEvents(docs).Ok?
                               then PartitionCount(DocumentCount(|descriptors|, |RunEvents(docs).value|, stopDoc.Some?))
                               else old(npartitions)
    {
      var failure := Load();
      if failure.Some? {
        return Err(failure.value);
      }
      ReadPartitionOfLoaded(docs, runStart, i, stopDoc, RunEvents(docs).value);
      r := Assemble(i);
    }

    /**
     * The body of `read_partition(i)` after loading: the header slice, the
     * events of the cursor and the stop, without their `_id`.
     */
    method Assemble(i: int) returns (r: Result<seq<Doc>>)
      requires LastStop(docs) == Ok(stopDoc) && RunEvents(docs).Ok?
      requires descriptors == OfKind(docs, Descriptor) && offset == |descriptors| + 1
      requires npartitions == PartitionCount(DocumentCount(|descriptors|, |RunEvents(docs).value|, stopDoc.Some?))
      ensures r == PartitionAsWritten(runStart, descriptors, RunEvents(docs).value, stopDoc, i)
    {
      ghost var events := RunEvents(docs).value;
      var h := Header(runStart, descriptors);
      var first, last := 100 * i, 100 * i + 100;
      if first < offset && first < 0 {
        return Err(NegativeSlice);
      }
      var head := HeaderSlice(h, first, last);
      var uids := DescriptorUids(descriptors);
      var sel := EventsOf(UidSet(uids.value));
      assert Hits(docs, sel) == Ok(events);
      var skip := Max(0, first - |head|);
      var limit := 100 - |head|;
      var evs: seq<Doc>, tail: seq<Doc> := [], [];
      if limit > 0 {
        var found := Paginate(docs, sel, skip, Some(limit));
        PaginatedCursor(docs, sel, skip, Some(limit));
        evs := Tagged(Event, found.value);
        if i == npartitions - 1 && stopDoc.Some? {
          tail := [Doc(Stop, stopDoc.value)];
        }
      }
      PartitionAsWrittenParts(runStart, descriptors, events, stopDoc, i, head, evs, tail);
      var payload := head + evs + tail;
      var stripped := PopIds(payload);
      return Ok(stripped);
    }
  }
}
