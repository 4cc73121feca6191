/**
 * The document cursor engine: scans over the parsed documents of one run file.
 * Every accessor of the JSON-lines catalog re-reads the file from its first line;
 * here a file is its sequence of documents and each scan is a loop over it,
 * proved equal to a recursive specification.
 */
module RunFile {
  import opened Documents

  /** Which documents a scan looks for. */
  datatype Selector =
    | EventsOf(descriptors: set<Json>)   // events whose 'descriptor' is in the set
    | DatumsOf(resource: Json)           // datums whose 'resource' is the given uid
    | ResourceWithUid(uid: Json)         // resources whose 'uid' is the given uid
    | DatumWithId(datumId: Json)         // datums whose 'datum_id' is the given id

  /** The outcome of testing one line: a match, no match, or a KeyError on the tested field. */
  datatype Verdict = Hit | Miss | Fault

  /** `name == kind and doc[key] == value`, where `doc[key]` raises when the key is absent. */
  function KeyTest(d: Doc, kind: Kind, key: string, value: Json): Verdict
  {
    if d.kind != kind then Miss
    else if key !in d.body then Fault
    else if d.body[key] == value then Hit
    else Miss
  }

  /** The kind of document a selector looks at. */
  function SelectedKind(sel: Selector): Kind
  {
    match sel
    case EventsOf(_) => Event
    case DatumsOf(_) => Datum
    case ResourceWithUid(_) => Resource
    case DatumWithId(_) => Datum
  }

  /** The field a selector reads from a document of that kind. */
  function TestedKey(sel: Selector): string
  {
    match sel
    case EventsOf(_) => "descriptor"
    case DatumsOf(_) => "resource"
    case ResourceWithUid(_) => "uid"
    case DatumWithId(_) => "datum_id"
  }

  /**
   * Testing one line: a document of another kind is passed over without being
   * read; one of the selected kind that lacks the tested field raises KeyError.
   */
  function Test(sel: Selector, d: Doc): (v: Verdict)
    ensures v != Miss ==> d.kind == SelectedKind(sel)
    ensures v == Fault <==> d.kind == SelectedKind(sel) && TestedKey(sel) !in d.body
  {
    match sel
    case EventsOf(ds) =>
      if d.kind != Event then Miss
      else if "descriptor" !in d.body then Fault
      else if d.body["descriptor"] in ds then Hit
      else Miss
    case DatumsOf(r) => KeyTest(d, Datum, "resource", r)
    case ResourceWithUid(u) => KeyTest(d, Resource, "uid", u)
    case DatumWithId(i) => KeyTest(d, Datum, "datum_id", i)
  }

  /** Puts `prefix` in front of a successful result; an error passes through. */
  function Prepend(prefix: seq<Body>, r: Result<seq<Body>>): Result<seq<Body>>
  {
    match r
    case Ok(rest) => Ok(prefix + rest)
    case Err(e) => Err(e)
  }

  lemma PrependNested(a: seq<Body>, b: seq<Body>, r: Result<seq<Body>>)
    ensures Prepend(a, Prepend(b, r)) == Prepend(a + b, r)
    ensures Prepend([], r) == r
  {
    match r
    case Ok(rest) => assert a + (b + rest) == (a + b) + rest; assert [] + rest == rest;
    case Err(_) =>
  }

  // ---------------------------------------------------------------------------
  // Full scans

  /** The bodies of all matching documents in file order; a KeyError on any line aborts the scan. */
  function Hits(docs: seq<Doc>, sel: Selector): Result<seq<Body>>
  {
    if docs == [] then Ok([])
    else match Test(sel, docs[0])
      case Fault => Err(KeyError)
      case Miss => Hits(docs[1..], sel)
      case Hit => Prepend([docs[0].body], Hits(docs[1..], sel))
  }

  lemma {:induction false} HitsAreMatches(docs: seq<Doc>, sel: Selector)
    requires Hits(docs, sel).Ok?
    ensures |Hits(docs, sel).value| <= |docs|
    ensures forall i :: 0 <= i < |docs| ==> Test(sel, docs[i]) != Fault
    ensures forall b :: b in Hits(docs, sel).value <==>
              exists i :: 0 <= i < |docs| && Test(sel, docs[i]) == Hit && docs[i].body == b
  {
    if docs != [] {
      HitsAreMatches(docs[1..], sel);
      forall b | (exists i :: 0 <= i < |docs| && Test(sel, docs[i]) == Hit && docs[i].body == b)
        ensures b in Hits(docs, sel).value
      {
        var i :| 0 <= i < |docs| && Test(sel, docs[i]) == Hit && docs[i].body == b;
        if i > 0 { assert docs[1..][i - 1] == docs[i]; }
      }
      forall i | 0 <= i < |docs| ensures Test(sel, docs[i]) != Fault {
        if i > 0 { assert docs[1..][i - 1] == docs[i]; }
      }
      forall b | b in Hits(docs, sel).value
        ensures exists i :: 0 <= i < |docs| && Test(sel, docs[i]) == Hit && docs[i].body == b
      {
        if Test(sel, docs[0]) == Hit && b == docs[0].body {
        } else {
          var j :| 0 <= j < |docs[1..]| && Test(sel, docs[1..][j]) == Hit && docs[1..][j].body == b;
          assert docs[j + 1] == docs[1..][j];
        }
      }
    }
  }

  /** A scan of a concatenation is the scan of the first part followed by the scan of the second. */
  lemma {:induction false} HitsAppend(a: seq<Doc>, b: seq<Doc>, sel: Selector)
    ensures Hits(a + b, sel) ==
      match Hits(a, sel)
      case Ok(h) => Prepend(h, Hits(b, sel))
      case Err(e) => Err(e)
  {
    if a == [] {
      assert a + b == b;
      PrependNested([], [], Hits(b, sel));
    } else {
      assert (a + b)[1..] == a[1..] + b;
      HitsAppend(a[1..], b, sel);
      match Hits(a[1..], sel)
      case Ok(h) => PrependNested([a[0].body], h, Hits(b, sel));
      case Err(_) =>
    }
  }

  /** `_get_event_count`: the number of matching events, always a full scan. */
  method CountMatches(docs: seq<Doc>, sel: Selector) returns (r: Result<nat>)
    ensures r.Ok? <==> Hits(docs, sel).Ok?
    ensures r.Ok? ==> r.value == |Hits(docs, sel).value|
    ensures r.Err? ==> r.error == Hits(docs, sel).error
  {
    var count := 0;
    ghost var seen: seq<Body> := [];
    var i := 0;
    PrependNested([], [], Hits(docs, sel));
    while i < |docs|
      invariant 0 <= i <= |docs|
      invariant count == |seen|
      invariant Hits(docs, sel) == Prepend(seen, Hits(docs[i..], sel))
    {
      assert docs[i..][1..] == docs[i + 1..];
      var v := Test(sel, docs[i]);
      if v == Fault {
        return Err(KeyError);
      }
      if v == Hit {
        count := count + 1;
        PrependNested(seen, [docs[i].body], Hits(docs[i + 1..], sel));
        seen := seen + [docs[i].body];
      }
      i := i + 1;
    }
    r := Ok(count);
  }

  // ---------------------------------------------------------------------------
  // Paginated cursors

  /**
   * `_get_event_cursor` / `_get_datum_cursor` from match ordinal `counter` on:
   * a match is yielded when `skip <= counter` and (`limit` is None or `counter < limit`),
   * and the scan stops right after the match whose ordinal reaches `limit - 1`.
   */
  function Cursor(docs: seq<Doc>, sel: Selector, skip: int, limit: Option<int>, counter: int): Result<seq<Body>>
    decreases |docs|
  {
    if docs == [] then Ok([])
    else match Test(sel, docs[0])
      case Fault => Err(KeyError)
      case Miss => Cursor(docs[1..], sel, skip, limit, counter)
      case Hit =>
        var yielded := if skip <= counter && (limit.None? || counter < limit.value) then [docs[0].body] else [];
        if limit.Some? && counter + 1 >= limit.value then Ok(yielded)
        else Prepend(yielded, Cursor(docs[1..], sel, skip, limit, counter + 1))
  }

  /** The upper bound `limit` moved down by `n` ordinals. */
  function Shift(limit: Option<int>, n: int): Option<int>
  {
    match limit
    case None => None
    case Some(l) => Some(l - n)
  }

  /** The first index of `h` that a window from ordinal `lo` up to `hi` keeps. */
  function WindowStart(n: nat, lo: int, hi: Option<int>): (b: nat)
    ensures b <= WindowEnd(n, hi)
  {
    if lo < 0 then 0 else if lo > WindowEnd(n, hi) then WindowEnd(n, hi) else lo
  }

  /** One past the last index a window up to `hi` keeps. */
  function WindowEnd(n: nat, hi: Option<int>): (e: nat)
    ensures e <= n
  {
    if hi.None? || hi.value > n then n else if hi.value < 0 then 0 else hi.value
  }

  /** The matches whose ordinal `i` satisfies `lo <= i` and (`hi` is None or `i < hi`). */
  function Window(h: seq<Body>, lo: int, hi: Option<int>): seq<Body>
  {
    h[WindowStart(|h|, lo, hi)..WindowEnd(|h|, hi)]
  }

  /** Ordinal `i` lies in `[lo, hi)`, where a missing `hi` bounds nothing. */
  predicate Kept(i: int, lo: int, hi: Option<int>)
  {
    lo <= i && (hi.None? || i < hi.value)
  }

  /** The window keeps exactly the ordinals in `[lo, hi)`, contiguously and in order. */
  lemma WindowOrdinals(h: seq<Body>, lo: int, hi: Option<int>)
    ensures |Window(h, lo, hi)| == WindowEnd(|h|, hi) - WindowStart(|h|, lo, hi)
    ensures forall k :: 0 <= k < |Window(h, lo, hi)| ==> Window(h, lo, hi)[k] == h[WindowStart(|h|, lo, hi) + k]
    ensures forall i :: 0 <= i < |h| ==>
              (WindowStart(|h|, lo, hi) <= i < WindowEnd(|h|, hi) <==> Kept(i, lo, hi))
  {
  }

  /** A limit at or below the skip yields nothing. */
  lemma WindowEmpty(h: seq<Body>, lo: int, hi: int)
    requires hi <= lo
    ensures Window(h, lo, Some(hi)) == []
  {
  }

  /** A window that ends at ordinal 1 or earlier keeps at most the first match. */
  lemma WindowFirstOnly(h: seq<Body>, lo: int, hi: int)
    requires h != [] && hi <= 1
    ensures Window(h, lo, Some(hi)) == if lo <= 0 && 0 < hi then [h[0]] else []
  {
  }

  /** A window is the first match when it is kept, then the window of the rest one ordinal on. */
  lemma WindowCons(h: seq<Body>, lo: int, hi: Option<int>)
    requires h != []
    ensures Window(h, lo, hi) ==
      (if lo <= 0 && (hi.None? || 0 < hi.value) then [h[0]] else []) + Window(h[1..], lo - 1, Shift(hi, 1))
  {
    var b, e := WindowStart(|h|, lo, hi), WindowEnd(|h|, hi);
    var b', e' := WindowStart(|h| - 1, lo - 1, Shift(hi, 1)), WindowEnd(|h| - 1, Shift(hi, 1));
    if lo <= 0 && (hi.None? || 0 < hi.value) {
      assert b == 0 && e == e' + 1 && b' == 0;
      assert h[b..e] == [h[0]] + h[1..][b'..e'];
    } else {
      assert e' + 1 == e || e == 0;
      assert h[b..e] == h[1..][b'..e'];
    }
  }

  /**
   * The cursor started at ordinal `counter` over a file whose matches are `h` yields
   * exactly the window of `h` between `skip` and `limit`, both shifted by `counter`.
   */
  lemma {:induction false} CursorIsWindow(docs: seq<Doc>, sel: Selector, skip: int, limit: Option<int>, counter: int, h: seq<Body>)
    requires Hits(docs, sel) == Ok(h)
    ensures Cursor(docs, sel, skip, limit, counter) == Ok(Window(h, skip - counter, Shift(limit, counter)))
    decreases |docs|
  {
    if docs != [] {
      match Test(sel, docs[0])
      case Miss =>
        assert Hits(docs[1..], sel) == Ok(h);
        CursorIsWindow(docs[1..], sel, skip, limit, counter, h);
      case Hit =>
        var t := Hits(docs[1..], sel).value;
        var lo, hi := skip - counter, Shift(limit, counter);
        var yielded := if skip <= counter && (limit.None? || counter < limit.value) then [docs[0].body] else [];
        assert h == [docs[0].body] + t;
        if limit.Some? && counter + 1 >= limit.value {
          WindowFirstOnly(h, lo, hi.value);
          assert Cursor(docs, sel, skip, limit, counter) == Ok(yielded);
        } else {
          assert h[1..] == t;
          WindowCons(h, lo, hi);
          CursorIsWindow(docs[1..], sel, skip, limit, counter + 1, t);
          assert Shift(hi, 1) == Shift(limit, counter + 1);
          assert Cursor(docs, sel, skip, limit, counter) == Prepend(yielded, Cursor(docs[1..], sel, skip, limit, counter + 1));
        }
    }
  }

  /** `_get_event_cursor` with `skip` and `limit` over a file without faults: the `[skip, limit)` window of the matches. */
  lemma PaginatedCursor(docs: seq<Doc>, sel: Selector, skip: int, limit: Option<int>)
    requires Hits(docs, sel).Ok?
    ensures Cursor(docs, sel, skip, limit, 0) == Ok(Window(Hits(docs, sel).value, skip, limit))
  {
    CursorIsWindow(docs, sel, skip, limit, 0, Hits(docs, sel).value);
    assert Shift(limit, 0) == limit;
  }

  /** With `skip=0` and no limit the cursor is the full scan, fault for fault: the event count is its length. */
  lemma {:induction false} UnpaginatedCursorIsFullScan(docs: seq<Doc>, sel: Selector, counter: int)
    requires counter >= 0
    ensures Cursor(docs, sel, 0, None, counter) == Hits(docs, sel)
    decreases |docs|
  {
    if docs != [] {
      UnpaginatedCursorIsFullScan(docs[1..], sel, counter + 1);
      UnpaginatedCursorIsFullScan(docs[1..], sel, counter);
    }
  }

  /** The cursor loop shared by `_get_event_cursor` and `_get_datum_cursor`, with its `skip_counter`. */
  method Paginate(docs: seq<Doc>, sel: Selector, skip: int, limit: Option<int>) returns (r: Result<seq<Body>>)
    ensures r == Cursor(docs, sel, skip, limit, 0)
  {
    var skipCounter := 0;
    var out: seq<Body> := [];
    var i := 0;
    PrependNested([], [], Cursor(docs, sel, skip, limit, 0));
    while i < |docs|
      invariant 0 <= i <= |docs|
      invariant Cursor(docs, sel, skip, limit, 0) == Prepend(out, Cursor(docs[i..], sel, skip, limit, skipCounter))
    {
      assert docs[i..][1..] == docs[i + 1..];
      var v := Test(sel, docs[i]);
      if v == Fault {
        return Err(KeyError);
      }
      if v == Hit {
        var yielded := if skipCounter >= skip && (limit.None? || skipCounter < limit.value) then [docs[i].body] else [];
        PrependNested(out, yielded, Cursor(docs[i + 1..], sel, skip, limit, skipCounter + 1));
        out := out + yielded;
        skipCounter := skipCounter + 1;
        if limit.Some? && skipCounter >= limit.value {
          PrependNested(out, [], Ok([]));
          assert out + [] == out;
          return Ok(out);
        }
      }
      i := i + 1;
    }
    assert out + [] == out;
    r := Ok(out);
  }

  // ---------------------------------------------------------------------------
  // First-match lookups

  /** `_get_resource` / `_get_datum`: the first matching body; `NotFound` once the file is exhausted. */
  function FindFirst(docs: seq<Doc>, sel: Selector): Result<Body>
  {
    if docs == [] then Err(NotFound)
    else match Test(sel, docs[0])
      case Hit => Ok(docs[0].body)
      case Fault => Err(KeyError)
      case Miss => FindFirst(docs[1..], sel)
  }

  /** The lookup returns the body of the first match, whatever follows it. */
  lemma {:induction false} FindFirstIsFirstMatch(docs: seq<Doc>, sel: Selector, i: nat)
    requires i < |docs| && Test(sel, docs[i]) == Hit
    requires forall j :: 0 <= j < i ==> Test(sel, docs[j]) == Miss
    ensures FindFirst(docs, sel) == Ok(docs[i].body)
  {
    if i > 0 {
      assert Test(sel, docs[0]) == Miss;
      assert docs[1..][i - 1] == docs[i];
      FindFirstIsFirstMatch(docs[1..], sel, i - 1);
    }
  }

  /** The lookup raises `NotFound` exactly when no line matches and no line faults. */
  lemma {:induction false} NotFoundIffNoMatch(docs: seq<Doc>, sel: Selector)
    ensures FindFirst(docs, sel) == Err(NotFound) <==> forall j :: 0 <= j < |docs| ==> Test(sel, docs[j]) == Miss
  {
    if docs != [] {
      NotFoundIffNoMatch(docs[1..], sel);
      if forall j :: 0 <= j < |docs| ==> Test(sel, docs[j]) == Miss {
        forall j | 0 <= j < |docs| - 1 ensures Test(sel, docs[1..][j]) == Miss {
          assert docs[1..][j] == docs[j + 1];
        }
      } else if Test(sel, docs[0]) == Miss {
        var j :| 0 <= j < |docs| && Test(sel, docs[j]) != Miss;
        assert docs[1..][j - 1] == docs[j];
      }
    }
  }

  /** A successful lookup returns the body of some matching line of the file. */
  lemma {:induction false} FoundBodyMatches(docs: seq<Doc>, sel: Selector)
    requires FindFirst(docs, sel).Ok?
    ensures exists i :: 0 <= i < |docs| && Test(sel, docs[i]) == Hit && docs[i].body == FindFirst(docs, sel).value
  {
    if Test(sel, docs[0]) != Hit {
      FoundBodyMatches(docs[1..], sel);
      var i :| 0 <= i < |docs[1..]| && Test(sel, docs[1..][i]) == Hit && docs[1..][i].body == FindFirst(docs, sel).value;
      assert docs[i + 1] == docs[1..][i];
    }
  }

  /** The lookup loop: return on the first match, raise when the file is exhausted. */
  method FirstMatch(docs: seq<Doc>, sel: Selector) returns (r: Result<Body>)
    ensures r == FindFirst(docs, sel)
  {
    var i := 0;
    while i < |docs|
      invariant 0 <= i <= |docs|
      invariant FindFirst(docs, sel) == FindFirst(docs[i..], sel)
    {
      assert docs[i..][1..] == docs[i + 1..];
      var v := Test(sel, docs[i]);
      if v == Hit {
        return Ok(docs[i].body);
      } else if v == Fault {
        return Err(KeyError);
      }
      i := i + 1;
    }
    r := Err(NotFound);
  }

  // ---------------------------------------------------------------------------
  // Descriptors and the stop document

  /** The bodies of the documents of one kind, in file order. */
  function OfKind(docs: seq<Doc>, kind: Kind): seq<Body>
  {
    if docs == [] then []
    else (if docs[0].kind == kind then [docs[0].body] else []) + OfKind(docs[1..], kind)
  }

  /** Filtering by kind distributes over concatenation: file order is kept. */
  lemma {:induction false} OfKindAppend(a: seq<Doc>, b: seq<Doc>, kind: Kind)
    ensures OfKind(a + b, kind) == OfKind(a, kind) + OfKind(b, kind)
  {
    if a == [] {
      assert a + b == b;
    } else {
      assert (a + b)[1..] == a[1..] + b;
      OfKindAppend(a[1..], b, kind);
    }
  }

  /** A body is collected exactly when some line of that kind carries it. */
  lemma {:induction false} OfKindMembers(docs: seq<Doc>, kind: Kind, b: Body)
    ensures b in OfKind(docs, kind) <==> exists i :: 0 <= i < |docs| && docs[i].kind == kind && docs[i].body == b
    ensures |OfKind(docs, kind)| <= |docs|
  {
    if docs != [] {
      OfKindMembers(docs[1..], kind, b);
      if exists i :: 0 <= i < |docs| && docs[i].kind == kind && docs[i].body == b {
        var i :| 0 <= i < |docs| && docs[i].kind == kind && docs[i].body == b;
        if i > 0 { assert docs[1..][i - 1] == docs[i]; }
      }
      if b in OfKind(docs[1..], kind) {
        var i :| 0 <= i < |docs[1..]| && docs[1..][i].kind == kind && docs[1..][i].body == b;
        assert docs[i + 1] == docs[1..][i];
      }
    }
  }

  /** `_get_event_descriptors`: appends the body of every descriptor line. */
  method CollectDescriptors(docs: seq<Doc>) returns (descriptors: seq<Body>)
    ensures descriptors == OfKind(docs, Descriptor)
  {
    descriptors := [];
    var i := 0;
    while i < |docs|
      invariant 0 <= i <= |docs|
      invariant descriptors == OfKind(docs[..i], Descriptor)
    {
      OfKindAppend(docs[..i], [docs[i]], Descriptor);
      assert docs[..i + 1] == docs[..i] + [docs[i]];
      if docs[i].kind == Descriptor {
        descriptors := descriptors + [docs[i].body];
      }
      i := i + 1;
    }
    assert docs[..i] == docs;
  }

  /**
   * `_get_run_stop`: only the last line is parsed; its body is the stop document when
   * it is named 'stop'. A file without lines has no last line: `readlines()[-1]` raises.
   */
  function LastStop(docs: seq<Doc>): (r: Result<Option<Body>>)
  {
    if docs == [] then Err(IndexError)
    else if docs[|docs| - 1].kind == Stop then Ok(Some(docs[|docs| - 1].body))
    else Ok(None)
  }

  /** No line but the last affects the stop lookup, and a stop found is a stop line of the file. */
  lemma StopDependsOnLastLineOnly(earlier: seq<Doc>, other: seq<Doc>, last: Doc)
    ensures LastStop(earlier + [last]) == LastStop(other + [last])
    ensures LastStop(earlier + [last]).Ok?
    ensures LastStop(earlier + [last]).value.Some? <==> last.kind == Stop
  {
  }
}
