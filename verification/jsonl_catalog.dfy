/**
 * `BlueskyJSONLCatalog`: a catalog of runs backed by newline-delimited JSON files.
 * The two index dictionaries are fields that `UpdateIndex` updates in place; every
 * accessor re-opens one run's file and scans it with the loops of `RunFile`.
 */
module JsonlCatalog {
  import opened Documents
  import opened RunFile
  import opened JsonlIndex
  import IntLiteral

  class Catalog {
    /** `_runs`: run start uid -> file path. */
    var runs: map<Json, Path>
    /** `_run_starts`: run start uid -> run start document. */
    var runStarts: map<Json, Body>
    /** `_query`, already normalised by `query or {}`. */
    const query: Json
    /** The files this catalog can open. */
    const fs: FileSystem
    /** `Query(...).match`, the foreign matcher. */
    const matcher: Matcher

    ghost predicate Valid()
      reads this
    {
      Consistent(IndexState(runs, runStarts), fs, query, matcher)
    }

    /** The part of `__init__` that runs before `_update_index`. */
    constructor (query: Json, fs: FileSystem, matcher: Matcher)
      ensures Valid()
      ensures runs == map[] && runStarts == map[]
      ensures this.query == NormalizeQuery(query) && this.fs == fs && this.matcher == matcher
    {
      this.query := NormalizeQuery(query);
      this.fs := fs;
      this.matcher := matcher;
      runs := map[];
      runStarts := map[];
    }

    /** `_update_index`: registers each matching file's start document; the first exception stops the loop. */
    method UpdateIndex(fileList: seq<Path>) returns (failure: Option<Error>)
      requires Valid()
      modifies this
      ensures Valid()
      ensures Indexed(IndexState(runs, runStarts), failure) ==
        Index(old(IndexState(runs, runStarts)), fileList, fs, query, matcher)
    {
      var i := 0;
      while i < |fileList|
        invariant 0 <= i <= |fileList|
        invariant Valid()
        invariant Index(old(IndexState(runs, runStarts)), fileList, fs, query, matcher) ==
          Index(IndexState(runs, runStarts), fileList[i..], fs, query, matcher)
      {
        assert fileList[i..][1..] == fileList[i + 1..];
        ghost var before := IndexState(runs, runStarts);
        var runFile := fileList[i];
        if runFile !in fs {
          return Some(FileNotFound(runFile));
        }
        var docs := fs[runFile];
        if docs == [] {
          return Some(EmptyFile);
        }
        var name, runStartDoc := docs[0].kind, docs[0].body;
        if name != Start {
          return Some(InvalidRunFile(runFile));
        }
        if matcher(query, runStartDoc) {
          if "uid" !in runStartDoc {
            return Some(KeyError);
          }
          var runStartUid := runStartDoc["uid"];
          runs := runs[runStartUid := runFile];
          runStarts := runStarts[runStartUid := runStartDoc];
        }
        assert Step(before, runFile, fs, query, matcher) == Ok(IndexState(runs, runStarts));
        StepKeepsConsistent(before, runFile, fs, query, matcher);
        i := i + 1;
      }
      failure := None;
    }

    /** `__init__`: a catalog over `fileList`, or the exception that aborted its construction. */
    static method Open(fileList: seq<Path>, query: Json, fs: FileSystem, matcher: Matcher) returns (r: Result<Catalog>)
      ensures r.Ok? ==> fresh(r.value) && r.value.Valid()
      ensures r.Ok? ==> r.value.query == NormalizeQuery(query) && r.value.fs == fs && r.value.matcher == matcher
      ensures var built := Index(EmptyIndex, fileList, fs, NormalizeQuery(query), matcher);
        && (r.Ok? <==> built.failure.None?)
        && (r.Ok? ==> IndexState(r.value.runs, r.value.runStarts) == built.state)
        && (r.Err? ==> Some(r.error) == built.failure)
    {
      var c := new Catalog(query, fs, matcher);
      var failure := c.UpdateIndex(fileList);
      if failure.Some? {
        return Err(failure.value);
      }
      r := Ok(c);
    }

    /** `open(self._runs[uid])`: KeyError for an unknown uid, FileNotFoundError for a missing file. */
    function RunDocs(uid: Json): (r: Result<seq<Doc>>)
      reads this
      ensures Valid() && uid in runs ==> r.Ok? && r.value != [] && r.value[0] == Doc(Start, runStarts[uid])
      ensures uid !in runs ==> r == Err(KeyError)
    {
      if uid !in runs then Err(KeyError)
      else if runs[uid] !in fs then Err(FileNotFound(runs[uid]))
      else Ok(fs[runs[uid]])
    }

    /** `_get_run_stop`: the stop document of an indexed run, or None when its last line is not a stop. */
    function GetRunStop(uid: Json): (r: Result<Option<Body>>)
      reads this
      ensures Valid() && uid in runs ==> r.Ok?
      ensures RunDocs(uid).Err? ==> r == Err(RunDocs(uid).error)
      ensures RunDocs(uid).Ok? ==> r == LastStop(RunDocs(uid).value)
      ensures r.Ok? && r.value.Some? ==>
        RunDocs(uid).Ok? && |RunDocs(uid).value| > 0 &&
        RunDocs(uid).value[|RunDocs(uid).value| - 1] == Doc(Stop, r.value.value)
    {
      match RunDocs(uid)
      case Err(e) => Err(e)
      case Ok(docs) => LastStop(docs)
    }

    /** `_get_event_descriptors`: the descriptor bodies of the run, in file order. */
    method GetEventDescriptors(uid: Json) returns (r: Result<seq<Body>>)
      ensures r.Ok? <==> RunDocs(uid).Ok?
      ensures r.Ok? ==> r.value == OfKind(RunDocs(uid).value, Descriptor)
      ensures r.Err? ==> r.error == RunDocs(uid).error
    {
      var docs := RunDocs(uid);
      if docs.Err? {
        return Err(docs.error);
      }
      var descriptors := CollectDescriptors(docs.value);
      r := Ok(descriptors);
    }

    /** `_get_event_cursor`: the events of the given descriptors whose match ordinal lies in `[skip, limit)`. */
    method GetEventCursor(uid: Json, descriptorUids: seq<Json>, skip: int, limit: Option<int>) returns (r: Result<seq<Body>>)
      ensures RunDocs(uid).Err? ==> r == Err(RunDocs(uid).error)
      ensures RunDocs(uid).Ok? ==> r == Cursor(RunDocs(uid).value, EventsOf(set u | u in descriptorUids), skip, limit, 0)
    {
      var descriptorSet := set u | u in descriptorUids;
      var docs := RunDocs(uid);
      if docs.Err? {
        return Err(docs.error);
      }
      r := Paginate(docs.value, EventsOf(descriptorSet), skip, limit);
    }

    /** `_get_event_count`: the number of events of the given descriptors, by a full scan. */
    method GetEventCount(uid: Json, descriptorUids: seq<Json>) returns (r: Result<nat>)
      ensures RunDocs(uid).Err? ==> r == Err(RunDocs(uid).error)
      ensures RunDocs(uid).Ok? ==>
        var hits := Hits(RunDocs(uid).value, EventsOf(set u | u in descriptorUids));
        (r.Ok? <==> hits.Ok?) && (r.Ok? ==> r.value == |hits.value|) && (r.Err? ==> r.error == hits.error)
    {
      var descriptorSet := set u | u in descriptorUids;
      var docs := RunDocs(uid);
      if docs.Err? {
        return Err(docs.error);
      }
      r := CountMatches(docs.value, EventsOf(descriptorSet));
    }

    /** `_get_resource`: the first resource document whose uid is `resourceUid`. */
    method GetResource(uid: Json, resourceUid: Json) returns (r: Result<Body>)
      ensures RunDocs(uid).Err? ==> r == Err(RunDocs(uid).error)
      ensures RunDocs(uid).Ok? ==> r == FindFirst(RunDocs(uid).value, ResourceWithUid(resourceUid))
    {
      var docs := RunDocs(uid);
      if docs.Err? {
        return Err(docs.error);
      }
      r := FirstMatch(docs.value, ResourceWithUid(resourceUid));
    }

    /** `_get_datum`: the first datum document whose datum_id is `datumId`. */
    method GetDatum(uid: Json, datumId: Json) returns (r: Result<Body>)
      ensures RunDocs(uid).Err? ==> r == Err(RunDocs(uid).error)
      ensures RunDocs(uid).Ok? ==> r == FindFirst(RunDocs(uid).value, DatumWithId(datumId))
    {
      var docs := RunDocs(uid);
      if docs.Err? {
        return Err(docs.error);
      }
      r := FirstMatch(docs.value, DatumWithId(datumId));
    }

    /** `_get_datum_cursor`: the datums of one resource whose match ordinal lies in `[skip, limit)`. */
    method GetDatumCursor(uid: Json, resourceUid: Json, skip: int, limit: Option<int>) returns (r: Result<seq<Body>>)
      ensures RunDocs(uid).Err? ==> r == Err(RunDocs(uid).error)
      ensures RunDocs(uid).Ok? ==> r == Cursor(RunDocs(uid).value, DatumsOf(resourceUid), skip, limit, 0)
    {
      var docs := RunDocs(uid);
      if docs.Err? {
        return Err(docs.error);
      }
      r := Paginate(docs.value, DatumsOf(resourceUid), skip, limit);
    }

    /** `search`: a new catalog over the files of this one, with the queries joined by `$and`. */
    method Search(q: Json) returns (cat: Catalog)
      requires Valid()
      ensures fresh(cat) && cat.Valid()
      ensures cat.query == NormalizeQuery(SearchQuery(query, q)) && cat.fs == fs && cat.matcher == matcher
      ensures IndexState(cat.runs, cat.runStarts) == Narrow(IndexState(runs, runStarts), cat.query, matcher)
    {
      // list(self._runs.values()), in some order
      var remaining := runs.Values;
      var fileList: seq<Path> := [];
      while remaining != {}
        invariant forall p :: p in fileList || p in remaining <==> p in runs.Values
        decreases remaining
      {
        var p :| p in remaining;
        fileList := fileList + [p];
        remaining := remaining - {p};
      }
      cat := new Catalog(SearchQuery(query, q), fs, matcher);
      ReindexNarrows(IndexState(runs, runStarts), query, fs, matcher, fileList, cat.query);
      var failure := cat.UpdateIndex(fileList);
    }
  }

  /** The metadata of one catalog entry: its name (the uid) and the run's start and stop documents. */
  datatype Entry = Entry(uid: Json, start: Body, stop: Option<Body>)

  /** A key given to the entries mapping: a string, or an integer from a client asking by position. */
  datatype Key = IntKey(i: int) | StrKey(s: string)

  /** `Entries`: the dict-like view of a catalog's index. */
  class Entries {
    const catalog: Catalog

    constructor (catalog: Catalog)
      ensures this.catalog == catalog
    {
      this.catalog := catalog;
    }

    /** `keys()` (and iteration): the uids of `_runs`. */
    function Keys(): (ks: set<Json>)
      reads catalog
      ensures catalog.Valid() ==> ks == catalog.runStarts.Keys
    {
      catalog.runs.Keys
    }

    /** `_doc_to_entry`: the entry of a run start document; reading the stop document may raise. */
    function DocToEntry(runStartDoc: Body): (r: Result<Entry>)
      reads catalog
      ensures r.Ok? ==> "uid" in runStartDoc && r.value.uid == runStartDoc["uid"] && r.value.start == runStartDoc
      ensures r.Ok? ==> catalog.GetRunStop(r.value.uid) == Ok(r.value.stop)
    {
      if "uid" !in runStartDoc then Err(KeyError)
      else match catalog.GetRunStop(runStartDoc["uid"])
        case Err(e) => Err(e)
        case Ok(stop) => Ok(Entry(runStartDoc["uid"], runStartDoc, stop))
    }

    /** `__getitem__`: names that `int()` accepts are refused, unknown uids raise KeyError. */
    function GetItem(name: Key): (r: Result<Entry>)
      reads catalog
      ensures name.IntKey? ==> r == Err(NotImplemented)
      ensures name.StrKey? && IntLiteral.IsIntLiteral(name.s) ==> r == Err(NotImplemented)
      ensures name.StrKey? && !IntLiteral.IsIntLiteral(name.s) && Str(name.s) !in catalog.runStarts ==> r == Err(KeyError)
      ensures catalog.Valid() && name.StrKey? && !IntLiteral.IsIntLiteral(name.s) && Str(name.s) in catalog.runStarts ==>
        r.Ok? && r.value.uid == Str(name.s) && r.value.start == catalog.runStarts[Str(name.s)] &&
        r == DocToEntry(catalog.runStarts[Str(name.s)]) && catalog.GetRunStop(Str(name.s)) == Ok(r.value.stop)
    {
      match name
      case IntKey(_) => Err(NotImplemented)
      case StrKey(s) =>
        if IntLiteral.IsIntLiteral(s) then Err(NotImplemented)
        else if Str(s) !in catalog.runStarts then Err(KeyError)
        else DocToEntry(catalog.runStarts[Str(s)])
    }

    /** `__contains__`: catches KeyError only, so a numeric name still raises NotImplementedError. */
    function Contains(key: Key): (r: Result<bool>)
      reads catalog
      ensures catalog.Valid() && key.StrKey? && !IntLiteral.IsIntLiteral(key.s) ==> r == Ok(Str(key.s) in catalog.runs)
      ensures key.IntKey? || IntLiteral.IsIntLiteral(key.s) ==> r == Err(NotImplemented)
    {
      match GetItem(key)
      case Ok(_) => Ok(true)
      case Err(e) => if e == KeyError then Ok(false) else Err(e)
    }

    /** `items()`, consumed to the end: the entry of every indexed run, keyed by uid. */
    method Items() returns (r: Result<map<Json, Entry>>)
      ensures r.Ok? ==> r.value.Keys == catalog.runStarts.Keys
      ensures r.Ok? ==> forall u :: u in r.value ==> DocToEntry(catalog.runStarts[u]) == Ok(r.value[u])
      ensures r.Err? ==> exists u :: u in catalog.runStarts && DocToEntry(catalog.runStarts[u]) == Err(r.error)
      ensures catalog.Valid() ==> r.Ok? && forall u :: u in r.value ==> r.value[u].uid == u
    {
      var remaining := catalog.runStarts.Keys;
      var out: map<Json, Entry> := map[];
      while remaining != {}
        invariant remaining <= catalog.runStarts.Keys
        invariant out.Keys == catalog.runStarts.Keys - remaining
        invariant forall u :: u in out ==> DocToEntry(catalog.runStarts[u]) == Ok(out[u])
        invariant catalog.Valid() ==> forall u :: u in out ==> out[u].uid == u
        decreases remaining
      {
        var uid :| uid in remaining;
        var entry := DocToEntry(catalog.runStarts[uid]);
        if entry.Err? {
          return Err(entry.error);
        }
        out := out[uid := entry.value];
        remaining := remaining - {uid};
      }
      r := Ok(out);
    }

    /** `values()`, consumed to the end: the entries of all indexed runs. */
    method Values() returns (r: Result<set<Entry>>)
      ensures r.Ok? ==> forall e :: e in r.value ==> exists u :: u in catalog.runStarts && DocToEntry(catalog.runStarts[u]) == Ok(e)
      ensures r.Ok? ==> forall u :: u in catalog.runStarts ==> DocToEntry(catalog.runStarts[u]).Ok? && DocToEntry(catalog.runStarts[u]).value in r.value
      ensures catalog.Valid() ==> r.Ok?
    {
      var items := Items();
      if items.Err? {
        return Err(items.error);
      }
      r := Ok(set u | u in items.value :: items.value[u]);
    }
  }
}
