/**
 * The run index of the JSON-lines catalog: the two dictionaries `_runs`
 * (uid -> file) and `_run_starts` (uid -> start document) and how
 * `_update_index` fills them from the first line of every file.
 */
module JsonlIndex {
  import opened Documents

  /** The files the catalog can open, each already parsed into its documents. */
  type FileSystem = map<Path, seq<Doc>>

  /** The query matcher `Query(query).match(doc)`, a foreign library taken as a parameter. */
  type Matcher = (Json, Body) -> bool

  /**
   * `query or {}`: a truthy query is kept, and the only falsy query the
   * catalog ever holds is the empty one, which matches everything.
   */
  function NormalizeQuery(q: Json): (r: Json)
    ensures Truthy(r) <==> Truthy(q)
    ensures Truthy(q) ==> r == q
    ensures !Truthy(r) ==> r == Obj(map[])
  {
    if Truthy(q) then q else Obj(map[])
  }

  /** `{'$and': [q1, q2]}` */
  function AndQuery(q1: Json, q2: Json): (r: Json)
    ensures Truthy(r)
  {
    var fields := map["$and" := Arr([q1, q2])];
    assert "$and" in fields;
    Obj(fields)
  }

  /**
   * ASSUMPTION about the foreign matcher, used only by the lemmas about `search`:
   * the empty query matches every document and `$and` of two queries matches
   * exactly the documents both match.
   */
  ghost predicate MatcherHonoursAnd(m: Matcher)
  {
    && (forall b :: m(Obj(map[]), b))
    && (forall q1, q2, b :: m(AndQuery(q1, q2), b) == (m(q1, b) && m(q2, b)))
  }

  /** A catalog opened with a falsy query (None, `{}`, ...) keeps every start document it reads. */
  lemma FalsyQueryMatchesAll(q: Json, m: Matcher, b: Body)
    requires MatcherHonoursAnd(m) && !Truthy(q)
    ensures m(NormalizeQuery(q), b)
  {
  }

  datatype IndexState = IndexState(runs: map<Json, Path>, starts: map<Json, Body>)

  const EmptyIndex := IndexState(map[], map[])

  /** The state after indexing, and the exception that stopped it, if any. */
  datatype Indexed = Indexed(state: IndexState, failure: Option<Error>)

  /** File `path` opens, its first document is `start`, it matches `q`, and its start uid is `uid`. */
  predicate Registers(fs: FileSystem, path: Path, q: Json, m: Matcher, uid: Json)
  {
    && path in fs && fs[path] != []
    && fs[path][0].kind == Start
    && m(q, fs[path][0].body)
    && "uid" in fs[path][0].body && fs[path][0].body["uid"] == uid
  }

  /** The index invariant: both maps have the same keys and every entry comes from its file's start line. */
  ghost predicate Consistent(st: IndexState, fs: FileSystem, q: Json, m: Matcher)
  {
    && st.runs.Keys == st.starts.Keys
    && forall u :: u in st.runs ==>
         Registers(fs, st.runs[u], q, m, u) && st.starts[u] == fs[st.runs[u]][0].body
  }

  /** One iteration of the `_update_index` loop: open, read the first line, check it, match it, register it. */
  function Step(st: IndexState, path: Path, fs: FileSystem, q: Json, m: Matcher): (r: Result<IndexState>)
    ensures r.Ok? && r.value != st ==>
      path in fs && fs[path] != [] && "uid" in fs[path][0].body
      && Registers(fs, path, q, m, fs[path][0].body["uid"])
      && r.value.runs == st.runs[fs[path][0].body["uid"] := path]
      && r.value.starts == st.starts[fs[path][0].body["uid"] := fs[path][0].body]
  {
    if path !in fs then Err(FileNotFound(path))
    else if fs[path] == [] then Err(EmptyFile)
    else
      var first := fs[path][0];
      if first.kind != Start then Err(InvalidRunFile(path))
      else if !m(q, first.body) then Ok(st)
      else if "uid" !in first.body then Err(KeyError)
      else Ok(IndexState(st.runs[first.body["uid"] := path], st.starts[first.body["uid"] := first.body]))
  }

  /** `_update_index(file_list)`: the steps in list order; the first exception ends the loop. */
  function Index(st: IndexState, files: seq<Path>, fs: FileSystem, q: Json, m: Matcher): Indexed
    decreases |files|
  {
    if files == [] then Indexed(st, None)
    else match Step(st, files[0], fs, q, m)
      case Err(e) => Indexed(st, Some(e))
      case Ok(next) => Index(next, files[1..], fs, q, m)
  }

  /** One step that raises nothing keeps the invariant. */
  lemma StepKeepsConsistent(st: IndexState, path: Path, fs: FileSystem, q: Json, m: Matcher)
    requires Consistent(st, fs, q, m) && Step(st, path, fs, q, m).Ok?
    ensures Consistent(Step(st, path, fs, q, m).value, fs, q, m)
  {
  }

  /** Indexing keeps the invariant, also when it stops on an exception. */
  lemma {:induction false} IndexKeepsConsistent(st: IndexState, files: seq<Path>, fs: FileSystem, q: Json, m: Matcher)
    requires Consistent(st, fs, q, m)
    ensures Consistent(Index(st, files, fs, q, m).state, fs, q, m)
    decreases |files|
  {
    if files != [] {
      match Step(st, files[0], fs, q, m)
      case Err(_) =>
      case Ok(next) =>
        StepKeepsConsistent(st, files[0], fs, q, m);
        IndexKeepsConsistent(next, files[1..], fs, q, m);
    }
  }

  /** Indexing `a + b` indexes `a`, then `b` only if `a` raised nothing. */
  lemma {:induction false} IndexAppend(st: IndexState, a: seq<Path>, b: seq<Path>, fs: FileSystem, q: Json, m: Matcher)
    ensures Index(st, a + b, fs, q, m) ==
      var first := Index(st, a, fs, q, m);
      if first.failure.None? then Index(first.state, b, fs, q, m) else first
    decreases |a|
  {
    if a == [] {
      assert a + b == b;
    } else {
      assert (a + b)[1..] == a[1..] + b;
      match Step(st, a[0], fs, q, m)
      case Err(_) =>
      case Ok(next) => IndexAppend(next, a[1..], b, fs, q, m);
    }
  }

  /**
   * A file whose first document is not `start` raises InvalidRunFile: the runs of the
   * files before it stay registered and the files after it are never opened.
   */
  lemma InvalidFileStopsIndexing(st: IndexState, files: seq<Path>, k: nat, fs: FileSystem, q: Json, m: Matcher)
    requires k < |files| && Index(st, files[..k], fs, q, m).failure.None?
    requires files[k] in fs && fs[files[k]] != [] && fs[files[k]][0].kind != Start
    ensures Index(st, files, fs, q, m) ==
      Indexed(Index(st, files[..k], fs, q, m).state, Some(InvalidRunFile(files[k])))
  {
    assert files == files[..k] + files[k..];
    IndexAppend(st, files[..k], files[k..], fs, q, m);
  }

  /** Files that never register `uid` leave its entry (or its absence) untouched. */
  lemma {:induction false} IndexLeavesOthers(st: IndexState, files: seq<Path>, fs: FileSystem, q: Json, m: Matcher, uid: Json)
    requires forall j :: 0 <= j < |files| ==> !Registers(fs, files[j], q, m, uid)
    ensures var r := Index(st, files, fs, q, m).state;
      && (uid in r.runs <==> uid in st.runs) && (uid in r.starts <==> uid in st.starts)
      && (uid in st.runs ==> r.runs[uid] == st.runs[uid])
      && (uid in st.starts ==> r.starts[uid] == st.starts[uid])
    decreases |files|
  {
    if files != [] {
      match Step(st, files[0], fs, q, m)
      case Err(_) =>
      case Ok(next) =>
        IndexLeavesOthers(next, files[1..], fs, q, m, uid);
    }
  }

  /**
   * Last file wins: when several matching files share a uid and indexing raised nothing,
   * the uid maps to the last such file and to that file's start document.
   */
  lemma {:induction false} LastFileWins(st: IndexState, files: seq<Path>, i: nat, fs: FileSystem, q: Json, m: Matcher, uid: Json)
    requires Index(st, files, fs, q, m).failure.None?
    requires i < |files| && Registers(fs, files[i], q, m, uid)
    requires forall j :: i < j < |files| ==> !Registers(fs, files[j], q, m, uid)
    ensures uid in Index(st, files, fs, q, m).state.runs
    ensures Index(st, files, fs, q, m).state.runs[uid] == files[i]
    ensures uid in Index(st, files, fs, q, m).state.starts
    ensures Index(st, files, fs, q, m).state.starts[uid] == fs[files[i]][0].body
    decreases |files|
  {
    var next := Step(st, files[0], fs, q, m).value;
    if i == 0 {
      IndexLeavesOthers(next, files[1..], fs, q, m, uid);
    } else {
      LastFileWins(next, files[1..], i - 1, fs, q, m, uid);
    }
  }

  /** After indexing without an exception, a uid is registered iff it was already or some listed file registers it. */
  lemma {:induction false} IndexMembership(st: IndexState, files: seq<Path>, fs: FileSystem, q: Json, m: Matcher, uid: Json)
    requires Index(st, files, fs, q, m).failure.None?
    ensures uid in Index(st, files, fs, q, m).state.runs <==>
      uid in st.runs || exists j :: 0 <= j < |files| && Registers(fs, files[j], q, m, uid)
    decreases |files|
  {
    if files != [] {
      var next := Step(st, files[0], fs, q, m).value;
      assert Index(st, files, fs, q, m) == Index(next, files[1..], fs, q, m);
      IndexMembership(next, files[1..], fs, q, m, uid);
      StepMembership(st, files[0], fs, q, m, uid);
      SomeFileRegistersCons(files, fs, q, m, uid);
    }
  }

  /** A step that raises nothing registers `uid` exactly when its file registers it. */
  lemma StepMembership(st: IndexState, path: Path, fs: FileSystem, q: Json, m: Matcher, uid: Json)
    requires Step(st, path, fs, q, m).Ok?
    ensures uid in Step(st, path, fs, q, m).value.runs <==> uid in st.runs || Registers(fs, path, q, m, uid)
  {
  }

  lemma SomeFileRegistersCons(files: seq<Path>, fs: FileSystem, q: Json, m: Matcher, uid: Json)
    requires files != []
    ensures (exists j :: 0 <= j < |files| && Registers(fs, files[j], q, m, uid)) <==>
            Registers(fs, files[0], q, m, uid) || exists j :: 0 <= j < |files[1..]| && Registers(fs, files[1..][j], q, m, uid)
  {
    if exists j :: 0 <= j < |files| && Registers(fs, files[j], q, m, uid) {
      var j :| 0 <= j < |files| && Registers(fs, files[j], q, m, uid);
      if j > 0 { assert files[1..][j - 1] == files[j]; }
    }
    if exists j :: 0 <= j < |files[1..]| && Registers(fs, files[1..][j], q, m, uid) {
      var j :| 0 <= j < |files[1..]| && Registers(fs, files[1..][j], q, m, uid);
      assert files[j + 1] == files[1..][j];
    }
  }

  // ---------------------------------------------------------------------------
  // Re-indexing the files of an existing index (what `search` does)

  /** The entries of `parent` whose file is among `files` and whose start document matches `q`. */
  function Reached(parent: IndexState, files: seq<Path>, q: Json, m: Matcher): IndexState
  {
    var keep := ReachedKeys(parent, files, q, m);
    IndexState(map u | u in keep :: parent.runs[u], map u | u in keep :: parent.starts[u])
  }

  function NarrowKeys(parent: IndexState, q: Json, m: Matcher): set<Json>
  {
    set u | u in parent.runs && u in parent.starts && m(q, parent.starts[u])
  }

  /** The entries of `parent` whose start document matches `q`. */
  function Narrow(parent: IndexState, q: Json, m: Matcher): (r: IndexState)
    ensures r.runs.Keys <= parent.runs.Keys
    ensures forall u :: u in r.runs ==> r.runs[u] == parent.runs[u]
  {
    var keep := NarrowKeys(parent, q, m);
    IndexState(map u | u in keep :: parent.runs[u], map u | u in keep :: parent.starts[u])
  }

  /** `t` written over `s`, key by key. */
  function Overlay(s: IndexState, t: IndexState): IndexState
  {
    IndexState(s.runs + t.runs, s.starts + t.starts)
  }

  lemma OverlayUpdate<V>(a: map<Json, V>, b: map<Json, V>, k: Json, v: V)
    requires k in b ==> b[k] == v
    ensures a[k := v] + b == a + b[k := v]
  {
  }

  /** The entries of `parent` whose file is among `files` and whose start document matches `q`. */
  function ReachedKeys(parent: IndexState, files: seq<Path>, q: Json, m: Matcher): set<Json>
  {
    set u | u in parent.runs && u in parent.starts && parent.runs[u] in files && m(q, parent.starts[u])
  }

  /** The uid of the first file is the only key whose entry it is. */
  lemma ReachedKeysCons(parent: IndexState, q0: Json, fs: FileSystem, m: Matcher, files: seq<Path>, q: Json, u0: Json)
    requires Consistent(parent, fs, q0, m)
    requires files != [] && u0 in parent.runs && parent.runs[u0] == files[0]
    ensures ReachedKeys(parent, files, q, m) ==
      ReachedKeys(parent, files[1..], q, m) + (if m(q, parent.starts[u0]) then {u0} else {})
  {
    var all, rest := ReachedKeys(parent, files, q, m), ReachedKeys(parent, files[1..], q, m);
    forall u | u in all ensures u in rest || (u == u0 && m(q, parent.starts[u0])) {
      if parent.runs[u] == files[0] {
        assert Registers(fs, parent.runs[u], q0, m, u);
      } else {
        var j :| 0 <= j < |files| && files[j] == parent.runs[u];
        assert files[1..][j - 1] == files[j];
      }
    }
    forall u | u in rest ensures u in all {
      var j :| 0 <= j < |files[1..]| && files[1..][j] == parent.runs[u];
      assert files[j + 1] == files[1..][j];
    }
  }

  lemma ReachedCons(parent: IndexState, q0: Json, fs: FileSystem, m: Matcher, files: seq<Path>, q: Json, u0: Json)
    requires Consistent(parent, fs, q0, m)
    requires files != [] && u0 in parent.runs && parent.runs[u0] == files[0]
    ensures var all, rest := Reached(parent, files, q, m), Reached(parent, files[1..], q, m);
      if m(q, parent.starts[u0])
      then all == IndexState(rest.runs[u0 := files[0]], rest.starts[u0 := parent.starts[u0]])
      else all == rest
  {
    ReachedKeysCons(parent, q0, fs, m, files, q, u0);
    var keep, rest := ReachedKeys(parent, files, q, m), ReachedKeys(parent, files[1..], q, m);
    if m(q, parent.starts[u0]) {
      RestrictInsert(parent.runs, keep, rest, u0);
      RestrictInsert(parent.starts, keep, rest, u0);
    }
  }

  /** Restricting a map to one more key adds that key's entry. */
  lemma RestrictInsert<V>(src: map<Json, V>, keep: set<Json>, rest: set<Json>, u0: Json)
    requires keep == rest + {u0} && keep <= src.Keys
    ensures (map u | u in keep :: src[u]) == (map u | u in rest :: src[u])[u0 := src[u0]]
  {
  }

  /**
   * Re-indexing files taken from a consistent index never raises, and registers exactly
   * the entries of those files whose start document matches the new query. Each such
   * file carries one uid, so the order of the files does not matter.
   */
  lemma {:induction false} ReindexFrom(parent: IndexState, q0: Json, fs: FileSystem, m: Matcher,
                                       s: IndexState, files: seq<Path>, q: Json)
    requires Consistent(parent, fs, q0, m)
    requires forall j :: 0 <= j < |files| ==> files[j] in parent.runs.Values
    ensures Index(s, files, fs, q, m) == Indexed(Overlay(s, Reached(parent, files, q, m)), None)
    decreases |files|
  {
    if files == [] {
      assert Reached(parent, files, q, m) == EmptyIndex;
    } else {
      var p := files[0];
      var u0 := ReindexStep(parent, q0, fs, m, s, p, q);
      var body := parent.starts[u0];
      var s1 := if m(q, body) then IndexState(s.runs[u0 := p], s.starts[u0 := body]) else s;
      forall j | 0 <= j < |files[1..]| ensures files[1..][j] in parent.runs.Values {
        assert files[1..][j] == files[j + 1];
      }
      assert Index(s, files, fs, q, m) == Index(s1, files[1..], fs, q, m);
      ReindexFrom(parent, q0, fs, m, s1, files[1..], q);
      ReachedCons(parent, q0, fs, m, files, q, u0);
      var rest := Reached(parent, files[1..], q, m);
      if m(q, body) {
        assert u0 in rest.runs ==> rest.runs[u0] == p && rest.starts[u0] == body;
        OverlayCons(s, rest, u0, p, body);
      }
      assert Overlay(s1, rest) == Overlay(s, Reached(parent, files, q, m));
    }
  }

  /** Re-indexing a file of a consistent index registers its uid again exactly when its start document matches. */
  lemma ReindexStep(parent: IndexState, q0: Json, fs: FileSystem, m: Matcher, s: IndexState, p: Path, q: Json)
    returns (u0: Json)
    requires Consistent(parent, fs, q0, m) && p in parent.runs.Values
    ensures u0 in parent.runs && parent.runs[u0] == p
    ensures Step(s, p, fs, q, m) ==
      Ok(if m(q, parent.starts[u0]) then IndexState(s.runs[u0 := p], s.starts[u0 := parent.starts[u0]]) else s)
  {
    u0 :| u0 in parent.runs && parent.runs[u0] == p;
    assert Registers(fs, p, q0, m, u0);
  }

  /** Registering an entry and then overlaying the rest is overlaying the rest with that entry added. */
  lemma OverlayCons(s: IndexState, rest: IndexState, u0: Json, p: Path, body: Body)
    requires u0 in rest.runs ==> rest.runs[u0] == p
    requires u0 in rest.starts ==> rest.starts[u0] == body
    ensures Overlay(IndexState(s.runs[u0 := p], s.starts[u0 := body]), rest) ==
            Overlay(s, IndexState(rest.runs[u0 := p], rest.starts[u0 := body]))
  {
    OverlayUpdate(s.runs, rest.runs, u0, p);
    OverlayUpdate(s.starts, rest.starts, u0, body);
  }

  /** Re-indexing all files of a consistent index with query `q` yields its entries that match `q`, and no exception. */
  lemma ReindexNarrows(parent: IndexState, q0: Json, fs: FileSystem, m: Matcher, files: seq<Path>, q: Json)
    requires Consistent(parent, fs, q0, m)
    requires forall p :: p in files <==> p in parent.runs.Values
    ensures Index(EmptyIndex, files, fs, q, m) == Indexed(Narrow(parent, q, m), None)
  {
    ReindexFrom(parent, q0, fs, m, EmptyIndex, files, q);
    var reached := Reached(parent, files, q, m);
    ReachedAllIsNarrow(parent, files, q, m);
    assert reached == Narrow(parent, q, m);
    OverlayOnEmpty(reached);
  }

  lemma OverlayOnEmpty(t: IndexState)
    ensures Overlay(EmptyIndex, t) == t
  {
    assert map[] + t.runs == t.runs;
    assert map[] + t.starts == t.starts;
  }

  lemma ReachedAllIsNarrow(parent: IndexState, files: seq<Path>, q: Json, m: Matcher)
    requires forall p :: p in files <==> p in parent.runs.Values
    ensures ReachedKeys(parent, files, q, m) == NarrowKeys(parent, q, m)
  {
    forall u | u in NarrowKeys(parent, q, m) ensures u in ReachedKeys(parent, files, q, m) {
      assert parent.runs[u] in parent.runs.Values;
    }
  }

  // ---------------------------------------------------------------------------
  // The query of a sub-catalog

  /** `search`: the current query is wrapped in `$and` with the new one only when it is non-empty. */
  function SearchQuery(current: Json, q: Json): Json
  {
    if Truthy(current) then AndQuery(current, q) else q
  }

  /**
   * The query a sub-catalog holds (assuming the matcher honours `$and`) matches
   * a document iff the catalog's own query does and so does the new one; the
   * new one is normalised to `{}` first only when the catalog's query is empty.
   */
  lemma SearchQueryMatches(current: Json, q: Json, m: Matcher, b: Body)
    requires MatcherHonoursAnd(m)
    ensures m(NormalizeQuery(SearchQuery(current, q)), b) <==>
              m(NormalizeQuery(current), b) && m(if Truthy(current) then q else NormalizeQuery(q), b)
  {
  }

  /**
   * `search` only narrows (assuming the matcher honours `$and`): a run stays in the
   * sub-catalog iff it is in the catalog and its start document matches the new query
   * (normalised to `{}` when the catalog's own query is empty and the new one is falsy).
   */
  lemma SearchOnlyNarrows(parent: IndexState, q0: Json, fs: FileSystem, m: Matcher, q: Json, u: Json)
    requires MatcherHonoursAnd(m)
    requires Consistent(parent, fs, q0, m) && q0 == NormalizeQuery(q0)
    ensures var child := Narrow(parent, NormalizeQuery(SearchQuery(q0, q)), m);
      && (u in child.runs <==> u in parent.runs && m(if Truthy(q0) then q else NormalizeQuery(q), parent.starts[u]))
      && (u in child.runs ==> child.runs[u] == parent.runs[u] && child.starts[u] == parent.starts[u])
  {
    if u in parent.runs {
      assert Registers(fs, parent.runs[u], q0, m, u);
      assert Truthy(AndQuery(q0, q));
    }
  }

  /**
   * Searching with a truthy `f1` and then with any `f2` from an unfiltered
   * catalog keeps what one search with `$and` of both keeps.
   */
  lemma SearchTwiceIsConjunction(parent: IndexState, m: Matcher, f1: Json, f2: Json)
    requires MatcherHonoursAnd(m)
    requires Truthy(f1)
    ensures var child := Narrow(parent, NormalizeQuery(SearchQuery(Obj(map[]), f1)), m);
      Narrow(child, NormalizeQuery(SearchQuery(f1, f2)), m) == Narrow(parent, AndQuery(f1, f2), m)
  {
    var child := Narrow(parent, f1, m);
    assert NormalizeQuery(SearchQuery(Obj(map[]), f1)) == f1;
    assert Truthy(AndQuery(f1, f2));
    var both := AndQuery(f1, f2);
    forall u ensures u in NarrowKeys(child, both, m) <==> u in NarrowKeys(parent, both, m) {
      if u in parent.runs && u in parent.starts {
        assert m(both, parent.starts[u]) == (m(f1, parent.starts[u]) && m(f2, parent.starts[u]));
      }
    }
    assert NarrowKeys(child, both, m) == NarrowKeys(parent, both, m);
    NarrowOfSubIndex(child, parent, both, m);
  }

  /** Narrowing an index whose entries are all entries of `parent` to the same keys gives the same result. */
  lemma NarrowOfSubIndex(child: IndexState, parent: IndexState, q: Json, m: Matcher)
    requires NarrowKeys(child, q, m) == NarrowKeys(parent, q, m)
    requires forall u :: u in NarrowKeys(child, q, m) ==> child.runs[u] == parent.runs[u] && child.starts[u] == parent.starts[u]
    ensures Narrow(child, q, m) == Narrow(parent, q, m)
  {
  }
}
