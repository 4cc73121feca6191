# intake-bluesky run catalog, modelled in Dafny

This project models the core of intake-bluesky. It covers the JSON-lines catalog
(`BlueskyJSONLCatalog`), the per-run document reader (`RunCatalog`), and the
event-stream helpers that turn one stream of a run into columns.

- **Run file.** A file of newline-delimited JSON becomes a `seq<Doc>`. Each element is one parsed
  `[name, document]` line. Every accessor re-reads the file from its first line (`RunFile`).
  The accessors that loop over the lines are loops over the sequence, each proved equal to a
  recursive specification function:
  - `Hits`: the full scan.
  - `Cursor`: the paginated scan with its `skip_counter`.
  - `FindFirst`: the first-match lookup.
  - `OfKind`: the descriptor collection.

  `_get_run_stop` reads only the last line; it is the function `LastStop`, without a loop.

  Lemmas about these functions state what the accessors promise.
- **Catalog index.** `_runs` and `_run_starts` are two maps in a `Catalog` class (`JsonlCatalog`).
  - `_update_index` is a loop over the file list. It is proved equal to the recursive `Index`
    (`JsonlIndex`) and keeps the invariant `Consistent`: both maps have the same keys, and every
    entry comes from the first line of its file.
  - `search` builds a new catalog over the files of this one. It is proved to keep exactly the
    entries whose start document matches the joined query.
  - `Entries` is the dict-like view. Its `keys`, `values`, `items`, `__getitem__` and
    `__contains__` are modelled. `IntLiteral` models which names `int(name)` accepts.
- **Partitions.** `RunCatalog._load` counts the documents of a run and sets `npartitions`.
  `read_partition(i)` assembles one partition of at most 100 documents (`RunPartition`). It is
  modelled as written (`PartitionAsWritten`) and as intended (`Partition`); see Findings.
- **Event streams.** `EventStream` models:
  - the include/exclude selection of data keys from the first descriptor;
  - the keys each descriptor's data table is built from (see Findings);
  - the grouping of events by descriptor;
  - the scoping and selection of configuration keys;
  - `_transpose`.

Python's JSON values are the `Json` datatype. Exceptions are the constructors of `Error`, carried
in a `Result`:
- `KeyError`: a missing dictionary key.
- `IndexError`: `[-1]` or `[0]` of an empty list.
- `TypeError`: a JSON value that is not an object where one is indexed by a key.
- `FileNotFoundError`: `FileNotFound`.
- `NotImplementedError`: `NotImplemented`.
- `ValueError` and its subclasses, one constructor per place that raises it:
  - `InvalidRunFile`: a first line that is not a start document;
  - `NotFound`: no resource or datum with the given id;
  - `IncludeExcludeConflict`: `include` and `exclude` given together;
  - `EmptyFile`: `json.loads('')` of a file without a first line (a `JSONDecodeError`);
  - `NegativeSlice`: `islice` with a negative start.

The matcher `Query(q).match(doc)` of the mongoquery library is a function parameter of type
`(Json, Body) -> bool`. The lemmas about `search` assume only `MatcherHonoursAnd`: the empty query
matches everything, and `$and` is a conjunction.

Two behaviours of the code are worth stating plainly:
- **Cursor pagination.** `limit` bounds the match ordinal, not the number of documents yielded.
  A paginated cursor (`_get_event_cursor`, `_get_datum_cursor`) yields the matches whose ordinal
  lies in `[skip, limit)`, and stops after the match with ordinal `limit - 1`.
  `CursorIsWindow` and `PaginatedCursor` state this.
- **A file that is not a run file.** The exception ends `_update_index` with the runs of the
  earlier files still registered. The constructor then raises, so no caller sees that state.
  `InvalidFileStopsIndexing` and `Catalog.Open` state both.

## Model

| member | source | states |
|---|---|---|
| RunFile.Test | intake_bluesky/jsonl.py:85-123 | only a document of the selected kind is read; such a document without the tested key is a fault (KeyError), and a fault happens only then |
| RunFile.HitsAreMatches | intake_bluesky/jsonl.py:92-100 | a full scan that raises nothing has no faulting line; a body is in its result iff some line of the file matches with that body; there are at most as many results as lines |
| RunFile.HitsAppend | intake_bluesky/jsonl.py:95-99 | scanning `a + b` is scanning `a`, then `b` unless `a` raised |
| RunFile.CountMatches | intake_bluesky/jsonl.py:92-100 | the counting loop succeeds iff the full scan does, and then returns its length; otherwise it raises the scan's error |
| RunFile.WindowOrdinals | intake_bluesky/jsonl.py:86 | the window keeps exactly the match ordinals `i` with `skip <= i` and (`limit` None or `i < limit`), contiguously and in order |
| RunFile.WindowEmpty | intake_bluesky/jsonl.py:86-90 | a limit at or below the skip yields nothing |
| RunFile.WindowFirstOnly | intake_bluesky/jsonl.py:86-90 | a limit of at most 1 keeps at most the first match, and only when the skip allows it |
| RunFile.WindowCons | intake_bluesky/jsonl.py:86-88 | the window is the first match when it is kept, followed by the window of the remaining matches one ordinal on |
| RunFile.CursorIsWindow | intake_bluesky/jsonl.py:79-90 | on a file without faults, the cursor started at `counter` yields exactly the window of the matches between `skip` and `limit`, both shifted by `counter`; the early break loses nothing |
| RunFile.PaginatedCursor | intake_bluesky/jsonl.py:79-90 | `_get_event_cursor(skip, limit)` over a file without faults yields the `[skip, limit)` window of the match sequence |
| RunFile.UnpaginatedCursorIsFullScan | intake_bluesky/jsonl.py:79-100 | with `skip=0` and no limit the cursor is the full scan, error for error, so the event count equals the number of events the cursor yields |
| RunFile.Paginate | intake_bluesky/jsonl.py:79-90 | the cursor loop with its `skip_counter` and early break returns what the recursive cursor specification returns |
| RunFile.FindFirstIsFirstMatch | intake_bluesky/jsonl.py:102-108 | the lookup returns the body of the first matching line, whatever follows it |
| RunFile.NotFoundIffNoMatch | intake_bluesky/jsonl.py:102-116 | the lookup raises NotFound exactly when no line matches and no line faults |
| RunFile.FoundBodyMatches | intake_bluesky/jsonl.py:110-116 | a successful lookup returns the body of some matching line |
| RunFile.FirstMatch | intake_bluesky/jsonl.py:102-116 | the lookup loop returns on the first match, raises KeyError on a faulting line and NotFound at the end of the file |
| RunFile.OfKindAppend | intake_bluesky/jsonl.py:73-76 | collecting by kind distributes over concatenation, so file order is kept |
| RunFile.OfKindMembers | intake_bluesky/jsonl.py:73-76 | a body is collected iff some line of that kind carries it; there are at most as many as lines |
| RunFile.CollectDescriptors | intake_bluesky/jsonl.py:70-77 | the appending loop returns the descriptor bodies of the file in order |
| RunFile.StopDependsOnLastLineOnly | intake_bluesky/jsonl.py:62-68 | only the last line decides the stop document; it is found iff that line is a stop |
| JsonlIndex.NormalizeQuery | intake_bluesky/jsonl.py:39 | `query or {}`: a truthy query is kept, a falsy one becomes the empty query |
| JsonlIndex.FalsyQueryMatchesAll | intake_bluesky/jsonl.py:39 | (assuming the matcher honours `$and`) a catalog opened with a falsy query keeps every start document |
| JsonlIndex.Step | intake_bluesky/jsonl.py:48-60 | an iteration that changes the index registers the start document of a start-first, matching file under its uid |
| JsonlIndex.StepKeepsConsistent | intake_bluesky/jsonl.py:48-60 | one iteration that raises nothing keeps the index invariant |
| JsonlIndex.IndexKeepsConsistent | intake_bluesky/jsonl.py:47-60 | `_update_index` keeps the index invariant, also when it stops on an exception |
| JsonlIndex.IndexAppend | intake_bluesky/jsonl.py:48 | indexing `a + b` indexes `a`, then `b` only if `a` raised nothing |
| JsonlIndex.InvalidFileStopsIndexing | intake_bluesky/jsonl.py:52-55 | a file whose first line is not a start raises InvalidRunFile; earlier runs stay registered and later files are never opened |
| JsonlIndex.IndexLeavesOthers | intake_bluesky/jsonl.py:57-60 | files that do not register a uid leave its entry, or its absence, unchanged |
| JsonlIndex.LastFileWins | intake_bluesky/jsonl.py:58-60 | when several matching files share a uid, the uid maps to the last of them and to its start document |
| JsonlIndex.IndexMembership | intake_bluesky/jsonl.py:47-60 | after indexing without an exception, a uid is registered iff it was already, or some listed file registers it |
| JsonlIndex.StepMembership | intake_bluesky/jsonl.py:57-60 | one iteration registers a uid exactly when its file registers it |
| JsonlIndex.Narrow | intake_bluesky/jsonl.py:200-219 | narrowing keeps a subset of the runs, each with its file |
| JsonlIndex.ReindexFrom | intake_bluesky/jsonl.py:47-60 | re-indexing files taken from a consistent index never raises, and registers exactly the entries of those files whose start matches the new query |
| JsonlIndex.ReindexStep | intake_bluesky/jsonl.py:48-60 | re-reading a file of a consistent index registers its uid again exactly when its start document matches |
| JsonlIndex.ReindexNarrows | intake_bluesky/jsonl.py:210-218 | re-indexing all files of a consistent index gives its entries that match the new query, and no exception |
| JsonlIndex.SearchQueryMatches | intake_bluesky/jsonl.py:208-209 | (assuming the matcher honours `$and`) the sub-catalog's query matches a document iff the catalog's query and the new one both match it |
| JsonlIndex.SearchOnlyNarrows | intake_bluesky/jsonl.py:200-219 | (assuming the matcher honours `$and`) a run found by a search is a run of the parent with the same file |
| JsonlIndex.SearchTwiceIsConjunction | intake_bluesky/jsonl.py:208-209 | (assuming the matcher honours `$and`) from a catalog opened without a query, searching with a truthy `f1` and then with any `f2` keeps what one search with `$and` of both keeps |
| JsonlCatalog.Catalog.UpdateIndex | intake_bluesky/jsonl.py:47-60 | the loop leaves the maps and the exception exactly as the recursive `Index` says, and keeps the invariant |
| JsonlCatalog.Catalog.Open | intake_bluesky/jsonl.py:14-45 | construction succeeds iff indexing raises nothing, and the new catalog's maps are the indexed ones |
| JsonlCatalog.Catalog.RunDocs | intake_bluesky/jsonl.py:63 | an indexed run's file opens and begins with its start document; an unknown uid raises KeyError |
| JsonlCatalog.Catalog.GetRunStop | intake_bluesky/jsonl.py:62-68 | an indexed run never fails; the result is the stop lookup of the run's last line, so a stop found is that line and a stop on that line is found; an unopenable file raises its error |
| JsonlCatalog.Catalog.GetEventDescriptors | intake_bluesky/jsonl.py:70-77 | the descriptors of the run's file in order, or the error opening it |
| JsonlCatalog.Catalog.GetEventCursor | intake_bluesky/jsonl.py:79-90 | the paginated cursor over the run's file with the descriptor uid set, or the error opening it |
| JsonlCatalog.Catalog.GetEventCount | intake_bluesky/jsonl.py:92-100 | the number of events of the given descriptors, or exactly the error the scan raises, or the error opening the file |
| JsonlCatalog.Catalog.GetResource | intake_bluesky/jsonl.py:102-108 | the first resource with the uid, or the lookup's error |
| JsonlCatalog.Catalog.GetDatum | intake_bluesky/jsonl.py:110-116 | the first datum with the datum_id, or the lookup's error |
| JsonlCatalog.Catalog.GetDatumCursor | intake_bluesky/jsonl.py:118-128 | the paginated cursor over the datums of the resource, or the error opening the file |
| JsonlCatalog.Catalog.Search | intake_bluesky/jsonl.py:200-219 | the new catalog uses the joined query and holds exactly the parent's entries that match it |
| JsonlCatalog.Entries.Keys | intake_bluesky/jsonl.py:166-167 | the keys are the uids of the index |
| JsonlCatalog.Entries.DocToEntry | intake_bluesky/jsonl.py:135-161 | an entry carries the start document's uid and body, and the run's stop document |
| JsonlCatalog.Entries.GetItem | intake_bluesky/jsonl.py:177-187 | names `int()` accepts raise NotImplemented; an unknown uid raises KeyError; a known uid gives its entry, whose stop is the run's `_get_run_stop` |
| JsonlCatalog.Entries.Contains | intake_bluesky/jsonl.py:189-196 | a non-numeric name is contained iff it is an indexed uid; a numeric name still raises NotImplemented |
| JsonlCatalog.Entries.Items | intake_bluesky/jsonl.py:173-175 | every indexed uid is mapped to its entry, or some entry's error is raised; a consistent catalog never raises |
| JsonlCatalog.Entries.Values | intake_bluesky/jsonl.py:169-171 | the values are exactly the entries of the indexed runs |
| IntLiteral.Trim | intake_bluesky/jsonl.py:180 | the stripped name is a slice of the name with only spaces cut off around it, and it neither starts nor ends with a space |
| IntLiteral.DecimalIsIntLiteral | intake_bluesky/jsonl.py:178-184 | every decimal integer, such as `'-1'` from a client, is refused as a name |
| IntLiteral.LetterNameIsNotIntLiteral | intake_bluesky/jsonl.py:180-187 | a name starting with a letter is never taken for an integer, so it is looked up |
| RunPartition.PartitionCount | intake_bluesky/core.py:355 | `ceil(count / 100)`: the fewest partitions of 100 that hold all documents |
| RunPartition.LastPartitionHoldsLastDocument | intake_bluesky/core.py:355 | partition `i` is the last one iff it holds the last document |
| RunPartition.HeaderDocs | intake_bluesky/core.py:407-413 | the islice source holds the start, then the descriptors in order, and no event |
| RunPartition.Canonical | intake_bluesky/core.py:349-354 | the run's documents in order: the start, the descriptors, the events, then the stop if any; their number is the count `_load` computes |
| RunPartition.PartitionIsSlice | intake_bluesky/core.py:399-440 | corrected: partition `i` is the `i`-th slice of 100 documents of the run, without `_id` |
| RunPartition.ReadingAllPartitionsYieldsTheRun | intake_bluesky/core.py:394-397 | corrected: reading every partition yields every document of the run once, in order |
| RunPartition.FirstPartitionAsWritten | intake_bluesky/core.py:399-440 | as written, partition 0 is the intended one |
| RunPartition.LaterPartitionsHaveNoEventsAsWritten | intake_bluesky/core.py:404-437 | as written, no partition after the first carries an event |
| RunPartition.SecondPartitionLosesEventsAsWritten | intake_bluesky/core.py:414-420 | as written, a run whose events do not fit in partition 0 gets a partition 1 that differs from the intended one |
| RunPartition.PopIds | intake_bluesky/core.py:438-439 | popping `_id` document by document strips it from every document of the payload |
| RunPartition.DescriptorUids | intake_bluesky/core.py:350 | the uid list succeeds iff every descriptor has a uid, and then lists them in order |
| RunPartition.RunCatalog.Load | intake_bluesky/core.py:340-355 | the stop, the descriptors, the offset and `npartitions` are set from the run file; an error stops loading where it is raised |
| RunPartition.RunCatalog.ReadPartition | intake_bluesky/core.py:399-440 | returns exactly what the as-written partition function gives for the run file, errors included; the fields are left as `_load` leaves them: untouched when the stop lookup fails, `npartitions` kept when the event count fails and set otherwise, also for a negative `i` |
| RunPartition.RunCatalog.Assemble | intake_bluesky/core.py:403-440 | the header slice, the cursor's events and the stop, without `_id`, equal the as-written partition |
| EventStream.SelectKeys | intake_bluesky/core.py:59-64 | a data key is kept iff it is included (when `include` is given) and not excluded |
| EventStream.StreamKeys | intake_bluesky/core.py:48-64 | include with exclude raises; otherwise the kept keys are exactly the selection `SelectKeys` makes from the first descriptor's data keys |
| EventStream.DefaultKeepsAllKeys | intake_bluesky/core.py:63-64 | without include or exclude every data key is kept |
| EventStream.EventsForIsCursorSelection | intake_bluesky/core.py:69-70 | grouping the stream's events under a descriptor selects, in order and KeyError for KeyError, what the full scan with the event selector for its uid selects from those events |
| EventStream.EventsForKeepsItsOwn | intake_bluesky/core.py:69-70 | an event is kept for a descriptor iff it names that descriptor's uid |
| EventStream.Scoped | intake_bluesky/core.py:126-127 | the scoped name is the device name, a colon, then the key |
| EventStream.ScopedInjective | intake_bluesky/core.py:126-127 | scoping under one device keeps distinct keys distinct |
| EventStream.ConfigKeysAsWritten | intake_bluesky/core.py:128-135 | as written, a configuration key is kept iff `include` is empty or names its scoped name; each kept key maps to its scoped name |
| EventStream.ExcludeIgnoredForConfigurationAsWritten | intake_bluesky/core.py:131-133 | as written, an exclude list keeps every configuration key, even one it names |
| EventStream.ConfigKeys | intake_bluesky/core.py:128-135 | corrected: a configuration key is kept iff its scoped name is included (when `include` is given) and not excluded |
| EventStream.ConfigSelectionMatchesDataSelection | intake_bluesky/core.py:122-135 | corrected: configuration keys are selected by scoped name exactly as data keys are selected |
| EventStream.AfterConfigLoopAsWritten | intake_bluesky/core.py:122-135 | as written, after a descriptor's configuration loop `keys` holds the kept configuration keys of its last device, or is unchanged without a device |
| EventStream.LaterDescriptorReadsConfigurationAsWritten | intake_bluesky/core.py:67-135 | as written, a descriptor after one with a configured device builds its table from that device's configuration keys; concretely `gain` instead of `x`, or nothing under `include=['x']` |
| EventStream.ConfigLoop | intake_bluesky/core.py:122-135 | corrected: the configuration loop keeps `keys` unchanged and selects each device's keys with `ConfigKeys`, in order |
| EventStream.KeysRead | intake_bluesky/core.py:58-89 | corrected: every descriptor's table is built from the keys selected for the stream |
| EventStream.KeysReadAgreeWithoutConfiguration | intake_bluesky/core.py:67-135 | the code as written and the corrected loop give a descriptor the same keys when no earlier descriptor configures a device |
| EventStream.Transpose | intake_bluesky/core.py:561-587 | succeeds iff every row has `field` and every key in it; then column `k` has one cell per row and cell `j` is `in_data[j][field][k]`; otherwise the first unreadable row's KeyError or TypeError is raised |
| EventStream.FillRow | intake_bluesky/core.py:584-586 | succeeds iff `dd` holds every key, else KeyError; then row `j` of every listed column is set from `dd` and nothing else changes |

## Left out

- File I/O and JSON parsing. A file is its sequence of parsed lines. Malformed lines, encodings
  and floating-point numbers are not modelled; a JSON number is an integer.
- Laziness. The cursors and `keys`/`values`/`items` are generators in the source. Here they are
  consumed to the end: a cursor returns the list it would yield, or the error it would raise
  part way.
- Dictionary insertion order. `keys`, `values`, `items` and `search`'s
  `list(self._runs.values())` are modelled as sets and maps. The search result does not depend
  on the order, as `ReindexFrom` shows.
- The mongoquery matcher is a parameter. The `$and` property is an assumption
  (`MatcherHonoursAnd`), not a proof.
- Unhashable uids (a dict or list `uid` used as a dictionary key) are not modelled: any `Json`
  value is a key. Python's cross-type equality and hashing (`1 == True == 1.0`) in the uid,
  descriptor and datum comparisons and dictionary keys is not modelled either: `Bool(true)` and
  `Num(1)` are different values.
- JsonlCatalog.Entries.Items: `items()` raises the error of the first entry that fails, in the
  insertion order of `_run_starts`. The model has no order, so it promises only that the error
  is some entry's error. Its contract also states that a valid catalog never fails here.
- JsonlCatalog.Entries.GetItem: `int()` is modelled for ASCII spaces and digits only. The Unicode
  digits and spaces that Python also accepts are not modelled.
- The filler, `UnresolvableForeignKeyError` handling and the handler registry are not modelled.
  Events are appended as the cursor yields them.
- xarray and numpy are not modelled:
  - the `ndim` and `dims` computation;
  - `DataArray`/`Dataset` construction and merging;
  - timestamps (`_ft`).
- Out of the scope of this model:
  - `RemoteRunCatalog`;
  - `__repr__`;
  - the intake plumbing (`LocalCatalogEntry`, schema, `_get_partition`);
  - the stream entries that `_load` builds;
  - the metadata updates of `_load`;
  - `xarray_to_event_gen`, `parse_handler_registry` and the dataset construction of `BlueskyEventStream`.
- RunPartition.PartitionCount: `numpy.ceil(count / PARTITION_SIZE)` is float division. It is
  modelled as integer ceiling division. The two agree for every count below 2^40.
- RunPartition.PopIds: `doc.pop('_id')` mutates the documents in place, which the catalog's
  callers share. Here the payload is a new sequence; aliasing is not modelled.
- RunPartition.RunCatalog.Assemble: the events of one call are appended as one slice, not one at a
  time. The result is the same.
- EventStream.KeysReadAsWritten: a descriptor's `configuration` is a sequence of devices in
  dictionary order. The `data_keys` rebinding that goes with it (core.py:71 and 99) only feeds
  the filler and xarray code, which is not modelled.
- EventStream.StreamKeys: a `data_keys` value that is not a JSON object is reported as
  TypeError at once. In Python, `set()` and `list()` of a string or a list succeed at
  core.py:58-64. The exception comes later, at core.py:71, when a selected key is looked up in
  `data_keys`. When no key is selected (an empty string or list, or an `include` that names none
  of its elements), Python does not fail at all. A number, boolean or null fails at
  core.py:60-64, as modelled.

## Findings

| source | as written | input that shows it | evidently intended | confidence | as-written member | corrected member |
|---|---|---|---|---|---|---|
| intake_bluesky/core.py:414-420 | `read_partition(i)` asks the event cursor for `skip = max(0, start - len(payload))` and `limit = stop - start - len(payload)`; the cursor treats `limit` as an upper ordinal, so for every `i >= 1` the skip is at least the limit and no event is returned | a run with one start, one descriptor `d` and 150 events of `d` (152 documents): partition 0 holds the start, `d` and events 0..97; partition 1 should hold events 98..149 but holds none, so `read_canonical` yields only 100 of the 152 documents | partition `i` holds the documents at positions `[100 i, 100 i + 100)` of the run: the cursor is asked for event ordinals from `100 i - offset` to `100 i + 100 - offset` | not executed | RunPartition.SecondPartitionLosesEventsAsWritten | RunPartition.ReadingAllPartitionsYieldsTheRun |
| intake_bluesky/core.py:131-133 | the `exclude` branch for configuration keys tests `v not in include`, and `include` is empty in that branch | device `det` with configuration key `gain` and `exclude=['det:gain']`: `det:gain` is still read | the scoped name is tested against `exclude`, as the data keys are | not executed | EventStream.ExcludeIgnoredForConfigurationAsWritten | EventStream.ConfigSelectionMatchesDataSelection |
| intake_bluesky/core.py:89-135 | the configuration loop reuses the names `keys` and `data_keys` of the enclosing loop over descriptors, so from the second descriptor on `_transpose(events, keys, 'data')` is given the kept configuration keys of the previous descriptor's last device | two descriptors with data key `x`, the first configuring `gain` of device `det`: the second descriptor's table is built over `gain`, which its events lack, so `_transpose` raises KeyError; with `include=['x']` it is built over no key and `x` is dropped | every descriptor's table is built from the keys selected at core.py:59-64 | not executed | EventStream.LaterDescriptorReadsConfigurationAsWritten | EventStream.KeysRead |
