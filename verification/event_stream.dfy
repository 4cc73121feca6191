/**
 * How one event stream of a run becomes a table: which data keys are kept
 * (`include` / `exclude`), which events belong to which descriptor, how the
 * configuration keys of each device are scoped and selected, and the
 * list-of-dicts to dict-of-lists transpose that builds the columns.
 */
module EventStream {
  import opened Documents
  import opened RunFile

  // ---------------------------------------------------------------------------
  // Data keys

  /**
   * The kept data keys, given that `include` and `exclude` are not both
   * non-empty: those named by `include` when it is given, those not named by
   * `exclude` when it is given, all of them otherwise.
   */
  function SelectKeys(dataKeys: set<string>, includes: seq<string>, excludes: seq<string>): (r: set<string>)
    requires includes == [] || excludes == []
    ensures r <= dataKeys
    ensures forall k :: k in dataKeys ==> (k in r <==> (includes == [] || k in includes) && k !in excludes)
  {
    if includes != [] then dataKeys * (set k | k in includes)
    else if excludes != [] then dataKeys - (set k | k in excludes)
    else dataKeys
  }

  /** `descriptor_docs[0]['data_keys']`: the field metadata of the stream's first descriptor. */
  function FirstDataKeys(descriptors: seq<Body>): Result<map<string, Json>>
  {
    if descriptors == [] then Err(IndexError)
    else if "data_keys" !in descriptors[0] then Err(KeyError)
    else match descriptors[0]["data_keys"]
      case Obj(fields) => Ok(fields)
      case _ => Err(TypeError)
  }

  /**
   * The data keys selected for a stream from its first descriptor (`keys` at
   * core.py:59-64): the include/exclude conflict is reported before the first
   * descriptor is looked at. The table of the first descriptor is built from
   * them; what later descriptors read is `KeysReadAsWritten`.
   */
  function StreamKeys(descriptors: seq<Body>, includes: seq<string>, excludes: seq<string>): (r: Result<set<string>>)
    ensures r == Err(IncludeExcludeConflict) <==> includes != [] && excludes != []
    ensures r.Ok? <==> (includes == [] || excludes == []) && FirstDataKeys(descriptors).Ok?
    ensures r.Ok? ==> r.value <= FirstDataKeys(descriptors).value.Keys
    ensures r.Ok? ==> forall k :: k in r.value ==> k !in excludes && (includes == [] || k in includes)
    ensures r.Ok? ==> r.value == SelectKeys(FirstDataKeys(descriptors).value.Keys, includes, excludes)
  {
    if includes != [] && excludes != [] then Err(IncludeExcludeConflict)
    else match FirstDataKeys(descriptors)
      case Err(e) => Err(e)
      case Ok(dataKeys) => Ok(SelectKeys(dataKeys.Keys, includes, excludes))
  }

  /** Without `include` or `exclude` a stream reads every data key of its first descriptor. */
  lemma DefaultKeepsAllKeys(descriptors: seq<Body>)
    requires FirstDataKeys(descriptors).Ok?
    ensures StreamKeys(descriptors, [], []) == Ok(FirstDataKeys(descriptors).value.Keys)
  {
  }

  // ---------------------------------------------------------------------------
  // Events of one descriptor

  /**
   * `[doc for doc in event_docs if doc['descriptor'] == descriptor['uid']]`:
   * each event's 'descriptor' is read before the descriptor's 'uid', so a
   * missing key in either raises only once there is an event to test.
   */
  function EventsFor(events: seq<Body>, descriptor: Body): Result<seq<Body>>
  {
    if events == [] then Ok([])
    else if "descriptor" !in events[0] || "uid" !in descriptor then Err(KeyError)
    else Prepend(if events[0]["descriptor"] == descriptor["uid"] then [events[0]] else [],
                 EventsFor(events[1..], descriptor))
  }

  /**
   * Grouping the events of a stream by descriptor selects exactly what the
   * full scan with the event selector for that one descriptor uid selects
   * from those events, KeyError for KeyError.
   */
  lemma {:induction false} EventsForIsCursorSelection(events: seq<Body>, descriptor: Body)
    requires "uid" in descriptor
    ensures EventsFor(events, descriptor) == Hits(Tagged(Event, events), EventsOf({descriptor["uid"]}))
  {
    if events != [] {
      var docs := Tagged(Event, events);
      assert docs[0] == Doc(Event, events[0]);
      assert docs[1..] == Tagged(Event, events[1..]);
      EventsForIsCursorSelection(events[1..], descriptor);
      PrependNested([], [], EventsFor(events[1..], descriptor));
      if "descriptor" in events[0] {
        assert events[0]["descriptor"] in {descriptor["uid"]} <==> events[0]["descriptor"] == descriptor["uid"];
      }
    }
  }

  /** The events kept for a descriptor are, in order, those that name its uid. */
  lemma EventsForKeepsItsOwn(events: seq<Body>, descriptor: Body)
    requires "uid" in descriptor && EventsFor(events, descriptor).Ok?
    ensures forall e :: e in EventsFor(events, descriptor).value <==>
              e in events && "descriptor" in e && e["descriptor"] == descriptor["uid"]
  {
    var docs := Tagged(Event, events);
    EventsForIsCursorSelection(events, descriptor);
    HitsAreMatches(docs, EventsOf({descriptor["uid"]}));
    forall e | e in events && "descriptor" in e && e["descriptor"] == descriptor["uid"]
      ensures e in EventsFor(events, descriptor).value
    {
      var i :| 0 <= i < |events| && events[i] == e;
      assert Test(EventsOf({descriptor["uid"]}), docs[i]) == Hit;
    }
  }

  // ---------------------------------------------------------------------------
  // Configuration keys

  /** `f'{object_name}:{key}'`: a configuration key labelled with its device. */
  function Scoped(objectName: string, key: string): (s: string)
    ensures |s| == |objectName| + 1 + |key|
    ensures s[..|objectName|] == objectName && s[|objectName|] == ':'
    ensures s[|objectName| + 1..] == key
  {
    objectName + ":" + key
  }

  /** Scoping under one device keeps distinct keys distinct. */
  lemma ScopedInjective(objectName: string, k1: string, k2: string)
    ensures Scoped(objectName, k1) == Scoped(objectName, k2) <==> k1 == k2
  {
    var n := |objectName| + 1;
    assert Scoped(objectName, k1)[n..] == k1;
    assert Scoped(objectName, k2)[n..] == k2;
  }

  /** The scoped names of a device's configuration keys. */
  function ScopedNames(objectName: string, configKeys: set<string>): set<string>
  {
    set k | k in configKeys :: Scoped(objectName, k)
  }

  /**
   * The configuration keys of one device kept as the code does it: the
   * `exclude` branch tests a scoped name against `include`, which is empty
   * there, so nothing is ever excluded.
   */
  function ConfigKeysAsWritten(objectName: string, configKeys: set<string>, includes: seq<string>, excludes: seq<string>): (r: map<string, string>)
    requires includes == [] || excludes == []
    ensures r.Keys <= configKeys
    ensures forall k :: k in r ==> r[k] == Scoped(objectName, k)
    ensures forall k :: k in configKeys ==> (k in r <==> includes == [] || Scoped(objectName, k) in includes)
  {
    var scoped := map k | k in configKeys :: Scoped(objectName, k);
    if includes != [] then map k | k in scoped && scoped[k] in includes :: scoped[k]
    else if excludes != [] then map k | k in scoped && scoped[k] !in includes :: scoped[k]
    else scoped
  }

  /** As written, an `exclude` list leaves every configuration key in place, even one it names. */
  lemma ExcludeIgnoredForConfigurationAsWritten(objectName: string, configKeys: set<string>, excludes: seq<string>)
    requires excludes != []
    ensures ConfigKeysAsWritten(objectName, configKeys, [], excludes).Keys == configKeys
    ensures ConfigKeysAsWritten("det", {"gain"}, [], ["det:gain"]) == map["gain" := "det:gain"]
  {
    assert Scoped("det", "gain") == "det:gain";
    assert "det:gain" !in [];
  }

  /**
   * The configuration keys of one device kept as intended: the scoped name
   * is tested against `include` when given and against `exclude` when given.
   */
  function ConfigKeys(objectName: string, configKeys: set<string>, includes: seq<string>, excludes: seq<string>): (r: map<string, string>)
    requires includes == [] || excludes == []
    ensures r.Keys <= configKeys
    ensures forall k :: k in r ==> r[k] == Scoped(objectName, k)
    ensures forall k :: k in configKeys ==>
              (k in r <==> (includes == [] || Scoped(objectName, k) in includes) && Scoped(objectName, k) !in excludes)
  {
    var scoped := map k | k in configKeys :: Scoped(objectName, k);
    if includes != [] then map k | k in scoped && scoped[k] in includes :: scoped[k]
    else if excludes != [] then map k | k in scoped && scoped[k] !in excludes :: scoped[k]
    else scoped
  }

  /**
   * Corrected, a device's configuration is selected by its scoped names exactly
   * as the event data is selected by its data keys.
   */
  lemma ConfigSelectionMatchesDataSelection(objectName: string, configKeys: set<string>, includes: seq<string>, excludes: seq<string>)
    requires includes == [] || excludes == []
    ensures ConfigKeys(objectName, configKeys, includes, excludes).Values ==
            SelectKeys(ScopedNames(objectName, configKeys), includes, excludes)
  {
    var r := ConfigKeys(objectName, configKeys, includes, excludes);
    var s := SelectKeys(ScopedNames(objectName, configKeys), includes, excludes);
    forall v | v in s ensures v in r.Values {
      var k :| k in configKeys && Scoped(objectName, k) == v;
      assert r[k] == v;
    }
    forall v | v in r.Values ensures v in s {
      var k :| k in r && r[k] == v;
      assert v in ScopedNames(objectName, configKeys);
    }
  }

  // ---------------------------------------------------------------------------
  // The keys each descriptor's table is built from

  /** One item of a descriptor's `configuration`: a device and the keys of its `data_keys`. */
  datatype DeviceConfig = DeviceConfig(objectName: string, configKeys: set<string>)

  /**
   * `keys` after the configuration loop of one descriptor, as the code does it:
   * the loop rebinds `keys` to each device's kept configuration keys in turn, so
   * those of the last device survive; without a device `keys` is untouched.
   */
  function AfterConfigLoopAsWritten(keys: set<string>, devices: seq<DeviceConfig>, includes: seq<string>, excludes: seq<string>): (r: set<string>)
    requires includes == [] || excludes == []
    ensures devices == [] ==> r == keys
    ensures devices != [] ==>
              r == ConfigKeysAsWritten(devices[|devices| - 1].objectName, devices[|devices| - 1].configKeys, includes, excludes).Keys
    decreases |devices|
  {
    if devices == [] then keys
    else AfterConfigLoopAsWritten(ConfigKeysAsWritten(devices[0].objectName, devices[0].configKeys, includes, excludes).Keys,
                                  devices[1..], includes, excludes)
  }

  /**
   * The keys `_transpose(events, keys, 'data')` is given for descriptor `j`, as
   * the code does it: `selected` for the first descriptor, then whatever the
   * previous descriptor's configuration loop left in `keys`. `configs[i]` lists
   * the devices of descriptor `i` in the order of its `configuration`.
   */
  function KeysReadAsWritten(selected: set<string>, configs: seq<seq<DeviceConfig>>, includes: seq<string>, excludes: seq<string>, j: nat): set<string>
    requires includes == [] || excludes == []
    requires j < |configs|
  {
    if j == 0 then selected
    else AfterConfigLoopAsWritten(KeysReadAsWritten(selected, configs, includes, excludes, j - 1), configs[j - 1], includes, excludes)
  }

  /**
   * As written, a descriptor that follows one with a configured device reads
   * configuration keys of that device instead of the stream's data keys. With
   * data key `x` and a first descriptor configuring `gain` of `det`, the second
   * descriptor's table is built over `gain`, which its events' data lack, or
   * over nothing at all when `include=['x']`.
   */
  lemma LaterDescriptorReadsConfigurationAsWritten(selected: set<string>, configs: seq<seq<DeviceConfig>>, includes: seq<string>, excludes: seq<string>, j: nat)
    requires includes == [] || excludes == []
    requires 0 < j < |configs| && configs[j - 1] != []
    ensures KeysReadAsWritten(selected, configs, includes, excludes, j) <= configs[j - 1][|configs[j - 1]| - 1].configKeys
    ensures KeysReadAsWritten({"x"}, [[DeviceConfig("det", {"gain"})], []], [], [], 1) == {"gain"}
    ensures KeysReadAsWritten({"x"}, [[DeviceConfig("det", {"gain"})], []], ["x"], [], 1) == {}
    ensures var event := map["data" := Obj(map["x" := Num(1)])];
      !RowHasKeys(event, ["gain"], "data") && RowError(event, ["gain"], "data") == KeyError
  {
    var det := [DeviceConfig("det", {"gain"})];
    assert det[1..] == [];
    assert Scoped("det", "gain") == "det:gain";
    assert "det:gain" !in ["x"];
    var event := map["data" := Obj(map["x" := Num(1)])];
    assert "gain" in ["gain"] && "gain" !in event["data"].fields;
  }

  /** What the configuration loop of one descriptor leaves: `keys`, and the kept keys of each device in order. */
  datatype ConfigLoopState = ConfigLoopState(keys: set<string>, kept: seq<map<string, string>>)

  /**
   * The configuration loop of one descriptor, corrected: each device's kept
   * keys are bound to a name of their own, selected by `ConfigKeys`, so `keys`
   * comes out unchanged.
   */
  function ConfigLoop(keys: set<string>, devices: seq<DeviceConfig>, includes: seq<string>, excludes: seq<string>): (r: ConfigLoopState)
    requires includes == [] || excludes == []
    ensures r.keys == keys
    ensures |r.kept| == |devices|
    ensures forall i :: 0 <= i < |devices| ==>
              r.kept[i] == ConfigKeys(devices[i].objectName, devices[i].configKeys, includes, excludes)
    decreases |devices|
  {
    if devices == [] then ConfigLoopState(keys, [])
    else
      var rest := ConfigLoop(keys, devices[1..], includes, excludes);
      ConfigLoopState(rest.keys, [ConfigKeys(devices[0].objectName, devices[0].configKeys, includes, excludes)] + rest.kept)
  }

  /**
   * Corrected, the keys the data table of descriptor `j` is built from: `keys`
   * passes through every earlier descriptor's configuration loop unchanged, so
   * every descriptor's table is built from the stream's selection.
   */
  function KeysRead(selected: set<string>, configs: seq<seq<DeviceConfig>>, includes: seq<string>, excludes: seq<string>, j: nat): (r: set<string>)
    requires includes == [] || excludes == []
    requires j < |configs|
    ensures r == selected
  {
    if j == 0 then selected
    else ConfigLoop(KeysRead(selected, configs, includes, excludes, j - 1), configs[j - 1], includes, excludes).keys
  }

  /** The code as written and the corrected loop agree as long as no earlier descriptor configures a device. */
  lemma {:induction false} KeysReadAgreeWithoutConfiguration(selected: set<string>, configs: seq<seq<DeviceConfig>>, includes: seq<string>, excludes: seq<string>, j: nat)
    requires includes == [] || excludes == []
    requires j < |configs| && forall i :: 0 <= i < j ==> configs[i] == []
    ensures KeysReadAsWritten(selected, configs, includes, excludes, j) == KeysRead(selected, configs, includes, excludes, j)
  {
    if j > 0 {
      KeysReadAgreeWithoutConfiguration(selected, configs, includes, excludes, j - 1);
    }
  }

  // ---------------------------------------------------------------------------
  // Transpose

  /**
   * A row `_transpose` reads without an exception: it has `field`, and when
   * there is a key to read, `field` is an object holding every key.
   */
  predicate RowHasKeys(row: Body, keys: seq<string>, field: string)
  {
    field in row && (keys == [] || (row[field].Obj? && forall k :: k in keys ==> k in row[field].fields))
  }

  /**
   * The exception a row raises: `ev[field]` or `dd[k]` on a missing key raises
   * KeyError, and `dd[k]` on a `dd` that is not an object raises TypeError.
   */
  function RowError(row: Body, keys: seq<string>, field: string): Error
  {
    if field in row && !row[field].Obj? then TypeError else KeyError
  }

  /**
   * `_transpose`: the column of each key holds, row by row, that key of the
   * `field` object of each row. The first row that cannot be read raises.
   */
  method Transpose(inData: seq<Body>, keys: seq<string>, field: string) returns (r: Result<map<string, seq<Json>>>)
    ensures r.Ok? <==> forall j :: 0 <= j < |inData| ==> RowHasKeys(inData[j], keys, field)
    ensures r.Err? ==> (exists j :: 0 <= j < |inData| && !RowHasKeys(inData[j], keys, field) &&
                          r.error == RowError(inData[j], keys, field) && forall i :: 0 <= i < j ==> RowHasKeys(inData[i], keys, field))
    ensures r.Ok? ==> r.value.Keys == set k | k in keys
    ensures r.Ok? ==> forall k :: k in r.value ==> |r.value[k]| == |inData|
    ensures r.Ok? ==> forall k, j :: k in r.value && 0 <= j < |inData| ==>
              inData[j][field].Obj? && r.value[k][j] == inData[j][field].fields[k]
  {
    var out := map k | k in keys :: seq(|inData|, _ => Null);
    for j := 0 to |inData|
      invariant out.Keys == set k | k in keys
      invariant forall k :: k in out ==> |out[k]| == |inData|
      invariant forall i :: 0 <= i < j ==> RowHasKeys(inData[i], keys, field)
      invariant forall k, j' :: k in out && 0 <= j' < j ==> inData[j'][field].Obj? && out[k][j'] == inData[j'][field].fields[k]
    {
      var row := inData[j];
      if field !in row {
        return Err(KeyError);
      }
      if keys != [] {
        if !row[field].Obj? {
          return Err(TypeError);
        }
        var filled := FillRow(out, keys, j, row[field].fields);
        if filled.Err? {
          return Err(KeyError);
        }
        out := filled.value;
      }
    }
    r := Ok(out);
  }

  /** The inner loop of `_transpose`: row `j` of every column of `keys` set from `dd`. */
  method FillRow(columns: map<string, seq<Json>>, keys: seq<string>, j: nat, dd: map<string, Json>) returns (r: Result<map<string, seq<Json>>>)
    requires forall k :: k in keys ==> k in columns && j < |columns[k]|
    ensures r.Ok? <==> forall k :: k in keys ==> k in dd
    ensures r.Err? ==> r.error == KeyError
    ensures r.Ok? ==> r.value.Keys == columns.Keys
    ensures r.Ok? ==> forall k :: k in r.value ==> |r.value[k]| == |columns[k]|
    ensures r.Ok? ==> forall k, i :: k in r.value && 0 <= i < |r.value[k]| && (i != j || k !in keys) ==> r.value[k][i] == columns[k][i]
    ensures r.Ok? ==> forall k :: k in keys ==> k in dd && r.value[k][j] == dd[k]
  {
    var out := columns;
    for t := 0 to |keys|
      invariant out.Keys == columns.Keys
      invariant forall k :: k in out ==> |out[k]| == |columns[k]|
      invariant forall k, i :: k in out && 0 <= i < |out[k]| && (i != j || k !in keys[..t]) ==> out[k][i] == columns[k][i]
      invariant forall k :: k in keys[..t] ==> k in dd && out[k][j] == dd[k]
    {
      var k := keys[t];
      if k !in dd {
        return Err(KeyError);
      }
      out := out[k := out[k][j := dd[k]]];
    }
    assert keys[..|keys|] == keys;
    r := Ok(out);
  }
}
