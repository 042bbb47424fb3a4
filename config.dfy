/**
 * `AppConfig` and `ConfigManager` of app/core/config.py.
 *
 * Paths are strings. The values that appear in the dicts `asdict`, `to_json` and `from_json` pass
 * around are `Value`s: a string, a `Path`, a bool, `None`, or anything else JSON can hold (a
 * number, a list, an object), which no field of the dataclass accepts.
 */
module Config {
  import opened Options
  import opened Paths
  import opened Dicts

  datatype Value = Str(s: string) | PathV(p: string) | Bool(b: bool) | Null | Other

  const HISTORY_FILENAME: string := "sync_history.json"

  datatype AppConfig = AppConfig(
    instancesPath: string,
    gamePath: string,
    backupDir: Option<string>,
    autoConfirmNewFiles: bool,
    autoConfirmUpdates: bool,
    autoConfirmRemovals: bool,
    exclusionsPath: Option<string>,
    historyPath: Option<string>)

  /** The dataclass fields of `AppConfig`. */
  datatype Field =
    | InstancesPath | GamePath | BackupDir | AutoConfirmNewFiles
    | AutoConfirmUpdates | AutoConfirmRemovals | ExclusionsPath | HistoryPath
  {
    /** The field's name, its key in the JSON object. */
    function Name(): string {
      match this
      case InstancesPath => "instances_path"
      case GamePath => "game_path"
      case BackupDir => "backup_dir"
      case AutoConfirmNewFiles => "auto_confirm_new_files"
      case AutoConfirmUpdates => "auto_confirm_updates"
      case AutoConfirmRemovals => "auto_confirm_removals"
      case ExclusionsPath => "exclusions_path"
      case HistoryPath => "history_path"
    }

    /** `path_fields` in `from_json`: the fields declared as paths. */
    predicate IsPath() {
      !(AutoConfirmNewFiles? || AutoConfirmUpdates? || AutoConfirmRemovals?)
    }
  }

  /** The fields in declaration order, the order `asdict` and `__dataclass_fields__` follow. */
  const FIELDS: seq<Field> := [
    InstancesPath, GamePath, BackupDir, AutoConfirmNewFiles,
    AutoConfirmUpdates, AutoConfirmRemovals, ExclusionsPath, HistoryPath]

  /** Their names, in the same order. */
  const NAMES: seq<string> := [
    "instances_path", "game_path", "backup_dir", "auto_confirm_new_files",
    "auto_confirm_updates", "auto_confirm_removals", "exclusions_path", "history_path"]

  /** Every field is declared, and the names line up with the fields. */
  lemma FieldsListed()
    ensures forall f: Field :: f in FIELDS
    ensures |NAMES| == |FIELDS| && forall i :: 0 <= i < |FIELDS| ==> NAMES[i] == FIELDS[i].Name()
  {
    forall f: Field ensures f in FIELDS {
      match f
      case InstancesPath => assert FIELDS[0] == f;
      case GamePath => assert FIELDS[1] == f;
      case BackupDir => assert FIELDS[2] == f;
      case AutoConfirmNewFiles => assert FIELDS[3] == f;
      case AutoConfirmUpdates => assert FIELDS[4] == f;
      case AutoConfirmRemovals => assert FIELDS[5] == f;
      case ExclusionsPath => assert FIELDS[6] == f;
      case HistoryPath => assert FIELDS[7] == f;
    }
  }

  /** Distinct fields have distinct names (their lengths already differ). */
  lemma NamesInjective()
    ensures forall f: Field, g: Field :: f.Name() == g.Name() ==> f == g
  {
    forall f: Field, g: Field | f.Name() == g.Name() ensures f == g {
      assert |f.Name()| == |g.Name()|;
    }
  }

  /** The names are the keys of a dict: listed once each. */
  lemma NamesDistinct()
    ensures forall i, j :: 0 <= i < j < |NAMES| ==> NAMES[i] != NAMES[j]
  {
    forall i, j | 0 <= i < j < |NAMES| ensures NAMES[i] != NAMES[j] {
      assert |NAMES[i]| != |NAMES[j]|;
    }
  }

  /**
   * `AppConfig.default()`, with the probed instances and game paths and the application
   * directory given: new files are confirmed automatically, updates and removals are not.
   */
  function DefaultConfig(instances: string, game: string, appDir: string): (c: AppConfig)
    ensures c.instancesPath == instances && c.gamePath == game
    ensures c.autoConfirmNewFiles && !c.autoConfirmUpdates && !c.autoConfirmRemovals
    ensures c.backupDir == Some(Join(appDir, "backups"))
    ensures c.exclusionsPath == Some(Join(appDir, "exclusions.json"))
    ensures c.historyPath == Some(Join(appDir, "sync_history.json"))
  {
    AppConfig(
      instances, game, Some(Join(appDir, "backups")), true, false, false,
      Some(Join(appDir, "exclusions.json")), Some(Join(appDir, HISTORY_FILENAME)))
  }

  function OptionalPath(p: Option<string>): Value {
    match p
    case None => Null
    case Some(q) => PathV(q)
  }

  /** The value `asdict` gives field `f`: a path field's `Path` or `None`, a flag's bool. */
  function FieldValue(c: AppConfig, f: Field): Value {
    match f
    case InstancesPath => PathV(c.instancesPath)
    case GamePath => PathV(c.gamePath)
    case BackupDir => OptionalPath(c.backupDir)
    case AutoConfirmNewFiles => Bool(c.autoConfirmNewFiles)
    case AutoConfirmUpdates => Bool(c.autoConfirmUpdates)
    case AutoConfirmRemovals => Bool(c.autoConfirmRemovals)
    case ExclusionsPath => OptionalPath(c.exclusionsPath)
    case HistoryPath => OptionalPath(c.historyPath)
  }

  /** The dict whose key `f.Name()` holds `value(f)`, in declaration order. */
  function ByName(value: Field -> Value): (d: Dict<Value>)
    ensures d.Valid() && d.keys == NAMES
    ensures forall f: Field :: f.Name() in d.items && d.items[f.Name()] == value(f)
  {
    FieldsListed();
    NamesInjective();
    NamesDistinct();
    Dict(NAMES, map f | f in FIELDS :: f.Name() := value(f))
  }

  /** `asdict(config)`. */
  function AsDict(c: AppConfig): Dict<Value> {
    ByName(f => FieldValue(c, f))
  }

  /** `str(value)` for a `Path`; any other value as it is. */
  function Stringified(v: Value): Value {
    if v.PathV? then Str(v.p) else v
  }

  /** The dict `to_json` returns. */
  function JsonOf(c: AppConfig): Dict<Value> {
    ByName(f => Stringified(FieldValue(c, f)))
  }

  /** The values after the `to_json` loop has visited the keys `ks`: each `Path` among them stringified. */
  function StringifiedAt(items: map<string, Value>, ks: seq<string>): (m: map<string, Value>)
    ensures m.Keys == items.Keys
  {
    if ks == [] then items
    else
      var m := StringifiedAt(items, ks[..|ks| - 1]);
      var k := ks[|ks| - 1];
      if k in m && m[k].PathV? then m[k := Str(m[k].p)] else m
  }

  /** Visiting distinct keys stringifies the values under exactly those keys. */
  lemma {:induction false} StringifiedAtKeys(items: map<string, Value>, ks: seq<string>)
    requires forall i, j :: 0 <= i < j < |ks| ==> ks[i] != ks[j]
    ensures forall k :: k in items ==>
      StringifiedAt(items, ks)[k] == if k in ks then Stringified(items[k]) else items[k]
  {
    if ks != [] {
      var init := ks[..|ks| - 1];
      StringifiedAtKeys(items, init);
      assert ks == init + [ks[|ks| - 1]];
      assert ks[|ks| - 1] !in init;
    }
  }

  /**
   * `to_json`: starting from `asdict`, every `Path` value becomes its string and every other
   * value stays; the keys keep their order.
   */
  method ToJson(c: AppConfig) returns (data: Dict<Value>)
    ensures data == JsonOf(c)
  {
    data := StringifyPaths(AsDict(c));
    JsonOfStringified(c);
  }

  /** The loop of `to_json`: visit the keys in order and replace each `Path` value by its string. */
  method StringifyPaths(d: Dict<Value>) returns (data: Dict<Value>)
    ensures data == Dict(d.keys, StringifiedAt(d.items, d.keys))
  {
    data := d;
    var keys := d.keys;
    var i := 0;
    while i < |keys|
      invariant 0 <= i <= |keys|
      invariant data == Dict(keys, StringifiedAt(d.items, keys[..i]))
    {
      var k := keys[i];
      assert keys[..i + 1][..i] == keys[..i];
      if k in data.items && data.items[k].PathV? {
        // An existing key keeps its place in the order.
        data := Dict(data.keys, data.items[k := Str(data.items[k].p)]);
      }
      i := i + 1;
    }
    assert keys[..i] == keys;
  }

  /** `to_json` applied to `asdict`'s values in key order gives the values of `JsonOf`. */
  lemma JsonOfStringified(c: AppConfig)
    ensures JsonOf(c) == Dict(AsDict(c).keys, StringifiedAt(AsDict(c).items, AsDict(c).keys))
  {
    var d, j := AsDict(c), JsonOf(c);
    var m := StringifiedAt(d.items, d.keys);
    NamesDistinct();
    StringifiedAtKeys(d.items, d.keys);
    FieldsListed();
    forall k | k in m
      ensures k in j.items && j.items[k] == m[k]
    {
      var i :| 0 <= i < |NAMES| && NAMES[i] == k;
      assert k == FIELDS[i].Name();
    }
    assert j.items.Keys == m.Keys;
    assert j.items == m;
  }

  /** What `to_json` returns is a well-formed dict over the field names with no `Path` left, which `json.dumps` would refuse. */
  lemma JsonOfShape(c: AppConfig)
    ensures JsonOf(c).Valid() && JsonOf(c).keys == NAMES
    ensures forall k :: k in JsonOf(c).items ==> !JsonOf(c).items[k].PathV?
  {
    forall k | k in JsonOf(c).items
      ensures !JsonOf(c).items[k].PathV?
    {
      var f :| f in FIELDS && f.Name() == k;
    }
  }

  // ---------------------------------------------------------------------------------------------
  // from_json

  /** `Path(v)`: a string or a path gives a path; anything else raises `TypeError` (`None`). */
  function PathArg(v: Value): Option<Value> {
    match v
    case Str(s) => Some(PathV(s))
    case PathV(p) => Some(PathV(p))
    case _ => None
  }

  /** The keyword argument `from_json` takes for field `f` holding `v`, or `None` when `Path` raises. */
  function Explicit(f: Field, v: Value): Option<Value> {
    if v != Null && f.IsPath() then PathArg(v) else Some(v)
  }

  /** The keyword arguments the first loop collects from `fields`, or `None` once `Path` raises. */
  function Collected(fields: seq<Field>, data: map<string, Value>): Option<map<Field, Value>> {
    if fields == [] then Some(map[])
    else
      var f := fields[|fields| - 1];
      match Collected(fields[..|fields| - 1], data)
      case None => None
      case Some(kwargs) =>
        if f.Name() !in data then Some(kwargs)
        else match Explicit(f, data[f.Name()])
          case None => None
          case Some(v) => Some(kwargs[f := v])
  }

  /** The keyword arguments after `setdefault` of each of `fields` to its value in `defaults`. */
  function WithDefaults(kwargs: map<Field, Value>, fields: seq<Field>, defaults: AppConfig): map<Field, Value> {
    if fields == [] then kwargs
    else
      var f := fields[|fields| - 1];
      var r := WithDefaults(kwargs, fields[..|fields| - 1], defaults);
      if f in r then r else r[f := FieldValue(defaults, f)]
  }

  function AsPath(v: Value): Option<string> {
    if v.PathV? then Some(v.p) else None
  }

  function AsOptionalPath(v: Value): Option<Option<string>> {
    match v
    case Null => Some(None)
    case PathV(p) => Some(Some(p))
    case _ => None
  }

  function AsBool(v: Value): Option<bool> {
    if v.Bool? then Some(v.b) else None
  }

  /** `cls(**kwargs)` when every field has a value of its declared type; `None` otherwise. */
  function Build(kwargs: map<Field, Value>): Option<AppConfig> {
    if !(forall f: Field :: f in kwargs) then None
    else
      var instances := AsPath(kwargs[InstancesPath]);
      var game := AsPath(kwargs[GamePath]);
      var backup := AsOptionalPath(kwargs[BackupDir]);
      var newFiles := AsBool(kwargs[AutoConfirmNewFiles]);
      var updates := AsBool(kwargs[AutoConfirmUpdates]);
      var removals := AsBool(kwargs[AutoConfirmRemovals]);
      var exclusions := AsOptionalPath(kwargs[ExclusionsPath]);
      var history := AsOptionalPath(kwargs[HistoryPath]);
      if instances.Some? && game.Some? && backup.Some? && newFiles.Some? && updates.Some?
         && removals.Some? && exclusions.Some? && history.Some?
      then Some(AppConfig(
        instances.value, game.value, backup.value, newFiles.value, updates.value, removals.value,
        exclusions.value, history.value))
      else None
  }

  /** What `from_json(data)` builds with `defaults` standing for `cls.default()`. */
  function FromJsonOf(data: map<string, Value>, defaults: AppConfig): Option<AppConfig> {
    match Collected(FIELDS, data)
    case None => None
    case Some(kwargs) => Build(WithDefaults(kwargs, FIELDS, defaults))
  }

  /**
   * `from_json`: collect the declared fields present in `data` (a non-`None` value of a path field
   * through `Path`), then `setdefault` every field from the defaults, then build.
   */
  method FromJson(data: map<string, Value>, defaults: AppConfig) returns (config: Option<AppConfig>)
    ensures config == FromJsonOf(data, defaults)
  {
    var collected := CollectArguments(data);
    if collected == None {
      return None;
    }
    var kwargs := SetDefaults(collected.value, defaults);
    config := Build(kwargs);
  }

  /** The first loop of `from_json`; `None` when `Path` raises. */
  method CollectArguments(data: map<string, Value>) returns (kwargs: Option<map<Field, Value>>)
    ensures kwargs == Collected(FIELDS, data)
  {
    var found: map<Field, Value> := map[];
    var i := 0;
    while i < |FIELDS|
      invariant 0 <= i <= |FIELDS|
      invariant Collected(FIELDS[..i], data) == Some(found)
    {
      var f := FIELDS[i];
      assert FIELDS[..i + 1][..i] == FIELDS[..i];
      var name := f.Name();
      if name in data {
        var value := data[name];
        if value != Null && f.IsPath() {
          var arg := PathArg(value);
          if arg == None {
            CollectedStaysNone(FIELDS, i + 1, data);
            return None;
          }
          found := found[f := arg.value];
        } else {
          found := found[f := value];
        }
      }
      i := i + 1;
    }
    assert FIELDS[..i] == FIELDS;
    kwargs := Some(found);
  }

  /** The `setdefault` loop of `from_json`. */
  method SetDefaults(collected: map<Field, Value>, defaults: AppConfig) returns (kwargs: map<Field, Value>)
    ensures kwargs == WithDefaults(collected, FIELDS, defaults)
  {
    kwargs := collected;
    var j := 0;
    while j < |FIELDS|
      invariant 0 <= j <= |FIELDS|
      invariant kwargs == WithDefaults(collected, FIELDS[..j], defaults)
    {
      var f := FIELDS[j];
      assert FIELDS[..j + 1][..j] == FIELDS[..j];
      if f !in kwargs {
        kwargs := kwargs[f := FieldValue(defaults, f)];
      }
      j := j + 1;
    }
    assert FIELDS[..j] == FIELDS;
  }

  /** Once `Path` has raised on a prefix of the fields, the whole collection has. */
  lemma {:induction false} CollectedStaysNone(fields: seq<Field>, n: nat, data: map<string, Value>)
    requires n <= |fields| && Collected(fields[..n], data) == None
    ensures Collected(fields, data) == None
    decreases |fields| - n
  {
    if n < |fields| {
      assert fields[..n + 1][..n] == fields[..n];
      CollectedStaysNone(fields, n + 1, data);
    } else {
      assert fields[..n] == fields;
    }
  }

  /** What the first loop collects: exactly the present fields, each converted. */
  lemma {:induction false} CollectedFields(fields: seq<Field>, data: map<string, Value>)
    requires Collected(fields, data).Some?
    ensures forall f :: f in Collected(fields, data).value <==> f in fields && f.Name() in data
    ensures forall f :: f in fields && f.Name() in data ==>
      Explicit(f, data[f.Name()]).Some? && Collected(fields, data).value[f] == Explicit(f, data[f.Name()]).value
  {
    if fields != [] {
      var init := fields[..|fields| - 1];
      CollectedFields(init, data);
      assert fields == init + [fields[|fields| - 1]];
    }
  }

  /** The collection fails only when some present field makes `Path` raise. */
  lemma {:induction false} CollectedSome(fields: seq<Field>, data: map<string, Value>)
    requires forall f :: f in fields && f.Name() in data ==> Explicit(f, data[f.Name()]).Some?
    ensures Collected(fields, data).Some?
  {
    if fields != [] {
      CollectedSome(fields[..|fields| - 1], data);
    }
  }

  /** The first loop only looks at the keys of `data` that name declared fields. */
  lemma {:induction false} CollectedIgnoresOthers(fields: seq<Field>, data: map<string, Value>, data': map<string, Value>)
    requires forall f :: f in fields ==> (f.Name() in data <==> f.Name() in data') && (f.Name() in data ==> data[f.Name()] == data'[f.Name()])
    ensures Collected(fields, data) == Collected(fields, data')
  {
    if fields != [] {
      CollectedIgnoresOthers(fields[..|fields| - 1], data, data');
    }
  }

  /** `setdefault` keeps every value already there and adds the default for each missing field. */
  lemma {:induction false} WithDefaultsMembers(kwargs: map<Field, Value>, fields: seq<Field>, defaults: AppConfig)
    ensures forall f :: f in WithDefaults(kwargs, fields, defaults) <==> f in kwargs || f in fields
    ensures forall f :: f in kwargs ==> WithDefaults(kwargs, fields, defaults)[f] == kwargs[f]
    ensures forall f :: f in fields && f !in kwargs ==> WithDefaults(kwargs, fields, defaults)[f] == FieldValue(defaults, f)
  {
    if fields != [] {
      var init := fields[..|fields| - 1];
      WithDefaultsMembers(kwargs, init, defaults);
      assert fields == init + [fields[|fields| - 1]];
    }
  }

  /** The keyword arguments `from_json` builds from: present fields converted, absent ones defaulted. */
  lemma MergedArguments(data: map<string, Value>, defaults: AppConfig)
    requires Collected(FIELDS, data).Some?
    ensures var kwargs := WithDefaults(Collected(FIELDS, data).value, FIELDS, defaults);
      && (forall f: Field :: f in kwargs)
      && (forall f: Field :: f.Name() in data ==>
            Explicit(f, data[f.Name()]).Some? && kwargs[f] == Explicit(f, data[f.Name()]).value)
      && (forall f: Field :: f.Name() !in data ==> kwargs[f] == FieldValue(defaults, f))
  {
    FieldsListed();
    CollectedFields(FIELDS, data);
    WithDefaultsMembers(Collected(FIELDS, data).value, FIELDS, defaults);
  }

  /** Building from a config's own fields gives that config back, and only it. */
  lemma BuildFieldValues(kwargs: map<Field, Value>, c: AppConfig)
    ensures (forall f: Field :: f in kwargs && kwargs[f] == FieldValue(c, f)) ==> Build(kwargs) == Some(c)
    ensures Build(kwargs) == Some(c) ==> forall f: Field :: f in kwargs && kwargs[f] == FieldValue(c, f)
  {
    if Build(kwargs) == Some(c) {
      forall f: Field ensures f in kwargs && kwargs[f] == FieldValue(c, f) {
        match f
        case BackupDir => assert kwargs[f].Null? || kwargs[f].PathV?;
        case ExclusionsPath => assert kwargs[f].Null? || kwargs[f].PathV?;
        case HistoryPath => assert kwargs[f].Null? || kwargs[f].PathV?;
        case _ =>
      }
    }
  }

  /** `from_json` ignores every key that does not name a declared field. */
  lemma FromJsonIgnoresUndeclared(data: map<string, Value>, data': map<string, Value>, defaults: AppConfig)
    requires forall f: Field :: (f.Name() in data <==> f.Name() in data') && (f.Name() in data ==> data[f.Name()] == data'[f.Name()])
    ensures FromJsonOf(data, defaults) == FromJsonOf(data', defaults)
  {
    CollectedIgnoresOthers(FIELDS, data, data');
  }

  /**
   * Field by field, the config `from_json` builds holds the converted value of each present
   * field (a path field's string as a `Path`, `None` kept as `None`) and the default's value of
   * each absent one: `setdefault` never overrides a present field.
   */
  lemma FromJsonFields(data: map<string, Value>, defaults: AppConfig, f: Field)
    requires FromJsonOf(data, defaults).Some?
    ensures var c := FromJsonOf(data, defaults).value;
      && (f.Name() in data ==> Explicit(f, data[f.Name()]) == Some(FieldValue(c, f)))
      && (f.Name() in data && f.IsPath() && data[f.Name()].Str? ==> FieldValue(c, f) == PathV(data[f.Name()].s))
      && (f.Name() in data && data[f.Name()] == Null ==> FieldValue(c, f) == Null)
      && (f.Name() !in data ==> FieldValue(c, f) == FieldValue(defaults, f))
  {
    MergedArguments(data, defaults);
    BuildFieldValues(WithDefaults(Collected(FIELDS, data).value, FIELDS, defaults), FromJsonOf(data, defaults).value);
  }

  /** A path field holding something other than a string, a path or `None` makes `Path` raise. */
  lemma FromJsonRaises(data: map<string, Value>, defaults: AppConfig, f: Field)
    requires f.IsPath() && f.Name() in data && (data[f.Name()].Bool? || data[f.Name()].Other?)
    ensures FromJsonOf(data, defaults) == None
  {
    FieldsListed();
    assert f in FIELDS && PathArg(data[f.Name()]) == None;
    if Collected(FIELDS, data).Some? {
      CollectedFields(FIELDS, data);
    }
  }

  /** `from_json` reads a field written by `to_json` back as the value it had. */
  lemma StringifiedReads(c: AppConfig, f: Field)
    ensures Explicit(f, Stringified(FieldValue(c, f))) == Some(FieldValue(c, f))
  {
  }

  /** Round trip: `from_json(to_json(c))` is `c`, whatever the defaults. */
  lemma JsonRoundTrip(c: AppConfig, defaults: AppConfig)
    ensures FromJsonOf(JsonOf(c).items, defaults) == Some(c)
  {
    var data := JsonOf(c).items;
    forall f: Field ensures Explicit(f, data[f.Name()]) == Some(FieldValue(c, f)) {
      StringifiedReads(c, f);
    }
    CollectedSome(FIELDS, data);
    MergedArguments(data, defaults);
    BuildFieldValues(WithDefaults(Collected(FIELDS, data).value, FIELDS, defaults), c);
  }

  // ---------------------------------------------------------------------------------------------
  // ConfigManager

  /** The configuration file: missing, unreadable or not JSON, or the parsed object. */
  datatype ConfigFile = NoFile | Unreadable | Holds(data: map<string, Value>)

  class ConfigManager {
    var file: ConfigFile
    var cached: Option<AppConfig>
    /** What `AppConfig.default()` returns. */
    const defaults: AppConfig

    constructor (f: ConfigFile, d: AppConfig)
      ensures file == f && cached == None && defaults == d
    {
      file := f;
      cached := None;
      defaults := d;
    }

    /**
     * `save`: the given config, else the cached one, else the defaults, is written as the JSON
     * of `to_json` and becomes the cached config.
     */
    method Save(config: Option<AppConfig>)
      modifies this
      ensures var c := if config.Some? then config.value else if old(cached).Some? then old(cached).value else defaults;
        file == Holds(JsonOf(c).items) && cached == Some(c)
    {
      var toSave := config;
      if toSave == None {
        toSave := cached;
      }
      if toSave == None {
        toSave := Some(defaults);
      }
      var data := ToJson(toSave.value);
      file := Holds(data.items);
      cached := toSave;
    }

    /**
     * `load`: the cached config if there is one; otherwise `from_json` of the file, the defaults
     * when the file cannot be read or parsed, or the defaults saved to a missing file. `None`
     * stands for the `TypeError` `from_json` raises out of `load`.
     */
    method Load() returns (config: Option<AppConfig>)
      modifies this
      ensures old(cached).Some? ==> config == old(cached) && file == old(file) && cached == old(cached)
      ensures old(cached) == None && old(file).Holds? ==>
        config == FromJsonOf(old(file).data, defaults) && cached == config && file == old(file)
      ensures old(cached) == None && old(file) == Unreadable ==>
        config == Some(defaults) && cached == config && file == old(file)
      ensures old(cached) == None && old(file) == NoFile ==>
        config == Some(defaults) && cached == config && file == Holds(JsonOf(defaults).items)
    {
      if cached != None {
        return cached;
      }
      match file
      case Holds(data) =>
        config := FromJson(data, defaults);
        cached := config;
      case Unreadable =>
        config := Some(defaults);
        cached := config;
      case NoFile =>
        config := Some(defaults);
        cached := config;
        Save(config);
    }
  }
}
