/**
 * The registry tab: a read-only query of a key, and optionally of one value
 * under it. On Windows the key is split into a root key name and a
 * sub-path and read through `winreg`; elsewhere a JSON file stands in for
 * the registry, mapping key strings to objects of values. The backend is
 * fixed when the tab is built. The Windows registry is foreign: what its
 * calls answer is a parameter (`WinRegistry`).
 */
module Registry {
  import opened Wrappers
  import opened Text
  import opened Json
  import opened Host

  /** Where `key.split("\\\\", 1)` cuts: two backslash characters. */
  const Separator := "\\\\"
  /** What a missing simulated value reads as. */
  const NotPresent := "<not present>"
  const StoreFileName := "sim_registry.json"
  /** How the log line of a failed query starts. */
  const QueryError := "Registry query error: "
  /** How `str()` of the `AttributeError` for an unknown root key name starts. */
  const NoAttribute := "module 'winreg' has no attribute '"

  // ---------------------------------------------------------------- key split

  /**
   * `key.split("\\\\", 1)`: the root key name before the first separator
   * and the sub-path after it, or the whole key and `""` when there is none.
   * The root name never holds a separator, and when one was found it does
   * not end in a backslash either, so the cut is at the first separator.
   */
  function SplitKey(key: string): (r: (string, string))
    ensures forall i :: !OccursAt(r.0, Separator, i)
    ensures Find(key, Separator).None? ==> r == (key, "")
    ensures Find(key, Separator).Some? ==> r.0 + Separator + r.1 == key
    ensures Find(key, Separator).Some? ==> r.0 == [] || r.0[|r.0| - 1] != '\\'
  {
    match Find(key, Separator)
    case None => (key, "")
    case Some(i) =>
      CutAtFirst(key, i);
      (key[..i], key[i + 2..])
  }

  /** Cutting at the first separator leaves a root without a separator and without a trailing backslash. */
  lemma CutAtFirst(key: string, i: nat)
    requires OccursAt(key, Separator, i)
    requires forall j | 0 <= j < i :: !OccursAt(key, Separator, j)
    ensures forall j :: !OccursAt(key[..i], Separator, j)
    ensures key[..i] + Separator + key[i + 2..] == key
    ensures i == 0 || key[i - 1] != '\\'
  {
    var hive := key[..i];
    forall j | OccursAt(hive, Separator, j) ensures OccursAt(key, Separator, j) {
      assert key[j..j + 2] == hive[j..j + 2];
    }
    if i > 0 {
      assert !OccursAt(key, Separator, i - 1);
      assert key[i] == '\\';
    }
    assert key[i..i + 2] == Separator;
  }

  /**
   * The split is the only way to write the key as root, separator and
   * sub-path with a root that holds no separator and does not end in a
   * backslash.
   */
  lemma SplitKeyUnique(key: string, hive: string, sub: string)
    requires key == hive + Separator + sub
    requires forall i :: !OccursAt(hive, Separator, i)
    requires hive == [] || hive[|hive| - 1] != '\\'
    ensures SplitKey(key) == (hive, sub)
  {
    var n := |hive|;
    assert OccursAt(key, Separator, n) by {
      assert key[n..n + 2] == Separator;
    }
    assert key[..n] == hive;
    var i := Find(key, Separator).value;
    assert i <= n;
    assert OccursAt(key, Separator, i);
    assert i + 2 <= n ==> key[i..i + 2] == hive[i..i + 2];
    assert !OccursAt(hive, Separator, i);
    assert i + 2 > n;
    if n > 0 {
      assert key[n - 1] == hive[n - 1];
      assert !OccursAt(key, Separator, n - 1);
    }
    assert i == n;
    assert key[n + 2..] == sub;
  }

  // ---------------------------------------------------------------- Windows backend

  /** The root keys `winreg` names. */
  datatype Hive = ClassesRoot | CurrentUser | LocalMachine | Users | PerformanceData | CurrentConfig | DynData

  function HiveName(h: Hive): string
  {
    match h
    case ClassesRoot => "HKEY_CLASSES_ROOT"
    case CurrentUser => "HKEY_CURRENT_USER"
    case LocalMachine => "HKEY_LOCAL_MACHINE"
    case Users => "HKEY_USERS"
    case PerformanceData => "HKEY_PERFORMANCE_DATA"
    case CurrentConfig => "HKEY_CURRENT_CONFIG"
    case DynData => "HKEY_DYN_DATA"
  }

  /** `getattr(winreg, name)` for the root key names: the root key called `name`, if any. */
  function HiveNamed(name: string): (r: Option<Hive>)
    ensures r.Some? ==> HiveName(r.value) == name
    ensures r.None? ==> forall h: Hive :: HiveName(h) != name
  {
    if name == "HKEY_CLASSES_ROOT" then Some(ClassesRoot)
    else if name == "HKEY_CURRENT_USER" then Some(CurrentUser)
    else if name == "HKEY_LOCAL_MACHINE" then Some(LocalMachine)
    else if name == "HKEY_USERS" then Some(Users)
    else if name == "HKEY_PERFORMANCE_DATA" then Some(PerformanceData)
    else if name == "HKEY_CURRENT_CONFIG" then Some(CurrentConfig)
    else if name == "HKEY_DYN_DATA" then Some(DynData)
    else None
  }

  /** Each root key is found again by its name. */
  lemma HiveNameRoundTrip(h: Hive)
    ensures HiveNamed(HiveName(h)) == Some(h)
  {
    match h
    case ClassesRoot =>
    case CurrentUser =>
    case LocalMachine =>
    case Users =>
    case PerformanceData =>
    case CurrentConfig =>
    case DynData =>
  }

  /**
   * An opened key, as the Windows calls on it answer: `EnumValue(k, i)`
   * yields `values[i]` (a name and the `str()` of its data) or fails, and
   * fails for every index past the list; `QueryValueEx(k, name)` yields the
   * `str()` of the data or fails with the error's text.
   */
  datatype WinKey = WinKey(values: seq<Option<(string, string)>>, query: string -> Result<string, string>)

  /** `winreg.OpenKey(root, sub)`: the opened key, or the error's text. */
  datatype WinRegistry = WinRegistry(open: (Hive, string) -> Result<WinKey, string>)

  /** `winreg.EnumValue(k, i)`: the `i`-th value, failing at every index past the list. */
  function EnumValue(k: WinKey, i: nat): (r: Option<(string, string)>)
    ensures i >= |k.values| ==> r.None?
  {
    if i < |k.values| then k.values[i] else None
  }

  /**
   * `f"{v[0]}={v[1]}"`. For a value name without `=`, the entry cuts back
   * into the name and the data at its first `=`.
   */
  function FormatValue(v: (string, string)): (r: string)
    ensures '=' !in v.0 ==> Find(r, "=") == Some(|v.0|) && r[..|v.0|] == v.0 && r[|v.0| + 1..] == v.1
  {
    var r := v.0 + "=" + v.1;
    assert OccursAt(r, "=", |v.0|) by {
      assert r[|v.0|..|v.0| + 1] == "=";
    }
    assert '=' !in v.0 ==> forall i | 0 <= i < |v.0| :: !OccursAt(r, "=", i) by {
      forall i | 0 <= i < |v.0| && '=' !in v.0 ensures !OccursAt(r, "=", i) {
        assert r[i] == v.0[i] && v.0[i] in v.0;
        assert r[i..i + 1][0] == r[i];
      }
    }
    assert r[..|v.0|] == v.0;
    assert r[|v.0| + 1..] == v.1;
    r
  }

  /** The formatted values `EnumValue` yields from index `i` on, up to its first failure. */
  function EntriesFrom(k: WinKey, i: nat): (r: seq<string>)
    ensures forall j | i <= j < i + |r| :: EnumValue(k, j).Some? && r[j - i] == FormatValue(EnumValue(k, j).value)
    ensures EnumValue(k, i + |r|).None?
    decreases |k.values| - i
  {
    if EnumValue(k, i).None? then [] else [FormatValue(EnumValue(k, i).value)] + EntriesFrom(k, i + 1)
  }

  /** The formatted values of a key, in index order, up to the first index that fails. */
  function Entries(k: WinKey): seq<string>
  {
    EntriesFrom(k, 0)
  }

  /** Only one list is the values for indices 0, 1, ... in order, ending just before a failing index. */
  lemma EntriesUnique(k: WinKey, vals: seq<string>)
    requires forall j | 0 <= j < |vals| :: EnumValue(k, j).Some? && vals[j] == FormatValue(EnumValue(k, j).value)
    requires EnumValue(k, |vals|).None?
    ensures vals == Entries(k)
  {
    var e := Entries(k);
    assert |e| == |vals|;
  }

  /**
   * The enumeration loop: asks for the values at indices 0, 1, 2, ... and
   * stops at the first index whose call fails, having collected the
   * formatted values before it, in order.
   */
  method EnumerateValues(k: WinKey) returns (vals: seq<string>)
    ensures |vals| <= |k.values|
    ensures forall j | 0 <= j < |vals| :: EnumValue(k, j).Some? && vals[j] == FormatValue(EnumValue(k, j).value)
    ensures EnumValue(k, |vals|).None?
  {
    vals := [];
    var i := 0;
    while true
      invariant i == |vals| <= |k.values|
      invariant forall j | 0 <= j < i :: EnumValue(k, j).Some? && vals[j] == FormatValue(EnumValue(k, j).value)
      decreases |k.values| - i
    {
      var v := EnumValue(k, i);
      if v.None? {
        break;
      }
      vals := vals + [FormatValue(v.value)];
      i := i + 1;
    }
  }

  // ---------------------------------------------------------------- outcomes

  datatype QueryFault =
    | NoSuchHive(name: string)               // AttributeError from getattr(winreg, name)
    | WindowsError(text: string)             // OSError from OpenKey or QueryValueEx
    | StoreUnreadable(fault: Fault, path: string)  // the store file cannot be opened
    | StoreMalformed                         // json.JSONDecodeError
    | NoGet(value: Json)                     // AttributeError: `.get` on a value that is not a dict

  datatype QueryOutcome =
    | KeyRequired                                            // "Input required" dialog
    | NativeValue(key: string, name: string, text: string)   // one Windows value
    | NativeValues(key: string, values: seq<string>)         // all Windows values
    | SimulatedValue(key: string, name: string, value: Json) // one simulated value
    | SimulatedEntry(key: string, entry: Json)               // a whole simulated entry
    | QueryFailed(fault: QueryFault)                         // "Registry query error"

  /** Python's name for the type of a loaded value. */
  function TypeName(v: Json): string
  {
    match v
    case JNull => "NoneType"
    case JBool(_) => "bool"
    case JInt(_) => "int"
    case JStr(_) => "str"
    case JArray(_) => "list"
    case JObject(_) => "dict"
  }

  /** `str(e)` for the exception that ends a query. */
  function FaultMessage(f: QueryFault): string
  {
    match f
    case NoSuchHive(name) => NoAttribute + name + "'"
    case WindowsError(text) => text
    case StoreUnreadable(fault, path) => FaultText(fault, path)
    case StoreMalformed => "the store is not a JSON document"
    case NoGet(v) => "'" + TypeName(v) + "' object has no attribute 'get'"
  }

  /** The line the query logs; the "Input required" dialog logs nothing. */
  function QueryMessage(o: QueryOutcome): (r: Option<string>)
    ensures r.None? <==> o.KeyRequired?
  {
    match o
    case KeyRequired => None
    case NativeValue(key, name, text) => Some("Registry " + key + " " + name + " = " + text)
    case NativeValues(key, values) => Some("Registry " + key + " values: " + Join(";", values))
    case SimulatedValue(key, name, v) => Some("Simulated registry " + key + " " + name + " = " + Str(v))
    case SimulatedEntry(key, entry) => Some("Simulated registry " + key + " = " + Dumps(entry))
    case QueryFailed(f) => Some(QueryError + FaultMessage(f))
  }

  // ---------------------------------------------------------------- the query

  /** `value_entry.get().strip() or None`: a blank value name is no name. */
  function ValueName(valueField: string): (r: Option<string>)
    ensures r.None? <==> forall k | 0 <= k < |valueField| :: IsSpace(valueField[k])
    ensures r.Some? ==> r.value == Strip(valueField) && r.value != []
  {
    var name := Strip(valueField);
    if name == "" then None else Some(name)
  }

  /** The Windows worker, for a non-blank key. */
  function NativeLookup(reg: WinRegistry, key: string, name: Option<string>): (r: QueryOutcome)
    ensures r.QueryFailed? || r.NativeValue? || r.NativeValues?
    ensures HiveNamed(SplitKey(key).0).None? ==> r == QueryFailed(NoSuchHive(SplitKey(key).0))
    ensures r.NativeValue? ==> r.key == key && name == Some(r.name)
    ensures r.NativeValues? ==> r.key == key && name.None?
  {
    var (hiveName, sub) := SplitKey(key);
    match HiveNamed(hiveName)
    case None => QueryFailed(NoSuchHive(hiveName))
    case Some(hive) =>
      match reg.open(hive, sub)
      case Err(e) => QueryFailed(WindowsError(e))
      case Ok(k) =>
        match name
        case Some(n) =>
          (match k.query(n)
           case Ok(text) => NativeValue(key, n, text)
           case Err(e) => QueryFailed(WindowsError(e)))
        case None => NativeValues(key, Entries(k))
  }

  /**
   * The simulated lookup in a loaded store: `store.get(key, {})`, then with
   * a name `entry.get(name, "<not present>")`, and without one the entry
   * itself.
   */
  function SimulatedLookup(store: Json, key: string, name: Option<string>): (r: QueryOutcome)
    ensures r.QueryFailed? || r.SimulatedEntry? || r.SimulatedValue?
    ensures !store.JObject? ==> r == QueryFailed(NoGet(store))
    ensures store.JObject? && name.None? ==> r.SimulatedEntry? && r.key == key
    ensures r.SimulatedValue? ==> r.key == key && name == Some(r.name)
  {
    match store
    case JObject(members) =>
      var entry := match Get(members, key) case Some(e) => e case None => JObject([]);
      (match name
       case None => SimulatedEntry(key, entry)
       case Some(n) =>
         match entry
         case JObject(values) =>
           SimulatedValue(key, n, match Get(values, n) case Some(v) => v case None => JStr(NotPresent))
         case _ => QueryFailed(NoGet(entry)))
    case _ => QueryFailed(NoGet(store))
  }

  /**
   * What the simulated worker makes of reading the store file: a read
   * error, a file `json.load` rejects, or the lookup in the loaded store.
   */
  function StoreLookup(read: Result<Content, Fault>, storePath: string, key: string, name: Option<string>): (r: QueryOutcome)
    ensures read.Err? <==> r.QueryFailed? && r.fault.StoreUnreadable?
    ensures read.Err? ==> r == QueryFailed(StoreUnreadable(read.error, storePath))
    ensures read.Ok? && read.value.Plain? <==> r == QueryFailed(StoreMalformed)
  {
    match read
    case Err(f) => QueryFailed(StoreUnreadable(f, storePath))
    case Ok(Plain(_)) => QueryFailed(StoreMalformed)
    case Ok(Document(store)) => SimulatedLookup(store, key, name)
  }

  /** The simulated worker, for a non-blank key: read the store file, then look up. */
  function SimulatedQuery(files: map<string, Content>, dirs: set<string>, storePath: string,
                          key: string, name: Option<string>): (r: QueryOutcome)
    ensures !(storePath in files && '\0' !in storePath) ==> r.QueryFailed? && r.fault.StoreUnreadable?
    ensures storePath in files && '\0' !in storePath && files[storePath].Plain? ==> r == QueryFailed(StoreMalformed)
    ensures storePath in files && '\0' !in storePath && files[storePath].Document? ==>
              r == SimulatedLookup(files[storePath].doc, key, name)
  {
    StoreLookup(ReadFile(files, dirs, storePath), storePath, key, name)
  }

  /** The Query button with the backend `windows` selects. */
  function QueryResult(windows: bool, files: map<string, Content>, dirs: set<string>, storePath: string,
                       reg: WinRegistry, keyField: string, valueField: string): (r: QueryOutcome)
    ensures r.KeyRequired? <==> forall k | 0 <= k < |keyField| :: IsSpace(keyField[k])
    ensures windows ==> !r.SimulatedEntry? && !r.SimulatedValue?
    ensures !windows ==> !r.NativeValue? && !r.NativeValues?
  {
    var key := Strip(keyField);
    if key == "" then KeyRequired
    else if windows then NativeLookup(reg, key, ValueName(valueField))
    else SimulatedQuery(files, dirs, storePath, key, ValueName(valueField))
  }

  /** `os.path.join(directory, name)` for a relative `name`. */
  function PathJoin(directory: string, name: string): string
  {
    if directory == "" then name
    else if directory[|directory| - 1] == '/' then directory + name
    else directory + "/" + name
  }

  /** `store_path or os.path.join(<directory of the tab's source>, "sim_registry.json")`. */
  function StorePath(given: string, tabsDir: string): (r: string)
    ensures given != "" ==> r == given
    ensures given == "" ==> EndsWith(r, StoreFileName) && StartsWith(r, tabsDir)
  {
    if given != "" then given else PathJoin(tabsDir, StoreFileName)
  }

  /**
   * The error building the tab raises, if any: off Windows, writing `{}`
   * to a missing store file. It propagates out of `__init__`, so the tab
   * is never built.
   */
  function StoreInitFault(windows: bool, files: map<string, Content>, dirs: set<string>, storePath: string): (f: Option<Fault>)
    ensures f.None? <==> windows || Exists(files, dirs, storePath) ||
                         ('\0' !in storePath && Parent(storePath) in dirs && !TooLong(storePath))
    ensures f.Some? ==> f == WriteFault(files, dirs, storePath)
  {
    if windows || Exists(files, dirs, storePath) then None else WriteFault(files, dirs, storePath)
  }

  /**
   * `RegistryTab(parent, app, store_path)`: the tab, or the error that
   * ended `__init__`, in which case no file was written.
   */
  method NewRegistryTab(windows: bool, given: string, tabsDir: string, machine: Machine)
    returns (r: Result<RegistryTab, Fault>)
    modifies machine
    ensures var path := StorePath(given, tabsDir);
      var f := StoreInitFault(windows, old(machine.files), machine.dirs, path);
      (f.Some? ==> r == Err(f.value) && machine.files == old(machine.files)) &&
      (f.None? ==> r.Ok? && fresh(r.value) && r.value.storePath == path && r.value.machine == machine &&
                   r.value.windows == windows)
    ensures machine.handles == old(machine.handles)
    ensures r.Ok? && !windows && !Exists(old(machine.files), machine.dirs, StorePath(given, tabsDir)) ==>
              machine.files == old(machine.files)[StorePath(given, tabsDir) := Document(JObject([]))]
    ensures r.Ok? && (windows || Exists(old(machine.files), machine.dirs, StorePath(given, tabsDir))) ==>
              machine.files == old(machine.files)
  {
    var fault := StoreInitFault(windows, machine.files, machine.dirs, StorePath(given, tabsDir));
    if fault.Some? {
      return Err(fault.value);
    }
    var tab := new RegistryTab(windows, given, tabsDir, machine);
    return Ok(tab);
  }

  class RegistryTab {
    const windows: bool
    const storePath: string
    const machine: Machine

    /**
     * Builds the tab. Off Windows, a missing store file is created holding
     * `{}`; an existing file (or directory) is left as it is. When writing
     * the file fails, the tab is never built: `NewRegistryTab` reports that
     * error instead of calling this constructor.
     */
    constructor (windows: bool, given: string, tabsDir: string, machine: Machine)
      requires StoreInitFault(windows, machine.files, machine.dirs, StorePath(given, tabsDir)).None?
      modifies machine
      ensures this.windows == windows && this.machine == machine
      ensures storePath == StorePath(given, tabsDir)
      ensures machine.handles == old(machine.handles)
      ensures !windows && !Exists(old(machine.files), machine.dirs, storePath) ==>
                machine.files == old(machine.files)[storePath := Document(JObject([]))]
      ensures windows || Exists(old(machine.files), machine.dirs, storePath) ==>
                machine.files == old(machine.files)
    {
      this.windows := windows;
      storePath := StorePath(given, tabsDir);
      this.machine := machine;
      new;
      if !windows && !Exists(machine.files, machine.dirs, storePath) {
        var fault := machine.Write(storePath, Document(JObject([])));
      }
    }

    /**
     * The Query button and its worker. The query only reads: the store file
     * and everything else on the machine are left as they are.
     */
    method Query(keyField: string, valueField: string, reg: WinRegistry) returns (outcome: QueryOutcome)
      ensures outcome == QueryResult(windows, machine.files, machine.dirs, storePath, reg, keyField, valueField)
    {
      var key := Strip(keyField);
      var name := ValueName(valueField);
      if key == "" {
        return KeyRequired;
      }
      if windows {
        var (hiveName, sub) := SplitKey(key);
        var hive := HiveNamed(hiveName);
        if hive.None? {
          return QueryFailed(NoSuchHive(hiveName));
        }
        var keyOpen := reg.open(hive.value, sub);
        if keyOpen.Err? {
          return QueryFailed(WindowsError(keyOpen.error));
        }
        var k := keyOpen.value;
        if name.Some? {
          var answer := k.query(name.value);
          outcome := if answer.Ok? then NativeValue(key, name.value, answer.value)
                     else QueryFailed(WindowsError(answer.error));
        } else {
          var vals := EnumerateValues(k);
          EntriesUnique(k, vals);
          outcome := NativeValues(key, vals);
        }
      } else {
        var read := machine.Read(storePath);
        outcome := StoreLookup(read, storePath, key, name);
      }
    }
  }

  // ---------------------------------------------------------------- properties

  /** A blank key performs no query, on either backend. */
  lemma BlankKeyNoQuery(windows: bool, files: map<string, Content>, dirs: set<string>, storePath: string,
                        reg: WinRegistry, keyField: string, valueField: string)
    requires forall k | 0 <= k < |keyField| :: IsSpace(keyField[k])
    ensures QueryResult(windows, files, dirs, storePath, reg, keyField, valueField) == KeyRequired
  {
  }

  /**
   * A blank value name is no name: the simulated lookup gives what it gives
   * without a name (the whole entry), and so does the whole query, on either
   * backend, as with an empty value field.
   */
  lemma BlankNameGivesEntry(windows: bool, files: map<string, Content>, dirs: set<string>, storePath: string,
                            reg: WinRegistry, store: Json, key: string, keyField: string, valueField: string)
    requires forall k | 0 <= k < |valueField| :: IsSpace(valueField[k])
    ensures SimulatedLookup(store, key, ValueName(valueField)) == SimulatedLookup(store, key, None)
    ensures store.JObject? ==> SimulatedLookup(store, key, ValueName(valueField)).SimulatedEntry?
    ensures QueryResult(windows, files, dirs, storePath, reg, keyField, valueField)
         == QueryResult(windows, files, dirs, storePath, reg, keyField, "")
  {
    assert ValueName(valueField) == None;
    assert ValueName("") == None;
  }

  /** Without a name, a key present in the store gives its entry, logged as `json.dumps` writes it. */
  lemma PresentKeyEntry(members: seq<(string, Json)>, key: string, entry: Json)
    requires Get(members, key) == Some(entry)
    ensures SimulatedLookup(JObject(members), key, None) == SimulatedEntry(key, entry)
    ensures QueryMessage(SimulatedLookup(JObject(members), key, None)) == Some("Simulated registry " + key + " = " + Dumps(entry))
  {
  }

  /** A key absent from the store reads as an empty entry: serialised `{}` without a name, the marker with one. */
  lemma AbsentKeyIsEmpty(members: seq<(string, Json)>, key: string, name: Option<string>)
    requires forall i | 0 <= i < |members| :: members[i].0 != key
    ensures name.None? ==> SimulatedLookup(JObject(members), key, name) == SimulatedEntry(key, JObject([]))
    ensures name.None? ==> QueryMessage(SimulatedLookup(JObject(members), key, name)) == Some("Simulated registry " + key + " = {}")
    ensures name.Some? ==> SimulatedLookup(JObject(members), key, name) == SimulatedValue(key, name.value, JStr(NotPresent))
  {
    DumpsEmptyObject();
    assert "Simulated registry " + key + " = " + "{}" == "Simulated registry " + key + " = {}";
  }

  /** With a name, the stored value is returned when the entry has it, and `<not present>` otherwise. */
  lemma NamedLookup(members: seq<(string, Json)>, key: string, values: seq<(string, Json)>, name: string)
    requires Get(members, key) == Some(JObject(values))
    requires DistinctNames(values)
    ensures forall i | 0 <= i < |values| && values[i].0 == name ::
              SimulatedLookup(JObject(members), key, Some(name)) == SimulatedValue(key, name, values[i].1)
    ensures (forall i | 0 <= i < |values| :: values[i].0 != name) ==>
              SimulatedLookup(JObject(members), key, Some(name)) == SimulatedValue(key, name, JStr(NotPresent))
  {
    forall i | 0 <= i < |values| && values[i].0 == name
      ensures SimulatedLookup(JObject(members), key, Some(name)) == SimulatedValue(key, name, values[i].1)
    {
      GetDistinct(values, i);
    }
  }

  /** A query against a store holding `{}`, for any key and no name, logs the entry as `{}`. */
  lemma EmptyStoreQuery(files: map<string, Content>, dirs: set<string>, storePath: string, reg: WinRegistry, valueField: string)
    requires storePath in files && '\0' !in storePath && files[storePath] == Document(JObject([]))
    requires forall k | 0 <= k < |valueField| :: IsSpace(valueField[k])
    ensures QueryResult(false, files, dirs, storePath, reg, "HKCU", valueField) == SimulatedEntry("HKCU", JObject([]))
    ensures QueryMessage(QueryResult(false, files, dirs, storePath, reg, "HKCU", valueField)) == Some("Simulated registry HKCU = {}")
  {
    StripUnpadded("HKCU");
    DumpsEmptyObject();
    assert "Simulated registry " + "HKCU" + " = " + "{}" == "Simulated registry HKCU = {}";
  }

  /** Without a name, the Windows query reports the values up to the first failing index, joined with `;`. */
  lemma NativeValuesJoined(reg: WinRegistry, key: string, hive: Hive, sub: string, k: WinKey)
    requires SplitKey(key) == (HiveName(hive), sub)
    requires reg.open(hive, sub) == Ok(k)
    ensures NativeLookup(reg, key, None) == NativeValues(key, Entries(k))
    ensures QueryMessage(NativeLookup(reg, key, None)) == Some("Registry " + key + " values: " + Join(";", Entries(k)))
  {
    HiveNameRoundTrip(hive);
  }

  /** The log line for a root key name `winreg` does not have. */
  lemma NoSuchHiveMessage(name: string)
    ensures QueryMessage(QueryFailed(NoSuchHive(name)))
         == Some(QueryError + NoAttribute + name + "'")
  {
    assert QueryError + (NoAttribute + name + "'") == QueryError + NoAttribute + name + "'";
  }

  lemma HiveNameNoBackslash(h: Hive)
    ensures '\\' !in HiveName(h)
  {
  }

  /** A key written as a root key name, the separator and a sub-path splits back into those two. */
  lemma HiveKeySplit(h: Hive, sub: string)
    ensures SplitKey(HiveName(h) + Separator + sub) == (HiveName(h), sub)
  {
    var root := HiveName(h);
    HiveNameNoBackslash(h);
    forall i | 0 <= i && i + 2 <= |root| ensures !OccursAt(root, Separator, i) {
      assert root[i] in root;
      assert root[i..i + 2][0] == root[i];
    }
    assert root[|root| - 1] in root;
    SplitKeyUnique(root + Separator + sub, root, sub);
  }

  /**
   * A bare root key name has no separator: it splits into itself and the
   * empty sub-path, so `OpenKey` opens the root key itself.
   */
  lemma BareHiveSplit(h: Hive)
    ensures SplitKey(HiveName(h)) == (HiveName(h), "")
  {
    var root := HiveName(h);
    HiveNameNoBackslash(h);
    forall i | 0 <= i && i + 2 <= |root| ensures !OccursAt(root, Separator, i) {
      assert root[i] in root;
      assert root[i..i + 2][0] == root[i];
    }
  }

  /**
   * With a name, the Windows query for a key that splits into a root key's
   * name and a sub-path (`HiveKeySplit`, `BareHiveSplit`) opens that
   * sub-path under the root key and asks it for that value: its data is
   * logged, and a failure of either call is logged with the error's text.
   */
  lemma NativeNamedValue(reg: WinRegistry, key: string, h: Hive, sub: string, n: string)
    requires SplitKey(key) == (HiveName(h), sub)
    ensures var r := NativeLookup(reg, key, Some(n));
      match reg.open(h, sub)
      case Err(e) => r == QueryFailed(WindowsError(e))
      case Ok(k) =>
        match k.query(n)
        case Ok(text) => r == NativeValue(key, n, text)
        case Err(e) => r == QueryFailed(WindowsError(e))
  {
    HiveNameRoundTrip(h);
  }

  /**
   * Without a name, for a key that splits into a root key's name and a
   * sub-path, a sub-path the root key cannot open is logged with the
   * error's text, and an opened one yields its enumerated values.
   */
  lemma NativeValuesOpened(reg: WinRegistry, key: string, h: Hive, sub: string)
    requires SplitKey(key) == (HiveName(h), sub)
    ensures var r := NativeLookup(reg, key, None);
      match reg.open(h, sub)
      case Err(e) => r == QueryFailed(WindowsError(e))
      case Ok(k) => r == NativeValues(key, Entries(k))
  {
    HiveNameRoundTrip(h);
  }

  /**
   * A key written with one backslash has no two-character separator: the
   * whole key is taken as the root key name, which no root key has, and the
   * query logs the missing attribute under that name as typed.
   */
  lemma SingleBackslashKey(reg: WinRegistry, root: string, sub: string, name: Option<string>)
    requires '\\' !in root && '\\' !in sub
    ensures var key := root + "\\" + sub;
      QueryMessage(NativeLookup(reg, key, name))
      == Some(QueryError + NoAttribute + key + "'")
  {
    var key := root + "\\" + sub;
    forall j | 0 <= j && j + 2 <= |key| ensures !OccursAt(key, Separator, j) {
      if j < |root| {
        assert key[j] == root[j] && root[j] != '\\';
        assert key[j..j + 2][0] == key[j];
      } else {
        assert key[j + 1] == sub[j - |root|] && sub[j - |root|] != '\\';
        assert key[j..j + 2][1] == key[j + 1];
      }
    }
    assert Find(key, Separator).None?;
    assert key[|root|] == '\\';
    forall h: Hive ensures HiveName(h) != key {
      HiveNameNoBackslash(h);
    }
    assert SplitKey(key) == (key, "");
    assert NativeLookup(reg, key, name) == QueryFailed(NoSuchHive(key));
    NoSuchHiveMessage(key);
  }

  /** When no value contains `;`, the logged list splits back into exactly the collected values. */
  lemma NativeValuesRecoverable(k: WinKey)
    requires Entries(k) != []
    requires forall i | 0 <= i < |Entries(k)| :: ';' !in Entries(k)[i]
    ensures Split(Join(";", Entries(k)), ';') == Entries(k)
  {
    SplitJoin(Entries(k), ';');
  }
}
