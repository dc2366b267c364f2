/**
  The add-in's settings store: one JSON file that maps each module name to that
  module's record. The file is modelled by its parsed contents, `None` when the
  file does not exist.
*/
module SharedState {
  import opened Wrappers
  import opened Json

  // ---------------------------------------------------------------------------
  // Where the settings file lives
  // ---------------------------------------------------------------------------

  /** The path separator of the platform, as `os.path.join` writes it. */
  function Separator(platform: string): char {
    if platform == "Windows" then '\\' else '/'
  }

  predicate IsSeparator(platform: string, c: char) {
    c == Separator(platform) || (platform == "Windows" && c == '/')
  }

  /** `os.path.join(a, b)` for two components. */
  function Join(platform: string, a: string, b: string): (r: string)
    ensures |b| > 0 && IsSeparator(platform, b[0]) ==> r == b
    ensures (|b| == 0 || !IsSeparator(platform, b[0])) && (a == "" || IsSeparator(platform, a[|a| - 1])) ==>
              r == a + b
    ensures (|b| == 0 || !IsSeparator(platform, b[0])) && a != "" && !IsSeparator(platform, a[|a| - 1]) ==>
              r == a + [Separator(platform)] + b
  {
    if |b| > 0 && IsSeparator(platform, b[0]) then b
    else if a == "" || IsSeparator(platform, a[|a| - 1]) then a + b
    else a + [Separator(platform)] + b
  }

  /** The folder name `<COMPANY>_<ADDIN>`. */
  function FolderName(company: string, addin: string): string {
    company + "_" + addin
  }

  /** `get_settings_directory()`: `platform` is `platform.system()` and `home` is `~` expanded. */
  function SettingsDirectory(platform: string, home: string, company: string, addin: string): (r: string)
  {
    if platform == "Windows" then
      Join(platform, Join(platform, Join(platform, home, "AppData"), "Roaming"), FolderName(company, addin))
    else if platform == "Darwin" then
      Join(platform, Join(platform, Join(platform, home, "Library"), "Application Support"), FolderName(company, addin))
    else
      Join(platform, home, "." + FolderName(company, addin))
  }

  /** For a home folder that does not end in a separator and a company name that does not start
      with one, the settings folder is the platform's folder for application data under home. */
  lemma SettingsDirectoryLayout(platform: string, home: string, company: string, addin: string)
    requires home != "" && !IsSeparator(platform, home[|home| - 1])
    requires company == "" || !IsSeparator(platform, company[0])
    ensures platform == "Windows" ==>
      SettingsDirectory(platform, home, company, addin) == home + "\\AppData\\Roaming\\" + company + "_" + addin
    ensures platform == "Darwin" ==>
      SettingsDirectory(platform, home, company, addin) == home + "/Library/Application Support/" + company + "_" + addin
    ensures platform != "Windows" && platform != "Darwin" ==>
      SettingsDirectory(platform, home, company, addin) == home + "/." + company + "_" + addin
  {
    var name := FolderName(company, addin);
    FolderNameStart(platform, company, addin);
    if platform == "Windows" {
      WindowsLayout(home, name);
      assert home + "\\AppData\\Roaming\\" + company + "_" + addin == home + "\\AppData\\Roaming\\" + name;
    } else if platform == "Darwin" {
      DarwinLayout(home, name);
      assert home + "/Library/Application Support/" + company + "_" + addin == home + "/Library/Application Support/" + name;
    } else {
      OtherLayout(platform, home, name);
      assert home + "/." + company + "_" + addin == home + "/." + name;
    }
  }

  lemma FolderNameStart(platform: string, company: string, addin: string)
    requires company == "" || !IsSeparator(platform, company[0])
    ensures FolderName(company, addin) != "" && !IsSeparator(platform, FolderName(company, addin)[0])
  {
    assert FolderName(company, addin)[0] == if company == "" then '_' else company[0];
  }

  lemma OtherLayout(platform: string, home: string, name: string)
    requires platform != "Windows" && platform != "Darwin"
    requires home != "" && !IsSeparator(platform, home[|home| - 1])
    ensures Join(platform, home, "." + name) == home + "/." + name
  {
    assert Join(platform, home, "." + name) == home + ['/'] + ("." + name);
  }

  lemma WindowsLayout(home: string, name: string)
    requires home != "" && !IsSeparator("Windows", home[|home| - 1])
    requires name != "" && !IsSeparator("Windows", name[0])
    ensures Join("Windows", Join("Windows", Join("Windows", home, "AppData"), "Roaming"), name)
              == home + "\\AppData\\Roaming\\" + name
  {
    var a := Join("Windows", home, "AppData");
    assert a == home + ['\\'] + "AppData";
    var b := Join("Windows", a, "Roaming");
    assert b == a + ['\\'] + "Roaming";
    assert Join("Windows", b, name) == b + ['\\'] + name;
    assert home + "\\AppData\\Roaming\\" + name == ((home + ['\\'] + "AppData") + ['\\'] + "Roaming") + ['\\'] + name;
  }

  lemma DarwinLayout(home: string, name: string)
    requires home != "" && !IsSeparator("Darwin", home[|home| - 1])
    requires name != "" && !IsSeparator("Darwin", name[0])
    ensures Join("Darwin", Join("Darwin", Join("Darwin", home, "Library"), "Application Support"), name)
              == home + "/Library/Application Support/" + name
  {
    var a := Join("Darwin", home, "Library");
    assert a == home + ['/'] + "Library";
    var b := Join("Darwin", a, "Application Support");
    assert b == a + ['/'] + "Application Support";
    assert Join("Darwin", b, name) == b + ['/'] + name;
    assert home + "/Library/Application Support/" + name == ((home + ['/'] + "Library") + ['/'] + "Application Support") + ['/'] + name;
  }

  // ---------------------------------------------------------------------------
  // The file's contents and the three store operations, as functions
  // ---------------------------------------------------------------------------

  /** What `json.load` gives for the file, or `{}` when there is no file. */
  function AllFrom(file: Option<Json>): (r: Json)
    ensures file.None? ==> r == Obj(Empty)
    ensures file.Some? ==> r == file.value
  {
    match file
    case None => Obj(Empty)
    case Some(j) => j
  }

  /** `load_settings(moduleName)`: the record's `"settings"` value, `{}` when either is absent. */
  function LoadFrom(file: Option<Json>, moduleName: string): Result<Json> {
    match AllFrom(file)
    case Obj(all) =>
      (match GetOr(all, moduleName, Obj(Empty))
       case Obj(record) => Ok(GetOr(record, "settings", Obj(Empty)))
       case _ => Err(AttributeError("module record has no attribute 'get'")))
    case _ => Err(AttributeError("settings file has no attribute 'get'"))
  }

  /** `save_settings(moduleName, value)`: the new file contents. */
  function SaveInto(file: Option<Json>, moduleName: string, value: Json): Result<Json>
    requires ValidFile(file)
  {
    match AllFrom(file)
    case Obj(all) => Ok(Obj(Put(all, moduleName, value)))
    case _ => Err(TypeError("settings file does not support item assignment"))
  }

  /** A file that exists holds a dict with no repeated key, as `json.load` builds it. */
  ghost predicate ValidFile(file: Option<Json>) {
    file.Some? && file.value.Obj? ==> ValidDict(file.value.d)
  }

  // ---------------------------------------------------------------------------
  // Properties of the store
  // ---------------------------------------------------------------------------

  /** A module that is not in the store loads as `{}`; so does every module when there is no file. */
  lemma LoadAbsentModule(file: Option<Json>, moduleName: string)
    requires file.None? || (file.value.Obj? && moduleName !in file.value.d.vals)
    ensures LoadFrom(file, moduleName) == Ok(Obj(Empty))
  {
  }

  /** The record's `"settings"` value is what loading the module gives back after saving it. */
  lemma SaveLoadRoundTrip(file: Option<Json>, moduleName: string, record: Dict, f: Json)
    requires ValidFile(file)
    requires SaveInto(file, moduleName, Obj(record)) == Ok(f)
    ensures LoadFrom(Some(f), moduleName) == Ok(GetOr(record, "settings", Obj(Empty)))
  {
  }

  /** After `save_settings(m, {"settings": s})`, `load_settings(m)` returns `s`. */
  lemma SaveEnvelopeLoadRoundTrip(file: Option<Json>, moduleName: string, s: Json)
    requires ValidFile(file) && SaveInto(file, moduleName, Obj(Single("settings", s))).Ok?
    ensures LoadFrom(Some(SaveInto(file, moduleName, Obj(Single("settings", s))).value), moduleName) == Ok(s)
  {
    SaveLoadRoundTrip(file, moduleName, Single("settings", s), SaveInto(file, moduleName, Obj(Single("settings", s))).value);
  }

  /** Saving a record without a `"settings"` key and then loading the module gives `{}`. */
  lemma SaveFlatLoadsEmpty(file: Option<Json>, moduleName: string, record: Dict)
    requires ValidFile(file) && "settings" !in record.vals
    requires SaveInto(file, moduleName, Obj(record)).Ok?
    ensures LoadFrom(Some(SaveInto(file, moduleName, Obj(record)).value), moduleName) == Ok(Obj(Empty))
  {
    SaveLoadRoundTrip(file, moduleName, record, SaveInto(file, moduleName, Obj(record)).value);
  }

  /** Saving succeeds exactly when there is no file or the file holds a dict; it changes only the
      saved module's entry, keeps the order of the modules and puts a new module last. */
  lemma SaveFrame(file: Option<Json>, moduleName: string, value: Json)
    requires ValidFile(file)
    ensures SaveInto(file, moduleName, value).Ok? <==> AllFrom(file).Obj?
    ensures SaveInto(file, moduleName, value).Ok? ==>
      var all := AllFrom(file).d;
      var f := SaveInto(file, moduleName, value).value;
      && f.Obj? && ValidFile(Some(f))
      && Get(f.d, moduleName) == Some(value)
      && (forall other :: other != moduleName ==> Get(f.d, other) == Get(all, other))
      && f.d.keys == (if moduleName in all.keys then all.keys else all.keys + [moduleName])
  {
  }

  /** Saving the same value twice leaves the same file as saving it once. */
  lemma SaveIdempotent(file: Option<Json>, moduleName: string, value: Json)
    requires ValidFile(file) && SaveInto(file, moduleName, value).Ok?
    ensures ValidFile(Some(SaveInto(file, moduleName, value).value))
    ensures SaveInto(Some(SaveInto(file, moduleName, value).value), moduleName, value) == SaveInto(file, moduleName, value)
  {
    PutTwice(AllFrom(file).d, moduleName, value);
  }

  /** After `save_settings(m, v)`, `get_all_module_settings()[m] == v`. */
  lemma SaveThenGetAll(file: Option<Json>, moduleName: string, value: Json)
    requires ValidFile(file) && SaveInto(file, moduleName, value).Ok?
    ensures Subscript(AllFrom(Some(SaveInto(file, moduleName, value).value)), moduleName) == Ok(value)
  {
  }

  // ---------------------------------------------------------------------------
  // The store itself
  // ---------------------------------------------------------------------------

  class SettingsStore {
    /** The parsed contents of the settings file, `None` when the file does not exist. */
    var file: Option<Json>

    ghost predicate Valid()
      reads this
    {
      ValidFile(file)
    }

    constructor (initial: Option<Json>)
      requires ValidFile(initial)
      ensures Valid() && file == initial
    {
      file := initial;
    }

    /** `load_settings(moduleName)` */
    method LoadSettings(moduleName: string) returns (r: Result<Json>)
      ensures r == LoadFrom(file, moduleName)
      ensures r.Ok? <==> AllFrom(file).Obj? && GetOr(AllFrom(file).d, moduleName, Obj(Empty)).Obj?
    {
      var all := if file.None? then Obj(Empty) else file.value;
      if !all.Obj? {
        return Err(AttributeError("settings file has no attribute 'get'"));
      }
      var moduleData := GetOr(all.d, moduleName, Obj(Empty));
      if !moduleData.Obj? {
        return Err(AttributeError("module record has no attribute 'get'"));
      }
      r := Ok(GetOr(moduleData.d, "settings", Obj(Empty)));
    }

    /** `save_settings(moduleName, value)`: read the file, replace one entry, write the file back. */
    method SaveSettings(moduleName: string, value: Json) returns (r: Result<()>)
      requires Valid()
      modifies this
      ensures Valid()
      ensures SaveInto(old(file), moduleName, value).Ok? ==>
                r.Ok? && file == Some(SaveInto(old(file), moduleName, value).value)
      ensures SaveInto(old(file), moduleName, value).Err? ==>
                r == Err(SaveInto(old(file), moduleName, value).error) && file == old(file)
    {
      var all := if file.None? then Obj(Empty) else file.value;
      if !all.Obj? {
        return Err(TypeError("settings file does not support item assignment"));
      }
      file := Some(Obj(Put(all.d, moduleName, value)));
      r := Ok(());
    }

    /** `get_all_module_settings()` */
    method GetAllModuleSettings() returns (r: Json)
      ensures file.None? ==> r == Obj(Empty)
      ensures file.Some? ==> r == file.value
    {
      r := if file.None? then Obj(Empty) else file.value;
    }

    /** The first-use initialisation every command module runs when it is imported:
        `if not load_settings(m): save_settings(m, defaults)`. */
    method InitializeOnFirstUse(moduleName: string, defaults: Json) returns (r: Result<()>)
      requires Valid()
      modifies this
      ensures Valid()
      ensures r.Ok? || file == old(file)
      ensures r.Ok? ==> file == FirstUse(old(file), moduleName, defaults)
      ensures r.Err? <==> FirstUseFails(old(file), moduleName, defaults)
    {
      var settings := LoadSettings(moduleName);
      if settings.Err? {
        return Err(settings.error);
      }
      if !Truthy(settings.value) {
        r := SaveSettings(moduleName, defaults);
      } else {
        r := Ok(());
      }
    }
  }

  /** The file after the first-use initialisation, when it succeeds. */
  function FirstUse(file: Option<Json>, moduleName: string, defaults: Json): Option<Json>
    requires ValidFile(file)
  {
    match LoadFrom(file, moduleName)
    case Ok(s) =>
      if Truthy(s) then file
      else (match SaveInto(file, moduleName, defaults) case Ok(f) => Some(f) case Err(_) => file)
    case Err(_) => file
  }

  /** The first-use initialisation raises exactly when loading or saving raises. */
  predicate FirstUseFails(file: Option<Json>, moduleName: string, defaults: Json)
    requires ValidFile(file)
  {
    LoadFrom(file, moduleName).Err? || (!Truthy(LoadFrom(file, moduleName).value) && SaveInto(file, moduleName, defaults).Err?)
  }
}
