/**
  The settings panel: it renders the whole settings store as one tab per module and one
  input per setting descriptor, and writes an edited input back into the store as that
  descriptor's new `default`.
*/
module SettingsPanel {
  import opened Wrappers
  import opened Json
  import opened SharedState

  // ---------------------------------------------------------------------------
  // What rendering creates in the host's command dialog
  // ---------------------------------------------------------------------------

  datatype ListItem = ListItem(name: Json, isSelected: bool)

  datatype Widget =
    | BoolValueInput(id: string, name: Json, isCheckBox: bool, initialValue: Json)
    | DropDownInput(id: string, name: Json, items: seq<ListItem>)

  datatype Tab = Tab(id: string, name: string, children: seq<Widget>)

  /** What a step created, and the exception that stopped it if one did. Whatever was
      created before the exception stays in the dialog. */
  datatype Built<T> = Built(value: T, failure: Option<Failure>)

  /** `s[n:]` */
  function DropPrefix(s: string, n: nat): (r: string)
    ensures |r| == if n <= |s| then |s| - n else 0
    ensures r == s[|s| - |r|..]
  {
    if n <= |s| then s[n..] else ""
  }

  /** The elements a `for` loop over `j` visits. */
  function Iterate(j: Json): (r: Result<seq<Json>>)
    ensures j.Arr? ==> r == Ok(j.items)
    ensures r.Ok? <==> j.Arr? || j.Str? || j.Obj?
  {
    match j
    case Arr(items) => Ok(items)
    case Str(s) => Ok(seq(|s|, i requires 0 <= i < |s| => Str([s[i]])))
    case Obj(d) => Ok(seq(|d.keys|, i requires 0 <= i < |d.keys| => Str(d.keys[i])))
    case _ => Err(TypeError("object is not iterable"))
  }

  /** `d.items()` */
  function Items(d: Dict): (r: seq<(string, Json)>)
    ensures |r| == |d.keys|
    ensures forall i :: 0 <= i < |r| ==> r[i].0 == d.keys[i]
    ensures ValidDict(d) ==> forall i :: 0 <= i < |r| ==> r[i].1 == d.vals[d.keys[i]]
  {
    seq(|d.keys|, i requires 0 <= i < |d.keys| => (d.keys[i], GetOr(d, d.keys[i], Null)))
  }

  /** Python's `==` on two loaded values: `True == 1`, and dicts compare without regard to order. */
  predicate PyEq(a: Json, b: Json) {
    match (a, b)
    case (Bool(x), Num(n)) => n == (if x then 1 else 0)
    case (Num(n), Bool(x)) => n == (if x then 1 else 0)
    case (Num(m), Num(n)) => m == n
    case (Obj(d), Obj(e)) => d.vals == e.vals
    case _ => a == b
  }

  // ---------------------------------------------------------------------------
  // Rendering, as functions
  // ---------------------------------------------------------------------------

  /** The list items added for the options seen so far: `listItems.add(option, option == default)`. */
  function OptionItems(options: seq<Json>, meta: Json): Built<seq<ListItem>>
    decreases |options|
  {
    if options == [] then Built([], None)
    else
      var previous := OptionItems(options[..|options| - 1], meta);
      if previous.failure.Some? then previous
      else
        match Subscript(meta, "default")
        case Err(e) => Built(previous.value, Some(e))
        case Ok(dflt) => Built(previous.value + [ListItem(options[|options| - 1], PyEq(options[|options| - 1], dflt))], None)
  }

  /** The input created for one descriptor; `None` when its type has no input. */
  function DescriptorWidget(key: string, meta: Json): Built<Option<Widget>> {
    match Subscript(meta, "type")
    case Err(e) => Built(None, Some(e))
    case Ok(t) =>
      if t == Str("button") || t == Str("checkbox") then
        (match Subscript(meta, "label")
         case Err(e) => Built(None, Some(e))
         case Ok(caption) =>
           match Subscript(meta, "default")
           case Err(e) => Built(None, Some(e))
           case Ok(dflt) => Built(Some(BoolValueInput(key, caption, t == Str("checkbox"), dflt)), None))
      else if t == Str("dropdown") then
        (match Subscript(meta, "label")
         case Err(e) => Built(None, Some(e))
         case Ok(caption) =>
           match Subscript(meta, "options")
           case Err(e) => Built(Some(DropDownInput(key, caption, [])), Some(e))
           case Ok(opts) =>
             match Iterate(opts)
             case Err(e) => Built(Some(DropDownInput(key, caption, [])), Some(e))
             case Ok(options) =>
               var items := OptionItems(options, meta);
               Built(Some(DropDownInput(key, caption, items.value)), items.failure))
      else Built(None, None)
  }

  /** The inputs created for the descriptors seen so far. */
  function DescriptorWidgets(descriptors: seq<(string, Json)>): Built<seq<Widget>>
    decreases |descriptors|
  {
    if descriptors == [] then Built([], None)
    else
      var previous := DescriptorWidgets(descriptors[..|descriptors| - 1]);
      if previous.failure.Some? then previous
      else
        var (key, meta) := descriptors[|descriptors| - 1];
        var w := DescriptorWidget(key, meta);
        Built(previous.value + (if w.value.Some? then [w.value.value] else []), w.failure)
  }

  /** The tab created for one module: it is added before its `"settings"` are read. */
  function ModuleTab(name: string, record: Json, prefixLength: nat): Built<Tab> {
    var tab := Tab(name, DropPrefix(name, prefixLength), []);
    match Subscript(record, "settings")
    case Err(e) => Built(tab, Some(e))
    case Ok(settings) =>
      if !settings.Obj? then Built(tab, Some(AttributeError("settings has no attribute 'items'")))
      else
        var ws := DescriptorWidgets(Items(settings.d));
        Built(tab.(children := ws.value), ws.failure)
  }

  /** The tab each module gets, in module order, whether or not rendering reaches it. */
  function AllTabs(modules: seq<(string, Json)>, prefixLength: nat): (r: seq<Built<Tab>>)
    ensures |r| == |modules|
  {
    if modules == [] then []
    else AllTabs(modules[..|modules| - 1], prefixLength) + [ModuleTab(modules[|modules| - 1].0, modules[|modules| - 1].1, prefixLength)]
  }

  lemma {:induction false} AllTabsAt(modules: seq<(string, Json)>, prefixLength: nat, i: nat)
    requires i < |modules|
    ensures AllTabs(modules, prefixLength)[i] == ModuleTab(modules[i].0, modules[i].1, prefixLength)
  {
    if i < |modules| - 1 {
      var front := modules[..|modules| - 1];
      AllTabsAt(front, prefixLength, i);
      assert front[i] == modules[i];
    }
  }

  lemma {:induction false} AllTabsPrefix(modules: seq<(string, Json)>, prefixLength: nat, n: nat)
    requires n <= |modules|
    ensures AllTabs(modules[..n], prefixLength) == AllTabs(modules, prefixLength)[..n]
  {
    if n < |modules| {
      var front := modules[..|modules| - 1];
      assert front[..n] == modules[..n];
      AllTabsPrefix(front, prefixLength, n);
      assert AllTabs(modules, prefixLength)[..|modules| - 1] == AllTabs(front, prefixLength);
    } else {
      assert modules[..n] == modules;
    }
  }

  /** Results gathered in order until one raises: the values up to and including the one that
      raised, and its failure. */
  function Collect<T>(results: seq<Built<T>>): Built<seq<T>>
  {
    if results == [] then Built([], None)
    else
      var previous := Collect(results[..|results| - 1]);
      if previous.failure.Some? then previous
      else Built(previous.value + [results[|results| - 1].value], results[|results| - 1].failure)
  }

  /** The tabs created for the modules seen so far. */
  function ModuleTabs(modules: seq<(string, Json)>, prefixLength: nat): Built<seq<Tab>> {
    Collect(AllTabs(modules, prefixLength))
  }

  /** `command_created`: the tabs for the whole store; `prefixLength` is `len(MODULE_PREFIX)`. */
  function Render(all: Json, prefixLength: nat): Built<seq<Tab>> {
    if all.Obj? then ModuleTabs(Items(all.d), prefixLength)
    else Built([], Some(AttributeError("settings file has no attribute 'items'")))
  }

  /** Once a prefix of the options raises, the remaining options add nothing. */
  lemma {:induction false} OptionItemsStuck(options: seq<Json>, meta: Json, n: nat)
    requires n <= |options| && OptionItems(options[..n], meta).failure.Some?
    ensures OptionItems(options, meta) == OptionItems(options[..n], meta)
    decreases |options|
  {
    if n < |options| {
      var front := options[..|options| - 1];
      assert front[..n] == options[..n];
      OptionItemsStuck(front, meta, n);
    } else {
      assert options[..n] == options;
    }
  }

  /** Once a prefix of the descriptors raises, the remaining descriptors add nothing. */
  lemma {:induction false} DescriptorWidgetsStuck(descriptors: seq<(string, Json)>, n: nat)
    requires n <= |descriptors| && DescriptorWidgets(descriptors[..n]).failure.Some?
    ensures DescriptorWidgets(descriptors) == DescriptorWidgets(descriptors[..n])
    decreases |descriptors|
  {
    if n < |descriptors| {
      var front := descriptors[..|descriptors| - 1];
      assert front[..n] == descriptors[..n];
      DescriptorWidgetsStuck(front, n);
    } else {
      assert descriptors[..n] == descriptors;
    }
  }

  /** One more module adds its own tab to the tabs so far, and its failure if it raises. */
  lemma ModuleTabsStep(modules: seq<(string, Json)>, prefixLength: nat, i: nat)
    requires i < |modules|
    ensures var previous := ModuleTabs(modules[..i], prefixLength);
      var t := ModuleTab(modules[i].0, modules[i].1, prefixLength);
      ModuleTabs(modules[..i + 1], prefixLength) ==
        if previous.failure.Some? then previous else Built(previous.value + [t.value], t.failure)
  {
    var m := modules[..i + 1];
    assert m[..i] == modules[..i] && m[i] == modules[i];
    var ts := AllTabs(m, prefixLength);
    assert ts[..i] == AllTabs(modules[..i], prefixLength);
  }

  /** Once a prefix of the modules raises, the remaining modules add nothing. */
  lemma ModuleTabsStuck(modules: seq<(string, Json)>, prefixLength: nat, n: nat)
    requires n <= |modules| && ModuleTabs(modules[..n], prefixLength).failure.Some?
    ensures ModuleTabs(modules, prefixLength) == ModuleTabs(modules[..n], prefixLength)
  {
    AllTabsPrefix(modules, prefixLength, n);
    CollectStuck(AllTabs(modules, prefixLength), n);
  }

  /** Once a prefix of the results raises, the remaining results add nothing. */
  lemma {:induction false} CollectStuck<T>(results: seq<Built<T>>, n: nat)
    requires n <= |results| && Collect(results[..n]).failure.Some?
    ensures Collect(results) == Collect(results[..n])
    decreases |results|
  {
    if n < |results| {
      var front := results[..|results| - 1];
      assert front[..n] == results[..n];
      CollectStuck(front, n);
    } else {
      assert results[..n] == results;
    }
  }

  // ---------------------------------------------------------------------------
  // Rendering, as the nested loops of `command_created`
  // ---------------------------------------------------------------------------

  method AddOptionItems(options: seq<Json>, meta: Json) returns (items: seq<ListItem>, failure: Option<Failure>)
    ensures Built(items, failure) == OptionItems(options, meta)
  {
    items, failure := [], None;
    var i := 0;
    while i < |options|
      invariant 0 <= i <= |options|
      invariant Built(items, None) == OptionItems(options[..i], meta)
    {
      assert options[..i + 1][..i] == options[..i];
      var dflt := Subscript(meta, "default");
      if dflt.Err? {
        OptionItemsStuck(options, meta, i + 1);
        return items, Some(dflt.error);
      }
      items := items + [ListItem(options[i], PyEq(options[i], dflt.value))];
      i := i + 1;
    }
    assert options[..i] == options;
  }

  method AddDescriptorWidgets(descriptors: seq<(string, Json)>) returns (widgets: seq<Widget>, failure: Option<Failure>)
    ensures Built(widgets, failure) == DescriptorWidgets(descriptors)
  {
    widgets, failure := [], None;
    var i := 0;
    while i < |descriptors|
      invariant 0 <= i <= |descriptors|
      invariant Built(widgets, None) == DescriptorWidgets(descriptors[..i])
    {
      assert descriptors[..i + 1][..i] == descriptors[..i];
      var (key, meta) := descriptors[i];
      var w := DescriptorWidget(key, meta);
      assert descriptors[..i + 1][i] == descriptors[i];
      widgets := widgets + (if w.value.Some? then [w.value.value] else []);
      assert Built(widgets, w.failure) == DescriptorWidgets(descriptors[..i + 1]);
      if w.failure.Some? {
        DescriptorWidgetsStuck(descriptors, i + 1);
        return widgets, w.failure;
      }
      i := i + 1;
    }
    assert descriptors[..i] == descriptors;
  }

  /** `command_created`: the tabs it adds, the exception it reports in a message box, and whether
      it got as far as registering the input-changed handler. */
  method CommandCreated(store: SettingsStore, prefixLength: nat)
    returns (tabs: seq<Tab>, failure: Option<Failure>, handlerRegistered: bool)
    ensures Built(tabs, failure) == Render(AllFrom(store.file), prefixLength)
    ensures handlerRegistered <==> failure.None?
  {
    var all := store.GetAllModuleSettings();
    if !all.Obj? {
      return [], Some(AttributeError("settings file has no attribute 'items'")), false;
    }
    var modules := Items(all.d);
    tabs, failure := [], None;
    var i := 0;
    while i < |modules|
      invariant 0 <= i <= |modules|
      invariant Built(tabs, None) == ModuleTabs(modules[..i], prefixLength)
    {
      ModuleTabsStep(modules, prefixLength, i);
      var (name, record) := modules[i];
      var tab := Tab(name, DropPrefix(name, prefixLength), []);
      var settings := Subscript(record, "settings");
      if settings.Err? {
        ModuleTabsStuck(modules, prefixLength, i + 1);
        return tabs + [tab], Some(settings.error), false;
      }
      if !settings.value.Obj? {
        ModuleTabsStuck(modules, prefixLength, i + 1);
        return tabs + [tab], Some(AttributeError("settings has no attribute 'items'")), false;
      }
      var widgets, f := AddDescriptorWidgets(Items(settings.value.d));
      tabs := tabs + [tab.(children := widgets)];
      if f.Some? {
        ModuleTabsStuck(modules, prefixLength, i + 1);
        return tabs, f, false;
      }
      i := i + 1;
    }
    assert modules[..i] == modules;
    handlerRegistered := true;
  }

  // ---------------------------------------------------------------------------
  // Properties of rendering
  // ---------------------------------------------------------------------------

  /** When the first failure is at index `k`, the collection holds the first `k + 1` values and
      that failure. */
  lemma CollectFailsAt<T>(results: seq<Built<T>>, k: nat)
    requires k < |results| && results[k].failure.Some?
    requires forall i :: 0 <= i < k ==> results[i].failure.None?
    ensures Collect(results).failure == results[k].failure
    ensures |Collect(results).value| == k + 1
    ensures Collect(results).value[k] == results[k].value
  {
    var t := results[..k + 1];
    var front := t[..k];
    assert t[..|t| - 1] == front;
    forall i | 0 <= i < |front|
      ensures front[i].failure.None?
    {
      assert front[i] == results[i];
    }
    CollectFailure(front);
    CollectValues(front);
    CollectStuck(results, k + 1);
  }

  lemma {:induction false} CollectValues<T>(results: seq<Built<T>>)
    ensures |Collect(results).value| <= |results|
    ensures Collect(results).failure.None? ==> |Collect(results).value| == |results|
    ensures Collect(results).failure.Some? ==> |Collect(results).value| > 0
    ensures forall i :: 0 <= i < |Collect(results).value| ==> Collect(results).value[i] == results[i].value
  {
    if results != [] {
      var front := results[..|results| - 1];
      CollectValues(front);
      var previous := Collect(front);
      var r := Collect(results);
      if previous.failure.Some? {
        assert r == previous;
        forall i | 0 <= i < |r.value|
          ensures r.value[i] == results[i].value
        {
          assert front[i] == results[i];
        }
      } else {
        assert r == Built(previous.value + [results[|results| - 1].value], results[|results| - 1].failure);
        forall i | 0 <= i < |r.value|
          ensures r.value[i] == results[i].value
        {
          if i < |front| {
            assert front[i] == results[i] && r.value[i] == previous.value[i];
          }
        }
      }
    }
  }

  /** Gathering fails exactly when some result raised. */
  lemma {:induction false} CollectFailure<T>(results: seq<Built<T>>)
    ensures Collect(results).failure.None? <==> forall i :: 0 <= i < |results| ==> results[i].failure.None?
  {
    if results != [] {
      var front := results[..|results| - 1];
      CollectFailure(front);
      var last := |results| - 1;
      if Collect(front).failure.Some? {
        var k :| 0 <= k < |front| && front[k].failure.Some?;
        assert results[k] == front[k];
      } else {
        forall i | 0 <= i < last
          ensures results[i].failure.None?
        {
          assert results[i] == front[i];
        }
      }
    }
  }

  /** A failed gathering reports the failure of the last value it kept, and every earlier
      result succeeded. */
  lemma {:induction false} CollectFailedLast<T>(results: seq<Built<T>>)
    ensures var n := |Collect(results).value|;
      Collect(results).failure.Some? ==> 0 < n <= |results| && Collect(results).failure == results[n - 1].failure
    ensures forall i :: 0 <= i < |results| && i < |Collect(results).value| - 1 ==> results[i].failure.None?
  {
    if results != [] {
      var front := results[..|results| - 1];
      CollectFailedLast(front);
      CollectValues(front);
      var previous := Collect(front);
      var last := |results| - 1;
      if previous.failure.Some? {
        assert Collect(results) == previous;
        var n := |previous.value|;
        assert 0 < n <= |front| && front[n - 1] == results[n - 1];
        forall i | 0 <= i < n - 1
          ensures results[i].failure.None?
        {
          assert front[i] == results[i];
        }
      } else {
        CollectFailure(front);
        assert Collect(results) == Built(previous.value + [results[last].value], results[last].failure);
        assert |previous.value| == |front|;
        forall i | 0 <= i < |front|
          ensures results[i].failure.None?
        {
          assert front[i] == results[i];
        }
      }
    }
  }

  /** The tabs are the values of the modules' own tabs, in module order, one per module at most. */
  lemma ModuleTabsValues(modules: seq<(string, Json)>, prefixLength: nat)
    ensures var r := ModuleTabs(modules, prefixLength);
      && |r.value| <= |modules|
      && (forall i :: 0 <= i < |r.value| ==> r.value[i] == ModuleTab(modules[i].0, modules[i].1, prefixLength).value)
  {
    var ts := AllTabs(modules, prefixLength);
    var r := Collect(ts);
    CollectValues(ts);
    forall i | 0 <= i < |r.value|
      ensures r.value[i] == ModuleTab(modules[i].0, modules[i].1, prefixLength).value
    {
      assert r.value[i] == ts[i].value;
      AllTabsAt(modules, prefixLength, i);
    }
  }

  /** Nothing is reported exactly when there is a tab for every module and no module raises. */
  lemma ModuleTabsNoFailure(modules: seq<(string, Json)>, prefixLength: nat)
    ensures var r := ModuleTabs(modules, prefixLength);
      r.failure.None? <==> |r.value| == |modules| && forall i :: 0 <= i < |modules| ==> ModuleTab(modules[i].0, modules[i].1, prefixLength).failure.None?
  {
    var ts := AllTabs(modules, prefixLength);
    var r := Collect(ts);
    CollectValues(ts);
    CollectFailure(ts);
    forall i | 0 <= i < |modules|
      ensures ts[i] == ModuleTab(modules[i].0, modules[i].1, prefixLength)
    {
      AllTabsAt(modules, prefixLength, i);
    }
  }

  /** A report comes from the module of the last tab, and every module before it rendered fully. */
  lemma ModuleTabsFailedLast(modules: seq<(string, Json)>, prefixLength: nat)
    ensures var r := ModuleTabs(modules, prefixLength);
      && (r.failure.Some? ==> 0 < |r.value| <= |modules| && r.failure == ModuleTab(modules[|r.value| - 1].0, modules[|r.value| - 1].1, prefixLength).failure)
      && (forall i :: 0 <= i < |modules| && i < |r.value| - 1 ==> ModuleTab(modules[i].0, modules[i].1, prefixLength).failure.None?)
  {
    var ts := AllTabs(modules, prefixLength);
    var r := Collect(ts);
    CollectValues(ts);
    CollectFailedLast(ts);
    CollectFailure(ts);
    if r.failure.Some? {
      AllTabsAt(modules, prefixLength, |r.value| - 1);
    }
    forall i | 0 <= i < |r.value| - 1
      ensures ModuleTab(modules[i].0, modules[i].1, prefixLength).failure.None?
    {
      AllTabsAt(modules, prefixLength, i);
      assert ts[i].failure.None?;
    }
  }

  /** Tabs follow module order, one per module, until a module raises; that module's tab is the
      last one, and every earlier module rendered fully. */
  lemma ModuleTabsShape(modules: seq<(string, Json)>, prefixLength: nat)
    ensures var r := ModuleTabs(modules, prefixLength);
      && |r.value| <= |modules|
      && (r.failure.None? <==> |r.value| == |modules| && forall i :: 0 <= i < |modules| ==> ModuleTab(modules[i].0, modules[i].1, prefixLength).failure.None?)
      && (r.failure.Some? ==> |r.value| > 0 && r.failure == ModuleTab(modules[|r.value| - 1].0, modules[|r.value| - 1].1, prefixLength).failure)
      && (forall i :: 0 <= i < |r.value| ==> r.value[i] == ModuleTab(modules[i].0, modules[i].1, prefixLength).value)
      && (forall i :: 0 <= i < |r.value| - 1 ==> ModuleTab(modules[i].0, modules[i].1, prefixLength).failure.None?)
  {
    ModuleTabsValues(modules, prefixLength);
    ModuleTabsNoFailure(modules, prefixLength);
    ModuleTabsFailedLast(modules, prefixLength);
  }

  /** When no module raises there is exactly one tab per module: its id is the module name and
      its name is the name without its first `prefixLength` characters. */
  lemma OneTabPerModule(all: Dict, prefixLength: nat)
    requires Render(Obj(all), prefixLength).failure.None?
    ensures var tabs := Render(Obj(all), prefixLength).value;
      && |tabs| == |all.keys|
      && forall i :: 0 <= i < |tabs| ==> tabs[i].id == all.keys[i] && tabs[i].name == DropPrefix(all.keys[i], prefixLength)
  {
    ModuleTabsShape(Items(all), prefixLength);
  }

  /** When no module raises, nothing is reported. */
  lemma ModuleTabsComplete(modules: seq<(string, Json)>, prefixLength: nat)
    requires forall i :: 0 <= i < |modules| ==> ModuleTab(modules[i].0, modules[i].1, prefixLength).failure.None?
    ensures ModuleTabs(modules, prefixLength).failure.None?
    ensures |ModuleTabs(modules, prefixLength).value| == |modules|
  {
    var ts := AllTabs(modules, prefixLength);
    forall i | 0 <= i < |ts|
      ensures ts[i].failure.None?
    {
      AllTabsAt(modules, prefixLength, i);
    }
    CollectFailure(ts);
    CollectValues(ts);
  }

  /** A module record without a `"settings"` key stops rendering at its own tab, which stays
      empty; the tabs of the modules before it remain. */
  lemma MissingSettingsAbortsAtModule(modules: seq<(string, Json)>, prefixLength: nat, k: nat)
    requires k < |modules| && modules[k].1.Obj? && "settings" !in modules[k].1.d.vals
    requires forall i :: 0 <= i < k ==> ModuleTab(modules[i].0, modules[i].1, prefixLength).failure.None?
    ensures var r := ModuleTabs(modules, prefixLength);
      && r.failure == Some(KeyError("settings"))
      && |r.value| == k + 1
      && r.value[k] == Tab(modules[k].0, DropPrefix(modules[k].0, prefixLength), [])
  {
    var ts := AllTabs(modules, prefixLength);
    forall i | 0 <= i < k
      ensures ts[i].failure.None?
    {
      AllTabsAt(modules, prefixLength, i);
    }
    AllTabsAt(modules, prefixLength, k);
    MissingSettingsTab(modules[k].0, modules[k].1, prefixLength);
    CollectFailsAt(ts, k);
  }

  /** A module record without a `settings` key gets an empty tab and raises the key error. */
  lemma MissingSettingsTab(name: string, record: Json, prefixLength: nat)
    requires record.Obj? && "settings" !in record.d.vals
    ensures ModuleTab(name, record, prefixLength) == Built(Tab(name, DropPrefix(name, prefixLength), []), Some(KeyError("settings")))
  {
    assert Subscript(record, "settings") == Err(KeyError("settings"));
  }

  /** A `"button"` or `"checkbox"` descriptor becomes one boolean input initialised to its
      `default`, in checkbox style exactly when its type is `"checkbox"`. */
  lemma BoolDescriptorWidget(key: string, meta: Dict)
    requires "type" in meta.vals && (meta.vals["type"] == Str("button") || meta.vals["type"] == Str("checkbox"))
    requires "label" in meta.vals && "default" in meta.vals
    ensures DescriptorWidget(key, Obj(meta)) ==
      Built(Some(BoolValueInput(key, meta.vals["label"], meta.vals["type"] == Str("checkbox"), meta.vals["default"])), None)
  {
  }

  /** A well-formed `"button"` or `"checkbox"` descriptor: a dict holding `type`, `label` and
      `default`. */
  predicate BoolDescriptor(meta: Json) {
    && meta.Obj? && "type" in meta.d.vals && "label" in meta.d.vals && "default" in meta.d.vals
    && (meta.d.vals["type"] == Str("button") || meta.d.vals["type"] == Str("checkbox"))
  }

  /** Descriptors that are all well-formed buttons or checkboxes give one boolean input each, in
      order, each named by its key and label and set to its `default`, and nothing is raised. */
  lemma {:induction false} BoolDescriptorsAll(descriptors: seq<(string, Json)>)
    requires forall i :: 0 <= i < |descriptors| ==> BoolDescriptor(descriptors[i].1)
    ensures var r := DescriptorWidgets(descriptors);
      && r.failure.None? && |r.value| == |descriptors|
      && forall i :: 0 <= i < |descriptors| ==>
           (BoolDescriptor(descriptors[i].1) &&
            var meta := descriptors[i].1.d;
            r.value[i] == BoolValueInput(descriptors[i].0, meta.vals["label"], meta.vals["type"] == Str("checkbox"), meta.vals["default"]))
  {
    if descriptors != [] {
      var init := descriptors[..|descriptors| - 1];
      var (key, meta) := descriptors[|descriptors| - 1];
      forall i | 0 <= i < |init|
        ensures BoolDescriptor(init[i].1)
      {
        assert init[i] == descriptors[i];
      }
      BoolDescriptorsAll(init);
      BoolDescriptorWidget(key, meta.d);
      forall i | 0 <= i < |init|
        ensures init[i] == descriptors[i]
      {
      }
    }
  }

  /** A descriptor of any other type creates no input and raises nothing. */
  lemma UnknownDescriptorSkipped(key: string, meta: Dict)
    requires "type" in meta.vals
    requires meta.vals["type"] !in {Str("button"), Str("checkbox"), Str("dropdown")}
    ensures DescriptorWidget(key, Obj(meta)) == Built(None, None)
  {
  }

  /** With a `default` present, the options become one list item each, in order, and an item
      is selected exactly when it equals `default`. */
  lemma {:induction false} OptionItemsAll(options: seq<Json>, meta: Dict)
    requires "default" in meta.vals
    ensures var r := OptionItems(options, Obj(meta));
      && r.failure.None?
      && |r.value| == |options|
      && forall i :: 0 <= i < |options| ==> r.value[i] == ListItem(options[i], PyEq(options[i], meta.vals["default"]))
  {
    if options != [] {
      OptionItemsAll(options[..|options| - 1], meta);
    }
  }

  /** A dropdown over distinct option strings whose `default` is one of them shows exactly one
      selected item, and that item is the default. */
  lemma DropdownSelectsDefault(key: string, meta: Dict, options: seq<string>, k: nat)
    requires "type" in meta.vals && meta.vals["type"] == Str("dropdown")
    requires "label" in meta.vals && "default" in meta.vals && "options" in meta.vals
    requires meta.vals["options"] == Arr(seq(|options|, i requires 0 <= i < |options| => Str(options[i])))
    requires forall i, j :: 0 <= i < j < |options| ==> options[i] != options[j]
    requires k < |options| && meta.vals["default"] == Str(options[k])
    ensures var w := DescriptorWidget(key, Obj(meta));
      && w.failure.None? && w.value.Some? && w.value.value.DropDownInput?
      && |w.value.value.items| == |options|
      && (forall i :: 0 <= i < |options| ==> w.value.value.items[i].name == Str(options[i]))
      && (forall i :: 0 <= i < |options| ==> (w.value.value.items[i].isSelected <==> i == k))
  {
    var opts := seq(|options|, i requires 0 <= i < |options| => Str(options[i]));
    OptionItemsAll(opts, meta);
  }

  // ---------------------------------------------------------------------------
  // Editing: `input_changed_handler`
  // ---------------------------------------------------------------------------

  /** The input the user changed: its id is the setting key and its parent tab's id is the module name. */
  datatype ChangedInput =
    | DropDownChanged(key: string, tabId: string, selected: Option<string>)
    | BoolValueChanged(key: string, tabId: string, value: bool)
    | OtherChanged(key: string, tabId: string)

  /** `module_settings[key]["default"] = value`, done in place on the loaded settings. */
  function SetDefault(settings: Json, key: string, value: Json): Result<Json>
  {
    match Subscript(settings, key)
    case Err(e) => Err(e)
    case Ok(entry) =>
      match entry
      case Obj(d) => Ok(Obj(Put(settings.d, key, Obj(Put(d, "default", value)))))
      case Arr(_) => Err(TypeError("list indices must be integers or slices, not str"))
      case _ => Err(TypeError("object does not support item assignment"))
  }

  /** The module's settings after the edit, before they are saved. */
  function EditedSettings(settings: Json, change: ChangedInput): Result<Json>
  {
    match change
    case DropDownChanged(key, _, selected) =>
      if selected.Some? then SetDefault(settings, key, Str(selected.value)) else Ok(settings)
    case BoolValueChanged(key, _, value) => SetDefault(settings, key, Bool(value))
    case OtherChanged(_, _) => Ok(settings)
  }

  /** Every loaded value that is a dict is a well-formed one, as `json.load` builds it. */
  ghost predicate ValidLoad(file: Option<Json>) {
    && ValidFile(file)
    && forall m :: LoadFrom(file, m).Ok? && LoadFrom(file, m).value.Obj? ==> ValidDict(LoadFrom(file, m).value.d)
  }

  /** The settings file after the handler runs: load the module, edit one default, save the
      module as `{"settings": ...}`. */
  function EditOutcome(file: Option<Json>, change: ChangedInput): Result<Json>
    requires ValidFile(file)
  {
    match LoadFrom(file, change.tabId)
    case Err(e) => Err(e)
    case Ok(settings) =>
      match EditedSettings(settings, change)
      case Err(e) => Err(e)
      case Ok(edited) => SaveInto(file, change.tabId, Obj(Single("settings", edited)))
  }

  /** `input_changed_handler`: on an exception the message box shows it and the file is unchanged. */
  method InputChangedHandler(store: SettingsStore, change: ChangedInput) returns (failure: Option<Failure>)
    requires store.Valid()
    modifies store
    ensures store.Valid()
    ensures EditOutcome(old(store.file), change).Ok? ==>
              failure.None? && store.file == Some(EditOutcome(old(store.file), change).value)
    ensures EditOutcome(old(store.file), change).Err? ==>
              failure == Some(EditOutcome(old(store.file), change).error) && store.file == old(store.file)
  {
    var loaded := store.LoadSettings(change.tabId);
    if loaded.Err? {
      return Some(loaded.error);
    }
    var edited := EditedSettings(loaded.value, change);
    if edited.Err? {
      return Some(edited.error);
    }
    var saved := store.SaveSettings(change.tabId, Obj(Single("settings", edited.value)));
    failure := if saved.Ok? then None else Some(saved.error);
  }

  // ---------------------------------------------------------------------------
  // Properties of editing
  // ---------------------------------------------------------------------------

  /** A setting key that the module's loaded settings do not hold makes the handler raise
      `KeyError` before anything is saved. */
  lemma MissingKeyFails(file: Option<Json>, key: string, tabId: string, value: bool, selected: string)
    requires ValidLoad(file)
    requires LoadFrom(file, tabId).Ok? && LoadFrom(file, tabId).value.Obj?
    requires key !in LoadFrom(file, tabId).value.d.vals
    ensures EditOutcome(file, BoolValueChanged(key, tabId, value)) == Err(KeyError(key))
    ensures EditOutcome(file, DropDownChanged(key, tabId, Some(selected))) == Err(KeyError(key))
  {
  }

  /** After a successful edit the module's loaded settings differ from before only in the edited
      descriptor's `default`: every other setting and every other field is unchanged. */
  lemma EditChangesOnlyDefault(file: Option<Json>, change: ChangedInput)
    requires ValidLoad(file) && EditOutcome(file, change).Ok?
    ensures var before := LoadFrom(file, change.tabId).value;
      var after := LoadFrom(Some(EditOutcome(file, change).value), change.tabId);
      && after.Ok? && EditedSettings(before, change) == after
      && (before.Obj? ==>
            && after.value.Obj? && after.value.d.keys == before.d.keys
            && forall k :: k != change.key ==> Get(after.value.d, k) == Get(before.d, k))
  {
    var before := LoadFrom(file, change.tabId).value;
    var edited := EditedSettings(before, change).value;
    SaveEnvelopeLoadRoundTrip(file, change.tabId, edited);
  }

  /** Setting the same `default` a second time changes nothing more. */
  lemma SetDefaultTwice(settings: Json, key: string, value: Json)
    requires SetDefault(settings, key, value).Ok?
    ensures SetDefault(SetDefault(settings, key, value).value, key, value) == SetDefault(settings, key, value)
  {
    var d := Subscript(settings, key).value.d;
    PutTwice(d, "default", value);
    PutTwice(settings.d, key, Obj(Put(d, "default", value)));
  }

  /** Repeating an edit that succeeded leaves the settings file as the first edit left it. */
  lemma EditIdempotent(file: Option<Json>, change: ChangedInput)
    requires ValidLoad(file) && EditOutcome(file, change).Ok?
    ensures ValidFile(Some(EditOutcome(file, change).value))
    ensures EditOutcome(Some(EditOutcome(file, change).value), change) == EditOutcome(file, change)
  {
    var settings := LoadFrom(file, change.tabId).value;
    var edited := EditedSettings(settings, change).value;
    SaveIdempotent(file, change.tabId, Obj(Single("settings", edited)));
    SaveEnvelopeLoadRoundTrip(file, change.tabId, edited);
    match change
    case DropDownChanged(key, _, selected) =>
      if selected.Some? {
        SetDefaultTwice(settings, key, Str(selected.value));
      }
    case BoolValueChanged(key, _, value) =>
      SetDefaultTwice(settings, key, Bool(value));
    case OtherChanged(_, _) =>
  }

  /** Inside the edited descriptor only `default` changes, and it becomes the new value. */
  lemma SetDefaultFields(settings: Dict, key: string, value: Json)
    requires ValidDict(settings) && SetDefault(Obj(settings), key, value).Ok?
    ensures var entry := settings.vals[key];
      var after := SetDefault(Obj(settings), key, value).value;
      && entry.Obj? && after.Obj? && key in after.d.vals && after.d.vals[key].Obj?
      && Get(after.d.vals[key].d, "default") == Some(value)
      && forall f :: f != "default" ==> Get(after.d.vals[key].d, f) == Get(entry.d, f)
  {
  }

  /** Switching a boolean input and reading the store back shows the new value as `default`. */
  lemma BoolEditRoundTrip(file: Option<Json>, key: string, tabId: string, value: bool)
    requires ValidLoad(file) && EditOutcome(file, BoolValueChanged(key, tabId, value)).Ok?
    ensures var after := LoadFrom(Some(EditOutcome(file, BoolValueChanged(key, tabId, value)).value), tabId);
      && after.Ok? && after.value.Obj? && Subscript(after.value, key).Ok?
      && Subscript(Subscript(after.value, key).value, "default") == Ok(Bool(value))
  {
    var change := BoolValueChanged(key, tabId, value);
    EditChangesOnlyDefault(file, change);
    var before := LoadFrom(file, tabId).value;
    SetDefaultFields(before.d, key, Bool(value));
  }

  /** Choosing a dropdown item and reading the store back shows the item's name as `default`;
      with no item selected the module's settings read back as they were. */
  lemma DropdownEditRoundTrip(file: Option<Json>, key: string, tabId: string, selected: Option<string>)
    requires ValidLoad(file) && EditOutcome(file, DropDownChanged(key, tabId, selected)).Ok?
    ensures var after := LoadFrom(Some(EditOutcome(file, DropDownChanged(key, tabId, selected)).value), tabId);
      && after.Ok?
      && (selected.Some? ==>
            && after.value.Obj? && Subscript(after.value, key).Ok?
            && Subscript(Subscript(after.value, key).value, "default") == Ok(Str(selected.value)))
      && (selected.None? ==> after.value == LoadFrom(file, tabId).value)
  {
    var change := DropDownChanged(key, tabId, selected);
    EditChangesOnlyDefault(file, change);
    if selected.Some? {
      var before := LoadFrom(file, tabId).value;
      SetDefaultFields(before.d, key, Str(selected.value));
    }
  }

  /** The edited module is saved under the `"settings"` envelope and no other module changes. */
  lemma EditSavesEnvelope(file: Option<Json>, change: ChangedInput)
    requires ValidLoad(file) && EditOutcome(file, change).Ok?
    ensures var f := EditOutcome(file, change).value;
      && f.Obj?
      && Get(f.d, change.tabId) == Some(Obj(Single("settings", EditedSettings(LoadFrom(file, change.tabId).value, change).value)))
      && forall m :: m != change.tabId ==> Get(f.d, m) == Get(AllFrom(file).d, m)
  {
    var edited := EditedSettings(LoadFrom(file, change.tabId).value, change).value;
    SaveFrame(file, change.tabId, Obj(Single("settings", edited)));
  }
}
