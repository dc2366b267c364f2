/**
  Update Tools from Libraries: the operations of the selected setups, operations and folders are
  collected and deduplicated, and each operation's tool is correlated with a tool of the chosen
  library by description, product id or geometry. A tool is the part of its JSON the command
  reads; the geometry hash is taken to identify the tip-stripped geometry dict it hashes.
*/
module UpdateTools {
  import opened Wrappers
  import opened Json

  // ---------------------------------------------------------------------------
  // Tip keys
  // ---------------------------------------------------------------------------

  const TipKeys: seq<string> := ["tip-angle", "tip-diameter", "tip-length", "tip-offset", "tip-radius", "tip-type"]

  /** The dict with each of `keys` popped in turn. */
  function StripFrom(d: Dict, keys: seq<string>): (r: Dict)
    ensures ValidDict(d) ==> ValidDict(r)
    ensures forall k :: Get(r, k) == if k in keys then None else Get(d, k)
    ensures forall k :: k in r.keys <==> k in d.keys && k !in keys
    ensures r.keys == KeysNotIn(d.keys, keys)
    decreases |keys|
  {
    if keys == [] then
      KeysNotInNone(d.keys);
      d
    else
      WithoutKeepsOrder(d.keys, keys[0]);
      KeysNotInTwice(d.keys, keys[0], keys[1..]);
      assert [keys[0]] + keys[1..] == keys;
      StripFrom(Remove(d, keys[0]), keys[1..])
  }

  lemma {:induction false} KeysNotInNone(ks: seq<string>)
    ensures KeysNotIn(ks, []) == ks
  {
    if ks != [] {
      KeysNotInNone(ks[1..]);
      assert [ks[0]] + ks[1..] == ks;
    }
  }

  /** Popping tip key `i` only when it is present leaves the same keys to strip. */
  lemma StripTipsStep(d: Dict, i: nat)
    requires ValidDict(d) && i < |TipKeys|
    ensures StripFrom(d, TipKeys[i..]) == StripFrom(if TipKeys[i] in d.keys then Remove(d, TipKeys[i]) else d, TipKeys[i + 1..])
  {
    assert TipKeys[i..][0] == TipKeys[i] && TipKeys[i..][1..] == TipKeys[i + 1..];
    if TipKeys[i] !in d.keys {
      RemoveAbsent(d, TipKeys[i]);
    }
  }

  /** A geometry dict without its tip keys. */
  function StripTips(d: Dict): Dict {
    StripFrom(d, TipKeys)
  }

  /** `remove_tip_keys`: each tip key that is present is popped. */
  method RemoveTipKeys(tool: Dict) returns (r: Dict)
    requires ValidDict(tool)
    ensures r == StripTips(tool)
  {
    r := tool;
    var i := 0;
    while i < |TipKeys|
      invariant 0 <= i <= |TipKeys| && ValidDict(r)
      invariant StripFrom(r, TipKeys[i..]) == StripTips(tool)
    {
      var key := TipKeys[i];
      StripTipsStep(r, i);
      if key in r.keys {
        r := Remove(r, key);
      }
      i := i + 1;
    }
  }

  /** Exactly the tip keys are gone; every other key keeps its value. */
  lemma StripTipsKeepsOtherKeys(d: Dict, k: string)
    requires ValidDict(d)
    ensures ValidDict(StripTips(d))
    ensures k in TipKeys ==> Get(StripTips(d), k) == None && k !in StripTips(d).keys
    ensures k !in TipKeys ==> Get(StripTips(d), k) == Get(d, k) && (k in StripTips(d).keys <==> k in d.keys)
    ensures StripTips(d).keys == KeysNotIn(d.keys, TipKeys)
  {
  }

  // ---------------------------------------------------------------------------
  // Library lookup maps
  // ---------------------------------------------------------------------------

  /** The fields of a tool's JSON the command reads: `geometry` is `None` when the key is absent,
      and `presetNames` are the names of its `start-values` presets. */
  datatype Tool = Tool(description: string, productId: string, geometry: Option<Dict>, presetNames: seq<string>)

  datatype Maps = Maps(byDescription: map<string, nat>, byProductId: map<string, nat>, byGeometry: map<Dict, nat>)

  /** The dict filled by `m[key] = i` for each present key in turn: a later key overwrites an earlier one. */
  function LastIndexMap<K>(keys: seq<Option<K>>): map<K, nat> {
    if keys == [] then map[]
    else
      var m := LastIndexMap(keys[..|keys| - 1]);
      if keys[|keys| - 1].Some? then m[keys[|keys| - 1].value := |keys| - 1] else m
  }

  /** Last write wins: a key is in the map iff some position holds it, and it maps to the last such position. */
  lemma {:induction false} LastIndexMapSpec<K>(keys: seq<Option<K>>, k: K)
    ensures k in LastIndexMap(keys) <==> exists i :: 0 <= i < |keys| && keys[i] == Some(k)
    ensures k in LastIndexMap(keys) ==>
      var i := LastIndexMap(keys)[k];
      i < |keys| && keys[i] == Some(k) && forall j :: i < j < |keys| ==> keys[j] != Some(k)
  {
    if keys != [] {
      var init := keys[..|keys| - 1];
      LastIndexMapSpec(init, k);
      if exists i :: 0 <= i < |keys| && keys[i] == Some(k) {
        var i :| 0 <= i < |keys| && keys[i] == Some(k);
        if i < |init| {
          assert init[i] == Some(k);
        }
      }
      if exists i :: 0 <= i < |init| && init[i] == Some(k) {
        var i :| 0 <= i < |init| && init[i] == Some(k);
        assert keys[i] == Some(k);
      }
    }
  }

  function DescriptionKeys(lib: seq<Tool>): seq<Option<string>> {
    seq(|lib|, i requires 0 <= i < |lib| => Some(lib[i].description))
  }

  function ProductIdKeys(lib: seq<Tool>): seq<Option<string>> {
    seq(|lib|, i requires 0 <= i < |lib| => Some(lib[i].productId))
  }

  /** A library tool's geometry key, when it has a geometry. */
  function GeometryKey(t: Tool): Option<Dict> {
    if t.geometry.Some? then Some(StripTips(t.geometry.value)) else None
  }

  function GeometryKeys(lib: seq<Tool>): seq<Option<Dict>> {
    seq(|lib|, i requires 0 <= i < |lib| => GeometryKey(lib[i]))
  }

  /** The three maps from key to library index. */
  function LookupMaps(lib: seq<Tool>): Maps {
    Maps(LastIndexMap(DescriptionKeys(lib)), LastIndexMap(ProductIdKeys(lib)), LastIndexMap(GeometryKeys(lib)))
  }

  ghost predicate ValidTools(tools: seq<Tool>) {
    forall i :: 0 <= i < |tools| && tools[i].geometry.Some? ==> ValidDict(tools[i].geometry.value)
  }

  /** The first loop of `replace_with_library_tool`: each library tool is filed under its
      description and product id, and under its geometry when it has one. */
  method BuildLookupMaps(lib: seq<Tool>) returns (maps: Maps)
    requires ValidTools(lib)
    ensures maps == LookupMaps(lib)
  {
    var byDescription: map<string, nat> := map[];
    var byProductId: map<string, nat> := map[];
    var byGeometry: map<Dict, nat> := map[];
    var i := 0;
    while i < |lib|
      invariant 0 <= i <= |lib|
      invariant byDescription == LastIndexMap(DescriptionKeys(lib)[..i])
      invariant byProductId == LastIndexMap(ProductIdKeys(lib)[..i])
      invariant byGeometry == LastIndexMap(GeometryKeys(lib)[..i])
    {
      var tool := lib[i];
      LastIndexMapStep(DescriptionKeys(lib), i);
      LastIndexMapStep(ProductIdKeys(lib), i);
      LastIndexMapStep(GeometryKeys(lib), i);
      byDescription := byDescription[tool.description := i];
      byProductId := byProductId[tool.productId := i];
      if tool.geometry.Some? {
        var geometry := RemoveTipKeys(tool.geometry.value);
        byGeometry := byGeometry[geometry := i];
      }
      i := i + 1;
    }
    assert DescriptionKeys(lib)[..i] == DescriptionKeys(lib);
    assert ProductIdKeys(lib)[..i] == ProductIdKeys(lib);
    assert GeometryKeys(lib)[..i] == GeometryKeys(lib);
    maps := Maps(byDescription, byProductId, byGeometry);
  }

  /** Filing one more position: a present key now maps to it. */
  lemma LastIndexMapStep<K>(keys: seq<Option<K>>, i: nat)
    requires i < |keys|
    ensures LastIndexMap(keys[..i + 1]) == if keys[i].Some? then LastIndexMap(keys[..i])[keys[i].value := i] else LastIndexMap(keys[..i])
  {
    assert keys[..i + 1][..i] == keys[..i];
  }

  /** A description maps to the last library tool that has it. */
  lemma DescriptionLastWins(lib: seq<Tool>, description: string)
    ensures description in LookupMaps(lib).byDescription <==> exists i :: 0 <= i < |lib| && lib[i].description == description
    ensures description in LookupMaps(lib).byDescription ==>
      var i := LookupMaps(lib).byDescription[description];
      i < |lib| && lib[i].description == description && forall j :: i < j < |lib| ==> lib[j].description != description
  {
    assert |DescriptionKeys(lib)| == |lib| && forall j :: 0 <= j < |lib| ==> DescriptionKeys(lib)[j] == Some(lib[j].description);
    LastIndexMapSpec(DescriptionKeys(lib), description);
    if exists i :: 0 <= i < |lib| && lib[i].description == description {
      var i :| 0 <= i < |lib| && lib[i].description == description;
      assert DescriptionKeys(lib)[i] == Some(description);
    }
  }

  /** A product id maps to the last library tool that has it. */
  lemma ProductIdLastWins(lib: seq<Tool>, productId: string)
    ensures productId in LookupMaps(lib).byProductId <==> exists i :: 0 <= i < |lib| && lib[i].productId == productId
    ensures productId in LookupMaps(lib).byProductId ==>
      var i := LookupMaps(lib).byProductId[productId];
      i < |lib| && lib[i].productId == productId && forall j :: i < j < |lib| ==> lib[j].productId != productId
  {
    assert |ProductIdKeys(lib)| == |lib| && forall j :: 0 <= j < |lib| ==> ProductIdKeys(lib)[j] == Some(lib[j].productId);
    LastIndexMapSpec(ProductIdKeys(lib), productId);
    if exists i :: 0 <= i < |lib| && lib[i].productId == productId {
      var i :| 0 <= i < |lib| && lib[i].productId == productId;
      assert ProductIdKeys(lib)[i] == Some(productId);
    }
  }

  /** A stripped geometry maps to the last library tool whose stripped geometry it is. */
  lemma GeometryLastWins(lib: seq<Tool>, key: Dict)
    ensures key in LookupMaps(lib).byGeometry <==> exists i :: 0 <= i < |lib| && GeometryKey(lib[i]) == Some(key)
    ensures key in LookupMaps(lib).byGeometry ==>
      var i := LookupMaps(lib).byGeometry[key];
      i < |lib| && GeometryKey(lib[i]) == Some(key) && forall j :: i < j < |lib| ==> GeometryKey(lib[j]) != Some(key)
  {
    assert |GeometryKeys(lib)| == |lib| && forall j :: 0 <= j < |lib| ==> GeometryKeys(lib)[j] == GeometryKey(lib[j]);
    LastIndexMapSpec(GeometryKeys(lib), key);
    if exists i :: 0 <= i < |lib| && GeometryKey(lib[i]) == Some(key) {
      var i :| 0 <= i < |lib| && GeometryKey(lib[i]) == Some(key);
      assert GeometryKeys(lib)[i] == Some(key);
    }
  }

  // ---------------------------------------------------------------------------
  // Collecting and deduplicating the operations
  // ---------------------------------------------------------------------------

  /** An operation: its id, its tool, and the name of its tool preset (`None` when it has none). */
  datatype Operation = Operation(operationId: int, tool: Tool, preset: Option<string>)

  /** A selected entity, by its class type; every other class is `Unknown`. */
  datatype Entity =
    | Setup(allOperations: seq<Operation>)
    | SingleOperation(operation: Operation)
    | CamFolder(allOperations: seq<Operation>)
    | Unknown(classType: string)

  /** The operations an entity contributes. */
  function EntityOperations(e: Entity): seq<Operation> {
    match e
    case Setup(ops) => ops
    case SingleOperation(op) => [op]
    case CamFolder(ops) => ops
    case Unknown(_) => []
  }

  /** The operations of the selection, entity after entity. */
  function Collected(selection: seq<Entity>): seq<Operation> {
    if selection == [] then []
    else Collected(selection[..|selection| - 1]) + EntityOperations(selection[|selection| - 1])
  }

  /** An operation is collected iff some selected entity contributes it. */
  lemma {:induction false} CollectedMembers(selection: seq<Entity>, op: Operation)
    ensures op in Collected(selection) <==> exists i :: 0 <= i < |selection| && op in EntityOperations(selection[i])
  {
    if selection != [] {
      var init := selection[..|selection| - 1];
      CollectedLast(selection);
      CollectedMembers(init, op);
      ContributedSplit(selection, op);
    }
  }

  lemma CollectedLast(selection: seq<Entity>)
    requires selection != []
    ensures Collected(selection) == Collected(selection[..|selection| - 1]) + EntityOperations(selection[|selection| - 1])
  {
  }

  /** Some entity of a non-empty selection contributes `op` iff one of all but the last does or
      the last one does. */
  lemma ContributedSplit(selection: seq<Entity>, op: Operation)
    requires selection != []
    ensures var init := selection[..|selection| - 1];
      (exists i :: 0 <= i < |selection| && op in EntityOperations(selection[i])) <==>
      (exists i :: 0 <= i < |init| && op in EntityOperations(init[i])) || op in EntityOperations(selection[|init|])
  {
    var init := selection[..|selection| - 1];
    if exists i :: 0 <= i < |init| && op in EntityOperations(init[i]) {
      var i :| 0 <= i < |init| && op in EntityOperations(init[i]);
      assert selection[i] == init[i];
    }
    if exists i :: 0 <= i < |selection| && op in EntityOperations(selection[i]) {
      var i :| 0 <= i < |selection| && op in EntityOperations(selection[i]);
      if i < |init| {
        assert init[i] == selection[i];
      }
    }
  }

  /** The first loop of `command_execute`: the operations of each selected setup, operation or folder. */
  method CollectOperations(selection: seq<Entity>) returns (operations: seq<Operation>)
    ensures operations == Collected(selection)
  {
    operations := [];
    var i := 0;
    while i < |selection|
      invariant 0 <= i <= |selection|
      invariant operations == Collected(selection[..i])
    {
      assert selection[..i + 1][..i] == selection[..i];
      match selection[i] {
      case Setup(ops) =>
        var k := 0;
        while k < |ops|
          invariant 0 <= k <= |ops|
          invariant operations == Collected(selection[..i]) + ops[..k]
        {
          operations := operations + [ops[k]];
          assert ops[..k + 1] == ops[..k] + [ops[k]];
          k := k + 1;
        }
        assert ops[..k] == ops;
      case SingleOperation(op) =>
        operations := operations + [op];
      case CamFolder(ops) =>
        var k := 0;
        while k < |ops|
          invariant 0 <= k <= |ops|
          invariant operations == Collected(selection[..i]) + ops[..k]
        {
          operations := operations + [ops[k]];
          assert ops[..k + 1] == ops[..k] + [ops[k]];
          k := k + 1;
        }
        assert ops[..k] == ops;
      case Unknown(_) =>
      }
      i := i + 1;
    }
    assert selection[..i] == selection;
  }

  /** The ids of the operations, in order. */
  function Ids(ops: seq<Operation>): seq<int> {
    if ops == [] then [] else Ids(ops[..|ops| - 1]) + [ops[|ops| - 1].operationId]
  }

  /** The first operation for each id, in the order the ids first appear. */
  function FirstPerId(ops: seq<Operation>): seq<Operation> {
    if ops == [] then []
    else
      var kept := FirstPerId(ops[..|ops| - 1]);
      if ops[|ops| - 1].operationId in Ids(kept) then kept else kept + [ops[|ops| - 1]]
  }

  lemma {:induction false} IdsMembers(ops: seq<Operation>)
    ensures |Ids(ops)| == |ops|
    ensures forall k :: 0 <= k < |ops| ==> Ids(ops)[k] == ops[k].operationId
  {
    if ops != [] {
      IdsMembers(ops[..|ops| - 1]);
    }
  }

  /** The position of the first operation with id `id`, or `|ops|` when there is none. */
  function FirstWithId(ops: seq<Operation>, id: int): (r: nat)
    ensures r <= |ops|
    ensures r < |ops| ==> ops[r].operationId == id
    ensures forall j :: 0 <= j < r ==> ops[j].operationId != id
  {
    if ops == [] then 0
    else if ops[0].operationId == id then 0
    else
      var r' := FirstWithId(ops[1..], id);
      assert forall j :: 0 < j <= r' ==> ops[j] == ops[1..][j - 1];
      1 + r'
  }

  /** Appending an operation does not move an earlier first occurrence. */
  lemma FirstWithIdAppend(init: seq<Operation>, last: Operation, id: int)
    ensures var f := FirstWithId(init, id);
      FirstWithId(init + [last], id) == if f < |init| then f else if last.operationId == id then |init| else |init| + 1
  {
    var ops := init + [last];
    var f := FirstWithId(init, id);
    var g := FirstWithId(ops, id);
    assert forall j :: 0 <= j < |init| ==> ops[j] == init[j];
    if f < |init| {
      assert ops[f].operationId == id;
    } else {
      if last.operationId == id {
        assert ops[|init|].operationId == id;
      }
    }
  }

  /** No two deduplicated operations share an id. */
  lemma {:induction false} FirstPerIdUnique(ops: seq<Operation>)
    ensures forall a, b :: 0 <= a < b < |FirstPerId(ops)| ==> FirstPerId(ops)[a].operationId != FirstPerId(ops)[b].operationId
  {
    if ops != [] {
      var kept0 := FirstPerId(ops[..|ops| - 1]);
      FirstPerIdUnique(ops[..|ops| - 1]);
      IdsMembers(kept0);
    }
  }

  /** An id is kept iff some operation has it. */
  lemma {:induction false} FirstPerIdCovers(ops: seq<Operation>, id: int)
    ensures id in Ids(FirstPerId(ops)) <==> exists i :: 0 <= i < |ops| && ops[i].operationId == id
  {
    if ops != [] {
      var init := ops[..|ops| - 1];
      var kept0 := FirstPerId(init);
      FirstPerIdCovers(init, id);
      IdsMembers(kept0);
      IdsMembers(FirstPerId(ops));
      assert forall j :: 0 <= j < |init| ==> ops[j] == init[j];
      if exists i :: 0 <= i < |ops| && ops[i].operationId == id {
        var i :| 0 <= i < |ops| && ops[i].operationId == id;
        if i < |init| {
          assert init[i].operationId == id;
        }
      }
    }
  }

  /** Each kept operation is the first operation with its id, and the kept operations are in the
      order their ids first appear. */
  lemma FirstPerIdFirstOccurrences(ops: seq<Operation>)
    ensures forall k :: 0 <= k < |FirstPerId(ops)| ==>
      FirstWithId(ops, FirstPerId(ops)[k].operationId) < |ops| &&
      ops[FirstWithId(ops, FirstPerId(ops)[k].operationId)] == FirstPerId(ops)[k]
    ensures forall a, b :: 0 <= a < b < |FirstPerId(ops)| ==>
      FirstWithId(ops, FirstPerId(ops)[a].operationId) < FirstWithId(ops, FirstPerId(ops)[b].operationId)
  {
    FirstPerIdAreFirst(ops);
    FirstPerIdInOrder(ops);
  }

  /** The last operation is kept exactly when its id is new, and the earlier kept operations keep
      their first positions. */
  lemma FirstPerIdStep(ops: seq<Operation>)
    requires ops != []
    ensures var init := ops[..|ops| - 1];
      && (ops[|ops| - 1].operationId in Ids(FirstPerId(init)) ==> FirstPerId(ops) == FirstPerId(init))
      && (ops[|ops| - 1].operationId !in Ids(FirstPerId(init)) ==>
            FirstPerId(ops) == FirstPerId(init) + [ops[|ops| - 1]] && FirstWithId(ops, ops[|ops| - 1].operationId) == |init|)
      && forall k :: 0 <= k < |FirstPerId(init)| ==>
           FirstWithId(ops, FirstPerId(init)[k].operationId) == FirstWithId(init, FirstPerId(init)[k].operationId)
  {
    var init := ops[..|ops| - 1];
    var last := ops[|ops| - 1];
    assert ops == init + [last];
    var kept0 := FirstPerId(init);
    IdsMembers(kept0);
    forall k | 0 <= k < |kept0|
      ensures FirstWithId(ops, kept0[k].operationId) == FirstWithId(init, kept0[k].operationId)
    {
      FirstPerIdKeptFound(init, k);
      FirstWithIdAppend(init, last, kept0[k].operationId);
    }
    if last.operationId !in Ids(kept0) {
      FirstPerIdCovers(init, last.operationId);
      FirstWithIdAppend(init, last, last.operationId);
    }
  }

  /** A kept operation's id occurs in the operations. */
  lemma FirstPerIdKeptFound(ops: seq<Operation>, k: nat)
    requires k < |FirstPerId(ops)|
    ensures FirstWithId(ops, FirstPerId(ops)[k].operationId) < |ops|
  {
    IdsMembers(FirstPerId(ops));
    FirstPerIdCovers(ops, FirstPerId(ops)[k].operationId);
    var i :| 0 <= i < |ops| && ops[i].operationId == FirstPerId(ops)[k].operationId;
  }

  /** Each kept operation is the first operation with its id. */
  lemma {:induction false} FirstPerIdAreFirst(ops: seq<Operation>)
    ensures forall k :: 0 <= k < |FirstPerId(ops)| ==>
      FirstWithId(ops, FirstPerId(ops)[k].operationId) < |ops| &&
      ops[FirstWithId(ops, FirstPerId(ops)[k].operationId)] == FirstPerId(ops)[k]
  {
    if ops != [] {
      var init := ops[..|ops| - 1];
      var kept0 := FirstPerId(init);
      var kept := FirstPerId(ops);
      FirstPerIdAreFirst(init);
      FirstPerIdStep(ops);
      forall k | 0 <= k < |kept|
        ensures FirstWithId(ops, kept[k].operationId) < |ops| && ops[FirstWithId(ops, kept[k].operationId)] == kept[k]
      {
        if k < |kept0| {
          assert kept[k] == kept0[k];
          assert ops[FirstWithId(init, kept0[k].operationId)] == init[FirstWithId(init, kept0[k].operationId)];
        }
      }
    }
  }

  /** The kept operations are in the order their ids first appear. */
  lemma {:induction false} FirstPerIdInOrder(ops: seq<Operation>)
    ensures forall a, b :: 0 <= a < b < |FirstPerId(ops)| ==>
      FirstWithId(ops, FirstPerId(ops)[a].operationId) < FirstWithId(ops, FirstPerId(ops)[b].operationId)
  {
    if ops != [] {
      var init := ops[..|ops| - 1];
      var kept0 := FirstPerId(init);
      var kept := FirstPerId(ops);
      FirstPerIdInOrder(init);
      FirstPerIdStep(ops);
      forall a, b | 0 <= a < b < |kept|
        ensures FirstWithId(ops, kept[a].operationId) < FirstWithId(ops, kept[b].operationId)
      {
        assert kept[a] == kept0[a];
        FirstPerIdKeptFound(init, a);
        if b < |kept0| {
          assert kept[b] == kept0[b];
        }
      }
    }
  }

  /** The deduplication loop of `command_execute`: an operation is kept when its id is not yet
      among the kept ids. */
  method Deduplicate(operations: seq<Operation>) returns (unique: seq<Operation>)
    ensures unique == FirstPerId(operations)
  {
    var uniqueIds: seq<int> := [];
    unique := [];
    var i := 0;
    while i < |operations|
      invariant 0 <= i <= |operations|
      invariant unique == FirstPerId(operations[..i])
      invariant uniqueIds == Ids(unique)
    {
      assert operations[..i + 1][..i] == operations[..i];
      if operations[i].operationId !in uniqueIds {
        uniqueIds := uniqueIds + [operations[i].operationId];
        unique := unique + [operations[i]];
        assert unique[..|unique| - 1] == FirstPerId(operations[..i]);
      }
      i := i + 1;
    }
    assert operations[..i] == operations;
  }

  // ---------------------------------------------------------------------------
  // Correlating operations with library tools
  // ---------------------------------------------------------------------------

  /** `dict.get`. */
  function MapGet<K>(m: map<K, nat>, k: K): (r: Option<nat>)
    ensures r.Some? <==> k in m
    ensures r.Some? ==> r.value == m[k]
  {
    if k in m then Some(m[k]) else None
  }

  /** The preset name an operation asks for: the empty name when it has no preset. */
  function PresetName(op: Operation): string {
    if op.preset.None? then "" else op.preset.value
  }

  /** Whether library tool `i` has a preset called `name`. */
  predicate PresetFound(lib: seq<Tool>, i: nat, name: string) {
    i < |lib| && name in lib[i].presetNames
  }

  /** The correlation type chosen in the command's drop-down: "Description", "Product ID" or
      "Geometry"; any other text reaches none of the branches. */
  datatype Correlation = ByDescription | ByProductId | ByGeometry | ByOther(name: string)

  /** The lookup an operation's correlation branch performs: `Some(m)` when it assigns
      `library_tool` (with `m` the result of `dict.get`), `None` when it leaves the variable as it
      was: an empty description or product id, or a correlation type none of the branches names.
      Correlating by geometry a tool with no geometry raises `KeyError`. */
  function LookupFor(maps: Maps, op: Operation, correlation: Correlation): (r: Result<Option<Option<nat>>>)
    ensures r.Err? <==> correlation.ByGeometry? && op.tool.geometry.None?
  {
    if correlation.ByDescription? then
      if op.tool.description != "" then Ok(Some(MapGet(maps.byDescription, op.tool.description))) else Ok(None)
    else if correlation.ByProductId? then
      if op.tool.productId != "" then Ok(Some(MapGet(maps.byProductId, op.tool.productId))) else Ok(None)
    else if correlation.ByGeometry? then
      if op.tool.geometry.None? then Err(KeyError("geometry"))
      else Ok(Some(MapGet(maps.byGeometry, StripTips(op.tool.geometry.value))))
    else Ok(None)
  }

  /** The state of the correlation loop after some operations: the value of `library_tool`
      (`None` while the variable is unbound), the library index each operation was given (`None`
      for "No Match Found"), the `bad_correlation` flag, and the library indices copied into the
      document's tool library, in the order they were first used. */
  datatype Pass = Pass(libraryTool: Option<Option<nat>>, matches: seq<Option<nat>>, bad: bool, added: seq<nat>)

  /** What a matched operation adds to the pass. */
  function Matched(lib: seq<Tool>, p: Pass, lt: Option<Option<nat>>, i: nat, op: Operation): Pass {
    Pass(lt, p.matches + [Some(i)], p.bad || !PresetFound(lib, i, PresetName(op)),
         if i in p.added then p.added else p.added + [i])
  }

  /** One turn of the correlation loop as written at lines 177-221, with the log line of
      `get_tool` (line 149) repaired so that a match is given its tool: `library_tool` is read even
      when this turn did not assign it, and it is tested for truth, so index 0 counts as no match. */
  function StepAsWritten(lib: seq<Tool>, maps: Maps, p: Pass, op: Operation, correlation: Correlation): Result<Pass> {
    var lt :- Rebind(maps, op, correlation, p.libraryTool);
    Ok(AfterLookup(lib, p, lt, op))
  }

  /** The value `library_tool` holds after a turn's correlation branch; reading it while it is
      still unbound raises `UnboundLocalError`. */
  function Rebind(maps: Maps, op: Operation, correlation: Correlation, libraryTool: Option<Option<nat>>): Result<Option<nat>> {
    var lookup :- LookupFor(maps, op, correlation);
    var lt := if lookup.Some? then Some(lookup.value) else libraryTool;
    if lt.None? then Err(UnboundLocalError("library_tool")) else Ok(lt.value)
  }

  /** The rest of a turn as written: a truthy index is a match, anything else "No Match Found". */
  function AfterLookup(lib: seq<Tool>, p: Pass, lt: Option<nat>, op: Operation): Pass {
    if lt.Some? && lt.value != 0 then Matched(lib, p, Some(lt), lt.value, op)
    else Pass(Some(lt), p.matches + [None], true, p.added)
  }

  const Start: Pass := Pass(None, [], false, [])

  /** The correlation loop as written, with line 149 repaired, over the operations in order. */
  function CorrelateAsWritten(lib: seq<Tool>, maps: Maps, ops: seq<Operation>, correlation: Correlation): Result<Pass> {
    if ops == [] then Ok(Start)
    else
      var p :- CorrelateAsWritten(lib, maps, ops[..|ops| - 1], correlation);
      StepAsWritten(lib, maps, p, ops[|ops| - 1], correlation)
  }

  /** What the log line of `get_tool` raises: `dict` over the tool's JSON text sees single
      characters where it needs key-value pairs. */
  const DictOfJsonText: Failure := ValueError("dictionary update sequence element #0 has length 1; 2 is required")

  /** One turn exactly as shipped: as `StepAsWritten`, except that a truthy index reaches
      `get_tool`, whose log line raises before the operation is given the tool. */
  function StepShipped(lib: seq<Tool>, maps: Maps, p: Pass, op: Operation, correlation: Correlation): Result<Pass> {
    var lt :- Rebind(maps, op, correlation, p.libraryTool);
    if lt.Some? && lt.value != 0 then Err(DictOfJsonText) else Ok(AfterLookup(lib, p, lt, op))
  }

  /** The correlation loop exactly as shipped, over the operations in order. */
  function CorrelateShipped(lib: seq<Tool>, maps: Maps, ops: seq<Operation>, correlation: Correlation): Result<Pass> {
    if ops == [] then Ok(Start)
    else
      var p :- CorrelateShipped(lib, maps, ops[..|ops| - 1], correlation);
      StepShipped(lib, maps, p, ops[|ops| - 1], correlation)
  }

  /** One turn of the loop as evidently intended: only this turn's own lookup counts, and any
      found index, 0 included, is a match. */
  function StepIntended(lib: seq<Tool>, maps: Maps, p: Pass, op: Operation, correlation: Correlation): Result<Pass> {
    var m :- OwnLookup(maps, op, correlation);
    if m.Some? then Ok(Matched(lib, p, Some(m), m.value, op))
    else Ok(Pass(Some(m), p.matches + [None], true, p.added))
  }

  /** The index this turn's own lookup finds, if any: what `library_tool` holds when it is reset
      before each operation. */
  function OwnLookup(maps: Maps, op: Operation, correlation: Correlation): Result<Option<nat>> {
    var lookup :- LookupFor(maps, op, correlation);
    Ok(if lookup.Some? then lookup.value else None)
  }

  /** The intended loop, over the operations in order. */
  function CorrelateIntended(lib: seq<Tool>, maps: Maps, ops: seq<Operation>, correlation: Correlation): Result<Pass> {
    if ops == [] then Ok(Start)
    else
      var p :- CorrelateIntended(lib, maps, ops[..|ops| - 1], correlation);
      StepIntended(lib, maps, p, ops[|ops| - 1], correlation)
  }

  /** The library index an operation is correlated with by the intended rule, if any. */
  function IntendedMatch(maps: Maps, op: Operation, correlation: Correlation): Option<nat> {
    match LookupFor(maps, op, correlation)
    case Ok(lookup) => if lookup.Some? then lookup.value else None
    case Err(_) => None
  }

  /** An operation that found no match, or whose preset the matched tool lacks. */
  predicate Flagged(lib: seq<Tool>, op: Operation, m: Option<nat>) {
    m.None? || !PresetFound(lib, m.value, PresetName(op))
  }

  /** The properties every pass keeps: one entry per operation; the flag is raised exactly when
      some operation found no match or its preset is missing from the matched tool; the indices
      added to the document library are the matched ones, each once. */
  ghost predicate Accounted(lib: seq<Tool>, ops: seq<Operation>, p: Pass) {
    && |p.matches| == |ops|
    && (p.bad <==> exists k :: 0 <= k < |ops| && Flagged(lib, ops[k], p.matches[k]))
    && (forall i :: i in p.added <==> Some(i) in p.matches)
    && (forall a, b :: 0 <= a < b < |p.added| ==> p.added[a] != p.added[b])
  }

  lemma AccountedStep(lib: seq<Tool>, ops: seq<Operation>, p: Pass, m: Option<nat>, q: Pass)
    requires ops != [] && Accounted(lib, ops[..|ops| - 1], p)
    requires q.matches == p.matches + [m]
    requires m.Some? ==>
      q.bad == (p.bad || !PresetFound(lib, m.value, PresetName(ops[|ops| - 1]))) &&
      q.added == if m.value in p.added then p.added else p.added + [m.value]
    requires m.None? ==> q.bad && q.added == p.added
    ensures Accounted(lib, ops, q)
  {
    FlaggedStep(lib, ops, p.matches, m, p.bad, q.bad);
    AddedStep(p.matches, m, p.added, q.added);
  }

  /** The flag after one more turn: raised iff it was raised or this turn is flagged. */
  lemma FlaggedStep(lib: seq<Tool>, ops: seq<Operation>, pm: seq<Option<nat>>, m: Option<nat>, pbad: bool, qbad: bool)
    requires ops != [] && |pm| == |ops| - 1
    requires pbad <==> exists k :: 0 <= k < |ops| - 1 && Flagged(lib, ops[..|ops| - 1][k], pm[k])
    requires qbad == (pbad || Flagged(lib, ops[|ops| - 1], m))
    ensures qbad <==> exists k :: 0 <= k < |ops| && Flagged(lib, ops[k], (pm + [m])[k])
  {
    var n := |ops| - 1;
    var qm := pm + [m];
    if qbad {
      if pbad {
        var k :| 0 <= k < n && Flagged(lib, ops[..n][k], pm[k]);
        assert ops[k] == ops[..n][k] && qm[k] == pm[k];
      } else {
        assert qm[n] == m;
      }
    } else {
      forall k | 0 <= k < |ops|
        ensures !Flagged(lib, ops[k], qm[k])
      {
        if k < n {
          assert ops[k] == ops[..n][k] && qm[k] == pm[k];
        }
      }
    }
  }

  /** The added indices after one more turn: a match not yet added is added at the end, so they
      stay the matched indices, each once. */
  lemma AddedStep<T>(pm: seq<Option<T>>, m: Option<T>, padded: seq<T>, qadded: seq<T>)
    requires forall i :: i in padded <==> Some(i) in pm
    requires forall a, b :: 0 <= a < b < |padded| ==> padded[a] != padded[b]
    requires m.Some? ==> qadded == if m.value in padded then padded else padded + [m.value]
    requires m.None? ==> qadded == padded
    ensures forall i :: i in qadded <==> Some(i) in pm + [m]
    ensures forall a, b :: 0 <= a < b < |qadded| ==> qadded[a] != qadded[b]
  {
  }

  /** One intended turn: it fails exactly when the lookup fails, and otherwise records the
      lookup's own result. */
  lemma StepIntendedShape(lib: seq<Tool>, maps: Maps, p: Pass, op: Operation, correlation: Correlation)
    ensures StepIntended(lib, maps, p, op, correlation).Err? <==> LookupFor(maps, op, correlation).Err?
    ensures StepIntended(lib, maps, p, op, correlation).Ok? ==>
      var q := StepIntended(lib, maps, p, op, correlation).value;
      var m := IntendedMatch(maps, op, correlation);
      && q.matches == p.matches + [m]
      && (m.Some? ==> q.bad == (p.bad || !PresetFound(lib, m.value, PresetName(op))) &&
                      q.added == if m.value in p.added then p.added else p.added + [m.value])
      && (m.None? ==> q.bad && q.added == p.added)
  {
  }

  /** One turn as written, once `library_tool` is bound to `lt`. */
  lemma StepAsWrittenShape(lib: seq<Tool>, maps: Maps, p: Pass, op: Operation, correlation: Correlation)
    requires StepAsWritten(lib, maps, p, op, correlation).Ok?
    ensures var q := StepAsWritten(lib, maps, p, op, correlation).value;
      var m := if q.libraryTool.value.Some? && q.libraryTool.value.value != 0 then q.libraryTool.value else None;
      && q.libraryTool.Some?
      && q.matches == p.matches + [m]
      && (m.Some? ==> q.bad == (p.bad || !PresetFound(lib, m.value, PresetName(op))) &&
                      q.added == if m.value in p.added then p.added else p.added + [m.value])
      && (m.None? ==> q.bad && q.added == p.added)
  {
  }

  /** Whatever the correlation as written ends with, it accounts for every operation. */
  lemma {:induction false} AsWrittenAccounts(lib: seq<Tool>, maps: Maps, ops: seq<Operation>, correlation: Correlation)
    requires CorrelateAsWritten(lib, maps, ops, correlation).Ok?
    ensures Accounted(lib, ops, CorrelateAsWritten(lib, maps, ops, correlation).value)
  {
    if ops != [] {
      var init := ops[..|ops| - 1];
      AsWrittenAccounts(lib, maps, init, correlation);
      var p := CorrelateAsWritten(lib, maps, init, correlation).value;
      var q := CorrelateAsWritten(lib, maps, ops, correlation).value;
      StepAsWrittenShape(lib, maps, p, ops[|ops| - 1], correlation);
      var m := if q.libraryTool.value.Some? && q.libraryTool.value.value != 0 then q.libraryTool.value else None;
      AccountedStep(lib, ops, p, m, q);
    }
  }

  /** Whatever the intended correlation ends with, it accounts for every operation. */
  lemma {:induction false} IntendedAccounts(lib: seq<Tool>, maps: Maps, ops: seq<Operation>, correlation: Correlation)
    requires CorrelateIntended(lib, maps, ops, correlation).Ok?
    ensures Accounted(lib, ops, CorrelateIntended(lib, maps, ops, correlation).value)
  {
    if ops != [] {
      var init := ops[..|ops| - 1];
      IntendedAccounts(lib, maps, init, correlation);
      var p := CorrelateIntended(lib, maps, init, correlation).value;
      var q := CorrelateIntended(lib, maps, ops, correlation).value;
      StepIntendedShape(lib, maps, p, ops[|ops| - 1], correlation);
      AccountedStep(lib, ops, p, IntendedMatch(maps, ops[|ops| - 1], correlation), q);
    }
  }

  /** As intended, an operation gets exactly the index its own lookup finds. */
  lemma {:induction false} IntendedMatchesOwnLookup(lib: seq<Tool>, maps: Maps, ops: seq<Operation>, correlation: Correlation)
    requires CorrelateIntended(lib, maps, ops, correlation).Ok?
    ensures var p := CorrelateIntended(lib, maps, ops, correlation).value;
      |p.matches| == |ops| && forall k :: 0 <= k < |ops| ==> p.matches[k] == IntendedMatch(maps, ops[k], correlation)
  {
    if ops != [] {
      var init := ops[..|ops| - 1];
      CorrelateIntendedLast(lib, maps, ops, correlation);
      IntendedMatchesOwnLookup(lib, maps, init, correlation);
      var p := CorrelateIntended(lib, maps, init, correlation).value;
      StepIntendedMatch(lib, maps, p, ops[|ops| - 1], correlation);
      MatchesExtend(maps, ops, p.matches, correlation);
    }
  }

  /** The intended loop over a non-empty run is its last turn after the loop over the rest. */
  lemma CorrelateIntendedLast(lib: seq<Tool>, maps: Maps, ops: seq<Operation>, correlation: Correlation)
    requires ops != [] && CorrelateIntended(lib, maps, ops, correlation).Ok?
    ensures CorrelateIntended(lib, maps, ops[..|ops| - 1], correlation).Ok?
    ensures CorrelateIntended(lib, maps, ops, correlation)
         == StepIntended(lib, maps, CorrelateIntended(lib, maps, ops[..|ops| - 1], correlation).value, ops[|ops| - 1], correlation)
  {
  }

  /** Own-lookup matches for all but the last operation, followed by the last one's. */
  lemma MatchesExtend(maps: Maps, ops: seq<Operation>, matches: seq<Option<nat>>, correlation: Correlation)
    requires ops != [] && |matches| == |ops| - 1
    requires forall k :: 0 <= k < |ops| - 1 ==> matches[k] == IntendedMatch(maps, ops[..|ops| - 1][k], correlation)
    ensures var all := matches + [IntendedMatch(maps, ops[|ops| - 1], correlation)];
      forall k :: 0 <= k < |ops| ==> all[k] == IntendedMatch(maps, ops[k], correlation)
  {
    var all := matches + [IntendedMatch(maps, ops[|ops| - 1], correlation)];
    forall k | 0 <= k < |ops|
      ensures all[k] == IntendedMatch(maps, ops[k], correlation)
    {
      if k < |ops| - 1 {
        assert ops[..|ops| - 1][k] == ops[k];
      }
    }
  }

  /** An intended turn that succeeds records the operation's own match. */
  lemma StepIntendedMatch(lib: seq<Tool>, maps: Maps, p: Pass, op: Operation, correlation: Correlation)
    requires StepIntended(lib, maps, p, op, correlation).Ok?
    ensures StepIntended(lib, maps, p, op, correlation).value.matches == p.matches + [IntendedMatch(maps, op, correlation)]
  {
  }

  /** A turn whose own lookup finds a nonzero index goes the same way as written and as intended. */
  lemma StepsAgreeWhenLookupRuns(lib: seq<Tool>, maps: Maps, p: Pass, op: Operation, correlation: Correlation)
    requires LookupFor(maps, op, correlation).Ok? && LookupFor(maps, op, correlation).value.Some?
    requires LookupFor(maps, op, correlation).value.value != Some(0)
    ensures StepAsWritten(lib, maps, p, op, correlation) == StepIntended(lib, maps, p, op, correlation)
  {
  }

  /** Some operation's tool has no geometry. */
  ghost predicate SomeLacksGeometry(ops: seq<Operation>) {
    exists k :: 0 <= k < |ops| && ops[k].tool.geometry.None?
  }

  lemma SomeLacksGeometryAppend(ops: seq<Operation>)
    requires ops != []
    ensures SomeLacksGeometry(ops) <==> SomeLacksGeometry(ops[..|ops| - 1]) || ops[|ops| - 1].tool.geometry.None?
  {
    var init := ops[..|ops| - 1];
    if SomeLacksGeometry(ops) {
      var k :| 0 <= k < |ops| && ops[k].tool.geometry.None?;
      if k < |init| {
        assert init[k].tool.geometry.None?;
      }
    }
    if SomeLacksGeometry(init) {
      var k :| 0 <= k < |init| && init[k].tool.geometry.None?;
      assert ops[k] == init[k];
    }
  }

  /** The intended correlation fails exactly when, correlating by geometry, some operation's tool
      has no geometry. */
  lemma {:induction false} IntendedFailsOnMissingGeometry(lib: seq<Tool>, maps: Maps, ops: seq<Operation>, correlation: Correlation)
    ensures CorrelateIntended(lib, maps, ops, correlation).Err? <==> correlation.ByGeometry? && SomeLacksGeometry(ops)
  {
    if ops != [] {
      var init := ops[..|ops| - 1];
      IntendedFailsOnMissingGeometry(lib, maps, init, correlation);
      SomeLacksGeometryAppend(ops);
      var r := CorrelateIntended(lib, maps, init, correlation);
      if r.Ok? {
        StepIntendedShape(lib, maps, r.value, ops[|ops| - 1], correlation);
        assert CorrelateIntended(lib, maps, ops, correlation) == StepIntended(lib, maps, r.value, ops[|ops| - 1], correlation);
      } else {
        assert CorrelateIntended(lib, maps, ops, correlation).Err?;
      }
    }
  }

  /** When every operation's own lookup runs and none finds index 0, the loop as written agrees
      with the intended one. */
  lemma {:induction false} AsWrittenAgreesWhenEveryLookupRuns(lib: seq<Tool>, maps: Maps, ops: seq<Operation>, correlation: Correlation)
    requires forall k :: 0 <= k < |ops| ==>
      LookupFor(maps, ops[k], correlation).Ok? && LookupFor(maps, ops[k], correlation).value.Some? &&
      LookupFor(maps, ops[k], correlation).value.value != Some(0)
    ensures CorrelateAsWritten(lib, maps, ops, correlation) == CorrelateIntended(lib, maps, ops, correlation)
  {
    if ops != [] {
      var init := ops[..|ops| - 1];
      forall k | 0 <= k < |init|
        ensures LookupFor(maps, init[k], correlation).Ok? && LookupFor(maps, init[k], correlation).value.Some? &&
                LookupFor(maps, init[k], correlation).value.value != Some(0)
      {
        assert init[k] == ops[k];
      }
      AsWrittenAgreesWhenEveryLookupRuns(lib, maps, init, correlation);
      var r := CorrelateIntended(lib, maps, init, correlation);
      if r.Ok? {
        StepsAgreeWhenLookupRuns(lib, maps, r.value, ops[|ops| - 1], correlation);
      }
    }
  }

  /** No operation was given a library tool. */
  predicate Unmatched(matches: seq<Option<nat>>) {
    forall k :: 0 <= k < |matches| ==> matches[k].None?
  }

  lemma UnmatchedAppend(matches: seq<Option<nat>>, m: Option<nat>)
    ensures Unmatched(matches + [m]) <==> Unmatched(matches) && m.None?
  {
    var all := matches + [m];
    if Unmatched(all) {
      forall k | 0 <= k < |matches|
        ensures matches[k].None?
      {
        assert all[k] == matches[k];
      }
      assert all[|matches|] == m;
    }
  }

  /** One shipped turn: it goes as written, unless the written turn took a match, where it raises. */
  lemma StepShippedShape(lib: seq<Tool>, maps: Maps, p: Pass, op: Operation, correlation: Correlation)
    ensures StepShipped(lib, maps, p, op, correlation).Ok? ==>
      && StepShipped(lib, maps, p, op, correlation) == StepAsWritten(lib, maps, p, op, correlation)
      && StepShipped(lib, maps, p, op, correlation).value.matches == p.matches + [None]
    ensures StepShipped(lib, maps, p, op, correlation).Err? && StepAsWritten(lib, maps, p, op, correlation).Ok? ==>
      && StepShipped(lib, maps, p, op, correlation).error == DictOfJsonText
      && exists i :: StepAsWritten(lib, maps, p, op, correlation).value.matches == p.matches + [Some(i)]
  {
    var r := Rebind(maps, op, correlation, p.libraryTool);
    if r.Ok? && r.value.Some? && r.value.value != 0 {
      assert StepAsWritten(lib, maps, p, op, correlation).value.matches == p.matches + [Some(r.value.value)];
    }
  }

  lemma CorrelateShippedLast(lib: seq<Tool>, maps: Maps, ops: seq<Operation>, correlation: Correlation)
    requires ops != []
    ensures var r := CorrelateShipped(lib, maps, ops[..|ops| - 1], correlation);
      CorrelateShipped(lib, maps, ops, correlation) == if r.Err? then r else StepShipped(lib, maps, r.value, ops[|ops| - 1], correlation)
  {
  }

  lemma CorrelateAsWrittenLast(lib: seq<Tool>, maps: Maps, ops: seq<Operation>, correlation: Correlation)
    requires ops != []
    ensures var r := CorrelateAsWritten(lib, maps, ops[..|ops| - 1], correlation);
      CorrelateAsWritten(lib, maps, ops, correlation) == if r.Err? then r else StepAsWritten(lib, maps, r.value, ops[|ops| - 1], correlation)
  {
  }

  /** As shipped, the loop gets through the operations exactly when, as written, it would get
      through them without giving any operation a library tool; it then ends as written. So the
      first operation that finds a tool stops the command. */
  lemma {:induction false} ShippedStopsAtFirstMatch(lib: seq<Tool>, maps: Maps, ops: seq<Operation>, correlation: Correlation)
    ensures CorrelateShipped(lib, maps, ops, correlation).Ok? <==>
      CorrelateAsWritten(lib, maps, ops, correlation).Ok? && Unmatched(CorrelateAsWritten(lib, maps, ops, correlation).value.matches)
    ensures CorrelateShipped(lib, maps, ops, correlation).Ok? ==>
      CorrelateShipped(lib, maps, ops, correlation) == CorrelateAsWritten(lib, maps, ops, correlation)
  {
    if ops != [] {
      var init := ops[..|ops| - 1];
      var last := ops[|ops| - 1];
      ShippedStopsAtFirstMatch(lib, maps, init, correlation);
      CorrelateShippedLast(lib, maps, ops, correlation);
      CorrelateAsWrittenLast(lib, maps, ops, correlation);
      var s := CorrelateShipped(lib, maps, init, correlation);
      var a := CorrelateAsWritten(lib, maps, init, correlation);
      if s.Ok? {
        StepShippedShape(lib, maps, a.value, last, correlation);
        var w := StepAsWritten(lib, maps, a.value, last, correlation);
        if StepShipped(lib, maps, a.value, last, correlation).Ok? {
          UnmatchedAppend(a.value.matches, None);
        } else if w.Ok? {
          var i :| w.value.matches == a.value.matches + [Some(i)];
          UnmatchedAppend(a.value.matches, Some(i));
        }
      } else if a.Ok? {
        var w := StepAsWritten(lib, maps, a.value, last, correlation);
        if w.Ok? {
          StepAsWrittenShape(lib, maps, a.value, last, correlation);
          UnmatchedAppend(a.value.matches, w.value.matches[|a.value.matches|]);
          assert w.value.matches == a.value.matches + [w.value.matches[|a.value.matches|]];
        }
      }
    }
  }

  /** A shipped run that gets through every operation gave none of them a tool, copied nothing
      into the document's library, and raised the flag whenever there was an operation. */
  lemma {:induction false} ShippedCopiesNothing(lib: seq<Tool>, maps: Maps, ops: seq<Operation>, correlation: Correlation)
    requires CorrelateShipped(lib, maps, ops, correlation).Ok?
    ensures var p := CorrelateShipped(lib, maps, ops, correlation).value;
      |p.matches| == |ops| && Unmatched(p.matches) && p.added == [] && (p.bad <==> ops != [])
  {
    if ops != [] {
      var init := ops[..|ops| - 1];
      CorrelateShippedLast(lib, maps, ops, correlation);
      ShippedCopiesNothing(lib, maps, init, correlation);
      var q := CorrelateShipped(lib, maps, init, correlation).value;
      var lt := Rebind(maps, ops[|ops| - 1], correlation, q.libraryTool).value;
      assert CorrelateShipped(lib, maps, ops, correlation).value == Pass(Some(lt), q.matches + [None], true, q.added);
      UnmatchedAppend(q.matches, None);
    }
  }

  /** As shipped, an operation that finds a library tool raises `ValueError`; with line 149's log
      line repaired, it is given that tool. */
  lemma MatchRaisesAsShipped()
    ensures var lib := [ToolNamed("6mm flat", ["Finish"]), ToolNamed("3mm ball", ["Finish"])];
      var ops := [OperationOn(1, "3mm ball")];
      && CorrelateShipped(lib, LookupMaps(lib), ops, ByDescription) == Err(DictOfJsonText)
      && CorrelateAsWritten(lib, LookupMaps(lib), ops, ByDescription) == Ok(Pass(Some(Some(1)), [Some(1)], false, [1]))
      && CorrelateIntended(lib, LookupMaps(lib), ops, ByDescription) == Ok(Pass(Some(Some(1)), [Some(1)], false, [1]))
  {
    var lib := [ToolNamed("6mm flat", ["Finish"]), ToolNamed("3mm ball", ["Finish"])];
    var ops := [OperationOn(1, "3mm ball")];
    var maps := LookupMaps(lib);
    var keys := DescriptionKeys(lib);
    assert keys == [Some("6mm flat"), Some("3mm ball")];
    assert keys[..1] == [Some("6mm flat")] && keys[..1][..0] == [];
    assert LastIndexMap(keys[..1]) == map["6mm flat" := 0];
    assert maps.byDescription == map["6mm flat" := 0]["3mm ball" := 1];
    assert LookupFor(maps, ops[0], ByDescription) == Ok(Some(Some(1)));
    assert ops[..0] == [];
    assert PresetFound(lib, 1, PresetName(ops[0]));
    assert Start.matches + [Some(1)] == [Some(1)] && Start.added + [1] == [1];
    assert StepShipped(lib, maps, Start, ops[0], ByDescription) == Err(DictOfJsonText);
    assert StepAsWritten(lib, maps, Start, ops[0], ByDescription) == Ok(Pass(Some(Some(1)), [Some(1)], false, [1]));
    assert StepIntended(lib, maps, Start, ops[0], ByDescription) == Ok(Pass(Some(Some(1)), [Some(1)], false, [1]));
  }

  /** A match found by the intended rule is the last library tool with the operation's key. */
  lemma IntendedMatchIsLastWithKey(lib: seq<Tool>, op: Operation, correlation: Correlation, i: nat)
    requires IntendedMatch(LookupMaps(lib), op, correlation) == Some(i)
    ensures i < |lib|
    ensures correlation.ByDescription? ==>
      op.tool.description != "" && lib[i].description == op.tool.description &&
      forall j :: i < j < |lib| ==> lib[j].description != op.tool.description
    ensures correlation.ByProductId? ==>
      op.tool.productId != "" && lib[i].productId == op.tool.productId &&
      forall j :: i < j < |lib| ==> lib[j].productId != op.tool.productId
    ensures correlation.ByGeometry? ==>
      op.tool.geometry.Some? && GeometryKey(lib[i]) == Some(StripTips(op.tool.geometry.value)) &&
      forall j :: i < j < |lib| ==> GeometryKey(lib[j]) != Some(StripTips(op.tool.geometry.value))
  {
    if correlation.ByDescription? {
      DescriptionLastWins(lib, op.tool.description);
    } else if correlation.ByProductId? {
      ProductIdLastWins(lib, op.tool.productId);
    } else {
      GeometryLastWins(lib, StripTips(op.tool.geometry.value));
    }
  }

  // ---------------------------------------------------------------------------
  // Where the loop as written goes wrong
  // ---------------------------------------------------------------------------

  function ToolNamed(description: string, presets: seq<string>): Tool {
    Tool(description, "", None, presets)
  }

  function OperationOn(id: int, description: string): Operation {
    Operation(id, ToolNamed(description, []), Some("Finish"))
  }

  /** The first tool of the library is never a match: an operation whose tool has the library's
      only description gets "No Match Found", as shipped too (index 0 never reaches `get_tool`),
      where the intended rule matches it with index 0. */
  lemma FirstLibraryToolNeverMatches()
    ensures var lib := [ToolNamed("6mm flat", ["Finish"])];
      var ops := [OperationOn(1, "6mm flat")];
      && CorrelateShipped(lib, LookupMaps(lib), ops, ByDescription) == Ok(Pass(Some(Some(0)), [None], true, []))
      && CorrelateAsWritten(lib, LookupMaps(lib), ops, ByDescription) == Ok(Pass(Some(Some(0)), [None], true, []))
      && CorrelateIntended(lib, LookupMaps(lib), ops, ByDescription) == Ok(Pass(Some(Some(0)), [Some(0)], false, [0]))
  {
    var lib := [ToolNamed("6mm flat", ["Finish"])];
    var ops := [OperationOn(1, "6mm flat")];
    var maps := LookupMaps(lib);
    assert DescriptionKeys(lib) == [Some("6mm flat")];
    assert DescriptionKeys(lib)[..0] == [];
    assert maps.byDescription == map["6mm flat" := 0];
    assert LookupFor(maps, ops[0], ByDescription) == Ok(Some(Some(0)));
    assert ops[..0] == [];
    assert PresetFound(lib, 0, PresetName(ops[0]));
    assert Start.matches + [None] == [None] && Start.matches + [Some(0)] == [Some(0)] && Start.added + [0] == [0];
    assert StepAsWritten(lib, maps, Start, ops[0], ByDescription) == Ok(Pass(Some(Some(0)), [None], true, []));
    assert StepShipped(lib, maps, Start, ops[0], ByDescription) == Ok(Pass(Some(Some(0)), [None], true, []));
    assert StepIntended(lib, maps, Start, ops[0], ByDescription) == Ok(Pass(Some(Some(0)), [Some(0)], false, [0]));
  }

  /** With line 149's log line repaired, an operation whose tool has an empty description is given
      the tool matched for the operation before it, where the intended rule finds no match. As
      shipped, the earlier match raises first, so the reuse stays hidden. */
  lemma EmptyDescriptionReusesPreviousMatch()
    ensures var lib := [ToolNamed("6mm flat", ["Finish"]), ToolNamed("3mm ball", ["Finish"])];
      var ops := [OperationOn(1, "3mm ball"), OperationOn(2, "")];
      && CorrelateShipped(lib, LookupMaps(lib), ops, ByDescription) == Err(DictOfJsonText)
      && CorrelateAsWritten(lib, LookupMaps(lib), ops, ByDescription) == Ok(Pass(Some(Some(1)), [Some(1), Some(1)], false, [1]))
      && CorrelateIntended(lib, LookupMaps(lib), ops, ByDescription) == Ok(Pass(Some(None), [Some(1), None], true, [1]))
  {
    var lib := [ToolNamed("6mm flat", ["Finish"]), ToolNamed("3mm ball", ["Finish"])];
    var ops := [OperationOn(1, "3mm ball"), OperationOn(2, "")];
    var maps := LookupMaps(lib);
    var keys := DescriptionKeys(lib);
    assert keys == [Some("6mm flat"), Some("3mm ball")];
    assert keys[..1] == [Some("6mm flat")] && keys[..1][..0] == [];
    assert LastIndexMap(keys[..1]) == map["6mm flat" := 0];
    assert maps.byDescription == map["6mm flat" := 0]["3mm ball" := 1];
    assert "3mm ball" in maps.byDescription && maps.byDescription["3mm ball"] == 1;
    assert LookupFor(maps, ops[0], ByDescription) == Ok(Some(Some(1)));
    assert LookupFor(maps, ops[1], ByDescription) == Ok(None);
    assert ops[..1] == [ops[0]] && ops[..1][..0] == [];
    assert PresetFound(lib, 1, PresetName(ops[0])) && PresetFound(lib, 1, PresetName(ops[1]));
    var p := Pass(Some(Some(1)), [Some(1)], false, [1]);
    assert Start.matches + [Some(1)] == [Some(1)] && Start.added + [1] == [1];
    assert p.matches + [Some(1)] == [Some(1), Some(1)] && p.matches + [None] == [Some(1), None];
    assert StepAsWritten(lib, maps, Start, ops[0], ByDescription) == Ok(p);
    assert CorrelateAsWritten(lib, maps, ops[..1], ByDescription) == Ok(p);
    assert StepShipped(lib, maps, Start, ops[0], ByDescription) == Err(DictOfJsonText);
    assert CorrelateShipped(lib, maps, ops[..1], ByDescription) == Err(DictOfJsonText);
    assert StepAsWritten(lib, maps, p, ops[1], ByDescription) == Ok(Pass(Some(Some(1)), [Some(1), Some(1)], false, [1]));
    assert StepIntended(lib, maps, Start, ops[0], ByDescription) == Ok(p);
    assert CorrelateIntended(lib, maps, ops[..1], ByDescription) == Ok(p);
    assert StepIntended(lib, maps, p, ops[1], ByDescription) == Ok(Pass(Some(None), [Some(1), None], true, [1]));
  }

  /** When the first operation's tool has an empty description, `library_tool` is read before
      it is ever assigned and the command fails, as shipped too, where the intended rule reports
      no match. */
  lemma EmptyFirstDescriptionIsUnbound()
    ensures var lib := [ToolNamed("6mm flat", ["Finish"])];
      var ops := [OperationOn(1, "")];
      && CorrelateShipped(lib, LookupMaps(lib), ops, ByDescription) == Err(UnboundLocalError("library_tool"))
      && CorrelateAsWritten(lib, LookupMaps(lib), ops, ByDescription) == Err(UnboundLocalError("library_tool"))
      && CorrelateIntended(lib, LookupMaps(lib), ops, ByDescription) == Ok(Pass(Some(None), [None], true, []))
  {
    var lib := [ToolNamed("6mm flat", ["Finish"])];
    var ops := [OperationOn(1, "")];
    var maps := LookupMaps(lib);
    assert ops[..0] == [];
    assert LookupFor(maps, ops[0], ByDescription) == Ok(None);
    assert StepAsWritten(lib, maps, Start, ops[0], ByDescription) == Err(UnboundLocalError("library_tool"));
    assert StepShipped(lib, maps, Start, ops[0], ByDescription) == Err(UnboundLocalError("library_tool"));
    assert Start.matches + [None] == [None];
    assert StepIntended(lib, maps, Start, ops[0], ByDescription) == Ok(Pass(Some(None), [None], true, []));
  }

  // ---------------------------------------------------------------------------
  // The correlation loop
  // ---------------------------------------------------------------------------

  /** The document's tool library; adding a tool appends it. */
  class DocumentToolLibrary {
    var items: seq<Tool>

    constructor ()
      ensures items == []
    {
      items := [];
    }

    method Add(t: Tool)
      modifies this
      ensures items == old(items) + [t]
    {
      items := items + [t];
    }
  }

  /** `LibraryTool`: a library tool and the position of its copy in the document's tool library,
      -1 until the first operation is given it. */
  class LibraryTool {
    const tool: Tool
    var documentIndex: int

    constructor (tool: Tool)
      ensures this.tool == tool && documentIndex == -1
    {
      this.tool := tool;
      documentIndex := -1;
    }

    /** `get_tool` as shipped: the copy is made and recorded as in `GetTool`, then the log line
        raises, so no tool is returned. */
    method GetToolAsShipped(dtl: DocumentToolLibrary) returns (r: Result<Tool>)
      requires Cached(dtl)
      modifies this, dtl
      ensures r == Err(DictOfJsonText) && Cached(dtl) && documentIndex != -1
      ensures old(documentIndex) == -1 ==> dtl.items == old(dtl.items) + [tool] && documentIndex == |old(dtl.items)|
      ensures old(documentIndex) != -1 ==> dtl.items == old(dtl.items) && documentIndex == old(documentIndex)
    {
      if documentIndex == -1 {
        dtl.Add(tool);
        documentIndex := |dtl.items| - 1;
      }
      r := Err(DictOfJsonText);
    }

    /** The copy, once made, is this tool at the recorded position. */
    ghost predicate Cached(dtl: DocumentToolLibrary)
      reads this, dtl
    {
      documentIndex == -1 || (0 <= documentIndex < |dtl.items| && dtl.items[documentIndex] == tool)
    }

    /** `get_tool`: the first call copies the tool into the document's library; every call
        returns the copy. */
    method GetTool(dtl: DocumentToolLibrary) returns (t: Tool)
      requires Cached(dtl)
      modifies this, dtl
      ensures t == tool && Cached(dtl) && documentIndex != -1
      ensures old(documentIndex) == -1 ==> dtl.items == old(dtl.items) + [tool] && documentIndex == |old(dtl.items)|
      ensures old(documentIndex) != -1 ==> dtl.items == old(dtl.items) && documentIndex == old(documentIndex)
    {
      if documentIndex == -1 {
        dtl.Add(tool);
        documentIndex := |dtl.items| - 1;
      }
      t := dtl.items[documentIndex];
    }
  }

  /** The library tools at the given indices, skipping any index past the library's end. */
  function ToolsAt(lib: seq<Tool>, indices: seq<nat>): seq<Tool> {
    if indices == [] then []
    else ToolsAt(lib, indices[..|indices| - 1]) + (if indices[|indices| - 1] < |lib| then [lib[indices[|indices| - 1]]] else [])
  }

  lemma ToolsAtAppend(lib: seq<Tool>, indices: seq<nat>, x: nat)
    requires x < |lib|
    ensures ToolsAt(lib, indices + [x]) == ToolsAt(lib, indices) + [lib[x]]
  {
    assert (indices + [x])[..|indices|] == indices;
  }

  ghost predicate ValidOperations(ops: seq<Operation>) {
    forall k :: 0 <= k < |ops| && ops[k].tool.geometry.Some? ==> ValidDict(ops[k].tool.geometry.value)
  }

  /** Every index held by a pass is a position of the library. */
  ghost predicate InLibrary(lib: seq<Tool>, p: Pass) {
    && (p.libraryTool.Some? && p.libraryTool.value.Some? ==> p.libraryTool.value.value < |lib|)
    && (forall k :: 0 <= k < |p.matches| && p.matches[k].Some? ==> p.matches[k].value < |lib|)
    && (forall k :: 0 <= k < |p.added| ==> p.added[k] < |lib|)
  }

  lemma {:induction false} LastIndexMapBelow<K>(keys: seq<Option<K>>)
    ensures forall k :: k in LastIndexMap(keys) ==> LastIndexMap(keys)[k] < |keys|
  {
    if keys != [] {
      LastIndexMapBelow(keys[..|keys| - 1]);
    }
  }

  /** Every index the maps hold is below `n`. */
  ghost predicate MapsBelow(maps: Maps, n: nat) {
    && (forall k :: k in maps.byDescription ==> maps.byDescription[k] < n)
    && (forall k :: k in maps.byProductId ==> maps.byProductId[k] < n)
    && (forall k :: k in maps.byGeometry ==> maps.byGeometry[k] < n)
  }

  /** Every index the lookup maps hold is a position of the library. */
  lemma LookupMapsBelow(lib: seq<Tool>)
    ensures MapsBelow(LookupMaps(lib), |lib|)
  {
    LastIndexMapBelow(DescriptionKeys(lib));
    LastIndexMapBelow(ProductIdKeys(lib));
    LastIndexMapBelow(GeometryKeys(lib));
  }

  /** Once the intended loop fails, it stays failed with the same error. */
  lemma {:induction false} IntendedStopsAtError(lib: seq<Tool>, maps: Maps, ops: seq<Operation>, correlation: Correlation, n: nat)
    requires n <= |ops| && CorrelateIntended(lib, maps, ops[..n], correlation).Err?
    ensures CorrelateIntended(lib, maps, ops, correlation) == CorrelateIntended(lib, maps, ops[..n], correlation)
    decreases |ops|
  {
    if n < |ops| {
      var init := ops[..|ops| - 1];
      assert init[..n] == ops[..n];
      IntendedStopsAtError(lib, maps, init, correlation, n);
    } else {
      assert ops[..n] == ops;
    }
  }

  /** The cache of library tools: one per library tool, each holding its copy's position when
      it has been used, and -1 exactly while it has not. */
  ghost predicate CacheInv(used: seq<LibraryTool>, lib: seq<Tool>, dtl: DocumentToolLibrary, added: seq<nat>)
    reads used, dtl
  {
    && |used| == |lib|
    && (forall a, b :: 0 <= a < b < |used| ==> used[a] != used[b])
    && (forall j :: 0 <= j < |used| ==> used[j].tool == lib[j] && used[j].Cached(dtl))
    && (forall j :: 0 <= j < |used| ==> (used[j].documentIndex == -1 <==> j !in added))
  }

  /** The correlation branch of one turn, with `library_tool` reset to `None` before it. */
  method LookUpOwn(maps: Maps, op: Operation, correlation: Correlation) returns (r: Result<Option<nat>>)
    requires op.tool.geometry.Some? ==> ValidDict(op.tool.geometry.value)
    ensures r == OwnLookup(maps, op, correlation)
  {
    var lt: Option<nat> := None;
    if correlation.ByDescription? {
      if op.tool.description != "" {
        lt := MapGet(maps.byDescription, op.tool.description);
      }
    } else if correlation.ByProductId? {
      if op.tool.productId != "" {
        lt := MapGet(maps.byProductId, op.tool.productId);
      }
    } else if correlation.ByGeometry? {
      if op.tool.geometry.None? {
        return Err(KeyError("geometry"));
      }
      var geometry := RemoveTipKeys(op.tool.geometry.value);
      lt := MapGet(maps.byGeometry, geometry);
    }
    r := Ok(lt);
  }

  /** The cache agrees with the used indices `added`, and the document library is `base` followed by
      the library tools at those indices. */
  ghost predicate CacheAgrees(used: seq<LibraryTool>, lib: seq<Tool>, dtl: DocumentToolLibrary, added: seq<nat>, base: seq<Tool>)
    reads used, dtl
  {
    CacheInv(used, lib, dtl, added) && dtl.items == base + ToolsAt(lib, added)
  }

  /** A turn whose lookup found the index `index`: the operation is given that
      library tool, whose first use copies it into the document library, and its preset is
      looked up among the tool's presets. */
  method TakeMatch(used: seq<LibraryTool>, lib: seq<Tool>, dtl: DocumentToolLibrary, op: Operation, index: nat,
                   matches: seq<Option<nat>>, bad: bool, ghost p: Pass, ghost base: seq<Tool>)
    returns (matches': seq<Option<nat>>, bad': bool, ghost added': seq<nat>)
    requires p.matches == matches && p.bad == bad
    requires index < |lib| && CacheAgrees(used, lib, dtl, p.added, base)
    modifies used[index], dtl
    ensures Matched(lib, p, Some(Some(index)), index, op) == Pass(Some(Some(index)), matches', bad', added')
    ensures CacheAgrees(used, lib, dtl, added', base)
  {
    var found := PresetName(op) in lib[index].presetNames;
    matches' := matches + [Some(index)];
    bad' := bad || !found;
    added' := UseLibraryTool(used, lib, dtl, index, p.added, base);
  }

  /** `get_tool` on the library tool at `index`: its first use copies it into the document
      library and records the index among the used ones. */
  method UseLibraryTool(used: seq<LibraryTool>, lib: seq<Tool>, dtl: DocumentToolLibrary, index: nat,
                        ghost added: seq<nat>, ghost base: seq<Tool>)
    returns (ghost added': seq<nat>)
    requires index < |lib| && CacheAgrees(used, lib, dtl, added, base)
    modifies used[index], dtl
    ensures added' == if index in added then added else added + [index]
    ensures CacheAgrees(used, lib, dtl, added', base)
  {
    added' := if index in added then added else added + [index];
    if index !in added {
      ToolsAtAppend(lib, added, index);
    }
    var t := used[index].GetTool(dtl);
    forall j | 0 <= j < |used|
      ensures used[j].tool == lib[j] && used[j].Cached(dtl) && (used[j].documentIndex == -1 <==> j !in added')
    {
      if j != index {
        assert used[j] != used[index];
        assert used[j].documentIndex == old(used[j].documentIndex);
        assert old(used[j].Cached(dtl));
        assert used[j].documentIndex != -1 ==> dtl.items[used[j].documentIndex] == old(dtl.items)[used[j].documentIndex];
      }
    }
  }

  /** Every index a lookup finds is a position of the library. */
  lemma OwnLookupInLibrary(maps: Maps, n: nat, op: Operation, correlation: Correlation)
    requires MapsBelow(maps, n) && OwnLookup(maps, op, correlation).Ok?
    ensures OwnLookup(maps, op, correlation).value.Some? ==> OwnLookup(maps, op, correlation).value.value < n
  {
  }

  /** A turn keeps every index of the pass within the library. */
  lemma StepIntendedInLibrary(lib: seq<Tool>, maps: Maps, p: Pass, op: Operation, correlation: Correlation)
    requires MapsBelow(maps, |lib|) && InLibrary(lib, p)
    requires StepIntended(lib, maps, p, op, correlation).Ok?
    ensures InLibrary(lib, StepIntended(lib, maps, p, op, correlation).value)
  {
    OwnLookupInLibrary(maps, |lib|, op, correlation);
    var m := OwnLookup(maps, op, correlation).value;
    if m.Some? {
      MatchedInLibrary(lib, p, m.value, op);
    } else {
      NoMatchInLibrary(lib, p);
    }
  }

  lemma MatchedInLibrary(lib: seq<Tool>, p: Pass, i: nat, op: Operation)
    requires InLibrary(lib, p) && i < |lib|
    ensures InLibrary(lib, Matched(lib, p, Some(Some(i)), i, op))
  {
    var q := Matched(lib, p, Some(Some(i)), i, op);
    forall k | 0 <= k < |q.matches| && q.matches[k].Some?
      ensures q.matches[k].value < |lib|
    {
      if k < |p.matches| {
        assert q.matches[k] == p.matches[k];
      }
    }
    forall k | 0 <= k < |q.added|
      ensures q.added[k] < |lib|
    {
      if k < |p.added| {
        assert q.added[k] == p.added[k];
      }
    }
  }

  lemma NoMatchInLibrary(lib: seq<Tool>, p: Pass)
    requires InLibrary(lib, p)
    ensures InLibrary(lib, Pass(Some(None), p.matches + [None], true, p.added))
  {
    var q := Pass(Some(None), p.matches + [None], true, p.added);
    forall k | 0 <= k < |q.matches| && q.matches[k].Some?
      ensures q.matches[k].value < |lib|
    {
      assert k < |p.matches| && q.matches[k] == p.matches[k];
    }
  }

  /** A turn's outcome `r` is the step `step`, and the cache and the document library are
      kept in step with it; a failed turn leaves the document library as it was. */
  ghost predicate TurnDone(lib: seq<Tool>, used: seq<LibraryTool>, dtl: DocumentToolLibrary, base: seq<Tool>,
                          before: seq<Tool>, step: Result<Pass>, r: Result<(Option<Option<nat>>, seq<Option<nat>>, bool)>,
                          added: seq<nat>)
    reads used, dtl
  {
    && (r.Ok? <==> step.Ok?)
    && (r.Err? ==> r.error == step.error && dtl.items == before)
    && (r.Ok? ==> step.value == Pass(r.value.0, r.value.1, r.value.2, added) &&
                  CacheAgrees(used, lib, dtl, added, base))
  }

  /** One turn of the correlation loop, as `StepIntended` describes it; the document library
      gains the matched tool on its first use. */
  method CorrelateTurn(lib: seq<Tool>, maps: Maps, used: seq<LibraryTool>, dtl: DocumentToolLibrary, op: Operation,
                       correlation: Correlation, libraryTool: Option<Option<nat>>, matches: seq<Option<nat>>, bad: bool,
                       ghost added: seq<nat>, ghost base: seq<Tool>)
    returns (r: Result<(Option<Option<nat>>, seq<Option<nat>>, bool)>, ghost added': seq<nat>)
    requires MapsBelow(maps, |lib|) && (op.tool.geometry.Some? ==> ValidDict(op.tool.geometry.value))
    requires InLibrary(lib, Pass(libraryTool, matches, bad, added)) && CacheAgrees(used, lib, dtl, added, base)
    modifies used, dtl
    ensures TurnDone(lib, used, dtl, base, old(dtl.items), StepIntended(lib, maps, Pass(libraryTool, matches, bad, added), op, correlation), r, added')
  {
    added' := added;
    var lt := LookUpOwn(maps, op, correlation);
    if lt.Err? {
      return Err(lt.error), added;
    }
    OwnLookupInLibrary(maps, |lib|, op, correlation);
    if lt.value.Some? {
      var matches', bad';
      matches', bad', added' := TakeMatch(used, lib, dtl, op, lt.value.value, matches, bad, Pass(libraryTool, matches, bad, added), base);
      r := Ok((Some(lt.value), matches', bad'));
    } else {
      r := Ok((Some(lt.value), matches + [None], true));
    }
  }

  /** `library_tool_used`: a fresh `LibraryTool` for each library tool, none used yet. */
  method NewLibraryTools(lib: seq<Tool>, dtl: DocumentToolLibrary) returns (used: seq<LibraryTool>)
    ensures forall j :: 0 <= j < |used| ==> fresh(used[j])
    ensures CacheInv(used, lib, dtl, [])
  {
    used := [];
    var i := 0;
    while i < |lib|
      invariant 0 <= i <= |lib| && |used| == i
      invariant forall j :: 0 <= j < i ==> fresh(used[j]) && used[j].tool == lib[j] && used[j].documentIndex == -1
      invariant forall a, b :: 0 <= a < b < i ==> used[a] != used[b]
    {
      var t := new LibraryTool(lib[i]);
      used := used + [t];
      i := i + 1;
    }
  }

  /** The loop has correlated the first `k` operations into the pass `p`, the cache agrees with
      `p`, and the document library is `base` followed by the library tools `p` added. */
  ghost predicate Correlating(lib: seq<Tool>, maps: Maps, ops: seq<Operation>, correlation: Correlation, k: nat, p: Pass,
                              used: seq<LibraryTool>, dtl: DocumentToolLibrary, base: seq<Tool>)
    reads used, dtl
  {
    && k <= |ops|
    && CorrelateIntended(lib, maps, ops[..k], correlation) == Ok(p)
    && InLibrary(lib, p)
    && CacheAgrees(used, lib, dtl, p.added, base)
  }

  /** The loop stopped on the operation after the first `n`: those `n` correlated, and the
      document library gained what they added. */
  ghost predicate StoppedAfter(lib: seq<Tool>, ops: seq<Operation>, correlation: Correlation, n: nat, before: seq<Tool>, after: seq<Tool>) {
    && n < |ops|
    && CorrelateIntended(lib, LookupMaps(lib), ops[..n], correlation).Ok?
    && after == before + ToolsAt(lib, CorrelateIntended(lib, LookupMaps(lib), ops[..n], correlation).value.added)
  }

  /** What `replace_with_library_tool` achieves, corrected: the outcome of the intended loop, with the
      document library `before` grown into `after` by the library tools used, once each, in order of
      first use; on an error, by those of the operations before the failing one. */
  ghost predicate Replaced(lib: seq<Tool>, ops: seq<Operation>, correlation: Correlation,
                           r: Result<(seq<Option<nat>>, bool)>, before: seq<Tool>, after: seq<Tool>)
  {
    var c := CorrelateIntended(lib, LookupMaps(lib), ops, correlation);
    && (r.Ok? <==> c.Ok?)
    && (c.Ok? ==> r.value == (c.value.matches, c.value.bad) && after == before + ToolsAt(lib, c.value.added))
    && (c.Err? ==> r.error == c.error && exists n :: StoppedAfter(lib, ops, correlation, n, before, after))
  }

  /** `replace_with_library_tool`, corrected: the lookup maps and the library tool cache are built,
      then each operation is correlated in turn by its own lookup, any found index being a match;
      the result is the operations' matches and the `bad_correlation` flag. */
  method ReplaceWithLibraryTool(lib: seq<Tool>, ops: seq<Operation>, correlation: Correlation, dtl: DocumentToolLibrary)
    returns (r: Result<(seq<Option<nat>>, bool)>)
    requires ValidTools(lib) && ValidOperations(ops)
    modifies dtl
    ensures Replaced(lib, ops, correlation, r, old(dtl.items), dtl.items)
  {
    var maps := BuildLookupMaps(lib);
    LookupMapsBelow(lib);
    var used := NewLibraryTools(lib, dtl);
    var libraryTool: Option<Option<nat>> := None;
    var matches: seq<Option<nat>> := [];
    var bad := false;
    ghost var added: seq<nat> := [];
    assert dtl.items == old(dtl.items) + ToolsAt(lib, added);
    var k := 0;
    while k < |ops|
      invariant forall j :: 0 <= j < |used| ==> fresh(used[j])
      invariant Correlating(lib, maps, ops, correlation, k, Pass(libraryTool, matches, bad, added), used, dtl, old(dtl.items))
    {
      var turn;
      turn, added := CorrelateNext(lib, maps, ops, correlation, k, used, dtl, libraryTool, matches, bad, added, old(dtl.items));
      if turn.Err? {
        r := Err(turn.error);
        ReplacedOnError(lib, ops, correlation, k, turn.error, old(dtl.items), dtl.items);
        return;
      }
      libraryTool, matches, bad := turn.value.0, turn.value.1, turn.value.2;
      k := k + 1;
    }
    assert ops[..k] == ops;
    r := Ok((matches, bad));
    ReplacedOnSuccess(lib, ops, correlation, Pass(libraryTool, matches, bad, added), old(dtl.items), dtl.items);
  }

  /** The loop stopping on the failing turn of operation `k` is the outcome the corrected
      `replace_with_library_tool` promises. */
  lemma ReplacedOnError(lib: seq<Tool>, ops: seq<Operation>, correlation: Correlation, k: nat, error: Failure,
                        before: seq<Tool>, after: seq<Tool>)
    requires k < |ops| && CorrelateIntended(lib, LookupMaps(lib), ops[..k + 1], correlation) == Err(error)
    requires StoppedAfter(lib, ops, correlation, k, before, after)
    ensures Replaced(lib, ops, correlation, Err(error), before, after)
  {
    IntendedStopsAtError(lib, LookupMaps(lib), ops, correlation, k + 1);
  }

  /** The loop running through every operation is the outcome the corrected
      `replace_with_library_tool` promises. */
  lemma ReplacedOnSuccess(lib: seq<Tool>, ops: seq<Operation>, correlation: Correlation, p: Pass,
                          before: seq<Tool>, after: seq<Tool>)
    requires CorrelateIntended(lib, LookupMaps(lib), ops, correlation) == Ok(p)
    requires after == before + ToolsAt(lib, p.added)
    ensures Replaced(lib, ops, correlation, Ok((p.matches, p.bad)), before, after)
  {
  }

  /** The turn of operation `k`: on success the loop has correlated one operation more; on an error
      the intended loop fails there, and the document library holds what the earlier turns added. */
  method CorrelateNext(lib: seq<Tool>, maps: Maps, ops: seq<Operation>, correlation: Correlation, k: nat,
                       used: seq<LibraryTool>, dtl: DocumentToolLibrary,
                       libraryTool: Option<Option<nat>>, matches: seq<Option<nat>>, bad: bool,
                       ghost added: seq<nat>, ghost base: seq<Tool>)
    returns (r: Result<(Option<Option<nat>>, seq<Option<nat>>, bool)>, ghost added': seq<nat>)
    requires maps == LookupMaps(lib) && MapsBelow(maps, |lib|) && ValidOperations(ops) && k < |ops|
    requires Correlating(lib, maps, ops, correlation, k, Pass(libraryTool, matches, bad, added), used, dtl, base)
    modifies used, dtl
    ensures r.Ok? ==> Correlating(lib, maps, ops, correlation, k + 1, Pass(r.value.0, r.value.1, r.value.2, added'), used, dtl, base)
    ensures r.Err? ==> CorrelateIntended(lib, maps, ops[..k + 1], correlation) == Err(r.error) && StoppedAfter(lib, ops, correlation, k, base, dtl.items)
  {
    ghost var p := Pass(libraryTool, matches, bad, added);
    assert ops[..k + 1][..k] == ops[..k] && ops[..k + 1][k] == ops[k];
    assert CorrelateIntended(lib, maps, ops[..k + 1], correlation) == StepIntended(lib, maps, p, ops[k], correlation);
    StepIntendedShape(lib, maps, p, ops[k], correlation);
    if StepIntended(lib, maps, p, ops[k], correlation).Ok? {
      StepIntendedInLibrary(lib, maps, p, ops[k], correlation);
    }
    r, added' := CorrelateTurn(lib, maps, used, dtl, ops[k], correlation, libraryTool, matches, bad, added, base);
  }

  /** Every operation a selection contributes has a well-formed geometry. */
  ghost predicate ValidSelection(selection: seq<Entity>) {
    forall i :: 0 <= i < |selection| ==> ValidOperations(EntityOperations(selection[i]))
  }

  lemma CollectedValid(selection: seq<Entity>)
    requires ValidSelection(selection)
    ensures ValidOperations(Collected(selection))
  {
    forall k, op | 0 <= k < |Collected(selection)| && op == Collected(selection)[k] && op.tool.geometry.Some?
      ensures ValidDict(op.tool.geometry.value)
    {
      assert op in Collected(selection);
      CollectedMembers(selection, op);
      var i :| 0 <= i < |selection| && op in EntityOperations(selection[i]);
      var j :| 0 <= j < |EntityOperations(selection[i])| && EntityOperations(selection[i])[j] == op;
    }
  }

  lemma {:induction false} FirstPerIdValid(ops: seq<Operation>)
    requires ValidOperations(ops)
    ensures ValidOperations(FirstPerId(ops))
  {
    if ops != [] {
      FirstPerIdValid(ops[..|ops| - 1]);
    }
  }

  /** `command_execute`: the selected entities' operations, deduplicated by id, are correlated
      with the chosen library. */
  method CommandExecute(selection: seq<Entity>, lib: seq<Tool>, correlation: Correlation, dtl: DocumentToolLibrary)
    returns (r: Result<(seq<Option<nat>>, bool)>)
    requires ValidTools(lib) && ValidSelection(selection)
    modifies dtl
    ensures Replaced(lib, FirstPerId(Collected(selection)), correlation, r, old(dtl.items), dtl.items)
  {
    var operations := CollectOperations(selection);
    operations := Deduplicate(operations);
    CollectedValid(selection);
    FirstPerIdValid(Collected(selection));
    r := ReplaceWithLibraryTool(lib, operations, correlation, dtl);
  }
}
