# Fusion Essentials, modelled in Dafny

Fusion Essentials is an add-in for the Fusion 360 CAD/CAM host. Each of its commands is mostly host
plumbing, and underneath sits a small piece of logic. This project models those pieces on plain
values and proves what they do:

- **Settings store** (`SharedState`): one JSON file maps each module name to a module record.
  `load_settings` gives the record's `"settings"` part, `save_settings` replaces one record, and
  `get_all_module_settings` gives the whole file. The settings folder depends on the platform.
  The store is a class whose field is the parsed file (`None` when no file exists).
- **Settings dialog** (`SettingsPanel`): one tab per module and one input per setting
  descriptor. An edit writes one descriptor's `default` back under the `"settings"` envelope.
- **Document settings** (`DocSettings`): on the first opening of an imported design, the design
  becomes parametric and, when the stored checkbox is set, takes the stored display unit.
- **Clean Chamfer** (`CleanChamfer`, `ChamferSelection`, `ChamferLoop`):
  - selected faces are grouped into chains of tangent faces;
  - the selection is cut down to one body, and a preselection rule keeps it on one body;
  - the edges of a chain are split into boundary and interior edges;
  - the boundary edges are ordered into a vertex-connected loop.
- **Update Tools from Libraries** (`UpdateTools`, `LibraryUrls`):
  - the operations of the selected setups, folders and operations are collected and deduplicated
    by id;
  - lookup maps are built over a tool library, keyed by description, product id and tip-stripped
    geometry; a later tool wins;
  - each operation is correlated with a library tool, which is copied into the document's tool
    library on first use, and a flag records any failed correlation;
  - library URLs are gathered from the cloud, local and external folder trees, and each is shown
    by its last path segment.
- **Relink Libraries** (`RelinkLibraries`): the same URL helpers, plus an input-changed handler
  that shows and clears the axis and end-face inputs in stages.

Host objects become values. A face is its entity token and its body's token. An edge is its id and
its two vertex tokens. A tool is its description, product id, geometry and preset names. Tangency
between faces is an input relation. JSON values are a `Json` datatype, and a dict keeps its keys in
insertion order. Python exceptions become `Failure` values in a `Result`.

The URL helpers appear twice in the source, identically: in `commands/updateTools/entry.py` at
lines 250-278 and in `commands/relinkLibraries/entry.py` at lines 142-170. `LibraryUrls` models them
once.

The Relink Libraries dialog creates inputs with the ids `setups`, `prodid`, `prodlink` and
`library` (`commands/relinkLibraries/entry.py:54-88`). None of them is `body` or `axis`, so in the
command as shipped the input-changed handler changes nothing (`CreatedInputsChangeNothing`). The
handler is still modelled in full, for a dialog that has those inputs.

Where the code has an evident defect, the model states the behaviour as written, with a concrete
input that exhibits it, and uses the corrected definition elsewhere (see "## Findings"). This is
done for the Clean Chamfer defaults, for the chain merge, and for the tool correlation loop.
`CleanChamfer.FaceChainFinder` uses the corrected merge. That merge is the function `CleanChamfer.Merge`, and `CleanChamfer.Chains` folds it over the faces in selection order; the merge and chain loops are proved equal to these two functions. `UpdateTools.ReplaceWithLibraryTool` and
`UpdateTools.CommandExecute` use the corrected correlation: `library_tool` is reset for every
operation, any found index, 0 included, is a match, and `get_tool` returns the cached tool.
Two further levels model the loop's defects. `UpdateTools.CorrelateShipped` is the loop exactly as
shipped: the log line of `get_tool` (`commands/updateTools/entry.py:149`) applies `dict` to the tool's
JSON text and raises `ValueError`, so the first operation that finds a tool stops the command.
`UpdateTools.CorrelateAsWritten` is lines 177-221 as written with only that log line repaired; the
defects of the correlation branch itself show there.

## Model

| member | source | states |
|---|---|---|
| SharedState.Join | shared_state.py:15-23 | `os.path.join` of two parts: a second part starting with a separator replaces the first; otherwise, when the first part is empty or already ends in a separator, the two are concatenated, and else one separator is put between them |
| SharedState.SettingsDirectoryLayout | shared_state.py:10-23 | the settings folder is home/AppData/Roaming/COMPANY_ADDIN on Windows, home/Library/Application Support/COMPANY_ADDIN on Darwin, and home/.COMPANY_ADDIN elsewhere |
| SharedState.WindowsLayout | shared_state.py:13-15 | the three joins on Windows put one backslash between home, AppData, Roaming and the folder name |
| SharedState.DarwinLayout | shared_state.py:17-19 | the three joins on Darwin put one slash between home, Library, Application Support and the folder name |
| SharedState.AllFrom | shared_state.py:52-56 | the whole store is the parsed file, or `{}` when there is no file |
| SharedState.LoadAbsentModule | shared_state.py:32-39 | a module missing from the file, or any module when there is no file, loads as `{}` |
| SharedState.SaveLoadRoundTrip | shared_state.py:32-50 | after saving a record, loading the module gives the record's `"settings"` value, or `{}` when it has none |
| SharedState.SaveEnvelopeLoadRoundTrip | shared_state.py:38-47 | after `save_settings(m, {"settings": s})`, `load_settings(m)` returns `s` |
| SharedState.SaveFlatLoadsEmpty | shared_state.py:38-47 | a saved record without a `"settings"` key loads back as `{}` |
| SharedState.SaveFrame | shared_state.py:41-50 | saving succeeds iff there is no file or the file holds a dict; only the saved module's entry changes, the module order is kept, and a new module goes last |
| SharedState.SaveIdempotent | shared_state.py:41-50 | saving the same value twice leaves the same file as saving once |
| SharedState.SaveThenGetAll | shared_state.py:41-56 | after `save_settings(m, v)`, `get_all_module_settings()[m] == v` |
| SharedState.SettingsStore.LoadSettings | shared_state.py:32-39 | returns the loaded settings; it succeeds iff the file is absent or a dict whose entry for the module is a dict or absent |
| SharedState.SettingsStore.SaveSettings | shared_state.py:41-50 | the file becomes the saved contents, or stays unchanged when saving raises |
| SharedState.SettingsStore.GetAllModuleSettings | shared_state.py:52-56 | returns the file's contents, or `{}` when there is no file |
| SharedState.SettingsStore.InitializeOnFirstUse | commands/updateDocSettings/entry.py:32-34 | the defaults are saved only when the module loads as falsy; a raise leaves the file unchanged, and it raises iff loading or saving raises |
| SettingsPanel.DropPrefix | commands/settings/entry.py:66 | `s[n:]` is the suffix of `s` of length `len(s) - n`, or empty |
| SettingsPanel.Iterate | commands/settings/entry.py:74 | iterating a list gives its elements; a list, string or dict can be iterated and anything else raises `TypeError` |
| SettingsPanel.Items | commands/settings/entry.py:65-68 | `items()` lists each key once, in order, with its value |
| SettingsPanel.AddOptionItems | commands/settings/entry.py:74-75 | the loop adds the list items the rendering rule gives, and reports the same exception |
| SettingsPanel.AddDescriptorWidgets | commands/settings/entry.py:68-77 | the loop adds the inputs the rendering rule gives, and reports the same exception |
| SettingsPanel.CommandCreated | commands/settings/entry.py:55-82 | the tabs and the reported failure are those of rendering the store; the input-changed handler is registered iff nothing raised |
| SettingsPanel.ModuleTabsShape | commands/settings/entry.py:62-82 | tabs follow module order, one per module, until a module raises; that module's tab is the last one, and every earlier module rendered fully |
| SettingsPanel.ModuleTabsValues | commands/settings/entry.py:65-82 | the tabs are the modules' own tabs, in module order, never more than one per module |
| SettingsPanel.ModuleTabsNoFailure | commands/settings/entry.py:65-82 | nothing is raised exactly when every module renders, and then every module has its tab |
| SettingsPanel.ModuleTabsFailedLast | commands/settings/entry.py:65-82 | a raise comes from the module of the last tab, and every module before it rendered fully |
| SettingsPanel.OneTabPerModule | commands/settings/entry.py:65-66 | when nothing raises there is one tab per module, its id is the module name and its label drops the first `len(MODULE_PREFIX)` characters |
| SettingsPanel.ModuleTabsComplete | commands/settings/entry.py:65-77 | when no module raises, nothing is reported and every module has its tab |
| SettingsPanel.MissingSettingsAbortsAtModule | commands/settings/entry.py:66-68 | a module record without `"settings"` stops rendering at its own tab with `KeyError`, and the earlier tabs remain |
| SettingsPanel.MissingSettingsTab | commands/settings/entry.py:66-68 | a module record without `"settings"` gets its tab, still empty, and raises `KeyError('settings')` |
| SettingsPanel.BoolDescriptorsAll | commands/settings/entry.py:67-69 | settings whose descriptors are all buttons or checkboxes render without failure into one bool input per descriptor, in order, each with the descriptor's key, label, style and default |
| SettingsPanel.BoolDescriptorWidget | commands/settings/entry.py:69-70 | a button or checkbox descriptor becomes one bool input set to `default`, in checkbox style iff its type is checkbox |
| SettingsPanel.UnknownDescriptorSkipped | commands/settings/entry.py:69-77 | a descriptor of any other type creates no input and raises nothing |
| SettingsPanel.OptionItemsAll | commands/settings/entry.py:72-75 | one list item per option, in order, selected iff it equals `default` |
| SettingsPanel.DropdownSelectsDefault | commands/settings/entry.py:72-75 | with distinct option strings and `default` among them, exactly one item is selected: the default |
| SettingsPanel.InputChangedHandler | commands/settings/entry.py:84-110 | the file becomes the edit's outcome; on a raise the file is unchanged and the failure is reported |
| SettingsPanel.MissingKeyFails | commands/settings/entry.py:95-104 | an edited key missing from the loaded settings raises `KeyError` before anything is saved, both for a bool input and for a dropdown with a selected item |
| SettingsPanel.SetDefaultTwice | commands/settings/entry.py:101-104 | setting the same `default` of the same key twice gives the settings that setting it once gives |
| SettingsPanel.EditIdempotent | commands/settings/entry.py:84-107 | applying the same input change again to the file the first edit saved leaves that file as it is |
| SettingsPanel.EditChangesOnlyDefault | commands/settings/entry.py:95-107 | after an edit, the module's settings read back as the edited ones, and every other setting is unchanged |
| SettingsPanel.SetDefaultFields | commands/settings/entry.py:101-104 | inside the edited descriptor only `default` changes, and it takes the new value |
| SettingsPanel.BoolEditRoundTrip | commands/settings/entry.py:103-107 | after a bool edit, the stored `default` reads back as the input's value |
| SettingsPanel.DropdownEditRoundTrip | commands/settings/entry.py:98-107 | after a dropdown edit, the stored `default` reads back as the selected item's name; with no selected item the settings read back unchanged |
| SettingsPanel.EditSavesEnvelope | commands/settings/entry.py:107 | the module is saved as `{"settings": edited}` and no other module changes |
| DocSettings.DecodeUnitName | commands/updateDocSettings/entry.py:58-67 | `"in"`, `"mm"`, `"ft"`, `"m"` and `"cm"` decode to inches, millimetres, feet, metres and centimetres |
| DocSettings.DecodeUnitFallback | commands/updateDocSettings/entry.py:68-69 | any other stored value decodes to inches |
| DocSettings.DefaultSettingsShape | commands/updateDocSettings/entry.py:16-30 | the defaults use the `"settings"` envelope, every unit is a dropdown option, and the default `"in"` is one of them |
| DocSettings.GetSettingsComponents | commands/updateDocSettings/entry.py:55-70 | the first result is the checkbox's stored default, the second the decoded stored unit |
| DocSettings.FreshStoreSettings | commands/updateDocSettings/entry.py:32-70 | on a store with no file, initialisation saves the defaults, and the settings then say to change units to inches |
| DocSettings.DefaultsGiveInches | commands/updateDocSettings/entry.py:55-70 | reading the default settings gives the checkbox `True` and the unit inches |
| DocSettings.UpdateDocSettings | commands/updateDocSettings/entry.py:44-53 | a document that is not a first-opened design changes nothing; a first-opened design becomes parametric, and its units change to the stored unit only when the checkbox is set; a raise leaves the units unchanged |
| CleanChamfer.FlatDefaultsFailOnCreate | commands/cleanChamfer/entry.py:27-94 | the flat defaults are saved but load back as `{}`, so they are saved again on every start, and opening the command raises `KeyError` |
| CleanChamfer.EnvelopedDefaultsOnCreate | commands/cleanChamfer/entry.py:27-94 | with the `"settings"` envelope the defaults are saved once, and opening the command reads both checkboxes as false |
| CleanChamfer.MergeFace | commands/cleanChamfer/entry.py:294-308 | placing a face, corrected: a face meeting no chain starts a chain of its own; when chain `b` is the first it meets, the chains before `b` stay, chain `b` is followed by the face and then by every later chain the face meets, in order, and the later chains it does not meet follow in order; a face meeting only chain `b` is appended to it; in every case the first chain keeps its first face, no chain becomes empty, and the chains hold the old faces plus this one; the result is exactly `Merge` of the chains |
| CleanChamfer.ScanChains | commands/cleanChamfer/entry.py:296-306 | the scan over the chains: `b` is -1 exactly when the face meets no chain, and then the chains are unchanged; otherwise `b` is the first chain met and the chains are merged into it as above |
| CleanChamfer.MergedCovers | commands/cleanChamfer/entry.py:299-308 | after the corrected merge the face is in chain `b`, every chain it meets lies within chain `b`, and every old chain lies within some new chain |
| CleanChamfer.MergedCount | commands/cleanChamfer/entry.py:299-308 | the corrected merge keeps every face of the old chains and adds the new one |
| CleanChamfer.PlacedTogether | commands/cleanChamfer/entry.py:294-308 | after placing face `i`, each of faces `0..i` shares a chain with every earlier face it is tangent to |
| CleanChamfer.FirstIndex | commands/cleanChamfer/entry.py:316 | `list.index` gives the first position holding the token |
| CleanChamfer.ChainIndices | commands/cleanChamfer/entry.py:311-316 | every chain member becomes the first selection index of its token, keeping the chains' shape |
| CleanChamfer.ChainIndicesDistinct | commands/cleanChamfer/entry.py:311-316 | with distinct tokens, the index lookup changes no member |
| CleanChamfer.FaceChainFinder | commands/cleanChamfer/entry.py:267-317 | one selection or none gives `[[0]]`; otherwise the result has the shape of the fold `Chains` with every member replaced by the first selection index of its token, and with distinct tokens it is exactly that fold; chain 0 starts with face 0, no chain is empty, members are selection indices, and with distinct tokens every face is in exactly one chain and shares it with every earlier face it is tangent to |
| CleanChamfer.UniqueTangentChains | commands/cleanChamfer/entry.py:293-308 | corrected: the chains of faces 0 onwards are exactly the fold `Chains`; chain 0 starts with face 0, no chain is empty, every face is placed exactly once, and every face is in one chain with each earlier face it is tangent to |
| CleanChamfer.FoldChains | commands/cleanChamfer/entry.py:293-308 | the loop over faces 1 onwards, starting from `[[face 0]]`, gives exactly the fold `Chains` of all faces: each face placed by `Merge` in selection order |
| CleanChamfer.ChainsGrouped | commands/cleanChamfer/entry.py:293-308 | the fold of the first `n` faces holds faces `0..n-1` once each, chain 0 starts with face 0, no chain is empty, and each face shares a chain with every earlier face it is tangent to |
| CleanChamfer.MergeGroups | commands/cleanChamfer/entry.py:294-308 | placing face `i` by `Merge` into grouped chains of faces `0..i-1` groups faces `0..i` |
| CleanChamfer.PlaceFace | commands/cleanChamfer/entry.py:294-308 | one turn of the loop over faces: `MergeFace` takes the fold of faces `0..i-1` to the fold of faces `0..i` |
| CleanChamfer.FirstMet | commands/cleanChamfer/entry.py:296-305 | the first chain from `j` on that the face meets, or the number of chains when it meets none; no chain between them meets the face |
| CleanChamfer.ThreeChainsLoseAFace | commands/cleanChamfer/entry.py:293-308 | as written, a face that meets three chains makes another face vanish from the result |
| ChamferSelection.BodiesListsEachBodyOnce | commands/cleanChamfer/entry.py:112-118 | the counting dict's keys are the selection's bodies, each once |
| ChamferSelection.OnBodyFaces | commands/cleanChamfer/entry.py:124-127 | the kept faces are all on the chosen body, every face on that body is kept, and their number is that body's count |
| ChamferSelection.ValidateInputs | commands/cleanChamfer/entry.py:107-130 | a selection of at most one face or one body is unchanged; otherwise the kept faces are those of a body with the highest count, the first such body on a tie, in selection order |
| ChamferSelection.CountBodies | commands/cleanChamfer/entry.py:112-118 | the dictionary's keys are the selected bodies in first-seen order, each mapped to its number of selected faces |
| ChamferSelection.MostSelected | commands/cleanChamfer/entry.py:123 | the position of a key with the largest count, the first such key on a tie |
| ChamferSelection.FacesOn | commands/cleanChamfer/entry.py:124-127 | the selected faces on the chosen body, in selection order |
| ChamferSelection.ValidatedOnOneBody | commands/cleanChamfer/entry.py:120-130 | after the cut, the selection is nonempty and lies on one body |
| ChamferSelection.PreselectRule | commands/cleanChamfer/entry.py:132-145 | with nothing selected any face is selectable; otherwise a face is selectable iff it is on the first face's body; a missing entity or another input leaves the flag as it was |
| ChamferSelection.PreselectedSelectionIsOneBody | commands/cleanChamfer/entry.py:132-145 | a selection built through the preselection rule lies on one body, so validation keeps it whole |
| ChamferLoop.FileUnder | commands/cleanChamfer/entry.py:329-332 | the edge is appended to the list under the token, which is created when missing |
| ChamferLoop.AddToVertexDict | commands/cleanChamfer/entry.py:325-332 | the edge is filed under its start vertex and then under its end vertex |
| ChamferLoop.BuildVertexDict | commands/cleanChamfer/entry.py:354-356 | every vertex's list holds exactly the edges touching it, in order |
| ChamferLoop.VertexDictFilesBothEnds | commands/cleanChamfer/entry.py:325-356 | each boundary edge is filed under both its vertices, and only edges touching a vertex are filed under it |
| ChamferLoop.FirstIndex | commands/cleanChamfer/entry.py:344 | the position `list.remove` works on holds the edge, and no earlier position does |
| ChamferLoop.RemoveFirst | commands/cleanChamfer/entry.py:344 | `list.remove` gives the list without the edge's first position, the other edges in their order, so exactly one copy of the edge leaves the list |
| ChamferLoop.ToggledCounts | commands/cleanChamfer/entry.py:339-347 | once the edges have been taken in order, an edge seen an odd number of times is on the boundary once, and the interior holds it once for every second time it was seen |
| ChamferLoop.SplitFace | commands/cleanChamfer/entry.py:342-347 | the edges of one face, taken in order after those of the faces before it, leave the lists `Toggled` gives for all the edges taken so far |
| ChamferLoop.SplitEdges | commands/cleanChamfer/entry.py:339-347 | the boundary and interior lists, order included, are those `Toggled` gives for the faces' edges face after face; so an edge seen an odd number of times is on the boundary once, and the interior holds it once for every second time it was seen |
| ChamferLoop.ScanCandidates | commands/cleanChamfer/entry.py:364-367 | the scan of one vertex's list stops at the first edge that is not the last one and is still remaining, or at the end |
| ChamferLoop.FirstFitAppend | commands/cleanChamfer/entry.py:362-369 | the first fit in the start vertex's list, or when there is none the first fit in the end vertex's list, is the first fit of the two lists one after the other |
| ChamferLoop.FindMatch | commands/cleanChamfer/entry.py:362-369 | the match is the first candidate, in filing order under the start vertex and then under the end vertex, that is not the last edge and is still remaining; with none there is no such candidate |
| ChamferLoop.OrderBoundary | commands/cleanChamfer/entry.py:358-375 | the result is what `Chained` gives from the first boundary edge, so each edge after the first is the first fitting candidate of the one before it; the ordered edges start with the first boundary edge and are vertex-connected; with the remaining edges they are exactly the boundary; it stops only at a dead end |
| ChamferLoop.StopsAtDeadEnd | commands/cleanChamfer/entry.py:359-375 | the ordering ends with every boundary edge ordered, or at an edge that shares a vertex with none of the boundary edges left out |
| ChamferLoop.OrderedEdgesDistinct | commands/cleanChamfer/entry.py:358-375 | boundary edges that occur once give an order in which no edge appears twice |
| ChamferLoop.LoopFinder | commands/cleanChamfer/entry.py:335-387 | it raises `IndexError` iff no edge is seen an odd number of times; otherwise the loop is what `Chained` gives from the first boundary edge, starts with that edge, is nonempty, connected and repeat-free, holds only boundary edges, and ends with every boundary edge ordered or at a dead end; the interior list is the one `Toggled` gives, holding each edge once for every two times it was seen |
| UpdateTools.StripFrom | commands/updateTools/entry.py:131-134 | popping the listed keys removes exactly those keys and keeps the others and their values; the remaining keys are the dictionary's keys not listed, in their order |
| UpdateTools.RemoveTipKeys | commands/updateTools/entry.py:129-135 | the tool dict loses exactly the six `tip-*` keys it holds |
| UpdateTools.StripTipsKeepsOtherKeys | commands/updateTools/entry.py:129-135 | no tip key survives, every other key keeps its value, and the remaining keys are the geometry's keys other than the tip keys, in their order |
| UpdateTools.LastIndexMapSpec | commands/updateTools/entry.py:169-175 | the map built by assigning indices in order holds, for each key, the last index that carries it |
| UpdateTools.BuildLookupMaps | commands/updateTools/entry.py:163-175 | the loop builds the three lookup maps |
| UpdateTools.DescriptionLastWins | commands/updateTools/entry.py:169 | a description maps to the last library tool with that description |
| UpdateTools.ProductIdLastWins | commands/updateTools/entry.py:170 | a product id maps to the last library tool with that product id |
| UpdateTools.GeometryLastWins | commands/updateTools/entry.py:171-175 | a stripped geometry maps to the last library tool with that geometry, and tools without geometry are not entered |
| UpdateTools.CollectedMembers | commands/updateTools/entry.py:100-114 | an operation is collected iff it belongs to a selected setup, folder or single operation; unknown entity types add nothing |
| UpdateTools.CollectOperations | commands/updateTools/entry.py:100-114 | the loop collects the selection's operations in order |
| UpdateTools.FirstPerIdUnique | commands/updateTools/entry.py:116-125 | after deduplication no id occurs twice |
| UpdateTools.FirstPerIdCovers | commands/updateTools/entry.py:116-125 | an id survives deduplication iff some operation carries it |
| UpdateTools.FirstPerIdFirstOccurrences | commands/updateTools/entry.py:116-125 | each kept operation is the first with its id, and the kept operations keep their order |
| UpdateTools.FirstPerIdAreFirst | commands/updateTools/entry.py:116-125 | each kept operation is the first operation with its id |
| UpdateTools.FirstPerIdInOrder | commands/updateTools/entry.py:116-125 | the kept operations are in the order their ids first appear |
| UpdateTools.Deduplicate | commands/updateTools/entry.py:116-125 | the loop keeps the first operation per id |
| UpdateTools.MapGet | commands/updateTools/entry.py:193 | `dict.get` finds a value iff the key is present |
| UpdateTools.LookupFor | commands/updateTools/entry.py:189-204 | a turn's lookup raises iff it correlates by geometry a tool without geometry; an empty description or product id runs no lookup |
| UpdateTools.AsWrittenAccounts | commands/updateTools/entry.py:177-221 | as written with line 149 repaired: one entry per operation; the flag is set iff some operation had no match or lacked its preset; the tools copied are the matched ones, each once |
| UpdateTools.IntendedAccounts | commands/updateTools/entry.py:177-221 | the same accounting holds for the corrected loop |
| UpdateTools.IntendedMatchesOwnLookup | commands/updateTools/entry.py:189-221 | corrected: each operation gets exactly the index its own lookup finds |
| UpdateTools.StepIntendedMatch | commands/updateTools/entry.py:189-221 | corrected: a turn that does not raise records exactly the operation's own match |
| UpdateTools.IntendedFailsOnMissingGeometry | commands/updateTools/entry.py:199-204 | the corrected loop raises iff it correlates by geometry and some tool has no geometry |
| UpdateTools.AsWrittenAgreesWhenEveryLookupRuns | commands/updateTools/entry.py:189-221 | with line 149 repaired: when every lookup runs and none finds index 0, the loop as written and the corrected loop agree |
| UpdateTools.StepsAgreeWhenLookupRuns | commands/updateTools/entry.py:189-205 | with line 149 repaired: a turn whose own lookup runs and finds a nonzero index goes the same way as written and as corrected |
| UpdateTools.StepShippedShape | commands/updateTools/entry.py:145-150 | a shipped turn goes as written when it takes no match; when the written turn takes a match, the shipped one raises `ValueError` |
| UpdateTools.ShippedStopsAtFirstMatch | commands/updateTools/entry.py:145-221 | as shipped, the loop gets through the operations iff, with line 149 repaired, it would get through them giving no operation a tool, and then it ends the same way |
| UpdateTools.ShippedCopiesNothing | commands/updateTools/entry.py:145-221 | a shipped run that raises nothing gave no operation a tool, copied no tool, and set the flag whenever there was an operation |
| UpdateTools.MatchRaisesAsShipped | commands/updateTools/entry.py:149 | an operation that finds library tool 1 raises `ValueError` as shipped, and is given that tool with line 149 repaired and as corrected |
| UpdateTools.IntendedMatchIsLastWithKey | commands/updateTools/entry.py:163-204 | a matched library tool has the operation's description, product id or stripped geometry, and is the last tool that has it |
| UpdateTools.FirstLibraryToolNeverMatches | commands/updateTools/entry.py:205 | as shipped and as written, an operation whose tool is library tool 0 gets "No Match Found"; corrected, it matches index 0 |
| UpdateTools.EmptyDescriptionReusesPreviousMatch | commands/updateTools/entry.py:189-205 | with line 149 repaired, an operation with an empty description is given the previous operation's match; as shipped, that earlier match raises `ValueError` first |
| UpdateTools.EmptyFirstDescriptionIsUnbound | commands/updateTools/entry.py:189-205 | as shipped and as written, a first operation with an empty description raises `UnboundLocalError` |
| UpdateTools.DocumentToolLibrary.Add | commands/updateTools/entry.py:147 | adding a tool appends it to the document library |
| UpdateTools.LibraryTool.constructor | commands/updateTools/entry.py:141-143 | a new cache entry holds its tool and the index -1 |
| UpdateTools.LibraryTool.GetTool | commands/updateTools/entry.py:145-150 | corrected: the first call appends the tool and records `count - 1`; later calls add nothing; every call returns the cached tool |
| UpdateTools.LibraryTool.GetToolAsShipped | commands/updateTools/entry.py:145-150 | as shipped: the copy is made and recorded as in the corrected call, then the log line raises `ValueError` and no tool is returned |
| UpdateTools.NewLibraryTools | commands/updateTools/entry.py:163-166 | one fresh, unused cache entry per library tool |
| UpdateTools.LookUpOwn | commands/updateTools/entry.py:189-204 | corrected: a turn's correlation branch with `library_tool` reset first |
| UpdateTools.TakeMatch | commands/updateTools/entry.py:206-218 | a match records the index, sets the flag when the preset is missing, and copies the tool on first use |
| UpdateTools.UseLibraryTool | commands/updateTools/entry.py:206-208 | the library tool's first use copies it into the document library and records its index; the cache keeps agreeing with the used indices |
| UpdateTools.CorrelateTurn | commands/updateTools/entry.py:177-221 | one turn of the corrected loop, with the cache and the document library kept in step |
| UpdateTools.CorrelateNext | commands/updateTools/entry.py:177-221 | one more operation correlated as the corrected loop does; on a raise the loop fails there, and the document library holds what the earlier turns added |
| UpdateTools.ReplaceWithLibraryTool | commands/updateTools/entry.py:153-234 | corrected: the result is the intended matches and flag; the document library gains each used tool once, in order of first use; on a raise, only the tools of the earlier operations |
| UpdateTools.CommandExecute | commands/updateTools/entry.py:84-127 | the selection's operations, collected and deduplicated, are correlated with the library |
| LibraryUrls.Urls | commands/updateTools/entry.py:263-271 | a folder's URLs begin with its own assets |
| LibraryUrls.UrlsOfAppend | commands/updateTools/entry.py:269-270 | two runs of subfolders list the first run, then the second |
| LibraryUrls.UrlsOfMembers | commands/updateTools/entry.py:269-270 | a URL is listed for a run of subfolders iff one of them lists it |
| LibraryUrls.UrlsMembers | commands/updateTools/entry.py:263-271 | a URL is listed iff it is an asset of the folder or is listed for one of its subfolders |
| LibraryUrls.GetLibrariesURLs | commands/relinkLibraries/entry.py:155-163 | the recursive loops list the folder tree's URLs: assets first, then each subfolder in turn |
| LibraryUrls.GetToolingLibraries | commands/relinkLibraries/entry.py:142-153 | the cloud URLs, then the local ones, then the external ones |
| LibraryUrls.SplitOnSlash | commands/updateTools/entry.py:277 | `split('/')` gives at least one piece |
| LibraryUrls.SplitOnSlashJoins | commands/updateTools/entry.py:277 | joining the pieces with `/` gives the string back, and no piece holds a `/` |
| LibraryUrls.LastSegmentIsSlashFreeSuffix | commands/relinkLibraries/entry.py:169 | the last segment holds no `/`, ends the string, and is the whole string or follows a `/` |
| LibraryUrls.LastPieceIsLastSegment | commands/relinkLibraries/entry.py:169 | `split('/')[-1]` is the last segment |
| LibraryUrls.LibraryName | commands/relinkLibraries/entry.py:169 | a library's name is its URL's last segment |
| LibraryUrls.FormatLibraryNames | commands/relinkLibraries/entry.py:165-170 | the same number of names as URLs, in order, each the URL's last segment |
| RelinkLibraries.InputChanged | commands/relinkLibraries/entry.py:111-133 | a body with a selection shows and enables the axis; a body without one hides and clears both inputs; an axis with a selection clears, shows and enables the end face; an axis without one hides and clears it; other ids change nothing |
| RelinkLibraries.InputChangedKeepsHiddenEmpty | commands/relinkLibraries/entry.py:117-133 | a hidden input never keeps a selection |
| RelinkLibraries.InputChangedKeepsStages | commands/relinkLibraries/entry.py:117-133 | when the axis changes only while shown, the end face is shown only with the axis |
| RelinkLibraries.InputChangedIdempotent | commands/relinkLibraries/entry.py:117-133 | handling the same change twice is handling it once |
| RelinkLibraries.CreatedInputsChangeNothing | commands/relinkLibraries/entry.py:66-79 | a change to any input the dialog creates leaves the axis and end-face inputs as they were |
| RelinkLibraries.SelectionInput.ClearSelection | commands/relinkLibraries/entry.py:123-124 | clearing drops the selection and keeps visibility and enabling |
| RelinkLibraries.CommandInputChanged | commands/relinkLibraries/entry.py:111-133 | the two inputs end in the state the transition gives for the changed input |

## Left out

- Host plumbing is left out because it is registration only: `start`, `stop`, handler registration, `command_destroy`, command previews, and the message boxes.
- All of autoJaws, colorHoles and deleteMachine are left out: they are floating-point geometry, random colours, CSV hole tables and host calls.
- `are_faces_tangent`, `are_vectors_parallel` and `get_faces` are left out because they use float tolerances and host evaluators. Tangency is an input: the token set of faces tangent to each selected face.
- `patch_faces` is left out because it consists only of host feature and timeline calls.
- Building the host path from the ordered boundary edges (`Path.create`) is left out; the model stops at the ordered edges.
- `SharedState`: the file I/O, `os.makedirs`, `os.path.expanduser` and `platform.system()` are left out. The file is a parsed value and the platform and home folder are inputs. A file that fails to parse is not modelled.
- `Json`: numbers are modelled as integers; floating-point values in the settings and tool files are not represented.
- `SharedState.Join`: only the two-part `os.path.join` rules that these paths need are modelled; Windows drive letters are not.
- `UpdateTools`: JSON text parsing with float rounding and the SHA-256 geometry hash are left out. A geometry is keyed by its tip-stripped dict, which takes the hash to be injective.
- `UpdateTools`: a missing `description` or `product-id` key is not modelled, because every tool record carries both.
- `UpdateTools.Correlation`: the dropdown's text is a datatype. Any text other than the three names is `ByOther`.
- `UpdateTools.ReplaceWithLibraryTool`: assigning `operation.tool` and `operation.toolPreset` on host objects is represented by the recorded match and preset flag.
- `UpdateTools.LibraryTool.GetTool`: the host's `dtl.add` is taken to append, and `dtl.item` to give the tool at that position. Of the log line at `commands/updateTools/entry.py:149`, only the `dict` call that raises is modelled (in `UpdateTools.LibraryTool.GetToolAsShipped`); the rest of the line only logs.
- `UpdateTools.CommandExecute`: choosing the library by its formatted name (`commands/updateTools/entry.py:94-98`) is left out. The library is given as a value.
- The updateTools `command_created` and `command_preselect` are left out because they are dialog setup and a host class-type filter.
- `LibraryUrls`: a folder tree is a value. The host's `childAssetURLs` and `childFolderURLs` queries become the folder's fields.
- Relink Libraries' `command_execute` (which only logs) and its empty `command_preview` and `command_preselect` are left out.
- `SettingsPanel.PyEq`: Python's `==` is modelled at the top level only. `True == 1` holds and two dicts compare without regard to key order. Values nested inside lists and dicts are compared structurally, so a nested `True` differs from a nested `1` and nested dicts compare with their key order.
- Logging and timers are left out everywhere.

## Findings

| source | as written | input that shows it | evidently intended | confidence | as-written member | corrected member |
|---|---|---|---|---|---|---|
| commands/cleanChamfer/entry.py:27-42 | `DEFAULT_SETTINGS` is saved without the `"settings"` envelope, so it loads back as `{}` and `command_created` reads `settings["option_checkbox"]` from `{}` | a store with no settings file; then open Clean Chamfer | the defaults saved under `{"settings": ...}`, as the other commands do | high, not executed | CleanChamfer.FlatDefaultsFailOnCreate | CleanChamfer.EnvelopedDefaultsOnCreate |
| commands/cleanChamfer/entry.py:299-308 | when a face meets several chains, `b` moves on to each one, so a chain already merged into an earlier one is extended as well and then popped, and its faces vanish | tokens 10, 11, 12, 13; faces 0, 1 and 2 tangent only to face 3; face 3 tangent to all three; the chains end as `[[0, 3, 1]]` and face 2 is gone | every face in exactly one chain; the chains the face meets merged into the first | medium, not executed | CleanChamfer.ThreeChainsLoseAFace | CleanChamfer.MergeFace |
| commands/updateTools/entry.py:205 | `if library_tool:` treats library index 0 as no match | a library of one tool, "6mm flat", and an operation whose tool has that description | any index found is a match (`is not None`) | high, not executed | UpdateTools.FirstLibraryToolNeverMatches | UpdateTools.IntendedMatchesOwnLookup |
| commands/updateTools/entry.py:149 | the log line of `get_tool` evaluates `dict(self.tool.toJson())`; `toJson` gives JSON text, and `dict` of a string raises `ValueError`, right after the tool was copied | a library "6mm flat", "3mm ball" and one operation whose tool is "3mm ball": the tool is copied, then the command raises, and no operation is given a tool | log the description read from the parsed JSON and return the copy | high, not executed | UpdateTools.MatchRaisesAsShipped | UpdateTools.LibraryTool.GetTool |
| commands/updateTools/entry.py:189-205 | `library_tool` is not reset per operation, so a skipped lookup reuses the previous match; as shipped this is hidden behind the line 149 error, which stops the loop at the first match | with line 149 repaired: two operations, "3mm ball" then an empty description; the second is given the first's tool | an operation with no lookup gets no match | medium, not executed | UpdateTools.EmptyDescriptionReusesPreviousMatch | UpdateTools.IntendedMatchesOwnLookup |
| commands/updateTools/entry.py:189-205 | a first operation that runs no lookup reads `library_tool` unbound | one operation with an empty description | no match and the flag set, without an exception | high, not executed | UpdateTools.EmptyFirstDescriptionIsUnbound | UpdateTools.IntendedFailsOnMissingGeometry |
