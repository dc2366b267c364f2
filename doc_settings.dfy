/**
  Document settings applied when a document is opened for the first time: the design
  becomes parametric and, if the user asked for it, the display units are changed.
*/
module DocSettings {
  import opened Wrappers
  import opened Json
  import opened SharedState

  datatype DistanceUnit = Inch | Millimeter | Foot | Meter | Centimeter

  datatype DesignType = Parametric | Direct

  /** The name of a unit in the `"units"` setting's options. */
  function UnitName(u: DistanceUnit): string {
    match u
    case Inch => "in"
    case Millimeter => "mm"
    case Foot => "ft"
    case Meter => "m"
    case Centimeter => "cm"
  }

  /** The options of the `"units"` dropdown, in the order the defaults list them. */
  const UnitOptions: seq<DistanceUnit> := [Inch, Millimeter, Foot, Meter, Centimeter]

  /** The unit chosen for a stored `"units"` default; anything unrecognised is inches. */
  function DecodeUnit(stored: Json): (u: DistanceUnit) {
    if stored == Str("in") then Inch
    else if stored == Str("mm") then Millimeter
    else if stored == Str("ft") then Foot
    else if stored == Str("m") then Meter
    else if stored == Str("cm") then Centimeter
    else Inch
  }

  /** Every unit's name decodes to that unit. */
  lemma DecodeUnitName(u: DistanceUnit)
    ensures DecodeUnit(Str(UnitName(u))) == u
  {
  }

  /** A stored value that is no unit's name decodes to inches. */
  lemma DecodeUnitFallback(stored: Json)
    requires forall u :: stored != Str(UnitName(u))
    ensures DecodeUnit(stored) == Inch
  {
    assert stored != Str(UnitName(Millimeter)) && stored != Str(UnitName(Foot));
    assert stored != Str(UnitName(Meter)) && stored != Str(UnitName(Centimeter));
  }

  /** The module name the command saves its settings under; `company` and `addin` are the
      add-in's configured names. */
  function CommandId(company: string, addin: string): string {
    company + "_" + addin + "_updateDocSettings"
  }

  /** `DEFAULT_SETTINGS`, under the `"settings"` envelope. */
  function DefaultSettings(): Json {
    Obj(Single("settings", Obj(Dict(["option_checkbox", "units"], map[
      "option_checkbox" := Obj(Dict(["type", "label", "default"], map[
        "type" := Str("checkbox"),
        "label" := Str("Automatically change units"),
        "default" := Bool(true)])),
      "units" := Obj(Dict(["type", "label", "options", "default"], map[
        "type" := Str("dropdown"),
        "label" := Str("Units"),
        "options" := Arr(seq(|UnitOptions|, i requires 0 <= i < |UnitOptions| => Str(UnitName(UnitOptions[i])))),
        "default" := Str("in")]))]))))
  }

  /** The defaults use the `"settings"` envelope, every unit is an option of the `"units"`
      dropdown and its default `"in"` is one of those options. */
  lemma DefaultSettingsShape()
    ensures DefaultSettings().Obj? && "settings" in DefaultSettings().d.vals
    ensures var units := DefaultSettings().d.vals["settings"].d.vals["units"];
      && units.d.vals["options"].Arr?
      && (forall u :: Str(UnitName(u)) in units.d.vals["options"].items)
      && units.d.vals["default"] in units.d.vals["options"].items
  {
    var units := DefaultSettings().d.vals["settings"].d.vals["units"];
    var options := units.d.vals["options"].items;
    assert options[0] == Str("in") && options[1] == Str("mm") && options[2] == Str("ft");
    assert options[3] == Str("m") && options[4] == Str("cm");
  }

  /** `get_settings()`: whether to change units, and the unit to change them to. */
  function GetSettings(file: Option<Json>, cmdId: string): Result<(Json, DistanceUnit)> {
    var settings :- LoadFrom(file, cmdId);
    var units :- Subscript(settings, "units");
    var stored :- Subscript(units, "default");
    var checkbox :- Subscript(settings, "option_checkbox");
    var update :- Subscript(checkbox, "default");
    Ok((update, DecodeUnit(stored)))
  }

  /** The first component is the checkbox's stored default and the second decodes the stored unit. */
  lemma GetSettingsComponents(file: Option<Json>, cmdId: string)
    requires GetSettings(file, cmdId).Ok?
    ensures var settings := LoadFrom(file, cmdId).value;
      && GetSettings(file, cmdId).value.0 == settings.d.vals["option_checkbox"].d.vals["default"]
      && GetSettings(file, cmdId).value.1 == DecodeUnit(settings.d.vals["units"].d.vals["default"])
  {
  }

  /** On a store without a settings file, the first-use initialisation saves the defaults, and
      the command then changes units, to inches. */
  lemma FreshStoreSettings(cmdId: string)
    ensures FirstUse(None, cmdId, DefaultSettings()).Some?
    ensures GetSettings(FirstUse(None, cmdId, DefaultSettings()), cmdId) == Ok((Bool(true), Inch))
  {
    var f := SaveInto(None, cmdId, DefaultSettings()).value;
    assert FirstUse(None, cmdId, DefaultSettings()) == Some(f);
    SaveLoadRoundTrip(None, cmdId, DefaultSettings().d, f);
    DefaultsGiveInches(Some(f), cmdId);
  }

  /** Reading the default settings gives "change units" and inches. */
  lemma DefaultsGiveInches(file: Option<Json>, cmdId: string)
    requires LoadFrom(file, cmdId) == Ok(DefaultSettings().d.vals["settings"])
    ensures GetSettings(file, cmdId) == Ok((Bool(true), Inch))
  {
  }

  /** The document that raised the document-opened event. */
  datatype Document = Document(versionCount: int, objectType: string)

  /** Only a Fusion design opened with a single version yet is updated. */
  predicate IsFirstOpenOfDesign(doc: Document) {
    doc.versionCount == 1 && doc.objectType == "adsk::fusion::FusionDocument"
  }

  /** The design of the opened document. */
  class Design {
    var designType: DesignType
    var distanceDisplayUnits: DistanceUnit

    constructor (t: DesignType, u: DistanceUnit)
      ensures designType == t && distanceDisplayUnits == u
    {
      designType, distanceDisplayUnits := t, u;
    }
  }

  /** `update_doc_settings`: nothing happens unless this is the first opening of a design; then the
      design becomes parametric before the settings are read, and the display units change only
      when the stored checkbox default is true. An exception from reading the settings leaves the
      design parametric with its units unchanged. */
  method UpdateDocSettings(doc: Document, design: Design, store: SettingsStore, cmdId: string)
    returns (failure: Option<Failure>)
    modifies design
    ensures !IsFirstOpenOfDesign(doc) ==>
      failure.None? && design.designType == old(design.designType) &&
      design.distanceDisplayUnits == old(design.distanceDisplayUnits)
    ensures IsFirstOpenOfDesign(doc) ==> design.designType == Parametric
    ensures IsFirstOpenOfDesign(doc) ==>
      match GetSettings(store.file, cmdId)
      case Err(e) => failure == Some(e) && design.distanceDisplayUnits == old(design.distanceDisplayUnits)
      case Ok((update, unit)) =>
        failure.None? &&
        design.distanceDisplayUnits == if Truthy(update) then unit else old(design.distanceDisplayUnits)
  {
    failure := None;
    if IsFirstOpenOfDesign(doc) {
      design.designType := Parametric;
      var settings := GetSettings(store.file, cmdId);
      if settings.Err? {
        return Some(settings.error);
      }
      var (update, unit) := settings.value;
      if Truthy(update) {
        design.distanceDisplayUnits := unit;
      }
    }
  }
}
