/**
  Relink Libraries' input-changed handler: a staged dialog in which a body selection reveals the
  axis input and an axis selection reveals the end-face input, while clearing an earlier stage hides
  and clears the later ones. An input is its visibility, whether it is enabled, and the selected
  entities (as entity tokens).
*/
module RelinkLibraries {

  datatype InputState = InputState(visible: bool, enabled: bool, selection: seq<int>)

  /** The two inputs the handler updates. */
  datatype Dialog = Dialog(axis: InputState, endFace: InputState)

  /** `command_input_changed` on values: the dialog after the input `changedId`, which now holds
      `changedCount` selections, was changed. A body change settles the axis stage, then an axis
      change settles the end-face stage; any other input leaves both as they were. */
  function InputChanged(d: Dialog, changedId: string, changedCount: nat): (r: Dialog)
    ensures changedId == "body" && changedCount > 0 ==>
      r.axis == InputState(true, true, d.axis.selection) && r.endFace == d.endFace
    ensures changedId == "body" && changedCount == 0 ==>
      && r.axis == InputState(false, d.axis.enabled, [])
      && r.endFace == InputState(false, d.endFace.enabled, [])
    ensures changedId == "axis" && changedCount > 0 ==>
      r.axis == d.axis && r.endFace == InputState(true, true, [])
    ensures changedId == "axis" && changedCount == 0 ==>
      r.axis == d.axis && r.endFace == InputState(false, d.endFace.enabled, [])
    ensures changedId != "body" && changedId != "axis" ==> r == d
  {
    var afterBody :=
      if changedId == "body" && changedCount > 0 then
        d.(axis := d.axis.(visible := true, enabled := true))
      else if changedId == "body" then
        Dialog(d.axis.(visible := false, selection := []), d.endFace.(visible := false, selection := []))
      else d;
    if changedId == "axis" && changedCount > 0 then
      var endFace := if |afterBody.endFace.selection| > 0 then afterBody.endFace.(selection := []) else afterBody.endFace;
      afterBody.(endFace := endFace.(visible := true, enabled := true))
    else if changedId == "axis" then
      afterBody.(endFace := afterBody.endFace.(visible := false, selection := []))
    else afterBody
  }

  /** A hidden input holds no selection. */
  predicate HiddenEmpty(d: Dialog) {
    (!d.axis.visible ==> d.axis.selection == []) && (!d.endFace.visible ==> d.endFace.selection == [])
  }

  /** The end-face input is shown only once the axis input is shown. */
  predicate Staged(d: Dialog) {
    d.endFace.visible ==> d.axis.visible
  }

  /** Every change keeps hidden inputs empty. */
  lemma InputChangedKeepsHiddenEmpty(d: Dialog, changedId: string, changedCount: nat)
    requires HiddenEmpty(d)
    ensures HiddenEmpty(InputChanged(d, changedId, changedCount))
  {
  }

  /** When the axis input can only change while it is shown, the stages stay in order: the end
      face never shows without the axis. */
  lemma InputChangedKeepsStages(d: Dialog, changedId: string, changedCount: nat)
    requires Staged(d)
    requires changedId == "axis" ==> d.axis.visible
    ensures Staged(InputChanged(d, changedId, changedCount))
  {
  }

  /** Handling the same change twice is handling it once. */
  lemma InputChangedIdempotent(d: Dialog, changedId: string, changedCount: nat)
    ensures InputChanged(InputChanged(d, changedId, changedCount), changedId, changedCount)
         == InputChanged(d, changedId, changedCount)
  {
  }

  /** The ids of the inputs the command's dialog creates: setups, product id, product link and
      library. */
  const CreatedIds: set<string> := {"setups", "prodid", "prodlink", "library"}

  /** None of the dialog's own inputs is `body` or `axis`, so a change to any of them leaves the
      handler's inputs as they were. */
  lemma CreatedInputsChangeNothing(d: Dialog, changedId: string, changedCount: nat)
    requires changedId in CreatedIds
    ensures InputChanged(d, changedId, changedCount) == d
  {
  }

  /** A selection command input of the dialog. */
  class SelectionInput {
    const id: string
    var isVisible: bool
    var isEnabled: bool
    var selection: seq<int>

    constructor(id: string, isVisible: bool, isEnabled: bool, selection: seq<int>)
      ensures this.id == id && this.isVisible == isVisible && this.isEnabled == isEnabled
      ensures this.selection == selection
    {
      this.id := id;
      this.isVisible := isVisible;
      this.isEnabled := isEnabled;
      this.selection := selection;
    }

    function State(): InputState
      reads this
    {
      InputState(isVisible, isEnabled, selection)
    }

    /** `clearSelection`: drops every selected entity and nothing else. */
    method ClearSelection()
      modifies this
      ensures selection == [] && isVisible == old(isVisible) && isEnabled == old(isEnabled)
    {
      selection := [];
    }
  }

  function DialogOf(axis: SelectionInput, endFace: SelectionInput): Dialog
    reads axis, endFace
  {
    Dialog(axis.State(), endFace.State())
  }

  /** `command_input_changed`: `changed` is the input the host reports, `axis` and `endFace` the
      inputs found by the ids `axis` and `end_face`; ids are unique, so an input with id `axis` is
      the axis input. */
  method CommandInputChanged(changed: SelectionInput, axis: SelectionInput, endFace: SelectionInput)
    requires axis.id == "axis" && endFace.id == "end_face"
    requires changed.id == "axis" ==> changed == axis
    modifies axis, endFace
    ensures DialogOf(axis, endFace) == InputChanged(old(DialogOf(axis, endFace)), changed.id, old(|changed.selection|))
  {
    if changed.id == "body" && |changed.selection| > 0 {
      axis.isVisible := true;
      axis.isEnabled := true;
    } else if changed.id == "body" {
      axis.isVisible := false;
      endFace.isVisible := false;
      axis.ClearSelection();
      endFace.ClearSelection();
    }

    if changed.id == "axis" && |changed.selection| > 0 {
      if |endFace.selection| > 0 {
        endFace.ClearSelection();
      }
      endFace.isVisible := true;
      endFace.isEnabled := true;
    } else if changed.id == "axis" {
      endFace.isVisible := false;
      endFace.ClearSelection();
    }
  }
}
