/**
  Clean Chamfer's selection rules: the validation that cuts a face selection down to one body, and
  the preselection rule that only offers faces on the body of the first selected face. A face is
  its entity token and the token of its body.
*/
module ChamferSelection {
  import opened Wrappers

  datatype Face = Face(token: int, body: int)

  /** How many selected faces lie on `body`. */
  function Count(sel: seq<Face>, body: int): nat {
    if sel == [] then 0
    else Count(sel[..|sel| - 1], body) + (if sel[|sel| - 1].body == body then 1 else 0)
  }

  /** The bodies of the selection, each once, in the order they first appear: the key order of the
      counting dictionary. */
  function Bodies(sel: seq<Face>): seq<int> {
    if sel == [] then []
    else
      var earlier := Bodies(sel[..|sel| - 1]);
      if sel[|sel| - 1].body in earlier then earlier else earlier + [sel[|sel| - 1].body]
  }

  /** The selected faces on `body`, in selection order. */
  function OnBody(sel: seq<Face>, body: int): seq<Face> {
    if sel == [] then []
    else OnBody(sel[..|sel| - 1], body) + (if sel[|sel| - 1].body == body then [sel[|sel| - 1]] else [])
  }

  lemma {:induction false} BodiesListsEachBodyOnce(sel: seq<Face>)
    ensures forall a, b :: 0 <= a < b < |Bodies(sel)| ==> Bodies(sel)[a] != Bodies(sel)[b]
    ensures forall body :: body in Bodies(sel) <==> exists i :: 0 <= i < |sel| && sel[i].body == body
  {
    if sel != [] {
      var init := sel[..|sel| - 1];
      BodiesListsEachBodyOnce(init);
      forall body
        ensures body in Bodies(sel) <==> exists i :: 0 <= i < |sel| && sel[i].body == body
      {
        if body in Bodies(init) {
          var i :| 0 <= i < |init| && init[i].body == body;
          assert sel[i].body == body;
        }
        if exists i :: 0 <= i < |sel| && sel[i].body == body {
          var i :| 0 <= i < |sel| && sel[i].body == body;
          if i < |init| {
            assert init[i].body == body;
          }
        }
      }
    }
  }

  lemma {:induction false} OnBodyFaces(sel: seq<Face>, body: int)
    ensures |OnBody(sel, body)| == Count(sel, body)
    ensures forall k :: 0 <= k < |OnBody(sel, body)| ==> OnBody(sel, body)[k].body == body
    ensures forall f :: f in sel && f.body == body ==> f in OnBody(sel, body)
  {
    if sel != [] {
      var init := sel[..|sel| - 1];
      OnBodyFaces(init, body);
      assert sel == init + [sel[|sel| - 1]];
    }
  }

  /** A body with no face in the selection counts zero. */
  lemma {:induction false} CountAbsent(sel: seq<Face>, body: int)
    requires body !in Bodies(sel)
    ensures Count(sel, body) == 0
  {
    if sel != [] {
      var init := sel[..|sel| - 1];
      assert body !in Bodies(init);
      CountAbsent(init, body);
    }
  }

  /** A selection whose faces all lie on one body has one body. */
  lemma OneBody(sel: seq<Face>)
    requires sel != []
    requires forall i :: 0 <= i < |sel| ==> sel[i].body == sel[0].body
    ensures Bodies(sel) == [sel[0].body]
  {
    BodiesListsEachBodyOnce(sel);
    var bs := Bodies(sel);
    assert sel[0].body in bs;
    forall k | 0 <= k < |bs|
      ensures bs[k] == sel[0].body
    {
      assert bs[k] in bs;
    }
  }

  /** Filtering the whole selection on its only body keeps every face. */
  lemma {:induction false} OnlyBodyKeepsAll(sel: seq<Face>, body: int)
    requires forall i :: 0 <= i < |sel| ==> sel[i].body == body
    ensures OnBody(sel, body) == sel
  {
    if sel != [] {
      OnlyBodyKeepsAll(sel[..|sel| - 1], body);
      assert sel == sel[..|sel| - 1] + [sel[|sel| - 1]];
    }
  }

  /** `command_validateinputs`: with more than one selected face spread over more than one body,
      the selection becomes the faces of the body with the most selected faces (the body seen
      first on a tie), in selection order; otherwise it is unchanged. `best` is the position of the
      kept body among the bodies in first-seen order, or -1 when nothing is cut. */
  method ValidateInputs(sel: seq<Face>) returns (kept: seq<Face>, best: int)
    ensures |sel| <= 1 || |Bodies(sel)| <= 1 ==> kept == sel && best == -1
    ensures |sel| > 1 && |Bodies(sel)| > 1 ==>
      && 0 <= best < |Bodies(sel)|
      && kept == OnBody(sel, Bodies(sel)[best])
      && (forall k :: 0 <= k < |Bodies(sel)| ==> Count(sel, Bodies(sel)[k]) <= Count(sel, Bodies(sel)[best]))
      && (forall k :: 0 <= k < best ==> Count(sel, Bodies(sel)[k]) < Count(sel, Bodies(sel)[best]))
  {
    if |sel| <= 1 {
      return sel, -1;
    }
    var order, counts := CountBodies(sel);
    if |order| <= 1 {
      return sel, -1;
    }
    forall k | 0 <= k < |order|
      ensures order[k] in counts && counts[order[k]] == Count(sel, order[k])
    {
      assert order[k] in order;
    }
    var m := MostSelected(order, counts);
    kept := FacesOn(sel, order[m]);
    best := m;
  }

  /** The counting loop of `command_validateinputs`: the dictionary from body to its number of
      selected faces, with its keys in insertion order. */
  method CountBodies(sel: seq<Face>) returns (order: seq<int>, counts: map<int, nat>)
    ensures order == Bodies(sel)
    ensures counts.Keys == set b | b in order
    ensures forall b :: b in counts ==> counts[b] == Count(sel, b)
  {
    order := [];
    counts := map[];
    var i := 0;
    while i < |sel|
      invariant 0 <= i <= |sel|
      invariant order == Bodies(sel[..i])
      invariant counts.Keys == set b | b in order
      invariant forall b :: b in counts ==> counts[b] == Count(sel[..i], b)
    {
      assert sel[..i + 1][..i] == sel[..i];
      var body := sel[i].body;
      if body in counts {
        counts := counts[body := counts[body] + 1];
      } else {
        CountAbsent(sel[..i], body);
        counts := counts[body := 1];
        order := order + [body];
      }
      i := i + 1;
    }
    assert sel[..i] == sel;
  }

  /** `max(body_dict, key=body_dict.get)`: the position of the first key with the largest count. */
  method MostSelected(order: seq<int>, counts: map<int, nat>) returns (m: nat)
    requires order != [] && forall k :: 0 <= k < |order| ==> order[k] in counts
    ensures m < |order|
    ensures forall k :: 0 <= k < |order| ==> counts[order[k]] <= counts[order[m]]
    ensures forall k :: 0 <= k < m ==> counts[order[k]] < counts[order[m]]
  {
    m := 0;
    var k := 1;
    while k < |order|
      invariant 0 <= m < k <= |order|
      invariant forall k' :: 0 <= k' < k ==> counts[order[k']] <= counts[order[m]]
      invariant forall k' :: 0 <= k' < m ==> counts[order[k']] < counts[order[m]]
    {
      if counts[order[k]] > counts[order[m]] {
        m := k;
      }
      k := k + 1;
    }
  }

  /** The selection filtered to the faces on `body`, in selection order. */
  method FacesOn(sel: seq<Face>, body: int) returns (kept: seq<Face>)
    ensures kept == OnBody(sel, body)
  {
    kept := [];
    var i := 0;
    while i < |sel|
      invariant 0 <= i <= |sel|
      invariant kept == OnBody(sel[..i], body)
    {
      assert sel[..i + 1][..i] == sel[..i];
      if sel[i].body == body {
        kept := kept + [sel[i]];
      }
      i := i + 1;
    }
    assert sel[..i] == sel;
  }

  /** After validation the selection lies on one body. */
  lemma ValidatedOnOneBody(sel: seq<Face>, kept: seq<Face>, best: int)
    requires |sel| > 1 && |Bodies(sel)| > 1
    requires 0 <= best < |Bodies(sel)| && kept == OnBody(sel, Bodies(sel)[best])
    ensures kept != [] && forall k :: 0 <= k < |kept| ==> kept[k].body == Bodies(sel)[best]
  {
    var body := Bodies(sel)[best];
    BodiesListsEachBodyOnce(sel);
    OnBodyFaces(sel, body);
    assert body in Bodies(sel);
    var i :| 0 <= i < |sel| && sel[i].body == body;
    assert sel[i] in sel;
  }

  /** `command_preselect`: whether the candidate face may be selected, given the active input's
      id, how many faces it already holds, its first face and the candidate (`None` where the host
      gives no entity) and the flag as the host set it before the handler. */
  function Preselect(activeId: string, selectionCount: nat, first: Option<Face>, candidate: Option<Face>,
                     isSelectable: bool): bool
  {
    if activeId != "chain" then isSelectable
    else if selectionCount == 0 then true
    else if candidate.None? then isSelectable
    else if first.None? then isSelectable
    else first.value.body == candidate.value.body
  }

  /** Any candidate is selectable while nothing is selected; with a first face and a candidate,
      the candidate is selectable exactly when it is on the first face's body; a missing entity or
      another input leaves the flag as it was. */
  lemma PreselectRule(activeId: string, selectionCount: nat, first: Option<Face>, candidate: Option<Face>,
                      isSelectable: bool)
    ensures activeId == "chain" && selectionCount == 0 ==> Preselect(activeId, selectionCount, first, candidate, isSelectable)
    ensures activeId == "chain" && selectionCount > 0 && first.Some? && candidate.Some? ==>
      (Preselect(activeId, selectionCount, first, candidate, isSelectable) <==> first.value.body == candidate.value.body)
    ensures activeId != "chain" || (selectionCount > 0 && (first.None? || candidate.None?)) ==>
      Preselect(activeId, selectionCount, first, candidate, isSelectable) == isSelectable
  {
  }

  /** A selection in which every face after the first passed the preselection rule lies on one
      body, so validation leaves it unchanged. */
  lemma {:induction false} PreselectedSelectionIsOneBody(sel: seq<Face>)
    requires sel != []
    requires forall i :: 0 < i < |sel| ==> Preselect("chain", i, Some(sel[0]), Some(sel[i]), false)
    ensures Bodies(sel) == [sel[0].body]
    ensures OnBody(sel, sel[0].body) == sel
  {
    assert forall i :: 0 <= i < |sel| ==> sel[i].body == sel[0].body by {
      forall i | 0 < i < |sel|
        ensures sel[i].body == sel[0].body
      {
        assert Preselect("chain", i, Some(sel[0]), Some(sel[i]), false);
      }
    }
    OneBody(sel);
    OnlyBodyKeepsAll(sel, sel[0].body);
  }
}
