/**
  Clean Chamfer's boundary loop: the edges of a chain of faces are split into boundary edges (on
  one face of the chain) and interior edges (shared by two), the boundary edges are filed by
  vertex, and they are ordered into a chain in which each edge shares a vertex with the one
  before it. An edge is its identity and the tokens of its two vertices.
*/
module ChamferLoop {
  import opened Wrappers
  import opened CleanChamfer

  datatype Edge = Edge(id: int, startVertex: int, endVertex: int)

  predicate Touches(e: Edge, v: int) {
    e.startVertex == v || e.endVertex == v
  }

  /** `b` shares a vertex with `a`. */
  predicate Shares(a: Edge, b: Edge) {
    Touches(b, a.startVertex) || Touches(b, a.endVertex)
  }

  // ---------------------------------------------------------------------------
  // The vertex dictionary
  // ---------------------------------------------------------------------------

  /** `vertex_dict.get(v, [])`. */
  function Lookup(vd: map<int, seq<Edge>>, v: int): seq<Edge> {
    if v in vd then vd[v] else []
  }

  /** The edges filed under `v` when `edges` are added one after the other: each edge once for
      its start vertex and once for its end vertex, so twice for an edge that starts and ends at
      `v`. */
  function Incident(edges: seq<Edge>, v: int): seq<Edge> {
    if edges == [] then []
    else
      var e := edges[|edges| - 1];
      Incident(edges[..|edges| - 1], v) + (if e.startVertex == v then [e] else []) + (if e.endVertex == v then [e] else [])
  }

  /** The vertices of `edges`. */
  function Vertices(edges: seq<Edge>): set<int> {
    if edges == [] then {}
    else Vertices(edges[..|edges| - 1]) + {edges[|edges| - 1].startVertex, edges[|edges| - 1].endVertex}
  }

  lemma IncidentAppend(edges: seq<Edge>, e: Edge)
    ensures forall v :: Incident(edges + [e], v) == Incident(edges, v) + Incident([e], v)
    ensures Vertices(edges + [e]) == Vertices(edges) + {e.startVertex, e.endVertex}
  {
    assert (edges + [e])[..|edges|] == edges;
    assert [e][..0] == [];
    forall v
      ensures Incident(edges + [e], v) == Incident(edges, v) + Incident([e], v)
    {
    }
  }

  lemma {:induction false} IncidentMembers(edges: seq<Edge>, v: int)
    ensures forall e :: e in Incident(edges, v) <==> e in edges && Touches(e, v)
  {
    if edges != [] {
      var init := edges[..|edges| - 1];
      IncidentMembers(init, v);
      assert edges == init + [edges[|edges| - 1]];
    }
  }

  /** `vd` files the edges under their vertices as `add_to_vertex_dict` does for each of them. */
  ghost predicate Files(vd: map<int, seq<Edge>>, edges: seq<Edge>) {
    forall v :: Lookup(vd, v) == Incident(edges, v)
  }

  lemma IncidentOne(e: Edge)
    ensures forall v :: Incident([e], v) == (if e.startVertex == v then [e] else []) + (if e.endVertex == v then [e] else [])
  {
    assert [e][..0] == [];
  }

  /** One step of `add_to_vertex_dict`: the edge appended to the list under `token`, which is
      created when missing. */
  method FileUnder(vd: map<int, seq<Edge>>, token: int, e: Edge) returns (vd': map<int, seq<Edge>>)
    ensures forall v :: Lookup(vd', v) == Lookup(vd, v) + (if v == token then [e] else [])
    ensures vd'.Keys == vd.Keys + {token}
  {
    if token in vd {
      vd' := vd[token := vd[token] + [e]];
    } else {
      vd' := vd[token := [e]];
    }
  }

  /** `add_to_vertex_dict`: the edge is appended under its start vertex, then under its end vertex. */
  method AddToVertexDict(vd: map<int, seq<Edge>>, e: Edge) returns (vd': map<int, seq<Edge>>)
    ensures forall v :: Lookup(vd', v) == Lookup(vd, v) + Incident([e], v)
    ensures vd'.Keys == vd.Keys + {e.startVertex, e.endVertex}
  {
    var mid := FileUnder(vd, e.startVertex, e);
    vd' := FileUnder(mid, e.endVertex, e);
    IncidentOne(e);
  }

  /** The vertex dictionary of the boundary edges. */
  method BuildVertexDict(edges: seq<Edge>) returns (vd: map<int, seq<Edge>>)
    ensures Files(vd, edges)
    ensures vd.Keys == Vertices(edges)
  {
    vd := map[];
    var i := 0;
    while i < |edges|
      invariant 0 <= i <= |edges|
      invariant forall v :: Lookup(vd, v) == Incident(edges[..i], v)
      invariant vd.Keys == Vertices(edges[..i])
    {
      vd := AddToVertexDict(vd, edges[i]);
      assert edges[..i + 1] == edges[..i] + [edges[i]];
      IncidentAppend(edges[..i], edges[i]);
      i := i + 1;
    }
    assert edges[..i] == edges;
  }

  /** Every boundary edge is filed under both its vertices, and only edges touching a vertex are
      filed under it. */
  lemma VertexDictFilesBothEnds(edges: seq<Edge>, vd: map<int, seq<Edge>>, e: Edge, v: int)
    requires Files(vd, edges)
    ensures e in edges ==> e in Lookup(vd, e.startVertex) && e in Lookup(vd, e.endVertex)
    ensures e in Lookup(vd, v) <==> e in edges && Touches(e, v)
  {
    IncidentMembers(edges, v);
    IncidentMembers(edges, e.startVertex);
    IncidentMembers(edges, e.endVertex);
  }

  // ---------------------------------------------------------------------------
  // Boundary and interior edges
  // ---------------------------------------------------------------------------

  /** The position of the first occurrence of `x` in `s`. */
  function FirstIndex(s: seq<Edge>, x: Edge): (i: nat)
    requires x in s
    ensures i < |s| && s[i] == x && x !in s[..i]
  {
    if s[0] == x then 0
    else
      var i := FirstIndex(s[1..], x);
      assert s[..i + 1] == [s[0]] + s[1..][..i];
      i + 1
  }

  /** `list.remove(x)`: the list without the position of the first occurrence of `x`, the
      other edges in their order. */
  function RemoveFirst(s: seq<Edge>, x: Edge): (r: seq<Edge>)
    requires x in s
    ensures multiset(r) == multiset(s) - multiset{x} && |r| == |s| - 1
  {
    var i := FirstIndex(s, x);
    assert s == s[..i] + [s[i]] + s[i + 1..];
    s[..i] + s[i + 1..]
  }

  /** The boundary holds each edge seen an odd number of times once, the interior each edge once for
      every second time it was seen. */
  ghost predicate SplitInv(boundary: seq<Edge>, interior: seq<Edge>, seen: seq<Edge>) {
    && (forall e :: multiset(boundary)[e] == multiset(seen)[e] % 2)
    && (forall e :: multiset(interior)[e] == multiset(seen)[e] / 2)
    && |boundary| + 2 * |interior| == |seen|
  }

  /** An edge already on the boundary moves to the interior. */
  lemma ToggleOff(boundary: seq<Edge>, interior: seq<Edge>, seen: seq<Edge>, edge: Edge)
    requires SplitInv(boundary, interior, seen) && edge in boundary
    ensures SplitInv(RemoveFirst(boundary, edge), interior + [edge], seen + [edge])
  {
    var b' := RemoveFirst(boundary, edge);
    assert multiset(seen + [edge]) == multiset(seen) + multiset{edge};
    assert multiset(interior + [edge]) == multiset(interior) + multiset{edge};
    assert multiset(boundary)[edge] == 1;
    forall e
      ensures multiset(b')[e] == multiset(seen + [edge])[e] % 2
      ensures multiset(interior + [edge])[e] == multiset(seen + [edge])[e] / 2
    {
    }
  }

  /** An edge not on the boundary is put on it. */
  lemma ToggleOn(boundary: seq<Edge>, interior: seq<Edge>, seen: seq<Edge>, edge: Edge)
    requires SplitInv(boundary, interior, seen) && edge !in boundary
    ensures SplitInv(boundary + [edge], interior, seen + [edge])
  {
    assert multiset(seen + [edge]) == multiset(seen) + multiset{edge};
    assert multiset(boundary + [edge]) == multiset(boundary) + multiset{edge};
    assert multiset(boundary)[edge] == 0;
    forall e
      ensures multiset(boundary + [edge])[e] == multiset(seen + [edge])[e] % 2
      ensures multiset(interior)[e] == multiset(seen + [edge])[e] / 2
    {
    }
  }

  /** The boundary and interior lists once the edges of `seen` have been taken one after the
      other: an edge goes onto the end of the boundary list when it is not on it, and otherwise
      leaves the boundary list and goes onto the end of the interior list. */
  function Toggled(seen: seq<Edge>): (seq<Edge>, seq<Edge>) {
    if seen == [] then ([], [])
    else
      var (boundary, interior) := Toggled(seen[..|seen| - 1]);
      var edge := seen[|seen| - 1];
      if edge in boundary then (RemoveFirst(boundary, edge), interior + [edge]) else (boundary + [edge], interior)
  }

  /** Taking one more edge. */
  lemma ToggledStep(seen: seq<Edge>, edge: Edge)
    ensures Toggled(seen + [edge]) ==
      if edge in Toggled(seen).0 then (RemoveFirst(Toggled(seen).0, edge), Toggled(seen).1 + [edge])
      else (Toggled(seen).0 + [edge], Toggled(seen).1)
  {
    assert (seen + [edge])[..|seen|] == seen;
  }

  /** An edge seen an odd number of times is on the boundary once, and every second occurrence of
      an edge puts it on the interior list. */
  lemma {:induction false} ToggledCounts(seen: seq<Edge>)
    ensures SplitInv(Toggled(seen).0, Toggled(seen).1, seen)
  {
    if seen != [] {
      var init, edge := seen[..|seen| - 1], seen[|seen| - 1];
      ToggledCounts(init);
      assert seen == init + [edge];
      var (boundary, interior) := Toggled(init);
      if edge in boundary {
        ToggleOff(boundary, interior, init, edge);
      } else {
        ToggleOn(boundary, interior, init, edge);
      }
    }
  }

  /** The boundary list of the faces' edges. */
  function Boundary(faces: seq<seq<Edge>>): seq<Edge> {
    Toggled(Flatten(faces)).0
  }

  /** The inner loop of the split: the edges of one face taken one after the other, after the
      edges `seen` of the faces before it. */
  method SplitFace(boundary: seq<Edge>, interior: seq<Edge>, edges: seq<Edge>, ghost seen: seq<Edge>)
      returns (boundary': seq<Edge>, interior': seq<Edge>)
    requires (boundary, interior) == Toggled(seen)
    ensures (boundary', interior') == Toggled(seen + edges)
  {
    boundary', interior' := boundary, interior;
    assert seen + edges[..0] == seen;
    var j := 0;
    while j < |edges|
      invariant 0 <= j <= |edges|
      invariant (boundary', interior') == Toggled(seen + edges[..j])
    {
      var edge := edges[j];
      ToggledStep(seen + edges[..j], edge);
      if edge in boundary' {
        boundary' := RemoveFirst(boundary', edge);
        interior' := interior' + [edge];
      } else {
        boundary' := boundary' + [edge];
      }
      assert seen + edges[..j + 1] == seen + edges[..j] + [edge];
      j := j + 1;
    }
    assert edges[..j] == edges;
  }

  /** The edges of the faces, face after face, split as `loop_finder` does (see `Toggled`). */
  method SplitEdges(faces: seq<seq<Edge>>) returns (boundary: seq<Edge>, interior: seq<Edge>)
    ensures (boundary, interior) == Toggled(Flatten(faces))
    ensures forall e :: multiset(boundary)[e] == multiset(Flatten(faces))[e] % 2
    ensures forall e :: multiset(interior)[e] == multiset(Flatten(faces))[e] / 2
    ensures |boundary| + 2 * |interior| == |Flatten(faces)|
  {
    boundary, interior := [], [];
    var i := 0;
    while i < |faces|
      invariant 0 <= i <= |faces|
      invariant (boundary, interior) == Toggled(Flatten(faces[..i]))
    {
      boundary, interior := SplitFace(boundary, interior, faces[i], Flatten(faces[..i]));
      assert faces[..i + 1] == faces[..i] + [faces[i]];
      FlattenAppend(faces[..i], faces[i]);
      i := i + 1;
    }
    assert faces[..i] == faces;
    ToggledCounts(Flatten(faces));
  }

  // ---------------------------------------------------------------------------
  // Ordering the boundary
  // ---------------------------------------------------------------------------

  /** A candidate fits when it is another edge still waiting to be ordered. */
  predicate Fits(e: Edge, last: Edge, remaining: seq<Edge>) {
    e != last && e in remaining
  }

  /** The position of the first candidate that fits, or `|cands|` when none does. */
  function FirstFit(cands: seq<Edge>, last: Edge, remaining: seq<Edge>): (i: nat)
    ensures i <= |cands|
    ensures forall k :: 0 <= k < i ==> !Fits(cands[k], last, remaining)
    ensures i < |cands| ==> Fits(cands[i], last, remaining)
  {
    if cands == [] || Fits(cands[0], last, remaining) then 0 else 1 + FirstFit(cands[1..], last, remaining)
  }

  /** The first fit in two lists one after the other is the first fit in the first list, or,
      when there is none, the first fit in the second. */
  lemma {:induction false} FirstFitAppend(a: seq<Edge>, b: seq<Edge>, last: Edge, remaining: seq<Edge>)
    ensures FirstFit(a + b, last, remaining) ==
      if FirstFit(a, last, remaining) < |a| then FirstFit(a, last, remaining) else |a| + FirstFit(b, last, remaining)
  {
    if a == [] {
      assert a + b == b;
    } else {
      FirstFitAppend(a[1..], b, last, remaining);
      assert (a + b)[1..] == a[1..] + b;
    }
  }

  /** When no candidate fits, every candidate is `last` or no longer remaining. */
  lemma NoneFits(cands: seq<Edge>, last: Edge, remaining: seq<Edge>)
    requires FirstFit(cands, last, remaining) == |cands|
    ensures forall e :: e in cands ==> e == last || e !in remaining
  {
    forall e | e in cands
      ensures e == last || e !in remaining
    {
      var k :| 0 <= k < |cands| && cands[k] == e;
      assert !Fits(cands[k], last, remaining);
    }
  }

  /** The candidates for the edge after `last`: the edges filed under its start vertex, in filing
      order, then those filed under its end vertex. */
  function Candidates(vd: map<int, seq<Edge>>, last: Edge): seq<Edge> {
    Lookup(vd, last.startVertex) + Lookup(vd, last.endVertex)
  }

  /** The innermost loop: the position of the first of `possible` that fits, the end when none does. */
  method ScanCandidates(possible: seq<Edge>, last: Edge, remaining: seq<Edge>) returns (k: nat)
    ensures k == FirstFit(possible, last, remaining)
  {
    k := 0;
    while k < |possible|
      invariant 0 <= k <= |possible|
      invariant forall k' :: 0 <= k' < k ==> !Fits(possible[k'], last, remaining)
    {
      if possible[k] != last && possible[k] in remaining {
        return;
      }
      k := k + 1;
    }
  }

  /** The first candidate that is not `last` and is still among the `remaining` edges, as the inner
      loops of the ordering find it. */
  method FindMatch(vd: map<int, seq<Edge>>, last: Edge, remaining: seq<Edge>) returns (matched: Option<Edge>)
    ensures var i := FirstFit(Candidates(vd, last), last, remaining);
      matched == if i < |Candidates(vd, last)| then Some(Candidates(vd, last)[i]) else None
    ensures matched.Some? ==>
      matched.value != last && matched.value in remaining && matched.value in Lookup(vd, last.startVertex) + Lookup(vd, last.endVertex)
    ensures matched.None? ==> forall e :: e in Lookup(vd, last.startVertex) + Lookup(vd, last.endVertex) ==>
      e == last || e !in remaining
  {
    var tokens := [last.startVertex, last.endVertex];
    FirstFitAppend(Lookup(vd, tokens[0]), Lookup(vd, tokens[1]), last, remaining);
    var t := 0;
    while t < 2
      invariant 0 <= t <= 2
      invariant t > 0 ==> FirstFit(Lookup(vd, tokens[0]), last, remaining) == |Lookup(vd, tokens[0])|
      invariant t > 1 ==> FirstFit(Lookup(vd, tokens[1]), last, remaining) == |Lookup(vd, tokens[1])|
    {
      var possible := Lookup(vd, tokens[t]);
      var k := ScanCandidates(possible, last, remaining);
      if k < |possible| {
        return Some(possible[k]);
      }
      t := t + 1;
    }
    NoneFits(Candidates(vd, last), last, remaining);
    return None;
  }

  /** Each edge of `ordered` after the first shares a vertex with the edge before it. */
  predicate Connected(ordered: seq<Edge>) {
    forall k :: 0 < k < |ordered| ==> Shares(ordered[k - 1], ordered[k])
  }

  /** The ordered edges so far start with the first boundary edge and are connected, and together
      with the remaining edges they are the boundary. */
  ghost predicate OrderInv(boundary: seq<Edge>, ordered: seq<Edge>, remaining: seq<Edge>) {
    && boundary != [] && ordered != [] && ordered[0] == boundary[0]
    && Connected(ordered)
    && multiset(ordered) + multiset(remaining) == multiset(boundary)
  }

  /** Appending a matched edge keeps the ordering invariant. */
  lemma OrderStep(boundary: seq<Edge>, vd: map<int, seq<Edge>>, ordered: seq<Edge>, remaining: seq<Edge>, next: Edge)
    requires Files(vd, boundary)
    requires OrderInv(boundary, ordered, remaining) && next in remaining
    requires next in Lookup(vd, ordered[|ordered| - 1].startVertex) + Lookup(vd, ordered[|ordered| - 1].endVertex)
    ensures OrderInv(boundary, ordered + [next], RemoveFirst(remaining, next))
  {
    var last := ordered[|ordered| - 1];
    IncidentMembers(boundary, last.startVertex);
    IncidentMembers(boundary, last.endVertex);
    assert Shares(last, next);
    assert multiset(ordered + [next]) == multiset(ordered) + multiset{next};
    var o' := ordered + [next];
    forall k | 0 < k < |o'|
      ensures Shares(o'[k - 1], o'[k])
    {
      if k < |ordered| {
        assert o'[k - 1] == ordered[k - 1] && o'[k] == ordered[k];
      }
    }
  }

  /** When no match is found, no remaining edge other than the last one shares a vertex with it. */
  lemma DeadEnd(boundary: seq<Edge>, vd: map<int, seq<Edge>>, ordered: seq<Edge>, remaining: seq<Edge>)
    requires Files(vd, boundary)
    requires OrderInv(boundary, ordered, remaining)
    requires forall e :: e in Lookup(vd, ordered[|ordered| - 1].startVertex) + Lookup(vd, ordered[|ordered| - 1].endVertex) ==>
               e == ordered[|ordered| - 1] || e !in remaining
    ensures forall e :: e in remaining && Shares(ordered[|ordered| - 1], e) ==> e == ordered[|ordered| - 1]
  {
    var last := ordered[|ordered| - 1];
    forall e | e in remaining && Shares(last, e)
      ensures e == last
    {
      assert e in boundary by {
        assert multiset(boundary)[e] == multiset(ordered)[e] + multiset(remaining)[e];
      }
      IncidentMembers(boundary, last.startVertex);
      IncidentMembers(boundary, last.endVertex);
    }
  }

  /** The ordering loop as a function of the boundary: while edges remain, the first candidate of
      the last ordered edge that fits is appended and taken out of the remaining edges; the
      ordering stops when no edge remains or none fits. */
  function Chained(boundary: seq<Edge>, ordered: seq<Edge>, remaining: seq<Edge>): (seq<Edge>, seq<Edge>)
    requires ordered != []
    decreases |remaining|
  {
    if remaining == [] then (ordered, remaining)
    else
      var last := ordered[|ordered| - 1];
      var cands := Incident(boundary, last.startVertex) + Incident(boundary, last.endVertex);
      var i := FirstFit(cands, last, remaining);
      if i < |cands| then Chained(boundary, ordered + [cands[i]], RemoveFirst(remaining, cands[i]))
      else (ordered, remaining)
  }

  /** The ordering loop of `loop_finder`: it starts from the first boundary edge and appends, while
      edges remain, an edge that shares a vertex with the last one, stopping at the first dead end.
      `remaining` are the edges left when it stops. */
  method OrderBoundary(boundary: seq<Edge>, vd: map<int, seq<Edge>>) returns (ordered: seq<Edge>, remaining: seq<Edge>)
    requires boundary != []
    requires Files(vd, boundary)
    ensures (ordered, remaining) == Chained(boundary, [boundary[0]], boundary[1..])
    ensures ordered != [] && ordered[0] == boundary[0]
    ensures Connected(ordered)
    ensures multiset(ordered) + multiset(remaining) == multiset(boundary)
    ensures remaining != [] ==> forall e :: e in remaining && Shares(ordered[|ordered| - 1], e) ==> e == ordered[|ordered| - 1]
  {
    ordered := [boundary[0]];
    remaining := boundary[1..];
    assert boundary == [boundary[0]] + remaining;
    while remaining != []
      invariant OrderInv(boundary, ordered, remaining)
      invariant Chained(boundary, ordered, remaining) == Chained(boundary, [boundary[0]], boundary[1..])
      decreases |remaining|
    {
      var last := ordered[|ordered| - 1];
      var matched := FindMatch(vd, last, remaining);
      assert Candidates(vd, last) == Incident(boundary, last.startVertex) + Incident(boundary, last.endVertex);
      if matched.None? {
        DeadEnd(boundary, vd, ordered, remaining);
        return;
      }
      OrderStep(boundary, vd, ordered, remaining, matched.value);
      ordered := ordered + [matched.value];
      remaining := RemoveFirst(remaining, matched.value);
    }
  }

  /** Boundary edges that each occur once give a loop in which no edge appears twice. */
  lemma OrderedEdgesDistinct(boundary: seq<Edge>, ordered: seq<Edge>, remaining: seq<Edge>)
    requires forall e :: multiset(boundary)[e] <= 1
    requires multiset(ordered) + multiset(remaining) == multiset(boundary)
    ensures forall a, b :: 0 <= a < b < |ordered| ==> ordered[a] != ordered[b]
  {
    forall a, b | 0 <= a < b < |ordered|
      ensures ordered[a] != ordered[b]
    {
      CountPair(ordered, a, b);
      assert multiset(boundary)[ordered[a]] == multiset(ordered)[ordered[a]] + multiset(remaining)[ordered[a]];
    }
  }

  /** A value at two positions is counted twice. */
  lemma CountPair(s: seq<Edge>, a: nat, b: nat)
    requires a < b < |s|
    ensures multiset(s)[s[a]] >= 1 + (if s[b] == s[a] then 1 else 0)
  {
    assert s == s[..b] + [s[b]] + s[b + 1..];
    assert s[a] in s[..b];
    assert multiset(s) == multiset(s[..b]) + multiset{s[b]} + multiset(s[b + 1..]);
  }

  /** The ordering stops with every boundary edge ordered, or at an edge that shares a vertex with
      none of the boundary edges left out. */
  lemma StopsAtDeadEnd(boundary: seq<Edge>, ordered: seq<Edge>, remaining: seq<Edge>)
    requires forall e :: multiset(boundary)[e] <= 1
    requires ordered != []
    requires multiset(ordered) + multiset(remaining) == multiset(boundary)
    requires remaining != [] ==> forall e :: e in remaining && Shares(ordered[|ordered| - 1], e) ==> e == ordered[|ordered| - 1]
    ensures multiset(ordered) == multiset(boundary) ||
      forall e :: e in boundary && e !in ordered ==> !Shares(ordered[|ordered| - 1], e)
  {
    if remaining != [] {
      forall e | e in boundary && e !in ordered
        ensures !Shares(ordered[|ordered| - 1], e)
      {
        assert multiset(boundary)[e] == multiset(ordered)[e] + multiset(remaining)[e];
        assert e in remaining;
        assert e != ordered[|ordered| - 1] by {
          assert ordered[|ordered| - 1] in ordered;
        }
      }
    }
  }

  /** `loop_finder`: the boundary edges ordered into a connected chain, and the interior edges.
      With no boundary edge, popping the first one fails. */
  method LoopFinder(faces: seq<seq<Edge>>) returns (r: Result<(seq<Edge>, seq<Edge>)>)
    ensures r.Err? <==> forall e :: multiset(Flatten(faces))[e] % 2 == 0
    ensures r.Err? ==> r.error == IndexError("pop from empty list")
    ensures r.Ok? ==> var (ordered, interior) := r.value;
      && ordered != []
      && Connected(ordered)
      && (forall a, b :: 0 <= a < b < |ordered| ==> ordered[a] != ordered[b])
      && (forall e :: multiset(ordered)[e] <= multiset(Flatten(faces))[e] % 2)
      && (forall e :: multiset(interior)[e] == multiset(Flatten(faces))[e] / 2)
    ensures r.Ok? ==> var (ordered, interior) := r.value;
      && Boundary(faces) != []
      && ordered == Chained(Boundary(faces), [Boundary(faces)[0]], Boundary(faces)[1..]).0
      && interior == Toggled(Flatten(faces)).1
      && ordered[0] == Boundary(faces)[0]
      && (multiset(ordered) == multiset(Boundary(faces)) ||
          forall e :: e in Boundary(faces) && e !in ordered ==> !Shares(ordered[|ordered| - 1], e))
  {
    var boundary, interior := SplitEdges(faces);
    if boundary == [] {
      return Err(IndexError("pop from empty list"));
    }
    assert multiset(boundary)[boundary[0]] == multiset(Flatten(faces))[boundary[0]] % 2;
    var vd := BuildVertexDict(boundary);
    var ordered, remaining := OrderBoundary(boundary, vd);
    OrderedEdgesDistinct(boundary, ordered, remaining);
    StopsAtDeadEnd(boundary, ordered, remaining);
    return Ok((ordered, interior));
  }
}
