/**
  Clean Chamfer: selected faces are grouped into chains of tangent faces, the selection is kept
  to a single body, and the boundary of each chain is ordered into a loop of edges. Geometry is
  abstract here: faces and edges are tokens, and tangency is given as input.
*/
module CleanChamfer {
  import opened Wrappers
  import opened Json
  import opened SharedState

  // ---------------------------------------------------------------------------
  // The command's default settings
  // ---------------------------------------------------------------------------

  function CommandId(company: string, addin: string): string {
    company + "_" + addin + "_CleanChamfer"
  }

  function CheckboxSetting(caption: string): Json {
    Obj(Dict(["type", "label", "default"], map["type" := Str("checkbox"), "label" := Str(caption), "default" := Bool(false)]))
  }

  /** The two descriptors. */
  function Descriptors(): Dict {
    Dict(["option_checkbox", "permissive"], map[
      "option_checkbox" := CheckboxSetting("Sew by Default"),
      "permissive" := CheckboxSetting("Permissive Tangency Mode")])
  }

  /** `DEFAULT_SETTINGS` as the command writes it: the descriptors without the `"settings"` envelope. */
  function FlatDefaultSettings(): Json {
    Obj(Descriptors())
  }

  /** The defaults under the `"settings"` envelope, as the other commands write theirs. */
  function EnvelopedDefaultSettings(): Json {
    Obj(Single("settings", Obj(Descriptors())))
  }

  /** What `command_created` reads from the store: the sew and permissive defaults. */
  function CreatedDefaults(file: Option<Json>, cmdId: string): Result<(Json, Json)> {
    var settings :- LoadFrom(file, cmdId);
    var sew :- Subscript(settings, "option_checkbox");
    var sewDefault :- Subscript(sew, "default");
    var permissive :- Subscript(settings, "permissive");
    var permissiveDefault :- Subscript(permissive, "default");
    Ok((sewDefault, permissiveDefault))
  }

  /** With the flat defaults, the first-use initialisation saves a record that loads as `{}`, so
      it saves it again on every start, and opening the command raises `KeyError`. */
  lemma FlatDefaultsFailOnCreate(cmdId: string)
    ensures var f := FirstUse(None, cmdId, FlatDefaultSettings());
      && f.Some? && ValidFile(f)
      && LoadFrom(f, cmdId) == Ok(Obj(Empty))
      && FirstUse(f, cmdId, FlatDefaultSettings()) == f
      && CreatedDefaults(f, cmdId) == Err(KeyError("option_checkbox"))
  {
    var f := SaveInto(None, cmdId, FlatDefaultSettings()).value;
    SaveFlatLoadsEmpty(None, cmdId, Descriptors());
    SaveIdempotent(None, cmdId, FlatDefaultSettings());
    assert FirstUse(None, cmdId, FlatDefaultSettings()) == Some(f);
  }

  /** With the enveloped defaults, opening the command on a fresh store reads both defaults as false,
      and the initialisation saves only once. */
  lemma EnvelopedDefaultsOnCreate(cmdId: string)
    ensures var f := FirstUse(None, cmdId, EnvelopedDefaultSettings());
      && f.Some? && ValidFile(f)
      && FirstUse(f, cmdId, EnvelopedDefaultSettings()) == f
      && CreatedDefaults(f, cmdId) == Ok((Bool(false), Bool(false)))
  {
    var f := SaveInto(None, cmdId, EnvelopedDefaultSettings()).value;
    SaveEnvelopeLoadRoundTrip(None, cmdId, Obj(Descriptors()));
    assert FirstUse(None, cmdId, EnvelopedDefaultSettings()) == Some(f);
    assert Truthy(LoadFrom(Some(f), cmdId).value);
  }

  // ---------------------------------------------------------------------------
  // Grouping the selected faces into tangent chains
  // ---------------------------------------------------------------------------

  /** All members of the chains, chain after chain. */
  function Flatten<T>(chains: seq<seq<T>>): seq<T> {
    if chains == [] then [] else Flatten(chains[..|chains| - 1]) + chains[|chains| - 1]
  }

  /** The indices `0 .. n-1`. */
  function Range(n: nat): (r: seq<nat>)
    ensures |r| == n && forall k :: 0 <= k < n ==> r[k] == k
  {
    if n == 0 then [] else Range(n - 1) + [n - 1]
  }

  /** Face `x` of the chain (a selection index) has a token in `tangent`, the tokens of the
      faces tangent to the face being placed. */
  predicate Meets(chain: seq<nat>, tokens: seq<int>, tangent: set<int>) {
    exists k :: 0 <= k < |chain| && chain[k] < |tokens| && tokens[chain[k]] in tangent
  }

  /** None of the first `j` chains meets the face. */
  predicate NoneMeet(chains: seq<seq<nat>>, tokens: seq<int>, tangent: set<int>, j: nat)
    requires j <= |chains|
  {
    forall j' :: 0 <= j' < j ==> !Meets(chains[j'], tokens, tangent)
  }

  lemma NoneMeetStep(chains: seq<seq<nat>>, tokens: seq<int>, tangent: set<int>, j: nat)
    requires j < |chains|
    ensures NoneMeet(chains, tokens, tangent, j + 1) <==> NoneMeet(chains, tokens, tangent, j) && !Meets(chains[j], tokens, tangent)
  {
  }

  /** No chain among the first `j` except chain `b` meets the face. */
  predicate OnlyMeet(chains: seq<seq<nat>>, tokens: seq<int>, tangent: set<int>, b: nat, j: nat)
    requires j <= |chains|
  {
    forall j' :: 0 <= j' < j && j' != b ==> !Meets(chains[j'], tokens, tangent)
  }

  lemma FlattenAppend<T>(chains: seq<seq<T>>, c: seq<T>)
    ensures Flatten(chains + [c]) == Flatten(chains) + c
  {
    assert (chains + [c])[..|chains|] == chains;
  }

  /** Flattening two runs of chains flattens the first, then the second. */
  lemma {:induction false} FlattenConcat<T>(a: seq<seq<T>>, b: seq<seq<T>>)
    ensures Flatten(a + b) == Flatten(a) + Flatten(b)
    decreases |b|
  {
    if b != [] {
      var init := b[..|b| - 1];
      assert (a + b)[..|a + b| - 1] == a + init;
      assert (a + b)[|a + b| - 1] == b[|b| - 1];
      FlattenConcat(a, init);
    } else {
      assert a + b == a;
    }
  }

  predicate AllNonEmpty(chains: seq<seq<nat>>) {
    forall k :: 0 <= k < |chains| ==> chains[k] != []
  }

  /** The chains of `cs` that meet the face, in order. */
  function MeetingChains(cs: seq<seq<nat>>, tokens: seq<int>, tangent: set<int>): seq<seq<nat>> {
    if cs == [] then []
    else MeetingChains(cs[..|cs| - 1], tokens, tangent) + (if Meets(cs[|cs| - 1], tokens, tangent) then [cs[|cs| - 1]] else [])
  }

  /** The chains of `cs` that do not meet the face, in order. */
  function ApartChains(cs: seq<seq<nat>>, tokens: seq<int>, tangent: set<int>): seq<seq<nat>> {
    if cs == [] then []
    else ApartChains(cs[..|cs| - 1], tokens, tangent) + (if Meets(cs[|cs| - 1], tokens, tangent) then [] else [cs[|cs| - 1]])
  }

  /** The intended merge over the first `j` chains once chain `b` is the first the face meets: the
      chains before `b` as they were; chain `b` followed by the face and then by every later chain
      that meets the face, in order; then the later chains that do not meet it, in order. */
  function MergedUpTo(chains: seq<seq<nat>>, tokens: seq<int>, tangent: set<int>, face: nat, b: nat, j: nat): seq<seq<nat>>
    requires b < j <= |chains|
  {
    chains[..b] + [chains[b] + [face] + Flatten(MeetingChains(chains[b + 1..j], tokens, tangent))]
      + ApartChains(chains[b + 1..j], tokens, tangent)
  }

  /** The first chain from `j` on that the face meets, or `|chains|` when none does. */
  function FirstMet(chains: seq<seq<nat>>, tokens: seq<int>, tangent: set<int>, j: nat): (b: nat)
    requires j <= |chains|
    ensures j <= b <= |chains|
    ensures b < |chains| ==> Meets(chains[b], tokens, tangent)
    ensures forall j' :: j <= j' < b ==> !Meets(chains[j'], tokens, tangent)
    decreases |chains| - j
  {
    if j == |chains| || Meets(chains[j], tokens, tangent) then j else FirstMet(chains, tokens, tangent, j + 1)
  }

  /** The intended placing of `face`: when it meets chain `b` first, the merge `MergedUpTo`;
      when it meets none, a chain of its own at the end. */
  function Merge(chains: seq<seq<nat>>, tokens: seq<int>, tangent: set<int>, face: nat): seq<seq<nat>> {
    var b := FirstMet(chains, tokens, tangent, 0);
    if b < |chains| then MergedUpTo(chains, tokens, tangent, face, b, |chains|) else chains + [[face]]
  }

  /** The chains of the first `faces` faces: face 0 alone, then each later face placed by `Merge`
      in selection order. */
  function Chains(tokens: seq<int>, tangent: seq<set<int>>, faces: nat): seq<seq<nat>>
    requires 1 <= faces <= |tangent|
  {
    if faces == 1 then [[0]] else Merge(Chains(tokens, tangent, faces - 1), tokens, tangent[faces - 1], faces - 1)
  }

  lemma ChainsStep(tokens: seq<int>, tangent: seq<set<int>>, faces: nat)
    requires 1 <= faces < |tangent|
    ensures Chains(tokens, tangent, faces + 1) == Merge(Chains(tokens, tangent, faces), tokens, tangent[faces], faces)
  {
  }

  /** Every face of `a` is in `c`. */
  predicate Within(a: seq<nat>, c: seq<nat>) {
    forall k :: 0 <= k < |a| ==> a[k] in c
  }

  /** Each chain of `chains` lies within some chain of `merged`: merging only joins chains. */
  predicate Covered(chains: seq<seq<nat>>, merged: seq<seq<nat>>) {
    forall c :: 0 <= c < |chains| ==> exists c' :: 0 <= c' < |merged| && Within(chains[c], merged[c'])
  }

  /** Faces `x` and `y` are in one chain. */
  predicate SameChain(chains: seq<seq<nat>>, x: nat, y: nat) {
    exists c :: 0 <= c < |chains| && x in chains[c] && y in chains[c]
  }

  /** Each of the first `faces` faces shares a chain with every earlier face it is tangent to;
      `tangent[y]` holds the tokens of the faces tangent to face `y`. */
  predicate TangentTogether(chains: seq<seq<nat>>, tokens: seq<int>, tangent: seq<set<int>>, faces: nat)
    requires faces <= |tokens| && faces <= |tangent|
  {
    forall x, y :: 0 <= x < y < faces && tokens[x] in tangent[y] ==> SameChain(chains, x, y)
  }

  /** One face placed into the chains, as intended: it joins the first chain it meets, every
      later chain it meets is merged into that one and removed, and it starts a chain of its
      own when it meets none. */
  method MergeFace(chains: seq<seq<nat>>, tokens: seq<int>, tangent: set<int>, face: nat)
    returns (merged: seq<seq<nat>>)
    requires chains != [] && chains[0] != []
    ensures merged != [] && merged[0] != [] && merged[0][0] == chains[0][0]
    ensures AllNonEmpty(chains) ==> AllNonEmpty(merged)
    ensures multiset(Flatten(merged)) == multiset(Flatten(chains)) + multiset{face}
    ensures NoneMeet(chains, tokens, tangent, |chains|) ==> merged == chains + [[face]]
    ensures forall b :: 0 <= b < |chains| && Meets(chains[b], tokens, tangent) && OnlyMeet(chains, tokens, tangent, b, |chains|) ==>
              merged == chains[b := chains[b] + [face]]
    ensures forall b :: 0 <= b < |chains| && Meets(chains[b], tokens, tangent) && NoneMeet(chains, tokens, tangent, b) ==>
              merged == MergedUpTo(chains, tokens, tangent, face, b, |chains|)
    ensures merged == Merge(chains, tokens, tangent, face)
  {
    var scanned, b := ScanChains(chains, tokens, tangent, face);
    if b == -1 {
      MergeDoneApart(chains, tokens, tangent, face, scanned);
      merged := scanned + [[face]];
    } else {
      MergeDoneMet(chains, tokens, tangent, face, b);
      merged := scanned;
    }
  }

  /** The scan over the chains while placing `face`: `b` is the first chain the face meets, which
      takes the face and then every later chain that meets it, or -1 when it meets none and the
      chains are kept as they were. */
  method ScanChains(chains: seq<seq<nat>>, tokens: seq<int>, tangent: set<int>, face: nat)
    returns (merged: seq<seq<nat>>, b: int)
    ensures -1 <= b < |chains|
    ensures b == -1 ==> NoneMeet(chains, tokens, tangent, |chains|) && merged == chains
    ensures b != -1 ==> Meets(chains[b], tokens, tangent) && NoneMeet(chains, tokens, tangent, b)
                        && merged == MergedUpTo(chains, tokens, tangent, face, b, |chains|)
  {
    merged := [];
    b := -1;
    var j := 0;
    while j < |chains|
      invariant j <= |chains| && MergeInv(chains, tokens, tangent, face, j, merged, b)
    {
      var chain := chains[j];
      if Meets(chain, tokens, tangent) && b != -1 {
        JoinAll(chains, tokens, tangent, face, j, merged, b);
        merged := merged[b := merged[b] + chain];
      } else if Meets(chain, tokens, tangent) {
        FirstMeetAll(chains, tokens, tangent, face, j, merged);
        merged, b := merged + [chain + [face]], |merged|;
      } else {
        KeepAll(chains, tokens, tangent, face, j, merged, b);
        merged := merged + [chain];
      }
      j := j + 1;
    }
    assert chains[..j] == chains;
  }

  /** What holds after the first `j` chains have been visited while placing `face`: while it has
      met none (`b` is -1) they are kept as they were; once chain `b` is the first it meets, they
      are merged as intended. */
  ghost predicate MergeInv(chains: seq<seq<nat>>, tokens: seq<int>, tangent: set<int>, face: nat,
                           j: nat, merged: seq<seq<nat>>, b: int)
    requires j <= |chains|
  {
    && -1 <= b < j
    && (b == -1 ==> NoneMeet(chains, tokens, tangent, j) && merged == chains[..j])
    && (b != -1 ==> Meets(chains[b], tokens, tangent) && NoneMeet(chains, tokens, tangent, b)
                    && merged == MergedUpTo(chains, tokens, tangent, face, b, j))
  }

  /** Chain `j` meets the face after chain `b` took it: chain `j` is appended to chain `b`. */
  lemma JoinAll(chains: seq<seq<nat>>, tokens: seq<int>, tangent: set<int>, face: nat,
                j: nat, merged: seq<seq<nat>>, b: int)
    requires j < |chains| && MergeInv(chains, tokens, tangent, face, j, merged, b)
    requires Meets(chains[j], tokens, tangent) && b != -1
    ensures 0 <= b < |merged| && MergeInv(chains, tokens, tangent, face, j + 1, merged[b := merged[b] + chains[j]], b)
  {
    JoinShape(chains, tokens, tangent, face, b, j);
  }

  /** Chain `j` is the first chain the face meets: it takes the face. */
  lemma FirstMeetAll(chains: seq<seq<nat>>, tokens: seq<int>, tangent: set<int>, face: nat,
                     j: nat, merged: seq<seq<nat>>)
    requires j < |chains| && MergeInv(chains, tokens, tangent, face, j, merged, -1)
    requires Meets(chains[j], tokens, tangent)
    ensures MergeInv(chains, tokens, tangent, face, j + 1, merged + [chains[j] + [face]], |merged|)
  {
    FirstMeetShape(chains, tokens, tangent, face, j);
  }

  /** Chain `j` does not meet the face: it is kept. */
  lemma KeepAll(chains: seq<seq<nat>>, tokens: seq<int>, tangent: set<int>, face: nat,
                j: nat, merged: seq<seq<nat>>, b: int)
    requires j < |chains| && MergeInv(chains, tokens, tangent, face, j, merged, b)
    requires !Meets(chains[j], tokens, tangent)
    ensures MergeInv(chains, tokens, tangent, face, j + 1, merged + [chains[j]], b)
  {
    NoneMeetStep(chains, tokens, tangent, j);
    if b != -1 {
      KeepShape(chains, tokens, tangent, face, b, j);
    } else {
      assert chains[..j + 1] == chains[..j] + [chains[j]];
    }
  }

  /** Once every chain has been visited without a meeting chain, the face as a chain of its own
      after them is the intended merge. */
  lemma MergeDoneApart(chains: seq<seq<nat>>, tokens: seq<int>, tangent: set<int>, face: nat, merged: seq<seq<nat>>)
    requires chains != [] && chains[0] != [] && NoneMeet(chains, tokens, tangent, |chains|) && merged == chains
    ensures var r := merged + [[face]];
      && r != [] && r[0] != [] && r[0][0] == chains[0][0]
      && (AllNonEmpty(chains) ==> AllNonEmpty(r))
      && multiset(Flatten(r)) == multiset(Flatten(chains)) + multiset{face}
      && NoneMeet(chains, tokens, tangent, |chains|) && r == chains + [[face]]
  {
    FlattenAppend(merged, [face]);
    assert (merged + [[face]])[0] == merged[0];
  }

  /** The intended merge at the first meeting chain `b`, once every chain has been visited: the
      first chain keeps its first face, no chain is empty, every face is kept and the new one
      added, and a face meeting only chain `b` is simply appended to it. */
  lemma MergeDoneMet(chains: seq<seq<nat>>, tokens: seq<int>, tangent: set<int>, face: nat, b: nat)
    requires b < |chains| && chains[0] != []
    requires Meets(chains[b], tokens, tangent) && NoneMeet(chains, tokens, tangent, b)
    ensures var merged := MergedUpTo(chains, tokens, tangent, face, b, |chains|);
      && merged != [] && merged[0] != [] && merged[0][0] == chains[0][0]
      && (AllNonEmpty(chains) ==> AllNonEmpty(merged))
      && multiset(Flatten(merged)) == multiset(Flatten(chains)) + multiset{face}
      && !NoneMeet(chains, tokens, tangent, |chains|)
      && (forall b0 :: 0 <= b0 < |chains| && Meets(chains[b0], tokens, tangent) && OnlyMeet(chains, tokens, tangent, b0, |chains|) ==>
            merged == chains[b0 := chains[b0] + [face]])
      && (forall b0 :: 0 <= b0 < |chains| && Meets(chains[b0], tokens, tangent) && NoneMeet(chains, tokens, tangent, b0) ==>
            b0 == b)
  {
    MergedFirst(chains, tokens, tangent, face, b);
    MergedNonEmpty(chains, tokens, tangent, face, b);
    MergedCount(chains, tokens, tangent, face, b);
    forall b0 | 0 <= b0 < |chains| && Meets(chains[b0], tokens, tangent) && OnlyMeet(chains, tokens, tangent, b0, |chains|)
      ensures MergedUpTo(chains, tokens, tangent, face, b, |chains|) == chains[b0 := chains[b0] + [face]]
    {
      assert b0 == b;
      MergedAlone(chains, tokens, tangent, face, b);
    }
  }

  lemma MergedFirst(chains: seq<seq<nat>>, tokens: seq<int>, tangent: set<int>, face: nat, b: nat)
    requires b < |chains| && chains[0] != []
    ensures var merged := MergedUpTo(chains, tokens, tangent, face, b, |chains|);
      merged != [] && merged[0] != [] && merged[0][0] == chains[0][0]
  {
    if b == 0 {
      assert MergedUpTo(chains, tokens, tangent, face, b, |chains|)[0][0] == chains[0][0];
    } else {
      assert MergedUpTo(chains, tokens, tangent, face, b, |chains|)[0] == chains[0];
    }
  }

  lemma {:induction false} ApartNonEmpty(cs: seq<seq<nat>>, tokens: seq<int>, tangent: set<int>)
    requires AllNonEmpty(cs)
    ensures AllNonEmpty(ApartChains(cs, tokens, tangent))
  {
    if cs != [] {
      var init := cs[..|cs| - 1];
      assert AllNonEmpty(init) by {
        forall k | 0 <= k < |init|
          ensures init[k] != []
        {
          assert init[k] == cs[k];
        }
      }
      ApartNonEmpty(init, tokens, tangent);
      var rest := ApartChains(init, tokens, tangent);
      if !Meets(cs[|cs| - 1], tokens, tangent) {
        var whole := rest + [cs[|cs| - 1]];
        forall k | 0 <= k < |whole|
          ensures whole[k] != []
        {
          if k < |rest| {
            assert whole[k] == rest[k];
          }
        }
      }
    }
  }

  lemma MergedNonEmpty(chains: seq<seq<nat>>, tokens: seq<int>, tangent: set<int>, face: nat, b: nat)
    requires b < |chains|
    ensures AllNonEmpty(chains) ==> AllNonEmpty(MergedUpTo(chains, tokens, tangent, face, b, |chains|))
  {
    if AllNonEmpty(chains) {
      var after := chains[b + 1..];
      SliceToEnd(chains, b + 1);
      assert AllNonEmpty(after) by {
        forall k | 0 <= k < |after|
          ensures after[k] != []
        {
          assert after[k] == chains[b + 1 + k];
        }
      }
      ApartNonEmpty(after, tokens, tangent);
      var before, head, rest := chains[..b], chains[b] + [face] + Flatten(MeetingChains(after, tokens, tangent)), ApartChains(after, tokens, tangent);
      var merged := before + [head] + rest;
      forall k | 0 <= k < |merged|
        ensures merged[k] != []
      {
        if k < b {
          assert merged[k] == chains[k];
        } else if k == b {
          assert merged[k] == head;
        } else {
          assert merged[k] == rest[k - b - 1];
        }
      }
    }
  }

  /** The meeting and the other chains together hold the faces of all the chains. */
  lemma {:induction false} PartsCount(cs: seq<seq<nat>>, tokens: seq<int>, tangent: set<int>)
    ensures multiset(Flatten(MeetingChains(cs, tokens, tangent))) + multiset(Flatten(ApartChains(cs, tokens, tangent)))
         == multiset(Flatten(cs))
  {
    if cs != [] {
      var init, last := cs[..|cs| - 1], cs[|cs| - 1];
      PartsCount(init, tokens, tangent);
      var meeting, apart := MeetingChains(init, tokens, tangent), ApartChains(init, tokens, tangent);
      assert Flatten(cs) == Flatten(init) + last;
      if Meets(last, tokens, tangent) {
        assert MeetingChains(cs, tokens, tangent) == meeting + [last];
        assert ApartChains(cs, tokens, tangent) == apart;
        FlattenAppend(meeting, last);
      } else {
        assert MeetingChains(cs, tokens, tangent) == meeting;
        assert ApartChains(cs, tokens, tangent) == apart + [last];
        FlattenAppend(apart, last);
      }
    }
  }

  lemma SliceGrow<T>(s: seq<T>, lo: nat, hi: nat)
    requires lo <= hi < |s|
    ensures s[lo..hi + 1][..hi - lo] == s[lo..hi] && s[lo..hi + 1][hi - lo] == s[hi]
  {
  }

  lemma SliceToEnd<T>(s: seq<T>, i: nat)
    requires i <= |s|
    ensures s[i..|s|] == s[i..]
  {
  }

  lemma SplitAt<T>(s: seq<T>, b: nat)
    requires b < |s|
    ensures s == s[..b] + [s[b]] + s[b + 1..]
  {
  }

  /** Flattening chains around one chain `mid`. */
  lemma FlattenAround<T>(before: seq<seq<T>>, mid: seq<T>, after: seq<seq<T>>)
    ensures Flatten(before + [mid] + after) == Flatten(before) + mid + Flatten(after)
  {
    FlattenConcat(before + [mid], after);
    FlattenAppend(before, mid);
  }

  lemma MergedCount(chains: seq<seq<nat>>, tokens: seq<int>, tangent: set<int>, face: nat, b: nat)
    requires b < |chains|
    ensures multiset(Flatten(MergedUpTo(chains, tokens, tangent, face, b, |chains|))) == multiset(Flatten(chains)) + multiset{face}
  {
    var after := chains[b + 1..];
    SliceToEnd(chains, b + 1);
    var before, joined, rest := chains[..b], Flatten(MeetingChains(after, tokens, tangent)), ApartChains(after, tokens, tangent);
    var head := chains[b] + [face] + joined;
    assert MergedUpTo(chains, tokens, tangent, face, b, |chains|) == before + [head] + rest;
    SplitAt(chains, b);
    FlattenAround(before, chains[b], after);
    FlattenAround(before, head, rest);
    PartsCount(after, tokens, tangent);
  }

  /** No chain after `b` meets the face: the intended merge appends the face to chain `b`. */
  lemma MergedAlone(chains: seq<seq<nat>>, tokens: seq<int>, tangent: set<int>, face: nat, b: nat)
    requires b < |chains| && OnlyMeet(chains, tokens, tangent, b, |chains|)
    ensures MergedUpTo(chains, tokens, tangent, face, b, |chains|) == chains[b := chains[b] + [face]]
  {
    var after := chains[b + 1..];
    SliceToEnd(chains, b + 1);
    forall i | 0 <= i < |after|
      ensures !Meets(after[i], tokens, tangent)
    {
      assert after[i] == chains[b + 1 + i];
    }
    NoneMeeting(after, tokens, tangent);
    var none: seq<seq<nat>> := [];
    assert Flatten(none) == [];
    assert chains[b] + [face] + Flatten(none) == chains[b] + [face];
    assert MergedUpTo(chains, tokens, tangent, face, b, |chains|) == chains[..b] + [chains[b] + [face]] + after;
    assert chains[b := chains[b] + [face]] == chains[..b] + [chains[b] + [face]] + after;
  }

  /** Chains no one of which meets the face are all kept apart. */
  lemma {:induction false} NoneMeeting(cs: seq<seq<nat>>, tokens: seq<int>, tangent: set<int>)
    requires forall i :: 0 <= i < |cs| ==> !Meets(cs[i], tokens, tangent)
    ensures MeetingChains(cs, tokens, tangent) == [] && ApartChains(cs, tokens, tangent) == cs
  {
    if cs != [] {
      var init := cs[..|cs| - 1];
      forall i | 0 <= i < |init|
        ensures !Meets(init[i], tokens, tangent)
      {
        assert init[i] == cs[i];
      }
      NoneMeeting(init, tokens, tangent);
      assert init + [cs[|cs| - 1]] == cs;
    }
  }

  /** The first chain the face meets takes it, and no later chain has been seen yet. */
  lemma FirstMeetShape(chains: seq<seq<nat>>, tokens: seq<int>, tangent: set<int>, face: nat, j: nat)
    requires j < |chains|
    ensures chains[..j] + [chains[j] + [face]] == MergedUpTo(chains, tokens, tangent, face, j, j + 1)
  {
    var none: seq<seq<nat>> := [];
    assert chains[j + 1..j + 1] == none;
    assert MeetingChains(none, tokens, tangent) == none && ApartChains(none, tokens, tangent) == none;
    assert Flatten(none) == [];
    assert chains[j] + [face] + Flatten(none) == chains[j] + [face];
  }

  /** A later chain that meets the face is appended to chain `b`. */
  lemma JoinShape(chains: seq<seq<nat>>, tokens: seq<int>, tangent: set<int>, face: nat, b: nat, j: nat)
    requires b < j < |chains| && Meets(chains[j], tokens, tangent)
    ensures var merged := MergedUpTo(chains, tokens, tangent, face, b, j);
      merged[b := merged[b] + chains[j]] == MergedUpTo(chains, tokens, tangent, face, b, j + 1)
  {
    var s, s' := chains[b + 1..j], chains[b + 1..j + 1];
    SliceGrow(chains, b + 1, j);
    var meeting := MeetingChains(s, tokens, tangent);
    assert MeetingChains(s', tokens, tangent) == meeting + [chains[j]];
    assert ApartChains(s', tokens, tangent) == ApartChains(s, tokens, tangent);
    FlattenAppend(meeting, chains[j]);
    var before, head, rest := chains[..b], chains[b] + [face] + Flatten(meeting), ApartChains(s, tokens, tangent);
    assert MergedUpTo(chains, tokens, tangent, face, b, j) == before + [head] + rest;
    assert chains[b] + [face] + Flatten(meeting + [chains[j]]) == head + chains[j];
    assert MergedUpTo(chains, tokens, tangent, face, b, j + 1) == before + [head + chains[j]] + rest;
    assert |before| == b;
    assert (before + [head] + rest)[b := head + chains[j]] == before + [head + chains[j]] + rest;
  }

  /** A later chain that does not meet the face is kept, after the ones kept before it. */
  lemma KeepShape(chains: seq<seq<nat>>, tokens: seq<int>, tangent: set<int>, face: nat, b: nat, j: nat)
    requires b < j < |chains| && !Meets(chains[j], tokens, tangent)
    ensures MergedUpTo(chains, tokens, tangent, face, b, j) + [chains[j]] == MergedUpTo(chains, tokens, tangent, face, b, j + 1)
  {
    var s, s' := chains[b + 1..j], chains[b + 1..j + 1];
    SliceGrow(chains, b + 1, j);
    assert MeetingChains(s', tokens, tangent) == MeetingChains(s, tokens, tangent);
    assert ApartChains(s', tokens, tangent) == ApartChains(s, tokens, tangent) + [chains[j]];
  }


  /** A chain that meets the face lies within the joined faces of the meeting chains. */
  lemma {:induction false} MeetingWithin(cs: seq<seq<nat>>, tokens: seq<int>, tangent: set<int>, i: nat)
    requires i < |cs| && Meets(cs[i], tokens, tangent)
    ensures Within(cs[i], Flatten(MeetingChains(cs, tokens, tangent)))
  {
    var init, last := cs[..|cs| - 1], cs[|cs| - 1];
    var rest := MeetingChains(init, tokens, tangent);
    if i == |cs| - 1 {
      FlattenAppend(rest, last);
      forall k | 0 <= k < |last|
        ensures last[k] in Flatten(rest) + last
      {
        assert (Flatten(rest) + last)[|Flatten(rest)| + k] == last[k];
      }
    } else {
      assert init[i] == cs[i];
      MeetingWithin(init, tokens, tangent, i);
      if Meets(last, tokens, tangent) {
        FlattenAppend(rest, last);
        forall k | 0 <= k < |cs[i]|
          ensures cs[i][k] in Flatten(rest) + last
        {
          var m :| 0 <= m < |Flatten(rest)| && Flatten(rest)[m] == cs[i][k];
          assert (Flatten(rest) + last)[m] == cs[i][k];
        }
      } else {
        assert MeetingChains(cs, tokens, tangent) == rest;
      }
    }
  }

  /** A chain that does not meet the face is one of the chains kept apart. */
  lemma {:induction false} ApartHolds(cs: seq<seq<nat>>, tokens: seq<int>, tangent: set<int>, i: nat)
    requires i < |cs| && !Meets(cs[i], tokens, tangent)
    ensures cs[i] in ApartChains(cs, tokens, tangent)
  {
    var init := cs[..|cs| - 1];
    if i < |cs| - 1 {
      assert init[i] == cs[i];
      ApartHolds(init, tokens, tangent, i);
    }
  }

  /** After the intended merge at the first meeting chain `b`, the face is in chain `b`, every
      chain it meets lies within chain `b`, and every chain lies within some merged chain. */
  lemma MergedCovers(chains: seq<seq<nat>>, tokens: seq<int>, tangent: set<int>, face: nat, b: nat)
    requires b < |chains|
    ensures var merged := MergedUpTo(chains, tokens, tangent, face, b, |chains|);
      && b < |merged| && face in merged[b]
      && (forall c :: b <= c < |chains| && Meets(chains[c], tokens, tangent) ==> Within(chains[c], merged[b]))
      && Covered(chains, merged)
  {
    var after := chains[b + 1..];
    SliceToEnd(chains, b + 1);
    var merged := MergedUpTo(chains, tokens, tangent, face, b, |chains|);
    var before, head, rest := chains[..b], chains[b] + [face] + Flatten(MeetingChains(after, tokens, tangent)), ApartChains(after, tokens, tangent);
    assert merged == before + [head] + rest;
    assert |before| == b && merged[b] == head;
    assert head[|chains[b]|] == face;
    forall c | b <= c < |chains| && Meets(chains[c], tokens, tangent)
      ensures Within(chains[c], merged[b])
    {
      if c == b {
        forall k | 0 <= k < |chains[b]|
          ensures chains[b][k] in head
        {
          assert head[k] == chains[b][k];
        }
      } else {
        assert after[c - b - 1] == chains[c];
        MeetingWithin(after, tokens, tangent, c - b - 1);
        var joined := Flatten(MeetingChains(after, tokens, tangent));
        forall k | 0 <= k < |chains[c]|
          ensures chains[c][k] in head
        {
          var m :| 0 <= m < |joined| && joined[m] == chains[c][k];
          assert head[|chains[b]| + 1 + m] == joined[m];
        }
      }
    }
    forall c | 0 <= c < |chains|
      ensures exists c' :: 0 <= c' < |merged| && Within(chains[c], merged[c'])
    {
      if c < b {
        assert merged[c] == chains[c];
        assert Within(chains[c], merged[c]);
      } else if c == b || Meets(chains[c], tokens, tangent) {
        assert Within(chains[c], merged[b]);
      } else {
        assert after[c - b - 1] == chains[c];
        ApartHolds(after, tokens, tangent, c - b - 1);
        var m :| 0 <= m < |rest| && rest[m] == chains[c];
        assert merged[b + 1 + m] == chains[c];
        assert Within(chains[c], merged[b + 1 + m]);
      }
    }
  }

  /** When the face meets no chain, the chains are kept and the face starts one of its own. */
  lemma ApartCovers(chains: seq<seq<nat>>, face: nat)
    ensures Covered(chains, chains + [[face]]) && face in (chains + [[face]])[|chains|]
  {
    var merged := chains + [[face]];
    forall c | 0 <= c < |chains|
      ensures exists c' :: 0 <= c' < |merged| && Within(chains[c], merged[c'])
    {
      assert merged[c] == chains[c];
      assert Within(chains[c], merged[c]);
    }
    assert merged[|chains|] == [face];
  }

  /** The first chain the face meets. */
  lemma FirstMeeting(chains: seq<seq<nat>>, tokens: seq<int>, tangent: set<int>) returns (b: nat)
    requires !NoneMeet(chains, tokens, tangent, |chains|)
    ensures b < |chains| && Meets(chains[b], tokens, tangent) && NoneMeet(chains, tokens, tangent, b)
  {
    b := 0;
    while !Meets(chains[b], tokens, tangent)
      invariant b < |chains| && NoneMeet(chains, tokens, tangent, b)
      decreases |chains| - b
    {
      b := b + 1;
    }
  }

  /** A face below `faces` is in one of the chains of the first `faces` faces. */
  lemma {:induction false} InSomeChain(chains: seq<seq<nat>>, faces: nat, x: nat) returns (c: nat)
    requires multiset(Flatten(chains)) == multiset(Range(faces)) && x < faces
    ensures c < |chains| && x in chains[c]
  {
    assert Range(faces)[x] == x;
    assert x in multiset(Flatten(chains));
    c := FlattenMember(chains, x);
  }

  lemma {:induction false} FlattenMember(chains: seq<seq<nat>>, x: nat) returns (c: nat)
    requires x in Flatten(chains)
    ensures c < |chains| && x in chains[c]
  {
    var init, last := chains[..|chains| - 1], chains[|chains| - 1];
    FlattenAppend(init, last);
    assert chains == init + [last];
    if x in last {
      c := |chains| - 1;
    } else {
      c := FlattenMember(init, x);
      assert init[c] == chains[c];
    }
  }

  /** Pairs of faces that shared a chain still share one once every chain lies within a merged one. */
  lemma KeptTogether(chains: seq<seq<nat>>, merged: seq<seq<nat>>, tokens: seq<int>, tangent: seq<set<int>>, faces: nat)
    requires faces <= |tokens| && faces <= |tangent|
    requires TangentTogether(chains, tokens, tangent, faces) && Covered(chains, merged)
    ensures TangentTogether(merged, tokens, tangent, faces)
  {
    forall x, y | 0 <= x < y < faces && tokens[x] in tangent[y]
      ensures SameChain(merged, x, y)
    {
      var c :| 0 <= c < |chains| && x in chains[c] && y in chains[c];
      var c' :| 0 <= c' < |merged| && Within(chains[c], merged[c']);
      var kx :| 0 <= kx < |chains[c]| && chains[c][kx] == x;
      var ky :| 0 <= ky < |chains[c]| && chains[c][ky] == y;
      assert x in merged[c'] && y in merged[c'];
    }
  }

  /** The face placed into chain `f`, which holds every chain the face meets, shares it with each
      earlier face it is tangent to. */
  lemma FaceTogether(chains: seq<seq<nat>>, merged: seq<seq<nat>>, tokens: seq<int>, tangent: seq<set<int>>, face: nat, f: nat)
    requires face < |tokens| && face < |tangent|
    requires multiset(Flatten(chains)) == multiset(Range(face))
    requires f < |merged| && face in merged[f]
    requires forall c :: 0 <= c < |chains| && Meets(chains[c], tokens, tangent[face]) ==> Within(chains[c], merged[f])
    ensures forall x :: 0 <= x < face && tokens[x] in tangent[face] ==> SameChain(merged, x, face)
  {
    forall x | 0 <= x < face && tokens[x] in tangent[face]
      ensures SameChain(merged, x, face)
    {
      var c := InSomeChain(chains, face, x);
      var k :| 0 <= k < |chains[c]| && chains[c][k] == x;
      assert Meets(chains[c], tokens, tangent[face]);
      assert x in merged[f];
    }
  }

  /** No token occurs twice. */
  predicate Distinct(tokens: seq<int>) {
    forall a, b :: 0 <= a < b < |tokens| ==> tokens[a] != tokens[b]
  }

  /** The position of the first occurrence of `x`, as `list.index` finds it. */
  function FirstIndex(s: seq<int>, x: int): (r: nat)
    requires x in s
    ensures r < |s| && s[r] == x && forall k :: 0 <= k < r ==> s[k] != x
  {
    if s[0] == x then 0 else 1 + FirstIndex(s[1..], x)
  }

  lemma FirstIndexDistinct(tokens: seq<int>, x: nat)
    requires Distinct(tokens) && x < |tokens|
    ensures FirstIndex(tokens, tokens[x]) == x
  {
  }

  lemma {:induction false} FlattenContains(chains: seq<seq<nat>>, c: nat, k: nat)
    requires c < |chains| && k < |chains[c]|
    ensures chains[c][k] in multiset(Flatten(chains))
  {
    var last := |chains| - 1;
    FlattenAppend(chains[..last], chains[last]);
    assert chains == chains[..last] + [chains[last]];
    if c < last {
      FlattenContains(chains[..last], c, k);
    } else {
      assert chains[c][k] in chains[last];
    }
  }

  lemma RangeStep(i: nat)
    ensures multiset(Range(i + 1)) == multiset(Range(i)) + multiset{i}
  {
  }

  /** Every member of the chains is among the first `n` selection indices. */
  lemma MembersBelow(chains: seq<seq<nat>>, n: nat)
    requires multiset(Flatten(chains)) == multiset(Range(n))
    ensures forall c, k :: 0 <= c < |chains| && 0 <= k < |chains[c]| ==> chains[c][k] < n
  {
    forall c, k | 0 <= c < |chains| && 0 <= k < |chains[c]|
      ensures chains[c][k] < n
    {
      FlattenContains(chains, c, k);
      var r := Range(n);
      assert chains[c][k] in r;
    }
  }

  /** The chains as selection indices, each member replaced by the first index of its token. */
  method ChainIndices(chains: seq<seq<nat>>, tokens: seq<int>) returns (inds: seq<seq<nat>>)
    requires forall c, k :: 0 <= c < |chains| && 0 <= k < |chains[c]| ==> chains[c][k] < |tokens|
    ensures |inds| == |chains|
    ensures forall c :: 0 <= c < |chains| ==> |inds[c]| == |chains[c]|
    ensures forall c, k :: 0 <= c < |chains| && 0 <= k < |chains[c]| ==>
      inds[c][k] == FirstIndex(tokens, tokens[chains[c][k]])
  {
    inds := [];
    var i := 0;
    while i < |chains|
      invariant 0 <= i <= |chains| && |inds| == i
      invariant forall c :: 0 <= c < i ==> |inds[c]| == |chains[c]|
      invariant forall c, k :: 0 <= c < i && 0 <= k < |chains[c]| ==>
        inds[c][k] == FirstIndex(tokens, tokens[chains[c][k]])
    {
      var chain: seq<nat> := [];
      var j := 0;
      while j < |chains[i]|
        invariant 0 <= j <= |chains[i]| && |chain| == j
        invariant forall k :: 0 <= k < j ==> chain[k] == FirstIndex(tokens, tokens[chains[i][k]])
      {
        chain := chain + [FirstIndex(tokens, tokens[chains[i][j]])];
        j := j + 1;
      }
      inds := inds + [chain];
      i := i + 1;
    }
  }

  /** With distinct tokens, turning the chains into indices changes nothing. */
  lemma ChainIndicesDistinct(chains: seq<seq<nat>>, tokens: seq<int>, inds: seq<seq<nat>>)
    requires Distinct(tokens)
    requires |inds| == |chains| && forall c :: 0 <= c < |chains| ==> |inds[c]| == |chains[c]|
    requires forall c, k :: 0 <= c < |chains| && 0 <= k < |chains[c]| ==> chains[c][k] < |tokens|
    requires forall c, k :: 0 <= c < |chains| && 0 <= k < |chains[c]| ==>
      inds[c][k] == FirstIndex(tokens, tokens[chains[c][k]])
    ensures inds == chains
  {
    forall c | 0 <= c < |chains|
      ensures inds[c] == chains[c]
    {
      forall k | 0 <= k < |chains[c]|
        ensures inds[c][k] == chains[c][k]
      {
        FirstIndexDistinct(tokens, chains[c][k]);
      }
    }
  }

  /** `face_chain_finder` with the corrected merge: the selected faces grouped into chains of
      tangent faces. `tangent[i]` holds the tokens of the faces tangent to face `i`. Chain 0 starts
      with face 0, every chain is nonempty, and with distinct tokens every face is in exactly one
      chain. */
  method FaceChainFinder(tokens: seq<int>, tangent: seq<set<int>>) returns (chains: seq<seq<nat>>)
    requires |tangent| == |tokens|
    ensures |tokens| <= 1 ==> chains == [[0]]
    ensures chains != [] && chains[0] != [] && AllNonEmpty(chains)
    ensures |tokens| > 1 ==> chains[0][0] == 0
    ensures |tokens| > 1 ==> forall c, k :: 0 <= c < |chains| && 0 <= k < |chains[c]| ==> chains[c][k] < |tokens|
    ensures |tokens| > 1 && Distinct(tokens) ==> multiset(Flatten(chains)) == multiset(Range(|tokens|))
    ensures Distinct(tokens) ==> TangentTogether(chains, tokens, tangent, |tokens|)
    ensures |tokens| > 1 ==> var merged := Chains(tokens, tangent, |tokens|);
      && |chains| == |merged|
      && (forall c :: 0 <= c < |merged| ==> |chains[c]| == |merged[c]|)
      && (forall c, k :: 0 <= c < |merged| && 0 <= k < |merged[c]| ==>
            merged[c][k] < |tokens| && chains[c][k] == FirstIndex(tokens, tokens[merged[c][k]]))
    ensures |tokens| > 1 && Distinct(tokens) ==> chains == Chains(tokens, tangent, |tokens|)
  {
    if |tokens| <= 1 {
      return [[0]];
    }
    var merged := UniqueTangentChains(tokens, tangent);
    MembersBelow(merged, |tokens|);
    chains := ChainIndices(merged, tokens);
    IndexedChains(merged, tokens, chains);
    if Distinct(tokens) {
      ChainIndicesDistinct(merged, tokens, chains);
    }
  }

  /** The chains of selection indices for a selection of several faces: face 0 starts the first
      chain, and every later face is placed by `MergeFace` in selection order, so each face is kept
      exactly once. */
  method UniqueTangentChains(tokens: seq<int>, tangent: seq<set<int>>) returns (merged: seq<seq<nat>>)
    requires |tangent| == |tokens| > 1
    ensures merged != [] && merged[0] != [] && merged[0][0] == 0 && AllNonEmpty(merged)
    ensures multiset(Flatten(merged)) == multiset(Range(|tokens|))
    ensures TangentTogether(merged, tokens, tangent, |tokens|)
    ensures merged == Chains(tokens, tangent, |tokens|)
  {
    merged := FoldChains(tokens, tangent);
    ChainsGrouped(tokens, tangent, |tokens|);
  }

  /** The loop of `UniqueTangentChains`: face 0 alone, then each later face placed in turn. */
  method FoldChains(tokens: seq<int>, tangent: seq<set<int>>) returns (merged: seq<seq<nat>>)
    requires |tangent| == |tokens| > 1
    ensures merged == Chains(tokens, tangent, |tokens|)
  {
    merged := [[0]];
    for i := 1 to |tokens|
      invariant merged == Chains(tokens, tangent, i)
    {
      merged := PlaceFace(merged, tokens, tangent, i);
    }
  }

  /** The fold groups the first `faces` faces. */
  lemma {:induction false} ChainsGrouped(tokens: seq<int>, tangent: seq<set<int>>, faces: nat)
    requires |tangent| == |tokens| > 1 && 1 <= faces <= |tokens|
    ensures Grouped(Chains(tokens, tangent, faces), tokens, tangent, faces)
  {
    if faces == 1 {
      FirstChain(tokens, tangent);
    } else {
      ChainsGrouped(tokens, tangent, faces - 1);
      MergeGroups(Chains(tokens, tangent, faces - 1), Chains(tokens, tangent, faces), tokens, tangent, faces);
    }
  }

  /** Placing face `faces - 1` by `Merge` into the grouped chains of the faces before it groups
      the first `faces` faces. */
  lemma MergeGroups(chains: seq<seq<nat>>, merged: seq<seq<nat>>, tokens: seq<int>, tangent: seq<set<int>>, faces: nat)
    requires 1 <= faces <= |tokens| && |tangent| == |tokens|
    requires Grouped(chains, tokens, tangent, faces - 1) && merged == Merge(chains, tokens, tangent[faces - 1], faces - 1)
    ensures Grouped(merged, tokens, tangent, faces)
  {
    var face := faces - 1;
    var b := FirstMet(chains, tokens, tangent[face], 0);
    if b < |chains| {
      MergeDoneMet(chains, tokens, tangent[face], face, b);
    } else {
      MergeDoneApart(chains, tokens, tangent[face], face, chains);
    }
    RangeStep(face);
    PlacedTogether(chains, merged, tokens, tangent, face);
  }

  /** The chains hold faces `0 .. faces - 1`, each once, with face 0 first and no chain empty. */
  predicate ChainsOfFirst(chains: seq<seq<nat>>, faces: nat) {
    && chains != [] && chains[0] != [] && chains[0][0] == 0 && AllNonEmpty(chains)
    && multiset(Flatten(chains)) == multiset(Range(faces))
  }

  /** The first `faces` faces are grouped: chains of those faces, each face with every earlier
      face it is tangent to. */
  predicate Grouped(chains: seq<seq<nat>>, tokens: seq<int>, tangent: seq<set<int>>, faces: nat)
    requires faces <= |tokens| && faces <= |tangent|
  {
    ChainsOfFirst(chains, faces) && TangentTogether(chains, tokens, tangent, faces)
  }

  /** Face 0 alone is the one chain of the first face. */
  lemma FirstChain(tokens: seq<int>, tangent: seq<set<int>>)
    requires |tangent| == |tokens| > 1
    ensures Grouped(Chains(tokens, tangent, 1), tokens, tangent, 1)
  {
    assert Flatten([[0]]) == [0] by { FlattenAppend([], [0]); }
    assert Range(1) == [0];
  }

  /** One turn of the chain loop: `MergeFace` takes the chains of the first `face` faces to
      those of the first `face + 1`. */
  method PlaceFace(chains: seq<seq<nat>>, tokens: seq<int>, tangent: seq<set<int>>, face: nat)
    returns (merged: seq<seq<nat>>)
    requires 1 <= face < |tokens| && |tangent| == |tokens|
    requires chains == Chains(tokens, tangent, face)
    ensures merged == Chains(tokens, tangent, face + 1)
  {
    ChainsGrouped(tokens, tangent, face);
    merged := MergeFace(chains, tokens, tangent[face], face);
    ChainsStep(tokens, tangent, face);
  }

  /** The intended merge keeps each face with every earlier face it is tangent to. */
  lemma PlacedTogether(chains: seq<seq<nat>>, merged: seq<seq<nat>>, tokens: seq<int>, tangent: seq<set<int>>, face: nat)
    requires face < |tokens| && |tangent| == |tokens|
    requires multiset(Flatten(chains)) == multiset(Range(face)) && TangentTogether(chains, tokens, tangent, face)
    requires NoneMeet(chains, tokens, tangent[face], |chains|) ==> merged == chains + [[face]]
    requires forall b :: 0 <= b < |chains| && Meets(chains[b], tokens, tangent[face]) && NoneMeet(chains, tokens, tangent[face], b) ==>
               merged == MergedUpTo(chains, tokens, tangent[face], face, b, |chains|)
    ensures TangentTogether(merged, tokens, tangent, face + 1)
  {
    var f: nat;
    if NoneMeet(chains, tokens, tangent[face], |chains|) {
      ApartCovers(chains, face);
      f := |chains|;
    } else {
      f := FirstMeeting(chains, tokens, tangent[face]);
      MergedCovers(chains, tokens, tangent[face], face, f);
    }
    KeptTogether(chains, merged, tokens, tangent, face);
    FaceTogether(chains, merged, tokens, tangent, face, f);
  }

  /** Replacing every member by the first selection index of its token keeps the chains non-empty,
      keeps face 0 first, and yields selection indices. */
  lemma IndexedChains(merged: seq<seq<nat>>, tokens: seq<int>, inds: seq<seq<nat>>)
    requires merged != [] && merged[0] != [] && merged[0][0] == 0 && AllNonEmpty(merged)
    requires forall c, k :: 0 <= c < |merged| && 0 <= k < |merged[c]| ==> merged[c][k] < |tokens|
    requires |inds| == |merged| && forall c :: 0 <= c < |merged| ==> |inds[c]| == |merged[c]|
    requires forall c, k :: 0 <= c < |merged| && 0 <= k < |merged[c]| ==>
      inds[c][k] == FirstIndex(tokens, tokens[merged[c][k]])
    ensures inds != [] && inds[0] != [] && inds[0][0] == 0 && AllNonEmpty(inds)
    ensures forall c, k :: 0 <= c < |inds| && 0 <= k < |inds[c]| ==> inds[c][k] < |tokens|
  {
    assert inds[0][0] == FirstIndex(tokens, tokens[0]) == 0;
    forall c | 0 <= c < |inds|
      ensures inds[c] != []
    {
      assert |inds[c]| == |merged[c]| && merged[c] != [];
    }
    forall c, k | 0 <= c < |inds| && 0 <= k < |inds[c]|
      ensures inds[c][k] < |tokens|
    {
      var r := FirstIndex(tokens, tokens[merged[c][k]]);
      assert inds[c][k] == r;
    }
  }

  // ---------------------------------------------------------------------------
  // The merge as the command writes it
  // ---------------------------------------------------------------------------

  /** The scan over the first `count` chains as written: a chain the face meets takes the face and
      becomes `b`; when an earlier chain had already met the face, that earlier chain `b` is
      extended by this one first and this one is marked to be popped. A face meeting no chain
      starts a chain at the end when the last chain is reached. Gives the chains and the
      indices to pop. */
  function ScanAsWritten(count: nat, tokens: seq<int>, tangent: set<int>, face: nat,
                         j: nat, cur: seq<seq<nat>>, b: int, pops: seq<nat>): (seq<seq<nat>>, seq<nat>)
    requires j <= count <= |cur| && -1 <= b < j
    decreases count - j
  {
    if j == count then (cur, pops)
    else if Meets(cur[j], tokens, tangent) then
      var extended := if b != -1 then cur[b := cur[b] + cur[j]] else cur;
      var pops' := if b != -1 then pops + [j] else pops;
      ScanAsWritten(count, tokens, tangent, face, j + 1, extended[j := extended[j] + [face]], j, pops')
    else if j == count - 1 && b == -1 then
      ScanAsWritten(count, tokens, tangent, face, j + 1, cur + [[face]], b, pops)
    else
      ScanAsWritten(count, tokens, tangent, face, j + 1, cur, b, pops)
  }

  /** `pop(ind_to_pop[j] - j)` for each marked index in turn. */
  function PopAll(cur: seq<seq<nat>>, pops: seq<nat>, j: nat): Result<seq<seq<nat>>>
    requires j <= |pops|
    decreases |pops| - j
  {
    if j == |pops| then Ok(cur)
    else if !(0 <= pops[j] - j < |cur|) then Err(IndexError("pop index out of range"))
    else PopAll(cur[..pops[j] - j] + cur[pops[j] - j + 1..], pops, j + 1)
  }

  function MergeFaceAsWritten(chains: seq<seq<nat>>, tokens: seq<int>, tangent: set<int>, face: nat): Result<seq<seq<nat>>> {
    var (cur, pops) := ScanAsWritten(|chains|, tokens, tangent, face, 0, chains, -1, []);
    PopAll(cur, pops, 0)
  }

  /** Faces `i ..` merged one after the other, as written. */
  function ChainsFrom(tokens: seq<int>, tangent: seq<set<int>>, i: nat, chains: seq<seq<nat>>): Result<seq<seq<nat>>>
    requires |tangent| == |tokens|
    decreases |tokens| - i
  {
    if i >= |tokens| then Ok(chains)
    else
      var merged :- MergeFaceAsWritten(chains, tokens, tangent[i], i);
      ChainsFrom(tokens, tangent, i + 1, merged)
  }

  /** The chains `face_chain_finder` finds as written (before the indices are looked up, which
      changes nothing when the tokens are distinct). */
  function ChainsAsWritten(tokens: seq<int>, tangent: seq<set<int>>): Result<seq<seq<nat>>>
    requires |tangent| == |tokens|
  {
    if |tokens| <= 1 then Ok([[0]]) else ChainsFrom(tokens, tangent, 1, [[0]])
  }

  /** Four faces: 0, 1 and 2 are tangent only to face 3, and face 3 to all three. */
  const FourTokens: seq<int> := [10, 11, 12, 13]
  const FourTangent: seq<set<int>> := [{13}, {13}, {13}, {10, 11, 12}]

  /** Faces 1 and 2 meet no chain and each start one. */
  lemma FourFacesFirstTwo()
    ensures MergeFaceAsWritten([[0]], FourTokens, {13}, 1) == Ok([[0], [1]])
    ensures MergeFaceAsWritten([[0], [1]], FourTokens, {13}, 2) == Ok([[0], [1], [2]])
  {
    var c0: seq<seq<nat>> := [[0]];
    assert c0[0] == [0] && !Meets(c0[0], FourTokens, {13});
    assert c0 + [[1]] == [[0], [1]];
    assert ScanAsWritten(1, FourTokens, {13}, 1, 1, [[0], [1]], -1, []) == ([[0], [1]], []);
    assert ScanAsWritten(1, FourTokens, {13}, 1, 0, c0, -1, []) == ([[0], [1]], []);
    var c1: seq<seq<nat>> := [[0], [1]];
    assert c1[0] == [0] && c1[1] == [1];
    assert !Meets(c1[1], FourTokens, {13}) && !Meets(c1[0], FourTokens, {13});
    assert c1 + [[2]] == [[0], [1], [2]];
    assert ScanAsWritten(2, FourTokens, {13}, 2, 2, [[0], [1], [2]], -1, []) == ([[0], [1], [2]], []);
    assert ScanAsWritten(2, FourTokens, {13}, 2, 1, c1, -1, []) == ([[0], [1], [2]], []);
    assert ScanAsWritten(2, FourTokens, {13}, 2, 0, c1, -1, []) == ([[0], [1], [2]], []);
  }

  /** Face 3 meets all three chains: chain 0 takes it and is extended by chain 1; then chain 1
      takes it and is extended by chain 2; chains 1 and 2 are marked for popping. */
  lemma FourFacesScanLast()
    ensures ScanAsWritten(3, FourTokens, {10, 11, 12}, 3, 0, [[0], [1], [2]], -1, [])
      == ([[0, 3, 1], [1, 3, 2], [2, 3]], [1, 2])
  {
    var t3: set<int> := {10, 11, 12};
    var s0: seq<seq<nat>> := [[0], [1], [2]];
    var s1: seq<seq<nat>> := [[0, 3], [1], [2]];
    var s2: seq<seq<nat>> := [[0, 3, 1], [1, 3], [2]];
    var s3: seq<seq<nat>> := [[0, 3, 1], [1, 3, 2], [2, 3]];
    assert Meets(s2[2], FourTokens, t3) by { assert s2[2][0] == 2; }
    assert Meets(s1[1], FourTokens, t3) by { assert s1[1][0] == 1; }
    assert Meets(s0[0], FourTokens, t3) by { assert s0[0][0] == 0; }
    assert ScanAsWritten(3, FourTokens, t3, 3, 3, s3, 2, [1, 2]) == (s3, [1, 2]);
    assert s2[1] + s2[2] == [1, 3, 2] && s2[2] + [3] == [2, 3] && [1] + [2] == [1, 2];
    assert s2[1 := [1, 3, 2]][2 := [2, 3]] == s3;
    assert ScanAsWritten(3, FourTokens, t3, 3, 2, s2, 1, [1]) == (s3, [1, 2]);
    assert s1[0] + s1[1] == [0, 3, 1] && s1[1] + [3] == [1, 3] && [] + [1] == [1];
    assert s1[0 := [0, 3, 1]][1 := [1, 3]] == s2;
    assert ScanAsWritten(3, FourTokens, t3, 3, 1, s1, 0, []) == (s3, [1, 2]);
    assert s0[0] + [3] == [0, 3];
    assert s0[0 := [0, 3]] == s1;
  }

  /** Popping index 1 and then index 2 - 1 removes both chains that hold face 2. */
  lemma FourFacesPop()
    ensures PopAll([[0, 3, 1], [1, 3, 2], [2, 3]], [1, 2], 0) == Ok([[0, 3, 1]])
  {
    var s3: seq<seq<nat>> := [[0, 3, 1], [1, 3, 2], [2, 3]];
    var p1: seq<seq<nat>> := [[0, 3, 1], [2, 3]];
    assert PopAll([[0, 3, 1]], [1, 2], 2) == Ok([[0, 3, 1]]);
    assert p1[..1] + p1[2..] == [[0, 3, 1]];
    assert PopAll(p1, [1, 2], 1) == Ok([[0, 3, 1]]);
    assert s3[..1] + s3[2..] == p1;
  }

  /** Placing face 3 meets three chains; the second merge extends a chain that is then popped, so
      face 2 is lost, although the tokens are distinct and the intended chains hold every face
      once. */
  lemma ThreeChainsLoseAFace()
    ensures ChainsAsWritten(FourTokens, FourTangent) == Ok([[0, 3, 1]])
    ensures Distinct(FourTokens)
    ensures 2 !in multiset(Flatten([[0, 3, 1]]))
    ensures 2 in multiset(Range(|FourTokens|))
  {
    FourFacesFirstTwo();
    FourFacesScanLast();
    FourFacesPop();
    var s0: seq<seq<nat>> := [[0], [1], [2]];
    assert MergeFaceAsWritten(s0, FourTokens, {10, 11, 12}, 3) == Ok([[0, 3, 1]]);
    assert ChainsFrom(FourTokens, FourTangent, 4, [[0, 3, 1]]) == Ok([[0, 3, 1]]);
    assert ChainsFrom(FourTokens, FourTangent, 3, s0) == Ok([[0, 3, 1]]);
    assert ChainsFrom(FourTokens, FourTangent, 2, [[0], [1]]) == Ok([[0, 3, 1]]);
    assert ChainsFrom(FourTokens, FourTangent, 1, [[0]]) == Ok([[0, 3, 1]]);
    FlattenAppend([], [0, 3, 1]);
    assert Range(|FourTokens|)[2] == 2;
  }
}
