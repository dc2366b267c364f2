/** JSON values as Python's `json` module loads them: objects are dicts that keep insertion order. */
module Json {
  import opened Wrappers

  datatype Json =
    | Null
    | Bool(b: bool)
    | Num(n: int)
    | Str(s: string)
    | Arr(items: seq<Json>)
    | Obj(d: Dict)

  /** A Python dict: its keys in insertion order, and the value under each key. */
  datatype Dict = Dict(keys: seq<string>, vals: map<string, Json>)

  const Empty: Dict := Dict([], map[])

  /** The keys are listed once each, and exactly the keys that have a value are listed. */
  ghost predicate ValidDict(d: Dict) {
    && (forall i, j :: 0 <= i < j < |d.keys| ==> d.keys[i] != d.keys[j])
    && (forall k :: k in d.vals <==> k in d.keys)
  }

  /** `d.get(k)` */
  function Get(d: Dict, k: string): Option<Json> {
    if k in d.vals then Some(d.vals[k]) else None
  }

  /** `d.get(k, default)` */
  function GetOr(d: Dict, k: string, default: Json): Json {
    if k in d.vals then d.vals[k] else default
  }

  /** `d[k] = v`: a key already present keeps its place, a new key goes last. */
  function Put(d: Dict, k: string, v: Json): (r: Dict)
    ensures ValidDict(d) ==> ValidDict(r)
    ensures Get(r, k) == Some(v)
    ensures forall k' :: k' != k ==> Get(r, k') == Get(d, k')
    ensures k in d.keys ==> r.keys == d.keys
    ensures k !in d.keys ==> r.keys == d.keys + [k]
  {
    if k in d.keys then Dict(d.keys, d.vals[k := v]) else Dict(d.keys + [k], d.vals[k := v])
  }

  /** `d.pop(k)` on a key that is present, or nothing when it is absent. */
  function Remove(d: Dict, k: string): (r: Dict)
    ensures ValidDict(d) ==> ValidDict(r)
    ensures Get(r, k) == None
    ensures forall k' :: k' != k ==> Get(r, k') == Get(d, k')
    ensures forall k' :: k' in r.keys <==> k' in d.keys && k' != k
  {
    Dict(Without(d.keys, k), d.vals - {k})
  }

  /** The members of `ks` that are not in `drop`, in their order in `ks`. */
  function KeysNotIn(ks: seq<string>, drop: seq<string>): seq<string> {
    if ks == [] then [] else (if ks[0] in drop then [] else [ks[0]]) + KeysNotIn(ks[1..], drop)
  }

  /** Dropping `k` and then the keys `rest` drops the keys `[k] + rest`. */
  lemma {:induction false} KeysNotInTwice(ks: seq<string>, k: string, rest: seq<string>)
    ensures KeysNotIn(KeysNotIn(ks, [k]), rest) == KeysNotIn(ks, [k] + rest)
  {
    if ks != [] {
      KeysNotInTwice(ks[1..], k, rest);
      var tail := KeysNotIn(ks[1..], [k]);
      if ks[0] == k {
        assert KeysNotIn(ks, [k]) == tail;
        assert ks[0] in [k] + rest;
      } else {
        var once := [ks[0]] + tail;
        assert KeysNotIn(ks, [k]) == once;
        assert once[0] == ks[0] && once[1..] == tail;
        assert ks[0] in [k] + rest <==> ks[0] in rest;
      }
    }
  }

  /** `Without` keeps the other keys in their order. */
  lemma {:induction false} WithoutKeepsOrder(ks: seq<string>, k: string)
    ensures Without(ks, k) == KeysNotIn(ks, [k])
  {
    if ks != [] {
      WithoutKeepsOrder(ks[1..], k);
    }
  }

  /** The sequence with every occurrence of `k` taken out, in order. */
  function Without(ks: seq<string>, k: string): (r: seq<string>)
    ensures forall k' :: k' in r <==> k' in ks && k' != k
    ensures (forall i, j :: 0 <= i < j < |ks| ==> ks[i] != ks[j]) ==>
              forall i, j :: 0 <= i < j < |r| ==> r[i] != r[j]
  {
    if ks == [] then []
    else if ks[0] == k then Without(ks[1..], k)
    else
      var rest := Without(ks[1..], k);
      assert ks[0] !in ks[1..] ==> ks[0] !in rest;
      [ks[0]] + rest
  }

  lemma {:induction false} WithoutAbsent(ks: seq<string>, k: string)
    requires k !in ks
    ensures Without(ks, k) == ks
  {
    if ks != [] {
      WithoutAbsent(ks[1..], k);
      assert ks == [ks[0]] + ks[1..];
    }
  }

  /** Popping a key the dict does not hold changes nothing. */
  lemma RemoveAbsent(d: Dict, k: string)
    requires ValidDict(d) && k !in d.keys
    ensures Remove(d, k) == d
  {
    WithoutAbsent(d.keys, k);
    assert d.vals - {k} == d.vals;
  }

  /** A one-key dict `{k: v}`. */
  function Single(k: string, v: Json): (r: Dict)
    ensures ValidDict(r) && Get(r, k) == Some(v) && r.keys == [k]
  {
    Dict([k], map[k := v])
  }

  /** `j[k]` for a string key. */
  function Subscript(j: Json, k: string): (r: Result<Json>)
    ensures r.Ok? <==> j.Obj? && k in j.d.vals
    ensures r.Ok? ==> r.value == j.d.vals[k]
  {
    match j
    case Obj(d) => if k in d.vals then Ok(d.vals[k]) else Err(KeyError(k))
    case Arr(_) => Err(TypeError("list indices must be integers or slices, not str"))
    case Str(_) => Err(TypeError("string indices must be integers"))
    case _ => Err(TypeError("object is not subscriptable"))
  }

  /** Python's truth value of `j`, as `if j:` and `not j` test it. */
  predicate Truthy(j: Json) {
    match j
    case Null => false
    case Bool(b) => b
    case Num(n) => n != 0
    case Str(s) => s != ""
    case Arr(items) => items != []
    case Obj(d) => d.keys != []
  }

  lemma PutTwice(d: Dict, k: string, v: Json)
    ensures Put(Put(d, k, v), k, v) == Put(d, k, v)
  {
  }
}
