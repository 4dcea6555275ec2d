/**
 * The values the canonical encoder handles -- Python's `None`, `bool`, `int`,
 * `float`, `str`, `list` and string-keyed `dict`, plus any other object, known
 * by its `str()` -- and the canonicalisation of `_canon_value`/`_canon_dict`:
 * floats become trimmed decimal strings, dict keys are sorted at every level,
 * lists keep their order and unknown objects become their `str()`.
 */
module Json {
  import opened Text
  import opened Decimal
  import opened Wrappers

  datatype Value =
    | Null
    | Bool(b: bool)
    | Int(i: int)
    | Num(f: Float)
    | Str(s: string)
    | List(items: seq<Value>)
    | Dict(obj: Obj)
    | Other(repr: string)

  /** A Python dict: its keys in insertion order, and its contents. */
  datatype Obj = Obj(keys: seq<string>, vals: map<string, Value>)

  const EmptyObj: Obj := Obj([], map[])

  /** The insertion order lists each key of the contents exactly once. */
  predicate KeysMatch(o: Obj) {
    Distinct(o.keys) && (forall k | k in o.vals :: k in o.keys) && (forall k | k in o.keys :: k in o.vals)
  }

  /** Every dict, at every depth, is a well-formed Python dict. */
  predicate WF(v: Value) {
    match v
    case List(items) => forall i | 0 <= i < |items| :: WF(items[i])
    case Dict(o) => KeysMatch(o) && forall k | k in o.vals :: WF(o.vals[k])
    case _ => true
  }

  predicate WFObj(o: Obj) {
    WF(Dict(o))
  }

  /** `d.get(k)` */
  function Get(o: Obj, k: string): (r: Option<Value>)
    ensures r.Some? <==> k in o.vals
    ensures r.Some? ==> r.value == o.vals[k]
  {
    if k in o.vals then Some(o.vals[k]) else None
  }

  /** `d[k] = v`: an existing key keeps its place, a new key goes last. */
  function Set(o: Obj, k: string, v: Value): (r: Obj)
    ensures KeysMatch(o) ==> KeysMatch(r)
    ensures r.vals == o.vals[k := v]
    ensures KeysMatch(o) && k in o.vals ==> r.keys == o.keys
    ensures k !in o.vals ==> r.keys == o.keys + [k]
  {
    if k in o.vals then Obj(o.keys, o.vals[k := v])
    else Obj(o.keys + [k], o.vals[k := v])
  }

  /** The keys of `s` other than `k`, in their order. */
  function Without(s: seq<string>, k: string): (r: seq<string>)
    ensures forall x :: x in r <==> x in s && x != k
    ensures k !in s ==> r == s
    ensures |r| <= |s|
  {
    if s == [] then []
    else if s[0] == k then Without(s[1..], k)
    else [s[0]] + Without(s[1..], k)
  }

  lemma {:induction false} WithoutDistinct(s: seq<string>, k: string)
    requires Distinct(s)
    ensures Distinct(Without(s, k))
  {
    if s != [] {
      WithoutDistinct(s[1..], k);
      assert s[0] !in s[1..];
    }
  }

  lemma {:induction false} WithoutAppended(s: seq<string>, k: string)
    ensures Without(s + [k], k) == Without(s, k)
  {
    if s == [] {
      assert [k][1..] == [];
    } else {
      assert (s + [k])[1..] == s[1..] + [k];
      WithoutAppended(s[1..], k);
    }
  }

  /** Setting a key to the value it already holds changes nothing. */
  lemma SetSame(o: Obj, k: string, v: Value)
    requires k in o.vals && o.vals[k] == v
    ensures Set(o, k, v) == o
  {
    assert o.vals[k := v] == o.vals;
  }

  /** `{k: v for k, v in d.items() if k != key}` */
  function Remove(o: Obj, k: string): (r: Obj)
    ensures k !in r.vals
    ensures forall x :: x in r.vals <==> x in o.vals && x != k
    ensures forall x | x in r.vals :: r.vals[x] == o.vals[x]
    ensures forall x :: x in r.keys <==> x in o.keys && x != k
  {
    Obj(Without(o.keys, k), o.vals - {k})
  }

  lemma RemoveWF(o: Obj, k: string)
    ensures KeysMatch(o) ==> KeysMatch(Remove(o, k))
    ensures WFObj(o) ==> WFObj(Remove(o, k))
  {
    if KeysMatch(o) {
      WithoutDistinct(o.keys, k);
    }
  }

  /** Setting a key and then removing it is the same as only removing it. */
  lemma RemoveSet(o: Obj, k: string, v: Value)
    requires KeysMatch(o)
    ensures Remove(Set(o, k, v), k) == Remove(o, k)
  {
    if k !in o.vals {
      WithoutAppended(o.keys, k);
    }
    assert o.vals[k := v] - {k} == o.vals - {k};
  }

  /** `_canon_value` */
  function Canon(v: Value): Value {
    match v
    case Num(f) => Str(DecimalString(f))
    case Dict(o) => Dict(CanonDict(o))
    case List(items) => List(seq(|items|, i requires 0 <= i < |items| => Canon(items[i])))
    case Other(r) => Str(r)
    case _ => v
  }

  /** `_canon_dict`: the keys in sorted order, each value canonicalised. */
  function CanonDict(o: Obj): Obj {
    Obj(SortStrings(o.keys), map k | k in o.vals :: Canon(o.vals[k]))
  }

  /** The shape `Canon` produces: no floats, no foreign objects, keys strictly increasing everywhere. */
  predicate Canonical(v: Value) {
    match v
    case Num(_) => false
    case Other(_) => false
    case List(items) => forall i | 0 <= i < |items| :: Canonical(items[i])
    case Dict(o) => StrictlySorted(o.keys) && KeysMatch(o) && forall k | k in o.vals :: Canonical(o.vals[k])
    case _ => true
  }

  /** Same contents, whatever the insertion order of any dict inside. */
  predicate SameContent(v: Value, w: Value) {
    match v
    case List(a) =>
      w.List? && |a| == |w.items| && forall i | 0 <= i < |a| :: SameContent(a[i], w.items[i])
    case Dict(o) =>
      w.Dict? && o.vals.Keys == w.obj.vals.Keys &&
      forall k | k in o.vals :: SameContent(o.vals[k], w.obj.vals[k])
    case _ => v == w
  }

  lemma SortedKeys(o: Obj)
    requires KeysMatch(o)
    ensures StrictlySorted(SortStrings(o.keys))
    ensures forall k :: k in SortStrings(o.keys) <==> k in o.vals
  {
    var r := SortStrings(o.keys);
    DistinctMultiset(o.keys, r);
    SortedDistinctIsStrict(r);
    forall k ensures k in r <==> k in o.keys {
      assert k in r <==> k in multiset(r);
      assert k in o.keys <==> k in multiset(o.keys);
    }
  }

  /** Canonicalisation produces the canonical shape. */
  lemma {:induction false} CanonIsCanonical(v: Value)
    requires WF(v)
    ensures Canonical(Canon(v))
  {
    match v
    case List(items) =>
      forall i | 0 <= i < |items| ensures Canonical(Canon(items[i])) {
        CanonIsCanonical(items[i]);
      }
    case Dict(o) =>
      var c := CanonDict(o);
      SortedKeys(o);
      forall k | k in c.vals ensures Canonical(c.vals[k]) {
        CanonIsCanonical(o.vals[k]);
      }
      assert Distinct(c.keys) by {
        forall i, j | 0 <= i < j < |c.keys| ensures c.keys[i] != c.keys[j] {
          StrLessIrreflexive(c.keys[i]);
        }
      }
    case _ =>
  }

  /** Canonicalisation leaves a canonical value unchanged. */
  lemma {:induction false} CanonOfCanonical(v: Value)
    requires Canonical(v)
    ensures Canon(v) == v
  {
    match v
    case List(items) =>
      forall i | 0 <= i < |items| ensures Canon(items[i]) == items[i] {
        CanonOfCanonical(items[i]);
      }
      CanonListFixed(items);
    case Dict(o) =>
      forall k | k in o.vals ensures Canon(o.vals[k]) == o.vals[k] {
        CanonOfCanonical(o.vals[k]);
      }
      CanonDictFixed(o);
    case _ =>
  }

  lemma CanonListFixed(items: seq<Value>)
    requires forall i | 0 <= i < |items| :: Canon(items[i]) == items[i]
    ensures Canon(List(items)) == List(items)
  {
    var c := Canon(List(items)).items;
    assert c == items;
  }

  lemma CanonDictFixed(o: Obj)
    requires StrictlySorted(o.keys)
    requires forall k | k in o.vals :: Canon(o.vals[k]) == o.vals[k]
    ensures CanonDict(o) == o
  {
    SortStringsOfStrict(o.keys);
    var c := CanonDict(o);
    assert c.vals == o.vals;
  }

  /** Canonicalising twice is the same as canonicalising once. */
  lemma CanonIdempotent(v: Value)
    requires WF(v)
    ensures Canon(Canon(v)) == Canon(v)
  {
    CanonIsCanonical(v);
    CanonOfCanonical(Canon(v));
  }

  lemma SameKeyCount(o: Obj, p: Obj)
    requires KeysMatch(o) && KeysMatch(p) && o.vals.Keys == p.vals.Keys
    ensures |o.keys| == |p.keys|
    ensures forall k :: k in o.keys <==> k in p.keys
  {
    DistinctCard(o.keys);
    DistinctCard(p.keys);
    assert (set k | k in o.keys) == (set k | k in p.keys);
  }

  /** Dicts with the same contents canonicalise identically, whatever their insertion order. */
  lemma {:induction false} CanonOrderFree(v: Value, w: Value)
    requires WF(v) && WF(w) && SameContent(v, w)
    ensures Canon(v) == Canon(w)
  {
    match v
    case List(a) =>
      forall i | 0 <= i < |a| ensures Canon(a[i]) == Canon(w.items[i]) {
        CanonOrderFree(a[i], w.items[i]);
      }
      CanonListSame(a, w.items);
    case Dict(o) =>
      var p := w.obj;
      forall k | k in o.vals ensures Canon(o.vals[k]) == Canon(p.vals[k]) {
        CanonOrderFree(o.vals[k], p.vals[k]);
      }
      CanonDictSame(o, p);
      assert Canon(v) == Dict(CanonDict(o)) && Canon(w) == Dict(CanonDict(p));
    case _ =>
  }

  /** Lists whose items canonicalise alike canonicalise alike. */
  lemma CanonListSame(a: seq<Value>, b: seq<Value>)
    requires |a| == |b| && forall i | 0 <= i < |a| :: Canon(a[i]) == Canon(b[i])
    ensures Canon(List(a)) == Canon(List(b))
  {
    var ca, cb := Canon(List(a)).items, Canon(List(b)).items;
    assert forall i | 0 <= i < |a| :: ca[i] == cb[i];
  }

  /** Dicts with the same keys whose values canonicalise alike canonicalise alike, in any insertion order. */
  lemma CanonDictSame(o: Obj, p: Obj)
    requires KeysMatch(o) && KeysMatch(p) && o.vals.Keys == p.vals.Keys
    requires forall k | k in o.vals :: Canon(o.vals[k]) == Canon(p.vals[k])
    ensures CanonDict(o) == CanonDict(p)
  {
    SameKeyCount(o, p);
    SortStringsPermutation(o.keys, p.keys);
    var co, cp := CanonDict(o), CanonDict(p);
    assert co.keys == cp.keys;
    assert co.vals == cp.vals by {
      assert co.vals.Keys == cp.vals.Keys;
      forall k | k in co.vals ensures co.vals[k] == cp.vals[k] {
        assert co.vals[k] == Canon(o.vals[k]) && cp.vals[k] == Canon(p.vals[k]);
      }
    }
  }

  lemma {:induction false} SameContentRefl(v: Value)
    ensures SameContent(v, v)
  {
    match v
    case List(a) =>
      forall i | 0 <= i < |a| ensures SameContent(a[i], a[i]) {
        SameContentRefl(a[i]);
      }
    case Dict(o) =>
      forall k | k in o.vals ensures SameContent(o.vals[k], o.vals[k]) {
        SameContentRefl(o.vals[k]);
      }
    case _ =>
  }

  /** Canonicalisation keeps contents, up to the rendering of floats and foreign objects. */
  lemma CanonKeepsScalars(v: Value)
    ensures v.Null? || v.Bool? || v.Int? || v.Str? ==> Canon(v) == v
    ensures v.Num? ==> Canon(v) == Str(DecimalString(v.f))
    ensures v.Other? ==> Canon(v) == Str(v.repr)
    ensures v.List? ==> Canon(v).List? && |Canon(v).items| == |v.items|
    ensures v.Dict? ==> Canon(v).Dict? && Canon(v).obj.vals.Keys == v.obj.vals.Keys
  {
  }

  /** Python truthiness of a JSON value. */
  predicate Truthy(v: Value) {
    match v
    case Null => false
    case Bool(b) => b
    case Int(i) => i != 0
    case Num(f) => !(f == Finite(0.0) || f == NegZero)
    case Str(s) => s != ""
    case List(items) => items != []
    case Dict(o) => o.vals != map[]
    case Other(_) => true
  }

  /** `float(v)`: numbers and booleans convert directly, anything else (a string to parse, say) as `convert` says. */
  function AsFloat(v: Value, convert: Value -> Result<Float>): Result<Float> {
    match v
    case Num(f) => Ok(f)
    case Int(i) => Ok(Finite(i as real))
    case Bool(b) => Ok(Finite(if b then 1.0 else 0.0))
    case _ => convert(v)
  }
}
