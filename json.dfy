/**
 * JSON values as the Python code sees them after `json.loads` (or before
 * `json.dumps`), together with the few pieces of Python semantics the modelled
 * code relies on: truthiness, `d[k]`, `d.get(k, default)`, `k in x`,
 * `d[k] = v`, `{**a, **b}`, iteration, and `x == True`.
 *
 * A dict is a sequence of (key, value) pairs in insertion order. Floats are not
 * part of the model.
 */
module Json {
  import opened Results

  datatype Value =
    | Null
    | Bool(b: bool)
    | Int(i: int)
    | Str(s: string)
    | Arr(items: seq<Value>)
    | Obj(fields: seq<(string, Value)>)

  type Dict = seq<(string, Value)>

  predicate IsScalar(v: Value) {
    !v.Arr? && !v.Obj?
  }

  /** A value Python can use as a dict key (lists and dicts are unhashable). */
  predicate Hashable(v: Value) {
    IsScalar(v)
  }

  predicate HasKey(d: Dict, k: string) {
    exists i :: 0 <= i < |d| && d[i].0 == k
  }

  /** A Python dict never holds the same key twice. */
  predicate UniqueKeys(d: Dict) {
    forall i, j :: 0 <= i < j < |d| ==> d[i].0 != d[j].0
  }

  /** Python truthiness of a JSON value. */
  predicate Truthy(v: Value) {
    match v
    case Null => false
    case Bool(b) => b
    case Int(i) => i != 0
    case Str(s) => s != []
    case Arr(items) => items != []
    case Obj(fields) => fields != []
  }

  /** The value stored under `k`, if any (the first entry, should there be several). */
  function Lookup(d: Dict, k: string): (r: Option<Value>)
    ensures r.Some? <==> HasKey(d, k)
    ensures r.Some? ==> exists i :: 0 <= i < |d| && d[i] == (k, r.value)
  {
    if |d| == 0 then None
    else if d[0].0 == k then Some(d[0].1)
    else
      var r := Lookup(d[1..], k);
      assert r.Some? ==> exists i :: 0 <= i < |d[1..]| && d[1..][i] == (k, r.value);
      assert r.Some? ==> exists i :: 1 <= i < |d| && d[i] == (k, r.value);
      assert HasKey(d[1..], k) <==> HasKey(d, k) by {
        if HasKey(d, k) {
          var i :| 0 <= i < |d| && d[i].0 == k;
          assert i > 0 && d[1..][i - 1].0 == k;
        }
        if HasKey(d[1..], k) {
          var i :| 0 <= i < |d[1..]| && d[1..][i].0 == k;
          assert d[i + 1].0 == k;
        }
      }
      r
  }

  /** `v[k]` with a string key. */
  function Subscript(v: Value, k: string): (r: Result<Value>)
    ensures r.Success? <==> v.Obj? && HasKey(v.fields, k)
    ensures v.Obj? && !HasKey(v.fields, k) ==> r == Failure(KeyError(k))
    ensures r.Success? ==> Lookup(v.fields, k) == Some(r.value)
  {
    match v
    case Obj(d) => if HasKey(d, k) then Success(Lookup(d, k).value) else Failure(KeyError(k))
    case Str(_) => Failure(TypeError("string indices must be integers"))
    case Arr(_) => Failure(TypeError("list indices must be integers or slices, not str"))
    case _ => Failure(TypeError("object is not subscriptable"))
  }

  /** `d.get(k, default)` on a dict. */
  function Get(d: Dict, k: string, default: Value): (r: Value)
    ensures !HasKey(d, k) ==> r == default
    ensures HasKey(d, k) ==> Some(r) == Lookup(d, k)
  {
    match Lookup(d, k)
    case Some(x) => x
    case None => default
  }

  /** `v.get(k, default)`; only dicts have a `get` method. */
  function DictGet(v: Value, k: string, default: Value): (r: Result<Value>)
    ensures r.Success? <==> v.Obj?
    ensures v.Obj? ==> r == Success(Get(v.fields, k, default))
  {
    match v
    case Obj(d) => Success(Get(d, k, default))
    case _ => Failure(AttributeError("get"))
  }

  /** `p` occurs in `s` at some position. */
  predicate IsSubstring(p: string, s: string)
    decreases |s|
  {
    p <= s || (|s| > 0 && IsSubstring(p, s[1..]))
  }

  /** `k in x` for a string `k`: key membership, list membership or substring. */
  function Contains(x: Value, k: string): (r: Result<bool>)
    ensures r.Success? <==> x.Obj? || x.Arr? || x.Str?
    ensures x.Obj? ==> r == Success(HasKey(x.fields, k))
    ensures x.Arr? ==> r == Success(Str(k) in x.items)
    ensures x.Str? ==> r == Success(IsSubstring(k, x.s))
  {
    match x
    case Obj(d) => Success(HasKey(d, k))
    case Arr(items) => Success(Str(k) in items)
    case Str(s) => Success(IsSubstring(k, s))
    case _ => Failure(TypeError("argument is not iterable"))
  }

  /** `d[k] = v`: an existing key keeps its position and takes the new value; a new key goes last. */
  function Put(d: Dict, k: string, v: Value): (r: Dict)
    ensures HasKey(d, k) ==> |r| == |d|
    ensures !HasKey(d, k) ==> r == d + [(k, v)]
    ensures forall i :: 0 <= i < |d| && d[i].0 != k ==> r[i] == d[i]
    ensures forall i :: 0 <= i < |d| && d[i].0 == k ==> r[i] == (k, v)
  {
    if HasKey(d, k) then seq(|d|, i requires 0 <= i < |d| => if d[i].0 == k then (k, v) else d[i])
    else d + [(k, v)]
  }

  lemma PutKeepsUnique(d: Dict, k: string, v: Value)
    requires UniqueKeys(d)
    ensures UniqueKeys(Put(d, k, v))
    ensures Lookup(Put(d, k, v), k) == Some(v)
  {
    var r := Put(d, k, v);
    if HasKey(d, k) {
      var i :| 0 <= i < |d| && d[i].0 == k;
      LookupUnique(r, i);
    } else {
      LookupUnique(r, |d|);
    }
  }

  /** After `d[k] = v`, `d[k]` is `v`, whatever `d` held before. */
  lemma {:induction false} LookupPut(d: Dict, k: string, v: Value)
    ensures Lookup(Put(d, k, v), k) == Some(v)
  {
    var r := Put(d, k, v);
    if |d| > 0 && d[0].0 != k {
      assert HasKey(d, k) <==> HasKey(d[1..], k) by {
        if HasKey(d, k) {
          var i :| 0 <= i < |d| && d[i].0 == k;
          assert d[1..][i - 1].0 == k;
        }
        if HasKey(d[1..], k) {
          var i :| 0 <= i < |d[1..]| && d[1..][i].0 == k;
          assert d[i + 1].0 == k;
        }
      }
      LookupPut(d[1..], k, v);
      assert r[1..] == Put(d[1..], k, v);
    }
  }

  /** In a dict without repeated keys, `Lookup` finds the value at the key's position. */
  lemma LookupUnique(d: Dict, i: int)
    requires UniqueKeys(d) && 0 <= i < |d|
    ensures Lookup(d, d[i].0) == Some(d[i].1)
  {
    if i > 0 {
      assert d[0].0 != d[i].0;
      assert UniqueKeys(d[1..]) by {
        forall a, b | 0 <= a < b < |d[1..]| ensures d[1..][a].0 != d[1..][b].0 {
          assert d[1..][a] == d[a + 1] && d[1..][b] == d[b + 1];
        }
      }
      LookupUnique(d[1..], i - 1);
    }
  }

  /** `{**a, **b}`: the entries of `b` assigned one by one into a copy of `a`. */
  function Merge(a: Dict, b: Dict): (r: Dict)
    decreases |b|
  {
    if |b| == 0 then a else Merge(Put(a, b[0].0, b[0].1), b[1..])
  }

  /** Iterating over a value with `for x in v`: a list's items, a dict's keys, a string's characters. */
  function Iterate(v: Value): (r: Result<seq<Value>>)
    ensures v.Arr? ==> r == Success(v.items)
    ensures r.Success? <==> v.Arr? || v.Obj? || v.Str?
    ensures r.Failure? ==> r.error.TypeError?
    ensures v.Obj? ==> r.Success? && |r.value| == |v.fields| && forall i :: 0 <= i < |v.fields| ==> r.value[i] == Str(v.fields[i].0)
    ensures v.Str? ==> r.Success? && |r.value| == |v.s| && forall i :: 0 <= i < |v.s| ==> r.value[i] == Str([v.s[i]])
  {
    match v
    case Arr(items) => Success(items)
    case Obj(d) => Success(seq(|d|, i requires 0 <= i < |d| => Str(d[i].0)))
    case Str(s) => Success(seq(|s|, i requires 0 <= i < |s| => Str([s[i]])))
    case _ => Failure(TypeError("object is not iterable"))
  }

  /** Python's `v == b` for a boolean `b` (`True == 1` and `False == 0` hold in Python). */
  predicate EqualsBool(v: Value, b: bool) {
    match v
    case Bool(x) => x == b
    case Int(i) => i == (if b then 1 else 0)
    case _ => false
  }
}
