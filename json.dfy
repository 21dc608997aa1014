/** Parsed JSON/YAML values as the source manipulates them.

    Objects keep their fields in insertion order, as Python dicts do: the
    source iterates over dicts (`d.items()`, `for name in services`) and what
    it does can depend on that order. */
module Json {
  import opened Base

  datatype Json =
    | JNull
    | JBool(b: bool)
    | JInt(i: int)
    | JStr(s: string)
    | JList(items: seq<Json>)
    | JObj(fields: seq<Field>)

  datatype Field = Field(key: string, val: Json)

  /** The keys of a dict. */
  function KeySet(fs: seq<Field>): set<string>
  {
    if fs == [] then {} else {fs[0].key} + KeySet(fs[1..])
  }

  lemma {:induction false} InKeySet(fs: seq<Field>, i: nat)
    requires i < |fs|
    ensures fs[i].key in KeySet(fs)
  {
    if i > 0 { InKeySet(fs[1..], i - 1); }
  }

  predicate UniqueKeys(fs: seq<Field>)
  {
    forall i, j :: 0 <= i < j < |fs| ==> fs[i].key != fs[j].key
  }

  lemma {:induction false} KeyIndex(fs: seq<Field>, k: string) returns (i: nat)
    requires k in KeySet(fs)
    ensures i < |fs| && fs[i].key == k
  {
    if fs[0].key == k { i := 0; }
    else { var j := KeyIndex(fs[1..], k); i := j + 1; }
  }

  lemma UniqueHead(fs: seq<Field>)
    requires fs != []
    ensures UniqueKeys(fs) ==> fs[0].key !in KeySet(fs[1..]) && UniqueKeys(fs[1..])
  {
    if UniqueKeys(fs) && fs[0].key in KeySet(fs[1..]) {
      var i := KeyIndex(fs[1..], fs[0].key);
    }
  }

  lemma UniqueCons(f: Field, fs: seq<Field>)
    ensures UniqueKeys(fs) && f.key !in KeySet(fs) ==> UniqueKeys([f] + fs)
  {
    var c := [f] + fs;
    if UniqueKeys(fs) && f.key !in KeySet(fs) {
      forall i, j | 0 <= i < j < |c| ensures c[i].key != c[j].key {
        if i == 0 { InKeySet(fs, j - 1); }
      }
    }
  }

  /** Every object, at every depth, has distinct keys: true of anything a
      JSON or YAML loader returns as a Python dict. */
  predicate WellFormed(j: Json)
  {
    match j
    case JList(xs) => forall i :: 0 <= i < |xs| ==> WellFormed(xs[i])
    case JObj(fs) => UniqueKeys(fs) && forall i :: 0 <= i < |fs| ==> WellFormed(fs[i].val)
    case _ => true
  }

  /** `d.get(k)` on the fields of a dict. */
  function Get(fs: seq<Field>, k: string): (r: Option<Json>)
    ensures r.Some? <==> k in KeySet(fs)
  {
    if fs == [] then None
    else if fs[0].key == k then Some(fs[0].val)
    else
      Get(fs[1..], k)
  }

  lemma {:induction false} GetOfUnique(fs: seq<Field>, i: nat)
    requires UniqueKeys(fs) && i < |fs|
    ensures Get(fs, fs[i].key) == Some(fs[i].val)
  {
    if i > 0 { GetOfUnique(fs[1..], i - 1); }
  }

  /** `d[k] = v`: replaces the value in place, or appends a new key. */
  function Put(fs: seq<Field>, k: string, v: Json): (r: seq<Field>)
    ensures Get(r, k) == Some(v)
    ensures forall k' :: k' != k ==> Get(r, k') == Get(fs, k')
    ensures KeySet(r) == KeySet(fs) + {k}
    ensures UniqueKeys(fs) ==> UniqueKeys(r)
  {
    if fs == [] then [Field(k, v)]
    else if fs[0].key == k then
      assert ([Field(k, v)] + fs[1..])[1..] == fs[1..];
      UniqueHead(fs);
      UniqueCons(Field(k, v), fs[1..]);
      [Field(k, v)] + fs[1..]
    else
      var rest := Put(fs[1..], k, v);
      assert ([fs[0]] + rest)[1..] == rest;
      UniqueHead(fs);
      UniqueCons(fs[0], rest);
      [fs[0]] + rest
  }

  /** `d.update(e)`: every entry of e in turn, the later one winning. */
  function Update(fs: seq<Field>, gs: seq<Field>): (r: seq<Field>)
    ensures UniqueKeys(gs) ==>
      forall k :: Get(r, k) == if k in KeySet(gs) then Get(gs, k) else Get(fs, k)
    ensures UniqueKeys(fs) ==> UniqueKeys(r)
    decreases |gs|
  {
    if gs == [] then fs
    else
      UniqueHead(gs);
      Update(Put(fs, gs[0].key, gs[0].val), gs[1..])
  }

  /** Python's truth value of a loaded value (`if x:`). */
  predicate Truthy(j: Json)
  {
    match j
    case JNull => false
    case JBool(b) => b
    case JInt(i) => i != 0
    case JStr(s) => s != ""
    case JList(xs) => xs != []
    case JObj(fs) => fs != []
  }

  /** The integer a bool or int stands for in a Python comparison (`True == 1`). */
  function Numeric(j: Json): Option<int>
  {
    match j
    case JBool(b) => Some(if b then 1 else 0)
    case JInt(i) => Some(i)
    case _ => None
  }

  /** Python's `a == b` on loaded values: lists positionally, dicts by key set
      and per-key value whatever the key order, and `True == 1`. */
  predicate PyEq(a: Json, b: Json)
  {
    match a
    case JNull => b.JNull?
    case JBool(_) => Numeric(b).Some? && Numeric(a) == Numeric(b)
    case JInt(_) => Numeric(b).Some? && Numeric(a) == Numeric(b)
    case JStr(s) => b.JStr? && b.s == s
    case JList(xs) =>
      b.JList? && |xs| == |b.items| && forall i :: 0 <= i < |xs| ==> PyEq(xs[i], b.items[i])
    case JObj(fs) =>
      b.JObj? && KeySet(fs) == KeySet(b.fields) &&
      forall i :: 0 <= i < |fs| ==> Get(b.fields, fs[i].key).Some? && PyEq(fs[i].val, Get(b.fields, fs[i].key).value)
  }

  lemma {:induction false} PyEqRefl(j: Json)
    requires WellFormed(j)
    ensures PyEq(j, j)
  {
    match j
    case JList(xs) =>
      forall i | 0 <= i < |xs| ensures PyEq(xs[i], xs[i]) { PyEqRefl(xs[i]); }
    case JObj(fs) =>
      forall i | 0 <= i < |fs|
        ensures Get(fs, fs[i].key).Some? && PyEq(fs[i].val, Get(fs, fs[i].key).value)
      {
        GetOfUnique(fs, i);
        PyEqRefl(fs[i].val);
      }
    case _ =>
  }

  /** `d.get(k)` on a value that must be a dict (AttributeError otherwise). */
  function ObjGet(j: Json, k: string): Result<Option<Json>>
  {
    if j.JObj? then Ok(Get(j.fields, k)) else Err(AttributeError("get"))
  }

  /** `d[k]` on a value that must be a dict holding k. */
  function Index(j: Json, k: string): Result<Json>
  {
    if !j.JObj? then Err(TypeError("subscript"))
    else match Get(j.fields, k)
      case None => Err(KeyError(k))
      case Some(v) => Ok(v)
  }
}
