/** The container-definition canonicaliser and structural equality of
    ecs/classes.py: `adjust_container_definition` drops every attribute that
    holds an empty list and sorts each `environment` list by `name` (a stable
    sort); `compare_container_definitions` and `is_same_container_definition`
    decide whether a rendered task definition equals the one the service runs,
    which is what decides whether a new revision is registered. */
module Canon {
  import opened Base
  import opened Text
  import opened Json

  // ----- the sort key and the stable sort by name -----

  /** `e['name']` when there is one (Python's None otherwise). */
  function NameOf(e: Json): Json
  {
    if e.JObj? then (match Get(e.fields, "name") case Some(v) => v case None => JNull) else JNull
  }

  /** The value the sort orders by. Python compares two strings by code
      points and two numbers (ints and bools, True being 1) by value; names of
      any other kind, or of two different kinds, are never compared by a sort
      that succeeds, so their key is only a placeholder. */
  datatype SortKey = NumberKey(n: int) | TextKey(s: string)

  function Key(e: Json): SortKey
  {
    match NameOf(e)
    case JStr(s) => TextKey(s)
    case JInt(i) => NumberKey(i)
    case JBool(b) => NumberKey(if b then 1 else 0)
    case _ => TextKey("")
  }

  /** Python's `<=` on two keys of the same kind; numbers are put before
      strings only to make the order total. */
  predicate KeyLe(a: SortKey, b: SortKey)
  {
    match (a, b)
    case (NumberKey(x), NumberKey(y)) => x <= y
    case (TextKey(x), TextKey(y)) => StrLe(x, y)
    case (NumberKey(_), TextKey(_)) => true
    case (TextKey(_), NumberKey(_)) => false
  }

  lemma KeyLeRefl(a: SortKey)
    ensures KeyLe(a, a)
  {
    if a.TextKey? { StrLeRefl(a.s); }
  }

  lemma KeyLeTotal(a: SortKey, b: SortKey)
    ensures KeyLe(a, b) || KeyLe(b, a)
  {
    if a.TextKey? && b.TextKey? { StrLeTotal(a.s, b.s); }
  }

  lemma KeyLeTrans(a: SortKey, b: SortKey, c: SortKey)
    requires KeyLe(a, b) && KeyLe(b, c)
    ensures KeyLe(a, c)
  {
    if a.TextKey? && b.TextKey? && c.TextKey? { StrLeTrans(a.s, b.s, c.s); }
  }

  lemma KeyLeAntisym(a: SortKey, b: SortKey)
    requires KeyLe(a, b) && KeyLe(b, a)
    ensures a == b
  {
    if a.TextKey? && b.TextKey? { StrLeAntisym(a.s, b.s); }
  }

  predicate Sorted(s: seq<Json>)
  {
    forall i, j :: 0 <= i < j < |s| ==> KeyLe(Key(s[i]), Key(s[j]))
  }

  /** The entries named n, in their order: a stable sort keeps each of these. */
  function Filter(s: seq<Json>, n: SortKey): seq<Json>
  {
    if s == [] then [] else (if Key(s[0]) == n then [s[0]] else []) + Filter(s[1..], n)
  }

  /** Places x before the first entry whose name is not smaller. */
  function Insert(x: Json, s: seq<Json>): seq<Json>
  {
    if s == [] then [x]
    else if KeyLe(Key(x), Key(s[0])) then [x] + s
    else [s[0]] + Insert(x, s[1..])
  }

  /** `sorted(v, key=lambda e: e['name'])`. */
  function Sort(s: seq<Json>): seq<Json>
  {
    if s == [] then [] else Insert(s[0], Sort(s[1..]))
  }

  lemma {:induction false} InsertMultiset(x: Json, s: seq<Json>)
    ensures multiset(Insert(x, s)) == multiset(s) + multiset{x}
  {
    if s != [] && !KeyLe(Key(x), Key(s[0])) {
      assert s == [s[0]] + s[1..];
      calc {
        multiset(Insert(x, s));
        multiset([s[0]] + Insert(x, s[1..]));
        multiset{s[0]} + multiset(Insert(x, s[1..]));
        { InsertMultiset(x, s[1..]); }
        multiset{s[0]} + multiset(s[1..]) + multiset{x};
        multiset(s) + multiset{x};
      }
    }
  }

  lemma {:induction false} SortMultiset(s: seq<Json>)
    ensures multiset(Sort(s)) == multiset(s)
  {
    if s != [] {
      SortMultiset(s[1..]);
      InsertMultiset(s[0], Sort(s[1..]));
      assert s == [s[0]] + s[1..];
    }
  }

  lemma InsertMember(x: Json, s: seq<Json>, y: Json)
    requires y in Insert(x, s)
    ensures y == x || y in s
  {
    InsertMultiset(x, s);
    assert y in multiset(Insert(x, s));
  }

  lemma SortedCons(h: Json, t: seq<Json>)
    requires Sorted(t)
    requires forall j :: 0 <= j < |t| ==> KeyLe(Key(h), Key(t[j]))
    ensures Sorted([h] + t)
  {
    var r := [h] + t;
    forall i, j | 0 <= i < j < |r| ensures KeyLe(Key(r[i]), Key(r[j])) {
      assert r[j] == t[j - 1];
      if i > 0 { assert r[i] == t[i - 1]; }
    }
  }

  lemma {:induction false} InsertSorted(x: Json, s: seq<Json>)
    requires Sorted(s)
    ensures Sorted(Insert(x, s))
  {
    if s == [] {
    } else if KeyLe(Key(x), Key(s[0])) {
      forall j | 0 <= j < |s| ensures KeyLe(Key(x), Key(s[j])) {
        if j > 0 { KeyLeTrans(Key(x), Key(s[0]), Key(s[j])); }
      }
      SortedCons(x, s);
    } else {
      var t := Insert(x, s[1..]);
      InsertSorted(x, s[1..]);
      KeyLeTotal(Key(x), Key(s[0]));
      forall j | 0 <= j < |t| ensures KeyLe(Key(s[0]), Key(t[j])) {
        InsertMember(x, s[1..], t[j]);
        if t[j] != x {
          var k :| 0 <= k < |s[1..]| && s[1..][k] == t[j];
          assert s[k + 1] == t[j];
        }
      }
      SortedCons(s[0], t);
    }
  }

  lemma {:induction false} SortSorted(s: seq<Json>)
    ensures Sorted(Sort(s))
  {
    if s != [] {
      SortSorted(s[1..]);
      InsertSorted(s[0], Sort(s[1..]));
    }
  }

  lemma SwapHeads(a: seq<Json>, b: seq<Json>, c: seq<Json>)
    requires a == [] || b == []
    ensures a + (b + c) == b + (a + c)
  {
    if a == [] {
      assert b + ([] + c) == b + c;
    } else {
      assert a + ([] + c) == a + c;
    }
  }

  lemma {:induction false} FilterInsert(x: Json, s: seq<Json>, n: SortKey)
    ensures Filter(Insert(x, s), n) == (if Key(x) == n then [x] else []) + Filter(s, n)
  {
    if s == [] {
      assert Filter([x], n) == (if Key(x) == n then [x] else []) + Filter([], n);
    } else if KeyLe(Key(x), Key(s[0])) {
      assert ([x] + s)[1..] == s;
    } else {
      KeyLeRefl(Key(x));
      FilterInsert(x, s[1..], n);
      var hx := if Key(x) == n then [x] else [];
      var h0 := if Key(s[0]) == n then [s[0]] else [];
      var t := Insert(x, s[1..]);
      assert ([s[0]] + t)[1..] == t;
      assert Filter([s[0]] + t, n) == h0 + Filter(t, n);
      SwapHeads(h0, hx, Filter(s[1..], n));
    }
  }

  /** The sort is stable: the entries of each name keep their relative order. */
  lemma {:induction false} FilterSort(s: seq<Json>, n: SortKey)
    ensures Filter(Sort(s), n) == Filter(s, n)
  {
    if s != [] {
      FilterSort(s[1..], n);
      FilterInsert(s[0], Sort(s[1..]), n);
    }
  }

  lemma {:induction false} FilterIndex(s: seq<Json>, n: SortKey) returns (j: nat)
    requires Filter(s, n) != []
    ensures j < |s| && Key(s[j]) == n
  {
    if Key(s[0]) == n { j := 0; }
    else { var k := FilterIndex(s[1..], n); j := k + 1; }
  }

  lemma FilterHead(s: seq<Json>)
    requires s != []
    ensures Filter(s, Key(s[0])) != []
  {
  }

  /** Two name-sorted lists with the same entries name by name start alike. */
  lemma SortedHeads(t: seq<Json>, u: seq<Json>)
    requires Sorted(t) && Sorted(u) && t != [] && u != []
    requires forall n :: Filter(t, n) == Filter(u, n)
    ensures t[0] == u[0]
  {
    FilterHead(t);
    FilterHead(u);
    var k0, k1 := Key(t[0]), Key(u[0]);
    assert Filter(u, k1) != [];
    var j := FilterIndex(t, k1);
    if j > 0 { assert KeyLe(k0, Key(t[j])); } else { KeyLeRefl(k0); }
    assert Filter(t, k0) != [];
    var m := FilterIndex(u, k0);
    if m > 0 { assert KeyLe(k1, Key(u[m])); } else { KeyLeRefl(k1); }
    KeyLeAntisym(k0, k1);
    assert Filter(t, k0)[0] == t[0] && Filter(u, k0)[0] == u[0];
  }

  /** Dropping a common first entry keeps the entries name by name alike. */
  lemma FilterTails(t: seq<Json>, u: seq<Json>, n: SortKey)
    requires t != [] && u != [] && t[0] == u[0]
    requires Filter(t, n) == Filter(u, n)
    ensures Filter(t[1..], n) == Filter(u[1..], n)
  {
    var h := if Key(t[0]) == n then [t[0]] else [];
    assert Filter(t, n) == h + Filter(t[1..], n);
    assert Filter(u, n) == h + Filter(u[1..], n);
    assert (h + Filter(t[1..], n))[|h|..] == Filter(t[1..], n);
    assert (h + Filter(u[1..], n))[|h|..] == Filter(u[1..], n);
  }

  lemma SortedTail(t: seq<Json>)
    requires Sorted(t) && t != []
    ensures Sorted(t[1..])
  {
    forall i, j | 0 <= i < j < |t[1..]| ensures KeyLe(Key(t[1..][i]), Key(t[1..][j])) {
      assert t[1..][i] == t[i + 1] && t[1..][j] == t[j + 1];
    }
  }

  /** Two name-sorted lists holding, name by name, the same entries in the same
      order are equal. */
  lemma {:induction false} SortedUnique(t: seq<Json>, u: seq<Json>)
    requires Sorted(t) && Sorted(u)
    requires forall n :: Filter(t, n) == Filter(u, n)
    ensures t == u
    decreases |t| + |u|
  {
    if t != [] { FilterHead(t); }
    if u != [] { FilterHead(u); }
    if t != [] && u != [] {
      SortedHeads(t, u);
      forall n ensures Filter(t[1..], n) == Filter(u[1..], n) {
        FilterTails(t, u, n);
      }
      SortedTail(t);
      SortedTail(u);
      SortedUnique(t[1..], u[1..]);
      assert t == [t[0]] + t[1..] && u == [u[0]] + u[1..];
    }
  }

  /** The two lists hold, name by name, the same entries in the same order:
      they differ at most in how entries of different names interleave. */
  ghost predicate SameByName(p: seq<Json>, q: seq<Json>)
  {
    forall n :: Filter(p, n) == Filter(q, n)
  }

  lemma {:induction false} SortEqualOfFilters(p: seq<Json>, q: seq<Json>)
    requires SameByName(p, q)
    ensures Sort(p) == Sort(q)
  {
    SortSorted(p);
    SortSorted(q);
    forall n ensures Filter(Sort(p), n) == Filter(Sort(q), n) {
      FilterSort(p, n);
      FilterSort(q, n);
    }
    SortedUnique(Sort(p), Sort(q));
  }

  /** Sorting two environment lists gives the same list exactly when, name by
      name, they hold the same entries in the same order. */
  lemma {:induction false} SortEqualIff(p: seq<Json>, q: seq<Json>)
    ensures Sort(p) == Sort(q) <==> SameByName(p, q)
  {
    if Sort(p) == Sort(q) {
      forall n ensures Filter(p, n) == Filter(q, n) {
        FilterSort(p, n);
        FilterSort(q, n);
      }
    } else if SameByName(p, q) {
      SortEqualOfFilters(p, q);
    }
  }

  /** A list already sorted by name is left as it is. */
  lemma {:induction false} SortOfSorted(s: seq<Json>)
    requires Sorted(s)
    ensures Sort(s) == s
  {
    SortSorted(s);
    forall n ensures Filter(Sort(s), n) == Filter(s, n) { FilterSort(s, n); }
    SortedUnique(Sort(s), s);
  }

  // ----- sorting an environment list, with its failures -----

  predicate HasNames(v: seq<Json>)
  {
    forall i :: 0 <= i < |v| ==> v[i].JObj? && "name" in KeySet(v[i].fields)
  }

  predicate StringNames(v: seq<Json>)
  {
    forall i :: 0 <= i < |v| ==> NameOf(v[i]).JStr?
  }

  /** Every name is an int or a bool, which Python compares with each other. */
  predicate NumericNames(v: seq<Json>)
  {
    forall i :: 0 <= i < |v| ==> NameOf(v[i]).JInt? || NameOf(v[i]).JBool?
  }

  /** The names can be ordered by `<`: fewer than two of them, or all strings,
      or all numbers. */
  predicate ComparableNames(v: seq<Json>)
  {
    |v| < 2 || StringNames(v) || NumericNames(v)
  }

  /** The TypeError of `x['name']` on a value that is not a dict. */
  function SubscriptError(x: Json): Error
  {
    match x
    case JStr(_) => TypeError("string indices must be integers")
    case JList(_) => TypeError("list indices must be integers or slices")
    case _ => TypeError("object is not subscriptable")
  }

  /** Computing every key `e['name']`, left to right, before any comparison. */
  function LookupNames(v: seq<Json>): (r: Outcome)
    ensures r.Pass? <==> HasNames(v)
  {
    if v == [] then Pass
    else if !v[0].JObj? then Fail(SubscriptError(v[0]))
    else if "name" !in KeySet(v[0].fields) then Fail(KeyError("name"))
    else
      var r := LookupNames(v[1..]);
      assert HasNames(v) <==> HasNames(v[1..]) by {
        if HasNames(v[1..]) {
          forall i | 0 <= i < |v| ensures v[i].JObj? && "name" in KeySet(v[i].fields) {
            if i > 0 { assert v[i] == v[1..][i - 1]; }
          }
        }
      }
      r
  }

  /** `sorted(v, key=lambda e: e['name'])` as the source calls it on an
      `environment` list: every entry needs a `name`, and once two entries are
      compared the names must all be strings or all be numbers. */
  function SortEnvironment(v: seq<Json>): (r: Result<seq<Json>>)
    ensures r.Ok? <==> HasNames(v) && ComparableNames(v)
    ensures r.Ok? ==> Sorted(r.value) && multiset(r.value) == multiset(v)
    ensures r.Ok? ==> SameByName(r.value, v)
  {
    var names := LookupNames(v);
    if names.Fail? then Err(names.error)
    else if !ComparableNames(v) then Err(TypeError("'<' not supported"))
    else
      SortSorted(v);
      SortMultiset(v);
      forall n ensures Filter(Sort(v), n) == Filter(v, n) { FilterSort(v, n); }
      Ok(Sort(v))
  }

  // ----- adjust_container_definition -----

  /** The attributes of one container definition after adjustment: an empty
      list is dropped, `environment` is sorted, the rest is kept in order. */
  function AdjustFields(fs: seq<Field>): Result<seq<Field>>
  {
    if fs == [] then Ok([])
    else if fs[0].val == JList([]) then AdjustFields(fs[1..])
    else if fs[0].val.JList? && fs[0].key == "environment" then
      var sorted :- SortEnvironment(fs[0].val.items);
      var rest :- AdjustFields(fs[1..]);
      Ok([Field(fs[0].key, JList(sorted))] + rest)
    else
      var rest :- AdjustFields(fs[1..]);
      Ok([fs[0]] + rest)
  }

  /** Adjusting one dict fails exactly when sorting a non-empty `environment`
      list fails. */
  lemma {:induction false} AdjustFieldsFails(fs: seq<Field>)
    ensures AdjustFields(fs).Err? <==>
      exists i :: 0 <= i < |fs| && fs[i].key == "environment" && fs[i].val.JList? && fs[i].val.items != [] && SortEnvironment(fs[i].val.items).Err?
  {
    if fs != [] {
      AdjustFieldsFails(fs[1..]);
      assert forall i :: 0 < i < |fs| ==> fs[i] == fs[1..][i - 1];
    }
  }

  /** After adjustment no attribute holds an empty list, and the keys are
      among the original ones (still distinct if they were). */
  lemma {:induction false} AdjustFieldsShape(fs: seq<Field>)
    requires AdjustFields(fs).Ok?
    ensures forall i :: 0 <= i < |AdjustFields(fs).value| ==> AdjustFields(fs).value[i].val != JList([])
    ensures KeySet(AdjustFields(fs).value) <= KeySet(fs)
    ensures UniqueKeys(fs) ==> UniqueKeys(AdjustFields(fs).value)
  {
    if fs != [] {
      UniqueHead(fs);
      AdjustFieldsShape(fs[1..]);
      var tail := AdjustFields(fs[1..]).value;
      if fs[0].val != JList([]) {
        var h := if fs[0].val.JList? && fs[0].key == "environment" then Field(fs[0].key, JList(Sort(fs[0].val.items))) else fs[0];
        assert AdjustFields(fs).value == [h] + tail;
        assert h.val != JList([]) by {
          if fs[0].val.JList? && fs[0].key == "environment" {
            SortMultiset(fs[0].val.items);
            PermutedNames(fs[0].val.items, Sort(fs[0].val.items));
          }
        }
        UniqueCons(h, tail);
        assert ([h] + tail)[1..] == tail;
        assert forall i :: 0 < i < |[h] + tail| ==> ([h] + tail)[i] == tail[i - 1];
      }
    }
  }

  /** Every attribute that is not an empty list keeps its value, except
      `environment`, which is sorted by name. */
  lemma {:induction false} AdjustFieldsValues(fs: seq<Field>)
    requires AdjustFields(fs).Ok?
    ensures forall k :: Get(fs, k).Some? && Get(fs, k).value != JList([]) && k != "environment" ==> Get(AdjustFields(fs).value, k) == Get(fs, k)
    ensures forall xs :: Get(fs, "environment") == Some(JList(xs)) && xs != [] ==> Get(AdjustFields(fs).value, "environment") == Some(JList(Sort(xs)))
  {
    if fs != [] {
      AdjustFieldsValues(fs[1..]);
      var tail := AdjustFields(fs[1..]).value;
      if fs[0].val != JList([]) {
        var h := if fs[0].val.JList? && fs[0].key == "environment" then Field(fs[0].key, JList(Sort(fs[0].val.items))) else fs[0];
        assert AdjustFields(fs).value == [h] + tail;
        assert ([h] + tail)[1..] == tail;
      }
    }
  }

  /** An attribute holding an empty list is gone after adjustment. */
  lemma {:induction false} AdjustFieldsDropsEmpty(fs: seq<Field>)
    requires AdjustFields(fs).Ok? && UniqueKeys(fs)
    ensures forall k :: Get(fs, k) == Some(JList([])) ==> Get(AdjustFields(fs).value, k).None?
  {
    if fs != [] {
      UniqueHead(fs);
      AdjustFieldsDropsEmpty(fs[1..]);
      AdjustFieldsShape(fs[1..]);
      var tail := AdjustFields(fs[1..]).value;
      if fs[0].val != JList([]) {
        var h := if fs[0].val.JList? && fs[0].key == "environment" then Field(fs[0].key, JList(Sort(fs[0].val.items))) else fs[0];
        assert AdjustFields(fs).value == [h] + tail;
        assert ([h] + tail)[1..] == tail;
      }
    }
  }

  /** One container definition after adjustment: it must be a dict. */
  function AdjustContainer(d: Json): Result<Json>
  {
    if !d.JObj? then Err(AttributeError("items"))
    else var fs :- AdjustFields(d.fields); Ok(JObj(fs))
  }

  function AdjustAll(ds: seq<Json>): Result<seq<Json>>
  {
    if ds == [] then Ok([])
    else
      var d :- AdjustContainer(ds[0]);
      var rest :- AdjustAll(ds[1..]);
      Ok([d] + rest)
  }

  /** Adjusting the list succeeds exactly when every container adjusts, and
      then keeps the number of containers, each adjusted in its place. */
  lemma {:induction false} AdjustAllMeaning(ds: seq<Json>)
    ensures AdjustAll(ds).Ok? <==> forall i :: 0 <= i < |ds| ==> AdjustContainer(ds[i]).Ok?
    ensures AdjustAll(ds).Ok? ==> |AdjustAll(ds).value| == |ds| && forall i :: 0 <= i < |ds| ==> AdjustAll(ds).value[i] == AdjustContainer(ds[i]).value
  {
    if ds != [] {
      AdjustAllMeaning(ds[1..]);
      assert forall i :: 0 < i < |ds| ==> ds[i] == ds[1..][i - 1];
    }
  }

  /** `adjust_container_definition(definition)`: the container definitions in
      canonical form, or the exception the source raises (the argument is
      iterated, so it must be a list; each member must be a dict). */
  function Adjust(definition: Json): Result<seq<Json>>
  {
    if !definition.JList? then Err(TypeError("object is not iterable")) else AdjustAll(definition.items)
  }

  /** The result of the tail, with the already computed prefix in front. */
  function Prefixed<T>(out: seq<T>, r: Result<seq<T>>): Result<seq<T>>
  {
    match r
    case Ok(t) => Ok(out + t)
    case Err(e) => Err(e)
  }

  /** Taking one more element of a sequence. */
  lemma TakeStep<T>(xs: seq<T>, i: nat)
    requires i < |xs|
    ensures xs[..i + 1] == xs[..i] + [xs[i]]
  {
  }

  /** The head and the tail of a concatenation with a non-empty front. */
  lemma ConsAppend<T>(a: seq<T>, b: seq<T>)
    requires a != []
    ensures (a + b)[0] == a[0] && (a + b)[1..] == a[1..] + b
  {
  }

  /** Regrouping three concatenated sequences. */
  lemma AppendAssoc<T>(a: seq<T>, b: seq<T>, c: seq<T>)
    ensures a + b + c == a + (b + c)
  {
  }

  /** Appending nothing. */
  lemma AppendNothing<T>(a: seq<T>)
    ensures a + [] == a
  {
  }

  lemma TakeAll<T>(xs: seq<T>)
    ensures xs[..|xs|] == xs
  {
  }

  lemma PrefixedEmpty<T>(r: Result<seq<T>>)
    ensures Prefixed([], r) == r
  {
    if r.Ok? { assert [] + r.value == r.value; }
  }

  lemma PrefixedAppend<T>(out: seq<T>, h: seq<T>, r: Result<seq<T>>)
    ensures Prefixed(out, Prefixed(h, r)) == Prefixed(out + h, r)
  {
    if r.Ok? { assert out + (h + r.value) == (out + h) + r.value; }
  }

  /** How adjusting the attributes from position i proceeds by one attribute. */
  lemma AdjustFieldsStep(fs: seq<Field>, i: nat)
    requires i < |fs|
    ensures AdjustFields(fs[i..]) ==
      if fs[i].val == JList([]) then AdjustFields(fs[i + 1..])
      else if fs[i].val.JList? && fs[i].key == "environment" then
        (match SortEnvironment(fs[i].val.items)
         case Err(e) => Err(e)
         case Ok(v) => Prefixed([Field(fs[i].key, JList(v))], AdjustFields(fs[i + 1..])))
      else Prefixed([fs[i]], AdjustFields(fs[i + 1..]))
  {
    assert fs[i..][1..] == fs[i + 1..];
    assert fs[i..][0] == fs[i];
  }

  lemma AdjustAllStep(ds: seq<Json>, i: nat)
    requires i < |ds|
    ensures AdjustAll(ds[i..]) ==
      match AdjustContainer(ds[i])
      case Err(e) => Err(e)
      case Ok(d) => Prefixed([d], AdjustAll(ds[i + 1..]))
  {
    assert ds[i..][1..] == ds[i + 1..];
    assert ds[i..][0] == ds[i];
  }

  /** The attribute loop of `adjust_container_definition` on one dict. */
  method AdjustAttributes(fs: seq<Field>) returns (r: Result<seq<Field>>)
    ensures r == AdjustFields(fs)
  {
    var out: seq<Field> := [];
    var i := 0;
    assert fs[0..] == fs;
    PrefixedEmpty(AdjustFields(fs));
    while i < |fs|
      invariant 0 <= i <= |fs|
      invariant AdjustFields(fs) == Prefixed(out, AdjustFields(fs[i..]))
    {
      var f := fs[i];
      AdjustFieldsStep(fs, i);
      if f.val == JList([]) {
        // left out of the result: the source pops it after the loop
      } else if f.val.JList? && f.key == "environment" {
        var sorted := SortEnvironment(f.val.items);
        if sorted.Err? {
          return Err(sorted.error);
        }
        PrefixedAppend(out, [Field(f.key, JList(sorted.value))], AdjustFields(fs[i + 1..]));
        out := out + [Field(f.key, JList(sorted.value))];
      } else {
        PrefixedAppend(out, [f], AdjustFields(fs[i + 1..]));
        out := out + [f];
      }
      i := i + 1;
    }
    assert fs[i..] == [];
    r := Ok(out);
    assert out + [] == out;
  }

  /** `adjust_container_definition`: the loop over the container definitions. */
  method AdjustContainerDefinitions(definition: Json) returns (r: Result<seq<Json>>)
    ensures r == Adjust(definition)
  {
    if !definition.JList? {
      return Err(TypeError("object is not iterable"));
    }
    var ds := definition.items;
    var out: seq<Json> := [];
    var i := 0;
    assert ds[0..] == ds;
    PrefixedEmpty(AdjustAll(ds));
    while i < |ds|
      invariant 0 <= i <= |ds|
      invariant AdjustAll(ds) == Prefixed(out, AdjustAll(ds[i..]))
    {
      AdjustAllStep(ds, i);
      var d := ds[i];
      if !d.JObj? {
        return Err(AttributeError("items"));
      }
      var fs := AdjustAttributes(d.fields);
      if fs.Err? {
        return Err(fs.error);
      }
      PrefixedAppend(out, [JObj(fs.value)], AdjustAll(ds[i + 1..]));
      out := out + [JObj(fs.value)];
      i := i + 1;
    }
    assert ds[i..] == [];
    r := Ok(out);
    assert out + [] == out;
  }

  // ----- compare_container_definitions and is_same_container_definition -----

  /** `b.get(k)`, Python's None when absent. */
  function GetOrNull(fs: seq<Field>, k: string): Json
  {
    match Get(fs, k) case Some(v) => v case None => JNull
  }

  /** `compare_container_definitions(a, b)`: both must be dicts (their `keys`
      are read); different key sets compare False. */
  function Compare(a: Json, b: Json): Result<bool>
    decreases a, 1, 0
  {
    if !a.JObj? || !b.JObj? then Err(AttributeError("keys"))
    else if KeySet(a.fields) != KeySet(b.fields) then Ok(false)
    else CompareFrom(a, b, 0)
  }

  /** The loop over `a.items()` from position i: dicts recurse, anything else
      is compared with Python's `==`. */
  function CompareFrom(a: Json, b: Json, i: nat): Result<bool>
    requires a.JObj? && b.JObj? && i <= |a.fields|
    decreases a, 0, |a.fields| - i
  {
    if i == |a.fields| then Ok(true)
    else
      var v := a.fields[i].val;
      var w := GetOrNull(b.fields, a.fields[i].key);
      if v.JObj? then
        var same :- Compare(v, w);
        if !same then Ok(false) else CompareFrom(a, b, i + 1)
      else if PyEq(v, w) then CompareFrom(a, b, i + 1)
      else Ok(false)
  }

  /** For a dict a, `compare_container_definitions(a, b)` answers True exactly
      when Python's `a == b` holds. */
  lemma {:induction false} CompareIsPyEq(a: Json, b: Json)
    requires a.JObj?
    ensures Compare(a, b) == Ok(true) <==> PyEq(a, b)
    decreases a, 1, 0
  {
    if b.JObj? && KeySet(a.fields) == KeySet(b.fields) {
      CompareFromIsPyEq(a, b, 0);
      PyEqObjects(a, b);
    }
  }

  lemma {:induction false} CompareFromIsPyEq(a: Json, b: Json, i: nat)
    requires a.JObj? && b.JObj? && i <= |a.fields| && KeySet(a.fields) == KeySet(b.fields)
    ensures CompareFrom(a, b, i) == Ok(true) <==>
      forall j :: i <= j < |a.fields| ==> PyEq(a.fields[j].val, GetOrNull(b.fields, a.fields[j].key))
    decreases a, 0, |a.fields| - i
  {
    if i < |a.fields| {
      var v := a.fields[i].val;
      var w := GetOrNull(b.fields, a.fields[i].key);
      CompareFromIsPyEq(a, b, i + 1);
      if v.JObj? { CompareIsPyEq(v, w); }
    }
  }

  lemma PyEqObjects(a: Json, b: Json)
    requires a.JObj? && b.JObj? && KeySet(a.fields) == KeySet(b.fields)
    ensures PyEq(a, b) <==> forall j :: 0 <= j < |a.fields| ==> PyEq(a.fields[j].val, GetOrNull(b.fields, a.fields[j].key))
  {
    forall j | 0 <= j < |a.fields| ensures Get(b.fields, a.fields[j].key).Some? {
      InKeySet(a.fields, j);
    }
  }

  /** The comparison is reflexive on anything a loader returns. */
  lemma CompareRefl(a: Json)
    requires a.JObj? && WellFormed(a)
    ensures Compare(a, a) == Ok(true)
  {
    PyEqRefl(a);
    CompareIsPyEq(a, a);
  }

  /** `is_same_container_definition(a, b)`: equal length, then every pair. */
  function PairwiseSame(a: seq<Json>, b: seq<Json>): (r: Result<bool>)
    ensures r == Ok(true) <==> |a| == |b| && forall i :: 0 <= i < |a| ==> Compare(a[i], b[i]) == Ok(true)
    ensures |a| != |b| ==> r == Ok(false)
  {
    if |a| != |b| then Ok(false) else SameFrom(a, b, 0)
  }

  function SameFrom(a: seq<Json>, b: seq<Json>, i: nat): (r: Result<bool>)
    requires |a| == |b| && i <= |a|
    ensures r == Ok(true) <==> forall j :: i <= j < |a| ==> Compare(a[j], b[j]) == Ok(true)
    decreases |a| - i
  {
    if i == |a| then Ok(true)
    else
      var same :- Compare(a[i], b[i]);
      if !same then Ok(false) else SameFrom(a, b, i + 1)
  }

  /** The read-only loop of `is_same_container_definition`. */
  method IsSameContainerDefinition(a: seq<Json>, b: seq<Json>) returns (r: Result<bool>)
    ensures r == PairwiseSame(a, b)
  {
    if |a| != |b| {
      return Ok(false);
    }
    var i := 0;
    while i < |a|
      invariant 0 <= i <= |a|
      invariant PairwiseSame(a, b) == SameFrom(a, b, i)
    {
      var same := Compare(a[i], b[i]);
      if same.Err? {
        return Err(same.error);
      }
      if !same.value {
        return Ok(false);
      }
      i := i + 1;
    }
    return Ok(true);
  }

  // ----- properties of the canonical form -----

  lemma PermutedNames(a: seq<Json>, b: seq<Json>)
    requires multiset(a) == multiset(b)
    ensures HasNames(a) == HasNames(b) && ComparableNames(a) == ComparableNames(b) && |a| == |b|
    ensures forall i :: 0 <= i < |b| ==> b[i] in a
  {
    assert |a| == |multiset(a)| == |multiset(b)| == |b|;
    forall i | 0 <= i < |b| ensures b[i] in a { assert b[i] in multiset(b); }
    forall i | 0 <= i < |a| ensures a[i] in b { assert a[i] in multiset(a); }
  }

  /** Integer names are ordered by value, a string and an integer name cannot
      be compared: `[{name: 2}, {name: 1}]` sorts to `[{name: 1}, {name: 2}]`,
      while `[{name: 2}, {name: "a"}]` raises TypeError. */
  lemma NumericNamesSort()
    ensures var two := JObj([Field("name", JInt(2)), Field("value", JStr("a"))]);
            var one := JObj([Field("name", JInt(1)), Field("value", JStr("b"))]);
            var text := JObj([Field("name", JStr("a")), Field("value", JStr("c"))]);
            SortEnvironment([two, one]) == Ok([one, two]) &&
            SortEnvironment([two, text]).Err?
  {
    var two := JObj([Field("name", JInt(2)), Field("value", JStr("a"))]);
    var one := JObj([Field("name", JInt(1)), Field("value", JStr("b"))]);
    var text := JObj([Field("name", JStr("a")), Field("value", JStr("c"))]);
    assert NameOf(two) == JInt(2) && NameOf(one) == JInt(1) && NameOf(text) == JStr("a");
    assert !StringNames([two, text]) && !NumericNames([two, text]) by {
      assert [two, text][0] == two && [two, text][1] == text;
    }
    assert "name" in KeySet(two.fields) && "name" in KeySet(one.fields) && "name" in KeySet(text.fields);
    assert HasNames([two, one]) && NumericNames([two, one]) by {
      assert [two, one][0] == two && [two, one][1] == one;
    }
    assert HasNames([two, text]) by {
      assert [two, text][0] == two && [two, text][1] == text;
    }
    assert Sort([one]) == [one] by { assert [one][1..] == []; }
    assert Sort([two, one]) == Insert(two, [one]) by { assert [two, one][1..] == [one]; }
    assert Insert(two, [one]) == [one, two] by {
      assert !KeyLe(Key(two), Key(one));
      assert [one][1..] == [];
    }
  }

  /** Sorting an environment that sorted once succeeds again and changes nothing. */
  lemma SortEnvironmentIdempotent(v: seq<Json>)
    requires SortEnvironment(v).Ok?
    ensures SortEnvironment(Sort(v)) == Ok(Sort(v))
  {
    SortMultiset(v);
    PermutedNames(v, Sort(v));
    SortSorted(v);
    SortOfSorted(Sort(v));
  }

  lemma {:induction false} AdjustFieldsIdempotent(fs: seq<Field>)
    requires AdjustFields(fs).Ok?
    ensures AdjustFields(AdjustFields(fs).value) == AdjustFields(fs)
  {
    if fs != [] {
      var rest := AdjustFields(fs[1..]);
      AdjustFieldsIdempotent(fs[1..]);
      if fs[0].val == JList([]) {
      } else if fs[0].val.JList? && fs[0].key == "environment" {
        var xs := fs[0].val.items;
        SortEnvironmentIdempotent(xs);
        SortMultiset(xs);
        PermutedNames(xs, Sort(xs));
        var g := [Field(fs[0].key, JList(Sort(xs)))] + rest.value;
        assert g[1..] == rest.value;
        assert g[0].val != JList([]);
      } else {
        var g := [fs[0]] + rest.value;
        assert g[1..] == rest.value;
      }
    }
  }

  lemma {:induction false} AdjustAllIdempotent(ds: seq<Json>)
    requires AdjustAll(ds).Ok?
    ensures AdjustAll(AdjustAll(ds).value) == AdjustAll(ds)
  {
    if ds != [] {
      AdjustFieldsIdempotent(ds[0].fields);
      AdjustAllIdempotent(ds[1..]);
      var g := AdjustAll(ds).value;
      assert g[1..] == AdjustAll(ds[1..]).value;
    }
  }

  /** Adjusting is idempotent: the canonical form is its own canonical form,
      so adjusting a definition a second time (as the source does when it
      compares twice) changes nothing. */
  lemma AdjustIdempotent(definition: Json)
    requires Adjust(definition).Ok?
    ensures Adjust(JList(Adjust(definition).value)) == Adjust(definition)
  {
    AdjustAllIdempotent(definition.items);
  }

  lemma {:induction false} AdjustFieldsWellFormed(fs: seq<Field>)
    requires AdjustFields(fs).Ok?
    requires forall i :: 0 <= i < |fs| ==> WellFormed(fs[i].val)
    ensures forall i :: 0 <= i < |AdjustFields(fs).value| ==> WellFormed(AdjustFields(fs).value[i].val)
  {
    if fs != [] {
      AdjustFieldsWellFormed(fs[1..]);
      var rest := AdjustFields(fs[1..]).value;
      assert WellFormed(fs[0].val);
      if fs[0].val != JList([]) && fs[0].val.JList? && fs[0].key == "environment" {
        var xs := fs[0].val.items;
        SortWellFormed(xs);
        ConsWellFormed(Field(fs[0].key, JList(Sort(xs))), rest);
      } else if fs[0].val != JList([]) {
        ConsWellFormed(fs[0], rest);
      }
    }
  }

  lemma SortWellFormed(xs: seq<Json>)
    requires forall i :: 0 <= i < |xs| ==> WellFormed(xs[i])
    ensures WellFormed(JList(Sort(xs)))
  {
    SortMultiset(xs);
    PermutedNames(xs, Sort(xs));
    forall i | 0 <= i < |Sort(xs)| ensures WellFormed(Sort(xs)[i]) {
      var j :| 0 <= j < |xs| && xs[j] == Sort(xs)[i];
    }
  }

  lemma ConsWellFormed(f: Field, rest: seq<Field>)
    requires WellFormed(f.val) && forall i :: 0 <= i < |rest| ==> WellFormed(rest[i].val)
    ensures forall i :: 0 <= i < |[f] + rest| ==> WellFormed(([f] + rest)[i].val)
  {
    var g := [f] + rest;
    assert forall i :: 0 < i < |g| ==> g[i] == rest[i - 1];
  }

  /** What a loader returns stays well formed after adjustment. */
  lemma AdjustContainerWellFormed(d: Json)
    requires WellFormed(d) && AdjustContainer(d).Ok?
    ensures WellFormed(AdjustContainer(d).value) && AdjustContainer(d).value.JObj?
  {
    AdjustFieldsShape(d.fields);
    AdjustFieldsWellFormed(d.fields);
  }

  /** Two container definitions that differ at most in the order of their
      `environment` entries, entries of one name keeping their order. */
  ghost predicate SameUpToEnvironmentOrder(a: Json, b: Json)
  {
    a.JObj? && b.JObj? && SameFieldsUpToEnvironmentOrder(a.fields, b.fields)
  }

  ghost predicate SameFieldsUpToEnvironmentOrder(fa: seq<Field>, fb: seq<Field>)
  {
    |fa| == |fb| &&
    forall i :: 0 <= i < |fa| ==>
      fa[i].key == fb[i].key &&
      (fa[i].val == fb[i].val ||
       (fa[i].key == "environment" && fa[i].val.JList? && fb[i].val.JList? &&
        SameByName(fa[i].val.items, fb[i].val.items)))
  }

  lemma EnvironmentOrderSort(xa: seq<Json>, xb: seq<Json>)
    requires SameByName(xa, xb)
    ensures SortEnvironment(xa).Ok? <==> SortEnvironment(xb).Ok?
    ensures Sort(xa) == Sort(xb)
    ensures xa == [] <==> xb == []
  {
    SortEqualIff(xa, xb);
    SortMultiset(xa);
    SortMultiset(xb);
    PermutedNames(xa, xb);
  }

  lemma {:induction false} EnvironmentOrderFields(fa: seq<Field>, fb: seq<Field>)
    requires SameFieldsUpToEnvironmentOrder(fa, fb)
    ensures AdjustFields(fa).Ok? <==> AdjustFields(fb).Ok?
    ensures AdjustFields(fa).Ok? ==> AdjustFields(fa) == AdjustFields(fb)
  {
    if fa != [] {
      assert fa[0].key == fb[0].key;
      assert SameFieldsUpToEnvironmentOrder(fa[1..], fb[1..]) by {
        forall i | 0 <= i < |fa[1..]| ensures fa[1..][i] == fa[i + 1] && fb[1..][i] == fb[i + 1] { }
      }
      EnvironmentOrderFields(fa[1..], fb[1..]);
      if fa[0].val != fb[0].val {
        EnvironmentOrderSort(fa[0].val.items, fb[0].val.items);
      }
    }
  }

  /** The property the canonicaliser exists for: after adjustment, two lists
      of container definitions that differ only in the order of `environment`
      entries (entries of one name keeping their relative order) are the
      same definition; either both adjust or neither. */
  lemma {:induction false} EnvironmentOrderIsIgnored(a: seq<Json>, b: seq<Json>)
    requires |a| == |b|
    requires forall i :: 0 <= i < |a| ==> SameUpToEnvironmentOrder(a[i], b[i]) && WellFormed(a[i])
    ensures AdjustAll(a).Ok? <==> AdjustAll(b).Ok?
    ensures AdjustAll(a).Ok? ==> PairwiseSame(AdjustAll(a).value, AdjustAll(b).value) == Ok(true)
  {
    AdjustAllMeaning(a);
    AdjustAllMeaning(b);
    forall i | 0 <= i < |a|
      ensures AdjustContainer(a[i]).Ok? <==> AdjustContainer(b[i]).Ok?
      ensures AdjustContainer(a[i]).Ok? ==> AdjustContainer(a[i]) == AdjustContainer(b[i])
    {
      EnvironmentOrderFields(a[i].fields, b[i].fields);
    }
    if AdjustAll(a).Ok? {
      var ra, rb := AdjustAll(a).value, AdjustAll(b).value;
      forall i | 0 <= i < |ra| ensures Compare(ra[i], rb[i]) == Ok(true) {
        AdjustContainerWellFormed(a[i]);
        CompareRefl(ra[i]);
      }
    }
  }
}
