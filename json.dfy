/** JSON-shaped Python values (the dicts, lists and scalars the services pass around).
    An object keeps its bindings in insertion order, as a Python dict does; reading a key
    takes its last binding, which is what `json.loads` keeps for a duplicated key.
    Floating-point numbers are not part of this model. */
module JsonValues {
  import opened Wrappers
  import opened Text

  datatype Json =
    | JNull
    | JBool(b: bool)
    | JInt(i: int)
    | JStr(s: string)
    | JList(items: seq<Json>)
    | JObj(fields: seq<(string, Json)>)

  type Fields = seq<(string, Json)>

  /** Position of the binding that `d[k]` reads, or -1 when `k` is absent. */
  function LastIndex(fs: Fields, k: string): (i: int)
    ensures -1 <= i < |fs|
    ensures i >= 0 ==> fs[i].0 == k
  {
    if fs == [] then -1
    else if fs[|fs| - 1].0 == k then |fs| - 1
    else LastIndex(fs[..|fs| - 1], k)
  }

  function Lookup(fs: Fields, k: string): Option<Json> {
    var i := LastIndex(fs, k);
    if i < 0 then None else Some(fs[i].1)
  }

  /** `d.get(k)` for a dict; any other value has no keys. */
  function Get(j: Json, k: string): Option<Json> {
    if j.JObj? then Lookup(j.fields, k) else None
  }

  /** `k in d` for a dict `d`. */
  predicate HasKey(j: Json, k: string) {
    Get(j, k).Some?
  }

  /** `d.get(k, default)` */
  function GetOr(j: Json, k: string, default: Json): Json {
    Get(j, k).GetOr(default)
  }

  /** `d[k] = v`: every binding of `k` takes the new value, or a binding is appended. */
  function Put(fs: Fields, k: string, v: Json): (r: Fields)
    ensures Lookup(r, k) == Some(v)
    ensures forall k2 {:trigger Lookup(r, k2)} :: k2 != k ==> Lookup(r, k2) == Lookup(fs, k2)
    decreases |fs|
  {
    if LastIndex(fs, k) < 0 then
      AppendBinding(fs, (k, v));
      fs + [(k, v)]
    else
      var init := fs[..|fs| - 1];
      var last := fs[|fs| - 1];
      assert fs == init + [last];
      AppendBinding(init, last);
      if last.0 == k then
        var r := Replace(init, k, v);
        SameKeysSameIndex(init, r, k);
        forall k2 ensures Lookup(r, k2) == Lookup(init, k2) || k2 == k {
          SameKeysSameIndex(init, r, k2);
        }
        AppendBinding(r, (k, v));
        r + [(k, v)]
      else
        var r := Put(init, k, v);
        AppendBinding(r, last);
        r + [last]
  }

  function Replace(fs: Fields, k: string, v: Json): (r: Fields)
    ensures |r| == |fs|
    ensures forall i :: 0 <= i < |fs| ==> r[i] == if fs[i].0 == k then (k, v) else fs[i]
  {
    seq(|fs|, i requires 0 <= i < |fs| => if fs[i].0 == k then (k, v) else fs[i])
  }

  /** Appending a binding makes it the one its key reads and leaves every other key alone. */
  lemma AppendBinding(fs: Fields, p: (string, Json))
    ensures Lookup(fs + [p], p.0) == Some(p.1)
    ensures forall k2 {:trigger Lookup(fs + [p], k2)} :: k2 != p.0 ==> Lookup(fs + [p], k2) == Lookup(fs, k2)
  {
    var r := fs + [p];
    assert r[..|r| - 1] == fs;
  }

  /** A binding that no later binding shadows is the one its key reads. */
  lemma {:induction false} LookupAt(fs: Fields, i: int)
    requires 0 <= i < |fs|
    requires forall j :: i < j < |fs| ==> fs[j].0 != fs[i].0
    ensures Lookup(fs, fs[i].0) == Some(fs[i].1)
  {
    if i < |fs| - 1 {
      LookupAt(fs[..|fs| - 1], i);
    }
  }

  /** A key no binding has is absent. */
  lemma {:induction false} LookupAbsent(fs: Fields, k: string)
    requires forall j :: 0 <= j < |fs| ==> fs[j].0 != k
    ensures Lookup(fs, k) == None
  {
    if fs != [] {
      LookupAbsent(fs[..|fs| - 1], k);
    }
  }

  lemma SameKeysSameIndex(a: Fields, b: Fields, k: string)
    requires |a| == |b| && forall i :: 0 <= i < |a| ==> a[i].0 == b[i].0
    ensures LastIndex(a, k) == LastIndex(b, k)
  {
    if a != [] && a[|a| - 1].0 != k {
      SameKeysSameIndex(a[..|a| - 1], b[..|b| - 1], k);
    }
  }

  /** `d.pop(k, None)`: every binding of `k` removed. */
  function Without(fs: Fields, k: string): (r: Fields)
    ensures Lookup(r, k) == None
    ensures forall k2 {:trigger Lookup(r, k2)} :: k2 != k ==> Lookup(r, k2) == Lookup(fs, k2)
  {
    if fs == [] then []
    else
      var init := fs[..|fs| - 1];
      var last := fs[|fs| - 1];
      assert fs == init + [last];
      AppendBinding(init, last);
      var rest := Without(init, k);
      if last.0 == k then rest
      else
        AppendBinding(rest, last);
        rest + [last]
  }

  /** `a.update(b)`: every binding of `b`, in order, over `a`. */
  function Update(a: Fields, b: Fields): (r: Fields)
    ensures forall k {:trigger Lookup(r, k)} :: Lookup(r, k) == if Lookup(b, k).Some? then Lookup(b, k) else Lookup(a, k)
  {
    if b == [] then a
    else
      var init := b[..|b| - 1];
      var last := b[|b| - 1];
      assert b == init + [last];
      AppendBinding(init, last);
      Put(Update(a, init), last.0, last.1)
  }

  /** The list items of a value, and none for anything else. */
  function ItemsOf(j: Json): seq<Json> {
    if j.JList? then j.items else []
  }

  /** Python truthiness of a value. */
  predicate Truthy(j: Json) {
    match j
    case JNull => false
    case JBool(b) => b
    case JInt(i) => i != 0
    case JStr(s) => s != []
    case JList(items) => items != []
    case JObj(fields) => fields != []
  }

  /** `x or default` */
  function OrElse(j: Json, default: Json): Json {
    if Truthy(j) then j else default
  }

  /** The bindings of a dict value, and none for anything else (`x or {}` read as a dict). */
  function FieldsOf(j: Json): Fields {
    if j.JObj? then j.fields else []
  }

  /** Python's `int(x)` on a decoded JSON value; `None` is the TypeError or ValueError. */
  function CoerceInt(j: Json): (r: Option<int>)
    ensures j.JInt? ==> r == Some(j.i)
  {
    match j
    case JInt(i) => Some(i)
    case JBool(b) => Some(if b then 1 else 0)
    case JStr(s) => ParseInt(s)
    case _ => None
  }

  /** The exception Python's `float(x)` raises on a decoded JSON value, if any: text that is
      not a decimal number is the ValueError, None, a list or a dict the TypeError. */
  function FloatError(j: Json): (e: Option<string>)
    ensures j.JInt? || j.JBool? ==> e.None?
    ensures j.JNull? || j.JList? || j.JObj? ==> e == Some("TypeError")
  {
    match j
    case JInt(_) => None
    case JBool(_) => None
    case JStr(s) => if FloatText(Strip(s)) then None else Some("ValueError")
    case _ => Some("TypeError")
  }

  /** Python's `str(x)` on a scalar. Lists and dicts render to a text that starts with
      their opening bracket; their contents are not rendered. */
  function PyStr(j: Json): (s: string)
    ensures j.JList? ==> s != [] && s[0] == '['
    ensures j.JObj? ==> s != [] && s[0] == '{'
    ensures j.JStr? ==> s == j.s
  {
    match j
    case JNull => "None"
    case JBool(b) => if b then "True" else "False"
    case JInt(i) => IntToString(i)
    case JStr(s) => s
    case JList(_) => "[...]"
    case JObj(_) => "{...}"
  }

  /** The strings of a list value, ignoring its other elements. */
  function StrItems(items: seq<Json>): (r: seq<string>)
    ensures forall s :: s in r ==> JStr(s) in items
  {
    if items == [] then []
    else (if items[0].JStr? then [items[0].s] else []) + StrItems(items[1..])
  }

  /** A JSON object handed over by reference and updated in place. */
  class Doc {
    var value: Json

    constructor (v: Json)
      ensures value == v
    {
      value := v;
    }
  }
}
