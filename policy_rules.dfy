/** The policy rules shared by `HDT_MCP/policy/engine.py` and `HDT_MCP/policy_engine.py`:
    merging a rule over another, resolving the rule for a purpose, tool and client
    (defaults < client < tool), and redacting dotted paths in a document, fanning out over
    lists. The in-place redaction of the source is modelled on values: the functions return
    the redacted document with the count. */
module PolicyRules {
  import opened Wrappers
  import opened Text
  import opened JsonValues

  // ---------------------------------------------------------------- rules

  /** `d.setdefault(k, v)` */
  function SetDefault(fs: Fields, k: string, v: Json): (r: Fields)
    ensures Lookup(r, k) == if Lookup(fs, k).Some? then Lookup(fs, k) else Some(v)
    ensures forall k2 {:trigger Lookup(r, k2)} :: k2 != k ==> Lookup(r, k2) == Lookup(fs, k2)
  {
    if Lookup(fs, k).Some? then fs
    else
      AppendBinding(fs, (k, v));
      fs + [(k, v)]
  }

  /** What a rule reads for a key it does not set: allowed, with nothing to redact. */
  function BuiltIn(k: string): Option<Json> {
    if k == "allow" then Some(JBool(true)) else if k == "redact" then Some(JList([])) else None
  }

  /** `setdefault("allow", True)` then `setdefault("redact", [])`: the built-in keys fill in
      what the bindings leave unset. */
  function WithBuiltIns(fs: Fields): (r: Fields)
    ensures forall k {:trigger Lookup(r, k)} ::
      Lookup(r, k) == if Lookup(fs, k).Some? then Lookup(fs, k) else BuiltIn(k)
  {
    SetDefault(SetDefault(fs, "allow", JBool(true)), "redact", JList([]))
  }

  /** What one element of a list given to `dict.update` contributes: None when it is not a
      pair (`update` raises), Some(None) for a pair whose key is not a string, otherwise the
      binding. A pair is a two-element list whose first element is hashable, or a
      two-character text, read as its two characters. */
  function PairOf(e: Json): Option<Option<(string, Json)>> {
    match e
    case JList(xs) =>
      if |xs| != 2 then None
      else (match xs[0]
            case JStr(k) => Some(Some((k, xs[1])))
            case JList(_) => None
            case JObj(_) => None
            case _ => Some(None))
    case JStr(t) => if |t| == 2 then Some(Some(([t[0]], JStr([t[1]])))) else None
    case _ => None
  }

  /** The bindings of a list of pairs, in order, or None when some element is not a pair. */
  function PairsOf(items: seq<Json>): (r: Option<Fields>)
    ensures r.Some? <==> forall i :: 0 <= i < |items| ==> PairOf(items[i]).Some?
    decreases |items|
  {
    if items == [] then Some([])
    else
      var init := PairsOf(items[..|items| - 1]);
      var last := PairOf(items[|items| - 1]);
      if init.None? || last.None? then None
      else if last.value.None? then init
      else Some(init.value + [last.value.value])
  }

  /** The last string-keyed pair of the list is what its key reads after the update. */
  lemma LastPairWins(items: seq<Json>, k: string, v: Json)
    requires items != [] && PairsOf(items).Some?
    requires PairOf(items[|items| - 1]) == Some(Some((k, v)))
    ensures Lookup(PairsOf(items).value, k) == Some(v)
  {
    AppendBinding(PairsOf(items[..|items| - 1]).value, (k, v));
  }

  /** The bindings an override contributes: a true dict contributes its own, a false
      value none, and a true list its pairs. */
  function OverrideOf(o: Json): Option<Fields> {
    if !Truthy(o) then Some([])
    else
      match o
      case JObj(fs) => Some(fs)
      case JList(items) => PairsOf(items)
      case _ => None
  }

  /** `_merge_rule(base, override)` / `merge_rule`: the override's keys win, then the
      base's; "allow" and "redact" are always there. `dict.update` raises on a true value
      that is neither a dict nor a list of pairs. */
  function MergeRule(base: Fields, override: Json): (r: Result<Fields, string>)
    ensures r.Success? <==> OverrideOf(override).Some?
    ensures r.Success? ==> forall k {:trigger Lookup(r.value, k)} ::
      Lookup(r.value, k) ==
        if Lookup(OverrideOf(override).value, k).Some? then Lookup(OverrideOf(override).value, k)
        else if Lookup(base, k).Some? then Lookup(base, k)
        else BuiltIn(k)
    ensures r.Success? ==> Lookup(r.value, "allow").Some? && Lookup(r.value, "redact").Some?
  {
    match OverrideOf(override)
    case None => Failure("dictionary update raised")
    case Some(o) => Success(WithBuiltIns(Update(base, o)))
  }

  /** `d.get(k, default)`, which raises on anything but a dict. */
  function DictGet(d: Json, k: string, default: Json): Result<Json, string> {
    if d.JObj? then Success(GetOr(d, k, default)) else Failure("AttributeError: object has no attribute 'get'")
  }

  /** `(pol.get("defaults", {}) or {}).get(purpose)` */
  function DefaultsLayer(pol: Json, purpose: string): Result<Json, string> {
    match DictGet(pol, "defaults", JObj([]))
    case Failure(m) => Failure(m)
    case Success(sec) => DictGet(OrElse(sec, JObj([])), purpose, JNull)
  }

  /** `((pol.get(section, {}) or {}).get(name, {}) or {}).get(purpose)`; the older
      `HDT_MCP/policy_engine.py` leaves out the inner `or {}` (`lenient` false), so an entry
      set to None raises there. */
  function NamedLayer(pol: Json, section: string, name: string, purpose: string, lenient: bool): Result<Json, string> {
    match DictGet(pol, section, JObj([]))
    case Failure(m) => Failure(m)
    case Success(sec) =>
      match DictGet(OrElse(sec, JObj([])), name, JObj([]))
      case Failure(m) => Failure(m)
      case Success(entry) => DictGet(if lenient then OrElse(entry, JObj([])) else entry, purpose, JNull)
  }

  /** The three layers a request reads, least precedent first. */
  datatype Layers = Layers(defaults: Json, client: Option<Json>, tool: Option<Json>)

  /** The layers of `_resolve_rule` (the tool layer is always read) or of `evaluate`
      (only when a tool is named), or the exception reading them raises. */
  function LayersOf(pol: Json, purpose: string, tool: Option<string>, clientId: Option<string>, lenient: bool): Result<Layers, string> {
    match DefaultsLayer(pol, purpose)
    case Failure(m) => Failure(m)
    case Success(d) =>
      var c := if clientId.Some? && clientId.value != [] then Some(NamedLayer(pol, "clients", clientId.value, purpose, lenient)) else None;
      if c.Some? && c.value.Failure? then Failure(c.value.error)
      else
        var t := if tool.Some? then Some(NamedLayer(pol, "tools", tool.value, purpose, lenient)) else None;
        if t.Some? && t.value.Failure? then Failure(t.value.error)
        else Success(Layers(d, if c.Some? then Some(c.value.value) else None, if t.Some? then Some(t.value.value) else None))
  }

  /** Merging the layers in order. */
  function MergeLayers(l: Layers): Result<Fields, string> {
    match MergeRule([], l.defaults)
    case Failure(m) => Failure(m)
    case Success(r1) =>
      var r2 := if l.client.Some? then MergeRule(r1, l.client.value) else Success(r1);
      match r2
      case Failure(m) => Failure(m)
      case Success(r2v) => if l.tool.Some? then MergeRule(r2v, l.tool.value) else Success(r2v)
  }

  /** `_resolve_rule` of `HDT_MCP/policy/engine.py` (`engine`: the policy is read as given
      and a client entry set to None counts as {}) and `resolve_rule` of
      `HDT_MCP/policy_engine.py` (a false policy counts as {}, a None client entry raises). */
  function ResolveRule(pol: Json, purpose: string, tool: string, clientId: Option<string>, engine: bool): Result<Fields, string> {
    match LayersOf(if engine then pol else OrElse(pol, JObj([])), purpose, Some(tool), clientId, engine)
    case Failure(m) => Failure(m)
    case Success(l) => MergeLayers(l)
  }

  /** What one layer says about a key, if anything. */
  function Says(o: Option<Json>, k: string): Option<Json> {
    if o.Some? && OverrideOf(o.value).Some? then Lookup(OverrideOf(o.value).value, k) else None
  }

  /** Precedence: a key takes the tool layer's value, else the client layer's, else the
      defaults', else the built-in one; merging fails exactly when `dict.update` refuses a
      layer. */
  lemma MergeLayersPrecedence(l: Layers)
    ensures MergeLayers(l).Success? <==>
      OverrideOf(l.defaults).Some? && (l.client.Some? ==> OverrideOf(l.client.value).Some?) &&
      (l.tool.Some? ==> OverrideOf(l.tool.value).Some?)
    ensures MergeLayers(l).Success? ==> forall k {:trigger Lookup(MergeLayers(l).value, k)} ::
      Lookup(MergeLayers(l).value, k) ==
        if Says(l.tool, k).Some? then Says(l.tool, k)
        else if Says(l.client, k).Some? then Says(l.client, k)
        else if Says(Some(l.defaults), k).Some? then Says(Some(l.defaults), k)
        else BuiltIn(k)
  {
    if MergeLayers(l).Success? {
      var r1 := MergeRule([], l.defaults).value;
      var r2 := if l.client.Some? then MergeRule(r1, l.client.value).value else r1;
      forall k ensures Lookup(r1, k) == if Says(Some(l.defaults), k).Some? then Says(Some(l.defaults), k) else BuiltIn(k) {
        assert Lookup([], k) == None;
      }
    }
  }

  /** A client layer is read only for a non-empty client id. */
  lemma ClientOnlyWhenGiven(pol: Json, purpose: string, tool: Option<string>, clientId: Option<string>, lenient: bool)
    requires clientId.None? || clientId == Some([])
    requires LayersOf(pol, purpose, tool, clientId, lenient).Success?
    ensures LayersOf(pol, purpose, tool, clientId, lenient).value.client.None?
  {
  }

  // ---------------------------------------------------------------- redaction

  /** `_redact_path(node, parts)`: a list fans the same path out to each element and adds
      up their counts; a dict holding the next key either has that key set to the token
      (at the end of the path, counting 1) or is searched further below it; anything else,
      or a missing key, counts 0 and is left alone. */
  function RedactPath(node: Json, parts: seq<string>, token: string): (r: (Json, nat))
    decreases node, 1
  {
    if parts == [] then (node, 0)
    else
      match node
      case JList(items) =>
        var rs := RedactItems(items, parts, token);
        (JList(rs.0), rs.1)
      case JObj(fs) =>
        var i := LastIndex(fs, parts[0]);
        if i < 0 then (node, 0)
        else if |parts| == 1 then (JObj(Replace(fs, parts[0], JStr(token))), 1)
        else
          var c := RedactPath(fs[i].1, parts[1..], token);
          (JObj(Replace(fs, parts[0], c.0)), c.1)
      case _ => (node, 0)
  }

  function RedactItems(items: seq<Json>, parts: seq<string>, token: string): (r: (seq<Json>, nat))
    requires parts != []
    ensures |r.0| == |items|
    decreases items, 0
  {
    if items == [] then ([], 0)
    else
      var h := RedactPath(items[0], parts, token);
      var t := RedactItems(items[1..], parts, token);
      ([h.0] + t.0, h.1 + t.1)
  }

  /** `node` is already redacted along `parts`: redacting it again changes nothing. */
  predicate Fixed(node: Json, parts: seq<string>, token: string) {
    RedactPath(node, parts, token).0 == node
  }

  predicate ItemsFixed(items: seq<Json>, parts: seq<string>, token: string)
    requires parts != []
  {
    RedactItems(items, parts, token).0 == items
  }

  /** Every binding of `k` holds `v`. */
  predicate AllBound(fs: Fields, k: string, v: Json) {
    forall m :: 0 <= m < |fs| && fs[m].0 == k ==> fs[m].1 == v
  }

  lemma ReplaceFacts(fs: Fields, k: string, v: Json)
    ensures AllBound(Replace(fs, k, v), k, v)
    ensures forall b, w :: b != k && AllBound(fs, b, w) ==> AllBound(Replace(fs, k, v), b, w)
    ensures forall b :: LastIndex(Replace(fs, k, v), b) == LastIndex(fs, b)
    ensures Replace(fs, k, v) == fs <==> AllBound(fs, k, v)
  {
    forall b ensures LastIndex(Replace(fs, k, v), b) == LastIndex(fs, b) {
      SameKeysSameIndex(fs, Replace(fs, k, v), b);
    }
    if AllBound(fs, k, v) {
      assert forall m :: 0 <= m < |fs| ==> Replace(fs, k, v)[m] == fs[m];
    }
  }

  /** Redacting a path twice is redacting it once. */
  lemma {:induction false} RedactIdempotent(node: Json, parts: seq<string>, token: string)
    ensures Fixed(RedactPath(node, parts, token).0, parts, token)
    decreases node, 1
  {
    if parts != [] {
      match node
      case JList(items) => RedactItemsIdempotent(items, parts, token);
      case JObj(fs) =>
        var k := parts[0];
        var i := LastIndex(fs, k);
        if i >= 0 {
          var v := if |parts| == 1 then JStr(token) else RedactPath(fs[i].1, parts[1..], token).0;
          var fs1 := Replace(fs, k, v);
          assert RedactPath(node, parts, token).0 == JObj(fs1);
          ReplaceFacts(fs, k, v);
          assert LastIndex(fs1, k) == i && fs1[i] == (k, v);
          if |parts| > 1 {
            RedactIdempotent(fs[i].1, parts[1..], token);
          }
          ReplaceFacts(fs1, k, v);
        }
      case _ =>
    }
  }

  lemma {:induction false} RedactItemsIdempotent(items: seq<Json>, parts: seq<string>, token: string)
    requires parts != []
    ensures ItemsFixed(RedactItems(items, parts, token).0, parts, token)
    decreases items, 0
  {
    if items != [] {
      var h := RedactPath(items[0], parts, token).0;
      var t := RedactItems(items[1..], parts, token).0;
      RedactIdempotent(items[0], parts, token);
      RedactItemsIdempotent(items[1..], parts, token);
      var r := [h] + t;
      assert r[0] == h && r[1..] == t;
    }
  }

  /** Redacting one path leaves any path already redacted redacted: the token is a string,
      so nothing below it is found again. */
  lemma {:induction false} RedactKeepsFixed(node: Json, parts: seq<string>, q: seq<string>, token: string)
    requires Fixed(node, q, token)
    ensures Fixed(RedactPath(node, parts, token).0, q, token)
    decreases node, 1
  {
    if parts != [] && q != [] {
      match node
      case JList(items) => RedactItemsKeepsFixed(items, parts, q, token);
      case JObj(fs) =>
        var k := parts[0];
        var i := LastIndex(fs, k);
        if i >= 0 {
          var v := if |parts| == 1 then JStr(token) else RedactPath(fs[i].1, parts[1..], token).0;
          var fs1 := Replace(fs, k, v);
          assert RedactPath(node, parts, token).0 == JObj(fs1);
          ReplaceFacts(fs, k, v);
          var b := q[0];
          var j := LastIndex(fs, b);
          if j >= 0 {
            if |q| == 1 {
              ReplaceFacts(fs, b, JStr(token));
              assert AllBound(fs1, b, JStr(token));
              ReplaceFacts(fs1, b, JStr(token));
            } else {
              var d := RedactPath(fs[j].1, q[1..], token).0;
              ReplaceFacts(fs, b, d);
              assert fs[j].1 == d;
              var d1 := RedactPath(fs1[j].1, q[1..], token).0;
              if b == k {
                if |parts| > 1 {
                  RedactKeepsFixed(fs[i].1, parts[1..], q[1..], token);
                }
                assert d1 == v;
              } else {
                assert fs1[j] == fs[j];
              }
              assert AllBound(fs1, b, d1);
              ReplaceFacts(fs1, b, d1);
            }
          }
        }
      case _ =>
    }
  }

  lemma {:induction false} RedactItemsKeepsFixed(items: seq<Json>, parts: seq<string>, q: seq<string>, token: string)
    requires parts != [] && q != []
    requires ItemsFixed(items, q, token)
    ensures ItemsFixed(RedactItems(items, parts, token).0, q, token)
    decreases items, 0
  {
    if items != [] {
      var rq := [RedactPath(items[0], q, token).0] + RedactItems(items[1..], q, token).0;
      assert rq[0] == items[0] && rq[1..] == items[1..];
      RedactKeepsFixed(items[0], parts, q, token);
      RedactItemsKeepsFixed(items[1..], parts, q, token);
      var r := [RedactPath(items[0], parts, token).0] + RedactItems(items[1..], parts, token).0;
      assert r[0] == RedactPath(items[0], parts, token).0 && r[1..] == RedactItems(items[1..], parts, token).0;
    }
  }

  /** The path's last key, present in a dict, now reads the token, counted once. */
  lemma RedactLastKey(fs: Fields, k: string, token: string)
    requires LastIndex(fs, k) >= 0
    ensures RedactPath(JObj(fs), [k], token).1 == 1
    ensures Get(RedactPath(JObj(fs), [k], token).0, k) == Some(JStr(token))
  {
    ReplaceFacts(fs, k, JStr(token));
  }

  /** Keys other than the path's first are left as they were. */
  lemma RedactOtherKeys(fs: Fields, parts: seq<string>, b: string, token: string)
    requires parts != [] && b != parts[0]
    ensures Get(RedactPath(JObj(fs), parts, token).0, b) == Lookup(fs, b)
  {
    var i := LastIndex(fs, parts[0]);
    if i >= 0 {
      var v := if |parts| == 1 then JStr(token) else RedactPath(fs[i].1, parts[1..], token).0;
      ReplaceFacts(fs, parts[0], v);
      var j := LastIndex(fs, b);
      if j >= 0 {
        assert Replace(fs, parts[0], v)[j] == fs[j];
      }
    }
  }

  lemma {:induction false} RedactItemsPointwise(items: seq<Json>, parts: seq<string>, token: string)
    requires parts != []
    ensures forall i :: 0 <= i < |items| ==> RedactItems(items, parts, token).0[i] == RedactPath(items[i], parts, token).0
    decreases |items|
  {
    if items != [] {
      RedactItemsPointwise(items[1..], parts, token);
      assert forall i :: 1 <= i < |items| ==> items[i] == items[1..][i - 1];
    }
  }

  /** A one-key path reaching a list of dicts that all hold the key redacts it in every
      element and counts one per element. */
  lemma {:induction false} RedactFansOut(items: seq<Json>, k: string, token: string)
    requires forall i :: 0 <= i < |items| ==> items[i].JObj? && LastIndex(items[i].fields, k) >= 0
    ensures RedactPath(JList(items), [k], token).1 == |items|
    ensures forall i :: 0 <= i < |items| ==>
      Get(RedactPath(JList(items), [k], token).0.items[i], k) == Some(JStr(token))
    decreases |items|
  {
    if items != [] {
      RedactLastKey(items[0].fields, k, token);
      RedactFansOut(items[1..], k, token);
      RedactItemsPointwise(items, [k], token);
      forall i | 0 <= i < |items|
        ensures Get(RedactItems(items, [k], token).0[i], k) == Some(JStr(token))
      {
        RedactLastKey(items[i].fields, k, token);
      }
    }
  }

  /** `_redact_inplace` / `redact_inplace` over split paths, in order, adding up the counts. */
  function RedactAll(doc: Json, paths: seq<seq<string>>, token: string): (r: (Json, nat))
    decreases |paths|
  {
    if paths == [] then (doc, 0)
    else
      var h := RedactPath(doc, paths[0], token);
      var t := RedactAll(h.0, paths[1..], token);
      (t.0, h.1 + t.1)
  }

  predicate AllFixed(doc: Json, paths: seq<seq<string>>, token: string) {
    forall p :: p in paths ==> Fixed(doc, p, token)
  }

  lemma {:induction false} RedactAllKeepsFixed(doc: Json, paths: seq<seq<string>>, q: seq<string>, token: string)
    requires Fixed(doc, q, token)
    ensures Fixed(RedactAll(doc, paths, token).0, q, token)
    decreases |paths|
  {
    if paths != [] {
      RedactKeepsFixed(doc, paths[0], q, token);
      RedactAllKeepsFixed(RedactPath(doc, paths[0], token).0, paths[1..], q, token);
    }
  }

  /** After redaction every listed path is redacted: a later path cannot undo an earlier one. */
  lemma {:induction false} RedactAllFixes(doc: Json, paths: seq<seq<string>>, token: string)
    ensures AllFixed(RedactAll(doc, paths, token).0, paths, token)
    decreases |paths|
  {
    if paths != [] {
      var d1 := RedactPath(doc, paths[0], token).0;
      RedactIdempotent(doc, paths[0], token);
      RedactAllKeepsFixed(d1, paths[1..], paths[0], token);
      RedactAllFixes(d1, paths[1..], token);
      assert forall p :: p in paths ==> p == paths[0] || p in paths[1..];
    }
  }

  lemma {:induction false} AllFixedUnchanged(doc: Json, paths: seq<seq<string>>, token: string)
    requires AllFixed(doc, paths, token)
    ensures RedactAll(doc, paths, token).0 == doc
    decreases |paths|
  {
    if paths != [] {
      assert paths[0] in paths;
      assert forall p :: p in paths[1..] ==> p in paths;
      AllFixedUnchanged(doc, paths[1..], token);
    }
  }

  /** Applying the same redaction list twice gives the same document as applying it once. */
  lemma RedactAllIdempotent(doc: Json, paths: seq<seq<string>>, token: string)
    ensures var once := RedactAll(doc, paths, token).0;
      RedactAll(once, paths, token).0 == once
  {
    RedactAllFixes(doc, paths, token);
    AllFixedUnchanged(RedactAll(doc, paths, token).0, paths, token);
  }

  /** `for p in paths or []`: a false value iterates nothing, a list its items, a dict its
      keys, a string its characters; anything else raises. */
  function PathItems(paths: Json): (r: Result<seq<Json>, string>)
    ensures r.Failure? <==> Truthy(paths) && (paths.JBool? || paths.JInt?)
    ensures !Truthy(paths) ==> r == Success([])
    ensures paths.JList? ==> r == Success(paths.items)
  {
    if !Truthy(paths) then Success([])
    else match paths
      case JList(items) => Success(items)
      case JObj(fs) => Success(KeyStrings(fs))
      case JStr(s) => Success(CharStrings(s))
      case _ => Failure("TypeError: object is not iterable")
  }

  function KeyStrings(fs: Fields): (r: seq<Json>)
    ensures |r| == |fs| && forall i :: 0 <= i < |fs| ==> r[i] == JStr(fs[i].0)
  {
    if fs == [] then [] else [JStr(fs[0].0)] + KeyStrings(fs[1..])
  }

  function CharStrings(s: string): (r: seq<Json>)
    ensures |r| == |s| && forall i :: 0 <= i < |s| ==> r[i] == JStr([s[i]])
  {
    if s == [] then [] else [JStr([s[0]])] + CharStrings(s[1..])
  }

  /** `HDT_MCP/policy/engine.py`: entries that are not non-empty strings are skipped. */
  function EnginePaths(items: seq<Json>): (r: seq<seq<string>>)
    ensures |r| <= |items|
    ensures forall p :: p in r ==> p != []
    ensures forall i :: 0 <= i < |items| && items[i].JStr? && items[i].s != [] ==> Split(items[i].s, '.') in r
  {
    if items == [] then []
    else
      var rest := EnginePaths(items[1..]);
      assert forall i :: 1 <= i < |items| ==> items[i] == items[1..][i - 1];
      if items[0].JStr? && items[0].s != [] then [Split(items[0].s, '.')] + rest else rest
  }

  /** `HDT_MCP/policy_engine.py`: every entry is split, so an entry that is not a string
      raises (and "" is the one-part path [""]). */
  function RuntimePaths(items: seq<Json>): (r: Result<seq<seq<string>>, string>)
    ensures r.Success? <==> forall i :: 0 <= i < |items| ==> items[i].JStr?
    ensures r.Success? ==> |r.value| == |items|
    ensures r.Success? ==> forall i :: 0 <= i < |items| ==> r.value[i] == Split(items[i].s, '.')
  {
    if items == [] then Success([])
    else if !items[0].JStr? then Failure("AttributeError: object has no attribute 'split'")
    else
      match RuntimePaths(items[1..])
      case Failure(m) =>
        assert exists i :: 1 <= i < |items| && !items[i].JStr? by {
          var i' :| 0 <= i' < |items[1..]| && !items[1..][i'].JStr?;
          assert items[i' + 1] == items[1..][i'];
        }
        Failure(m)
      case Success(rest) => Success([Split(items[0].s, '.')] + rest)
  }
}
