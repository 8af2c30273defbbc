/** The policy holders: the module-level state of `HDT_MCP/policy/engine.py` and the class
    `PolicyRuntime` of `HDT_MCP/policy_runtime.py`. Both keep a policy cached against the
    file's (mtime_ns, size) signature, an override that disables disk reads, and the meta of
    the last application; both apply a rule by denying or by redacting the payload in place.
    The file system is a parameter: what `stat` finds and what reading the file gives. */
module PolicyStore {
  import opened Wrappers
  import opened Text
  import opened JsonValues
  import opened Envelopes
  import opened PolicyRules

  /** Which of the two holders: the engine module or a `PolicyRuntime` object. */
  datatype Variant = EngineModule | Runtime

  /** What opening and parsing the policy file gives. */
  datatype Content = Gone | Corrupt | Parsed(doc: Json)

  /** The file as seen by one call: its signature, if `stat` finds it, and its content. */
  datatype FileState = FileState(stat: Option<(int, int)>, content: Content)

  /** `{"redactions", "allowed", "purpose", "tool"}` */
  datatype Meta = Meta(redactions: nat, allowed: bool, purpose: string, tool: string)

  /** What a reload stores in the cache (None is Python's None): the engine swallows every
      read error as {} and stores a parsed null as None; the runtime turns a false document
      into {} and lets a parse error escape. */
  function Load(variant: Variant, c: Content): (r: Result<Option<Json>, string>)
    ensures r.Failure? <==> variant.Runtime? && c.Corrupt?
    ensures variant == Runtime && r.Success? ==> r.value.Some? && (Truthy(r.value.value) || r.value.value == JObj([]))
  {
    match c
    case Gone => Success(Some(JObj([])))
    case Corrupt => if variant == EngineModule then Success(Some(JObj([]))) else Failure("JSONDecodeError")
    case Parsed(j) =>
      if variant == EngineModule then Success(if j == JNull then None else Some(j))
      else Success(Some(OrElse(j, JObj([]))))
  }

  /** `_cache or {}` */
  function Serve(cache: Option<Json>): Json {
    if cache.Some? then OrElse(cache.value, JObj([])) else JObj([])
  }

  /** The cache must be (re)loaded: it is empty or the file's signature changed. */
  predicate Stale(cache: Option<Json>, sig: Option<(int, int)>, stat: (int, int)) {
    cache.None? || sig != Some(stat)
  }

  /** One `_policy()` / `policy()` call: the policy served, the new cache and the new
      signature, or the exception. */
  datatype Step = Step(served: Json, cache: Option<Json>, sig: Option<(int, int)>)

  function PolicyStep(variant: Variant, cache: Option<Json>, sig: Option<(int, int)>, override: Option<Json>, f: FileState): (r: Result<Step, string>)
    ensures override.Some? ==> r == Success(Step(override.value, cache, sig))
    ensures override.None? && f.stat.None? ==> r == Success(Step(JObj([]), Some(JObj([])), None))
    ensures override.None? && f.stat.Some? && !Stale(cache, sig, f.stat.value) ==>
      r == Success(Step(Serve(cache), cache, sig))
    ensures override.None? && f.stat.Some? && Stale(cache, sig, f.stat.value) ==>
      (r.Failure? <==> Load(variant, f.content).Failure?) &&
      (r.Success? ==> r.value == Step(Serve(Load(variant, f.content).value), Load(variant, f.content).value, f.stat))
  {
    if override.Some? then Success(Step(override.value, cache, sig))
    else if f.stat.None? then Success(Step(JObj([]), Some(JObj([])), None))
    else if !Stale(cache, sig, f.stat.value) then Success(Step(Serve(cache), cache, sig))
    else
      match Load(variant, f.content)
      case Failure(m) => Failure(m)
      case Success(c) => Success(Step(Serve(c), c, f.stat))
  }

  /** An override is served without looking at the file. */
  lemma OverrideIgnoresFile(variant: Variant, cache: Option<Json>, sig: Option<(int, int)>, o: Json, f: FileState, g: FileState)
    ensures PolicyStep(variant, cache, sig, Some(o), f) == PolicyStep(variant, cache, sig, Some(o), g)
    ensures PolicyStep(variant, cache, sig, Some(o), f).value.served == o
  {
  }

  /** A missing file, or one the engine cannot read or parse, serves the empty policy. */
  lemma UnreadableServesEmpty(variant: Variant, cache: Option<Json>, sig: Option<(int, int)>, f: FileState)
    requires f.stat.None? || (Stale(cache, sig, f.stat.value) && (f.content == Gone || (variant == EngineModule && f.content == Corrupt)))
    ensures PolicyStep(variant, cache, sig, None, f) == Success(PolicyStep(variant, cache, sig, None, f).value)
    ensures PolicyStep(variant, cache, sig, None, f).value.served == JObj([])
  {
  }

  /** Reading twice with the file unchanged serves the same policy and leaves the cache as
      the first read left it. */
  lemma SecondReadStable(variant: Variant, cache: Option<Json>, sig: Option<(int, int)>, override: Option<Json>, f: FileState)
    requires PolicyStep(variant, cache, sig, override, f).Success?
    ensures var s1 := PolicyStep(variant, cache, sig, override, f).value;
      var s2 := PolicyStep(variant, s1.cache, s1.sig, override, f);
      s2.Success? && s2.value.served == s1.served && s2.value.cache == s1.cache
  {
    var s1 := PolicyStep(variant, cache, sig, override, f).value;
    if override.None? && f.stat.Some? && Stale(cache, sig, f.stat.value) && !Stale(s1.cache, s1.sig, f.stat.value) {
      assert s1.cache.Some?;
    }
  }

  /** The envelope of a denial, naming purpose and tool at the top level. */
  function Denied(purpose: string, tool: string): (r: Json)
    ensures IsError(r) && ErrorCode(r) == Some("denied_by_policy")
    ensures Get(r, "purpose") == Some(JStr(purpose)) && Get(r, "tool") == Some(JStr(tool))
  {
    var r := TypedError("denied_by_policy", "Access denied by policy", JNull, [("purpose", JStr(purpose)), ("tool", JStr(tool))]);
    LookupAt([("purpose", JStr(purpose)), ("tool", JStr(tool))], 0);
    LookupAt([("purpose", JStr(purpose)), ("tool", JStr(tool))], 1);
    r
  }

  /** The string entries of a redaction list before its first non-string. */
  function StringPrefix(items: seq<Json>): (r: seq<seq<string>>)
    ensures |r| <= |items|
    ensures forall i :: 0 <= i < |r| ==> items[i].JStr? && r[i] == Split(items[i].s, '.')
    ensures |r| < |items| ==> !items[|r|].JStr?
  {
    if items == [] || !items[0].JStr? then [] else [Split(items[0].s, '.')] + StringPrefix(items[1..])
  }

  lemma StringPrefixAll(items: seq<Json>)
    requires RuntimePaths(items).Success?
    ensures StringPrefix(items) == RuntimePaths(items).value
  {
    var p := StringPrefix(items);
    assert |p| == |items|;
    assert forall i :: 0 <= i < |p| ==> p[i] == RuntimePaths(items).value[i];
  }

  /** What applying a rule does: the call's answer (or its exception), the payload after
      it, and the meta it records (None when it raised first). */
  datatype Outcome = Outcome(answer: Result<Json, string>, payload: Json, meta: Option<Meta>)

  /** Redacting with a rule's list: the engine skips entries that are not non-empty strings;
      the runtime splits every entry and raises at the first that is not a string, after
      redacting the ones before it. */
  function Redact(variant: Variant, token: string, payload: Json, items: seq<Json>): (r: (Json, Result<nat, string>)) {
    if variant == EngineModule then
      var d := RedactAll(payload, EnginePaths(items), token);
      (d.0, Success(d.1))
    else
      var d := RedactAll(payload, StringPrefix(items), token);
      (d.0, if RuntimePaths(items).Success? then Success(d.1) else Failure("AttributeError: object has no attribute 'split'"))
  }

  /** Applying a resolved rule to a payload. */
  function ApplyRule(variant: Variant, token: string, rule: Fields, purpose: string, tool: string, payload: Json): (r: Outcome)
    ensures r.meta.Some? <==> r.answer.Success?
    ensures r.meta.Some? && !r.meta.value.allowed ==>
      r.answer.value == Denied(purpose, tool) && r.payload == payload && r.meta.value.redactions == 0
    ensures r.meta.Some? && r.meta.value.allowed ==> r.answer.value == r.payload
    ensures r.meta.Some? ==> r.meta.value.purpose == purpose && r.meta.value.tool == tool
    ensures r.meta.Some? ==> (r.meta.value.allowed <==> Truthy(GetOr(JObj(rule), "allow", JBool(true))))
  {
    if !Truthy(GetOr(JObj(rule), "allow", JBool(true))) then
      Outcome(Success(Denied(purpose, tool)), payload, Some(Meta(0, false, purpose, tool)))
    else
      var paths := OrElse(GetOr(JObj(rule), "redact", JNull), JList([]));
      if !Truthy(paths) then Outcome(Success(payload), payload, Some(Meta(0, true, purpose, tool)))
      else
        match PathItems(paths)
        case Failure(m) => Outcome(Failure(m), payload, None)
        case Success(items) =>
          var d := Redact(variant, token, payload, items);
          match d.1
          case Failure(m) => Outcome(Failure(m), d.0, None)
          case Success(n) => Outcome(Success(d.0), d.0, Some(Meta(n, true, purpose, tool)))
  }

  /** An allowed application leaves the payload redacted along every path of the rule:
      applying the same rule to its own result changes nothing more. */
  lemma ApplyRuleIdempotent(variant: Variant, token: string, rule: Fields, purpose: string, tool: string, payload: Json)
    requires ApplyRule(variant, token, rule, purpose, tool, payload).answer.Success?
    ensures var once := ApplyRule(variant, token, rule, purpose, tool, payload).payload;
      ApplyRule(variant, token, rule, purpose, tool, once).payload == once
  {
    var paths := OrElse(GetOr(JObj(rule), "redact", JNull), JList([]));
    if Truthy(GetOr(JObj(rule), "allow", JBool(true))) && Truthy(paths) {
      var items := PathItems(paths).value;
      var ps := if variant == EngineModule then EnginePaths(items) else StringPrefix(items);
      RedactAllIdempotent(payload, ps, token);
    }
  }

  /** `apply_policy` / `PolicyRuntime.apply` once the policy is known: an exception while
      resolving the rule leaves the payload alone. */
  function Decide(variant: Variant, token: string, pol: Json, purpose: string, tool: string, clientId: Option<string>, payload: Json): (r: Outcome)
    ensures r.meta.Some? <==> r.answer.Success?
    ensures ResolveRule(pol, purpose, tool, clientId, variant == EngineModule).Failure? ==>
      r.answer.Failure? && r.payload == payload
    ensures ResolveRule(pol, purpose, tool, clientId, variant == EngineModule).Success? ==>
      r == ApplyRule(variant, token, ResolveRule(pol, purpose, tool, clientId, variant == EngineModule).value, purpose, tool, payload)
  {
    match ResolveRule(pol, purpose, tool, clientId, variant == EngineModule)
    case Failure(m) => Outcome(Failure(m), payload, None)
    case Success(rule) => ApplyRule(variant, token, rule, purpose, tool, payload)
  }

  /** `{"purpose", "allow": bool(...), "redact": ... or []}` of `PolicyRuntime.evaluate`:
      the tool layer is read only for a non-empty tool name. */
  function EvaluateOf(pol: Json, purpose: string, clientId: Option<string>, tool: Option<string>): (r: Result<Json, string>)
    ensures r.Success? ==> r.value.JObj? && Get(r.value, "allow").Some? && Get(r.value, "allow").value.JBool?
  {
    var t := if tool.Some? && tool.value != [] then tool else None;
    match LayersOf(pol, purpose, t, clientId, false)
    case Failure(m) => Failure(m)
    case Success(l) =>
      match MergeLayers(l)
      case Failure(m) => Failure(m)
      case Success(eff) =>
        var fs := [("purpose", JStr(purpose)), ("allow", JBool(Truthy(GetOr(JObj(eff), "allow", JBool(true))))),
                   ("redact", OrElse(GetOr(JObj(eff), "redact", JNull), JList([])))];
        LookupAt(fs, 1);
        Success(JObj(fs))
  }

  class PolicyHolder {
    const variant: Variant
    const token: string
    var cache: Option<Json>
    var sig: Option<(int, int)>
    var override: Option<Json>
    var last: Meta

    /** The engine module at import, or `PolicyRuntime(redact_token=token)`. */
    constructor (variant: Variant, token: string)
      ensures this.variant == variant && this.token == token
      ensures cache.None? && sig.None? && override.None?
      ensures last == Meta(0, true, "", "")
    {
      this.variant := variant;
      this.token := token;
      cache := None;
      sig := None;
      override := None;
      last := Meta(0, true, "", "");
    }

    /** `set_override(p)` (a test hook); None re-enables the file. */
    method SetOverride(p: Option<Json>)
      modifies this
      ensures override == p
      ensures cache == old(cache) && sig == old(sig) && last == old(last)
    {
      override := p;
    }

    /** `policy_reset_cache()` / `reset_cache()` */
    method ResetCache()
      modifies this
      ensures cache.None? && sig.None?
      ensures override == old(override) && last == old(last)
    {
      cache := None;
      sig := None;
    }

    /** `_policy()` / `policy()` */
    method Policy(f: FileState) returns (r: Result<Json, string>)
      modifies this
      ensures var s := PolicyStep(variant, old(cache), old(sig), old(override), f);
        (r.Failure? <==> s.Failure?) &&
        (r.Success? ==> r.value == s.value.served && cache == s.value.cache && sig == s.value.sig) &&
        (r.Failure? ==> cache == old(cache) && sig == old(sig))
      ensures override == old(override) && last == old(last)
    {
      if override.Some? {
        return Success(override.value);
      }
      if f.stat.None? {
        cache, sig := Some(JObj([])), None;
        return Success(JObj([]));
      }
      if cache.None? || sig != f.stat {
        var loaded := Load(variant, f.content);
        if loaded.Failure? {
          return Failure(loaded.error);
        }
        cache := loaded.value;
        sig := f.stat;
      }
      r := Success(Serve(cache));
    }

    /** `policy_last_meta()` / `last_meta()` */
    function LastMeta(): Meta
      reads this
    {
      last
    }

    /** `apply_policy` / `apply`: a denial answers `denied_by_policy` and leaves the payload
        alone; otherwise the payload is redacted in place and is the answer. */
    method Apply(f: FileState, purpose: string, tool: string, clientId: Option<string>, doc: Doc) returns (r: Result<Json, string>)
      modifies this, doc
      ensures var s := PolicyStep(variant, old(cache), old(sig), old(override), f);
        s.Failure? ==>
          r.Failure? && doc.value == old(doc.value) && last == old(last) && cache == old(cache) && sig == old(sig)
      ensures var s := PolicyStep(variant, old(cache), old(sig), old(override), f);
        s.Success? ==>
          var o := Decide(variant, token, s.value.served, purpose, tool, clientId, old(doc.value));
          cache == s.value.cache && sig == s.value.sig &&
          r == o.answer && doc.value == o.payload &&
          last == (if o.meta.Some? then o.meta.value else old(last))
      ensures override == old(override)
    {
      var p := Policy(f);
      if p.Failure? {
        return Failure(p.error);
      }
      var o := Decide(variant, token, p.value, purpose, tool, clientId, doc.value);
      doc.value := o.payload;
      if o.meta.Some? {
        last := o.meta.value;
      }
      r := o.answer;
    }

    /** `apply_policy_safe` / `apply_safe`: the same on a deep copy, so the caller's payload
        is never changed. */
    method ApplySafe(f: FileState, purpose: string, tool: string, clientId: Option<string>, doc: Doc) returns (r: Result<Json, string>)
      modifies this
      ensures doc.value == old(doc.value)
      ensures var s := PolicyStep(variant, old(cache), old(sig), old(override), f);
        s.Success? ==>
          var o := Decide(variant, token, s.value.served, purpose, tool, clientId, doc.value);
          cache == s.value.cache && sig == s.value.sig &&
          r == o.answer && last == (if o.meta.Some? then o.meta.value else old(last))
      ensures var s := PolicyStep(variant, old(cache), old(sig), old(override), f);
        s.Failure? ==> r.Failure? && last == old(last) && cache == old(cache) && sig == old(sig)
      ensures override == old(override)
    {
      var clone := new Doc(doc.value);
      r := Apply(f, purpose, tool, clientId, clone);
    }

    /** `apply_policy_metrics`: the answer of a safe application with the redaction count it
        recorded (0 on a denial). */
    method ApplyMetrics(f: FileState, purpose: string, tool: string, clientId: Option<string>, doc: Doc) returns (r: Result<(Json, nat), string>)
      modifies this
      ensures doc.value == old(doc.value)
      ensures var s := PolicyStep(variant, old(cache), old(sig), old(override), f);
        s.Success? ==>
          var o := Decide(variant, token, s.value.served, purpose, tool, clientId, doc.value);
          cache == s.value.cache && sig == s.value.sig &&
          last == (if o.meta.Some? then o.meta.value else old(last)) &&
          (r.Success? <==> o.answer.Success?) &&
          (r.Success? ==> r.value == (o.answer.value, o.meta.value.redactions))
      ensures var s := PolicyStep(variant, old(cache), old(sig), old(override), f);
        s.Failure? ==> r.Failure? && last == old(last) && cache == old(cache) && sig == old(sig)
      ensures r.Success? ==> r.value.1 == last.redactions
      ensures override == old(override)
    {
      var a := ApplySafe(f, purpose, tool, clientId, doc);
      if a.Failure? {
        return Failure(a.error);
      }
      r := Success((a.value, last.redactions));
    }

    /** `PolicyRuntime.evaluate` */
    method Evaluate(f: FileState, purpose: string, clientId: Option<string>, tool: Option<string>) returns (r: Result<Json, string>)
      modifies this
      ensures var s := PolicyStep(variant, old(cache), old(sig), old(override), f);
        (s.Failure? ==> r.Failure?) &&
        (s.Success? ==> r == EvaluateOf(s.value.served, purpose, clientId, tool) && cache == s.value.cache && sig == s.value.sig)
      ensures override == old(override) && last == old(last)
    {
      var p := Policy(f);
      if p.Failure? {
        return Failure(p.error);
      }
      r := EvaluateOf(p.value, purpose, clientId, tool);
    }
  }
}
