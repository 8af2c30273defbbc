/** The compatibility helpers of `HDT_MCP/server.py`: its own fallback redactor, the
    `policy_evaluate` debugging helper (which merges with dict unpacking rather than the
    engine's merge), and `hdt_walk_stream`, which asks the domain for a walk view and passes
    the payload through the analytics policy. The domain is a parameter: the view it
    answers for a given vault preference, or None when it is missing or raises. */
module LegacyServer {
  import opened Wrappers
  import opened Text
  import opened JsonValues
  import opened Envelopes
  import opened StepMath
  import opened PolicyRules
  import opened PolicyStore

  // ---------------------------------------------------------------- fallback redactor

  /** The fallback `_redact_inplace(doc, paths)`: paths that are not non-empty strings are
      skipped, the others split on "." and redacted with the fixed token. */
  function FallbackRedact(doc: Json, paths: Json): (r: Result<(Json, nat), string>)
    ensures r.Success? <==> PathItems(paths).Success?
  {
    match PathItems(paths)
    case Failure(m) => Failure(m)
    case Success(items) => Success(RedactAll(doc, EnginePaths(items), RedactToken))
  }

  /** The fallback redacts exactly as the engine's redaction of an allowed rule does. */
  lemma FallbackAgreesWithEngine(doc: Json, paths: Json)
    requires PathItems(paths).Success?
    ensures var e := Redact(EngineModule, RedactToken, doc, PathItems(paths).value);
      FallbackRedact(doc, paths) == Success((e.0, e.1.value))
  {
  }

  /** Redacting the redacted document again with the same paths changes nothing. */
  lemma FallbackIdempotent(doc: Json, paths: Json)
    requires PathItems(paths).Success?
    ensures var once := FallbackRedact(doc, paths).value.0;
      FallbackRedact(once, paths).value.0 == once
  {
    RedactAllIdempotent(doc, EnginePaths(PathItems(paths).value), RedactToken);
  }

  // ---------------------------------------------------------------- policy_evaluate

  /** The policy object: the override if set, else the parsed file; an unreadable or
      unparsable file counts as {}. */
  function PolicyObject(override: Option<Json>, c: Content): Json {
    if override.Some? then override.value
    else if c.Parsed? then c.doc
    else JObj([])
  }

  /** `{**eff, **x}`: both must be dicts. */
  function Spread(eff: Json, x: Json): (r: Result<Json, string>)
    ensures r.Success? <==> eff.JObj? && x.JObj?
    ensures r.Success? ==> r.value.JObj? && forall k {:trigger Get(r.value, k)} ::
      Get(r.value, k) == if Get(x, k).Some? then Get(x, k) else Get(eff, k)
  {
    if eff.JObj? && x.JObj? then Success(JObj(Update(eff.fields, x.fields))) else Failure("TypeError: not a mapping")
  }

  const DefaultRule: Json := JObj([("allow", JBool(true)), ("redact", JList([]))])

  /** `(pol.get("defaults", {}) or {}).get(purpose, {"allow": True, "redact": []})` */
  function DefaultsEntry(pol: Json, purpose: string): Result<Json, string> {
    match DictGet(pol, "defaults", JObj([]))
    case Failure(m) => Failure(m)
    case Success(sec) => DictGet(OrElse(sec, JObj([])), purpose, DefaultRule)
  }

  /** `((pol.get(section, {}) or {}).get(name, {}) or {}).get(purpose, {})` */
  function NamedEntry(pol: Json, section: string, name: string, purpose: string): Result<Json, string> {
    match DictGet(pol, section, JObj([]))
    case Failure(m) => Failure(m)
    case Success(sec) =>
      match DictGet(OrElse(sec, JObj([])), name, JObj([]))
      case Failure(m) => Failure(m)
      case Success(entry) => DictGet(OrElse(entry, JObj([])), purpose, JObj([]))
  }

  /** `eff = d`, then `{**eff, **c}` when there is a client entry, then `{**eff, **t}` when
      there is a tool entry; `eff.setdefault` needs a dict even when nothing is spread. */
  function Layered(d: Json, c: Option<Json>, t: Option<Json>): (r: Result<Json, string>)
    ensures r.Success? <==> d.JObj? && (c.Some? ==> c.value.JObj?) && (t.Some? ==> t.value.JObj?)
    ensures r.Success? ==> r.value.JObj? && forall k {:trigger Get(r.value, k)} ::
      Get(r.value, k) ==
        if t.Some? && Get(t.value, k).Some? then Get(t.value, k)
        else if c.Some? && Get(c.value, k).Some? then Get(c.value, k)
        else Get(d, k)
  {
    if !d.JObj? then Failure("TypeError: not a mapping")
    else
      var e1 := if c.Some? then Spread(d, c.value) else Success(d);
      if e1.Failure? then Failure(e1.error)
      else if t.Some? then Spread(e1.value, t.value) else e1
  }

  /** The three entries `policy_evaluate` reads: the client entry only for a non-empty
      client id, the tool entry only for a non-empty tool. */
  datatype Entries = Entries(d: Json, c: Option<Json>, t: Option<Json>)

  function LegacyEntries(pol: Json, purpose: string, clientId: Option<string>, tool: Option<string>): (r: Result<Entries, string>)
    ensures r.Success? ==> (r.value.c.Some? <==> clientId.Some? && clientId.value != []) &&
                           (r.value.t.Some? <==> tool.Some? && tool.value != [])
  {
    match DefaultsEntry(pol, purpose)
    case Failure(m) => Failure(m)
    case Success(d) =>
      var c := if clientId.Some? && clientId.value != [] then Some(NamedEntry(pol, "clients", clientId.value, purpose)) else None;
      if c.Some? && c.value.Failure? then Failure(c.value.error)
      else
        var t := if tool.Some? && tool.value != [] then Some(NamedEntry(pol, "tools", tool.value, purpose)) else None;
        if t.Some? && t.value.Failure? then Failure(t.value.error)
        else Success(Entries(d, if c.Some? then Some(c.value.value) else None, if t.Some? then Some(t.value.value) else None))
  }

  /** What "allow" reads after the layering: the tool entry's, else the client entry's,
      else the defaults entry's, else True. */
  function AllowOf(e: Entries): bool {
    if e.t.Some? && Get(e.t.value, "allow").Some? then Truthy(Get(e.t.value, "allow").value)
    else if e.c.Some? && Get(e.c.value, "allow").Some? then Truthy(Get(e.c.value, "allow").value)
    else if Get(e.d, "allow").Some? then Truthy(Get(e.d, "allow").value)
    else true
  }

  lemma LayeredAllow(e: Entries)
    requires Layered(e.d, e.c, e.t).Success?
    ensures Truthy(GetOr(Layered(e.d, e.c, e.t).value, "allow", JBool(true))) == AllowOf(e)
  {
    var eff := Layered(e.d, e.c, e.t).value;
    assert Get(eff, "allow") ==
      if e.t.Some? && Get(e.t.value, "allow").Some? then Get(e.t.value, "allow")
      else if e.c.Some? && Get(e.c.value, "allow").Some? then Get(e.c.value, "allow")
      else Get(e.d, "allow");
  }

  /** What "redact" reads after the layering: the tool entry's, else the client entry's,
      else the defaults entry's, else the empty list. */
  function RedactOf(e: Entries): Json {
    if e.t.Some? && Get(e.t.value, "redact").Some? then Get(e.t.value, "redact").value
    else if e.c.Some? && Get(e.c.value, "redact").Some? then Get(e.c.value, "redact").value
    else if Get(e.d, "redact").Some? then Get(e.d, "redact").value
    else JList([])
  }

  lemma LayeredRedact(e: Entries)
    requires Layered(e.d, e.c, e.t).Success?
    ensures GetOr(Layered(e.d, e.c, e.t).value, "redact", JList([])) == RedactOf(e)
  {
    var eff := Layered(e.d, e.c, e.t).value;
    assert Get(eff, "redact") ==
      if e.t.Some? && Get(e.t.value, "redact").Some? then Get(e.t.value, "redact")
      else if e.c.Some? && Get(e.c.value, "redact").Some? then Get(e.c.value, "redact")
      else Get(e.d, "redact");
  }

  /** `{"purpose": purpose, "allow": allow, "redact": redact}` */
  function EvaluationJson(purpose: string, allow: bool, redact: Json): (r: Json)
    ensures Get(r, "purpose") == Some(JStr(purpose)) && Get(r, "allow") == Some(JBool(allow))
    ensures Get(r, "redact") == Some(redact)
  {
    var fs := [("purpose", JStr(purpose)), ("allow", JBool(allow)), ("redact", redact)];
    LookupAt(fs, 0);
    LookupAt(fs, 1);
    LookupAt(fs, 2);
    JObj(fs)
  }

  /** `policy_evaluate(purpose, client_id, tool)`: `allow` is a bool and `redact` the rule's
      list, each following the precedence tool, client, defaults. */
  function LegacyEvaluate(pol: Json, purpose: string, clientId: Option<string>, tool: Option<string>): (r: Result<Json, string>)
    ensures r.Success? ==> LegacyEntries(pol, purpose, clientId, tool).Success?
    ensures r.Success? ==>
      Get(r.value, "allow") == Some(JBool(AllowOf(LegacyEntries(pol, purpose, clientId, tool).value))) &&
      Get(r.value, "purpose") == Some(JStr(purpose))
    ensures r.Success? ==>
      Get(r.value, "redact") == Some(RedactOf(LegacyEntries(pol, purpose, clientId, tool).value))
  {
    match LegacyEntries(pol, purpose, clientId, tool)
    case Failure(m) => Failure(m)
    case Success(e) =>
      match Layered(e.d, e.c, e.t)
      case Failure(m) => Failure(m)
      case Success(eff) =>
        LayeredAllow(e);
        LayeredRedact(e);
        Success(EvaluationJson(purpose, Truthy(GetOr(eff, "allow", JBool(true))), GetOr(eff, "redact", JList([]))))
  }

  // ---------------------------------------------------------------- hdt_walk_stream

  /** The stats object of a view, when it has one. */
  datatype ViewStats = ViewStats(days: Json, totalSteps: Json, avgSteps: Json)

  /** What the domain answers: its records already as dicts, its source, its stats. */
  datatype DomainView = DomainView(records: seq<Json>, source: Json, stats: Option<ViewStats>)

  /** `int(x.get("steps") or 0)`, or None where it raises. */
  function StepOf(x: Json): Option<int> {
    if x.JObj? then CoerceInt(OrElse(GetOr(x, "steps", JNull), JInt(0))) else None
  }

  /** `sum(int(x.get("steps") or 0) for x in recs)`, raising at a record that is not a dict
      or whose steps `int()` rejects. */
  function StepsTotal(recs: seq<Json>): (r: Result<int, string>)
    ensures r.Success? <==> forall i :: 0 <= i < |recs| ==> StepOf(recs[i]).Some?
    ensures recs == [] ==> r == Success(0)
  {
    if recs == [] then Success(0)
    else
      match StepOf(recs[0])
      case None => Failure("ValueError: invalid literal for int()")
      case Some(n) =>
        match StepsTotal(recs[1..])
        case Failure(m) =>
          assert exists i :: 1 <= i < |recs| && StepOf(recs[i]).None? by {
            var j :| 0 <= j < |recs| - 1 && StepOf(recs[1..][j]).None?;
            assert recs[1..][j] == recs[j + 1];
          }
          Failure(m)
        case Success(rest) => Success(n + rest)
  }

  /** The total over two runs of records is the sum of their totals. */
  lemma {:induction false} StepsTotalAppend(a: seq<Json>, b: seq<Json>)
    requires StepsTotal(a).Success? && StepsTotal(b).Success?
    ensures StepsTotal(a + b) == Success(StepsTotal(a).value + StepsTotal(b).value)
  {
    if a == [] {
      assert a + b == b;
    } else {
      assert (a + b)[0] == a[0];
      assert (a + b)[1..] == a[1..] + b;
      StepsTotalAppend(a[1..], b);
    }
  }

  function StatsObject(days: Json, total: Json, avg: Json): Json {
    JObj([("days", days), ("total_steps", total), ("avg_steps", avg)])
  }

  /** The payload before policy: an empty one from source "none" when the domain gave no
      view; otherwise the view's records and source, and its stats or, without them, the
      record count and step total with a zero average. */
  function WalkStreamPayload(userId: int, view: Option<DomainView>): (r: Result<Json, string>)
    ensures view.None? ==> r == Success(JObj([("user_id", JInt(userId)), ("records", JList([])), ("source", JStr("none")),
                                             ("stats", StatsObject(JInt(0), JInt(0), JInt(0)))]))
    ensures view.Some? && view.value.stats.None? ==>
      (r.Success? <==> StepsTotal(view.value.records).Success?) &&
      (r.Success? ==> r.value == JObj([("user_id", JInt(userId)), ("records", JList(view.value.records)), ("source", view.value.source),
                                       ("stats", StatsObject(JInt(|view.value.records|), JInt(StepsTotal(view.value.records).value), JInt(0)))]))
    ensures view.Some? && view.value.stats.Some? ==> r.Success?
  {
    match view
    case None =>
      Success(JObj([("user_id", JInt(userId)), ("records", JList([])), ("source", JStr("none")),
                    ("stats", StatsObject(JInt(0), JInt(0), JInt(0)))]))
    case Some(v) =>
      var stats := match v.stats
        case None =>
          (match StepsTotal(v.records)
           case Failure(m) => Failure(m)
           case Success(t) => Success(StatsObject(JInt(|v.records|), JInt(t), JInt(0))))
        case Some(s) => Success(StatsObject(s.days, s.totalSteps, s.avgSteps));
      if stats.Failure? then Failure(stats.error)
      else Success(JObj([("user_id", JInt(userId)), ("records", JList(v.records)), ("source", v.source), ("stats", stats.value)]))
  }

  predicate KnownPrefer(prefer: string) {
    prefer == "auto" || prefer == "vault" || prefer == "live"
  }

  function BadPrefer(prefer: string): (r: Json)
    ensures ErrorCode(r) == Some("bad_request") && Get(r, "prefer") == Some(JStr(prefer))
  {
    LookupAt([("prefer", JStr(prefer))], 0);
    TypedError("bad_request", "prefer must be one of: auto, vault, live", JNull, [("prefer", JStr(prefer))])
  }

  /** `hdt_walk_stream`: an unknown preference is a `bad_request` that neither reaches the
      domain nor the policy; otherwise "auto" and "vault" ask the domain to prefer the vault,
      "live" does not, and the payload goes through the analytics policy of the tool
      `hdt.walk.stream@v1`. */
  method HdtWalkStream(holder: PolicyHolder, f: FileState, userId: int, prefer: string, domain: bool -> Option<DomainView>)
    returns (r: Result<Json, string>)
    modifies holder
    ensures !KnownPrefer(prefer) ==>
      r == Success(BadPrefer(prefer)) && holder.cache == old(holder.cache) && holder.sig == old(holder.sig) && holder.last == old(holder.last)
    ensures KnownPrefer(prefer) ==>
      var p := WalkStreamPayload(userId, domain(prefer != "live"));
      var s := PolicyStep(holder.variant, old(holder.cache), old(holder.sig), old(holder.override), f);
      (p.Failure? || s.Failure? ==>
        r.Failure? && holder.cache == old(holder.cache) && holder.sig == old(holder.sig) && holder.last == old(holder.last)) &&
      (p.Success? && s.Success? ==>
        var o := Decide(holder.variant, holder.token, s.value.served, "analytics", "hdt.walk.stream@v1", None, p.value);
        r == o.answer && holder.cache == s.value.cache && holder.sig == s.value.sig &&
        holder.last == (if o.meta.Some? then o.meta.value else old(holder.last)))
    ensures holder.override == old(holder.override)
  {
    if !KnownPrefer(prefer) {
      return Success(BadPrefer(prefer));
    }
    var preferVault := prefer == "auto" || prefer == "vault";
    var p := WalkStreamPayload(userId, domain(preferVault));
    if p.Failure? {
      return Failure(p.error);
    }
    var doc := new Doc(p.value);
    assert preferVault == (prefer != "live");
    r := holder.ApplySafe(f, "analytics", "hdt.walk.stream@v1", None, doc);
  }
}
