/** The instrumentation wrappers of `src/hdt_common/tooling.py`: every MCP tool call runs
    under a correlation id, is timed and logged to telemetry with its arguments scrubbed of
    secrets, and answers a dict that carries the correlation id. The asynchronous wrapper
    can also enforce a purpose policy: the purpose must be one of the lanes, a deny probe
    stops the call before the tool runs, and a successful payload is redacted.

    The tool, the policy hooks, the clock and the id generator are parameters: what the
    tool answers (a value or the text of the exception it raised), what the hooks answer,
    the id `new_request_id` would make, and the elapsed milliseconds. */
module Tooling {
  import opened Wrappers
  import opened Text
  import opened JsonValues
  import opened Envelopes
  import Telemetry

  /** The argument names whose values are never logged (`_REDACTION_KEYS`). */
  const RedactionKeys: set<string> := {"auth_bearer", "authorization", "token", "access_token", "api_key", "apikey"}

  /** `sanitize_args_for_log`: the same keys in the same order, a value replaced by the
      redaction token when its lower-cased key is a secret name; no arguments give `{}`. */
  function SanitizeArgs(args: Option<Fields>): (r: Fields)
  {
    var fs := if args.Some? then args.value else [];
    seq(|fs|, i requires 0 <= i < |fs| => (fs[i].0, if Lower(fs[i].0) in RedactionKeys then JStr(RedactToken) else fs[i].1))
  }

  /** What reading key `k` of the sanitised arguments gives: nothing for a key that was not
      passed, the token for a secret name, and the value itself otherwise. */
  lemma SanitizeLookup(args: Option<Fields>, k: string)
    ensures var fs := if args.Some? then args.value else [];
      Lookup(SanitizeArgs(args), k) ==
        match Lookup(fs, k)
        case None => None
        case Some(v) => Some(if Lower(k) in RedactionKeys then JStr(RedactToken) else v)
  {
    var fs := if args.Some? then args.value else [];
    SameKeysSameIndex(fs, SanitizeArgs(args), k);
  }

  /** Sanitising twice changes nothing more. */
  lemma SanitizeIdempotent(args: Option<Fields>)
    ensures SanitizeArgs(Some(SanitizeArgs(args))) == SanitizeArgs(args)
  {
  }

  /** The settings of one instrumented tool (`InstrumentConfig`); the telemetry file name
      is not part of this model. */
  datatype InstrumentConfig = InstrumentConfig(kind: string, name: string, clientId: string,
                                               newCorrIdPerCall: bool, attachCorrId: bool)

  /** The lanes a purpose must belong to and the name of the purpose argument
      (`PolicyConfig`); the three hooks are given by what they answer. */
  datatype PolicyConfig = PolicyConfig(lanes: set<string>, purposeParam: string)

  /** The outside calls one wrapped call makes, in order. */
  datatype Hook = NewRequestId | ApplyPolicy(purpose: string) | CallTool | ApplyPolicySafe(purpose: string) | LastMeta

  /** The telemetry event's arguments and its `ok` flag. */
  datatype Logged = Logged(args: Fields, ok: bool)

  /** One wrapped call: what the caller gets (a failure only when the deny probe itself
      raises), the correlation id it ran under, the hooks it called and what it logged. */
  datatype Outcome = Outcome(payload: Result<Json, string>, corrId: string, calls: seq<Hook>, logged: Option<Logged>)

  /** A fresh id is made when one is asked for on every call or none is set. */
  predicate NeedsNewId(cfg: InstrumentConfig, current: Option<string>) {
    cfg.newCorrIdPerCall || current.None? || current.value == []
  }

  /** The purpose argument as bound (with its default applied), `""` when absent. */
  function RawPurpose(bound: Fields, param: string): Json {
    Lookup(bound, param).GetOr(JStr(""))
  }

  /** `(str(raw) if raw is not None else "").strip().lower()` */
  function PurposeOf(raw: Json): string {
    if raw.JNull? then "" else Norm(PyStr(raw))
  }

  /** The `bad_request` envelope for a purpose outside the lanes, which lists them sorted
      and echoes the raw value under the purpose argument's name. */
  function BadPurpose(pol: PolicyConfig, raw: Json): Json {
    TypedError("bad_request", pol.purposeParam + " must be one of: " + Join(SortedSet(pol.lanes), ", "), JNull, [(pol.purposeParam, raw)])
  }

  /** `isinstance(probe, dict) and probe.get("error", {}).get("code") == "denied_by_policy"`;
      an "error" that is not a dict has no `.get`, which raises. */
  function ProbeDenies(probe: Json): Result<bool, string> {
    if !probe.JObj? then Success(false)
    else
      var e := GetOr(probe, "error", JObj([]));
      if !e.JObj? then Failure("AttributeError: object has no attribute 'get'")
      else Success(Get(e, "code") == Some(JStr("denied_by_policy")))
  }

  /** `payload.setdefault("corr_id", corr_id)` when attaching is on and the payload is a dict. */
  function AttachCorrId(attach: bool, p: Json, corr: string): Json {
    if attach && p.JObj? && !HasKey(p, "corr_id") then JObj(p.fields + [("corr_id", JStr(corr))]) else p
  }

  /** `setdefault` keeps an existing corr_id, adds the call's one otherwise, and touches no
      other key. */
  lemma AttachCorrIdFacts(attach: bool, p: Json, corr: string)
    ensures var r := AttachCorrId(attach, p, corr);
      r.JObj? == p.JObj? &&
      (forall k {:trigger Get(r, k)} :: k != "corr_id" ==> Get(r, k) == Get(p, k)) &&
      Get(r, "corr_id") == (if attach && p.JObj? && !HasKey(p, "corr_id") then Some(JStr(corr)) else Get(p, "corr_id"))
  {
    if attach && p.JObj? && !HasKey(p, "corr_id") {
      AppendBinding(p.fields, ("corr_id", JStr(corr)));
    }
  }

  /** The error the event logs: the payload's "error" when it is truthy. */
  function ErrorOf(payload: Json): Option<Json> {
    if payload.JObj? && Truthy(GetOr(payload, "error", JNull)) then Some(GetOr(payload, "error", JNull)) else None
  }

  /** `typed_error("internal", str(e))` */
  function Internal(e: string): Json {
    TypedError("internal", e, JNull, [])
  }

  /** `d[k] = v` when there is a value to set. */
  function PutIf(fs: Fields, k: string, v: Option<Json>): (r: Fields)
    ensures Lookup(r, k) == if v.Some? then v else Lookup(fs, k)
    ensures forall k2 {:trigger Lookup(r, k2)} :: k2 != k ==> Lookup(r, k2) == Lookup(fs, k2)
  {
    if v.Some? then Put(fs, k, v.value) else fs
  }

  /** The dict of the event's arguments as the wrapper grows it: the sanitised arguments,
      then under a policy the purpose and the policy's metadata, then the error. */
  function LogArgs(bound: Fields, purpose: Option<string>, policyMeta: Option<Json>, error: Option<Json>): Fields {
    var a := [("args", JObj(SanitizeArgs(Some(bound))))];
    PutIf(PutIf(PutIf(a, "purpose", if purpose.Some? then Some(JStr(purpose.value)) else None), "policy", policyMeta), "error", error)
  }

  /** Each entry of the event's arguments reads back as it was put. */
  lemma LogArgsLookup(bound: Fields, purpose: Option<string>, policyMeta: Option<Json>, error: Option<Json>)
    ensures var a := LogArgs(bound, purpose, policyMeta, error);
      Lookup(a, "args") == Some(JObj(SanitizeArgs(Some(bound)))) &&
      Lookup(a, "purpose") == (if purpose.Some? then Some(JStr(purpose.value)) else None) &&
      Lookup(a, "policy") == policyMeta &&
      Lookup(a, "error") == error
  {
    LookupOne("args", JObj(SanitizeArgs(Some(bound))));
  }

  lemma LookupOne(k: string, v: Json)
    ensures Lookup([(k, v)], k) == Some(v)
    ensures forall k2 {:trigger Lookup([(k, v)], k2)} :: k2 != k ==> Lookup([(k, v)], k2) == None
  {
    AppendBinding([], (k, v));
    assert [] + [(k, v)] == [(k, v)];
  }

  /** The tool's answer, redacted by `apply_policy_safe` when the call runs `under` a
      purpose and the answer is a dict without "error"; an exception from the tool or the
      hook becomes an internal error. */
  function Completed(under: Option<string>, tool: Result<Json, string>, safe: Json -> Result<Json, string>): Json {
    match tool
    case Failure(e) => Internal(e)
    case Success(p) =>
      if Redacts(under, tool) then
        (match safe(p)
         case Success(q) => q
         case Failure(e) => Internal(e))
      else p
  }

  /** `apply_policy_safe` is called: policy is on and the tool answered a dict without "error". */
  predicate Redacts(under: Option<string>, tool: Result<Json, string>) {
    under.Some? && tool.Success? && tool.value.JObj? && !HasKey(tool.value, "error")
  }

  /** The purpose a policed call runs under. */
  function PurposeFor(pol: PolicyConfig, bound: Fields): string {
    PurposeOf(RawPurpose(bound, pol.purposeParam))
  }

  /** Where the policy check sends a call: refused for a purpose outside the lanes, stopped
      by a deny probe or by a probe that raises, or on to the tool (with the purpose when a
      policy is set). */
  datatype Gate =
    | Refuse(pol: PolicyConfig, raw: Json, purpose: string)
    | ProbeRaised(purpose: string, err: string)
    | Deny(purpose: string)
    | Proceed(under: Option<string>)

  function GateOf(policy: Option<PolicyConfig>, bound: Fields, probe: Json): Gate {
    if policy.None? then Proceed(None)
    else
      var raw := RawPurpose(bound, policy.value.purposeParam);
      var purpose := PurposeOf(raw);
      if purpose !in policy.value.lanes then Refuse(policy.value, raw, purpose)
      else match ProbeDenies(probe)
        case Failure(e) => ProbeRaised(purpose, e)
        case Success(denied) => if denied then Deny(purpose) else Proceed(Some(purpose))
  }

  /** Which way the gate sends a call, in terms of the inputs. */
  lemma GateFacts(policy: Option<PolicyConfig>, bound: Fields, probe: Json)
    ensures var g := GateOf(policy, bound, probe);
      (g.Refuse? <==> policy.Some? && PurposeFor(policy.value, bound) !in policy.value.lanes) &&
      (g.Refuse? ==> g.pol == policy.value && g.raw == RawPurpose(bound, g.pol.purposeParam) && g.purpose == PurposeFor(g.pol, bound)) &&
      (g.ProbeRaised? <==> policy.Some? && PurposeFor(policy.value, bound) in policy.value.lanes && ProbeDenies(probe).Failure?) &&
      (g.Deny? <==> policy.Some? && PurposeFor(policy.value, bound) in policy.value.lanes && ProbeDenies(probe) == Success(true)) &&
      (g.Proceed? <==> policy.None? || (PurposeFor(policy.value, bound) in policy.value.lanes && ProbeDenies(probe) == Success(false))) &&
      (g.Proceed? ==> g.under == if policy.None? then None else Some(PurposeFor(policy.value, bound))) &&
      (g.ProbeRaised? ==> g.err == ProbeDenies(probe).error) &&
      (g.Deny? || g.ProbeRaised? ==> g.purpose == PurposeFor(policy.value, bound))
  {
  }

  /** What the wrapper answers before the corr_id is set on it, or the probe's exception. */
  function Answer(g: Gate, probe: Json, safe: Json -> Result<Json, string>, tool: Result<Json, string>): Result<Json, string> {
    match g
    case Refuse(pol, raw, _) => Success(BadPurpose(pol, raw))
    case ProbeRaised(_, e) => Failure(e)
    case Deny(_) => Success(probe)
    case Proceed(under) => Success(Completed(under, tool, safe))
  }

  /** The hooks called after the correlation id is settled, in order. */
  function CallsAfter(g: Gate, tool: Result<Json, string>): seq<Hook> {
    match g
    case Refuse(_, _, _) => []
    case ProbeRaised(p, _) => [ApplyPolicy(p)]
    case Deny(p) => [ApplyPolicy(p), LastMeta]
    case Proceed(under) => (if under.Some? then [ApplyPolicy(under.value)] else []) + ToolCalls(under, tool)
  }

  /** The hooks called from the tool on, when a call gets past the gate. */
  function ToolCalls(under: Option<string>, tool: Result<Json, string>): seq<Hook> {
    RunCalls(under, tool) + (if under.Some? then [LastMeta] else [])
  }

  /** The hooks the `try` block calls: the tool, then maybe the redaction hook. */
  function RunCalls(under: Option<string>, tool: Result<Json, string>): seq<Hook> {
    [CallTool] + (if Redacts(under, tool) then [ApplyPolicySafe(under.value)] else [])
  }

  /** The event logged for an answered call `a`. */
  function LogOf(bound: Fields, g: Gate, meta: Json, a: Json): Logged {
    var policyMeta := OrElse(meta, JObj([]));
    match g
    case Proceed(under) =>
      Logged(LogArgs(bound, under, if under.Some? then Some(policyMeta) else None, ErrorOf(a)), !IsError(a))
    case Deny(p) => Logged(LogArgs(bound, Some(p), Some(policyMeta), Some(GetOr(a, "error", JNull))), false)
    case _ => Logged(LogArgs(bound, Some(g.purpose), None, Some(GetOr(a, "error", JNull))), false)
  }

  /** `instrument_async_tool(cfg, policy=policy)` around one call, and with `policy` None
      `instrument_sync_tool(cfg)`. `bound` holds the bound arguments, `current` the request
      id already set, `probe` and `meta` what `apply_policy` and `policy_last_meta` answer. */
  function Wrapped(cfg: InstrumentConfig, policy: Option<PolicyConfig>, bound: Fields, current: Option<string>, newId: string,
                   probe: Json, meta: Json, safe: Json -> Result<Json, string>, tool: Result<Json, string>): Outcome
  {
    var corr := CorrOf(cfg, current, newId);
    var g := GateOf(policy, bound, probe);
    match Answer(g, probe, safe, tool)
    case Failure(e) => Outcome(Failure(e), corr, IdsOf(cfg, current) + CallsAfter(g, tool), None)
    case Success(a) => Outcome(Success(AttachCorrId(cfg.attachCorrId, a, corr)), corr, IdsOf(cfg, current) + CallsAfter(g, tool), Some(LogOf(bound, g, meta, a)))
  }

  /** The correlation id a call runs under. */
  function CorrOf(cfg: InstrumentConfig, current: Option<string>, newId: string): string {
    if NeedsNewId(cfg, current) then newId else current.value
  }

  /** The hooks called while settling the correlation id. */
  function IdsOf(cfg: InstrumentConfig, current: Option<string>): seq<Hook> {
    if NeedsNewId(cfg, current) then [NewRequestId] else []
  }

  /** A wrapped call in terms of its gate and its answer. */
  lemma WrappedParts(cfg: InstrumentConfig, policy: Option<PolicyConfig>, bound: Fields, current: Option<string>, newId: string,
                     probe: Json, meta: Json, safe: Json -> Result<Json, string>, tool: Result<Json, string>)
    ensures var o := Wrapped(cfg, policy, bound, current, newId, probe, meta, safe, tool);
      var g := GateOf(policy, bound, probe);
      var ans := Answer(g, probe, safe, tool);
      o.corrId == CorrOf(cfg, current, newId) && o.calls == IdsOf(cfg, current) + CallsAfter(g, tool) &&
      (ans.Failure? ==> o.payload == Failure(ans.error) && o.logged.None?) &&
      (ans.Success? ==> o.payload == Success(AttachCorrId(cfg.attachCorrId, ans.value, o.corrId)) && o.logged == Some(LogOf(bound, g, meta, ans.value)))
  {
  }

  /** The outcome of a call whose purpose is refused. */
  lemma WrappedRefused(cfg: InstrumentConfig, policy: Option<PolicyConfig>, bound: Fields, current: Option<string>, newId: string,
                       probe: Json, meta: Json, safe: Json -> Result<Json, string>, tool: Result<Json, string>)
    requires policy.Some?
    requires PurposeFor(policy.value, bound) !in policy.value.lanes
    ensures var corr := CorrOf(cfg, current, newId);
      var payload := BadPurpose(policy.value, RawPurpose(bound, policy.value.purposeParam));
      Wrapped(cfg, policy, bound, current, newId, probe, meta, safe, tool) ==
        Outcome(Success(AttachCorrId(cfg.attachCorrId, payload, corr)), corr, IdsOf(cfg, current),
                Some(Logged(LogArgs(bound, Some(PurposeFor(policy.value, bound)), None, Some(GetOr(payload, "error", JNull))), false)))
  {
    assert GateOf(policy, bound, probe) == Refuse(policy.value, RawPurpose(bound, policy.value.purposeParam), PurposeFor(policy.value, bound));
    WrappedParts(cfg, policy, bound, current, newId, probe, meta, safe, tool);
    assert IdsOf(cfg, current) + [] == IdsOf(cfg, current);
  }

  /** The outcome of a call whose deny probe raises. */
  lemma WrappedRaised(cfg: InstrumentConfig, policy: Option<PolicyConfig>, bound: Fields, current: Option<string>, newId: string,
                      probe: Json, meta: Json, safe: Json -> Result<Json, string>, tool: Result<Json, string>)
    requires policy.Some?
    requires PurposeFor(policy.value, bound) in policy.value.lanes && ProbeDenies(probe).Failure?
    ensures Wrapped(cfg, policy, bound, current, newId, probe, meta, safe, tool) ==
      Outcome(Failure(ProbeDenies(probe).error), CorrOf(cfg, current, newId), IdsOf(cfg, current) + [ApplyPolicy(PurposeFor(policy.value, bound))], None)
  {
    assert GateOf(policy, bound, probe) == ProbeRaised(PurposeFor(policy.value, bound), ProbeDenies(probe).error);
    WrappedParts(cfg, policy, bound, current, newId, probe, meta, safe, tool);
  }

  /** The outcome of a call whose deny probe denies. */
  lemma WrappedDenied(cfg: InstrumentConfig, policy: Option<PolicyConfig>, bound: Fields, current: Option<string>, newId: string,
                      probe: Json, meta: Json, safe: Json -> Result<Json, string>, tool: Result<Json, string>)
    requires policy.Some?
    requires PurposeFor(policy.value, bound) in policy.value.lanes && ProbeDenies(probe) == Success(true)
    ensures var corr := CorrOf(cfg, current, newId);
      var p := PurposeFor(policy.value, bound);
      Wrapped(cfg, policy, bound, current, newId, probe, meta, safe, tool) ==
        Outcome(Success(AttachCorrId(cfg.attachCorrId, probe, corr)), corr, (IdsOf(cfg, current) + [ApplyPolicy(p)]) + [LastMeta],
                Some(Logged(LogArgs(bound, Some(p), Some(OrElse(meta, JObj([]))), Some(GetOr(probe, "error", JNull))), false)))
  {
    assert GateOf(policy, bound, probe) == Deny(PurposeFor(policy.value, bound));
    WrappedParts(cfg, policy, bound, current, newId, probe, meta, safe, tool);
    var ids := IdsOf(cfg, current);
    assert ids + [ApplyPolicy(PurposeFor(policy.value, bound)), LastMeta] == (ids + [ApplyPolicy(PurposeFor(policy.value, bound))]) + [LastMeta];
  }

  /** The outcome of a call that gets past the gate, `under` the purpose when a policy is set. */
  lemma WrappedProceeds(cfg: InstrumentConfig, policy: Option<PolicyConfig>, bound: Fields, current: Option<string>, newId: string,
                        probe: Json, meta: Json, safe: Json -> Result<Json, string>, tool: Result<Json, string>, under: Option<string>)
    requires policy.None? ==> under.None?
    requires policy.Some? ==> under == Some(PurposeFor(policy.value, bound)) && under.value in policy.value.lanes && ProbeDenies(probe) == Success(false)
    ensures var corr := CorrOf(cfg, current, newId);
      var payload := Completed(under, tool, safe);
      Wrapped(cfg, policy, bound, current, newId, probe, meta, safe, tool) ==
        Outcome(Success(AttachCorrId(cfg.attachCorrId, payload, corr)), corr,
                (if under.Some? then IdsOf(cfg, current) + [ApplyPolicy(under.value)] else IdsOf(cfg, current)) + ToolCalls(under, tool),
                Some(LogOf(bound, Proceed(under), meta, payload)))
  {
    assert GateOf(policy, bound, probe) == Proceed(under);
    WrappedParts(cfg, policy, bound, current, newId, probe, meta, safe, tool);
    ProceedCalls(IdsOf(cfg, current), under, tool);
  }

  /** The hooks of a call past the gate, regrouped as the wrapper calls them. */
  lemma ProceedCalls(ids: seq<Hook>, under: Option<string>, tool: Result<Json, string>)
    ensures ids + CallsAfter(Proceed(under), tool) == (if under.Some? then ids + [ApplyPolicy(under.value)] else ids) + ToolCalls(under, tool)
  {
    if under.Some? {
      assert ids + ([ApplyPolicy(under.value)] + ToolCalls(under, tool)) == (ids + [ApplyPolicy(under.value)]) + ToolCalls(under, tool);
    } else {
      assert [] + ToolCalls(under, tool) == ToolCalls(under, tool);
    }
  }

  /** Settling the correlation id calls no hook but `new_request_id`. */
  lemma IdsOnlyNew(cfg: InstrumentConfig, current: Option<string>)
    ensures forall h :: h in IdsOf(cfg, current) ==> h == NewRequestId
  {
  }

  /** A probe that denies carries the `denied_by_policy` error. */
  lemma DeniedCode(probe: Json)
    requires ProbeDenies(probe) == Success(true)
    ensures IsError(probe) && ErrorCode(probe) == Some("denied_by_policy")
  {
    assert Get(probe, "error").Some?;
  }

  /** What the logged arguments read back, gate by gate. */
  lemma LogOfArgs(bound: Fields, g: Gate, meta: Json, a: Json)
    ensures var l := LogOf(bound, g, meta, a).args;
      Lookup(l, "args") == Some(JObj(SanitizeArgs(Some(bound)))) &&
      (g.Proceed? ==> Lookup(l, "purpose") == (if g.under.Some? then Some(JStr(g.under.value)) else None) &&
                      (g.under.None? ==> Lookup(l, "policy").None?) && Lookup(l, "error") == ErrorOf(a)) &&
      (!g.Proceed? ==> Lookup(l, "purpose") == Some(JStr(g.purpose)) && Lookup(l, "error") == Some(GetOr(a, "error", JNull)))
  {
    var policyMeta := OrElse(meta, JObj([]));
    match g {
      case Proceed(under) =>
        LogArgsLookup(bound, under, if under.Some? then Some(policyMeta) else None, ErrorOf(a));
      case Deny(p) =>
        LogArgsLookup(bound, Some(p), Some(policyMeta), Some(GetOr(a, "error", JNull)));
      case Refuse(_, _, p) =>
        LogArgsLookup(bound, Some(p), None, Some(GetOr(a, "error", JNull)));
      case ProbeRaised(p, _) =>
        LogArgsLookup(bound, Some(p), None, Some(GetOr(a, "error", JNull)));
    }
  }

  /** Which hooks a gate leads to: never a second id, the tool only past the gate, and
      the redaction hook only then and only on a dict answer without "error". */
  lemma CallsAfterFacts(g: Gate, tool: Result<Json, string>)
    ensures var c := CallsAfter(g, tool);
      NewRequestId !in c &&
      (g.Refuse? ==> c == []) &&
      (CallTool in c <==> g.Proceed?) &&
      ((exists h :: h in c && h.ApplyPolicySafe?) <==> g.Proceed? && Redacts(g.under, tool))
  {
    var c := CallsAfter(g, tool);
    if g.Proceed? && Redacts(g.under, tool) {
      assert c[2] == ApplyPolicySafe(g.under.value);
    }
  }

  /** `setdefault` on the answer leaves its "error" and its being a dict as they were. */
  lemma AttachKeepsError(attach: bool, p: Json, corr: string)
    ensures var r := AttachCorrId(attach, p, corr);
      r.JObj? == p.JObj? && Get(r, "error") == Get(p, "error") && (IsError(r) <==> IsError(p))
  {
    AttachCorrIdFacts(attach, p, corr);
    assert Get(AttachCorrId(attach, p, corr), "error") == Get(p, "error");
  }

  /** Only a raising probe makes the answer a failure; an answered call is logged as ok
      exactly when the answer has no "error" (a refusal and a denial always have one). */
  lemma AnswerOk(g: Gate, probe: Json, safe: Json -> Result<Json, string>, tool: Result<Json, string>, bound: Fields, meta: Json)
    requires g.Deny? ==> ProbeDenies(probe) == Success(true)
    ensures var ans := Answer(g, probe, safe, tool);
      (ans.Failure? <==> g.ProbeRaised?) &&
      (ans.Success? ==> (LogOf(bound, g, meta, ans.value).ok <==> !IsError(ans.value)))
  {
    if g.Deny? {
      assert Get(probe, "error").Some?;
    }
  }

  /** A purpose outside the lanes is refused with `bad_request` (the lanes sorted in the
      message) before any hook or the tool is called, and the refusal is logged as not ok. */
  lemma BadPurposeRefused(cfg: InstrumentConfig, pol: PolicyConfig, bound: Fields, current: Option<string>, newId: string,
                          probe: Json, meta: Json, safe: Json -> Result<Json, string>, tool: Result<Json, string>)
    requires PurposeFor(pol, bound) !in pol.lanes
    requires pol.purposeParam != "error"
    ensures var o := Wrapped(cfg, Some(pol), bound, current, newId, probe, meta, safe, tool);
      o.payload.Success? &&
      ErrorCode(o.payload.value) == Some("bad_request") &&
      ErrorMessage(o.payload.value) == Some(pol.purposeParam + " must be one of: " + Join(SortedSet(pol.lanes), ", ")) &&
      (forall h :: h in o.calls ==> h == NewRequestId) &&
      o.logged.Some? && !o.logged.value.ok
  {
    WrappedRefused(cfg, Some(pol), bound, current, newId, probe, meta, safe, tool);
    var raw := RawPurpose(bound, pol.purposeParam);
    LookupOne(pol.purposeParam, raw);
    AttachKeepsError(cfg.attachCorrId, BadPurpose(pol, raw), CorrOf(cfg, current, newId));
  }

  /** A probe that denies is answered as it is (with the corr_id set by default): the tool
      and the redaction hook are never called, and the call is logged as not ok. */
  lemma DenyFast(cfg: InstrumentConfig, pol: PolicyConfig, bound: Fields, current: Option<string>, newId: string,
                 probe: Json, meta: Json, safe: Json -> Result<Json, string>, tool: Result<Json, string>)
    requires PurposeFor(pol, bound) in pol.lanes
    requires ProbeDenies(probe) == Success(true)
    ensures var o := Wrapped(cfg, Some(pol), bound, current, newId, probe, meta, safe, tool);
      o.payload == Success(AttachCorrId(cfg.attachCorrId, probe, o.corrId)) &&
      ErrorCode(o.payload.value) == Some("denied_by_policy") &&
      CallTool !in o.calls && (forall h :: h in o.calls ==> !h.ApplyPolicySafe?) &&
      o.logged.Some? && !o.logged.value.ok
  {
    WrappedDenied(cfg, Some(pol), bound, current, newId, probe, meta, safe, tool);
    AttachKeepsError(cfg.attachCorrId, probe, CorrOf(cfg, current, newId));
    DeniedCode(probe);
    IdsOnlyNew(cfg, current);
  }

  /** The wrapped tool runs exactly when no policy is set, or the purpose is a lane and
      the probe neither denies nor raises; the redaction hook runs exactly when, besides,
      a policy is set and the tool answered a dict without "error". */
  lemma ToolAndRedactionCalled(cfg: InstrumentConfig, policy: Option<PolicyConfig>, bound: Fields, current: Option<string>, newId: string,
                               probe: Json, meta: Json, safe: Json -> Result<Json, string>, tool: Result<Json, string>)
    ensures var calls := Wrapped(cfg, policy, bound, current, newId, probe, meta, safe, tool).calls;
      (CallTool in calls <==>
        policy.None? || (PurposeFor(policy.value, bound) in policy.value.lanes && ProbeDenies(probe) == Success(false))) &&
      ((exists h :: h in calls && h.ApplyPolicySafe?) <==>
        (policy.Some? && PurposeFor(policy.value, bound) in policy.value.lanes && ProbeDenies(probe) == Success(false) &&
         tool.Success? && tool.value.JObj? && !HasKey(tool.value, "error")))
  {
    WrappedParts(cfg, policy, bound, current, newId, probe, meta, safe, tool);
    GateFacts(policy, bound, probe);
    var g := GateOf(policy, bound, probe);
    CallsAfterFacts(g, tool);
    var ids := IdsOf(cfg, current);
    var calls := ids + CallsAfter(g, tool);
    assert forall h :: h in calls <==> h in ids || h in CallsAfter(g, tool);
  }

  /** An exception from the tool is never passed on: the caller gets an internal error
      carrying its text. */
  lemma ToolExceptionIsInternal(cfg: InstrumentConfig, policy: Option<PolicyConfig>, bound: Fields, current: Option<string>, newId: string,
                                probe: Json, meta: Json, safe: Json -> Result<Json, string>, e: string)
    ensures var o := Wrapped(cfg, policy, bound, current, newId, probe, meta, safe, Failure(e));
      CallTool in o.calls ==>
        o.payload.Success? && ErrorCode(o.payload.value) == Some("internal") && ErrorMessage(o.payload.value) == Some(e) &&
        o.logged.Some? && !o.logged.value.ok
  {
    WrappedParts(cfg, policy, bound, current, newId, probe, meta, safe, Failure(e));
    var g := GateOf(policy, bound, probe);
    CallsAfterFacts(g, Failure(e));
    if g.Proceed? {
      var corr := CorrOf(cfg, current, newId);
      AttachCorrIdFacts(cfg.attachCorrId, Internal(e), corr);
      assert Get(AttachCorrId(cfg.attachCorrId, Internal(e), corr), "error") == Get(Internal(e), "error");
    } else {
      assert CallTool !in IdsOf(cfg, current) + CallsAfter(g, Failure(e));
    }
  }

  /** The caller gets a failure only when the deny probe's "error" is not a dict; every
      answered call is logged, and logged as ok exactly when the answer has no "error" key. */
  lemma OkIffNoError(cfg: InstrumentConfig, policy: Option<PolicyConfig>, bound: Fields, current: Option<string>, newId: string,
                     probe: Json, meta: Json, safe: Json -> Result<Json, string>, tool: Result<Json, string>)
    ensures var o := Wrapped(cfg, policy, bound, current, newId, probe, meta, safe, tool);
      (o.payload.Failure? <==> policy.Some? && PurposeFor(policy.value, bound) in policy.value.lanes && ProbeDenies(probe).Failure?) &&
      (o.logged.Some? <==> o.payload.Success?) &&
      (o.payload.Success? ==> (o.logged.value.ok <==> !IsError(o.payload.value)))
  {
    WrappedParts(cfg, policy, bound, current, newId, probe, meta, safe, tool);
    GateFacts(policy, bound, probe);
    var g := GateOf(policy, bound, probe);
    AnswerOk(g, probe, safe, tool, bound, meta);
    var answer := Answer(g, probe, safe, tool);
    if answer.Success? {
      AttachKeepsError(cfg.attachCorrId, answer.value, CorrOf(cfg, current, newId));
    }
  }

  /** A fresh correlation id is made exactly when one is asked for on every call or none is
      set; otherwise the call runs under the one already set. */
  lemma CorrIdRule(cfg: InstrumentConfig, policy: Option<PolicyConfig>, bound: Fields, current: Option<string>, newId: string,
                   probe: Json, meta: Json, safe: Json -> Result<Json, string>, tool: Result<Json, string>)
    ensures var o := Wrapped(cfg, policy, bound, current, newId, probe, meta, safe, tool);
      (NewRequestId in o.calls <==> cfg.newCorrIdPerCall || current.None? || current.value == []) &&
      (NewRequestId in o.calls ==> o.corrId == newId) &&
      (NewRequestId !in o.calls ==> Some(o.corrId) == current)
  {
    if policy.Some? && PurposeFor(policy.value, bound) !in policy.value.lanes {
      WrappedRefused(cfg, policy, bound, current, newId, probe, meta, safe, tool);
    } else if policy.Some? && ProbeDenies(probe).Failure? {
      WrappedRaised(cfg, policy, bound, current, newId, probe, meta, safe, tool);
    } else if policy.Some? && ProbeDenies(probe).value {
      WrappedDenied(cfg, policy, bound, current, newId, probe, meta, safe, tool);
    } else {
      var under := if policy.Some? then Some(PurposeFor(policy.value, bound)) else None;
      WrappedProceeds(cfg, policy, bound, current, newId, probe, meta, safe, tool, under);
    }
  }

  /** Every logged event carries the sanitised arguments, under a policy the purpose and
      the policy's metadata (`{}` when it has none), and the error of an error answer. */
  lemma LoggedArgs(cfg: InstrumentConfig, policy: Option<PolicyConfig>, bound: Fields, current: Option<string>, newId: string,
                   probe: Json, meta: Json, safe: Json -> Result<Json, string>, tool: Result<Json, string>)
    ensures var o := Wrapped(cfg, policy, bound, current, newId, probe, meta, safe, tool);
      o.logged.Some? ==>
        var a := o.logged.value.args;
        Lookup(a, "args") == Some(JObj(SanitizeArgs(Some(bound)))) &&
        (policy.Some? ==> Lookup(a, "purpose") == Some(JStr(PurposeFor(policy.value, bound)))) &&
        (policy.None? ==> Lookup(a, "purpose").None? && Lookup(a, "policy").None?) &&
        (o.payload.value.JObj? && Truthy(GetOr(o.payload.value, "error", JNull)) ==> Lookup(a, "error") == Get(o.payload.value, "error"))
  {
    WrappedParts(cfg, policy, bound, current, newId, probe, meta, safe, tool);
    GateFacts(policy, bound, probe);
    var g := GateOf(policy, bound, probe);
    var answer := Answer(g, probe, safe, tool);
    if answer.Success? {
      LogOfArgs(bound, g, meta, answer.value);
      AttachKeepsError(cfg.attachCorrId, answer.value, CorrOf(cfg, current, newId));
    }
  }

  /** The request id of the running context (a context variable). */
  class RequestContext {
    var requestId: Option<string>

    constructor (requestId: Option<string>)
      ensures this.requestId == requestId
    {
      this.requestId := requestId;
    }
  }

  /** `get_request_id()`, and a new id set when one is needed. */
  method SettleCorrId(cfg: InstrumentConfig, ctx: RequestContext, newId: string) returns (corr: string, calls: seq<Hook>)
    modifies ctx
    ensures corr == CorrOf(cfg, old(ctx.requestId), newId) && calls == IdsOf(cfg, old(ctx.requestId))
    ensures ctx.requestId == Some(corr)
  {
    calls := [];
    if cfg.newCorrIdPerCall || ctx.requestId.None? || ctx.requestId.value == [] {
      corr := newId;
      calls := calls + [NewRequestId];
      ctx.requestId := Some(corr);
    } else {
      corr := ctx.requestId.value;
    }
  }

  /** The call past the gate: the tool runs, and under a purpose a dict answer without
      "error" is redacted (an exception from either becomes an internal error); then the
      policy's metadata and the answer's error join the logged arguments `args`. */
  method ProceedCall(cfg: InstrumentConfig, log: Telemetry.TelemetryFile, bound: Fields, under: Option<string>, meta: Json,
                     safe: Json -> Result<Json, string>, tool: Result<Json, string>, args: Fields, corr: string, ts: string, ms: int)
    returns (r: Json, calls: seq<Hook>)
    requires args == PutIf([("args", JObj(SanitizeArgs(Some(bound))))], "purpose", if under.Some? then Some(JStr(under.value)) else None)
    modifies log
    ensures var l := LogOf(bound, Proceed(under), meta, Completed(under, tool, safe));
      r == AttachCorrId(cfg.attachCorrId, Completed(under, tool, safe), corr) && calls == ToolCalls(under, tool) &&
      (log.disabled ==> log.present == old(log.present) && log.lines == old(log.lines)) &&
      (!log.disabled ==>
        log.present &&
        log.lines == old(log.lines) + [Some(Telemetry.EventRecord(ts, cfg.kind, cfg.name, Some(l.args), l.ok, ms,
                                                                 Some(cfg.clientId), Some(corr), Some(corr), log.salt, log.digest))])
  {
    var payload;
    payload, calls := RunTool(under, tool, safe);
    var ok := !IsError(payload);
    var argsForLog := args;
    if under.Some? {
      calls := calls + [LastMeta];
      argsForLog := Put(argsForLog, "policy", OrElse(meta, JObj([])));
    }
    assert argsForLog == PutIf(args, "policy", if under.Some? then Some(OrElse(meta, JObj([]))) else None);
    if payload.JObj? && Truthy(GetOr(payload, "error", JNull)) {
      argsForLog := Put(argsForLog, "error", GetOr(payload, "error", JNull));
    }
    assert argsForLog == LogOf(bound, Proceed(under), meta, payload).args;
    r := LogAndAnswer(cfg, log, ts, ms, argsForLog, ok, corr, payload);
  }

  /** The `try` block: the tool runs, and under a purpose a dict answer without "error" is
      redacted; an exception from either becomes an internal error. */
  method RunTool(under: Option<string>, tool: Result<Json, string>, safe: Json -> Result<Json, string>)
    returns (payload: Json, calls: seq<Hook>)
    ensures payload == Completed(under, tool, safe) && calls == RunCalls(under, tool)
    ensures payload.JObj? && tool.Success? && !Redacts(under, tool) ==> payload == tool.value
    ensures tool.Failure? ==> IsError(payload)
  {
    calls := [CallTool];
    match tool {
      case Failure(e) =>
        payload := Internal(e);
      case Success(p) =>
        payload := p;
        if under.Some? && p.JObj? && !HasKey(p, "error") {
          calls := calls + [ApplyPolicySafe(under.value)];
          match safe(p) {
            case Success(q) => payload := q;
            case Failure(e) => payload := Internal(e);
          }
        }
    }
  }

  /** A purpose outside the lanes: the `bad_request` envelope, its error logged beside the
      purpose, and the call answered. */
  method RefuseCall(cfg: InstrumentConfig, log: Telemetry.TelemetryFile, bound: Fields, pol: PolicyConfig, raw: Json,
                    args: Fields, corr: string, ts: string, ms: int) returns (r: Json)
    requires args == PutIf([("args", JObj(SanitizeArgs(Some(bound))))], "purpose", Some(JStr(PurposeOf(raw))))
    modifies log
    ensures var payload := BadPurpose(pol, raw);
      var l := LogArgs(bound, Some(PurposeOf(raw)), None, Some(GetOr(payload, "error", JNull)));
      r == AttachCorrId(cfg.attachCorrId, payload, corr) &&
      (log.disabled ==> log.present == old(log.present) && log.lines == old(log.lines)) &&
      (!log.disabled ==>
        log.present &&
        log.lines == old(log.lines) + [Some(Telemetry.EventRecord(ts, cfg.kind, cfg.name, Some(l), false, ms,
                                                                 Some(cfg.clientId), Some(corr), Some(corr), log.salt, log.digest))])
  {
    var payload := BadPurpose(pol, raw);
    var argsForLog := Put(args, "error", GetOr(payload, "error", JNull));
    assert argsForLog == LogArgs(bound, Some(PurposeOf(raw)), None, Some(GetOr(payload, "error", JNull)));
    r := LogAndAnswer(cfg, log, ts, ms, argsForLog, false, corr, payload);
  }

  /** A probe that denies: the policy's metadata and the probe's error are logged beside
      the purpose, and the probe is the answer. */
  method DenyCall(cfg: InstrumentConfig, log: Telemetry.TelemetryFile, bound: Fields, purpose: string, probe: Json, meta: Json,
                  args: Fields, corr: string, ts: string, ms: int) returns (r: Json)
    requires args == PutIf([("args", JObj(SanitizeArgs(Some(bound))))], "purpose", Some(JStr(purpose)))
    modifies log
    ensures var l := LogArgs(bound, Some(purpose), Some(OrElse(meta, JObj([]))), Some(GetOr(probe, "error", JNull)));
      r == AttachCorrId(cfg.attachCorrId, probe, corr) &&
      (log.disabled ==> log.present == old(log.present) && log.lines == old(log.lines)) &&
      (!log.disabled ==>
        log.present &&
        log.lines == old(log.lines) + [Some(Telemetry.EventRecord(ts, cfg.kind, cfg.name, Some(l), false, ms,
                                                                 Some(cfg.clientId), Some(corr), Some(corr), log.salt, log.digest))])
  {
    var argsForLog := Put(args, "policy", OrElse(meta, JObj([])));
    argsForLog := Put(argsForLog, "error", GetOr(probe, "error", JNull));
    assert argsForLog == LogArgs(bound, Some(purpose), Some(OrElse(meta, JObj([]))), Some(GetOr(probe, "error", JNull)));
    r := LogAndAnswer(cfg, log, ts, ms, argsForLog, false, corr, probe);
  }

  /** The last steps every answered call takes: the event is logged under the call's
      correlation id and the payload gets its corr_id. */
  method LogAndAnswer(cfg: InstrumentConfig, log: Telemetry.TelemetryFile, ts: string, ms: int,
                      args: Fields, ok: bool, corr: string, payload: Json) returns (r: Json)
    modifies log
    ensures r == AttachCorrId(cfg.attachCorrId, payload, corr)
    ensures log.disabled ==> log.present == old(log.present) && log.lines == old(log.lines)
    ensures !log.disabled ==>
      log.present &&
      log.lines == old(log.lines) + [Some(Telemetry.EventRecord(ts, cfg.kind, cfg.name, Some(args), ok, ms,
                                                               Some(cfg.clientId), Some(corr), Some(corr), log.salt, log.digest))]
  {
    log.LogEvent(ts, cfg.kind, cfg.name, Some(args), ok, ms, Some(cfg.clientId), Some(corr), Some(corr));
    r := AttachCorrId(cfg.attachCorrId, payload, corr);
  }

  /** `instrument_async_tool`'s wrapper, step by step: the correlation id is settled and
      set, the arguments dict for the log grows as the call proceeds, the event is logged
      and the payload gets its corr_id. `ts` and `ms` are the clock's readings. */
  method InstrumentAsync(cfg: InstrumentConfig, policy: Option<PolicyConfig>, ctx: RequestContext, log: Telemetry.TelemetryFile,
                         bound: Fields, newId: string, probe: Json, meta: Json, safe: Json -> Result<Json, string>,
                         tool: Result<Json, string>, ts: string, ms: int)
    returns (r: Result<Json, string>, calls: seq<Hook>)
    modifies ctx, log
    ensures var o := Wrapped(cfg, policy, bound, old(ctx.requestId), newId, probe, meta, safe, tool);
      r == o.payload && calls == o.calls && ctx.requestId == Some(o.corrId) &&
      (o.logged.None? || log.disabled ==> log.present == old(log.present) && log.lines == old(log.lines)) &&
      (o.logged.Some? && !log.disabled ==>
        log.present &&
        log.lines == old(log.lines) + [Some(Telemetry.EventRecord(ts, cfg.kind, cfg.name, Some(o.logged.value.args), o.logged.value.ok, ms,
                                                                 Some(cfg.clientId), Some(o.corrId), Some(o.corrId), log.salt, log.digest))])
  {
    ghost var current := ctx.requestId;
    var corr;
    corr, calls := SettleCorrId(cfg, ctx, newId);
    var argsForLog := [("args", JObj(SanitizeArgs(Some(bound))))];
    var purpose: Option<string> := None;
    var gateOpen := true;
    if policy.Some? {
      var raw := RawPurpose(bound, policy.value.purposeParam);
      purpose := Some(PurposeOf(raw));
      argsForLog := Put(argsForLog, "purpose", JStr(purpose.value));
      if purpose.value !in policy.value.lanes {
        WrappedRefused(cfg, policy, bound, current, newId, probe, meta, safe, tool);
        var answer := RefuseCall(cfg, log, bound, policy.value, raw, argsForLog, corr, ts, ms);
        r, gateOpen := Success(answer), false;
      } else {
        calls := calls + [ApplyPolicy(purpose.value)];
        var denies := ProbeDenies(probe);
        if denies.Failure? {
          WrappedRaised(cfg, policy, bound, current, newId, probe, meta, safe, tool);
          r, gateOpen := Failure(denies.error), false;
        } else if denies.value {
          WrappedDenied(cfg, policy, bound, current, newId, probe, meta, safe, tool);
          calls := calls + [LastMeta];
          var answer := DenyCall(cfg, log, bound, purpose.value, probe, meta, argsForLog, corr, ts, ms);
          r, gateOpen := Success(answer), false;
        }
      }
    }
    if gateOpen {
      WrappedProceeds(cfg, policy, bound, current, newId, probe, meta, safe, tool, purpose);
      var answer, toolCalls := ProceedCall(cfg, log, bound, purpose, meta, safe, tool, argsForLog, corr, ts, ms);
      calls := calls + toolCalls;
      r := Success(answer);
    }
  }

  /** `instrument_sync_tool`'s wrapper: the same without a policy. The arguments are
      bound without defaults, which `bound` reflects. */
  method InstrumentSync(cfg: InstrumentConfig, ctx: RequestContext, log: Telemetry.TelemetryFile,
                        bound: Fields, newId: string, tool: Result<Json, string>, ts: string, ms: int)
    returns (r: Json)
    modifies ctx, log
    ensures var o := Wrapped(cfg, None, bound, old(ctx.requestId), newId, JNull, JNull, p => Success(p), tool);
      Success(r) == o.payload && ctx.requestId == Some(o.corrId) &&
      (log.disabled ==> log.present == old(log.present) && log.lines == old(log.lines)) &&
      (!log.disabled ==>
        log.present &&
        log.lines == old(log.lines) + [Some(Telemetry.EventRecord(ts, cfg.kind, cfg.name, Some(o.logged.value.args), o.logged.value.ok, ms,
                                                                 Some(cfg.clientId), Some(o.corrId), Some(o.corrId), log.salt, log.digest))])
  {
    WrappedParts(cfg, None, bound, ctx.requestId, newId, JNull, JNull, p => Success(p), tool);
    var corr: string;
    if cfg.newCorrIdPerCall || ctx.requestId.None? || ctx.requestId.value == [] {
      corr := newId;
      ctx.requestId := Some(corr);
    } else {
      corr := ctx.requestId.value;
    }
    var argsForLog := [("args", JObj(SanitizeArgs(Some(bound))))];
    var payload := match tool case Success(p) => p case Failure(e) => Internal(e);
    assert payload == Completed(None, tool, p => Success(p));
    var ok := !IsError(payload);
    if payload.JObj? && Truthy(GetOr(payload, "error", JNull)) {
      argsForLog := Put(argsForLog, "error", GetOr(payload, "error", JNull));
    }
    assert argsForLog == LogOf(bound, Proceed(None), JNull, payload).args;
    r := LogAndAnswer(cfg, log, ts, ms, argsForLog, ok, corr, payload);
  }
}
