/** The walk-data governor of `src/hdt_mcp/governor.py`: one request reads the vault first
    (auto, vault), falls back to the live sources in preference order, writes a live success
    through to the vault, re-reads the vault after a total live failure under auto, and shapes
    the envelope for the caller's purpose lane. */
module Governor {
  import opened Wrappers
  import opened Text
  import opened JsonValues
  import opened Envelopes

  /** One entry of the `attempts` trace, kept structured; `AttemptJson` renders the dict
      the code appends. */
  datatype Attempt =
    | VaultHit(tag: Tag)
    | VaultMiss(tag: Tag, why: VaultMissReason)
    | LiveHit(src: Source)
    | LiveMiss(src: Source, payload: Json)
    | WriteFailed(message: string)

  /** Why a vault read did not give a hit. */
  datatype VaultMissReason = Disabled | Empty | ReadFailed(message: string)

  /** The `ok` flag of an attempt. */
  predicate Ok(a: Attempt) {
    a.VaultHit? || a.LiveHit?
  }

  /** The `source` label of an attempt. */
  function AttemptSource(a: Attempt): string {
    match a
    case VaultHit(t) => TagName(t)
    case VaultMiss(t, _) => TagName(t)
    case LiveHit(s) => SourceName(s)
    case LiveMiss(s, _) => SourceName(s)
    case WriteFailed(_) => "vault_write"
  }

  /** The `error` dict of a failed attempt. */
  function AttemptError(a: Attempt): Json
    requires !Ok(a)
  {
    match a
    case VaultMiss(_, Disabled) => ErrorBody("vault_disabled", "Vault disabled")
    case VaultMiss(_, Empty) => ErrorBody("vault_empty", "Vault has no walk records for this query")
    case VaultMiss(_, ReadFailed(m)) => ErrorBody("vault_read_failed", m)
    case LiveMiss(_, p) => FailureInfo(p)
    case WriteFailed(m) => ErrorBody("vault_write_failed", m)
  }

  /** The dict appended to `attempts`: `source` and `ok`, and `error` when it failed. */
  function AttemptJson(a: Attempt): (j: Json)
    ensures Get(j, "source") == Some(JStr(AttemptSource(a)))
    ensures Get(j, "ok") == Some(JBool(Ok(a)))
    ensures Get(j, "error") == if Ok(a) then None else Some(AttemptError(a))
  {
    var f1 := Put([], "source", JStr(AttemptSource(a)));
    var f2 := Put(f1, "ok", JBool(Ok(a)));
    assert Lookup(f2, "source") == Lookup(f1, "source");
    assert Lookup(f2, "error") == Lookup(f1, "error") == Lookup([], "error");
    if Ok(a) then JObj(f2)
    else
      var f3 := Put(f2, "error", AttemptError(a));
      assert Lookup(f3, "source") == Lookup(f2, "source");
      assert Lookup(f3, "ok") == Lookup(f2, "ok");
      JObj(f3)
  }

  function AttemptsJson(atts: seq<Attempt>): (j: Json)
    ensures j.JList? && |j.items| == |atts|
    ensures forall i :: 0 <= i < |atts| ==> j.items[i] == AttemptJson(atts[i])
  {
    JList(seq(|atts|, i requires 0 <= i < |atts| => AttemptJson(atts[i])))
  }

  /** What one vault read answers: a payload, or the exception it raised. */
  datatype VaultAnswer = VaultReturned(payload: Json) | VaultRaised(message: string)

  /** The two vault reads one request can make: the first one and the fallback after every
      live source failed. The tag only labels the attempt; both read the same query. */
  datatype Tag = Primary | Fallback

  function TagName(t: Tag): string {
    match t
    case Primary => "vault"
    case Fallback => "vault_fallback"
  }

  /** The two live walk sources. */
  datatype Source = GameBus | GoogleFit

  function SourceName(s: Source): string {
    match s
    case GameBus => "gamebus"
    case GoogleFit => "googlefit"
  }

  /** The outside world as one request sees it: whether the vault is enabled, what each
      vault read answers (the two may differ: a concurrent writer can fill the vault in
      between), what each source's walk tool answers, the texts the JSON decoder accepts
      with the values it decodes them to, and whether the write-through raises. */
  datatype World = World(
    vaultEnabled: bool,
    primaryRead: VaultAnswer,
    fallbackRead: VaultAnswer,
    gamebusAnswer: Json,
    googlefitAnswer: Json,
    decoded: map<string, Json>,
    writeError: Option<string>)

  function VaultAnswerOf(w: World, t: Tag): VaultAnswer {
    match t
    case Primary => w.primaryRead
    case Fallback => w.fallbackRead
  }

  function ToolAnswer(w: World, s: Source): Json {
    match s
    case GameBus => w.gamebusAnswer
    case GoogleFit => w.googlefitAnswer
  }

  /** An effect on the outside world, in the order the request makes it. */
  datatype Call = VaultRead(tag: Tag) | ToolCall(src: Source) | VaultWrite(src: Source, records: Json)

  // ---------------------------------------------------------------------------
  // Purpose-lane shaping

  /** Connector identifiers the analytics lane removes from a dict provenance. */
  const IdentifierKeys: seq<string> := ["player_id", "email", "token", "account_user_id", "external_user_id"]

  /** The bindings of `fs` without any of the keys `ks`. */
  function DropKeys(fs: Fields, ks: seq<string>): (r: Fields)
    ensures forall k {:trigger Lookup(r, k)} :: Lookup(r, k) == if k in ks then None else Lookup(fs, k)
    decreases |ks|
  {
    if ks == [] then fs else DropKeys(Without(fs, ks[0]), ks[1..])
  }

  /** `out` is the provenance `prov` with the connector identifiers removed when it is a dict,
      and `prov` itself otherwise. */
  ghost predicate Minimised(out: Json, prov: Json) {
    if prov.JObj? then
      out.JObj? && forall k :: Get(out, k) == if k in IdentifierKeys then None else Get(prov, k)
    else out == prov
  }

  /** The keys of the traceability fields: the only payload fields a shaped envelope keeps. */
  const BaseKeys: set<string> := {"user_id", "kind", "selected_source", "attempts", "purpose"}

  /** Two writes leave every other key as it was. */
  lemma PutTwoKeepsRest(fs: Fields, k1: string, v1: Json, k2: string, v2: Json)
    requires k1 != k2
    ensures var r := Put(Put(fs, k1, v1), k2, v2);
      Lookup(r, k1) == Some(v1) && Lookup(r, k2) == Some(v2) &&
      forall k :: k != k1 && k != k2 ==> Lookup(r, k) == Lookup(fs, k)
  {
    var f1 := Put(fs, k1, v1);
    var r := Put(f1, k2, v2);
    assert Lookup(r, k1) == Lookup(f1, k1);
    forall k | k != k1 && k != k2 ensures Lookup(r, k) == Lookup(fs, k) {
      assert Lookup(r, k) == Lookup(f1, k);
    }
  }

  /** The traceability fields every shaped envelope starts from. */
  function ShapedBase(payload: Json, p: string): (fs: Fields)
    ensures Lookup(fs, "user_id") == Some(GetOr(payload, "user_id", JNull))
    ensures Lookup(fs, "kind") == Some(GetOr(payload, "kind", JNull))
    ensures Lookup(fs, "selected_source") == Some(GetOr(payload, "selected_source", JNull))
    ensures Lookup(fs, "attempts") == Some(GetOr(payload, "attempts", JList([])))
    ensures Lookup(fs, "purpose") == Some(JStr(p))
    ensures forall k :: Lookup(fs, k).Some? <==> k in BaseKeys
    ensures Lookup(fs, "error") == None
  {
    var fs := [("user_id", GetOr(payload, "user_id", JNull)), ("kind", GetOr(payload, "kind", JNull)),
               ("selected_source", GetOr(payload, "selected_source", JNull)),
               ("attempts", GetOr(payload, "attempts", JList([]))), ("purpose", JStr(p))];
    LookupAt(fs, 0);
    LookupAt(fs, 1);
    LookupAt(fs, 2);
    LookupAt(fs, 3);
    LookupAt(fs, 4);
    LookupAbsent(fs, "error");
    forall k | k !in BaseKeys ensures Lookup(fs, k) == None {
      LookupAbsent(fs, k);
    }
    fs
  }

  /** The base fields followed by the records and the given provenance: a success that keeps
      the traceability fields. */
  function WithRecords(payload: Json, p: string, prov: Json): (r: Json)
    ensures r.JObj? && !IsError(r)
    ensures Get(r, "records") == Some(GetOr(payload, "records", JList([])))
    ensures Get(r, "provenance") == Some(prov)
    ensures Get(r, "purpose") == Some(JStr(p))
    ensures Get(r, "user_id") == Some(GetOr(payload, "user_id", JNull))
    ensures Get(r, "kind") == Some(GetOr(payload, "kind", JNull))
    ensures Get(r, "selected_source") == Some(GetOr(payload, "selected_source", JNull))
    ensures Get(r, "attempts") == Some(GetOr(payload, "attempts", JList([])))
    ensures forall k :: Get(r, k).Some? <==> k in BaseKeys || k == "records" || k == "provenance"
  {
    var base := ShapedBase(payload, p);
    var fs := Put(Put(base, "records", GetOr(payload, "records", JList([]))), "provenance", prov);
    PutTwoKeepsRest(base, "records", GetOr(payload, "records", JList([])), "provenance", prov);
    assert Lookup(fs, "error") == Lookup(base, "error");
    JObj(fs)
  }

  /** The analytics provenance: a dict loses its connector identifiers. */
  function MinimisedProvenance(prov: Json): (r: Json)
    ensures Minimised(r, prov)
  {
    if prov.JObj? then JObj(DropKeys(prov.fields, IdentifierKeys)) else prov
  }

  const ModelingMessage := "Raw fetch tools are not available for modeling. Use a modeling-safe features tool."

  /** The `not_supported` refusal of raw records to the modeling lane. */
  function ModelingRefusal(payload: Json): (r: Json)
    ensures ErrorCode(r) == Some("not_supported") && Get(r, "purpose") == Some(JStr("modeling"))
    ensures Get(r, "user_id") == Some(GetOr(payload, "user_id", JNull)) && !HasKey(r, "records")
  {
    var extra := Put(Put([], "user_id", GetOr(payload, "user_id", JNull)), "purpose", JStr("modeling"));
    TypedError("not_supported", ModelingMessage, JNull, extra)
  }

  /** `_shape_for_purpose`: error and non-dict payloads pass through; modeling is refused;
      coaching keeps records and provenance; any other lane keeps records and minimises a
      dict provenance. */
  function ShapeForPurpose(payload: Json, purpose: string): (r: Json)
    ensures !payload.JObj? || IsError(payload) ==> r == payload
    ensures payload.JObj? && !IsError(payload) && Norm(purpose) == "modeling" ==>
      r == ModelingRefusal(payload)
  {
    var p := Norm(purpose);
    if !payload.JObj? || IsError(payload) then payload
    else if p == "coaching" then WithRecords(payload, p, GetOr(payload, "provenance", JObj([])))
    else if p == "modeling" then ModelingRefusal(payload)
    else WithRecords(payload, p, MinimisedProvenance(GetOr(payload, "provenance", JObj([]))))
  }

  /** Outside the modeling lane a successful payload keeps its traceability fields and its
      records, is tagged with the normalised purpose, and stays a success. */
  lemma ShapeKeepsTrace(payload: Json, purpose: string)
    requires payload.JObj? && !IsError(payload) && Norm(purpose) != "modeling"
    ensures var r := ShapeForPurpose(payload, purpose);
      !IsError(r) &&
      Get(r, "purpose") == Some(JStr(Norm(purpose))) &&
      Get(r, "user_id") == Some(GetOr(payload, "user_id", JNull)) &&
      Get(r, "selected_source") == Some(GetOr(payload, "selected_source", JNull)) &&
      Get(r, "attempts") == Some(GetOr(payload, "attempts", JList([]))) &&
      Get(r, "records") == Some(GetOr(payload, "records", JList([])))
  {
    var p := Norm(purpose);
    var given := GetOr(payload, "provenance", JObj([]));
    var prov := if p == "coaching" then given else MinimisedProvenance(given);
    assert ShapeForPurpose(payload, purpose) == WithRecords(payload, p, prov);
  }

  /** The coaching lane passes the provenance through unchanged. */
  lemma ShapeCoachingProvenance(payload: Json, purpose: string)
    requires payload.JObj? && !IsError(payload) && Norm(purpose) == "coaching"
    ensures Get(ShapeForPurpose(payload, purpose), "provenance") == Some(GetOr(payload, "provenance", JObj([])))
  {
  }

  /** Every lane other than coaching and modeling removes the connector identifiers from a
      dict provenance and keeps everything else in it. */
  lemma ShapeMinimisesProvenance(payload: Json, purpose: string)
    requires payload.JObj? && !IsError(payload) && Norm(purpose) != "coaching" && Norm(purpose) != "modeling"
    ensures var r := ShapeForPurpose(payload, purpose);
      HasKey(r, "provenance") && Minimised(Get(r, "provenance").value, GetOr(payload, "provenance", JObj([])))
  {
  }

  // ---------------------------------------------------------------------------
  // Decoding tool output

  /** `_as_json`: text that, stripped, starts with `{` or `[` is decoded; text the decoder
      rejects, other text and every non-text value come back unchanged. */
  function AsJson(obj: Json, decoded: map<string, Json>): (r: Json)
    ensures !obj.JStr? ==> r == obj
    ensures obj.JStr? && r != obj ==>
      var s := Strip(obj.s);
      s != [] && (s[0] == '{' || s[0] == '[') && s in decoded && decoded[s] == r
    ensures (obj.JStr? && Strip(obj.s) != [] && (Strip(obj.s)[0] == '{' || Strip(obj.s)[0] == '[') &&
             Strip(obj.s) in decoded) ==> r == decoded[Strip(obj.s)]
  {
    if obj.JStr? then
      var s := Strip(obj.s);
      if s != [] && (s[0] == '{' || s[0] == '[') && s in decoded then decoded[s] else obj
    else obj
  }

  // ---------------------------------------------------------------------------
  // Vault helpers

  /** The outcome of `_vault_try_read_walk`: the payload on a hit, the one attempt it
      appends, and the read it makes. */
  datatype VaultTry = VaultTry(hit: Option<Json>, attempt: Attempt, calls: seq<Call>)

  /** A vault payload counts as a hit when it is a dict whose "records" are truthy. */
  predicate HasRecords(v: Json) {
    v.JObj? && Truthy(GetOr(v, "records", JNull))
  }

  function VaultTryRead(w: World, tag: Tag): (t: VaultTry)
    ensures t.hit.Some? <==> Ok(t.attempt)
    ensures t.hit.Some? <==> w.vaultEnabled && VaultAnswerOf(w, tag).VaultReturned? && HasRecords(VaultAnswerOf(w, tag).payload)
    ensures t.hit.Some? ==> t.hit.value == VaultAnswerOf(w, tag).payload && t.attempt == VaultHit(tag)
    ensures t.calls == if w.vaultEnabled then [VaultRead(tag)] else []
    ensures !w.vaultEnabled ==> t.attempt == VaultMiss(tag, Disabled)
    ensures w.vaultEnabled && t.hit.None? && VaultAnswerOf(w, tag).VaultReturned? ==> t.attempt == VaultMiss(tag, Empty)
    ensures w.vaultEnabled && VaultAnswerOf(w, tag).VaultRaised? ==>
      t.attempt == VaultMiss(tag, ReadFailed(VaultAnswerOf(w, tag).message))
  {
    if !w.vaultEnabled then VaultTry(None, VaultMiss(tag, Disabled), [])
    else
      match VaultAnswerOf(w, tag)
      case VaultReturned(v) =>
        if HasRecords(v) then VaultTry(Some(v), VaultHit(tag), [VaultRead(tag)])
        else VaultTry(None, VaultMiss(tag, Empty), [VaultRead(tag)])
      case VaultRaised(m) => VaultTry(None, VaultMiss(tag, ReadFailed(m)), [VaultRead(tag)])
  }

  /** The attempts `_vault_try_write_walk` appends and the write it makes. */
  datatype WriteTry = WriteTry(attempts: seq<Attempt>, calls: seq<Call>)

  function VaultTryWrite(w: World, src: Source, records: Json): (t: WriteTry)
    ensures !w.vaultEnabled ==> t.attempts == [] && t.calls == []
    ensures w.vaultEnabled ==> t.calls == [VaultWrite(src, OrElse(records, JList([])))]
    ensures t.attempts == if w.vaultEnabled && w.writeError.Some? then [WriteFailed(w.writeError.value)] else []
  {
    if !w.vaultEnabled then WriteTry([], [])
    else
      var call := [VaultWrite(src, OrElse(records, JList([])))];
      match w.writeError
      case Some(m) => WriteTry([WriteFailed(m)], call)
      case None => WriteTry([], call)
  }

  // ---------------------------------------------------------------------------
  // Live sources

  /** The live order: gamebus first exactly when `prefer.lower() == "gamebus"`. */
  function LiveOrder(prefer: string): (order: seq<Source>)
    ensures order == [GameBus, GoogleFit] <==> Lower(prefer) == "gamebus"
    ensures order == [GoogleFit, GameBus] <==> Lower(prefer) != "gamebus"
  {
    if Lower(prefer) == "gamebus" then [GameBus, GoogleFit] else [GoogleFit, GameBus]
  }

  /** The Sources MCP tool that fetches a source's walk data. */
  function WalkTool(src: Source): string {
    "source." + SourceName(src) + ".walk.fetch.v1"
  }

  /** A live payload is a success when it is a dict without an "error" key. */
  predicate IsSuccess(p: Json) {
    p.JObj? && !IsError(p)
  }

  /** The error recorded for a failed live payload. */
  function FailureInfo(p: Json): Json {
    if p.JObj? then GetOr(p, "error", JObj([])) else ErrorBody("unknown", PyStr(p))
  }

  /** The decoded answer of source `src`'s walk tool. */
  function LivePayload(w: World, src: Source): Json {
    AsJson(ToolAnswer(w, src), w.decoded)
  }

  function FailedAttempt(w: World, src: Source): Attempt {
    LiveMiss(src, LivePayload(w, src))
  }

  /** The outcome of trying `order` in turn: the first success and the failures before it,
      or every failure. */
  datatype LiveOutcome = LiveOk(source: Source, payload: Json, failed: seq<Attempt>) | AllFailed(failed: seq<Attempt>)

  lemma ToolCallsSnoc(order: seq<Source>, src: Source)
    ensures ToolCalls(order + [src]) == ToolCalls(order) + [ToolCall(src)]
  {
    assert forall i :: 0 <= i < |order| ==> (order + [src])[i] == order[i];
  }

  function Prepend(f: seq<Attempt>, o: LiveOutcome): LiveOutcome {
    match o
    case LiveOk(s, p, fs) => LiveOk(s, p, f + fs)
    case AllFailed(fs) => AllFailed(f + fs)
  }

  lemma PrependTwice(f: seq<Attempt>, g: seq<Attempt>, o: LiveOutcome)
    ensures Prepend(f, Prepend(g, o)) == Prepend(f + g, o)
  {
    assert f + (g + o.failed) == f + g + o.failed;
  }

  /** The outcome of trying the sources `order[i..]` in turn. */
  function LiveFrom(w: World, order: seq<Source>, i: nat): (o: LiveOutcome)
    requires i <= |order|
    ensures o.LiveOk? ==> i + |o.failed| < |order| && o.payload.JObj? && IsSuccess(o.payload)
    ensures o.AllFailed? ==> i + |o.failed| == |order|
    decreases |order| - i
  {
    if i == |order| then AllFailed([])
    else if IsSuccess(LivePayload(w, order[i])) then LiveOk(order[i], LivePayload(w, order[i]), [])
    else Prepend([FailedAttempt(w, order[i])], LiveFrom(w, order, i + 1))
  }

  /** The outcome of trying every source of `order` in turn. */
  function LiveTry(w: World, order: seq<Source>): (o: LiveOutcome)
    ensures o.LiveOk? ==> |o.failed| < |order| && o.payload.JObj? && IsSuccess(o.payload)
    ensures o.AllFailed? ==> |o.failed| == |order|
  {
    LiveFrom(w, order, 0)
  }

  function ToolCalls(order: seq<Source>): (cs: seq<Call>)
    ensures |cs| == |order| && forall i :: 0 <= i < |order| ==> cs[i] == ToolCall(order[i])
  {
    seq(|order|, i requires 0 <= i < |order| => ToolCall(order[i]))
  }

  /** From position `i`: the selected source is the first one whose payload is a success,
      every earlier one failed and was recorded in order; when none succeeds, every source
      failed and was recorded in order. */
  lemma {:induction false} LiveFromFirstSuccess(w: World, order: seq<Source>, i: nat)
    requires i <= |order|
    ensures LiveFrom(w, order, i).LiveOk? ==>
      var o := LiveFrom(w, order, i);
      o.source == order[i + |o.failed|] && o.payload == LivePayload(w, o.source)
    ensures forall j :: i <= j < i + |LiveFrom(w, order, i).failed| ==>
      !IsSuccess(LivePayload(w, order[j])) && LiveFrom(w, order, i).failed[j - i] == FailedAttempt(w, order[j])
    decreases |order| - i
  {
    if i < |order| && !IsSuccess(LivePayload(w, order[i])) {
      LiveFromFirstSuccess(w, order, i + 1);
      var rest := LiveFrom(w, order, i + 1);
      var o := LiveFrom(w, order, i);
      assert o.failed == [FailedAttempt(w, order[i])] + rest.failed;
      forall j | i < j < i + |o.failed|
        ensures !IsSuccess(LivePayload(w, order[j])) && o.failed[j - i] == FailedAttempt(w, order[j])
      {
        assert o.failed[j - i] == rest.failed[j - (i + 1)];
      }
    }
  }


  /** Stop at the first success: the selected source is the first one in `order` whose
      payload is a success, every earlier one failed and was recorded in order; when none
      succeeds, every source failed and was recorded in order. */
  lemma LiveTryFirstSuccess(w: World, order: seq<Source>)
    ensures LiveTry(w, order).LiveOk? ==>
      var o := LiveTry(w, order);
      |o.failed| < |order| && o.source == order[|o.failed|] &&
      o.payload == LivePayload(w, o.source) && IsSuccess(o.payload) &&
      forall j :: 0 <= j < |o.failed| ==> !IsSuccess(LivePayload(w, order[j])) && o.failed[j] == FailedAttempt(w, order[j])
    ensures LiveTry(w, order).AllFailed? ==>
      var o := LiveTry(w, order);
      |o.failed| == |order| &&
      forall j :: 0 <= j < |order| ==> !IsSuccess(LivePayload(w, order[j])) && o.failed[j] == FailedAttempt(w, order[j])
  {
    LiveFromFirstSuccess(w, order, 0);
    var o := LiveTry(w, order);
    forall j | 0 <= j < |o.failed|
      ensures !IsSuccess(LivePayload(w, order[j])) && o.failed[j] == FailedAttempt(w, order[j])
    {
      assert order[j] == order[0 + j];
    }
  }

  // ---------------------------------------------------------------------------
  // fetch_walk

  /** The arguments of one `fetch_walk` call that decide its course. The date window and
      paging arguments are forwarded unchanged to the vault and to every source tool, so
      the world's answers already stand for them. */
  datatype WalkRequest = WalkRequest(userId: int, prefer: string, preferData: string, purpose: string)

  /** `(prefer_data or "auto").strip().lower()` */
  function DataMode(req: WalkRequest): string {
    Norm(if req.preferData == "" then "auto" else req.preferData)
  }

  predicate ValidMode(m: string) {
    m == "auto" || m == "vault" || m == "live"
  }

  /** A successful payload stamped with its source and the attempts trace. */
  function Stamp(v: Json, src: string, atts: seq<Attempt>): (r: Json)
    requires v.JObj?
    ensures r.JObj? && Get(r, "selected_source") == Some(JStr(src)) && Get(r, "attempts") == Some(AttemptsJson(atts))
    ensures IsError(r) == IsError(v)
  {
    JObj(Put(Put(v.fields, "selected_source", JStr(src)), "attempts", AttemptsJson(atts)))
  }

  /** The `bad_request` error for an unknown `prefer_data`. */
  function BadRequest(req: WalkRequest): (r: Json)
    ensures IsError(r) && ErrorCode(r) == Some("bad_request")
    ensures Get(r, "user_id") == Some(JInt(req.userId)) && Get(r, "prefer_data") == Some(JStr(req.preferData))
    ensures Get(r, "purpose") == Some(JStr(Norm(req.purpose)))
  {
    var f1 := Put([], "user_id", JInt(req.userId));
    var f2 := Put(f1, "prefer_data", JStr(req.preferData));
    var f3 := Put(f2, "purpose", JStr(Norm(req.purpose)));
    assert Lookup(f3, "error") == Lookup(f2, "error") == Lookup(f1, "error") == Lookup([], "error");
    TypedError("bad_request", "prefer_data must be one of: auto, vault, live", JNull, f3)
  }

  const VaultEmptyMessage := "prefer_data=vault requested but vault had no matching data"

  /** The `vault_empty` error of a vault-only miss; its details are the attempts so far. */
  function VaultEmpty(req: WalkRequest, atts: seq<Attempt>): (r: Json)
    ensures IsError(r) && ErrorCode(r) == Some("vault_empty")
    ensures ErrorDetails(r) == if atts == [] then None else Some(AttemptsJson(atts))
  {
    var f1 := Put([], "user_id", JInt(req.userId));
    var f2 := Put(f1, "purpose", JStr(Norm(req.purpose)));
    assert Lookup(f2, "error") == Lookup(f1, "error") == Lookup([], "error");
    assert Truthy(AttemptsJson(atts)) <==> atts != [];
    TypedError("vault_empty", VaultEmptyMessage, AttemptsJson(atts), f2)
  }

  /** The error built after every live source failed. Its details are the attempts list
      object itself, so they include the `vault_fallback` attempt appended after it. */
  function AllSourcesFailed(userId: int, atts: seq<Attempt>): (r: Json)
    ensures ErrorCode(r) == Some("all_sources_failed") && ErrorDetails(r) == Some(AttemptsJson(atts))
  {
    var body := Put(ErrorBody("all_sources_failed", "All walk sources failed for this user/request.").fields, "details", AttemptsJson(atts));
    JObj(Put(Put([], "error", JObj(body)), "user_id", JInt(userId)))
  }

  /** What one `fetch_walk` call returns, the attempts it recorded and the calls it made. */
  datatype Run = Run(result: Json, attempts: seq<Attempt>, calls: seq<Call>)

  /** The first vault read under auto and vault. */
  function FirstRead(w: World, mode: string): (t: Option<VaultTry>)
    ensures t.Some? <==> mode == "auto" || mode == "vault"
  {
    if mode == "auto" || mode == "vault" then Some(VaultTryRead(w, Primary)) else None
  }

  function AttemptsOf(t: Option<VaultTry>): seq<Attempt> {
    if t.Some? then [t.value.attempt] else []
  }

  function CallsOf(t: Option<VaultTry>): seq<Call> {
    if t.Some? then t.value.calls else []
  }

  /** The live phase and the auto fallback, after the attempts `a0` and calls `c0`. */
  function LivePhase(w: World, req: WalkRequest, mode: string, a0: seq<Attempt>, c0: seq<Call>): Run {
    var order := LiveOrder(req.prefer);
    match LiveTry(w, order)
    case LiveOk(src, p, failed) =>
      LiveWin(w, src, p, a0 + failed, c0 + ToolCalls(order[..|failed| + 1]))
    case AllFailed(failed) =>
      LiveLoss(w, req, mode, a0 + failed, c0 + ToolCalls(order))
  }

  /** Source `src` answered `p`: record its success, write the records through, stamp. */
  function LiveWin(w: World, src: Source, p: Json, atts: seq<Attempt>, calls: seq<Call>): Run
    requires p.JObj?
  {
    var wt := VaultTryWrite(w, src, GetOr(p, "records", JList([])));
    var atts2 := atts + [LiveHit(src)] + wt.attempts;
    Run(Stamp(p, SourceName(src), atts2), atts2, calls + wt.calls)
  }

  /** Every live source failed: under auto read the fallback vault, else give up. */
  function LiveLoss(w: World, req: WalkRequest, mode: string, atts: seq<Attempt>, calls: seq<Call>): Run {
    if mode == "auto" then
      var fb := VaultTryRead(w, Fallback);
      var atts2 := atts + [fb.attempt];
      if fb.hit.Some? then Run(Stamp(fb.hit.value, "vault", atts2), atts2, calls + fb.calls)
      else Run(AllSourcesFailed(req.userId, atts2), atts2, calls + fb.calls)
    else Run(AllSourcesFailed(req.userId, atts), atts, calls)
  }

  /** What `fetch_walk` has built just before shaping it for the purpose lane. */
  function WalkUnshaped(w: World, req: WalkRequest): Run {
    var mode := DataMode(req);
    if !ValidMode(mode) then Run(BadRequest(req), [], [])
    else
      var first := FirstRead(w, mode);
      var a0 := AttemptsOf(first);
      var c0 := CallsOf(first);
      if first.Some? && first.value.hit.Some? then Run(Stamp(first.value.hit.value, "vault", a0), a0, c0)
      else if mode == "vault" then Run(VaultEmpty(req, a0), a0, c0)
      else LivePhase(w, req, mode, a0, c0)
  }

  /** The specification of `HDTGovernor.fetch_walk`: every return path shapes its result
      for the purpose lane. */
  function WalkSpec(w: World, req: WalkRequest): Run {
    var u := WalkUnshaped(w, req);
    Run(ShapeForPurpose(u.result, req.purpose), u.attempts, u.calls)
  }

  /** `HDTGovernor.fetch_walk`, with the attempts list appended to as the code does. */
  method FetchWalk(w: World, req: WalkRequest) returns (result: Json, attempts: seq<Attempt>, calls: seq<Call>)
    ensures Run(result, attempts, calls) == WalkSpec(w, req)
  {
    var raw: Json;
    raw, attempts, calls := FetchWalkUnshaped(w, req);
    result := ShapeForPurpose(raw, req.purpose);
  }

  /** The body of `fetch_walk` up to the shaping each of its returns applies. */
  method FetchWalkUnshaped(w: World, req: WalkRequest) returns (result: Json, attempts: seq<Attempt>, calls: seq<Call>)
    ensures Run(result, attempts, calls) == WalkUnshaped(w, req)
  {
    attempts := [];
    calls := [];
    var mode := DataMode(req);
    if !ValidMode(mode) {
      result := BadRequest(req);
      return;
    }
    ghost var first := FirstRead(w, mode);
    if mode == "auto" || mode == "vault" {
      var t := VaultTryRead(w, Primary);
      attempts := attempts + [t.attempt];
      calls := calls + t.calls;
      assert attempts == AttemptsOf(first) && calls == CallsOf(first);
      if t.hit.Some? {
        result := Stamp(t.hit.value, "vault", attempts);
        return;
      }
    }
    assert attempts == AttemptsOf(first) && calls == CallsOf(first);
    if mode == "vault" {
      result := VaultEmpty(req, attempts);
      return;
    }
    result, attempts, calls := LiveSources(w, req, mode, attempts, calls);
  }

  /** The live loop of `fetch_walk` and its auto fallback. */
  method LiveSources(w: World, req: WalkRequest, mode: string, a0: seq<Attempt>, c0: seq<Call>)
    returns (result: Json, attempts: seq<Attempt>, calls: seq<Call>)
    ensures Run(result, attempts, calls) == LivePhase(w, req, mode, a0, c0)
  {
    var order := LiveOrder(req.prefer);
    var outcome;
    outcome, attempts, calls := LiveLoop(w, order, a0, c0);
    if outcome.LiveOk? {
      result, attempts, calls := WriteThrough(w, outcome.source, outcome.payload, attempts, calls);
    } else {
      result, attempts, calls := FallbackOrFail(w, req, mode, attempts, calls);
    }
  }

  /** The tool calls of the live loop, one source after the other until the first success;
      each failure is appended to the attempts as it happens. */
  method LiveLoop(w: World, order: seq<Source>, a0: seq<Attempt>, c0: seq<Call>)
    returns (outcome: LiveOutcome, attempts: seq<Attempt>, calls: seq<Call>)
    ensures outcome == LiveTry(w, order)
    ensures attempts == a0 + outcome.failed
    ensures outcome.LiveOk? ==> calls == c0 + ToolCalls(order[..|outcome.failed| + 1])
    ensures outcome.AllFailed? ==> calls == c0 + ToolCalls(order)
  {
    attempts, calls := a0, c0;
    var failed: seq<Attempt> := [];
    var i := 0;
    while i < |order|
      invariant 0 <= i <= |order| && |failed| == i
      invariant attempts == a0 + failed
      invariant calls == c0 + ToolCalls(order[..i])
      invariant LiveTry(w, order) == Prepend(failed, LiveFrom(w, order, i))
      decreases |order| - i
    {
      var src := order[i];
      var payload := LivePayload(w, src);
      assert order[..i + 1] == order[..i] + [src];
      ToolCallsSnoc(order[..i], src);
      calls := calls + [ToolCall(src)];
      if IsSuccess(payload) {
        assert failed + [] == failed;
        return LiveOk(src, payload, failed), attempts, calls;
      }
      PrependTwice(failed, [FailedAttempt(w, src)], LiveFrom(w, order, i + 1));
      failed := failed + [FailedAttempt(w, src)];
      attempts := attempts + [FailedAttempt(w, src)];
      i := i + 1;
    }
    assert order[..i] == order;
    assert failed + [] == failed;
    return AllFailed(failed), attempts, calls;
  }

  /** The success branch of the live loop: the write-through and the stamped payload. */
  method WriteThrough(w: World, src: Source, payload: Json, a0: seq<Attempt>, c0: seq<Call>)
    returns (result: Json, attempts: seq<Attempt>, calls: seq<Call>)
    requires payload.JObj?
    ensures Run(result, attempts, calls) == LiveWin(w, src, payload, a0, c0)
  {
    attempts := a0 + [LiveHit(src)];
    var wt := VaultTryWrite(w, src, GetOr(payload, "records", JList([])));
    attempts := attempts + wt.attempts;
    calls := c0 + wt.calls;
    result := Stamp(payload, SourceName(src), attempts);
  }

  /** After the live loop: the fallback vault read under auto, else `all_sources_failed`. */
  method FallbackOrFail(w: World, req: WalkRequest, mode: string, a0: seq<Attempt>, c0: seq<Call>)
    returns (result: Json, attempts: seq<Attempt>, calls: seq<Call>)
    ensures Run(result, attempts, calls) == LiveLoss(w, req, mode, a0, c0)
  {
    attempts, calls := a0, c0;
    if mode == "auto" {
      var fb := VaultTryRead(w, Fallback);
      attempts := attempts + [fb.attempt];
      calls := calls + fb.calls;
      if fb.hit.Some? {
        result := Stamp(fb.hit.value, "vault", attempts);
        return;
      }
    }
    result := AllSourcesFailed(req.userId, attempts);
  }

}
