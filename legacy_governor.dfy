/** The older governor of `hdt_mcp/mcp_governor.py`: the same vault-first, live-fallback
    course as `Governor`, without purpose shaping, with error envelopes that carry
    `prefer_data` instead of the purpose, and with a JSON decoder that is not guarded, so a
    tool answer that looks like JSON but does not decode raises out of the request. */
module LegacyGovernor {
  import opened Wrappers
  import opened Text
  import opened JsonValues
  import opened Envelopes
  import opened Governor

  /** Stripped text that `_as_json` hands to the decoder. */
  predicate LooksLikeJson(s: string) {
    s != [] && (s[0] == '{' || s[0] == '[')
  }

  /** `_as_json` of the older governors: the decoder's error is not caught. */
  function Decode(obj: Json, decoded: map<string, Json>): Result<Json, string> {
    if obj.JStr? && LooksLikeJson(Strip(obj.s)) then
      if Strip(obj.s) in decoded then Success(decoded[Strip(obj.s)]) else Failure("JSONDecodeError")
    else Success(obj)
  }

  /** The unguarded decoder agrees with the guarded one wherever it does not raise, and it
      raises exactly on text that looks like JSON and does not decode. */
  lemma DecodeAgrees(obj: Json, decoded: map<string, Json>)
    ensures Decode(obj, decoded).Success? ==> Decode(obj, decoded).value == AsJson(obj, decoded)
    ensures Decode(obj, decoded).Failure? <==> obj.JStr? && LooksLikeJson(Strip(obj.s)) && Strip(obj.s) !in decoded
  {
  }

  /** The decoded answer of source `src`'s walk tool, or the decoder's exception. */
  function DecodedAnswer(w: World, src: Source): Result<Json, string> {
    Decode(ToolAnswer(w, src), w.decoded)
  }

  /** Both sources answer something the decoder accepts. */
  predicate Decodable(w: World) {
    DecodedAnswer(w, GameBus).Success? && DecodedAnswer(w, GoogleFit).Success?
  }

  /** The live loop's outcome: as in `Governor`, or the exception of the source at
      position `|before|`, after the failures `before`. */
  datatype LegacyOutcome = Live(o: LiveOutcome) | DecodeRaised(before: seq<Attempt>, message: string)

  function PrependL(f: seq<Attempt>, lo: LegacyOutcome): LegacyOutcome {
    match lo
    case Live(o) => Live(Prepend(f, o))
    case DecodeRaised(fs, m) => DecodeRaised(f + fs, m)
  }

  lemma PrependLTwice(f: seq<Attempt>, g: seq<Attempt>, lo: LegacyOutcome)
    ensures PrependL(f, PrependL(g, lo)) == PrependL(f + g, lo)
  {
    match lo
    case Live(o) => PrependTwice(f, g, o);
    case DecodeRaised(fs, m) => assert f + (g + fs) == f + g + fs;
  }

  /** Trying the sources `order[i..]` in turn. */
  function LegacyLiveFrom(w: World, order: seq<Source>, i: nat): (lo: LegacyOutcome)
    requires i <= |order|
    ensures lo.DecodeRaised? ==> i + |lo.before| < |order|
    ensures lo.Live? && lo.o.LiveOk? ==> i + |lo.o.failed| < |order| && lo.o.payload.JObj?
    ensures lo.Live? && lo.o.AllFailed? ==> i + |lo.o.failed| == |order|
    decreases |order| - i
  {
    if i == |order| then Live(AllFailed([]))
    else
      match DecodedAnswer(w, order[i])
      case Failure(m) => DecodeRaised([], m)
      case Success(p) =>
        if IsSuccess(p) then Live(LiveOk(order[i], p, []))
        else PrependL([LiveMiss(order[i], p)], LegacyLiveFrom(w, order, i + 1))
  }

  /** When every answer decodes, the older live loop has the outcome of the current one; an
      exception comes from the first source whose answer does not decode. */
  lemma {:induction false} LegacyLiveAgrees(w: World, order: seq<Source>, i: nat)
    requires i <= |order|
    ensures Decodable(w) ==> LegacyLiveFrom(w, order, i) == Live(LiveFrom(w, order, i))
    ensures LegacyLiveFrom(w, order, i).DecodeRaised? ==>
      DecodedAnswer(w, order[i + |LegacyLiveFrom(w, order, i).before|]).Failure?
    decreases |order| - i
  {
    if i < |order| {
      DecodeAgrees(ToolAnswer(w, order[i]), w.decoded);
      var d := DecodedAnswer(w, order[i]);
      if d.Success? && !IsSuccess(d.value) {
        LegacyLiveAgrees(w, order, i + 1);
        var rest := LegacyLiveFrom(w, order, i + 1);
        if rest.DecodeRaised? {
          assert i + |LegacyLiveFrom(w, order, i).before| == i + 1 + |rest.before|;
        }
      }
    }
  }

  /** What one call returns or raises, the attempts it recorded and the calls it made. */
  datatype LegacyRun = LegacyRun(result: Result<Json, string>, attempts: seq<Attempt>, calls: seq<Call>)

  function Returned(r: Run): LegacyRun {
    LegacyRun(Success(r.result), r.attempts, r.calls)
  }

  /** The `bad_request` error: it echoes `prefer_data` and has no purpose. */
  function LegacyBadRequest(req: WalkRequest): (r: Json)
    ensures ErrorCode(r) == Some("bad_request")
    ensures Get(r, "prefer_data") == Some(JStr(req.preferData)) && !HasKey(r, "purpose")
  {
    var extra := [("user_id", JInt(req.userId)), ("prefer_data", JStr(req.preferData))];
    LookupAbsent(extra, "error");
    LookupAbsent(extra, "purpose");
    LookupAt(extra, 1);
    TypedError("bad_request", "prefer_data must be one of: auto, vault, live", JNull, extra)
  }

  /** The `vault_empty` error of a vault-only miss, with the attempts as details. */
  function LegacyVaultEmpty(userId: int, atts: seq<Attempt>): (r: Json)
    ensures ErrorCode(r) == Some("vault_empty")
    ensures ErrorDetails(r) == if atts == [] then None else Some(AttemptsJson(atts))
  {
    var extra := [("user_id", JInt(userId))];
    LookupAbsent(extra, "error");
    assert Truthy(AttemptsJson(atts)) <==> atts != [];
    TypedError("vault_empty", VaultEmptyMessage, AttemptsJson(atts), extra)
  }

  /** The live phase and the auto fallback, after the attempts `a0` and calls `c0`. */
  function LegacyLivePhase(w: World, req: WalkRequest, mode: string, a0: seq<Attempt>, c0: seq<Call>): LegacyRun {
    var order := LiveOrder(req.prefer);
    match LegacyLiveFrom(w, order, 0)
    case DecodeRaised(before, m) => LegacyRun(Failure(m), a0 + before, c0 + ToolCalls(order[..|before| + 1]))
    case Live(LiveOk(src, p, failed)) => Returned(LiveWin(w, src, p, a0 + failed, c0 + ToolCalls(order[..|failed| + 1])))
    case Live(AllFailed(failed)) => Returned(LiveLoss(w, req, mode, a0 + failed, c0 + ToolCalls(order)))
  }

  /** The specification of the older `HDTGovernor.fetch_walk`; the purpose is not read. */
  function LegacyWalkSpec(w: World, req: WalkRequest): LegacyRun {
    var mode := DataMode(req);
    if !ValidMode(mode) then LegacyRun(Success(LegacyBadRequest(req)), [], [])
    else
      var first := FirstRead(w, mode);
      var a0 := AttemptsOf(first);
      var c0 := CallsOf(first);
      if first.Some? && first.value.hit.Some? then Returned(Run(Stamp(first.value.hit.value, "vault", a0), a0, c0))
      else if mode == "vault" then LegacyRun(Success(LegacyVaultEmpty(req.userId, a0)), a0, c0)
      else LegacyLivePhase(w, req, mode, a0, c0)
  }

  /** The older `HDTGovernor.fetch_walk`. */
  method LegacyFetchWalk(w: World, req: WalkRequest) returns (result: Result<Json, string>, attempts: seq<Attempt>, calls: seq<Call>)
    ensures LegacyRun(result, attempts, calls) == LegacyWalkSpec(w, req)
  {
    attempts := [];
    calls := [];
    var mode := DataMode(req);
    if !ValidMode(mode) {
      result := Success(LegacyBadRequest(req));
      return;
    }
    ghost var first := FirstRead(w, mode);
    if mode == "auto" || mode == "vault" {
      var t := VaultTryRead(w, Primary);
      attempts := attempts + [t.attempt];
      calls := calls + t.calls;
      assert attempts == AttemptsOf(first) && calls == CallsOf(first);
      if t.hit.Some? {
        result := Success(Stamp(t.hit.value, "vault", attempts));
        return;
      }
    }
    assert attempts == AttemptsOf(first) && calls == CallsOf(first);
    if mode == "vault" {
      result := Success(LegacyVaultEmpty(req.userId, attempts));
      return;
    }
    result, attempts, calls := LegacyLiveSources(w, req, mode, attempts, calls);
  }

  method LegacyLiveSources(w: World, req: WalkRequest, mode: string, a0: seq<Attempt>, c0: seq<Call>)
    returns (result: Result<Json, string>, attempts: seq<Attempt>, calls: seq<Call>)
    ensures LegacyRun(result, attempts, calls) == LegacyLivePhase(w, req, mode, a0, c0)
  {
    var order := LiveOrder(req.prefer);
    var outcome;
    outcome, attempts, calls := LegacyLiveLoop(w, order, a0, c0);
    if outcome.DecodeRaised? {
      return Failure(outcome.message), attempts, calls;
    }
    var r: Json;
    if outcome.o.LiveOk? {
      r, attempts, calls := WriteThrough(w, outcome.o.source, outcome.o.payload, attempts, calls);
    } else {
      r, attempts, calls := FallbackOrFail(w, req, mode, attempts, calls);
    }
    result := Success(r);
  }

  /** The live loop: each source's answer is decoded, where the decoder may raise, and each
      failure is appended to the attempts as it happens. */
  method LegacyLiveLoop(w: World, order: seq<Source>, a0: seq<Attempt>, c0: seq<Call>)
    returns (outcome: LegacyOutcome, attempts: seq<Attempt>, calls: seq<Call>)
    ensures outcome == LegacyLiveFrom(w, order, 0)
    ensures outcome.DecodeRaised? ==>
      attempts == a0 + outcome.before && calls == c0 + ToolCalls(order[..|outcome.before| + 1])
    ensures outcome.Live? ==> attempts == a0 + outcome.o.failed
    ensures outcome.Live? && outcome.o.LiveOk? ==> calls == c0 + ToolCalls(order[..|outcome.o.failed| + 1])
    ensures outcome.Live? && outcome.o.AllFailed? ==> calls == c0 + ToolCalls(order)
  {
    attempts, calls := a0, c0;
    var failed: seq<Attempt> := [];
    var i := 0;
    while i < |order|
      invariant 0 <= i <= |order| && |failed| == i
      invariant attempts == a0 + failed
      invariant calls == c0 + ToolCalls(order[..i])
      invariant LegacyLiveFrom(w, order, 0) == PrependL(failed, LegacyLiveFrom(w, order, i))
      decreases |order| - i
    {
      var src := order[i];
      var d := DecodedAnswer(w, src);
      assert order[..i + 1] == order[..i] + [src];
      ToolCallsSnoc(order[..i], src);
      calls := calls + [ToolCall(src)];
      if d.Failure? {
        assert failed + [] == failed;
        return DecodeRaised(failed, d.error), attempts, calls;
      }
      if IsSuccess(d.value) {
        assert failed + [] == failed;
        return Live(LiveOk(src, d.value, failed)), attempts, calls;
      }
      PrependLTwice(failed, [LiveMiss(src, d.value)], LegacyLiveFrom(w, order, i + 1));
      failed := failed + [LiveMiss(src, d.value)];
      attempts := attempts + [LiveMiss(src, d.value)];
      i := i + 1;
    }
    assert order[..i] == order;
    assert failed + [] == failed;
    return Live(AllFailed(failed)), attempts, calls;
  }

  /** When both sources answer decodable values, the older governor does what the current
      one does before shaping, except for its two own error envelopes. */
  lemma LegacyAgreesWithCurrent(w: World, req: WalkRequest)
    requires Decodable(w) && ValidMode(DataMode(req))
    requires !(DataMode(req) == "vault" && VaultTryRead(w, Primary).hit.None?)
    ensures LegacyWalkSpec(w, req) == Returned(WalkUnshaped(w, req))
  {
    LegacyLiveAgrees(w, LiveOrder(req.prefer), 0);
  }

  /** An unknown `prefer_data` is refused before any vault read or source call. */
  lemma LegacyBadRequestTouchesNothing(w: World, req: WalkRequest)
    requires !ValidMode(DataMode(req))
    ensures var r := LegacyWalkSpec(w, req);
      r.calls == [] && r.attempts == [] && r.result.Success? && ErrorCode(r.result.value) == Some("bad_request")
  {
  }

  /** A vault-only miss returns `vault_empty` whose details are exactly the attempts so
      far, the one vault attempt, and calls no source. */
  lemma LegacyVaultOnlyMiss(w: World, req: WalkRequest)
    requires DataMode(req) == "vault" && VaultTryRead(w, Primary).hit.None?
    ensures var r := LegacyWalkSpec(w, req);
      r.attempts == [VaultTryRead(w, Primary).attempt] && r.calls == VaultTryRead(w, Primary).calls &&
      r.result.Success? && ErrorCode(r.result.value) == Some("vault_empty") &&
      ErrorDetails(r.result.value) == Some(AttemptsJson(r.attempts))
  {
  }

  /** The request raises only when some source answers text that does not decode. */
  lemma LegacyRaisesOnlyOnUndecodable(w: World, req: WalkRequest)
    requires LegacyWalkSpec(w, req).result.Failure?
    ensures !Decodable(w)
  {
    var order := LiveOrder(req.prefer);
    LegacyLiveAgrees(w, order, 0);
    var lo := LegacyLiveFrom(w, order, 0);
    if lo.DecodeRaised? {
      assert DecodedAnswer(w, order[|lo.before|]).Failure?;
    }
  }

  /** `fetch_trivia` and `fetch_sugarvita` of the older governor: a dict answer is returned
      unchanged, anything else becomes an `unknown` error. */
  function LegacyGamebusFetch(answer: Json, decoded: map<string, Json>, userId: int): Result<Json, string> {
    match Decode(answer, decoded)
    case Failure(m) => Failure(m)
    case Success(p) =>
      if p.JObj? then Success(p)
      else Success(JObj([("error", ErrorBody("unknown", PyStr(p))), ("user_id", JInt(userId))]))
  }

  /** A decoded dict is returned as it is, error or not; any other decoded value is
      wrapped as an `unknown` error whose message is its text. */
  lemma LegacyGamebusFetchWraps(answer: Json, decoded: map<string, Json>, userId: int)
    requires Decode(answer, decoded).Success?
    ensures var p := Decode(answer, decoded).value;
      var r := LegacyGamebusFetch(answer, decoded, userId);
      r.Success? &&
      (p.JObj? ==> r.value == p) &&
      (!p.JObj? ==> ErrorCode(r.value) == Some("unknown") && ErrorMessage(r.value) == Some(PyStr(p)) &&
                    Get(r.value, "user_id") == Some(JInt(userId)))
  {
    var p := Decode(answer, decoded).value;
    if !p.JObj? {
      var fs := [("error", ErrorBody("unknown", PyStr(p))), ("user_id", JInt(userId))];
      LookupAt(fs, 0);
      LookupAt(fs, 1);
    }
  }
}
