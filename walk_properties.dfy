/** What one `fetch_walk` request promises, stated over `Governor.WalkSpec`, the function
    `Governor.FetchWalk` is proved to compute. */
module WalkProperties {
  import opened Wrappers
  import opened JsonValues
  import opened Envelopes
  import opened Governor

  predicate NoToolCall(calls: seq<Call>) {
    forall i :: 0 <= i < |calls| ==> !calls[i].ToolCall?
  }

  /** An unknown `prefer_data` is refused with `bad_request` before any vault read or
      source call. */
  lemma BadRequestTouchesNothing(w: World, req: WalkRequest)
    requires !ValidMode(DataMode(req))
    ensures var r := WalkSpec(w, req);
      r.calls == [] && r.attempts == [] && ErrorCode(r.result) == Some("bad_request")
  {
    assert WalkUnshaped(w, req) == Run(BadRequest(req), [], []);
  }

  /** Under auto and vault, a vault read with records is served as is, stamped with
      `selected_source` "vault" and the single ok attempt, and no source is called. */
  lemma VaultHitServesVault(w: World, req: WalkRequest)
    requires DataMode(req) == "auto" || DataMode(req) == "vault"
    requires w.vaultEnabled && w.primaryRead.VaultReturned? && HasRecords(w.primaryRead.payload)
    ensures var u := WalkUnshaped(w, req);
      u.calls == [VaultRead(Primary)] && u.attempts == [VaultHit(Primary)] &&
      u.result == Stamp(w.primaryRead.payload, "vault", [VaultHit(Primary)]) &&
      Get(u.result, "selected_source") == Some(JStr("vault"))
    ensures WalkSpec(w, req).result == ShapeForPurpose(WalkUnshaped(w, req).result, req.purpose)
  {
    var t := VaultTryRead(w, Primary);
    assert t.hit == Some(w.primaryRead.payload) && t.attempt == VaultHit(Primary);
  }

  /** `prefer_data=vault` without a vault hit fails closed with `vault_empty`, whose details
      are the one vault attempt, and no source is ever called. */
  lemma VaultOnlyMissFailsClosed(w: World, req: WalkRequest)
    requires DataMode(req) == "vault"
    requires VaultTryRead(w, Primary).hit.None?
    ensures var r := WalkSpec(w, req);
      NoToolCall(r.calls) &&
      r.attempts == [VaultTryRead(w, Primary).attempt] &&
      ErrorCode(r.result) == Some("vault_empty") &&
      ErrorDetails(r.result) == Some(AttemptsJson(r.attempts))
  {
    var t := VaultTryRead(w, Primary);
    assert WalkUnshaped(w, req) == Run(VaultEmpty(req, [t.attempt]), [t.attempt], t.calls);
  }

  /** The attempts and calls made before the live phase: the vault read under auto, nothing
      under live. */
  function Before(w: World, mode: string): (r: (seq<Attempt>, seq<Call>))
    ensures mode == "live" ==> r == ([], [])
  {
    if mode == "auto" then ([VaultTryRead(w, Primary).attempt], VaultTryRead(w, Primary).calls) else ([], [])
  }

  /** The live phase runs exactly under live, and under auto after a vault miss. */
  lemma WalkReachesLivePhase(w: World, req: WalkRequest)
    requires DataMode(req) == "live" || (DataMode(req) == "auto" && VaultTryRead(w, Primary).hit.None?)
    ensures WalkUnshaped(w, req) == LivePhase(w, req, DataMode(req), Before(w, DataMode(req)).0, Before(w, DataMode(req)).1)
  {
  }

  /** The first live source whose payload is not an error is selected: the attempts are the
      earlier failures in call order, then its ok entry, then a failed write-through if
      any; every source up to it was called once in order, and nothing after it. */
  lemma LiveSuccessSelectsFirst(w: World, req: WalkRequest)
    requires DataMode(req) == "live" || (DataMode(req) == "auto" && VaultTryRead(w, Primary).hit.None?)
    requires LiveTry(w, LiveOrder(req.prefer)).LiveOk?
    ensures var o := LiveTry(w, LiveOrder(req.prefer));
      var b := Before(w, DataMode(req));
      var wt := VaultTryWrite(w, o.source, GetOr(o.payload, "records", JList([])));
      var u := WalkUnshaped(w, req);
      u.attempts == b.0 + o.failed + [LiveHit(o.source)] + wt.attempts &&
      u.calls == b.1 + ToolCalls(LiveOrder(req.prefer)[..|o.failed| + 1]) + wt.calls &&
      !IsError(u.result) &&
      Get(u.result, "selected_source") == Some(JStr(SourceName(o.source)))
  {
    WalkReachesLivePhase(w, req);
  }

  /** When every live source fails under live, the result is `all_sources_failed` whose
      details are the attempts, one failure per source in call order, and the vault is
      never read. */
  lemma LiveModeAllFailed(w: World, req: WalkRequest)
    requires DataMode(req) == "live"
    requires LiveTry(w, LiveOrder(req.prefer)).AllFailed?
    ensures var u := WalkUnshaped(w, req);
      u.attempts == LiveTry(w, LiveOrder(req.prefer)).failed &&
      u.calls == ToolCalls(LiveOrder(req.prefer)) &&
      ErrorCode(u.result) == Some("all_sources_failed") &&
      ErrorDetails(u.result) == Some(AttemptsJson(u.attempts))
  {
    WalkReachesLivePhase(w, req);
  }

  /** Under auto, after every live source failed, one more `vault_fallback` read is made;
      a hit replaces the error with the vault payload, otherwise the result is
      `all_sources_failed` whose details include the fallback attempt. */
  lemma AutoFallbackAfterAllFailed(w: World, req: WalkRequest)
    requires DataMode(req) == "auto" && VaultTryRead(w, Primary).hit.None?
    requires LiveTry(w, LiveOrder(req.prefer)).AllFailed?
    ensures var u := WalkUnshaped(w, req);
      var fb := VaultTryRead(w, Fallback);
      var first := VaultTryRead(w, Primary);
      u.attempts == [first.attempt] + LiveTry(w, LiveOrder(req.prefer)).failed + [fb.attempt] &&
      u.calls == first.calls + ToolCalls(LiveOrder(req.prefer)) + fb.calls &&
      (fb.hit.Some? ==> u.result == Stamp(fb.hit.value, "vault", u.attempts)) &&
      (fb.hit.None? ==> ErrorCode(u.result) == Some("all_sources_failed") &&
                        ErrorDetails(u.result) == Some(AttemptsJson(u.attempts)))
  {
    WalkReachesLivePhase(w, req);
  }

  /** The fallback read can only rescue a request when the vault answers it differently
      from the first read: against an unchanged vault, auto ends in `all_sources_failed`. */
  lemma UnchangedVaultNeverRescues(w: World, req: WalkRequest)
    requires DataMode(req) == "auto" && VaultTryRead(w, Primary).hit.None?
    requires LiveTry(w, LiveOrder(req.prefer)).AllFailed?
    requires w.primaryRead == w.fallbackRead
    ensures ErrorCode(WalkUnshaped(w, req).result) == Some("all_sources_failed")
  {
    AutoFallbackAfterAllFailed(w, req);
    assert VaultTryRead(w, Fallback).hit.None?;
  }

  /** A failing write-through only appends its `vault_write` attempt: the success stays a
      success, and a disabled vault is neither written nor mentioned. */
  lemma WriteFailureKeepsSuccess(w: World, src: Source, p: Json, atts: seq<Attempt>, calls: seq<Call>)
    requires IsSuccess(p)
    ensures var r := LiveWin(w, src, p, atts, calls);
      !IsError(r.result) &&
      r.attempts == atts + [LiveHit(src)] + (if w.vaultEnabled && w.writeError.Some? then [WriteFailed(w.writeError.value)] else []) &&
      (!w.vaultEnabled ==> r.calls == calls)
  {
  }
}
