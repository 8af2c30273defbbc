/** The other tools of the governor in `src/hdt_mcp/governor.py`: the single-source trivia
    and sugarvita fetches, and the modeling-lane walk features built from a coaching
    `fetch_walk`. */
module GovernorTools {
  import opened Wrappers
  import opened Text
  import opened JsonValues
  import opened Envelopes
  import opened StepMath
  import opened Governor

  // ---------------------------------------------------------------------------
  // Step features

  /** The steps one record contributes: a dict whose "steps" value `int()` accepts. */
  function RecordSteps(r: Json): Option<int> {
    if r.JObj? then CoerceInt(GetOr(r, "steps", JNull)) else None
  }

  /** The usable step counts of `records`, in record order. */
  function UsableSteps(records: seq<Json>): seq<int> {
    if records == [] then []
    else
      var last := RecordSteps(records[|records| - 1]);
      UsableSteps(records[..|records| - 1]) + (if last.Some? then [last.value] else [])
  }

  /** No step count is usable exactly when no record has one. */
  lemma {:induction false} UsableStepsEmpty(records: seq<Json>)
    ensures UsableSteps(records) == [] <==> forall i :: 0 <= i < |records| ==> RecordSteps(records[i]).None?
  {
    if records != [] {
      var init := records[..|records| - 1];
      UsableStepsEmpty(init);
      assert forall i :: 0 <= i < |init| ==> init[i] == records[i];
    }
  }

  /** A step count is used exactly when some record carries it. */
  lemma {:induction false} UsableStepsFromRecords(records: seq<Json>, x: int)
    ensures x in UsableSteps(records) <==> exists i :: 0 <= i < |records| && RecordSteps(records[i]) == Some(x)
  {
    if records != [] {
      var n := |records| - 1;
      var init := records[..n];
      UsableStepsFromRecords(init, x);
      assert forall i :: 0 <= i < n ==> init[i] == records[i];
      if x in UsableSteps(records) && x !in UsableSteps(init) {
        assert RecordSteps(records[n]) == Some(x);
      }
    }
  }

  /** The features dict of `days` usable days (at least one). */
  function StatsJson(days: int, total: int, avg: int, lo: int, hi: int): Json {
    JObj([("days", JInt(days)), ("total_steps", JInt(total)), ("avg_steps", JInt(avg)),
          ("min_steps", JInt(lo)), ("max_steps", JInt(hi))])
  }

  /** The features dict when no step count is usable. */
  const NoStatsJson: Json := JObj([("days", JInt(0)), ("total_steps", JInt(0)), ("avg_steps", JInt(0))])

  /** `_walk_features_from_records` on the usable step counts. */
  function FeaturesJson(steps: seq<int>): Json {
    if steps == [] then NoStatsJson
    else StatsJson(|steps|, Sum(steps), TruncDiv(Sum(steps), |steps|), MinOf(steps), MaxOf(steps))
  }

  lemma StatsJsonFields(days: int, total: int, avg: int, lo: int, hi: int)
    ensures var f := StatsJson(days, total, avg, lo, hi);
      Get(f, "days") == Some(JInt(days)) && Get(f, "total_steps") == Some(JInt(total)) &&
      Get(f, "avg_steps") == Some(JInt(avg)) && Get(f, "min_steps") == Some(JInt(lo)) &&
      Get(f, "max_steps") == Some(JInt(hi))
  {
    var fs := StatsJson(days, total, avg, lo, hi).fields;
    LookupAt(fs, 0);
    LookupAt(fs, 1);
    LookupAt(fs, 2);
    LookupAt(fs, 3);
    LookupAt(fs, 4);
  }

  /** Without a usable step count the features are all zero and have no extremes. */
  lemma FeaturesWithoutSteps()
    ensures var f := FeaturesJson([]);
      Get(f, "days") == Some(JInt(0)) && Get(f, "total_steps") == Some(JInt(0)) &&
      Get(f, "avg_steps") == Some(JInt(0)) && !HasKey(f, "min_steps") && !HasKey(f, "max_steps")
  {
    var fs := NoStatsJson.fields;
    LookupAt(fs, 0);
    LookupAt(fs, 1);
    LookupAt(fs, 2);
    LookupAbsent(fs, "min_steps");
    LookupAbsent(fs, "max_steps");
  }

  /** The features count the usable days and sum their steps; the average is the total over
      the days truncated toward zero, and lies between the extremes. */
  lemma FeaturesSummarise(steps: seq<int>)
    requires steps != []
    ensures var f := FeaturesJson(steps);
      Get(f, "days") == Some(JInt(|steps|)) && Get(f, "total_steps") == Some(JInt(Sum(steps))) &&
      Get(f, "min_steps") == Some(JInt(MinOf(steps))) && Get(f, "max_steps") == Some(JInt(MaxOf(steps))) &&
      Get(f, "avg_steps") == Some(JInt(TruncDiv(Sum(steps), |steps|))) &&
      MinOf(steps) <= TruncDiv(Sum(steps), |steps|) <= MaxOf(steps)
  {
    var avg := TruncDiv(Sum(steps), |steps|);
    StatsJsonFields(|steps|, Sum(steps), avg, MinOf(steps), MaxOf(steps));
    MeanBetweenExtremes(steps);
  }

  /** The records `for r in records or []` visits. A false value visits nothing; a dict
      visits its keys and a text its characters, none of which is a dict; any other true
      value (an integer, `True`) is not iterable and raises. */
  function IteratedRecords(records: Json): Option<seq<Json>> {
    if !Truthy(records) then Some([])
    else
      match records
      case JList(items) => Some(items)
      case JObj(_) => Some([])
      case JStr(_) => Some([])
      case _ => None
  }

  /** The features of `records`, or the TypeError iterating them raises. */
  function FeaturesOf(records: Json): Result<Json, string> {
    match IteratedRecords(records)
    case None => Failure("TypeError: object is not iterable")
    case Some(rs) => Success(FeaturesJson(UsableSteps(rs)))
  }

  /** The loop of `_walk_features_from_records`: keep each coercible step count in order. */
  method CollectSteps(records: seq<Json>) returns (steps: seq<int>)
    ensures steps == UsableSteps(records)
  {
    steps := [];
    for i := 0 to |records|
      invariant steps == UsableSteps(records[..i])
    {
      assert records[..i + 1][..i] == records[..i];
      var v := RecordSteps(records[i]);
      if v.Some? {
        steps := steps + [v.value];
      }
    }
    assert records[..|records|] == records;
  }

  /** `_walk_features_from_records` */
  method WalkFeaturesFromRecords(records: Json) returns (r: Result<Json, string>)
    ensures r == FeaturesOf(records)
  {
    var rs := IteratedRecords(records);
    if rs.None? {
      return Failure("TypeError: object is not iterable");
    }
    var steps := CollectSteps(rs.value);
    var n := |steps|;
    if n == 0 {
      return Success(NoStatsJson);
    }
    var total := Sum(steps);
    r := Success(StatsJson(n, total, TruncDiv(total, n), MinOf(steps), MaxOf(steps)));
  }

  // ---------------------------------------------------------------------------
  // walk_features

  /** What one `walk_features` call returns (or raises) and the calls it makes. */
  datatype FeaturesRun = FeaturesRun(result: Result<Json, string>, calls: seq<Call>)

  /** The inner `fetch_walk` request: the same arguments in the coaching lane. */
  function CoachingRequest(req: WalkRequest): WalkRequest {
    req.(purpose := "coaching")
  }

  /** The modeling-lane envelope: features, the source choice and the attempts, and a
      provenance that names only the selected source. */
  function FeaturesEnvelope(userId: int, raw: Json, feats: Json): Json {
    var sel := GetOr(raw, "selected_source", JNull);
    JObj([("user_id", JInt(userId)), ("kind", JStr("walk_features")), ("purpose", JStr("modeling")),
          ("features", feats), ("selected_source", sel), ("attempts", GetOr(raw, "attempts", JList([]))),
          ("provenance", JObj([("selected_source", sel)]))])
  }

  /** The refusal of any purpose other than modeling, echoing the purpose as given. */
  function FeaturesBadPurpose(req: WalkRequest): (r: Json)
    ensures ErrorCode(r) == Some("bad_request")
    ensures Get(r, "purpose") == Some(JStr(req.purpose)) && Get(r, "user_id") == Some(JInt(req.userId))
  {
    var extra := [("user_id", JInt(req.userId)), ("purpose", JStr(req.purpose))];
    assert Lookup(extra, "error").None?;
    TypedError("bad_request", "purpose must be modeling for hdt.walk.features.v1", JNull, extra)
  }

  /** The specification of `HDTGovernor.walk_features`. */
  function WalkFeaturesSpec(w: World, req: WalkRequest): FeaturesRun {
    if Norm(req.purpose) != "modeling" then FeaturesRun(Success(FeaturesBadPurpose(req)), [])
    else
      var run := WalkSpec(w, CoachingRequest(req));
      var raw := run.result;
      if !raw.JObj? then
        FeaturesRun(Success(JObj([("error", ErrorBody("unknown", PyStr(raw))), ("user_id", JInt(req.userId))])), run.calls)
      else if IsError(raw) then FeaturesRun(Success(raw), run.calls)
      else
        match FeaturesOf(GetOr(raw, "records", JList([])))
        case Failure(e) => FeaturesRun(Failure(e), run.calls)
        case Success(f) => FeaturesRun(Success(FeaturesEnvelope(req.userId, raw, f)), run.calls)
  }

  /** `HDTGovernor.walk_features` */
  method WalkFeatures(w: World, req: WalkRequest) returns (result: Result<Json, string>, calls: seq<Call>)
    ensures FeaturesRun(result, calls) == WalkFeaturesSpec(w, req)
  {
    if Norm(req.purpose) != "modeling" {
      return Success(FeaturesBadPurpose(req)), [];
    }
    var raw, attempts;
    raw, attempts, calls := FetchWalk(w, CoachingRequest(req));
    if !raw.JObj? {
      return Success(JObj([("error", ErrorBody("unknown", PyStr(raw))), ("user_id", JInt(req.userId))])), calls;
    }
    if IsError(raw) {
      return Success(raw), calls;
    }
    var feats := WalkFeaturesFromRecords(GetOr(raw, "records", JList([])));
    if feats.Failure? {
      return Failure(feats.error), calls;
    }
    result := Success(FeaturesEnvelope(req.userId, raw, feats.value));
  }

  /** Any purpose other than modeling (after strip and lower) is refused with `bad_request`
      before `fetch_walk` runs; modeling makes exactly the calls of a coaching `fetch_walk`. */
  lemma FeaturesRequireModeling(w: World, req: WalkRequest)
    ensures var f := WalkFeaturesSpec(w, req);
      (Norm(req.purpose) != "modeling" ==>
         f.calls == [] && f.result.Success? && ErrorCode(f.result.value) == Some("bad_request")) &&
      (Norm(req.purpose) == "modeling" ==> f.calls == WalkSpec(w, CoachingRequest(req)).calls)
  {
  }

  /** The modeling envelope names the kind and lane, holds the features, and has no
      records; its provenance names only the selected source. */
  lemma FeaturesEnvelopeFields(userId: int, raw: Json, feats: Json)
    ensures var r := FeaturesEnvelope(userId, raw, feats);
      !HasKey(r, "records") && !IsError(r) &&
      Get(r, "kind") == Some(JStr("walk_features")) && Get(r, "purpose") == Some(JStr("modeling")) &&
      Get(r, "features") == Some(feats) &&
      Get(r, "selected_source") == Some(GetOr(raw, "selected_source", JNull)) &&
      Get(r, "provenance") == Some(JObj([("selected_source", GetOr(raw, "selected_source", JNull))]))
  {
    var fs := FeaturesEnvelope(userId, raw, feats).fields;
    LookupAt(fs, 1);
    LookupAt(fs, 2);
    LookupAt(fs, 3);
    LookupAt(fs, 4);
    LookupAt(fs, 6);
    LookupAbsent(fs, "records");
    LookupAbsent(fs, "error");
  }

  /** A successful features envelope never carries records: it holds the features of the
      coaching records, the source choice and the attempts, and a provenance naming only
      the selected source. */
  lemma FeaturesWithoutRecords(w: World, req: WalkRequest)
    requires WalkFeaturesSpec(w, req).result.Success?
    requires !IsError(WalkFeaturesSpec(w, req).result.value)
    ensures var r := WalkFeaturesSpec(w, req).result.value;
      var raw := WalkSpec(w, CoachingRequest(req)).result;
      !HasKey(r, "records") &&
      Get(r, "kind") == Some(JStr("walk_features")) && Get(r, "purpose") == Some(JStr("modeling")) &&
      FeaturesOf(GetOr(raw, "records", JList([]))).Success? &&
      Get(r, "features") == Some(FeaturesOf(GetOr(raw, "records", JList([]))).value) &&
      Get(r, "selected_source") == Some(GetOr(raw, "selected_source", JNull)) &&
      Get(r, "provenance") == Some(JObj([("selected_source", GetOr(raw, "selected_source", JNull))]))
  {
    var raw := WalkSpec(w, CoachingRequest(req)).result;
    var f := FeaturesOf(GetOr(raw, "records", JList([])));
    if Norm(req.purpose) == "modeling" {
      if !raw.JObj? {
        var e := JObj([("error", ErrorBody("unknown", PyStr(raw))), ("user_id", JInt(req.userId))]);
        LookupAt(e.fields, 0);
      } else {
        assert !IsError(raw) && f.Success?;
        assert WalkFeaturesSpec(w, req).result.value == FeaturesEnvelope(req.userId, raw, f.value);
        FeaturesEnvelopeFields(req.userId, raw, f.value);
      }
    }
  }

  /** An error from the coaching `fetch_walk` is returned as it is. */
  lemma FeaturesPassErrors(w: World, req: WalkRequest)
    requires Norm(req.purpose) == "modeling" && IsError(WalkSpec(w, CoachingRequest(req)).result)
    ensures WalkFeaturesSpec(w, req).result == Success(WalkSpec(w, CoachingRequest(req)).result)
  {
  }

  // ---------------------------------------------------------------------------
  // fetch_trivia and fetch_sugarvita

  /** The error envelope of a failed GameBus fetch, from the answer's `error` dict and the
      one failed attempt. */
  function GamebusError(err: Json, atts: Json, userId: int): Json {
    var body := JObj([("code", GetOr(err, "code", JStr("unknown"))),
                      ("message", GetOr(err, "message", JStr("unknown error"))),
                      ("details", atts)]);
    JObj([("error", body), ("user_id", JInt(userId)), ("selected_source", JStr("gamebus")), ("attempts", atts)])
  }

  /** `fetch_trivia` and `fetch_sugarvita`, which differ only in the GameBus tool they call:
      one call, whose decoded `answer` is stamped when it is a dict without "error" and
      otherwise turned into an error envelope. Reading `.get` off an "error" value that is
      not a dict raises, which is the failure. */
  function GamebusFetch(answer: Json, decoded: map<string, Json>, userId: int, purpose: string): Result<Json, string> {
    var payload := AsJson(answer, decoded);
    if IsSuccess(payload) then Success(ShapeForPurpose(Stamp(payload, "gamebus", [LiveHit(GameBus)]), purpose))
    else
      var err := FailureInfo(payload);
      if !err.JObj? then Failure("AttributeError: error value has no get")
      else Success(ShapeForPurpose(GamebusError(err, AttemptsJson([LiveMiss(GameBus, payload)]), userId), purpose))
  }

  /** A dict answer without "error" is served outside the modeling lane, stamped with
      `selected_source` "gamebus" and the one ok attempt. */
  lemma GamebusFetchServes(answer: Json, decoded: map<string, Json>, userId: int, purpose: string)
    requires IsSuccess(AsJson(answer, decoded)) && Norm(purpose) != "modeling"
    ensures var r := GamebusFetch(answer, decoded, userId, purpose);
      r.Success? && !IsError(r.value) &&
      Get(r.value, "selected_source") == Some(JStr("gamebus")) &&
      Get(r.value, "attempts") == Some(AttemptsJson([LiveHit(GameBus)]))
  {
    var payload := AsJson(answer, decoded);
    ShapeKeepsTrace(Stamp(payload, "gamebus", [LiveHit(GameBus)]), purpose);
  }

  /** The error envelope carries the code and message of `err` (`unknown` and `unknown
      error` when absent), the attempts as details, and names "gamebus". */
  lemma GamebusErrorFields(err: Json, atts: Json, userId: int)
    ensures var r := GamebusError(err, atts, userId);
      IsError(r) && ErrorDetails(r) == Some(atts) &&
      Get(Get(r, "error").value, "code") == Some(GetOr(err, "code", JStr("unknown"))) &&
      Get(Get(r, "error").value, "message") == Some(GetOr(err, "message", JStr("unknown error"))) &&
      Get(r, "selected_source") == Some(JStr("gamebus")) && Get(r, "attempts") == Some(atts)
  {
    var r := GamebusError(err, atts, userId);
    LookupAt(r.fields, 0);
    LookupAt(r.fields, 2);
    LookupAt(r.fields, 3);
    var body := r.fields[0].1;
    LookupAt(body.fields, 0);
    LookupAt(body.fields, 1);
    LookupAt(body.fields, 2);
  }

  /** Any other answer gives an error envelope, in every lane, whose code and message come
      from the answer's error (`unknown` for an answer that is not a dict), whose details
      are the one failed attempt, and which names "gamebus"; the only exception raised is
      for a dict whose "error" value is not a dict. */
  lemma GamebusFetchFails(answer: Json, decoded: map<string, Json>, userId: int, purpose: string)
    requires !IsSuccess(AsJson(answer, decoded))
    ensures var payload := AsJson(answer, decoded);
      var r := GamebusFetch(answer, decoded, userId, purpose);
      (r.Failure? <==> payload.JObj? && !Get(payload, "error").value.JObj?) &&
      (r.Success? ==>
        r.value == GamebusError(FailureInfo(payload), AttemptsJson([LiveMiss(GameBus, payload)]), userId) &&
        IsError(r.value) && ErrorDetails(r.value) == Some(AttemptsJson([LiveMiss(GameBus, payload)])) &&
        Get(r.value, "selected_source") == Some(JStr("gamebus")) &&
        (!payload.JObj? ==> ErrorCode(r.value) == Some("unknown")))
  {
    var payload := AsJson(answer, decoded);
    var err := FailureInfo(payload);
    if err.JObj? {
      var atts := AttemptsJson([LiveMiss(GameBus, payload)]);
      GamebusErrorFields(err, atts, userId);
      if !payload.JObj? {
        assert Get(err, "code") == Some(JStr("unknown"));
      }
    }
  }
}
