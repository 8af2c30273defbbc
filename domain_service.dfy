/** The application service `HDTService` of `src/hdt_mcp/domain/services.py` and its older
    copy in `HDT_MCP/domain/services.py`: a walk stream read from the vault when preferred,
    else from the live source with a best-effort write-through, and summary statistics.
    The ports are parameters: what the vault read and the live fetch answer. */
module DomainService {
  import opened Wrappers
  import opened StepMath

  /** The fields of a walk record the service reads. */
  datatype WalkRecord = WalkRecord(date: string, steps: Option<int>)

  datatype Stats = Stats(days: nat, totalSteps: int, avgSteps: int)

  /** `int(r.steps or 0)` for each record (a step count of 0 reads as 0 either way). */
  function StepsOf(records: seq<WalkRecord>): (r: seq<int>)
    ensures |r| == |records|
    ensures forall i :: 0 <= i < |records| ==> r[i] == records[i].steps.GetOr(0)
  {
    if records == [] then [] else [records[0].steps.GetOr(0)] + StepsOf(records[1..])
  }

  /** `_stats`: the number of records, their step total, and the mean truncated toward zero
      (0 for no records). */
  function StatsOf(records: seq<WalkRecord>): (s: Stats)
    ensures s.days == |records| && s.totalSteps == Sum(StepsOf(records))
    ensures s.days == 0 ==> s.avgSteps == 0
    ensures s.days > 0 ==> s.avgSteps == TruncDiv(s.totalSteps, s.days)
    ensures s.days > 0 ==> MinOf(StepsOf(records)) <= s.avgSteps <= MaxOf(StepsOf(records))
  {
    var days := |records|;
    var total := Sum(StepsOf(records));
    if days == 0 then Stats(0, total, 0)
    else
      MeanBetweenExtremes(StepsOf(records));
      Stats(days, total, TruncDiv(total, days))
  }

  /** What a port call answers. */
  datatype PortAnswer = Returned(records: seq<WalkRecord>) | Raised

  /** The window the current service hands to both ports. */
  datatype Query = Query(fromIso: Option<string>, toIso: Option<string>, limit: Option<int>, offset: Option<int>)

  /** The port calls a run makes, in order. */
  datatype Call = ReadVault(q: Option<Query>) | FetchLive(q: Option<Query>) | WriteVault(records: seq<WalkRecord>)

  datatype View = View(source: string, records: seq<WalkRecord>, stats: Stats)

  /** One `walk_stream` run: the view (or the live source's exception, which only the older
      service lets through) and the calls it made. `q` is None for the older service, whose
      ports take no window. A write that raises is swallowed, so its answer does not matter. */
  datatype Run = Run(view: Result<View, string>, calls: seq<Call>)

  function WalkStream(older: bool, hasVault: bool, preferVault: bool, q: Option<Query>, vault: PortAnswer, live: PortAnswer): (r: Run)
  {
    var tryVault := preferVault && hasVault;
    var cached := if !tryVault || vault.Raised? then [] else vault.records;
    var readCalls := if tryVault then [ReadVault(q)] else [];
    if cached != [] then Run(Success(View("vault", cached, StatsOf(cached))), readCalls)
    else if older && live.Raised? then Run(Failure("live source raised"), readCalls + [FetchLive(q)])
    else
      var recs := if live.Raised? then [] else live.records;
      var writes := if hasVault && recs != [] then [WriteVault(recs)] else [];
      Run(Success(View("live", recs, StatsOf(recs))), readCalls + [FetchLive(q)] + writes)
  }

  /** A non-empty vault read under preference answers from the vault: live is not called and
      nothing is written. */
  lemma VaultHitSkipsLive(older: bool, preferVault: bool, q: Option<Query>, vault: PortAnswer, live: PortAnswer)
    requires preferVault && vault.Returned? && vault.records != []
    ensures var r := WalkStream(older, true, preferVault, q, vault, live);
      r.view == Success(View("vault", vault.records, StatsOf(vault.records))) && r.calls == [ReadVault(q)]
  {
  }

  /** Otherwise the live source is called once, after the vault read if there was one, and
      its records are written through exactly once when a vault exists and they are not
      empty; the current service answers [] from "live" when the live source raises. */
  lemma LiveFallback(older: bool, hasVault: bool, preferVault: bool, q: Option<Query>, vault: PortAnswer, live: PortAnswer)
    requires !(preferVault && hasVault && vault.Returned? && vault.records != [])
    ensures var r := WalkStream(older, hasVault, preferVault, q, vault, live);
      var recs := if live.Raised? then [] else live.records;
      (r.view.Failure? <==> older && live.Raised?) &&
      (r.view.Success? ==> r.view.value == View("live", recs, StatsOf(recs))) &&
      FetchLive(q) in r.calls &&
      (ReadVault(q) in r.calls <==> preferVault && hasVault) &&
      (r.view.Success? ==> (WriteVault(recs) in r.calls <==> hasVault && recs != [])) &&
      (forall c :: c in r.calls && c.WriteVault? ==> c == WriteVault(recs) && r.view.Success?)
  {
    var r := WalkStream(older, hasVault, preferVault, q, vault, live);
    var readCalls := if preferVault && hasVault then [ReadVault(q)] else [];
    assert forall c :: c in readCalls ==> c.ReadVault?;
  }

  /** A write happens at most once per run. */
  lemma WriteAtMostOnce(older: bool, hasVault: bool, preferVault: bool, q: Option<Query>, vault: PortAnswer, live: PortAnswer)
    ensures var calls := WalkStream(older, hasVault, preferVault, q, vault, live).calls;
      forall i, j :: 0 <= i < j < |calls| && calls[i].WriteVault? ==> !calls[j].WriteVault?
  {
  }

  /** `integrated_view`: the walk stream read with vault preference, its record count, and
      the clock reading `now` truncated to seconds. */
  datatype Integrated = Integrated(userId: int, source: string, count: nat, records: seq<WalkRecord>, stats: Stats, generatedAt: int)

  function IntegratedView(older: bool, hasVault: bool, userId: int, vault: PortAnswer, live: PortAnswer, now: int): (r: Result<Integrated, string>)
    ensures var v := WalkStream(older, hasVault, true, if older then None else Some(Query(None, None, None, None)), vault, live).view;
      (r.Success? <==> v.Success?) &&
      (r.Success? ==> r.value.count == |v.value.records| == r.value.stats.days && r.value.source == v.value.source) &&
      (r.Success? ==> r.value.records == v.value.records && r.value.stats == v.value.stats) &&
      (r.Success? ==> r.value.userId == userId && r.value.generatedAt == now) &&
      (r.Failure? ==> r.error == v.error)
  {
    var q := if older then None else Some(Query(None, None, None, None));
    match WalkStream(older, hasVault, true, q, vault, live).view
    case Failure(m) => Failure(m)
    case Success(w) => Success(Integrated(userId, w.source, |w.records|, w.records, w.stats, now))
  }
}
