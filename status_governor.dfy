/** The status-driven governor of `HDT_MCP/mcp_governor.py`: it reads the sources' status,
    keeps the walk sources that are configured and hold a token, moves the preferred one
    to the front, and tries them in turn until one answers without an error. There is no
    vault and no purpose shaping. */
module StatusGovernor {
  import opened Wrappers
  import opened Text
  import opened JsonValues
  import opened Envelopes
  import opened Governor
  import opened LegacyGovernor

  /** `(d.get(k) or {}) if isinstance(d, dict) else {}` */
  function Entry(d: Json, k: string): Json {
    if d.JObj? then OrElse(GetOr(d, k, JNull), JObj([])) else JObj([])
  }

  /** A source's status entry makes it a candidate when "configured" and "has_token" are
      both truthy. */
  predicate Usable(s: Json) {
    Truthy(GetOr(s, "configured", JNull)) && Truthy(GetOr(s, "has_token", JNull))
  }

  /** The candidates among `srcs`, in order; reading `.get` off an entry that is a true
      value but not a dict raises. */
  function CandidatesOf(walk: Json, srcs: seq<Source>): Result<seq<Source>, string> {
    if srcs == [] then Success([])
    else
      match CandidatesOf(walk, srcs[..|srcs| - 1])
      case Failure(e) => Failure(e)
      case Success(c) =>
        var src := srcs[|srcs| - 1];
        var s := Entry(walk, SourceName(src));
        if !s.JObj? then Failure("AttributeError: status entry has no get")
        else if Usable(s) then Success(c + [src])
        else Success(c)
  }

  /** The two walk sources in the order the status is read. */
  const StatusSources: seq<Source> := [GameBus, GoogleFit]

  /** The candidates are exactly the usable sources, gamebus before googlefit; the status
      read raises exactly when an entry is a true value that is not a dict. */
  lemma CandidatesExact(walk: Json)
    ensures var r := CandidatesOf(walk, StatusSources);
      (r.Failure? <==> !Entry(walk, "gamebus").JObj? || !Entry(walk, "googlefit").JObj?) &&
      (r.Success? ==>
        r.value == (if Usable(Entry(walk, "gamebus")) then [GameBus] else []) +
                   (if Usable(Entry(walk, "googlefit")) then [GoogleFit] else []))
  {
    var g := Entry(walk, "gamebus");
    var f := Entry(walk, "googlefit");
    assert [GameBus][..0] == [];
    assert CandidatesOf(walk, []) == Success([]);
    assert SourceName(GameBus) == "gamebus" && SourceName(GoogleFit) == "googlefit";
    assert [] + [GameBus] == [GameBus];
    var r1 := CandidatesOf(walk, [GameBus]);
    assert r1 == if !g.JObj? then Failure("AttributeError: status entry has no get")
                 else Success(if Usable(g) then [GameBus] else []);
    assert StatusSources[..1] == [GameBus];
    var r := CandidatesOf(walk, StatusSources);
    if r1.Success? {
      assert r1.value + [] == r1.value;
      assert r == if !f.JObj? then Failure("AttributeError: status entry has no get")
                  else Success(r1.value + if Usable(f) then [GoogleFit] else []);
    }
  }

  /** The loop that collects the candidates. */
  method Candidates(walk: Json) returns (r: Result<seq<Source>, string>)
    ensures r == CandidatesOf(walk, StatusSources)
  {
    var c: seq<Source> := [];
    var srcs := StatusSources;
    for i := 0 to |srcs|
      invariant CandidatesOf(walk, srcs[..i]) == Success(c)
    {
      assert srcs[..i + 1][..i] == srcs[..i];
      var s := Entry(walk, SourceName(srcs[i]));
      if !s.JObj? {
        return Failure("AttributeError: status entry has no get");
      }
      if Usable(s) {
        c := c + [srcs[i]];
      }
    }
    assert srcs[..|srcs|] == srcs;
    r := Success(c);
  }

  /** The source `prefer.lower()` names, if any. */
  function Named(p: string): (r: Option<Source>)
    ensures forall s :: r == Some(s) <==> SourceName(s) == p
  {
    if p == "gamebus" then Some(GameBus) else if p == "googlefit" then Some(GoogleFit) else None
  }

  predicate Distinct(xs: seq<Source>) {
    forall i, j :: 0 <= i < j < |xs| ==> xs[i] != xs[j]
  }

  lemma DistinctCons(h: Source, t: seq<Source>)
    requires Distinct(t) && h !in t
    ensures Distinct([h] + t)
  {
    var xs := [h] + t;
    forall i, j | 0 <= i < j < |xs| ensures xs[i] != xs[j] {
      assert xs[j] == t[j - 1];
      if i > 0 {
        assert xs[i] == t[i - 1];
      }
    }
  }

  /** `xs` without the entries equal to `x`, in order. */
  function Drop(xs: seq<Source>, x: Source): (r: seq<Source>)
    ensures forall y :: y in r <==> y in xs && y != x
  {
    if xs == [] then []
    else
      assert xs == [xs[0]] + xs[1..];
      (if xs[0] == x then [] else [xs[0]]) + Drop(xs[1..], x)
  }

  /** Dropping an entry from a list of distinct entries keeps them distinct and shortens
      the list by one exactly when the entry was there. */
  lemma {:induction false} DropDistinct(xs: seq<Source>, x: Source)
    requires Distinct(xs)
    ensures Distinct(Drop(xs, x))
    ensures x in xs ==> |Drop(xs, x)| == |xs| - 1
    ensures x !in xs ==> Drop(xs, x) == xs
  {
    if xs != [] {
      var h, t := xs[0], xs[1..];
      assert xs == [h] + t;
      assert Distinct(t) by {
        forall i, j | 0 <= i < j < |t| ensures t[i] != t[j] {
          assert t[i] == xs[i + 1] && t[j] == xs[j + 1];
        }
      }
      assert h !in t by {
        forall k | 0 <= k < |t| ensures t[k] != h {
          assert t[k] == xs[k + 1];
        }
      }
      DropDistinct(t, x);
      if h != x {
        DistinctCons(h, Drop(t, x));
      }
    }
  }

  /** The try order: the preferred source first when it is a candidate, then the other
      candidates in order; otherwise the candidates as they are. */
  function PreferOrder(prefer: string, c: seq<Source>): seq<Source> {
    var p := Named(Lower(prefer));
    if p.Some? && p.value in c then [p.value] + Drop(c, p.value) else c
  }

  /** The try order holds exactly the candidates, each once, and starts with the preferred
      source exactly when that one is a candidate; otherwise it is the candidate order. */
  lemma PreferOrderPermutes(prefer: string, c: seq<Source>)
    requires Distinct(c)
    ensures var order := PreferOrder(prefer, c);
      Distinct(order) && |order| == |c| && (forall s :: s in order <==> s in c) &&
      (forall s :: s in c && SourceName(s) == Lower(prefer) ==> order[0] == s) &&
      ((forall s :: s in c ==> SourceName(s) != Lower(prefer)) ==> order == c)
  {
    var p := Named(Lower(prefer));
    DropDistinct(c, GameBus);
    DropDistinct(c, GoogleFit);
    if p.Some? && p.value in c {
      DistinctCons(p.value, Drop(c, p.value));
    }
  }

  /** The error when no walk source is usable. */
  function NoUsableSources(userId: int): (r: Json)
    ensures ErrorCode(r) == Some("no_usable_sources")
  {
    var body := ErrorBody("no_usable_sources", "No usable walk sources (configured + token) for this user.");
    var fs := [("error", body), ("user_id", JInt(userId))];
    LookupAt(fs, 0);
    JObj(fs)
  }

  /** The specification of the status-driven `HDTGovernor.fetch_walk`: `statusAnswer` is
      what the status tool answers. The attempts are those the returned payload carries;
      the calls are the walk tool calls, after the one status call every request makes. */
  function StatusWalkSpec(w: World, statusAnswer: Json, userId: int, prefer: string): LegacyRun {
    match Decode(statusAnswer, w.decoded)
    case Failure(m) => LegacyRun(Failure(m), [], [])
    case Success(status) =>
      match CandidatesOf(Entry(status, "walk"), StatusSources)
      case Failure(m) => LegacyRun(Failure(m), [], [])
      case Success(c) =>
        if c == [] then LegacyRun(Success(NoUsableSources(userId)), [], [])
        else StatusLive(w, userId, PreferOrder(prefer, c))
  }

  /** The live loop over the try order. */
  function StatusLive(w: World, userId: int, order: seq<Source>): LegacyRun {
    StatusFinish(LegacyLiveFrom(w, order, 0), userId, order)
  }

  /** What the status-driven governor makes of the outcome of its live loop. */
  function StatusFinish(lo: LegacyOutcome, userId: int, order: seq<Source>): LegacyRun
    requires lo.DecodeRaised? ==> |lo.before| < |order|
    requires lo.Live? && lo.o.LiveOk? ==> |lo.o.failed| < |order| && lo.o.payload.JObj?
  {
    match lo
    case DecodeRaised(before, m) => LegacyRun(Failure(m), before, ToolCalls(order[..|before| + 1]))
    case Live(LiveOk(src, p, failed)) =>
      LegacyRun(Success(Stamp(p, SourceName(src), failed + [LiveHit(src)])), failed + [LiveHit(src)], ToolCalls(order[..|failed| + 1]))
    case Live(AllFailed(failed)) => LegacyRun(Success(AllSourcesFailed(userId, failed)), failed, ToolCalls(order))
  }

  /** The status-driven `HDTGovernor.fetch_walk`. */
  method StatusFetchWalk(w: World, statusAnswer: Json, userId: int, prefer: string)
    returns (result: Result<Json, string>, attempts: seq<Attempt>, calls: seq<Call>)
    ensures LegacyRun(result, attempts, calls) == StatusWalkSpec(w, statusAnswer, userId, prefer)
  {
    var status := Decode(statusAnswer, w.decoded);
    if status.Failure? {
      return Failure(status.error), [], [];
    }
    var c := Candidates(Entry(status.value, "walk"));
    if c.Failure? {
      return Failure(c.error), [], [];
    }
    if c.value == [] {
      return Success(NoUsableSources(userId)), [], [];
    }
    result, attempts, calls := StatusLiveLoop(w, userId, PreferOrder(prefer, c.value));
  }

  /** The live loop of the status-driven governor over the try order. */
  method StatusLiveLoop(w: World, userId: int, order: seq<Source>)
    returns (result: Result<Json, string>, attempts: seq<Attempt>, calls: seq<Call>)
    ensures LegacyRun(result, attempts, calls) == StatusLive(w, userId, order)
  {
    var outcome;
    outcome, attempts, calls := LegacyLiveLoop(w, order, [], []);
    assert StatusLive(w, userId, order) == StatusFinish(outcome, userId, order);
    if outcome.DecodeRaised? {
      EmptyPrefix(outcome.before);
      EmptyPrefix(ToolCalls(order[..|outcome.before| + 1]));
      return Failure(outcome.message), attempts, calls;
    }
    EmptyPrefix(outcome.o.failed);
    if outcome.o.LiveOk? {
      EmptyPrefix(ToolCalls(order[..|outcome.o.failed| + 1]));
      attempts := attempts + [LiveHit(outcome.o.source)];
      result := Success(Stamp(outcome.o.payload, SourceName(outcome.o.source), attempts));
    } else {
      EmptyPrefix(ToolCalls(order));
      result := Success(AllSourcesFailed(userId, attempts));
    }
  }

  lemma EmptyPrefix<T>(s: seq<T>)
    ensures [] + s == s
  {
  }

  /** Without a usable source the request fails with `no_usable_sources` and calls no
      walk tool. */
  lemma NoCandidatesNoCall(w: World, statusAnswer: Json, userId: int, prefer: string)
    requires Decode(statusAnswer, w.decoded).Success?
    requires CandidatesOf(Entry(Decode(statusAnswer, w.decoded).value, "walk"), StatusSources) == Success([])
    ensures var r := StatusWalkSpec(w, statusAnswer, userId, prefer);
      r.calls == [] && r.result.Success? && ErrorCode(r.result.value) == Some("no_usable_sources")
  {
  }

  /** With decodable answers, the first source in the try order that answers without an
      error is selected, and its payload carries the earlier failures, in try order, and
      then its own ok entry. */
  lemma StatusFirstSuccess(w: World, userId: int, order: seq<Source>)
    requires Decodable(w) && LiveTry(w, order).LiveOk?
    ensures var o := LiveTry(w, order);
      var r := StatusLive(w, userId, order);
      o.source == order[|o.failed|] &&
      r.attempts == o.failed + [LiveHit(o.source)] &&
      (forall j :: 0 <= j < |o.failed| ==> o.failed[j] == LiveMiss(order[j], LivePayload(w, order[j]))) &&
      r.result.Success? && Get(r.result.value, "selected_source") == Some(JStr(SourceName(o.source))) &&
      Get(r.result.value, "attempts") == Some(AttemptsJson(r.attempts))
  {
    LegacyLiveAgrees(w, order, 0);
    LiveTryFirstSuccess(w, order);
  }

  /** With decodable answers and every source failing, the details hold one failed entry
      per source in try order, and a payload that is not a dict is recorded as `unknown`. */
  lemma StatusAllFailed(w: World, userId: int, order: seq<Source>)
    requires Decodable(w) && LiveTry(w, order).AllFailed?
    ensures var r := StatusLive(w, userId, order);
      |r.attempts| == |order| && r.calls == ToolCalls(order) &&
      (forall j :: 0 <= j < |order| ==>
        r.attempts[j] == LiveMiss(order[j], LivePayload(w, order[j])) && !Ok(r.attempts[j]) &&
        (!LivePayload(w, order[j]).JObj? ==> Get(AttemptError(r.attempts[j]), "code") == Some(JStr("unknown")))) &&
      r.result.Success? && ErrorCode(r.result.value) == Some("all_sources_failed") &&
      ErrorDetails(r.result.value) == Some(AttemptsJson(r.attempts))
  {
    LegacyLiveAgrees(w, order, 0);
    LiveTryFirstSuccess(w, order);
  }
}
