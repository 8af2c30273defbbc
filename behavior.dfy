/** The rule-of-thumb coach of `HDT_MCP/models/behavior.py`: the user's walk records come from
    the vault when it is switched on and from the HDT API otherwise, the average of the recent
    days' steps is taken, and one of three fixed pieces of advice is chosen by that average.
    The environment, the clock ("today", as a day number), the vault read and the API's reply
    are parameters. */
module Behavior {
  import opened Wrappers
  import opened Text
  import opened JsonValues
  import Validation
  import ApiWalk
  import HttpClient
  import Auth

  const FlagWords: set<string> := {"1", "true", "yes"}

  /** `_vault_enabled()`: HDT_VAULT_ENABLE (absent reads as "0"), lower-cased, is 1, true or yes;
      it is read on every call. */
  function VaultFlag(env: Option<string>): (r: bool)
    ensures r <==> env.Some? && Lower(env.value) in FlagWords
  {
    assert Lower("0") == "0";
    Lower(env.GetOr("0")) in FlagWords
  }

  /** `_headers()`: a bearer Authorization header when an API key is configured, none otherwise. */
  function Headers(apiKey: string): (h: seq<(string, string)>)
    ensures apiKey == [] <==> h == []
  {
    if apiKey == [] then [] else [("Authorization", "Bearer " + apiKey)]
  }

  /** The guard of the API reads back the configured key from these headers. */
  lemma HeadersCarryKey(apiKey: string)
    requires apiKey != [] && Strip(apiKey) == apiKey
    ensures Auth.ApiKeyOf(Headers(apiKey), []) == Some(apiKey)
  {
    var h := "Bearer " + apiKey;
    assert Lower(h)[..7] == "bearer ";
    assert h[7..] == apiKey;
    assert Auth.BearerToken(Auth.HeaderGet(Headers(apiKey), "Authorization")) == Some(apiKey);
  }

  /** A read of walk records made on the way to the advice. */
  datatype Read = VaultRead(userId: int) | ApiGet(url: string, headers: seq<(string, string)>, userId: int)

  /** The decoded body as a list of envelopes: a list as it is, anything else as one. */
  function Envelopes(body: Json): (es: seq<Json>)
    ensures body.JList? ==> es == body.items
    ensures !body.JList? ==> es == [body]
  {
    if body.JList? then body.items else [body]
  }

  /** `leaf.get("data") or leaf.get("records") or []` for a matched envelope: its truthy
      "data", else its truthy "records", else an empty list. */
  function LeafRecords(leaf: Json): (r: Json)
    ensures Truthy(GetOr(leaf, "data", JNull)) ==> r == GetOr(leaf, "data", JNull)
    ensures !Truthy(GetOr(leaf, "data", JNull)) && Truthy(GetOr(leaf, "records", JNull)) ==> r == GetOr(leaf, "records", JNull)
    ensures !Truthy(GetOr(leaf, "data", JNull)) && !Truthy(GetOr(leaf, "records", JNull)) ==> r == JList([])
  {
    OrElse(OrElse(GetOr(leaf, "data", JNull), GetOr(leaf, "records", JNull)), JList([]))
  }

  /** `_fetch_walk_via_api(user_id)` on the server's reply: error statuses and bodies that do not
      decode raise; a dict body is one envelope; the envelope is matched by the text of its id
      and gives its "data", else its "records", else an empty list. */
  function FetchViaApi(userId: int, reply: ApiWalk.HttpReply): (r: Result<Json, string>)
    ensures reply.Reply? && ApiWalk.IsHttpError(reply.status) ==> r.Failure?
    ensures reply.Raised? ==> r.Failure?
    ensures reply.Reply? && !ApiWalk.IsHttpError(reply.status) && reply.body.None? ==> r == Failure("JSONDecodeError")
    ensures reply.Reply? && !ApiWalk.IsHttpError(reply.status) && reply.body.Some? ==>
      var leaf := ApiWalk.FindLeaf(Envelopes(reply.body.value), userId);
      (leaf.Failure? ==> r == Failure(leaf.error)) &&
      (leaf == Success(None) ==> r == Success(JList([]))) &&
      (leaf.Success? && leaf.value.Some? ==> r == Success(LeafRecords(leaf.value.value)))
  {
    match reply
    case Raised => Failure("RequestException")
    case Reply(status, body) =>
      if ApiWalk.IsHttpError(status) then Failure("HTTPError")
      else if body.None? then Failure("JSONDecodeError")
      else
        var envelopes := Envelopes(body.value);
        var leaf := ApiWalk.FindLeaf(envelopes, userId);
        if leaf.Failure? then Failure(leaf.error)
        else
          Success(LeafRecords(OrElse(leaf.value.GetOr(JObj([])), JObj([]))))
  }

  // ---------------------------------------------------------------------------------------
  // Dates as day numbers

  function DaysBeforeYear(y: int): int {
    365 * (y - 1) + (y - 1) / 4 - (y - 1) / 100 + (y - 1) / 400
  }

  function DaysBeforeMonth(y: int, m: nat): int
    decreases m
  {
    if m <= 1 then 0 else DaysBeforeMonth(y, m - 1) + Validation.DaysIn(y, m - 1)
  }

  /** The day number of a calendar date (1 January of year 1 is day 1). */
  function DayNumber(y: int, m: nat, d: int): int {
    DaysBeforeYear(y) + DaysBeforeMonth(y, m) + d
  }

  /** Within a month, later days have larger numbers, one apart. */
  lemma NextDay(y: int, m: nat, d: int)
    ensures DayNumber(y, m, d + 1) == DayNumber(y, m, d) + 1
  {
  }

  /** The first day of a month follows the last day of the month before. */
  lemma {:induction false} MonthBoundary(y: int, m: nat)
    requires 1 <= m < 12
    ensures DayNumber(y, m + 1, 1) == DayNumber(y, m, Validation.DaysIn(y, m)) + 1
  {
  }

  /** The day number of a YYYY-MM-DD text. */
  function DateNumber(s: string): int
    requires Validation.IsIsoDate(s)
  {
    DayNumber(Validation.Num(s, 0, 4), Validation.Num(s, 5, 7), Validation.Num(s, 8, 10))
  }

  /** `_parse_date(d)`: the part before the first "T", read as a date or as a date and a time
      separated by a space; anything else is None. */
  function ParseDate(d: string): (r: Option<int>)
    ensures r.Some? ==> var p := Split(d, 'T')[0];
      (Validation.IsIsoDate(p) && r.value == DateNumber(p)) ||
      (Validation.IsIsoDatetime(p) && r.value == DateNumber(p[..10]))
  {
    var p := Split(d, 'T')[0];
    if Validation.IsIsoDate(p) then Some(DateNumber(p))
    else if Validation.IsIsoDatetime(p) then Some(DateNumber(p[..10]))
    else None
  }

  /** Whatever follows a "T" does not matter: "2025-01-05T99" reads as 5 January 2025. */
  lemma ParseDateIgnoresTime(date: string, rest: string)
    requires Validation.IsIsoDate(date)
    ensures ParseDate(date + "T" + rest) == Some(DateNumber(date))
  {
    var s := date + "T" + rest;
    assert forall i :: 0 <= i < 10 ==> s[i] == date[i] && s[i] != 'T';
    assert s[10] == 'T';
    assert FindChar(s, 'T') == 10;
    assert s[..10] == date;
  }

  // ---------------------------------------------------------------------------------------
  // _avg_steps_last_days

  /** `int(r.get("steps") or 0)`; None is the exception that skips the record. */
  function StepsOf(r: Json): Option<int> {
    CoerceInt(OrElse(GetOr(r, "steps", JNull), JInt(0)))
  }

  /** The day of a record, when its date parses. */
  function DayOf(r: Json): Option<int> {
    ParseDate(PyStr(GetOr(r, "date", JStr(""))))
  }

  /** The record counts: its date parses, is not before the cutoff, and its steps are an integer. */
  predicate Counts(r: Json, cutoff: int) {
    DayOf(r).Some? && DayOf(r).value >= cutoff && StepsOf(r).Some?
  }

  /** What the loop does with one record. */
  datatype Seen = NotDict | Skipped | Kept(steps: int)

  function See(r: Json, cutoff: int): (o: Seen)
    ensures o == NotDict <==> !r.JObj?
    ensures o.Kept? <==> r.JObj? && Counts(r, cutoff)
    ensures o.Kept? ==> StepsOf(r) == Some(o.steps)
  {
    if !r.JObj? then NotDict else if Counts(r, cutoff) then Kept(StepsOf(r).value) else Skipped
  }

  /** The step counts kept, in order; the first record that is not a dict raises
      AttributeError at `r.get`. */
  function Collect(os: seq<Seen>): (r: Result<seq<int>, string>)
    ensures r.Failure? ==> r.error == "AttributeError"
    decreases |os|
  {
    if os == [] then Success([])
    else
      var prev := Collect(os[..|os| - 1]);
      var last := os[|os| - 1];
      if prev.Failure? then prev
      else if last == NotDict then Failure("AttributeError")
      else if last.Kept? then Success(prev.value + [last.steps])
      else prev
  }

  function Seens(rs: seq<Json>, cutoff: int): (os: seq<Seen>)
    ensures |os| == |rs| && forall i :: 0 <= i < |rs| ==> os[i] == See(rs[i], cutoff)
  {
    seq(|rs|, i requires 0 <= i < |rs| => See(rs[i], cutoff))
  }

  /** The step counts `_avg_steps_last_days` collects from the records. */
  function Counted(rs: seq<Json>, cutoff: int): Result<seq<int>, string> {
    Collect(Seens(rs, cutoff))
  }

  lemma {:induction false} CollectMembers(os: seq<Seen>, v: int)
    requires Collect(os).Success?
    ensures v in Collect(os).value <==> exists i :: 0 <= i < |os| && os[i] == Kept(v)
    decreases |os|
  {
    if os != [] {
      var init := os[..|os| - 1];
      CollectMembers(init, v);
      assert forall i :: 0 <= i < |init| ==> init[i] == os[i];
    }
  }

  lemma {:induction false} CollectSucceeds(os: seq<Seen>)
    ensures Collect(os).Success? <==> forall i :: 0 <= i < |os| ==> os[i] != NotDict
    decreases |os|
  {
    if os != [] {
      var init := os[..|os| - 1];
      CollectSucceeds(init);
      assert forall i :: 0 <= i < |init| ==> init[i] == os[i];
    }
  }

  /** Exactly the steps of the dict records that count are collected. */
  lemma CountedMembers(rs: seq<Json>, cutoff: int, v: int)
    requires Counted(rs, cutoff).Success?
    ensures v in Counted(rs, cutoff).value <==>
      exists i :: 0 <= i < |rs| && Counts(rs[i], cutoff) && StepsOf(rs[i]) == Some(v)
  {
    var os := Seens(rs, cutoff);
    CollectMembers(os, v);
    if v in Counted(rs, cutoff).value {
      var i :| 0 <= i < |os| && os[i] == Kept(v);
      assert Counts(rs[i], cutoff) && StepsOf(rs[i]) == Some(v);
    }
    if exists i :: 0 <= i < |rs| && Counts(rs[i], cutoff) && StepsOf(rs[i]) == Some(v) {
      var i :| 0 <= i < |rs| && Counts(rs[i], cutoff) && StepsOf(rs[i]) == Some(v);
      assert os[i] == Kept(v);
    }
  }

  /** The count succeeds exactly when every record is a dict. */
  lemma CountedSucceeds(rs: seq<Json>, cutoff: int)
    ensures Counted(rs, cutoff).Success? <==> forall i :: 0 <= i < |rs| ==> rs[i].JObj?
  {
    CollectSucceeds(Seens(rs, cutoff));
  }

  lemma {:induction false} CollectPrefixFails(os: seq<Seen>, k: nat)
    requires k <= |os| && Collect(os[..k]).Failure?
    ensures Collect(os).Failure?
    decreases |os|
  {
    if k < |os| {
      var init := os[..|os| - 1];
      assert init[..k] == os[..k];
      CollectPrefixFails(init, k);
    } else {
      assert os[..k] == os;
    }
  }

  function Sum(vs: seq<int>): int {
    if vs == [] then 0 else Sum(vs[..|vs| - 1]) + vs[|vs| - 1]
  }

  /** Python's `round(s / n)`: the nearest integer, ties to the even one. */
  function RoundDiv(s: int, n: int): (r: int)
    requires n > 0
    ensures 2 * (r * n - s) <= n && 2 * (s - r * n) <= n
    ensures 2 * (r * n - s) == n ==> r % 2 == 0
    ensures 2 * (s - r * n) == n ==> r % 2 == 0
  {
    var q := s / n;
    var rem := s % n;
    assert s == q * n + rem;
    if 2 * rem < n then q
    else if 2 * rem > n then q + 1
    else if q % 2 == 0 then q
    else q + 1
  }

  lemma MulMono(a: int, b: int, n: int)
    requires a <= b && n > 0
    ensures a * n <= b * n
  {
  }

  /** The rounded mean of values between `lo` and `hi` is between them too. */
  lemma RoundDivBetween(s: int, n: int, lo: int, hi: int)
    requires n > 0 && lo * n <= s <= hi * n
    ensures lo <= RoundDiv(s, n) <= hi
  {
    var r := RoundDiv(s, n);
    assert (lo - 1) * n == lo * n - n;
    assert (hi + 1) * n == hi * n + n;
    if r < lo {
      MulMono(r, lo - 1, n);
    }
    if r > hi {
      MulMono(hi + 1, r, n);
    }
  }

  lemma {:induction false} SumBetween(vs: seq<int>, lo: int, hi: int)
    requires forall i :: 0 <= i < |vs| ==> lo <= vs[i] <= hi
    ensures lo * |vs| <= Sum(vs) <= hi * |vs|
    decreases |vs|
  {
    if vs != [] {
      var n := |vs| - 1;
      SumBetween(vs[..n], lo, hi);
      assert lo * (n + 1) == lo * n + lo;
      assert hi * (n + 1) == hi * n + hi;
    }
  }

  /** `_avg_steps_last_days(records, days)` on the day `today`. */
  function Average(records: Json, days: int, today: int): (r: Result<int, string>)
    ensures !Truthy(records) ==> r == Success(0)
  {
    if !Truthy(records) then Success(0)
    else
      var it := ApiWalk.Iterate(records);
      if it.Failure? then Failure(it.error)
      else
        var vals := Counted(it.value, today - (days - 1));
        if vals.Failure? then Failure(vals.error)
        else if vals.value == [] then Success(0)
        else Success(RoundDiv(Sum(vals.value), |vals.value|))
  }

  /** The average lies between the smallest and the largest counted step count. */
  lemma AverageBetween(records: seq<Json>, days: int, today: int, vals: seq<int>, lo: int, hi: int)
    requires records != [] && lo <= 0 <= hi
    requires Counted(records, today - (days - 1)) == Success(vals)
    requires forall i :: 0 <= i < |vals| ==> lo <= vals[i] <= hi
    ensures Average(JList(records), days, today).Success?
    ensures lo <= Average(JList(records), days, today).value <= hi
  {
    if vals != [] {
      SumBetween(vals, lo, hi);
      RoundDivBetween(Sum(vals), |vals|, lo, hi);
    }
  }

  /** Records dated before the cutoff do not count, whatever their steps. */
  lemma OldRecordsIgnored(r: Json, days: int, today: int)
    requires r.JObj? && DayOf(r).Some? && DayOf(r).value < today - (days - 1)
    ensures Average(JList([r]), days, today) == Success(0)
  {
    var os := Seens([r], today - (days - 1));
    assert os == [Skipped];
    assert os[..0] == [];
    assert Collect(os) == Success([]);
    assert ApiWalk.Iterate(JList([r])) == Success([r]);
  }

  /** The loop of `_avg_steps_last_days`, appending to `vals`. */
  method AvgStepsLastDays(records: Json, days: int, today: int) returns (r: Result<int, string>)
    ensures r == Average(records, days, today)
  {
    if !Truthy(records) {
      return Success(0);
    }
    var it := ApiWalk.Iterate(records);
    if it.Failure? {
      return Failure(it.error);
    }
    var rs := it.value;
    var cutoff := today - (days - 1);
    var vals: seq<int> := [];
    ghost var os := Seens(rs, cutoff);
    for i := 0 to |rs|
      invariant Collect(os[..i]) == Success(vals)
    {
      assert os[..i + 1][..i] == os[..i];
      var rec := rs[i];
      if !rec.JObj? {
        CollectPrefixFails(os, i + 1);
        return Failure("AttributeError");
      }
      var day := ParseDate(PyStr(GetOr(rec, "date", JStr(""))));
      if day.None? {
        continue;
      }
      if day.value >= cutoff {
        var steps := StepsOf(rec);
        if steps.Some? {
          vals := vals + [steps.value];
        }
      }
    }
    assert os[..|rs|] == os;
    if vals == [] {
      return Success(0);
    }
    r := Success(RoundDiv(Sum(vals), |vals|));
  }

  // ---------------------------------------------------------------------------------------
  // _pick_message

  datatype Advice = Advice(message: string, bcts: seq<string>, rationale: string)

  const LowAdvice := Advice(
    "Let\U{2019}s spark movement: add two 10-minute walks today. I\U{2019}ll nudge you after lunch and early evening.",
    ["1.4 Action planning", "7.1 Prompts/cues", "8.3 Habit formation"],
    "Low recent activity\U{2014}short, scheduled bouts are easier to start.")

  const MidAdvice := Advice(
    "You\U{2019}re on the move! Plan one 15-minute walk after dinner and take stairs when possible.",
    ["1.2 Problem solving", "1.4 Action planning", "8.1 Behavioral practice"],
    "Moderate activity\U{2014}structured small upgrades build habit strength.")

  const HighAdvice := Advice(
    "Great consistency. Try one extra 1\U{2013}2k steps mid-afternoon this week\U{2014}keep it light and enjoyable.",
    ["8.7 Graded tasks", "10.4 Social reward", "2.2 Feedback on behavior"],
    "High baseline\U{2014}graded progression maintains motivation safely.")

  /** The tier of an advice, 0 to 2. */
  function Tier(a: Advice): int {
    if a == LowAdvice then 0 else if a == MidAdvice then 1 else 2
  }

  /** `_pick_message(avg_steps)`: below 3000, from 3000 below 7000, and from 7000. */
  function PickMessage(avg: int): (a: Advice)
    ensures a in {LowAdvice, MidAdvice, HighAdvice}
    ensures a == LowAdvice <==> avg < 3000
    ensures a == HighAdvice <==> avg >= 7000
  {
    if avg < 3000 then LowAdvice else if avg < 7000 then MidAdvice else HighAdvice
  }

  /** More steps never move the advice down a tier. */
  lemma PickMessageMonotone(a: int, b: int)
    requires a <= b
    ensures Tier(PickMessage(a)) <= Tier(PickMessage(b))
  {
    assert LowAdvice != MidAdvice && LowAdvice != HighAdvice && MidAdvice != HighAdvice by {
      assert LowAdvice.bcts[0] != MidAdvice.bcts[0];
      assert LowAdvice.bcts[0] != HighAdvice.bcts[0];
      assert MidAdvice.bcts[0] != HighAdvice.bcts[0];
    }
  }

  // ---------------------------------------------------------------------------------------
  // behavior_strategy

  /** The plan: the advice, the average, the days asked for and the rationale. */
  datatype Plan = Plan(message: string, bctRefs: seq<string>, avgSteps: int, daysConsidered: int, rationale: string)

  /** The settings and the answers of the outside world for one call. */
  datatype World = World(env: Option<string>, vaultLoaded: bool, vault: Result<Json, string>,
                         apiBase: string, apiKey: string, api: ApiWalk.HttpReply, today: int)

  /** The vault is read: the switch is on and the vault module imported. */
  predicate UsesVault(w: World) {
    VaultFlag(w.env) && w.vaultLoaded
  }

  /** What the vault gives: its records, or none when it raised. */
  function VaultRecords(w: World): Json {
    if w.vault.Success? then OrElse(w.vault.value, JList([])) else JList([])
  }

  /** What the API gives: its records, or none when the call raised. */
  function ApiRecords(userId: int, w: World): Json {
    var f := FetchViaApi(userId, w.api);
    if f.Success? then OrElse(f.value, JList([])) else JList([])
  }

  /** The records the average is taken over: the vault's when it gave any, else the API's. */
  function ChosenRecords(userId: int, w: World): (r: Json)
    ensures UsesVault(w) && Truthy(VaultRecords(w)) ==> r == VaultRecords(w)
    ensures !(UsesVault(w) && Truthy(VaultRecords(w))) ==> r == ApiRecords(userId, w)
  {
    if UsesVault(w) && Truthy(VaultRecords(w)) then VaultRecords(w) else ApiRecords(userId, w)
  }

  /** The reads made, in order. */
  function Reads(userId: int, w: World): (r: seq<Read>)
    ensures VaultRead(userId) in r <==> UsesVault(w)
    ensures (exists url, h :: ApiGet(url, h, userId) in r) <==> !(UsesVault(w) && Truthy(VaultRecords(w)))
  {
    var api := ApiGet(HttpClient.ApiUrl(w.apiBase, "get_walk_data"), Headers(w.apiKey), userId);
    if UsesVault(w) then
      if Truthy(VaultRecords(w)) then [VaultRead(userId)] else [VaultRead(userId), api]
    else [api]
  }

  /** `behavior_strategy(user_id, days)`: the plan, or the exception the average raised. */
  function Strategy(userId: int, days: int, w: World): (r: Result<Plan, string>)
    ensures var avg := Average(ChosenRecords(userId, w), days, w.today);
      (r.Success? <==> avg.Success?) &&
      (r.Success? ==> r.value.avgSteps == avg.value) &&
      (r.Failure? ==> r.error == avg.error)
    ensures r.Success? ==> r.value.daysConsidered == days
    ensures r.Success? ==> var a := PickMessage(r.value.avgSteps);
      r.value.message == a.message && r.value.bctRefs == a.bcts && r.value.rationale == a.rationale
  {
    var avg := Average(ChosenRecords(userId, w), days, w.today);
    if avg.Failure? then Failure(avg.error)
    else
      var a := PickMessage(avg.value);
      Success(Plan(a.message, a.bcts, avg.value, days, a.rationale))
  }

  /** The vault's records, when it has some, are used and the API is not asked. */
  lemma VaultHitSkipsApi(userId: int, days: int, w: World)
    requires UsesVault(w) && Truthy(VaultRecords(w))
    ensures Reads(userId, w) == [VaultRead(userId)]
    ensures Strategy(userId, days, w).Success? ==>
      Strategy(userId, days, w).value.avgSteps == Average(VaultRecords(w), days, w.today).value
  {
  }

  /** What the vault read raises as the repository is written: the imported
      `hdt_mcp/vault_store.py` defines no `read_walk_records`. */
  const MissingReader := "AttributeError: module 'hdt_mcp.vault_store' has no attribute 'read_walk_records'"

  /** As written, the vault read raises, the strategy swallows it, and the API is asked even
      with the vault switched on: the average is the one over the API's records. */
  lemma AsWrittenVaultNeverServes(userId: int, days: int, w: World)
    requires UsesVault(w) && w.vault == Failure(MissingReader)
    ensures Reads(userId, w) == [VaultRead(userId), ApiGet(HttpClient.ApiUrl(w.apiBase, "get_walk_data"), Headers(w.apiKey), userId)]
    ensures ChosenRecords(userId, w) == ApiRecords(userId, w)
    ensures Strategy(userId, days, w) == Strategy(userId, days, w.(env := None))
  {
    assert VaultRecords(w) == JList([]);
    ApiFallback(userId, days, w);
  }

  /** An empty or failing vault, or a switched-off one, falls back to the API. */
  lemma ApiFallback(userId: int, days: int, w: World)
    requires !UsesVault(w) || !Truthy(VaultRecords(w))
    ensures Reads(userId, w)[|Reads(userId, w)| - 1] == ApiGet(HttpClient.ApiUrl(w.apiBase, "get_walk_data"), Headers(w.apiKey), userId)
    ensures Strategy(userId, days, w) == Strategy(userId, days, w.(env := None))
    ensures Strategy(userId, days, w).Success? ==>
      Strategy(userId, days, w).value.avgSteps == Average(ApiRecords(userId, w), days, w.today).value
  {
  }

  /** Nothing to read anywhere gives the lowest tier with an average of 0. */
  lemma NoRecordsLowTier(userId: int, days: int, w: World)
    requires !UsesVault(w) && w.api.Raised?
    ensures Strategy(userId, days, w) == Success(Plan(LowAdvice.message, LowAdvice.bcts, 0, days, LowAdvice.rationale))
  {
  }

  /** The fallbacks of `behavior_strategy`: `records` reassigned by the vault read, then by the
      API read when the vault gave nothing. */
  method ChooseRecords(userId: int, w: World) returns (records: Json, trace: seq<Read>)
    ensures records == ChosenRecords(userId, w)
    ensures trace == Reads(userId, w)
  {
    records := JList([]);
    trace := [];
    if VaultFlag(w.env) && w.vaultLoaded {
      trace := trace + [VaultRead(userId)];
      records := if w.vault.Success? then OrElse(w.vault.value, JList([])) else JList([]);
    }
    if !Truthy(records) {
      trace := trace + [ApiGet(HttpClient.ApiUrl(w.apiBase, "get_walk_data"), Headers(w.apiKey), userId)];
      var fetched := FetchViaApi(userId, w.api);
      records := if fetched.Success? then OrElse(fetched.value, JList([])) else JList([]);
    }
  }

  /** `behavior_strategy(user_id, days)`: the plan and the reads it made. */
  method BehaviorStrategy(userId: int, days: int, w: World) returns (plan: Result<Plan, string>, trace: seq<Read>)
    ensures plan == Strategy(userId, days, w)
    ensures trace == Reads(userId, w)
  {
    var records;
    records, trace := ChooseRecords(userId, w);
    var avg := AvgStepsLastDays(records, days, w.today);
    if avg.Failure? {
      return Failure(avg.error), trace;
    }
    var a := PickMessage(avg.value);
    plan := Success(Plan(a.message, a.bcts, avg.value, days, a.rationale));
  }
}
