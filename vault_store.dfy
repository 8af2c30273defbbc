/** The SQLite walk vault of `hdt_mcp/vault_store.py`. The `walk_records` table is a finite
    map from its primary key (user, date, source) to the stored row; an upsert replaces the
    row of a key it meets again. A read keeps one row per date (the preferred source, else
    the newest insert), inside an inclusive date range, ascending, then pages. The clock is a
    parameter; the floating-point columns are not part of this model. */
module VaultStore {
  import opened Wrappers
  import opened Text
  import opened JsonValues
  import opened StepMath

  /** The values of HDT_VAULT_ENABLE that switch the vault on, after strip and lower. */
  const EnableWords: set<string> := {"1", "true", "yes", "on"}

  /** `enabled()`: the environment value (absent reads as "0") names an enabling word. */
  function Enabled(env: Option<string>): (r: bool)
    ensures env.None? ==> !r
    ensures r <==> env.Some? && Norm(env.value) in EnableWords
  {
    Norm(env.GetOr("0")) in EnableWords
  }

  /** Case and surrounding whitespace do not matter. */
  lemma EnabledNormalises(s: string)
    ensures Enabled(Some(Norm(s))) == Enabled(Some(s))
  {
    NormIdempotent(s);
  }

  lemma NormPlain(s: string)
    requires forall i :: 0 <= i < |s| ==> !IsSpace(s[i]) && !('A' <= s[i] <= 'Z')
    ensures Norm(s) == s
  {
    NoSpaceStrip(s);
    assert Lower(s) == s;
  }

  /** The switch accepts 1, true, yes and on. */
  lemma EnabledAccepts()
    ensures Enabled(Some("1")) && Enabled(Some("true")) && Enabled(Some("yes")) && Enabled(Some("on"))
  {
    NormPlain("1");
    NormPlain("true");
    NormPlain("yes");
    NormPlain("on");
  }

  /** The switch rejects 0, false, the empty text and an unset variable. */
  lemma EnabledRejects()
    ensures !Enabled(Some("0")) && !Enabled(Some("false")) && !Enabled(Some("")) && !Enabled(None)
  {
    NormPlain("0");
    NormPlain("false");
    NormPlain("");
  }

  /** `_norm_date`: None or a blank text gives None; otherwise the stripped text before its
      first "T", cut to ten characters. */
  function NormDate(s: Json): (r: Option<string>)
    ensures s.JNull? ==> r.None?
    ensures r.None? ==> s.JNull? || Strip(PyStr(s)) == []
    ensures r.Some? ==> |r.value| <= 10 && 'T' !in r.value && StartsWith(Strip(PyStr(s)), r.value)
  {
    if s.JNull? then None
    else
      var t := Strip(PyStr(s));
      if t == [] then None
      else
        var head := t[..FindChar(t, 'T')];
        Some(if |head| <= 10 then head else head[..10])
  }

  /** Ten characters without whitespace or "T" (an ISO day such as 2025-01-01). */
  predicate IsDay(day: string) {
    |day| == 10 && forall i :: 0 <= i < 10 ==> !IsSpace(day[i]) && day[i] != 'T'
  }

  /** An ISO day, alone or followed by "T" and a time, normalises to the day. */
  lemma NormDateOfIso(day: string, time: Option<string>)
    requires IsDay(day)
    requires time.Some? && time.value != [] ==> !IsSpace(time.value[|time.value| - 1])
    ensures NormDate(JStr(day + if time.Some? then "T" + time.value else "")) == Some(day)
  {
    var t := day + if time.Some? then "T" + time.value else "";
    assert t[0] == day[0];
    assert t[|t| - 1] == if time.Some? && time.value != [] then time.value[|time.value| - 1] else if time.Some? then 'T' else day[9];
    NoSpaceStrip(t);
    var i := FindChar(t, 'T');
    assert t[..10] == day;
    if time.Some? {
      assert t[10] == 'T';
    }
    assert i == 10;
    assert t[..i] == day;
  }

  /** The source column: `(source or "").strip().lower() or "unknown"`. */
  function SourceLabel(source: string): (r: string)
    ensures r != []
    ensures Norm(source) != [] ==> r == Norm(source)
    ensures Norm(source) == [] ==> r == "unknown"
  {
    var n := Norm(source);
    if n == [] then "unknown" else n
  }

  /** A stored source labels itself: the column never holds a text it would relabel. */
  lemma SourceLabelStable(source: string)
    ensures SourceLabel(SourceLabel(source)) == SourceLabel(source)
  {
    NormIdempotent(source);
    var u := "unknown";
    NoSpaceStrip(u);
    assert Lower(u) == u;
  }

  datatype Key = Key(user: int, date: string, source: string)

  /** The integer columns of a row that this model keeps. */
  datatype Row = Row(steps: int, insertedAt: int)

  type Table = map<Key, Row>

  /** The map after writing each pair in turn, a later pair replacing an earlier one. */
  function Upserted<K, V>(m: map<K, V>, rs: seq<(K, V)>): map<K, V>
    decreases |rs|
  {
    if rs == [] then m else Upserted(m, rs[..|rs| - 1])[rs[|rs| - 1].0 := rs[|rs| - 1].1]
  }

  /** The position of the last pair with key `k`, or -1. */
  function LastAt<K(==), V>(rs: seq<(K, V)>, k: K): (i: int)
    ensures -1 <= i < |rs| && (i >= 0 ==> rs[i].0 == k)
    ensures forall j :: i < j < |rs| ==> rs[j].0 != k
    decreases |rs|
  {
    if rs == [] then -1 else if rs[|rs| - 1].0 == k then |rs| - 1 else LastAt(rs[..|rs| - 1], k)
  }

  /** Last write wins: a key holds the value of its last pair, and a key no pair names
      keeps what it had. */
  lemma {:induction false} UpsertedAt<K, V>(m: map<K, V>, rs: seq<(K, V)>, k: K)
    ensures var i := LastAt(rs, k);
      (k in Upserted(m, rs) <==> i >= 0 || k in m) &&
      (i >= 0 ==> Upserted(m, rs)[k] == rs[i].1) &&
      (i < 0 && k in m ==> Upserted(m, rs)[k] == m[k])
    decreases |rs|
  {
    if rs != [] {
      UpsertedAt(m, rs[..|rs| - 1], k);
    }
  }

  /** Two upserts in a row are one upsert of both batches. */
  lemma {:induction false} UpsertedAppend<K, V>(m: map<K, V>, a: seq<(K, V)>, b: seq<(K, V)>)
    ensures Upserted(m, a + b) == Upserted(Upserted(m, a), b)
    decreases |b|
  {
    if b == [] {
      assert a + b == a;
    } else {
      assert (a + b)[..|a + b| - 1] == a + b[..|b| - 1];
      UpsertedAppend(m, a, b[..|b| - 1]);
    }
  }

  /** The date a record offers: `r.get("date") or r.get("day") or r.get("timestamp")`. */
  function RecordDate(r: Json): Json {
    OrElse(OrElse(GetOr(r, "date", JNull), GetOr(r, "day", JNull)), GetOr(r, "timestamp", JNull))
  }

  /** The step count a record offers: `r.get("steps") or r.get("step_count") or 0`. */
  function RecordSteps(r: Json): Json {
    OrElse(OrElse(GetOr(r, "steps", JNull), GetOr(r, "step_count", JNull)), JInt(0))
  }

  /** A float column a record offers: `float(r.get(first) or r.get(second) or 0.0)`, whose
      argument is the first truthy of the two, else zero. */
  function RecordFloat(r: Json, first: string, second: string): Json {
    OrElse(OrElse(GetOr(r, first, JNull), GetOr(r, second, JNull)), JInt(0))
  }

  /** The exception of the first float column whose `float()` raises: distance, then
      duration, then calories. */
  function FloatColumnsError(r: Json): Option<string> {
    var dist := FloatError(RecordFloat(r, "distance_meters", "distance"));
    var dur := FloatError(RecordFloat(r, "duration", "duration_seconds"));
    var kcal := FloatError(RecordFloat(r, "kcalories", "calories"));
    if dist.Some? then dist else if dur.Some? then dur else kcal
  }

  /** The record has a date that normalises to a non-empty text. */
  predicate Dated(r: Json) {
    var d := NormDate(RecordDate(r));
    d.Some? && d.value != []
  }

  /** One record in the loop of `upsert_walk`: `r.get` on a non-dict raises, a record without
      a usable date is skipped, a step count `int()` rejects raises, and so does a distance,
      duration or calories value `float()` rejects. */
  function RowOf(user: int, r: Json, src: string, now: int): Result<Option<(Key, Row)>, string> {
    if !r.JObj? then Failure("AttributeError")
    else if !Dated(r) then Success(None)
    else
      match CoerceInt(RecordSteps(r))
      case None => Failure("ValueError")
      case Some(steps) =>
        var e := FloatColumnsError(r);
        if e.Some? then Failure(e.value)
        else Success(Some((Key(user, NormDate(RecordDate(r)).value, src), Row(steps, now))))
  }

  /** A record raises exactly when it is not a dict, or it is dated and its step count or
      one of its float columns cannot be converted; a raising float column gives its error. */
  lemma RowOfFails(user: int, r: Json, src: string, now: int)
    ensures RowOf(user, r, src, now).Failure? <==>
      !r.JObj? || (Dated(r) && (CoerceInt(RecordSteps(r)).None? || FloatColumnsError(r).Some?))
    ensures r.JObj? && Dated(r) && CoerceInt(RecordSteps(r)).Some? && FloatColumnsError(r).Some? ==>
      RowOf(user, r, src, now) == Failure(FloatColumnsError(r).value)
  {
  }

  /** "n/a" is not a number `float()` reads. */
  lemma NotAvailableIsNoFloat()
    ensures FloatError(JStr("n/a")) == Some("ValueError")
  {
    var t := "n/a";
    assert t[0] == 'n' && t[2] == 'a';
    NoSpaceStrip(t);
    assert t[..FindChar(t, '.')] == t;
    assert !IsDigit(t[0]);
  }

  /** The record `{"date": "2025-01-01", "steps": 1, "distance": d}` is dated, has a step
      count and offers `d` as its distance. */
  lemma DayRecordFacts(d: Json)
    requires Truthy(d)
    ensures var r := JObj([("date", JStr("2025-01-01")), ("steps", JInt(1)), ("distance", d)]);
      Dated(r) && CoerceInt(RecordSteps(r)) == Some(1) && RecordFloat(r, "distance_meters", "distance") == d
  {
    var fs := [("date", JStr("2025-01-01")), ("steps", JInt(1)), ("distance", d)];
    LookupAt(fs, 0);
    LookupAt(fs, 1);
    LookupAt(fs, 2);
    LookupAbsent(fs, "distance_meters");
    NormDateOfIso("2025-01-01", None);
    assert "2025-01-01" + "" == "2025-01-01";
  }

  /** A dated record with a distance `float()` cannot read makes the whole batch raise, so
      nothing is written. */
  lemma UnreadableDistanceAborts(user: int, src: string, now: int)
    ensures Prepared(user, [JObj([("date", JStr("2025-01-01")), ("steps", JInt(1)), ("distance", JStr("n/a"))])], src, now)
      == Failure("ValueError")
  {
    var r := JObj([("date", JStr("2025-01-01")), ("steps", JInt(1)), ("distance", JStr("n/a"))]);
    assert [r][..0] == [];
    DayRecordFacts(JStr("n/a"));
    NotAvailableIsNoFloat();
    assert FloatColumnsError(r) == Some("ValueError");
  }

  /** Writing the same rows again changes nothing: each key still holds one row. */
  lemma UpsertAgain(t: Table, rs: seq<(Key, Row)>)
    ensures Upserted(Upserted(t, rs), rs) == Upserted(t, rs)
  {
    var once := Upserted(t, rs);
    var twice := Upserted(once, rs);
    forall k
      ensures k in twice <==> k in once
    {
      UpsertedAt(t, rs, k);
      UpsertedAt(once, rs, k);
    }
    forall k | k in once
      ensures twice[k] == once[k]
    {
      UpsertedAt(t, rs, k);
      UpsertedAt(once, rs, k);
    }
  }

  /** The rows `upsert_walk` collects before writing, or the error of the first record that
      raises. */
  function Prepared(user: int, rs: seq<Json>, src: string, now: int): Result<seq<(Key, Row)>, string>
    decreases |rs|
  {
    if rs == [] then Success([])
    else
      match Prepared(user, rs[..|rs| - 1], src, now)
      case Failure(e) => Failure(e)
      case Success(acc) =>
        match RowOf(user, rs[|rs| - 1], src, now)
        case Failure(e) => Failure(e)
        case Success(None) => Success(acc)
        case Success(Some(p)) => Success(acc + [p])
  }

  /** Number of records with a usable date. */
  function DatedCount(rs: seq<Json>): nat
    decreases |rs|
  {
    if rs == [] then 0 else DatedCount(rs[..|rs| - 1]) + if Dated(rs[|rs| - 1]) then 1 else 0
  }

  /** Every collected row belongs to the user and source, carries a usable date of at most
      ten characters and the insert time; there is one per dated record. */
  lemma {:induction false} PreparedRows(user: int, rs: seq<Json>, src: string, now: int)
    requires Prepared(user, rs, src, now).Success?
    ensures var rows := Prepared(user, rs, src, now).value;
      |rows| == DatedCount(rs) &&
      forall i :: 0 <= i < |rows| ==>
        rows[i].0.user == user && rows[i].0.source == src && rows[i].0.date != [] &&
        |rows[i].0.date| <= 10 && rows[i].1.insertedAt == now
    decreases |rs|
  {
    if rs != [] {
      PreparedRows(user, rs[..|rs| - 1], src, now);
    }
  }

  /** The batch raises exactly when one of its records does. */
  lemma {:induction false} PreparedFails(user: int, rs: seq<Json>, src: string, now: int)
    ensures Prepared(user, rs, src, now).Failure? <==>
      exists i :: 0 <= i < |rs| && RowOf(user, rs[i], src, now).Failure?
    decreases |rs|
  {
    if rs != [] {
      var init := rs[..|rs| - 1];
      PreparedFails(user, init, src, now);
      PreparedFailsStep(user, rs, src, now);
      var last := RowOf(user, rs[|rs| - 1], src, now);
      if exists i :: 0 <= i < |init| && RowOf(user, init[i], src, now).Failure? {
        var i :| 0 <= i < |init| && RowOf(user, init[i], src, now).Failure?;
        assert rs[i] == init[i];
      }
      if exists i :: 0 <= i < |rs| && RowOf(user, rs[i], src, now).Failure? {
        var i :| 0 <= i < |rs| && RowOf(user, rs[i], src, now).Failure?;
        if i < |init| {
          assert init[i] == rs[i];
          assert Prepared(user, init, src, now).Failure?;
        } else {
          assert last.Failure?;
        }
      }
    }
  }

  lemma PreparedFailsStep(user: int, rs: seq<Json>, src: string, now: int)
    requires rs != []
    ensures Prepared(user, rs, src, now).Failure? <==>
      Prepared(user, rs[..|rs| - 1], src, now).Failure? || RowOf(user, rs[|rs| - 1], src, now).Failure?
  {
  }

  /** Once a prefix of the batch has raised, the whole batch raises with that error. */
  lemma {:induction false} PreparedStaysFailed(user: int, rs: seq<Json>, src: string, now: int, j: nat)
    requires 0 < j <= |rs| && Prepared(user, rs[..j], src, now).Failure?
    ensures Prepared(user, rs, src, now) == Prepared(user, rs[..j], src, now)
    decreases |rs|
  {
    if j == |rs| {
      assert rs[..j] == rs;
    } else {
      var init := rs[..|rs| - 1];
      assert init[..j] == rs[..j];
      PreparedStaysFailed(user, init, src, now, j);
    }
  }

  /** What `upsert_walk` reports besides its timing and the database path. */
  datatype UpsertReport = UpsertReport(stored: nat, source: string)

  /** A query of `fetch_walk`. */
  datatype FetchQuery = FetchQuery(
    user: int, startDate: Option<string>, endDate: Option<string>,
    limit: Option<int>, offset: Option<int>, preferSource: string)

  /** A returned record, without its floating-point columns. */
  datatype VaultRecord = VaultRecord(date: string, steps: int, source: string)

  datatype VaultStats = VaultStats(days: nat, totalSteps: int)

  /** What `fetch_walk` answers besides the constant fields and its provenance. */
  datatype Fetched = Fetched(user: int, records: seq<VaultRecord>, stats: VaultStats, vaultSources: seq<string>)

  /** A bound as the query applies it: normalised, and dropped when that leaves nothing. */
  function BoundOf(s: Option<string>): (r: Option<string>)
    ensures r.Some? ==> s.Some? && NormDate(JStr(s.value)) == r && r.value != []
    ensures s.Some? && r.None? ==> NormDate(JStr(s.value)).None? || NormDate(JStr(s.value)) == Some([])
  {
    if s.None? then None
    else
      var d := NormDate(JStr(s.value));
      if d.Some? && d.value != [] then d else None
  }

  /** SQL's `date >= lo AND date <= hi` on text, for the bounds that are given. */
  predicate InRange(date: string, lo: Option<string>, hi: Option<string>) {
    (lo.None? || StrLe(lo.value, date)) && (hi.None? || StrLe(date, hi.value))
  }

  /** `(prefer_source or "gamebus").strip().lower()` */
  function PreferOf(s: string): string {
    Norm(if s == [] then "gamebus" else s)
  }

  /** The dates of the user's rows inside the range. */
  function DatesIn(t: Table, user: int, lo: Option<string>, hi: Option<string>): set<string> {
    set k | k in t && k.user == user && InRange(k.date, lo, hi) :: k.date
  }

  /** The sources holding a row for the user on the date. */
  function SourcesOn(t: Table, user: int, date: string): set<string> {
    set k | k in t && k.user == user && k.date == date :: k.source
  }

  lemma SourcesOnRows(t: Table, user: int, date: string)
    ensures forall s :: s in SourcesOn(t, user, date) <==> Key(user, date, s) in t
  {
    forall s | Key(user, date, s) in t ensures s in SourcesOn(t, user, date) {
      var k := Key(user, date, s);
      assert k.source == s;
    }
  }

  lemma DateHasSource(t: Table, user: int, lo: Option<string>, hi: Option<string>, date: string)
    requires date in DatesIn(t, user, lo, hi)
    ensures SourcesOn(t, user, date) != {}
  {
    var k :| k in t && k.user == user && InRange(k.date, lo, hi) && k.date == date;
    assert k.source in SourcesOn(t, user, date);
  }

  /** The source with the newest insert among `ss`, the first such when several tie. */
  function NewestOf(t: Table, user: int, date: string, ss: seq<string>): (s: string)
    requires ss != [] && forall x :: x in ss ==> Key(user, date, x) in t
    ensures s in ss
    ensures forall x :: x in ss ==> t[Key(user, date, x)].insertedAt <= t[Key(user, date, s)].insertedAt
    decreases |ss|
  {
    if |ss| == 1 then ss[0]
    else
      var rest := NewestOf(t, user, date, ss[1..]);
      assert forall x :: x in ss ==> x == ss[0] || x in ss[1..];
      if t[Key(user, date, ss[0])].insertedAt >= t[Key(user, date, rest)].insertedAt then ss[0] else rest
  }

  /** The row `ROW_NUMBER() ... ORDER BY source = prefer DESC, inserted_at DESC` ranks first. */
  function Pick(t: Table, user: int, date: string, prefer: string): (s: string)
    requires SourcesOn(t, user, date) != {}
    ensures Key(user, date, s) in t
    ensures Key(user, date, prefer) in t ==> s == prefer
    ensures Key(user, date, prefer) !in t ==>
      forall x :: Key(user, date, x) in t ==> t[Key(user, date, x)].insertedAt <= t[Key(user, date, s)].insertedAt
  {
    var srcs := SourcesOn(t, user, date);
    SourcesOnRows(t, user, date);
    if prefer in srcs then prefer
    else NewestOf(t, user, date, SortedSet(srcs))
  }

  function RecordOn(t: Table, user: int, date: string, prefer: string): (r: VaultRecord)
    requires SourcesOn(t, user, date) != {}
  {
    var s := Pick(t, user, date, prefer);
    VaultRecord(date, t[Key(user, date, s)].steps, s)
  }

  /** One record per date in range, ascending by date: the rows ranked first. */
  function Deduped(t: Table, user: int, lo: Option<string>, hi: Option<string>, prefer: string): (r: seq<VaultRecord>)
    ensures |r| == |DatesIn(t, user, lo, hi)|
  {
    var ds := SortedSet(DatesIn(t, user, lo, hi));
    seq(|ds|, i requires 0 <= i < |ds| =>
      DateHasSource(t, user, lo, hi, ds[i]);
      RecordOn(t, user, ds[i], prefer))
  }

  /** SQL's `LIMIT lim OFFSET off`, with no limit when `lim` is None. */
  function Window<T>(s: seq<T>, off: nat, lim: Option<nat>): (r: seq<T>)
    ensures lim.Some? ==> |r| <= lim.value
    ensures forall i :: 0 <= i < |r| ==> off + i < |s| && r[i] == s[off + i]
    ensures off <= |s| && (lim.None? || off + lim.value >= |s|) ==> |r| == |s| - off
    ensures off <= |s| && lim.Some? && off + lim.value < |s| ==> |r| == lim.value
  {
    if off >= |s| then []
    else if lim.None? || off + lim.value >= |s| then s[off..]
    else s[off..off + lim.value]
  }

  lemma WindowFrom(all: seq<VaultRecord>, off: nat, lim: Option<nat>, page: seq<VaultRecord>)
    requires page == Window(all, off, lim)
    ensures forall i :: 0 <= i < |page| ==> off + i < |all| && page[i] == all[off + i]
  {
  }

  function StepsOf(rs: seq<VaultRecord>): seq<int> {
    seq(|rs|, i requires 0 <= i < |rs| => rs[i].steps)
  }

  /** The de-duplicated records of a query, before paging. */
  function AllOf(t: Table, q: FetchQuery): seq<VaultRecord> {
    Deduped(t, q.user, BoundOf(q.startDate), BoundOf(q.endDate), PreferOf(q.preferSource))
  }

  function OffsetOf(q: FetchQuery): nat {
    if q.offset.None? then 0 else Max0(q.offset.value)
  }

  function LimitOf(q: FetchQuery): Option<nat> {
    if q.limit.None? then None else Some(Max0(q.limit.value))
  }

  /** The page of a query: `LIMIT`/`OFFSET` with negative values read as 0. */
  function PageOf(t: Table, q: FetchQuery): seq<VaultRecord> {
    Window(AllOf(t, q), OffsetOf(q), LimitOf(q))
  }

  function SourcesIn(rs: seq<VaultRecord>): set<string> {
    set r | r in rs :: r.source
  }

  lemma SourcesInSnoc(rs: seq<VaultRecord>, r: VaultRecord)
    ensures SourcesIn(rs + [r]) == SourcesIn(rs) + {r.source}
  {
    assert forall x :: x in rs + [r] <==> x in rs || x == r;
  }

  /** The loop over the page's rows, collecting the records and their sources. */
  method CollectPage(rows: seq<VaultRecord>) returns (records: seq<VaultRecord>, sources: set<string>)
    ensures records == rows && sources == SourcesIn(rows)
  {
    records, sources := [], {};
    var i := 0;
    while i < |rows|
      invariant 0 <= i <= |rows|
      invariant records == rows[..i]
      invariant sources == SourcesIn(rows[..i])
    {
      assert rows[..i + 1] == rows[..i] + [rows[i]];
      SourcesInSnoc(rows[..i], rows[i]);
      records := records + [rows[i]];
      sources := sources + {rows[i].source};
      i := i + 1;
    }
    assert rows[..i] == rows;
  }

  /** `fetch_walk`: the page of de-duplicated records, the statistics of all of them, and
      the sorted sources of the page. */
  function FetchSpec(t: Table, q: FetchQuery): Fetched {
    var all := AllOf(t, q);
    Fetched(q.user, PageOf(t, q), VaultStats(|all|, Sum(StepsOf(all))), SortedSet(SourcesIn(PageOf(t, q))))
  }

  function Max0(n: int): nat {
    if n < 0 then 0 else n
  }

  /** What the ranking gives on each date: a stored row of the user inside the range,
      the preferred source when it has a row, else the newest insert of that date. */
  ghost predicate Ranked(t: Table, user: int, lo: Option<string>, hi: Option<string>, prefer: string, r: VaultRecord) {
    InRange(r.date, lo, hi) &&
    Key(user, r.date, r.source) in t && t[Key(user, r.date, r.source)].steps == r.steps &&
    (Key(user, r.date, prefer) in t ==> r.source == prefer) &&
    (Key(user, r.date, prefer) !in t ==> forall x :: Key(user, r.date, x) in t ==>
      t[Key(user, r.date, x)].insertedAt <= t[Key(user, r.date, r.source)].insertedAt)
  }

  lemma DedupedRanked(t: Table, user: int, lo: Option<string>, hi: Option<string>, prefer: string)
    ensures var all := Deduped(t, user, lo, hi, prefer);
      var ds := SortedSet(DatesIn(t, user, lo, hi));
      forall i :: 0 <= i < |all| ==> all[i].date == ds[i] && Ranked(t, user, lo, hi, prefer, all[i])
  {
    var all := Deduped(t, user, lo, hi, prefer);
    var ds := SortedSet(DatesIn(t, user, lo, hi));
    forall i | 0 <= i < |all| ensures all[i].date == ds[i] && Ranked(t, user, lo, hi, prefer, all[i]) {
      assert ds[i] in DatesIn(t, user, lo, hi);
    }
  }

  lemma PageFromAll(t: Table, q: FetchQuery)
    ensures forall i :: 0 <= i < |PageOf(t, q)| ==>
      OffsetOf(q) + i < |AllOf(t, q)| && PageOf(t, q)[i] == AllOf(t, q)[OffsetOf(q) + i]
  {
    WindowFrom(AllOf(t, q), OffsetOf(q), LimitOf(q), PageOf(t, q));
  }

  /** Every returned record is a stored row of the user in the range, with that row's step
      count: the preferred source when it has a row on that date, else the newest insert. */
  lemma FetchRanked(t: Table, q: FetchQuery)
    ensures forall r :: r in FetchSpec(t, q).records ==>
      Ranked(t, q.user, BoundOf(q.startDate), BoundOf(q.endDate), PreferOf(q.preferSource), r)
  {
    DedupedRanked(t, q.user, BoundOf(q.startDate), BoundOf(q.endDate), PreferOf(q.preferSource));
    PageFromAll(t, q);
    forall r | r in FetchSpec(t, q).records
      ensures Ranked(t, q.user, BoundOf(q.startDate), BoundOf(q.endDate), PreferOf(q.preferSource), r)
    {
      var i :| 0 <= i < |PageOf(t, q)| && PageOf(t, q)[i] == r;
    }
  }

  /** Returned dates are strictly ascending, so there is one record per date. */
  lemma FetchAscending(t: Table, q: FetchQuery)
    ensures var rs := FetchSpec(t, q).records;
      forall i, j :: 0 <= i < j < |rs| ==> StrLe(rs[i].date, rs[j].date) && rs[i].date != rs[j].date
  {
    DedupedRanked(t, q.user, BoundOf(q.startDate), BoundOf(q.endDate), PreferOf(q.preferSource));
    PageFromAll(t, q);
  }

  /** Every date with a row of the user in range has its record among all the de-duplicated
      ones, which the statistics count and the page is a window of. */
  lemma FetchComplete(t: Table, q: FetchQuery, k: Key)
    requires k in t && k.user == q.user && InRange(k.date, BoundOf(q.startDate), BoundOf(q.endDate))
    ensures var all := AllOf(t, q);
      (exists i :: 0 <= i < |all| && all[i].date == k.date) &&
      FetchSpec(t, q).stats == VaultStats(|all|, Sum(StepsOf(all)))
  {
    var lo, hi := BoundOf(q.startDate), BoundOf(q.endDate);
    var ds := SortedSet(DatesIn(t, q.user, lo, hi));
    assert k.date in DatesIn(t, q.user, lo, hi);
    var i :| 0 <= i < |ds| && ds[i] == k.date;
    DedupedRanked(t, q.user, lo, hi, PreferOf(q.preferSource));
    assert AllOf(t, q)[i].date == k.date;
  }

  /** The statistics do not depend on the page asked for. */
  lemma StatsIgnorePaging(t: Table, q: FetchQuery, limit: Option<int>, offset: Option<int>)
    ensures FetchSpec(t, q.(limit := limit, offset := offset)).stats == FetchSpec(t, q).stats
  {
  }

  /** `maintain(days)` keeps the rows inserted at or after this time. */
  function Cutoff(days: int, now: int): int {
    now - Max0(days) * 86400
  }

  function Retained(t: Table, cutoff: int): Table {
    map k | k in t && t[k].insertedAt >= cutoff :: t[k]
  }

  function Expired(t: Table, cutoff: int): set<Key> {
    set k | k in t && t[k].insertedAt < cutoff
  }

  /** The rows removed are exactly the expired ones, so the count before minus the count
      after is their number; every other row is kept as it was. */
  lemma RetainedCount(t: Table, cutoff: int)
    ensures |t.Keys| - |Retained(t, cutoff).Keys| == |Expired(t, cutoff)|
    ensures forall k :: k in Retained(t, cutoff) <==> k in t && k !in Expired(t, cutoff)
  {
    var kept := Retained(t, cutoff).Keys;
    var gone := Expired(t, cutoff);
    assert t.Keys == kept + gone;
    assert kept * gone == {};
  }

  datatype MaintainReport = MaintainReport(keptLastDays: nat, deletedRows: int)

  /** The vault database: its `walk_records` table. */
  class Vault {
    var table: Table

    constructor ()
      ensures table == map[]
    {
      table := map[];
    }

    /** `upsert_walk(user_id, records, source=...)` at time `now`: the rows of the dated
        records are written in order, or, when a record raises, nothing is written. */
    method UpsertWalk(user: int, records: seq<Json>, source: string, now: int) returns (r: Result<UpsertReport, string>)
      modifies this
      ensures var src := SourceLabel(source);
        var p := Prepared(user, records, src, now);
        (p.Failure? ==> r == Failure(p.error) && table == old(table)) &&
        (p.Success? ==> r == Success(UpsertReport(|p.value|, src)) && table == Upserted(old(table), p.value))
    {
      var src := SourceLabel(source);
      var rows: seq<(Key, Row)> := [];
      var i := 0;
      while i < |records|
        invariant 0 <= i <= |records|
        invariant Prepared(user, records[..i], src, now) == Success(rows)
      {
        assert records[..i + 1][..i] == records[..i];
        assert records[..i + 1][i] == records[i];
        var row := RowOf(user, records[i], src, now);
        if row.Failure? {
          PreparedStaysFailed(user, records, src, now, i + 1);
          return Failure(row.error);
        }
        if row.value.Some? {
          rows := rows + [row.value.value];
        }
        i := i + 1;
      }
      assert records[..i] == records;
      var k := 0;
      while k < |rows|
        invariant 0 <= k <= |rows|
        invariant table == Upserted(old(table), rows[..k])
      {
        assert rows[..k + 1][..k] == rows[..k];
        table := table[rows[k].0 := rows[k].1];
        k := k + 1;
      }
      assert rows[..k] == rows;
      r := Success(UpsertReport(|rows|, src));
    }

    /** `fetch_walk(user_id, ...)`: the ranked rows are turned into records one by one and
        their sources collected. */
    method FetchWalk(q: FetchQuery) returns (f: Fetched)
      ensures f == FetchSpec(table, q)
    {
      var rows := PageOf(table, q);
      var records, sources := CollectPage(rows);
      var all := AllOf(table, q);
      f := Fetched(q.user, records, VaultStats(|all|, Sum(StepsOf(all))), SortedSet(sources));
    }

    /** `maintain(days)` at time `now`: deletes the rows inserted before the cutoff and
        reports how many went. */
    method Maintain(days: int, now: int) returns (rep: MaintainReport)
      modifies this
      ensures table == Retained(old(table), Cutoff(days, now))
      ensures rep == MaintainReport(Max0(days), |Expired(old(table), Cutoff(days, now))|)
    {
      var cutoff := Cutoff(days, now);
      var before := |table.Keys|;
      RetainedCount(table, cutoff);
      table := Retained(table, cutoff);
      var after := |table.Keys|;
      rep := MaintainReport(Max0(days), before - after);
    }
  }
}
