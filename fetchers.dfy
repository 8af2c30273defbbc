/** The walk batch fetcher of `HDT_API/services/fetchers.py`: the provider's rows are
    optionally cut to an inclusive ISO window, sorted by date with the undated rows last,
    counted, and sliced for the page. The provider answers, the connected-app lookup, the
    order flag and the placeholder clock are parameters. */
module Fetchers {
  import opened Wrappers
  import opened Text
  import opened JsonValues

  /** `_normalize_iso_key(s)`: every "Z" removed, and "T00:00:00" appended to a date alone. */
  function IsoKey(s: string): (k: string)
    ensures 'Z' !in k && 'T' in k
    ensures 'T' in RemoveChar(s, 'Z') ==> k == RemoveChar(s, 'Z')
    ensures 'T' !in RemoveChar(s, 'Z') ==> k == RemoveChar(s, 'Z') + "T00:00:00"
  {
    var t := RemoveChar(s, 'Z');
    if 'T' in t then t
    else
      var k := t + "T00:00:00";
      assert k[|t|] == 'T';
      k
  }

  /** A key is already normalised: normalising twice is normalising once. */
  lemma IsoKeyIdempotent(s: string)
    ensures IsoKey(IsoKey(s)) == IsoKey(s)
  {
    RemoveAbsentChar(IsoKey(s), 'Z');
  }

  /** `_DESC`: HDT_WALK_ORDER (default "asc"), stripped and lower-cased, is "desc". */
  function DescendingOrder(env: Option<string>): bool {
    Norm(env.GetOr("asc")) == "desc"
  }

  /** The record's "date" is a string. */
  predicate Keyed(r: Json) {
    Get(r, "date").Some? && Get(r, "date").value.JStr?
  }

  function DateText(r: Json): string
    requires Keyed(r)
  {
    Get(r, "date").value.s
  }

  /** The sort key: the date with every "Z" removed. */
  function SortKey(r: Json): string
    requires Keyed(r)
  {
    RemoveChar(DateText(r), 'Z')
  }

  /** `a` may come before `b` in the order asked for. */
  predicate Ordered(desc: bool, a: Json, b: Json)
    requires Keyed(a) && Keyed(b)
  {
    if desc then StrLe(SortKey(b), SortKey(a)) else StrLe(SortKey(a), SortKey(b))
  }

  lemma OrderedTotal(desc: bool, a: Json, b: Json)
    requires Keyed(a) && Keyed(b)
    ensures Ordered(desc, a, b) || Ordered(desc, b, a)
  {
    StrLeTotal(SortKey(a), SortKey(b));
  }

  lemma OrderedTrans(desc: bool, a: Json, b: Json, c: Json)
    requires Keyed(a) && Keyed(b) && Keyed(c) && Ordered(desc, a, b) && Ordered(desc, b, c)
    ensures Ordered(desc, a, c)
  {
    if desc {
      StrLeTrans(SortKey(c), SortKey(b), SortKey(a));
    } else {
      StrLeTrans(SortKey(a), SortKey(b), SortKey(c));
    }
  }

  predicate AllKeyed(s: seq<Json>) {
    forall r :: r in s ==> Keyed(r)
  }

  predicate SortedBy(desc: bool, s: seq<Json>)
    requires AllKeyed(s)
  {
    forall i, j :: 0 <= i < j < |s| ==> Ordered(desc, s[i], s[j])
  }

  /** Places `x` after every element it does not strictly precede. */
  function Insert(desc: bool, x: Json, s: seq<Json>): (r: seq<Json>)
    requires Keyed(x) && AllKeyed(s)
    ensures multiset(r) == multiset(s) + multiset{x}
    decreases |s|
  {
    if s == [] then [x]
    else if !Ordered(desc, s[0], x) then [x] + s
    else
      assert s == [s[0]] + s[1..];
      [s[0]] + Insert(desc, x, s[1..])
  }

  lemma InsertMembers(desc: bool, x: Json, s: seq<Json>)
    requires Keyed(x) && AllKeyed(s)
    ensures forall y :: y in Insert(desc, x, s) ==> y == x || y in s
  {
    var r := Insert(desc, x, s);
    forall y | y in r ensures y == x || y in s {
      assert y in multiset(r);
    }
  }

  /** A head that may precede every element of a sorted tail keeps the whole sorted. */
  lemma ConsSorted(desc: bool, h: Json, t: seq<Json>)
    requires Keyed(h) && AllKeyed(t) && SortedBy(desc, t)
    requires forall y :: y in t ==> Ordered(desc, h, y)
    ensures AllKeyed([h] + t) && SortedBy(desc, [h] + t)
  {
    var r := [h] + t;
    forall i, j | 0 <= i < j < |r| ensures Ordered(desc, r[i], r[j]) {
      assert r[j] == t[j - 1];
      if i > 0 {
        assert r[i] == t[i - 1];
      }
    }
  }

  /** An element that the head of a sorted sequence does not precede precedes all of it. */
  lemma BeforeAll(desc: bool, x: Json, s: seq<Json>)
    requires Keyed(x) && AllKeyed(s) && SortedBy(desc, s) && s != [] && !Ordered(desc, s[0], x)
    ensures forall y :: y in s ==> Ordered(desc, x, y)
  {
    OrderedTotal(desc, s[0], x);
    forall j | 0 <= j < |s| ensures Ordered(desc, x, s[j]) {
      if j > 0 {
        OrderedTrans(desc, x, s[0], s[j]);
      }
    }
  }

  /** Inserting into a sorted sequence keeps it sorted. */
  lemma {:induction false} InsertSorted(desc: bool, x: Json, s: seq<Json>)
    requires Keyed(x) && AllKeyed(s) && SortedBy(desc, s)
    ensures AllKeyed(Insert(desc, x, s)) && SortedBy(desc, Insert(desc, x, s))
    decreases |s|
  {
    if s == [] {
    } else if !Ordered(desc, s[0], x) {
      BeforeAll(desc, x, s);
      ConsSorted(desc, x, s);
    } else {
      var t := s[1..];
      assert s == [s[0]] + t;
      InsertSorted(desc, x, t);
      InsertMembers(desc, x, t);
      forall y | y in Insert(desc, x, t) ensures Ordered(desc, s[0], y) {
        if y != x {
          var j :| 0 <= j < |t| && t[j] == y;
          assert s[j + 1] == y;
        }
      }
      ConsSorted(desc, s[0], Insert(desc, x, t));
    }
  }

  /** The dated rows in the order asked for: a sorted permutation. */
  function SortDated(desc: bool, s: seq<Json>): (r: seq<Json>)
    requires AllKeyed(s)
    ensures multiset(r) == multiset(s)
    ensures AllKeyed(r) && SortedBy(desc, r)
    decreases |s|
  {
    if s == [] then []
    else
      var init := s[..|s| - 1];
      assert s == init + [s[|s| - 1]];
      InsertSorted(desc, s[|s| - 1], SortDated(desc, init));
      Insert(desc, s[|s| - 1], SortDated(desc, init))
  }

  function DatedRows(rows: seq<Json>): (r: seq<Json>)
    ensures AllKeyed(r) && multiset(r) <= multiset(rows)
    decreases |rows|
  {
    if rows == [] then []
    else
      assert rows == rows[..|rows| - 1] + [rows[|rows| - 1]];
      DatedRows(rows[..|rows| - 1]) + if Keyed(rows[|rows| - 1]) then [rows[|rows| - 1]] else []
  }

  function UndatedRows(rows: seq<Json>): (r: seq<Json>)
    ensures forall x :: x in r ==> !Keyed(x)
    decreases |rows|
  {
    if rows == [] then []
    else UndatedRows(rows[..|rows| - 1]) + if Keyed(rows[|rows| - 1]) then [] else [rows[|rows| - 1]]
  }

  /** The dated and the undated rows together are the rows. */
  lemma {:induction false} SplitPermutes(rows: seq<Json>)
    ensures multiset(DatedRows(rows)) + multiset(UndatedRows(rows)) == multiset(rows)
    decreases |rows|
  {
    if rows != [] {
      SplitPermutes(rows[..|rows| - 1]);
      assert rows == rows[..|rows| - 1] + [rows[|rows| - 1]];
    }
  }

  /** `_sort_records_by_date(rows)` */
  function SortRecordsByDate(desc: bool, rows: seq<Json>): seq<Json> {
    SortDated(desc, DatedRows(rows)) + UndatedRows(rows)
  }

  /** The sort is a permutation: the dated rows come first in the order asked for, then the
      undated rows as they came. */
  lemma SortRecordsFacts(desc: bool, rows: seq<Json>)
    ensures var r := SortRecordsByDate(desc, rows);
      var n := |DatedRows(rows)|;
      multiset(r) == multiset(rows) && n <= |r| &&
      AllKeyed(r[..n]) && SortedBy(desc, r[..n]) && r[n..] == UndatedRows(rows)
  {
    var d := DatedRows(rows);
    var s := SortDated(desc, d);
    SplitPermutes(rows);
    SortedLength(desc, d);
    ConcatParts(s, UndatedRows(rows));
  }

  /** Sorting keeps the number of rows. */
  lemma SortedLength(desc: bool, d: seq<Json>)
    requires AllKeyed(d)
    ensures |SortDated(desc, d)| == |d|
  {
    assert |multiset(SortDated(desc, d))| == |multiset(d)|;
  }

  /** The two halves of a concatenation, and its multiset. */
  lemma ConcatParts<T>(a: seq<T>, b: seq<T>)
    ensures (a + b)[..|a|] == a && (a + b)[|a|..] == b
    ensures multiset(a + b) == multiset(a) + multiset(b)
  {
  }

  /** The record lies in the window: a string date whose key is not before `fkey` and not
      after `tkey`, for the bounds that are given. */
  predicate InWindow(r: Json, fkey: Option<string>, tkey: Option<string>) {
    Keyed(r) &&
    (fkey.None? || StrLe(fkey.value, IsoKey(DateText(r)))) &&
    (tkey.None? || StrLe(IsoKey(DateText(r)), tkey.value))
  }

  /** The rows the window loop keeps, in their order. */
  function Windowed(rows: seq<Json>, fkey: Option<string>, tkey: Option<string>): (r: seq<Json>)
    ensures |r| <= |rows|
    ensures forall x :: x in r ==> x in rows && InWindow(x, fkey, tkey)
    ensures forall x :: x in rows && InWindow(x, fkey, tkey) ==> x in r
    decreases |rows|
  {
    if rows == [] then []
    else
      var init := rows[..|rows| - 1];
      var last := rows[|rows| - 1];
      assert forall x :: x in rows <==> x in init || x == last;
      Windowed(init, fkey, tkey) + if InWindow(last, fkey, tkey) then [last] else []
  }

  /** The position Python's slicing takes for `i` in a sequence of length `n`. */
  function PyIndex(i: int, n: nat): (k: nat)
    ensures k <= n
  {
    if i < 0 then (if i + n < 0 then 0 else i + n) else if i > n then n else i
  }

  /** Python's `s[a:b]`, negative bounds counting from the end. */
  function PySliceAt<T>(s: seq<T>, a: int, b: int): (r: seq<T>)
    ensures 0 <= a <= b ==> |r| <= b - a
    ensures 0 <= b <= a ==> r == []
    ensures 0 <= a <= b && a <= |s| ==> r == s[a..if b < |s| then b else |s|]
  {
    var lo, hi := PyIndex(a, |s|), PyIndex(b, |s|);
    if lo < hi then s[lo..hi] else []
  }

  datatype Provider = GameBus | GoogleFit | Placeholder | Unknown

  /** The provider named by the connected app (`(app_name or "").strip().lower()`). */
  function ProviderOf(appName: Option<string>): Provider {
    var n := Norm(appName.GetOr(""));
    if n == "gamebus" then GameBus
    else if n in {"google fit", "googlefit", "google_fit"} then GoogleFit
    else if StartsWith(n, "placeholder") then Placeholder
    else Unknown
  }

  /** What the request does not decide: the providers' answers (None for a falsy one), the
      placeholder switch, the days of the placeholder rows, and the order flag. */
  datatype Env = Env(
    gamebus: Option<seq<Json>>, googleFit: Option<seq<Json>>,
    allowMocks: Option<string>, days: (string, string, string), desc: bool)

  /** HDT_ALLOW_PLACEHOLDER_MOCKS (default "0"), lower-cased only, is 1, true or yes. */
  predicate MocksAllowed(env: Env) {
    Lower(env.allowMocks.GetOr("0")) in {"1", "true", "yes"}
  }

  /** The three fixed placeholder rows: the day before yesterday, yesterday and today. */
  function MockRows(env: Env): seq<Json> {
    [JObj([("date", JStr(env.days.0)), ("steps", JInt(4231))]),
     JObj([("date", JStr(env.days.1)), ("steps", JInt(6120))]),
     JObj([("date", JStr(env.days.2)), ("steps", JInt(3580))])]
  }

  /** The rows of the provider, when it serves any. */
  function SourceRows(p: Provider, env: Env): Option<seq<Json>> {
    match p
    case GameBus => Some(env.gamebus.GetOr([]))
    case GoogleFit => Some(env.googleFit.GetOr([]))
    case Placeholder => if MocksAllowed(env) then Some(MockRows(env)) else None
    case Unknown => None
  }

  datatype BatchRequest = BatchRequest(user: int, limit: int, offset: int, fromIso: Option<string>, toIso: Option<string>)

  datatype FetcherResult = FetcherResult(records: seq<Json>, total: int)

  predicate GivenText(s: Option<string>) {
    s.Some? && s.value != []
  }

  function KeyOf(s: Option<string>): Option<string> {
    if GivenText(s) then Some(IsoKey(s.value)) else None
  }

  /** The rows that pass the window, when one is given (`if from_iso or to_iso`). */
  function Selected(rows: seq<Json>, q: BatchRequest): seq<Json> {
    if GivenText(q.fromIso) || GivenText(q.toIso) then Windowed(rows, KeyOf(q.fromIso), KeyOf(q.toIso)) else rows
  }

  /** `fetch_walk_batch(user_id, limit, offset, from_iso, to_iso)` for the connected app. */
  function BatchSpec(appName: Option<string>, env: Env, q: BatchRequest): FetcherResult {
    var rows := SourceRows(ProviderOf(appName), env);
    if rows.None? then FetcherResult([], 0)
    else
      var all := SortRecordsByDate(env.desc, Selected(rows.value, q));
      FetcherResult(PySliceAt(all, q.offset, q.offset + q.limit), |all|)
  }

  /** `total` counts every row that passed the window; the records are the page
      `[offset, offset + limit)` of the sorted rows, each one a provider row, and inside the
      window when one is given. */
  lemma BatchPage(appName: Option<string>, env: Env, q: BatchRequest)
    requires SourceRows(ProviderOf(appName), env).Some?
    requires 0 <= q.offset && 0 <= q.limit
    ensures var rows := SourceRows(ProviderOf(appName), env).value;
      BatchSpec(appName, env, q).total == |Selected(rows, q)| && |BatchSpec(appName, env, q).records| <= q.limit
    ensures var rows := SourceRows(ProviderOf(appName), env).value;
      var all := SortRecordsByDate(env.desc, Selected(rows, q));
      q.offset <= |all| ==>
        BatchSpec(appName, env, q).records == all[q.offset..if q.offset + q.limit < |all| then q.offset + q.limit else |all|]
    ensures var rows := SourceRows(ProviderOf(appName), env).value;
      forall r :: r in BatchSpec(appName, env, q).records ==> r in rows
    ensures var rows := SourceRows(ProviderOf(appName), env).value;
      GivenText(q.fromIso) || GivenText(q.toIso) ==>
        forall r :: r in BatchSpec(appName, env, q).records ==> InWindow(r, KeyOf(q.fromIso), KeyOf(q.toIso))
  {
    var rows := SourceRows(ProviderOf(appName), env).value;
    var sel := Selected(rows, q);
    var all := SortRecordsByDate(env.desc, sel);
    var page := PySliceAt(all, q.offset, q.offset + q.limit);
    assert BatchSpec(appName, env, q) == FetcherResult(page, |all|);
    SortedPage(env.desc, sel, q.offset, q.limit);
    SelectedRows(rows, q);
    assert forall r :: r in page ==> r in sel;
  }

  /** The page of the sorted rows: at most `lim` of them, the ones from `off` on. */
  lemma SortedPage(desc: bool, sel: seq<Json>, off: int, lim: int)
    requires 0 <= off && 0 <= lim
    ensures var all := SortRecordsByDate(desc, sel);
      var page := PySliceAt(all, off, off + lim);
      |all| == |sel| && |page| <= lim &&
      (off <= |all| ==> page == all[off..if off + lim < |all| then off + lim else |all|]) &&
      (forall r :: r in page ==> r in sel)
  {
    var all := SortRecordsByDate(desc, sel);
    SortKeepsRows(desc, sel);
    SliceMembers(all, off, off + lim);
  }

  lemma SortKeepsRows(desc: bool, sel: seq<Json>)
    ensures |SortRecordsByDate(desc, sel)| == |sel|
    ensures forall r :: r in SortRecordsByDate(desc, sel) ==> r in sel
  {
    var all := SortRecordsByDate(desc, sel);
    SortRecordsFacts(desc, sel);
    assert |multiset(all)| == |multiset(sel)|;
    forall r | r in all ensures r in sel {
      assert r in multiset(all);
    }
  }

  lemma SliceMembers<T>(s: seq<T>, a: int, b: int)
    ensures forall r :: r in PySliceAt(s, a, b) ==> r in s
  {
  }

  lemma SelectedRows(rows: seq<Json>, q: BatchRequest)
    ensures forall r :: r in Selected(rows, q) ==> r in rows
    ensures GivenText(q.fromIso) || GivenText(q.toIso) ==>
      forall r :: r in Selected(rows, q) ==> InWindow(r, KeyOf(q.fromIso), KeyOf(q.toIso))
  {
  }

  /** An unknown app, or a placeholder app without the switch, gets nothing. */
  lemma NoRowsWithoutProvider(appName: Option<string>, env: Env, q: BatchRequest)
    requires ProviderOf(appName) == Unknown || (ProviderOf(appName) == Placeholder && !MocksAllowed(env))
    ensures BatchSpec(appName, env, q) == FetcherResult([], 0)
  {
  }

  /** A placeholder app with the switch on serves its three fixed rows. */
  lemma MockBatch(appName: Option<string>, env: Env, q: BatchRequest)
    requires ProviderOf(appName) == Placeholder && MocksAllowed(env)
    requires !GivenText(q.fromIso) && !GivenText(q.toIso)
    ensures BatchSpec(appName, env, q).total == 3
  {
    SortKeepsRows(env.desc, MockRows(env));
  }

  /** The window loop of `fetch_walk_batch`. */
  method FilterWindow(rows: seq<Json>, fkey: Option<string>, tkey: Option<string>) returns (filtered: seq<Json>)
    ensures filtered == Windowed(rows, fkey, tkey)
  {
    filtered := [];
    var i := 0;
    while i < |rows|
      invariant 0 <= i <= |rows|
      invariant filtered == Windowed(rows[..i], fkey, tkey)
    {
      assert rows[..i + 1][..i] == rows[..i];
      var r := rows[i];
      if Keyed(r) {
        var k := IsoKey(DateText(r));
        if !(fkey.Some? && !StrLe(fkey.value, k)) && !(tkey.Some? && !StrLe(k, tkey.value)) {
          filtered := filtered + [r];
        }
      }
      i := i + 1;
    }
    assert rows[..i] == rows;
  }

  /** `fetch_walk_batch`, the window applied by its loop. */
  method FetchWalkBatch(appName: Option<string>, env: Env, q: BatchRequest) returns (res: FetcherResult)
    ensures res == BatchSpec(appName, env, q)
  {
    var rows := SourceRows(ProviderOf(appName), env);
    if rows.None? {
      return FetcherResult([], 0);
    }
    var sel := rows.value;
    if GivenText(q.fromIso) || GivenText(q.toIso) {
      sel := FilterWindow(sel, KeyOf(q.fromIso), KeyOf(q.toIso));
    }
    assert sel == Selected(rows.value, q);
    var all := SortRecordsByDate(env.desc, sel);
    BatchSpecOf(appName, env, q, rows.value, all);
    res := FetcherResult(PySliceAt(all, q.offset, q.offset + q.limit), |all|);
  }

  lemma BatchSpecOf(appName: Option<string>, env: Env, q: BatchRequest, rows: seq<Json>, all: seq<Json>)
    requires SourceRows(ProviderOf(appName), env) == Some(rows)
    requires all == SortRecordsByDate(env.desc, Selected(rows, q))
    ensures BatchSpec(appName, env, q) == FetcherResult(PySliceAt(all, q.offset, q.offset + q.limit), |all|)
  {
  }
}
