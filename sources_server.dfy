/** The Sources MCP server, `src/hdt_sources_mcp/server.py`, and its older copy
    `HDT_SOURCES_MCP/server.py`: bearer-token clean-up, connector resolution from the merged
    user configuration, the inclusive date window with offset/limit paging, and the fixed
    precedence of the typed errors its fetch tools return. The upstream fetchers and the
    clock are parameters; date parsing is a parameter `key` that turns a date text into a
    comparable number. */
module SourcesServer {
  import opened Wrappers
  import opened Text
  import opened JsonValues
  import opened Envelopes

  // ---------------------------------------------------------------- bearer tokens

  /** `_strip_bearer_prefix(token)`: an absent or empty token gives None; otherwise the
      stripped token, without a leading "bearer " in any letter case. */
  function StripBearer(token: Option<string>): Option<string> {
    if token.None? || token.value == [] then None
    else
      var t := Strip(token.value);
      if StartsWith(Lower(t), "bearer ") then Some(Strip(t[6..])) else Some(t)
  }

  predicate Trimmed(s: string) {
    s == [] || (!IsSpace(s[0]) && !IsSpace(s[|s| - 1]))
  }

  /** An absent or empty token gives None, and a token that is kept is trimmed. */
  lemma StripBearerTrims(token: Option<string>)
    ensures token.None? || token == Some([]) ==> StripBearer(token).None?
    ensures StripBearer(token).Some? ==> Trimmed(StripBearer(token).value)
  {
    if token.Some? && token.value != [] {
      var t := Strip(token.value);
      StripTrims(token.value);
      if StartsWith(Lower(t), "bearer ") {
        StripTrims(t[6..]);
      }
    }
  }

  lemma LowerSpace(c: char)
    requires LowerChar(c) == ' '
    ensures c == ' '
  {
  }

  /** A trimmed token behind a "bearer " prefix, in any letter case, comes back as it was. */
  lemma StripBearerRoundTrip(prefix: string, t: string)
    requires |prefix| == 7 && Lower(prefix) == "bearer "
    requires t != [] && Trimmed(t)
    ensures StripBearer(Some(prefix + t)) == Some(t)
  {
    var s := prefix + t;
    assert LowerChar(prefix[0]) == 'b';
    assert LowerChar(prefix[6]) == ' ';
    LowerSpace(prefix[6]);
    assert s[0] == prefix[0] && s[|s| - 1] == t[|t| - 1];
    NoSpaceStrip(s);
    assert Lower(s)[..7] == Lower(prefix);
    assert s[6..] == [' '] + t;
    assert ([' '] + t)[1..] == t;
    assert LStrip([' '] + t) == LStrip(t);
    NoSpaceStrip(t);
    assert LStrip(t) == t;
  }

  // ---------------------------------------------------------------- connector lookup

  const WalkKey: string := "connected_apps_walk_data"
  const DiabetesKey: string := "connected_apps_diabetes_data"

  /** The spellings of Google Fit that name the same application. */
  const GoogleFitAliases: set<string> := {"google fit", "googlefit", "google_fit"}

  /** The application names a normalised application name stands for. (The gamebus case
      of the source only adds "gamebus" to a set that already holds it.) */
  function Aliases(appNorm: string): (r: set<string>)
    ensures appNorm in r
  {
    if appNorm in GoogleFitAliases then {appNorm} + GoogleFitAliases else {appNorm}
  }

  /** Any spelling of Google Fit stands for all three. */
  lemma AliasesUnifyGoogleFit(a: string, b: string)
    requires a in GoogleFitAliases && b in GoogleFitAliases
    ensures Aliases(a) == Aliases(b) == GoogleFitAliases
  {
  }

  /** `(e.get("connected_application") or "").strip().lower()`; `.strip()` raises on a true
      value that is not a string. */
  function AppNameOf(e: Json): Result<string, string> {
    var v := GetOr(e, "connected_application", JNull);
    if !Truthy(v) then Success("")
    else if v.JStr? then Success(Norm(v.s))
    else Failure("AttributeError: connected_application has no strip")
  }

  /** A config entry the search returns on: a dict whose application name is one of the
      aliases and whose player id is not None. */
  predicate Matches(e: Json, aliases: set<string>) {
    e.JObj? && AppNameOf(e).Success? && AppNameOf(e).value in aliases &&
    GetOr(e, "player_id", JNull) != JNull
  }

  /** A config entry whose application name cannot be read. */
  predicate Raises(e: Json) {
    e.JObj? && AppNameOf(e).Failure?
  }

  /** The position of the first entry from `i` on that the search returns on, or the
      position of the entry that raises before one is found. */
  function FirstMatch(entries: seq<Json>, aliases: set<string>, i: nat): (r: Result<Option<nat>, nat>)
    requires i <= |entries|
    ensures r.Success? && r.value.Some? ==>
      i <= r.value.value < |entries| && Matches(entries[r.value.value], aliases) &&
      forall k :: i <= k < r.value.value ==> !Matches(entries[k], aliases) && !Raises(entries[k])
    ensures r.Success? && r.value.None? ==>
      forall k :: i <= k < |entries| ==> !Matches(entries[k], aliases) && !Raises(entries[k])
    ensures r.Failure? ==>
      i <= r.error < |entries| && Raises(entries[r.error]) &&
      forall k :: i <= k < r.error ==> !Matches(entries[k], aliases) && !Raises(entries[k])
    decreases |entries| - i
  {
    if i == |entries| then Success(None)
    else if !entries[i].JObj? then FirstMatch(entries, aliases, i + 1)
    else
      match AppNameOf(entries[i])
      case Failure(_) => Failure(i)
      case Success(ca) =>
        if ca in aliases && GetOr(entries[i], "player_id", JNull) != JNull then Success(Some(i))
        else FirstMatch(entries, aliases, i + 1)
  }

  datatype Connector = Connector(app: string, playerId: string, bearer: Option<string>)

  /** `_strip_bearer_prefix(e.get("auth_bearer"))`: a false value gives None, and `.strip()`
      raises on a true value that is not a string. */
  function BearerOf(e: Json): Result<Option<string>, string> {
    var v := GetOr(e, "auth_bearer", JNull);
    if !Truthy(v) then Success(None)
    else if v.JStr? then Success(StripBearer(Some(v.s)))
    else Failure("AttributeError: auth_bearer has no strip")
  }

  /** The connector built from a matching entry. */
  function ConnectorOf(e: Json, app: string): Result<Connector, string> {
    var name := GetOr(e, "connected_application", JNull);
    match BearerOf(e)
    case Failure(m) => Failure(m)
    case Success(b) =>
      Success(Connector(if name.JStr? && name.s != [] then name.s else app, PyStr(GetOr(e, "player_id", JNull)), b))
  }

  /** The connector list under `key`, when it is a list. */
  function EntriesOf(user: Fields, key: string): Option<seq<Json>> {
    var entries := OrElse(GetOr(JObj(user), key, JNull), JList([]));
    if entries.JList? then Some(entries.items) else None
  }

  /** `_find_primary_connector(user, key, app)` */
  function FindPrimary(user: Fields, key: string, app: string): Result<Option<Connector>, string> {
    match EntriesOf(user, key)
    case None => Success(None)
    case Some(entries) =>
      match FirstMatch(entries, Aliases(Norm(app)), 0)
      case Failure(_) => Failure("AttributeError: connected_application has no strip")
      case Success(None) => Success(None)
      case Success(Some(j)) =>
        match ConnectorOf(entries[j], app)
        case Failure(m) => Failure(m)
        case Success(c) => Success(Some(c))
  }

  /** The connector found is the one built from the first matching entry: it carries that
      entry's player id, as text, and its cleaned token; no earlier entry matches. Without
      a match, and without an unreadable entry, there is no connector. */
  lemma FindPrimaryFirst(user: Fields, key: string, app: string)
    ensures var r := FindPrimary(user, key, app);
      r.Success? && r.value.Some? ==>
        var es := EntriesOf(user, key).value;
        exists j :: 0 <= j < |es| && Matches(es[j], Aliases(Norm(app))) &&
          (forall k :: 0 <= k < j ==> !Matches(es[k], Aliases(Norm(app)))) &&
          r.value.value.playerId == PyStr(GetOr(es[j], "player_id", JNull)) &&
          BearerOf(es[j]) == Success(r.value.value.bearer)
    ensures EntriesOf(user, key).Some? &&
      (forall k :: 0 <= k < |EntriesOf(user, key).value| ==>
        !Matches(EntriesOf(user, key).value[k], Aliases(Norm(app))) && !Raises(EntriesOf(user, key).value[k]))
      ==> FindPrimary(user, key, app) == Success(None)
    ensures EntriesOf(user, key).None? ==> FindPrimary(user, key, app) == Success(None)
  {
    var r := FindPrimary(user, key, app);
    if EntriesOf(user, key).Some? {
      var es := EntriesOf(user, key).value;
      var m := FirstMatch(es, Aliases(Norm(app)), 0);
      if m.Success? && m.value.Some? {
        var j := m.value.value;
        assert 0 <= j < |es| && Matches(es[j], Aliases(Norm(app)));
      } else if m.Failure? {
        assert Raises(es[m.error]);
      }
    }
  }

  /** The three spellings of Google Fit find the same connector. */
  lemma GoogleFitSpellingsAgree(user: Fields, key: string, a: string, b: string)
    requires Norm(a) in GoogleFitAliases && Norm(b) in GoogleFitAliases
    ensures FindPrimary(user, key, a) == FindPrimary(user, key, b)
  {
    AliasesUnifyGoogleFit(Norm(a), Norm(b));
    if EntriesOf(user, key).Some? {
      var es := EntriesOf(user, key).value;
      var m := FirstMatch(es, GoogleFitAliases, 0);
      if m.Success? && m.value.Some? {
        var e := es[m.value.value];
        assert Matches(e, GoogleFitAliases);
        assert "" !in GoogleFitAliases;
        assert ConnectorOf(e, a) == ConnectorOf(e, b);
      }
    }
  }

  /** `_gamebus_diabetes_connector(u)`: the diabetes connector; else the walk connector,
      carrying the first diabetes entry's token when that one has a token. */
  function DiabetesConnector(u: Fields): (r: Result<Option<Connector>, string>)
    ensures r.Success? && r.value.Some? ==>
      FindPrimary(u, DiabetesKey, "GameBus") == r ||
      (FindPrimary(u, DiabetesKey, "GameBus") == Success(None) &&
       exists w: Connector :: FindPrimary(u, WalkKey, "GameBus") == Success(Some(w)) &&
         r.value.value.app == w.app && r.value.value.playerId == w.playerId)
    ensures r == Success(None) <==>
      FindPrimary(u, DiabetesKey, "GameBus") == Success(None) && FindPrimary(u, WalkKey, "GameBus") == Success(None)
  {
    match FindPrimary(u, DiabetesKey, "GameBus")
    case Failure(m) => Failure(m)
    case Success(Some(c)) => Success(Some(c))
    case Success(None) =>
      match FindPrimary(u, WalkKey, "GameBus")
      case Failure(m) => Failure(m)
      case Success(None) => Success(None)
      case Success(Some(walk)) =>
        match EntriesOf(u, DiabetesKey)
        case None => Success(Some(walk))
        case Some(entries) =>
          if entries == [] then Success(Some(walk))
          else
            var first := if entries[0].JObj? then entries[0] else JObj([]);
            match BearerOf(first)
            case Failure(m) => Failure(m)
            case Success(tok) =>
              if tok.Some? && tok.value != [] then Success(Some(Connector(walk.app, walk.playerId, tok)))
              else Success(Some(walk))
  }

  // ---------------------------------------------------------------- users and status

  /** The typed error with the request's user id beside it. */
  function UserError(code: string, message: string, userId: int): (r: Json)
    ensures ErrorCode(r) == Some(code) && Get(r, "user_id") == Some(JInt(userId))
  {
    TypedError(code, message, JNull, [("user_id", JInt(userId))])
  }

  /** `_get_user_or_error(user_id)`: a missing or empty user record is `unknown_user`. */
  function GetUser(users: map<int, Fields>, userId: int): (r: Result<Fields, Json>)
    ensures r.Success? <==> userId in users && users[userId] != []
    ensures r.Success? ==> r.value == users[userId]
    ensures r.Failure? ==> ErrorCode(r.error) == Some("unknown_user")
  {
    if userId in users && users[userId] != [] then Success(users[userId])
    else Failure(UserError("unknown_user", "Unknown user_id=" + IntToString(userId), userId))
  }

  /** A token counts when it is present, not empty, and not a `YOUR_...` placeholder. */
  predicate HasToken(c: Connector) {
    c.bearer.Some? && c.bearer.value != [] && !Contains(c.bearer.value, "YOUR_")
  }

  /** `_conn_state(c)` in `sources_status`. */
  function ConnState(c: Option<Connector>): (r: Json)
    ensures r.JObj?
    ensures Get(r, "configured") == Some(JBool(c.Some?))
    ensures c.Some? ==> Get(r, "has_token") == Some(JBool(HasToken(c.value)))
    ensures c.None? ==> Get(r, "has_token") == None
  {
    if c.None? then JObj([("configured", JBool(false))])
    else
      var fs := [("configured", JBool(true)), ("connected_application", JStr(c.value.app)),
                 ("player_id", JStr(c.value.playerId)), ("has_token", JBool(HasToken(c.value)))];
      LookupAt(fs, 0);
      LookupAt(fs, 3);
      JObj(fs)
  }

  /** The status answer: one entry per walk source and one for diabetes. */
  function StatusJson(userId: int, gb: Option<Connector>, gf: Option<Connector>, gd: Option<Connector>): (r: Json)
    ensures Get(r, "walk") == Some(JObj([("gamebus", ConnState(gb)), ("googlefit", ConnState(gf))]))
    ensures Get(r, "diabetes") == Some(JObj([("gamebus", ConnState(gd))]))
    ensures !HasKey(r, "error")
  {
    var fs := [("user_id", JInt(userId)),
               ("walk", JObj([("gamebus", ConnState(gb)), ("googlefit", ConnState(gf))])),
               ("diabetes", JObj([("gamebus", ConnState(gd))])),
               ("note", JStr("Checks local config only; does not validate tokens upstream."))];
    LookupAt(fs, 1);
    LookupAt(fs, 2);
    LookupAbsent(fs, "error");
    JObj(fs)
  }

  /** `sources_status(user_id)` */
  function SourcesStatus(users: map<int, Fields>, userId: int): Result<Json, string> {
    match GetUser(users, userId)
    case Failure(err) => Success(err)
    case Success(u) =>
      match FindPrimary(u, WalkKey, "GameBus")
      case Failure(m) => Failure(m)
      case Success(gb) =>
        match FindPrimary(u, WalkKey, "Google Fit")
        case Failure(m) => Failure(m)
        case Success(gf) =>
          match FindPrimary(u, DiabetesKey, "GameBus")
          case Failure(m) => Failure(m)
          case Success(gd) => Success(StatusJson(userId, gb, gf, gd))
  }

  // ---------------------------------------------------------------- dates, window, paging

  /** `_gamebus_date_iso(date_str, end=end)` (`_gamebus_iso` in the older server): a bare
      `YYYY-MM-DD` becomes the first or the last second of that day in UTC. */
  function GamebusDateIso(d: Option<string>, end: bool): Option<string> {
    if d.None? || d.value == [] then None
    else
      var s := Strip(d.value);
      if 'T' in s && EndsWith(s, "Z") then Some(s)
      else if |s| == 10 && s[4] == '-' && s[7] == '-' then Some(s + if end then "T23:59:59Z" else "T00:00:00Z")
      else Some(s)
  }

  /** A bare date gains the time of day that bounds it; and converting twice is converting
      once, unless the text was only whitespace. */
  lemma GamebusDateIsoIdempotent(d: Option<string>, end: bool)
    ensures d.Some? && |Strip(d.value)| == 10 && Strip(d.value)[4] == '-' && Strip(d.value)[7] == '-' && 'T' !in Strip(d.value) ==>
      GamebusDateIso(d, end) == Some(Strip(d.value) + if end then "T23:59:59Z" else "T00:00:00Z")
    ensures GamebusDateIso(d, end) != Some([]) ==>
      GamebusDateIso(GamebusDateIso(d, end), end) == GamebusDateIso(d, end)
  {
    if d.Some? && d.value != [] {
      var s := Strip(d.value);
      StripIdempotent(d.value);
      StripTrims(d.value);
      if !('T' in s && EndsWith(s, "Z")) && |s| == 10 && s[4] == '-' && s[7] == '-' {
        var x := s + if end then "T23:59:59Z" else "T00:00:00Z";
        assert x[0] == s[0] && x[|x| - 1] == 'Z' && x[10] == 'T';
        NoSpaceStrip(x);
        assert x[|x| - 1..] == "Z";
      }
    }
  }

  /** The "date" of a record (records are dicts; anything else has no date). */
  function DateOf(r: Json): Json {
    if r.JObj? then GetOr(r, "date", JNull) else JNull
  }

  /** A bound given as text takes part only when it is not empty. */
  predicate Active(b: Option<string>) {
    b.Some? && b.value != []
  }

  /** The record has a date, and that date is on the right side of `bound`. */
  predicate InBound(r: Json, bound: string, lower: bool, key: string -> int) {
    Truthy(DateOf(r)) &&
    (if lower then key(PyStr(DateOf(r))) >= key(bound) else key(PyStr(DateOf(r))) <= key(bound))
  }

  /** The list comprehension that keeps the records within one bound. */
  function Keep(rs: seq<Json>, bound: string, lower: bool, key: string -> int): (out: seq<Json>)
    ensures |out| <= |rs|
    ensures forall r :: r in out ==> r in rs && InBound(r, bound, lower, key)
    ensures forall i :: 0 <= i < |rs| && InBound(rs[i], bound, lower, key) ==> rs[i] in out
  {
    if rs == [] then []
    else (if InBound(rs[0], bound, lower, key) then [rs[0]] else []) + Keep(rs[1..], bound, lower, key)
  }

  datatype Window = Window(start: Option<string>, end: Option<string>, limit: Option<int>, offset: Option<int>)

  /** The record lies inside every bound the window gives. */
  predicate InWindow(r: Json, w: Window, key: string -> int) {
    (Active(w.start) ==> InBound(r, w.start.value, true, key)) &&
    (Active(w.end) ==> InBound(r, w.end.value, false, key))
  }

  function Max0(n: int): nat {
    if n < 0 then 0 else n
  }

  /** Python's `s[lo:hi]` for non-negative bounds. */
  function PySlice<T>(s: seq<T>, lo: nat, hi: nat): (r: seq<T>)
    ensures |r| <= |s| && |r| <= if hi < lo then 0 else hi - lo
  {
    var a := if lo < |s| then lo else |s|;
    var b := if hi < |s| then hi else |s|;
    if b < a then [] else s[a..b]
  }

  /** `out[off:]` or `out[off:off + lim]`, with negative offset and limit read as 0. */
  function Page(s: seq<Json>, limit: Option<int>, offset: Option<int>): (out: seq<Json>)
    ensures limit.Some? ==> |out| <= Max0(limit.value)
  {
    var off := if offset.None? then 0 else Max0(offset.value);
    if limit.None? then PySlice(s, off, |s|) else PySlice(s, off, off + Max0(limit.value))
  }

  /** `_filter_and_page(records, start, end, limit, offset)`; `key` is the date parser of
      the server (the day in the current one, the full datetime in the older one). */
  function FilterAndPage(records: seq<Json>, w: Window, key: string -> int): seq<Json> {
    var a := if Active(w.start) then Keep(records, w.start.value, true, key) else records;
    var b := if Active(w.end) then Keep(a, w.end.value, false, key) else a;
    Page(b, w.limit, w.offset)
  }

  /** `a` is `b` with some elements left out, in order. */
  predicate Subseq<T(==)>(a: seq<T>, b: seq<T>)
    decreases |b|
  {
    a == [] || (b != [] && ((a[0] == b[0] && Subseq(a[1..], b[1..])) || Subseq(a, b[1..])))
  }

  lemma {:induction false} SubseqTrans<T>(a: seq<T>, b: seq<T>, c: seq<T>)
    requires Subseq(a, b) && Subseq(b, c)
    ensures Subseq(a, c)
    decreases |c|
  {
    if a != [] {
      assert b != [] && c != [];
      if Subseq(b, c[1..]) {
        SubseqTrans(a, b, c[1..]);
      } else if a[0] == b[0] && Subseq(a[1..], b[1..]) {
        SubseqTrans(a[1..], b[1..], c[1..]);
      } else {
        SubseqTrans(a, b[1..], c[1..]);
      }
    }
  }

  lemma {:induction false} SubseqSelf<T>(s: seq<T>)
    ensures Subseq(s, s)
    decreases |s|
  {
    if s != [] {
      SubseqSelf(s[1..]);
    }
  }

  lemma {:induction false} KeepSubseq(rs: seq<Json>, bound: string, lower: bool, key: string -> int)
    ensures Subseq(Keep(rs, bound, lower, key), rs)
    decreases |rs|
  {
    if rs != [] {
      var out := Keep(rs, bound, lower, key);
      KeepSubseq(rs[1..], bound, lower, key);
      if InBound(rs[0], bound, lower, key) {
        assert out[1..] == Keep(rs[1..], bound, lower, key);
      } else {
        assert out == Keep(rs[1..], bound, lower, key);
      }
    }
  }

  lemma {:induction false} SliceSubseq<T>(s: seq<T>, lo: nat, hi: nat)
    requires lo <= hi <= |s|
    ensures Subseq(s[lo..hi], s)
    decreases |s|
  {
    if lo > 0 {
      SliceSubseq(s[1..], lo - 1, hi - 1);
      assert s[1..][lo - 1..hi - 1] == s[lo..hi];
    } else if hi > 0 {
      SliceSubseq(s[1..], 0, hi - 1);
      assert s[..hi][1..] == s[1..][0..hi - 1];
    }
  }

  lemma PageSubseq(s: seq<Json>, limit: Option<int>, offset: Option<int>)
    ensures Subseq(Page(s, limit, offset), s)
  {
    var off := if offset.None? then 0 else Max0(offset.value);
    var hi := if limit.None? then |s| else off + Max0(limit.value);
    var a := if off < |s| then off else |s|;
    var b := if hi < |s| then hi else |s|;
    if b < a {
    } else {
      SliceSubseq(s, a, b);
    }
  }

  /** The window keeps its promise: every record returned comes from the input, in input
      order, has a date, and lies inside every bound given; at most `limit` come back. */
  lemma FilterAndPageSound(records: seq<Json>, w: Window, key: string -> int)
    ensures var out := FilterAndPage(records, w, key);
      Subseq(out, records) &&
      (w.limit.Some? ==> |out| <= Max0(w.limit.value)) &&
      forall r :: r in out ==> r in records && InWindow(r, w, key)
  {
    var a := if Active(w.start) then Keep(records, w.start.value, true, key) else records;
    var b := if Active(w.end) then Keep(a, w.end.value, false, key) else a;
    var out := Page(b, w.limit, w.offset);
    if Active(w.start) { KeepSubseq(records, w.start.value, true, key); } else { SubseqSelf(records); }
    if Active(w.end) { KeepSubseq(a, w.end.value, false, key); } else { SubseqSelf(a); }
    PageSubseq(b, w.limit, w.offset);
    SubseqTrans(b, a, records);
    SubseqTrans(out, b, records);
    forall r | r in out
      ensures r in records && InWindow(r, w, key)
    {
      SubseqIn(out, b, r);
    }
  }

  lemma {:induction false} SubseqIn<T>(a: seq<T>, b: seq<T>, x: T)
    requires Subseq(a, b) && x in a
    ensures x in b
    decreases |b|
  {
    assert b != [];
    if a[0] == b[0] && Subseq(a[1..], b[1..]) {
      if x != a[0] {
        assert x in a[1..];
        SubseqIn(a[1..], b[1..], x);
      }
    } else {
      SubseqIn(a, b[1..], x);
    }
  }

  /** Without paging, every record inside the window is returned; without bounds, a
      dateless record is kept too. */
  lemma FilterAndPageComplete(records: seq<Json>, w: Window, key: string -> int)
    requires w.limit.None? && w.offset.None?
    ensures forall i :: 0 <= i < |records| && InWindow(records[i], w, key) ==> records[i] in FilterAndPage(records, w, key)
    ensures !Active(w.start) && !Active(w.end) ==> FilterAndPage(records, w, key) == records
  {
    var a := if Active(w.start) then Keep(records, w.start.value, true, key) else records;
    var b := if Active(w.end) then Keep(a, w.end.value, false, key) else a;
    assert Page(b, None, None) == b[0..|b|];
    assert b[0..|b|] == b;
    forall i | 0 <= i < |records| && InWindow(records[i], w, key)
      ensures records[i] in b
    {
      assert records[i] in a;
      if Active(w.end) {
        var k :| 0 <= k < |a| && a[k] == records[i];
      }
    }
  }

  /** A negative offset is offset 0, and a negative limit returns nothing. */
  lemma NegativePagingClamps(s: seq<Json>, limit: Option<int>, n: int)
    requires n < 0
    ensures Page(s, limit, Some(n)) == Page(s, limit, None) == Page(s, limit, Some(0))
    ensures Page(s, Some(n), None) == []
  {
  }

  /** The older server parses bounds and record dates as datetimes, so a date-only end
      bound is midnight: a record later on that same day is dropped there, where the
      current server, which compares days, keeps it. */
  lemma EndBoundDayVersusDatetime(r: Json, end: string, day: string -> int, sec: string -> int)
    requires Truthy(DateOf(r))
    requires day(PyStr(DateOf(r))) == day(end) && sec(end) == 0 && sec(PyStr(DateOf(r))) > 0
    ensures InBound(r, end, false, day)
    ensures !InBound(r, end, false, s => day(s) * 86400 + sec(s))
  {
  }

  // ---------------------------------------------------------------- fetch tools

  /** The two copies of the server differ in what their walk tools hand the fetcher. */
  datatype Variant = Current | Older

  datatype WalkApp = GameBusApp | GoogleFitApp

  function AppLabel(a: WalkApp): string {
    match a
    case GameBusApp => "GameBus"
    case GoogleFitApp => "Google Fit"
  }

  /** The call made to an upstream fetcher. */
  datatype Upstream = Upstream(playerId: string, bearer: string, start: Option<string>, end: Option<string>)

  /** A tool's answer (or the exception it raises) and the upstream call it made, if any. */
  datatype ToolRun = ToolRun(result: Result<Json, string>, upstream: Option<Upstream>)

  /** The token is usable for a fetch: present and not empty. */
  predicate HasBearer(c: Connector) {
    c.bearer.Some? && c.bearer.value != []
  }

  /** The walk tool's answer. */
  function WalkPayload(userId: int, app: WalkApp, records: seq<Json>, playerId: string, now: string): (r: Json)
    ensures Get(r, "records") == Some(JList(records)) && Get(r, "source") == Some(JStr(AppLabel(app)))
    ensures !HasKey(r, "error")
  {
    var fs := [("user_id", JInt(userId)), ("source", JStr(AppLabel(app))), ("kind", JStr("walk")),
               ("records", JList(records)),
               ("provenance", JObj([("player_id", JStr(playerId)), ("retrieved_at", JStr(now))]))];
    LookupAt(fs, 1);
    LookupAt(fs, 3);
    LookupAbsent(fs, "error");
    JObj(fs)
  }

  /** `source_gamebus_walk_fetch` and `source_googlefit_walk_fetch`; `raw` is what the
      fetcher would answer (None for no data) and `now` the time of the answer. */
  function WalkFetchTool(v: Variant, users: map<int, Fields>, userId: int, app: WalkApp, w: Window,
                         raw: Option<seq<Json>>, key: string -> int, now: string): ToolRun
  {
    match GetUser(users, userId)
    case Failure(err) => ToolRun(Success(err), None)
    case Success(u) =>
      match FindPrimary(u, WalkKey, AppLabel(app))
      case Failure(m) => ToolRun(Failure(m), None)
      case Success(None) =>
        ToolRun(Success(UserError("not_connected", "User not connected to " + AppLabel(app) + " for walk data", userId)), None)
      case Success(Some(c)) =>
        if !HasBearer(c) then
          ToolRun(Success(UserError("missing_token", "Missing " + AppLabel(app) + " auth_bearer for walk connector", userId)), None)
        else
          var call := if v == Current then Upstream(c.playerId, c.bearer.value, w.start, w.end)
                      else Upstream(c.playerId, c.bearer.value, None, None);
          if raw.None? then
            ToolRun(Success(UserError("upstream_error", AppLabel(app) + " walk fetch returned no data (upstream error)", userId)), Some(call))
          else
            ToolRun(Success(WalkPayload(userId, app, FilterAndPage(raw.value, w, key), c.playerId, now)), Some(call))
  }

  /** The errors come in a fixed order: `unknown_user`, then `not_connected`, then
      `missing_token`, then `upstream_error`; the fetcher is called only once a connector
      with a token is found, and its records are windowed and paged. */
  lemma WalkFetchPrecedence(v: Variant, users: map<int, Fields>, userId: int, app: WalkApp, w: Window,
                            raw: Option<seq<Json>>, key: string -> int, now: string)
    ensures var run := WalkFetchTool(v, users, userId, app, w, raw, key, now);
      var user := GetUser(users, userId);
      (user.Failure? ==> run.upstream.None? && run.result.Success? && ErrorCode(run.result.value) == Some("unknown_user")) &&
      (user.Success? && FindPrimary(user.value, WalkKey, AppLabel(app)) == Success(None) ==>
        run.upstream.None? && ErrorCode(run.result.value) == Some("not_connected")) &&
      (user.Success? && FindPrimary(user.value, WalkKey, AppLabel(app)).Success? &&
       FindPrimary(user.value, WalkKey, AppLabel(app)).value.Some? ==>
        var c := FindPrimary(user.value, WalkKey, AppLabel(app)).value.value;
        (!HasBearer(c) ==> run.upstream.None? && ErrorCode(run.result.value) == Some("missing_token")) &&
        (HasBearer(c) ==>
          run.upstream.Some? && run.upstream.value.playerId == c.playerId && run.upstream.value.bearer == c.bearer.value &&
          (raw.None? ==> ErrorCode(run.result.value) == Some("upstream_error")) &&
          (raw.Some? ==> (!IsError(run.result.value) &&
             Get(run.result.value, "records") == Some(JList(FilterAndPage(raw.value, w, key)))))))
  {
  }

  /** Only the current server passes the request's window on to the walk fetcher. */
  lemma WalkWindowReachesFetcher(v: Variant, users: map<int, Fields>, userId: int, app: WalkApp, w: Window,
                                 raw: Option<seq<Json>>, key: string -> int, now: string)
    requires WalkFetchTool(v, users, userId, app, w, raw, key, now).upstream.Some?
    ensures var up := WalkFetchTool(v, users, userId, app, w, raw, key, now).upstream.value;
      (v == Current ==> up.start == w.start && up.end == w.end) &&
      (v == Older ==> up.start.None? && up.end.None?)
  {
  }

  datatype DiabetesKind = Trivia | Sugarvita

  function KindName(k: DiabetesKind): string {
    match k
    case Trivia => "trivia"
    case Sugarvita => "sugarvita"
  }

  /** The trivia or sugarvita tool's answer. */
  function DiabetesPayload(userId: int, kind: DiabetesKind, data: Json, latest: Json, playerId: string, now: string): (r: Json)
    ensures Get(r, "data") == Some(data) && Get(r, "latest_activity") == Some(latest)
    ensures !HasKey(r, "error")
  {
    var fs := [("user_id", JInt(userId)), ("source", JStr("GameBus")), ("kind", JStr(KindName(kind))),
               ("data", data), ("latest_activity", latest),
               ("provenance", JObj([("player_id", JStr(playerId)), ("retrieved_at", JStr(now))]))];
    LookupAt(fs, 3);
    LookupAt(fs, 4);
    LookupAbsent(fs, "error");
    JObj(fs)
  }

  /** `source_gamebus_trivia_fetch` and `source_gamebus_sugarvita_fetch` (the same in both
      servers); `data` and `latest` are what the fetcher would answer, JNull for None. */
  function DiabetesFetchTool(users: map<int, Fields>, userId: int, kind: DiabetesKind,
                             start: Option<string>, end: Option<string>, data: Json, latest: Json, now: string): ToolRun
  {
    match GetUser(users, userId)
    case Failure(err) => ToolRun(Success(err), None)
    case Success(u) =>
      match DiabetesConnector(u)
      case Failure(m) => ToolRun(Failure(m), None)
      case Success(None) =>
        ToolRun(Success(UserError("not_connected", "User not connected to GameBus for diabetes/" + KindName(kind) + " data", userId)), None)
      case Success(Some(c)) =>
        if !HasBearer(c) then
          ToolRun(Success(UserError("missing_token", "Missing GameBus auth_bearer for diabetes/" + KindName(kind) + " connector", userId)), None)
        else
          var call := Upstream(c.playerId, c.bearer.value, GamebusDateIso(start, false), GamebusDateIso(end, true));
          if data == JNull && latest == JNull then
            ToolRun(Success(UserError("upstream_error", "GameBus " + KindName(kind) + " fetch returned no data (upstream error)", userId)), Some(call))
          else
            ToolRun(Success(DiabetesPayload(userId, kind, data, latest, c.playerId, now)), Some(call))
  }

  /** Once the fetcher is called (with the bounds widened to whole days), the answer is
      `upstream_error` exactly when both the data and the latest activity are None. */
  lemma DiabetesUpstreamError(users: map<int, Fields>, userId: int, kind: DiabetesKind,
                              start: Option<string>, end: Option<string>, data: Json, latest: Json, now: string)
    requires DiabetesFetchTool(users, userId, kind, start, end, data, latest, now).upstream.Some?
    ensures var run := DiabetesFetchTool(users, userId, kind, start, end, data, latest, now);
      run.result.Success? &&
      run.upstream.value.start == GamebusDateIso(start, false) && run.upstream.value.end == GamebusDateIso(end, true) &&
      (ErrorCode(run.result.value) == Some("upstream_error") <==> data == JNull && latest == JNull) &&
      (IsError(run.result.value) <==> data == JNull && latest == JNull)
  {
    var run := DiabetesFetchTool(users, userId, kind, start, end, data, latest, now);
    var u := GetUser(users, userId).value;
    var c := DiabetesConnector(u).value.value;
    if !(data == JNull && latest == JNull) {
      var p := DiabetesPayload(userId, kind, data, latest, c.playerId, now);
      assert run.result.value == p;
      assert Get(p, "error") == None;
    }
  }
}
