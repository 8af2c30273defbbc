/** The two HTTP walk adapters, which ask the HDT API's `/get_walk_data` for one user's walk
    records and unwrap the reply: `hdt_mcp/adapters/api_walk.py` (which degrades to no records
    on any HTTP or transport error) and the older `HDT_MCP/adapters/api_walk.py` (which raises).
    The HTTP exchange is a parameter: the reply the server gives. The records are the values
    handed to `WalkRecord.model_validate`, whose checks are not part of this model. */
module ApiWalk {
  import opened Wrappers
  import opened Text
  import opened JsonValues
  import HttpClient

  /** What `requests.get` gives back: the transport raised, or a status and a body that does or
      does not decode as JSON. */
  datatype HttpReply = Raised | Reply(status: int, body: Option<Json>)

  /** `raise_for_status()` raises for the client and server error statuses. */
  predicate IsHttpError(status: int) {
    400 <= status < 600
  }

  /** A request as sent: the URL, the query parameters in insertion order and the timeout. */
  datatype Request = Request(url: string, params: Fields, timeout: int)

  /** Iterating a decoded value in Python: a list gives its items, a dict its keys, a string its
      characters; anything else raises TypeError. */
  function Iterate(j: Json): (r: Result<seq<Json>, string>)
    ensures j.JList? ==> r == Success(j.items)
    ensures r.Failure? <==> j.JNull? || j.JBool? || j.JInt?
  {
    match j
    case JList(items) => Success(items)
    case JObj(fs) => Success(seq(|fs|, i requires 0 <= i < |fs| => JStr(fs[i].0)))
    case JStr(s) => Success(seq(|s|, i requires 0 <= i < |s| => JStr([s[i]])))
    case _ => Failure("TypeError")
  }

  // ---------------------------------------------------------------------------------------
  // hdt_mcp/adapters/api_walk.py

  /** The adapter's settings, fixed at construction. */
  datatype Adapter = Adapter(baseUrl: string, timeout: int)

  /** `ApiWalkAdapter(base_url, timeout_sec=..., timeout=...)`: `timeout` wins, then
      `timeout_sec`, then 30 seconds; the base URL loses its trailing slashes. */
  function NewAdapter(baseUrl: string, timeoutSec: Option<int>, timeout: Option<int>): (a: Adapter)
    ensures a.baseUrl == RStripChar(baseUrl, '/')
    ensures timeout.Some? ==> a.timeout == timeout.value
    ensures timeout.None? && timeoutSec.Some? ==> a.timeout == timeoutSec.value
    ensures timeout.None? && timeoutSec.None? ==> a.timeout == 30
  {
    Adapter(RStripChar(baseUrl, '/'), if timeout.Some? then timeout.value else timeoutSec.GetOr(30))
  }

  /** `to_record(d)`: the five walk fields of a record dict, steps defaulting to 0. */
  function ToRecord(d: Json): (r: Json)
    ensures r.JObj? && |r.fields| == 5
    ensures Get(r, "steps") == Some(GetOr(d, "steps", JInt(0)))
    ensures Get(r, "date") == Some(GetOr(d, "date", JNull))
  {
    var fs := [("date", GetOr(d, "date", JNull)), ("steps", GetOr(d, "steps", JInt(0))),
               ("distance_meters", GetOr(d, "distance_meters", JNull)), ("duration", GetOr(d, "duration", JNull)),
               ("kcalories", GetOr(d, "kcalories", JNull))];
    LookupAt(fs, 0);
    LookupAt(fs, 1);
    JObj(fs)
  }

  /** The dicts among the items, as records, in order. */
  function DictRecords(items: seq<Json>): (r: seq<Json>)
    ensures |r| <= |items|
    ensures forall j :: j in r ==> exists d :: d in items && d.JObj? && j == ToRecord(d)
  {
    if items == [] then []
    else (if items[0].JObj? then [ToRecord(items[0])] else []) + DictRecords(items[1..])
  }

  /** `[to_record(x) for x in (data or []) if isinstance(x, dict)]` */
  function RecordsOf(data: Json): (r: Result<seq<Json>, string>)
    ensures !Truthy(data) ==> r == Success([])
    ensures data.JList? ==> r == Success(DictRecords(data.items))
  {
    var it := Iterate(OrElse(data, JList([])));
    if it.Failure? then Failure(it.error) else Success(DictRecords(it.value))
  }

  /** `x.get("data", []) or x.get("records", [])` on an envelope. */
  function DataOrRecords(env: Json): Json {
    OrElse(GetOr(env, "data", JList([])), GetOr(env, "records", JList([])))
  }

  /** An envelope read past by the search: a dict whose user id is another integer. */
  predicate OtherEnvelope(e: Json, userId: int) {
    e.JObj? && CoerceInt(GetOr(e, "user_id", JInt(-1))).Some? && CoerceInt(GetOr(e, "user_id", JInt(-1))) != Some(userId)
  }

  /** `next((e for e in payload if int(e.get("user_id", -1)) == int(user_id)), None)`: the
      envelopes before the match are read too, so a non-dict one raises AttributeError and a
      user id that is not an integer raises ValueError. */
  function FindEnvelope(payload: seq<Json>, userId: int): (r: Result<Option<Json>, string>)
    ensures r == Success(None) ==> forall e :: e in payload ==>
      e.JObj? && CoerceInt(GetOr(e, "user_id", JInt(-1))).Some? && CoerceInt(GetOr(e, "user_id", JInt(-1))) != Some(userId)
    ensures r.Success? && r.value.Some? ==>
      r.value.value in payload && r.value.value.JObj? && CoerceInt(GetOr(r.value.value, "user_id", JInt(-1))) == Some(userId)
    ensures r.Success? && r.value.Some? ==>
      exists i :: 0 <= i < |payload| && payload[i] == r.value.value &&
        forall j :: 0 <= j < i ==> OtherEnvelope(payload[j], userId)
  {
    if payload == [] then Success(None)
    else
      var e := payload[0];
      if !e.JObj? then Failure("AttributeError")
      else
        var id := CoerceInt(GetOr(e, "user_id", JInt(-1)));
        if id.None? then Failure("ValueError")
        else if id.value == userId then Success(Some(e))
        else
          var r := FindEnvelope(payload[1..], userId);
          if r.Success? && r.value.Some? then EnvelopeAfterHead(payload, userId, r.value.value); r else r
  }

  /** A first match in the tail is the first match of the whole when the head is another user's. */
  lemma EnvelopeAfterHead(payload: seq<Json>, userId: int, e: Json)
    requires payload != [] && OtherEnvelope(payload[0], userId)
    requires
      exists i :: 0 <= i < |payload[1..]| && payload[1..][i] == e &&
        forall j :: 0 <= j < i ==> OtherEnvelope(payload[1..][j], userId)
    ensures
      exists i :: 0 <= i < |payload| && payload[i] == e &&
        forall j :: 0 <= j < i ==> OtherEnvelope(payload[j], userId)
  {
    var i :| 0 <= i < |payload[1..]| && payload[1..][i] == e &&
      forall j :: 0 <= j < i ==> OtherEnvelope(payload[1..][j], userId);
    assert payload[i + 1] == e;
    assert forall j :: 1 <= j < i + 1 ==> payload[j] == payload[1..][j - 1];
  }

  /** `_normalize(user_id, payload)` */
  function Normalize(userId: int, payload: Json): (r: Result<seq<Json>, string>)
    ensures !payload.JList? && !payload.JObj? ==> r == Success([])
    ensures payload.JObj? ==> r == RecordsOf(DataOrRecords(payload))
  {
    match payload
    case JList(items) =>
      var env := FindEnvelope(items, userId);
      if env.Failure? then Failure(env.error)
      else RecordsOf(DataOrRecords(OrElse(env.value.GetOr(JObj([])), JObj([]))))
    case JObj(_) => RecordsOf(DataOrRecords(payload))
    case _ => Success([])
  }

  /** In a list of envelopes, the matching envelope's records are taken from its "data", and
      from its "records" when "data" is missing or empty; no match gives no records. */
  lemma NormalizeEnvelopes(userId: int, items: seq<Json>)
    ensures var env := FindEnvelope(items, userId);
      env.Success? && env.value.Some? ==>
      Normalize(userId, JList(items)) == RecordsOf(DataOrRecords(env.value.value))
    ensures FindEnvelope(items, userId) == Success(None) ==> Normalize(userId, JList(items)) == Success([])
  {
    var env := FindEnvelope(items, userId);
    if env.Success? && env.value.Some? {
      var e := env.value.value;
      if !Truthy(e) {
        assert e == JObj([]);
      }
    }
  }

  /** Records under "data" win over records under "records". */
  lemma DataWins(fs: Fields, userId: int)
    requires Truthy(GetOr(JObj(fs), "data", JList([])))
    ensures Normalize(userId, JObj(fs)) == RecordsOf(GetOr(JObj(fs), "data", JList([])))
  {
  }

  const ParamKeys: set<string> := {"user_id", "from", "to", "limit", "offset"}

  /** The query binds user_id and the four optional keys as given, and nothing else. */
  predicate QueryHas(params: Fields, userId: int, from: Option<Json>, to: Option<Json>, limit: Option<Json>, offset: Option<Json>) {
    Lookup(params, "user_id") == Some(JInt(userId)) && Lookup(params, "from") == from && Lookup(params, "to") == to &&
    Lookup(params, "limit") == limit && Lookup(params, "offset") == offset &&
    forall p :: p in params ==> p.0 in ParamKeys
  }

  /** Adding an absent key to a query binds it and keeps the rest. */
  lemma AddParam(params: Fields, k: string, v: Json)
    requires k in ParamKeys && Lookup(params, k) == None
    ensures Lookup(params + [(k, v)], k) == Some(v)
    ensures forall k2 :: k2 != k ==> Lookup(params + [(k, v)], k2) == Lookup(params, k2)
    ensures forall p :: p in params + [(k, v)] ==> p in params || p == (k, v)
  {
    AppendBinding(params, (k, v));
  }

  /** `fetch_walk`'s query: user_id always, from/to only when non-empty, limit/offset only when
      given, built one key at a time. */
  method BuildParams(userId: int, fromIso: Option<string>, toIso: Option<string>, limit: Option<int>, offset: Option<int>)
    returns (params: Fields)
    ensures QueryHas(params, userId,
      if fromIso.Some? && fromIso.value != [] then Some(JStr(fromIso.value)) else None,
      if toIso.Some? && toIso.value != [] then Some(JStr(toIso.value)) else None,
      if limit.Some? then Some(JInt(limit.value)) else None,
      if offset.Some? then Some(JInt(offset.value)) else None)
  {
    var f, t, l, o := None, None, None, None;
    params := [("user_id", JInt(userId))];
    assert QueryHas(params, userId, f, t, l, o);
    if fromIso.Some? && fromIso.value != [] {
      AddParam(params, "from", JStr(fromIso.value));
      params := params + [("from", JStr(fromIso.value))];
      f := Some(JStr(fromIso.value));
    }
    assert QueryHas(params, userId, f, t, l, o);
    if toIso.Some? && toIso.value != [] {
      AddParam(params, "to", JStr(toIso.value));
      params := params + [("to", JStr(toIso.value))];
      t := Some(JStr(toIso.value));
    }
    assert QueryHas(params, userId, f, t, l, o);
    if limit.Some? {
      AddParam(params, "limit", JInt(limit.value));
      params := params + [("limit", JInt(limit.value))];
      l := Some(JInt(limit.value));
    }
    assert QueryHas(params, userId, f, t, l, o);
    if offset.Some? {
      AddParam(params, "offset", JInt(offset.value));
      params := params + [("offset", JInt(offset.value))];
      o := Some(JInt(offset.value));
    }
  }

  /** The records `fetch_walk` returns for a reply: unauthorised, failing and undecodable
      replies and transport errors all give none (a decode error is a `RequestException` too);
      only the shape errors of `_normalize` escape. */
  function FetchOutcome(userId: int, reply: HttpReply): (r: Result<seq<Json>, string>)
    ensures reply.Raised? ==> r == Success([])
    ensures reply.Reply? && (reply.status == 401 || reply.status == 403 || IsHttpError(reply.status)) ==> r == Success([])
    ensures reply.Reply? && !IsHttpError(reply.status) && reply.body.Some? ==> r == Normalize(userId, reply.body.value)
  {
    match reply
    case Raised => Success([])
    case Reply(status, body) =>
      if status == 401 || status == 403 then Success([])
      else if IsHttpError(status) then Success([])
      else if body.None? then Success([])
      else Normalize(userId, body.value)
  }

  /** `ApiWalkAdapter.fetch_walk(user_id, from_iso=, to_iso=, limit=, offset=)`: the request it
      sends and what it returns. */
  method FetchWalk(a: Adapter, userId: int, fromIso: Option<string>, toIso: Option<string>, limit: Option<int>,
                   offset: Option<int>, reply: HttpReply) returns (sent: Request, records: Result<seq<Json>, string>)
    ensures sent.url == HttpClient.ApiUrl(a.baseUrl, "get_walk_data") && sent.timeout == a.timeout
    ensures QueryHas(sent.params, userId,
      if fromIso.Some? && fromIso.value != [] then Some(JStr(fromIso.value)) else None,
      if toIso.Some? && toIso.value != [] then Some(JStr(toIso.value)) else None,
      if limit.Some? then Some(JInt(limit.value)) else None,
      if offset.Some? then Some(JInt(offset.value)) else None)
    ensures records == FetchOutcome(userId, reply)
  {
    var params := BuildParams(userId, fromIso, toIso, limit, offset);
    sent := Request(HttpClient.ApiUrl(a.baseUrl, "get_walk_data"), params, a.timeout);
    match reply {
      case Raised =>
        records := Success([]);
      case Reply(status, body) =>
        if status == 401 || status == 403 {
          return sent, Success([]);
        }
        if IsHttpError(status) || body.None? {
          return sent, Success([]);
        }
        records := Normalize(userId, body.value);
    }
  }

  // ---------------------------------------------------------------------------------------
  // HDT_MCP/adapters/api_walk.py

  /** `_url(path)` on the stripped base URL. */
  function LegacyUrl(baseUrl: string, path: string): (u: string)
    ensures u == HttpClient.ApiUrl(baseUrl, path)
  {
    HttpClient.ApiUrl(RStripChar(baseUrl, '/'), path)
  }

  /** An item read past by the older search: a dict whose user id has another text. */
  predicate OtherLeaf(x: Json, userId: int) {
    x.JObj? && PyStr(GetOr(x, "user_id", JNull)) != IntToString(userId)
  }

  /** `next((x for x in data if str(x.get("user_id")) == str(user_id)), None)`: ids are compared
      as text, and a non-dict read before the match raises AttributeError. */
  function FindLeaf(data: seq<Json>, userId: int): (r: Result<Option<Json>, string>)
    ensures r.Success? && r.value.Some? ==>
      r.value.value in data && r.value.value.JObj? && PyStr(GetOr(r.value.value, "user_id", JNull)) == IntToString(userId)
    ensures r == Success(None) ==> forall x :: x in data ==> x.JObj? && PyStr(GetOr(x, "user_id", JNull)) != IntToString(userId)
    ensures r.Success? && r.value.Some? ==>
      exists i :: 0 <= i < |data| && data[i] == r.value.value &&
        forall j :: 0 <= j < i ==> OtherLeaf(data[j], userId)
  {
    if data == [] then Success(None)
    else if !data[0].JObj? then Failure("AttributeError")
    else if PyStr(GetOr(data[0], "user_id", JNull)) == IntToString(userId) then Success(Some(data[0]))
    else
      var r := FindLeaf(data[1..], userId);
      if r.Success? && r.value.Some? then LeafAfterHead(data, userId, r.value.value); r else r
  }

  /** A first match in the tail is the first match of the whole when the head has another id. */
  lemma LeafAfterHead(data: seq<Json>, userId: int, x: Json)
    requires data != [] && OtherLeaf(data[0], userId)
    requires
      exists i :: 0 <= i < |data[1..]| && data[1..][i] == x &&
        forall j :: 0 <= j < i ==> OtherLeaf(data[1..][j], userId)
    ensures
      exists i :: 0 <= i < |data| && data[i] == x &&
        forall j :: 0 <= j < i ==> OtherLeaf(data[j], userId)
  {
    var i :| 0 <= i < |data[1..]| && data[1..][i] == x &&
      forall j :: 0 <= j < i ==> OtherLeaf(data[1..][j], userId);
    assert data[i + 1] == x;
    assert forall j :: 1 <= j < i + 1 ==> data[j] == data[1..][j - 1];
  }

  /** `fetch_walk(user_id)` of the older adapter: error statuses, transport errors and bodies
      that do not decode raise; the values handed to `model_validate` are returned. */
  function LegacyFetchWalk(userId: int, reply: HttpReply): (r: Result<seq<Json>, string>)
    ensures reply.Raised? ==> r.Failure?
    ensures reply.Reply? && IsHttpError(reply.status) ==> r == Failure("HTTPError")
  {
    match reply
    case Raised => Failure("RequestException")
    case Reply(status, body) =>
      if IsHttpError(status) then Failure("HTTPError")
      else if body.None? then Failure("JSONDecodeError")
      else
        match body.value
        case JList(items) =>
          var leaf := FindLeaf(items, userId);
          if leaf.Failure? then Failure(leaf.error)
          else Iterate(DataOrRecords(OrElse(leaf.value.GetOr(JObj([])), JObj([]))))
        case JObj(_) => Iterate(OrElse(DataOrRecords(body.value), JList([])))
        case _ => Success([])
  }

  /** The older adapter's records come from "data", then "records", then none; a matching
      envelope is found by the text of its id, so "7" matches user 7 as well as 7 does. */
  lemma LegacyEnvelopes(userId: int, fs: Fields, items: seq<Json>)
    ensures LegacyFetchWalk(userId, Reply(200, Some(JObj(fs)))) ==
      Iterate(OrElse(OrElse(GetOr(JObj(fs), "data", JList([])), GetOr(JObj(fs), "records", JList([]))), JList([])))
    ensures var e := JObj([("user_id", JStr(IntToString(userId))), ("data", JList(items))]);
      items != [] ==> LegacyFetchWalk(userId, Reply(200, Some(JList([e])))) == Success(items)
  {
    var e := JObj([("user_id", JStr(IntToString(userId))), ("data", JList(items))]);
    LookupAt(e.fields, 0);
    LookupAt(e.fields, 1);
    assert FindLeaf([e], userId) == Success(Some(e));
  }

  /** The two adapters differ on failure: the newer one answers an error status with no records
      where the older one raises. */
  lemma ErrorStatusDiffers(userId: int, status: int, body: Option<Json>)
    requires IsHttpError(status)
    ensures FetchOutcome(userId, Reply(status, body)) == Success([])
    ensures LegacyFetchWalk(userId, Reply(status, body)).Failure?
  {
  }
}
