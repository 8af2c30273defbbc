/** The pagination helpers of `HDT_CORE_INFRASTRUCTURE/hdt_api_utils.py`: reading `limit` and
    `offset` from the query string, the page summary with its `has_next` guess, and the
    `Link` header entries for the next and previous pages. A URL is held already parsed, its
    query a dict from names to value lists in insertion order. */
module ApiUtils {
  import opened Wrappers
  import opened Text
  import Fetchers

  const DefaultLimit := 200
  const MaxLimit := 1000

  /** `(limit, offset, None)`, or `(None, None, (message, status))`. */
  datatype PageArgs = PageArgs(limit: int, offset: int) | ArgsError(message: string, status: int)

  /** `int(request.args.get(name, default))`; `None` is the ValueError. */
  function ArgInt(arg: Option<string>, default: int): (r: Option<int>)
    ensures arg.None? ==> r == Some(default)
  {
    if arg.None? then Some(default) else ParseInt(arg.value)
  }

  /** `parse_pagination_args(default_limit=..., max_limit=...)` on the raw `limit` and
      `offset` query values. */
  function ParsePaginationArgs(limitArg: Option<string>, offsetArg: Option<string>, defaultLimit: int, maxLimit: int): (r: PageArgs)
    ensures r.PageArgs? ==> 1 <= r.limit <= maxLimit && 0 <= r.offset
    ensures r.PageArgs? ==> ArgInt(limitArg, defaultLimit) == Some(r.limit) && ArgInt(offsetArg, 0) == Some(r.offset)
    ensures r.ArgsError? ==> r.status == 400
    ensures ArgInt(limitArg, defaultLimit).None? || ArgInt(offsetArg, 0).None? ==>
      r == ArgsError("limit/offset must be integers", 400)
    ensures ArgInt(limitArg, defaultLimit).Some? && ArgInt(offsetArg, 0).Some? ==>
      var l, o := ArgInt(limitArg, defaultLimit).value, ArgInt(offsetArg, 0).value;
      if 1 <= l <= maxLimit && 0 <= o then r == PageArgs(l, o)
      else r == ArgsError("limit 1.." + IntToString(maxLimit) + ", offset >= 0", 400)
  {
    var limit := ArgInt(limitArg, defaultLimit);
    var offset := ArgInt(offsetArg, 0);
    if limit.None? || offset.None? then ArgsError("limit/offset must be integers", 400)
    else if limit.value < 1 || limit.value > maxLimit || offset.value < 0 then
      ArgsError("limit 1.." + IntToString(maxLimit) + ", offset >= 0", 400)
    else PageArgs(limit.value, offset.value)
  }

  /** Without `limit` and `offset` the page is the first 200 rows. */
  lemma PaginationDefaults()
    ensures ParsePaginationArgs(None, None, DefaultLimit, MaxLimit) == PageArgs(200, 0)
  {
  }

  /** Every accepted pair reads back from its own decimal rendering, and every other pair of
      integers is refused with the range message. */
  lemma PaginationAccepts(limit: int, offset: int)
    ensures var r := ParsePaginationArgs(Some(IntToString(limit)), Some(IntToString(offset)), DefaultLimit, MaxLimit);
      if 1 <= limit <= MaxLimit && 0 <= offset then r == PageArgs(limit, offset)
      else r == ArgsError("limit 1..1000, offset >= 0", 400)
  {
    var ls, os := IntToString(limit), IntToString(offset);
    ParseIntToString(limit);
    ParseIntToString(offset);
    MaxLimitText();
    assert ArgInt(Some(ls), DefaultLimit) == Some(limit);
    assert ArgInt(Some(os), 0) == Some(offset);
    assert "limit 1.." + IntToString(MaxLimit) + ", offset >= 0" == "limit 1..1000, offset >= 0";
  }

  lemma MaxLimitText()
    ensures IntToString(MaxLimit) == "1000"
  {
    assert NatToString(1) == "1";
    assert NatToString(10) == NatToString(1) + ['0'];
    assert NatToString(100) == NatToString(10) + ['0'];
    assert NatToString(1000) == NatToString(100) + ['0'];
  }

  /** The `page` dict: `total` (or None), `limit` and `offset`. */
  datatype PageInfo = PageInfo(total: Option<int>, limit: int, offset: int)

  /** `paginate(total, limit, offset, returned_count=...)`: the page dict and `has_next`. */
  function Paginate(total: Option<int>, limit: int, offset: int, returned: Option<int>): (r: (PageInfo, bool))
    ensures r.0 == PageInfo(total, limit, offset)
    ensures total.Some? ==> (r.1 <==> offset + limit < total.value)
    ensures total.None? ==> (r.1 <==> returned.Some? && returned.value >= limit)
  {
    var hasNext := if total.Some? then offset + limit < total.value else returned.Some? && returned.value >= limit;
    (PageInfo(total, limit, offset), hasNext)
  }

  /** With the total known, `has_next` says exactly that the page after this one, sliced
      from the same rows, is not empty. */
  lemma HasNextIffMore<T>(rows: seq<T>, limit: int, offset: int)
    requires 1 <= limit && 0 <= offset
    ensures Paginate(Some(|rows|), limit, offset, None).1 <==>
      Fetchers.PySliceAt(rows, offset + limit, offset + 2 * limit) != []
  {
    var lo, hi := Fetchers.PyIndex(offset + limit, |rows|), Fetchers.PyIndex(offset + 2 * limit, |rows|);
    if offset + limit < |rows| {
      assert lo == offset + limit && lo < hi;
    } else {
      assert lo == |rows|;
    }
  }

  /** A parsed query string: each name with its values, names in insertion order. */
  type Query = seq<(string, seq<string>)>

  /** The names of a query, in order. */
  function Names(q: Query): (ns: seq<string>)
    ensures |ns| == |q|
    ensures forall i :: 0 <= i < |q| ==> ns[i] == q[i].0
  {
    if q == [] then [] else [q[0].0] + Names(q[1..])
  }

  /** `qs.get(k)` */
  function QueryGet(q: Query, k: string): Option<seq<string>> {
    if q == [] then None else if q[0].0 == k then Some(q[0].1) else QueryGet(q[1..], k)
  }

  /** `qs[k] = [v]`: a present name keeps its place, a new one goes last. */
  function SetParam(q: Query, k: string, v: string): (r: Query)
    ensures QueryGet(r, k) == Some([v])
    ensures forall k2 {:trigger QueryGet(r, k2)} :: k2 != k ==> QueryGet(r, k2) == QueryGet(q, k2)
  {
    if q == [] then [(k, [v])]
    else if q[0].0 == k then [(k, [v])] + q[1..]
    else
      var rest := SetParam(q[1..], k, v);
      assert ([q[0]] + rest)[1..] == rest;
      [q[0]] + rest
  }

  /** A present name keeps its place and a new one goes last. */
  lemma {:induction false} SetParamNames(q: Query, k: string, v: string)
    ensures Names(SetParam(q, k, v)) == if k in Names(q) then Names(q) else Names(q) + [k]
  {
    if q != [] {
      var r := SetParam(q, k, v);
      assert r[1..] == if q[0].0 == k then q[1..] else SetParam(q[1..], k, v);
      if q[0].0 != k {
        SetParamNames(q[1..], k, v);
        assert k in Names(q) <==> k in Names(q[1..]);
      }
    }
  }

  /** A URL as `urlparse` splits it. */
  datatype Url = Url(scheme: string, netloc: string, path: string, params: string, query: Query, fragment: string)

  /** The query updates applied one after another, as the loop over `updates` does. */
  function Updated(q: Query, updates: seq<(string, int)>): (r: Query)
    decreases |updates|
  {
    if updates == [] then q
    else
      var last := updates[|updates| - 1];
      SetParam(Updated(q, updates[..|updates| - 1]), last.0, IntToString(last.1))
  }

  /** `_build_url_with_params(base_url, **updates)`: every update in the query, the other
      parameters kept, params and fragment dropped. */
  method BuildUrlWithParams(base: Url, updates: seq<(string, int)>) returns (u: Url)
    ensures u == Url(base.scheme, base.netloc, base.path, "", Updated(base.query, updates), "")
  {
    var qs := base.query;
    for i := 0 to |updates|
      invariant qs == Updated(base.query, updates[..i])
    {
      assert updates[..i + 1][..i] == updates[..i];
      qs := SetParam(qs, updates[i].0, IntToString(updates[i].1));
    }
    assert updates[..|updates|] == updates;
    u := Url(base.scheme, base.netloc, base.path, "", qs, "");
  }

  /** A name no update touches keeps its values. */
  lemma {:induction false} UpdatedKeeps(q: Query, updates: seq<(string, int)>, k: string)
    requires forall i :: 0 <= i < |updates| ==> updates[i].0 != k
    ensures QueryGet(Updated(q, updates), k) == QueryGet(q, k)
    decreases |updates|
  {
    if updates != [] {
      UpdatedKeeps(q, updates[..|updates| - 1], k);
    }
  }

  /** A name gets the value of its last update. */
  lemma {:induction false} UpdatedSets(q: Query, updates: seq<(string, int)>, i: int)
    requires 0 <= i < |updates|
    requires forall j :: i < j < |updates| ==> updates[j].0 != updates[i].0
    ensures QueryGet(Updated(q, updates), updates[i].0) == Some([IntToString(updates[i].1)])
    decreases |updates|
  {
    if i < |updates| - 1 {
      var init := updates[..|updates| - 1];
      assert init[i] == updates[i];
      UpdatedSets(q, init, i);
    }
  }

  /** No existing name moves. */
  lemma {:induction false} UpdatedNames(q: Query, updates: seq<(string, int)>)
    ensures Names(q) <= Names(Updated(q, updates))
    decreases |updates|
  {
    if updates != [] {
      var init := updates[..|updates| - 1];
      var last := updates[|updates| - 1];
      UpdatedNames(q, init);
      SetParamNames(Updated(q, init), last.0, IntToString(last.1));
    }
  }

  /** The `rel="prev"` target: `limit` and `max(0, offset - limit)` set on the base URL. */
  function PrevTarget(base: Url, limit: int, offset: int): (u: Url)
    ensures var prev := if offset - limit > 0 then offset - limit else 0;
      QueryGet(u.query, "limit") == Some([IntToString(limit)]) &&
      QueryGet(u.query, "offset") == Some([IntToString(prev)]) &&
      (forall k :: k != "limit" && k != "offset" ==> QueryGet(u.query, k) == QueryGet(base.query, k)) &&
      u.path == base.path && u.netloc == base.netloc && u.scheme == base.scheme
  {
    var prev := if offset - limit > 0 then offset - limit else 0;
    var ups := [("limit", limit), ("offset", prev)];
    assert Updated(base.query, ups) == SetParam(SetParam(base.query, "limit", IntToString(limit)), "offset", IntToString(prev)) by {
      assert ups[..1] == [("limit", limit)];
      assert ups[..1][..0] == [];
      assert Updated(base.query, ups[..1]) == SetParam(base.query, "limit", IntToString(limit));
      assert Updated(base.query, ups) == SetParam(Updated(base.query, ups[..1]), "offset", IntToString(prev));
    }
    Url(base.scheme, base.netloc, base.path, "", Updated(base.query, ups), "")
  }

  /** `_build_url_with_params(base_url, limit=..., offset=max(0, offset - limit))` */
  method PrevUrl(base: Url, limit: int, offset: int) returns (u: Url)
    ensures u == PrevTarget(base, limit, offset)
  {
    var prev := if offset - limit > 0 then offset - limit else 0;
    u := BuildUrlWithParams(base, [("limit", limit), ("offset", prev)]);
  }

  /** The `rel="next"` target: the base URL's query, or when it has none the request's own
      arguments, with `limit` and `offset` set; everything else of the URL kept. */
  function NextUrl(base: Url, limit: int, offsetNext: int, requestArgs: seq<(string, string)>): (u: Url)
    ensures QueryGet(u.query, "limit") == Some([IntToString(limit)])
    ensures QueryGet(u.query, "offset") == Some([IntToString(offsetNext)])
    ensures base.query != [] ==>
      forall k :: k != "limit" && k != "offset" ==> QueryGet(u.query, k) == QueryGet(base.query, k)
    ensures u.(query := base.query) == base
  {
    var qs := if base.query != [] then base.query
      else seq(|requestArgs|, i requires 0 <= i < |requestArgs| => (requestArgs[i].0, [requestArgs[i].1]));
    base.(query := SetParam(SetParam(qs, "limit", IntToString(limit)), "offset", IntToString(offsetNext)))
  }

  /** `urlencode(qs, doseq=True)` without percent-encoding: one `name=value` per value. */
  function Encode(q: Query): string {
    Join(Pairs(q), "&")
  }

  function Pairs(q: Query): seq<string> {
    if q == [] then [] else seq(|q[0].1|, i requires 0 <= i < |q[0].1| => q[0].0 + "=" + q[0].1[i]) + Pairs(q[1..])
  }

  /** `urlunparse` of a URL with a network location. */
  function UrlText(u: Url): string {
    u.scheme + "://" + u.netloc + u.path +
    (if u.params != [] then ";" + u.params else "") +
    (if u.query != [] then "?" + Encode(u.query) else "") +
    (if u.fragment != [] then "#" + u.fragment else "")
  }

  /** `f"<{url}>; rel=\"{rel}\""` */
  function LinkValue(u: Url, rel: string): string {
    "<" + UrlText(u) + ">; rel=\"" + rel + "\""
  }

  /** The new `Link` header: the value alone, or appended after ", " to a non-empty one. */
  function AppendLink(existing: Option<string>, val: string): (r: string)
    ensures existing.None? || existing.value == [] ==> r == val
    ensures existing.Some? && existing.value != [] ==> r == existing.value + ", " + val
  {
    if existing.Some? && existing.value != [] then existing.value + ", " + val else val
  }

  /** A header holding the links `vals` holds `vals` and the new one after it. */
  lemma LinksAccumulate(vals: seq<string>, val: string)
    requires vals != [] && Join(vals, ", ") != []
    ensures AppendLink(Some(Join(vals, ", ")), val) == Join(vals + [val], ", ")
  {
    JoinSnoc(vals, val, ", ");
  }

  lemma {:induction false} JoinSnoc(parts: seq<string>, p: string, sep: string)
    requires parts != []
    ensures Join(parts + [p], sep) == Join(parts, sep) + sep + p
    decreases |parts|
  {
    if |parts| > 1 {
      JoinSnoc(parts[1..], p, sep);
      assert (parts + [p])[1..] == parts[1..] + [p];
    } else {
      assert (parts + [p])[1..] == [p];
    }
  }

  /** A response whose headers the link helpers update in place. */
  class Response {
    var headers: map<string, string>

    constructor (headers: map<string, string>)
      ensures this.headers == headers
    {
      this.headers := headers;
    }

    function LinkHeader(): Option<string>
      reads this
    {
      if "Link" in headers then Some(headers["Link"]) else None
    }

    /** `set_next_link(resp, base_url, limit, offset_next)` */
    method SetNextLink(base: Url, limit: int, offsetNext: int, requestArgs: seq<(string, string)>)
      modifies this
      ensures headers == old(headers)["Link" := AppendLink(old(LinkHeader()), LinkValue(NextUrl(base, limit, offsetNext, requestArgs), "next"))]
    {
      var val := LinkValue(NextUrl(base, limit, offsetNext, requestArgs), "next");
      headers := headers["Link" := AppendLink(LinkHeader(), val)];
    }

    /** `append_prev_link_if_any(resp, base_url, limit, offset)`: only a positive offset has a
        previous page. */
    method AppendPrevLinkIfAny(base: Url, limit: int, offset: int)
      modifies this
      ensures offset <= 0 ==> headers == old(headers)
      ensures offset > 0 ==>
        headers == old(headers)["Link" := AppendLink(old(LinkHeader()), LinkValue(PrevTarget(base, limit, offset), "prev"))]
    {
      if offset > 0 {
        var u := PrevUrl(base, limit, offset);
        headers := headers["Link" := AppendLink(LinkHeader(), LinkValue(u, "prev"))];
      }
    }
  }
}
