/** The HTTP helpers of `HDT_MCP/http/client.py`: joining a base URL and a path, a GET with
    retries that keeps one request id across attempts, and a GET cache with a time-to-live
    (the same cache `HDT_MCP/server.py` keeps in `_cached_get`). The network, the clock and
    the sleep between attempts are parameters or left out: each attempt's reply is given. */
module HttpClient {
  import opened Wrappers
  import opened Text
  import opened JsonValues

  /** `api_url(base, path)`: the base without trailing slashes, one slash, the path
      without leading slashes. */
  function ApiUrl(base: string, path: string): (r: string)
    ensures var b := RStripChar(base, '/');
      |b| < |r| && r[..|b|] == b && r[|b|] == '/' &&
      (b == [] || r[|b| - 1] != '/') &&
      (|r| == |b| + 1 || r[|b| + 1] != '/') &&
      r[|b| + 1..] == LStripChar(path, '/')
  {
    var b := RStripChar(base, '/');
    var p := LStripChar(path, '/');
    JoinOneSlash(b, p);
    b + "/" + p
  }

  lemma JoinOneSlash(b: string, p: string)
    requires b == [] || b[|b| - 1] != '/'
    requires p == [] || p[0] != '/'
    ensures var r := b + "/" + p;
      |b| < |r| && r[..|b|] == b && r[|b|] == '/' &&
      (b == [] || r[|b| - 1] != '/') &&
      (|r| == |b| + 1 || r[|b| + 1] != '/') &&
      r[|b| + 1..] == p
  {
    var r := b + "/" + p;
    assert r[..|b|] == b;
    assert r[|b| + 1..] == p;
  }

  lemma RStripMore(base: string)
    ensures RStripChar(base + "/", '/') == RStripChar(base, '/')
  {
    assert (base + "/")[..|base + "/"| - 1] == base;
  }

  lemma LStripMore(path: string)
    ensures LStripChar("/" + path, '/') == LStripChar(path, '/')
  {
    assert ("/" + path)[1..] == path;
  }

  /** Extra slashes on either side of the joint do not change the URL. */
  lemma ApiUrlSlashInsensitive(base: string, path: string)
    ensures ApiUrl(base + "/", path) == ApiUrl(base, path)
    ensures ApiUrl(base, "/" + path) == ApiUrl(base, path)
  {
    RStripMore(base);
    LStripMore(path);
  }

  /** What one attempt gets back: an exception before the status is accepted (transport or
      `raise_for_status`); an exception from decoding the body of an accepted reply, which
      comes after the server's X-Request-Id has been read; or a body with that id. */
  datatype Reply =
    | Fails(err: string)
    | Undecodable(serverId: Option<string>, err: string)
    | Answers(serverId: Option<string>, body: Json)

  /** The attempt got past the status check with a truthy server id, which is then adopted. */
  predicate Adopts(x: Reply) {
    !x.Fails? && x.serverId.Some? && x.serverId.value != []
  }

  /** The last server id adopted by the attempts below `m`, if any. */
  function LastAdopted(reply: nat -> Reply, m: nat): Option<string> {
    if m == 0 then None
    else if Adopts(reply(m - 1)) then reply(m - 1).serverId
    else LastAdopted(reply, m - 1)
  }

  /** Nothing is adopted exactly when no attempt below `m` adopts; otherwise what is adopted
      is the server id of an attempt after which none adopts. */
  lemma {:induction false} LastAdoptedIsLatest(reply: nat -> Reply, m: nat)
    ensures LastAdopted(reply, m).None? <==> forall j :: 0 <= j < m ==> !Adopts(reply(j))
    ensures LastAdopted(reply, m).Some? ==>
      exists j :: 0 <= j < m && Adopts(reply(j)) && LastAdopted(reply, m) == reply(j).serverId &&
                  (forall t :: j < t < m ==> !Adopts(reply(t)))
  {
    if m > 0 {
      LastAdoptedIsLatest(reply, m - 1);
      if Adopts(reply(m - 1)) {
        assert LastAdopted(reply, m) == reply(m - 1).serverId;
      }
    }
  }

  /** The request id attempt `i` sends: the last adopted server id, else the one read first. */
  function IdBefore(rid: string, reply: nat -> Reply, i: nat): string {
    match LastAdopted(reply, i)
    case Some(s) => s
    case None => rid
  }

  /** The ids the first `m` attempts send. */
  function SentIds(rid: string, reply: nat -> Reply, m: nat): (s: seq<string>)
    ensures |s| == m
  {
    if m == 0 then [] else SentIds(rid, reply, m - 1) + [IdBefore(rid, reply, m - 1)]
  }

  lemma {:induction false} SentIdsAt(rid: string, reply: nat -> Reply, m: nat, i: nat)
    requires i < m
    ensures SentIds(rid, reply, m)[i] == IdBefore(rid, reply, i)
  {
    if i < m - 1 {
      SentIdsAt(rid, reply, m - 1, i);
    }
  }

  /** The ids sent follow the adoptions: the first is the one read first, and each next one
      is the previous attempt's adopted server id, else unchanged. */
  lemma SentChain(rid: string, reply: nat -> Reply, m: nat)
    ensures var s := SentIds(rid, reply, m);
      (m > 0 ==> s[0] == rid) &&
      forall i :: 0 <= i < m - 1 ==> s[i + 1] == if Adopts(reply(i)) then reply(i).serverId.value else s[i]
  {
    var s := SentIds(rid, reply, m);
    if m > 0 {
      SentIdsAt(rid, reply, m, 0);
    }
    forall i | 0 <= i < m - 1
      ensures s[i + 1] == if Adopts(reply(i)) then reply(i).serverId.value else s[i]
    {
      SentIdsAt(rid, reply, m, i);
      SentIdsAt(rid, reply, m, i + 1);
    }
  }

  /** The first attempt below `n` that answers, if any. */
  function FirstAnswer(reply: nat -> Reply, n: nat): (r: Option<nat>)
    ensures r.Some? ==> r.value < n && reply(r.value).Answers? && forall i :: 0 <= i < r.value ==> !reply(i).Answers?
    ensures r.None? ==> forall i :: 0 <= i < n ==> !reply(i).Answers?
  {
    if n == 0 then None
    else
      var earlier := FirstAnswer(reply, n - 1);
      if earlier.Some? then earlier else if reply(n - 1).Answers? then Some(n - 1) else None
  }

  /** Once an attempt below `m` answers, looking further does not change the first one. */
  lemma {:induction false} FirstAnswerStable(reply: nat -> Reply, m: nat, n: nat)
    requires m <= n && FirstAnswer(reply, m).Some?
    ensures FirstAnswer(reply, n) == FirstAnswer(reply, m)
    decreases n
  {
    if m < n {
      FirstAnswerStable(reply, m, n - 1);
    }
  }

  /** `range(1, retry_max + 2)` has this many attempts. */
  function Attempts(retryMax: int): nat {
    if retryMax + 1 > 0 then retryMax + 1 else 0
  }

  /** `hdt_get`: up to `retry_max + 1` attempts (none when that is not positive, in which
      case the function falls off its end and answers None). The first attempt carries the
      request id read before the loop; a truthy server id on an accepted reply is adopted
      (`set_request_id`) even when its body then fails to decode, and later attempts carry
      it. An answering attempt ends the loop; the last exception is re-raised. */
  method HdtGet(retryMax: int, rid: string, reply: nat -> Reply) returns (r: Result<Json, string>, sent: seq<string>, adopted: Option<string>)
    ensures |sent| <= Attempts(retryMax)
    ensures sent == SentIds(rid, reply, |sent|)
    ensures adopted == LastAdopted(reply, |sent|)
    ensures Attempts(retryMax) == 0 ==> r == Success(JNull) && sent == []
    ensures FirstAnswer(reply, Attempts(retryMax)).Some? ==>
      |sent| == FirstAnswer(reply, Attempts(retryMax)).value + 1 &&
      r == Success(reply(FirstAnswer(reply, Attempts(retryMax)).value).body)
    ensures Attempts(retryMax) > 0 && FirstAnswer(reply, Attempts(retryMax)).None? ==>
      |sent| == Attempts(retryMax) && r == Failure(reply(Attempts(retryMax) - 1).err)
  {
    var n := Attempts(retryMax);
    sent, adopted := [], None;
    r := Success(JNull);
    var cur := rid;
    var attempt := 0;
    while attempt < n
      invariant 0 <= attempt <= n
      invariant sent == SentIds(rid, reply, attempt)
      invariant adopted == LastAdopted(reply, attempt) && cur == IdBefore(rid, reply, attempt)
      invariant FirstAnswer(reply, attempt).None?
      invariant attempt > 0 ==> !reply(attempt - 1).Answers? && r == Failure(reply(attempt - 1).err)
      invariant attempt == 0 ==> r == Success(JNull)
    {
      sent := sent + [cur];
      var x := reply(attempt);
      assert LastAdopted(reply, attempt + 1) == if Adopts(x) then x.serverId else LastAdopted(reply, attempt);
      if Adopts(x) {
        adopted := x.serverId;
        cur := x.serverId.value;
      }
      assert sent == SentIds(rid, reply, attempt + 1);
      assert adopted == LastAdopted(reply, attempt + 1);
      if x.Answers? {
        assert FirstAnswer(reply, attempt + 1) == Some(attempt);
        FirstAnswerStable(reply, attempt + 1, n);
        return Success(x.body), sent, adopted;
      }
      assert FirstAnswer(reply, attempt + 1).None?;
      r := Failure(x.err);
      attempt := attempt + 1;
    }
  }

  /** Without a truthy server id on any accepted reply, every attempt sends the id read first. */
  lemma StableRequestId(rid: string, reply: nat -> Reply, m: nat)
    requires forall j :: 0 <= j < m ==> !Adopts(reply(j))
    ensures forall i :: 0 <= i <= m ==> IdBefore(rid, reply, i) == rid
  {
    forall i | 0 <= i <= m ensures LastAdopted(reply, i).None? {
      LastAdoptedIsLatest(reply, i);
    }
  }

  /** A cache key: the path and the set of query items. For a dict, whose keys are unique,
      the set determines the sorted tuple the source builds. */
  type Key = (string, set<(string, Json)>)

  /** `(path, tuple(sorted((params or {}).items())))` */
  function CacheKey(path: string, params: Fields): Key {
    (path, set i | 0 <= i < |params| :: params[i])
  }

  /** The order in which parameters are given does not change the key. */
  lemma CacheKeyOrderFree(path: string, p1: Fields, p2: Fields)
    requires multiset(p1) == multiset(p2)
    ensures CacheKey(path, p1) == CacheKey(path, p2)
  {
    forall x | x in CacheKey(path, p1).1 ensures x in CacheKey(path, p2).1 {
      assert x in multiset(p1);
      assert x in multiset(p2);
      var j :| 0 <= j < |p2| && p2[j] == x;
    }
    forall x | x in CacheKey(path, p2).1 ensures x in CacheKey(path, p1).1 {
      assert x in multiset(p2);
      assert x in multiset(p1);
      var j :| 0 <= j < |p1| && p1[j] == x;
    }
    assert CacheKey(path, p1).1 == CacheKey(path, p2).1;
  }

  /** The module-level cache dict with its time-to-live. Entries are values, so what is
      stored and what is handed out cannot alias: the deep copies of the source. */
  class GetCache {
    var entries: map<Key, (int, Json)>
    const ttl: int

    constructor (ttl: int)
      ensures this.ttl == ttl && entries == map[]
    {
      this.ttl := ttl;
      entries := map[];
    }

    /** The entry for `k` is fresh enough at time `now`. */
    predicate Hit(k: Key, now: int)
      reads this
    {
      k in entries && now - entries[k].0 < ttl
    }

    /** `cached_get` / `_cached_get`: a fresh entry is answered without fetching; otherwise
        `fetched` (the answer of the fetch) is stored with the time `now` and answered, and an
        exception leaves the cache as it was. */
    method CachedGet(path: string, params: Fields, now: int, fetched: Result<Json, string>) returns (r: Result<Json, string>, didFetch: bool)
      modifies this
      ensures var k := CacheKey(path, params);
        (didFetch <==> !old(Hit(k, now))) &&
        (!didFetch ==> r == Success(old(entries)[k].1) && entries == old(entries)) &&
        (didFetch && fetched.Failure? ==> r == fetched && entries == old(entries)) &&
        (didFetch && fetched.Success? ==> r == fetched && entries == old(entries)[k := (now, fetched.value)])
    {
      var k := CacheKey(path, params);
      if k in entries && now - entries[k].0 < ttl {
        return Success(entries[k].1), false;
      }
      didFetch := true;
      if fetched.Failure? {
        return fetched, didFetch;
      }
      entries := entries[k := (now, fetched.value)];
      r := fetched;
    }
  }

  /** After a fetch stores `data` at `now`, a request for the same key before `now + ttl`
      is a hit answering `data`; other keys keep their entries. */
  lemma StoredThenHit(entries: map<Key, (int, Json)>, ttl: int, k: Key, now: int, data: Json, later: int, other: Key)
    requires now <= later < now + ttl
    requires other != k
    ensures var e := entries[k := (now, data)];
      k in e && later - e[k].0 < ttl && e[k].1 == data &&
      (other in e <==> other in entries) && (other in entries ==> e[other] == entries[other])
  {
  }
}
