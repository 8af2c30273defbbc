/** The API-key guard of `HDT_CORE_INFRASTRUCTURE/auth.py`: the key is read from the request,
    matched against the registered external parties, and the users the party may read with
    the required permission are attached to the request before the handler runs. */
module Auth {
  import opened Wrappers
  import opened Text
  import opened JsonValues

  /** `external_parties` as a dict (its "external_parties" list) or as the list itself. */
  function PartiesOf(externalParties: Json): (r: seq<Json>)
    ensures externalParties.JObj? ==> r == ItemsOf(OrElse(GetOr(externalParties, "external_parties", JList([])), JList([])))
    ensures externalParties.JList? ==> r == externalParties.items
  {
    if externalParties.JObj? then ItemsOf(OrElse(GetOr(externalParties, "external_parties", JList([])), JList([])))
    else ItemsOf(OrElse(externalParties, JList([])))
  }

  /** Header names compare without regard to case. */
  function HeaderGet(headers: seq<(string, string)>, name: string): Option<string> {
    if headers == [] then None
    else if Lower(headers[0].0) == Lower(name) then Some(headers[0].1)
    else HeaderGet(headers[1..], name)
  }

  /** A query argument, first value. */
  function ArgGet(args: seq<(string, string)>, name: string): Option<string> {
    if args == [] then None else if args[0].0 == name then Some(args[0].1) else ArgGet(args[1..], name)
  }

  predicate Given(s: Option<string>) {
    s.Some? && s.value != []
  }

  /** The token of an "Authorization: Bearer <token>" header, when the header has that form. */
  function BearerToken(auth: Option<string>): (r: Option<string>)
    ensures r.Some? ==> auth.Some? && |auth.value| >= 7 && r.value == Strip(auth.value[7..])
  {
    if auth.Some? && auth.value != [] && StartsWith(Lower(auth.value), "bearer ") then
      Some(Strip(auth.value[7..]))
    else None
  }

  /** The key, from the bearer token, else X-API-KEY, else the `api_key` query argument; None
      when all are missing or empty. */
  function ApiKeyOf(headers: seq<(string, string)>, args: seq<(string, string)>): (r: Option<string>)
    ensures r.Some? ==> r.value != []
  {
    var bearer := BearerToken(HeaderGet(headers, "Authorization"));
    var upper := HeaderGet(headers, "X-API-KEY");
    var header := if Given(upper) then upper else HeaderGet(headers, "x-api-key");
    var arg := ArgGet(args, "api_key");
    if Given(bearer) then bearer
    else if Given(header) then header
    else if Given(arg) then arg
    else None
  }

  /** The bearer token wins over the other two places, and X-API-KEY over the argument. */
  lemma KeyPrecedence(headers: seq<(string, string)>, args: seq<(string, string)>)
    ensures Given(BearerToken(HeaderGet(headers, "Authorization"))) ==>
      ApiKeyOf(headers, args) == BearerToken(HeaderGet(headers, "Authorization"))
    ensures !Given(BearerToken(HeaderGet(headers, "Authorization"))) && Given(HeaderGet(headers, "X-API-KEY")) ==>
      ApiKeyOf(headers, args) == HeaderGet(headers, "X-API-KEY")
    ensures !Given(BearerToken(HeaderGet(headers, "Authorization"))) && !Given(HeaderGet(headers, "X-API-KEY"))
      && !Given(HeaderGet(headers, "x-api-key"))
      ==> ApiKeyOf(headers, args) == (if Given(ArgGet(args, "api_key")) then ArgGet(args, "api_key") else None)
  {
  }

  /** The two spellings of the compatibility header name the same header. */
  lemma HeaderSpellings(headers: seq<(string, string)>)
    ensures HeaderGet(headers, "X-API-KEY") == HeaderGet(headers, "x-api-key")
  {
    assert Lower("X-API-KEY") == Lower("x-api-key");
  }

  /** `c.get("api_key") or c.get("client_id")` equals the key. */
  predicate Matches(c: Json, key: string) {
    OrElse(GetOr(c, "api_key", JNull), GetOr(c, "client_id", JNull)) == JStr(key)
  }

  /** `next((c for c in parties if ...), None)` */
  function MatchingClient(parties: seq<Json>, key: string): (r: Option<Json>)
    ensures r.Some? ==> r.value in parties && Matches(r.value, key)
    ensures r.None? ==> forall c :: c in parties ==> !Matches(c, key)
    ensures r.Some? ==>
      exists i :: 0 <= i < |parties| && parties[i] == r.value &&
        forall j :: 0 <= j < i ==> !Matches(parties[j], key)
  {
    if parties == [] then None
    else if Matches(parties[0], key) then Some(parties[0])
    else
      var r := MatchingClient(parties[1..], key);
      if r.Some? then FirstAfterHead(parties, key, r.value); r else r
  }

  /** A first match in the tail is the first match of the whole when the head does not match. */
  lemma FirstAfterHead(parties: seq<Json>, key: string, c: Json)
    requires parties != [] && !Matches(parties[0], key)
    requires
      exists i :: 0 <= i < |parties[1..]| && parties[1..][i] == c &&
        forall j :: 0 <= j < i ==> !Matches(parties[1..][j], key)
    ensures
      exists i :: 0 <= i < |parties| && parties[i] == c &&
        forall j :: 0 <= j < i ==> !Matches(parties[j], key)
  {
    var i :| 0 <= i < |parties[1..]| && parties[1..][i] == c &&
      forall j :: 0 <= j < i ==> !Matches(parties[1..][j], key);
    assert parties[i + 1] == c;
    assert forall j :: 1 <= j < i + 1 ==> parties[j] == parties[1..][j - 1];
  }

  /** A party with an empty or missing `api_key` is matched by its client id. */
  lemma ClientIdFallback(c: Json, key: string)
    requires c.JObj? && !Truthy(GetOr(c, "api_key", JNull))
    ensures Matches(c, key) <==> GetOr(c, "client_id", JNull) == JStr(key)
  {
  }

  /** `perm in allowed_by_client[client_id]`: list membership, or substring for a string. */
  predicate Holds(grants: Json, perm: string) {
    match grants
    case JList(items) => JStr(perm) in items
    case JStr(s) => Contains(s, perm)
    case JObj(fs) => Lookup(fs, perm).Some?
    case _ => false
  }

  /** The user entry grants `perm` to the client's id under "allowed_clients". */
  predicate Grants(perms: Json, clientId: Json, perm: string) {
    var allowed := GetOr(perms, "allowed_clients", JObj([]));
    clientId.JStr? && HasKey(allowed, clientId.s) && Holds(Get(allowed, clientId.s).value, perm)
  }

  /** The id a permissions entry contributes: its key read as an integer, when the entry
      grants the permission; keys that are not integers contribute nothing. */
  function GrantedId(e: (string, Json), clientId: Json, perm: string): (r: Option<int>)
    ensures r.Some? <==> ParseInt(e.0).Some? && Grants(e.1, clientId, perm)
    ensures r.Some? ==> r == ParseInt(e.0)
  {
    var uid := ParseInt(e.0);
    if Grants(e.1, clientId, perm) && uid.Some? then uid else None
  }

  /** The ids the entries contribute, entry by entry. */
  function GrantedIds(entries: Fields, clientId: Json, perm: string): (gs: seq<Option<int>>)
    ensures |gs| == |entries|
    ensures forall i :: 0 <= i < |entries| ==> gs[i] == GrantedId(entries[i], clientId, perm)
  {
    seq(|entries|, i requires 0 <= i < |entries| => GrantedId(entries[i], clientId, perm))
  }

  /** The present values of a list of optional ids, in order. */
  function Somes(gs: seq<Option<int>>): seq<int>
    decreases |gs|
  {
    if gs == [] then []
    else
      var prev := Somes(gs[..|gs| - 1]);
      var g := gs[|gs| - 1];
      if g.Some? then prev + [g.value] else prev
  }

  lemma {:induction false} SomesMembers(gs: seq<Option<int>>, x: int)
    ensures x in Somes(gs) <==> exists i :: 0 <= i < |gs| && gs[i] == Some(x)
    decreases |gs|
  {
    if gs != [] {
      var init := gs[..|gs| - 1];
      SomesMembers(init, x);
      if exists i :: 0 <= i < |gs| && gs[i] == Some(x) {
        var i :| 0 <= i < |gs| && gs[i] == Some(x);
        if i < |init| {
          assert init[i] == gs[i];
        }
      }
      if exists i :: 0 <= i < |init| && init[i] == Some(x) {
        var i :| 0 <= i < |init| && init[i] == Some(x);
        assert gs[i] == init[i];
      }
    }
  }

  /** The ids, in the order of the permissions file, of the users that grant the permission. */
  function AccessibleIds(entries: Fields, clientId: Json, perm: string): seq<int> {
    Somes(GrantedIds(entries, clientId, perm))
  }

  /** Exactly the ids granted by some entry are accessible. */
  lemma AccessibleIdsMembers(entries: Fields, clientId: Json, perm: string, x: int)
    ensures x in AccessibleIds(entries, clientId, perm) <==>
      exists i :: 0 <= i < |entries| && GrantedId(entries[i], clientId, perm) == Some(x)
  {
    var gs := GrantedIds(entries, clientId, perm);
    SomesMembers(gs, x);
    if exists i :: 0 <= i < |gs| && gs[i] == Some(x) {
      var i :| 0 <= i < |gs| && gs[i] == Some(x);
      assert GrantedId(entries[i], clientId, perm) == Some(x);
    }
  }

  /** The loop over `user_permissions.items()` that collects the accessible ids. */
  method CollectIds(entries: Fields, clientId: Json, perm: string) returns (ids: seq<int>)
    ensures ids == AccessibleIds(entries, clientId, perm)
  {
    ghost var gs := GrantedIds(entries, clientId, perm);
    ids := [];
    for i := 0 to |entries|
      invariant ids == Somes(gs[..i])
    {
      assert gs[..i + 1][..i] == gs[..i];
      var uid := ParseInt(entries[i].0);
      if Grants(entries[i].1, clientId, perm) && uid.Some? {
        ids := ids + [uid.value];
      }
    }
    assert gs[..|entries|] == gs;
  }

  /** The key lookup, reassigning `api_key` place by place. */
  method ExtractKey(headers: seq<(string, string)>, args: seq<(string, string)>) returns (apiKey: Option<string>)
    ensures Given(apiKey) <==> ApiKeyOf(headers, args).Some?
    ensures Given(apiKey) ==> apiKey == ApiKeyOf(headers, args)
  {
    apiKey := None;
    var auth := BearerToken(HeaderGet(headers, "Authorization"));
    if Given(auth) {
      apiKey := auth;
    }
    if !Given(apiKey) {
      apiKey := HeaderGet(headers, "X-API-KEY");
      if !Given(apiKey) {
        apiKey := HeaderGet(headers, "x-api-key");
      }
    }
    if !Given(apiKey) {
      apiKey := ArgGet(args, "api_key");
    }
  }

  /** The guard's answer: a refusal, the handler run for the client and its users, or the
      exception the guard itself raises. */
  datatype Outcome =
    | Denied(status: int, code: string, message: string)
    | Handled(client: Json, userIds: seq<int>)
    | Raised(error: string)

  /** A request with the context the guard attaches. */
  class Request {
    var headers: seq<(string, string)>
    var args: seq<(string, string)>
    var client: Option<Json>
    var accessibleUserIds: seq<int>

    constructor (headers: seq<(string, string)>, args: seq<(string, string)>)
      ensures this.headers == headers && this.args == args && client.None? && accessibleUserIds == []
    {
      this.headers := headers;
      this.args := args;
      client := None;
      accessibleUserIds := [];
    }

    /** The decision, from the request alone. */
    function Decision(externalParties: Json, userPermissions: Json, perm: string): Outcome
      reads this
    {
      var key := ApiKeyOf(headers, args);
      if key.None? then Denied(401, "missing_api_key", "API key is missing")
      else
        var c := MatchingClient(PartiesOf(externalParties), key.value);
        if c.None? || !Truthy(c.value) then Denied(401, "invalid_api_key", "Invalid API key")
        else if Truthy(userPermissions) && !userPermissions.JObj? then Raised("AttributeError")
        else
          var ids := AccessibleIds(FieldsOf(OrElse(userPermissions, JObj([]))), GetOr(c.value, "client_id", JNull), perm);
          if ids == [] then Denied(403, "forbidden", "No permissions set for this user")
          else Handled(c.value, ids)
    }

    /** `authenticate_and_authorize(external_parties, user_permissions, required_permission)`
        around a handler: on success the client and its users are attached to the request. */
    method Authorize(externalParties: Json, userPermissions: Json, perm: string) returns (out: Outcome)
      modifies this
      ensures out == old(Decision(externalParties, userPermissions, perm))
      ensures headers == old(headers) && args == old(args)
      ensures !out.Handled? ==> client == old(client) && accessibleUserIds == old(accessibleUserIds)
      ensures out.Handled? ==> client == Some(out.client) && accessibleUserIds == out.userIds
    {
      var apiKey := ExtractKey(headers, args);
      if !Given(apiKey) {
        return Denied(401, "missing_api_key", "API key is missing");
      }
      var c := MatchingClient(PartiesOf(externalParties), apiKey.value);
      if c.None? || !Truthy(c.value) {
        return Denied(401, "invalid_api_key", "Invalid API key");
      }
      if Truthy(userPermissions) && !userPermissions.JObj? {
        return Raised("AttributeError");
      }
      var ids := CollectIds(FieldsOf(OrElse(userPermissions, JObj([]))), GetOr(c.value, "client_id", JNull), perm);
      if ids == [] {
        return Denied(403, "forbidden", "No permissions set for this user");
      }
      client := c;
      accessibleUserIds := ids;
      out := Handled(c.value, ids);
    }
  }

  /** `(user_permissions or {}).items()` raises AttributeError on a truthy value that is not
      a dict, once the key has matched a party; nothing is attached. */
  lemma NonDictPermissionsRaise(req: Request, externalParties: Json, userPermissions: Json, perm: string)
    requires ApiKeyOf(req.headers, req.args).Some?
    requires var c := MatchingClient(PartiesOf(externalParties), ApiKeyOf(req.headers, req.args).value);
      c.Some? && Truthy(c.value)
    ensures req.Decision(externalParties, userPermissions, perm).Raised? <==> Truthy(userPermissions) && !userPermissions.JObj?
    ensures req.Decision(externalParties, userPermissions, perm).Raised? ==>
      req.Decision(externalParties, userPermissions, perm).error == "AttributeError"
  {
  }

  /** A handled request carries a registered party that the key matches and at least one user
      id, each granted the permission by the permissions file. */
  lemma HandledIsAuthorized(headers: seq<(string, string)>, args: seq<(string, string)>, externalParties: Json,
                            userPermissions: Json, perm: string, client: Json, ids: seq<int>)
    requires ApiKeyOf(headers, args).Some?
    requires var key := ApiKeyOf(headers, args).value;
      var c := MatchingClient(PartiesOf(externalParties), key);
      c == Some(client) && Truthy(client) &&
      ids == AccessibleIds(FieldsOf(OrElse(userPermissions, JObj([]))), GetOr(client, "client_id", JNull), perm)
    ensures client in PartiesOf(externalParties) && Matches(client, ApiKeyOf(headers, args).value)
    ensures forall x :: x in ids ==> exists i ::
      0 <= i < |FieldsOf(OrElse(userPermissions, JObj([])))| &&
      ParseInt(FieldsOf(OrElse(userPermissions, JObj([])))[i].0) == Some(x) &&
      Grants(FieldsOf(OrElse(userPermissions, JObj([])))[i].1, GetOr(client, "client_id", JNull), perm)
  {
    var entries := FieldsOf(OrElse(userPermissions, JObj([])));
    var clientId := GetOr(client, "client_id", JNull);
    forall x | x in ids
      ensures exists i ::
        0 <= i < |entries| && ParseInt(entries[i].0) == Some(x) && Grants(entries[i].1, clientId, perm)
    {
      AccessibleIdsMembers(entries, clientId, perm, x);
      var i :| 0 <= i < |entries| && GrantedId(entries[i], clientId, perm) == Some(x);
      assert ParseInt(entries[i].0) == Some(x) && Grants(entries[i].1, clientId, perm);
    }
  }
}
