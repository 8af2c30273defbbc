/** The users registry of `src/hdt_sources_mcp/core_infrastructure/users_store.py` and its
    copy in `HDT_API/users_store.py`: the public users file overlaid with the secrets file,
    connector by connector, and the lookup of a user's primary connector. Users and
    connector entries are JSON objects; the files arrive already read. */
module UsersStore {
  import opened Wrappers
  import opened Text
  import opened JsonValues

  const IdentityKeys: seq<string> := ["connected_application", "player_id"]

  /** The three connector lists merged for every user, in the order they are merged. */
  const ConnectorKeys: seq<string> := ["connected_apps_diabetes_data", "connected_apps_walk_data", "connected_apps_nutrition_data"]

  /** `tuple((e.get(k) or "") for k in identity_keys)` */
  function IdentityOf(e: Json): (key: seq<Json>)
    ensures |key| == |IdentityKeys|
  {
    seq(|IdentityKeys|, i requires 0 <= i < |IdentityKeys| => OrElse(GetOr(e, IdentityKeys[i], JNull), JStr("")))
  }

  /** `(sec_index.get(key) or [None])[0]`: the first secret entry with this identity. */
  function FirstMatch(secs: seq<Json>, key: seq<Json>): (r: Option<Json>)
    ensures r.Some? ==> r.value in secs && IdentityOf(r.value) == key
    ensures r.None? ==> forall s :: s in secs ==> IdentityOf(s) != key
  {
    if secs == [] then None
    else if IdentityOf(secs[0]) == key then Some(secs[0])
    else FirstMatch(secs[1..], key)
  }

  /** The secret found is the first one with that identity. */
  lemma {:induction false} FirstMatchIsFirst(secs: seq<Json>, key: seq<Json>)
    requires FirstMatch(secs, key).Some?
    ensures exists i ::
      0 <= i < |secs| && secs[i] == FirstMatch(secs, key).value &&
      forall j :: 0 <= j < i ==> IdentityOf(secs[j]) != key
  {
    if IdentityOf(secs[0]) != key {
      FirstMatchIsFirst(secs[1..], key);
      var i :| 0 <= i < |secs[1..]| && secs[1..][i] == FirstMatch(secs, key).value &&
        forall j :: 0 <= j < i ==> IdentityOf(secs[1..][j]) != key;
      assert secs[i + 1] == secs[1..][i];
      forall j | 0 <= j < i + 1 ensures IdentityOf(secs[j]) != key {
        if j > 0 {
          assert secs[j] == secs[1..][j - 1];
        }
      }
    }
  }

  /** The bindings whose key is not one of `ks`. */
  function Dropping(fs: Fields, ks: seq<string>): (r: Fields)
    ensures forall k {:trigger Lookup(r, k)} :: Lookup(r, k) == if k in ks then None else Lookup(fs, k)
  {
    if fs == [] then []
    else
      var init := fs[..|fs| - 1];
      var last := fs[|fs| - 1];
      assert fs == init + [last];
      AppendBinding(init, last);
      var rest := Dropping(init, ks);
      if last.0 in ks then rest
      else
        AppendBinding(rest, last);
        rest + [last]
  }

  /** `{**p, **{k: v for k, v in s.items() if k not in identity_keys}}` */
  function Overlay(p: Json, s: Json): Json {
    JObj(Update(FieldsOf(p), Dropping(FieldsOf(s), IdentityKeys)))
  }

  /** The entry a public connector becomes: overlaid with its first matching secret when that
      secret is truthy, otherwise as it was. */
  function MergedEntry(p: Json, secs: seq<Json>): Json {
    var s := FirstMatch(secs, IdentityOf(p));
    if s.Some? && Truthy(s.value) then Overlay(p, s.value) else p
  }

  /** `_merge_lists_by_identity(pub_list, sec_list)` */
  function MergedList(pubs: seq<Json>, secs: seq<Json>): (r: seq<Json>)
    ensures |r| == |pubs|
    ensures forall i :: 0 <= i < |pubs| ==> r[i] == MergedEntry(pubs[i], secs)
  {
    seq(|pubs|, i requires 0 <= i < |pubs| => MergedEntry(pubs[i], secs))
  }

  /** A secret never changes an identity field of the public entry it overlays. */
  lemma OverlayKeepsIdentity(p: Json, secs: seq<Json>, k: string)
    requires p.JObj? && k in IdentityKeys
    ensures Get(MergedEntry(p, secs), k) == Get(p, k)
  {
  }

  /** Every other field takes the matched secret's value when it has one, and keeps the
      public value otherwise; an entry without a usable secret is returned unchanged. */
  lemma OverlayFields(p: Json, secs: seq<Json>, k: string)
    requires p.JObj? && k !in IdentityKeys
    ensures var s := FirstMatch(secs, IdentityOf(p));
      Get(MergedEntry(p, secs), k) ==
        if s.Some? && Truthy(s.value) && Get(s.value, k).Some? then Get(s.value, k) else Get(p, k)
    ensures var s := FirstMatch(secs, IdentityOf(p));
      !(s.Some? && Truthy(s.value)) ==> MergedEntry(p, secs) == p
  {
  }

  /** The identity-to-secrets index the first loop of `_merge_lists_by_identity` builds. */
  ghost predicate Indexes(index: map<seq<Json>, seq<Json>>, secs: seq<Json>) {
    forall key :: (key in index <==> FirstMatch(secs, key).Some?) &&
      (key in index ==> index[key] != [] && index[key][0] == FirstMatch(secs, key).value)
  }

  lemma FirstMatchSnoc(secs: seq<Json>, s: Json, key: seq<Json>)
    ensures FirstMatch(secs + [s], key) == if FirstMatch(secs, key).Some? then FirstMatch(secs, key)
      else if IdentityOf(s) == key then Some(s) else None
  {
    if secs != [] {
      assert (secs + [s])[1..] == secs[1..] + [s];
      FirstMatchSnoc(secs[1..], s, key);
    }
  }

  /** One step of the indexing loop: the secret goes to the end of its identity's bucket. */
  function AddToIndex(index: map<seq<Json>, seq<Json>>, s: Json): map<seq<Json>, seq<Json>> {
    var key := IdentityOf(s);
    index[key := (if key in index then index[key] else []) + [s]]
  }

  lemma IndexSnoc(index: map<seq<Json>, seq<Json>>, secs: seq<Json>, s: Json)
    requires Indexes(index, secs)
    ensures Indexes(AddToIndex(index, s), secs + [s])
  {
    forall k ensures FirstMatch(secs + [s], k) == if FirstMatch(secs, k).Some? then FirstMatch(secs, k)
      else if IdentityOf(s) == k then Some(s) else None
    {
      FirstMatchSnoc(secs, s, k);
    }
  }

  /** Looking the identity up in a finished index finds the first matching secret. */
  lemma IndexedEntry(index: map<seq<Json>, seq<Json>>, secs: seq<Json>, p: Json)
    requires Indexes(index, secs)
    ensures var key := IdentityOf(p);
      (if key in index then Some(index[key][0]) else None) == FirstMatch(secs, key)
  {
    var key := IdentityOf(p);
    assert key in index <==> FirstMatch(secs, key).Some?;
  }

  lemma MergedListSnoc(pubs: seq<Json>, secs: seq<Json>, i: int)
    requires 0 <= i < |pubs|
    ensures MergedList(pubs[..i + 1], secs) == MergedList(pubs[..i], secs) + [MergedEntry(pubs[i], secs)]
  {
    var a, b := MergedList(pubs[..i + 1], secs), MergedList(pubs[..i], secs) + [MergedEntry(pubs[i], secs)];
    assert |a| == |b|;
    forall j | 0 <= j < |a| ensures a[j] == b[j] {
      if j < i {
        assert pubs[..i + 1][j] == pubs[..i][j];
      }
    }
  }

  /** An entry `_merge_lists_by_identity` can index: a dict, since `.get` is called on it,
      whose identity values are hashable, since they form the key of a dict lookup. */
  predicate Indexable(e: Json) {
    e.JObj? && Hashable(GetOr(e, "connected_application", JNull)) && Hashable(GetOr(e, "player_id", JNull))
  }

  /** An identity value `v or ""` that can go into a tuple used as a dict key. */
  predicate Hashable(v: Json) {
    !Truthy(v) || !(v.JList? || v.JObj?)
  }

  lemma TakeSnoc<T>(s: seq<T>, i: int)
    requires 0 <= i < |s|
    ensures s[..i + 1] == s[..i] + [s[i]]
  {
  }

  /** `v or []` as a `for` loop iterates it. None when the loop cannot yield dicts: a number
      or bool is not iterable, and a dict yields its keys, a text its characters. */
  function Iterated(v: Json): (r: Option<seq<Json>>)
    ensures r.Some? <==> !Truthy(v) || v.JList?
    ensures r.Some? ==> r.value == ItemsOf(v)
  {
    if !Truthy(v) then Some([]) else if v.JList? then Some(v.items) else None
  }

  /** A connector list as the loops of `_merge_lists_by_identity` read it: iterated, with
      every item indexable. None is the error Python raises. */
  function ConnectorItems(v: Json): (r: Option<seq<Json>>)
    ensures r.Some? <==> !Truthy(v) || (v.JList? && forall i :: 0 <= i < |v.items| ==> Indexable(v.items[i]))
    ensures r.Some? ==> r.value == ItemsOf(v)
  {
    var items := Iterated(v);
    if items.Some? && forall i :: 0 <= i < |items.value| ==> Indexable(items.value[i]) then items else None
  }

  /** `_merge_lists_by_identity(pub_list, sec_list)` on the two values as given. */
  function MergeLists(pub: Json, sec: Json): Option<seq<Json>> {
    var pubs, secs := ConnectorItems(pub), ConnectorItems(sec);
    if pubs.None? || secs.None? then None else Some(MergedList(pubs.value, secs.value))
  }

  /** `_merge_lists_by_identity(pub_list, sec_list)`: index the secrets, then merge each
      public entry in order; the first entry the loops cannot index raises. */
  method MergeListsByIdentity(pub: Json, sec: Json) returns (merged: Option<seq<Json>>)
    ensures merged == MergeLists(pub, sec)
  {
    var secs := Iterated(sec);
    if secs.None? {
      return None;
    }
    var index := IndexSecrets(secs.value);
    if index.None? {
      return None;
    }
    var pubs := Iterated(pub);
    if pubs.None? {
      return None;
    }
    merged := MergeEach(pubs.value, secs.value, index.value);
  }

  /** The first loop of `_merge_lists_by_identity`: every secret entry goes to the end of its
      identity's bucket. */
  method IndexSecrets(secs: seq<Json>) returns (r: Option<map<seq<Json>, seq<Json>>>)
    ensures r.Some? <==> forall i :: 0 <= i < |secs| ==> Indexable(secs[i])
    ensures r.Some? ==> Indexes(r.value, secs)
  {
    var index: map<seq<Json>, seq<Json>> := map[];
    for i := 0 to |secs|
      invariant Indexes(index, secs[..i])
      invariant forall j :: 0 <= j < i ==> Indexable(secs[j])
    {
      if !Indexable(secs[i]) {
        return None;
      }
      assert forall j :: 0 <= j < i + 1 ==> Indexable(secs[j]);
      IndexSnoc(index, secs[..i], secs[i]);
      TakeSnoc(secs, i);
      index := AddToIndex(index, secs[i]);
    }
    assert secs[..|secs|] == secs;
    return Some(index);
  }

  /** The second loop of `_merge_lists_by_identity`: each public entry is looked up in the
      finished index and overlaid with the head of its bucket. */
  method MergeEach(pubs: seq<Json>, secs: seq<Json>, index: map<seq<Json>, seq<Json>>) returns (merged: Option<seq<Json>>)
    requires Indexes(index, secs)
    ensures merged.Some? <==> forall i :: 0 <= i < |pubs| ==> Indexable(pubs[i])
    ensures merged.Some? ==> merged.value == MergedList(pubs, secs)
  {
    var acc: seq<Json> := [];
    for i := 0 to |pubs|
      invariant acc == MergedList(pubs[..i], secs)
      invariant forall j :: 0 <= j < i ==> Indexable(pubs[j])
    {
      if !Indexable(pubs[i]) {
        return None;
      }
      assert forall j :: 0 <= j < i + 1 ==> Indexable(pubs[j]);
      var p := pubs[i];
      var key := IdentityOf(p);
      IndexedEntry(index, secs, p);
      MergedListSnoc(pubs, secs, i);
      var s := if key in index then Some(index[key][0]) else None;
      if s.Some? && Truthy(s.value) {
        acc := acc + [Overlay(p, s.value)];
      } else {
        acc := acc + [p];
      }
    }
    assert pubs[..|pubs|] == pubs;
    return Some(acc);
  }

  /** The connector list under `key`, `x.get(key, [])`, as the merge iterates it. */
  function ListAt(u: Json, key: string): Option<seq<Json>> {
    ConnectorItems(GetOr(u, key, JList([])))
  }

  /** Every connector list of a user can be iterated by the merge. */
  predicate ConnectorsReadable(u: Json) {
    forall k :: k in ConnectorKeys ==> ListAt(u, k).Some?
  }

  /** The secret users `sec_by_uid` refuses: `"user_id" in u` raises TypeError on a number,
      bool or None, a text or list that contains "user_id" passes it and then has no `.get`,
      and a dict fails when `int()` cannot read its "user_id". */
  predicate SecretRejected(u: Json) {
    match u
    case JObj(_) => HasKey(u, "user_id") && CoerceInt(Get(u, "user_id").value).None?
    case JStr(s) => Contains(s, "user_id")
    case JList(items) => JStr("user_id") in items
    case _ => true
  }

  /** `sec_by_uid`: each secret user with a "user_id" under its integer id; a later entry with
      the same id replaces an earlier one. None is the error Python raises. */
  function SecretsById(secrets: seq<Json>): (r: Option<map<int, Json>>)
    ensures r.Some? ==> forall uid :: uid in r.value ==> r.value[uid].JObj?
    decreases |secrets|
  {
    if secrets == [] then Some(map[])
    else
      var prev := SecretsById(secrets[..|secrets| - 1]);
      var u := secrets[|secrets| - 1];
      if prev.None? || SecretRejected(u) then None
      else if u.JObj? && HasKey(u, "user_id") then Some(prev.value[CoerceInt(Get(u, "user_id").value).value := u])
      else prev
  }

  lemma SecretsByIdStep(secrets: seq<Json>)
    requires secrets != []
    ensures SecretsById(secrets).None? <==>
      SecretsById(secrets[..|secrets| - 1]).None? || SecretRejected(secrets[|secrets| - 1])
  {
  }

  lemma SecretsByIdPrefixFails(secrets: seq<Json>, n: int)
    requires 0 <= n <= |secrets| && SecretsById(secrets[..n]).None?
    ensures SecretsById(secrets).None?
    decreases |secrets| - n
  {
    if n < |secrets| {
      SecretsByIdStep(secrets[..n + 1]);
      assert secrets[..n + 1][..n] == secrets[..n];
      SecretsByIdPrefixFails(secrets, n + 1);
    } else {
      assert secrets[..n] == secrets;
    }
  }

  lemma {:induction false} SecretsFailureHasRejected(secrets: seq<Json>)
    requires SecretsById(secrets).None?
    ensures exists i :: 0 <= i < |secrets| && SecretRejected(secrets[i])
    decreases |secrets|
  {
    var init := secrets[..|secrets| - 1];
    SecretsByIdStep(secrets);
    if !SecretRejected(secrets[|secrets| - 1]) {
      SecretsFailureHasRejected(init);
      var i :| 0 <= i < |init| && SecretRejected(init[i]);
      assert secrets[i] == init[i];
    }
  }

  lemma RejectedFails(secrets: seq<Json>, i: int)
    requires 0 <= i < |secrets| && SecretRejected(secrets[i])
    ensures SecretsById(secrets).None?
  {
    SecretsByIdStep(secrets[..i + 1]);
    assert secrets[..i + 1][..i] == secrets[..i];
    SecretsByIdPrefixFails(secrets, i + 1);
  }

  /** The secrets are indexed exactly when no secret user is one Python refuses. */
  lemma SecretsByIdFails(secrets: seq<Json>)
    ensures SecretsById(secrets).None? <==> exists i :: 0 <= i < |secrets| && SecretRejected(secrets[i])
  {
    if SecretsById(secrets).None? {
      SecretsFailureHasRejected(secrets);
    }
    if exists i :: 0 <= i < |secrets| && SecretRejected(secrets[i]) {
      var i :| 0 <= i < |secrets| && SecretRejected(secrets[i]);
      RejectedFails(secrets, i);
    }
  }

  /** The loop over the connector keys: each list replaced by its merge. */
  function MergeConnectors(fs: Fields, pu: Json, su: Json, keys: seq<string>): Option<Fields>
    decreases |keys|
  {
    if keys == [] then Some(fs)
    else
      var merged := MergeLists(GetOr(pu, keys[0], JList([])), GetOr(su, keys[0], JList([])));
      if merged.None? then None
      else MergeConnectors(Put(fs, keys[0], JList(merged.value)), pu, su, keys[1..])
  }

  /** The merged entry of one public user: a copy with its three connector lists merged. */
  function MergedUser(pu: Json, su: Json): Option<Json> {
    var fs := MergeConnectors(FieldsOf(pu), pu, su, ConnectorKeys);
    if fs.None? then None else Some(JObj(fs.value))
  }

  lemma {:induction false} MergeConnectorsLookup(fs: Fields, pu: Json, su: Json, keys: seq<string>, k: string)
    ensures MergeConnectors(fs, pu, su, keys).Some? <==>
      forall k2 :: k2 in keys ==> ListAt(pu, k2).Some? && ListAt(su, k2).Some?
    ensures MergeConnectors(fs, pu, su, keys).Some? ==>
      Lookup(MergeConnectors(fs, pu, su, keys).value, k) ==
        if k in keys then Some(JList(MergedList(ListAt(pu, k).value, ListAt(su, k).value))) else Lookup(fs, k)
    decreases |keys|
  {
    if keys != [] {
      var merged := MergeLists(GetOr(pu, keys[0], JList([])), GetOr(su, keys[0], JList([])));
      assert forall k2 :: k2 in keys <==> k2 == keys[0] || k2 in keys[1..];
      assert merged.Some? <==> ListAt(pu, keys[0]).Some? && ListAt(su, keys[0]).Some?;
      if merged.Some? {
        var fs' := Put(fs, keys[0], JList(merged.value));
        MergeConnectorsLookup(fs', pu, su, keys[1..], k);
        assert MergeConnectors(fs, pu, su, keys) == MergeConnectors(fs', pu, su, keys[1..]);
      }
    }
  }

  /** A merged user exists exactly when every connector list of both users can be merged;
      then each connector list is the merge of the public and secret lists and every other
      field is the public user's own. */
  lemma MergedUserFields(pu: Json, su: Json, k: string)
    ensures MergedUser(pu, su).Some? <==> ConnectorsReadable(pu) && ConnectorsReadable(su)
    ensures MergedUser(pu, su).Some? && k in ConnectorKeys ==>
      Get(MergedUser(pu, su).value, k) == Some(JList(MergedList(ListAt(pu, k).value, ListAt(su, k).value)))
    ensures MergedUser(pu, su).Some? && k !in ConnectorKeys ==> Get(MergedUser(pu, su).value, k) == Lookup(FieldsOf(pu), k)
  {
    MergeConnectorsLookup(FieldsOf(pu), pu, su, ConnectorKeys, k);
  }

  /** A truthy value that is not a list: a dict, a text, a number or `True`. */
  predicate NotIterable(v: Json) {
    Truthy(v) && !v.JList?
  }

  /** A connector value that is truthy but not a list makes the merge of that user raise,
      whichever side holds it. */
  lemma NonListConnectorRaises(pu: Json, su: Json, k: string)
    requires k in ConnectorKeys
    requires NotIterable(GetOr(pu, k, JList([]))) || NotIterable(GetOr(su, k, JList([])))
    ensures MergedUser(pu, su).None?
  {
    MergedUserFields(pu, su, k);
  }

  /** The public users with a given id; the last of them is the one kept. */
  function PublicIds(pubs: seq<Json>): (r: Option<set<int>>)
    decreases |pubs|
  {
    if pubs == [] then Some({})
    else
      var prev := PublicIds(pubs[..|pubs| - 1]);
      var uid := UserIdOf(pubs[|pubs| - 1]);
      if prev.None? || uid.None? then None else Some(prev.value + {uid.value})
  }

  /** `int(pu["user_id"])`; None is the KeyError or the error `int()` raises. */
  function UserIdOf(pu: Json): Option<int> {
    if HasKey(pu, "user_id") then CoerceInt(Get(pu, "user_id").value) else None
  }

  /** `sec_by_uid.get(uid, {})` read as `su or {}`. */
  function SecretFor(secById: map<int, Json>, uid: int): Json {
    OrElse(if uid in secById then secById[uid] else JObj([]), JObj([]))
  }

  /** A public user `_merge_users` gets through: an integer id, and connector lists of its
      own and of its secret user that the merge can iterate. */
  predicate Mergeable(pu: Json, secById: map<int, Json>) {
    UserIdOf(pu).Some? && ConnectorsReadable(pu) && ConnectorsReadable(SecretFor(secById, UserIdOf(pu).value))
  }

  /** The loop of `_merge_users` over the public users seen so far. */
  function MergedUsers(pubs: seq<Json>, secById: map<int, Json>): (r: Option<map<int, Json>>)
    decreases |pubs|
  {
    if pubs == [] then Some(map[])
    else
      var prev := MergedUsers(pubs[..|pubs| - 1], secById);
      var pu := pubs[|pubs| - 1];
      var uid := UserIdOf(pu);
      if prev.None? || uid.None? then None
      else
        var merged := MergedUser(pu, SecretFor(secById, uid.value));
        if merged.None? then None else Some(prev.value[uid.value := merged.value])
  }

  /** `_merge_users(public_users, secret_users)`: it fails exactly when a secret user is
      refused or a public user cannot be merged. */
  function MergeUsers(pubs: seq<Json>, secrets: seq<Json>): (r: Option<map<int, Json>>)
    ensures r.Some? <==>
      SecretsById(secrets).Some? && forall i :: 0 <= i < |pubs| ==> Mergeable(pubs[i], SecretsById(secrets).value)
  {
    var secById := SecretsById(secrets);
    if secById.None? then None
    else
      MergedUsersKeys(pubs, secById.value);
      MergedUsers(pubs, secById.value)
  }

  /** The merged map is keyed by exactly the public ids: secret-only users are dropped. It
      fails exactly when some public user has no integer id or a connector list that cannot
      be merged. */
  lemma {:induction false} MergedUsersKeys(pubs: seq<Json>, secById: map<int, Json>)
    ensures MergedUsers(pubs, secById).Some? <==> forall i :: 0 <= i < |pubs| ==> Mergeable(pubs[i], secById)
    ensures MergedUsers(pubs, secById).Some? ==>
      PublicIds(pubs).Some? && MergedUsers(pubs, secById).value.Keys == PublicIds(pubs).value
    decreases |pubs|
  {
    if pubs != [] {
      var init := pubs[..|pubs| - 1];
      MergedUsersKeys(init, secById);
      MergedUsersStep(pubs, secById);
      AllMergeableSnoc(pubs, secById);
    }
  }

  lemma AllMergeableSnoc(pubs: seq<Json>, secById: map<int, Json>)
    requires pubs != []
    ensures var init := pubs[..|pubs| - 1];
      (forall i :: 0 <= i < |pubs| ==> Mergeable(pubs[i], secById)) <==>
        (forall i :: 0 <= i < |init| ==> Mergeable(init[i], secById)) && Mergeable(pubs[|pubs| - 1], secById)
  {
    var init := pubs[..|pubs| - 1];
    assert forall i :: 0 <= i < |init| ==> init[i] == pubs[i];
  }

  lemma MergedUsersStep(pubs: seq<Json>, secById: map<int, Json>)
    requires pubs != []
    ensures var init, pu := pubs[..|pubs| - 1], pubs[|pubs| - 1];
      (MergedUsers(pubs, secById).Some? <==> MergedUsers(init, secById).Some? && Mergeable(pu, secById)) &&
      (PublicIds(pubs).Some? <==> PublicIds(init).Some? && UserIdOf(pu).Some?) &&
      (MergedUsers(pubs, secById).Some? ==>
        MergedUsers(pubs, secById).value.Keys == MergedUsers(init, secById).value.Keys + {UserIdOf(pu).value}) &&
      (PublicIds(pubs).Some? ==> PublicIds(pubs).value == PublicIds(init).value + {UserIdOf(pu).value})
  {
    var pu := pubs[|pubs| - 1];
    if UserIdOf(pu).Some? {
      MergedUserFields(pu, SecretFor(secById, UserIdOf(pu).value), "");
    }
  }

  /** The ids are read exactly when every public user has an integer id. */
  lemma {:induction false} PublicIdsDefined(pubs: seq<Json>)
    ensures PublicIds(pubs).Some? <==> forall i :: 0 <= i < |pubs| ==> UserIdOf(pubs[i]).Some?
    decreases |pubs|
  {
    if pubs != [] {
      var init := pubs[..|pubs| - 1];
      PublicIdsDefined(init);
      assert forall i :: 0 <= i < |init| ==> init[i] == pubs[i];
    }
  }

  /** Each id maps to the last public user with that id, merged with the secret user of that
      id (or with nothing). */
  lemma {:induction false} MergedUsersValues(pubs: seq<Json>, secById: map<int, Json>, i: int)
    requires MergedUsers(pubs, secById).Some? && 0 <= i < |pubs|
    requires forall j :: i < j < |pubs| ==> UserIdOf(pubs[j]) != UserIdOf(pubs[i])
    ensures UserIdOf(pubs[i]).Some?
    ensures var uid := UserIdOf(pubs[i]).value;
      MergedUser(pubs[i], SecretFor(secById, uid)).Some? && uid in MergedUsers(pubs, secById).value &&
      MergedUsers(pubs, secById).value[uid] == MergedUser(pubs[i], SecretFor(secById, uid)).value
    decreases |pubs|
  {
    var init := pubs[..|pubs| - 1];
    if i < |pubs| - 1 {
      assert init[i] == pubs[i];
      MergedUsersValues(init, secById, i);
    }
  }

  /** `_load_users_file`: the "users" list of a dict file; None for a missing, unreadable or
      malformed one, which the loaders read as no users. */
  function UsersOfFile(doc: Option<Json>): (r: seq<Json>)
    ensures doc.None? ==> r == []
  {
    if doc.Some? && doc.value.JObj? && HasKey(doc.value, "users") && Get(doc.value, "users").value.JList? then
      Get(doc.value, "users").value.items
    else []
  }

  /** `load_users_merged(config_dir)` / `UsersStore.from_repo_root(repo_root)` */
  function LoadUsersMerged(publicDoc: Option<Json>, secretsDoc: Option<Json>): Option<map<int, Json>> {
    MergeUsers(UsersOfFile(publicDoc), UsersOfFile(secretsDoc))
  }

  /** A missing public file gives no users at all, whatever the secrets hold. */
  lemma NoPublicNoUsers(secretsDoc: Option<Json>)
    requires SecretsById(UsersOfFile(secretsDoc)).Some?
    ensures LoadUsersMerged(None, secretsDoc) == Some(map[])
  {
  }

  /** The answer of `get_connected_app_info`: application, player id and token. */
  datatype AppInfo = AppInfo(app: Json, playerId: Option<Json>, authBearer: Option<Json>)

  const UnknownApp := AppInfo(JStr("Unknown"), None, None)

  /** `user.get(f"connected_apps_{app_type}") or []` */
  function Entries(user: Json, appType: string): seq<Json> {
    ItemsOf(OrElse(GetOr(user, "connected_apps_" + appType, JNull), JList([])))
  }

  /** The primary connector of a user for `app_type`: the first entry of its list. */
  function PrimaryEntry(users: map<int, Json>, uid: int, appType: string): (r: Option<Json>)
    ensures r.Some? <==> uid in users && Truthy(users[uid]) && Entries(users[uid], appType) != []
    ensures r.Some? ==> r.value == Entries(users[uid], appType)[0]
  {
    if uid !in users || !Truthy(users[uid]) then None
    else
      var entries := Entries(users[uid], appType);
      if entries == [] then None else Some(entries[0])
  }

  /** `get_connected_app_info(users_merged, user_id, app_type)` */
  function ConnectedAppInfo(users: map<int, Json>, uid: int, appType: string): (r: AppInfo)
    ensures PrimaryEntry(users, uid, appType).None? ==> r == UnknownApp
    ensures PrimaryEntry(users, uid, appType).Some? ==>
      var e := PrimaryEntry(users, uid, appType).value;
      r.app == GetOr(e, "connected_application", JStr("Unknown")) && r.playerId == Get(e, "player_id") &&
      r.authBearer == Get(e, "auth_bearer")
  {
    var e := PrimaryEntry(users, uid, appType);
    if e.None? then UnknownApp
    else AppInfo(GetOr(e.value, "connected_application", JStr("Unknown")), Get(e.value, "player_id"), Get(e.value, "auth_bearer"))
  }

  /** `UsersStore.get_connected_app_info(user_id, app_type)`: the same lookup, with the
      application name passed through `str()`. */
  function StoreConnectedAppInfo(users: map<int, Json>, uid: int, appType: string): (r: AppInfo)
    ensures r.app.JStr?
    ensures r.app == JStr(PyStr(ConnectedAppInfo(users, uid, appType).app))
    ensures r.playerId == ConnectedAppInfo(users, uid, appType).playerId
    ensures r.authBearer == ConnectedAppInfo(users, uid, appType).authBearer
  {
    var info := ConnectedAppInfo(users, uid, appType);
    AppInfo(JStr(PyStr(info.app)), info.playerId, info.authBearer)
  }

  /** For a merged user, the primary walk connector keeps the public identity, so the app and
      player id reported are the public file's, and the token is the secret's when one
      matched. */
  lemma AppInfoOfMerged(pu: Json, su: Json, users: map<int, Json>, uid: int)
    requires MergedUser(pu, su).Some? && uid in users && users[uid] == MergedUser(pu, su).value
    requires ListAt(pu, "connected_apps_walk_data").Some? && ListAt(pu, "connected_apps_walk_data").value != []
    ensures var p := ListAt(pu, "connected_apps_walk_data").value[0];
      var info := ConnectedAppInfo(users, uid, "walk_data");
      info.app == GetOr(p, "connected_application", JStr("Unknown")) && info.playerId == Get(p, "player_id")
  {
    var k := "connected_apps_walk_data";
    var p := ListAt(pu, k).value[0];
    WalkEntriesOfMerged(pu, su);
    var merged := MergedList(ListAt(pu, k).value, ListAt(su, k).value);
    assert PrimaryEntry(users, uid, "walk_data") == Some(merged[0]);
    assert merged[0] == MergedEntry(p, ListAt(su, k).value);
    OverlayKeepsIdentity(p, ListAt(su, k).value, "connected_application");
    OverlayKeepsIdentity(p, ListAt(su, k).value, "player_id");
  }

  /** A user holding a list under `connected_apps_<app_type>` is truthy and lists exactly it. */
  lemma ListedEntries(user: Json, appType: string, xs: seq<Json>)
    requires Get(user, "connected_apps_" + appType) == Some(JList(xs))
    ensures Truthy(user) && Entries(user, appType) == xs
  {
    assert LastIndex(user.fields, "connected_apps_" + appType) >= 0;
  }

  /** A merged user is truthy and lists the merge of its walk connectors. */
  lemma WalkEntriesOfMerged(pu: Json, su: Json)
    requires MergedUser(pu, su).Some?
    ensures var k := "connected_apps_walk_data";
      ListAt(pu, k).Some? && ListAt(su, k).Some? && Truthy(MergedUser(pu, su).value) &&
      Entries(MergedUser(pu, su).value, "walk_data") == MergedList(ListAt(pu, k).value, ListAt(su, k).value)
  {
    var k := "connected_apps_walk_data";
    MergedWalkList(pu, su);
    WalkKey();
    ListedEntries(MergedUser(pu, su).value, "walk_data", MergedList(ListAt(pu, k).value, ListAt(su, k).value));
  }

  lemma WalkKey()
    ensures "connected_apps_" + "walk_data" == "connected_apps_walk_data"
  {
  }

  lemma MergedWalkList(pu: Json, su: Json)
    requires MergedUser(pu, su).Some?
    ensures var k := "connected_apps_walk_data";
      ListAt(pu, k).Some? && ListAt(su, k).Some? &&
      Get(MergedUser(pu, su).value, k) == Some(JList(MergedList(ListAt(pu, k).value, ListAt(su, k).value)))
  {
    var k := "connected_apps_walk_data";
    assert k in ConnectorKeys by {
      assert ConnectorKeys[1] == k;
    }
    MergeConnectorsLookup(FieldsOf(pu), pu, su, ConnectorKeys, k);
  }
}
