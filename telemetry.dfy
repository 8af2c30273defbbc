/** The telemetry store of `src/hdt_common/telemetry.py`: the two redactors (secrets and
    personal identifiers), the subject hash derived before redaction, and the JSONL file
    of events with its bounded reads. The file is a sequence of lines, each the record it
    decodes to or a malformed line; the clock, the timestamp parser and SHA-256 are
    parameters. */
module Telemetry {
  import opened Wrappers
  import opened Text
  import opened JsonValues
  import opened Envelopes

  /** The two key-driven redactors: `_redact_secrets` and `_redact_pii`. */
  datatype Redactor = Secrets | Pii

  /** A key whose stripped, lowercased form is in the redactor's key set. */
  predicate Hides(kind: Redactor, k: string) {
    var n := Norm(k);
    if kind.Secrets? then n in {"authorization", "auth_bearer", "access_token", "token", "api_key", "apikey"}
    else n in {"user_id", "email", "player_id", "account_user_id", "external_user_id"}
  }

  /** No key is both a secret and an identifier. */
  lemma HidesDisjoint(k: string)
    ensures !(Hides(Secrets, k) && Hides(Pii, k))
  {
  }

  const BearerToken := "Bearer " + RedactToken

  /** A string whose stripped, lowercased form starts with "bearer ". */
  predicate IsBearer(v: Json) {
    v.JStr? && StartsWith(Norm(v.s), "bearer ")
  }

  /** What a hidden key's value becomes: a bearer credential keeps its scheme. */
  function Replacement(kind: Redactor, v: Json): Json {
    if kind.Secrets? && IsBearer(v) then JStr(BearerToken) else JStr(RedactToken)
  }

  /** The values a redactor leaves behind a hidden key. */
  predicate IsToken(kind: Redactor, v: Json) {
    v == JStr(RedactToken) || (kind.Secrets? && v == JStr(BearerToken))
  }

  /** Replacing a redacted value again gives the same value. */
  lemma TokenStable(kind: Redactor, v: Json)
    requires IsToken(kind, v)
    ensures Replacement(kind, v) == v
  {
    NoSpaceStrip(RedactToken);
    assert Norm(RedactToken)[0] == '*';
    if v == JStr(BearerToken) {
      NoSpaceStrip(BearerToken);
      var n := Norm(BearerToken);
      assert n[..7] == "bearer ";
    }
  }

  function Scrub(kind: Redactor, j: Json): (r: Json)
    ensures j.JObj? <==> r.JObj?
    ensures j.JList? <==> r.JList?
    ensures j.JObj? ==> r.fields == ScrubFields(kind, j)
    ensures j.JList? ==> |r.items| == |j.items| && forall i :: 0 <= i < |j.items| ==> r.items[i] == Scrub(kind, j.items[i])
    ensures !j.JObj? && !j.JList? ==> r == j
    decreases j, 1
  {
    match j
    case JObj(fs) => JObj(ScrubFields(kind, j))
    case JList(items) => JList(seq(|items|, i requires 0 <= i < |items| => Scrub(kind, items[i])))
    case _ => j
  }

  /** The dict branch: every key is kept, in order; a hidden key's value is replaced and
      every other value is redacted recursively. */
  function ScrubFields(kind: Redactor, j: Json): (r: Fields)
    requires j.JObj?
    ensures |r| == |j.fields|
    ensures forall i :: 0 <= i < |r| ==> r[i].0 == j.fields[i].0
    ensures forall i :: 0 <= i < |r| ==>
      r[i].1 == if Hides(kind, j.fields[i].0) then Replacement(kind, j.fields[i].1) else Scrub(kind, j.fields[i].1)
    decreases j, 0
  {
    var fs := j.fields;
    seq(|fs|, i requires 0 <= i < |fs| =>
      (fs[i].0, if Hides(kind, fs[i].0) then Replacement(kind, fs[i].1) else Scrub(kind, fs[i].1)))
  }

  /** Every hidden key, at any depth, holds a redaction token. */
  predicate Clean(kind: Redactor, j: Json)
    decreases j
  {
    match j
    case JObj(fs) =>
      forall i :: 0 <= i < |fs| ==> if Hides(kind, fs[i].0) then IsToken(kind, fs[i].1) else Clean(kind, fs[i].1)
    case JList(items) => forall i :: 0 <= i < |items| ==> Clean(kind, items[i])
    case _ => true
  }

  /** After redaction, no hidden key anywhere holds anything but a token. */
  lemma {:induction false} ScrubCleans(kind: Redactor, j: Json)
    ensures Clean(kind, Scrub(kind, j))
    decreases j
  {
    match j
    case JObj(fs) =>
      var r := Scrub(kind, j).fields;
      forall i | 0 <= i < |fs|
        ensures if Hides(kind, r[i].0) then IsToken(kind, r[i].1) else Clean(kind, r[i].1)
      {
        if !Hides(kind, fs[i].0) {
          ScrubCleans(kind, fs[i].1);
        }
      }
    case JList(items) =>
      var r := Scrub(kind, j).items;
      forall i | 0 <= i < |items| ensures Clean(kind, r[i]) {
        ScrubCleans(kind, items[i]);
      }
    case _ =>
  }

  /** A clean value is left as it is. */
  lemma {:induction false} CleanFixed(kind: Redactor, j: Json)
    requires Clean(kind, j)
    ensures Scrub(kind, j) == j
    decreases j
  {
    match j
    case JObj(fs) =>
      var r := Scrub(kind, j).fields;
      forall i | 0 <= i < |fs| ensures r[i] == fs[i] {
        if Hides(kind, fs[i].0) {
          TokenStable(kind, fs[i].1);
        } else {
          CleanFixed(kind, fs[i].1);
        }
      }
      assert r == fs;
    case JList(items) =>
      var r := Scrub(kind, j).items;
      forall i | 0 <= i < |items| ensures r[i] == items[i] {
        CleanFixed(kind, items[i]);
      }
      assert r == items;
    case _ =>
  }

  /** Each redactor is idempotent. */
  lemma ScrubIdempotent(kind: Redactor, j: Json)
    ensures Scrub(kind, Scrub(kind, j)) == Scrub(kind, j)
  {
    ScrubCleans(kind, j);
    CleanFixed(kind, Scrub(kind, j));
  }

  /** One redactor keeps what the other has cleaned clean: their key sets are disjoint and
      what either leaves behind a hidden key is a string. */
  lemma {:induction false} ScrubKeepsClean(a: Redactor, b: Redactor, j: Json)
    requires a != b && Clean(a, j)
    ensures Clean(a, Scrub(b, j))
    decreases j
  {
    match j
    case JObj(fs) =>
      var r := Scrub(b, j).fields;
      forall i | 0 <= i < |fs|
        ensures if Hides(a, r[i].0) then IsToken(a, r[i].1) else Clean(a, r[i].1)
      {
        HidesDisjoint(fs[i].0);
        if !Hides(b, fs[i].0) && !Hides(a, fs[i].0) {
          ScrubKeepsClean(a, b, fs[i].1);
        }
      }
    case JList(items) =>
      var r := Scrub(b, j).items;
      forall i | 0 <= i < |items| ensures Clean(a, r[i]) {
        ScrubKeepsClean(a, b, items[i]);
      }
    case _ =>
  }

  /** The defence in depth of `log_event` and of both readers: secrets, then identifiers. */
  function Safe(j: Json): Json {
    Scrub(Pii, Scrub(Secrets, j))
  }

  /** A record made safe holds no secret and no identifier at any depth. */
  lemma SafeClean(j: Json)
    ensures Clean(Secrets, Safe(j)) && Clean(Pii, Safe(j))
  {
    var s := Scrub(Secrets, j);
    ScrubCleans(Secrets, j);
    ScrubKeepsClean(Secrets, Pii, s);
    ScrubCleans(Pii, s);
  }

  /** Redacting again on read changes nothing in a record that was redacted on write. */
  lemma SafeIdempotent(j: Json)
    ensures Safe(Safe(j)) == Safe(j)
  {
    var s := Safe(j);
    SafeClean(j);
    CleanFixed(Secrets, s);
    CleanFixed(Pii, s);
  }

  /** A key the redactor does not hide reads the redacted form of what it read before. */
  lemma ScrubGet(kind: Redactor, j: Json, k: string)
    requires j.JObj? && !Hides(kind, k)
    ensures Get(Scrub(kind, j), k) == (if Get(j, k).Some? then Some(Scrub(kind, Get(j, k).value)) else None)
  {
    SameKeysSameIndex(j.fields, ScrubFields(kind, j), k);
  }

  /** `_find_first_key`: a matching key of the dict itself (in order) wins; otherwise the
      first non-None result of searching its values in order; a list is searched item by
      item. Python's None is `JNull`. */
  function FindFirstKey(j: Json, key: string): (r: Json)
    decreases j, 2
  {
    match j
    case JObj(fs) =>
      var i := FirstKeyIndex(fs, key);
      if i < |fs| then fs[i].1 else FirstFoundFrom(j, key, 0)
    case JList(items) => FirstFoundFrom(j, key, 0)
    case _ => JNull
  }

  /** Position of the first key matching `key` after strip and lower, or `|fs|`. */
  function FirstKeyIndex(fs: Fields, key: string): (i: nat)
    ensures i <= |fs|
    ensures i < |fs| ==> Norm(fs[i].0) == key
    ensures forall m :: 0 <= m < i ==> Norm(fs[m].0) != key
  {
    if fs == [] then 0 else if Norm(fs[0].0) == key then 0 else 1 + FirstKeyIndex(fs[1..], key)
  }

  /** The values (of a dict) or items (of a list) of a container. */
  function Children(j: Json): (c: seq<Json>)
    ensures j.JObj? ==> |c| == |j.fields| && forall i :: 0 <= i < |c| ==> c[i] == j.fields[i].1
    ensures j.JList? ==> c == j.items
  {
    match j
    case JObj(fs) => seq(|fs|, i requires 0 <= i < |fs| => fs[i].1)
    case JList(items) => items
    case _ => []
  }

  /** The first non-None search result among the children from position `i` on. */
  function FirstFoundFrom(j: Json, key: string, i: nat): (r: Json)
    requires j.JObj? || j.JList?
    requires i <= |Children(j)|
    decreases j, 1, |Children(j)| - i
  {
    var c := Children(j);
    if i == |c| then JNull
    else
      assert c[i] < j by {
        if j.JObj? { assert c[i] == j.fields[i].1; }
      }
      var f := FindFirstKey(c[i], key);
      if f != JNull then f else FirstFoundFrom(j, key, i + 1)
  }

  /** Somewhere in `j`, a key matching `key` is bound to `v`. */
  predicate Binds(j: Json, key: string, v: Json)
    decreases j
  {
    match j
    case JObj(fs) => exists i :: 0 <= i < |fs| && ((Norm(fs[i].0) == key && fs[i].1 == v) || Binds(fs[i].1, key, v))
    case JList(items) => exists i :: 0 <= i < |items| && Binds(items[i], key, v)
    case _ => false
  }

  /** Whatever the search finds, other than None, is bound to a matching key in `j`. */
  lemma {:induction false} FoundIsBound(j: Json, key: string)
    ensures FindFirstKey(j, key) != JNull ==> Binds(j, key, FindFirstKey(j, key))
    decreases j, 2
  {
    match j
    case JObj(fs) =>
      var i := FirstKeyIndex(fs, key);
      if i >= |fs| {
        FoundFromIsBound(j, key, 0);
      }
    case JList(items) => FoundFromIsBound(j, key, 0);
    case _ =>
  }

  lemma {:induction false} FoundFromIsBound(j: Json, key: string, i: nat)
    requires j.JObj? || j.JList?
    requires i <= |Children(j)|
    ensures FirstFoundFrom(j, key, i) != JNull ==> Binds(j, key, FirstFoundFrom(j, key, i))
    decreases j, 1, |Children(j)| - i
  {
    var c := Children(j);
    if i < |c| {
      assert c[i] < j by {
        if j.JObj? { assert c[i] == j.fields[i].1; }
      }
      var f := FindFirstKey(c[i], key);
      if f != JNull {
        FoundIsBound(c[i], key);
      } else {
        FoundFromIsBound(j, key, i + 1);
      }
    }
  }

  /** A key of the dict itself is preferred to any match nested in an earlier value. */
  lemma OwnKeyFirst(fs: Fields, key: string, i: int)
    requires 0 <= i < |fs| && Norm(fs[i].0) == key
    requires forall m :: 0 <= m < i ==> Norm(fs[m].0) != key
    ensures FindFirstKey(JObj(fs), key) == fs[i].1
  {
    var f := FirstKeyIndex(fs, key);
    assert f == i;
  }

  /** `_hash_subject(uid)` with the configured salt: the first 16 hex digits of the digest
      of "salt:uid", and None without a salt, for None, or for an id already redacted. */
  function HashSubject(salt: string, uid: Json, digest: string -> string): (r: Option<string>)
    ensures r.None? <==> salt == [] || uid == JNull || uid == JStr(RedactToken)
    ensures r.Some? ==> |r.value| <= 16 && StartsWith(digest(salt + ":" + PyStr(uid)), r.value)
  {
    if salt == [] || uid == JNull || uid == JStr(RedactToken) then None
    else
      var d := digest(salt + ":" + PyStr(uid));
      Some(if |d| <= 16 then d else d[..16])
  }

  /** The record `log_event` builds before redaction. */
  function RawRecord(ts: string, kind: string, name: string, args: Option<Fields>, ok: bool, ms: int,
                     clientId: Option<string>, corrId: Option<string>, rid: Option<string>, hash: Option<string>): Fields
  {
    var ridJ := if rid.Some? then JStr(rid.value) else JNull;
    var corr := if corrId.Some? && corrId.value != [] then JStr(corrId.value) else ridJ;
    var base := [("ts", JStr(ts)), ("kind", JStr(kind)), ("name", JStr(name)),
                 ("client_id", if clientId.Some? then JStr(clientId.value) else JNull),
                 ("request_id", ridJ), ("corr_id", corr), ("args", JObj(args.GetOr([]))),
                 ("ok", JBool(ok)), ("ms", JInt(ms))];
    if hash.Some? && hash.value != [] then base + [("subject_hash", JStr(hash.value))] else base
  }

  /** The subject hash `log_event` derives from the first "user_id" of the arguments,
      before anything is redacted. */
  function SubjectOf(salt: string, args: Option<Fields>, digest: string -> string): Option<string> {
    HashSubject(salt, FindFirstKey(JObj(args.GetOr([])), "user_id"), digest)
  }

  /** The line `log_event` appends: the raw record made safe. */
  function EventRecord(ts: string, kind: string, name: string, args: Option<Fields>, ok: bool, ms: int,
                       clientId: Option<string>, corrId: Option<string>, rid: Option<string>,
                       salt: string, digest: string -> string): Json
  {
    Safe(JObj(RawRecord(ts, kind, name, args, ok, ms, clientId, corrId, rid, SubjectOf(salt, args, digest))))
  }

  /** The written record carries the subject hash exactly when one was derived, and its
      outcome flag. */
  lemma EventRecordFields(ts: string, kind: string, name: string, args: Option<Fields>, ok: bool, ms: int,
                          clientId: Option<string>, corrId: Option<string>, rid: Option<string>,
                          salt: string, digest: string -> string)
    ensures var r := EventRecord(ts, kind, name, args, ok, ms, clientId, corrId, rid, salt, digest);
      var h := SubjectOf(salt, args, digest);
      Get(r, "subject_hash") == (if h.Some? && h.value != [] then Some(JStr(h.value)) else None) &&
      Get(r, "ok") == Some(JBool(ok))
  {
    var h := SubjectOf(salt, args, digest);
    var raw := RawRecord(ts, kind, name, args, ok, ms, clientId, corrId, rid, h);
    RawLookups(raw, ts, kind, name, args, ok, ms, clientId, corrId, rid, h);
    NotHidden("subject_hash");
    NotHidden("ok");
    SafeKeepsScalar(JObj(raw), "subject_hash");
    SafeKeepsScalar(JObj(raw), "ok");
  }

  /** Keys of the record that neither redactor hides. */
  lemma NotHidden(k: string)
    requires k == "subject_hash" || k == "ok"
    ensures !Hides(Secrets, k) && !Hides(Pii, k)
  {
    NoSpaceStrip(k);
    assert Lower(k) == k;
  }

  /** A scalar under a key neither redactor hides survives both. */
  lemma SafeKeepsScalar(j: Json, k: string)
    requires j.JObj? && !Hides(Secrets, k) && !Hides(Pii, k)
    requires Get(j, k).Some? ==> !Get(j, k).value.JObj? && !Get(j, k).value.JList?
    ensures Get(Safe(j), k) == Get(j, k)
  {
    ScrubGet(Secrets, j, k);
    ScrubGet(Pii, Scrub(Secrets, j), k);
  }

  lemma RawLookups(raw: Fields, ts: string, kind: string, name: string, args: Option<Fields>, ok: bool, ms: int,
                   clientId: Option<string>, corrId: Option<string>, rid: Option<string>, h: Option<string>)
    requires raw == RawRecord(ts, kind, name, args, ok, ms, clientId, corrId, rid, h)
    ensures Lookup(raw, "subject_hash") == (if h.Some? && h.value != [] then Some(JStr(h.value)) else None)
    ensures Lookup(raw, "ok") == Some(JBool(ok))
  {
    if h.Some? && h.value != [] {
      LookupAt(raw, 9);
      LookupAt(raw, 7);
    } else {
      LookupAbsent(raw, "subject_hash");
      LookupAt(raw, 7);
    }
  }

  /** `int(n)` with 50 when that fails, then clamped to [1, 200]. */
  function ClampN(n: Json): (r: int)
    ensures 1 <= r <= 200
    ensures CoerceInt(n).Some? && 1 <= CoerceInt(n).value <= 200 ==> r == CoerceInt(n).value
    ensures CoerceInt(n).None? ==> r == 50
  {
    var v := CoerceInt(n).GetOr(50);
    if v < 1 then 1 else if v > 200 then 200 else v
  }

  /** The last `k` elements of `s` (all of them when there are fewer). */
  function LastN<T>(s: seq<T>, k: int): (r: seq<T>)
    ensures |r| <= |s| && (k >= 0 ==> |r| <= k)
    ensures r == s[|s| - |r|..]
  {
    if k <= 0 then [] else if k >= |s| then s else s[|s| - k..]
  }

  lemma LastNOfLastN<T>(s: seq<T>, w: int, k: int)
    requires 0 <= k <= w
    ensures LastN(LastN(s, w), k) == LastN(s, k)
  {
  }

  /** The records of the parsed lines, made safe, in file order; malformed lines skipped. */
  function Readable(ls: seq<Option<Json>>): (r: seq<Json>)
    ensures |r| <= |ls|
  {
    if ls == [] then []
    else
      var rest := Readable(ls[..|ls| - 1]);
      match ls[|ls| - 1]
      case None => rest
      case Some(rec) => rest + [Safe(rec)]
  }

  /** Every record `telemetry_recent` answers is safe. */
  lemma {:induction false} ReadableClean(ls: seq<Option<Json>>)
    ensures forall x :: x in Readable(ls) ==> Clean(Secrets, x) && Clean(Pii, x)
  {
    if ls != [] {
      ReadableClean(ls[..|ls| - 1]);
      if ls[|ls| - 1].Some? {
        SafeClean(ls[|ls| - 1].value);
      }
    }
  }

  /** The filters of `telemetry_query`; None switches a filter off. */
  datatype Filter = Filter(clientId: Option<string>, subjectHash: Option<string>, tool: Option<string>,
                           toolPrefix: Option<string>, purpose: Option<string>, ok: Option<bool>,
                           errorCode: Option<string>)

  /** `(rec.get("args") or {}).get(k)`, None when the arguments are not a dict. */
  function RecordArg(rec: Json, k: string): Json {
    Get(OrElse(GetOr(rec, "args", JNull), JObj([])), k).GetOr(JNull)
  }

  /** The record passes every filter that is set. */
  predicate Admits(f: Filter, rec: Json) {
    (f.clientId.None? || Get(rec, "client_id") == Some(JStr(f.clientId.value))) &&
    (f.subjectHash.None? || Get(rec, "subject_hash") == Some(JStr(f.subjectHash.value))) &&
    (f.tool.None? || Get(rec, "name") == Some(JStr(f.tool.value))) &&
    (f.toolPrefix.None? || (Get(rec, "name").Some? && Get(rec, "name").value.JStr? &&
                            StartsWith(Get(rec, "name").value.s, f.toolPrefix.value))) &&
    (f.purpose.None? || OrElse(RecordArg(rec, "purpose"), JStr("")) == JStr(f.purpose.value)) &&
    (f.ok.None? || Truthy(GetOr(rec, "ok", JNull)) == f.ok.value) &&
    (f.errorCode.None? || Get(RecordArg(rec, "error"), "code") == Some(JStr(f.errorCode.value)))
  }

  /** `_parse_ts` on a field value: only a non-empty string is parsed. */
  function TsOf(v: Json, parseTs: string -> Option<int>): Option<int> {
    if v.JStr? && v.s != [] then parseTs(v.s) else None
  }

  /** The lower time bound: `now - max(0, int(lookback))` (0 when `int` fails) and the
      parsed `since_ts`; with both, the later one. */
  function Since(now: int, lookback: Option<Json>, sinceTs: Option<string>, parseTs: string -> Option<int>): (r: Option<int>)
    ensures lookback.Some? ==> r.Some? && r.value >= now - (if CoerceInt(lookback.value).GetOr(0) > 0 then CoerceInt(lookback.value).GetOr(0) else 0)
    ensures sinceTs.Some? && TsOf(JStr(sinceTs.value), parseTs).Some? ==> r.Some? && r.value >= TsOf(JStr(sinceTs.value), parseTs).value
    ensures r.Some? ==> (lookback.Some? && r.value == now - (if CoerceInt(lookback.value).GetOr(0) > 0 then CoerceInt(lookback.value).GetOr(0) else 0)) ||
                        (sinceTs.Some? && Some(r.value) == TsOf(JStr(sinceTs.value), parseTs))
  {
    var a := if lookback.None? then None
             else var lb := CoerceInt(lookback.value).GetOr(0); Some(now - (if lb > 0 then lb else 0));
    var b := if sinceTs.None? then None else TsOf(JStr(sinceTs.value), parseTs);
    if b.None? then a
    else if a.None? then b
    else Some(if a.value >= b.value then a.value else b.value)
  }

  /** A record stamped before the bound, where the scan stops. */
  predicate TooOld(since: Option<int>, parseTs: string -> Option<int>, rec: Json) {
    since.Some? && TsOf(GetOr(rec, "ts", JNull), parseTs).Some? && TsOf(GetOr(rec, "ts", JNull), parseTs).value < since.value
  }

  function Prepend(m: seq<Json>, r: Result<seq<Json>, string>): Result<seq<Json>, string> {
    match r
    case Success(x) => Success(m + x)
    case Failure(e) => Failure(e)
  }

  lemma PrependEmpty(r: Result<seq<Json>, string>)
    ensures Prepend([], r) == r
  {
    if r.Success? {
      assert [] + r.value == r.value;
    }
  }

  lemma PrependAssoc(m: seq<Json>, y: seq<Json>, r: Result<seq<Json>, string>)
    ensures Prepend(m, Prepend(y, r)) == Prepend(m + y, r)
  {
    if r.Success? {
      assert m + (y + r.value) == (m + y) + r.value;
    }
  }

  /** What the query does with one line: skip it, stop the scan (a record older than the
      bound), raise (a line that decodes to something other than a dict, whose `.get`
      fails), or take the record made safe. */
  datatype Action = Skip | Stop | Raise | Take(x: Json)

  function Step(line: Option<Json>, since: Option<int>, f: Filter, parseTs: string -> Option<int>): Action {
    match line
    case None => Skip
    case Some(rec) =>
      if !rec.JObj? then Raise
      else if TooOld(since, parseTs, rec) then Stop
      else if Admits(f, rec) then Take(Safe(rec))
      else Skip
  }

  /** The scan of `telemetry_query`, newest line first, collecting at most `budget`
      matches (newest first). */
  function Scan(ls: seq<Option<Json>>, since: Option<int>, f: Filter, parseTs: string -> Option<int>, budget: nat): (r: Result<seq<Json>, string>)
    requires budget >= 1
    ensures r.Success? ==> |r.value| <= budget
    decreases |ls|
  {
    if ls == [] then Success([])
    else
      var init := ls[..|ls| - 1];
      match Step(ls[|ls| - 1], since, f, parseTs)
      case Skip => Scan(init, since, f, parseTs, budget)
      case Raise => Failure("record is not an object")
      case Stop => Success([])
      case Take(x) => if budget == 1 then Success([x]) else Prepend([x], Scan(init, since, f, parseTs, budget - 1))
  }

  /** `Scan` on a prefix, unfolded once. */
  lemma ScanLast(ls: seq<Option<Json>>, i: int, since: Option<int>, f: Filter, parseTs: string -> Option<int>, budget: nat)
    requires 0 < i <= |ls| && budget >= 1
    ensures Scan(ls[..i], since, f, parseTs, budget) ==
      match Step(ls[i - 1], since, f, parseTs)
      case Skip => Scan(ls[..i - 1], since, f, parseTs, budget)
      case Raise => Failure("record is not an object")
      case Stop => Success([])
      case Take(x) => if budget == 1 then Success([x]) else Prepend([x], Scan(ls[..i - 1], since, f, parseTs, budget - 1))
  {
    assert ls[..i][..i - 1] == ls[..i - 1];
  }

  /** Every record the query answers is safe. */
  lemma {:induction false} ScanClean(ls: seq<Option<Json>>, since: Option<int>, f: Filter, parseTs: string -> Option<int>, budget: nat)
    requires budget >= 1
    ensures var r := Scan(ls, since, f, parseTs, budget);
      r.Success? ==> forall x :: x in r.value ==> Clean(Secrets, x) && Clean(Pii, x)
    decreases |ls|
  {
    if ls != [] {
      var init := ls[..|ls| - 1];
      match Step(ls[|ls| - 1], since, f, parseTs)
      case Skip => ScanClean(init, since, f, parseTs, budget);
      case Raise =>
      case Stop =>
      case Take(x) =>
        SafeClean(ls[|ls| - 1].value);
        if budget > 1 {
          ScanClean(init, since, f, parseTs, budget - 1);
        }
    }
  }

  /** Every admitted record of the lines, made safe, in file order: the reference the
      query is compared with. */
  function Admitted(ls: seq<Option<Json>>, f: Filter): seq<Json> {
    if ls == [] then []
    else
      var rest := Admitted(ls[..|ls| - 1], f);
      match ls[|ls| - 1]
      case Some(rec) => if Admits(f, rec) then rest + [Safe(rec)] else rest
      case None => rest
  }

  /** Where the scan's window starts: just after the newest record older than the bound. */
  function Cut(ls: seq<Option<Json>>, since: Option<int>, parseTs: string -> Option<int>): (c: nat)
    ensures c <= |ls|
  {
    if ls == [] then 0
    else match ls[|ls| - 1]
      case Some(rec) => if TooOld(since, parseTs, rec) then |ls| else Cut(ls[..|ls| - 1], since, parseTs)
      case None => Cut(ls[..|ls| - 1], since, parseTs)
  }

  function Reverse<T>(s: seq<T>): (r: seq<T>)
    ensures |r| == |s|
    ensures forall i :: 0 <= i < |s| ==> r[i] == s[|s| - 1 - i]
  {
    if s == [] then [] else [s[|s| - 1]] + Reverse(s[..|s| - 1])
  }

  predicate AllObjects(ls: seq<Option<Json>>) {
    forall i :: 0 <= i < |ls| && ls[i].Some? ==> ls[i].value.JObj?
  }

  lemma AdmittedSnoc(ls: seq<Option<Json>>, c: nat, f: Filter)
    requires ls != [] && c < |ls|
    ensures Admitted(ls[c..], f) ==
      if ls[|ls| - 1].Some? && Admits(f, ls[|ls| - 1].value) then Admitted(ls[c..|ls| - 1], f) + [Safe(ls[|ls| - 1].value)]
      else Admitted(ls[c..|ls| - 1], f)
  {
    var w := ls[c..];
    assert w[..|w| - 1] == ls[c..|ls| - 1];
    assert w[|w| - 1] == ls[|ls| - 1];
  }

  /** How one more line moves the cut and the admitted records: a record older than the
      bound moves the cut past everything; any other line adds what it takes. */
  lemma StepFacts(ls: seq<Option<Json>>, since: Option<int>, f: Filter, parseTs: string -> Option<int>)
    requires ls != [] && AllObjects(ls)
    ensures var init := ls[..|ls| - 1];
      var a := Step(ls[|ls| - 1], since, f, parseTs);
      !a.Raise? &&
      (a.Stop? ==> Cut(ls, since, parseTs) == |ls|) &&
      (!a.Stop? ==> (Cut(ls, since, parseTs) == Cut(init, since, parseTs) &&
                     Admitted(ls[Cut(ls, since, parseTs)..], f) ==
                     (if a.Take? then Admitted(init[Cut(init, since, parseTs)..], f) + [a.x]
                      else Admitted(init[Cut(init, since, parseTs)..], f))))
  {
    var init := ls[..|ls| - 1];
    var last := ls[|ls| - 1];
    assert last.Some? ==> last.value.JObj?;
    var c := Cut(ls, since, parseTs);
    if !(last.Some? && TooOld(since, parseTs, last.value)) {
      AdmittedSnoc(ls, c, f);
      assert ls[c..|ls| - 1] == init[c..];
    }
  }

  /** When every line is a dict or malformed, the scan answers the newest `budget` admitted
      records after the cut, newest first. */
  lemma {:induction false} ScanIsNewestAdmitted(ls: seq<Option<Json>>, since: Option<int>, f: Filter, parseTs: string -> Option<int>, budget: nat)
    requires budget >= 1 && AllObjects(ls)
    ensures Scan(ls, since, f, parseTs, budget) == Success(Reverse(LastN(Admitted(ls[Cut(ls, since, parseTs)..], f), budget)))
    decreases |ls|
  {
    if ls != [] {
      var init := ls[..|ls| - 1];
      assert AllObjects(init);
      var a := Step(ls[|ls| - 1], since, f, parseTs);
      if a.Skip? {
        ScanIsNewestAdmitted(init, since, f, parseTs, budget);
      } else if a.Take? && budget > 1 {
        ScanIsNewestAdmitted(init, since, f, parseTs, budget - 1);
      }
      match a {
        case Raise => StepFacts(ls, since, f, parseTs);
        case Stop => ScanStop(ls, since, f, parseTs, budget);
        case Skip => ScanSkip(ls, since, f, parseTs, budget);
        case Take(x) => ScanTake(ls, since, f, parseTs, budget, x);
      }
    }
  }

  lemma ScanStop(ls: seq<Option<Json>>, since: Option<int>, f: Filter, parseTs: string -> Option<int>, budget: nat)
    requires budget >= 1 && ls != [] && AllObjects(ls)
    requires Step(ls[|ls| - 1], since, f, parseTs).Stop?
    ensures Scan(ls, since, f, parseTs, budget) == Success(Reverse(LastN(Admitted(ls[Cut(ls, since, parseTs)..], f), budget)))
  {
    StepFacts(ls, since, f, parseTs);
    assert ls[|ls|..] == [];
  }

  lemma ScanSkip(ls: seq<Option<Json>>, since: Option<int>, f: Filter, parseTs: string -> Option<int>, budget: nat)
    requires budget >= 1 && ls != [] && AllObjects(ls)
    requires Step(ls[|ls| - 1], since, f, parseTs).Skip?
    requires var init := ls[..|ls| - 1];
      Scan(init, since, f, parseTs, budget) == Success(Reverse(LastN(Admitted(init[Cut(init, since, parseTs)..], f), budget)))
    ensures Scan(ls, since, f, parseTs, budget) == Success(Reverse(LastN(Admitted(ls[Cut(ls, since, parseTs)..], f), budget)))
  {
    var init := ls[..|ls| - 1];
    StepFacts(ls, since, f, parseTs);
    assert Scan(ls, since, f, parseTs, budget) == Scan(init, since, f, parseTs, budget);
  }

  lemma ScanTake(ls: seq<Option<Json>>, since: Option<int>, f: Filter, parseTs: string -> Option<int>, budget: nat, x: Json)
    requires budget >= 1 && ls != [] && AllObjects(ls)
    requires Step(ls[|ls| - 1], since, f, parseTs) == Take(x)
    requires var init := ls[..|ls| - 1];
      budget > 1 ==>
      Scan(init, since, f, parseTs, budget - 1) == Success(Reverse(LastN(Admitted(init[Cut(init, since, parseTs)..], f), budget - 1)))
    ensures Scan(ls, since, f, parseTs, budget) == Success(Reverse(LastN(Admitted(ls[Cut(ls, since, parseTs)..], f), budget)))
  {
    var init := ls[..|ls| - 1];
    StepFacts(ls, since, f, parseTs);
    var a := Admitted(init[Cut(init, since, parseTs)..], f);
    assert Admitted(ls[Cut(ls, since, parseTs)..], f) == a + [x];
    var t := LastN(a, budget - 1);
    LastNSnoc(a, x, budget);
    ReverseSnoc(t, x);
    var goal := [x] + Reverse(t);
    assert Reverse(LastN(a + [x], budget)) == goal;
    if budget > 1 {
      assert Scan(ls, since, f, parseTs, budget) == Prepend([x], Scan(init, since, f, parseTs, budget - 1));
    } else {
      assert t == [];
      assert goal == [x];
      assert Scan(ls, since, f, parseTs, budget) == Success([x]);
    }
  }

  lemma LastNSnoc<T>(a: seq<T>, x: T, k: int)
    requires k >= 1
    ensures LastN(a + [x], k) == LastN(a, k - 1) + [x]
  {
  }

  lemma ReverseSnoc<T>(t: seq<T>, x: T)
    ensures Reverse(t + [x]) == [x] + Reverse(t)
  {
    assert (t + [x])[..|t|] == t;
  }

  lemma ReverseReverse<T>(s: seq<T>)
    ensures Reverse(Reverse(s)) == s
  {
  }

  /** The telemetry file: whether it exists and its lines, with the configuration read at
      import time (the disable flag and the subject salt) and the digest used for hashing. */
  class TelemetryFile {
    var present: bool
    var lines: seq<Option<Json>>
    const disabled: bool
    const salt: string
    const digest: string -> string

    constructor (present: bool, lines: seq<Option<Json>>, disabled: bool, salt: string, digest: string -> string)
      ensures this.present == present && this.lines == lines
      ensures this.disabled == disabled && this.salt == salt && this.digest == digest
    {
      this.present := present;
      this.lines := lines;
      this.disabled := disabled;
      this.salt := salt;
      this.digest := digest;
    }

    /** `log_event`: nothing when disabled, otherwise the safe record appended (creating
        the file). The timestamp and the current request id are parameters. */
    method LogEvent(ts: string, kind: string, name: string, args: Option<Fields>, ok: bool, ms: int,
                    clientId: Option<string>, corrId: Option<string>, rid: Option<string>)
      modifies this
      ensures disabled ==> present == old(present) && lines == old(lines)
      ensures !disabled ==> present && lines == old(lines) + [Some(EventRecord(ts, kind, name, args, ok, ms, clientId, corrId, rid, salt, digest))]
    {
      if disabled {
        return;
      }
      var rec := EventRecord(ts, kind, name, args, ok, ms, clientId, corrId, rid, salt, digest);
      lines := lines + [Some(rec)];
      present := true;
    }

    /** `telemetry_recent(n)`: the last n lines (n clamped), parsed and made safe. The tail
        window it reads first is at least 500 lines, so it never cuts into those n. */
    method Recent(n: Json) returns (r: seq<Json>)
      ensures !present ==> r == []
      ensures present ==> r == Readable(LastN(lines, ClampN(n)))
      ensures |r| <= ClampN(n)
    {
      if !present {
        return [];
      }
      var k := ClampN(n);
      var window := LastN(lines, if 500 >= k * 5 then 500 else k * 5);
      var tail := LastN(window, k);
      LastNOfLastN(lines, if 500 >= k * 5 then 500 else k * 5, k);
      r := [];
      var i := 0;
      while i < |tail|
        invariant 0 <= i <= |tail|
        invariant r == Readable(tail[..i])
      {
        assert tail[..i + 1][..i] == tail[..i];
        if tail[i].Some? {
          r := r + [Safe(tail[i].value)];
        }
        i := i + 1;
      }
      assert tail[..|tail|] == tail;
    }

    /** `telemetry_query`: the last 5000 lines scanned newest first (see `Collect`). */
    method Query(n: Json, lookback: Option<Json>, sinceTs: Option<string>, f: Filter, now: int, parseTs: string -> Option<int>)
      returns (r: Result<seq<Json>, string>)
      ensures !present ==> r == Success([])
      ensures present ==> r == Oldest(Scan(LastN(lines, 5000), Since(now, lookback, sinceTs, parseTs), f, parseTs, ClampN(n)))
    {
      if !present {
        return Success([]);
      }
      r := Collect(LastN(lines, 5000), Since(now, lookback, sinceTs, parseTs), f, parseTs, ClampN(n));
    }
  }

  /** The scan's matches put back in file order. */
  function Oldest(s: Result<seq<Json>, string>): Result<seq<Json>, string> {
    if s.Success? then Success(Reverse(s.value)) else Failure(s.error)
  }

  /** The invariant of `Collect`'s loop: the scan of the whole window is the matches
      gathered so far followed by the scan of the lines not yet read, with what is left of
      the budget. */
  predicate CollectInv(window: seq<Option<Json>>, i: int, since: Option<int>, f: Filter, parseTs: string -> Option<int>, matches: seq<Json>, k: nat)
  {
    0 <= i <= |window| && |matches| < k &&
    Scan(window, since, f, parseTs, k) == Prepend(matches, Scan(window[..i], since, f, parseTs, k - |matches|))
  }

  /** One turn of `Collect`'s loop, one lemma per kind of line `window[i - 1]`. */
  lemma CollectSkip(window: seq<Option<Json>>, i: int, since: Option<int>, f: Filter, parseTs: string -> Option<int>, matches: seq<Json>, k: nat)
    requires CollectInv(window, i, since, f, parseTs, matches, k) && i > 0
    requires Step(window[i - 1], since, f, parseTs).Skip?
    ensures CollectInv(window, i - 1, since, f, parseTs, matches, k)
  {
    ScanLast(window, i, since, f, parseTs, k - |matches|);
  }

  lemma CollectStop(window: seq<Option<Json>>, i: int, since: Option<int>, f: Filter, parseTs: string -> Option<int>, matches: seq<Json>, k: nat)
    requires CollectInv(window, i, since, f, parseTs, matches, k) && i > 0
    requires Step(window[i - 1], since, f, parseTs).Stop?
    ensures Oldest(Scan(window, since, f, parseTs, k)) == Success(Reverse(matches))
  {
    ScanLast(window, i, since, f, parseTs, k - |matches|);
    assert Scan(window[..i], since, f, parseTs, k - |matches|) == Success([]);
    assert matches + [] == matches;
  }

  lemma CollectRaise(window: seq<Option<Json>>, i: int, since: Option<int>, f: Filter, parseTs: string -> Option<int>, matches: seq<Json>, k: nat)
    requires CollectInv(window, i, since, f, parseTs, matches, k) && i > 0
    requires Step(window[i - 1], since, f, parseTs).Raise?
    ensures Oldest(Scan(window, since, f, parseTs, k)) == Failure("record is not an object")
  {
    ScanLast(window, i, since, f, parseTs, k - |matches|);
    assert Scan(window[..i], since, f, parseTs, k - |matches|) == Failure("record is not an object");
    assert Scan(window, since, f, parseTs, k) == Failure("record is not an object");
  }

  lemma CollectTake(window: seq<Option<Json>>, i: int, since: Option<int>, f: Filter, parseTs: string -> Option<int>, matches: seq<Json>, k: nat, x: Json)
    requires CollectInv(window, i, since, f, parseTs, matches, k) && i > 0 && |matches| + 1 < k
    requires Step(window[i - 1], since, f, parseTs) == Take(x)
    ensures CollectInv(window, i - 1, since, f, parseTs, matches + [x], k)
  {
    var b := k - |matches|;
    var rest := Scan(window[..i - 1], since, f, parseTs, b - 1);
    ScanLast(window, i, since, f, parseTs, b);
    assert Scan(window[..i], since, f, parseTs, b) == Prepend([x], rest);
    PrependAssoc(matches, [x], rest);
  }

  lemma CollectLast(window: seq<Option<Json>>, i: int, since: Option<int>, f: Filter, parseTs: string -> Option<int>, matches: seq<Json>, k: nat, x: Json)
    requires CollectInv(window, i, since, f, parseTs, matches, k) && i > 0 && |matches| + 1 == k
    requires Step(window[i - 1], since, f, parseTs) == Take(x)
    ensures Oldest(Scan(window, since, f, parseTs, k)) == Success(Reverse(matches + [x]))
  {
    ScanLast(window, i, since, f, parseTs, 1);
    assert Scan(window[..i], since, f, parseTs, 1) == Success([x]);
    assert Scan(window, since, f, parseTs, k) == Success(matches + [x]);
  }

  /** Before the loop: nothing gathered, nothing read. */
  lemma CollectStart(window: seq<Option<Json>>, since: Option<int>, f: Filter, parseTs: string -> Option<int>, k: nat)
    requires k >= 1
    ensures CollectInv(window, |window|, since, f, parseTs, [], k)
  {
    var s := Scan(window, since, f, parseTs, k);
    assert window[..|window|] == window;
    assert Scan(window[..|window|], since, f, parseTs, k - 0) == s;
    PrependEmpty(s);
  }

  /** After the loop, when every line was read. */
  lemma CollectDone(window: seq<Option<Json>>, since: Option<int>, f: Filter, parseTs: string -> Option<int>, matches: seq<Json>, k: nat)
    requires CollectInv(window, 0, since, f, parseTs, matches, k)
    ensures Oldest(Scan(window, since, f, parseTs, k)) == Success(Reverse(matches))
  {
    assert window[..0] == [];
    assert Scan(window[..0], since, f, parseTs, k - |matches|) == Success([]);
    assert matches + [] == matches;
  }

  /** The loop of `telemetry_query`: lines newest first, matches appended until there are
      `k`, then reversed to oldest first. */
  method Collect(window: seq<Option<Json>>, since: Option<int>, f: Filter, parseTs: string -> Option<int>, k: nat)
    returns (r: Result<seq<Json>, string>)
    requires k >= 1
    ensures r == Oldest(Scan(window, since, f, parseTs, k))
  {
    var matches: seq<Json> := [];
    var i := |window|;
    CollectStart(window, since, f, parseTs, k);
    while i > 0
      invariant CollectInv(window, i, since, f, parseTs, matches, k)
    {
      match Step(window[i - 1], since, f, parseTs) {
        case Skip =>
          CollectSkip(window, i, since, f, parseTs, matches, k);
        case Raise =>
          CollectRaise(window, i, since, f, parseTs, matches, k);
          return Failure("record is not an object");
        case Stop =>
          CollectStop(window, i, since, f, parseTs, matches, k);
          return Success(Reverse(matches));
        case Take(x) =>
          if |matches| + 1 == k {
            CollectLast(window, i, since, f, parseTs, matches, k, x);
            return Success(Reverse(matches + [x]));
          }
          CollectTake(window, i, since, f, parseTs, matches, k, x);
          matches := matches + [x];
      }
      i := i - 1;
    }
    CollectDone(window, since, f, parseTs, matches, k);
    r := Success(Reverse(matches));
  }

  /** When every line of the window is a dict or malformed, the query answers the newest
      `ClampN(n)` admitted records after the time cut, oldest first. */
  lemma QueryIsNewestAdmitted(lines: seq<Option<Json>>, since: Option<int>, f: Filter, parseTs: string -> Option<int>, n: Json)
    requires AllObjects(LastN(lines, 5000))
    ensures var w := LastN(lines, 5000);
      Oldest(Scan(w, since, f, parseTs, ClampN(n))) == Success(LastN(Admitted(w[Cut(w, since, parseTs)..], f), ClampN(n)))
  {
    var w := LastN(lines, 5000);
    ScanIsNewestAdmitted(w, since, f, parseTs, ClampN(n));
    ReverseReverse(LastN(Admitted(w[Cut(w, since, parseTs)..], f), ClampN(n)));
  }
}
