/** The diabetes runner of `hdt_models/HDT_DIABETES_model.py`: the storage file is loaded
    leniently, the trivia and SugarVita tool answers are unwrapped and their metrics
    extracted, and a user whose two metric sets are both present gets exactly one new entry in
    the storage document. The scores inside an entry come from `HDT_DIABETES_calculations.py`,
    which is not part of this model: they, the time stamp and the file system are parameters. */
module Diabetes {
  import opened Wrappers
  import opened Text
  import opened JsonValues
  import Governor

  // ---------------------------------------------------------------------------------------
  // load_json

  /** The storage file: missing, or present with its text and what `json.loads` makes of the
      stripped text (None when it rejects it). */
  datatype StoredFile = Missing | Present(content: string, parsed: Option<Json>)

  const EmptyStorage: Json := JObj([("users", JObj([]))])

  /** A storage document has a "users" dict. */
  predicate WellFormed(doc: Json) {
    doc.JObj? && Get(doc, "users").Some? && Get(doc, "users").value.JObj?
  }

  /** `load_json(path)`: a missing, blank, undecodable or user-less file starts fresh; a
      "users" that is not a dict is replaced by an empty one; otherwise the document as read. */
  function LoadJson(f: StoredFile): (r: Json)
    ensures WellFormed(r)
    ensures f.Missing? || Strip(f.content) == [] || f.parsed.None? ==> r == EmptyStorage
    ensures f.Present? && Strip(f.content) != [] && f.parsed.Some? && WellFormed(f.parsed.value) ==> r == f.parsed.value
    ensures f.Present? && Strip(f.content) != [] && f.parsed.Some? && f.parsed.value.JObj? && HasKey(f.parsed.value, "users") ==>
      forall k :: k != "users" ==> Get(r, k) == Get(f.parsed.value, k)
  {
    LookupAt(EmptyStorage.fields, 0);
    if f.Missing? || Strip(f.content) == [] || f.parsed.None? then EmptyStorage
    else
      var data := f.parsed.value;
      if !data.JObj? || !HasKey(data, "users") then EmptyStorage
      else if !Get(data, "users").value.JObj? then JObj(Put(data.fields, "users", JObj([])))
      else data
  }

  // ---------------------------------------------------------------------------------------
  // Tool answers

  /** One item of an MCP answer's `content`: a dict, an object with a `text` attribute, or
      something else. */
  datatype Part = DictPart(d: Json) | TextPart(text: Json) | OtherPart(value: Json)

  /** An MCP tool answer: with a `content` attribute, or a plain value without one. */
  datatype ToolResult = WithContent(content: seq<Part>) | Bare(value: Json)

  /** What `_unwrap_tool_result` gives: a value, or the answer object itself. */
  datatype Unwrapped = Value(j: Json) | AnswerObject

  /** `_unwrap_tool_result(res)`: the first content item's text, or the item itself; the
      answer itself when it has no content. */
  function UnwrapToolResult(res: ToolResult): (r: Unwrapped)
    ensures res.Bare? ==> r == Value(res.value)
    ensures res.WithContent? && res.content != [] && res.content[0].TextPart? ==> r == Value(res.content[0].text)
    ensures res.WithContent? && res.content == [] ==> r == AnswerObject
  {
    match res
    case Bare(v) => Value(v)
    case WithContent(content) =>
      if content == [] then AnswerObject
      else
        match content[0]
        case DictPart(d) => if HasKey(d, "text") then Value(Get(d, "text").value) else Value(d)
        case TextPart(t) => Value(t)
        case OtherPart(v) => Value(v)
  }

  /** The payload `fetch_user_data_via_mcp` keeps for one tool: the decoded answer when it is
      a dict, else a "bad_shape" error envelope (the answer object itself, not being JSON, is
      recorded as null under "raw"). */
  function ToolPayload(res: ToolResult, decoded: map<string, Json>, what: string): (p: Json)
    ensures p.JObj?
    ensures UnwrapToolResult(res).Value? && Governor.AsJson(UnwrapToolResult(res).j, decoded).JObj? ==>
      p == Governor.AsJson(UnwrapToolResult(res).j, decoded)
    ensures HasKey(p, "error") || (UnwrapToolResult(res).Value? && p == Governor.AsJson(UnwrapToolResult(res).j, decoded))
  {
    var u := UnwrapToolResult(res);
    var x := if u.Value? then Governor.AsJson(u.j, decoded) else JNull;
    if u.Value? && x.JObj? then x
    else
      var err := JObj([("code", JStr("bad_shape")), ("message", JStr(what + " tool did not return dict"))]);
      var fs := [("error", err), ("raw", x)];
      LookupAt(fs, 0);
      JObj(fs)
  }

  // ---------------------------------------------------------------------------------------
  // _extract_metrics

  datatype Kind = Trivia | SugarVita

  function ResultsKey(kind: Kind): string {
    if kind == Trivia then "trivia_results" else "sugarvita_results"
  }

  /** `_extract_metrics(payload, kind=...)`: None for a non-dict, an error envelope or a
      non-dict "data"; the older nested results dict when there is one; otherwise "data". */
  function ExtractMetrics(payload: Json, kind: Kind): (r: Option<Json>)
    ensures !payload.JObj? || HasKey(payload, "error") ==> r.None?
    ensures r.Some? ==> r.value.JObj?
    ensures r.Some? ==> var data := GetOr(payload, "data", JNull);
      r.value == data || (HasKey(data, ResultsKey(kind)) && r.value == Get(data, ResultsKey(kind)).value)
    ensures payload.JObj? && !HasKey(payload, "error") && !GetOr(payload, "data", JNull).JObj? ==> r.None?
    ensures payload.JObj? && !HasKey(payload, "error") && GetOr(payload, "data", JNull).JObj? ==>
      var nested := Get(GetOr(payload, "data", JNull), ResultsKey(kind));
      !(nested.Some? && nested.value.JObj?) ==> r == Some(GetOr(payload, "data", JNull))
  {
    if !payload.JObj? || HasKey(payload, "error") then None
    else
      var data := GetOr(payload, "data", JNull);
      if !data.JObj? then None
      else
        var nested := Get(data, ResultsKey(kind));
        if nested.Some? && nested.value.JObj? then nested else Some(data)
  }

  /** A nested results dict is preferred; the other kind's nested dict is not looked at. */
  lemma ExtractPrefersNested(fs: Fields, data: Fields, inner: Fields, kind: Kind)
    requires Lookup(fs, "error").None? && Lookup(fs, "data") == Some(JObj(data))
    requires Lookup(data, ResultsKey(kind)) == Some(JObj(inner))
    ensures ExtractMetrics(JObj(fs), kind) == Some(JObj(inner))
    ensures var other := if kind == Trivia then SugarVita else Trivia;
      Lookup(data, ResultsKey(other)).None? ==> ExtractMetrics(JObj(fs), other) == Some(JObj(data))
  {
  }

  /** A bad_shape envelope never yields metrics. */
  lemma BadShapeHasNoMetrics(res: ToolResult, decoded: map<string, Json>, what: string, kind: Kind)
    requires UnwrapToolResult(res).AnswerObject?
    ensures ExtractMetrics(ToolPayload(res, decoded, what), kind).None?
  {
  }

  // ---------------------------------------------------------------------------------------
  // process_user

  /** The source fields of a tool payload kept for audit. */
  function InputsOf(payload: Json): Json {
    JObj([("source", GetOr(payload, "source", JNull)), ("latest_activity", GetOr(payload, "latest_activity", JNull)),
          ("provenance", GetOr(payload, "provenance", JNull))])
  }

  /** The entry appended for a processed user: the time stamp, the scores and the metric
      overviews (all computed outside this model), and the inputs of both payloads. */
  function Entry(date: string, finalScores: Json, overviews: Json, trivia: Json, sugar: Json): Json {
    JObj([("date", JStr(date)), ("final_scores", finalScores), ("metrics_overviews", overviews),
          ("inputs", JObj([("trivia", InputsOf(trivia)), ("sugarvita", InputsOf(sugar))]))])
  }

  /** The entries of a user in a storage document: none yet when the user has no bucket, and
      None when the document is not shaped for storing. */
  function EntriesOf(doc: Fields, uid: string): Option<seq<Json>> {
    var users := Lookup(doc, "users");
    if users.None? || !users.value.JObj? then None
    else
      var bucket := Lookup(users.value.fields, uid);
      if bucket.None? then Some([])
      else if !bucket.value.JObj? then None
      else
        var entries := Lookup(bucket.value.fields, "entries");
        if entries.None? || !entries.value.JList? then None else Some(entries.value.items)
  }

  /** `users.setdefault(str(user_id), {"entries": []})["entries"].append(entry)` on the document
      (creating "users" when missing); the errors of a malformed document are those Python
      raises, and leave the document as it was. */
  function Stored(doc: Fields, uid: string, entry: Json): (r: Result<Fields, string>)
    ensures r.Success? <==> EntriesOf(doc, uid).Some? || Lookup(doc, "users").None?
  {
    var users := Lookup(doc, "users").GetOr(JObj([]));
    if !users.JObj? then Failure("AttributeError")
    else
      var bucket := Lookup(users.fields, uid).GetOr(JObj([("entries", JList([]))]));
      if !bucket.JObj? then Failure("TypeError")
      else
        var entries := Lookup(bucket.fields, "entries");
        if entries.None? then
          (assert Lookup(users.fields, uid).Some?; Failure("KeyError"))
        else if !entries.value.JList? then Failure("AttributeError")
        else
          var newBucket := Put(bucket.fields, "entries", JList(entries.value.items + [entry]));
          Success(Put(doc, "users", JObj(Put(users.fields, uid, JObj(newBucket)))))
  }

  /** Storing appends exactly one entry to that user's entries and changes no other user and no
      other key of the document. */
  lemma StoredAppendsOne(doc: Fields, uid: string, entry: Json)
    requires Stored(doc, uid, entry).Success?
    ensures var d := Stored(doc, uid, entry).value;
      EntriesOf(d, uid) == Some(EntriesOf(doc, uid).GetOr([]) + [entry])
    ensures var d := Stored(doc, uid, entry).value;
      forall k :: k != "users" ==> Lookup(d, k) == Lookup(doc, k)
    ensures var d := Stored(doc, uid, entry).value;
      forall other :: other != uid && Lookup(doc, "users").Some? ==>
        Lookup(Lookup(d, "users").value.fields, other) == Lookup(Lookup(doc, "users").value.fields, other)
  {
    var users := Lookup(doc, "users").GetOr(JObj([]));
    var bucket := Lookup(users.fields, uid).GetOr(JObj([("entries", JList([]))]));
    if Lookup(users.fields, uid).None? {
      LookupAt(bucket.fields, 0);
    }
  }

  /** A user not yet in a loaded document can always be stored. */
  lemma NewUserStored(f: StoredFile, uid: string, entry: Json)
    requires Lookup(LoadJson(f).fields, "users").Some?
    requires Lookup(Lookup(LoadJson(f).fields, "users").value.fields, uid).None?
    ensures Stored(LoadJson(f).fields, uid, entry).Success?
  {
  }

  /** The storage document the runner updates in place. */
  class Storage {
    var doc: Fields

    constructor (f: StoredFile)
      ensures doc == LoadJson(f).fields
    {
      doc := LoadJson(f).fields;
    }

    /** `process_user(storage_data, user_id=..., trivia_payload=..., sugarvita_payload=...)`:
        False, and the document untouched, when either metrics set is missing; otherwise the
        entry is appended and True returned. */
    method ProcessUser(userId: int, trivia: Json, sugar: Json, date: string, finalScores: Json, overviews: Json)
      returns (ok: Result<bool, string>)
      modifies this
      ensures ExtractMetrics(trivia, Trivia).None? || ExtractMetrics(sugar, SugarVita).None? ==>
        ok == Success(false) && doc == old(doc)
      ensures ExtractMetrics(trivia, Trivia).Some? && ExtractMetrics(sugar, SugarVita).Some? ==>
        var s := Stored(old(doc), IntToString(userId), Entry(date, finalScores, overviews, trivia, sugar));
        (s.Success? ==> ok == Success(true) && doc == s.value) &&
        (s.Failure? ==> ok == Failure(s.error) && doc == old(doc))
    {
      var triviaMetrics := ExtractMetrics(trivia, Trivia);
      var sugarMetrics := ExtractMetrics(sugar, SugarVita);
      if triviaMetrics.None? || sugarMetrics.None? {
        return Success(false);
      }
      var entry := Entry(date, finalScores, overviews, trivia, sugar);
      var s := Stored(doc, IntToString(userId), entry);
      if s.Failure? {
        return Failure(s.error);
      }
      doc := s.value;
      ok := Success(true);
    }
  }

  // ---------------------------------------------------------------------------------------
  // _parse_user_ids

  /** The ids of the comma-separated parts, blank parts skipped; a part that is not an
      integer is the ValueError. */
  function UserIds(parts: seq<string>): (r: Result<seq<int>, string>)
    ensures r.Success? ==> |r.value| <= |parts|
    decreases |parts|
  {
    if parts == [] then Success([])
    else
      var prev := UserIds(parts[..|parts| - 1]);
      var part := Strip(parts[|parts| - 1]);
      if prev.Failure? then prev
      else if part == [] then prev
      else
        var id := ParseInt(part);
        if id.None? then Failure("ValueError") else Success(prev.value + [id.value])
  }

  /** Every id comes from a non-blank part, and every non-blank part gives one. */
  lemma UserIdsMembers(parts: seq<string>, x: int)
    requires UserIds(parts).Success?
    ensures x in UserIds(parts).value <==>
      exists i :: 0 <= i < |parts| && Strip(parts[i]) != [] && ParseInt(Strip(parts[i])) == Some(x)
  {
    if x in UserIds(parts).value {
      IdHasPart(parts, x);
    }
    if exists i :: 0 <= i < |parts| && Strip(parts[i]) != [] && ParseInt(Strip(parts[i])) == Some(x) {
      var i :| 0 <= i < |parts| && Strip(parts[i]) != [] && ParseInt(Strip(parts[i])) == Some(x);
      PartHasId(parts, i, x);
    }
  }

  lemma {:induction false} IdHasPart(parts: seq<string>, x: int)
    requires UserIds(parts).Success? && x in UserIds(parts).value
    ensures exists i :: 0 <= i < |parts| && Strip(parts[i]) != [] && ParseInt(Strip(parts[i])) == Some(x)
    decreases |parts|
  {
    var init := parts[..|parts| - 1];
    UserIdsSnoc(parts);
    if x in UserIds(init).value {
      IdHasPart(init, x);
      var i :| 0 <= i < |init| && Strip(init[i]) != [] && ParseInt(Strip(init[i])) == Some(x);
      assert init[i] == parts[i];
    } else {
      assert Strip(parts[|parts| - 1]) != [] && ParseInt(Strip(parts[|parts| - 1])) == Some(x);
    }
  }

  lemma {:induction false} PartHasId(parts: seq<string>, i: nat, x: int)
    requires UserIds(parts).Success? && i < |parts|
    requires Strip(parts[i]) != [] && ParseInt(Strip(parts[i])) == Some(x)
    ensures x in UserIds(parts).value
    decreases |parts|
  {
    var init := parts[..|parts| - 1];
    UserIdsSnoc(parts);
    if i < |init| {
      assert init[i] == parts[i];
      PartHasId(init, i, x);
    }
  }

  /** A successful parse of one more part adds that part's id, unless it is blank. */
  lemma UserIdsSnoc(parts: seq<string>)
    requires parts != [] && UserIds(parts).Success?
    ensures var last := Strip(parts[|parts| - 1]);
      UserIds(parts[..|parts| - 1]).Success? &&
      UserIds(parts).value == UserIds(parts[..|parts| - 1]).value + if last == [] then [] else [ParseInt(last).value]
  {
  }

  /** `_parse_user_ids(s)`: `(s or "").split(",")`, each part stripped, blank ones skipped. */
  method ParseUserIds(s: Option<string>) returns (out: Result<seq<int>, string>)
    ensures out == UserIds(Split(s.GetOr(""), ','))
  {
    var parts := Split(s.GetOr(""), ',');
    var ids: seq<int> := [];
    for i := 0 to |parts|
      invariant UserIds(parts[..i]) == Success(ids)
    {
      assert parts[..i + 1][..i] == parts[..i];
      var part := Strip(parts[i]);
      if part == [] {
        continue;
      }
      var id := ParseInt(part);
      if id.None? {
        assert UserIds(parts[..i + 1]).Failure?;
        UserIdsPrefixFails(parts, i + 1);
        return Failure("ValueError");
      }
      ids := ids + [id.value];
    }
    assert parts[..|parts|] == parts;
    out := Success(ids);
  }

  lemma {:induction false} UserIdsPrefixFails(parts: seq<string>, k: nat)
    requires k <= |parts| && UserIds(parts[..k]).Failure?
    ensures UserIds(parts) == Failure("ValueError")
    decreases |parts|
  {
    if k < |parts| {
      var init := parts[..|parts| - 1];
      assert init[..k] == parts[..k];
      UserIdsPrefixFails(init, k);
    } else {
      assert parts[..k] == parts;
      UserIdsFailure(parts);
    }
  }

  /** A part that is neither blank nor an integer. */
  predicate BadPart(part: string) {
    Strip(part) != [] && ParseInt(Strip(part)).None?
  }

  /** The parse fails exactly when some part is neither blank nor an integer. */
  lemma UserIdsFailsOnBadPart(parts: seq<string>)
    ensures UserIds(parts).Failure? <==> exists i :: 0 <= i < |parts| && BadPart(parts[i])
  {
    if UserIds(parts).Failure? {
      FailureHasBadPart(parts);
    }
    if exists i :: 0 <= i < |parts| && BadPart(parts[i]) {
      var i :| 0 <= i < |parts| && BadPart(parts[i]);
      BadPartFails(parts, i);
    }
  }

  lemma {:induction false} FailureHasBadPart(parts: seq<string>)
    requires UserIds(parts).Failure?
    ensures exists i :: 0 <= i < |parts| && BadPart(parts[i])
    decreases |parts|
  {
    var init := parts[..|parts| - 1];
    UserIdsStep(parts);
    if UserIds(init).Failure? {
      FailureHasBadPart(init);
      var i :| 0 <= i < |init| && BadPart(init[i]);
      assert init[i] == parts[i];
    } else {
      assert BadPart(parts[|parts| - 1]);
    }
  }

  lemma BadPartFails(parts: seq<string>, i: nat)
    requires i < |parts| && BadPart(parts[i])
    ensures UserIds(parts).Failure?
  {
    var pre := parts[..i + 1];
    assert pre[..|pre| - 1] == parts[..i] && pre[|pre| - 1] == parts[i];
    UserIdsStep(pre);
    UserIdsPrefixFails(parts, i + 1);
  }

  /** One more part fails the parse exactly when the parse before it failed or it is bad. */
  lemma UserIdsStep(parts: seq<string>)
    requires parts != []
    ensures UserIds(parts).Failure? <==> UserIds(parts[..|parts| - 1]).Failure? || BadPart(parts[|parts| - 1])
  {
  }

  lemma {:induction false} UserIdsFailure(parts: seq<string>)
    ensures UserIds(parts).Failure? ==> UserIds(parts) == Failure("ValueError")
    decreases |parts|
  {
    if parts != [] {
      UserIdsFailure(parts[..|parts| - 1]);
    }
  }

  /** An empty or missing list gives no ids. */
  lemma NoIdsFromNothing()
    ensures UserIds(Split("", ',')) == Success([])
  {
  }
}
