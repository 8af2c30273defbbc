/** The typed error envelope every tool returns on failure:
    `{"error": {"code", "message", "details"?}, **extra}`. */
module Envelopes {
  import opened Wrappers
  import opened JsonValues

  /** The value that replaces a redacted field (`REDACT_TOKEN`). */
  const RedactToken := "***redacted***"

  /** `{"code": code, "message": message}` */
  function ErrorBody(code: string, message: string): (r: Json)
    ensures Get(r, "code") == Some(JStr(code)) && Get(r, "message") == Some(JStr(message))
  {
    AppendBinding([], ("code", JStr(code)));
    AppendBinding([("code", JStr(code))], ("message", JStr(message)));
    assert [("code", JStr(code))] + [("message", JStr(message))] == [("code", JStr(code)), ("message", JStr(message))];
    JObj([("code", JStr(code)), ("message", JStr(message))])
  }

  /** `typed_error(code, message, details=details, **extra)`: `details` is kept only when
      truthy, and the extra keys sit beside "error" at the top level. */
  function TypedError(code: string, message: string, details: Json, extra: Fields): (r: Json)
    ensures r.JObj? && HasKey(r, "error")
    ensures Lookup(extra, "error").None? ==>
      ErrorCode(r) == Some(code) && ErrorMessage(r) == Some(message) &&
      ErrorDetails(r) == (if Truthy(details) then Some(details) else None)
    ensures forall k {:trigger Get(r, k)} :: k != "error" ==> Get(r, k) == Lookup(extra, k)
  {
    var body := ErrorBody(code, message);
    var err := if Truthy(details) then JObj(Put(body.fields, "details", details)) else body;
    AppendBinding([], ("error", err));
    JObj(Update([("error", err)], extra))
  }

  /** The payload is an error envelope: a dict with an "error" key. */
  predicate IsError(j: Json) {
    HasKey(j, "error")
  }

  /** The error's "code", when the payload is an error envelope with a string code. */
  function ErrorCode(j: Json): Option<string> {
    match Get(j, "error")
    case Some(e) =>
      (match Get(e, "code")
       case Some(JStr(c)) => Some(c)
       case _ => None)
    case None => None
  }

  function ErrorMessage(j: Json): Option<string> {
    match Get(j, "error")
    case Some(e) =>
      (match Get(e, "message")
       case Some(JStr(m)) => Some(m)
       case _ => None)
    case None => None
  }

  function ErrorDetails(j: Json): Option<Json> {
    match Get(j, "error")
    case Some(e) => Get(e, "details")
    case None => None
  }
}
