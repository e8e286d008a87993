/** `LubeLoggerApiBase` (api/base.py): the executor every resource client of
    the package variant is built on. It opens a fresh session per request,
    always sends JSON headers, and records each failure in `_last_error`
    before re-raising it. */
module ApiBase {
  import opened Wrappers
  import opened Decimal
  import opened Values
  import opened Http

  /** The headers `_request` sends, whatever the request. */
  const FixedHeaders: map<string, string> := map["Content-Type" := JsonMime, "Accept" := JsonMime]

  /** Auth of `_request`: basic when the username is truthy, the password
      then being `password or ""`; no auth otherwise. */
  function AuthFor(username: Option<string>, password: Option<string>): (a: Option<Credentials>)
    ensures a.Some? <==> username.Some? && username.value != ""
    ensures a.Some? ==> a.value.login == username.value
    ensures a.Some? ==> a.value.password == (if password.Some? then password.value else "")
  {
    if username.Some? && username.value != "" then
      Some(BasicAuth(username.value, if password.Some? then password.value else ""))
    else None
  }

  /** How `_request` leaves its `try` block: with the decoded payload, or
      with the exception raised inside it (a 401 or 403 is turned into a
      `ClientResponseError`, any other status >= 400 by `raise_for_status`,
      and a body `resp.json()` cannot decode re-raises its own exception). */
  function Classify(o: Outcome): Result<Json, Fault>
  {
    match o
    case Raised(f) => Failure(f)
    case Response(status, reason, _, _, json) =>
      if status == 401 then Failure(ResponseError(401, "Authentication failed"))
      else if status == 403 then Failure(ResponseError(403, "Forbidden"))
      else if status >= 400 then Failure(ResponseError(status, reason))
      else json
  }

  /** `str(err)` for the faults only the final `except Exception` sees. */
  function Text(f: Fault): string
  {
    match f
    case TimeoutError => ""
    case ConnectorError(t) => t
    case ResponseError(_, m) => m
    case RuntimeError(t) => t
    case OtherError(t) => t
  }

  /** What the except clause that catches `f` writes into `_last_error`. */
  function Recorded(f: Fault): string
  {
    match f
    case TimeoutError => "Timeout"
    case ConnectorError(t) => "Connection error: " + t
    case ResponseError(s, m) => StatusMessage("HTTP error ", s, m)
    case _ => "Unexpected error: " + Text(f)
  }

  /** `_last_error` after one request: the failure's description, or the
      previous value when the request succeeded. */
  function LastErrorAfter(prev: Option<string>, o: Outcome): Option<string>
  {
    match Classify(o)
    case Success(_) => prev
    case Failure(f) => Some(Recorded(f))
  }

  class LubeLoggerApiBase {
    const baseUrl: string
    const username: Option<string>
    const password: Option<string>
    var lastError: Option<string>

    constructor(baseUrl: string, username: Option<string>, password: Option<string>)
      ensures this.baseUrl == RStripSlash(baseUrl)
      ensures this.username == username && this.password == password
      ensures lastError == None
    {
      this.baseUrl := RStripSlash(baseUrl);
      this.username := username;
      this.password := password;
      lastError := None;
    }

    /** The request `_request` hands to aiohttp for `call`. */
    function Prepare(call: Call): (req: HttpRequest)
      ensures req.verb == call.verb && req.body == call.body
      ensures req.url == baseUrl + call.path
      ensures req.headers == FixedHeaders
      ensures req.auth == AuthFor(username, password)
    {
      HttpRequest(call.verb, baseUrl + call.path, FixedHeaders, AuthFor(username, password), call.body)
    }

    /** `_request(method, path, json=body)` against one network outcome. */
    method Request(call: Call, outcome: Outcome) returns (sent: HttpRequest, r: Result<Json, Fault>)
      modifies this`lastError
      ensures sent == Prepare(call)
      ensures r == Classify(outcome)
      ensures lastError == LastErrorAfter(old(lastError), outcome)
    {
      var auth: Option<Credentials> := None;
      if username.Some? && username.value != "" {
        auth := Some(BasicAuth(username.value, if password.Some? then password.value else ""));
      }
      sent := HttpRequest(call.verb, baseUrl + call.path, FixedHeaders, auth, call.body);

      // the try block
      var raised: Option<Fault> := None;
      var payload := JNull;
      match outcome {
        case Raised(f) =>
          raised := Some(f);
        case Response(status, reason, _, _, json) =>
          if status == 401 {
            lastError := Some("Authentication failed (401)");
            raised := Some(ResponseError(401, "Authentication failed"));
          } else if status == 403 {
            lastError := Some("Forbidden (403)");
            raised := Some(ResponseError(403, "Forbidden"));
          } else if status >= 400 {
            raised := Some(ResponseError(status, reason));
          } else {
            match json {
              case Success(v) => payload := v;
              case Failure(f) => raised := Some(f);
            }
          }
      }

      // the except chain, in source order; every clause re-raises
      if raised.Some? {
        var f := raised.value;
        match f {
          case TimeoutError =>
            lastError := Some("Timeout");
          case ConnectorError(t) =>
            lastError := Some("Connection error: " + t);
          case ResponseError(s, m) =>
            lastError := Some("HTTP error " + IntToString(s) + ": " + m);
          case _ =>
            lastError := Some("Unexpected error: " + Text(f));
        }
        r := Failure(f);
      } else {
        r := Success(payload);
      }
    }
  }

  // -----------------------------------------------------------------------
  // Properties of one request
  // -----------------------------------------------------------------------

  /** A 401 ends with the `ClientResponseError` handler's text: the
      "Authentication failed (401)" written first is overwritten. */
  lemma AuthenticationFailureRecorded(prev: Option<string>, o: Outcome)
    requires o.Response? && o.status == 401
    ensures Classify(o) == Failure(ResponseError(401, "Authentication failed"))
    ensures LastErrorAfter(prev, o) == Some("HTTP error 401: Authentication failed")
  {
    assert IntToString(401) == "401";
    assert StatusMessage("HTTP error ", 401, "Authentication failed") == "HTTP error 401: Authentication failed";
  }

  /** A 403 likewise ends as "HTTP error 403: Forbidden". */
  lemma ForbiddenRecorded(prev: Option<string>, o: Outcome)
    requires o.Response? && o.status == 403
    ensures Classify(o) == Failure(ResponseError(403, "Forbidden"))
    ensures LastErrorAfter(prev, o) == Some("HTTP error 403: Forbidden")
  {
    assert IntToString(403) == "403";
    assert StatusMessage("HTTP error ", 403, "Forbidden") == "HTTP error 403: Forbidden";
  }

  /** Any other status >= 400 raises with that exact status and the reason
      phrase, and the recorded text gives both back. */
  lemma HttpErrorRecorded(prev: Option<string>, o: Outcome)
    requires o.Response? && o.status >= 400 && o.status != 401 && o.status != 403
    ensures Classify(o) == Failure(ResponseError(o.status, o.reason))
    ensures LastErrorAfter(prev, o).Some?
    ensures ParseStatusMessage(LastErrorAfter(prev, o).value, "HTTP error ") == Some((o.status, o.reason))
  {
    StatusMessageRoundTrip("HTTP error ", o.status, o.reason);
  }

  /** The transient failures: a timeout records "Timeout", a connection
      failure "Connection error: " and the error's text. */
  lemma TransientFailuresRecorded(prev: Option<string>, o: Outcome)
    requires o.Raised? && (o.fault.TimeoutError? || o.fault.ConnectorError?)
    ensures Classify(o) == Failure(o.fault)
    ensures o.fault.TimeoutError? ==> LastErrorAfter(prev, o) == Some("Timeout")
    ensures o.fault.ConnectorError? ==> LastErrorAfter(prev, o) == Some("Connection error: " + o.fault.text)
  {
  }

  /** No error is swallowed: a request fails exactly when its outcome is a
      raised exception, a status >= 400, or a body that cannot be decoded,
      and then the failure is recorded whatever was there before. */
  lemma FailureIffRecorded(prev: Option<string>, o: Outcome)
    ensures Classify(o).Failure? <==> (o.Raised? || o.status >= 400 || o.json.Failure?)
    ensures Classify(o).Failure? ==> LastErrorAfter(prev, o) == Some(Recorded(Classify(o).error))
    ensures Classify(o).Failure? ==> LastErrorAfter(prev, o) == LastErrorAfter(None, o)
  {
  }

  /** A success returns the decoded payload unchanged, never the raw text,
      and leaves a stale `_last_error` in place. */
  lemma SuccessKeepsLastError(prev: Option<string>, o: Outcome)
    requires Classify(o).Success?
    ensures o.Response? && o.status < 400 && o.json == Classify(o)
    ensures LastErrorAfter(prev, o) == prev
  {
  }
}
