/** What the two client variants hand to and get back from the HTTP layer.
    The round trip itself (aiohttp, the event loop, the 20-second timer) is
    not modelled: its result is an `Outcome` the caller supplies. */
module Http {
  import opened Wrappers
  import opened Decimal
  import opened Values

  const JsonMime := "application/json"

  datatype Verb = Get | Post

  /** `aiohttp.BasicAuth(login, password)`. */
  datatype Credentials = BasicAuth(login: string, password: string)

  /** What a resource operation asks the executor for: `_request(method, path, json=body)`. */
  datatype Call = Call(verb: Verb, path: string, body: Option<Json>)

  /** The request handed to `session.request(...)`. */
  datatype HttpRequest = HttpRequest(
    verb: Verb,
    url: string,
    headers: map<string, string>,
    auth: Option<Credentials>,
    body: Option<Json>)

  /** The exception classes the except-chains tell apart.
      - TimeoutError: `asyncio.TimeoutError` (the 20-second timer fired)
      - ConnectorError: `aiohttp.ClientConnectorError`; `text` is `str(err)`
      - ResponseError: `aiohttp.ClientResponseError` (also raised by
        `raise_for_status` and, as `ContentTypeError`, by `resp.json()`)
      - RuntimeError: the `RuntimeError` the legacy client raises itself
      - OtherError: any other exception; `text` is `str(err)` */
  datatype Fault =
    | TimeoutError
    | ConnectorError(text: string)
    | ResponseError(status: int, message: string)
    | RuntimeError(text: string)
    | OtherError(text: string)

  /** What the network did with one request: either a response arrived, with
      its status, reason phrase, parsed content type, body text and what
      `resp.json()` gives for it (a value, or the exception it raises), or
      the request raised before a response was read. */
  datatype Outcome =
    | Response(status: int, reason: string, contentType: string, text: string, json: Result<Json, Fault>)
    | Raised(fault: Fault)

  /** `s.rstrip("/")`. */
  function RStripSlash(s: string): (r: string)
    ensures |r| <= |s| && r == s[..|r|]
    ensures r == [] || r[|r| - 1] != '/'
    ensures forall i :: |r| <= i < |s| ==> s[i] == '/'
  {
    if |s| > 0 && s[|s| - 1] == '/' then RStripSlash(s[..|s| - 1]) else s
  }

  /** Stripping twice strips nothing more. */
  lemma RStripSlashIdempotent(s: string)
    ensures RStripSlash(RStripSlash(s)) == RStripSlash(s)
  {
  }

  /** A path scoped to one id: the fixed `prefix` (ending in `?vehicleId=`,
      `?id=`, `/`, ...) followed by `str(id)`. */
  function Scoped(prefix: string, id: int): string
  {
    prefix + IntToString(id)
  }

  /** The id a scoped path carries, if `path` starts with `prefix`. */
  function ScopedId(path: string, prefix: string): Option<int>
  {
    if prefix <= path then ParseInt(path[|prefix|..]) else None
  }

  lemma ScopedRoundTrip(prefix: string, id: int)
    ensures ScopedId(Scoped(prefix, id), prefix) == Some(id)
  {
    var p := Scoped(prefix, id);
    assert p[|prefix|..] == IntToString(id);
    IntToStringRoundTrip(id);
  }

  /** A path that begins with `q` does not begin with `p` when they differ at `i`. */
  lemma PrefixMismatch(p: string, q: string, x: string, i: nat)
    requires i < |p| && i < |q| && p[i] != q[i]
    ensures !(p <= q + x)
  {
  }

  /** `f"{prefix}{status}: {text}"`, the shape of every message that
      reports an HTTP status. */
  function StatusMessage(prefix: string, status: int, text: string): string
  {
    prefix + IntToString(status) + ": " + text
  }

  /** Index of the first `:` in `s`, or `|s|` when there is none. */
  function FirstColon(s: string): (i: nat)
    ensures i <= |s|
    ensures i < |s| ==> s[i] == ':'
    ensures forall k :: 0 <= k < i ==> s[k] != ':'
  {
    if s == [] then 0 else if s[0] == ':' then 0 else 1 + FirstColon(s[1..])
  }

  /** Reads the status and the text back out of a `StatusMessage`. */
  function ParseStatusMessage(m: string, prefix: string): Option<(int, string)>
  {
    if !(prefix <= m) then None
    else
      var rest := m[|prefix|..];
      var c := FirstColon(rest);
      if c + 2 <= |rest| && rest[c..c + 2] == ": " then
        match ParseInt(rest[..c])
        case Some(status) => Some((status, rest[c + 2..]))
        case None => None
      else None
  }

  /** A status message determines the status and the text it was built
      from, whatever the text contains (a body with colons included). */
  lemma StatusMessageRoundTrip(prefix: string, status: int, text: string)
    ensures ParseStatusMessage(StatusMessage(prefix, status, text), prefix) == Some((status, text))
  {
    var m := StatusMessage(prefix, status, text);
    var digits := IntToString(status);
    IntToStringChars(status);
    var rest := m[|prefix|..];
    assert rest == digits + ": " + text;
    assert rest[|digits|] == ':';
    assert FirstColon(rest) == |digits|;
    assert rest[..|digits|] == digits;
    assert rest[|digits| + 2..] == text;
    IntToStringRoundTrip(status);
  }

  /** A path with the id between a fixed head and a fixed tail, such as
      `/api/vehicles/{id}/services`. */
  function Enclosed(head: string, id: int, tail: string): string
  {
    head + IntToString(id) + tail
  }

  /** The id between `head` and `tail`, if `path` has that shape. */
  function EnclosedId(path: string, head: string, tail: string): Option<int>
  {
    if |head| + |tail| <= |path| && path[..|head|] == head && path[|path| - |tail|..] == tail
    then ParseInt(path[|head|..|path| - |tail|])
    else None
  }

  lemma EnclosedRoundTrip(head: string, id: int, tail: string)
    ensures EnclosedId(Enclosed(head, id, tail), head, tail) == Some(id)
  {
    var p := Enclosed(head, id, tail);
    var digits := IntToString(id);
    assert p[..|head|] == head;
    assert p[|p| - |tail|..] == tail;
    assert p[|head|..|p| - |tail|] == digits;
    IntToStringRoundTrip(id);
  }
}
