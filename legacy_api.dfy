/** The single-class client of api.py (`LubeLoggerApi`). Unlike the package
    variant it keeps one aiohttp session for its whole life, cleans
    caller-supplied headers, sends basic auth only with both credentials,
    returns raw text for non-JSON responses, and repairs two payloads
    (odometer reading and record list) before returning them. */
module LegacyApi {
  import opened Wrappers
  import opened Decimal
  import opened Values
  import opened Http

  // -----------------------------------------------------------------------
  // The session: no session, an open one, or a closed one
  // -----------------------------------------------------------------------

  /** An `aiohttp.ClientSession`, as far as the client looks at it. */
  class ClientSession {
    var closed: bool

    constructor()
      ensures !closed
    {
      closed := false;
    }

    method Close()
      modifies this
      ensures closed
    {
      closed := true;
    }
  }

  datatype SessionState = NoSession | Open | Closed

  // -----------------------------------------------------------------------
  // Request preparation
  // -----------------------------------------------------------------------

  /** A caller header survives cleaning when neither key nor value is `None`. */
  predicate Keeps(raw: seq<(PyValue, PyValue)>, i: int)
    requires 0 <= i < |raw|
  {
    raw[i].0 != PyNone && raw[i].1 != PyNone
  }

  /** `{str(k): str(v) for k, v in raw.items() if k is not None and v is not None}`;
      a later pair whose key prints the same replaces an earlier one. */
  function Kept(raw: seq<(PyValue, PyValue)>): map<string, string>
  {
    if raw == [] then map[]
    else
      var prev := Kept(raw[..|raw| - 1]);
      var (k, v) := raw[|raw| - 1];
      if k != PyNone && v != PyNone then prev[Str(k) := Str(v)] else prev
  }

  /** The headers `_request` sends: the cleaned caller headers with `Accept`
      set last. A `None` headers argument is treated like an empty one. */
  function CleanHeaders(raw: seq<(PyValue, PyValue)>): map<string, string>
  {
    Kept(raw)["Accept" := JsonMime]
  }

  /** Auth of `_request`: basic only when username and password are both
      truthy. */
  function LegacyAuth(username: Option<string>, password: Option<string>): (a: Option<Credentials>)
    ensures a.Some? <==> username.Some? && username.value != "" && password.Some? && password.value != ""
    ensures a.Some? ==> a.value == BasicAuth(username.value, password.value)
  {
    if username.Some? && username.value != "" && password.Some? && password.value != "" then
      Some(BasicAuth(username.value, password.value))
    else None
  }

  /** The result of `_request` for one outcome: a status >= 400 raises a
      `RuntimeError` quoting status and body, a JSON response is decoded,
      anything else is returned as text; exceptions from the network pass
      through both except clauses unchanged. */
  function Classify(o: Outcome): Result<Json, Fault>
  {
    match o
    case Raised(f) => Failure(f)
    case Response(status, _, contentType, text, json) =>
      if status >= 400 then Failure(RuntimeError(StatusMessage("LubeLogger API error ", status, text)))
      else if contentType == JsonMime then json
      else Success(JStr(text))
  }

  // -----------------------------------------------------------------------
  // Payload repair and shaping
  // -----------------------------------------------------------------------

  /** `float(value)` with `TypeError` and `ValueError` turned into `None`.
      `parse` is Python's reading of a string as a float. */
  function FloatOrNone(value: Json, parse: string -> Option<real>): Option<real>
  {
    match value
    case JNull => None
    case JBool(b) => Some(if b then 1.0 else 0.0)
    case JInt(i) => Some(i as real)
    case JReal(r) => Some(r)
    case JStr(s) => parse(s)
    case JArr(_) => None
    case JObj(_) => None
  }

  /** `records if isinstance(records, list) else []`. */
  function ListOrEmpty(records: Json): seq<Json>
  {
    if records.JArr? then records.items else []
  }

  /** `payload = data.copy(); payload["vehicleId"] = vehicle_id`. */
  function ServicePayload(data: map<string, Json>, vehicleId: int): (payload: map<string, Json>)
    ensures payload.Keys == data.Keys + {"vehicleId"}
    ensures payload["vehicleId"] == JInt(vehicleId)
    ensures forall k :: k in data && k != "vehicleId" ==> payload[k] == data[k]
  {
    data["vehicleId" := JInt(vehicleId)]
  }

  // -----------------------------------------------------------------------
  // Request descriptors
  // -----------------------------------------------------------------------

  const VehiclesPath := "/api/vehicles"
  const LatestPrefix := "/api/vehicle/odometerrecords/latest?vehicleId="
  const RecordsPrefix := "/api/vehicle/odometerrecords?vehicleId="
  const VehiclePrefix := "/api/vehicles/"
  const ServicesTail := "/services"
  const FuelTail := "/fuel"
  const AddOdometerPrefix := "/api/vehicle/odometerrecords/add?vehicleId="
  const ServiceRecordsPath := "/api/vehicle/servicerecords"

  datatype Op =
    | GetVehicles
    | LatestOdometer(vehicleId: int)
    | OdometerRecords(vehicleId: int)
    | ServiceHistory(vehicleId: int)
    | FuelLogs(vehicleId: int)
    | AddOdometerEntry(vehicleId: int, value: real, date: string)
    | AddServiceRecord(vehicleId: int, data: map<string, Json>)

  /** The `_request(method, path, json=...)` each public method makes. */
  function Describe(op: Op): Call
  {
    match op
    case GetVehicles => Call(Get, VehiclesPath, None)
    case LatestOdometer(id) => Call(Get, Scoped(LatestPrefix, id), None)
    case OdometerRecords(id) => Call(Get, Scoped(RecordsPrefix, id), None)
    case ServiceHistory(id) => Call(Get, Enclosed(VehiclePrefix, id, ServicesTail), None)
    case FuelLogs(id) => Call(Get, Enclosed(VehiclePrefix, id, FuelTail), None)
    case AddOdometerEntry(id, value, date) =>
      Call(Post, Scoped(AddOdometerPrefix, id),
           Some(JObj(map["odometer" := JReal(value), "date" := JStr(date)])))
    case AddServiceRecord(id, data) =>
      Call(Post, ServiceRecordsPath, Some(JObj(ServicePayload(data, id))))
  }

  /** The GET operation a path names. */
  function RouteGet(path: string): Option<Op>
  {
    if path == VehiclesPath then Some(GetVehicles)
    else if ScopedId(path, LatestPrefix).Some? then Some(LatestOdometer(ScopedId(path, LatestPrefix).value))
    else if ScopedId(path, RecordsPrefix).Some? then Some(OdometerRecords(ScopedId(path, RecordsPrefix).value))
    else RouteVehicle(path)
  }

  /** The GET operation a path under `/api/vehicles/` names. */
  function RouteVehicle(path: string): Option<Op>
  {
    if EnclosedId(path, VehiclePrefix, ServicesTail).Some? then
      Some(ServiceHistory(EnclosedId(path, VehiclePrefix, ServicesTail).value))
    else if EnclosedId(path, VehiclePrefix, FuelTail).Some? then
      Some(FuelLogs(EnclosedId(path, VehiclePrefix, FuelTail).value))
    else None
  }

  /** The POST operation a path and a JSON object body name; a service
      record's vehicle is read from its body. */
  function RoutePost(path: string, fields: map<string, Json>): Option<Op>
  {
    if path == ServiceRecordsPath then
      if "vehicleId" in fields && fields["vehicleId"].JInt? then
        Some(AddServiceRecord(fields["vehicleId"].i, fields - {"vehicleId"}))
      else None
    else if ScopedId(path, AddOdometerPrefix).Some? && fields.Keys == {"odometer", "date"}
            && fields["odometer"].JReal? && fields["date"].JStr? then
      Some(AddOdometerEntry(ScopedId(path, AddOdometerPrefix).value, fields["odometer"].r, fields["date"].s))
    else None
  }

  /** The operation a call performs, read off its verb, path and body as
      the backend would. */
  function Route(c: Call): Option<Op>
  {
    if c.verb == Get then
      if c.body.Some? then None else RouteGet(c.path)
    else if c.body.None? || !c.body.value.JObj? then None
    else RoutePost(c.path, c.body.value.fields)
  }

  /** What a request tells the backend about the operation that issued it:
      everything, except that `add_service_record` drops any `vehicleId`
      the caller put in `data`, since the parameter overwrites it. */
  function Observed(op: Op): Op
  {
    if op.AddServiceRecord? then AddServiceRecord(op.vehicleId, op.data - {"vehicleId"}) else op
  }

  // -----------------------------------------------------------------------
  // The client
  // -----------------------------------------------------------------------

  class LubeLoggerApi {
    const baseUrl: string
    const username: Option<string>
    const password: Option<string>
    var session: ClientSession?

    function State(): SessionState
      reads this, session
    {
      if session == null then NoSession else if session.closed then Closed else Open
    }

    constructor(baseUrl: string, username: Option<string>, password: Option<string>)
      ensures this.baseUrl == RStripSlash(baseUrl)
      ensures this.username == username && this.password == password
      ensures State() == NoSession
    {
      this.baseUrl := RStripSlash(baseUrl);
      this.username := username;
      this.password := password;
      session := null;
    }

    /** `_get_session`: reuse the open session, otherwise open a new one. */
    method GetSession() returns (s: ClientSession)
      modifies this`session
      ensures session == s && State() == Open
      ensures old(State()) == Open ==> s == old(session)
      ensures old(State()) != Open ==> fresh(s)
    {
      if session == null || session.closed {
        session := new ClientSession();
      }
      s := session;
    }

    /** `close`: closes an open session; with no session or a closed one it
        does nothing. */
    method Close()
      modifies session
      ensures session == old(session)
      ensures State() == (if old(State()) == NoSession then NoSession else Closed)
      ensures old(State()) != Open ==> session == null || unchanged(session)
    {
      if session != null && !session.closed {
        session.Close();
      }
    }

    /** `_request(method, path, headers=raw, json=body)` against one outcome.
        Whatever happens on the network, the session stays open for the
        next call. */
    method Request(call: Call, raw: seq<(PyValue, PyValue)>, outcome: Outcome)
      returns (sent: HttpRequest, r: Result<Json, Fault>)
      modifies this`session
      ensures sent == HttpRequest(call.verb, baseUrl + call.path, CleanHeaders(raw),
                                  LegacyAuth(username, password), call.body)
      ensures r == Classify(outcome)
      ensures State() == Open
      ensures old(State()) == Open ==> session == old(session)
      ensures old(State()) != Open ==> fresh(session)
    {
      var url := baseUrl + call.path;
      var s := GetSession();
      var headers := Kept(raw);
      headers := headers["Accept" := JsonMime];
      var auth: Option<Credentials> := None;
      if username.Some? && username.value != "" && password.Some? && password.value != "" {
        auth := Some(BasicAuth(username.value, password.value));
      }
      sent := HttpRequest(call.verb, url, headers, auth, call.body);
      match outcome {
        case Raised(f) =>
          r := Failure(f);
        case Response(status, _, contentType, text, json) =>
          if status >= 400 {
            r := Failure(RuntimeError("LubeLogger API error " + IntToString(status) + ": " + text));
          } else if contentType == JsonMime {
            r := json;
          } else {
            r := Success(JStr(text));
          }
      }
    }

    method GetVehicles(outcome: Outcome) returns (sent: HttpRequest, r: Result<Json, Fault>)
      modifies this`session
      ensures sent == HttpRequest(Get, baseUrl + VehiclesPath, CleanHeaders([]), LegacyAuth(username, password), None)
      ensures r == Classify(outcome)
      ensures State() == Open
      ensures old(State()) == Open ==> session == old(session)
      ensures old(State()) != Open ==> fresh(session)
    {
      sent, r := Request(Describe(Op.GetVehicles), [], outcome);
    }

    /** The reading as a float; a payload that is `null` or does not
        convert gives `None` rather than an error. */
    method GetLatestOdometer(vehicleId: int, outcome: Outcome, parse: string -> Option<real>)
      returns (sent: HttpRequest, r: Result<Option<real>, Fault>)
      modifies this`session
      ensures sent == HttpRequest(Get, baseUrl + Scoped(LatestPrefix, vehicleId), CleanHeaders([]),
                                  LegacyAuth(username, password), None)
      ensures Classify(outcome).Success? ==> r == Success(FloatOrNone(Classify(outcome).value, parse))
      ensures Classify(outcome).Failure? ==> r == Failure(Classify(outcome).error)
      ensures State() == Open
      ensures old(State()) == Open ==> session == old(session)
      ensures old(State()) != Open ==> fresh(session)
    {
      var payload;
      sent, payload := Request(Describe(Op.LatestOdometer(vehicleId)), [], outcome);
      match payload {
        case Failure(f) => r := Failure(f);
        case Success(value) => r := Success(FloatOrNone(value, parse));
      }
    }

    /** The record list; any payload that is not a list becomes `[]`. */
    method GetOdometerRecords(vehicleId: int, outcome: Outcome)
      returns (sent: HttpRequest, r: Result<seq<Json>, Fault>)
      modifies this`session
      ensures sent == HttpRequest(Get, baseUrl + Scoped(RecordsPrefix, vehicleId), CleanHeaders([]),
                                  LegacyAuth(username, password), None)
      ensures Classify(outcome).Success? ==> r == Success(ListOrEmpty(Classify(outcome).value))
      ensures Classify(outcome).Failure? ==> r == Failure(Classify(outcome).error)
      ensures State() == Open
      ensures old(State()) == Open ==> session == old(session)
      ensures old(State()) != Open ==> fresh(session)
    {
      var records;
      sent, records := Request(Describe(Op.OdometerRecords(vehicleId)), [], outcome);
      match records {
        case Failure(f) => r := Failure(f);
        case Success(value) => r := Success(ListOrEmpty(value));
      }
    }

    method GetServiceHistory(vehicleId: int, outcome: Outcome) returns (sent: HttpRequest, r: Result<Json, Fault>)
      modifies this`session
      ensures sent == HttpRequest(Get, baseUrl + Enclosed(VehiclePrefix, vehicleId, ServicesTail), CleanHeaders([]),
                                  LegacyAuth(username, password), None)
      ensures r == Classify(outcome)
      ensures State() == Open
      ensures old(State()) == Open ==> session == old(session)
      ensures old(State()) != Open ==> fresh(session)
    {
      sent, r := Request(Describe(Op.ServiceHistory(vehicleId)), [], outcome);
    }

    method GetFuelLogs(vehicleId: int, outcome: Outcome) returns (sent: HttpRequest, r: Result<Json, Fault>)
      modifies this`session
      ensures sent == HttpRequest(Get, baseUrl + Enclosed(VehiclePrefix, vehicleId, FuelTail), CleanHeaders([]),
                                  LegacyAuth(username, password), None)
      ensures r == Classify(outcome)
      ensures State() == Open
      ensures old(State()) == Open ==> session == old(session)
      ensures old(State()) != Open ==> fresh(session)
    {
      sent, r := Request(Describe(Op.FuelLogs(vehicleId)), [], outcome);
    }

    method AddOdometerEntry(vehicleId: int, value: real, date: string, outcome: Outcome)
      returns (sent: HttpRequest, r: Result<Json, Fault>)
      modifies this`session
      ensures sent == HttpRequest(Post, baseUrl + Scoped(AddOdometerPrefix, vehicleId), CleanHeaders([]),
                                  LegacyAuth(username, password),
                                  Some(JObj(map["odometer" := JReal(value), "date" := JStr(date)])))
      ensures r == Classify(outcome)
      ensures State() == Open
      ensures old(State()) == Open ==> session == old(session)
      ensures old(State()) != Open ==> fresh(session)
    {
      sent, r := Request(Describe(Op.AddOdometerEntry(vehicleId, value, date)), [], outcome);
    }

    /** Sends a copy of `data` whose `vehicleId` is the parameter; `data`
        itself is a value here, so the caller's dict cannot change. */
    method AddServiceRecord(vehicleId: int, data: map<string, Json>, outcome: Outcome)
      returns (sent: HttpRequest, r: Result<Json, Fault>)
      modifies this`session
      ensures sent == HttpRequest(Post, baseUrl + ServiceRecordsPath, CleanHeaders([]),
                                  LegacyAuth(username, password), Some(JObj(ServicePayload(data, vehicleId))))
      ensures r == Classify(outcome)
      ensures State() == Open
      ensures old(State()) == Open ==> session == old(session)
      ensures old(State()) != Open ==> fresh(session)
    {
      sent, r := Request(Describe(Op.AddServiceRecord(vehicleId, data)), [], outcome);
    }
  }

  // -----------------------------------------------------------------------
  // Properties
  // -----------------------------------------------------------------------

  /** The caller pair at `i` is sent under the key `k`. */
  predicate Sends(raw: seq<(PyValue, PyValue)>, i: int, k: string)
    requires 0 <= i < |raw|
  {
    Keeps(raw, i) && Str(raw[i].0) == k
  }

  /** Header cleaning keeps a key iff some caller pair with neither side
      `None` prints as that key. */
  lemma {:induction false} KeptKeys(raw: seq<(PyValue, PyValue)>, k: string)
    ensures k in Kept(raw) <==> exists i :: 0 <= i < |raw| && Sends(raw, i, k)
  {
    if raw != [] {
      var init := raw[..|raw| - 1];
      var n := |raw| - 1;
      KeptKeys(init, k);
      if k in Kept(raw) {
        if Sends(raw, n, k) {
        } else {
          var i :| 0 <= i < |init| && Sends(init, i, k);
          assert raw[i] == init[i];
          assert Sends(raw, i, k);
        }
      }
      if i :| 0 <= i < |raw| && Sends(raw, i, k) {
        if i < n {
          assert raw[i] == init[i];
          assert Sends(init, i, k);
        }
      }
    }
  }

  /** The value sent under a key is the printed value of the last caller
      pair that prints as that key. */
  lemma {:induction false} KeptLastWins(raw: seq<(PyValue, PyValue)>, i: nat, k: string)
    requires i < |raw| && Sends(raw, i, k)
    requires forall j :: i < j < |raw| ==> !Sends(raw, j, k)
    ensures k in Kept(raw) && Kept(raw)[k] == Str(raw[i].1)
  {
    var init := raw[..|raw| - 1];
    var n := |raw| - 1;
    if i < n {
      assert raw[i] == init[i];
      forall j | i < j < |init| ensures !Sends(init, j, k) {
        assert raw[j] == init[j];
        assert !Sends(raw, j, k);
      }
      KeptLastWins(init, i, k);
      assert !Sends(raw, n, k);
    }
  }

  /** `Accept: application/json` is always sent and overrides the caller's;
      every other header sent comes from a caller pair with neither side
      `None`, and every such pair's key is sent. */
  lemma CleanHeadersSpec(raw: seq<(PyValue, PyValue)>, k: string)
    ensures "Accept" in CleanHeaders(raw) && CleanHeaders(raw)["Accept"] == JsonMime
    ensures k != "Accept" ==>
      (k in CleanHeaders(raw) <==> exists i :: 0 <= i < |raw| && Sends(raw, i, k))
  {
    KeptKeys(raw, k);
  }

  /** A status >= 400 always fails, and the error message gives back both
      the status and the body text. */
  lemma ErrorStatusReported(o: Outcome)
    requires o.Response? && o.status >= 400
    ensures Classify(o).Failure? && Classify(o).error.RuntimeError?
    ensures ParseStatusMessage(Classify(o).error.text, "LubeLogger API error ") == Some((o.status, o.text))
  {
    StatusMessageRoundTrip("LubeLogger API error ", o.status, o.text);
  }

  /** Below 400 the result is the decoded JSON for a JSON content type and
      the raw text for any other. */
  lemma SuccessPayload(o: Outcome)
    requires o.Response? && o.status < 400
    ensures o.contentType == JsonMime ==> Classify(o) == o.json
    ensures o.contentType != JsonMime ==> Classify(o) == Success(JStr(o.text))
  {
  }

  /** The odometer reading never fails on the payload: `null`, lists and
      objects give `None`, numbers give their value, strings whatever the
      float parser makes of them. */
  lemma OdometerRepair(value: Json, parse: string -> Option<real>)
    ensures value.JNull? || value.JArr? || value.JObj? ==> FloatOrNone(value, parse) == None
    ensures value.JInt? ==> FloatOrNone(value, parse) == Some(value.i as real)
    ensures value.JReal? ==> FloatOrNone(value, parse) == Some(value.r)
    ensures value.JStr? ==> FloatOrNone(value, parse) == parse(value.s)
  {
  }

  /** A list payload is returned as is; `null`, `{}` or any other non-list is `[]`. */
  lemma RecordListRepair(records: Json)
    ensures records.JArr? ==> ListOrEmpty(records) == records.items
    ensures !records.JArr? ==> ListOrEmpty(records) == []
  {
  }

  lemma RouteLatestOdometer(id: int)
    ensures Route(Describe(LatestOdometer(id))) == Some(LatestOdometer(id))
  {
    ScopedRoundTrip(LatestPrefix, id);
  }

  lemma RouteOdometerRecords(id: int)
    ensures Route(Describe(OdometerRecords(id))) == Some(OdometerRecords(id))
  {
    PrefixMismatch(LatestPrefix, RecordsPrefix, IntToString(id), 28);
    ScopedRoundTrip(RecordsPrefix, id);
  }

  /** A path under `/api/vehicles/` is neither odometer query. */
  lemma VehiclePathNotOdometer(id: int, tail: string)
    ensures ScopedId(Enclosed(VehiclePrefix, id, tail), LatestPrefix) == None
    ensures ScopedId(Enclosed(VehiclePrefix, id, tail), RecordsPrefix) == None
    ensures Enclosed(VehiclePrefix, id, tail) != VehiclesPath
  {
    var x := IntToString(id) + tail;
    assert Enclosed(VehiclePrefix, id, tail) == VehiclePrefix + x;
    PrefixMismatch(LatestPrefix, VehiclePrefix, x, 12);
    PrefixMismatch(RecordsPrefix, VehiclePrefix, x, 12);
    assert |VehiclePrefix + x| > |VehiclesPath|;
  }

  lemma RouteServiceHistory(id: int)
    ensures Route(Describe(ServiceHistory(id))) == Some(ServiceHistory(id))
  {
    var p := Enclosed(VehiclePrefix, id, ServicesTail);
    VehiclePathNotOdometer(id, ServicesTail);
    assert RouteGet(p) == RouteVehicle(p);
    EnclosedRoundTrip(VehiclePrefix, id, ServicesTail);
  }

  /** A fuel-log path does not end in `/services`. */
  lemma FuelPathNotServices(id: int)
    ensures EnclosedId(Enclosed(VehiclePrefix, id, FuelTail), VehiclePrefix, ServicesTail) == None
  {
    var p := Enclosed(VehiclePrefix, id, FuelTail);
    assert p[|p| - 1] == 'l';
  }

  lemma RouteFuelLogs(id: int)
    ensures Route(Describe(FuelLogs(id))) == Some(FuelLogs(id))
  {
    var p := Enclosed(VehiclePrefix, id, FuelTail);
    VehiclePathNotOdometer(id, FuelTail);
    assert RouteGet(p) == RouteVehicle(p);
    FuelPathNotServices(id);
    EnclosedRoundTrip(VehiclePrefix, id, FuelTail);
  }

  lemma RouteAddOdometerEntry(id: int, value: real, date: string)
    ensures Route(Describe(AddOdometerEntry(id, value, date))) == Some(AddOdometerEntry(id, value, date))
  {
    ScopedRoundTrip(AddOdometerPrefix, id);
    assert |Scoped(AddOdometerPrefix, id)| > |ServiceRecordsPath|;
    assert map["odometer" := JReal(value), "date" := JStr(date)].Keys == {"odometer", "date"};
  }

  lemma RouteAddServiceRecord(id: int, data: map<string, Json>)
    ensures Route(Describe(AddServiceRecord(id, data))) == Some(AddServiceRecord(id, data - {"vehicleId"}))
  {
    assert ServicePayload(data, id) - {"vehicleId"} == data - {"vehicleId"};
  }

  /** Each public method issues a request that identifies it and carries its
      arguments, except for a `vehicleId` the caller left in a service
      record's data, which the parameter overrides. */
  lemma RouteDescribe(op: Op)
    ensures Route(Describe(op)) == Some(Observed(op))
  {
    match op
    case GetVehicles =>
    case LatestOdometer(id) => RouteLatestOdometer(id);
    case OdometerRecords(id) => RouteOdometerRecords(id);
    case ServiceHistory(id) => RouteServiceHistory(id);
    case FuelLogs(id) => RouteFuelLogs(id);
    case AddOdometerEntry(id, value, date) => RouteAddOdometerEntry(id, value, date);
    case AddServiceRecord(id, data) => RouteAddServiceRecord(id, data);
  }
}
