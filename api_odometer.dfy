/** `OdometerApi` (api/odometer.py): two fixed request descriptors on top of
    the base executor. The payload comes back exactly as the executor
    returns it; there is no numeric coercion in this variant. */
module Odometer {
  import opened Wrappers
  import opened Values
  import opened Http
  import opened ApiBase

  const LatestPrefix := "/api/vehicle/odometerrecords/latest?vehicleId="
  const AddPrefix := "/api/vehicle/odometerrecords/add?vehicleId="

  /** `get_latest_odometer(vehicle_id)`: a GET without a body. */
  function LatestCall(vehicleId: int): Call
  {
    Call(Get, Scoped(LatestPrefix, vehicleId), None)
  }

  /** The JSON body of `add`: `{"odometer": value, "date": date}`. */
  function AddBody(value: real, date: string): Json
  {
    JObj(map["odometer" := JReal(value), "date" := JStr(date)])
  }

  /** `add(vehicle_id, value, date)`: a POST scoped by the query. */
  function AddCall(vehicleId: int, value: real, date: string): Call
  {
    Call(Post, Scoped(AddPrefix, vehicleId), Some(AddBody(value, date)))
  }

  /** The operations of this client, with their arguments. */
  datatype Op = LatestOdometer(vehicleId: int) | Add(vehicleId: int, value: real, date: string)

  function Describe(op: Op): Call
  {
    match op
    case LatestOdometer(id) => LatestCall(id)
    case Add(id, value, date) => AddCall(id, value, date)
  }

  /** The operation a call performs, read off its verb, path and body as the
      backend would; `None` for a call that is neither. */
  function Route(c: Call): Option<Op>
  {
    if c.verb == Get then
      var id := ScopedId(c.path, LatestPrefix);
      if id.Some? && c.body.None? then Some(LatestOdometer(id.value)) else None
    else
      var id := ScopedId(c.path, AddPrefix);
      if id.Some? && c.body.Some? && c.body.value.JObj?
         && c.body.value.fields.Keys == {"odometer", "date"}
         && c.body.value.fields["odometer"].JReal?
         && c.body.value.fields["date"].JStr?
      then Some(Add(id.value, c.body.value.fields["odometer"].r, c.body.value.fields["date"].s))
      else None
  }

  /** Each operation issues a request that carries all of its arguments:
      the vehicle in the query, and for `add` a body holding exactly the
      reading and the date. */
  lemma RouteDescribe(op: Op)
    ensures Route(Describe(op)) == Some(op)
  {
    match op
    case LatestOdometer(id) =>
      ScopedRoundTrip(LatestPrefix, id);
    case Add(id, value, date) =>
      ScopedRoundTrip(AddPrefix, id);
      assert AddBody(value, date).fields.Keys == {"odometer", "date"};
  }

  class OdometerApi {
    const base: LubeLoggerApiBase

    constructor(baseUrl: string, username: Option<string>, password: Option<string>)
      ensures fresh(base)
      ensures base.baseUrl == RStripSlash(baseUrl)
      ensures base.username == username && base.password == password
      ensures base.lastError == None
    {
      base := new LubeLoggerApiBase(baseUrl, username, password);
    }

    method GetLatestOdometer(vehicleId: int, outcome: Outcome) returns (sent: HttpRequest, r: Result<Json, Fault>)
      modifies base
      ensures sent == base.Prepare(LatestCall(vehicleId))
      ensures sent.verb == Get && sent.body == None
      ensures sent.url == base.baseUrl + LatestPrefix + Decimal.IntToString(vehicleId)
      ensures r == Classify(outcome)
      ensures base.lastError == LastErrorAfter(old(base.lastError), outcome)
    {
      sent, r := base.Request(LatestCall(vehicleId), outcome);
    }

    method Add(vehicleId: int, value: real, date: string, outcome: Outcome)
      returns (sent: HttpRequest, r: Result<Json, Fault>)
      modifies base
      ensures sent == base.Prepare(AddCall(vehicleId, value, date))
      ensures sent.verb == Post && sent.body == Some(AddBody(value, date))
      ensures sent.url == base.baseUrl + AddPrefix + Decimal.IntToString(vehicleId)
      ensures r == Classify(outcome)
      ensures base.lastError == LastErrorAfter(old(base.lastError), outcome)
    {
      sent, r := base.Request(AddCall(vehicleId, value, date), outcome);
    }
  }
}
