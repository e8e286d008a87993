/** `FuelApi` (api/fuel.py): list and add of fuel records, both scoped
    to the vehicle by the query string only. */
module Fuel {
  import opened Wrappers
  import opened Values
  import opened Http
  import opened ApiBase

  const ListPrefix := "/api/vehicle/fuelrecords/list?vehicleId="
  const AddPrefix := "/api/vehicle/fuelrecords/add?vehicleId="

  /** `list(vehicle_id)`: a GET without a body. */
  function ListCall(vehicleId: int): Call
  {
    Call(Get, Scoped(ListPrefix, vehicleId), None)
  }

  /** `add(vehicle_id, data)`: a POST whose body is the caller's `data`. */
  function AddCall(vehicleId: int, data: map<string, Json>): Call
  {
    Call(Post, Scoped(AddPrefix, vehicleId), Some(JObj(data)))
  }

  datatype Op = List(vehicleId: int) | Add(vehicleId: int, data: map<string, Json>)

  function Describe(op: Op): Call
  {
    match op
    case List(id) => ListCall(id)
    case Add(id, data) => AddCall(id, data)
  }

  /** The operation a call performs, read off its verb, path and body. */
  function Route(c: Call): Option<Op>
  {
    if c.verb == Get then
      var id := ScopedId(c.path, ListPrefix);
      if id.Some? && c.body.None? then Some(List(id.value)) else None
    else
      var id := ScopedId(c.path, AddPrefix);
      if id.Some? && c.body.Some? && c.body.value.JObj? then Some(Add(id.value, c.body.value.fields))
      else None
  }

  /** Each operation's request carries its arguments; `add` sends `data`
      untouched, so a `vehicleId` key in it (or its absence) is whatever the
      caller put there, and the vehicle travels only in the query. */
  lemma RouteDescribe(op: Op)
    ensures Route(Describe(op)) == Some(op)
  {
    match op
    case List(id) => ScopedRoundTrip(ListPrefix, id);
    case Add(id, _) => ScopedRoundTrip(AddPrefix, id);
  }

  class FuelApi {
    const base: LubeLoggerApiBase

    constructor(baseUrl: string, username: Option<string>, password: Option<string>)
      ensures fresh(base)
      ensures base.baseUrl == RStripSlash(baseUrl)
      ensures base.username == username && base.password == password
      ensures base.lastError == None
    {
      base := new LubeLoggerApiBase(baseUrl, username, password);
    }

    /** Returns the payload as decoded: a `null` is not turned into `[]`. */
    method List(vehicleId: int, outcome: Outcome) returns (sent: HttpRequest, r: Result<Json, Fault>)
      modifies base
      ensures sent == base.Prepare(ListCall(vehicleId))
      ensures sent.verb == Get && sent.body == None
      ensures sent.url == base.baseUrl + ListPrefix + Decimal.IntToString(vehicleId)
      ensures r == Classify(outcome)
      ensures base.lastError == LastErrorAfter(old(base.lastError), outcome)
    {
      sent, r := base.Request(ListCall(vehicleId), outcome);
    }

    method Add(vehicleId: int, data: map<string, Json>, outcome: Outcome)
      returns (sent: HttpRequest, r: Result<Json, Fault>)
      modifies base
      ensures sent == base.Prepare(AddCall(vehicleId, data))
      ensures sent.verb == Post && sent.body == Some(JObj(data))
      ensures sent.url == base.baseUrl + AddPrefix + Decimal.IntToString(vehicleId)
      ensures r == Classify(outcome)
      ensures base.lastError == LastErrorAfter(old(base.lastError), outcome)
    {
      sent, r := base.Request(AddCall(vehicleId, data), outcome);
    }
  }
}
