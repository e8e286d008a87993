/** `VehicleApi` (api/vehicles.py): the vehicle list and one vehicle by id.
    A missing vehicle gets no special handling here: whatever the executor
    raises (an HTTP error for a 404) is what the caller sees. */
module Vehicles {
  import opened Wrappers
  import opened Values
  import opened Http
  import opened ApiBase

  const ListPath := "/api/vehicles"
  const GetPrefix := "/api/vehicle/get?id="

  /** `vehicles_list()`: a GET with no query and no body. */
  const ListCall := Call(Get, ListPath, None)

  /** `get(vehicle_id)`: a GET scoped by the `id` query parameter. */
  function GetCall(vehicleId: int): Call
  {
    Call(Get, Scoped(GetPrefix, vehicleId), None)
  }

  datatype Op = VehiclesList | GetVehicle(vehicleId: int)

  function Describe(op: Op): Call
  {
    match op
    case VehiclesList => ListCall
    case GetVehicle(id) => GetCall(id)
  }

  /** The operation a call performs, read off its verb, path and body. */
  function Route(c: Call): Option<Op>
  {
    if c.verb != Get || c.body.Some? then None
    else if c.path == ListPath then Some(VehiclesList)
    else
      var id := ScopedId(c.path, GetPrefix);
      if id.Some? then Some(GetVehicle(id.value)) else None
  }

  /** The two operations never issue the same request, and `get` carries
      its id. */
  lemma RouteDescribe(op: Op)
    ensures Route(Describe(op)) == Some(op)
  {
    match op
    case VehiclesList =>
    case GetVehicle(id) =>
      ScopedRoundTrip(GetPrefix, id);
      assert |GetCall(id).path| > |ListPath|;
  }

  class VehicleApi {
    const base: LubeLoggerApiBase

    constructor(baseUrl: string, username: Option<string>, password: Option<string>)
      ensures fresh(base)
      ensures base.baseUrl == RStripSlash(baseUrl)
      ensures base.username == username && base.password == password
      ensures base.lastError == None
    {
      base := new LubeLoggerApiBase(baseUrl, username, password);
    }

    method VehiclesList(outcome: Outcome) returns (sent: HttpRequest, r: Result<Json, Fault>)
      modifies base
      ensures sent == base.Prepare(ListCall)
      ensures sent.verb == Get && sent.body == None && sent.url == base.baseUrl + ListPath
      ensures r == Classify(outcome)
      ensures base.lastError == LastErrorAfter(old(base.lastError), outcome)
    {
      sent, r := base.Request(ListCall, outcome);
    }

    method GetVehicle(vehicleId: int, outcome: Outcome) returns (sent: HttpRequest, r: Result<Json, Fault>)
      modifies base
      ensures sent == base.Prepare(GetCall(vehicleId))
      ensures sent.verb == Get && sent.body == None
      ensures sent.url == base.baseUrl + GetPrefix + Decimal.IntToString(vehicleId)
      ensures r == Classify(outcome)
      ensures base.lastError == LastErrorAfter(old(base.lastError), outcome)
    {
      sent, r := base.Request(GetCall(vehicleId), outcome);
    }
  }
}
