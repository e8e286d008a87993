/** `LubeLoggerApi` (api/__init__.py): the façade the integration holds. It
    is nothing but four resource clients, each built from the same
    connection settings and each with its own executor, hence its own
    `_last_error`. */
module Api {
  import opened Wrappers
  import opened Values
  import opened Http
  import opened ApiBase
  import Vehicles
  import Odometer
  import ServiceRecords
  import Fuel

  class LubeLoggerApi {
    const vehicles: Vehicles.VehicleApi
    const odometer: Odometer.OdometerApi
    const serviceRecords: ServiceRecords.ServiceRecordApi
    const fuel: Fuel.FuelApi

    /** The four executors are distinct objects. */
    ghost predicate Independent()
    {
      && vehicles.base != odometer.base
      && vehicles.base != serviceRecords.base
      && vehicles.base != fuel.base
      && odometer.base != serviceRecords.base
      && odometer.base != fuel.base
      && serviceRecords.base != fuel.base
    }

    /** Every executor uses the same connection settings. */
    ghost predicate SharesSettings(baseUrl: string, username: Option<string>, password: Option<string>)
    {
      && SettingsOf(vehicles.base, baseUrl, username, password)
      && SettingsOf(odometer.base, baseUrl, username, password)
      && SettingsOf(serviceRecords.base, baseUrl, username, password)
      && SettingsOf(fuel.base, baseUrl, username, password)
    }

    constructor(baseUrl: string, username: Option<string>, password: Option<string>)
      ensures Independent()
      ensures SharesSettings(baseUrl, username, password)
      ensures fresh(vehicles.base) && fresh(odometer.base) && fresh(serviceRecords.base) && fresh(fuel.base)
      ensures vehicles.base.lastError == None && odometer.base.lastError == None
      ensures serviceRecords.base.lastError == None && fuel.base.lastError == None
    {
      vehicles := new Vehicles.VehicleApi(baseUrl, username, password);
      odometer := new Odometer.OdometerApi(baseUrl, username, password);
      serviceRecords := new ServiceRecords.ServiceRecordApi(baseUrl, username, password);
      fuel := new Fuel.FuelApi(baseUrl, username, password);
    }
  }

  ghost predicate SettingsOf(b: LubeLoggerApiBase, baseUrl: string, username: Option<string>, password: Option<string>)
  {
    b.baseUrl == RStripSlash(baseUrl) && b.username == username && b.password == password
  }

  /** A request a caller of the façade can issue: one operation of one of
      the four sub-clients. */
  datatype Operation =
    | OnVehicles(v: Vehicles.Op)
    | OnOdometer(o: Odometer.Op)
    | OnServiceRecords(s: ServiceRecords.Op)
    | OnFuel(f: Fuel.Op)

  /** The executor that carries out an operation. */
  function Executor(api: LubeLoggerApi, op: Operation): LubeLoggerApiBase
  {
    match op
    case OnVehicles(_) => api.vehicles.base
    case OnOdometer(_) => api.odometer.base
    case OnServiceRecords(_) => api.serviceRecords.base
    case OnFuel(_) => api.fuel.base
  }

  /** The call an operation issues, as its sub-client describes it. */
  function CallOf(op: Operation): Call
  {
    match op
    case OnVehicles(v) => Vehicles.Describe(v)
    case OnOdometer(o) => Odometer.Describe(o)
    case OnServiceRecords(s) => ServiceRecords.Describe(s)
    case OnFuel(f) => Fuel.Describe(f)
  }

  /** `api.<client>.<operation>(...)`: any request through the façade is
      prepared and classified by its sub-client's executor, changes that
      executor's `_last_error` as `LastErrorAfter` says, and leaves every
      other sub-client's `_last_error` as it was. */
  method Perform(api: LubeLoggerApi, op: Operation, outcome: Outcome)
    returns (sent: HttpRequest, r: Result<Json, Fault>)
    requires api.Independent()
    modifies Executor(api, op)
    ensures sent == Executor(api, op).Prepare(CallOf(op))
    ensures r == Classify(outcome)
    ensures Executor(api, op).lastError == LastErrorAfter(old(Executor(api, op).lastError), outcome)
    ensures !op.OnVehicles? ==> api.vehicles.base.lastError == old(api.vehicles.base.lastError)
    ensures !op.OnOdometer? ==> api.odometer.base.lastError == old(api.odometer.base.lastError)
    ensures !op.OnServiceRecords? ==>
      api.serviceRecords.base.lastError == old(api.serviceRecords.base.lastError)
    ensures !op.OnFuel? ==> api.fuel.base.lastError == old(api.fuel.base.lastError)
  {
    match op {
      case OnVehicles(v) =>
        match v {
          case VehiclesList => sent, r := api.vehicles.VehiclesList(outcome);
          case GetVehicle(id) => sent, r := api.vehicles.GetVehicle(id, outcome);
        }
      case OnOdometer(o) =>
        match o {
          case LatestOdometer(id) => sent, r := api.odometer.GetLatestOdometer(id, outcome);
          case Add(id, value, date) => sent, r := api.odometer.Add(id, value, date, outcome);
        }
      case OnServiceRecords(s) =>
        match s {
          case List(id) => sent, r := api.serviceRecords.List(id, outcome);
          case Add(id, data) => sent, r := api.serviceRecords.Add(id, data, outcome);
        }
      case OnFuel(f) =>
        match f {
          case List(id) => sent, r := api.fuel.List(id, outcome);
          case Add(id, data) => sent, r := api.fuel.Add(id, data, outcome);
        }
    }
  }
}
