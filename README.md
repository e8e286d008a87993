# LubeLogger client: request layer and vehicle naming

A Dafny model of the request/response layer of a Home Assistant
integration for LubeLogger, a self-hosted vehicle-maintenance service,
and of the helper that builds a vehicle's display name. The layer exists in
two variants, and each is modelled on its own terms:

- **The single-class client** (`api.py`, module `LegacyApi`). It keeps one
  lazily opened aiohttp session: none, open, then closed, and reopened on
  the next request. It builds the URL from a base stripped of trailing `/`.
  It cleans caller headers (drops `None` keys and values, prints the rest,
  forces `Accept: application/json`). It sends basic auth only when both
  username and password are set. A status of 400 or more becomes a
  `RuntimeError` quoting the status and the body. Below 400 it returns
  JSON for a JSON content type and raw text otherwise. It repairs two
  payloads: the latest odometer reading becomes a float or `None`, and a
  record list becomes `[]` when it is not a list. `add_service_record`
  overwrites `vehicleId` in a copy of the caller's data.
- **The package client** (`api/`). `LubeLoggerApiBase` (module `ApiBase`)
  executes one request with fixed JSON headers. It uses basic auth when
  the username is set. It records every failure in its `_last_error` slot
  before re-raising, through an ordered chain of exception handlers. Four
  resource clients (modules `Vehicles`, `Odometer`, `ServiceRecords`,
  `Fuel`) each map an operation to one fixed (verb, path with query, body)
  call. The façade `LubeLoggerApi` (module `Api`) builds the four clients
  with separate executors.
- **`build_vehicle_name`** (module `VehicleName`, and its copy in sensor.py
  as module `SensorName`). It joins the truthy parts of year, make and
  model with spaces, or falls back to `"Vehicle {id}"`.

The network is not modelled. Each request method takes the round trip's
result as a parameter of type `Http.Outcome`. That is either a response
(status, reason phrase, content type, body text, and what `resp.json()`
yields for it) or an exception raised before a response was read.
Exceptions are the classes the except clauses tell apart (`Http.Fault`).
Python values are `Values.PyValue`: the scalars, plus `PyOther` for
objects whose `str()` is carried as text. Decoded JSON payloads are
`Values.Json`.

Each resource operation has a partner. A `Route` function reads the
operation and its arguments back off the call it issues, and a
`RouteDescribe` lemma proves the round trip. The executor's `_last_error`
transitions are specified by `ApiBase.LastErrorAfter`, and lemmas state
them outcome by outcome. The name helper is characterised against an
independent description, `VehicleName.Present`. A split-on-spaces lemma
shows that skipped parts leave no stray separators.

Where the documented intent and the code disagree, the model follows
the code:
- The name helper can raise. It raises `KeyError` on the fallback path
  when the record has no `id`. It raises `TypeError` when a truthy make or
  model is not a string.
- On a 401 or 403 the package executor does not end with its own
  "Authentication failed (401)" / "Forbidden (403)" texts. The
  `ClientResponseError` it raises is caught by the next handler, which
  writes "HTTP error 401: Authentication failed" (or 403: Forbidden).
- A success does not clear `_last_error`, so a stale error survives.
- The package executor always sends `Content-Type: application/json`, even
  on a GET without a body.
- Only the single-class client coerces the odometer reading and the
  record list, and only it injects `vehicleId` into a service record. The
  package clients return payloads unchanged and scope service records by
  the query string.
- The single-class client needs both username and password for basic
  auth. The package executor needs only the username, with the password
  defaulting to `""`.

## Model

| member | source | states |
|---|---|---|
| `Http.RStripSlash` | api.py:17 | the base URL is the longest prefix of the given one not ending in `/`; everything stripped is `/` |
| `LegacyApi.LubeLoggerApi.constructor` | api.py:16-20 | stores the slash-stripped base URL and both credentials, and starts with no session |
| `LegacyApi.LubeLoggerApi.GetSession` | api.py:22-26 | an open session is reused; with none or a closed one, a fresh session is opened; afterwards the session is open |
| `LegacyApi.LubeLoggerApi.Close` | api.py:28-31 | an open session becomes closed; with no session or a closed one nothing changes, so a repeated close is a no-op |
| `LegacyApi.LubeLoggerApi.Request` | api.py:33-75 | sends to base URL + path with the cleaned headers and the both-credentials auth; the result is the classification of the outcome; the session is open afterwards, whatever the outcome |
| `LegacyApi.Kept` | api.py:40-45 | the caller pairs whose key and value are both not `None`, each printed with `str()`; of two pairs printing as the same key, the later one's value is kept |
| `LegacyApi.CleanHeaders` | api.py:39-46 | the kept caller headers with `Accept` then set to `application/json`, replacing any caller `Accept` |
| `LegacyApi.CleanHeadersSpec` | api.py:39-46 | `Accept: application/json` is always sent and overrides the caller's; any other key is sent iff some caller pair with neither side `None` prints as it |
| `LegacyApi.KeptKeys` | api.py:41-45 | a cleaned header key exists iff a caller pair with no `None` side prints as that key |
| `LegacyApi.KeptLastWins` | api.py:41-45 | a cleaned header's value is the printed value of the last caller pair printing as that key |
| `LegacyApi.LegacyAuth` | api.py:48-50 | basic auth with (username, password) iff both are truthy; no auth otherwise |
| `LegacyApi.Classify` | api.py:52-75 | an exception raised on the way passes through unchanged; status >= 400 fails with `RuntimeError("LubeLogger API error {status}: {text}")`; otherwise an `application/json` response yields what `resp.json()` yields, and any other content type the body text |
| `LegacyApi.ErrorStatusReported` | api.py:61-65 | a status >= 400 always fails with a `RuntimeError` whose message gives back both the status and the body text |
| `LegacyApi.SuccessPayload` | api.py:67-70 | below 400: decoded JSON for `application/json`, the raw text for any other content type |
| `LegacyApi.LubeLoggerApi.GetVehicles` | api.py:81-83 | GET `/api/vehicles` without a body; the payload is returned as classified |
| `LegacyApi.LubeLoggerApi.GetLatestOdometer` | api.py:85-96 | GET `.../odometerrecords/latest?vehicleId={id}`; a payload becomes its float value or `None`; only request errors propagate |
| `LegacyApi.FloatOrNone` | api.py:93-96 | `float(value)` with `TypeError`/`ValueError` mapped to `None`: `null`, lists and objects give `None`; booleans 1.0/0.0; numbers their value; strings whatever Python's float syntax reads from them |
| `LegacyApi.OdometerRepair` | api.py:92-96 | `null`, lists and objects give `None`; numbers give their value; strings give what the float parser makes of them |
| `LegacyApi.LubeLoggerApi.GetOdometerRecords` | api.py:98-106 | GET `/api/vehicle/odometerrecords?vehicleId={id}`; the payload is returned as a list or `[]` |
| `LegacyApi.ListOrEmpty` | api.py:106 | the payload's items when it is a list, `[]` for every other payload |
| `LegacyApi.RecordListRepair` | api.py:105-106 | a list payload is returned unchanged; any non-list (`null`, `{}`, ...) gives `[]` |
| `LegacyApi.LubeLoggerApi.GetServiceHistory` | api.py:108-110 | GET `/api/vehicles/{id}/services` without a body; payload unchanged |
| `LegacyApi.LubeLoggerApi.GetFuelLogs` | api.py:112-114 | GET `/api/vehicles/{id}/fuel` without a body; payload unchanged |
| `LegacyApi.LubeLoggerApi.AddOdometerEntry` | api.py:120-131 | POST `.../odometerrecords/add?vehicleId={id}` with body exactly `{"odometer": value, "date": date}` |
| `LegacyApi.LubeLoggerApi.AddServiceRecord` | api.py:133-142 | POST `/api/vehicle/servicerecords` with the caller's data plus `vehicleId` set to the parameter |
| `LegacyApi.ServicePayload` | api.py:135-136 | the payload has the caller's keys plus `vehicleId`, which maps to the parameter; every other key keeps the caller's value |
| `LegacyApi.Describe` | api.py:81-142 | the verb, path (with the vehicle id printed in decimal) and JSON body each public method passes to `_request`; only the two add methods send a body |
| `LegacyApi.RouteDescribe` | api.py:81-142 | every public method's request identifies the method and carries all its arguments, except a caller `vehicleId` in service-record data, which the parameter overrides |
| `ApiBase.LubeLoggerApiBase.constructor` | api/base.py:15-19 | stores the slash-stripped base URL and the credentials; `_last_error` starts as `None` |
| `ApiBase.AuthFor` | api/base.py:30-35 | basic auth iff the username is truthy, with the password or `""`; no auth otherwise |
| `ApiBase.LubeLoggerApiBase.Prepare` | api/base.py:22-35 | the request goes to base URL + path, with exactly the `Content-Type` and `Accept` JSON headers and the auth above, carrying the call's verb and body |
| `ApiBase.Classify` | api/base.py:39-90 | how the `try` block ends: an exception raised on the way passes through; 401 raises `ClientResponseError(401, "Authentication failed")`; 403 raises `ClientResponseError(403, "Forbidden")`; any other status >= 400 raises `raise_for_status`'s error with status and reason; otherwise what `resp.json()` yields, value or exception |
| `ApiBase.Recorded` | api/base.py:92-110 | what the first matching except clause writes: "Timeout", "Connection error: {err}", "HTTP error {status}: {message}", or "Unexpected error: {err}" for anything else |
| `ApiBase.LastErrorAfter` | api/base.py:39-110 | `_last_error` after one request: the recorded text of the failure when the request fails, the previous value when it succeeds |
| `ApiBase.LubeLoggerApiBase.Request` | api/base.py:21-110 | the sent request is `Prepare(call)`; the result is the classified outcome; `_last_error` ends as `LastErrorAfter`, after the intermediate 401/403 writes are overwritten |
| `ApiBase.AuthenticationFailureRecorded` | api/base.py:63-71 | a 401 fails with `ClientResponseError(401, "Authentication failed")` and leaves `_last_error` = "HTTP error 401: Authentication failed" |
| `ApiBase.ForbiddenRecorded` | api/base.py:73-81 | a 403 fails with `ClientResponseError(403, "Forbidden")` and leaves `_last_error` = "HTTP error 403: Forbidden" |
| `ApiBase.HttpErrorRecorded` | api/base.py:83-105 | any other status >= 400 fails with that exact status and the reason; the recorded text gives both back |
| `Http.StatusMessageRoundTrip` | api/base.py:103 | a "prefix{status}: {text}" message determines status and text, even when the text contains colons |
| `ApiBase.TransientFailuresRecorded` | api/base.py:92-100 | a timeout records "Timeout"; a connection failure records "Connection error: " and the error text; both re-raise |
| `ApiBase.FailureIffRecorded` | api/base.py:85-110 | a request fails iff it raised, got status >= 400, or could not decode its body; every failure is recorded, overwriting any earlier one |
| `ApiBase.SuccessKeepsLastError` | api/base.py:85-86 | a success returns the decoded payload, never a text fallback, and leaves a stale `_last_error` in place |
| `Odometer.LatestCall` | api/odometer.py:7-11 | GET `/api/vehicle/odometerrecords/latest?vehicleId={id}` with no body |
| `Odometer.AddBody` | api/odometer.py:17 | the JSON object `{"odometer": value, "date": date}` |
| `Odometer.AddCall` | api/odometer.py:13-18 | POST `/api/vehicle/odometerrecords/add?vehicleId={id}` with that body |
| `Odometer.Describe` | api/odometer.py:7-18 | the call each of the two methods makes, as above |
| `Odometer.OdometerApi.constructor` | api/odometer.py:5 | builds its own executor with the given settings and `_last_error` = `None` |
| `Odometer.OdometerApi.GetLatestOdometer` | api/odometer.py:7-11 | GET `/api/vehicle/odometerrecords/latest?vehicleId={id}` without a body; the payload is returned with no coercion |
| `Odometer.OdometerApi.Add` | api/odometer.py:13-18 | POST `/api/vehicle/odometerrecords/add?vehicleId={id}` with body exactly `{"odometer": value, "date": date}` |
| `Odometer.RouteDescribe` | api/odometer.py:7-18 | each operation's call identifies it and carries all its arguments |
| `ServiceRecords.ListCall` | api/service_records.py:7-11 | GET `/api/vehicle/servicerecords/list?vehicleId={id}` with no body |
| `ServiceRecords.AddCall` | api/service_records.py:13-18 | POST `/api/vehicle/servicerecords/add?vehicleId={id}` with the caller's data as body |
| `ServiceRecords.Describe` | api/service_records.py:7-18 | the call each of the two methods makes, as above |
| `ServiceRecords.ServiceRecordApi.constructor` | api/service_records.py:5 | builds its own executor with the given settings and `_last_error` = `None` |
| `ServiceRecords.ServiceRecordApi.List` | api/service_records.py:7-11 | GET `/api/vehicle/servicerecords/list?vehicleId={id}` without a body; a `null` payload is not coerced |
| `ServiceRecords.ServiceRecordApi.Add` | api/service_records.py:13-18 | POST `/api/vehicle/servicerecords/add?vehicleId={id}` with the caller's data unchanged as body |
| `ServiceRecords.RouteDescribe` | api/service_records.py:7-18 | each operation's call carries its arguments; the data arrives untouched, with the vehicle only in the query |
| `Fuel.ListCall` | api/fuel.py:7-11 | GET `/api/vehicle/fuelrecords/list?vehicleId={id}` with no body |
| `Fuel.AddCall` | api/fuel.py:13-18 | POST `/api/vehicle/fuelrecords/add?vehicleId={id}` with the caller's data as body |
| `Fuel.Describe` | api/fuel.py:7-18 | the call each of the two methods makes, as above |
| `Fuel.FuelApi.constructor` | api/fuel.py:5 | builds its own executor with the given settings and `_last_error` = `None` |
| `Fuel.FuelApi.List` | api/fuel.py:7-11 | GET `/api/vehicle/fuelrecords/list?vehicleId={id}` without a body; the payload is not coerced |
| `Fuel.FuelApi.Add` | api/fuel.py:13-18 | POST `/api/vehicle/fuelrecords/add?vehicleId={id}` with the caller's data unchanged as body |
| `Fuel.RouteDescribe` | api/fuel.py:7-18 | each operation's call carries its arguments; the data arrives untouched, with the vehicle only in the query |
| `Vehicles.GetCall` | api/vehicles.py:10-11 | GET `/api/vehicle/get?id={id}` with no body |
| `Vehicles.Describe` | api/vehicles.py:7-11 | `vehicles_list` makes GET `/api/vehicles` with no query and no body; `get` the call above |
| `Vehicles.VehicleApi.constructor` | api/vehicles.py:5 | builds its own executor with the given settings and `_last_error` = `None` |
| `Vehicles.VehicleApi.VehiclesList` | api/vehicles.py:7-8 | GET `/api/vehicles` with no query and no body; payload unchanged |
| `Vehicles.VehicleApi.GetVehicle` | api/vehicles.py:10-11 | GET `/api/vehicle/get?id={id}` without a body; payload unchanged, and errors only as the executor raises them |
| `Vehicles.RouteDescribe` | api/vehicles.py:7-11 | the two operations never issue the same call, and `get` carries its id |
| `Api.LubeLoggerApi.constructor` | api/__init__.py:12-16 | four sub-clients with pairwise distinct executors, all built from the same base URL and credentials, each with `_last_error` = `None` |
| `Api.Perform` | api/__init__.py:12-16 | any operation of any of the four sub-clients is prepared and classified by that sub-client's executor, sets that executor's `_last_error` as `LastErrorAfter` says, and leaves the other three sub-clients' `_last_error` unchanged |
| `VehicleName.Parts` | sensors/utils.py:8-12 | the candidates `[str(year) if year else None, make, model]`, with `None` for a missing year and `""` for a missing make or model |
| `VehicleName.BuildVehicleName` | sensors/utils.py:6-15 | the truthy candidates joined by single spaces, or `TypeError` when one is not a string; an empty join falls back to "Vehicle {str(id)}", or `KeyError('id')` without an id |
| `VehicleName.JoinedName` | sensors/utils.py:8-13 | with year, make or model set, the name is the truthy ones, in the order year (as `str`), make, model, joined by single spaces, and it is non-empty |
| `VehicleName.FallbackName` | sensors/utils.py:15 | with all three falsy, the name is "Vehicle {id}"; a record without `id` raises `KeyError` |
| `VehicleName.NonStringPartRaises` | sensors/utils.py:13 | a truthy make or model that is not a string makes the join raise `TypeError` |
| `VehicleName.NameNeverEmpty` | sensors/utils.py:12-15 | the name is never the empty string |
| `VehicleName.NameSplitsIntoParts` | sensors/utils.py:12-13 | for space-free parts, splitting the name on spaces gives back exactly the present parts: no leading, trailing or doubled separators |
| `VehicleName.IdOnlyForFallback` | sensors/utils.py:15 | the id is read only on the fallback path: records agreeing on a set year/make/model get the same name whatever their ids |
| `VehicleName.FordWithoutModel` | sensors/utils.py:8-13 | `{year: 2020, make: "Ford", model: None}` is named "2020 Ford" |
| `SensorName.BuildVehicleName` | sensor.py:33-42 | the second copy, written out as sensor.py does: the same candidates, join and fallback as the sensors/utils.py helper |
| `SensorName.SameAsUtils` | sensor.py:33-42 | the sensor.py copy gives the same result as the sensors/utils.py one on every record |
| `SensorName.NameShape` | sensor.py:35-42 | this copy's name is the space-joined truthy parts, or "Vehicle {id}" when none is set, and never empty |

## Left out

- Network I/O, aiohttp sessions as connection pools, the event loop and the 20-second `async_timeout`. The round trip is the `Outcome` parameter, and an expired timer is its `TimeoutError` fault.
- JSON decoding, the text decoding of `resp.text()`, and aiohttp's parsing of the content type. `Outcome` carries their results.
- Logging and the `time.monotonic` duration, including the `auth_mode` string, which only feeds a log line.
- JSON objects are Dafny maps, so the key order of a sent body is not modelled.
- The `_request` keyword arguments other than `json` and `headers`; none of the callers passes any. A `headers=None` argument is the empty list.
- `ApiBase.LubeLoggerApiBase.Request` does not model the `ValueError` that `aiohttp.BasicAuth` raises for a username containing `:`. It is raised before the `try`, so `_last_error` would stay untouched.
- `LegacyApi.LubeLoggerApi.Request` likewise does not model that `ValueError`.
- `LegacyApi.FloatOrNone` converts every integer exactly. Python's `float()` rounds large integers and raises `OverflowError` (not caught) above the float range. Strings go through a parser given as a parameter, standing for Python's float syntax.
- Vehicle ids are `int` and odometer values `real`, as the methods' type annotations say. The services that call the odometer and fuel clients (services/odometer.py:14-16, services/fuel.py:13-15) can pass a `None` id read from an entity attribute, giving `?vehicleId=None`, and an `int` value would be sent as a JSON integer; the model follows the annotations and does not cover those calls.
- `str()` of floats, lists and dicts is not computed. Such values are `PyOther` and carry their printed text.
- `CancelledError` and other `BaseException`s that are not `Exception`s. Concurrency between simultaneous requests.
- Which variant the integration loads, and the Home Assistant entity classes, setup, services, config flow, diagnostics and constants.
