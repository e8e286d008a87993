/** `build_vehicle_name` as sensor.py defines it for its own entities: a
    second copy of the sensors/utils.py helper, written out again here as
    the source does, and shown to agree with it on every record. */
module SensorName {
  import opened Wrappers
  import opened Values
  import VehicleName

  function BuildVehicleName(vehicle: map<string, PyValue>): Result<string, VehicleName.NameError>
  {
    var year := Get(vehicle, "year", PyNone);
    var make := Get(vehicle, "make", PyStr(""));
    var model := Get(vehicle, "model", PyStr(""));
    var parts := [if Truthy(year) then PyStr(Str(year)) else PyNone, make, model];
    match StrJoin(" ", TruthyOnly(parts))
    case None => Failure(VehicleName.TypeError)
    case Some(name) =>
      if name != "" then Success(name)
      else if "id" in vehicle then Success("Vehicle " + Str(vehicle["id"]))
      else Failure(VehicleName.KeyError("id"))
  }

  /** Both copies give the same name, or raise the same error, for every
      record; so every property proved of the sensors/utils.py copy holds
      of this one. */
  lemma SameAsUtils(vehicle: map<string, PyValue>)
    ensures BuildVehicleName(vehicle) == VehicleName.BuildVehicleName(vehicle)
  {
  }

  /** This copy's name, like the other's: the year, make and model that are
      set, in that order and joined by single spaces, or "Vehicle {id}"
      when none is; never empty. */
  lemma NameShape(vehicle: map<string, PyValue>)
    ensures VehicleName.NoParts(vehicle) && "id" in vehicle ==>
      BuildVehicleName(vehicle) == Success("Vehicle " + Str(vehicle["id"]))
    ensures !VehicleName.NoParts(vehicle) && VehicleName.StringParts(vehicle) ==>
      BuildVehicleName(vehicle) == Success(Join(" ", VehicleName.Present(vehicle)))
    ensures BuildVehicleName(vehicle).Success? ==> BuildVehicleName(vehicle).value != ""
  {
    VehicleName.NameNeverEmpty(vehicle);
    if VehicleName.NoParts(vehicle) {
      VehicleName.FallbackName(vehicle);
    } else if VehicleName.StringParts(vehicle) {
      VehicleName.JoinedName(vehicle);
    }
  }
}
