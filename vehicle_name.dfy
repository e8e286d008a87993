/** `build_vehicle_name` (sensors/utils.py): a display name for a vehicle
    record, made of its year, make and model, or "Vehicle {id}" when none
    of them is set. The record is a dict of Python values; the function can
    raise, which the model returns as a `NameError`. */
module VehicleName {
  import opened Wrappers
  import opened Values

  /** `KeyError('id')` when the fallback needs an id the record lacks;
      `TypeError` when `" ".join` meets a truthy make or model that is not
      a string. */
  datatype NameError = KeyError(key: string) | TypeError

  function Year(vehicle: map<string, PyValue>): PyValue { Get(vehicle, "year", PyNone) }
  function Make(vehicle: map<string, PyValue>): PyValue { Get(vehicle, "make", PyStr("")) }
  function Model(vehicle: map<string, PyValue>): PyValue { Get(vehicle, "model", PyStr("")) }

  /** The candidate parts: `str(year)` when the year is truthy (else
      `None`), the make and the model. */
  function Parts(vehicle: map<string, PyValue>): seq<PyValue>
  {
    var year := Year(vehicle);
    [if Truthy(year) then PyStr(Str(year)) else PyNone, Make(vehicle), Model(vehicle)]
  }

  function BuildVehicleName(vehicle: map<string, PyValue>): Result<string, NameError>
  {
    match StrJoin(" ", TruthyOnly(Parts(vehicle)))
    case None => Failure(TypeError)
    case Some(name) =>
      if name != "" then Success(name)
      else if "id" in vehicle then Success("Vehicle " + Str(vehicle["id"]))
      else Failure(KeyError("id"))
  }

  // -----------------------------------------------------------------------
  // Reference description of the name
  // -----------------------------------------------------------------------

  /** Year, make and model are all absent or falsy. */
  predicate NoParts(vehicle: map<string, PyValue>)
  {
    !Truthy(Year(vehicle)) && !Truthy(Make(vehicle)) && !Truthy(Model(vehicle))
  }

  /** Every make or model that counts is a string, so joining cannot fail. */
  predicate StringParts(vehicle: map<string, PyValue>)
  {
    (Truthy(Make(vehicle)) ==> Make(vehicle).PyStr?) && (Truthy(Model(vehicle)) ==> Model(vehicle).PyStr?)
  }

  /** The words of the name: `str(year)` if the year is truthy, then the
      make, then the model, each only if truthy. */
  function Present(vehicle: map<string, PyValue>): seq<string>
  {
    var year := Year(vehicle);
    var make := Make(vehicle);
    var model := Model(vehicle);
    (if Truthy(year) then [Str(year)] else [])
      + (if Truthy(make) && make.PyStr? then [make.s] else [])
      + (if Truthy(model) && model.PyStr? then [model.s] else [])
  }

  /** The filtered parts are strings, and exactly the words of `Present`. */
  lemma TruthyOnlyParts(vehicle: map<string, PyValue>)
    requires StringParts(vehicle)
    ensures AllStr(TruthyOnly(Parts(vehicle))) && Strings(TruthyOnly(Parts(vehicle))) == Present(vehicle)
  {
    var year, make, model := Year(vehicle), Make(vehicle), Model(vehicle);
    var first := if Truthy(year) then PyStr(Str(year)) else PyNone;
    var a := if Truthy(first) then [first] else [];
    var b := if Truthy(make) then [make] else [];
    var c := if Truthy(model) then [model] else [];
    TruthyOnlyThree(first, make, model);
    assert TruthyOnly(Parts(vehicle)) == a + b + c;
    assert Strings(a) == (if Truthy(year) then [Str(year)] else []) by { TruthyPrints(year); }
    assert Strings(b) == (if Truthy(make) && make.PyStr? then [make.s] else []);
    assert Strings(c) == (if Truthy(model) && model.PyStr? then [model.s] else []);
    StringsAppend(a, b);
    StringsAppend(a + b, c);
  }

  // -----------------------------------------------------------------------
  // Properties
  // -----------------------------------------------------------------------

  /** With a year, make or model set (and joinable), the name is exactly
      those words in the order year, make, model, joined by single spaces,
      and it is never empty. */
  lemma JoinedName(vehicle: map<string, PyValue>)
    requires !NoParts(vehicle) && StringParts(vehicle)
    ensures BuildVehicleName(vehicle) == Success(Join(" ", Present(vehicle)))
    ensures Join(" ", Present(vehicle)) != ""
  {
    var t := TruthyOnly(Parts(vehicle));
    TruthyOnlyParts(vehicle);
    StrJoinIsJoin(" ", t);
    PresentStartsNonEmpty(vehicle);
    JoinNonEmpty(" ", Present(vehicle));
  }

  /** With a part set, the first word of the name is not empty. */
  lemma PresentStartsNonEmpty(vehicle: map<string, PyValue>)
    requires !NoParts(vehicle) && StringParts(vehicle)
    ensures |Present(vehicle)| > 0 && Present(vehicle)[0] != ""
  {
    TruthyPrints(Year(vehicle));
  }

  /** With none of them set, the name is "Vehicle {id}", and a record
      without an id raises `KeyError`. */
  lemma FallbackName(vehicle: map<string, PyValue>)
    requires NoParts(vehicle)
    ensures "id" in vehicle ==> BuildVehicleName(vehicle) == Success("Vehicle " + Str(vehicle["id"]))
    ensures "id" !in vehicle ==> BuildVehicleName(vehicle) == Failure(KeyError("id"))
  {
    TruthyOnlyParts(vehicle);
    StrJoinIsJoin(" ", TruthyOnly(Parts(vehicle)));
  }

  /** A truthy make or model that is not a string makes `" ".join` raise. */
  lemma NonStringPartRaises(vehicle: map<string, PyValue>)
    requires !StringParts(vehicle)
    ensures BuildVehicleName(vehicle) == Failure(TypeError)
  {
    var make := Make(vehicle);
    var model := Model(vehicle);
    var parts := Parts(vehicle);
    TruthyOnlyThree(parts[0], make, model);
    var t := TruthyOnly(parts);
    if Truthy(make) && !make.PyStr? {
      assert make in t;
    } else {
      assert model in t;
    }
  }

  /** The name is never the empty string. */
  lemma NameNeverEmpty(vehicle: map<string, PyValue>)
    ensures BuildVehicleName(vehicle).Success? ==> BuildVehicleName(vehicle).value != ""
  {
    if !StringParts(vehicle) {
      NonStringPartRaises(vehicle);
    } else if NoParts(vehicle) {
      FallbackName(vehicle);
    } else {
      JoinedName(vehicle);
    }
  }

  /** When the words contain no spaces, splitting the name on spaces gives
      back exactly the words: skipped parts leave no leading, trailing or
      doubled separator. */
  lemma NameSplitsIntoParts(vehicle: map<string, PyValue>)
    requires !NoParts(vehicle) && StringParts(vehicle)
    requires forall i, k :: 0 <= i < |Present(vehicle)| && 0 <= k < |Present(vehicle)[i]| ==> Present(vehicle)[i][k] != ' '
    ensures BuildVehicleName(vehicle).Success?
    ensures Split(BuildVehicleName(vehicle).value) == Present(vehicle)
  {
    JoinedName(vehicle);
    SplitJoin(Present(vehicle));
  }

  /** The id is read only on the fallback path: records that agree on year,
      make and model and have one of them set get the same name, whatever
      their ids (or lack of one). */
  lemma IdOnlyForFallback(v1: map<string, PyValue>, v2: map<string, PyValue>)
    requires Year(v1) == Year(v2) && Make(v1) == Make(v2) && Model(v1) == Model(v2)
    requires !NoParts(v1)
    ensures BuildVehicleName(v1) == BuildVehicleName(v2)
  {
    if StringParts(v1) {
      JoinedName(v1);
      JoinedName(v2);
    } else {
      NonStringPartRaises(v1);
      NonStringPartRaises(v2);
    }
  }

  /** `{year: 2020, make: "Ford", model: None}` is named "2020 Ford". */
  lemma FordWithoutModel()
    ensures BuildVehicleName(map["year" := PyInt(2020), "make" := PyStr("Ford"), "model" := PyNone])
      == Success("2020 Ford")
  {
    var v := map["year" := PyInt(2020), "make" := PyStr("Ford"), "model" := PyNone];
    assert Year(v) == PyInt(2020) && Make(v) == PyStr("Ford") && Model(v) == PyNone;
    assert Decimal.IntToString(2020) == "2020";
    JoinedName(v);
    assert Present(v) == ["2020", "Ford"];
    assert ["2020", "Ford"][1..] == ["Ford"];
    assert Join(" ", ["2020", "Ford"]) == "2020" + " " + "Ford";
    assert "2020" + " " + "Ford" == "2020 Ford";
    assert BuildVehicleName(v) == Success("2020 Ford");
  }
}
