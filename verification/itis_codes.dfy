/** The ITIS advisory-code lookup of the RSA message creator
    (`ITISRSACodeGen` and its two switch helpers): two total tables whose
    results are concatenated, category code first. ITIS codes are those of
    SAE J2540/2; their numeric values live in a constants class that is not
    part of this model, so each code is a constructor here. */
module ItisCodes {
  import opened Values

  datatype ItisCode =
    | HazardousMaterialVehicle
    | PedestrianOnRoad
    | RoadClosureLaneBlockage
    | MobileConstruction
    | StopAndGoTraffic
    | StoppedVehicle

  /** The four codes the category table can produce. */
  predicate IsCategoryCode(c: ItisCode) {
    c.HazardousMaterialVehicle? || c.PedestrianOnRoad? || c.RoadClosureLaneBlockage? || c.MobileConstruction?
  }

  /** The category table read backwards: the category name of each category code. */
  function CategoryLabel(c: ItisCode): string
    requires IsCategoryCode(c)
  {
    match c
    case HazardousMaterialVehicle => "dynamic_object.vehicle.truck"
    case PedestrianOnRoad => "dynamic_object.human.pedestrian"
    case RoadClosureLaneBlockage => "movable_object.barrier"
    case MobileConstruction => "movable_object.traffic_cone"
  }

  /** The vehicle-state table read backwards. */
  function VehicleStateLabel(c: ItisCode): string
    requires !IsCategoryCode(c)
  {
    match c
    case StopAndGoTraffic => "moving"
    case StoppedVehicle => "stopped"
  }

  /** `getCategoryITISCode`: a code exactly for the four category names of
      the table, and then the code whose name it is; none otherwise. */
  function GetCategoryItisCode(categoryName: string): (r: Option<ItisCode>)
    ensures r.Some? ==> IsCategoryCode(r.value) && CategoryLabel(r.value) == categoryName
    ensures forall c :: IsCategoryCode(c) && CategoryLabel(c) == categoryName ==> r == Some(c)
  {
    if categoryName == "dynamic_object.vehicle.truck" then Some(HazardousMaterialVehicle)
    else if categoryName == "dynamic_object.human.pedestrian" then Some(PedestrianOnRoad)
    else if categoryName == "movable_object.barrier" then Some(RoadClosureLaneBlockage)
    else if categoryName == "movable_object.traffic_cone" then Some(MobileConstruction)
    else None
  }

  /** `getVehicleStateITISCode`: "moving" and "stopped" have a code, no
      other state has. */
  function GetVehicleStateItisCode(vehicleState: string): (r: Option<ItisCode>)
    ensures r.Some? ==> !IsCategoryCode(r.value) && VehicleStateLabel(r.value) == vehicleState
    ensures forall c :: !IsCategoryCode(c) && VehicleStateLabel(c) == vehicleState ==> r == Some(c)
  {
    if vehicleState == "moving" then Some(StopAndGoTraffic)
    else if vehicleState == "stopped" then Some(StoppedVehicle)
    else None
  }

  /** A null or "0" input is skipped without consulting its table. */
  predicate Considered(s: Option<string>) {
    s.Some? && s.value != "0"
  }

  /** `ITISRSACodeGen(categoryName, vehicleState)`, null being None: the
      code of the category (if the table has one) followed by the code of
      the vehicle state (if the table has one). */
  function ItisRsaCodeGen(categoryName: Option<string>, vehicleState: Option<string>): (r: seq<ItisCode>)
    ensures |r| <= 2
  {
    var categoryCodes :=
      if Considered(categoryName) then
        match GetCategoryItisCode(categoryName.value)
        case Some(code) => [code]
        case None => []
      else [];
    var vehicleStateCodes :=
      if Considered(vehicleState) then
        match GetVehicleStateItisCode(vehicleState.value)
        case Some(code) => [code]
        case None => []
      else [];
    categoryCodes + vehicleStateCodes
  }

  /** The codes are those whose names were given, at most one of each kind,
      the category code first; a null or "0" input adds no code. */
  lemma ItisRsaCodeGenSpec(categoryName: Option<string>, vehicleState: Option<string>)
    ensures var r := ItisRsaCodeGen(categoryName, vehicleState);
            && (forall i, j :: 0 <= i < j < |r| ==> IsCategoryCode(r[i]) && !IsCategoryCode(r[j]))
            && (forall c :: IsCategoryCode(c) ==> (c in r <==> categoryName == Some(CategoryLabel(c))))
            && (forall c :: !IsCategoryCode(c) ==> (c in r <==> vehicleState == Some(VehicleStateLabel(c))))
            && (!Considered(categoryName) ==> forall i :: 0 <= i < |r| ==> !IsCategoryCode(r[i]))
            && (!Considered(vehicleState) ==> forall i :: 0 <= i < |r| ==> IsCategoryCode(r[i]))
  {
  }

  /** Three sample inputs: a truck that moves, two "0" inputs, and a null
      category with a stopped vehicle. */
  lemma ItisRsaCodeGenExamples()
    ensures ItisRsaCodeGen(Some("dynamic_object.vehicle.truck"), Some("moving"))
            == [HazardousMaterialVehicle, StopAndGoTraffic]
    ensures ItisRsaCodeGen(Some("0"), Some("0")) == []
    ensures ItisRsaCodeGen(None, Some("stopped")) == [StoppedVehicle]
  {
  }
}
