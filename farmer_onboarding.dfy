/** Farmer registration: the form, its all-fields guard, and the parameters the farmer
    dashboard is opened with. */
module FarmerOnboarding {
  import opened Common

  /** The options of the land-area unit picker. */
  const LandUnits: seq<string> := ["acres", "hectare", "meter sq", "sq feet"]

  /** The form as it stands when "Submit Registration" is pressed. */
  datatype FarmerForm = FarmerForm(
    name: string, state: string, village: string, location: Option<Coordinates>,
    landArea: string, annualRevenue: string, idImage: Option<Asset>, landAreaUnit: string)

  /** The guard of `handleSubmit`: every text field filled, a location read and an ID
      image picked. */
  predicate Complete(f: FarmerForm)
  {
    f.name != "" && f.state != "" && f.village != "" && f.location.Some? &&
    f.landArea != "" && f.annualRevenue != "" && f.idImage.Some?
  }

  /** `uid || \`mock-user-${Date.now()}\`` */
  function UserId(uid: Option<Param>, nowMs: nat): (p: Param)
    ensures ParamTruthy(uid) ==> p == uid.value
    ensures !ParamTruthy(uid) ==> p == PStr("mock-user-" + DecimalString(nowMs))
  {
    if ParamTruthy(uid) then uid.value else PStr("mock-user-" + DecimalString(nowMs))
  }

  /** `farmerData` */
  function FarmerData(f: FarmerForm, uid: Option<Param>, nowMs: nat): (p: Params)
    requires f.idImage.Some?
    ensures p.Keys == {"uid", "name", "state", "village", "landArea", "annualRevenue", "idImageUri"}
    ensures p["uid"] == UserId(uid, nowMs)
    ensures p["name"] == PStr(f.name) && p["state"] == PStr(f.state) && p["village"] == PStr(f.village)
    ensures p["landArea"] == PStr(f.landArea + " " + f.landAreaUnit)
    ensures p["annualRevenue"] == PStr(f.annualRevenue) && p["idImageUri"] == PStr(f.idImage.value.uri)
  {
    map["uid" := UserId(uid, nowMs), "name" := PStr(f.name), "state" := PStr(f.state),
        "village" := PStr(f.village), "landArea" := PStr(f.landArea + " " + f.landAreaUnit),
        "annualRevenue" := PStr(f.annualRevenue), "idImageUri" := PStr(f.idImage.value.uri)]
  }

  /** `handleSubmit`: no navigation unless the form is complete, then a replace to the
      farmer dashboard with `farmerData`. The location is required but not sent. */
  function Submit(f: FarmerForm, uid: Option<Param>, nowMs: nat): (n: Option<Nav>)
    ensures n.None? <==>
      f.name == "" || f.state == "" || f.village == "" || f.location.None? ||
      f.landArea == "" || f.annualRevenue == "" || f.idImage.None?
    ensures n.Some? ==> n.value.kind == Replace && n.value.pathname == "/farmerDashboard" &&
                        n.value.params == FarmerData(f, uid, nowMs)
  {
    if Complete(f) then Some(Nav(Replace, "/farmerDashboard", FarmerData(f, uid, nowMs))) else None
  }

  /** The land-area parameter is the number entered, one space, then the unit. */
  lemma LandAreaEndsWithUnit(f: FarmerForm, uid: Option<Param>, nowMs: nat)
    requires f.idImage.Some?
    ensures var s := FarmerData(f, uid, nowMs)["landArea"].s;
            |s| == |f.landArea| + 1 + |f.landAreaUnit| &&
            s[..|f.landArea|] == f.landArea && s[|f.landArea|] == ' ' &&
            s[|f.landArea| + 1..] == f.landAreaUnit
  {
    var s := f.landArea + " " + f.landAreaUnit;
    assert s[..|f.landArea|] == f.landArea;
    assert s[|f.landArea| + 1..] == f.landAreaUnit;
  }

  class Onboarding {
    var name: string
    var state: string
    var village: string
    var location: Option<Coordinates>
    var landArea: string
    var annualRevenue: string
    var idImage: Option<Asset>
    var landAreaUnit: string
    var isUnitModalVisible: bool

    /** The unit is always one of the picker's options. */
    ghost predicate Valid()
      reads this
    {
      landAreaUnit in LandUnits
    }

    constructor()
      ensures Valid() && landAreaUnit == "acres" && !isUnitModalVisible
      ensures name == "" && state == "" && village == "" && location.None?
      ensures landArea == "" && annualRevenue == "" && idImage.None?
    {
      name, state, village, location := "", "", "", None;
      landArea, annualRevenue, idImage := "", "", None;
      landAreaUnit, isUnitModalVisible := "acres", false;
    }

    function Form(): FarmerForm
      reads this
    {
      FarmerForm(name, state, village, location, landArea, annualRevenue, idImage, landAreaUnit)
    }

    /** Choosing `option` in the unit picker, which offers only `LandUnits`. */
    method SelectUnit(option: string)
      requires Valid() && option in LandUnits
      modifies this`landAreaUnit, this`isUnitModalVisible
      ensures Valid() && landAreaUnit == option && !isUnitModalVisible
    {
      landAreaUnit := option;
      isUnitModalVisible := false;
    }

    /** `handleGetLocation`, given what the location request resolved to. */
    method HandleGetLocation(r: LocationResult)
      modifies this`location
      ensures location == AfterLocation(old(location), r)
    {
      if r.Located? {
        location := Some(r.coords);
      }
    }

    /** `handlePickImage`. Only a refused permission or a cancel keeps the image; a
        result without assets stores `undefined`, which the guard treats as missing. */
    method HandlePickImage(r: PickResult)
      modifies this`idImage
      ensures r.Picked? ==> idImage == (if |r.assets| > 0 then Some(r.assets[0]) else None)
      ensures !r.Picked? ==> idImage == old(idImage)
    {
      if r.Picked? {
        idImage := if |r.assets| > 0 then Some(r.assets[0]) else None;
      }
    }

    /** "Submit Registration" with the route's `uid` at time `nowMs`. */
    method HandleSubmit(uid: Option<Param>, nowMs: nat) returns (nav: Option<Nav>)
      ensures nav == Submit(Form(), uid, nowMs)
    {
      if name == "" || state == "" || village == "" || location.None? ||
         landArea == "" || annualRevenue == "" || idImage.None? {
        return None;
      }
      var farmerData := FarmerData(Form(), uid, nowMs);
      nav := Some(Nav(Replace, "/farmerDashboard", farmerData));
    }
  }
}
