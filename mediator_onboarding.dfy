/** Mediator registration: the form, its guard (which also rejects the state
    placeholder), and the parameters the mediator dashboard is opened with. */
module MediatorOnboarding {
  import opened Common

  /** The label the state picker shows until a state is chosen. */
  const StatePlaceholder: string := "Select State/UT"

  /** The options of the state picker. */
  const StatesAndUTs: seq<string> := [
    "Andaman and Nicobar Islands", "Andhra Pradesh", "Arunachal Pradesh", "Assam", "Bihar", "Chandigarh",
    "Chhattisgarh", "Dadra and Nagar Haveli", "Daman and Diu", "Delhi", "Goa", "Gujarat", "Haryana",
    "Himachal Pradesh", "Jammu and Kashmir", "Jharkhand", "Karnataka", "Kerala", "Ladakh", "Lakshadweep",
    "Madhya Pradesh", "Maharashtra", "Manipur", "Meghalaya", "Mizoram", "Nagaland", "Odisha", "Puducherry",
    "Punjab", "Rajasthan", "Sikkim", "Tamil Nadu", "Telangana", "Tripura", "Uttar Pradesh", "Uttarakhand",
    "West Bengal"]

  datatype MediatorForm = MediatorForm(
    name: string, age: string, selectedState: string, location: Option<Coordinates>,
    numVehicles: string, permitImage: Option<Asset>)

  /** `${latitude},${longitude}` */
  function LocationText(c: Coordinates): string
  {
    c.latitude + "," + c.longitude
  }

  /** `mediatorData` */
  function MediatorData(f: MediatorForm): (p: Params)
    requires f.location.Some? && f.permitImage.Some?
    ensures p.Keys == {"name", "age", "state", "location", "numVehicles", "permitImageUri"}
    ensures p["name"] == PStr(f.name) && p["age"] == PStr(f.age) && p["state"] == PStr(f.selectedState)
    ensures p["location"] == PStr(LocationText(f.location.value)) && p["numVehicles"] == PStr(f.numVehicles)
    ensures p["permitImageUri"] == PStr(f.permitImage.value.uri)
  {
    map["name" := PStr(f.name), "age" := PStr(f.age), "state" := PStr(f.selectedState),
        "location" := PStr(LocationText(f.location.value)), "numVehicles" := PStr(f.numVehicles),
        "permitImageUri" := PStr(f.permitImage.value.uri)]
  }

  /** `handleSubmit`: no navigation while a field is missing or the state is still the
      placeholder, otherwise a replace to the mediator dashboard with `mediatorData`. */
  function Submit(f: MediatorForm): (n: Option<Nav>)
    ensures n.None? <==>
      f.name == "" || f.age == "" || f.selectedState == StatePlaceholder || f.location.None? ||
      f.numVehicles == "" || f.permitImage.None?
    ensures n.Some? ==> n.value.kind == Replace && n.value.pathname == "/mediatorDashboard" &&
                        n.value.params == MediatorData(f)
  {
    if f.name == "" || f.age == "" || f.selectedState == StatePlaceholder || f.location.None? ||
       f.numVehicles == "" || f.permitImage.None?
    then None
    else Some(Nav(Replace, "/mediatorDashboard", MediatorData(f)))
  }

  /** No option of the picker is the placeholder, so a chosen state always passes that
      part of the guard. */
  lemma PickerNeverOffersPlaceholder()
    ensures StatePlaceholder !in StatesAndUTs
  {
  }

  /** Whatever else is filled in, the placeholder state blocks submission; an empty state
      is not possible because the picker starts at the placeholder and offers no empty option. */
  lemma PlaceholderBlocks(f: MediatorForm)
    requires f.selectedState == StatePlaceholder
    ensures Submit(f).None?
  {
  }

  class Onboarding {
    var name: string
    var age: string
    var selectedState: string
    var location: Option<Coordinates>
    var numVehicles: string
    var permitImage: Option<Asset>
    var isStateModalVisible: bool

    /** The state is the placeholder or one of the picker's options. */
    ghost predicate Valid()
      reads this
    {
      selectedState == StatePlaceholder || selectedState in StatesAndUTs
    }

    constructor()
      ensures Valid() && selectedState == StatePlaceholder && !isStateModalVisible
      ensures name == "" && age == "" && location.None? && numVehicles == "" && permitImage.None?
    {
      name, age, selectedState, location := "", "", StatePlaceholder, None;
      numVehicles, permitImage, isStateModalVisible := "", None, false;
    }

    function Form(): MediatorForm
      reads this
    {
      MediatorForm(name, age, selectedState, location, numVehicles, permitImage)
    }

    /** Choosing `option` in the state picker sets the state and closes the picker. */
    method SelectState(option: string)
      requires Valid() && option in StatesAndUTs
      modifies this`selectedState, this`isStateModalVisible
      ensures Valid() && selectedState == option && selectedState != StatePlaceholder && !isStateModalVisible
    {
      selectedState := option;
      isStateModalVisible := false;
    }

    method HandleGetLocation(r: LocationResult)
      modifies this`location
      ensures location == AfterLocation(old(location), r)
    {
      if r.Located? {
        location := Some(r.coords);
      }
    }

    /** `handlePickImage`; a refused permission, a cancel or an empty result keeps the permit. */
    method HandlePickImage(r: PickResult)
      modifies this`permitImage
      ensures permitImage == FirstAssetOr(old(permitImage), r)
    {
      if r.Picked? && |r.assets| > 0 {
        permitImage := Some(r.assets[0]);
      }
    }

    method HandleSubmit() returns (nav: Option<Nav>)
      ensures nav == Submit(Form())
    {
      if name == "" || age == "" || selectedState == StatePlaceholder || location.None? ||
         numVehicles == "" || permitImage.None? {
        return None;
      }
      nav := Some(Nav(Replace, "/mediatorDashboard", MediatorData(Form())));
    }
  }
}
