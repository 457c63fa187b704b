/** The farmer profile screen: it shows the registration parameters it was opened
    with, normalised to strings, and lets the user pick a profile picture. */
module Profile {
  import opened Common

  /** `getParam`: an array gives its first element, a string itself, and anything
      missing or falsy the empty string. */
  function GetParam(p: Option<Param>): (s: string)
    ensures p == None || p == Some(PNull) ==> s == ""
    ensures p.Some? && p.value.PStr? ==> s == p.value.s
    ensures p.Some? && p.value.PList? ==> s == if |p.value.items| > 0 then p.value.items[0] else ""
  {
    match p
    case Some(PList(items)) => if |items| > 0 && items[0] != "" then items[0] else ""
    case Some(PStr(s)) => if s != "" then s else ""
    case _ => ""
  }

  /** `getParam` is the first value received under the key: for a single value and for
      a one-element repetition alike. */
  lemma GetParamFirstValue(s: string)
    ensures GetParam(Some(PStr(s))) == s && GetParam(Some(PList([s]))) == s
    ensures GetParam(Some(PList([s, s]))) == s
  {
  }

  /** Where the profile picture comes from. */
  datatype Picture = PickedImage(uri: string) | IdImage(uri: string) | Placeholder

  /** The picked image wins; else the registration's ID image if its parameter is truthy
      (an empty array is truthy and gives an empty uri); else the placeholder. */
  function ProfilePicture(profileImage: Option<Asset>, user: Params): (pic: Picture)
    ensures profileImage.Some? ==> pic == PickedImage(profileImage.value.uri)
    ensures profileImage.None? && ParamTruthy(Lookup(user, "idImageUri")) ==>
      pic == IdImage(GetParam(Lookup(user, "idImageUri")))
    ensures pic == Placeholder <==> profileImage.None? && !ParamTruthy(Lookup(user, "idImageUri"))
  {
    if profileImage.Some? then PickedImage(profileImage.value.uri)
    else if ParamTruthy(Lookup(user, "idImageUri")) then IdImage(GetParam(Lookup(user, "idImageUri")))
    else Placeholder
  }

  /** The texts the screen shows. */
  datatype ProfileView = ProfileView(
    name: string, age: string, state: string, village: string, landArea: string, revenue: string,
    picture: Picture, idShown: bool)

  /** `text || fallback` */
  function OrElse(text: string, fallback: string): string
  {
    if text != "" then text else fallback
  }

  /** The screen for the parameters `user` and the picked image. `revenue` is the amount
      after the rupee sign. */
  function View(profileImage: Option<Asset>, user: Params): (v: ProfileView)
    ensures v.name != "" && v.revenue != "" && v.age == "Not Set"
    ensures GetParam(Lookup(user, "name")) == "" ==> v.name == "N/A"
    ensures GetParam(Lookup(user, "name")) != "" ==> v.name == GetParam(Lookup(user, "name"))
    ensures GetParam(Lookup(user, "annualRevenue")) == "" ==> v.revenue == "0"
    ensures GetParam(Lookup(user, "annualRevenue")) != "" ==> v.revenue == GetParam(Lookup(user, "annualRevenue"))
    ensures v.state == GetParam(Lookup(user, "state")) && v.village == GetParam(Lookup(user, "village"))
    ensures v.landArea == GetParam(Lookup(user, "landArea"))
    ensures v.picture == ProfilePicture(profileImage, user)
    ensures v.idShown <==> ParamTruthy(Lookup(user, "idImageUri"))
  {
    ProfileView(
      OrElse(GetParam(Lookup(user, "name")), "N/A"),
      "Not Set",
      GetParam(Lookup(user, "state")),
      GetParam(Lookup(user, "village")),
      GetParam(Lookup(user, "landArea")),
      OrElse(GetParam(Lookup(user, "annualRevenue")), "0"),
      ProfilePicture(profileImage, user),
      ParamTruthy(Lookup(user, "idImageUri")))
  }

  class ProfileScreen {
    var profileImage: Option<Asset>

    constructor()
      ensures profileImage.None?
    {
      profileImage := None;
    }

    /** `handlePickImage`; a cancel or an empty result keeps the picture. */
    method HandlePickImage(r: PickResult)
      modifies this`profileImage
      ensures profileImage == FirstAssetOr(old(profileImage), r)
    {
      if r.Picked? && |r.assets| > 0 {
        profileImage := Some(r.assets[0]);
      }
    }

    function CurrentView(user: Params): ProfileView
      reads this
    {
      View(profileImage, user)
    }
  }
}
