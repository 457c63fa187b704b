/** The role chooser: one card per role, and "Create Account" on a card dispatches
    to that role's onboarding screen. */
module ChooseRole {
  import opened Common

  /** The ids of the four role cards. */
  const RoleIds: seq<string> := ["farmer", "mediator", "manufacturer", "lab"]

  /** The onboarding route of a role id, `None` for an id the if/else chain does not know. */
  function OnboardingPath(roleId: string): (p: Option<string>)
    ensures p.Some? <==> roleId in RoleIds
    ensures roleId == "farmer" ==> p == Some("/farmerOnboarding")
    ensures roleId == "mediator" ==> p == Some("/mediatorOnboarding")
    ensures roleId == "manufacturer" ==> p == Some("/manufacturerOnboarding")
    ensures roleId == "lab" ==> p == Some("/labOnboarding")
  {
    if roleId == "farmer" then Some("/farmerOnboarding")
    else if roleId == "mediator" then Some("/mediatorOnboarding")
    else if roleId == "manufacturer" then Some("/manufacturerOnboarding")
    else if roleId == "lab" then Some("/labOnboarding")
    else None
  }

  /** Different roles lead to different screens. */
  lemma RoutesDistinct(a: string, b: string)
    requires OnboardingPath(a).Some? && OnboardingPath(a) == OnboardingPath(b)
    ensures a == b
  {
  }

  /** `{ uid }`: the route's `uid` as received; an `undefined` one is no parameter. */
  function UidParams(uid: Option<Param>): (p: Params)
    ensures uid.None? ==> p == map[]
    ensures uid.Some? ==> p.Keys == {"uid"} && p["uid"] == uid.value
  {
    if uid.Some? then map["uid" := uid.value] else map[]
  }

  /** The navigation `handleRoleSelection(roleId)` performs, if any. */
  function Dispatch(roleId: string, uid: Option<Param>): (n: Option<Nav>)
    ensures n.Some? <==> roleId in RoleIds
    ensures n.Some? ==> n.value.kind == Replace && Some(n.value.pathname) == OnboardingPath(roleId) &&
                        n.value.params == UidParams(uid)
  {
    match OnboardingPath(roleId)
    case Some(path) => Some(Nav(Replace, path, UidParams(uid)))
    case None => None
  }

  class Chooser {
    var selectedRole: string
    var loading: bool

    constructor()
      ensures selectedRole == "farmer" && !loading
    {
      selectedRole, loading := "farmer", false;
    }

    /** Tapping the card of `roleId` selects it; the cards are disabled while loading. */
    method TapCard(roleId: string)
      modifies this`selectedRole
      ensures selectedRole == if old(loading) then old(selectedRole) else roleId
    {
      if !loading {
        selectedRole := roleId;
      }
    }

    /** "Create Account" on the card of `roleId`. It is disabled while loading; otherwise
        `loading` goes up and, the reset being commented out, stays up. */
    method PressCreateAccount(roleId: string, uid: Option<Param>) returns (nav: Option<Nav>)
      modifies this`loading
      ensures old(loading) ==> nav.None? && loading
      ensures !old(loading) ==> nav == Dispatch(roleId, uid) && loading
    {
      if loading {
        return None;
      }
      loading := true;
      nav := Dispatch(roleId, uid);
    }
  }

  /** A fresh chooser: the first press dispatches, after which a second press and a
      tap on another card are both ignored. */
  method PressThenRetry(roleId: string, other: string, uid: Option<Param>)
    returns (first: Option<Nav>, second: Option<Nav>, selected: string)
    ensures first == Dispatch(roleId, uid)
    ensures second.None? && selected == "farmer"
  {
    var c := new Chooser();
    first := c.PressCreateAccount(roleId, uid);
    second := c.PressCreateAccount(other, uid);
    c.TapCard(other);
    selected := c.selectedRole;
  }
}
