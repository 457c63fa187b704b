/** Lab registration: the form, its guard, the `loading` flag raised around a
    successful submission, and the single parameter the lab dashboard receives. */
module LabOnboarding {
  import opened Common

  datatype LabForm = LabForm(
    pocName: string, email: string, phone: string, location: Option<Coordinates>, labCertificate: Option<Asset>)

  /** The guard of `handleSubmit`. */
  predicate Complete(f: LabForm)
  {
    f.pocName != "" && f.email != "" && f.phone != "" && f.location.Some? && f.labCertificate.Some?
  }

  /** The navigation behind the "Go to Dashboard" button of the confirmation alert:
      the dashboard is told only the contact's name. */
  function DashboardNav(f: LabForm): (n: Nav)
    ensures n.kind == Replace && n.pathname == "/labDashboard"
    ensures n.params.Keys == {"labName"} && n.params["labName"] == PStr(f.pocName)
  {
    Nav(Replace, "/labDashboard", map["labName" := PStr(f.pocName)])
  }

  /** What a submission offers: nothing when the guard fails, else the dashboard navigation. */
  function Submit(f: LabForm): (n: Option<Nav>)
    ensures n.None? <==>
      f.pocName == "" || f.email == "" || f.phone == "" || f.location.None? || f.labCertificate.None?
    ensures n.Some? ==> n.value == DashboardNav(f)
  {
    if Complete(f) then Some(DashboardNav(f)) else None
  }

  class Onboarding {
    var pocName: string
    var email: string
    var phone: string
    var location: Option<Coordinates>
    var labCertificate: Option<Asset>
    var loading: bool
    /** Every value passed to `setLoading`, in order. */
    ghost var loadingWrites: seq<bool>

    constructor()
      ensures pocName == "" && email == "" && phone == "" && location.None? && labCertificate.None?
      ensures !loading && loadingWrites == []
    {
      pocName, email, phone := "", "", "";
      location, labCertificate := None, None;
      loading := false;
      loadingWrites := [];
    }

    function Form(): LabForm
      reads this
    {
      LabForm(pocName, email, phone, location, labCertificate)
    }

    method SetLoading(b: bool)
      modifies this`loading, this`loadingWrites
      ensures loading == b && loadingWrites == old(loadingWrites) + [b]
    {
      loading := b;
      loadingWrites := loadingWrites + [b];
    }

    method HandleGetLocation(r: LocationResult)
      modifies this`location
      ensures location == AfterLocation(old(location), r)
    {
      if r.Located? {
        location := Some(r.coords);
      }
    }

    /** `handlePickCertificate`: a cancelled, empty or failed pick keeps the certificate,
        a successful one stores its first asset. */
    method HandlePickCertificate(r: PickResult)
      modifies this`labCertificate
      ensures labCertificate == FirstAssetOr(old(labCertificate), r)
    {
      if r.Picked? && |r.assets| > 0 {
        labCertificate := Some(r.assets[0]);
      }
    }

    /** `handleSubmit`. On failure `loading` is not touched; on success it is set to
        true and straight back to false, and the alert offers the dashboard navigation. */
    method HandleSubmit() returns (nav: Option<Nav>)
      modifies this`loading, this`loadingWrites
      ensures nav == Submit(old(Form()))
      ensures nav.None? ==> loading == old(loading) && loadingWrites == old(loadingWrites)
      ensures nav.Some? ==> !loading && loadingWrites == old(loadingWrites) + [true, false]
    {
      if pocName == "" || email == "" || phone == "" || location.None? || labCertificate.None? {
        return None;
      }
      SetLoading(true);
      nav := Some(DashboardNav(Form()));
      SetLoading(false);
    }
  }
}
