/** The QR scanner screen: camera permission decides what is shown, and the first
    non-empty scan hands the payload to the harvest detail screen. */
module Scanner {
  import opened Common

  /** The navigation a scan of `data` performs: the payload goes on verbatim. */
  function ScanTarget(data: string): (n: Nav)
    ensures n.kind == Replace && n.pathname == "/displayHarvest"
    ensures n.params.Keys == {"harvestDataString", "returnTo"}
    ensures n.params["harvestDataString"] == PStr(data) && n.params["returnTo"] == PStr("mediatorDashboard")
  {
    Nav(Replace, "/displayHarvest", map["harvestDataString" := PStr(data), "returnTo" := PStr("mediatorDashboard")])
  }

  /** What the screen shows. */
  datatype View = RequestingPermission | NoAccess | Camera(listening: bool, scanAgainShown: bool)

  class QRScanner {
    /** `null` until the permission request resolves. */
    var hasPermission: Option<bool>
    var scanned: bool

    constructor()
      ensures hasPermission.None? && !scanned
    {
      hasPermission, scanned := None, false;
    }

    /** The permission request resolved with `granted`. */
    method PermissionResolved(granted: bool)
      modifies this`hasPermission
      ensures hasPermission == Some(granted)
    {
      hasPermission := Some(granted);
    }

    function CurrentView(): (v: View)
      reads this
      ensures v == RequestingPermission <==> hasPermission.None?
      ensures v == NoAccess <==> hasPermission == Some(false)
      ensures v.Camera? <==> hasPermission == Some(true)
      ensures v.Camera? ==> (v.listening <==> !scanned) && (v.scanAgainShown <==> scanned)
    {
      match hasPermission
      case None => RequestingPermission
      case Some(false) => NoAccess
      case Some(true) => Camera(!scanned, scanned)
    }

    /** A barcode with payload `data` in front of the camera. `onBarcodeScanned` is only
        attached while the camera view is shown and nothing has been scanned. */
    method BarcodeSeen(data: string) returns (nav: Option<Nav>)
      modifies this`scanned
      ensures var handled := hasPermission == Some(true) && !old(scanned) && data != "";
              && (nav.Some? <==> handled)
              && (handled ==> nav.value == ScanTarget(data) && scanned)
              && (!handled ==> scanned == old(scanned))
    {
      nav := None;
      if CurrentView().Camera? && CurrentView().listening {
        if data != "" {
          scanned := true;
          nav := Some(ScanTarget(data));
        }
      }
    }

    /** "Tap to Scan Again", which is only shown once something was scanned. */
    method ScanAgain()
      requires CurrentView().Camera? && CurrentView().scanAgainShown
      modifies this`scanned
      ensures !scanned && CurrentView().Camera? && CurrentView().listening
    {
      scanned := false;
    }
  }
}
