/** How records travel between screens: a farmer's batch QR code through the scanner,
    the detail screen and back to the mediator dashboard; a mediator listing to the
    detail screen; and a farmer's registration to the profile screen. `parse` stands
    for `JSON.parse`, and each lemma states what it needs of it for the payload at hand. */
module Interchange {
  import opened Common
  import FarmerDashboard
  import MediatorDashboard
  import DisplayHarvest
  import Scanner
  import FarmerOnboarding
  import Profile

  /** A farmer's batch, scanned by a mediator, shown, bought and brought back: the
      dashboard appends a purchased listing carrying the batch's crop, variety,
      quantity, date and price, and no farmer name (the batch record has none). */
  lemma ScanBuyAppend(h: FarmerDashboard.Harvest, payload: string, nowMs: nat, parse: string -> ParseResult)
    requires payload != "" && parse(payload) == Parsed(Value(FarmerDashboard.HarvestObject(h)))
    ensures var shown := DisplayHarvest.Display(Scanner.ScanTarget(payload).params, parse);
            && shown.Details? && !shown.purchased && shown.buy.Some?
            && var back := shown.buy.value;
               && back.params["harvestData"] == PStr(payload)
               && var l := MediatorDashboard.ParsedListing(Lookup(back.params, "harvestData"),
                                                         Lookup(back.params, "purchaseComplete"), nowMs, parse);
                  && l.Some? && l.value.status == MediatorDashboard.Purchased
                  && l.value.farmerName.None?
                  && l.value.cropType == Some(Str(h.cropType)) && l.value.variety == Some(Str(h.variety))
                  && l.value.quantity == Some(Str(h.quantity)) && l.value.harvestDate == Some(Str(h.harvestDate))
                  && l.value.expectedPrice == (if h.expectedPrice.Some? then Some(Str(h.expectedPrice.value)) else None)
  {
    var o := FarmerDashboard.HarvestObject(h);
    assert "farmerName" !in o && "status" !in o;
    var scan := Scanner.ScanTarget(payload).params;
    assert Lookup(scan, "harvestDataString") == Some(PStr(payload));
    assert Lookup(scan, "status") == None;
    assert Lookup(scan, "returnTo") == Some(PStr("mediatorDashboard"));
  }

  /** "View Details" on a mediator listing opens the detail screen on exactly the
      forwarded record, offering "Buy Crop" exactly when the listing is pending, and
      confirming it only reports the purchase (the record is not sent back). */
  lemma ViewDetailsShows(l: MediatorDashboard.Listing, stringify: Obj -> string, parse: string -> ParseResult)
    requires var s := stringify(MediatorDashboard.DetailsObject(l));
             s != "" && parse(s) == Parsed(Value(MediatorDashboard.DetailsObject(l)))
    ensures var shown := DisplayHarvest.Display(MediatorDashboard.ViewDetails(l, stringify).params, parse);
            && shown.Details? && shown.record == MediatorDashboard.DetailsObject(l)
            && (shown.buy.Some? <==> l.status == MediatorDashboard.Pending)
            && (shown.buy.Some? ==> shown.buy.value.params.Keys == {"purchaseComplete"})
  {
    var p := MediatorDashboard.ViewDetails(l, stringify).params;
    assert Lookup(p, "status") == Some(PStr(MediatorDashboard.StatusText(l.status)));
    assert Lookup(p, "returnTo") == None;
    assert "status" !in MediatorDashboard.DetailsObject(l);
  }

  /** A farmer who registers and opens the profile from the dashboard sees what was
      entered: the name, state and village, the land area with its unit, the revenue,
      and the ID image. */
  lemma RegistrationShownOnProfile(f: FarmerOnboarding.FarmerForm, uid: Option<Param>, nowMs: nat)
    requires FarmerOnboarding.Submit(f, uid, nowMs).Some?
    ensures var farmerData := FarmerOnboarding.Submit(f, uid, nowMs).value.params;
            var v := Profile.View(None, FarmerDashboard.ProfileNav(farmerData).params);
            && v.name == f.name && v.state == f.state && v.village == f.village
            && v.landArea == f.landArea + " " + f.landAreaUnit && v.revenue == f.annualRevenue
            && (f.idImage.value.uri != "" ==> v.picture == Profile.IdImage(f.idImage.value.uri) && v.idShown)
  {
  }
}
