/** The mediator dashboard: the listings a mediator has scanned or bought, the two
    counters bumped by a completed purchase, and the "View Details" hand-off to the
    harvest detail screen. */
module MediatorDashboard {
  import opened Common

  datatype Status = Purchased | Pending

  /** The text a listing's status is stored and forwarded as. */
  function StatusText(s: Status): (t: string)
    ensures t == "purchased" <==> s == Purchased
    ensures t == "pending" <==> s == Pending
  {
    match s
    case Purchased => "purchased"
    case Pending => "pending"
  }

  /** A listing. The six record fields hold whatever the scanned JSON carried under
      those keys (`None` for `undefined`); the sample listings carry strings. */
  datatype Listing = Listing(
    id: string,
    farmerName: Option<Js>, cropType: Option<Js>, variety: Option<Js>,
    quantity: Option<Js>, expectedPrice: Option<Js>, harvestDate: Option<Js>,
    status: Status)

  /** The two listings the screen starts with. */
  function SampleListings(): (r: seq<Listing>)
    ensures |r| == 2
    ensures r[0].id == "sample-1" && r[0].status == Purchased && r[0].farmerName == Some(Str("John Farmer"))
    ensures r[1].id == "sample-2" && r[1].status == Pending && r[1].farmerName == Some(Str("Sarah Green"))
  {
    [ Listing("sample-1", Some(Str("John Farmer")), Some(Str("Wheat")), Some(Str("Hard Red")),
              Some(Str("100 kg")), Some(Str("2500")), Some(Str("2024-01-15")), Purchased),
      Listing("sample-2", Some(Str("Sarah Green")), Some(Str("Rice")), Some(Str("Basmati")),
              Some(Str("75 kg")), Some(Str("1800")), Some(Str("2024-01-20")), Pending) ]
  }

  // ----- the "Purchased" counter -----

  /** `listings.filter(l => l.status === 'purchased').length` */
  function PurchasedCount(ls: seq<Listing>): nat
  {
    if ls == [] then 0 else (if ls[0].status == Purchased then 1 else 0) + PurchasedCount(ls[1..])
  }

  /** "Purchased" never exceeds "Total Listings". */
  lemma {:induction false} PurchasedAtMostTotal(ls: seq<Listing>)
    ensures PurchasedCount(ls) <= |ls|
  {
    if ls != [] {
      PurchasedAtMostTotal(ls[1..]);
    }
  }

  /** Appending a listing adds one to "Purchased" exactly when it is purchased. */
  lemma {:induction false} PurchasedCountAppend(ls: seq<Listing>, l: Listing)
    ensures PurchasedCount(ls + [l]) == PurchasedCount(ls) + (if l.status == Purchased then 1 else 0)
  {
    if ls == [] {
      assert ls + [l] == [l];
    } else {
      assert (ls + [l])[1..] == ls[1..] + [l];
      PurchasedCountAppend(ls[1..], l);
    }
  }

  lemma SampleCounts()
    ensures PurchasedCount(SampleListings()) == 1
  {
    var s := SampleListings();
    assert s[1..][1..] == [];
  }

  // ----- a listing from a scanned record -----

  /** `params.purchaseComplete === 'true' ? 'purchased' : 'pending'` */
  function StatusFor(purchaseComplete: Option<Param>): (s: Status)
    ensures s == Purchased <==> IsTrueString(purchaseComplete)
  {
    if IsTrueString(purchaseComplete) then Purchased else Pending
  }

  /** The listing built from a parsed record, which is not `null`. */
  function ListingFrom(id: string, t: Top, status: Status): Listing
    requires !t.NullValue?
  {
    Listing(id, Prop(t, "farmerName"), Prop(t, "cropType"), Prop(t, "variety"),
            Prop(t, "quantity"), Prop(t, "expectedPrice"), Prop(t, "harvestDate"), status)
  }

  /** The listing the second effect appends, or `None` when it appends nothing: when
      `harvestData` is falsy, when parsing it throws, or when it parses to `null`
      (reading a field of `null` throws; both errors are caught and only logged). */
  function ParsedListing(harvestData: Option<Param>, purchaseComplete: Option<Param>, nowMs: nat,
                         parse: string -> ParseResult): (r: Option<Listing>)
    ensures r.Some? <==>
      ParamTruthy(harvestData) && parse(ParamString(harvestData.value)).Parsed? &&
      !parse(ParamString(harvestData.value)).top.NullValue?
    ensures r.Some? ==>
      var t := parse(ParamString(harvestData.value)).top;
      && r.value.id == DecimalString(nowMs)
      && r.value.status == StatusFor(purchaseComplete)
      && r.value.farmerName == Prop(t, "farmerName") && r.value.cropType == Prop(t, "cropType")
      && r.value.variety == Prop(t, "variety") && r.value.quantity == Prop(t, "quantity")
      && r.value.expectedPrice == Prop(t, "expectedPrice") && r.value.harvestDate == Prop(t, "harvestDate")
  {
    if !ParamTruthy(harvestData) then None
    else
      var res := parse(ParamString(harvestData.value));
      if res.SyntaxError? || res.top.NullValue? then None
      else Some(ListingFrom(DecimalString(nowMs), res.top, StatusFor(purchaseComplete)))
  }

  // ----- "View Details" -----

  /** The object `ListingItem` stringifies: the six record fields, with those that are
      `undefined` left out, as `JSON.stringify` does. */
  function DetailsObject(l: Listing): (o: Obj)
    ensures forall k :: k in o ==>
      k == "farmerName" || k == "cropType" || k == "variety" || k == "quantity" || k == "expectedPrice" || k == "harvestDate"
    ensures Get(o, "farmerName") == l.farmerName && Get(o, "cropType") == l.cropType
    ensures Get(o, "variety") == l.variety && Get(o, "quantity") == l.quantity
    ensures Get(o, "expectedPrice") == l.expectedPrice && Get(o, "harvestDate") == l.harvestDate
  {
    var o1: Obj := if l.farmerName.Some? then map["farmerName" := l.farmerName.value] else map[];
    var o2 := if l.cropType.Some? then o1["cropType" := l.cropType.value] else o1;
    var o3 := if l.variety.Some? then o2["variety" := l.variety.value] else o2;
    var o4 := if l.quantity.Some? then o3["quantity" := l.quantity.value] else o3;
    var o5 := if l.expectedPrice.Some? then o4["expectedPrice" := l.expectedPrice.value] else o4;
    if l.harvestDate.Some? then o5["harvestDate" := l.harvestDate.value] else o5
  }

  /** The navigation "View Details" performs; `stringify` stands for `JSON.stringify`. */
  function ViewDetails(l: Listing, stringify: Obj -> string): (n: Nav)
    ensures n.kind == Push && n.pathname == "/displayHarvest"
    ensures n.params.Keys == {"harvestDataString", "status"}
    ensures n.params["harvestDataString"] == PStr(stringify(DetailsObject(l)))
    ensures n.params["status"] == PStr(StatusText(l.status))
  {
    Nav(Push, "/displayHarvest",
        map["harvestDataString" := PStr(stringify(DetailsObject(l))), "status" := PStr(StatusText(l.status))])
  }

  /** The id and the status are not part of the forwarded record. */
  lemma DetailsLeaveOutIdAndStatus(l: Listing)
    ensures "id" !in DetailsObject(l) && "status" !in DetailsObject(l)
  {
  }

  /** The dashboard screen's state. The two `useEffect` handlers run after a render
      whose dependencies differ from those of their previous run (and after the first
      render); the `seen…` fields hold the dependencies of each effect's last run. */
  class Dashboard {
    var connectedFarmers: int
    var activeTransports: int
    var listings: seq<Listing>
    var seenPurchaseComplete: Option<Option<Param>>
    var seenListingDeps: Option<(Option<Param>, Option<Param>)>

    constructor()
      ensures connectedFarmers == 5 && activeTransports == 2 && listings == SampleListings()
      ensures seenPurchaseComplete.None? && seenListingDeps.None?
    {
      connectedFarmers, activeTransports := 5, 2;
      listings := SampleListings();
      seenPurchaseComplete, seenListingDeps := None, None;
    }

    /** "Total Listings" */
    function TotalListings(): nat
      reads this
    {
      |listings|
    }

    /** "Purchased" */
    function PurchasedListings(): (n: nat)
      reads this
      ensures n <= TotalListings()
    {
      PurchasedAtMostTotal(listings);
      PurchasedCount(listings)
    }

    /** The first effect. */
    method PurchaseCompleteEffect(purchaseComplete: Option<Param>)
      modifies this`connectedFarmers, this`activeTransports
      ensures IsTrueString(purchaseComplete) ==>
        connectedFarmers == old(connectedFarmers) + 1 && activeTransports == old(activeTransports) + 1
      ensures !IsTrueString(purchaseComplete) ==>
        connectedFarmers == old(connectedFarmers) && activeTransports == old(activeTransports)
    {
      if purchaseComplete == Some(PStr("true")) {
        connectedFarmers := connectedFarmers + 1;
        activeTransports := activeTransports + 1;
      }
    }

    /** The second effect, at time `nowMs` (`Date.now()`), with `parse` for `JSON.parse`. */
    method HarvestDataEffect(harvestData: Option<Param>, purchaseComplete: Option<Param>, nowMs: nat,
                             parse: string -> ParseResult)
      modifies this`listings
      ensures var r := ParsedListing(harvestData, purchaseComplete, nowMs, parse);
              listings == old(listings) + (if r.Some? then [r.value] else [])
    {
      if ParamTruthy(harvestData) {
        var res := parse(ParamString(harvestData.value));
        // a `SyntaxError`, or the `TypeError` of reading a field of `null`, is caught and logged
        if res.Parsed? && !res.top.NullValue? {
          var listing := ListingFrom(DecimalString(nowMs), res.top, StatusFor(purchaseComplete));
          listings := listings + [listing];
        }
      }
    }

    /** A render with route parameters `params`, followed by the effects whose
        dependencies changed. */
    method Render(params: Params, nowMs: nat, parse: string -> ParseResult)
      modifies this
      ensures var pc := Lookup(params, "purchaseComplete");
              var bump := old(seenPurchaseComplete) != Some(pc) && IsTrueString(pc);
              && connectedFarmers == old(connectedFarmers) + (if bump then 1 else 0)
              && activeTransports == old(activeTransports) + (if bump then 1 else 0)
              && seenPurchaseComplete == Some(pc)
      ensures var pc := Lookup(params, "purchaseComplete");
              var hd := Lookup(params, "harvestData");
              var r := ParsedListing(hd, pc, nowMs, parse);
              && listings == old(listings) + (if old(seenListingDeps) != Some((hd, pc)) && r.Some? then [r.value] else [])
              && seenListingDeps == Some((hd, pc))
    {
      var pc := Lookup(params, "purchaseComplete");
      var hd := Lookup(params, "harvestData");
      if seenPurchaseComplete != Some(pc) {
        PurchaseCompleteEffect(pc);
        seenPurchaseComplete := Some(pc);
      }
      if seenListingDeps != Some((hd, pc)) {
        HarvestDataEffect(hd, pc, nowMs, parse);
        seenListingDeps := Some((hd, pc));
      }
    }
  }
}
