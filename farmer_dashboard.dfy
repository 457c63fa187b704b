/** The farmer dashboard: the harvests a farmer has recorded, the add-harvest form,
    listing a harvest for sale, and the counters shown above the list. */
module FarmerDashboard {
  import opened Common
  import DateMask
  import HarvestDate

  /** One recorded harvest. The three listing fields are absent (`None`) until the
      harvest is listed for sale. */
  datatype Harvest = Harvest(
    id: string, cropType: string, variety: string, quantity: string, harvestDate: string,
    fertilizers: string, pesticides: string, insecticides: string,
    isListed: Option<bool>, expectedPrice: Option<string>, cropImageUri: Option<string>)

  predicate IsListed(h: Harvest)
  {
    h.isListed == Some(true)
  }

  /** The harvest as `JSON.stringify` lays it out in the batch QR code: absent listing
      fields are left out. */
  function HarvestObject(h: Harvest): (o: Obj)
    ensures o.Keys >= {"id", "cropType", "variety", "quantity", "harvestDate", "fertilizers", "pesticides", "insecticides"}
    ensures o.Keys <= {"id", "cropType", "variety", "quantity", "harvestDate", "fertilizers", "pesticides", "insecticides",
                       "isListed", "expectedPrice", "cropImageUri"}
    ensures o["id"] == Str(h.id) && o["cropType"] == Str(h.cropType) && o["variety"] == Str(h.variety)
    ensures o["quantity"] == Str(h.quantity) && o["harvestDate"] == Str(h.harvestDate)
    ensures o["fertilizers"] == Str(h.fertilizers) && o["pesticides"] == Str(h.pesticides)
    ensures o["insecticides"] == Str(h.insecticides)
    ensures Get(o, "isListed") == if h.isListed.Some? then Some(Bool(h.isListed.value)) else None
    ensures Get(o, "expectedPrice") == if h.expectedPrice.Some? then Some(Str(h.expectedPrice.value)) else None
    ensures Get(o, "cropImageUri") == if h.cropImageUri.Some? then Some(Str(h.cropImageUri.value)) else None
  {
    var base := map["id" := Str(h.id), "cropType" := Str(h.cropType), "variety" := Str(h.variety),
                    "quantity" := Str(h.quantity), "harvestDate" := Str(h.harvestDate),
                    "fertilizers" := Str(h.fertilizers), "pesticides" := Str(h.pesticides),
                    "insecticides" := Str(h.insecticides)];
    var withListed := if h.isListed.Some? then base["isListed" := Bool(h.isListed.value)] else base;
    var withPrice := if h.expectedPrice.Some? then withListed["expectedPrice" := Str(h.expectedPrice.value)] else withListed;
    if h.cropImageUri.Some? then withPrice["cropImageUri" := Str(h.cropImageUri.value)] else withPrice
  }

  // ----- counters -----

  /** "Active Batches": `harvests.filter(h => !h.isListed).length` */
  function ActiveCount(hs: seq<Harvest>): nat
  {
    if hs == [] then 0 else (if IsListed(hs[0]) then 0 else 1) + ActiveCount(hs[1..])
  }

  /** "Listed for Sale": `harvests.filter(h => h.isListed).length` */
  function ListedCount(hs: seq<Harvest>): nat
  {
    if hs == [] then 0 else (if IsListed(hs[0]) then 1 else 0) + ListedCount(hs[1..])
  }

  /** Every harvest is counted exactly once, as active or as listed. */
  lemma {:induction false} CountsPartition(hs: seq<Harvest>)
    ensures ActiveCount(hs) + ListedCount(hs) == |hs|
  {
    if hs != [] {
      CountsPartition(hs[1..]);
    }
  }

  // ----- ids -----

  predicate DistinctIds(hs: seq<Harvest>)
  {
    forall i, j :: 0 <= i < j < |hs| ==> hs[i].id != hs[j].id
  }

  predicate HasId(hs: seq<Harvest>, id: string)
  {
    exists h :: h in hs && h.id == id
  }

  // ----- creation -----

  /** The record `handleCreateHarvest` builds from the form. */
  function NewHarvest(id: string, cropType: string, variety: string, quantity: string, harvestDate: string,
                      fertilizers: string, pesticides: string, insecticides: string): (h: Harvest)
    ensures h.id == id && !IsListed(h)
    ensures h.isListed.None? && h.expectedPrice.None? && h.cropImageUri.None?
  {
    Harvest(id, cropType, variety, quantity, harvestDate, fertilizers, pesticides, insecticides, None, None, None)
  }

  /** Prepending a harvest with a fresh id keeps the ids distinct and counts one more active batch. */
  lemma {:induction false} PrependFresh(h: Harvest, hs: seq<Harvest>)
    requires DistinctIds(hs) && !HasId(hs, h.id) && !IsListed(h)
    ensures DistinctIds([h] + hs)
    ensures ActiveCount([h] + hs) == ActiveCount(hs) + 1 && ListedCount([h] + hs) == ListedCount(hs)
  {
    var r := [h] + hs;
    assert r[1..] == hs;
    forall i, j | 0 <= i < j < |r| ensures r[i].id != r[j].id {
      if i == 0 {
        assert r[j] in hs;
      } else {
        assert r[i] == hs[i - 1] && r[j] == hs[j - 1];
      }
    }
  }

  // ----- listing for sale -----

  function WithListing(h: Harvest, price: string, uri: string): Harvest
  {
    h.(isListed := Some(true), expectedPrice := Some(price), cropImageUri := Some(uri))
  }

  /** `harvests.map(h => h.id === id ? { ...h, isListed: true, expectedPrice, cropImageUri } : h)` */
  function MarkListed(hs: seq<Harvest>, id: string, price: string, uri: string): (r: seq<Harvest>)
    ensures |r| == |hs|
    ensures forall i :: 0 <= i < |hs| ==> r[i] == if hs[i].id == id then WithListing(hs[i], price, uri) else hs[i]
  {
    if hs == [] then []
    else [if hs[0].id == id then WithListing(hs[0], price, uri) else hs[0]] + MarkListed(hs[1..], id, price, uri)
  }

  /** Listing keeps every id where it was, so the ids stay distinct. */
  lemma MarkListedKeepsIds(hs: seq<Harvest>, id: string, price: string, uri: string)
    requires DistinctIds(hs)
    ensures var r := MarkListed(hs, id, price, uri);
            DistinctIds(r) && forall i :: 0 <= i < |hs| ==> r[i].id == hs[i].id
  {
  }

  /** Listing a not yet listed harvest whose id is unique moves exactly one batch from
      active to listed; listing an already listed one changes neither counter. */
  lemma {:induction false} MarkListedCounts(hs: seq<Harvest>, k: nat, price: string, uri: string)
    requires DistinctIds(hs) && k < |hs|
    ensures var r := MarkListed(hs, hs[k].id, price, uri);
            ListedCount(r) == ListedCount(hs) + (if IsListed(hs[k]) then 0 else 1) &&
            ActiveCount(r) == ActiveCount(hs) - (if IsListed(hs[k]) then 0 else 1)
  {
    var id := hs[k].id;
    var r := MarkListed(hs, id, price, uri);
    assert r[1..] == MarkListed(hs[1..], id, price, uri);
    if k == 0 {
      UnmatchedUnchanged(hs[1..], id, price, uri);
    } else {
      assert hs[0].id != id;
      assert hs[1..][k - 1] == hs[k];
      MarkListedCounts(hs[1..], k - 1, price, uri);
    }
  }

  /** Listing under an id that no harvest carries changes nothing. */
  lemma {:induction false} UnmatchedUnchanged(hs: seq<Harvest>, id: string, price: string, uri: string)
    requires forall i :: 0 <= i < |hs| ==> hs[i].id != id
    ensures MarkListed(hs, id, price, uri) == hs
  {
    if hs != [] {
      UnmatchedUnchanged(hs[1..], id, price, uri);
    }
  }

  /** The profile button: the profile screen is opened with the parameters this
      dashboard was opened with. */
  function ProfileNav(farmerData: Params): (n: Nav)
    ensures n.kind == Push && n.pathname == "/profile" && n.params == farmerData
  {
    Nav(Push, "/profile", farmerData)
  }

  datatype SellOutcome = ListedForSale | MissingPriceOrImage | NoSelection

  /** The dashboard screen's state. */
  class Dashboard {
    var harvests: seq<Harvest>
    var isAddModalVisible: bool
    var isSellModalVisible: bool
    var isQRModalVisible: bool
    var selectedHarvest: Option<Harvest>
    var expandedHarvestId: Option<string>
    // the add-harvest form
    var cropType: string
    var variety: string
    var quantity: string
    var harvestDate: string
    var fertilizers: string
    var pesticides: string
    var insecticides: string
    // the sell form
    var expectedPrice: string
    var cropImage: Option<Asset>

    /** Ids are distinct: each comes from `uuid.v4()`. */
    ghost predicate Valid()
      reads this
    {
      DistinctIds(harvests)
    }

    ghost predicate FormIsEmpty()
      reads this
    {
      cropType == "" && variety == "" && quantity == "" && harvestDate == "" &&
      fertilizers == "" && pesticides == "" && insecticides == ""
    }

    constructor()
      ensures Valid() && harvests == [] && FormIsEmpty()
      ensures !isAddModalVisible && !isSellModalVisible && !isQRModalVisible
      ensures selectedHarvest.None? && expandedHarvestId.None? && expectedPrice == "" && cropImage.None?
    {
      harvests := [];
      isAddModalVisible, isSellModalVisible, isQRModalVisible := false, false, false;
      selectedHarvest, expandedHarvestId := None, None;
      cropType, variety, quantity, harvestDate := "", "", "", "";
      fertilizers, pesticides, insecticides := "", "", "";
      expectedPrice, cropImage := "", None;
    }

    /** "Total Harvests" */
    function TotalHarvests(): nat
      reads this
    {
      |harvests|
    }

    /** The "Active Batches" and "Listed for Sale" counters always add up to "Total Harvests". */
    lemma CountersAddUp()
      ensures ActiveCount(harvests) + ListedCount(harvests) == TotalHarvests()
    {
      CountsPartition(harvests);
    }

    /** `resetAddHarvestForm` */
    method ResetAddHarvestForm()
      modifies this`cropType, this`variety, this`quantity, this`harvestDate,
               this`fertilizers, this`pesticides, this`insecticides
      ensures FormIsEmpty()
    {
      cropType, variety, quantity, harvestDate := "", "", "", "";
      fertilizers, pesticides, insecticides := "", "", "";
    }

    /** `handleDateChange`: the date field takes the masked text. */
    method HandleDateChange(text: string)
      modifies this`harvestDate
      ensures harvestDate == DateMask.FormatDate(text)
    {
      harvestDate := DateMask.FormatDate(text);
    }

    /** `handleCreateHarvest` at moment `now`, with `newId` the value `uuid.v4()` returns. */
    method HandleCreateHarvest(newId: string, now: HarvestDate.Moment) returns (error: Option<HarvestDate.CreateError>)
      requires Valid() && !HasId(harvests, newId)
      modifies this
      ensures Valid()
      ensures error == HarvestDate.CheckHarvest(old(cropType), old(variety), old(quantity), old(harvestDate), now)
      ensures error.Some? ==> unchanged(this)
      ensures error.None? ==>
        && harvests == [NewHarvest(newId, old(cropType), old(variety), old(quantity), old(harvestDate),
                                   old(fertilizers), old(pesticides), old(insecticides))] + old(harvests)
        && expandedHarvestId == Some(newId)
        && FormIsEmpty() && !isAddModalVisible
        && isSellModalVisible == old(isSellModalVisible) && isQRModalVisible == old(isQRModalVisible)
        && selectedHarvest == old(selectedHarvest)
        && expectedPrice == old(expectedPrice) && cropImage == old(cropImage)
    {
      error := HarvestDate.CheckHarvest(cropType, variety, quantity, harvestDate, now);
      if error.Some? {
        return;
      }
      var h := NewHarvest(newId, cropType, variety, quantity, harvestDate, fertilizers, pesticides, insecticides);
      PrependFresh(h, harvests);
      harvests := [h] + harvests;
      expandedHarvestId := Some(h.id);
      ResetAddHarvestForm();
      isAddModalVisible := false;
    }

    /** "Sell Crop" / "Update Listing" on a harvest card. */
    method OpenSellModal(h: Harvest)
      modifies this`selectedHarvest, this`isSellModalVisible
      ensures selectedHarvest == Some(h) && isSellModalVisible
    {
      selectedHarvest := Some(h);
      isSellModalVisible := true;
    }

    /** "Generate QR" on a harvest card. */
    method OpenQRModal(h: Harvest)
      modifies this`selectedHarvest, this`isQRModalVisible
      ensures selectedHarvest == Some(h) && isQRModalVisible
    {
      selectedHarvest := Some(h);
      isQRModalVisible := true;
    }

    /** The object the batch QR code is rendered from, when one is selected. */
    function QRPayload(): (o: Option<Obj>)
      reads this
      ensures o.Some? <==> selectedHarvest.Some?
      ensures o.Some? ==> o.value == HarvestObject(selectedHarvest.value)
      ensures o.Some? ==> "id" in o.value && o.value["id"] == Str(selectedHarvest.value.id)
    {
      if selectedHarvest.Some? then Some(HarvestObject(selectedHarvest.value)) else None
    }

    /** Tapping a harvest card expands it, or collapses it when it was the expanded one. */
    method ToggleExpanded(id: string)
      modifies this`expandedHarvestId
      ensures expandedHarvestId == if old(expandedHarvestId) == Some(id) then None else Some(id)
    {
      expandedHarvestId := if expandedHarvestId == Some(id) then None else Some(id);
    }

    /** `handlePickCropImage`, given what the picker resolved to. */
    method HandlePickCropImage(result: PickResult)
      modifies this`cropImage
      ensures result.Picked? ==> cropImage == (if |result.assets| > 0 then Some(result.assets[0]) else None)
      ensures !result.Picked? ==> cropImage == old(cropImage)
    {
      if result.Picked? {
        // `result.assets[0]` of an empty list is `undefined`, which the form treats as no image
        cropImage := if |result.assets| > 0 then Some(result.assets[0]) else None;
      }
    }

    /** `handleListForSale` */
    method HandleListForSale() returns (outcome: SellOutcome)
      requires Valid()
      modifies this
      ensures Valid()
      ensures outcome == (if old(expectedPrice) == "" || old(cropImage).None? then MissingPriceOrImage
                          else if old(selectedHarvest).None? then NoSelection
                          else ListedForSale)
      ensures outcome != ListedForSale ==> unchanged(this)
      ensures outcome == ListedForSale ==>
        && harvests == MarkListed(old(harvests), old(selectedHarvest).value.id, old(expectedPrice), old(cropImage).value.uri)
        && !isSellModalVisible && expectedPrice == "" && cropImage.None?
        && selectedHarvest == old(selectedHarvest) && expandedHarvestId == old(expandedHarvestId)
        && isAddModalVisible == old(isAddModalVisible) && isQRModalVisible == old(isQRModalVisible)
        && cropType == old(cropType) && variety == old(variety) && quantity == old(quantity)
        && harvestDate == old(harvestDate) && fertilizers == old(fertilizers)
        && pesticides == old(pesticides) && insecticides == old(insecticides)
    {
      if expectedPrice == "" || cropImage.None? {
        return MissingPriceOrImage;
      }
      if selectedHarvest.None? {
        return NoSelection;
      }
      MarkListedKeepsIds(harvests, selectedHarvest.value.id, expectedPrice, cropImage.value.uri);
      harvests := MarkListed(harvests, selectedHarvest.value.id, expectedPrice, cropImage.value.uri);
      isSellModalVisible := false;
      expectedPrice := "";
      cropImage := None;
      outcome := ListedForSale;
    }
  }
}
