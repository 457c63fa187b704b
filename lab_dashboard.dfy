/** The lab dashboard: batches awaiting certification, attaching a certificate PDF to
    one of them, and the QR code of a certified batch. */
module LabDashboard {
  import opened Common

  /** A batch as the lab sees it. `certificateUri` is `null` (`None`) until a certificate
      is attached; `extra` holds the remaining string fields of the original harvest. */
  datatype LabListing = LabListing(
    id: string, farmerName: string, cropType: string, quantity: string,
    certificateUri: Option<string>, extra: map<string, string>)

  /** `!!listing.certificateUri` */
  predicate HasCertificate(l: LabListing)
  {
    l.certificateUri.Some? && l.certificateUri.value != ""
  }

  datatype Action = UploadCertificate | GenerateQR

  /** The one action a batch card offers. */
  function ActionFor(l: LabListing): (a: Action)
    ensures a == UploadCertificate <==> !HasCertificate(l)
    ensures a == GenerateQR <==> HasCertificate(l)
  {
    if HasCertificate(l) then GenerateQR else UploadCertificate
  }

  /** The two batches the screen starts with. */
  function MockListings(): (r: seq<LabListing>)
    ensures |r| == 2 && r[0].id == "GV-2025-001" && r[1].id == "HV-2025-007"
    ensures forall i :: 0 <= i < |r| ==> r[i].certificateUri.None? && ActionFor(r[i]) == UploadCertificate
  {
    [ LabListing("GV-2025-001", "Krish Sehgal", "Ashwagandha", "100 kg", None,
                 map["variety" := "Herb", "harvestDate" := "15 Jan 2025", "fertilizers" := "Urea",
                     "pesticides" := "Glysophate", "insecticides" := "Lamidacloprid", "expectedPrice" := "25000"]),
      LabListing("HV-2025-007", "Sunrise Herbs", "Turmeric", "500 kg", None,
                 map["variety" := "Salem", "harvestDate" := "12-10-2025", "fertilizers" := "Vermicompost",
                     "pesticides" := "None", "insecticides" := "None", "expectedPrice" := "35000"]) ]
  }

  /** `listings.map(l => l.id === listingId ? { ...l, certificateUri: uri } : l)` */
  function AttachCertificate(ls: seq<LabListing>, listingId: string, uri: string): (r: seq<LabListing>)
    ensures |r| == |ls|
    ensures forall i :: 0 <= i < |ls| ==>
      r[i] == if ls[i].id == listingId then ls[i].(certificateUri := Some(uri)) else ls[i]
  {
    if ls == [] then []
    else [if ls[0].id == listingId then ls[0].(certificateUri := Some(uri)) else ls[0]]
         + AttachCertificate(ls[1..], listingId, uri)
  }

  /** After attaching a non-empty uri, every batch with that id offers "Generate QR",
      and every other batch offers what it offered before. */
  lemma AttachChangesActions(ls: seq<LabListing>, listingId: string, uri: string)
    requires uri != ""
    ensures var r := AttachCertificate(ls, listingId, uri);
            forall i :: 0 <= i < |ls| ==>
              ActionFor(r[i]) == if ls[i].id == listingId then GenerateQR else ActionFor(ls[i])
  {
  }

  /** Attaching the same certificate again changes nothing. */
  lemma AttachIdempotent(ls: seq<LabListing>, listingId: string, uri: string)
    ensures var r := AttachCertificate(ls, listingId, uri);
            AttachCertificate(r, listingId, uri) == r
  {
    var r := AttachCertificate(ls, listingId, uri);
    var r2 := AttachCertificate(r, listingId, uri);
    assert forall i :: 0 <= i < |r| ==> r2[i] == r[i];
  }

  /** The certificate a document-picker result carries, if it is to be attached. */
  function PickedCertificate(result: PickResult): (c: Option<Asset>)
    ensures c.Some? <==> result.Picked? && |result.assets| > 0
    ensures c.Some? ==> c.value == result.assets[0]
  {
    if result.Picked? && |result.assets| > 0 then Some(result.assets[0]) else None
  }

  /** The object the batch QR code is rendered from: the whole batch, with
      `certificateUri` present as `null` when no certificate is attached. */
  function QRObject(l: LabListing): (o: Obj)
    ensures "certificateUri" in o
    ensures o["certificateUri"] == if l.certificateUri.Some? then Str(l.certificateUri.value) else Null
    ensures "id" in o && o["id"] == Str(l.id) && "farmerName" in o && o["farmerName"] == Str(l.farmerName)
    ensures "cropType" in o && o["cropType"] == Str(l.cropType) && "quantity" in o && o["quantity"] == Str(l.quantity)
    ensures forall k :: k in l.extra && k !in {"id", "farmerName", "cropType", "quantity", "certificateUri"} ==>
      k in o && o[k] == Str(l.extra[k])
    ensures forall k :: k in o ==> k in l.extra || k in {"id", "farmerName", "cropType", "quantity", "certificateUri"}
  {
    var base := map k | k in l.extra :: Str(l.extra[k]);
    base["id" := Str(l.id)]["farmerName" := Str(l.farmerName)]["cropType" := Str(l.cropType)]
        ["quantity" := Str(l.quantity)]
        ["certificateUri" := if l.certificateUri.Some? then Str(l.certificateUri.value) else Null]
  }

  class Dashboard {
    var listings: seq<LabListing>
    var isQRModalVisible: bool
    var selectedListing: Option<LabListing>

    constructor()
      ensures listings == MockListings() && !isQRModalVisible && selectedListing.None?
    {
      listings := MockListings();
      isQRModalVisible := false;
      selectedListing := None;
    }

    /** `handlePickCertificate(listingId)`, given what the document picker resolved to
        (`PickerError` when it threw, which is caught and reported). */
    method HandlePickCertificate(listingId: string, result: PickResult)
      modifies this`listings
      ensures var c := PickedCertificate(result);
              listings == if c.Some? then AttachCertificate(old(listings), listingId, c.value.uri) else old(listings)
    {
      if result.Picked? && |result.assets| > 0 {
        var certificate := result.assets[0];
        listings := AttachCertificate(listings, listingId, certificate.uri);
      }
    }

    /** "Generate QR" on the card of batch `i`, which only certified batches show. */
    method OpenQR(i: nat)
      requires i < |listings| && ActionFor(listings[i]) == GenerateQR
      modifies this`selectedListing, this`isQRModalVisible
      ensures selectedListing == Some(listings[i]) && isQRModalVisible
    {
      selectedListing := Some(listings[i]);
      isQRModalVisible := true;
    }

    function QRPayload(): (o: Option<Obj>)
      reads this
      ensures o.Some? <==> selectedListing.Some?
      ensures o.Some? ==> "certificateUri" in o.value && o.value == QRObject(selectedListing.value)
    {
      if selectedListing.Some? then Some(QRObject(selectedListing.value)) else None
    }
  }
}
