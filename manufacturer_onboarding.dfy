/** Manufacturer registration: the product-category multi-select, the two dropdowns
    with their placeholder labels, and the unguarded submission. */
module ManufacturerOnboarding {
  import opened Common

  const ProductTypePlaceholder: string := "Select Product Type"
  const StatePlaceholder: string := "Select State/UT"

  const ProductTypes: seq<string> := ["Ayurvedic/Herbal Products", "Food Products", "Cosmetics", "Other"]

  const StatesAndUTs: seq<string> := [
    "Andaman and Nicobar Islands", "Andhra Pradesh", "Arunachal Pradesh", "Assam", "Bihar", "Chandigarh",
    "Chhattisgarh", "Dadra and Nagar Haveli and Daman and Diu", "Delhi", "Goa", "Gujarat", "Haryana",
    "Himachal Pradesh", "Jammu and Kashmir", "Jharkhand", "Karnataka", "Kerala", "Ladakh", "Lakshadweep",
    "Madhya Pradesh", "Maharashtra", "Manipur", "Meghalaya", "Mizoram", "Nagaland", "Odisha", "Puducherry",
    "Punjab", "Rajasthan", "Sikkim", "Tamil Nadu", "Telangana", "Tripura", "Uttar Pradesh", "Uttarakhand",
    "West Bengal"]

  const ProductCategories: seq<string> := [
    "Herbal Powders (Churnas)", "Tablets / Capsules (Vati)", "Herbal Oils (Tailas)",
    "Syrups / Decoctions (Asavas)", "Cosmetics & Personal Care", "Raw Herb Processing",
    "Herbal Teas / Infusions", "Extracts / Tinctures", "Pastes / Lehyams", "Nutraceuticals / Supplements"]

  // ----- the category toggle -----

  /** `cs.filter(item => item !== c)` */
  function RemoveAll(cs: seq<string>, c: string): (r: seq<string>)
    ensures |r| <= |cs|
    ensures forall x :: x in r <==> x in cs && x != c
  {
    if cs == [] then [] else (if cs[0] == c then [] else [cs[0]]) + RemoveAll(cs[1..], c)
  }

  /** `handleCategorySelect`: a selected category is removed (every occurrence), any
      other is appended at the end. */
  function Toggle(cs: seq<string>, c: string): (r: seq<string>)
    ensures c !in cs ==> r == cs + [c]
    ensures c in cs ==> r == RemoveAll(cs, c) && c !in r
  {
    if c in cs then RemoveAll(cs, c) else cs + [c]
  }

  predicate NoDuplicates(cs: seq<string>)
  {
    forall i, j :: 0 <= i < j < |cs| ==> cs[i] != cs[j]
  }

  /** Removing keeps the remaining categories in their order: it distributes over concatenation. */
  lemma {:induction false} RemoveAllAppend(a: seq<string>, b: seq<string>, c: string)
    ensures RemoveAll(a + b, c) == RemoveAll(a, c) + RemoveAll(b, c)
  {
    if a == [] {
      assert a + b == b;
    } else {
      assert (a + b)[0] == a[0];
      assert (a + b)[1..] == a[1..] + b;
      RemoveAllAppend(a[1..], b, c);
    }
  }

  /** Removing a category that is not there changes nothing. */
  lemma {:induction false} RemoveAbsent(cs: seq<string>, c: string)
    requires c !in cs
    ensures RemoveAll(cs, c) == cs
  {
    if cs != [] {
      assert c !in cs[1..] by {
        forall i | 0 <= i < |cs[1..]| ensures cs[1..][i] != c {
          assert cs[1..][i] == cs[i + 1];
        }
      }
      RemoveAbsent(cs[1..], c);
      assert cs == [cs[0]] + cs[1..];
    }
  }

  /** Removing keeps a duplicate-free list duplicate-free. */
  lemma {:induction false} RemoveAllNoDuplicates(cs: seq<string>, c: string)
    requires NoDuplicates(cs)
    ensures NoDuplicates(RemoveAll(cs, c))
  {
    if cs != [] {
      var tail := cs[1..];
      assert NoDuplicates(tail) by {
        forall i, j | 0 <= i < j < |tail| ensures tail[i] != tail[j] {
          assert tail[i] == cs[i + 1] && tail[j] == cs[j + 1];
        }
      }
      RemoveAllNoDuplicates(tail, c);
      var rest := RemoveAll(tail, c);
      assert cs[0] !in tail by {
        forall i | 0 <= i < |tail| ensures tail[i] != cs[0] {
          assert tail[i] == cs[i + 1];
        }
      }
      assert cs[0] !in rest;
      var r := RemoveAll(cs, c);
      if cs[0] != c {
        assert r == [cs[0]] + rest;
        forall i, j | 0 <= i < j < |r| ensures r[i] != r[j] {
          if i == 0 {
            assert r[j] == rest[j - 1];
          } else {
            assert r[i] == rest[i - 1] && r[j] == rest[j - 1];
          }
        }
      } else {
        assert r == rest;
      }
    }
  }

  /** Selecting an unselected category twice gives back the original list. */
  lemma ToggleTwiceRestores(cs: seq<string>, c: string)
    requires c !in cs
    ensures Toggle(Toggle(cs, c), c) == cs
  {
    RemoveAllAppend(cs, [c], c);
    RemoveAbsent(cs, c);
    assert RemoveAll([c], c) == [];
  }

  /** Selecting a selected category twice moves it to the end. */
  lemma ToggleTwiceMovesToEnd(cs: seq<string>, c: string)
    requires c in cs
    ensures Toggle(Toggle(cs, c), c) == RemoveAll(cs, c) + [c]
  {
  }

  /** The toggle keeps the selection duplicate-free. */
  lemma ToggleNoDuplicates(cs: seq<string>, c: string)
    requires NoDuplicates(cs)
    ensures NoDuplicates(Toggle(cs, c))
  {
    if c in cs {
      RemoveAllNoDuplicates(cs, c);
    } else {
      var r := cs + [c];
      forall i, j | 0 <= i < j < |r| ensures r[i] != r[j] {
        if j == |cs| {
          assert r[i] == cs[i];
        } else {
          assert r[i] == cs[i] && r[j] == cs[j];
        }
      }
    }
  }

  // ----- submission -----

  datatype ManufacturerForm = ManufacturerForm(
    companyName: string, brandName: string, website: string, contactPerson: string,
    email: string, phone: string, gstin: string, productType: string, fssaiLicense: string,
    ayushLicenseNum: string, ayushLicenseImage: Option<Asset>, selectedState: string, city: string,
    location: Option<Coordinates>, selectedCategories: seq<string>)

  /** The location text of a manufacturer: `${latitude}, ${longitude}`, or 'Not Set'. */
  function LocationText(l: Option<Coordinates>): (t: string)
    ensures l.None? ==> t == "Not Set"
    ensures l.Some? ==> t == l.value.latitude + ", " + l.value.longitude
  {
    if l.Some? then l.value.latitude + ", " + l.value.longitude else "Not Set"
  }

  /** `manufacturerData`: all fifteen fields, passed through whatever they hold. */
  function ManufacturerData(f: ManufacturerForm): (p: Params)
    ensures p.Keys == {"companyName", "brandName", "website", "contactPerson", "email", "phone", "gstin",
                       "productType", "fssaiLicense", "ayushLicenseNum", "ayushLicenseImageUri", "state",
                       "city", "location", "categories"}
    ensures p["productType"] == PStr(f.productType) && p["state"] == PStr(f.selectedState)
    ensures p["ayushLicenseImageUri"] == if f.ayushLicenseImage.Some? then PStr(f.ayushLicenseImage.value.uri) else PNull
    ensures p["location"] == PStr(LocationText(f.location))
    ensures p["categories"] == PStr(Join(f.selectedCategories, ", "))
    ensures p["companyName"] == PStr(f.companyName) && p["brandName"] == PStr(f.brandName)
    ensures p["website"] == PStr(f.website) && p["contactPerson"] == PStr(f.contactPerson)
    ensures p["email"] == PStr(f.email) && p["phone"] == PStr(f.phone) && p["gstin"] == PStr(f.gstin)
    ensures p["fssaiLicense"] == PStr(f.fssaiLicense) && p["ayushLicenseNum"] == PStr(f.ayushLicenseNum)
    ensures p["city"] == PStr(f.city)
  {
    map["companyName" := PStr(f.companyName), "brandName" := PStr(f.brandName), "website" := PStr(f.website),
        "contactPerson" := PStr(f.contactPerson), "email" := PStr(f.email), "phone" := PStr(f.phone),
        "gstin" := PStr(f.gstin), "productType" := PStr(f.productType), "fssaiLicense" := PStr(f.fssaiLicense),
        "ayushLicenseNum" := PStr(f.ayushLicenseNum),
        "ayushLicenseImageUri" := if f.ayushLicenseImage.Some? then PStr(f.ayushLicenseImage.value.uri) else PNull,
        "state" := PStr(f.selectedState), "city" := PStr(f.city), "location" := PStr(LocationText(f.location)),
        "categories" := PStr(Join(f.selectedCategories, ", "))]
  }

  /** "Submit for Verification": no check at all, always a replace to the manufacturer dashboard. */
  function Submit(f: ManufacturerForm): (n: Nav)
    ensures n.kind == Replace && n.pathname == "/manufacturerDashboard" && n.params == ManufacturerData(f)
  {
    Nav(Replace, "/manufacturerDashboard", ManufacturerData(f))
  }

  /** The FSSAI licence field is only shown for food products, but is always submitted. */
  predicate FssaiFieldShown(productType: string)
  {
    productType == "Food Products"
  }

  /** Whatever the FSSAI licence field last held is submitted, even for a product type
      under which the field is hidden. */
  lemma FssaiSubmittedWhenHidden(f: ManufacturerForm)
    requires !FssaiFieldShown(f.productType)
    ensures Submit(f).params["fssaiLicense"] == PStr(f.fssaiLicense)
  {
  }

  /** An untouched form still submits, carrying both placeholders, an empty category
      list, no licence image and no location. */
  lemma UntouchedFormSubmits()
    ensures var p := Submit(ManufacturerForm("", "", "", "", "", "", "", ProductTypePlaceholder, "", "", None,
                                             StatePlaceholder, "", None, [])).params;
            p["productType"] == PStr("Select Product Type") && p["state"] == PStr("Select State/UT") &&
            p["ayushLicenseImageUri"] == PNull && p["location"] == PStr("Not Set") && p["categories"] == PStr("")
  {
  }

  class Onboarding {
    var companyName: string
    var brandName: string
    var website: string
    var contactPerson: string
    var email: string
    var phone: string
    var gstin: string
    var productType: string
    var fssaiLicense: string
    var ayushLicenseNum: string
    var ayushLicenseImage: Option<Asset>
    var selectedState: string
    var city: string
    var location: Option<Coordinates>
    var selectedCategories: seq<string>
    var isStateModalVisible: bool
    var isProductTypeModalVisible: bool

    /** The selection never holds a category twice. */
    ghost predicate Valid()
      reads this
    {
      NoDuplicates(selectedCategories)
    }

    constructor()
      ensures Valid() && productType == ProductTypePlaceholder && selectedState == StatePlaceholder
      ensures selectedCategories == [] && ayushLicenseImage.None? && location.None?
      ensures companyName == "" && brandName == "" && website == "" && contactPerson == "" && email == ""
      ensures phone == "" && gstin == "" && fssaiLicense == "" && ayushLicenseNum == "" && city == ""
      ensures !isStateModalVisible && !isProductTypeModalVisible
    {
      companyName, brandName, website, contactPerson, email := "", "", "", "", "";
      phone, gstin, fssaiLicense, ayushLicenseNum, city := "", "", "", "", "";
      productType, selectedState := ProductTypePlaceholder, StatePlaceholder;
      ayushLicenseImage, location, selectedCategories := None, None, [];
      isStateModalVisible, isProductTypeModalVisible := false, false;
    }

    function Form(): ManufacturerForm
      reads this
    {
      ManufacturerForm(companyName, brandName, website, contactPerson, email, phone, gstin, productType,
                       fssaiLicense, ayushLicenseNum, ayushLicenseImage, selectedState, city, location,
                       selectedCategories)
    }

    /** `handleCategorySelect` */
    method HandleCategorySelect(category: string)
      requires Valid()
      modifies this`selectedCategories
      ensures Valid() && selectedCategories == Toggle(old(selectedCategories), category)
    {
      ToggleNoDuplicates(selectedCategories, category);
      if category in selectedCategories {
        selectedCategories := RemoveAll(selectedCategories, category);
      } else {
        selectedCategories := selectedCategories + [category];
      }
    }

    method SelectState(option: string)
      requires option in StatesAndUTs
      modifies this`selectedState, this`isStateModalVisible
      ensures selectedState == option && selectedState != StatePlaceholder && !isStateModalVisible
    {
      selectedState := option;
      isStateModalVisible := false;
    }

    method SelectProductType(option: string)
      requires option in ProductTypes
      modifies this`productType, this`isProductTypeModalVisible
      ensures productType == option && productType != ProductTypePlaceholder && !isProductTypeModalVisible
    {
      productType := option;
      isProductTypeModalVisible := false;
    }

    method HandleGetLocation(r: LocationResult)
      modifies this`location
      ensures location == AfterLocation(old(location), r)
    {
      if r.Located? {
        location := Some(r.coords);
      }
    }

    /** `handlePickImage`; a refused permission, a cancel or an empty result keeps the image. */
    method HandlePickImage(r: PickResult)
      modifies this`ayushLicenseImage
      ensures ayushLicenseImage == FirstAssetOr(old(ayushLicenseImage), r)
    {
      if r.Picked? && |r.assets| > 0 {
        ayushLicenseImage := Some(r.assets[0]);
      }
    }

    method HandleSubmit() returns (nav: Nav)
      ensures nav == Submit(Form())
    {
      var manufacturerData := ManufacturerData(Form());
      nav := Nav(Replace, "/manufacturerDashboard", manufacturerData);
    }
  }
}
