/** The harvest detail screen: it parses the record it was sent, tells whether the
    batch is already purchased, and on a confirmed purchase returns to the mediator
    dashboard. It keeps no state of its own. */
module DisplayHarvest {
  import opened Common

  /** `harvestData` after the guarded `JSON.parse`: `null` unless `harvestDataString`
      is a non-empty string that parses; a `SyntaxError` is caught. */
  function ParseOrNull(harvestDataString: Option<Param>, parse: string -> ParseResult): (t: Top)
    ensures !t.NullValue? ==>
      harvestDataString.Some? && harvestDataString.value.PStr? && harvestDataString.value.s != "" &&
      parse(harvestDataString.value.s) == Parsed(t)
    ensures (harvestDataString.Some? && harvestDataString.value.PStr? && harvestDataString.value.s != "" &&
             parse(harvestDataString.value.s).Parsed?) ==> t == parse(harvestDataString.value.s).top
  {
    match harvestDataString
    case Some(PStr(s)) =>
      if s == "" then NullValue
      else (match parse(s) case SyntaxError => NullValue case Parsed(top) => top)
    case _ => NullValue
  }

  /** `harvestData?.status === 'purchased'` */
  predicate RecordPurchased(t: Top)
  {
    t.Value? && Get(t.props, "status") == Some(Str("purchased"))
  }

  /** `status === 'purchased' || harvestData?.status === 'purchased'` */
  predicate IsPurchased(status: Option<Param>, t: Top)
  {
    status == Some(PStr("purchased")) || RecordPurchased(t)
  }

  /** The navigation "Confirm" performs. The record string goes back verbatim, and
      only when the screen was opened by the scanner for the mediator dashboard. */
  function ConfirmPurchase(returnTo: Option<Param>, harvestDataString: string): (n: Nav)
    ensures n.kind == Push && n.pathname == "/mediatorDashboard"
    ensures "purchaseComplete" in n.params && n.params["purchaseComplete"] == PStr("true")
    ensures returnTo == Some(PStr("mediatorDashboard")) ==>
      n.params.Keys == {"purchaseComplete", "harvestData"} && n.params["harvestData"] == PStr(harvestDataString)
    ensures returnTo != Some(PStr("mediatorDashboard")) ==> n.params.Keys == {"purchaseComplete"}
  {
    if returnTo == Some(PStr("mediatorDashboard")) then
      Nav(Push, "/mediatorDashboard", map["purchaseComplete" := PStr("true"), "harvestData" := PStr(harvestDataString)])
    else
      Nav(Push, "/mediatorDashboard", map["purchaseComplete" := PStr("true")])
  }

  /** `value || 'N/A'` for the text of an `InfoRow`. */
  function InfoRowText(value: Option<string>): (t: string)
    ensures t != ""
    ensures value.Some? && value.value != "" ==> t == value.value
    ensures value.None? || value == Some("") ==> t == "N/A"
  {
    if value.Some? && value.value != "" then value.value else "N/A"
  }

  /** A record field as the text an `InfoRow` receives; only string fields are shown as text. */
  function TextField(props: Obj, key: string): Option<string>
  {
    match Get(props, key)
    case Some(Str(s)) => Some(s)
    case _ => None
  }

  /** What the screen shows: the error view, or the details with the "Buy Crop" action
      when the batch is not purchased. */
  datatype Screen =
    | LoadError
    | Details(record: Obj, purchased: bool, rows: seq<(string, string)>, buy: Option<Nav>)

  /** The labels of the six plain-value rows and the record key each one shows. */
  const DetailFields: seq<(string, string)> :=
    [ ("Farmer", "farmerName"), ("Quantity", "quantity"), ("Harvest Date", "harvestDate"),
      ("Fertilizers Used", "fertilizers"), ("Pesticides Used", "pesticides"),
      ("Insecticides Used", "insecticides") ]

  /** The record holds a non-empty string under `key`, which a row shows as it is. */
  predicate HasText(props: Obj, key: string)
  {
    key in props && props[key].Str? && props[key].s != ""
  }

  /** The six `InfoRow`s whose value is a plain record field: each row carries its label
      and shows the field's text when it is a non-empty string, else 'N/A'. */
  function DetailRows(props: Obj): (rows: seq<(string, string)>)
    ensures |rows| == |DetailFields|
    ensures forall i :: 0 <= i < |rows| ==> rows[i].0 == DetailFields[i].0 && rows[i].1 != ""
    ensures forall i :: 0 <= i < |rows| && HasText(props, DetailFields[i].1) ==>
      rows[i].1 == props[DetailFields[i].1].s
    ensures forall i :: 0 <= i < |rows| && !HasText(props, DetailFields[i].1) ==> rows[i].1 == "N/A"
  {
    [ ("Farmer", InfoRowText(TextField(props, "farmerName"))),
      ("Quantity", InfoRowText(TextField(props, "quantity"))),
      ("Harvest Date", InfoRowText(TextField(props, "harvestDate"))),
      ("Fertilizers Used", InfoRowText(TextField(props, "fertilizers"))),
      ("Pesticides Used", InfoRowText(TextField(props, "pesticides"))),
      ("Insecticides Used", InfoRowText(TextField(props, "insecticides"))) ]
  }

  /** The screen for the route parameters it was opened with. */
  function Display(params: Params, parse: string -> ParseResult): (s: Screen)
    ensures var t := ParseOrNull(Lookup(params, "harvestDataString"), parse);
            s.LoadError? <==> !t.Value?
    ensures s.Details? ==>
      var t := ParseOrNull(Lookup(params, "harvestDataString"), parse);
      && t.Value? && s.record == t.props
      && (s.purchased <==> IsPurchased(Lookup(params, "status"), t))
      && (s.buy.Some? <==> !s.purchased)
    ensures s.Details? ==> s.rows == DetailRows(s.record)
    ensures s.Details? ==>
      var hds := Lookup(params, "harvestDataString");
      && hds.Some? && hds.value.PStr?
      && (s.buy.Some? ==> s.buy.value == ConfirmPurchase(Lookup(params, "returnTo"), hds.value.s))
  {
    var hds := Lookup(params, "harvestDataString");
    var t := ParseOrNull(hds, parse);
    if !t.Value? then LoadError
    else
      var purchased := IsPurchased(Lookup(params, "status"), t);
      Details(t.props, purchased, DetailRows(t.props),
              if purchased then None else Some(ConfirmPurchase(Lookup(params, "returnTo"), hds.value.s)))
  }

  /** When a purchase can be confirmed, the record string it sends back is exactly the
      one the screen received. */
  lemma PurchaseForwardsVerbatim(params: Params, parse: string -> ParseResult)
    requires Display(params, parse).Details? && Display(params, parse).buy.Some?
    requires Lookup(params, "returnTo") == Some(PStr("mediatorDashboard"))
    ensures var n := Display(params, parse).buy.value;
            "harvestDataString" in params && n.params["harvestData"] == params["harvestDataString"]
  {
  }

  /** A string the parser rejects, or an empty one, yields the error view and no purchase. */
  lemma UnparseableShowsError(params: Params, parse: string -> ParseResult)
    requires match Lookup(params, "harvestDataString")
             case Some(PStr(s)) => s == "" || parse(s).SyntaxError?
             case _ => true
    ensures Display(params, parse) == LoadError
  {
  }
}
