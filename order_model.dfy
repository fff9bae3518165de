/**
 * The pure helpers of a WooCommerce order (`WCOrderModel`): the attribute
 * list of a line item, the shipping-details test, and the list getters that
 * decode a JSON column and fall back to the empty list.
 *
 * JSON decoding is a foreign library; every getter takes the decoder as a
 * parameter that yields `None` when decoding produces null. The decoder
 * cannot fail here: the exception the library throws on malformed text is
 * not modelled.
 */
module OrderModel {
  import opened Wrappers

  /** The runtime value of `WCMetaData.displayValue`: a string or any other JSON value. */
  datatype DisplayValue = StringValue(text: string) | NonStringValue(json: string)

  /** The two `WCMetaData` fields the attribute list reads. */
  datatype MetaData = MetaData(displayKey: Option<string>, displayValue: Option<DisplayValue>)

  /** `LineItem.Attribute`: a nullable key and a nullable value. */
  datatype Attribute = Attribute(key: Option<string>, value: Option<string>)

  /** A decoded line item of an order (its `Float` quantity is not modelled). */
  datatype LineItem = LineItem(
    id: Option<int>,
    name: Option<string>,
    parentName: Option<string>,
    productId: Option<int>,
    variationId: Option<int>,
    subtotal: Option<string>,
    total: Option<string>,
    totalTax: Option<string>,
    sku: Option<string>,
    price: Option<string>,
    metaData: Option<seq<MetaData>>)

  /** A decoded shipping line of an order. */
  datatype ShippingLine = ShippingLine(
    id: Option<int>,
    total: Option<string>,
    totalTax: Option<string>,
    methodId: Option<string>,
    methodTitle: Option<string>)

  /** A decoded fee line of an order. */
  datatype FeeLine = FeeLine(name: Option<string>, total: Option<string>)

  /**
   * An order row. The list-valued columns hold JSON text. Every field of the
   * source is here except the `Double` refund total.
   */
  datatype WCOrderModel = WCOrderModel(
    id: int,
    localSiteId: int,
    remoteOrderId: int,
    number: string,
    status: string,
    currency: string,
    orderKey: string,
    dateCreated: string,
    dateModified: string,
    total: string,
    totalTax: string,
    shippingTotal: string,
    paymentMethod: string,
    paymentMethodTitle: string,
    datePaid: string,
    pricesIncludeTax: bool,
    customerNote: string,
    discountTotal: string,
    discountCodes: string,
    billingFirstName: string,
    billingLastName: string,
    billingCompany: string,
    billingAddress1: string,
    billingAddress2: string,
    billingCity: string,
    billingState: string,
    billingPostcode: string,
    billingCountry: string,
    billingEmail: string,
    billingPhone: string,
    shippingFirstName: string,
    shippingLastName: string,
    shippingCompany: string,
    shippingAddress1: string,
    shippingAddress2: string,
    shippingCity: string,
    shippingState: string,
    shippingPostcode: string,
    shippingCountry: string,
    lineItems: string,
    shippingLines: string,
    feeLines: string,
    metaData: string)

  // ---------------------------------------------------------------------------
  // LineItem.getAttributeList
  // ---------------------------------------------------------------------------

  /** The filter condition: both the display key and the display value are strings. */
  predicate IsDisplayable(m: MetaData): (b: bool)
    ensures b <==> exists k, v :: m.displayKey == Some(k) && m.displayValue == Some(StringValue(v))
  {
    m.displayKey.Some? && m.displayValue.Some? && m.displayValue.value.StringValue?
  }

  /** The filter stage: the displayable entries, in their original order. */
  function Displayable(ms: seq<MetaData>): (r: seq<MetaData>)
    ensures |r| <= |ms|
    ensures forall m :: m in r <==> m in ms && IsDisplayable(m)
    ensures forall i :: 0 <= i < |r| ==> IsDisplayable(r[i])
  {
    if ms == [] then []
    else if IsDisplayable(ms[0]) then [ms[0]] + Displayable(ms[1..])
    else Displayable(ms[1..])
  }

  /** The map stage on one displayable entry. */
  function ToAttribute(m: MetaData): (a: Attribute)
    requires IsDisplayable(m)
    ensures a.key == m.displayKey && a.key.Some?
    ensures a.value.Some? && m.displayValue == Some(StringValue(a.value.value))
  {
    Attribute(m.displayKey, Some(m.displayValue.value.text))
  }

  /** Filter, then map, over a non-null metadata list. */
  function AttributesOf(ms: seq<MetaData>): (r: seq<Attribute>)
    ensures |r| <= |ms|
    ensures forall i :: 0 <= i < |r| ==> r[i].key.Some? && r[i].value.Some?
  {
    var kept := Displayable(ms);
    seq(|kept|, i requires 0 <= i < |kept| => ToAttribute(kept[i]))
  }

  /** `getAttributeList`: a null metadata list gives no attributes. */
  function GetAttributeList(item: LineItem): (r: seq<Attribute>)
    ensures item.metaData.None? ==> r == []
    ensures item.metaData.Some? ==> r == AttributesOf(item.metaData.value)
    ensures item.metaData.Some? ==> |r| <= |item.metaData.value|
    ensures forall a :: a in r ==> a.key.Some? && a.value.Some?
  {
    match item.metaData
    case None => []
    case Some(ms) => AttributesOf(ms)
  }

  lemma {:induction false} DisplayableAppend(a: seq<MetaData>, b: seq<MetaData>)
    ensures Displayable(a + b) == Displayable(a) + Displayable(b)
  {
    if a == [] {
      assert a + b == b;
    } else {
      assert (a + b)[1..] == a[1..] + b;
      DisplayableAppend(a[1..], b);
    }
  }

  /** One entry contributes exactly one attribute, carrying its key and value, when it is displayable, and none otherwise. */
  lemma AttributesOfSingleton(m: MetaData)
    ensures AttributesOf([m]) ==
      if IsDisplayable(m) then [Attribute(m.displayKey, Some(m.displayValue.value.text))] else []
  {
  }

  /**
   * The attribute list of a concatenation is the concatenation of the
   * attribute lists: together with AttributesOfSingleton this says the
   * output keeps the relative order of the kept entries.
   */
  lemma {:induction false} AttributesOfAppend(a: seq<MetaData>, b: seq<MetaData>)
    ensures AttributesOf(a + b) == AttributesOf(a) + AttributesOf(b)
  {
    DisplayableAppend(a, b);
  }

  /** An attribute is in the output iff some displayable entry carries exactly its key and value. */
  lemma AttributesOfMembership(ms: seq<MetaData>, a: Attribute)
    ensures a in AttributesOf(ms) <==>
      exists m :: m in ms && IsDisplayable(m) && a == Attribute(m.displayKey, Some(m.displayValue.value.text))
  {
    var kept := Displayable(ms);
    var r := AttributesOf(ms);
    if a in r {
      var i :| 0 <= i < |kept| && r[i] == a;
      assert kept[i] in kept;
    }
    if m :| m in ms && IsDisplayable(m) && a == Attribute(m.displayKey, Some(m.displayValue.value.text)) {
      assert m in kept;
      var j :| 0 <= j < |kept| && kept[j] == m;
      assert r[j] == a;
    }
  }

  /** Nothing is dropped exactly when every entry is displayable. */
  lemma {:induction false} AttributesOfKeepsAll(ms: seq<MetaData>)
    ensures |AttributesOf(ms)| == |ms| <==> forall m :: m in ms ==> IsDisplayable(m)
  {
    if ms != [] {
      AttributesOfKeepsAll(ms[1..]);
      assert ms == [ms[0]] + ms[1..];
      DisplayableAppend([ms[0]], ms[1..]);
      assert [ms[0]][1..] == [];
      forall m | m in ms[1..] ensures m in ms { }
    }
  }

  // ---------------------------------------------------------------------------
  // hasSeparateShippingDetails
  // ---------------------------------------------------------------------------

  /** True when the order has its own shipping details; otherwise the billing details apply. */
  function HasSeparateShippingDetails(o: WCOrderModel): (r: bool)
    ensures r <==> |o.shippingCountry| > 0
  {
    o.shippingCountry != ""
  }

  /** Only the shipping country decides whether shipping details are separate. */
  lemma ShippingDetailsDependOnlyOnCountry(o1: WCOrderModel, o2: WCOrderModel)
    requires o1.shippingCountry == o2.shippingCountry
    ensures HasSeparateShippingDetails(o1) == HasSeparateShippingDetails(o2)
  {
  }

  // ---------------------------------------------------------------------------
  // The JSON list getters
  // ---------------------------------------------------------------------------

  /** The `?: emptyList()` fallback after a decode. */
  function OrEmpty<T>(decoded: Option<seq<T>>): (r: seq<T>)
    ensures decoded.Some? ==> r == decoded.value
    ensures decoded.None? ==> r == []
  {
    match decoded
    case Some(xs) => xs
    case None => []
  }

  /** `getLineItemList`: the decoded `lineItems` column, or the empty list. */
  function GetLineItemList(o: WCOrderModel, decode: string -> Option<seq<LineItem>>): (r: seq<LineItem>)
    ensures decode(o.lineItems).Some? ==> r == decode(o.lineItems).value
    ensures decode(o.lineItems).None? ==> r == []
  {
    OrEmpty(decode(o.lineItems))
  }

  /** `getShippingLineList`: the decoded `shippingLines` column, or the empty list. */
  function GetShippingLineList(o: WCOrderModel, decode: string -> Option<seq<ShippingLine>>): (r: seq<ShippingLine>)
    ensures decode(o.shippingLines).Some? ==> r == decode(o.shippingLines).value
    ensures decode(o.shippingLines).None? ==> r == []
  {
    OrEmpty(decode(o.shippingLines))
  }

  /** `getFeeLineList`: the decoded `feeLines` column, or the empty list. */
  function GetFeeLineList(o: WCOrderModel, decode: string -> Option<seq<FeeLine>>): (r: seq<FeeLine>)
    ensures decode(o.feeLines).Some? ==> r == decode(o.feeLines).value
    ensures decode(o.feeLines).None? ==> r == []
  {
    OrEmpty(decode(o.feeLines))
  }

  /** `getMetaDataList`: the decoded `metaData` column, or the empty list. */
  function GetMetaDataList(o: WCOrderModel, decode: string -> Option<seq<MetaData>>): (r: seq<MetaData>)
    ensures decode(o.metaData).Some? ==> r == decode(o.metaData).value
    ensures decode(o.metaData).None? ==> r == []
  {
    OrEmpty(decode(o.metaData))
  }

  /** Each getter reads its own column and no other field of the order. */
  lemma GettersReadOnlyTheirColumn(o1: WCOrderModel, o2: WCOrderModel,
                                   dl: string -> Option<seq<LineItem>>,
                                   ds: string -> Option<seq<ShippingLine>>,
                                   df: string -> Option<seq<FeeLine>>,
                                   dm: string -> Option<seq<MetaData>>)
    ensures o1.lineItems == o2.lineItems ==> GetLineItemList(o1, dl) == GetLineItemList(o2, dl)
    ensures o1.shippingLines == o2.shippingLines ==> GetShippingLineList(o1, ds) == GetShippingLineList(o2, ds)
    ensures o1.feeLines == o2.feeLines ==> GetFeeLineList(o1, df) == GetFeeLineList(o2, df)
    ensures o1.metaData == o2.metaData ==> GetMetaDataList(o1, dm) == GetMetaDataList(o2, dm)
  {
  }

  // ---------------------------------------------------------------------------
  // isMultiShippingLinesAvailable
  // ---------------------------------------------------------------------------

  /** True when the order decodes to more than one shipping line; a null parse gives false. */
  function IsMultiShippingLinesAvailable(o: WCOrderModel, decode: string -> Option<seq<ShippingLine>>): (r: bool)
    ensures r <==> decode(o.shippingLines).Some? && |decode(o.shippingLines).value| > 1
    ensures decode(o.shippingLines).None? ==> !r
  {
    |GetShippingLineList(o, decode)| > 1
  }
}
