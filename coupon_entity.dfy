/**
 * The discount type of a WooCommerce coupon (`CouponEntity.DiscountType`):
 * a closed set of three kinds, each tied to the string the store's REST API
 * and database use for it, with a total parser that falls back to the
 * fixed-cart discount.
 */
module CouponEntity {
  import opened Wrappers

  /** The three sealed variants of `DiscountType`. */
  datatype DiscountType = Percent | FixedCart | FixedProduct

  /** The persisted strings, one per variant. */
  const WireValues: set<string> := {"percent", "fixed_cart", "fixed_product"}

  /**
   * The `value` each variant is constructed with, which is also what
   * `toString` prints.
   */
  function ToString(t: DiscountType): (s: string)
    ensures s in WireValues
  {
    match t
    case Percent => "percent"
    case FixedCart => "fixed_cart"
    case FixedProduct => "fixed_product"
  }

  /**
   * `fromString`: compares a nullable string with the value of `Percent`,
   * then with that of `FixedProduct`; anything else, null included, is
   * `FixedCart`.
   */
  function FromString(value: Option<string>): (t: DiscountType)
    ensures t == Percent <==> value == Some("percent")
    ensures t == FixedProduct <==> value == Some("fixed_product")
    ensures t == FixedCart <==> value != Some("percent") && value != Some("fixed_product")
  {
    if value == Some(ToString(Percent)) then Percent
    else if value == Some(ToString(FixedProduct)) then FixedProduct
    else FixedCart
  }

  /** Printing a variant and parsing the string back gives the variant. */
  lemma RoundTrip(t: DiscountType)
    ensures FromString(Some(ToString(t))) == t
  {
  }

  /** The three variant strings are pairwise distinct. */
  lemma ToStringInjective(a: DiscountType, b: DiscountType)
    ensures ToString(a) == ToString(b) ==> a == b
  {
  }

  /** Parsing then printing gives the input back exactly for the three persisted strings. */
  lemma ParseThenPrint(s: string)
    ensures ToString(FromString(Some(s))) == s <==> s in WireValues
  {
  }

  /** Null and every string other than the two matched values parse to `FixedCart`. */
  lemma FallbackIsFixedCart(s: string)
    requires s != "percent" && s != "fixed_product"
    ensures FromString(Some(s)) == FixedCart
    ensures FromString(None) == FixedCart
  {
  }

  /**
   * Examples of the fallback: the empty string, "fixed_cart" itself, and
   * two strings that differ from a matched value only in letter case, since
   * the comparison is case-sensitive.
   */
  lemma FallbackExamples()
    ensures FromString(Some("")) == FixedCart
    ensures FromString(Some("fixed_cart")) == FixedCart
    ensures FromString(Some("Percent")) == FixedCart
    ensures FromString(Some("FIXED_PRODUCT")) == FixedCart
  {
    FallbackIsFixedCart("");
    FallbackIsFixedCart("fixed_cart");
    FallbackIsFixedCart("Percent");
    FallbackIsFixedCart("FIXED_PRODUCT");
  }

  /** Every variant is produced by some input: the parser is onto. */
  lemma FromStringOnto(t: DiscountType)
    ensures exists v: Option<string> :: FromString(v) == t
  {
    RoundTrip(t);
  }
}
