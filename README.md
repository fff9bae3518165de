# WooCommerce data layer: coupon discount types, order helpers, leaderboard selection

This project models the small pieces of logic in the WooCommerce plugin of
an Android data-layer SDK (FluxC style), and proves properties about them.
The rest of the repository is REST clients, dependency injection and ORM
entities. The three modelled pieces are:

- **Coupon discount types** (`CouponEntity.DiscountType`). There are three
  sealed variants, `percent`, `fixed_cart` and `fixed_product`. `toString`
  prints the variant's string. `fromString` parses a nullable string, and any
  unknown input, null included, falls back to the fixed-cart discount. Module
  `CouponEntity`.
- **Order helpers** (`WCOrderModel`). These are the attribute list of a line
  item (a filter over its metadata, then a map), the test for separate
  shipping details, the four getters that decode a JSON column and fall back
  to the empty list, and the test for more than one shipping line. Module
  `OrderModel`.
- **Leaderboard selection** (`WCLeaderboardsStore`). First, the REST payload
  becomes a result over all leaderboards: an error wins, then a non-null
  result, and otherwise the generic unknown error. Second, the first
  `PRODUCTS` leaderboard is picked and mapped. Every other outcome becomes
  the generic unknown error, so an error from the fetch is not passed on to
  the caller. Module `LeaderboardsStore`.

Everything here is pure code, so the model uses datatypes, functions and
lemmas. Nullable values use `Wrappers.Option`. Two things are inputs to the
functions rather than part of the model: JSON decoding (a foreign library)
is a decoder parameter `string -> Option<seq<T>>`, where `None` means the
decoder produced null (for example, for an empty column), and the leaderboard
mapper is a function parameter.

## Model

| member | source | states |
|---|---|---|
| CouponEntity.ToString | plugins/woocommerce/src/main/kotlin/org/wordpress/android/fluxc/persistence/entity/CouponEntity.kt:36-39 | every variant prints as one of the three persisted strings |
| CouponEntity.FromString | plugins/woocommerce/src/main/kotlin/org/wordpress/android/fluxc/persistence/entity/CouponEntity.kt:42-48 | the parser is total: "percent" gives Percent, "fixed_product" gives FixedProduct, and everything else (null included) gives FixedCart, each as an if-and-only-if |
| CouponEntity.RoundTrip | plugins/woocommerce/src/main/kotlin/org/wordpress/android/fluxc/persistence/entity/CouponEntity.kt:36-51 | parsing a variant's printed string gives back the variant |
| CouponEntity.ToStringInjective | plugins/woocommerce/src/main/kotlin/org/wordpress/android/fluxc/persistence/entity/CouponEntity.kt:37-39 | distinct variants print distinct strings |
| CouponEntity.ParseThenPrint | plugins/woocommerce/src/main/kotlin/org/wordpress/android/fluxc/persistence/entity/CouponEntity.kt:42-51 | printing a parsed string gives the input back exactly when the input is one of the three persisted strings |
| CouponEntity.FallbackIsFixedCart | plugins/woocommerce/src/main/kotlin/org/wordpress/android/fluxc/persistence/entity/CouponEntity.kt:46 | null and every string other than "percent" and "fixed_product" parse to FixedCart |
| CouponEntity.FallbackExamples | plugins/woocommerce/src/main/kotlin/org/wordpress/android/fluxc/persistence/entity/CouponEntity.kt:43-46 | examples of that fallback: "", "fixed_cart", "Percent" and "FIXED_PRODUCT" all parse to FixedCart, since the comparison is case-sensitive |
| CouponEntity.FromStringOnto | plugins/woocommerce/src/main/kotlin/org/wordpress/android/fluxc/persistence/entity/CouponEntity.kt:42-48 | every variant is the parse of some input |
| OrderModel.IsDisplayable | plugins/woocommerce/src/main/kotlin/org/wordpress/android/fluxc/model/WCOrderModel.kt:118 | an entry passes the filter iff its display key is some string and its display value is some string |
| OrderModel.ToAttribute | plugins/woocommerce/src/main/kotlin/org/wordpress/android/fluxc/model/WCOrderModel.kt:120 | the attribute carries the entry's display key unchanged and, as its value, exactly the string held by the display value |
| OrderModel.Displayable | plugins/woocommerce/src/main/kotlin/org/wordpress/android/fluxc/model/WCOrderModel.kt:117-118 | the filter keeps exactly the entries whose display key and display value are both strings, and never lengthens the list |
| OrderModel.AttributesOf | plugins/woocommerce/src/main/kotlin/org/wordpress/android/fluxc/model/WCOrderModel.kt:117-120 | the output is no longer than the metadata, and every attribute has a non-null key and value |
| OrderModel.GetAttributeList | plugins/woocommerce/src/main/kotlin/org/wordpress/android/fluxc/model/WCOrderModel.kt:116-122 | null metadata gives the empty list; otherwise the result is the filter-then-map of the metadata, no longer than it, with non-null keys and values |
| OrderModel.DisplayableAppend | plugins/woocommerce/src/main/kotlin/org/wordpress/android/fluxc/model/WCOrderModel.kt:117-118 | filtering a concatenation is concatenating the filtered parts |
| OrderModel.AttributesOfSingleton | plugins/woocommerce/src/main/kotlin/org/wordpress/android/fluxc/model/WCOrderModel.kt:117-120 | one entry gives one attribute with exactly its display key and string value when both are strings, and none otherwise |
| OrderModel.AttributesOfAppend | plugins/woocommerce/src/main/kotlin/org/wordpress/android/fluxc/model/WCOrderModel.kt:117-120 | the attribute list of a concatenation is the concatenation of the attribute lists, so the kept entries stay in their relative order |
| OrderModel.AttributesOfMembership | plugins/woocommerce/src/main/kotlin/org/wordpress/android/fluxc/model/WCOrderModel.kt:117-120 | an attribute is produced iff some entry with string key and string value carries exactly that key and value |
| OrderModel.AttributesOfKeepsAll | plugins/woocommerce/src/main/kotlin/org/wordpress/android/fluxc/model/WCOrderModel.kt:117-120 | the output has the input's length iff every entry is displayable |
| OrderModel.HasSeparateShippingDetails | plugins/woocommerce/src/main/kotlin/org/wordpress/android/fluxc/model/WCOrderModel.kt:137 | true iff the shipping country is non-empty |
| OrderModel.ShippingDetailsDependOnlyOnCountry | plugins/woocommerce/src/main/kotlin/org/wordpress/android/fluxc/model/WCOrderModel.kt:137 | two orders with the same shipping country agree, whatever their other fields |
| OrderModel.OrEmpty | plugins/woocommerce/src/main/kotlin/org/wordpress/android/fluxc/model/WCOrderModel.kt:154 | a decoded list is returned unchanged; a null parse becomes the empty list |
| OrderModel.GetLineItemList | plugins/woocommerce/src/main/kotlin/org/wordpress/android/fluxc/model/WCOrderModel.kt:152-155 | the decoded line-item column, or the empty list when decoding yields null |
| OrderModel.GetShippingLineList | plugins/woocommerce/src/main/kotlin/org/wordpress/android/fluxc/model/WCOrderModel.kt:167-170 | the decoded shipping-line column, or the empty list when decoding yields null |
| OrderModel.GetFeeLineList | plugins/woocommerce/src/main/kotlin/org/wordpress/android/fluxc/model/WCOrderModel.kt:175-178 | the decoded fee-line column, or the empty list when decoding yields null |
| OrderModel.GetMetaDataList | plugins/woocommerce/src/main/kotlin/org/wordpress/android/fluxc/model/WCOrderModel.kt:183-186 | the decoded metadata column, or the empty list when decoding yields null |
| OrderModel.GettersReadOnlyTheirColumn | plugins/woocommerce/src/main/kotlin/org/wordpress/android/fluxc/model/WCOrderModel.kt:152-186 | each getter depends only on its own JSON column |
| OrderModel.IsMultiShippingLinesAvailable | plugins/woocommerce/src/main/kotlin/org/wordpress/android/fluxc/model/WCOrderModel.kt:188 | true iff decoding succeeds with more than one shipping line; a null parse gives false |
| LeaderboardsStore.ModelOf | plugins/woocommerce/src/main/kotlin/org/wordpress/android/fluxc/store/WCLeaderboardsStore.kt:34 | the model of a result is non-null iff the result carries a model, and is then that model |
| LeaderboardsStore.FetchAllLeaderboards | plugins/woocommerce/src/main/kotlin/org/wordpress/android/fluxc/store/WCLeaderboardsStore.kt:40-52 | an error payload gives that same error; with no error, a non-null result is returned with the same elements in the same order; otherwise the result is GENERIC_ERROR/UNKNOWN |
| LeaderboardsStore.FirstProducts | plugins/woocommerce/src/main/kotlin/org/wordpress/android/fluxc/store/WCLeaderboardsStore.kt:35 | null iff no entry is a product leaderboard; otherwise the entry at the first index of type PRODUCTS |
| LeaderboardsStore.FetchProductLeaderboards | plugins/woocommerce/src/main/kotlin/org/wordpress/android/fluxc/store/WCLeaderboardsStore.kt:26-38 | succeeds iff the payload has no error, a result and a PRODUCTS entry, and then its model is the mapping of the first such entry; every failure is GENERIC_ERROR/UNKNOWN |
| LeaderboardsStore.ErrorTakesPrecedence | plugins/woocommerce/src/main/kotlin/org/wordpress/android/fluxc/store/WCLeaderboardsStore.kt:47-48 | a payload carrying an error gives that error even when it also carries a result |
| LeaderboardsStore.FetchErrorIsDiscarded | plugins/woocommerce/src/main/kotlin/org/wordpress/android/fluxc/store/WCLeaderboardsStore.kt:33-37 | when the fetch fails, the product fetch returns GENERIC_ERROR/UNKNOWN and never the original error |
| LeaderboardsStore.ProductSuccessIff | plugins/woocommerce/src/main/kotlin/org/wordpress/android/fluxc/store/WCLeaderboardsStore.kt:33-37 | the product fetch succeeds iff the fetch of all leaderboards succeeds and its list has a PRODUCTS entry |
| LeaderboardsStore.FirstProductsChosen | plugins/woocommerce/src/main/kotlin/org/wordpress/android/fluxc/store/WCLeaderboardsStore.kt:35 | after non-product entries, the first PRODUCTS entry is picked, whatever follows it |
| LeaderboardsStore.ProductLeaderboardIsFirstMatch | plugins/woocommerce/src/main/kotlin/org/wordpress/android/fluxc/store/WCLeaderboardsStore.kt:33-36 | only the first PRODUCTS entry is mapped; earlier non-product entries and any later entries do not affect the result |

## Left out

- The REST client (`WooCommerceRestClient`), the network tunnel and the leaderboards REST client are left out. The leaderboards payload is an input to the model.
- The coroutine context switch (`withDefaultContext`) and its logging are left out, because they are threading and have no effect on the result.
- The leaderboard mapper (`WCProductLeaderboardsMapper`) and the product store it consults are foreign calls. The mapper is a function parameter.
- Gson decoding (`fromJson`, `TypeToken`, the `as?` cast) is a foreign library. It is a decoder parameter that yields `None` when decoding produces null.
- The decoder parameter cannot fail. In the source, `fromJson` throws on malformed JSON and on a non-array value under a list type, and the four list getters and `isMultiShippingLinesAvailable` pass that exception on to the caller. The model does not cover that throwing case. The defensive `as?` cast is modelled only as the null fallback.
- `getOrderSubtotal`, `refundTotal` and `LineItem.quantity` use floating-point numbers, so they are not modelled.
- `getIdentifier`, `getBillingAddress` and `getShippingAddress` build `OrderIdentifier` and `OrderAddress`, whose source is not part of this model.
- `WCMetaData` is reduced to the two fields that the attribute list reads. Its other fields are not part of this model.
- `WooError`, `WooResult`, `WooPayload` and `LeaderboardsApiResponse` are reduced to what this code reads. The error categories, error kinds and leaderboard types other than `GENERIC_ERROR`, `UNKNOWN` and `PRODUCTS` are opaque named alternatives.
- The Room annotations, keys and indices, the rest of `CouponEntity`'s columns, `CouponWithEmails` and `CouponDataModel` are left out, because they are schema metadata and plain data holders with no behaviour.
- The dependency-injection module (`WCDatabaseModule`) and `CapturePaymentApiResponse` are left out, because they have no behaviour of their own.
- The paginated list store (`ListStore`/`ListManager`) and its instrumented test are left out. The store's source is not part of this model, and the test runs against a live site.
