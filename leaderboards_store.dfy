/**
 * The result selection of `WCLeaderboardsStore`: turning the REST client's
 * payload into a result over all leaderboards, and then picking the product
 * leaderboard out of it.
 *
 * The network call and the thread it runs on are left out: the payload is
 * an input. The mapper from a leaderboard response to the app's model is a
 * foreign call, so it is a parameter.
 */
module LeaderboardsStore {
  import opened Wrappers

  /** The WooCommerce error category; only `GENERIC_ERROR` is named by this code. */
  datatype WooErrorType = GenericError | OtherWooErrorType(name: string)

  /** The underlying request error kind; only `UNKNOWN` is named by this code. */
  datatype GenericErrorType = Unknown | OtherGenericErrorType(name: string)

  /** A WooCommerce error: a category, the original error kind and an optional message. */
  datatype WooError = WooError(kind: WooErrorType, original: GenericErrorType, message: Option<string>)

  /** `WooError(GENERIC_ERROR, UNKNOWN)` with no message. */
  const UnknownError: WooError := WooError(GenericError, Unknown, None)

  /** What a store returns: either a model or an error. */
  datatype WooResult<T> = WithModel(model: T) | WithError(error: WooError)

  /** The nullable `model` of a result: null for an error result. */
  function ModelOf<T>(result: WooResult<T>): (r: Option<T>)
    ensures r.Some? <==> result.WithModel?
    ensures r.Some? ==> r.value == result.model
  {
    match result
    case WithModel(m) => Some(m)
    case WithError(_) => None
  }

  /** What the REST client returns: a nullable result and a nullable error; `isError` means the error is set. */
  datatype WooPayload<T> = WooPayload(result: Option<T>, error: Option<WooError>)

  /** The kind of a leaderboard; only `PRODUCTS` is named by this code. */
  datatype LeaderboardType = Products | OtherLeaderboardType(name: string)

  /** One leaderboard of the response; its rows are passed on to the mapper unread. */
  datatype LeaderboardsApiResponse = LeaderboardsApiResponse(kind: LeaderboardType, rows: string)

  /** `fetchAllLeaderboards`: the error wins, then a non-null result, then the generic unknown error. */
  function FetchAllLeaderboards(payload: WooPayload<seq<LeaderboardsApiResponse>>): (r: WooResult<seq<LeaderboardsApiResponse>>)
    ensures payload.error.Some? ==> r == WithError(payload.error.value)
    ensures payload.error.None? && payload.result.Some? ==> r == WithModel(payload.result.value)
    ensures payload.error.None? && payload.result.None? ==> r == WithError(UnknownError)
  {
    if payload.error.Some? then WithError(payload.error.value)
    else if payload.result.Some? then WithModel(payload.result.value)
    else WithError(UnknownError)
  }

  /** True when some entry of the list is a product leaderboard. */
  predicate HasProducts(list: seq<LeaderboardsApiResponse>) {
    exists i :: 0 <= i < |list| && list[i].kind == Products
  }

  /** `firstOrNull { it.type == PRODUCTS }`. */
  function FirstProducts(list: seq<LeaderboardsApiResponse>): (r: Option<LeaderboardsApiResponse>)
    ensures r.None? <==> !HasProducts(list)
    ensures r.Some? ==> exists i :: 0 <= i < |list| && list[i] == r.value && list[i].kind == Products
                                    && forall j :: 0 <= j < i ==> list[j].kind != Products
  {
    if list == [] then None
    else if list[0].kind == Products then Some(list[0])
    else
      var rest := FirstProducts(list[1..]);
      assert HasProducts(list[1..]) ==> HasProducts(list) by {
        if HasProducts(list[1..]) {
          var i :| 0 <= i < |list[1..]| && list[1..][i].kind == Products;
          assert list[i + 1].kind == Products;
        }
      }
      assert HasProducts(list) ==> HasProducts(list[1..]) by {
        if HasProducts(list) {
          var i :| 0 <= i < |list| && list[i].kind == Products;
          assert i > 0 && list[1..][i - 1].kind == Products;
        }
      }
      assert rest.Some? ==> exists i :: 0 <= i < |list| && list[i] == rest.value && list[i].kind == Products
                                       && forall j :: 0 <= j < i ==> list[j].kind != Products by {
        if rest.Some? {
          var k :| 0 <= k < |list[1..]| && list[1..][k] == rest.value && list[1..][k].kind == Products
                   && forall j :: 0 <= j < k ==> list[1..][j].kind != Products;
          assert list[k + 1] == rest.value;
          assert forall j :: 0 <= j < k + 1 ==> list[j].kind != Products by {
            forall j | 0 <= j < k + 1 ensures list[j].kind != Products {
              if j > 0 { assert list[j] == list[1..][j - 1]; }
            }
          }
        }
      }
      rest
  }

  /**
   * `fetchProductLeaderboards`: the first product leaderboard of a successful
   * fetch, mapped; every other outcome, including an error from the fetch, is
   * the generic unknown error.
   */
  function FetchProductLeaderboards<M>(payload: WooPayload<seq<LeaderboardsApiResponse>>,
                                       mapper: LeaderboardsApiResponse -> M): (r: WooResult<M>)
    ensures r.WithModel? <==> payload.error.None? && payload.result.Some? && HasProducts(payload.result.value)
    ensures r.WithError? ==> r.error == UnknownError
    ensures r.WithModel? ==>
      exists i :: 0 <= i < |payload.result.value| && payload.result.value[i].kind == Products
                  && r.model == mapper(payload.result.value[i])
                  && forall j :: 0 <= j < i ==> payload.result.value[j].kind != Products
  {
    var all := ModelOf(FetchAllLeaderboards(payload));
    var first := if all.Some? then FirstProducts(all.value) else None;
    match first
    case Some(board) => WithModel(mapper(board))
    case None => WithError(UnknownError)
  }

  /** An error in the payload takes precedence over any result it also carries. */
  lemma ErrorTakesPrecedence(payload: WooPayload<seq<LeaderboardsApiResponse>>, e: WooError)
    requires payload.error == Some(e)
    ensures FetchAllLeaderboards(payload) == WithError(e)
  {
  }

  /**
   * The product fetch does not pass the fetch error on: whatever the REST
   * error, the caller sees the generic unknown error.
   */
  lemma FetchErrorIsDiscarded<M>(payload: WooPayload<seq<LeaderboardsApiResponse>>,
                                 mapper: LeaderboardsApiResponse -> M, e: WooError)
    requires payload.error == Some(e)
    ensures FetchProductLeaderboards(payload, mapper) == WithError(UnknownError)
    ensures e != UnknownError ==> FetchProductLeaderboards(payload, mapper) != WithError(e)
  {
  }

  /** The product fetch succeeds iff the fetch of all leaderboards succeeds with a product entry. */
  lemma ProductSuccessIff<M>(payload: WooPayload<seq<LeaderboardsApiResponse>>,
                             mapper: LeaderboardsApiResponse -> M)
    ensures FetchProductLeaderboards(payload, mapper).WithModel? <==>
      FetchAllLeaderboards(payload).WithModel? && HasProducts(FetchAllLeaderboards(payload).model)
  {
  }

  /**
   * Only the first product leaderboard is mapped: non-product entries before
   * it and any entries after it do not affect the result.
   */
  lemma {:induction false} FirstProductsChosen(prefix: seq<LeaderboardsApiResponse>,
                                                board: LeaderboardsApiResponse,
                                                suffix: seq<LeaderboardsApiResponse>)
    requires forall j :: 0 <= j < |prefix| ==> prefix[j].kind != Products
    requires board.kind == Products
    ensures FirstProducts(prefix + [board] + suffix) == Some(board)
  {
    if prefix != [] {
      assert (prefix + [board] + suffix)[1..] == prefix[1..] + [board] + suffix;
      FirstProductsChosen(prefix[1..], board, suffix);
    }
  }

  /** The same fact for the whole product fetch. */
  lemma ProductLeaderboardIsFirstMatch<M>(prefix: seq<LeaderboardsApiResponse>,
                                          board: LeaderboardsApiResponse,
                                          suffix: seq<LeaderboardsApiResponse>,
                                          mapper: LeaderboardsApiResponse -> M)
    requires forall j :: 0 <= j < |prefix| ==> prefix[j].kind != Products
    requires board.kind == Products
    ensures FetchProductLeaderboards(WooPayload(Some(prefix + [board] + suffix), None), mapper)
            == WithModel(mapper(board))
  {
    FirstProductsChosen(prefix, board, suffix);
  }
}
