/**
 * `POST /api/search`: check the query and the search key, run one product
 * search, and answer with the products found.
 */
module SearchRoute {
  import opened Wrappers
  import opened Http

  /** The request body; `limit` is `None` when the field is absent. */
  datatype SearchRequest = SearchRequest(query: Option<string>, limit: Option<int>)

  /** What the search client's call would give: the products, or an exception. */
  datatype SearchOutcome = Found(products: seq<Product>) | SearchThrew

  const DEFAULT_LIMIT: int := 6
  const QUERY_MESSAGE := "Query is required"
  const KEY_MESSAGE := "CHANNEL3_API_KEY is not set"
  const FAILED_MESSAGE := "Search failed"

  function Post(request: Option<SearchRequest>, apiKey: Option<string>, search: SearchOutcome): (x: Exchange)
    ensures request.None? ==> x == Exchange(Error(500, FAILED_MESSAGE), [])
    ensures request.Some? && !Truthy(request.value.query) ==> x == Exchange(Error(400, QUERY_MESSAGE), [])
    ensures request.Some? && Truthy(request.value.query) && !Truthy(apiKey) ==> x == Exchange(Error(500, KEY_MESSAGE), [])
    // One search is made exactly when both checks pass, with the limit defaulting to 6.
    ensures x.calls != [] <==> request.Some? && Truthy(request.value.query) && Truthy(apiKey)
    ensures x.calls != [] ==>
              x.calls == [SearchCall(apiKey.value, request.value.query.value, request.value.limit.GetOr(DEFAULT_LIMIT))]
    // The provider's products are passed on unchanged; an exception answers 500.
    ensures x.calls != [] && search.Found? ==> x.response == Response(OK_STATUS, ProductsBody(search.products))
    ensures x.calls != [] && search.SearchThrew? ==> x.response == Error(500, FAILED_MESSAGE)
    ensures x.response.status == OK_STATUS <==> x.calls != [] && search.Found?
  {
    match request
    case None => Exchange(Error(500, FAILED_MESSAGE), [])
    case Some(req) =>
      if !Truthy(req.query) then Exchange(Error(400, QUERY_MESSAGE), [])
      else if !Truthy(apiKey) then Exchange(Error(500, KEY_MESSAGE), [])
      else
        var calls := [SearchCall(apiKey.value, req.query.value, req.limit.GetOr(DEFAULT_LIMIT))];
        match search
        case Found(products) => Exchange(Response(OK_STATUS, ProductsBody(products)), calls)
        case SearchThrew => Exchange(Error(500, FAILED_MESSAGE), calls)
  }
}
