/** `GET /api/bff/collections/search?collection=…&q=…`: both parameters are
    checked, collection first, before the search service runs. */
module SearchEndpoint {
  import opened Text
  import opened BffTypes

  const MissingCollection := ErrorInfo("BAD_REQUEST", "Collection parameter is missing", "Не вказано назву колекції")
  const MissingQuery := ErrorInfo("BAD_REQUEST", "Search query is missing", "Не вказано пошуковий запит")

  /** The route, with `searchCollection` as a given function of the
      collection name and the query. A parameter that is absent from the URL
      or empty is missing. */
  function Get(
    collection: Option<string>, query: Option<string>, search: (string, string) -> BFFResponse<CollectionDTO>
  ): (r: Reply<CollectionDTO>)
    ensures !TruthyStr(collection) ==> r == Reply(400, RouteError(MissingCollection), JsonHeaders)
    ensures TruthyStr(collection) && !TruthyStr(query) ==> r == Reply(400, RouteError(MissingQuery), JsonHeaders)
    ensures TruthyStr(collection) && TruthyStr(query) ==>
      && r.body == ServiceBody(search(collection.value, query.value))
      && (r.status == 200 <==> search(collection.value, query.value).Success?)
      && (r.status == 500 <==> search(collection.value, query.value).Failure?)
      && r.headers == JsonWithCacheControl("public, max-age=30")
  {
    if !TruthyStr(collection) then Reply(400, RouteError(MissingCollection), JsonHeaders)
    else if !TruthyStr(query) then Reply(400, RouteError(MissingQuery), JsonHeaders)
    else
      var result := search(collection.value, query.value);
      Reply(if result.Success? then 200 else 500, ServiceBody(result), JsonWithCacheControl("public, max-age=30"))
  }

  /** The route answers 400 exactly when a parameter is missing, and only
      then does it answer without consulting the service; a cached answer
      always comes from the service. */
  lemma GetStatus(
    collection: Option<string>, query: Option<string>, search: (string, string) -> BFFResponse<CollectionDTO>
  )
    ensures var r := Get(collection, query, search);
      && r.status in {200, 400, 500}
      && (r.status == 400 <==> !TruthyStr(collection) || !TruthyStr(query))
      && (r.body.ServiceBody? <==> r.status != 400)
      && ("Cache-Control" in r.headers <==> r.body.ServiceBody?)
      && r.headers["Content-Type"] == "application/json"
  {
  }
}
