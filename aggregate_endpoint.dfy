/** `POST /api/bff/collections/aggregate` with a JSON body
    `{ "collections": [...] }`. */
module AggregateEndpoint {
  import opened Text
  import opened Http
  import opened BffTypes

  /** The `collections` member of the parsed body: a list of names, or
      anything else (absent, null, a number, an object, …). */
  datatype CollectionsField = NamesArray(names: seq<string>) | NotAnArray

  /** Reading the body: either it yields the `collections` member, or it
      throws (a body that is not JSON, or one without properties). */
  datatype RequestBody = Body(collections: CollectionsField) | BodyThrows(thrown: Thrown)

  const ArrayRequired := ErrorInfo("BAD_REQUEST", "Collections array is required", "Не вказано масив колекцій")
  const InternalUserMessage := "Виникла помилка при обробці запиту"

  /** The catch-all answer: the message of a thrown `Error`, or
      "Internal server error" for anything else that was thrown. */
  function InternalError(thrown: Thrown): ErrorInfo {
    var message := ErrorMessage(thrown);
    ErrorInfo("INTERNAL_ERROR", if message.Some? then message.value else "Internal server error", InternalUserMessage)
  }

  /** The route, with `getMultipleCollections` as a given function of the
      names. It never throws: it turns every failure into a result. */
  function Post(
    body: RequestBody, aggregate: seq<string> -> BFFResponse<map<string, CollectionDTO>>
  ): (r: Reply<map<string, CollectionDTO>>)
    ensures body.BodyThrows? ==> r.status == 500 && r.headers == JsonHeaders && r.body.RouteError?
    ensures body.BodyThrows? && ErrorMessage(body.thrown).Some? ==>
      r.body.error == ErrorInfo("INTERNAL_ERROR", ErrorMessage(body.thrown).value, InternalUserMessage)
    ensures body.BodyThrows? && ErrorMessage(body.thrown).None? ==>
      r.body.error == ErrorInfo("INTERNAL_ERROR", "Internal server error", InternalUserMessage)
    ensures body.Body? && (body.collections.NotAnArray? || body.collections.names == []) ==>
      r == Reply(400, RouteError(ArrayRequired), JsonHeaders)
    ensures body.Body? && body.collections.NamesArray? && body.collections.names != [] ==>
      var result := aggregate(body.collections.names);
      && r.body == ServiceBody(result)
      && (r.status == 200 <==> result.Success?)
      && (r.status == 500 <==> result.Failure?)
      && r.headers == JsonWithCacheControl("public, max-age=60")
  {
    match body
    case BodyThrows(thrown) => Reply(500, RouteError(InternalError(thrown)), JsonHeaders)
    case Body(collections) =>
      if collections.NotAnArray? || |collections.names| == 0 then
        Reply(400, RouteError(ArrayRequired), JsonHeaders)
      else
        var result := aggregate(collections.names);
        Reply(if result.Success? then 200 else 500, ServiceBody(result), JsonWithCacheControl("public, max-age=60"))
  }

  /** The service is consulted exactly for a non-empty array of names, and
      its answers, and only they, carry the cache header. */
  lemma PostStatus(body: RequestBody, aggregate: seq<string> -> BFFResponse<map<string, CollectionDTO>>)
    ensures var r := Post(body, aggregate);
      && r.status in {200, 400, 500}
      && (r.body.ServiceBody? <==> body.Body? && body.collections.NamesArray? && body.collections.names != [])
      && (r.status == 400 <==> body.Body? && !(body.collections.NamesArray? && body.collections.names != []))
      && ("Cache-Control" in r.headers <==> r.body.ServiceBody?)
  {
  }
}
