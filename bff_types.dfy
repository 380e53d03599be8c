/** The records the BFF layer passes around: what the backend API returns,
    the DTOs handed to the UI, and the `BFFResponse` union every service
    returns. Timestamps (`new Date().toISOString()`) are left out of the
    records. */
module BffTypes {
  import opened Text

  datatype ApiCollectionItem = ApiCollectionItem(
    id: int,
    title: string,
    content: Option<string>,
    author: Option<string>,
    createdAt: Option<string>,
    tags: Option<seq<string>>)

  datatype ApiCollectionResponse = ApiCollectionResponse(
    collection: string,
    items: seq<ApiCollectionItem>,
    timestamp: string,
    total: Option<int>,
    page: Option<int>)

  datatype ApiUserResponse = ApiUserResponse(
    id: int,
    username: string,
    email: string,
    firstName: Option<string>,
    lastName: Option<string>,
    avatar: Option<string>,
    role: string,
    createdAt: string)

  datatype CollectionItemDTO = CollectionItemDTO(
    id: string,
    title: string,
    excerpt: Option<string>,
    author: Option<string>,
    publishedDate: Option<string>,
    tags: seq<string>)

  datatype Pagination = Pagination(currentPage: int, totalPages: int, hasNext: bool, hasPrev: bool)

  datatype CollectionDTO = CollectionDTO(
    name: string,
    items: seq<CollectionItemDTO>,
    totalItems: int,
    updatedAt: string,
    pagination: Option<Pagination>)

  datatype UserDTO = UserDTO(
    id: string,
    username: string,
    displayName: string,
    email: string,
    avatarUrl: Option<string>,
    isAdmin: bool,
    memberSince: string)

  /** The `error` object of a `BFFErrorDTO`. */
  datatype ErrorInfo = ErrorInfo(code: string, message: string, userMessage: string)

  datatype Meta = Meta(cached: bool, duration: Option<int>)

  /** `BFFSuccessDTO<T> | BFFErrorDTO`: `success: true` with data, or
      `success: false` with an error. */
  datatype BFFResponse<T> = Success(data: T, meta: Option<Meta>) | Failure(error: ErrorInfo)

  datatype SortField = ByDate | ByTitle | ByPopularity
  datatype SortOrder = Asc | Desc

  datatype CollectionQueryParams = CollectionQueryParams(
    page: Option<int>,
    limit: Option<int>,
    tags: Option<seq<string>>,
    author: Option<string>,
    sortBy: Option<SortField>,
    order: Option<SortOrder>)

  /** An omitted `params` argument. */
  const NoParams := CollectionQueryParams(None, None, None, None, None, None)

  // ---------------------------------------------------------------------------
  // What an API route answers

  /** The JSON body of a route's `Response`: a service result serialised as
      it is, or an error object built by the route itself. */
  datatype ReplyBody<T> = ServiceBody(result: BFFResponse<T>) | RouteError(error: ErrorInfo)

  datatype Reply<T> = Reply(status: int, body: ReplyBody<T>, headers: map<string, string>)

  const JsonHeaders: map<string, string> := map["Content-Type" := "application/json"]

  function JsonWithCacheControl(cacheControl: string): map<string, string> {
    JsonHeaders["Cache-Control" := cacheControl]
  }
}
