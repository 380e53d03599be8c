/** The collection service: builds the backend path, transforms the answer,
    applies the BFF-side filters, aggregates several collections and
    searches one. The API client is an oracle from path to outcome, the
    elapsed time a parameter. */
module CollectionService {
  import opened Text
  import opened Seqs
  import opened Http
  import opened BffTypes
  import opened ErrorTransformer
  import opened CollectionTransformer

  // ---------------------------------------------------------------------------
  // getCollection

  /** The `page` and `limit` pairs of the query, in that order, each only
      when truthy; `URLSearchParams` leaves digits and '-' as they are. */
  function QueryPairs(page: Option<int>, limit: Option<int>): seq<string> {
    (if TruthyInt(page) then ["page=" + IntToString(page.value)] else [])
    + (if TruthyInt(limit) then ["limit=" + IntToString(limit.value)] else [])
  }

  /** The backend path of a collection request: the query string, when
      there is one, follows a '?'. */
  function RequestPath(name: string, page: Option<int>, limit: Option<int>): string {
    var query := Join(QueryPairs(page, limit), "&");
    "/collections/" + name + (if query != "" then "?" + query else "")
  }

  /** The four shapes of the path: no '?' without page and limit, and page
      before limit when both are given. */
  lemma RequestPathShape(name: string, page: Option<int>, limit: Option<int>)
    ensures var path := RequestPath(name, page, limit);
      && (!TruthyInt(page) && !TruthyInt(limit) ==> path == "/collections/" + name)
      && (TruthyInt(page) && !TruthyInt(limit) ==>
            path == "/collections/" + name + "?page=" + IntToString(page.value))
      && (!TruthyInt(page) && TruthyInt(limit) ==>
            path == "/collections/" + name + "?limit=" + IntToString(limit.value))
      && (TruthyInt(page) && TruthyInt(limit) ==>
            path == "/collections/" + name + "?page=" + IntToString(page.value) + "&limit=" + IntToString(limit.value))
  {
    if TruthyInt(page) && TruthyInt(limit) {
      PathWithBothPairs(name, IntToString(page.value), IntToString(limit.value));
    } else if TruthyInt(page) {
      PathWithOnePair(name, "page=", IntToString(page.value));
      assert "?" + "page=" == "?page=";
    } else if TruthyInt(limit) {
      PathWithOnePair(name, "limit=", IntToString(limit.value));
      assert "?" + "limit=" == "?limit=";
    }
  }

  lemma PathWithOnePair(name: string, key: string, v: string)
    requires key != ""
    ensures "/collections/" + name + ("?" + Join([key + v], "&")) == "/collections/" + name + ("?" + key) + v
  {
  }

  lemma PathWithBothPairs(name: string, p: string, l: string)
    ensures var query := Join(["page=" + p, "limit=" + l], "&");
      query != "" && "/collections/" + name + ("?" + query) == "/collections/" + name + "?page=" + p + "&limit=" + l
  {
    JoinTwo("page=" + p, "limit=" + l, "&");
  }

  /** What `apiClient.get<ApiCollectionResponse>(path)` settles to: the
      decoded response, or what it threw. */
  datatype ApiGet = Fetched(response: ApiCollectionResponse) | GetFailed(thrown: Thrown)

  /** `params.tags || params.author || params.sortBy`: any tag list, even an
      empty one, is truthy. */
  predicate FilterActive(params: CollectionQueryParams) {
    params.tags.Some? || TruthyStr(params.author) || params.sortBy.Some?
  }

  function FiltersOf(params: CollectionQueryParams): ItemFilters {
    ItemFilters(params.tags, params.author, params.sortBy, params.order)
  }

  /** `getCollection`: fetches the path, transforms the answer with the
      page options, and when a filter is given replaces the items by the
      filtered ones and `totalItems` by their count. Pagination is computed
      before filtering and is left as it is. Any failure becomes a
      `BFFErrorDTO`. */
  method GetCollection(
    name: string, params: CollectionQueryParams, api: string -> ApiGet, df: DateFormat, duration: int
  ) returns (path: string, r: BFFResponse<CollectionDTO>)
    ensures path == RequestPath(name, params.page, params.limit)
    ensures api(path).GetFailed? ==> r == TransformError(api(path).thrown)
    ensures api(path).Fetched? ==> r.Success? && r.meta == Some(Meta(false, Some(duration)))
    ensures api(path).Fetched? ==>
      var base := TransformCollection(api(path).response, params.page, params.limit, df);
      && r.data.name == base.name
      && r.data.updatedAt == base.updatedAt
      && r.data.pagination == base.pagination
      && (!FilterActive(params) ==> r.data == base)
      && (FilterActive(params) ==>
            && r.data.items == Arranged(base.items, FiltersOf(params))
            && r.data.totalItems == |r.data.items|
            && multiset(r.data.items) <= multiset(base.items)
            && (forall x :: x in r.data.items <==> x in base.items && Kept(x, FiltersOf(params))))
  {
    path := RequestPath(name, params.page, params.limit);
    match api(path) {
      case GetFailed(t) =>
        r := TransformError(t);
      case Fetched(response) =>
        var collectionDTO := TransformCollection(response, params.page, params.limit, df);
        if FilterActive(params) {
          var items := FilterAndSortCollectionItems(collectionDTO.items, FiltersOf(params));
          collectionDTO := collectionDTO.(items := items);
          collectionDTO := collectionDTO.(totalItems := |collectionDTO.items|);
        }
        r := Success(collectionDTO, Some(Meta(false, Some(duration))));
    }
  }

  // ---------------------------------------------------------------------------
  // getMultipleCollections

  /** The one name that `collections[name] = data` does not store on the
      plain object `{}`: it reaches the prototype setter instead, so no own
      property appears and neither `Object.keys` nor the JSON body shows it. */
  const ProtoKey := "__proto__"

  /** The own properties of `collections` after `collections[name] = data`. */
  function StoreOwn(m: map<string, CollectionDTO>, name: string, data: CollectionDTO): map<string, CollectionDTO> {
    if name == ProtoKey then m else m[name := data]
  }

  /** The own properties of the `collections` record after the first
      `|names|` results: each success stored under its name, a later one
      overwriting an earlier. */
  function CollectedMap(names: seq<string>, results: seq<BFFResponse<CollectionDTO>>): map<string, CollectionDTO>
    requires |names| == |results|
  {
    if names == [] then map[]
    else
      var n := |names| - 1;
      var m := CollectedMap(names[..n], results[..n]);
      if results[n].Success? then StoreOwn(m, names[n], results[n].data) else m
  }

  /** The `errors` list after the first `|names|` results. */
  function FailureMessages(names: seq<string>, results: seq<BFFResponse<CollectionDTO>>): seq<string>
    requires |names| == |results|
  {
    if names == [] then []
    else
      var n := |names| - 1;
      FailureMessages(names[..n], results[..n])
      + (if results[n].Failure? then [names[n] + ": " + results[n].error.message] else [])
  }

  /** A name is a key of the collected map exactly when it is not
      `__proto__` and one of its results succeeded. */
  lemma {:induction false} CollectedMapKeys(names: seq<string>, results: seq<BFFResponse<CollectionDTO>>, name: string)
    requires |names| == |results|
    ensures name in CollectedMap(names, results) <==>
      name != ProtoKey && exists k :: 0 <= k < |names| && names[k] == name && results[k].Success?
  {
    if names != [] {
      var n := |names| - 1;
      CollectedMapKeys(names[..n], results[..n], name);
      if name in CollectedMap(names, results) && !(results[n].Success? && names[n] == name) {
        var k :| 0 <= k < n && names[..n][k] == name && results[..n][k].Success?;
        assert names[k] == name && results[k].Success?;
      }
      if exists k :: 0 <= k < |names| && names[k] == name && results[k].Success? {
        var k :| 0 <= k < |names| && names[k] == name && results[k].Success?;
        if k < n {
          assert names[..n][k] == name && results[..n][k].Success?;
        }
      }
    }
  }

  /** The value stored under a name is the data of its last successful
      result. */
  lemma {:induction false} CollectedMapValue(names: seq<string>, results: seq<BFFResponse<CollectionDTO>>, k: nat)
    requires |names| == |results| && k < |names| && results[k].Success?
    requires forall k' :: k < k' < |names| && names[k'] == names[k] ==> results[k'].Failure?
    ensures names[k] != ProtoKey ==>
      names[k] in CollectedMap(names, results) && CollectedMap(names, results)[names[k]] == results[k].data
  {
    var n := |names| - 1;
    if k < n {
      CollectedMapValue(names[..n], results[..n], k);
    }
  }

  /** Every error line is "<name>: <message>" of a failed result, and every
      failed result has its line. */
  lemma {:induction false} FailureMessagesMembers(names: seq<string>, results: seq<BFFResponse<CollectionDTO>>, line: string)
    requires |names| == |results|
    ensures line in FailureMessages(names, results) <==>
      exists k :: 0 <= k < |names| && results[k].Failure? && line == names[k] + ": " + results[k].error.message
  {
    if names != [] {
      var n := |names| - 1;
      FailureMessagesMembers(names[..n], results[..n], line);
      if line in FailureMessages(names, results) && !(results[n].Failure? && line == names[n] + ": " + results[n].error.message) {
        var k :| 0 <= k < n && results[..n][k].Failure? && line == names[..n][k] + ": " + results[..n][k].error.message;
        assert results[k].Failure? && line == names[k] + ": " + results[k].error.message;
      }
      if exists k :: 0 <= k < |names| && results[k].Failure? && line == names[k] + ": " + results[k].error.message {
        var k :| 0 <= k < |names| && results[k].Failure? && line == names[k] + ": " + results[k].error.message;
        if k < n {
          assert results[..n][k].Failure? && line == names[..n][k] + ": " + results[..n][k].error.message;
        }
      }
    }
  }

  /** When every result failed, the error list has one line per name, in
      input order. */
  lemma {:induction false} FailureMessagesAllFailed(names: seq<string>, results: seq<BFFResponse<CollectionDTO>>)
    requires |names| == |results|
    requires forall k :: 0 <= k < |results| ==> results[k].Failure?
    ensures var errors := FailureMessages(names, results);
      && |errors| == |names|
      && forall k :: 0 <= k < |names| ==> errors[k] == names[k] + ": " + results[k].error.message
  {
    if names != [] {
      var n := |names| - 1;
      FailureMessagesAllFailed(names[..n], results[..n]);
    }
  }

  /** `getMultipleCollections`, given the settled result of
      `getCollection(name)` for each name: successes go into a record under
      their names, failures into a list of messages, and if no own key was
      stored (no names, no success, or only `__proto__` succeeded) the thrown
      "Failed to fetch collections: …" error becomes the answer. */
  method GetMultipleCollections(
    names: seq<string>, results: seq<BFFResponse<CollectionDTO>>, duration: int
  ) returns (r: BFFResponse<map<string, CollectionDTO>>)
    requires |results| == |names|
    ensures r.Success? <==> exists k :: 0 <= k < |results| && results[k].Success? && names[k] != ProtoKey
    ensures r.Success? ==> r == Success(CollectedMap(names, results), Some(Meta(false, Some(duration))))
    ensures r.Failure? ==>
      r == TransformError(PlainError("Failed to fetch collections: " + Join(FailureMessages(names, results), ", ")))
    ensures r.Failure? ==>
      r.error.code == UNKNOWN_ERROR && StartsWith(r.error.message, "Failed to fetch collections: ")
  {
    var collections: map<string, CollectionDTO> := map[];
    var errors: seq<string> := [];
    for i := 0 to |names|
      invariant collections == CollectedMap(names[..i], results[..i])
      invariant errors == FailureMessages(names[..i], results[..i])
    {
      assert names[..i + 1][..i] == names[..i] && results[..i + 1][..i] == results[..i];
      match results[i] {
        case Success(data, _) =>
          collections := StoreOwn(collections, names[i], data);
        case Failure(e) =>
          errors := errors + [names[i] + ": " + e.message];
      }
    }
    assert names[..|names|] == names && results[..|results|] == results;
    if |collections| == 0 {
      forall k | 0 <= k < |results| ensures results[k].Failure? || names[k] == ProtoKey {
        CollectedMapKeys(names, results, names[k]);
      }
      r := TransformError(PlainError("Failed to fetch collections: " + Join(errors, ", ")));
      var message := "Failed to fetch collections: " + Join(errors, ", ");
      assert r.error.message == message;
      assert message[..|"Failed to fetch collections: "|] == "Failed to fetch collections: ";
    } else {
      var name :| name in collections;
      CollectedMapKeys(names, results, name);
      r := Success(collections, Some(Meta(false, Some(duration))));
    }
  }

  // ---------------------------------------------------------------------------
  // searchCollection

  /** The search predicate: the title, the excerpt (when there is one) or
      some tag contains the query, ignoring case. */
  predicate MatchesQuery(item: CollectionItemDTO, query: string) {
    || ContainsIgnoringCase(item.title, query)
    || (item.excerpt.Some? && ContainsIgnoringCase(item.excerpt.value, query))
    || (exists tag :: tag in item.tags && ContainsIgnoringCase(tag, query))
  }

  function QueryFilter(query: string): CollectionItemDTO -> bool {
    item => MatchesQuery(item, query)
  }

  /** `searchCollection`, given the result of `getCollection(name)`: a
      failure is passed on as it is; a success keeps exactly the matching
      items, in order, with `totalItems` their count, and everything else
      unchanged. */
  function SearchCollection(query: string, result: BFFResponse<CollectionDTO>): (r: BFFResponse<CollectionDTO>)
    ensures result.Failure? ==> r == result
    ensures result.Success? ==>
      && r.Success?
      && r.meta == result.meta
      && r.data == result.data.(items := r.data.items, totalItems := |r.data.items|)
      && r.data.items == Filter(result.data.items, QueryFilter(query))
      && multiset(r.data.items) <= multiset(result.data.items)
      && (forall i :: 0 <= i < |r.data.items| ==> MatchesQuery(r.data.items[i], query))
  {
    if result.Failure? then result
    else
      var filtered := Filter(result.data.items, QueryFilter(query));
      FilterSubMultiset(result.data.items, QueryFilter(query));
      Success(result.data.(items := filtered, totalItems := |filtered|), result.meta)
  }

  /** Searching keeps an item exactly when it was there and matches. */
  lemma SearchCollectionMembers(query: string, result: BFFResponse<CollectionDTO>, x: CollectionItemDTO)
    requires result.Success?
    ensures x in SearchCollection(query, result).data.items <==> x in result.data.items && MatchesQuery(x, query)
  {
    FilterMember(result.data.items, QueryFilter(query), x);
  }

  /** An empty query matches every item, so searching for it changes only
      `totalItems`, to the item count. */
  lemma SearchEmptyQuery(result: BFFResponse<CollectionDTO>)
    requires result.Success?
    ensures SearchCollection("", result) == Success(result.data.(totalItems := |result.data.items|), result.meta)
  {
    forall x | x in result.data.items ensures QueryFilter("")(x) {
      ContainsAt(ToLower(x.title), ToLower(""), 0);
    }
    FilterAll(result.data.items, QueryFilter(""));
  }
}
