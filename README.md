# astro-starter-template: the BFF layer and the project scaffolder, in Dafny

This project models two parts of the astro-starter-template repository.

**The Backend-for-Frontend layer of the `default` template.** This part covers:
- the outbound HTTP client: configuration defaults, per-call options, the bounded retry loop with linear backoff, and how failures and responses are classified;
- the transformers that turn backend records into UI DTOs and thrown values into `BFFErrorDTO`s;
- the collection service: one collection, several at once, and search;
- three API routes: `GET /api/bff/collections/search`, `POST /api/bff/collections/aggregate` and `GET /api/bff/users/me`.

**The `create-astro-template` scaffolder's `afterCreation` step.** It does three things to the freshly copied project:
- it promotes or discards the `empty` template's `.empty` placeholders;
- it prunes the locale JSON files to the chosen languages;
- it writes a generated `utils/i18n.ts`.

The `getI18n` of the `empty` template, and the one the generated module contains, are modelled beside it.

Modules:

| module | file | models |
|---|---|---|
| `Text` | text.dfy | the JavaScript string operations used by the core, over `seq<char>` (truthiness, `indexOf`, `replace`, `trim`, `join`, `split("\n")`, `String(n)`) |
| `Seqs` | seqs.dfy | `Array.prototype.filter` and a stable `Array.prototype.sort` |
| `BffTypes` | bff_types.dfy | the records of `bff/types`, `BFFResponse` and what a route answers |
| `Http` | api_client.dfy | `bff/http/api-client.ts` |
| `ErrorTransformer` | error_transformer.dfy | `bff/transformers/error.transformer.ts` |
| `CollectionTransformer` | collection_transformer.dfy | `bff/transformers/collection.transformer.ts` |
| `UserTransformer` | user_transformer.dfy | `bff/transformers/user.transformer.ts` |
| `CollectionService` | collection_service.dfy | `bff/services/collection.service.ts` |
| `SearchEndpoint`, `AggregateEndpoint`, `MeEndpoint` | search_endpoint.dfy, aggregate_endpoint.dfy, me_endpoint.dfy | the three API routes |
| `GeneratedI18n` | generated_i18n.dfy | the `utils/i18n.ts` text that `afterCreation` generates |
| `Scaffolder` | scaffolder.dfy | `afterCreation` over the project's files |
| `I18n` | i18n.dfy | `templates/empty/utils/i18n.ts` and the generated `getI18n` |

## How things are modelled

**The outside world is a parameter.**
- *The network.* A call gets the outcomes its successive `fetch` attempts would have, oldest first. Each is a response or the value `fetch` rejected with. `ApiClient.FetchWithRetry` consumes them in a `while` loop. It reports the outcome, how many attempts it made and which `delay` calls it requested.
- *The backend API behind a service.* It is a function from the request path to a JSON body or a thrown value.
- *Other services.* `getCurrentUser`, the results of `Promise.all` and a `getCollection` result are given to the routes and services that use them.
- *Locale date formatting and elapsed time.* `toLocaleDateString("uk-UA")` and the `Date.now()` difference are also parameters.

**JavaScript semantics.**
- Truthiness: a number is truthy when present and non-zero; a string when present and non-empty.
- `a || b` on options is written out.
- `response.ok` means a status from 200 to 299.
- `String.prototype.replace` with a string pattern replaces the first occurrence only.
- `localeCompare` becomes code-point lexicographic order. It is a total preorder, as `Array.prototype.sort` needs.
- `toLowerCase` lowers ASCII letters only.
- A JSON value is truthy unless it is `null`, `false`, `0` or `""`; arrays and objects, empty ones included, are truthy. `String()` of an array joins its elements with commas, and `String()` of an object is "[object Object]".
- Assigning `collections["__proto__"]` on a plain `{}` reaches the prototype setter and creates no own key, so that name never appears in `Object.keys` or in the JSON body.
- `Array.prototype.sort` is stable, as ECMAScript requires.

**Two classes, because the source updates state.**
- `ApiClient` keeps its resolved configuration as a constant set by its constructor.
- The scaffolder's project directory is a `ProjectTree` whose `files` map is changed by `Unlink`, `Rename` and `AfterCreation`. Paths are relative to the project directory. `AfterCreation` updates the map step by step with `for` loops, as the source does. It is proved equal to the specification function `Processed`, and the lemmas beside `Processed` state what the step guarantees.

**Where the code departs from the design description.**
- *Which responses count as success.* The design says [200, 400). The code tests `response.ok`, so a 3xx response is retried and then returned. The model follows the code.
- *Configuration defaults.* The design says non-positive numbers fall back to defaults. The code uses `||`, so only 0 and absent values fall back; negative values are kept. A negative `retries` makes the loop never run, and the call throws "All retry attempts failed". The model follows the code.

## Model

| member | source | states |
|---|---|---|
| Http.ResolveConfig | templates/default/src/bff/http/api-client.ts:64-72 | the base URL is kept; timeout, retries and retryDelay take their defaults 30000, 3 and 1000 exactly when absent or 0, otherwise the given value; each resolved number is non-zero; headers default to none |
| Http.EffectiveTimeout | templates/default/src/bff/http/api-client.ts:193 | a truthy per-call timeout wins, otherwise the configured one |
| Http.EffectiveRetries | templates/default/src/bff/http/api-client.ts:194-195 | any given per-call retries (0 included) wins, otherwise the configured one |
| Http.ZeroRetriesConfigVersusCall | templates/default/src/bff/http/api-client.ts:69 | `retries: 0` in the configuration means 3 retries, while `retries: 0` on a call means none |
| Http.MergeHeaders | templates/default/src/bff/http/api-client.ts:201-204 | the header names are the union of configured and per-call ones (plus Content-Type for a body-carrying verb); per-call values override configured ones; `application/json` is the Content-Type only when neither side sets one |
| Http.BuildRequest | templates/default/src/bff/http/api-client.ts:191-242 | the URL is base URL plus path; the headers are the merged headers; a body is sent only by POST and PUT, and they send the one given |
| Http.ClassifyFetchFailure | templates/default/src/bff/http/api-client.ts:95-101 | an AbortError, and only that, becomes a TimeoutError "Request timeout after <n>ms"; every other failure becomes a NetworkError carrying the error's message or "Network request failed" |
| Http.HandleResponse | templates/default/src/bff/http/api-client.ts:158-186 | a non-ok response throws an ApiClientError with its status, the parsed body and the body's truthy `message` as a string, else "HTTP Error: <status> <statusText>"; an ok JSON response yields the parsed body or throws the parse error; any other ok response yields its text |
| Http.BodyMessage | templates/default/src/bff/http/api-client.ts:173-175 | the body's message is used exactly when the body is an object whose `message` is truthy; a string message is used as it is and is never empty |
| Http.StringArrayMessage | templates/default/src/bff/http/api-client.ts:173-175 | an array of strings as the message reads as the strings joined by commas |
| Http.EmptyArrayMessage | templates/default/src/bff/http/api-client.ts:173-175 | an empty array is a truthy message that reads as the empty string, so the fallback is not used |
| Http.NumberMessage | templates/default/src/bff/http/api-client.ts:173-175 | a non-zero number as the message reads as its decimal digits |
| Http.BackoffTotal | templates/default/src/bff/http/api-client.ts:131 | the linear backoffs retryDelay·1 … retryDelay·n add up to retryDelay·n(n+1)/2 |
| Http.ApiClient.constructor | templates/default/src/bff/http/api-client.ts:64-72 | the client's configuration is the resolved configuration |
| Http.ApiClient.FetchWithRetry | templates/default/src/bff/http/api-client.ts:108-146 | with retries ≥ 0 it makes between 1 and retries+1 attempts; every attempt but the last was retryable (a transport failure, or a response that is neither 4xx nor ok, so 3xx as well as 5xx); the loop stops before the final permitted attempt only at a non-retryable one; the outcome is that attempt's response or classified failure; the delays requested are retryDelay·1, ·2, … one per retry; with retries < 0 nothing is attempted and "All retry attempts failed" is thrown |
| Http.ApiClient.Send | templates/default/src/bff/http/api-client.ts:191-298 | `get`, `post`, `put` and `delete`: the request built from the configuration and options, the retry loop run with the effective timeout and retries, and the final response handled |
| ErrorTransformer.GetErrorCode | templates/default/src/bff/transformers/error.transformer.ts:13-31 | TimeoutError gives TIMEOUT, NetworkError gives NETWORK_ERROR, otherwise the status code decides; the code is always one with a user message |
| ErrorTransformer.StatusCode | templates/default/src/bff/transformers/error.transformer.ts:22-30 | 404, 401, 403 and 400 map to NOT_FOUND, UNAUTHORIZED, FORBIDDEN and BAD_REQUEST, ≥ 500 to SERVER_ERROR, anything else or none to UNKNOWN_ERROR |
| ErrorTransformer.GetUserMessage | templates/default/src/bff/transformers/error.transformer.ts:36-49 | the code's Ukrainian message, or the UNKNOWN_ERROR one for an unknown code; never empty |
| ErrorTransformer.TransformError | templates/default/src/bff/transformers/error.transformer.ts:54-79 | always a failure whose user message matches its code; an ApiClientError keeps its message and maps its status; a plain Error keeps its message with UNKNOWN_ERROR; a thrown string becomes the message; anything else gives "Unknown error occurred" |
| CollectionTransformer.CreateExcerpt | templates/default/src/bff/transformers/collection.transformer.ts:39-50 | no excerpt exactly for missing or empty content; content of at most 150 characters is kept; longer content becomes its trimmed first 150 characters plus "..." |
| CollectionTransformer.ExcerptOfLongContent | templates/default/src/bff/transformers/collection.transformer.ts:44-49 | the excerpt of a long text is a slice of its first 150 characters with only whitespace cut away at either end, followed by "..." |
| CollectionTransformer.TransformCollectionItem | templates/default/src/bff/transformers/collection.transformer.ts:55-66 | the id becomes decimal text that parses back to the same number; title and author are copied; the excerpt is `createExcerpt` of the content; the date is formatted; missing tags become [] |
| CollectionTransformer.CeilDiv | templates/default/src/bff/transformers/collection.transformer.ts:85 | `Math.ceil(a / b)`: the least q with a ≤ q·b for b > 0, and its mirror for b < 0 |
| CollectionTransformer.TransformCollection | templates/default/src/bff/transformers/collection.transformer.ts:71-100 | every item is transformed in order; totalItems is a truthy `total` or the item count; pagination is present exactly when page and limit are truthy, with totalPages = ⌈totalItems / limit⌉, hasNext = page < totalPages and hasPrev = page > 1 |
| CollectionTransformer.PaginationCoversItems | templates/default/src/bff/transformers/collection.transformer.ts:82-91 | with positive page and limit, totalPages pages of `limit` items hold all items with less than one page to spare, and hasNext holds exactly when items remain beyond the current page |
| CollectionTransformer.PageBeforeLast | templates/default/src/bff/transformers/collection.transformer.ts:85-88 | with a positive page size, a page comes before the last one exactly when the items before the next page do not use up the total |
| Seqs.FilterSubMultiset | templates/default/src/bff/transformers/collection.transformer.ts:117-128 | filtering keeps only items of the input, each no more often than there |
| CollectionTransformer.ItemOrderPreorder | templates/default/src/bff/transformers/collection.transformer.ts:131-146 | the comparator for any sort field and order is total and transitive |
| CollectionTransformer.ArrangedMembers | templates/default/src/bff/transformers/collection.transformer.ts:105-149 | an item is in the result exactly when it is in the input, shares a tag with a non-empty tag filter and matches a truthy author filter |
| CollectionTransformer.ArrangedSubMultiset | templates/default/src/bff/transformers/collection.transformer.ts:105-149 | the result is a permutation of the filtered items, so it never holds an item more often than the input |
| CollectionTransformer.ArrangedUnsorted | templates/default/src/bff/transformers/collection.transformer.ts:108-128 | without sortBy and with no tag or author filter the items are returned unchanged |
| CollectionTransformer.ArrangedSorted | templates/default/src/bff/transformers/collection.transformer.ts:131-146 | with sortBy the result is in ascending order of the chosen field, or descending for `desc` |
| CollectionTransformer.ArrangedStable | templates/default/src/bff/transformers/collection.transformer.ts:131-146 | the sort is stable: the items with any one key value appear in the order they had after filtering |
| CollectionTransformer.ArrangedByPopularity | templates/default/src/bff/transformers/collection.transformer.ts:131-146 | sorting by popularity compares every pair as equal, so the filtered items keep their order |
| CollectionTransformer.FilterAndSortCollectionItems | templates/default/src/bff/transformers/collection.transformer.ts:105-149 | the method's reassignments compute the arranged items: a permutation of the filtered items, holding exactly the items the filters keep |
| UserTransformer.DisplayNameCases | templates/default/src/bff/transformers/user.transformer.ts:12-17 | both names joined by a space, one name alone, or the username when both are missing or empty |
| UserTransformer.DisplayNameNonEmpty | templates/default/src/bff/transformers/user.transformer.ts:12-17 | with a non-empty username the display name is never empty |
| UserTransformer.TransformUser | templates/default/src/bff/transformers/user.transformer.ts:33-43 | the id becomes decimal text that parses back to the same number; username, email and avatar are copied; isAdmin holds exactly for role "admin"; memberSince is the formatted creation date |
| UserTransformer.TransformUsers | templates/default/src/bff/transformers/user.transformer.ts:48-50 | one DTO per user, in order |
| UserTransformer.TransformUsersAppend | templates/default/src/bff/transformers/user.transformer.ts:48-50 | transforming a concatenation transforms each part |
| CollectionService.RequestPathShape | templates/default/src/bff/services/collection.service.ts:30-35 | the path is `/collections/<name>`, followed by `?page=…`, `?limit=…` or `?page=…&limit=…` for the truthy parameters only |
| CollectionService.GetCollection | templates/default/src/bff/services/collection.service.ts:21-71 | the API is asked for the request path; a thrown value becomes `transformError` of it; a response becomes a success with uncached meta and the duration, holding the transformed collection with its items filtered and sorted by the params |
| CollectionService.CollectedMapKeys | templates/default/src/bff/services/collection.service.ts:90-96 | a name is an own key of the aggregate exactly when it is not `__proto__` and some result for it succeeded |
| CollectionService.CollectedMapValue | templates/default/src/bff/services/collection.service.ts:90-96 | a name other than `__proto__` maps to the data of its last successful result |
| CollectionService.FailureMessagesMembers | templates/default/src/bff/services/collection.service.ts:90-96 | the error list holds exactly `<name>: <message>` for every failed result |
| CollectionService.FailureMessagesAllFailed | templates/default/src/bff/services/collection.service.ts:90-101 | when every result failed, the error list has one entry per name, in order |
| CollectionService.GetMultipleCollections | templates/default/src/bff/services/collection.service.ts:76-117 | success exactly when some collection other than `__proto__` was fetched, carrying the collected map and the duration; otherwise the UNKNOWN_ERROR failure "Failed to fetch collections: " followed by the joined errors |
| CollectionService.SearchCollection | templates/default/src/bff/services/collection.service.ts:122-154 | a failed fetch is passed through; otherwise the items are exactly the matching ones, in their order and with their repeats, totalItems is their count, and nothing else changes |
| CollectionService.SearchCollectionMembers | templates/default/src/bff/services/collection.service.ts:135-139 | an item is found exactly when it was there and its lower-cased title, excerpt or one of its tags contains the lower-cased query |
| CollectionService.SearchEmptyQuery | templates/default/src/bff/services/collection.service.ts:135-149 | an empty query finds every item |
| SearchEndpoint.Get | templates/default/src/pages/api/bff/collections/search.ts:12-69 | a missing collection is reported before a missing query, both with 400 and no cache header; otherwise the search result is returned with 200 for a success, 500 for a failure, cached for 30 s |
| SearchEndpoint.GetStatus | templates/default/src/pages/api/bff/collections/search.ts:17-68 | the status is 200, 400 or 500; 400 exactly when a parameter is missing; the cache header is present exactly on service answers |
| AggregateEndpoint.Post | templates/default/src/pages/api/bff/collections/aggregate.ts:14-75 | a body that throws gives INTERNAL_ERROR with the Error's message or "Internal server error"; a missing, non-array or empty `collections` gives 400; otherwise the aggregate is returned with 200 or 500, cached for 60 s |
| AggregateEndpoint.PostStatus | templates/default/src/pages/api/bff/collections/aggregate.ts:19-54 | the service is consulted exactly for a non-empty array, and only its answers carry the cache header |
| MeEndpoint.Token | templates/default/src/pages/api/bff/users/me.ts:15-16 | no header gives no token; a header without "Bearer " is passed on unchanged |
| MeEndpoint.TokenOfBearerHeader | templates/default/src/pages/api/bff/users/me.ts:16 | `Bearer <t>` yields `<t>` |
| MeEndpoint.StatusFor | templates/default/src/pages/api/bff/users/me.ts:21-25 | 200 exactly for a success, 401 exactly for an UNAUTHORIZED failure, 500 exactly for any other failure |
| MeEndpoint.Get | templates/default/src/pages/api/bff/users/me.ts:13-35 | the user service's result for the token, with its status and `private, no-cache` |
| GeneratedI18n.I18nSourceLines | create/index.js:84-108 | the trimmed module splits into exactly these lines: the imports, a blank line, the translations object, a blank line, the Language type, LANGUAGES, DEFAULT_LANG, a blank line and the getI18n function |
| GeneratedI18n.ImportsOfModule | create/index.js:85 | the module's import lines are exactly one `import <l> from '../i18n/<l>.json';` per selected language, in order |
| GeneratedI18n.ExportsOfModule | create/index.js:87-88 | the module has exactly one LANGUAGES line, listing the selection, and exactly one DEFAULT_LANG line, naming the first selected language |
| Scaffolder.Renamed | create/index.js:49-50 | a rename fails exactly when its source is missing; otherwise the target gets the source's content, the source is gone and every other path is unchanged |
| Scaffolder.ProjectTree.constructor | create/index.js:42 | the tree holds the given files |
| Scaffolder.ProjectTree.Unlink | create/index.js:53-57 | the file is removed if present, otherwise nothing changes |
| Scaffolder.ProjectTree.Rename | create/index.js:49-50 | the rename succeeds exactly when the source exists; a failed one changes nothing |
| Scaffolder.ProjectTree.SettleTemplate | create/index.js:45-57 | the step leaves the files of the template phase and reports whether its renames succeeded |
| Scaffolder.ProjectTree.PruneLocales | create/index.js:64-69 | the loop leaves the files with every unselected language's locale files pruned |
| Scaffolder.ProjectTree.PromoteLocales | create/index.js:72-77 | the loop promotes each selected language's placeholder in order, and stops at the first rename that fails |
| Scaffolder.ProjectTree.DropLocalePlaceholders | create/index.js:79-81 | the loop removes every language's placeholder JSON |
| Scaffolder.ProjectTree.AfterCreation | create/index.js:41-108 | the loops leave exactly the files of `Processed`, and report success exactly when `Processed` finishes |
| Scaffolder.PruneLangsRemoves | create/index.js:64-69 | pruning removes each unselected language's JSON and placeholder JSON, and nothing else |
| Scaffolder.DropLangEmptiesRemoves | create/index.js:79-81 | every language's placeholder JSON is removed, and nothing else |
| Scaffolder.PromoteEffect | create/index.js:72-77 | promotion finishes exactly when every listed language has its placeholder JSON; then each language's JSON holds that content and its placeholder is gone |
| Scaffolder.PromoteFrame | create/index.js:72-77 | promotion, finished or stopped, changes no path other than the listed languages' JSON and placeholder JSON |
| Scaffolder.ProcessedStops | create/index.js:45-77 | a run stops exactly for the `empty` template when the page placeholder, the header placeholder or a selected language's placeholder JSON is missing |
| Scaffolder.ProcessedTemplateFiles | create/index.js:45-108 | after a finished run of either template no page or header placeholder remains and `utils/i18n.ts` holds the generated module |
| Scaffolder.ProcessedEmptyTemplate | create/index.js:45-54 | after a finished `empty` run the page and header placeholders existed and the page and header hold their content |
| Scaffolder.ProcessedDefaultTemplate | create/index.js:55-57 | a `default` run always finishes and leaves the page and header as they were |
| Scaffolder.ProcessedRemovesLocales | create/index.js:64-81 | after a finished run no placeholder JSON remains and no unselected language keeps its JSON |
| Scaffolder.ProcessedSelectedLocales | create/index.js:72-77 | after a finished `empty` run each selected language's placeholder JSON existed and its JSON holds that content |
| Scaffolder.ProcessedKeepsLocales | create/index.js:64-81 | a `default` run leaves each selected language's JSON as it was |
| Scaffolder.SelectedJsonSurvives | create/index.js:79-81 | no selected language's JSON is the i18n module or one of the placeholder paths the last loop removes |
| Scaffolder.FixedPathsAreNotLocales | create/index.js:45-81 | the page, header and i18n module paths and their placeholders are not locale paths of any language |
| Scaffolder.ProcessedFrame | create/index.js:41-108 | no path outside the page, header, i18n module and locale JSON files is changed |
| I18n.CurrentLang | templates/empty/utils/i18n.ts:14-17 | the requested language is kept exactly when it is present, non-empty and listed; otherwise the default is chosen |
| I18n.GetI18n | templates/empty/utils/i18n.ts:13-23 | the language is always `ua` or `en`, a listed request is kept, anything else gives `ua`, and `t` is that language's table |
| I18n.GetI18nIdempotent | templates/empty/utils/i18n.ts:13-23 | asking again for the language returned gives the same answer |
| I18n.GeneratedGetI18n | create/index.js:99-106 | in the generated module the language is always a selected one; a selected request is kept, and anything else gives the first selected language |

## Left out

- `fetch`, `AbortController` and `setTimeout`: the network and timers are not modelled. Attempt outcomes and the elapsed time are parameters, and a timeout is a transport failure named AbortError.
- Http.ApiClient.FetchWithRetry: the attempt outcomes must hold one entry for each permitted attempt (retries + 1 of them). This is a condition on the network stand-in, not a demand the source makes of its callers.
- Concurrency: `Promise.all` in `getMultipleCollections` is modelled by its resulting sequence of settled results.
- `toLocaleDateString("uk-UA")`: the date rendering is a given function.
- `localeCompare` and `toLowerCase`: they are replaced by code-point order and ASCII lowering.
- CreateExcerpt: strings are sequences of Unicode code points, while `content.length` and `substring(0, 150)` count UTF-16 code units. Content with characters outside the Basic Multilingual Plane is therefore cut later than the source cuts it, or not at all, and a surrogate pair split at unit 150 cannot arise.
- ExcerptOfLongContent: "the first 150 characters" are 150 code points, not 150 UTF-16 code units, for the same reason.
- Http.BodyMessage: a numeric message is an integer written in decimal; the exponent notation `String()` uses from 10^21 on, and fractions, are not modelled.
- JSON parsing and serialisation: `request.json()` and `response.json()` are given as already parsed or as the syntax error they throw.
- URL parsing: `URLSearchParams` is given as already parsed.
- JavaScript numbers: NaN, fractions and -0 are left out. Numbers are unbounded integers.
- Timestamps: the `new Date().toISOString()` fields of error and success objects are left out.
- `createApiClient`: its environment lookup is left out. The service is given an API function.
- `logError` and every `console` call are left out.
- `Scaffolder.ProjectTree.AfterCreation`: a rename whose source is missing rejects the `afterCreation` promise. This is modelled as a run that stops, keeping the files changed so far.
- `create-create-app`'s own template copy and prompts are left out. The prompt answer is a selection of offered languages, in prompt order and without repeats.
- `path.join` and `path.basename` are left out. Paths are relative to the project directory.
- bff/client/index.ts, utils/api.ts, user.service.ts, utils/loadLocale.ts, utils/redis.ts, the `[collection].ts` and `[userId].ts` routes and bin/create-astro-template-znu.js are not part of this model.
