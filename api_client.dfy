/** The BFF's outbound HTTP client (`ApiClient`): configuration defaults,
    per-call option resolution, the bounded retry loop with linear backoff,
    classification of transport failures and of responses.

    The network is an oracle: a call is given the sequence of outcomes its
    successive attempts would have (a response, or the value `fetch` rejected
    with), and the model reports how many attempts were made and which delays
    were requested between them. */
module Http {
  import opened Text

  // ---------------------------------------------------------------------------
  // Configuration

  /** The constructor argument; absent fields are None. */
  datatype ApiClientConfig = ApiClientConfig(
    baseURL: string,
    timeout: Option<int>,
    retries: Option<int>,
    retryDelay: Option<int>,
    headers: Option<map<string, string>>)

  /** The configuration the client keeps, with every field filled in. */
  datatype ClientSettings = ClientSettings(
    baseURL: string,
    timeout: int,
    retries: int,
    retryDelay: int,
    headers: map<string, string>)

  /** Per-call overrides; `NoOptions` stands for an omitted argument. */
  datatype RequestOptions = RequestOptions(
    timeout: Option<int>,
    retries: Option<int>,
    headers: Option<map<string, string>>)

  const NoOptions := RequestOptions(None, None, None)

  const DefaultTimeout := 30000
  const DefaultRetries := 3
  const DefaultRetryDelay := 1000

  /** `value || fallback` for an optional number: absent and 0 are both
      falsy. */
  function OrElse(value: Option<int>, fallback: int): (r: int)
    ensures TruthyInt(value) ==> r == value.value
    ensures !TruthyInt(value) ==> r == fallback
  {
    if TruthyInt(value) then value.value else fallback
  }

  /** The defaults of the constructor. Because they are applied with `||`, an
      explicit 0 is replaced by the default just like an absent value. */
  function ResolveConfig(c: ApiClientConfig): (r: ClientSettings)
    ensures r.baseURL == c.baseURL
    ensures c.timeout in {None, Some(0)} ==> r.timeout == DefaultTimeout
    ensures c.retries in {None, Some(0)} ==> r.retries == DefaultRetries
    ensures c.retryDelay in {None, Some(0)} ==> r.retryDelay == DefaultRetryDelay
    ensures c.timeout.Some? && c.timeout.value != 0 ==> r.timeout == c.timeout.value
    ensures c.retries.Some? && c.retries.value != 0 ==> r.retries == c.retries.value
    ensures c.retryDelay.Some? && c.retryDelay.value != 0 ==> r.retryDelay == c.retryDelay.value
    ensures r.timeout != 0 && r.retries != 0 && r.retryDelay != 0
    ensures r.headers == if c.headers.Some? then c.headers.value else map[]
  {
    ClientSettings(
      c.baseURL,
      OrElse(c.timeout, DefaultTimeout),
      OrElse(c.retries, DefaultRetries),
      OrElse(c.retryDelay, DefaultRetryDelay),
      if c.headers.Some? then c.headers.value else map[])
  }

  /** The timeout of one call: the option when it is truthy, else the
      configured one. */
  function EffectiveTimeout(s: ClientSettings, o: RequestOptions): (t: int)
    ensures TruthyInt(o.timeout) ==> t == o.timeout.value
    ensures !TruthyInt(o.timeout) ==> t == s.timeout
  {
    OrElse(o.timeout, s.timeout)
  }

  /** The retry count of one call: the option whenever it is given, so a
      per-call 0 is kept (unlike the constructor's default). */
  function EffectiveRetries(s: ClientSettings, o: RequestOptions): (n: int)
    ensures o.retries.Some? ==> n == o.retries.value
    ensures o.retries.None? ==> n == s.retries
  {
    if o.retries.Some? then o.retries.value else s.retries
  }

  /** The two defaulting rules disagree about 0: in the configuration it
      becomes 3 retries, per call it means no retry at all. */
  lemma ZeroRetriesConfigVersusCall(c: ApiClientConfig, o: RequestOptions)
    requires c.retries == Some(0) && o.retries == Some(0)
    ensures ResolveConfig(c).retries == DefaultRetries
    ensures EffectiveRetries(ResolveConfig(c), o) == 0
    ensures EffectiveRetries(ResolveConfig(c), NoOptions) == DefaultRetries
  {
  }

  // ---------------------------------------------------------------------------
  // Requests

  datatype Verb = GET | POST | PUT | DELETE

  /** What is handed to `fetch`: method, URL, headers and body. */
  datatype RequestInit = RequestInit(verb: Verb, url: string, headers: map<string, string>, body: Option<string>)

  predicate HasBody(v: Verb) {
    v == POST || v == PUT
  }

  /** The headers of one call: the configured headers overlaid with the
      per-call ones; POST and PUT start from a JSON Content-Type that either
      may override. */
  function MergeHeaders(s: ClientSettings, v: Verb, o: RequestOptions): (h: map<string, string>)
    ensures forall k :: k in h <==>
      k in s.headers || (o.headers.Some? && k in o.headers.value) || (HasBody(v) && k == "Content-Type")
    ensures o.headers.Some? ==> forall k :: k in o.headers.value ==> h[k] == o.headers.value[k]
    ensures forall k :: k in s.headers && (o.headers.None? || k !in o.headers.value) ==> h[k] == s.headers[k]
    ensures HasBody(v) && "Content-Type" !in s.headers && (o.headers.None? || "Content-Type" !in o.headers.value) ==>
      h["Content-Type"] == "application/json"
  {
    var base := if HasBody(v) then map["Content-Type" := "application/json"] else map[];
    var perCall := if o.headers.Some? then o.headers.value else map[];
    base + s.headers + perCall
  }

  /** The request of `get`, `post`, `put` or `delete`. `data` is the
      serialized body when the caller passed a truthy value; only POST and
      PUT send one. */
  function BuildRequest(s: ClientSettings, v: Verb, path: string, data: Option<string>, o: RequestOptions): (r: RequestInit)
    ensures r.verb == v && r.url == s.baseURL + path
    ensures r.headers == MergeHeaders(s, v, o)
    ensures r.body.Some? ==> v == POST || v == PUT
    ensures v == POST || v == PUT ==> r.body == data
  {
    RequestInit(v, s.baseURL + path, MergeHeaders(s, v, o), if HasBody(v) then data else None)
  }

  // ---------------------------------------------------------------------------
  // Responses and errors

  /** The parsed JSON values that the client looks into. */
  datatype Json =
    | JNull
    | JBool(b: bool)
    | JNumber(n: int)
    | JString(s: string)
    | JArray(elems: seq<Json>)
    | JObject(members: map<string, Json>)

  /** What `response.json()` yields for the body. */
  datatype JsonParse = Parsed(value: Json) | Unparseable(syntaxError: string)

  /** A response: status, status text, Content-Type header, and the body
      read as text and as JSON. */
  datatype Response = Response(
    status: int,
    statusText: string,
    contentType: Option<string>,
    text: string,
    json: JsonParse)
  {
    /** The Fetch Standard's ok status: 200 to 299. */
    predicate Ok() {
      200 <= status <= 299
    }
  }

  /** A 4xx status: a client error in the sense of section 15.5 of RFC 9110. */
  predicate IsClientError(status: int) {
    400 <= status < 500
  }

  /** The client's error classes. `TimeoutError` and `NetworkError` are
      subclasses of `ApiClientError` in the source, without a status code. */
  datatype ApiError =
    | ApiClientError(message: string, statusCode: Option<int>, response: Option<Json>)
    | TimeoutError(message: string)
    | NetworkError(message: string)

  /** Anything that can be thrown at a BFF service: one of the client's
      errors, any other `Error`, a thrown string, or any other value. */
  datatype Thrown =
    | ApiFailure(error: ApiError)
    | PlainError(message: string)
    | ThrownString(s: string)
    | ThrownOther

  /** The message of a thrown value when it is an `Error`. */
  function ErrorMessage(t: Thrown): (m: Option<string>)
    ensures m.Some? <==> t.ApiFailure? || t.PlainError?
  {
    match t
    case ApiFailure(e) => Some(e.message)
    case PlainError(msg) => Some(msg)
    case _ => None
  }

  /** The value `fetch` rejected with: an error object with a name and a
      message, or something that is not an `Error`. */
  datatype FetchFailure = ErrorObject(name: string, message: string) | NotAnError

  /** `fetchWithTimeout`'s catch block: an abort (the timer fired) is a
      timeout, every other failure a network error. */
  function ClassifyFetchFailure(f: FetchFailure, timeout: int): (e: ApiError)
    ensures e.TimeoutError? <==> f.ErrorObject? && f.name == "AbortError"
    ensures e.TimeoutError? ==> e.message == "Request timeout after " + IntToString(timeout) + "ms"
    ensures !e.TimeoutError? ==> e.NetworkError?
    ensures e.NetworkError? ==> e.message == if f.ErrorObject? then f.message else "Network request failed"
  {
    match f
    case ErrorObject(name, message) =>
      if name == "AbortError" then TimeoutError("Request timeout after " + IntToString(timeout) + "ms")
      else NetworkError(message)
    case NotAnError => NetworkError("Network request failed")
  }

  /** What one call gives its caller: the decoded body, or what it threw. */
  datatype Payload = JsonBody(json: Json) | TextBody(text: string)
  datatype CallResult = Resolved(payload: Payload) | Threw(thrown: Thrown)

  predicate IsJson(r: Response) {
    r.contentType.Some? && Contains(r.contentType.value, "application/json")
  }

  /** JavaScript truthiness of a JSON value: `null`, `false`, `0` and `""`
      are falsy; every array and object is truthy. */
  predicate Truthy(v: Json) {
    match v
    case JNull => false
    case JBool(b) => b
    case JNumber(n) => n != 0
    case JString(s) => s != ""
    case JArray(_) => true
    case JObject(_) => true
  }

  /** `String(v)`: an array joins its elements' strings with commas, with
      `null` as the empty string; an object is "[object Object]". */
  function JsString(v: Json): string
    decreases v, 1
  {
    match v
    case JNull => "null"
    case JBool(b) => if b then "true" else "false"
    case JNumber(n) => IntToString(n)
    case JString(s) => s
    case JArray(elems) => Join(ElementStrings(elems), ",")
    case JObject(_) => "[object Object]"
  }

  /** The strings `join` makes of array elements. */
  function ElementStrings(elems: seq<Json>): (r: seq<string>)
    decreases elems, 0
    ensures |r| == |elems|
  {
    if elems == [] then []
    else [if elems[0].JNull? then "" else JsString(elems[0])] + ElementStrings(elems[1..])
  }

  /** `errorData?.message` when it is truthy, as the string the `Error`
      constructor makes of it; absent when there is no body object, no
      `message` member, or a falsy one. */
  function BodyMessage(errorData: Option<Json>): (m: Option<string>)
    ensures m.Some? <==>
      errorData.Some? && errorData.value.JObject? && "message" in errorData.value.members
      && Truthy(errorData.value.members["message"])
    ensures m.Some? && errorData.value.members["message"].JString? ==>
      m.value == errorData.value.members["message"].s && m.value != ""
  {
    match errorData
    case Some(JObject(members)) =>
      if "message" in members && Truthy(members["message"])
      then Some(JsString(members["message"])) else None
    case _ => None
  }

  /** An array of strings as a message reads as those strings joined with
      commas. */
  lemma {:induction false} StringArrayMessage(ss: seq<string>)
    ensures JsString(JArray(seq(|ss|, i requires 0 <= i < |ss| => JString(ss[i])))) == Join(ss, ",")
  {
    StringElements(ss);
  }

  lemma {:induction false} StringElements(ss: seq<string>)
    ensures ElementStrings(seq(|ss|, i requires 0 <= i < |ss| => JString(ss[i]))) == ss
  {
    var elems := seq(|ss|, i requires 0 <= i < |ss| => JString(ss[i]));
    if ss != [] {
      assert elems[1..] == seq(|ss[1..]|, i requires 0 <= i < |ss[1..]| => JString(ss[1..][i]));
      StringElements(ss[1..]);
      assert ss == [ss[0]] + ss[1..];
    }
  }

  /** An empty array is truthy, so it is the message, and it reads as the
      empty string: the "HTTP Error" fallback is not used. */
  lemma EmptyArrayMessage()
    ensures BodyMessage(Some(JObject(map["message" := JArray([])]))) == Some("")
  {
  }

  /** A truthy non-string message is turned into a string, so a status body
      `{"message": 42}` gives the message "42". */
  lemma NumberMessage(n: int)
    requires n != 0
    ensures BodyMessage(Some(JObject(map["message" := JNumber(n)]))) == Some(IntToString(n))
  {
  }

  /** `handleResponse`: a non-ok status always throws an `ApiClientError`
      carrying that status; an ok one yields the parsed JSON when the
      Content-Type says JSON, and the raw text otherwise. */
  function HandleResponse(r: Response): (res: CallResult)
    ensures !r.Ok() ==> res.Threw? && res.thrown.ApiFailure? && res.thrown.error.ApiClientError?
    ensures !r.Ok() ==> res.thrown.error.statusCode == Some(r.status)
    ensures !r.Ok() ==>
      var data := if IsJson(r) && r.json.Parsed? then Some(r.json.value) else None;
      res.thrown.error.response == data
      && res.thrown.error.message ==
         (if BodyMessage(data).Some? then BodyMessage(data).value
          else "HTTP Error: " + IntToString(r.status) + " " + r.statusText)
    ensures r.Ok() && IsJson(r) && r.json.Parsed? ==> res == Resolved(JsonBody(r.json.value))
    ensures r.Ok() && IsJson(r) && r.json.Unparseable? ==> res == Threw(PlainError(r.json.syntaxError))
    ensures r.Ok() && !IsJson(r) ==> res == Resolved(TextBody(r.text))
  {
    if !r.Ok() then
      var errorData := if IsJson(r) && r.json.Parsed? then Some(r.json.value) else None;
      var message := match BodyMessage(errorData)
        case Some(m) => m
        case None => "HTTP Error: " + IntToString(r.status) + " " + r.statusText;
      Threw(ApiFailure(ApiClientError(message, Some(r.status), errorData)))
    else if IsJson(r) then
      match r.json
      case Parsed(v) => Resolved(JsonBody(v))
      case Unparseable(e) => Threw(PlainError(e))
    else Resolved(TextBody(r.text))
  }

  // ---------------------------------------------------------------------------
  // The retry loop

  /** One attempt's outcome, as the network oracle gives it. */
  datatype Attempt = Responded(response: Response) | Failed(failure: FetchFailure)

  /** What `fetchWithRetry` ends with. */
  datatype FetchOutcome = Returned(response: Response) | Raised(thrown: Thrown)

  /** An attempt after which the loop tries again (unless it was the last):
      a thrown error, or a response that is neither 4xx nor ok (so 3xx as
      well as 5xx). */
  predicate Retryable(a: Attempt) {
    a.Failed? || (!IsClientError(a.response.status) && !a.response.Ok())
  }

  /** How the loop ends on the attempt it stops at: a response is returned
      as it is, a failure is thrown as its classified error. */
  function Final(a: Attempt, timeout: int): (o: FetchOutcome)
    ensures a.Responded? ==> o == Returned(a.response)
    ensures a.Failed? ==> o == Raised(ApiFailure(ClassifyFetchFailure(a.failure, timeout)))
  {
    match a
    case Responded(r) => Returned(r)
    case Failed(f) => Raised(ApiFailure(ClassifyFetchFailure(f, timeout)))
  }

  /** The error thrown when the loop runs no attempt at all. */
  const AllAttemptsFailed := PlainError("All retry attempts failed")

  /** Linear backoff: the k-th delay (from 0) is retryDelay * (k + 1). */
  function Backoffs(retryDelay: int, n: nat): (d: seq<int>)
    ensures |d| == n
    ensures forall k :: 0 <= k < n ==> d[k] == retryDelay * (k + 1)
  {
    seq(n, k => retryDelay * (k + 1))
  }

  function Sum(s: seq<int>): int {
    if s == [] then 0 else Sum(s[..|s| - 1]) + s[|s| - 1]
  }

  /** When every attempt fails, `retries` delays are requested, which add up
      to retryDelay * retries * (retries + 1) / 2. */
  lemma {:induction false} BackoffTotal(retryDelay: int, n: nat)
    ensures 2 * Sum(Backoffs(retryDelay, n)) == retryDelay * n * (n + 1)
  {
    if n > 0 {
      var d := Backoffs(retryDelay, n);
      assert d[..n - 1] == Backoffs(retryDelay, n - 1);
      BackoffTotal(retryDelay, n - 1);
      assert 2 * Sum(d) == retryDelay * (n - 1) * n + 2 * (retryDelay * n);
      assert retryDelay * (n - 1) * n + 2 * (retryDelay * n) == retryDelay * n * (n + 1) by {
        assert retryDelay * (n - 1) * n == retryDelay * n * n - retryDelay * n;
        assert retryDelay * n * (n + 1) == retryDelay * n * n + retryDelay * n;
      }
    }
  }

  /** What a call of `get`/`post`/`put`/`delete` finally yields, once the
      loop has stopped at attempt `a`. */
  function Settle(a: Attempt, timeout: int): (r: CallResult)
    ensures a.Responded? ==> r == HandleResponse(a.response)
    ensures a.Failed? ==> r == Threw(ApiFailure(ClassifyFetchFailure(a.failure, timeout)))
  {
    match Final(a, timeout)
    case Returned(resp) => HandleResponse(resp)
    case Raised(t) => Threw(t)
  }

  class ApiClient {
    const config: ClientSettings

    constructor (c: ApiClientConfig)
      ensures config == ResolveConfig(c)
    {
      config := ResolveConfig(c);
    }

    /** `fetchWithRetry`: attempts 0..retries; the loop stops at the first
        attempt that is not retryable, or at the last one. Between a failed
        attempt k and the next, it asks for a delay of
        config.retryDelay * (k + 1), whatever the call's own options.
        `attempts` holds the oracle's outcome for each attempt. */
    method FetchWithRetry(attempts: seq<Attempt>, retries: int, timeout: int)
      returns (outcome: FetchOutcome, made: nat, delays: seq<int>)
      requires retries < |attempts|
      ensures retries < 0 ==> outcome == Raised(AllAttemptsFailed) && made == 0
      ensures retries >= 0 ==> 1 <= made <= retries + 1
      ensures forall k :: 0 <= k < made - 1 ==> Retryable(attempts[k])
      ensures retries >= 0 && made - 1 < retries ==> !Retryable(attempts[made - 1])
      ensures retries >= 0 ==> outcome == Final(attempts[made - 1], timeout)
      ensures delays == Backoffs(config.retryDelay, if made == 0 then 0 else made - 1)
    {
      made, delays := 0, [];
      var attempt := 0;
      while attempt <= retries
        invariant retries >= 0 ==> attempt <= retries
        invariant retries < 0 ==> attempt == 0
        invariant made == attempt
        invariant forall k :: 0 <= k < attempt ==> Retryable(attempts[k])
        invariant delays == Backoffs(config.retryDelay, attempt)
        decreases retries - attempt
      {
        made := made + 1;
        match attempts[attempt] {
          case Responded(response) =>
            if IsClientError(response.status) {
              return Returned(response), made, delays;
            }
            if response.Ok() || attempt == retries {
              return Returned(response), made, delays;
            }
          case Failed(failure) =>
            var lastError := ApiFailure(ClassifyFetchFailure(failure, timeout));
            if attempt == retries {
              return Raised(lastError), made, delays;
            }
        }
        delays := delays + [config.retryDelay * (attempt + 1)];
        assert delays == Backoffs(config.retryDelay, attempt + 1);
        attempt := attempt + 1;
      }
      // Only reached when the loop ran no attempt, so no error was recorded.
      outcome := Raised(AllAttemptsFailed);
    }

    /** `get`, `post`, `put` and `delete`: resolve the call's timeout, retry
        count and headers, run the retry loop, and handle the response it
        ends with. */
    method Send(verb: Verb, path: string, data: Option<string>, options: RequestOptions, attempts: seq<Attempt>)
      returns (result: CallResult, request: RequestInit, made: nat, delays: seq<int>)
      requires EffectiveRetries(config, options) < |attempts|
      ensures request == BuildRequest(config, verb, path, data, options)
      ensures var retries := EffectiveRetries(config, options);
        && (retries < 0 ==> result == Threw(AllAttemptsFailed) && made == 0)
        && (retries >= 0 ==> 1 <= made <= retries + 1)
        && (forall k :: 0 <= k < made - 1 ==> Retryable(attempts[k]))
        && (retries >= 0 && made - 1 < retries ==> !Retryable(attempts[made - 1]))
        && (retries >= 0 ==> result == Settle(attempts[made - 1], EffectiveTimeout(config, options)))
      ensures delays == Backoffs(config.retryDelay, if made == 0 then 0 else made - 1)
    {
      var timeout := EffectiveTimeout(config, options);
      var retries := EffectiveRetries(config, options);
      request := BuildRequest(config, verb, path, data, options);
      var outcome;
      outcome, made, delays := FetchWithRetry(attempts, retries, timeout);
      match outcome
      case Returned(response) =>
        result := HandleResponse(response);
      case Raised(t) =>
        result := Threw(t);
    }
  }
}
