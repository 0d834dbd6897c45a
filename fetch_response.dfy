/** What the transport hands back for one request, and how the client turns
    it into the value a verb call resolves to or the error record it rejects
    with. */
module FetchResponse {
  import opened JsValues

  /** The request methods a verb sets (`AllowedFetchMethod`). */
  datatype Method = GET | POST | PUT | PATCH | DELETE | HEAD | OPTIONS

  function MethodName(m: Method): string {
    match m
    case GET => "GET"
    case POST => "POST"
    case PUT => "PUT"
    case PATCH => "PATCH"
    case DELETE => "DELETE"
    case HEAD => "HEAD"
    case OPTIONS => "OPTIONS"
  }

  /** A response as far as the client looks at it: its status, the value of
      its `Content-Type` header (None when the header is absent) and its body
      text, which only the JSON decoder looks at. */
  datatype Response = Response(status: int, contentType: Option<string>, body: string)
  {
    /** `response.ok`: the status is in the successful class 2xx
        (section 15.3 of RFC 9110). */
    predicate Ok() {
      200 <= status <= 299
    }
  }

  /** The settled fetch promise: a response, or the reason it was rejected. */
  datatype FetchResult = Responded(response: Response) | Rejected(reason: Value)

  /** The settled `response.json()` promise. */
  datatype Decoded = Parsed(value: Value) | ParseError(reason: Value)

  /** What the `.catch` handler receives: the response thrown for a non-ok
      status, or the reason some earlier promise was rejected with. */
  datatype Thrown = ThrownResponse(response: Response) | ThrownValue(reason: Value)

  /** `IFetchErrorMessage`; `verb` is its `method` field, read from the shared
      options, where it may in principle be absent. */
  datatype FetchError = FetchError(verb: Option<Method>, url: string, body: Props, error: Thrown)

  /** What a successful call resolves to: `null`, the decoded JSON value, or
      the response itself. */
  datatype Resolution = NoContent | JsonBody(value: Value) | RawResponse(response: Response)

  datatype Outcome = Resolved(value: Resolution) | Failed(error: FetchError)

  /** How the `.then` handler's promise settles. */
  datatype Result = Returned(value: Resolution) | Threw(e: Thrown)

  const JsonMediaType := "application/json"

  /** The statuses in `emptyCodes`: 204 No Content and 205 Reset Content
      (sections 15.3.5 and 15.3.6 of RFC 9110). */
  predicate IsEmptyStatus(status: int) {
    status == 204 || status == 205
  }

  /** `contentType && contentType.includes('application/json')`. */
  predicate IsJsonContentType(contentType: Option<string>) {
    contentType.Some? && Truthy(Str(contentType.value)) && Includes(contentType.value, JsonMediaType)
  }

  /** The promise chain after `fetch`: the `.then` handler classifies an ok
      response by status and content type and throws any other response; the
      `.catch` handler wraps whatever was thrown or rejected, including a
      failure of `response.json()`, into an error record. */
  function Classify(result: FetchResult, json: Response -> Decoded, verb: Option<Method>,
                    url: string, rest: Props): (o: Outcome)
    // only a 2xx response can resolve the call
    ensures o.Resolved? ==> result.Responded? && result.response.Ok()
    // no content, whatever the content type says
    ensures result.Responded? && result.response.Ok() && IsEmptyStatus(result.response.status)
            ==> o == Resolved(NoContent)
    // a JSON body is decoded; a decoding failure is wrapped like any other
    ensures result.Responded? && result.response.Ok() && !IsEmptyStatus(result.response.status)
            && IsJsonContentType(result.response.contentType)
            ==> (match json(result.response)
                 case Parsed(v) => o == Resolved(JsonBody(v))
                 case ParseError(e) => o == Failed(FetchError(verb, url, rest, ThrownValue(e))))
    // any other ok response is handed back as it is
    ensures result.Responded? && result.response.Ok() && !IsEmptyStatus(result.response.status)
            && !IsJsonContentType(result.response.contentType)
            ==> o == Resolved(RawResponse(result.response))
    // a non-ok response becomes the error's failure
    ensures result.Responded? && !result.response.Ok()
            ==> o == Failed(FetchError(verb, url, rest, ThrownResponse(result.response)))
    // so does the reason of a rejected fetch
    ensures result.Rejected? ==> o == Failed(FetchError(verb, url, rest, ThrownValue(result.reason)))
    // every error record names the method, the final URL and the rest options
    ensures o.Failed? ==> o.error.verb == verb && o.error.url == url && o.error.body == rest
  {
    var settled: Result :=
      match result
      case Rejected(reason) => Threw(ThrownValue(reason))
      case Responded(response) =>
        if response.Ok() then
          if IsEmptyStatus(response.status) then Returned(NoContent)
          else if IsJsonContentType(response.contentType) then
            match json(response)
            case Parsed(v) => Returned(JsonBody(v))
            case ParseError(e) => Threw(ThrownValue(e))
          else Returned(RawResponse(response))
        else Threw(ThrownResponse(response));
    match settled
    case Returned(value) => Resolved(value)
    case Threw(e) => Failed(FetchError(verb, url, rest, e))
  }

  /** The content-type test holds exactly when the header is present and
      contains `application/json` somewhere. */
  lemma {:induction false} JsonContentTypeMeans(contentType: Option<string>)
    ensures IsJsonContentType(contentType)
            <==> contentType.Some? && exists i :: OccursAt(contentType.value, JsonMediaType, i)
  {
    if contentType.Some? {
      IncludesIsSubstring(contentType.value, JsonMediaType);
    }
  }
}
