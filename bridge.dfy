/** `SearchClient::request` (src/search/mod.rs): forms the URL, attaches the
    query parameters and the multipart form that are given, sends the request
    once and classifies the answer.

    The HTTP transport is the client's `send` function: it receives the
    request as built and gives the outcome of sending it and reading its
    body. The JSON parser is the client's `parseJson` function. Both are
    inputs, so every property below holds whatever the backend answers. */
module Bridge {
  import opened Wrappers
  import opened JsonValue
  import opened Text
  import Config
  import Errors

  datatype Method = Get | Post

  /** A multipart part: its field name and its text. */
  datatype Part = TextPart(name: string, text: string)

  datatype Form = Form(parts: seq<Part>)

  const JsonContentType: string := "application/json"
  const MultipartContentType: string := "multipart/form-data"

  /** The request as built: method, absolute URL, the `Content-Type` values
      set in order, the query parameters and the multipart body. */
  datatype HttpRequest = HttpRequest(
    httpMethod: Method,
    url: string,
    contentTypes: seq<string>,
    query: Option<Json>,
    multipart: Option<Form>)

  /** An HTTP status code (the `http` crate admits 100 to 999). */
  type StatusCode = x: int | 100 <= x <= 999 witness 200

  const Ok200: StatusCode := 200
  const UnprocessableEntity422: StatusCode := 422

  const UnprocessableMessage: string := "Could not process request"
  const FailedMessage: string := "Request failed"

  /** What sending a request gives: a failure to send, or a status with the
      result of reading the body as text (the body is read only on 200). */
  datatype Outcome =
    | SendFailed(cause: string)
    | Received(status: StatusCode, body: Result<string, string>)

  datatype SearchClient = SearchClient(
    send: HttpRequest -> Outcome,
    parseJson: string -> Result<Json, string>)

  /** `format!("{BASE_URL}/{endpoint}")`. */
  function Url(endpoint: string): (url: string)
    ensures |url| == |Config.BaseUrl| + 1 + |endpoint|
    ensures IsPrefix(Config.BaseUrl, url) && url[|Config.BaseUrl|] == '/'
    ensures url[|Config.BaseUrl| + 1..] == endpoint
  {
    Config.BaseUrl + "/" + endpoint
  }

  /** The endpoint a URL formed by `Url` names. */
  function EndpointOf(url: string): Option<string> {
    if |url| > |Config.BaseUrl| && IsPrefix(Config.BaseUrl, url) && url[|Config.BaseUrl|] == '/'
    then Some(url[|Config.BaseUrl| + 1..])
    else None
  }

  lemma UrlRoundTrip(endpoint: string)
    ensures EndpointOf(Url(endpoint)) == Some(endpoint)
  {
  }

  /** Two endpoints give the same URL only when they are the same. */
  lemma UrlInjective(e1: string, e2: string)
    requires Url(e1) == Url(e2)
    ensures e1 == e2
  {
  }

  /** The request before sending: the parameters and the form are attached
      independently, each with its content type, in the order of the source. */
  function PrepareRequest(httpMethod: Method, endpoint: string, params: Option<Json>, multipart: Option<Form>): (req: HttpRequest)
    ensures req.httpMethod == httpMethod && req.url == Url(endpoint)
    ensures req.query == params && req.multipart == multipart
    ensures JsonContentType in req.contentTypes <==> params.Some?
    ensures MultipartContentType in req.contentTypes <==> multipart.Some?
    ensures |req.contentTypes| == (if params.Some? then 1 else 0) + (if multipart.Some? then 1 else 0)
  {
    var request := HttpRequest(httpMethod, Url(endpoint), [], None, None);
    var request :=
      if params.Some? then request.(contentTypes := request.contentTypes + [JsonContentType], query := params)
      else request;
    var request :=
      if multipart.Some? then request.(contentTypes := request.contentTypes + [MultipartContentType], multipart := multipart)
      else request;
    request
  }

  /** The answer as `Result<Value, RequestError>`. */
  function Classify(outcome: Outcome, parseJson: string -> Result<Json, string>): (r: Result<Json, Errors.RequestError>)
    // success: exactly a 200 whose body was read and parsed, and then the parsed value
    ensures r.Ok? <==> outcome.Received? && outcome.status == 200 && outcome.body.Ok?
                       && parseJson(outcome.body.value).Ok?
    ensures r.Ok? ==> r.value == parseJson(outcome.body.value).value
    // an `Api` error is exactly a status other than 200, and carries that status
    ensures r.Err? && r.error.Api? <==> outcome.Received? && outcome.status != 200
    ensures r.Err? && r.error.Api? ==> r.error.statusCode == outcome.status
    ensures r.Err? && r.error.Api? ==>
      r.error.message == (if outcome.status == 422 then UnprocessableMessage else FailedMessage)
    // a transport failure, sending or reading, is a `Request` error carrying its cause
    ensures r.Err? && r.error.Request? <==>
      outcome.SendFailed? || (outcome.status == 200 && outcome.body.Err?)
    ensures outcome.SendFailed? ==> r == Err(Errors.Request(outcome.cause))
    ensures outcome.Received? && outcome.status == 200 && outcome.body.Err? ==> r == Err(Errors.Request(outcome.body.error))
    // a body that does not parse is a `Json` error carrying the parser's message
    ensures r.Err? && r.error.Json? <==>
      outcome.Received? && outcome.status == 200 && outcome.body.Ok? && parseJson(outcome.body.value).Err?
    ensures r.Err? && r.error.Json? ==> r.error.cause == parseJson(outcome.body.value).error
  {
    match outcome
    case SendFailed(cause) => Err(Errors.Request(cause))
    case Received(status, body) =>
      if status == Ok200 then
        match body
        case Err(cause) => Err(Errors.Request(cause))
        case Ok(text) =>
          match parseJson(text)
          case Ok(value) => Ok(value)
          case Err(cause) => Err(Errors.Json(cause))
      else if status == UnprocessableEntity422 then Err(Errors.Api(status, UnprocessableMessage))
      else Err(Errors.Api(status, FailedMessage))
  }

  /** Apart from 200, the result depends on the status alone: neither the
      body nor the parser is looked at. */
  lemma NonOkIgnoresBody(status: StatusCode, body1: Result<string, string>, body2: Result<string, string>,
                         parse1: string -> Result<Json, string>, parse2: string -> Result<Json, string>)
    requires status != 200
    ensures Classify(Received(status, body1), parse1) == Classify(Received(status, body2), parse2)
  {
  }

  /** `SearchClient::request`: one send of the request `PrepareRequest`
      builds, then the classification of what came back. */
  function Request(client: SearchClient, httpMethod: Method, endpoint: string,
                   params: Option<Json>, multipart: Option<Form>): (r: Result<Json, Errors.RequestError>)
    ensures var outcome := client.send(PrepareRequest(httpMethod, endpoint, params, multipart));
      && (r.Ok? <==> outcome.Received? && outcome.status == 200 && outcome.body.Ok?
                     && client.parseJson(outcome.body.value).Ok?)
      && (r.Ok? ==> r.value == client.parseJson(outcome.body.value).value)
      && (outcome.SendFailed? ==> r == Err(Errors.Request(outcome.cause)))
      && (outcome.Received? && outcome.status == 422 ==> r == Err(Errors.Api(422, UnprocessableMessage)))
      && (outcome.Received? && outcome.status != 200 && outcome.status != 422 ==>
            r == Err(Errors.Api(outcome.status, FailedMessage)))
  {
    Classify(client.send(PrepareRequest(httpMethod, endpoint, params, multipart)), client.parseJson)
  }
}
