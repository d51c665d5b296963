/**
 * The transport: the request shape every resource client produces, the
 * decoding of a successful response, the mapping of 4xx/5xx responses to the
 * exception taxonomy, and the client configuration set up at construction.
 * The HTTP exchange itself and JSON decoding are oracles (Http).
 */
module BaseClient {
  import opened Wrappers
  import opened Php
  import opened Exceptions

  datatype HttpMethod = GET | POST | DELETE

  /** The `$options` of a Guzzle request: none, a JSON body, or a query string. */
  datatype Options = NoOptions | Json(body: Value) | Query(params: seq<Entry>)

  datatype Request = Request(verb: HttpMethod, endpoint: string, options: Options)

  /** What `json_decode($s, true)` gives: a syntax error, or a value. */
  datatype JsonParse = Malformed | Decoded(value: Value)

  /** How a Guzzle request ends. */
  datatype HttpOutcome =
    | Completed(body: string)                                        // a response Guzzle did not raise on
    | ClientFailure(status: int, reason: Option<string>, body: string) // ClientException (4xx)
    | ServerFailure(status: int, reason: Option<string>, body: string) // ServerException (5xx)
    | ConnectFailure(message: string)                                // ConnectException
    | OtherFailure(message: string)                                  // any other exception

  /** The network and the JSON decoder, which the model does not look inside. */
  datatype Http = Http(send: Request -> HttpOutcome, decode: string -> JsonParse)

  const InvalidJsonMessage := "Invalid JSON response from API"

  /**
   * `return $data ?? [];` from a function declared to return `array`: null
   * becomes the empty array, an array is returned as is, and any other
   * decoded value fails the return type with a TypeError.
   */
  function ArrayOrEmpty(v: Value, site: string): (r: Result<seq<Entry>, SendLayerError>)
    ensures v.Null? ==> r == Success([])
    ensures v.Arr? ==> r == Success(v.entries)
    ensures r.Failure? <==> !(v.Null? || v.Arr?)
    ensures r.Failure? ==> r.error.TypeError? && !r.error.IsSendLayerException()
  {
    match v
    case Null => Success([])
    case Arr(es) => Success(es)
    case _ => Failure(TypeError(site + "(): Return value must be of type array"))
  }

  /**
   * parseErrorResponse: the decoded body when it is valid JSON, otherwise an
   * array holding only the reason phrase under "Error".
   */
  function ParseErrorResponse(parsed: JsonParse, reason: Option<string>): (r: Result<seq<Entry>, SendLayerError>)
    ensures parsed == Decoded(Null) ==> r == Success([])
    ensures parsed.Decoded? && parsed.value.Arr? ==> r == Success(parsed.value.entries)
    ensures parsed.Malformed? ==> r == Success([Entry(K("Error"), Str(reason.GetOr("Unknown error")))])
    ensures r.Failure? <==> parsed.Decoded? && !parsed.value.Null? && !parsed.value.Arr?
    ensures r.Failure? ==> r.error.TypeError?
  {
    match parsed
    case Decoded(v) => ArrayOrEmpty(v, "parseErrorResponse")
    case Malformed => Success([Entry(K("Error"), Str(reason.GetOr("Unknown error")))])
  }

  /**
   * `$responseData['Error'] ?? $default`, passed to a `string $message`
   * parameter: the default when the field is missing or null, the string when
   * it is one, a converted scalar otherwise, a TypeError for an array.
   */
  function ErrorMessage(data: seq<Entry>, default: string): (r: Result<string, SendLayerError>)
    ensures !Isset(data, K("Error")) ==> r == Success(default)
    ensures Lookup(data, K("Error")).Some? && Lookup(data, K("Error")).value.Str? ==>
      r == Success(Lookup(data, K("Error")).value.s)
    ensures Lookup(data, K("Error")).Some? && (Lookup(data, K("Error")).value.Int? || Lookup(data, K("Error")).value.Bool?) ==>
      r == Success(StringCast(Lookup(data, K("Error")).value))
    ensures r.Failure? <==> Lookup(data, K("Error")).Some? && Lookup(data, K("Error")).value.Arr?
    ensures r.Failure? ==> r.error.TypeError?
  {
    var v := Coalesce(Lookup(data, K("Error")), Str(default));
    match StringParam(v)
    case Some(s) => Success(s)
    case None => Failure(TypeError("Argument #1 ($message) must be of type string, array given"))
  }

  /** The message each 4xx status falls back to when the body has no Error. */
  function ClientDefault(status: int): string {
    if status == 401 then "Invalid API key"
    else if status == 400 then "Invalid request parameters"
    else if status == 404 then "Resource not found"
    else if status == 422 then "Unprocessable Entity"
    else if status == 429 then "Rate limit exceeded"
    else "API request failed"
  }

  /** The message an exception was constructed with (before the API exception's formatting). */
  predicate HasRawMessage(e: SendLayerError, status: int, m: string) {
    if e.ApiError? then e.message == ApiMessage(status, m) else e.message == m
  }

  /** handleClientException: the exception a 4xx response raises. */
  function HandleClientException(status: int, data: seq<Entry>): (e: SendLayerError)
    ensures e.TypeError? <==> ErrorMessage(data, ClientDefault(status)).Failure?
    ensures !e.TypeError? ==>
      && (e.AuthenticationError? <==> status == 401)
      && (e.ValidationError? <==> status == 400 || status == 422)
      && (e.NotFoundError? <==> status == 404)
      && (e.RateLimitError? <==> status == 429)
      && (e.ApiError? <==> status !in {400, 401, 404, 422, 429})
      && !e.InternalServerError? && !e.SdkError?
      && HasRawMessage(e, status, ErrorMessage(data, ClientDefault(status)).value)
    ensures e.ApiError? ==> e.statusCode == status && e.response == data && e.Code() == status
  {
    match ErrorMessage(data, ClientDefault(status))
    case Failure(err) => err
    case Success(m) =>
      if status == 401 then AuthenticationError(m)
      else if status == 400 then ValidationError(m)
      else if status == 404 then NotFoundError(m)
      else if status == 422 then ValidationError(m)
      else if status == 429 then RateLimitError(m)
      else NewApiError(m, status, data)
  }

  /** handleServerException: the exception a 5xx response raises. */
  function HandleServerException(status: int, data: seq<Entry>): (e: SendLayerError)
    ensures e.TypeError? <==> ErrorMessage(data, ServerDefault(status)).Failure?
    ensures !e.TypeError? ==>
      && (e.InternalServerError? <==> status == 500)
      && (e.ApiError? <==> status != 500)
      && HasRawMessage(e, status, ErrorMessage(data, ServerDefault(status)).value)
    ensures e.ApiError? ==> e.statusCode == status && e.response == data && e.Code() == status
  {
    match ErrorMessage(data, ServerDefault(status))
    case Failure(err) => err
    case Success(m) =>
      if status == 500 then InternalServerError(m) else NewApiError(m, status, data)
  }

  function ServerDefault(status: int): string {
    if status == 500 then "Internal server error" else "Server error"
  }

  /** makeRequest, after the HTTP exchange: decode, or raise the mapped exception. */
  function MakeRequest(outcome: HttpOutcome, decode: string -> JsonParse): (r: Result<seq<Entry>, SendLayerError>)
    ensures outcome.Completed? && decode(outcome.body) == Decoded(Null) ==> r == Success([])
    ensures outcome.Completed? && decode(outcome.body).Decoded? && decode(outcome.body).value.Arr? ==>
      r == Success(decode(outcome.body).value.entries)
    ensures outcome.Completed? && decode(outcome.body).Malformed? ==>
      r == Failure(SdkError("Unexpected error: " + InvalidJsonMessage))
    ensures outcome.ConnectFailure? ==> r == Failure(SdkError("Connection error: " + outcome.message))
    ensures outcome.OtherFailure? ==> r == Failure(SdkError("Unexpected error: " + outcome.message))
    ensures
      && outcome.Completed? && decode(outcome.body).Decoded?
      && !decode(outcome.body).value.Null? && !decode(outcome.body).value.Arr?
      ==> r.Failure? && r.error.TypeError?
    ensures outcome.ClientFailure? ==>
      var data := ParseErrorResponse(decode(outcome.body), outcome.reason);
      r == if data.Success? then Failure(HandleClientException(outcome.status, data.value)) else Failure(data.error)
    ensures outcome.ServerFailure? ==>
      var data := ParseErrorResponse(decode(outcome.body), outcome.reason);
      r == if data.Success? then Failure(HandleServerException(outcome.status, data.value)) else Failure(data.error)
    ensures r.Success? ==> outcome.Completed?
  {
    match outcome
    case Completed(body) =>
      (match decode(body)
       case Malformed => Failure(SdkError("Unexpected error: " + InvalidJsonMessage))
       case Decoded(v) => ArrayOrEmpty(v, "makeRequest"))
    case ClientFailure(status, reason, body) =>
      (match ParseErrorResponse(decode(body), reason)
       case Failure(err) => Failure(err)
       case Success(data) => Failure(HandleClientException(status, data)))
    case ServerFailure(status, reason, body) =>
      (match ParseErrorResponse(decode(body), reason)
       case Failure(err) => Failure(err)
       case Success(data) => Failure(HandleServerException(status, data)))
    case ConnectFailure(m) => Failure(SdkError("Connection error: " + m))
    case OtherFailure(m) => Failure(SdkError("Unexpected error: " + m))
  }

  /** A validated request is passed to makeRequest; a rejected one is returned as its error. */
  function Dispatch(http: Http, req: Result<Request, SendLayerError>): (r: Result<seq<Entry>, SendLayerError>)
    ensures req.Failure? ==> r == Failure(req.error)
    ensures req.Success? ==> r == MakeRequest(http.send(req.value), http.decode)
  {
    match req
    case Failure(e) => Failure(e)
    case Success(q) => MakeRequest(http.send(q), http.decode)
  }

  /** A 4xx body whose Error field is a string yields exactly that message (formatted, for an API error). */
  lemma ClientErrorUsesBodyMessage(status: int, reason: Option<string>, body: string, decode: string -> JsonParse, s: string)
    requires decode(body).Decoded? && decode(body).value.Arr?
    requires Lookup(decode(body).value.entries, K("Error")) == Some(Str(s))
    ensures var r := MakeRequest(ClientFailure(status, reason, body), decode);
      r.Failure? && r.error.IsSendLayerException() && HasRawMessage(r.error, status, s)
  {
  }

  /** An integer Error field is converted to its decimal string: `{"Error": 42}` gives "42". */
  lemma IntegerErrorIsConverted(default: string)
    ensures ErrorMessage([Entry(K("Error"), Int(42))], default) == Success("42")
  {
    assert NatToString(42) == NatToString(4) + [Digit(2)];
    assert IntToString(42) == "42";
  }

  /** A 422 is reported as a validation error whose code is the class default 400, not the status. */
  lemma UnprocessableIsValidation400(data: seq<Entry>)
    requires !Isset(data, K("Error"))
    ensures HandleClientException(422, data) == ValidationError("Unprocessable Entity")
    ensures HandleClientException(422, data).Code() == 400
  {
  }

  /** A 4xx or 5xx body that is not JSON reports the reason phrase as the message. */
  lemma MalformedErrorBodyUsesReason(status: int, reason: string, body: string, decode: string -> JsonParse)
    requires decode(body).Malformed?
    ensures var r := MakeRequest(ClientFailure(status, Some(reason), body), decode);
      r.Failure? && HasRawMessage(r.error, status, reason)
    ensures var r := MakeRequest(ServerFailure(status, Some(reason), body), decode);
      r.Failure? && HasRawMessage(r.error, status, reason)
  {
    var data := [Entry(K("Error"), Str(reason))];
    assert Lookup(data, K("Error")) == Some(Str(reason));
  }

  /**
   * An empty 2xx body is not an empty result: json_decode reports "" as a
   * syntax error, so the call fails with
   * "Unexpected error: Invalid JSON response from API".
   */
  lemma EmptySuccessBodyIsInvalidJson(decode: string -> JsonParse)
    requires decode("") == Malformed
    ensures MakeRequest(Completed(""), decode) == Failure(SdkError("Unexpected error: " + InvalidJsonMessage))
    ensures MakeRequest(Completed(""), decode) != Success([])
  {
  }

  const BaseUrl := "https://console.sendlayer.com/api/v1/"
  const DefaultAttachmentUrlTimeout := 30000
  const DefaultTimeout := 30

  /**
   * The constructor's `$config`: `attachmentURLTimeout` (None when missing or
   * null), `timeout` (any value, None when missing) and `guzzle` (None when
   * not set).
   */
  datatype Config = Config(attachmentUrlTimeout: Option<int>, timeout: Option<Value>, guzzle: Option<seq<Entry>>)

  function Authorization(apiKey: string): string {
    "Bearer " + apiKey
  }

  /** The Guzzle configuration before any `guzzle` overrides. */
  function DefaultClientConfig(apiKey: string, timeout: Value): seq<Entry> {
    [ Entry(K("base_uri"), Str(BaseUrl)),
      Entry(K("headers"), Arr([ Entry(K("Authorization"), Str(Authorization(apiKey))),
                                Entry(K("Content-Type"), Str("application/json")) ])),
      Entry(K("timeout"), timeout) ]
  }

  /** The configuration the Guzzle client is constructed with. */
  function ClientConfig(apiKey: string, config: Config): seq<Entry> {
    var defaults := DefaultClientConfig(apiKey, Coalesce(config.timeout, Int(DefaultTimeout)));
    if config.guzzle.Some? then ArrayMerge(defaults, config.guzzle.value) else defaults
  }

  /**
   * The `guzzle` options override the defaults key by key at the top level
   * only: a `headers` override replaces the whole default header set,
   * Authorization included; keys it does not name keep their defaults.
   */
  lemma ClientConfigLookup(apiKey: string, config: Config, key: string)
    requires config.guzzle.Some? ==> DistinctKeys(config.guzzle.value)
    ensures var defaults := DefaultClientConfig(apiKey, Coalesce(config.timeout, Int(DefaultTimeout)));
      Lookup(ClientConfig(apiKey, config), K(key)) ==
        if config.guzzle.Some? && Lookup(config.guzzle.value, K(key)).Some?
        then Lookup(config.guzzle.value, K(key))
        else Lookup(defaults, K(key))
  {
    if config.guzzle.Some? {
      ArrayMergeLookup(DefaultClientConfig(apiKey, Coalesce(config.timeout, Int(DefaultTimeout))), config.guzzle.value, key);
    }
  }

  /** Without overrides the client authenticates with "Bearer {apiKey}" and a 30 second timeout. */
  lemma DefaultsWithoutOverrides(apiKey: string)
    ensures var c := ClientConfig(apiKey, Config(None, None, None));
      && Lookup(c, K("timeout")) == Some(Int(30))
      && Lookup(c, K("base_uri")) == Some(Str(BaseUrl))
      && Lookup(c, K("headers")).Some? && Lookup(c, K("headers")).value.Arr?
      && Lookup(Lookup(c, K("headers")).value.entries, K("Authorization")) == Some(Str("Bearer " + apiKey))
  {
    var c := ClientConfig(apiKey, Config(None, None, None));
    assert c[1..][1..][0] == Entry(K("timeout"), Int(30));
    assert K("headers") != K("timeout") && K("base_uri") != K("timeout");
  }

  /** The shared client: configuration fixed at construction. */
  class Client {
    var apiKey: string
    var attachmentUrlTimeout: int
    var baseUrl: string
    var clientConfig: seq<Entry>

    constructor (apiKey: string, config: Config)
      ensures this.apiKey == apiKey
      ensures this.baseUrl == BaseUrl
      ensures this.attachmentUrlTimeout == config.attachmentUrlTimeout.GetOr(DefaultAttachmentUrlTimeout)
      ensures this.clientConfig == ClientConfig(apiKey, config)
    {
      this.apiKey := apiKey;
      this.attachmentUrlTimeout := config.attachmentUrlTimeout.GetOr(DefaultAttachmentUrlTimeout);
      this.baseUrl := BaseUrl;
      var clientConfig := DefaultClientConfig(apiKey, Coalesce(config.timeout, Int(DefaultTimeout)));
      if config.guzzle.Some? {
        clientConfig := ArrayMerge(clientConfig, config.guzzle.value);
      }
      this.clientConfig := clientConfig;
    }
  }
}
