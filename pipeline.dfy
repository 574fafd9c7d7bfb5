/** The generic request/response pipeline of `ApiClient`: classification of the HTTP status,
    the "success type first, error envelope second" decoding, and the request descriptors
    that `join_url`, `post_json` and the GET adapters hand to the transport.

    Sending a request and reading a body are inputs (a `Result` per step); the two serde
    decoders are function parameters: `decodeT` for the success type, `decodeE` for the
    provider's error envelope, and `into` is the envelope's `Into<ApiError>`. */
module Pipeline {
  import opened Wrappers
  import opened Scalars
  import opened Errors
  import opened QueryPairs

  /** What `reqwest::StatusCode` can hold. */
  type StatusCode = s: int | 100 <= s <= 999 witness 200

  /** `StatusCode::is_success`: the 2xx range. */
  predicate IsSuccess(s: StatusCode) {
    200 <= s <= 299
  }

  const UNAUTHORIZED: StatusCode := 401

  /** An underlying failure that `anyhow::Error` carries unclassified, with its message.
      `QuerySerialize` is the request builder's error for a query record that
      `serde_urlencoded` cannot write, which `send` returns before sending anything. */
  datatype Cause =
    | Send(detail: string)
    | BodyRead(detail: string)
    | Json(detail: string)
    | UrlParse(detail: string)
    | InvalidHeaderValue
    | ClientBuild(detail: string)
    | QuerySerialize

  /** The error of every pipeline call: a classified API error or an underlying cause. */
  datatype Error = Api(api: ApiError) | Underlying(cause: Cause)

  type HeaderName = string
  type HeaderValue = seq<byte>
  type HeaderMap = map<HeaderName, HeaderValue>

  const ACCEPT: HeaderName := "accept"
  const USER_AGENT: HeaderName := "user-agent"
  const AUTHORIZATION: HeaderName := "authorization"
  const APPLICATION_JSON: string := "application/json"

  /** A parsed absolute URL, kept opaque: parsing and joining belong to the `url` crate. */
  datatype Url = Url(href: string)

  /** A `reqwest::Client`, observed through the default headers it sends. */
  datatype Transport = Transport(defaultHeaders: HeaderMap)

  /** The client: a shared transport and the base address every endpoint path is joined to. */
  datatype ApiClient = ApiClient(client: Transport, basePath: Url)

  datatype Method = Get | Post

  /** A prepared request: its method, its absolute URL, the query pairs added to it, the
      headers set on this request alone and an optional JSON body. */
  datatype Request<B> = Request(verb: Method, url: Url, query: seq<Pair>, headers: seq<(HeaderName, string)>, body: Option<B>)

  /** A response as the transport delivers it: its status and the outcome of reading its
      body (a failed read carries the transport's message). */
  datatype Response = Response(status: StatusCode, body: Result<seq<byte>, string>)

  /** `join_url`: the base address joined with a relative path; a join failure is passed on. */
  function JoinUrl(c: ApiClient, path: string, join: (Url, string) -> Result<Url, Cause>): (r: Result<Url, Error>)
    ensures r.Success? <==> join(c.basePath, path).Success?
    ensures r.Success? ==> r.value == join(c.basePath, path).value
    ensures r.Failure? ==> r.error == Underlying(join(c.basePath, path).error)
  {
    match join(c.basePath, path)
    case Success(u) => Success(u)
    case Failure(e) => Failure(Underlying(e))
  }

  /** The error a non-2xx response is classified as when its body yields no envelope. */
  function StatusError(s: StatusCode): (e: ApiError)
    ensures s == UNAUTHORIZED <==> e.Unauthorized?
    ensures s != UNAUTHORIZED ==> e == Other(s)
  {
    if s == UNAUTHORIZED then Unauthorized else Other(s)
  }

  /** `request`: a transport failure is passed on; a 2xx response is handed back untouched;
      otherwise the body is read as the error envelope, and failing that the status decides. */
  function SendRequest<E>(sent: Result<Response, string>, decodeE: seq<byte> -> Option<E>, into: E -> ApiError)
    : (r: Result<Response, Error>)
    ensures r.Success? <==> sent.Success? && IsSuccess(sent.value.status)
    ensures r.Success? ==> r.value == sent.value
    ensures sent.Failure? ==> r == Failure(Underlying(Send(sent.error)))
    ensures r.Failure? && sent.Success? ==> r.error.Api?
  {
    match sent
    case Failure(msg) => Failure(Underlying(Send(msg)))
    case Success(resp) =>
      if IsSuccess(resp.status) then Success(resp)
      else
        var envelope := match resp.body
          case Success(bytes) => decodeE(bytes)
          case Failure(_) => None;
        match envelope
        case Some(err) => Failure(Api(into(err)))
        case None => Failure(Api(StatusError(resp.status)))
  }

  /** `request_json`: after a successful `request`, the body is decoded as the success type;
      if that fails but the same body is an error envelope, the envelope's error is returned,
      and if neither decodes, the success type's decode error is. */
  function RequestJson<T, E>(sent: Result<Response, string>, decodeT: seq<byte> -> Result<T, string>,
                             decodeE: seq<byte> -> Option<E>, into: E -> ApiError)
    : (r: Result<T, Error>)
    ensures r.Success? <==>
      sent.Success? && IsSuccess(sent.value.status) && sent.value.body.Success?
      && decodeT(sent.value.body.value).Success?
    ensures r.Success? ==> r.value == decodeT(sent.value.body.value).value
    ensures r.Failure? && r.error.Underlying? && r.error.cause.Json? ==>
      sent.Success? && IsSuccess(sent.value.status) && sent.value.body.Success?
      && decodeT(sent.value.body.value) == Failure(r.error.cause.detail)
      && decodeE(sent.value.body.value).None?
  {
    match SendRequest(sent, decodeE, into)
    case Failure(e) => Failure(e)
    case Success(resp) =>
      match resp.body
      case Failure(msg) => Failure(Underlying(BodyRead(msg)))
      case Success(bytes) =>
        match decodeT(bytes)
        case Success(v) => Success(v)
        case Failure(msg) =>
          match decodeE(bytes)
          case Some(apiErr) => Failure(Api(into(apiErr)))
          case None => Failure(Underlying(Json(msg)))
  }

  /** A GET of `url` with the given query pairs and no request-specific header. */
  function GetRequest(url: Url, query: seq<Pair>): (r: Request<()>)
    ensures r.verb == Get && r.url == url && r.query == query
    ensures r.headers == [] && r.body.None?
  {
    Request(Get, url, query, [], None)
  }

  /** The request `post_json` sends: a POST with `Accept: application/json`, carrying the
      body only when there is one. */
  function PostRequest<B>(url: Url, body: Option<B>): (r: Request<B>)
    ensures r.verb == Post && r.url == url && r.query == []
    ensures r.headers == [(ACCEPT, APPLICATION_JSON)]
    ensures r.body == body
  {
    Request(Post, url, [], [(ACCEPT, APPLICATION_JSON)], body)
  }

  /** `post_json`: the POST request goes through the transport, then through `request_json`;
      the value is the success type's reading of a 2xx reply to exactly that request. */
  function PostJson<T, B, E>(url: Url, body: Option<B>, send: Request<B> -> Result<Response, string>,
                             decodeT: seq<byte> -> Result<T, string>, decodeE: seq<byte> -> Option<E>,
                             into: E -> ApiError)
    : (r: Result<T, Error>)
    ensures r.Success? <==> Answers(send(PostRequest(url, body)), decodeT)
    ensures r.Success? ==> r.value == Answer(send(PostRequest(url, body)), decodeT)
    ensures r.Failure? && r.error.Api? && send(PostRequest(url, body)).Success?
            && send(PostRequest(url, body)).value.body.Success?
            && decodeE(send(PostRequest(url, body)).value.body.value).Some?
            ==> r.error.api == into(decodeE(send(PostRequest(url, body)).value.body.value).value)
  {
    RequestJson(send(PostRequest(url, body)), decodeT, decodeE, into)
  }

  /** What a call needs from outside the model: joining a relative path onto the base
      address, sending a GET request, and reading a body as the service's error envelope. */
  datatype Environment<E> = Environment(
    join: (Url, string) -> Result<Url, Cause>,
    send: Request<()> -> Result<Response, string>,
    decodeE: seq<byte> -> Option<E>)

  /** The transport's answer to the GET of `path`, joined onto the base, with `query`. */
  function Reply<E>(c: ApiClient, path: string, query: seq<Pair>, env: Environment<E>): Result<Response, string>
    requires env.join(c.basePath, path).Success?
  {
    env.send(GetRequest(env.join(c.basePath, path).value, query))
  }

  /** A reply that is a 2xx response whose body reads as the success type. */
  predicate Answers<T>(sent: Result<Response, string>, decodeT: seq<byte> -> Result<T, string>) {
    sent.Success? && IsSuccess(sent.value.status) && sent.value.body.Success?
    && decodeT(sent.value.body.value).Success?
  }

  /** The value such a reply's body reads as. */
  function Answer<T>(sent: Result<Response, string>, decodeT: seq<byte> -> Result<T, string>): T
    requires Answers(sent, decodeT)
  {
    decodeT(sent.value.body.value).value
  }

  // Properties of the decision table.

  /** A 2xx response is returned as it is, whatever the error-envelope decoder would say. */
  lemma {:induction false} SuccessSkipsEnvelope<E, E'>(sent: Result<Response, string>, decodeE: seq<byte> -> Option<E>, into: E -> ApiError,
                                    decodeE': seq<byte> -> Option<E'>, into': E' -> ApiError)
    requires sent.Success? && IsSuccess(sent.value.status)
    ensures SendRequest(sent, decodeE, into) == Success(sent.value)
    ensures SendRequest(sent, decodeE, into) == SendRequest(sent, decodeE', into')
  {
  }

  /** A non-2xx response whose body is an error envelope yields that envelope's error. */
  lemma {:induction false} FailureStatusUsesEnvelope<E>(status: StatusCode, bytes: seq<byte>, decodeE: seq<byte> -> Option<E>, into: E -> ApiError)
    requires !IsSuccess(status) && decodeE(bytes).Some?
    ensures SendRequest(Success(Response(status, Success(bytes))), decodeE, into) == Failure(Api(into(decodeE(bytes).value)))
  {
  }

  /** A non-2xx response with no readable envelope falls back on the status: 401 is
      `Unauthorized`, any other status is `Other` with exactly that code. */
  lemma {:induction false} FailureStatusFallback<E>(resp: Response, decodeE: seq<byte> -> Option<E>, into: E -> ApiError)
    requires !IsSuccess(resp.status)
    requires resp.body.Failure? || decodeE(resp.body.value).None?
    ensures resp.status == 401 ==> SendRequest(Success(resp), decodeE, into) == Failure(Api(Unauthorized))
    ensures resp.status != 401 ==> SendRequest(Success(resp), decodeE, into) == Failure(Api(Other(resp.status)))
  {
  }

  /** When the body decodes as the success type, that value is the result, whatever the
      envelope decoder would have said: the success type is tried first. */
  lemma {:induction false} SuccessTypeFirst<T, E>(status: StatusCode, bytes: seq<byte>, decodeT: seq<byte> -> Result<T, string>,
                               decodeE: seq<byte> -> Option<E>, into: E -> ApiError)
    requires IsSuccess(status) && decodeT(bytes).Success?
    ensures RequestJson(Success(Response(status, Success(bytes))), decodeT, decodeE, into) == Success(decodeT(bytes).value)
  {
  }

  /** A 2xx body that is not a success value but is an envelope yields the envelope's
      error, never the decode error. */
  lemma {:induction false} EnvelopeBeatsDecodeError<T, E>(status: StatusCode, bytes: seq<byte>, decodeT: seq<byte> -> Result<T, string>,
                                       decodeE: seq<byte> -> Option<E>, into: E -> ApiError)
    requires IsSuccess(status) && decodeT(bytes).Failure? && decodeE(bytes).Some?
    ensures RequestJson(Success(Response(status, Success(bytes))), decodeT, decodeE, into) == Failure(Api(into(decodeE(bytes).value)))
  {
  }

  /** A 2xx body that is neither yields the success type's own decode error. */
  lemma {:induction false} DecodeErrorSurfaces<T, E>(status: StatusCode, bytes: seq<byte>, decodeT: seq<byte> -> Result<T, string>,
                                  decodeE: seq<byte> -> Option<E>, into: E -> ApiError)
    requires IsSuccess(status) && decodeT(bytes).Failure? && decodeE(bytes).None?
    ensures RequestJson(Success(Response(status, Success(bytes))), decodeT, decodeE, into) == Failure(Underlying(Json(decodeT(bytes).error)))
  {
  }

  /** A non-2xx response never reaches the success decoder: the result is the classified
      error of `request`, whatever `decodeT` would say. */
  lemma {:induction false} FailureStatusSkipsSuccessType<T, T', E>(resp: Response, decodeT: seq<byte> -> Result<T, string>,
                                               decodeT': seq<byte> -> Result<T', string>,
                                               decodeE: seq<byte> -> Option<E>, into: E -> ApiError)
    requires !IsSuccess(resp.status)
    ensures RequestJson(Success(resp), decodeT, decodeE, into).Failure?
    ensures RequestJson(Success(resp), decodeT, decodeE, into).error == SendRequest(Success(resp), decodeE, into).error
    ensures RequestJson(Success(resp), decodeT, decodeE, into).error == RequestJson(Success(resp), decodeT', decodeE, into).error
  {
  }
}
