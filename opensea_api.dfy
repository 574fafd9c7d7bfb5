/** The OpenSea adapters: the base addresses, the relative paths each endpoint requests, the
    query record it attaches, and the decoding of its reply with `OpenSeaApiError` as the
    error envelope. */
module OpenSeaApi {
  import opened Wrappers
  import opened Scalars
  import opened Text
  import opened QueryPairs
  import opened Errors
  import opened Pipeline
  import Orders = OrderQueryRecord
  import Assets = AssetsQueryRecord
  import Bundles = BundleQueryRecord
  import Tokens = FungibleTokenQueryRecord
  import AssetQuery = AssetQueryRecord

  const API_BASE_MAINNET: string := "https://api.opensea.io"
  const API_BASE_RINKEBY: string := "https://rinkeby-api.opensea.io"
  const SITE_HOST_MAINNET: string := "https://opensea.io"
  const SITE_HOST_RINKEBY: string := "https://rinkeby.opensea.io"

  const ORDERS_PATH: string := "wyvern/v1/orders"
  const ASSETS_PATH: string := "api/v1/assets"
  const TOKENS_PATH: string := "api/v1/tokens"
  const BUNDLES_PATH: string := "api/v1/bundles"

  /** What an OpenSea call needs from outside the model, with the OpenSea error envelope. */
  type Env = Environment<OpenSeaApiError>

  /** `request_json_opensea`: `request_json` with the OpenSea envelope. A success is the
      success type's reading of a 2xx body; an API error is never a Rarible one, and an
      OpenSea one is exactly the envelope the body held. */
  function RequestJsonOpenSea<T>(sent: Result<Response, string>, decodeT: seq<byte> -> Result<T, string>,
                                 decodeE: seq<byte> -> Option<OpenSeaApiError>)
    : (r: Result<T, Error>)
    ensures r.Success? <==> Answers(sent, decodeT)
    ensures r.Success? ==> r.value == Answer(sent, decodeT)
    ensures r.Failure? && r.error.Api? ==> !r.error.api.RaribleServerError?
    ensures r.Failure? && r.error.Api? && r.error.api.OpenSeaApiError? ==>
      sent.Success? && sent.value.body.Success? && decodeE(sent.value.body.value) == Some(r.error.api.openSea)
  {
    RequestJson(sent, decodeT, decodeE, FromOpenSea)
  }

  /** A GET endpoint: a path that does not join fails before anything is sent; otherwise the
      reply to the GET with `query` decides, through `request_json_opensea`. */
  function Get<T>(c: ApiClient, path: string, query: seq<Pair>, env: Env, decodeT: seq<byte> -> Result<T, string>)
    : (r: Result<T, Error>)
    ensures env.join(c.basePath, path).Failure? ==> r == Failure(Underlying(env.join(c.basePath, path).error))
    ensures env.join(c.basePath, path).Success? ==>
      r == RequestJsonOpenSea(Reply(c, path, query, env), decodeT, env.decodeE)
  {
    match JoinUrl(c, path, env.join)
    case Failure(e) => Failure(e)
    case Success(url) => RequestJsonOpenSea(env.send(GetRequest(url, query)), decodeT, env.decodeE)
  }

  /** The value of a list endpoint is the success type's reading of the reply to the GET of
      that endpoint's path with the query record's pairs, and nothing else. */
  ghost predicate ListedFrom<T>(r: Result<T, Error>, c: ApiClient, path: string, query: seq<Pair>, env: Env,
                                decodeT: seq<byte> -> Result<T, string>) {
    && (env.join(c.basePath, path).Failure? ==> r == Failure(Underlying(env.join(c.basePath, path).error)))
    && (r.Success? <==> env.join(c.basePath, path).Success? && Answers(Reply(c, path, query, env), decodeT))
    && (r.Success? ==> r.value == Answer(Reply(c, path, query, env), decodeT))
    && (r.Failure? && r.error.Api? ==> !r.error.api.RaribleServerError?)
  }

  /** A GET endpoint with a query record: a path that does not join fails first; then a
      record that does not serialise fails before anything is sent, as `.query` stores the
      serialiser's error and `send` returns it; otherwise the reply to the GET with the
      record's pairs decides. */
  function GetRecord<T>(c: ApiClient, path: string, serialises: bool, query: seq<Pair>, env: Env,
                        decodeT: seq<byte> -> Result<T, string>)
    : (r: Result<T, Error>)
    ensures env.join(c.basePath, path).Failure? ==> r == Failure(Underlying(env.join(c.basePath, path).error))
    ensures env.join(c.basePath, path).Success? && !serialises ==> r == Failure(Underlying(QuerySerialize))
    ensures serialises ==> ListedFrom(r, c, path, query, env, decodeT)
  {
    match JoinUrl(c, path, env.join)
    case Failure(e) => Failure(e)
    case Success(url) =>
      if !serialises then Failure(Underlying(QuerySerialize))
      else RequestJsonOpenSea(env.send(GetRequest(url, query)), decodeT, env.decodeE)
  }

  /** `get_orders`: `wyvern/v1/orders` with the order query, which fails to serialise when
      `token_ids` is set. */
  function GetOrders<T>(c: ApiClient, q: Orders.OrderQuery, env: Env, decodeT: seq<byte> -> Result<T, string>)
    : (r: Result<T, Error>)
    ensures env.join(c.basePath, ORDERS_PATH).Failure? ==> r == Failure(Underlying(env.join(c.basePath, ORDERS_PATH).error))
    ensures env.join(c.basePath, ORDERS_PATH).Success? && !Orders.Serialises(q) ==> r == Failure(Underlying(QuerySerialize))
    ensures Orders.Serialises(q) ==> ListedFrom(r, c, ORDERS_PATH, Orders.Pairs(q), env, decodeT)
  {
    GetRecord(c, ORDERS_PATH, Orders.Serialises(q), Orders.Pairs(q), env, decodeT)
  }

  /** `get_assets`: `api/v1/assets` with the assets query, which fails to serialise when
      `token_ids` or `asset_contract_addresses` is set. */
  function GetAssets<T>(c: ApiClient, q: Assets.OpenSeaAssetsQuery, env: Env, decodeT: seq<byte> -> Result<T, string>)
    : (r: Result<T, Error>)
    ensures env.join(c.basePath, ASSETS_PATH).Failure? ==> r == Failure(Underlying(env.join(c.basePath, ASSETS_PATH).error))
    ensures env.join(c.basePath, ASSETS_PATH).Success? && !Assets.Serialises(q) ==> r == Failure(Underlying(QuerySerialize))
    ensures Assets.Serialises(q) ==> ListedFrom(r, c, ASSETS_PATH, Assets.Pairs(q), env, decodeT)
  {
    GetRecord(c, ASSETS_PATH, Assets.Serialises(q), Assets.Pairs(q), env, decodeT)
  }

  /** `get_payment_tokens`: `api/v1/tokens` with the fungible-token query. */
  function GetPaymentTokens<T>(c: ApiClient, q: Tokens.OpenSeaFungibleTokenQuery, env: Env,
                               decodeT: seq<byte> -> Result<T, string>)
    : (r: Result<T, Error>)
    ensures ListedFrom(r, c, TOKENS_PATH, Tokens.Pairs(q), env, decodeT)
  {
    Get(c, TOKENS_PATH, Tokens.Pairs(q), env, decodeT)
  }

  /** `get_bundles`: `api/v1/bundles` with the bundle query, which fails to serialise when
      `token_ids` is set. */
  function GetBundles<T>(c: ApiClient, q: Bundles.OpenSeaAssetBundleQuery, env: Env,
                         decodeT: seq<byte> -> Result<T, string>)
    : (r: Result<T, Error>)
    ensures env.join(c.basePath, BUNDLES_PATH).Failure? ==> r == Failure(Underlying(env.join(c.basePath, BUNDLES_PATH).error))
    ensures env.join(c.basePath, BUNDLES_PATH).Success? && !Bundles.Serialises(q) ==> r == Failure(Underlying(QuerySerialize))
    ensures Bundles.Serialises(q) ==> ListedFrom(r, c, BUNDLES_PATH, Bundles.Pairs(q), env, decodeT)
  {
    GetRecord(c, BUNDLES_PATH, Bundles.Serialises(q), Bundles.Pairs(q), env, decodeT)
  }

  /** A list setter makes its endpoint fail before sending, whatever the transport would
      have answered: `.token_ids(..)` on an order or bundle query and either list setter on
      an assets query. */
  lemma {:induction false} ListSettersFailBeforeSending<T>(c: ApiClient, o: Orders.OrderQuery, a: Assets.OpenSeaAssetsQuery,
                                                           b: Bundles.OpenSeaAssetBundleQuery, v: seq<string>, env: Env,
                                                           decodeT: seq<byte> -> Result<T, string>)
    ensures env.join(c.basePath, ORDERS_PATH).Success? ==>
      GetOrders(c, Orders.Set(o, Orders.TokenIds(v)), env, decodeT) == Failure(Underlying(QuerySerialize))
    ensures env.join(c.basePath, ASSETS_PATH).Success? ==>
      GetAssets(c, Assets.Set(a, Assets.TokenIds(v)), env, decodeT) == Failure(Underlying(QuerySerialize))
      && GetAssets(c, Assets.Set(a, Assets.AssetContractAddresses(v)), env, decodeT) == Failure(Underlying(QuerySerialize))
    ensures env.join(c.basePath, BUNDLES_PATH).Success? ==>
      GetBundles(c, Bundles.Set(b, Bundles.TokenIds(v)), env, decodeT) == Failure(Underlying(QuerySerialize))
  {
    Orders.SerialisesAfterSet(o, Orders.TokenIds(v), v);
    Assets.SerialisesAfterSet(a, Assets.TokenIds(v), v);
    Bundles.SerialisesAfterSet(b, Bundles.TokenIds(v), v);
  }

  // Single objects: a path built from the arguments, and an optional reply.

  const ASSET_PREFIX: string := "api/v1/asset/"
  const BUNDLE_PREFIX: string := "api/v1/bundle/"

  /** The path `get_asset` requests: the address as given and the token id in decimal, a
      missing id written as 0, with a trailing slash. */
  function AssetPath(q: AssetQuery.OpenSeaAssetQuery): string {
    ASSET_PREFIX + q.tokenAddress + "/" + NatToDecimal(q.tokenId.GetOr(0)) + "/"
  }

  /** The path `get_bundle` requests: the slug as given, with a trailing slash. */
  function BundlePath(slug: string): string {
    BUNDLE_PREFIX + slug + "/"
  }

  predicate IsJsonWhitespace(b: byte) {
    b == 0x20 || b == 0x09 || b == 0x0A || b == 0x0D
  }

  function TrimStart(bs: seq<byte>): (r: seq<byte>)
    ensures |r| <= |bs|
    ensures r != [] ==> !IsJsonWhitespace(r[0])
    decreases |bs|
  {
    if bs != [] && IsJsonWhitespace(bs[0]) then TrimStart(bs[1..]) else bs
  }

  function TrimEnd(bs: seq<byte>): (r: seq<byte>)
    ensures |r| <= |bs| && r == bs[..|r|]
    ensures r != [] ==> !IsJsonWhitespace(r[|r| - 1])
    decreases |bs|
  {
    if bs != [] && IsJsonWhitespace(bs[|bs| - 1]) then TrimEnd(bs[..|bs| - 1]) else bs
  }

  const NULL: seq<byte> := [0x6E, 0x75, 0x6C, 0x6C]

  /** A body that is the JSON literal `null`, with optional whitespace around it. */
  predicate IsJsonNull(bs: seq<byte>) {
    TrimEnd(TrimStart(bs)) == NULL
  }

  /** A reply that is a 2xx response whose body is `null`. */
  predicate AnswersNull(sent: Result<Response, string>) {
    sent.Success? && IsSuccess(sent.value.status) && sent.value.body.Success? && IsJsonNull(sent.value.body.value)
  }

  /** Reading a body as an optional value: `null` is a successful `None`; anything else is
      read as the value itself. */
  function DecodeOptional<T>(decodeT: seq<byte> -> Result<T, string>, bs: seq<byte>): (r: Result<Option<T>, string>)
    ensures IsJsonNull(bs) ==> r == Success(None)
    ensures r.Success? && r.value.Some? ==> decodeT(bs) == Success(r.value.value)
    ensures !IsJsonNull(bs) && decodeT(bs).Success? ==> r == Success(Some(decodeT(bs).value))
    ensures !IsJsonNull(bs) && decodeT(bs).Failure? ==> r == Failure(decodeT(bs).error)
  {
    if IsJsonNull(bs) then Success(None)
    else match decodeT(bs)
      case Success(v) => Success(Some(v))
      case Failure(msg) => Failure(msg)
  }

  /** `get_asset`: the asset path, no query, and an optional reply: a 2xx `null` body is a
      successful `None`, and a found asset is the decoder's reading of the body. */
  function GetAsset<T>(c: ApiClient, q: AssetQuery.OpenSeaAssetQuery, env: Env, decodeT: seq<byte> -> Result<T, string>)
    : (r: Result<Option<T>, Error>)
    ensures ListedFrom(r, c, AssetPath(q), [], env, bs => DecodeOptional(decodeT, bs))
    ensures env.join(c.basePath, AssetPath(q)).Success? && AnswersNull(Reply(c, AssetPath(q), [], env)) ==> r == Success(None)
    ensures r.Success? && r.value.Some? ==>
      Answers(Reply(c, AssetPath(q), [], env), decodeT) && r.value.value == Answer(Reply(c, AssetPath(q), [], env), decodeT)
  {
    Get(c, AssetPath(q), [], env, bs => DecodeOptional(decodeT, bs))
  }

  /** `get_bundle`: the bundle path, no query, and an optional reply like `get_asset`'s. */
  function GetBundle<T>(c: ApiClient, slug: string, env: Env, decodeT: seq<byte> -> Result<T, string>)
    : (r: Result<Option<T>, Error>)
    ensures ListedFrom(r, c, BundlePath(slug), [], env, bs => DecodeOptional(decodeT, bs))
    ensures env.join(c.basePath, BundlePath(slug)).Success? && AnswersNull(Reply(c, BundlePath(slug), [], env)) ==> r == Success(None)
    ensures r.Success? && r.value.Some? ==>
      Answers(Reply(c, BundlePath(slug), [], env), decodeT) && r.value.value == Answer(Reply(c, BundlePath(slug), [], env), decodeT)
  {
    Get(c, BundlePath(slug), [], env, bs => DecodeOptional(decodeT, bs))
  }

  // Properties of the paths.

  /** The path starts with the fixed prefix, and an address without `/` is then exactly one
      segment, followed by the id in decimal and an empty last segment. */
  lemma {:induction false} AssetPathSegments(q: AssetQuery.OpenSeaAssetQuery)
    requires Excludes(q.tokenAddress, '/')
    ensures AssetPath(q)[..|ASSET_PREFIX|] == ASSET_PREFIX
    ensures Split(AssetPath(q)[|ASSET_PREFIX|..], '/') == [q.tokenAddress, NatToDecimal(q.tokenId.GetOr(0)), ""]
  {
    var a, d := q.tokenAddress, NatToDecimal(q.tokenId.GetOr(0));
    var tail := a + ['/'] + (d + ['/'] + []);
    assert AssetPath(q) == ASSET_PREFIX + tail;
    assert AssetPath(q)[|ASSET_PREFIX|..] == tail;
    assert Excludes(d, '/');
    SplitFree(d, '/', []);
    SplitFree(a, '/', d + ['/'] + []);
  }

  /** A missing token id requests the same path as token id 0. */
  lemma {:induction false} AssetPathMissingIdIsZero(tokenAddress: string)
    ensures AssetPath(AssetQuery.New(tokenAddress)) == AssetPath(AssetQuery.WithTokenId(tokenAddress, 0))
    ensures AssetPath(AssetQuery.New(tokenAddress)) == ASSET_PREFIX + tokenAddress + "/0/"
  {
  }

  /** The address is inserted as it is, not encoded: one holding a `/` spills into a further
      path segment. */
  lemma {:induction false} AssetPathIsRaw()
    ensures Split(AssetPath(AssetQuery.New("a/b"))[|ASSET_PREFIX|..], '/') == ["a", "b", "0", ""]
  {
    var tail := "a" + ['/'] + ("b" + ['/'] + ("0" + ['/'] + []));
    assert AssetPath(AssetQuery.New("a/b")) == ASSET_PREFIX + tail;
    assert AssetPath(AssetQuery.New("a/b"))[|ASSET_PREFIX|..] == tail;
    SplitFree("0", '/', []);
    SplitFree("b", '/', "0" + ['/'] + []);
    SplitFree("a", '/', "b" + ['/'] + ("0" + ['/'] + []));
  }

  /** The path starts with the fixed prefix, and a slug without `/` is then exactly one
      segment, followed by the trailing slash. */
  lemma {:induction false} BundlePathSegments(slug: string)
    requires Excludes(slug, '/')
    ensures BundlePath(slug)[..|BUNDLE_PREFIX|] == BUNDLE_PREFIX
    ensures Split(BundlePath(slug)[|BUNDLE_PREFIX|..], '/') == [slug, ""]
  {
    var tail := slug + ['/'] + [];
    assert BundlePath(slug) == BUNDLE_PREFIX + tail;
    assert BundlePath(slug)[|BUNDLE_PREFIX|..] == tail;
    SplitFree(slug, '/', []);
  }

  /** `null` reads as null with JSON whitespace around it, and nothing shorter does. */
  lemma {:induction false} PaddedNullIsNull()
    ensures IsJsonNull([0x20] + NULL + [0x0A])
    ensures !IsJsonNull([0x6E, 0x75, 0x6C])
  {
    assert TrimStart([0x20] + NULL + [0x0A]) == NULL + [0x0A];
  }
}
