/** The Rarible adapters: `urlencode`, the paths the endpoints request, the query pairs each
    appends to its URL one `if let Some` at a time, and the decoding of the reply with
    `RaribleApiError` as the error envelope. */
module RaribleApi {
  import opened Wrappers
  import opened Scalars
  import opened Text
  import opened UrlEncoding
  import opened QueryPairs
  import opened Errors
  import opened Pipeline
  import opened RaribleModels

  /** What a Rarible call needs from outside the model, with the Rarible error envelope. */
  type Env = Environment<RaribleApiError>

  /** `urlencode`: the string's UTF-8 bytes through the form-urlencoded byte serializer. */
  function Urlencode(s: string): string {
    ByteSerialize(Utf8(s))
  }

  /** An encoded argument holds no path separator, query or fragment start, or pair
      delimiter, and decodes back to the argument's bytes. */
  lemma {:induction false} UrlencodeIsOneSegment(s: string)
    ensures Excludes(Urlencode(s), '/')
    ensures forall i :: 0 <= i < |Urlencode(s)| ==> Urlencode(s)[i] !in {'?', '#', '&'}
    ensures PercentDecode(Urlencode(s)) == Utf8(s)
  {
    ByteSerializeHasNoDelimiters(Utf8(s));
    PercentDecodeByteSerialize(Utf8(s));
  }

  // How `to_string` writes each argument type.

  function ToStringI32(n: i32): string {
    IntToDecimal(n)
  }

  function ToStringI64(n: i64): string {
    IntToDecimal(n)
  }

  function ToStringU64(n: u64): string {
    NatToDecimal(n)
  }

  function ToStringBool(b: bool): string {
    BoolToString(b)
  }

  // The reply.

  /** `request_json_rarible`: `request_json` with the Rarible envelope. A success is the
      success type's reading of a 2xx body; an API error is never an OpenSea one, and a
      Rarible one is exactly the envelope the body held. */
  function RequestJsonRarible<T>(sent: Result<Response, string>, decodeT: seq<byte> -> Result<T, string>,
                                 decodeE: seq<byte> -> Option<RaribleApiError>)
    : (r: Result<T, Error>)
    ensures r.Success? <==> Answers(sent, decodeT)
    ensures r.Success? ==> r.value == Answer(sent, decodeT)
    ensures r.Failure? && r.error.Api? ==> !r.error.api.OpenSeaApiError?
    ensures r.Failure? && r.error.Api? && r.error.api.RaribleServerError? ==>
      sent.Success? && sent.value.body.Success? && decodeE(sent.value.body.value) == Some(r.error.api.rarible)
  {
    RequestJson(sent, decodeT, decodeE, FromRarible)
  }

  /** The value of an endpoint is the success type's reading of the reply to the GET of that
      endpoint's path with the given query pairs, and nothing else. */
  ghost predicate ListedFrom<T>(r: Result<T, Error>, c: ApiClient, path: string, query: seq<Pair>, env: Env,
                                decodeT: seq<byte> -> Result<T, string>) {
    && (env.join(c.basePath, path).Failure? ==> r == Failure(Underlying(env.join(c.basePath, path).error)))
    && (r.Success? <==> env.join(c.basePath, path).Success? && Answers(Reply(c, path, query, env), decodeT))
    && (r.Success? ==> r.value == Answer(Reply(c, path, query, env), decodeT))
    && (r.Failure? && r.error.Api? ==> !r.error.api.OpenSeaApiError?)
  }

  /** A GET whose query is fixed before it is sent: a path that does not join fails before
      anything is sent; otherwise the reply decides, through `request_json_rarible`. */
  function Get<T>(c: ApiClient, path: string, query: seq<Pair>, env: Env, decodeT: seq<byte> -> Result<T, string>)
    : (r: Result<T, Error>)
    ensures ListedFrom(r, c, path, query, env, decodeT)
  {
    match JoinUrl(c, path, env.join)
    case Failure(e) => Failure(e)
    case Success(url) => RequestJsonRarible(env.send(GetRequest(url, query)), decodeT, env.decodeE)
  }

  /** `post_json_rarible`: `post_json` with the Rarible envelope. A success is the success
      type's reading of a 2xx reply to the POST; an API error is never an OpenSea one. */
  function PostJsonRarible<T, B>(url: Url, body: Option<B>, send: Request<B> -> Result<Response, string>,
                                 decodeT: seq<byte> -> Result<T, string>, decodeE: seq<byte> -> Option<RaribleApiError>)
    : (r: Result<T, Error>)
    ensures r.Success? <==> Answers(send(PostRequest(url, body)), decodeT)
    ensures r.Success? ==> r.value == Answer(send(PostRequest(url, body)), decodeT)
    ensures r.Failure? && r.error.Api? ==> !r.error.api.OpenSeaApiError?
  {
    PostJson(url, body, send, decodeT, decodeE, FromRarible)
  }

  // Endpoints with a fixed query or none.

  const CURRENCY_RATE_PATH: string := "protocol/v0.1/ethereum/currency/rate"

  /** `get_currency_rate`: the three pairs blockchain, address and at, always, in that order. */
  function GetCurrencyRate<T>(c: ApiClient, blockchain: string, address: string, at: u64, env: Env,
                              decodeT: seq<byte> -> Result<T, string>)
    : (r: Result<T, Error>)
    ensures ListedFrom(r, c, CURRENCY_RATE_PATH, [("blockchain", blockchain), ("address", address), ("at", NatToDecimal(at))],
                       env, decodeT)
  {
    Get(c, CURRENCY_RATE_PATH, [("blockchain", blockchain), ("address", address), ("at", ToStringU64(at))], env, decodeT)
  }

  const ERC20_BALANCES_PREFIX: string := "protocol/v0.1/ethereum/erc20/balances/"
  const ERC20_TOKENS_PREFIX: string := "protocol/v0.1/ethereum/erc20/tokens/"
  const NFT_ITEMS_PREFIX: string := "protocol/v0.1/ethereum/nft/items/"

  function Erc20BalancePath(contract: string, owner: string): string {
    ERC20_BALANCES_PREFIX + Urlencode(contract) + "/" + Urlencode(owner)
  }

  function Erc20TokenPath(contract: string): string {
    ERC20_TOKENS_PREFIX + Urlencode(contract)
  }

  function NftItemPath(itemId: string): string {
    NFT_ITEMS_PREFIX + Urlencode(itemId)
  }

  /** `get_erc20_balance`: the balance path of the encoded contract and owner, no query. */
  function GetErc20Balance<T>(c: ApiClient, contract: string, owner: string, env: Env,
                              decodeT: seq<byte> -> Result<T, string>)
    : (r: Result<T, Error>)
    ensures ListedFrom(r, c, Erc20BalancePath(contract, owner), [], env, decodeT)
  {
    Get(c, Erc20BalancePath(contract, owner), [], env, decodeT)
  }

  /** `get_erc20_token_by_id`: the token path of the encoded contract, no query. */
  function GetErc20TokenById<T>(c: ApiClient, contract: string, env: Env, decodeT: seq<byte> -> Result<T, string>)
    : (r: Result<T, Error>)
    ensures ListedFrom(r, c, Erc20TokenPath(contract), [], env, decodeT)
  {
    Get(c, Erc20TokenPath(contract), [], env, decodeT)
  }

  /** Whatever the contract and owner hold, the balance path is the prefix followed by
      exactly two segments, the encoded contract and the encoded owner. */
  lemma {:induction false} Erc20BalancePathSegments(contract: string, owner: string)
    ensures Erc20BalancePath(contract, owner)[..|ERC20_BALANCES_PREFIX|] == ERC20_BALANCES_PREFIX
    ensures Split(Erc20BalancePath(contract, owner)[|ERC20_BALANCES_PREFIX|..], '/') == [Urlencode(contract), Urlencode(owner)]
  {
    var a, b := Urlencode(contract), Urlencode(owner);
    assert Excludes(a, '/') by { UrlencodeIsOneSegment(contract); }
    assert Excludes(b, '/') by { UrlencodeIsOneSegment(owner); }
    var tail := a + ['/'] + b;
    assert Erc20BalancePath(contract, owner) == ERC20_BALANCES_PREFIX + tail;
    assert Erc20BalancePath(contract, owner)[|ERC20_BALANCES_PREFIX|..] == tail;
    SplitFree(a, '/', b);
    SplitFree(b, '/', "");
  }

  /** Whatever the id holds, the item path is the prefix followed by one segment. */
  lemma {:induction false} NftItemPathSegments(itemId: string)
    ensures NftItemPath(itemId)[..|NFT_ITEMS_PREFIX|] == NFT_ITEMS_PREFIX
    ensures Split(NftItemPath(itemId)[|NFT_ITEMS_PREFIX|..], '/') == [Urlencode(itemId)]
  {
    UrlencodeIsOneSegment(itemId);
    assert NftItemPath(itemId)[|NFT_ITEMS_PREFIX|..] == Urlencode(itemId);
    SplitFree(Urlencode(itemId), '/', "");
  }

  /** `.` is unreserved, so the empty string and the dot segments `.` and `..` pass through
      `urlencode` unchanged. The segment properties above are about the relative path, before
      it is joined: `Url::join` then resolves such a segment away, and the item path of ".."
      names the parent collection rather than an item. */
  lemma {:induction false} UrlencodeKeepsDotSegments()
    ensures Urlencode("") == "" && Urlencode(".") == "." && Urlencode("..") == ".."
    ensures NftItemPath("..") == NFT_ITEMS_PREFIX + ".."
    ensures Erc20BalancePath(".", "..") == ERC20_BALANCES_PREFIX + "./.."
  {
    var dot: string := ".";
    assert Utf8(dot) == [0x2E] by {
      assert dot[1..] == [];
    }
    var dots: string := "..";
    assert Utf8(dots) == [0x2E, 0x2E] by {
      assert dots[1..] == dot;
    }
    var b: seq<byte> := [0x2E];
    var bb: seq<byte> := [0x2E, 0x2E];
    assert ByteSerialize(b) == "." by {
      assert b[1..] == [];
    }
    assert ByteSerialize(bb) == ".." by {
      assert bb[1..] == b;
    }
  }

  // Endpoints that append pairs to their URL. Each has a field table (the pairs it may
  // append, in order), a method that appends them one `append_pair` at a time and is proved
  // to give the table's present pairs, and the endpoint, which joins its path first, then
  // builds the query and sends it.

  /** `append_pair(key, value)`: the pair is added at the end. `fs` is the ghost record of
      the fields appended so far. */
  method AppendRequired(query: seq<Pair>, ghost fs: seq<Field>, key: string, value: string)
    returns (q: seq<Pair>, ghost fs': seq<Field>)
    requires query == Present(fs)
    ensures fs' == fs + [Required(key, value)]
    ensures q == Present(fs') && q == query + [(key, value)]
  {
    fs' := fs + [Required(key, value)];
    PresentAppend(fs, [Required(key, value)]);
    q := query + [(key, value)];
  }

  /** `if let Some(v) = o { append_pair(key, render(v)) }`: the pair is added at the end when
      the argument is given, and nothing is added otherwise. */
  method AppendOptional<X>(query: seq<Pair>, ghost fs: seq<Field>, key: string, o: Option<X>, render: X -> string)
    returns (q: seq<Pair>, ghost fs': seq<Field>)
    requires query == Present(fs)
    ensures fs' == fs + [Optional(key, o, render)]
    ensures q == Present(fs')
    ensures o.None? ==> q == query
    ensures o.Some? ==> q == query + [(key, render(o.value))]
  {
    fs' := fs + [Optional(key, o, render)];
    PresentAppend(fs, [Optional(key, o, render)]);
    if o.Some? {
      q := query + [(key, render(o.value))];
    } else {
      q := query;
    }
  }

  /** The pair a list argument becomes: its elements joined with commas. */
  function ListValue(items: seq<string>): (v: string)
    ensures items == [] ==> v == ""
    ensures |items| == 1 ==> v == items[0]
  {
    Join(items, ",")
  }

  /** The status value of `get_bids_by_item`: the statuses' `to_string` joined with commas. */
  function StatusValue(status: seq<OrderBidStatus>): string {
    ListValue(seq(|status|, i requires 0 <= i < |status| => OrderBidStatusToString(status[i])))
  }

  /** A non-empty status list can be read back: splitting the value at commas and decoding
      each piece gives the statuses again, in order. */
  lemma {:induction false} StatusValueDecodes(status: seq<OrderBidStatus>)
    requires |status| > 0
    ensures |Split(StatusValue(status), ',')| == |status|
    ensures forall i :: 0 <= i < |status| ==> OrderBidStatusFromName(Split(StatusValue(status), ',')[i]) == Some(status[i])
  {
    var names := seq(|status|, i requires 0 <= i < |status| => OrderBidStatusToString(status[i]));
    forall k | 0 <= k < |names| ensures Excludes(names[k], ',') {
    }
    SplitJoin(names, ',');
    forall i | 0 <= i < |status| ensures OrderBidStatusFromName(Split(StatusValue(status), ',')[i]) == Some(status[i]) {
      assert Split(StatusValue(status), ',')[i] == OrderBidStatusName(status[i]);
    }
  }


  const NFT_COLLECTIONS_BY_OWNER_PATH: string := "protocol/v0.1/ethereum/nft/collections/byOwner"

  function CollectionsByOwnerFields(owner: string, continuation: Option<string>, size: Option<i32>): seq<Field> {
    [Required("owner", owner), Optional("continuation", continuation, Id), Optional("size", size, ToStringI32)]
  }

  /** The pairs of `search_nft_collections_by_owner`: owner always, then continuation and
      size when given. */
  method CollectionsByOwnerQuery(owner: string, continuation: Option<string>, size: Option<i32>)
    returns (query: seq<Pair>)
    ensures query == Present(CollectionsByOwnerFields(owner, continuation, size))
  {
    ghost var fs: seq<Field> := [];
    query := [];
    query, fs := AppendRequired(query, fs, "owner", owner);
    query, fs := AppendOptional(query, fs, "continuation", continuation, Id);
    query, fs := AppendOptional(query, fs, "size", size, ToStringI32);
    assert fs == CollectionsByOwnerFields(owner, continuation, size);
  }

  /** `search_nft_collections_by_owner`. */
  method SearchNftCollectionsByOwner<T>(c: ApiClient, owner: string, continuation: Option<string>, size: Option<i32>,
                                        env: Env, decodeT: seq<byte> -> Result<T, string>)
    returns (r: Result<T, Error>)
    ensures ListedFrom(r, c, NFT_COLLECTIONS_BY_OWNER_PATH, Present(CollectionsByOwnerFields(owner, continuation, size)),
                       env, decodeT)
  {
    var joined := JoinUrl(c, NFT_COLLECTIONS_BY_OWNER_PATH, env.join);
    if joined.Failure? {
      return Failure(joined.error);
    }
    var query := CollectionsByOwnerQuery(owner, continuation, size);
    r := RequestJsonRarible(env.send(GetRequest(joined.value, query)), decodeT, env.decodeE);
    assert r == Get(c, NFT_COLLECTIONS_BY_OWNER_PATH, query, env, decodeT);
  }

  /** The required owner comes first; a missing continuation sends no such key. */
  lemma {:induction false} CollectionsByOwnerQueryShape(owner: string, continuation: Option<string>, size: Option<i32>)
    ensures |Present(CollectionsByOwnerFields(owner, continuation, size))| >= 1
    ensures Present(CollectionsByOwnerFields(owner, continuation, size))[0] == ("owner", owner)
    ensures Lookup(Present(CollectionsByOwnerFields(owner, continuation, size)), "continuation") == continuation
  {
    var fs := CollectionsByOwnerFields(owner, continuation, size);
    PresentRequiredPrefix(fs, 1);
    LookupField(fs, 1);
  }

  const NFT_ALL_ITEMS_PATH: string := "protocol/v0.1/ethereum/nft/items/all"

  function NftAllItemsFields(continuation: Option<string>, size: Option<i32>, showDeleted: Option<bool>,
                             lastUpdatedFrom: Option<i64>, lastUpdatedTo: Option<i64>, includeMeta: Option<bool>)
    : seq<Field>
  {
    [Optional("continuation", continuation, Id), Optional("size", size, ToStringI32),
     Optional("showDeleted", showDeleted, ToStringBool), Optional("lastUpdatedFrom", lastUpdatedFrom, ToStringI64),
     Optional("lastUpdatedTo", lastUpdatedTo, ToStringI64), Optional("includeMeta", includeMeta, ToStringBool)]
  }

  /** The pairs of `get_nft_all_items`: each of the six optional arguments adds its pair when
      given. */
  method NftAllItemsQuery(continuation: Option<string>, size: Option<i32>, showDeleted: Option<bool>,
                          lastUpdatedFrom: Option<i64>, lastUpdatedTo: Option<i64>, includeMeta: Option<bool>)
    returns (query: seq<Pair>)
    ensures query == Present(NftAllItemsFields(continuation, size, showDeleted, lastUpdatedFrom, lastUpdatedTo, includeMeta))
  {
    ghost var fs: seq<Field> := [];
    query := [];
    query, fs := AppendOptional(query, fs, "continuation", continuation, Id);
    query, fs := AppendOptional(query, fs, "size", size, ToStringI32);
    query, fs := AppendOptional(query, fs, "showDeleted", showDeleted, ToStringBool);
    query, fs := AppendOptional(query, fs, "lastUpdatedFrom", lastUpdatedFrom, ToStringI64);
    query, fs := AppendOptional(query, fs, "lastUpdatedTo", lastUpdatedTo, ToStringI64);
    query, fs := AppendOptional(query, fs, "includeMeta", includeMeta, ToStringBool);
    assert fs == NftAllItemsFields(continuation, size, showDeleted, lastUpdatedFrom, lastUpdatedTo, includeMeta);
  }

  /** `get_nft_all_items`. */
  method GetNftAllItems<T>(c: ApiClient, continuation: Option<string>, size: Option<i32>, showDeleted: Option<bool>,
                           lastUpdatedFrom: Option<i64>, lastUpdatedTo: Option<i64>, includeMeta: Option<bool>,
                           env: Env, decodeT: seq<byte> -> Result<T, string>)
    returns (r: Result<T, Error>)
    ensures ListedFrom(r, c, NFT_ALL_ITEMS_PATH,
                       Present(NftAllItemsFields(continuation, size, showDeleted, lastUpdatedFrom, lastUpdatedTo, includeMeta)),
                       env, decodeT)
  {
    var joined := JoinUrl(c, NFT_ALL_ITEMS_PATH, env.join);
    if joined.Failure? {
      return Failure(joined.error);
    }
    var query := NftAllItemsQuery(continuation, size, showDeleted, lastUpdatedFrom, lastUpdatedTo, includeMeta);
    r := RequestJsonRarible(env.send(GetRequest(joined.value, query)), decodeT, env.decodeE);
    assert r == Get(c, NFT_ALL_ITEMS_PATH, query, env, decodeT);
  }

  /** The pairs of `get_nft_all_items` come in the fixed key order, and each argument can be
      read back from them under its key. */
  lemma {:induction false} NftAllItemsQueryShape(continuation: Option<string>, size: Option<i32>, showDeleted: Option<bool>,
                                                 lastUpdatedFrom: Option<i64>, lastUpdatedTo: Option<i64>,
                                                 includeMeta: Option<bool>)
    ensures Subsequence(PairKeys(Present(NftAllItemsFields(continuation, size, showDeleted, lastUpdatedFrom, lastUpdatedTo, includeMeta))),
                        ["continuation", "size", "showDeleted", "lastUpdatedFrom", "lastUpdatedTo", "includeMeta"])
    ensures Lookup(Present(NftAllItemsFields(continuation, size, showDeleted, lastUpdatedFrom, lastUpdatedTo, includeMeta)), "size")
            == if size.Some? then Some(IntToDecimal(size.value)) else None
    ensures Lookup(Present(NftAllItemsFields(continuation, size, showDeleted, lastUpdatedFrom, lastUpdatedTo, includeMeta)), "showDeleted")
            == if showDeleted.Some? then Some(BoolToString(showDeleted.value)) else None
  {
    var fs := NftAllItemsFields(continuation, size, showDeleted, lastUpdatedFrom, lastUpdatedTo, includeMeta);
    PresentKeysInOrder(fs);
    assert KeysOf(fs) == ["continuation", "size", "showDeleted", "lastUpdatedFrom", "lastUpdatedTo", "includeMeta"];
    LookupField(fs, 1);
    LookupField(fs, 2);
  }

  /** The pairs of `get_nft_item_by_id`: includeMeta when given. */
  method NftItemByIdQuery(includeMeta: Option<bool>) returns (query: seq<Pair>)
    ensures query == Present([Optional("includeMeta", includeMeta, ToStringBool)])
  {
    ghost var fs: seq<Field> := [];
    query := [];
    query, fs := AppendOptional(query, fs, "includeMeta", includeMeta, ToStringBool);
    assert fs == [Optional("includeMeta", includeMeta, ToStringBool)];
  }

  /** `get_nft_item_by_id`: the item path of the encoded id. */
  method GetNftItemById<T>(c: ApiClient, itemId: string, includeMeta: Option<bool>, env: Env,
                           decodeT: seq<byte> -> Result<T, string>)
    returns (r: Result<T, Error>)
    ensures ListedFrom(r, c, NftItemPath(itemId), Present([Optional("includeMeta", includeMeta, ToStringBool)]), env, decodeT)
  {
    var joined := JoinUrl(c, NftItemPath(itemId), env.join);
    if joined.Failure? {
      return Failure(joined.error);
    }
    var query := NftItemByIdQuery(includeMeta);
    r := RequestJsonRarible(env.send(GetRequest(joined.value, query)), decodeT, env.decodeE);
    assert r == Get(c, NftItemPath(itemId), query, env, decodeT);
  }

  const NFT_ORDER_ACTIVITIES_BY_USER_PATH: string := "protocol/v0.1/ethereum/nft-order/activities/byUser"

  function ActivitiesByUserFields(types: seq<string>, users: seq<string>, continuation: Option<string>,
                                  size: Option<i32>)
    : seq<Field>
  {
    [Required("type", ListValue(types)), Required("user", ListValue(users)),
     Optional("continuation", continuation, Id), Optional("size", size, ToStringI32)]
  }

  /** The pairs of `get_nft_order_activities_by_user`: the joined types and users always,
      then continuation and size when given. */
  method ActivitiesByUserQuery(types: seq<string>, users: seq<string>, continuation: Option<string>, size: Option<i32>)
    returns (query: seq<Pair>)
    ensures query == Present(ActivitiesByUserFields(types, users, continuation, size))
  {
    ghost var fs: seq<Field> := [];
    query := [];
    query, fs := AppendRequired(query, fs, "type", Join(types, ","));
    query, fs := AppendRequired(query, fs, "user", Join(users, ","));
    query, fs := AppendOptional(query, fs, "continuation", continuation, Id);
    query, fs := AppendOptional(query, fs, "size", size, ToStringI32);
    assert fs == ActivitiesByUserFields(types, users, continuation, size);
  }

  /** `get_nft_order_activities_by_user`. */
  method GetNftOrderActivitiesByUser<T>(c: ApiClient, types: seq<string>, users: seq<string>,
                                        continuation: Option<string>, size: Option<i32>, env: Env,
                                        decodeT: seq<byte> -> Result<T, string>)
    returns (r: Result<T, Error>)
    ensures ListedFrom(r, c, NFT_ORDER_ACTIVITIES_BY_USER_PATH,
                       Present(ActivitiesByUserFields(types, users, continuation, size)), env, decodeT)
  {
    var joined := JoinUrl(c, NFT_ORDER_ACTIVITIES_BY_USER_PATH, env.join);
    if joined.Failure? {
      return Failure(joined.error);
    }
    var query := ActivitiesByUserQuery(types, users, continuation, size);
    r := RequestJsonRarible(env.send(GetRequest(joined.value, query)), decodeT, env.decodeE);
    assert r == Get(c, NFT_ORDER_ACTIVITIES_BY_USER_PATH, query, env, decodeT);
  }

  /** The list arguments come first, as one pair each; an empty list still sends its key, with
      an empty value. */
  lemma {:induction false} ActivitiesByUserQueryShape(types: seq<string>, users: seq<string>, continuation: Option<string>,
                                                      size: Option<i32>)
    ensures |Present(ActivitiesByUserFields(types, users, continuation, size))| >= 2
    ensures Present(ActivitiesByUserFields(types, users, continuation, size))[0] == ("type", Join(types, ","))
    ensures Present(ActivitiesByUserFields(types, users, continuation, size))[1] == ("user", Join(users, ","))
    ensures users == [] ==> Present(ActivitiesByUserFields(types, users, continuation, size))[1] == ("user", "")
  {
    PresentRequiredPrefix(ActivitiesByUserFields(types, users, continuation, size), 2);
  }

  /** The path `get_nft_order_ownerships_by_item` requests: the activities-by-item path, not an
      ownerships one. */
  const NFT_ORDER_OWNERSHIPS_BY_ITEM_PATH: string := "protocol/v0.1/ethereum/nft-order/activities/byItem"
  const NFT_ORDER_ACTIVITIES_BY_ITEM_PATH: string := "protocol/v0.1/ethereum/nft-order/activities/byItem"
  const NFT_OWNERSHIPS_BY_ITEM_PATH: string := "protocol/v0.1/ethereum/nft/ownerships/byItem"

  function ItemPageFields(contract: string, tokenId: string, continuation: Option<string>, size: Option<i32>)
    : seq<Field>
  {
    [Required("contract", contract), Required("token_id", tokenId),
     Optional("continuation", continuation, Id), Optional("size", size, ToStringI32)]
  }

  /** The pairs both ownerships-by-item endpoints append: contract and token_id always, then
      continuation and size when given. */
  method ItemPageQuery(contract: string, tokenId: string, continuation: Option<string>, size: Option<i32>)
    returns (query: seq<Pair>)
    ensures query == Present(ItemPageFields(contract, tokenId, continuation, size))
  {
    ghost var fs: seq<Field> := [];
    query := [];
    query, fs := AppendRequired(query, fs, "contract", contract);
    query, fs := AppendRequired(query, fs, "token_id", tokenId);
    query, fs := AppendOptional(query, fs, "continuation", continuation, Id);
    query, fs := AppendOptional(query, fs, "size", size, ToStringI32);
    assert fs == ItemPageFields(contract, tokenId, continuation, size);
  }

  /** `get_nft_order_ownerships_by_item`: the item pairs, sent to the activities-by-item path. */
  method GetNftOrderOwnershipsByItem<T>(c: ApiClient, contract: string, tokenId: string, continuation: Option<string>,
                                        size: Option<i32>, env: Env, decodeT: seq<byte> -> Result<T, string>)
    returns (r: Result<T, Error>)
    ensures ListedFrom(r, c, NFT_ORDER_ACTIVITIES_BY_ITEM_PATH, Present(ItemPageFields(contract, tokenId, continuation, size)),
                       env, decodeT)
  {
    var joined := JoinUrl(c, NFT_ORDER_OWNERSHIPS_BY_ITEM_PATH, env.join);
    if joined.Failure? {
      return Failure(joined.error);
    }
    var query := ItemPageQuery(contract, tokenId, continuation, size);
    r := RequestJsonRarible(env.send(GetRequest(joined.value, query)), decodeT, env.decodeE);
    assert r == Get(c, NFT_ORDER_OWNERSHIPS_BY_ITEM_PATH, query, env, decodeT);
  }

  /** `get_nft_ownerships_by_item`: the item pairs, sent to the ownerships-by-item path. */
  method GetNftOwnershipsByItem<T>(c: ApiClient, contract: string, tokenId: string, continuation: Option<string>,
                                   size: Option<i32>, env: Env, decodeT: seq<byte> -> Result<T, string>)
    returns (r: Result<T, Error>)
    ensures ListedFrom(r, c, NFT_OWNERSHIPS_BY_ITEM_PATH, Present(ItemPageFields(contract, tokenId, continuation, size)),
                       env, decodeT)
  {
    var joined := JoinUrl(c, NFT_OWNERSHIPS_BY_ITEM_PATH, env.join);
    if joined.Failure? {
      return Failure(joined.error);
    }
    var query := ItemPageQuery(contract, tokenId, continuation, size);
    r := RequestJsonRarible(env.send(GetRequest(joined.value, query)), decodeT, env.decodeE);
    assert r == Get(c, NFT_OWNERSHIPS_BY_ITEM_PATH, query, env, decodeT);
  }

  /** The nft-order ownerships endpoint asks for the same path as the nft-order activities
      endpoint, and not for an ownerships path like its nft counterpart. */
  lemma {:induction false} OrderOwnershipsPathIsActivities()
    ensures NFT_ORDER_OWNERSHIPS_BY_ITEM_PATH == NFT_ORDER_ACTIVITIES_BY_ITEM_PATH
    ensures NFT_ORDER_OWNERSHIPS_BY_ITEM_PATH != "protocol/v0.1/ethereum/nft-order/ownerships/byItem"
  {
    assert NFT_ORDER_OWNERSHIPS_BY_ITEM_PATH[33] == 'a';
  }

  const AGGREGATE_PURCHASE_BY_COLLECTION_PATH: string := "protocol/v0.1/ethereum/order/aggregations/nftPurchaseByCollection"
  const AGGREGATE_PURCHASE_BY_TAKER_PATH: string := "protocol/v0.1/ethereum/order/aggregations/nftPurchaseByTaker"
  const AGGREGATE_SELL_BY_MAKER_PATH: string := "protocol/v0.1/ethereum/order/aggregations/nftSellByMaker"

  function AggregationFields(startDate: i64, endDate: i64, size: Option<i64>, source: Option<AggregationSource>)
    : seq<Field>
  {
    [Required("startDate", ToStringI64(startDate)), Required("endDate", ToStringI64(endDate)),
     Optional("size", size, ToStringI64), Optional("source", source, AggregationSourceDisplay)]
  }

  /** The pairs the three aggregation endpoints append: startDate and endDate always, then
      size and source when given. */
  method AggregationQuery(startDate: i64, endDate: i64, size: Option<i64>, source: Option<AggregationSource>)
    returns (query: seq<Pair>)
    ensures query == Present(AggregationFields(startDate, endDate, size, source))
  {
    ghost var fs: seq<Field> := [];
    query := [];
    query, fs := AppendRequired(query, fs, "startDate", ToStringI64(startDate));
    query, fs := AppendRequired(query, fs, "endDate", ToStringI64(endDate));
    query, fs := AppendOptional(query, fs, "size", size, ToStringI64);
    query, fs := AppendOptional(query, fs, "source", source, AggregationSourceDisplay);
    assert fs == AggregationFields(startDate, endDate, size, source);
  }

  /** `aggregate_nft_purchase_buy_collection`. */
  method AggregateNftPurchaseBuyCollection<T>(c: ApiClient, startDate: i64, endDate: i64, size: Option<i64>,
                                              source: Option<AggregationSource>, env: Env,
                                              decodeT: seq<byte> -> Result<T, string>)
    returns (r: Result<T, Error>)
    ensures ListedFrom(r, c, AGGREGATE_PURCHASE_BY_COLLECTION_PATH, Present(AggregationFields(startDate, endDate, size, source)),
                       env, decodeT)
  {
    var joined := JoinUrl(c, AGGREGATE_PURCHASE_BY_COLLECTION_PATH, env.join);
    if joined.Failure? {
      return Failure(joined.error);
    }
    var query := AggregationQuery(startDate, endDate, size, source);
    r := RequestJsonRarible(env.send(GetRequest(joined.value, query)), decodeT, env.decodeE);
    assert r == Get(c, AGGREGATE_PURCHASE_BY_COLLECTION_PATH, query, env, decodeT);
  }

  /** `aggregate_nft_purchase_by_taker`. */
  method AggregateNftPurchaseByTaker<T>(c: ApiClient, startDate: i64, endDate: i64, size: Option<i64>,
                                        source: Option<AggregationSource>, env: Env,
                                        decodeT: seq<byte> -> Result<T, string>)
    returns (r: Result<T, Error>)
    ensures ListedFrom(r, c, AGGREGATE_PURCHASE_BY_TAKER_PATH, Present(AggregationFields(startDate, endDate, size, source)),
                       env, decodeT)
  {
    var joined := JoinUrl(c, AGGREGATE_PURCHASE_BY_TAKER_PATH, env.join);
    if joined.Failure? {
      return Failure(joined.error);
    }
    var query := AggregationQuery(startDate, endDate, size, source);
    r := RequestJsonRarible(env.send(GetRequest(joined.value, query)), decodeT, env.decodeE);
    assert r == Get(c, AGGREGATE_PURCHASE_BY_TAKER_PATH, query, env, decodeT);
  }

  /** `aggregate_nft_sell_by_maker`. */
  method AggregateNftSellByMaker<T>(c: ApiClient, startDate: i64, endDate: i64, size: Option<i64>,
                                    source: Option<AggregationSource>, env: Env,
                                    decodeT: seq<byte> -> Result<T, string>)
    returns (r: Result<T, Error>)
    ensures ListedFrom(r, c, AGGREGATE_SELL_BY_MAKER_PATH, Present(AggregationFields(startDate, endDate, size, source)),
                       env, decodeT)
  {
    var joined := JoinUrl(c, AGGREGATE_SELL_BY_MAKER_PATH, env.join);
    if joined.Failure? {
      return Failure(joined.error);
    }
    var query := AggregationQuery(startDate, endDate, size, source);
    r := RequestJsonRarible(env.send(GetRequest(joined.value, query)), decodeT, env.decodeE);
    assert r == Get(c, AGGREGATE_SELL_BY_MAKER_PATH, query, env, decodeT);
  }

  /** The dates always lead, in decimal; the source, when given, is written with its
      `Display`, which is its serde name. */
  lemma {:induction false} AggregationQueryShape(startDate: i64, endDate: i64, size: Option<i64>,
                                                 source: Option<AggregationSource>)
    ensures |Present(AggregationFields(startDate, endDate, size, source))| >= 2
    ensures Present(AggregationFields(startDate, endDate, size, source))[0] == ("startDate", IntToDecimal(startDate))
    ensures Present(AggregationFields(startDate, endDate, size, source))[1] == ("endDate", IntToDecimal(endDate))
    ensures Lookup(Present(AggregationFields(startDate, endDate, size, source)), "source")
            == if source.Some? then Some(AggregationSourceName(source.value)) else None
  {
    var fs := AggregationFields(startDate, endDate, size, source);
    PresentRequiredPrefix(fs, 2);
    LookupField(fs, 3);
  }

  const BIDS_BY_ITEM_PATH: string := "protocol/v0.1/ethereum/order/bids/byItem"

  function BidsByItemFields(contract: string, tokenId: string, status: seq<OrderBidStatus>, maker: Option<string>,
                            startDate: Option<string>, endDate: Option<string>, continuation: Option<string>,
                            size: Option<i32>)
    : seq<Field>
  {
    [Required("contract", contract), Required("token_id", tokenId), Required("status", StatusValue(status)),
     Optional("maker", maker, Id), Optional("startDate", startDate, Id), Optional("endDate", endDate, Id),
     Optional("continuation", continuation, Id), Optional("size", size, ToStringI32)]
  }

  /** The pairs of `get_bids_by_item`: contract, token_id and the joined statuses always, then
      maker, startDate, endDate, continuation and size when given. */
  method BidsByItemQuery(contract: string, tokenId: string, status: seq<OrderBidStatus>, maker: Option<string>,
                         startDate: Option<string>, endDate: Option<string>, continuation: Option<string>,
                         size: Option<i32>)
    returns (query: seq<Pair>)
    ensures query == Present(BidsByItemFields(contract, tokenId, status, maker, startDate, endDate, continuation, size))
  {
    ghost var fs: seq<Field> := [];
    query := [];
    query, fs := AppendRequired(query, fs, "contract", contract);
    query, fs := AppendRequired(query, fs, "token_id", tokenId);
    var names := seq(|status|, i requires 0 <= i < |status| => OrderBidStatusToString(status[i]));
    query, fs := AppendRequired(query, fs, "status", Join(names, ","));
    query, fs := AppendOptional(query, fs, "maker", maker, Id);
    query, fs := AppendOptional(query, fs, "startDate", startDate, Id);
    query, fs := AppendOptional(query, fs, "endDate", endDate, Id);
    query, fs := AppendOptional(query, fs, "continuation", continuation, Id);
    query, fs := AppendOptional(query, fs, "size", size, ToStringI32);
    assert fs == BidsByItemFields(contract, tokenId, status, maker, startDate, endDate, continuation, size);
  }

  /** `get_bids_by_item`. */
  method GetBidsByItem<T>(c: ApiClient, contract: string, tokenId: string, status: seq<OrderBidStatus>,
                          maker: Option<string>, startDate: Option<string>, endDate: Option<string>,
                          continuation: Option<string>, size: Option<i32>, env: Env,
                          decodeT: seq<byte> -> Result<T, string>)
    returns (r: Result<T, Error>)
    ensures ListedFrom(r, c, BIDS_BY_ITEM_PATH,
                       Present(BidsByItemFields(contract, tokenId, status, maker, startDate, endDate, continuation, size)),
                       env, decodeT)
  {
    var joined := JoinUrl(c, BIDS_BY_ITEM_PATH, env.join);
    if joined.Failure? {
      return Failure(joined.error);
    }
    var query := BidsByItemQuery(contract, tokenId, status, maker, startDate, endDate, continuation, size);
    r := RequestJsonRarible(env.send(GetRequest(joined.value, query)), decodeT, env.decodeE);
    assert r == Get(c, BIDS_BY_ITEM_PATH, query, env, decodeT);
  }

  /** The three required pairs lead, in order, and a missing maker sends no maker key. */
  lemma {:induction false} BidsByItemQueryShape(contract: string, tokenId: string, status: seq<OrderBidStatus>,
                                                maker: Option<string>, startDate: Option<string>, endDate: Option<string>,
                                                continuation: Option<string>, size: Option<i32>)
    ensures |Present(BidsByItemFields(contract, tokenId, status, maker, startDate, endDate, continuation, size))| >= 3
    ensures Present(BidsByItemFields(contract, tokenId, status, maker, startDate, endDate, continuation, size))[..3]
            == [("contract", contract), ("token_id", tokenId), ("status", StatusValue(status))]
    ensures Lookup(Present(BidsByItemFields(contract, tokenId, status, maker, startDate, endDate, continuation, size)), "maker")
            == maker
  {
    var fs := BidsByItemFields(contract, tokenId, status, maker, startDate, endDate, continuation, size);
    PresentRequiredPrefix(fs, 3);
    LookupField(fs, 3);
  }
}
