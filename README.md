# nftscape, modelled in Dafny

nftscape is a typed HTTP client for two NFT marketplace APIs, OpenSea and Rarible. This project models the logic the client applies around each request and proves properties of that model:

- **Response classification** (`Pipeline`). `request` decides success from the HTTP status. For a failed status it reads the provider's error envelope and otherwise falls back on the status. `request_json` tries the success type first, then the envelope, then surfaces the success type's own decode error. The same module holds the request descriptors that `join_url`, the GET adapters and `post_json` hand to the transport.
- **Error taxonomy** (`Errors`): the four-variant `ApiError`, the OpenSea and Rarible envelopes, their `From` conversions and every `Display` text. The model assumes the crate's `rarible` feature is enabled: without it, `ApiError` has no `RaribleServerError` variant and the Rarible envelope does not exist.
- **The client builder** (`ClientBuilder`, with `Base64` and `Text`). `ApiClientBuilder` is a class whose methods update its staged fields. `ApiClientBuilder.BasicAuth` and `BasicAuthValue` model a corrected `basic_auth`, which takes string credentials and writes `Authorization: Basic <Base64>` as section 2 of RFC 7617 defines it, with the Base64 of section 4 of RFC 4648. The `basic_auth` of the source renders each credential as a decimal byte number instead; see Findings below. `build` finalises the `User-Agent` and `Accept` headers and either builds a transport or uses an injected one as it is.
- **The OpenSea query records**: one module per record (`OrderQueryRecord`, `AssetsQueryRecord`, `BundleQueryRecord`, `CollectionQueryRecord`, `EventsQueryRecord`, `FungibleTokenQueryRecord`, `AssetQueryRecord`), each with:
  - its setters and its `Default`;
  - its serialisation to query pairs, with every `None` field skipped (`QueryPairs`, `OpenSeaQuery`).
- **The OpenSea adapters** (`OpenSeaApi`):
  - the base addresses;
  - the relative path of every endpoint and the query record attached to it;
  - the optional reply of `get_asset` and `get_bundle`, where a JSON `null` is a successful `None`.
- **The Rarible adapters** (`RaribleApi`, with `UrlEncoding`):
  - `urlencode`, which is the `application/x-www-form-urlencoded` byte serializer of section 5.2 of the WHATWG URL Standard;
  - the percent-encoded paths;
  - a representative set of endpoints, whose `if let Some` query-pair appends become methods that extend a sequence of pairs one pair at a time.
- **Wire codes** (`OpenSeaModels`, `RaribleModels`):
  - the `repr(u8)` numbers and rename strings of the OpenSea enums;
  - the untagged variant order of `ExchangeMetadata` and `WyvernAsset`;
  - the `Display`/`ToString` maps of the Rarible enums;
  - the tags of the internally tagged `AssetType` and `OrderData`.

The transport, the body read and the two serde decoders are parameters of the model. A reply is `Result<Response, string>`, where a response is a status and the outcome of reading its body. `decodeT` reads a body as the success type, and `decodeE` reads it as the provider's error envelope. URL joining (`Url::join`) and URL parsing (`into_url`) are function parameters, and so are the two `HeaderValue` validity checks and whether the transport builds. The Cargo package name and version are a `Package` parameter.

Each endpoint is proved against `ListedFrom`:
- a path that does not join fails before anything is sent;
- otherwise the result is a success exactly when the reply to the GET of that path, with exactly the stated query pairs, is a 2xx body that the success decoder reads;
- the value is then that reading;
- an API error is never the other provider's envelope.

The three OpenSea list endpoints whose records have list fields (`get_orders`, `get_assets`, `get_bundles`) meet `ListedFrom` only while those fields are `None`. `serde_urlencoded` cannot write a sequence, so once one is set `.query` records the serialiser's error, and `send` returns it before anything is sent.

Every lemma that is proved by induction carries `{:induction false}`.

## Model

| member | source | states |
|---|---|---|
| Errors.FromOpenSea | src/error.rs:37-41 | the OpenSea envelope is wrapped unchanged into the `OpenSeaApiError` variant |
| Errors.FromRarible | src/error.rs:49-53 | the Rarible envelope is wrapped unchanged into the `RaribleServerError` variant |
| Errors.RaribleDisplay | src/error.rs:64-69 | the definition: "status: `", the decimal status, "`, code: `", the code, "`, message: `", the message and a closing backtick; the properties are `RaribleDisplayStatus` and `RaribleDisplayDeterminesStatus` |
| Errors.Display | src/error.rs:19-31 | the definition: the fixed texts of `Unauthorized`, `Other(code)` and the OpenSea variant, and the envelope's own text for the Rarible variant; the properties are `DisplayDefersToRarible`, `DisplayDistinguishes` and `RaribleDisplayIsDistinct` |
| Errors.DisplayDefersToRarible | src/error.rs:28 | the Rarible variant displays exactly as its envelope's own `Display` |
| Errors.RaribleDisplayStatus | src/error.rs:64-69 | the Rarible text starts with "status: `" and the piece up to the next backtick is the signed decimal status |
| Errors.RaribleDisplayDeterminesStatus | src/error.rs:64-69 | two Rarible errors with the same text carry the same status |
| Errors.DisplayDistinguishes | src/error.rs:19-31 | the texts of `Unauthorized`, `Other(code)` and the OpenSea variant tell them apart and determine the code and the flag |
| Errors.RaribleDisplayIsDistinct | src/error.rs:19-31 | no other variant displays like a Rarible error |
| Pipeline.JoinUrl | src/lib.rs:34-36 | the joined URL is the base joined with the path; a join failure is passed on as the error |
| Pipeline.StatusError | src/lib.rs:89-92 | 401 is `Unauthorized`, every other status is `Other` with exactly that code |
| Pipeline.SendRequest | src/lib.rs:76-95 | success exactly for a sent 2xx response, handed back unchanged; a transport failure is passed on; any other failure is a classified API error |
| Pipeline.RequestJson | src/lib.rs:38-55 | success exactly when a 2xx body was read and decodes as the success type, with that value; a decode error surfaces only when the envelope decoder also fails |
| Pipeline.GetRequest | src/opensea/mod.rs:26-30 | a GET of the URL with exactly the given query pairs, no extra header and no body |
| Pipeline.PostRequest | src/lib.rs:65-71 | a POST with `Accept: application/json` and the body only when one is given |
| Pipeline.PostJson | src/lib.rs:58-73 | success exactly when the reply to that POST is a 2xx body that decodes as the success type; an envelope in the body is the API error |
| Pipeline.SuccessSkipsEnvelope | src/lib.rs:80-83 | a 2xx response is returned as it is, whichever envelope decoder is used |
| Pipeline.FailureStatusUsesEnvelope | src/lib.rs:85-88 | a non-2xx response whose body decodes as the envelope yields that envelope's error |
| Pipeline.FailureStatusFallback | src/lib.rs:89-93 | a non-2xx response with no envelope: 401 gives `Unauthorized`, any other status `Other(status)` |
| Pipeline.SuccessTypeFirst | src/lib.rs:44-46 | a body that decodes as the success type returns that value, whatever the envelope decoder says |
| Pipeline.EnvelopeBeatsDecodeError | src/lib.rs:47-49 | a 2xx body that is not a success value but is an envelope yields the envelope's error |
| Pipeline.DecodeErrorSurfaces | src/lib.rs:50-52 | a 2xx body that is neither yields the success type's own decode error |
| Pipeline.FailureStatusSkipsSuccessType | src/lib.rs:82-94 | a non-2xx response fails with `request`'s error, whatever the success decoder would say |
| ClientBuilder.DefaultUserAgent | src/lib.rs:166-174 | the default `User-Agent` is the package name, `/` and the version |
| ClientBuilder.UserAgentValue | src/lib.rs:164-175 | the staged user agent when there is one, else the default |
| ClientBuilder.FinalHeaders | src/lib.rs:163-179 | the finished map has the staged keys plus `User-Agent` and `Accept`; `Accept` is `application/json` and `User-Agent` the staged or default value |
| ClientBuilder.FinalHeadersKeepOthers | src/lib.rs:163-179 | every other staged header survives `build` unchanged |
| ClientBuilder.BasicCredentials | src/lib.rs:140-143 | the credentials are the user-id, a colon, and the password or nothing |
| ClientBuilder.BasicHeader | src/lib.rs:136-144 | the value is `Basic ` followed by a Base64 text that decodes to the credential bytes |
| ClientBuilder.BasicHeaderLength | src/lib.rs:136-144 | the value is 6 bytes plus four per started group of three credential bytes |
| ClientBuilder.BasicHeaderVisible | src/lib.rs:136-146 | every byte of the value is visible ASCII |
| ClientBuilder.BasicAuthValue | src/lib.rs:131-147 | the staged `Authorization` value starts `Basic ` and its Base64 part decodes to the UTF-8 credentials |
| ClientBuilder.BasicCredentialsSplit | src/lib.rs:140-143 | a user-id without a colon is the first piece of the credentials split at colons |
| ClientBuilder.BasicCredentialsAsWritten | src/lib.rs:131-143 | as written, a one-byte user and password are rendered as decimal numbers around the colon |
| ClientBuilder.BasicAuthAsWrittenRendersDecimal | src/lib.rs:133-140 | as written, user byte 97 gives credentials "97:", not "a:", and a different header |
| ClientBuilder.ApiClientBuilder.constructor | src/lib.rs:98-100 | a new builder has nothing staged |
| ClientBuilder.ApiClientBuilder.Headers | src/lib.rs:121-124 | the staged map is replaced; nothing else changes |
| ClientBuilder.ApiClientBuilder.HeadersMut | src/lib.rs:126-128 | an existing map is kept; an empty one is created only when there is none; the map's value is returned, not a borrow (see Left out) |
| ClientBuilder.ApiClientBuilder.BasicAuth | src/lib.rs:131-148 | corrected: string credentials. Succeeds iff the value passes the header check; then `Authorization` is set to the Basic value, replacing an earlier one. Its failure post-state has no counterpart in the source, which drops the builder (see Left out) |
| ClientBuilder.ApiClientBuilder.UserAgent | src/lib.rs:150-153 | the user agent is staged; nothing else changes |
| ClientBuilder.ApiClientBuilder.Client | src/lib.rs:155-158 | the transport is staged; nothing else changes |
| ClientBuilder.ApiClientBuilder.Build | src/lib.rs:160-192 | a bad base address or an unparsable staged user agent fails the build; otherwise an injected transport is used as it is, else one with the finished headers; the base is the parsed address |
| Text.NatToDecimal | src/error.rs:23 | digits only, no leading zero, one digit exactly below 10 |
| Text.DigitsValueOfDecimal | src/error.rs:23 | reading the digits back gives the number |
| Text.IntToDecimal | src/error.rs:66 | a leading `-` exactly for a negative number, digits otherwise |
| Text.IntToDecimalInjective | src/error.rs:66 | distinct numbers render differently |
| Text.BoolToString | src/error.rs:25 | "true" exactly for true, "false" otherwise |
| Text.SplitJoin | src/rarible/mod.rs:330-332 | parts without the separator are recovered by splitting their join |
| Text.AsciiBytesAreUtf8 | src/lib.rs:136 | an ASCII literal's bytes are its UTF-8 encoding |
| Base64.Encode | src/lib.rs:136-143 | the definition: the standard-alphabet Base64 of section 4 of RFC 4648, with `=` padding; the properties are the four rows below, `DecodeEncode` giving its inverse |
| Base64.EncodeLength | src/lib.rs:138-139 | four characters for every started group of three bytes |
| Base64.EncodeAlphabet | src/lib.rs:138-139 | only alphabet characters and padding, padding only in the last two places and only at the end |
| Base64.DecodeEncode | src/lib.rs:138-139 | decoding an encoding gives back the bytes |
| Base64.EncodeInjective | src/lib.rs:138-139 | different bytes never share an encoding |
| UrlEncoding.ByteSerialize | src/rarible/mod.rs:11-13 | the definition: unreserved bytes as themselves, space as `+`, every other byte as `%` and two upper-case hex digits; `PercentDecodeByteSerialize` gives its inverse |
| UrlEncoding.ByteSerializeSafe | src/rarible/mod.rs:11-13 | the output holds only unreserved characters, `+` and `%` |
| UrlEncoding.ByteSerializeHasNoDelimiters | src/rarible/mod.rs:11-13 | the output holds no `/`, `?`, `#`, `&`, `=` or space |
| UrlEncoding.ByteSerializeUnreserved | src/rarible/mod.rs:11-13 | unreserved bytes pass through unchanged, one character each |
| UrlEncoding.PercentDecodeByteSerialize | src/rarible/mod.rs:11-13 | percent-decoding the output gives back the bytes |
| QueryPairs.Optional | src/rarible/mod.rs:162-168 | a field holds a value exactly when the argument is given, rendered by its renderer |
| QueryPairs.PresentAppend | src/rarible/mod.rs:160-168 | the pairs of appended field lists are the appended pairs |
| QueryPairs.PresentKeysInOrder | src/opensea/query.rs:5-37 | the pair keys are a subsequence of the field keys, in field order |
| QueryPairs.PresentNone | src/opensea/query.rs:5-37 | fields that are all empty give no pairs |
| QueryPairs.LookupPresent | src/opensea/query.rs:5-37 | with distinct keys, each key looks up exactly its own field's value, absent when empty |
| QueryPairs.LookupField | src/rarible/mod.rs:160-168 | a field whose key no other field uses is looked up as its own value |
| QueryPairs.PresentInjective | src/opensea/query.rs:5-37 | with distinct keys, equal pairs mean equal field values |
| QueryPairs.PresentFill | src/opensea/query.rs:40-43 | filling an empty field adds exactly its pair at its place |
| QueryPairs.PresentSpec | src/opensea/query.rs:5-37 | with distinct keys, the pairs are in field order and each key looks up its own field |
| QueryPairs.OptionalInjective | src/opensea/query.rs:5-37 | with an injective renderer, the field determines the argument |
| OpenSeaModels.OrderSideCode | src/opensea/models.rs:491-497 | the `repr(u8)` code: `Buy` 0, `Sell` 1, so at most 1; `OrderSideFromCode` inverts it |
| OpenSeaModels.FeeMethodCode | src/opensea/models.rs:499-508 | the `repr(u8)` code: `ProtocolFee` 0, `SplitFee` 1, so at most 1; `FeeMethodFromCode` inverts it |
| OpenSeaModels.SaleKindCode | src/opensea/models.rs:510-516 | the `repr(u8)` code: `FixedPrice` 0, `DutchAuction` 1, so at most 1; `SaleKindFromCode` inverts it |
| OpenSeaModels.AuctionTypeName | src/opensea/models.rs:518-524 | the snake_case rename of each auction type; `AuctionTypeFromName` inverts it |
| OpenSeaModels.AssetContractTypeName | src/opensea/models.rs:528-538 | the rename of each contract type; `AssetContractTypeFromName` inverts it |
| OpenSeaModels.WyvernSchemaNameName | src/opensea/models.rs:539-551 | the rename of each schema, `LegacyEnjin` as "Enjin"; `WyvernSchemaNameFromName` inverts it |
| OpenSeaModels.WyvernAssetLocationName | src/opensea/models.rs:553-561 | the rename of each location; `WyvernAssetLocationFromName` inverts it |
| OpenSeaModels.TokenStandardVersionName | src/opensea/models.rs:573-587 | the rename of each version; `TokenStandardVersionFromName` inverts it |
| OpenSeaModels.OrderSideFromCode | src/opensea/models.rs:491-497 | `Buy` is 0, `Sell` is 1: a number decodes to exactly the side with that code, and fails outside 0..1 |
| OpenSeaModels.FeeMethodFromCode | src/opensea/models.rs:499-508 | `ProtocolFee` is 0, `SplitFee` is 1, the same way |
| OpenSeaModels.SaleKindFromCode | src/opensea/models.rs:510-516 | `FixedPrice` is 0, `DutchAuction` is 1, the same way |
| OpenSeaModels.AuctionTypeFromName | src/opensea/models.rs:518-524 | a name decodes to exactly the auction type with that snake_case name |
| OpenSeaModels.AuctionTypeNameInjective | src/opensea/models.rs:518-524 | distinct auction types have distinct names |
| OpenSeaModels.AssetContractTypeFromName | src/opensea/models.rs:528-538 | a name decodes to exactly the contract type with that rename |
| OpenSeaModels.WyvernSchemaNameFromName | src/opensea/models.rs:539-551 | a name decodes to exactly the schema with that rename; `LegacyEnjin` is "Enjin" |
| OpenSeaModels.WyvernAssetLocationFromName | src/opensea/models.rs:553-561 | a name decodes to exactly the location with that rename |
| OpenSeaModels.TokenStandardVersionFromName | src/opensea/models.rs:573-587 | a name decodes to exactly the version with that rename |
| OpenSeaModels.Untagged | src/opensea/models.rs:252-256 | the first variant that decodes wins; none decoding is a failure |
| OpenSeaModels.ExchangeMetadataPrefersAsset | src/opensea/models.rs:252-256 | a value that reads as both an asset and a bundle is read as an asset |
| OpenSeaModels.StringMember | src/opensea/models.rs:287-291 | a present string member, by exactly its key |
| OpenSeaModels.OptionalString | src/opensea/models.rs:295 | an `Option<String>` value: `null` is `None`, a string is its value, anything else fails |
| OpenSeaModels.OptionalStringMember | src/opensea/models.rs:293-298 | an absent or `null` member reads as `None`, a string as its value, anything else fails |
| OpenSeaModels.DecodeNFTAsset | src/opensea/models.rs:287-291 | decodes exactly the objects with string `id` and `address`, and the arrays of exactly two strings, to those two strings in field order |
| OpenSeaModels.DecodeFTAsset | src/opensea/models.rs:293-298 | decodes exactly the objects with an optional string `id` and string `address` and `quantity`, and the arrays of exactly three elements, a string or `null` then two strings, to those values in field order |
| OpenSeaModels.WyvernAssetRoundTrip | src/opensea/models.rs:281-298 | NFT before FT: an NFT and an FT without id read back as written, an FT with an id reads back as an NFT |
| OpenSeaModels.WyvernAssetArrayForm | src/opensea/models.rs:281-298 | in the array form two strings are an NFT, and three elements are an FT even with an `id`, which keeps its quantity |
| OpenSeaQuery.RenderInjective | src/opensea/query.rs:5-37 | every field renderer is injective |
| OpenSeaQuery.EventTypeFromName | src/opensea/query.rs:495-505 | a name decodes to exactly the event type with that snake_case name |
| OpenSeaQuery.EventTypeNameInjective | src/opensea/query.rs:495-505 | distinct event types have distinct names |
| AssetQueryRecord.New | src/opensea/query.rs:240-245 | the address with no token id |
| AssetQueryRecord.WithTokenId | src/opensea/query.rs:247-252 | the address with the token id |
| AssetQueryRecord.From | src/opensea/query.rs:255-258 | the address with no token id, as `new` |
| AssetQueryRecord.Default | src/opensea/query.rs:232-237 | the empty address and no token id |
| AssetQueryRecord.Pairs | src/opensea/query.rs:232-237 | `token_address` always first; `token_id` in decimal exactly when set |
| AssetQueryRecord.NewPairs | src/opensea/query.rs:240-258 | `new` and `from` agree and serialise to the address alone |
| AssetQueryRecord.PairsInjective | src/opensea/query.rs:232-237 | equal pairs mean equal queries |
| OpenSeaApi.RequestJsonOpenSea | src/opensea/mod.rs:17-21 | success exactly for a 2xx body that reads as the success type; an API error is never a Rarible one, and an OpenSea one is the envelope the body held |
| OpenSeaApi.Get | src/opensea/mod.rs:26-31 | a path that does not join fails before anything is sent; otherwise the reply to the GET with the query decides |
| OpenSeaApi.GetRecord | src/opensea/mod.rs:26-31 | a path that does not join fails first; then a record that does not serialise fails before sending; otherwise `ListedFrom` with the record's pairs |
| OpenSeaApi.GetOrders | src/opensea/mod.rs:25-32 | with `token_ids` unset, the value is the reading of the reply to the GET of `wyvern/v1/orders` with the order query's pairs, and nothing else; with it set, a joined path fails before sending |
| OpenSeaApi.GetAssets | src/opensea/mod.rs:54-61 | the same for `api/v1/assets` with the assets query's pairs, the lists being `token_ids` and `asset_contract_addresses` |
| OpenSeaApi.GetPaymentTokens | src/opensea/mod.rs:64-74 | the same for `api/v1/tokens` with the fungible-token query's pairs |
| OpenSeaApi.GetBundles | src/opensea/mod.rs:91-98 | the same for `api/v1/bundles` with the bundle query's pairs, the list being `token_ids` |
| OpenSeaApi.ListSettersFailBeforeSending | src/opensea/query.rs:85-88 | after a list setter, a joined order, assets or bundle endpoint fails with the serialiser's error whatever the transport would answer |
| OpenSeaApi.TrimStart | src/opensea/mod.rs:36-39 | the trimmed body is no longer and starts with no JSON whitespace |
| OpenSeaApi.TrimEnd | src/opensea/mod.rs:36-39 | the trimmed body is a prefix and ends with no JSON whitespace |
| OpenSeaApi.DecodeOptional | src/opensea/mod.rs:36-39 | `null` reads as a successful `None`; anything else is read as the value itself, with the value's error |
| OpenSeaApi.GetAsset | src/opensea/mod.rs:36-50 | `api/v1/asset/<address>/<id>/` with no query; a 2xx `null` is a successful `None`; a found asset is the decoder's reading of the body |
| OpenSeaApi.GetBundle | src/opensea/mod.rs:78-87 | `api/v1/bundle/<slug>/` with no query, with the same optional reply |
| OpenSeaApi.AssetPath | src/opensea/mod.rs:44-48 | the definition: `api/v1/asset/`, the address as given, `/`, the id in decimal or 0, and a trailing `/` |
| OpenSeaApi.AssetPathSegments | src/opensea/mod.rs:44-48 | after the prefix, an address without `/` is one segment, then the id in decimal, then an empty segment |
| OpenSeaApi.AssetPathMissingIdIsZero | src/opensea/mod.rs:44-48 | a missing token id requests the same path as id 0 |
| OpenSeaApi.AssetPathIsRaw | src/opensea/mod.rs:44-48 | the address is not encoded: "a/b" spills into two segments |
| OpenSeaApi.BundlePath | src/opensea/mod.rs:84 | the definition: `api/v1/bundle/`, the slug as given and a trailing `/` |
| OpenSeaApi.BundlePathSegments | src/opensea/mod.rs:84 | after the prefix, a slug without `/` is one segment followed by the trailing slash |
| OpenSeaApi.PaddedNullIsNull | src/opensea/mod.rs:36-39 | `null` with whitespace around it counts as null, and a shorter text does not |
| RaribleApi.Urlencode | src/rarible/mod.rs:11-13 | the definition: the form-urlencoded serialisation of the argument's UTF-8 bytes; its properties are the rows below |
| RaribleApi.UrlencodeIsOneSegment | src/rarible/mod.rs:11-13 | an encoded argument holds no `/`, `?`, `#` or `&`, as a string in the relative path before joining, and decodes back to the argument's UTF-8 bytes |
| RaribleApi.RequestJsonRarible | src/rarible/mod.rs:16-20 | success exactly for a 2xx body that reads as the success type; an API error is never an OpenSea one, and a Rarible one is the envelope the body held |
| RaribleApi.PostJsonRarible | src/rarible/mod.rs:22-29 | success exactly for a 2xx reply to the POST that reads as the success type; an API error is never an OpenSea one |
| RaribleApi.Get | src/rarible/mod.rs:209-222 | a path that does not join fails before anything is sent; otherwise the value is the reading of the reply to the GET with the query |
| RaribleApi.GetCurrencyRate | src/rarible/mod.rs:31-47 | the rate path with exactly the pairs blockchain, address and at (in decimal), in that order |
| RaribleApi.GetErc20Balance | src/rarible/mod.rs:49-60 | the balance path of the encoded contract and owner, with no query |
| RaribleApi.GetErc20TokenById | src/rarible/mod.rs:62-68 | the token path of the encoded contract, with no query |
| RaribleApi.Erc20BalancePath | src/rarible/mod.rs:54-58 | the definition: the balances prefix, the encoded contract, `/`, the encoded owner |
| RaribleApi.Erc20TokenPath | src/rarible/mod.rs:63-66 | the definition: the tokens prefix and the encoded contract |
| RaribleApi.NftItemPath | src/rarible/mod.rs:214-217 | the definition: the items prefix and the encoded id |
| RaribleApi.Erc20BalancePathSegments | src/rarible/mod.rs:54-58 | of the relative path, before joining: whatever the arguments hold, it is the prefix and exactly two segments, the encoded contract and owner |
| RaribleApi.NftItemPathSegments | src/rarible/mod.rs:215-218 | of the relative path, before joining: whatever the id holds, it is the prefix and exactly one segment |
| RaribleApi.UrlencodeKeepsDotSegments | src/rarible/mod.rs:11-13 | `""`, `.` and `..` encode to themselves, so the item path of `..` and the balance path of `.` and `..` end in dot segments, which `Url::join` resolves away |
| RaribleApi.AppendRequired | src/rarible/mod.rs:162 | `append_pair` adds its pair at the end |
| RaribleApi.AppendOptional | src/rarible/mod.rs:163-169 | under `if let Some` the pair is added at the end when the argument is given, and nothing otherwise |
| RaribleApi.ListValue | src/rarible/mod.rs:330-332 | an empty list gives the empty value, a singleton its element |
| RaribleApi.StatusValueDecodes | src/rarible/mod.rs:831-836 | the joined statuses split at commas and decode back to the statuses, in order |
| RaribleApi.CollectionsByOwnerQuery | src/rarible/mod.rs:160-169 | the appended pairs are owner, then continuation and size when given |
| RaribleApi.SearchNftCollectionsByOwner | src/rarible/mod.rs:154-170 | the value is the reading of the reply to the byOwner path with those pairs |
| RaribleApi.CollectionsByOwnerQueryShape | src/rarible/mod.rs:160-169 | the owner pair comes first; the continuation looks up as the argument, absent when not given |
| RaribleApi.NftAllItemsQuery | src/rarible/mod.rs:181-204 | the appended pairs are the six optional arguments that are given, in source order |
| RaribleApi.GetNftAllItems | src/rarible/mod.rs:172-206 | the value is the reading of the reply to the items path with those pairs |
| RaribleApi.NftAllItemsQueryShape | src/rarible/mod.rs:181-204 | keys come in the order continuation, size, showDeleted, lastUpdatedFrom, lastUpdatedTo, includeMeta; size reads back in decimal, showDeleted as true/false |
| RaribleApi.NftItemByIdQuery | src/rarible/mod.rs:218-221 | includeMeta is appended exactly when given |
| RaribleApi.GetNftItemById | src/rarible/mod.rs:209-223 | the item path of the encoded id, with that pair |
| RaribleApi.ActivitiesByUserQuery | src/rarible/mod.rs:376-386 | the joined types and users always, then continuation and size when given |
| RaribleApi.GetNftOrderActivitiesByUser | src/rarible/mod.rs:367-387 | the value is the reading of the reply to the byUser path with those pairs |
| RaribleApi.ActivitiesByUserQueryShape | src/rarible/mod.rs:376-378 | each list is one leading pair of comma-joined elements; an empty list sends its key with an empty value |
| RaribleApi.ItemPageQuery | src/rarible/mod.rs:653-663 | contract and token_id always, then continuation and size when given |
| RaribleApi.GetNftOrderOwnershipsByItem | src/rarible/mod.rs:646-665 | the item pairs, sent to the nft-order activities-by-item path |
| RaribleApi.GetNftOwnershipsByItem | src/rarible/mod.rs:694-714 | the item pairs, sent to the nft ownerships-by-item path |
| RaribleApi.OrderOwnershipsPathIsActivities | src/rarible/mod.rs:653 | the nft-order ownerships endpoint requests the activities path, not an ownerships one |
| RaribleApi.AggregationQuery | src/rarible/mod.rs:756-766 | startDate and endDate always, then size and source when given |
| RaribleApi.AggregateNftPurchaseBuyCollection | src/rarible/mod.rs:746-769 | the value is the reading of the reply to the nftPurchaseByCollection path with those pairs |
| RaribleApi.AggregateNftPurchaseByTaker | src/rarible/mod.rs:771-794 | the same for the nftPurchaseByTaker path |
| RaribleApi.AggregateNftSellByMaker | src/rarible/mod.rs:796-817 | the same for the nftSellByMaker path |
| RaribleApi.AggregationQueryShape | src/rarible/mod.rs:756-766 | the dates lead, in decimal; the source looks up as its `Display`, which is its serde name |
| RaribleApi.BidsByItemQuery | src/rarible/mod.rs:831-858 | contract, token_id and the joined statuses always, then maker, startDate, endDate, continuation and size when given |
| RaribleApi.GetBidsByItem | src/rarible/mod.rs:819-860 | the value is the reading of the reply to the bids-by-item path with those pairs |
| RaribleApi.BidsByItemQueryShape | src/rarible/mod.rs:831-858 | the three required pairs lead in order; a missing maker sends no maker key |
| RaribleModels.AggregationSourceName | src/rarible/models.rs:159-168 | the serde rename of each source; `AggregationSourceFromName` inverts it |
| RaribleModels.NftMediaSizeName | src/rarible/models.rs:958-967 | the serde rename of each size; `NftMediaSizeFromName` inverts it |
| RaribleModels.OrderBidStatusName | src/rarible/models.rs:1609-1621 | the serde rename of each status; `OrderBidStatusFromName` inverts it |
| RaribleModels.OrderSideName | src/rarible/models.rs:1836-1843 | the serde rename of each side; `OrderSideFromName` inverts it |
| RaribleModels.OrderTypeName | src/rarible/models.rs:1874-1881 | the serde rename of each type; `OrderTypeFromName` inverts it |
| RaribleModels.AggregationSourceDisplay | src/rarible/models.rs:159-177 | `Display` is the serde rename: ALL, RARIBLE, OPEN_SEA |
| RaribleModels.AggregationSourceFromName | src/rarible/models.rs:159-168 | a name decodes to exactly the source with that rename |
| RaribleModels.NftMediaSizeDisplay | src/rarible/models.rs:958-976 | `Display` is the serde rename: ORIGINAL, BIG, PREVIEW |
| RaribleModels.NftMediaSizeFromName | src/rarible/models.rs:958-967 | a name decodes to exactly the size with that rename |
| RaribleModels.OrderBidStatusToString | src/rarible/models.rs:1609-1632 | `to_string` is the serde rename, and holds no comma |
| RaribleModels.OrderBidStatusFromName | src/rarible/models.rs:1609-1621 | a name decodes to exactly the status with that rename |
| RaribleModels.OrderSideToString | src/rarible/models.rs:1836-1850 | `to_string` is LEFT or RIGHT, the serde rename |
| RaribleModels.OrderSideFromName | src/rarible/models.rs:1836-1843 | a name decodes to exactly the side with that rename |
| RaribleModels.OrderTypeToString | src/rarible/models.rs:1874-1888 | `to_string` is RARIBLE_V1 or RARIBLE_V2, the serde rename |
| RaribleModels.OrderTypeFromName | src/rarible/models.rs:1874-1881 | a name decodes to exactly the type with that rename |
| RaribleModels.DisplaysDecode | src/rarible/models.rs:1622-1631 | every display map is undone by the decoder of the serde names |
| RaribleModels.DisplaysInjective | src/rarible/models.rs:1622-1631 | distinct variants display differently |
| RaribleModels.Member | src/rarible/models.rs:188-190 | an object has a member under a key exactly when one of its members has that key |
| RaribleModels.PartsJson | src/rarible/models.rs:1922-1928 | one array element per part |
| RaribleModels.AssetTypeJson | src/rarible/models.rs:188-245 | the object starts with the "assetclass" tag holding the variant name; no later member uses the tag key |
| RaribleModels.AssetClassName | src/rarible/models.rs:188-245 | the "assetclass" tag value of each variant; `AssetClassFromName` and `AssetTypeTagDecides` invert it |
| RaribleModels.AssetClassFromName | src/rarible/models.rs:188-245 | a tag value names a variant exactly when it is one of the seven names |
| RaribleModels.AssetTypeTagDecides | src/rarible/models.rs:188-245 | reading the tag of a serialised asset type gives its variant name, which decodes to that variant |
| RaribleModels.AssetClassNamesDistinct | src/rarible/models.rs:188-245 | distinct variants carry distinct tag values |
| RaribleModels.OrderDataJson | src/rarible/models.rs:1651-1665 | the object starts with the "datatype" tag holding LEGACY or RARIBLE_V2_DATA_V1; no later member uses the tag key |
| RaribleModels.OrderDataName | src/rarible/models.rs:1651-1665 | the "datatype" tag value: LEGACY or RARIBLE_V2_DATA_V1 |
| RaribleModels.OrderDataTagDecides | src/rarible/models.rs:1651-1665 | reading the tag gives the variant name, and LEGACY exactly for the legacy variant |
| OrderQueryRecord.FieldAt | src/opensea/query.rs:5-37 | the field at each position of the declaration order carries that field's serialised name |
| OrderQueryRecord.Fields | src/opensea/query.rs:5-37 | the serialised fields carry exactly the declared names in declaration order, the list fields excluded |
| OrderQueryRecord.Pairs | src/opensea/query.rs:5-37 | pair keys are a subsequence of the declared names in declaration order; each name looks up its own field's rendered value, and a `None` field is absent |
| OrderQueryRecord.Slot | src/opensea/query.rs:39-114 | a setter of a serialised field targets one slot, under that slot's name, with a value present |
| OrderQueryRecord.Set | src/opensea/query.rs:39-114 | a setter sets its own field to `Some(value)` and leaves every other field unchanged, list setters included |
| OrderQueryRecord.KeysDistinct | src/opensea/query.rs:5-37 | the serialised names are pairwise distinct |
| OrderQueryRecord.FieldsInjective | src/opensea/query.rs:5-37 | the rendered fields and the lists determine the record |
| OrderQueryRecord.PairsInjective | src/opensea/query.rs:5-37 | records with equal pairs and equal lists are equal: serialisation loses nothing else |
| OrderQueryRecord.DefaultFields | src/opensea/query.rs:116-136 | the default leaves every field `None` except `limit = 20`, `offset = 0`, `page = 0` |
| OrderQueryRecord.DefaultPresent | src/opensea/query.rs:116-136 | the default's present fields are exactly (limit, 20), (offset, 0), (page, 0), in declaration order |
| OrderQueryRecord.DefaultPairs | src/opensea/query.rs:116-136 | the default serialises to exactly (limit, 20), (offset, 0), (page, 0) |
| OrderQueryRecord.LastWriteWins | src/opensea/query.rs:39-114 | applying setters of the same field twice equals applying only the second |
| OrderQueryRecord.SerialisesAfterSet | src/opensea/query.rs:25-26 | the default serialises; after `.token_ids(..)` the record does not; a scalar setter keeps whether it does |
| AssetsQueryRecord.FieldAt | src/opensea/query.rs:138-160 | the field at each position of the declaration order carries that field's serialised name |
| AssetsQueryRecord.Fields | src/opensea/query.rs:138-160 | the serialised fields carry exactly the declared names in declaration order, the list fields excluded |
| AssetsQueryRecord.Pairs | src/opensea/query.rs:138-160 | pair keys are a subsequence of the declared names in declaration order; each name looks up its own field's rendered value, and a `None` field is absent |
| AssetsQueryRecord.Slot | src/opensea/query.rs:162-212 | a setter of a serialised field targets one slot, under that slot's name, with a value present |
| AssetsQueryRecord.Set | src/opensea/query.rs:162-212 | a setter sets its own field to `Some(value)` and leaves every other field unchanged, list setters included |
| AssetsQueryRecord.KeysDistinct | src/opensea/query.rs:138-160 | the serialised names are pairwise distinct |
| AssetsQueryRecord.FieldsInjective | src/opensea/query.rs:138-160 | the rendered fields and the lists determine the record |
| AssetsQueryRecord.PairsInjective | src/opensea/query.rs:138-160 | records with equal pairs and equal lists are equal: serialisation loses nothing else |
| AssetsQueryRecord.DefaultFields | src/opensea/query.rs:214-229 | the default leaves every field `None` except `limit = 20`, `offset = 0`, `page = 0` |
| AssetsQueryRecord.DefaultPresent | src/opensea/query.rs:214-229 | the default's present fields are exactly (limit, 20), (offset, 0), (page, 0), in declaration order |
| AssetsQueryRecord.DefaultPairs | src/opensea/query.rs:214-229 | the default serialises to exactly (limit, 20), (offset, 0), (page, 0) |
| AssetsQueryRecord.LastWriteWins | src/opensea/query.rs:162-212 | applying setters of the same field twice equals applying only the second |
| AssetsQueryRecord.SerialisesAfterSet | src/opensea/query.rs:144-147 | the default serialises; after either list setter the record does not; a scalar setter keeps whether it does |
| BundleQueryRecord.FieldAt | src/opensea/query.rs:261-280 | the field at each position of the declaration order carries that field's serialised name |
| BundleQueryRecord.Fields | src/opensea/query.rs:261-280 | the serialised fields carry exactly the declared names in declaration order, the list fields excluded |
| BundleQueryRecord.Pairs | src/opensea/query.rs:261-280 | pair keys are a subsequence of the declared names in declaration order; each name looks up its own field's rendered value, and a `None` field is absent |
| BundleQueryRecord.Slot | src/opensea/query.rs:282-322 | a setter of a serialised field targets one slot, under that slot's name, with a value present |
| BundleQueryRecord.Set | src/opensea/query.rs:282-322 | a setter sets its own field to `Some(value)` and leaves every other field unchanged, list setters included |
| BundleQueryRecord.KeysDistinct | src/opensea/query.rs:261-280 | the serialised names are pairwise distinct |
| BundleQueryRecord.FieldsInjective | src/opensea/query.rs:261-280 | the rendered fields and the lists determine the record |
| BundleQueryRecord.PairsInjective | src/opensea/query.rs:261-280 | records with equal pairs and equal lists are equal: serialisation loses nothing else |
| BundleQueryRecord.DefaultFields | src/opensea/query.rs:324-337 | the default leaves every field `None` except `limit = 20`, `offset = 0`, `page = 0` |
| BundleQueryRecord.DefaultPresent | src/opensea/query.rs:324-337 | the default's present fields are exactly (offset, 0), (limit, 20), (page, 0), in declaration order |
| BundleQueryRecord.DefaultPairs | src/opensea/query.rs:324-337 | the default serialises to exactly (offset, 0), (limit, 20), (page, 0) |
| BundleQueryRecord.LastWriteWins | src/opensea/query.rs:282-322 | applying setters of the same field twice equals applying only the second |
| BundleQueryRecord.SerialisesAfterSet | src/opensea/query.rs:266-267 | the default serialises; after `.token_ids(..)` the record does not; a scalar setter keeps whether it does |
| CollectionQueryRecord.FieldAt | src/opensea/query.rs:339-350 | the field at each position of the declaration order carries that field's serialised name |
| CollectionQueryRecord.Fields | src/opensea/query.rs:339-350 | the serialised fields carry exactly the declared names in declaration order |
| CollectionQueryRecord.Pairs | src/opensea/query.rs:339-350 | pair keys are a subsequence of the declared names in declaration order; each name looks up its own field's rendered value, and a `None` field is absent |
| CollectionQueryRecord.Slot | src/opensea/query.rs:352-372 | a setter of a serialised field targets one slot, under that slot's name, with a value present |
| CollectionQueryRecord.Set | src/opensea/query.rs:352-372 | a setter sets its own field to `Some(value)` and leaves every other field unchanged |
| CollectionQueryRecord.KeysDistinct | src/opensea/query.rs:339-350 | the serialised names are pairwise distinct |
| CollectionQueryRecord.FieldsInjective | src/opensea/query.rs:339-350 | the rendered fields determine the record |
| CollectionQueryRecord.PairsInjective | src/opensea/query.rs:339-350 | records with equal pairs are equal: serialisation loses nothing else |
| CollectionQueryRecord.DefaultFields | src/opensea/query.rs:374-383 | the default leaves every field `None` except `limit = 20`, `offset = 0`, `page = 0` |
| CollectionQueryRecord.DefaultPresent | src/opensea/query.rs:374-383 | the default's present fields are exactly (offset, 0), (limit, 20), (page, 0), in declaration order |
| CollectionQueryRecord.DefaultPairs | src/opensea/query.rs:374-383 | the default serialises to exactly (offset, 0), (limit, 20), (page, 0) |
| CollectionQueryRecord.LastWriteWins | src/opensea/query.rs:352-372 | applying setters of the same field twice equals applying only the second |
| EventsQueryRecord.FieldAt | src/opensea/query.rs:385-412 | the field at each position of the declaration order carries that field's serialised name |
| EventsQueryRecord.Fields | src/opensea/query.rs:385-412 | the serialised fields carry exactly the declared names in declaration order |
| EventsQueryRecord.Pairs | src/opensea/query.rs:385-412 | pair keys are a subsequence of the declared names in declaration order; each name looks up its own field's rendered value, and a `None` field is absent |
| EventsQueryRecord.Slot | src/opensea/query.rs:414-474 | a setter of a serialised field targets one slot, under that slot's name, with a value present |
| EventsQueryRecord.Set | src/opensea/query.rs:414-474 | a setter sets its own field to `Some(value)` and leaves every other field unchanged |
| EventsQueryRecord.KeysDistinct | src/opensea/query.rs:385-412 | the serialised names are pairwise distinct |
| EventsQueryRecord.FieldsInjective | src/opensea/query.rs:385-412 | the rendered fields determine the record |
| EventsQueryRecord.PairsInjective | src/opensea/query.rs:385-412 | records with equal pairs are equal: serialisation loses nothing else |
| EventsQueryRecord.DefaultFields | src/opensea/query.rs:476-493 | the default leaves every field `None` except `limit = 20`, `offset = 0`, `page = 0` |
| EventsQueryRecord.DefaultPresent | src/opensea/query.rs:476-493 | the default's present fields are exactly (offset, 0), (limit, 20), (page, 0), in declaration order |
| EventsQueryRecord.DefaultPairs | src/opensea/query.rs:476-493 | the default serialises to exactly (offset, 0), (limit, 20), (page, 0) |
| EventsQueryRecord.LastWriteWins | src/opensea/query.rs:414-474 | applying setters of the same field twice equals applying only the second |
| FungibleTokenQueryRecord.FieldAt | src/opensea/query.rs:507-518 | the field at each position of the declaration order carries that field's serialised name |
| FungibleTokenQueryRecord.Fields | src/opensea/query.rs:507-518 | the serialised fields carry exactly the declared names in declaration order |
| FungibleTokenQueryRecord.Pairs | src/opensea/query.rs:507-518 | pair keys are a subsequence of the declared names in declaration order; each name looks up its own field's rendered value, and a `None` field is absent |
| FungibleTokenQueryRecord.Slot | src/opensea/query.rs:520-540 | a setter of a serialised field targets one slot, under that slot's name, with a value present |
| FungibleTokenQueryRecord.Set | src/opensea/query.rs:520-540 | a setter sets its own field to `Some(value)` and leaves every other field unchanged |
| FungibleTokenQueryRecord.KeysDistinct | src/opensea/query.rs:507-518 | the serialised names are pairwise distinct |
| FungibleTokenQueryRecord.FieldsInjective | src/opensea/query.rs:507-518 | the rendered fields determine the record |
| FungibleTokenQueryRecord.PairsInjective | src/opensea/query.rs:507-518 | records with equal pairs are equal: serialisation loses nothing else |
| FungibleTokenQueryRecord.DefaultFields | src/opensea/query.rs:542-551 | the default leaves every field `None` except `limit = 20`, `offset = 0`, `page = 0` |
| FungibleTokenQueryRecord.DefaultPresent | src/opensea/query.rs:542-551 | the default's present fields are exactly (limit, 20), (offset, 0), (page, 0), in declaration order |
| FungibleTokenQueryRecord.DefaultPairs | src/opensea/query.rs:542-551 | the default serialises to exactly (limit, 20), (offset, 0), (page, 0) |
| FungibleTokenQueryRecord.LastWriteWins | src/opensea/query.rs:520-540 | applying setters of the same field twice equals applying only the second |

## Left out

- Network I/O, `async`, `Arc` and the shared `reqwest::Client`. The transport's answer to a request is an input, and a transport or body-read failure is an opaque message.
- serde decoding. `decodeT`/`decodeE` are function parameters. Of serialisation, only the parts whose shape the source fixes are modelled: the query pairs, the enum names and codes, the untagged variant order and the two internally tagged enums. The JSON `null` check of `OpenSeaApi.DecodeOptional` treats a body as null exactly when it is `null` with optional JSON whitespace around it. On the request side, `post_json`'s `.json(body)` also sets `Content-Type: application/json`, and it fails before sending when the body does not serialise. Neither appears in the request descriptor of `Pipeline.PostRequest`: the body stays a typed value.
- `Url::join`, `into_url` and reqwest's `IntoUrl` conversion in `post_json`. These are the `url` crate's WHATWG parsing, so the model takes them as parameters. A URL is opaque, and relative paths are strings.
- `HeaderValue` parsing (`str::parse`) and `TryFrom<Vec<u8>>`. Both are library checks, so they are the `HeaderCheck` parameters. Transport construction is the `clientBuilds` parameter.
- ClientBuilder.ApiClientBuilder.HeadersMut: `headers_mut` returns `&mut HeaderMap`, so whatever a caller inserts through it lands in the builder. The method returns a copy of the map, so an insertion into that copy changes nothing staged until it is stored back with `Headers`. The model does not capture this aliasing: `BasicAuth` writes the updated map back itself.
- ClientBuilder.ApiClientBuilder.BasicAuth: `basic_auth` takes the builder by value (`mut self`), and when the value check fails the `?` drops the builder, so the caller has no builder left. The method keeps its object, and its clause about the failure state (the map created, nothing else changed) describes a state the source does not expose. Only the error it returns has a counterpart.
- The header map is a `map` from lower-case names. reqwest's case-insensitive names and multi-valued entries are not modelled.
- `ApiClientBuilder`'s `download_dir` field and the unused `base_path` field, the `ApiClient::base_path`/`client` accessors, and `debug!` logging. None of them affects a request.
- OrderQueryRecord.Pairs: the list field `token_ids` contributes no pair. `serde_urlencoded` writes no sequence value, so a record with `token_ids` set does not serialise at all (`OrderQueryRecord.Serialises`), and `OpenSeaApi.GetOrders` then fails before sending. `Pairs` describes only the records that serialise.
- AssetsQueryRecord.Pairs: the list fields `token_ids` and `asset_contract_addresses` contribute no pair; with either set the record does not serialise and `OpenSeaApi.GetAssets` fails before sending.
- BundleQueryRecord.Pairs: the list field `token_ids` contributes no pair; with it set the record does not serialise and `OpenSeaApi.GetBundles` fails before sending.
- The plain record structs of both models files, the OpenSea `EventType`, `EventData`, `Traits` and `Stats`, and the Rarible schemas not named above. They are data schemas with no behaviour of their own.
- The Rarible endpoints not modelled, each for the same reason: it repeats the shape of a modelled one. Every GET with appended pairs follows `CollectionsByOwnerQuery`/`BidsByItemQuery`, and every POST goes through `PostJsonRarible`. They are:
  - `create_gateway_pending_transactions`, `create_lock`, `get_nft_activities` and `generate_nft_token_id`;
  - `get_nft_collection_by_id`, `search_nft_all_collections`, `get_nft_item_meta_by_id`, `get_nft_items_by_collection`, `get_nft_items_by_creator`, `get_nft_items_by_owner`, `get_nft_lazy_item_by_id` and `mint_nft_asset`;
  - `get_nft_order_activities_by_collection`, `get_nft_order_activities_by_item`, `get_nft_order_all_activities` and the other `get_nft_order_*`/`search_nft_order_*`/`generate_nft_order_token_id`/`mint_nft_order_asset` calls;
  - `get_nft_all_ownerships`, `get_nft_ownership_by_id` and `create_nft_pending_transaction`;
  - `get_order_activities`, `get_order_bids_by_item`, `get_order_bids_by_maker`, `get_order_by_hash`, `get_orders_all` and the `get_sell_orders*` calls;
  - `invert_order`, `prepare_order_*_transaction`, `update_order_make_stock`, `upsert_order`, `encode_order*` and `create_order_pending_transaction`.
- RaribleApi.UrlencodeIsOneSegment: the one-segment property is about the relative path string, not the joined URL. `.` is unreserved, so `""`, `.` and `..` pass through unchanged (`RaribleApi.UrlencodeKeepsDotSegments`). WHATWG path resolution in `Url::join` then removes such a segment: the item path of `..` resolves to `protocol/v0.1/ethereum/nft/`. `Url::join` is a parameter, so this is outside what the model proves.
- RaribleApi.Erc20BalancePathSegments: the same holds of the relative path only; a contract or owner of `.` or `..` is resolved away by `Url::join`.
- RaribleApi.NftItemPathSegments: the same holds of the relative path only; an id of `.` or `..` is resolved away by `Url::join`.
- RaribleApi.Urlencode: works on Dafny strings, which are sequences of Unicode scalar values; the UTF-8 step is `Text.Utf8`.
- The `rarible` cargo feature is assumed to be on. With it off, the `RaribleServerError` variant, the Rarible envelope, its `From` conversion and its `Display` branch do not exist, and neither does the Rarible client.
- `examples/opensea.rs` is a network demonstration with no logic.

## Findings

| source | as written | input that shows it | evidently intended | confidence | as-written member | corrected member |
|---|---|---|---|---|---|---|
| src/lib.rs:131-143 | `basic_auth` takes `username: impl AsRef<u8>` and `password: Option<impl AsRef<u8>>` and writes them with `{}`, so each credential is a single byte and is rendered as a decimal number | user `b'a'` (97) with no password encodes the credentials `97:` instead of `a:` | the credentials of section 2 of RFC 7617: the user-id text, a colon and the password text | not executed | ClientBuilder.BasicAuthAsWrittenRendersDecimal | ClientBuilder.BasicAuthValue |

`ClientBuilder.BasicCredentialsAsWritten` models the as-written rendering. `ClientBuilder.ApiClientBuilder.BasicAuth` takes string credentials and stages `ClientBuilder.BasicAuthValue`.
