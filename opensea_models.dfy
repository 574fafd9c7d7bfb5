/** The wire codes of the OpenSea model enums: the numbers of the `repr(u8)` enums, the
    rename strings of the string enums, and the variant order of the untagged enums. */
module OpenSeaModels {
  import opened Wrappers

  // `repr(u8)` enums: serialised as their discriminant, decoded from it.

  /** Wyvern order side. */
  datatype OrderSide = Buy | Sell

  function OrderSideCode(s: OrderSide): (n: nat)
    ensures n <= 1
  {
    match s
    case Buy => 0
    case Sell => 1
  }

  /** Decoding a number yields exactly the side whose code it is, and fails on any other. */
  function OrderSideFromCode(n: int): (r: Option<OrderSide>)
    ensures forall s :: r == Some(s) <==> OrderSideCode(s) == n
    ensures r.None? <==> !(0 <= n <= 1)
  {
    if n == 0 then Some(Buy) else if n == 1 then Some(Sell) else None
  }

  /** Wyvern fee method. */
  datatype FeeMethod = ProtocolFee | SplitFee

  function FeeMethodCode(m: FeeMethod): (n: nat)
    ensures n <= 1
  {
    match m
    case ProtocolFee => 0
    case SplitFee => 1
  }

  function FeeMethodFromCode(n: int): (r: Option<FeeMethod>)
    ensures forall m :: r == Some(m) <==> FeeMethodCode(m) == n
    ensures r.None? <==> !(0 <= n <= 1)
  {
    if n == 0 then Some(ProtocolFee) else if n == 1 then Some(SplitFee) else None
  }

  /** Wyvern sale kind: a fixed price or a Dutch auction. */
  datatype SaleKind = FixedPrice | DutchAuction

  function SaleKindCode(k: SaleKind): (n: nat)
    ensures n <= 1
  {
    match k
    case FixedPrice => 0
    case DutchAuction => 1
  }

  function SaleKindFromCode(n: int): (r: Option<SaleKind>)
    ensures forall k :: r == Some(k) <==> SaleKindCode(k) == n
    ensures r.None? <==> !(0 <= n <= 1)
  {
    if n == 0 then Some(FixedPrice) else if n == 1 then Some(DutchAuction) else None
  }

  // String enums: serialised as their (renamed) variant name.

  /** Auction type, in snake_case. */
  datatype AuctionType = Dutch | English | MinPrice

  function AuctionTypeName(a: AuctionType): string {
    match a
    case Dutch => "dutch"
    case English => "english"
    case MinPrice => "min_price"
  }

  function AuctionTypeFromName(s: string): (r: Option<AuctionType>)
    ensures forall a :: r == Some(a) <==> AuctionTypeName(a) == s
  {
    if s == "dutch" then Some(Dutch)
    else if s == "english" then Some(English)
    else if s == "min_price" then Some(MinPrice)
    else None
  }

  /** Distinct auction types have distinct names. */
  lemma {:induction false} AuctionTypeNameInjective(a: AuctionType, b: AuctionType)
    requires AuctionTypeName(a) == AuctionTypeName(b)
    ensures a == b
  {
    assert AuctionTypeFromName(AuctionTypeName(a)) == Some(a);
  }

  /** The kind of an asset contract. */
  datatype AssetContractType = Fungible | SemiFungible | NonFungible | Unknown

  function AssetContractTypeName(t: AssetContractType): string {
    match t
    case Fungible => "fungible"
    case SemiFungible => "semi-fungible"
    case NonFungible => "non-fungible"
    case Unknown => "unknown"
  }

  function AssetContractTypeFromName(s: string): (r: Option<AssetContractType>)
    ensures forall t :: r == Some(t) <==> AssetContractTypeName(t) == s
  {
    if s == "fungible" then Some(Fungible)
    else if s == "semi-fungible" then Some(SemiFungible)
    else if s == "non-fungible" then Some(NonFungible)
    else if s == "unknown" then Some(Unknown)
    else None
  }

  /** The Wyvern schema of an asset; `LegacyEnjin` travels as "Enjin". */
  datatype WyvernSchemaName = ERC20 | ERC721 | ERC1155 | LegacyEnjin | ENSShortNameAuction

  function WyvernSchemaNameName(w: WyvernSchemaName): string {
    match w
    case ERC20 => "ERC20"
    case ERC721 => "ERC721"
    case ERC1155 => "ERC1155"
    case LegacyEnjin => "Enjin"
    case ENSShortNameAuction => "ENSShortNameAuction"
  }

  function WyvernSchemaNameFromName(s: string): (r: Option<WyvernSchemaName>)
    ensures forall w :: r == Some(w) <==> WyvernSchemaNameName(w) == s
  {
    if s == "ERC20" then Some(ERC20)
    else if s == "ERC721" then Some(ERC721)
    else if s == "ERC1155" then Some(ERC1155)
    else if s == "Enjin" then Some(LegacyEnjin)
    else if s == "ENSShortNameAuction" then Some(ENSShortNameAuction)
    else None
  }

  /** Where a Wyvern asset is held. */
  datatype WyvernAssetLocation = Account | Proxy | Other

  function WyvernAssetLocationName(l: WyvernAssetLocation): string {
    match l
    case Account => "account"
    case Proxy => "proxy"
    case Other => "other"
  }

  function WyvernAssetLocationFromName(s: string): (r: Option<WyvernAssetLocation>)
    ensures forall l :: r == Some(l) <==> WyvernAssetLocationName(l) == s
  {
    if s == "account" then Some(Account)
    else if s == "proxy" then Some(Proxy)
    else if s == "other" then Some(Other)
    else None
  }

  /** The token standard version a contract follows. */
  datatype TokenStandardVersion = Unsupported | Locked | Enjin | ERC721v1 | ERC721v2 | ERC721v3

  function TokenStandardVersionName(v: TokenStandardVersion): string {
    match v
    case Unsupported => "unsupported"
    case Locked => "locked"
    case Enjin => "1155-1.0"
    case ERC721v1 => "1.0"
    case ERC721v2 => "2.0"
    case ERC721v3 => "3.0"
  }

  function TokenStandardVersionFromName(s: string): (r: Option<TokenStandardVersion>)
    ensures forall v :: r == Some(v) <==> TokenStandardVersionName(v) == s
  {
    if s == "unsupported" then Some(Unsupported)
    else if s == "locked" then Some(Locked)
    else if s == "1155-1.0" then Some(Enjin)
    else if s == "1.0" then Some(ERC721v1)
    else if s == "2.0" then Some(ERC721v2)
    else if s == "3.0" then Some(ERC721v3)
    else None
  }

  // Untagged enums: the first variant whose shape the value matches wins.

  /** A JSON value, as far as the untagged decoders look at it. */
  datatype Json =
    | Null
    | Bool(b: bool)
    | Number(n: int)
    | Str(s: string)
    | Array(items: seq<Json>)
    | Object(members: map<string, Json>)

  /** An untagged enum of two variants: the first decoder is tried, then the second. */
  function Untagged<A, B, U>(j: Json, first: Json -> Option<A>, second: Json -> Option<B>,
                             wrapFirst: A -> U, wrapSecond: B -> U): (r: Option<U>)
    ensures first(j).Some? ==> r == Some(wrapFirst(first(j).value))
    ensures first(j).None? && second(j).Some? ==> r == Some(wrapSecond(second(j).value))
    ensures r.None? <==> first(j).None? && second(j).None?
  {
    match first(j)
    case Some(a) => Some(wrapFirst(a))
    case None =>
      match second(j)
      case Some(b) => Some(wrapSecond(b))
      case None => None
  }

  /** `ExchangeMetadata`, over the two record types it wraps. */
  datatype ExchangeMetadata<A, B> = Asset(asset: A) | Bundle(bundle: B)

  /** A value that reads as both an asset and a bundle is read as an asset. */
  lemma {:induction false} ExchangeMetadataPrefersAsset<A, B>(j: Json, asAsset: Json -> Option<A>, asBundle: Json -> Option<B>)
    requires asAsset(j).Some? && asBundle(j).Some?
    ensures Untagged(j, asAsset, asBundle, (a: A) => ExchangeMetadata<A, B>.Asset(a), (b: B) => ExchangeMetadata<A, B>.Bundle(b))
         == Some(ExchangeMetadata.Asset(asAsset(j).value))
  {
  }

  datatype WyvernNFTAsset = WyvernNFTAsset(id: string, address: string)
  datatype WyvernFTAsset = WyvernFTAsset(id: Option<string>, address: string, quantity: string)

  /** `WyvernAsset`: `NFT` is declared, and so tried, before `FT`. */
  datatype WyvernAsset = NFT(nft: WyvernNFTAsset) | FT(ft: WyvernFTAsset)

  /** A required string member. */
  function StringMember(m: map<string, Json>, k: string): (r: Option<string>)
    ensures r.Some? <==> k in m && m[k].Str?
    ensures r.Some? ==> r.value == m[k].s
  {
    if k in m && m[k].Str? then Some(m[k].s) else None
  }

  /** An `Option<String>` value: `null` reads as `None`, a string as its value. */
  function OptionalString(v: Json): (r: Option<Option<string>>)
    ensures r == Some(None) <==> v.Null?
    ensures r.Some? && r.value.Some? <==> v.Str?
    ensures v.Str? ==> r == Some(Some(v.s))
  {
    if v.Null? then Some(None)
    else if v.Str? then Some(Some(v.s))
    else None
  }

  /** An `Option<String>` member: absent or `null` reads as `None`. */
  function OptionalStringMember(m: map<string, Json>, k: string): (r: Option<Option<string>>)
    ensures r.None? <==> k in m && !m[k].Null? && !m[k].Str?
    ensures r == Some(None) <==> k !in m || m[k].Null?
  {
    if k !in m then Some(None) else OptionalString(m[k])
  }

  /** Reading an NFT asset. A derived struct `Deserialize` takes either form: an object with
      string `id` and `address` (other members are ignored), or an array of exactly two
      strings, the fields in declaration order. */
  function DecodeNFTAsset(j: Json): (r: Option<WyvernNFTAsset>)
    ensures j.Object? ==>
      (r.Some? <==> StringMember(j.members, "id").Some? && StringMember(j.members, "address").Some?)
    ensures j.Object? && r.Some? ==> r.value == WyvernNFTAsset(j.members["id"].s, j.members["address"].s)
    ensures j.Array? ==> (r.Some? <==> |j.items| == 2 && j.items[0].Str? && j.items[1].Str?)
    ensures j.Array? && r.Some? ==> r.value == WyvernNFTAsset(j.items[0].s, j.items[1].s)
    ensures !j.Object? && !j.Array? ==> r.None?
  {
    if j.Object? then
      match (StringMember(j.members, "id"), StringMember(j.members, "address"))
      case (Some(id), Some(address)) => Some(WyvernNFTAsset(id, address))
      case _ => None
    else if j.Array? && |j.items| == 2 && j.items[0].Str? && j.items[1].Str? then
      Some(WyvernNFTAsset(j.items[0].s, j.items[1].s))
    else None
  }

  /** Reading an FT asset: an object with string `address` and `quantity` and an optional `id`,
      or an array of exactly three elements in field order, the first a string or `null`.
      In the array form the `id` element must be there, even as `null`. */
  function DecodeFTAsset(j: Json): (r: Option<WyvernFTAsset>)
    ensures j.Object? ==>
      (r.Some? <==> OptionalStringMember(j.members, "id").Some?
                    && StringMember(j.members, "address").Some? && StringMember(j.members, "quantity").Some?)
    ensures j.Object? && r.Some? ==>
      r.value == WyvernFTAsset(OptionalStringMember(j.members, "id").value, j.members["address"].s, j.members["quantity"].s)
    ensures j.Array? ==>
      (r.Some? <==> |j.items| == 3 && (j.items[0].Null? || j.items[0].Str?) && j.items[1].Str? && j.items[2].Str?)
    ensures j.Array? && r.Some? ==>
      r.value == WyvernFTAsset(OptionalString(j.items[0]).value, j.items[1].s, j.items[2].s)
    ensures !j.Object? && !j.Array? ==> r.None?
  {
    if j.Object? then
      match (OptionalStringMember(j.members, "id"), StringMember(j.members, "address"), StringMember(j.members, "quantity"))
      case (Some(id), Some(address), Some(quantity)) => Some(WyvernFTAsset(id, address, quantity))
      case _ => None
    else if j.Array? && |j.items| == 3 && j.items[1].Str? && j.items[2].Str? then
      match OptionalString(j.items[0])
      case Some(id) => Some(WyvernFTAsset(id, j.items[1].s, j.items[2].s))
      case None => None
    else None
  }

  function DecodeWyvernAsset(j: Json): Option<WyvernAsset> {
    Untagged(j, DecodeNFTAsset, DecodeFTAsset, (n: WyvernNFTAsset) => NFT(n), (f: WyvernFTAsset) => FT(f))
  }

  /** Writing a Wyvern asset: its record's members, `None` as `null`. */
  function EncodeWyvernAsset(a: WyvernAsset): Json {
    match a
    case NFT(n) => Object(map["id" := Str(n.id), "address" := Str(n.address)])
    case FT(f) =>
      Object(map["id" := (if f.id.Some? then Str(f.id.value) else Null),
                 "address" := Str(f.address), "quantity" := Str(f.quantity)])
  }

  /** What reading back a written asset gives: an NFT and an FT without `id` come back as they
      were, but an FT that has an `id` also has the NFT shape and comes back as an NFT, losing
      its quantity. */
  lemma {:induction false} WyvernAssetRoundTrip(a: WyvernAsset)
    ensures a.NFT? ==> DecodeWyvernAsset(EncodeWyvernAsset(a)) == Some(a)
    ensures a.FT? && a.ft.id.None? ==> DecodeWyvernAsset(EncodeWyvernAsset(a)) == Some(a)
    ensures a.FT? && a.ft.id.Some? ==>
      DecodeWyvernAsset(EncodeWyvernAsset(a)) == Some(NFT(WyvernNFTAsset(a.ft.id.value, a.ft.address)))
  {
    var j := EncodeWyvernAsset(a);
    assert "id" != "address" && "id" != "quantity" && "address" != "quantity";
    if a.FT? && a.ft.id.None? {
      assert DecodeNFTAsset(j).None?;
    }
  }

  /** The array form counts its elements: two strings are an NFT, and three elements are an
      FT even when the first is a string, so unlike the object form an FT with an `id`
      keeps its quantity. */
  lemma {:induction false} WyvernAssetArrayForm(id: string, address: string, quantity: string)
    ensures DecodeWyvernAsset(Array([Str(id), Str(address)])) == Some(NFT(WyvernNFTAsset(id, address)))
    ensures DecodeWyvernAsset(Array([Null, Str(address), Str(quantity)]))
         == Some(FT(WyvernFTAsset(None, address, quantity)))
    ensures DecodeWyvernAsset(Array([Str(id), Str(address), Str(quantity)]))
         == Some(FT(WyvernFTAsset(Some(id), address, quantity)))
  {
    var two := Array([Str(id), Str(address)]);
    var bare := Array([Null, Str(address), Str(quantity)]);
    var full := Array([Str(id), Str(address), Str(quantity)]);
    assert DecodeNFTAsset(two) == Some(WyvernNFTAsset(id, address));
    assert DecodeNFTAsset(bare).None? && DecodeNFTAsset(full).None?;
    assert DecodeFTAsset(bare) == Some(WyvernFTAsset(None, address, quantity));
    assert DecodeFTAsset(full) == Some(WyvernFTAsset(Some(id), address, quantity));
  }
}
