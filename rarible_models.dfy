/** The wire names of the Rarible model enums. Each plain enum has two definitions of its
    names: the serde rename of every variant, and a hand-written `Display` or `to_string`. The
    two agree, and decoding a name gives back its variant. The two internally tagged enums
    put their variant name under a fixed key beside the variant's own fields. */
module RaribleModels {
  import opened Wrappers
  import opened Scalars

  // `AggregationSource`

  datatype AggregationSource = All | Rarible | Opensea

  /** The serde renames. */
  function AggregationSourceName(a: AggregationSource): string {
    match a
    case All => "ALL"
    case Rarible => "RARIBLE"
    case Opensea => "OPEN_SEA"
  }

  /** `Display`: the same names as the serde renames. */
  function AggregationSourceDisplay(a: AggregationSource): (s: string)
    ensures s == AggregationSourceName(a)
  {
    match a
    case All => "ALL"
    case Rarible => "RARIBLE"
    case Opensea => "OPEN_SEA"
  }

  /** Deserialising a name: exactly the variant whose rename it is, and nothing otherwise. */
  function AggregationSourceFromName(s: string): (r: Option<AggregationSource>)
    ensures forall a :: r == Some(a) <==> AggregationSourceName(a) == s
  {
    if s == "ALL" then Some(All)
    else if s == "RARIBLE" then Some(Rarible)
    else if s == "OPEN_SEA" then Some(Opensea)
    else None
  }

  // `NftMediaSize`

  datatype NftMediaSize = Original | Big | Preview

  function NftMediaSizeName(m: NftMediaSize): string {
    match m
    case Original => "ORIGINAL"
    case Big => "BIG"
    case Preview => "PREVIEW"
  }

  /** `Display`: the same names as the serde renames. */
  function NftMediaSizeDisplay(m: NftMediaSize): (s: string)
    ensures s == NftMediaSizeName(m)
  {
    match m
    case Original => "ORIGINAL"
    case Big => "BIG"
    case Preview => "PREVIEW"
  }

  function NftMediaSizeFromName(s: string): (r: Option<NftMediaSize>)
    ensures forall m :: r == Some(m) <==> NftMediaSizeName(m) == s
  {
    if s == "ORIGINAL" then Some(Original)
    else if s == "BIG" then Some(Big)
    else if s == "PREVIEW" then Some(Preview)
    else None
  }

  // `OrderBidStatus`

  datatype OrderBidStatus = Active | Filled | Historical | Inactive | Cancelled

  function OrderBidStatusName(b: OrderBidStatus): string {
    match b
    case Active => "ACTIVE"
    case Filled => "FILLED"
    case Historical => "HISTORICAL"
    case Inactive => "INACTIVE"
    case Cancelled => "CANCELLED"
  }

  /** `to_string`: the same names as the serde renames, none of them holding a comma. */
  function OrderBidStatusToString(b: OrderBidStatus): (s: string)
    ensures s == OrderBidStatusName(b)
    ensures forall i :: 0 <= i < |s| ==> s[i] != ','
  {
    match b
    case Active => "ACTIVE"
    case Filled => "FILLED"
    case Historical => "HISTORICAL"
    case Inactive => "INACTIVE"
    case Cancelled => "CANCELLED"
  }

  function OrderBidStatusFromName(s: string): (r: Option<OrderBidStatus>)
    ensures forall b :: r == Some(b) <==> OrderBidStatusName(b) == s
  {
    if s == "ACTIVE" then Some(Active)
    else if s == "FILLED" then Some(Filled)
    else if s == "HISTORICAL" then Some(Historical)
    else if s == "INACTIVE" then Some(Inactive)
    else if s == "CANCELLED" then Some(Cancelled)
    else None
  }

  // `OrderSide`

  datatype OrderSide = Left | Right

  function OrderSideName(o: OrderSide): string {
    match o
    case Left => "LEFT"
    case Right => "RIGHT"
  }

  /** `to_string`: the same names as the serde renames. */
  function OrderSideToString(o: OrderSide): (s: string)
    ensures s == OrderSideName(o)
  {
    match o
    case Left => "LEFT"
    case Right => "RIGHT"
  }

  function OrderSideFromName(s: string): (r: Option<OrderSide>)
    ensures forall o :: r == Some(o) <==> OrderSideName(o) == s
  {
    if s == "LEFT" then Some(Left) else if s == "RIGHT" then Some(Right) else None
  }

  // `OrderType`

  datatype OrderType = V1 | V2

  function OrderTypeName(t: OrderType): string {
    match t
    case V1 => "RARIBLE_V1"
    case V2 => "RARIBLE_V2"
  }

  /** `to_string`: the same names as the serde renames. */
  function OrderTypeToString(t: OrderType): (s: string)
    ensures s == OrderTypeName(t)
  {
    match t
    case V1 => "RARIBLE_V1"
    case V2 => "RARIBLE_V2"
  }

  function OrderTypeFromName(s: string): (r: Option<OrderType>)
    ensures forall t :: r == Some(t) <==> OrderTypeName(t) == s
  {
    if s == "RARIBLE_V1" then Some(V1) else if s == "RARIBLE_V2" then Some(V2) else None
  }

  /** Every display map is injective and undone by the decoder of the serde names. */
  lemma {:induction false} DisplaysDecode(a: AggregationSource, m: NftMediaSize, b: OrderBidStatus,
                                          o: OrderSide, t: OrderType)
    ensures AggregationSourceFromName(AggregationSourceDisplay(a)) == Some(a)
    ensures NftMediaSizeFromName(NftMediaSizeDisplay(m)) == Some(m)
    ensures OrderBidStatusFromName(OrderBidStatusToString(b)) == Some(b)
    ensures OrderSideFromName(OrderSideToString(o)) == Some(o)
    ensures OrderTypeFromName(OrderTypeToString(t)) == Some(t)
  {
  }

  /** Distinct variants display differently. */
  lemma {:induction false} DisplaysInjective(b: OrderBidStatus, b': OrderBidStatus, a: AggregationSource,
                                             a': AggregationSource)
    ensures OrderBidStatusToString(b) == OrderBidStatusToString(b') ==> b == b'
    ensures AggregationSourceDisplay(a) == AggregationSourceDisplay(a') ==> a == a'
  {
    DisplaysDecode(a, Original, b, Left, V1);
    DisplaysDecode(a', Original, b', Left, V1);
  }

  // Internally tagged enums.

  /** The JSON values the tagged enums serialise to: strings, integers, arrays and objects
      whose members keep their order. */
  datatype Json = JString(s: string) | JNumber(n: int) | JArray(items: seq<Json>) | JObject(members: seq<(string, Json)>)

  /** The value under `key` in an object's members: the first member with that key. */
  function Member(members: seq<(string, Json)>, key: string): (r: Option<Json>)
    ensures r.Some? <==> exists i :: 0 <= i < |members| && members[i].0 == key
    decreases |members|
  {
    if members == [] then None
    else if members[0].0 == key then Some(members[0].1)
    else
      var r := Member(members[1..], key);
      assert r.Some? ==> exists i :: 0 <= i < |members[1..]| && members[1..][i].0 == key;
      assert r.Some? ==> exists i :: 0 <= i < |members| && members[i].0 == key by {
        if r.Some? {
          var i :| 0 <= i < |members[1..]| && members[1..][i].0 == key;
          assert members[i + 1].0 == key;
        }
      }
      r
  }

  datatype Part = Part(account: string, value: i32)

  function PartJson(p: Part): Json {
    JObject([("account", JString(p.account)), ("value", JNumber(p.value))])
  }

  function PartsJson(ps: seq<Part>): (j: Json)
    ensures j.JArray? && |j.items| == |ps|
  {
    JArray(seq(|ps|, i requires 0 <= i < |ps| => PartJson(ps[i])))
  }

  function StringsJson(ss: seq<string>): (j: Json)
    ensures j.JArray? && |j.items| == |ss|
  {
    JArray(seq(|ss|, i requires 0 <= i < |ss| => JString(ss[i])))
  }

  /** The key `AssetType` keeps its variant name under, spelled with a lower-case `c`. */
  const ASSET_TYPE_TAG: string := "assetclass"

  datatype AssetType =
    | Erc1155(contract: string, tokenId: string)
    | Erc1155Lazy(contract: string, tokenId: string, uri: string, supply: string,
                  creators: seq<Part>, royalties: seq<Part>, signatures: seq<string>)
    | Erc20(contract: string)
    | Erc721(contract: string, tokenId: string)
    | Erc721Lazy(contract: string, tokenId: string, uri: string,
                 creators: seq<Part>, royalties: seq<Part>, signatures: seq<string>)
    | Eth
    | Flow

  /** The variant renames. */
  function AssetClassName(t: AssetType): string {
    match t
    case Erc1155(_, _) => "ERC1155"
    case Erc1155Lazy(_, _, _, _, _, _, _) => "ERC1155_LAZY"
    case Erc20(_) => "ERC20"
    case Erc721(_, _) => "ERC721"
    case Erc721Lazy(_, _, _, _, _, _) => "ERC721_LAZY"
    case Eth => "ETH"
    case Flow => "FLOW"
  }

  /** The renamed fields of each variant, in declaration order. */
  function AssetTypeFields(t: AssetType): seq<(string, Json)> {
    match t
    case Erc1155(c, id) => [("contract", JString(c)), ("tokenId", JString(id))]
    case Erc1155Lazy(c, id, uri, supply, cr, ro, sig) =>
      [("contract", JString(c)), ("tokenId", JString(id)), ("uri", JString(uri)), ("supply", JString(supply)),
       ("creators", PartsJson(cr)), ("royalties", PartsJson(ro)), ("signatures", StringsJson(sig))]
    case Erc20(c) => [("contract", JString(c))]
    case Erc721(c, id) => [("contract", JString(c)), ("tokenId", JString(id))]
    case Erc721Lazy(c, id, uri, cr, ro, sig) =>
      [("contract", JString(c)), ("tokenId", JString(id)), ("uri", JString(uri)),
       ("creators", PartsJson(cr)), ("royalties", PartsJson(ro)), ("signatures", StringsJson(sig))]
    case Eth => []
    case Flow => []
  }

  /** The internally tagged serialisation: the tag member first, then the variant's fields.
      No field of any variant is named like the tag, so the tag is the only member under its
      key. */
  function AssetTypeJson(t: AssetType): (j: Json)
    ensures j.JObject? && |j.members| >= 1
    ensures j.members[0] == (ASSET_TYPE_TAG, JString(AssetClassName(t)))
    ensures forall i :: 1 <= i < |j.members| ==> j.members[i].0 != ASSET_TYPE_TAG
  {
    JObject([(ASSET_TYPE_TAG, JString(AssetClassName(t)))] + AssetTypeFields(t))
  }

  /** The variant a tag value names, as serde reads it; any other value is rejected. */
  function AssetClassFromName(s: string): (r: Option<AssetType>)
    ensures r.Some? ==> AssetClassName(r.value) == s
    ensures r.None? ==> forall t :: AssetClassName(t) != s
  {
    if s == "ERC1155" then Some(Erc1155("", ""))
    else if s == "ERC1155_LAZY" then Some(Erc1155Lazy("", "", "", "", [], [], []))
    else if s == "ERC20" then Some(Erc20(""))
    else if s == "ERC721" then Some(Erc721("", ""))
    else if s == "ERC721_LAZY" then Some(Erc721Lazy("", "", "", [], [], []))
    else if s == "ETH" then Some(Eth)
    else if s == "FLOW" then Some(Flow)
    else None
  }

  /** The variant name serde dispatches on: the string under the tag key of an object. */
  function TagOf(j: Json, tag: string): (r: Option<string>)
  {
    if j.JObject? then
      match Member(j.members, tag)
      case Some(JString(s)) => Some(s)
      case _ => None
    else None
  }

  /** Reading the tag of a serialised asset type names its variant again. */
  lemma {:induction false} AssetTypeTagDecides(t: AssetType)
    ensures TagOf(AssetTypeJson(t), ASSET_TYPE_TAG) == Some(AssetClassName(t))
    ensures AssetClassFromName(AssetClassName(t)).Some?
    ensures AssetClassFromName(AssetClassName(t)).value.Erc1155? == t.Erc1155?
    ensures AssetClassFromName(AssetClassName(t)).value.Erc721Lazy? == t.Erc721Lazy?
  {
  }

  /** Distinct variants carry distinct tag values. */
  lemma {:induction false} AssetClassNamesDistinct(t: AssetType, t': AssetType)
    requires AssetClassName(t) == AssetClassName(t')
    ensures t.Erc1155? == t'.Erc1155? && t.Erc1155Lazy? == t'.Erc1155Lazy? && t.Erc20? == t'.Erc20?
    ensures t.Erc721? == t'.Erc721? && t.Erc721Lazy? == t'.Erc721Lazy? && t.Eth? == t'.Eth? && t.Flow? == t'.Flow?
  {
  }

  /** The key `OrderData` keeps its variant name under. */
  const ORDER_DATA_TAG: string := "datatype"

  datatype OrderData =
    | OrderDataLegacy(fee: i32)
    | OrderRaribleV2DataV1(payouts: seq<Part>, originFees: seq<Part>)

  function OrderDataName(d: OrderData): string {
    match d
    case OrderDataLegacy(_) => "LEGACY"
    case OrderRaribleV2DataV1(_, _) => "RARIBLE_V2_DATA_V1"
  }

  /** The tagged serialisation of order data: the tag, then the fee or the two part lists. */
  function OrderDataJson(d: OrderData): (j: Json)
    ensures j.JObject? && |j.members| >= 2
    ensures j.members[0] == (ORDER_DATA_TAG, JString(OrderDataName(d)))
    ensures forall i :: 1 <= i < |j.members| ==> j.members[i].0 != ORDER_DATA_TAG
  {
    match d
    case OrderDataLegacy(fee) =>
      JObject([(ORDER_DATA_TAG, JString("LEGACY")), ("fee", JNumber(fee))])
    case OrderRaribleV2DataV1(payouts, fees) =>
      JObject([(ORDER_DATA_TAG, JString("RARIBLE_V2_DATA_V1")), ("payouts", PartsJson(payouts)),
               ("originFees", PartsJson(fees))])
  }

  /** The tag of serialised order data tells the two variants apart. */
  lemma {:induction false} OrderDataTagDecides(d: OrderData)
    ensures TagOf(OrderDataJson(d), ORDER_DATA_TAG) == Some(OrderDataName(d))
    ensures OrderDataName(d) == "LEGACY" <==> d.OrderDataLegacy?
  {
  }
}
