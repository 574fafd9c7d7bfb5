/** `OpenSeaAssetsQuery`: a record of optional fields with one setter per field and a fixed
    default, serialised to query pairs in declaration order with every `None` field left
    out. */
module AssetsQueryRecord {
  import opened Wrappers
  import opened Scalars
  import opened Text
  import opened QueryPairs
  import opened OpenSeaQuery

  /** The keys of the serialised fields, in declaration order. */
  const KEYS: seq<string> := ["owner", "asset_contract_address", "search", "order_by",
    "order_direction", "limit", "offset", "page"]

  datatype OpenSeaAssetsQuery = OpenSeaAssetsQuery(
    owner: Option<string>,
    assetContractAddress: Option<string>,
    assetContractAddresses: Option<seq<string>>,
    tokenIds: Option<seq<string>>,
    search: Option<string>,
    orderBy: Option<string>,
    orderDirection: Option<string>,
    limit: Option<u32>,
    offset: Option<u32>,
    page: Option<u32>)

  /** The serialised field at position `i` of the declaration order; `asset_contract_addresses`, `token_ids` are not one. */
  function FieldAt(q: OpenSeaAssetsQuery, i: int): (f: Field)
    requires 0 <= i < |KEYS|
    ensures f.key == KEYS[i]
  {
    if i == 0 then Optional("owner", q.owner, Id)
    else if i == 1 then Optional("asset_contract_address", q.assetContractAddress, Id)
    else if i == 2 then Optional("search", q.search, Id)
    else if i == 3 then Optional("order_by", q.orderBy, Id)
    else if i == 4 then Optional("order_direction", q.orderDirection, Id)
    else if i == 5 then Optional("limit", q.limit, RenderU32)
    else if i == 6 then Optional("offset", q.offset, RenderU32)
    else Optional("page", q.page, RenderU32)
  }

  /** The serialised fields in declaration order. */
  function Fields(q: OpenSeaAssetsQuery): (fs: seq<Field>)
    ensures KeysOf(fs) == KEYS
  {
    seq(|KEYS|, i requires 0 <= i < |KEYS| => FieldAt(q, i))
  }

  /** The query pairs: keys in declaration order, each set field under its own name and
      every empty one absent. */
  function Pairs(q: OpenSeaAssetsQuery): (ps: seq<Pair>)
    ensures Subsequence(PairKeys(ps), KEYS)
    ensures forall i :: 0 <= i < |KEYS| ==> Lookup(ps, KEYS[i]) == FieldAt(q, i).value
  {
    var fs := Fields(q);
    KeysDistinct();
    PresentSpec(fs);
    assert forall i :: 0 <= i < |KEYS| ==> KeysOf(fs)[i] == KEYS[i];
    Present(fs)
  }

  /** `serde_urlencoded` writes no sequence value, so the record serialises only while its
      list fields `token_ids` and `asset_contract_addresses` are `None`; otherwise it fails with "unsupported value". */
  predicate Serialises(q: OpenSeaAssetsQuery) {
    q.tokenIds.None? && q.assetContractAddresses.None?
  }

  /** `OpenSeaAssetsQuery::default()`. */
  function Default(): OpenSeaAssetsQuery {
    OpenSeaAssetsQuery(None, None, None, None, None, None, None, Some(20), Some(0), Some(0))
  }

  /** One per setter of `OpenSeaAssetsQuery`, carrying the value it is given. */
  datatype Setter =
    | Owner(owner: string)
    | AssetContractAddress(assetContractAddress: string)
    | AssetContractAddresses(assetContractAddresses: seq<string>)
    | TokenIds(tokenIds: seq<string>)
    | Search(search: string)
    | OrderBy(orderBy: string)
    | OrderDirection(orderDirection: string)
    | Limit(limit: u32)
    | Offset(offset: u32)
    | Page(page: u32)

  /** The position, in the declaration, of the field a setter writes. */
  function Writes(s: Setter): nat {
    match s
    case Owner(_) => 0
    case AssetContractAddress(_) => 1
    case AssetContractAddresses(_) => 2
    case TokenIds(_) => 3
    case Search(_) => 4
    case OrderBy(_) => 5
    case OrderDirection(_) => 6
    case Limit(_) => 7
    case Offset(_) => 8
    case Page(_) => 9
  }

  /** A setter of a serialised field. */
  predicate Scalar(s: Setter) {
    !s.AssetContractAddresses? && !s.TokenIds?
  }

  /** The slot a setter of a serialised field fills and the field it puts there. */
  function Slot(s: Setter): (r: (int, Field))
    requires Scalar(s)
    ensures 0 <= r.0 < |KEYS| && r.1.key == KEYS[r.0] && r.1.value.Some?
  {
    match s
    case Owner(v) => (0, Field("owner", Some(v)))
    case AssetContractAddress(v) => (1, Field("asset_contract_address", Some(v)))
    case Search(v) => (2, Field("search", Some(v)))
    case OrderBy(v) => (3, Field("order_by", Some(v)))
    case OrderDirection(v) => (4, Field("order_direction", Some(v)))
    case Limit(v) => (5, Field("limit", Some(RenderU32(v))))
    case Offset(v) => (6, Field("offset", Some(RenderU32(v))))
    case Page(v) => (7, Field("page", Some(RenderU32(v))))
  }

  /** The setters: a setter of a serialised field fills exactly its own slot and changes
      nothing else; a list setter sets only its own unserialised list. */
  function Set(q: OpenSeaAssetsQuery, s: Setter): (r: OpenSeaAssetsQuery)
    ensures s.AssetContractAddresses? ==> r.assetContractAddresses == Some(s.assetContractAddresses) && r.tokenIds == q.tokenIds
    ensures s.TokenIds? ==> r.tokenIds == Some(s.tokenIds) && r.assetContractAddresses == q.assetContractAddresses
    ensures !Scalar(s) ==> forall i :: 0 <= i < |KEYS| ==> FieldAt(r, i) == FieldAt(q, i)
    ensures Scalar(s) ==> r.assetContractAddresses == q.assetContractAddresses && r.tokenIds == q.tokenIds
    ensures Scalar(s) ==> FieldAt(r, Slot(s).0) == Slot(s).1
    ensures Scalar(s) ==>
      forall i :: 0 <= i < |KEYS| && i != Slot(s).0 ==> FieldAt(r, i) == FieldAt(q, i)
  {
    match s
    case Owner(v) => q.(owner := Some(v))
    case AssetContractAddress(v) => q.(assetContractAddress := Some(v))
    case AssetContractAddresses(v) => q.(assetContractAddresses := Some(v))
    case TokenIds(v) => q.(tokenIds := Some(v))
    case Search(v) => q.(search := Some(v))
    case OrderBy(v) => q.(orderBy := Some(v))
    case OrderDirection(v) => q.(orderDirection := Some(v))
    case Limit(v) => q.(limit := Some(v))
    case Offset(v) => q.(offset := Some(v))
    case Page(v) => q.(page := Some(v))
  }

  lemma {:induction false} KeysDistinct()
    ensures Distinct(KEYS)
  {
  }

  /** The serialised fields and the unserialised lists together determine the record. */
  lemma {:induction false} FieldsInjective(q: OpenSeaAssetsQuery, q': OpenSeaAssetsQuery)
    requires forall i :: 0 <= i < |KEYS| ==> FieldAt(q, i).value == FieldAt(q', i).value
    requires q.assetContractAddresses == q'.assetContractAddresses && q.tokenIds == q'.tokenIds
    ensures q == q'
  {
    RenderInjective();
    assert FieldAt(q, 0).value == FieldAt(q', 0).value;
    OptionalInjective("owner", q.owner, q'.owner, Id);
    assert FieldAt(q, 1).value == FieldAt(q', 1).value;
    OptionalInjective("asset_contract_address", q.assetContractAddress, q'.assetContractAddress, Id);
    assert FieldAt(q, 2).value == FieldAt(q', 2).value;
    OptionalInjective("search", q.search, q'.search, Id);
    assert FieldAt(q, 3).value == FieldAt(q', 3).value;
    OptionalInjective("order_by", q.orderBy, q'.orderBy, Id);
    assert FieldAt(q, 4).value == FieldAt(q', 4).value;
    OptionalInjective("order_direction", q.orderDirection, q'.orderDirection, Id);
    assert FieldAt(q, 5).value == FieldAt(q', 5).value;
    OptionalInjective("limit", q.limit, q'.limit, RenderU32);
    assert FieldAt(q, 6).value == FieldAt(q', 6).value;
    OptionalInjective("offset", q.offset, q'.offset, RenderU32);
    assert FieldAt(q, 7).value == FieldAt(q', 7).value;
    OptionalInjective("page", q.page, q'.page, RenderU32);
  }

  /** The serialisation loses nothing but the unserialised lists. */
  lemma {:induction false} PairsInjective(q: OpenSeaAssetsQuery, q': OpenSeaAssetsQuery)
    requires Pairs(q) == Pairs(q') && q.assetContractAddresses == q'.assetContractAddresses && q.tokenIds == q'.tokenIds
    ensures q == q'
  {
    KeysDistinct();
    PresentInjective(Fields(q), Fields(q'));
    assert forall i :: 0 <= i < |KEYS| ==> Fields(q)[i] == FieldAt(q, i);
    FieldsInjective(q, q');
  }

  /** The default's fields: all empty but `limit`, `offset` and `page`. */
  lemma {:induction false} DefaultFields()
    ensures Default().assetContractAddresses.None?
    ensures Default().tokenIds.None?
    ensures FieldAt(Default(), 0).value.None?
    ensures FieldAt(Default(), 1).value.None?
    ensures FieldAt(Default(), 2).value.None?
    ensures FieldAt(Default(), 3).value.None?
    ensures FieldAt(Default(), 4).value.None?
    ensures FieldAt(Default(), 5) == Field("limit", Some("20"))
    ensures FieldAt(Default(), 6) == Field("offset", Some("0"))
    ensures FieldAt(Default(), 7) == Field("page", Some("0"))
  {
    assert NatToDecimal(20) == "20" by {
      assert NatToDecimal(2) == "2";
    }
  }

  /** The default's serialised fields, from the last to the first. */
  lemma {:induction false} DefaultPresent(d: OpenSeaAssetsQuery)
    requires d == Default()
    ensures Present(Fields(d)) == [("limit", "20"), ("offset", "0"), ("page", "0")]
  {
    DefaultFields();
    var fs := Fields(d);
    assert Present(fs[8..]) == [];
    PresentKeep(fs, 7, "page", "0", []);
    PresentKeep(fs, 6, "offset", "0", [("page", "0")]);
    PresentKeep(fs, 5, "limit", "20", [("offset", "0"), ("page", "0")]);
    PresentSkip(fs, 4, [("limit", "20"), ("offset", "0"), ("page", "0")]);
    PresentSkip(fs, 3, [("limit", "20"), ("offset", "0"), ("page", "0")]);
    PresentSkip(fs, 2, [("limit", "20"), ("offset", "0"), ("page", "0")]);
    PresentSkip(fs, 1, [("limit", "20"), ("offset", "0"), ("page", "0")]);
    PresentSkip(fs, 0, [("limit", "20"), ("offset", "0"), ("page", "0")]);
    assert fs[0..] == fs;
  }

  /** The default serialises to `limit`, `offset`, `page` only, in that order. */
  lemma {:induction false} DefaultPairs(d: OpenSeaAssetsQuery)
    requires d == Default()
    ensures Pairs(d) == [("limit", "20"), ("offset", "0"), ("page", "0")]
  {
    DefaultPresent(d);
  }

  /** Setting the same field twice keeps only the last value. */
  lemma {:induction false} LastWriteWins(q: OpenSeaAssetsQuery, s: Setter, s': Setter)
    requires Writes(s) == Writes(s')
    ensures Set(Set(q, s), s') == Set(q, s')
  {
    FieldsInjective(Set(Set(q, s), s'), Set(q, s'));
  }

  /** The default serialises; a list setter makes any record unserialisable, and a scalar
      setter leaves that unchanged. */
  lemma {:induction false} SerialisesAfterSet(q: OpenSeaAssetsQuery, s: Setter, v: seq<string>)
    ensures Serialises(Default())
    ensures !Serialises(Set(q, TokenIds(v)))
    ensures !Serialises(Set(q, AssetContractAddresses(v)))
    ensures Scalar(s) ==> (Serialises(Set(q, s)) <==> Serialises(q))
  {
  }
}
