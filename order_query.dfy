/** `OrderQuery`: a record of optional fields with one setter per field and a fixed
    default, serialised to query pairs in declaration order with every `None` field left
    out. */
module OrderQueryRecord {
  import opened Wrappers
  import opened Scalars
  import opened Text
  import opened QueryPairs
  import opened OpenSeaQuery
  import M = OpenSeaModels

  /** The keys of the serialised fields, in declaration order. */
  const KEYS: seq<string> := ["owner", "sale_kind", "asset_contract_address",
    "payment_token_address", "is_english", "is_expired", "bundled", "include_invalid", "token_id",
    "listed_after", "listed_before", "limit", "offset", "page"]

  datatype OrderQuery = OrderQuery(
    owner: Option<string>,
    saleKind: Option<M.SaleKind>,
    assetContractAddress: Option<string>,
    paymentTokenAddress: Option<string>,
    isEnglish: Option<bool>,
    isExpired: Option<bool>,
    bundled: Option<bool>,
    includeInvalid: Option<bool>,
    tokenId: Option<string>,
    tokenIds: Option<seq<string>>,
    listedAfter: Option<string>,
    listedBefore: Option<string>,
    limit: Option<u32>,
    offset: Option<u32>,
    page: Option<u32>)

  /** The serialised field at position `i` of the declaration order; `token_ids` is not one. */
  function FieldAt(q: OrderQuery, i: int): (f: Field)
    requires 0 <= i < |KEYS|
    ensures f.key == KEYS[i]
  {
    if i == 0 then Optional("owner", q.owner, Id)
    else if i == 1 then Optional("sale_kind", q.saleKind, RenderSaleKind)
    else if i == 2 then Optional("asset_contract_address", q.assetContractAddress, Id)
    else if i == 3 then Optional("payment_token_address", q.paymentTokenAddress, Id)
    else if i == 4 then Optional("is_english", q.isEnglish, RenderBool)
    else if i == 5 then Optional("is_expired", q.isExpired, RenderBool)
    else if i == 6 then Optional("bundled", q.bundled, RenderBool)
    else if i == 7 then Optional("include_invalid", q.includeInvalid, RenderBool)
    else if i == 8 then Optional("token_id", q.tokenId, Id)
    else if i == 9 then Optional("listed_after", q.listedAfter, Id)
    else if i == 10 then Optional("listed_before", q.listedBefore, Id)
    else if i == 11 then Optional("limit", q.limit, RenderU32)
    else if i == 12 then Optional("offset", q.offset, RenderU32)
    else Optional("page", q.page, RenderU32)
  }

  /** The serialised fields in declaration order. */
  function Fields(q: OrderQuery): (fs: seq<Field>)
    ensures KeysOf(fs) == KEYS
  {
    seq(|KEYS|, i requires 0 <= i < |KEYS| => FieldAt(q, i))
  }

  /** The query pairs: keys in declaration order, each set field under its own name and
      every empty one absent. */
  function Pairs(q: OrderQuery): (ps: seq<Pair>)
    ensures Subsequence(PairKeys(ps), KEYS)
    ensures forall i :: 0 <= i < |KEYS| ==> Lookup(ps, KEYS[i]) == FieldAt(q, i).value
  {
    var fs := Fields(q);
    KeysDistinct();
    PresentSpec(fs);
    assert forall i :: 0 <= i < |KEYS| ==> KeysOf(fs)[i] == KEYS[i];
    Present(fs)
  }

  /** `serde_urlencoded` writes no sequence value, so the record serialises only while its
      list field `token_ids` is `None`; otherwise it fails with "unsupported value". */
  predicate Serialises(q: OrderQuery) {
    q.tokenIds.None?
  }

  /** `OrderQuery::default()`. */
  function Default(): OrderQuery {
    OrderQuery(None, None, None, None, None, None, None, None, None, None, None, None, Some(20), Some(0), Some(0))
  }

  /** One per setter of `OrderQuery`, carrying the value it is given. */
  datatype Setter =
    | Owner(owner: string)
    | SaleKind(saleKind: M.SaleKind)
    | AssetContractAddress(assetContractAddress: string)
    | PaymentTokenAddress(paymentTokenAddress: string)
    | IsEnglish(isEnglish: bool)
    | IsExpired(isExpired: bool)
    | Bundled(bundled: bool)
    | IncludeInvalid(includeInvalid: bool)
    | TokenId(tokenId: string)
    | TokenIds(tokenIds: seq<string>)
    | ListedAfter(listedAfter: string)
    | ListedBefore(listedBefore: string)
    | Limit(limit: u32)
    | Offset(offset: u32)
    | Page(page: u32)

  /** The position, in the declaration, of the field a setter writes. */
  function Writes(s: Setter): nat {
    match s
    case Owner(_) => 0
    case SaleKind(_) => 1
    case AssetContractAddress(_) => 2
    case PaymentTokenAddress(_) => 3
    case IsEnglish(_) => 4
    case IsExpired(_) => 5
    case Bundled(_) => 6
    case IncludeInvalid(_) => 7
    case TokenId(_) => 8
    case TokenIds(_) => 9
    case ListedAfter(_) => 10
    case ListedBefore(_) => 11
    case Limit(_) => 12
    case Offset(_) => 13
    case Page(_) => 14
  }

  /** A setter of a serialised field. */
  predicate Scalar(s: Setter) {
    !s.TokenIds?
  }

  /** The slot a setter of a serialised field fills and the field it puts there. */
  function Slot(s: Setter): (r: (int, Field))
    requires Scalar(s)
    ensures 0 <= r.0 < |KEYS| && r.1.key == KEYS[r.0] && r.1.value.Some?
  {
    match s
    case Owner(v) => (0, Field("owner", Some(v)))
    case SaleKind(v) => (1, Field("sale_kind", Some(RenderSaleKind(v))))
    case AssetContractAddress(v) => (2, Field("asset_contract_address", Some(v)))
    case PaymentTokenAddress(v) => (3, Field("payment_token_address", Some(v)))
    case IsEnglish(v) => (4, Field("is_english", Some(RenderBool(v))))
    case IsExpired(v) => (5, Field("is_expired", Some(RenderBool(v))))
    case Bundled(v) => (6, Field("bundled", Some(RenderBool(v))))
    case IncludeInvalid(v) => (7, Field("include_invalid", Some(RenderBool(v))))
    case TokenId(v) => (8, Field("token_id", Some(v)))
    case ListedAfter(v) => (9, Field("listed_after", Some(v)))
    case ListedBefore(v) => (10, Field("listed_before", Some(v)))
    case Limit(v) => (11, Field("limit", Some(RenderU32(v))))
    case Offset(v) => (12, Field("offset", Some(RenderU32(v))))
    case Page(v) => (13, Field("page", Some(RenderU32(v))))
  }

  /** The setters: a setter of a serialised field fills exactly its own slot and changes
      nothing else; a list setter sets only its own unserialised list. */
  function Set(q: OrderQuery, s: Setter): (r: OrderQuery)
    ensures s.TokenIds? ==> r.tokenIds == Some(s.tokenIds)
    ensures !Scalar(s) ==> forall i :: 0 <= i < |KEYS| ==> FieldAt(r, i) == FieldAt(q, i)
    ensures Scalar(s) ==> r.tokenIds == q.tokenIds
    ensures Scalar(s) ==> FieldAt(r, Slot(s).0) == Slot(s).1
    ensures Scalar(s) ==>
      forall i :: 0 <= i < |KEYS| && i != Slot(s).0 ==> FieldAt(r, i) == FieldAt(q, i)
  {
    match s
    case Owner(v) => q.(owner := Some(v))
    case SaleKind(v) => q.(saleKind := Some(v))
    case AssetContractAddress(v) => q.(assetContractAddress := Some(v))
    case PaymentTokenAddress(v) => q.(paymentTokenAddress := Some(v))
    case IsEnglish(v) => q.(isEnglish := Some(v))
    case IsExpired(v) => q.(isExpired := Some(v))
    case Bundled(v) => q.(bundled := Some(v))
    case IncludeInvalid(v) => q.(includeInvalid := Some(v))
    case TokenId(v) => q.(tokenId := Some(v))
    case TokenIds(v) => q.(tokenIds := Some(v))
    case ListedAfter(v) => q.(listedAfter := Some(v))
    case ListedBefore(v) => q.(listedBefore := Some(v))
    case Limit(v) => q.(limit := Some(v))
    case Offset(v) => q.(offset := Some(v))
    case Page(v) => q.(page := Some(v))
  }

  lemma {:induction false} KeysDistinct()
    ensures Distinct(KEYS)
  {
  }

  /** The serialised fields and the unserialised list together determine the record. */
  lemma {:induction false} FieldsInjective(q: OrderQuery, q': OrderQuery)
    requires forall i :: 0 <= i < |KEYS| ==> FieldAt(q, i).value == FieldAt(q', i).value
    requires q.tokenIds == q'.tokenIds
    ensures q == q'
  {
    RenderInjective();
    assert FieldAt(q, 0).value == FieldAt(q', 0).value;
    OptionalInjective("owner", q.owner, q'.owner, Id);
    assert FieldAt(q, 1).value == FieldAt(q', 1).value;
    OptionalInjective("sale_kind", q.saleKind, q'.saleKind, RenderSaleKind);
    assert FieldAt(q, 2).value == FieldAt(q', 2).value;
    OptionalInjective("asset_contract_address", q.assetContractAddress, q'.assetContractAddress, Id);
    assert FieldAt(q, 3).value == FieldAt(q', 3).value;
    OptionalInjective("payment_token_address", q.paymentTokenAddress, q'.paymentTokenAddress, Id);
    assert FieldAt(q, 4).value == FieldAt(q', 4).value;
    OptionalInjective("is_english", q.isEnglish, q'.isEnglish, RenderBool);
    assert FieldAt(q, 5).value == FieldAt(q', 5).value;
    OptionalInjective("is_expired", q.isExpired, q'.isExpired, RenderBool);
    assert FieldAt(q, 6).value == FieldAt(q', 6).value;
    OptionalInjective("bundled", q.bundled, q'.bundled, RenderBool);
    assert FieldAt(q, 7).value == FieldAt(q', 7).value;
    OptionalInjective("include_invalid", q.includeInvalid, q'.includeInvalid, RenderBool);
    assert FieldAt(q, 8).value == FieldAt(q', 8).value;
    OptionalInjective("token_id", q.tokenId, q'.tokenId, Id);
    assert FieldAt(q, 9).value == FieldAt(q', 9).value;
    OptionalInjective("listed_after", q.listedAfter, q'.listedAfter, Id);
    assert FieldAt(q, 10).value == FieldAt(q', 10).value;
    OptionalInjective("listed_before", q.listedBefore, q'.listedBefore, Id);
    assert FieldAt(q, 11).value == FieldAt(q', 11).value;
    OptionalInjective("limit", q.limit, q'.limit, RenderU32);
    assert FieldAt(q, 12).value == FieldAt(q', 12).value;
    OptionalInjective("offset", q.offset, q'.offset, RenderU32);
    assert FieldAt(q, 13).value == FieldAt(q', 13).value;
    OptionalInjective("page", q.page, q'.page, RenderU32);
  }

  /** The serialisation loses nothing but the unserialised list. */
  lemma {:induction false} PairsInjective(q: OrderQuery, q': OrderQuery)
    requires Pairs(q) == Pairs(q') && q.tokenIds == q'.tokenIds
    ensures q == q'
  {
    KeysDistinct();
    PresentInjective(Fields(q), Fields(q'));
    assert forall i :: 0 <= i < |KEYS| ==> Fields(q)[i] == FieldAt(q, i);
    FieldsInjective(q, q');
  }

  /** The default's fields: all empty but `limit`, `offset` and `page`. */
  lemma {:induction false} DefaultFields()
    ensures Default().tokenIds.None?
    ensures FieldAt(Default(), 0).value.None?
    ensures FieldAt(Default(), 1).value.None?
    ensures FieldAt(Default(), 2).value.None?
    ensures FieldAt(Default(), 3).value.None?
    ensures FieldAt(Default(), 4).value.None?
    ensures FieldAt(Default(), 5).value.None?
    ensures FieldAt(Default(), 6).value.None?
    ensures FieldAt(Default(), 7).value.None?
    ensures FieldAt(Default(), 8).value.None?
    ensures FieldAt(Default(), 9).value.None?
    ensures FieldAt(Default(), 10).value.None?
    ensures FieldAt(Default(), 11) == Field("limit", Some("20"))
    ensures FieldAt(Default(), 12) == Field("offset", Some("0"))
    ensures FieldAt(Default(), 13) == Field("page", Some("0"))
  {
    assert NatToDecimal(20) == "20" by {
      assert NatToDecimal(2) == "2";
    }
  }

  /** The default's serialised fields, from the last to the first. */
  lemma {:induction false} DefaultPresent(d: OrderQuery)
    requires d == Default()
    ensures Present(Fields(d)) == [("limit", "20"), ("offset", "0"), ("page", "0")]
  {
    DefaultFields();
    var fs := Fields(d);
    assert Present(fs[14..]) == [];
    PresentKeep(fs, 13, "page", "0", []);
    PresentKeep(fs, 12, "offset", "0", [("page", "0")]);
    PresentKeep(fs, 11, "limit", "20", [("offset", "0"), ("page", "0")]);
    PresentSkip(fs, 10, [("limit", "20"), ("offset", "0"), ("page", "0")]);
    PresentSkip(fs, 9, [("limit", "20"), ("offset", "0"), ("page", "0")]);
    PresentSkip(fs, 8, [("limit", "20"), ("offset", "0"), ("page", "0")]);
    PresentSkip(fs, 7, [("limit", "20"), ("offset", "0"), ("page", "0")]);
    PresentSkip(fs, 6, [("limit", "20"), ("offset", "0"), ("page", "0")]);
    PresentSkip(fs, 5, [("limit", "20"), ("offset", "0"), ("page", "0")]);
    PresentSkip(fs, 4, [("limit", "20"), ("offset", "0"), ("page", "0")]);
    PresentSkip(fs, 3, [("limit", "20"), ("offset", "0"), ("page", "0")]);
    PresentSkip(fs, 2, [("limit", "20"), ("offset", "0"), ("page", "0")]);
    PresentSkip(fs, 1, [("limit", "20"), ("offset", "0"), ("page", "0")]);
    PresentSkip(fs, 0, [("limit", "20"), ("offset", "0"), ("page", "0")]);
    assert fs[0..] == fs;
  }

  /** The default serialises to `limit`, `offset`, `page` only, in that order. */
  lemma {:induction false} DefaultPairs(d: OrderQuery)
    requires d == Default()
    ensures Pairs(d) == [("limit", "20"), ("offset", "0"), ("page", "0")]
  {
    DefaultPresent(d);
  }

  /** Setting the same field twice keeps only the last value. */
  lemma {:induction false} LastWriteWins(q: OrderQuery, s: Setter, s': Setter)
    requires Writes(s) == Writes(s')
    ensures Set(Set(q, s), s') == Set(q, s')
  {
    FieldsInjective(Set(Set(q, s), s'), Set(q, s'));
  }

  /** The default serialises; a list setter makes any record unserialisable, and a scalar
      setter leaves that unchanged. */
  lemma {:induction false} SerialisesAfterSet(q: OrderQuery, s: Setter, v: seq<string>)
    ensures Serialises(Default())
    ensures !Serialises(Set(q, TokenIds(v)))
    ensures Scalar(s) ==> (Serialises(Set(q, s)) <==> Serialises(q))
  {
  }
}
