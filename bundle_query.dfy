/** `OpenSeaAssetBundleQuery`: a record of optional fields with one setter per field and a fixed
    default, serialised to query pairs in declaration order with every `None` field left
    out. */
module BundleQueryRecord {
  import opened Wrappers
  import opened Scalars
  import opened Text
  import opened QueryPairs
  import opened OpenSeaQuery

  /** The keys of the serialised fields, in declaration order. */
  const KEYS: seq<string> := ["asset_contract_address", "on_sale", "owner", "offset", "limit",
    "search", "page"]

  datatype OpenSeaAssetBundleQuery = OpenSeaAssetBundleQuery(
    assetContractAddress: Option<string>,
    tokenIds: Option<seq<string>>,
    onSale: Option<bool>,
    owner: Option<string>,
    offset: Option<u32>,
    limit: Option<u32>,
    search: Option<string>,
    page: Option<u32>)

  /** The serialised field at position `i` of the declaration order; `token_ids` is not one. */
  function FieldAt(q: OpenSeaAssetBundleQuery, i: int): (f: Field)
    requires 0 <= i < |KEYS|
    ensures f.key == KEYS[i]
  {
    if i == 0 then Optional("asset_contract_address", q.assetContractAddress, Id)
    else if i == 1 then Optional("on_sale", q.onSale, RenderBool)
    else if i == 2 then Optional("owner", q.owner, Id)
    else if i == 3 then Optional("offset", q.offset, RenderU32)
    else if i == 4 then Optional("limit", q.limit, RenderU32)
    else if i == 5 then Optional("search", q.search, Id)
    else Optional("page", q.page, RenderU32)
  }

  /** The serialised fields in declaration order. */
  function Fields(q: OpenSeaAssetBundleQuery): (fs: seq<Field>)
    ensures KeysOf(fs) == KEYS
  {
    seq(|KEYS|, i requires 0 <= i < |KEYS| => FieldAt(q, i))
  }

  /** The query pairs: keys in declaration order, each set field under its own name and
      every empty one absent. */
  function Pairs(q: OpenSeaAssetBundleQuery): (ps: seq<Pair>)
    ensures Subsequence(PairKeys(ps), KEYS)
    ensures forall i :: 0 <= i < |KEYS| ==> Lookup(ps, KEYS[i]) == FieldAt(q, i).value
  {
    var fs := Fields(q);
    KeysDistinct();
    PresentSpec(fs);
    assert forall i :: 0 <= i < |KEYS| ==> KeysOf(fs)[i] == KEYS[i];
    Present(fs)
  }

  /** `serde_urlencoded` writes no sequence value, so the record serialises only while its
      list field `token_ids` is `None`; otherwise it fails with "unsupported value". */
  predicate Serialises(q: OpenSeaAssetBundleQuery) {
    q.tokenIds.None?
  }

  /** `OpenSeaAssetBundleQuery::default()`. */
  function Default(): OpenSeaAssetBundleQuery {
    OpenSeaAssetBundleQuery(None, None, None, None, Some(0), Some(20), None, Some(0))
  }

  /** One per setter of `OpenSeaAssetBundleQuery`, carrying the value it is given. */
  datatype Setter =
    | AssetContractAddress(assetContractAddress: string)
    | TokenIds(tokenIds: seq<string>)
    | OnSale(onSale: bool)
    | Owner(owner: string)
    | Offset(offset: u32)
    | Limit(limit: u32)
    | Search(search: string)
    | Page(page: u32)

  /** The position, in the declaration, of the field a setter writes. */
  function Writes(s: Setter): nat {
    match s
    case AssetContractAddress(_) => 0
    case TokenIds(_) => 1
    case OnSale(_) => 2
    case Owner(_) => 3
    case Offset(_) => 4
    case Limit(_) => 5
    case Search(_) => 6
    case Page(_) => 7
  }

  /** A setter of a serialised field. */
  predicate Scalar(s: Setter) {
    !s.TokenIds?
  }

  /** The slot a setter of a serialised field fills and the field it puts there. */
  function Slot(s: Setter): (r: (int, Field))
    requires Scalar(s)
    ensures 0 <= r.0 < |KEYS| && r.1.key == KEYS[r.0] && r.1.value.Some?
  {
    match s
    case AssetContractAddress(v) => (0, Field("asset_contract_address", Some(v)))
    case OnSale(v) => (1, Field("on_sale", Some(RenderBool(v))))
    case Owner(v) => (2, Field("owner", Some(v)))
    case Offset(v) => (3, Field("offset", Some(RenderU32(v))))
    case Limit(v) => (4, Field("limit", Some(RenderU32(v))))
    case Search(v) => (5, Field("search", Some(v)))
    case Page(v) => (6, Field("page", Some(RenderU32(v))))
  }

  /** The setters: a setter of a serialised field fills exactly its own slot and changes
      nothing else; a list setter sets only its own unserialised list. */
  function Set(q: OpenSeaAssetBundleQuery, s: Setter): (r: OpenSeaAssetBundleQuery)
    ensures s.TokenIds? ==> r.tokenIds == Some(s.tokenIds)
    ensures !Scalar(s) ==> forall i :: 0 <= i < |KEYS| ==> FieldAt(r, i) == FieldAt(q, i)
    ensures Scalar(s) ==> r.tokenIds == q.tokenIds
    ensures Scalar(s) ==> FieldAt(r, Slot(s).0) == Slot(s).1
    ensures Scalar(s) ==>
      forall i :: 0 <= i < |KEYS| && i != Slot(s).0 ==> FieldAt(r, i) == FieldAt(q, i)
  {
    match s
    case AssetContractAddress(v) => q.(assetContractAddress := Some(v))
    case TokenIds(v) => q.(tokenIds := Some(v))
    case OnSale(v) => q.(onSale := Some(v))
    case Owner(v) => q.(owner := Some(v))
    case Offset(v) => q.(offset := Some(v))
    case Limit(v) => q.(limit := Some(v))
    case Search(v) => q.(search := Some(v))
    case Page(v) => q.(page := Some(v))
  }

  lemma {:induction false} KeysDistinct()
    ensures Distinct(KEYS)
  {
  }

  /** The serialised fields and the unserialised list together determine the record. */
  lemma {:induction false} FieldsInjective(q: OpenSeaAssetBundleQuery, q': OpenSeaAssetBundleQuery)
    requires forall i :: 0 <= i < |KEYS| ==> FieldAt(q, i).value == FieldAt(q', i).value
    requires q.tokenIds == q'.tokenIds
    ensures q == q'
  {
    RenderInjective();
    assert FieldAt(q, 0).value == FieldAt(q', 0).value;
    OptionalInjective("asset_contract_address", q.assetContractAddress, q'.assetContractAddress, Id);
    assert FieldAt(q, 1).value == FieldAt(q', 1).value;
    OptionalInjective("on_sale", q.onSale, q'.onSale, RenderBool);
    assert FieldAt(q, 2).value == FieldAt(q', 2).value;
    OptionalInjective("owner", q.owner, q'.owner, Id);
    assert FieldAt(q, 3).value == FieldAt(q', 3).value;
    OptionalInjective("offset", q.offset, q'.offset, RenderU32);
    assert FieldAt(q, 4).value == FieldAt(q', 4).value;
    OptionalInjective("limit", q.limit, q'.limit, RenderU32);
    assert FieldAt(q, 5).value == FieldAt(q', 5).value;
    OptionalInjective("search", q.search, q'.search, Id);
    assert FieldAt(q, 6).value == FieldAt(q', 6).value;
    OptionalInjective("page", q.page, q'.page, RenderU32);
  }

  /** The serialisation loses nothing but the unserialised list. */
  lemma {:induction false} PairsInjective(q: OpenSeaAssetBundleQuery, q': OpenSeaAssetBundleQuery)
    requires Pairs(q) == Pairs(q') && q.tokenIds == q'.tokenIds
    ensures q == q'
  {
    KeysDistinct();
    PresentInjective(Fields(q), Fields(q'));
    assert forall i :: 0 <= i < |KEYS| ==> Fields(q)[i] == FieldAt(q, i);
    FieldsInjective(q, q');
  }

  /** The default's fields: all empty but `limit`, `offset` and `page`. */
  lemma {:induction false} DefaultFields()
    ensures Default().tokenIds.None?
    ensures FieldAt(Default(), 0).value.None?
    ensures FieldAt(Default(), 1).value.None?
    ensures FieldAt(Default(), 2).value.None?
    ensures FieldAt(Default(), 3) == Field("offset", Some("0"))
    ensures FieldAt(Default(), 4) == Field("limit", Some("20"))
    ensures FieldAt(Default(), 5).value.None?
    ensures FieldAt(Default(), 6) == Field("page", Some("0"))
  {
    assert NatToDecimal(20) == "20" by {
      assert NatToDecimal(2) == "2";
    }
  }

  /** The default's serialised fields, from the last to the first. */
  lemma {:induction false} DefaultPresent(d: OpenSeaAssetBundleQuery)
    requires d == Default()
    ensures Present(Fields(d)) == [("offset", "0"), ("limit", "20"), ("page", "0")]
  {
    DefaultFields();
    var fs := Fields(d);
    assert Present(fs[7..]) == [];
    PresentKeep(fs, 6, "page", "0", []);
    PresentSkip(fs, 5, [("page", "0")]);
    PresentKeep(fs, 4, "limit", "20", [("page", "0")]);
    PresentKeep(fs, 3, "offset", "0", [("limit", "20"), ("page", "0")]);
    PresentSkip(fs, 2, [("offset", "0"), ("limit", "20"), ("page", "0")]);
    PresentSkip(fs, 1, [("offset", "0"), ("limit", "20"), ("page", "0")]);
    PresentSkip(fs, 0, [("offset", "0"), ("limit", "20"), ("page", "0")]);
    assert fs[0..] == fs;
  }

  /** The default serialises to `offset`, `limit`, `page` only, in that order. */
  lemma {:induction false} DefaultPairs(d: OpenSeaAssetBundleQuery)
    requires d == Default()
    ensures Pairs(d) == [("offset", "0"), ("limit", "20"), ("page", "0")]
  {
    DefaultPresent(d);
  }

  /** Setting the same field twice keeps only the last value. */
  lemma {:induction false} LastWriteWins(q: OpenSeaAssetBundleQuery, s: Setter, s': Setter)
    requires Writes(s) == Writes(s')
    ensures Set(Set(q, s), s') == Set(q, s')
  {
    FieldsInjective(Set(Set(q, s), s'), Set(q, s'));
  }

  /** The default serialises; a list setter makes any record unserialisable, and a scalar
      setter leaves that unchanged. */
  lemma {:induction false} SerialisesAfterSet(q: OpenSeaAssetBundleQuery, s: Setter, v: seq<string>)
    ensures Serialises(Default())
    ensures !Serialises(Set(q, TokenIds(v)))
    ensures Scalar(s) ==> (Serialises(Set(q, s)) <==> Serialises(q))
  {
  }
}
