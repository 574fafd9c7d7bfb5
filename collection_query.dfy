/** `OpenSeaAssetCollectionQuery`: a record of optional fields with one setter per field and a fixed
    default, serialised to query pairs in declaration order with every `None` field left
    out. */
module CollectionQueryRecord {
  import opened Wrappers
  import opened Scalars
  import opened Text
  import opened QueryPairs
  import opened OpenSeaQuery

  /** The keys of the serialised fields, in declaration order. */
  const KEYS: seq<string> := ["asset_owner", "offset", "limit", "page"]

  datatype OpenSeaAssetCollectionQuery = OpenSeaAssetCollectionQuery(
    assetOwner: Option<string>,
    offset: Option<u32>,
    limit: Option<u32>,
    page: Option<u32>)

  /** The serialised field at position `i` of the declaration order. */
  function FieldAt(q: OpenSeaAssetCollectionQuery, i: int): (f: Field)
    requires 0 <= i < |KEYS|
    ensures f.key == KEYS[i]
  {
    if i == 0 then Optional("asset_owner", q.assetOwner, Id)
    else if i == 1 then Optional("offset", q.offset, RenderU32)
    else if i == 2 then Optional("limit", q.limit, RenderU32)
    else Optional("page", q.page, RenderU32)
  }

  /** The serialised fields in declaration order. */
  function Fields(q: OpenSeaAssetCollectionQuery): (fs: seq<Field>)
    ensures KeysOf(fs) == KEYS
  {
    seq(|KEYS|, i requires 0 <= i < |KEYS| => FieldAt(q, i))
  }

  /** The query pairs: keys in declaration order, each set field under its own name and
      every empty one absent. */
  function Pairs(q: OpenSeaAssetCollectionQuery): (ps: seq<Pair>)
    ensures Subsequence(PairKeys(ps), KEYS)
    ensures forall i :: 0 <= i < |KEYS| ==> Lookup(ps, KEYS[i]) == FieldAt(q, i).value
  {
    var fs := Fields(q);
    KeysDistinct();
    PresentSpec(fs);
    assert forall i :: 0 <= i < |KEYS| ==> KeysOf(fs)[i] == KEYS[i];
    Present(fs)
  }

  /** `OpenSeaAssetCollectionQuery::default()`. */
  function Default(): OpenSeaAssetCollectionQuery {
    OpenSeaAssetCollectionQuery(None, Some(0), Some(20), Some(0))
  }

  /** One per setter of `OpenSeaAssetCollectionQuery`, carrying the value it is given. */
  datatype Setter =
    | AssetOwner(assetOwner: string)
    | Offset(offset: u32)
    | Limit(limit: u32)
    | Page(page: u32)

  /** The position, in the declaration, of the field a setter writes. */
  function Writes(s: Setter): nat {
    match s
    case AssetOwner(_) => 0
    case Offset(_) => 1
    case Limit(_) => 2
    case Page(_) => 3
  }

  /** The slot a setter of a serialised field fills and the field it puts there. */
  function Slot(s: Setter): (r: (int, Field))
    ensures 0 <= r.0 < |KEYS| && r.1.key == KEYS[r.0] && r.1.value.Some?
  {
    match s
    case AssetOwner(v) => (0, Field("asset_owner", Some(v)))
    case Offset(v) => (1, Field("offset", Some(RenderU32(v))))
    case Limit(v) => (2, Field("limit", Some(RenderU32(v))))
    case Page(v) => (3, Field("page", Some(RenderU32(v))))
  }

  /** The setters: each fills exactly its own slot and changes nothing else. */
  function Set(q: OpenSeaAssetCollectionQuery, s: Setter): (r: OpenSeaAssetCollectionQuery)
    ensures FieldAt(r, Slot(s).0) == Slot(s).1
    ensures forall i :: 0 <= i < |KEYS| && i != Slot(s).0 ==> FieldAt(r, i) == FieldAt(q, i)
  {
    match s
    case AssetOwner(v) => q.(assetOwner := Some(v))
    case Offset(v) => q.(offset := Some(v))
    case Limit(v) => q.(limit := Some(v))
    case Page(v) => q.(page := Some(v))
  }

  lemma {:induction false} KeysDistinct()
    ensures Distinct(KEYS)
  {
  }

  /** The serialised fields together determine the record. */
  lemma {:induction false} FieldsInjective(q: OpenSeaAssetCollectionQuery, q': OpenSeaAssetCollectionQuery)
    requires forall i :: 0 <= i < |KEYS| ==> FieldAt(q, i).value == FieldAt(q', i).value
    ensures q == q'
  {
    RenderInjective();
    assert FieldAt(q, 0).value == FieldAt(q', 0).value;
    OptionalInjective("asset_owner", q.assetOwner, q'.assetOwner, Id);
    assert FieldAt(q, 1).value == FieldAt(q', 1).value;
    OptionalInjective("offset", q.offset, q'.offset, RenderU32);
    assert FieldAt(q, 2).value == FieldAt(q', 2).value;
    OptionalInjective("limit", q.limit, q'.limit, RenderU32);
    assert FieldAt(q, 3).value == FieldAt(q', 3).value;
    OptionalInjective("page", q.page, q'.page, RenderU32);
  }

  /** The serialisation loses nothing: distinct records give distinct pairs. */
  lemma {:induction false} PairsInjective(q: OpenSeaAssetCollectionQuery, q': OpenSeaAssetCollectionQuery)
    requires Pairs(q) == Pairs(q')
    ensures q == q'
  {
    KeysDistinct();
    PresentInjective(Fields(q), Fields(q'));
    assert forall i :: 0 <= i < |KEYS| ==> Fields(q)[i] == FieldAt(q, i);
    FieldsInjective(q, q');
  }

  /** The default's fields: all empty but `limit`, `offset` and `page`. */
  lemma {:induction false} DefaultFields()
    ensures FieldAt(Default(), 0).value.None?
    ensures FieldAt(Default(), 1) == Field("offset", Some("0"))
    ensures FieldAt(Default(), 2) == Field("limit", Some("20"))
    ensures FieldAt(Default(), 3) == Field("page", Some("0"))
  {
    assert NatToDecimal(20) == "20" by {
      assert NatToDecimal(2) == "2";
    }
  }

  /** The default's serialised fields, from the last to the first. */
  lemma {:induction false} DefaultPresent(d: OpenSeaAssetCollectionQuery)
    requires d == Default()
    ensures Present(Fields(d)) == [("offset", "0"), ("limit", "20"), ("page", "0")]
  {
    DefaultFields();
    var fs := Fields(d);
    assert Present(fs[4..]) == [];
    PresentKeep(fs, 3, "page", "0", []);
    PresentKeep(fs, 2, "limit", "20", [("page", "0")]);
    PresentKeep(fs, 1, "offset", "0", [("limit", "20"), ("page", "0")]);
    PresentSkip(fs, 0, [("offset", "0"), ("limit", "20"), ("page", "0")]);
    assert fs[0..] == fs;
  }

  /** The default serialises to `offset`, `limit`, `page` only, in that order. */
  lemma {:induction false} DefaultPairs(d: OpenSeaAssetCollectionQuery)
    requires d == Default()
    ensures Pairs(d) == [("offset", "0"), ("limit", "20"), ("page", "0")]
  {
    DefaultPresent(d);
  }

  /** Setting the same field twice keeps only the last value. */
  lemma {:induction false} LastWriteWins(q: OpenSeaAssetCollectionQuery, s: Setter, s': Setter)
    requires Writes(s) == Writes(s')
    ensures Set(Set(q, s), s') == Set(q, s')
  {
    FieldsInjective(Set(Set(q, s), s'), Set(q, s'));
  }
}
