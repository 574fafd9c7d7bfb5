/** `OpenSeaEventsQuery`: a record of optional fields with one setter per field and a fixed
    default, serialised to query pairs in declaration order with every `None` field left
    out. */
module EventsQueryRecord {
  import opened Wrappers
  import opened Scalars
  import opened Text
  import opened QueryPairs
  import opened OpenSeaQuery
  import M = OpenSeaModels

  /** The keys of the serialised fields, in declaration order. */
  const KEYS: seq<string> := ["asset_contract_address", "collection_slug", "token_id",
    "account_address", "event_type", "only_opensea", "auction_type", "offset", "limit",
    "occurred_before", "occurred_after", "page"]

  datatype OpenSeaEventsQuery = OpenSeaEventsQuery(
    assetContractAddress: Option<string>,
    collectionSlug: Option<string>,
    tokenId: Option<string>,
    accountAddress: Option<string>,
    eventType: Option<EventTypeQuery>,
    onlyOpensea: Option<bool>,
    auctionType: Option<M.AuctionType>,
    offset: Option<u32>,
    limit: Option<u32>,
    occurredBefore: Option<string>,
    occurredAfter: Option<string>,
    page: Option<u32>)

  /** The serialised field at position `i` of the declaration order. */
  function FieldAt(q: OpenSeaEventsQuery, i: int): (f: Field)
    requires 0 <= i < |KEYS|
    ensures f.key == KEYS[i]
  {
    if i == 0 then Optional("asset_contract_address", q.assetContractAddress, Id)
    else if i == 1 then Optional("collection_slug", q.collectionSlug, Id)
    else if i == 2 then Optional("token_id", q.tokenId, Id)
    else if i == 3 then Optional("account_address", q.accountAddress, Id)
    else if i == 4 then Optional("event_type", q.eventType, RenderEventType)
    else if i == 5 then Optional("only_opensea", q.onlyOpensea, RenderBool)
    else if i == 6 then Optional("auction_type", q.auctionType, RenderAuctionType)
    else if i == 7 then Optional("offset", q.offset, RenderU32)
    else if i == 8 then Optional("limit", q.limit, RenderU32)
    else if i == 9 then Optional("occurred_before", q.occurredBefore, Id)
    else if i == 10 then Optional("occurred_after", q.occurredAfter, Id)
    else Optional("page", q.page, RenderU32)
  }

  /** The serialised fields in declaration order. */
  function Fields(q: OpenSeaEventsQuery): (fs: seq<Field>)
    ensures KeysOf(fs) == KEYS
  {
    seq(|KEYS|, i requires 0 <= i < |KEYS| => FieldAt(q, i))
  }

  /** The query pairs: keys in declaration order, each set field under its own name and
      every empty one absent. */
  function Pairs(q: OpenSeaEventsQuery): (ps: seq<Pair>)
    ensures Subsequence(PairKeys(ps), KEYS)
    ensures forall i :: 0 <= i < |KEYS| ==> Lookup(ps, KEYS[i]) == FieldAt(q, i).value
  {
    var fs := Fields(q);
    KeysDistinct();
    PresentSpec(fs);
    assert forall i :: 0 <= i < |KEYS| ==> KeysOf(fs)[i] == KEYS[i];
    Present(fs)
  }

  /** `OpenSeaEventsQuery::default()`. */
  function Default(): OpenSeaEventsQuery {
    OpenSeaEventsQuery(None, None, None, None, None, None, None, Some(0), Some(20), None, None, Some(0))
  }

  /** One per setter of `OpenSeaEventsQuery`, carrying the value it is given. */
  datatype Setter =
    | AssetContractAddress(assetContractAddress: string)
    | CollectionSlug(collectionSlug: string)
    | TokenId(tokenId: string)
    | AccountAddress(accountAddress: string)
    | EventType(eventType: EventTypeQuery)
    | OnlyOpensea(onlyOpensea: bool)
    | AuctionType(auctionType: M.AuctionType)
    | Offset(offset: u32)
    | Limit(limit: u32)
    | OccurredBefore(occurredBefore: string)
    | OccurredAfter(occurredAfter: string)
    | Page(page: u32)

  /** The position, in the declaration, of the field a setter writes. */
  function Writes(s: Setter): nat {
    match s
    case AssetContractAddress(_) => 0
    case CollectionSlug(_) => 1
    case TokenId(_) => 2
    case AccountAddress(_) => 3
    case EventType(_) => 4
    case OnlyOpensea(_) => 5
    case AuctionType(_) => 6
    case Offset(_) => 7
    case Limit(_) => 8
    case OccurredBefore(_) => 9
    case OccurredAfter(_) => 10
    case Page(_) => 11
  }

  /** The slot a setter of a serialised field fills and the field it puts there. */
  function Slot(s: Setter): (r: (int, Field))
    ensures 0 <= r.0 < |KEYS| && r.1.key == KEYS[r.0] && r.1.value.Some?
  {
    match s
    case AssetContractAddress(v) => (0, Field("asset_contract_address", Some(v)))
    case CollectionSlug(v) => (1, Field("collection_slug", Some(v)))
    case TokenId(v) => (2, Field("token_id", Some(v)))
    case AccountAddress(v) => (3, Field("account_address", Some(v)))
    case EventType(v) => (4, Field("event_type", Some(RenderEventType(v))))
    case OnlyOpensea(v) => (5, Field("only_opensea", Some(RenderBool(v))))
    case AuctionType(v) => (6, Field("auction_type", Some(RenderAuctionType(v))))
    case Offset(v) => (7, Field("offset", Some(RenderU32(v))))
    case Limit(v) => (8, Field("limit", Some(RenderU32(v))))
    case OccurredBefore(v) => (9, Field("occurred_before", Some(v)))
    case OccurredAfter(v) => (10, Field("occurred_after", Some(v)))
    case Page(v) => (11, Field("page", Some(RenderU32(v))))
  }

  /** The setters: each fills exactly its own slot and changes nothing else. */
  function Set(q: OpenSeaEventsQuery, s: Setter): (r: OpenSeaEventsQuery)
    ensures FieldAt(r, Slot(s).0) == Slot(s).1
    ensures forall i :: 0 <= i < |KEYS| && i != Slot(s).0 ==> FieldAt(r, i) == FieldAt(q, i)
  {
    match s
    case AssetContractAddress(v) => q.(assetContractAddress := Some(v))
    case CollectionSlug(v) => q.(collectionSlug := Some(v))
    case TokenId(v) => q.(tokenId := Some(v))
    case AccountAddress(v) => q.(accountAddress := Some(v))
    case EventType(v) => q.(eventType := Some(v))
    case OnlyOpensea(v) => q.(onlyOpensea := Some(v))
    case AuctionType(v) => q.(auctionType := Some(v))
    case Offset(v) => q.(offset := Some(v))
    case Limit(v) => q.(limit := Some(v))
    case OccurredBefore(v) => q.(occurredBefore := Some(v))
    case OccurredAfter(v) => q.(occurredAfter := Some(v))
    case Page(v) => q.(page := Some(v))
  }

  lemma {:induction false} KeysDistinct()
    ensures Distinct(KEYS)
  {
  }

  /** The serialised fields together determine the record. */
  lemma {:induction false} FieldsInjective(q: OpenSeaEventsQuery, q': OpenSeaEventsQuery)
    requires forall i :: 0 <= i < |KEYS| ==> FieldAt(q, i).value == FieldAt(q', i).value
    ensures q == q'
  {
    RenderInjective();
    assert FieldAt(q, 0).value == FieldAt(q', 0).value;
    OptionalInjective("asset_contract_address", q.assetContractAddress, q'.assetContractAddress, Id);
    assert FieldAt(q, 1).value == FieldAt(q', 1).value;
    OptionalInjective("collection_slug", q.collectionSlug, q'.collectionSlug, Id);
    assert FieldAt(q, 2).value == FieldAt(q', 2).value;
    OptionalInjective("token_id", q.tokenId, q'.tokenId, Id);
    assert FieldAt(q, 3).value == FieldAt(q', 3).value;
    OptionalInjective("account_address", q.accountAddress, q'.accountAddress, Id);
    assert FieldAt(q, 4).value == FieldAt(q', 4).value;
    OptionalInjective("event_type", q.eventType, q'.eventType, RenderEventType);
    assert FieldAt(q, 5).value == FieldAt(q', 5).value;
    OptionalInjective("only_opensea", q.onlyOpensea, q'.onlyOpensea, RenderBool);
    assert FieldAt(q, 6).value == FieldAt(q', 6).value;
    OptionalInjective("auction_type", q.auctionType, q'.auctionType, RenderAuctionType);
    assert FieldAt(q, 7).value == FieldAt(q', 7).value;
    OptionalInjective("offset", q.offset, q'.offset, RenderU32);
    assert FieldAt(q, 8).value == FieldAt(q', 8).value;
    OptionalInjective("limit", q.limit, q'.limit, RenderU32);
    assert FieldAt(q, 9).value == FieldAt(q', 9).value;
    OptionalInjective("occurred_before", q.occurredBefore, q'.occurredBefore, Id);
    assert FieldAt(q, 10).value == FieldAt(q', 10).value;
    OptionalInjective("occurred_after", q.occurredAfter, q'.occurredAfter, Id);
    assert FieldAt(q, 11).value == FieldAt(q', 11).value;
    OptionalInjective("page", q.page, q'.page, RenderU32);
  }

  /** The serialisation loses nothing: distinct records give distinct pairs. */
  lemma {:induction false} PairsInjective(q: OpenSeaEventsQuery, q': OpenSeaEventsQuery)
    requires Pairs(q) == Pairs(q')
    ensures q == q'
  {
    KeysDistinct();
    PresentInjective(Fields(q), Fields(q'));
    assert forall i :: 0 <= i < |KEYS| ==> Fields(q)[i] == FieldAt(q, i);
    FieldsInjective(q, q');
  }

  /** The default's fields: all empty but `limit`, `offset` and `page`. */
  lemma {:induction false} DefaultFields()
    ensures FieldAt(Default(), 0).value.None?
    ensures FieldAt(Default(), 1).value.None?
    ensures FieldAt(Default(), 2).value.None?
    ensures FieldAt(Default(), 3).value.None?
    ensures FieldAt(Default(), 4).value.None?
    ensures FieldAt(Default(), 5).value.None?
    ensures FieldAt(Default(), 6).value.None?
    ensures FieldAt(Default(), 7) == Field("offset", Some("0"))
    ensures FieldAt(Default(), 8) == Field("limit", Some("20"))
    ensures FieldAt(Default(), 9).value.None?
    ensures FieldAt(Default(), 10).value.None?
    ensures FieldAt(Default(), 11) == Field("page", Some("0"))
  {
    assert NatToDecimal(20) == "20" by {
      assert NatToDecimal(2) == "2";
    }
  }

  /** The default's serialised fields, from the last to the first. */
  lemma {:induction false} DefaultPresent(d: OpenSeaEventsQuery)
    requires d == Default()
    ensures Present(Fields(d)) == [("offset", "0"), ("limit", "20"), ("page", "0")]
  {
    DefaultFields();
    var fs := Fields(d);
    assert Present(fs[12..]) == [];
    PresentKeep(fs, 11, "page", "0", []);
    PresentSkip(fs, 10, [("page", "0")]);
    PresentSkip(fs, 9, [("page", "0")]);
    PresentKeep(fs, 8, "limit", "20", [("page", "0")]);
    PresentKeep(fs, 7, "offset", "0", [("limit", "20"), ("page", "0")]);
    PresentSkip(fs, 6, [("offset", "0"), ("limit", "20"), ("page", "0")]);
    PresentSkip(fs, 5, [("offset", "0"), ("limit", "20"), ("page", "0")]);
    PresentSkip(fs, 4, [("offset", "0"), ("limit", "20"), ("page", "0")]);
    PresentSkip(fs, 3, [("offset", "0"), ("limit", "20"), ("page", "0")]);
    PresentSkip(fs, 2, [("offset", "0"), ("limit", "20"), ("page", "0")]);
    PresentSkip(fs, 1, [("offset", "0"), ("limit", "20"), ("page", "0")]);
    PresentSkip(fs, 0, [("offset", "0"), ("limit", "20"), ("page", "0")]);
    assert fs[0..] == fs;
  }

  /** The default serialises to `offset`, `limit`, `page` only, in that order. */
  lemma {:induction false} DefaultPairs(d: OpenSeaEventsQuery)
    requires d == Default()
    ensures Pairs(d) == [("offset", "0"), ("limit", "20"), ("page", "0")]
  {
    DefaultPresent(d);
  }

  /** Setting the same field twice keeps only the last value. */
  lemma {:induction false} LastWriteWins(q: OpenSeaEventsQuery, s: Setter, s': Setter)
    requires Writes(s) == Writes(s')
    ensures Set(Set(q, s), s') == Set(q, s')
  {
    FieldsInjective(Set(Set(q, s), s'), Set(q, s'));
  }
}
