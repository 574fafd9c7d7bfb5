/** `OpenSeaFungibleTokenQuery`: a record of optional fields with one setter per field and a fixed
    default, serialised to query pairs in declaration order with every `None` field left
    out. */
module FungibleTokenQueryRecord {
  import opened Wrappers
  import opened Scalars
  import opened Text
  import opened QueryPairs
  import opened OpenSeaQuery

  /** The keys of the serialised fields, in declaration order. */
  const KEYS: seq<string> := ["limit", "offset", "symbol", "page"]

  datatype OpenSeaFungibleTokenQuery = OpenSeaFungibleTokenQuery(
    limit: Option<u32>,
    offset: Option<u32>,
    symbol: Option<i32>,
    page: Option<u32>)

  /** The serialised field at position `i` of the declaration order. */
  function FieldAt(q: OpenSeaFungibleTokenQuery, i: int): (f: Field)
    requires 0 <= i < |KEYS|
    ensures f.key == KEYS[i]
  {
    if i == 0 then Optional("limit", q.limit, RenderU32)
    else if i == 1 then Optional("offset", q.offset, RenderU32)
    else if i == 2 then Optional("symbol", q.symbol, RenderI32)
    else Optional("page", q.page, RenderU32)
  }

  /** The serialised fields in declaration order. */
  function Fields(q: OpenSeaFungibleTokenQuery): (fs: seq<Field>)
    ensures KeysOf(fs) == KEYS
  {
    seq(|KEYS|, i requires 0 <= i < |KEYS| => FieldAt(q, i))
  }

  /** The query pairs: keys in declaration order, each set field under its own name and
      every empty one absent. */
  function Pairs(q: OpenSeaFungibleTokenQuery): (ps: seq<Pair>)
    ensures Subsequence(PairKeys(ps), KEYS)
    ensures forall i :: 0 <= i < |KEYS| ==> Lookup(ps, KEYS[i]) == FieldAt(q, i).value
  {
    var fs := Fields(q);
    KeysDistinct();
    PresentSpec(fs);
    assert forall i :: 0 <= i < |KEYS| ==> KeysOf(fs)[i] == KEYS[i];
    Present(fs)
  }

  /** `OpenSeaFungibleTokenQuery::default()`. */
  function Default(): OpenSeaFungibleTokenQuery {
    OpenSeaFungibleTokenQuery(Some(20), Some(0), None, Some(0))
  }

  /** One per setter of `OpenSeaFungibleTokenQuery`, carrying the value it is given. */
  datatype Setter =
    | Limit(limit: u32)
    | Offset(offset: u32)
    | Symbol(symbol: i32)
    | Page(page: u32)

  /** The position, in the declaration, of the field a setter writes. */
  function Writes(s: Setter): nat {
    match s
    case Limit(_) => 0
    case Offset(_) => 1
    case Symbol(_) => 2
    case Page(_) => 3
  }

  /** The slot a setter of a serialised field fills and the field it puts there. */
  function Slot(s: Setter): (r: (int, Field))
    ensures 0 <= r.0 < |KEYS| && r.1.key == KEYS[r.0] && r.1.value.Some?
  {
    match s
    case Limit(v) => (0, Field("limit", Some(RenderU32(v))))
    case Offset(v) => (1, Field("offset", Some(RenderU32(v))))
    case Symbol(v) => (2, Field("symbol", Some(RenderI32(v))))
    case Page(v) => (3, Field("page", Some(RenderU32(v))))
  }

  /** The setters: each fills exactly its own slot and changes nothing else. */
  function Set(q: OpenSeaFungibleTokenQuery, s: Setter): (r: OpenSeaFungibleTokenQuery)
    ensures FieldAt(r, Slot(s).0) == Slot(s).1
    ensures forall i :: 0 <= i < |KEYS| && i != Slot(s).0 ==> FieldAt(r, i) == FieldAt(q, i)
  {
    match s
    case Limit(v) => q.(limit := Some(v))
    case Offset(v) => q.(offset := Some(v))
    case Symbol(v) => q.(symbol := Some(v))
    case Page(v) => q.(page := Some(v))
  }

  lemma {:induction false} KeysDistinct()
    ensures Distinct(KEYS)
  {
  }

  /** The serialised fields together determine the record. */
  lemma {:induction false} FieldsInjective(q: OpenSeaFungibleTokenQuery, q': OpenSeaFungibleTokenQuery)
    requires forall i :: 0 <= i < |KEYS| ==> FieldAt(q, i).value == FieldAt(q', i).value
    ensures q == q'
  {
    RenderInjective();
    assert FieldAt(q, 0).value == FieldAt(q', 0).value;
    OptionalInjective("limit", q.limit, q'.limit, RenderU32);
    assert FieldAt(q, 1).value == FieldAt(q', 1).value;
    OptionalInjective("offset", q.offset, q'.offset, RenderU32);
    assert FieldAt(q, 2).value == FieldAt(q', 2).value;
    OptionalInjective("symbol", q.symbol, q'.symbol, RenderI32);
    assert FieldAt(q, 3).value == FieldAt(q', 3).value;
    OptionalInjective("page", q.page, q'.page, RenderU32);
  }

  /** The serialisation loses nothing: distinct records give distinct pairs. */
  lemma {:induction false} PairsInjective(q: OpenSeaFungibleTokenQuery, q': OpenSeaFungibleTokenQuery)
    requires Pairs(q) == Pairs(q')
    ensures q == q'
  {
    KeysDistinct();
    PresentInjective(Fields(q), Fields(q'));
    assert forall i :: 0 <= i < |KEYS| ==> Fields(q)[i] == FieldAt(q, i);
    FieldsInjective(q, q');
  }

  /** The default's fields: all empty but `limit`, `offset` and `page`. */
  lemma {:induction false} DefaultFields()
    ensures FieldAt(Default(), 0) == Field("limit", Some("20"))
    ensures FieldAt(Default(), 1) == Field("offset", Some("0"))
    ensures FieldAt(Default(), 2).value.None?
    ensures FieldAt(Default(), 3) == Field("page", Some("0"))
  {
    assert NatToDecimal(20) == "20" by {
      assert NatToDecimal(2) == "2";
    }
  }

  /** The default's serialised fields, from the last to the first. */
  lemma {:induction false} DefaultPresent(d: OpenSeaFungibleTokenQuery)
    requires d == Default()
    ensures Present(Fields(d)) == [("limit", "20"), ("offset", "0"), ("page", "0")]
  {
    DefaultFields();
    var fs := Fields(d);
    assert Present(fs[4..]) == [];
    PresentKeep(fs, 3, "page", "0", []);
    PresentSkip(fs, 2, [("page", "0")]);
    PresentKeep(fs, 1, "offset", "0", [("page", "0")]);
    PresentKeep(fs, 0, "limit", "20", [("offset", "0"), ("page", "0")]);
    assert fs[0..] == fs;
  }

  /** The default serialises to `limit`, `offset`, `page` only, in that order. */
  lemma {:induction false} DefaultPairs(d: OpenSeaFungibleTokenQuery)
    requires d == Default()
    ensures Pairs(d) == [("limit", "20"), ("offset", "0"), ("page", "0")]
  {
    DefaultPresent(d);
  }

  /** Setting the same field twice keeps only the last value. */
  lemma {:induction false} LastWriteWins(q: OpenSeaFungibleTokenQuery, s: Setter, s': Setter)
    requires Writes(s) == Writes(s')
    ensures Set(Set(q, s), s') == Set(q, s')
  {
    FieldsInjective(Set(Set(q, s), s'), Set(q, s'));
  }
}
