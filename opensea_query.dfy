/** What the OpenSea query records share: how each field type is written into a query string,
    and the event types an events query filters on. */
module OpenSeaQuery {
  import opened Wrappers
  import opened Scalars
  import opened Text
  import opened QueryPairs
  import M = OpenSeaModels

  // How each field type is written into a query string.

  function RenderU32(n: u32): string {
    NatToDecimal(n)
  }

  function RenderI32(n: i32): string {
    IntToDecimal(n)
  }

  function RenderBool(b: bool): string {
    BoolToString(b)
  }

  /** A `repr(u8)` enum is written as its discriminant. */
  function RenderSaleKind(k: M.SaleKind): string {
    NatToDecimal(M.SaleKindCode(k))
  }

  function RenderAuctionType(a: M.AuctionType): string {
    M.AuctionTypeName(a)
  }

  /** Every rendering is injective: distinct field values are written differently. */
  lemma {:induction false} RenderInjective()
    ensures forall a, b :: Id(a) == Id(b) ==> a == b
    ensures forall a: u32, b: u32 :: RenderU32(a) == RenderU32(b) ==> a == b
    ensures forall a: i32, b: i32 :: RenderI32(a) == RenderI32(b) ==> a == b
    ensures forall a, b :: RenderBool(a) == RenderBool(b) ==> a == b
    ensures forall a, b :: RenderSaleKind(a) == RenderSaleKind(b) ==> a == b
    ensures forall a, b :: RenderAuctionType(a) == RenderAuctionType(b) ==> a == b
    ensures forall a, b :: RenderEventType(a) == RenderEventType(b) ==> a == b
  {
    forall a: u32, b: u32 | RenderU32(a) == RenderU32(b) ensures a == b {
      NatToDecimalInjective(a, b);
    }
    forall a: i32, b: i32 | RenderI32(a) == RenderI32(b) ensures a == b {
      IntToDecimalInjective(a, b);
    }
    forall a, b | RenderSaleKind(a) == RenderSaleKind(b) ensures a == b {
      NatToDecimalInjective(M.SaleKindCode(a), M.SaleKindCode(b));
    }
    forall a, b | RenderAuctionType(a) == RenderAuctionType(b) ensures a == b {
      M.AuctionTypeNameInjective(a, b);
    }
    forall a, b | RenderEventType(a) == RenderEventType(b) ensures a == b {
      EventTypeNameInjective(a, b);
    }
  }

  /** The event types an events query filters on, written in snake_case. */
  datatype EventTypeQuery = Created | Successful | Cancelled | BidEntered | BidWithdrawn | Transfer | Approve

  function RenderEventType(e: EventTypeQuery): string {
    match e
    case Created => "created"
    case Successful => "successful"
    case Cancelled => "cancelled"
    case BidEntered => "bid_entered"
    case BidWithdrawn => "bid_withdrawn"
    case Transfer => "transfer"
    case Approve => "approve"
  }

  /** Reading an event type back: a name yields exactly the event type written as it. */
  function EventTypeFromName(s: string): (r: Option<EventTypeQuery>)
    ensures forall e :: r == Some(e) <==> RenderEventType(e) == s
  {
    if s == "created" then Some(Created)
    else if s == "successful" then Some(Successful)
    else if s == "cancelled" then Some(Cancelled)
    else if s == "bid_entered" then Some(BidEntered)
    else if s == "bid_withdrawn" then Some(BidWithdrawn)
    else if s == "transfer" then Some(Transfer)
    else if s == "approve" then Some(Approve)
    else None
  }

  lemma {:induction false} EventTypeNameInjective(a: EventTypeQuery, b: EventTypeQuery)
    requires RenderEventType(a) == RenderEventType(b)
    ensures a == b
  {
    assert EventTypeFromName(RenderEventType(a)) == Some(a);
  }
}
