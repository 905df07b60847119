/**
 * Self-trade guard: would a new order at `price` match one of one's own
 * resting orders on the other side of the same book.
 */
module SelfTrade {
  import opened Market

  /** A candidate order on `side` at `price` would match resting order `o`. */
  predicate CrossesOne(o: OwnOrder, side: Side, price: int) {
    match side
    case Bid => o.side == Ask && o.price <= price
    case Ask => o.side == Bid && o.price >= price
  }

  /** Reference meaning: some resting order would be matched. */
  ghost predicate Crosses(orders: seq<OwnOrder>, side: Side, price: int) {
    exists o :: o in orders && CrossesOne(o, side, price)
  }

  /** The resting orders whose side is spelled differently from `side`, in order. */
  function Opposing(orders: seq<OwnOrder>, side: string): (r: seq<OwnOrder>)
    ensures forall o :: o in r <==> o in orders && SideName(o.side) != side
    ensures |r| <= |orders|
  {
    if |orders| == 0 then []
    else
      var rest := Opposing(orders[1..], side);
      assert forall o :: o in orders <==> o == orders[0] || o in orders[1..];
      if SideName(orders[0].side) != side then [orders[0]] + rest else rest
  }

  /** The scan over the opposing orders, stopping at the first match. */
  function ScanCrossing(orders: seq<OwnOrder>, side: Side, price: int): (r: bool)
    ensures r <==> Crosses(orders, side, price)
  {
    if |orders| == 0 then false
    else
      assert forall o :: o in orders <==> o == orders[0] || o in orders[1..];
      CrossesOne(orders[0], side, price) || ScanCrossing(orders[1..], side, price)
  }

  /**
   * `is_self_trade` over the exchange's string sides: a bid at P is blocked
   * by an own ask at or below P, an ask at P by an own bid at or above P, and
   * an unrecognised side is never blocked.
   */
  function IsSelfTrade(orders: seq<OwnOrder>, side: string, price: int): (r: bool)
    ensures ParseSide(side).None? ==> !r
    ensures side == "bid" ==> (r <==> exists o :: o in orders && o.side == Ask && o.price <= price)
    ensures side == "ask" ==> (r <==> exists o :: o in orders && o.side == Bid && o.price >= price)
    ensures orders == [] ==> !r
  {
    var opposing := Opposing(orders, side);
    match ParseSide(side)
    case Some(s) =>
      assert Crosses(opposing, s, price) <==> Crosses(orders, s, price) by {
        forall o | o in orders && CrossesOne(o, s, price)
          ensures o in opposing
        {
          assert o.side == Opposite(s);
        }
      }
      ScanCrossing(opposing, s, price)
    case None => false
  }

  /** Typed form: the guard agrees with the reference meaning for either side. */
  lemma IsSelfTradeMeansCrosses(orders: seq<OwnOrder>, side: Side, price: int)
    ensures IsSelfTrade(orders, SideName(side), price) <==> Crosses(orders, side, price)
  {
    ParseSideName(side);
  }

  /** Resting orders on the candidate's own side never matter. */
  lemma SameSideIgnored(orders: seq<OwnOrder>, side: Side, price: int, extra: OwnOrder)
    requires extra.side == side
    ensures IsSelfTrade(orders + [extra], SideName(side), price) == IsSelfTrade(orders, SideName(side), price)
  {
    IsSelfTradeMeansCrosses(orders, side, price);
    IsSelfTradeMeansCrosses(orders + [extra], side, price);
    assert forall o :: o in orders + [extra] <==> o in orders || o == extra;
  }

  /** A bid that is blocked stays blocked at any higher price; an ask at any lower one. */
  lemma BlockedMonotoneInPrice(orders: seq<OwnOrder>, side: Side, price: int, price': int)
    requires side == Bid ==> price <= price'
    requires side == Ask ==> price' <= price
    ensures IsSelfTrade(orders, SideName(side), price) ==> IsSelfTrade(orders, SideName(side), price')
  {
    IsSelfTradeMeansCrosses(orders, side, price);
    IsSelfTradeMeansCrosses(orders, side, price');
    if Crosses(orders, side, price) {
      var o :| o in orders && CrossesOne(o, side, price);
      assert CrossesOne(o, side, price');
    }
  }
}
