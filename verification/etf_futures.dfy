/**
 * The ETF/future strategy: the ETF book is compared with a fair bid and ask
 * derived from the future's book. A near-limit ETF position suspends the pair
 * for the cycle; otherwise one plan is classified, sized and gated, and both
 * resting limit orders go out or neither does.
 */
module EtfFutures {
  import opened Market
  import opened Ledger
  import opened SelfTrade
  import opened Sizing

  const EtfId: string := "OB5X_ETF"
  const FutId: string := "OB5X_202509_F"

  /** The placeholder the ETF identifier is overwritten with to suspend the pair. */
  const NoInstrument: string := "NIL"

  /** An ETF position at or beyond +/-NearLimit suspends trading for the cycle. */
  const NearLimit: int := 96

  const BaseVolume: nat := 3
  const Bonus: nat := 27

  /** Best bid and ask of the ETF book and of the futures book. */
  datatype Tops = Tops(etfBid: int, etfAsk: int, futBid: int, futAsk: int)

  /** The ETF's fair bid and ask implied by the futures book. */
  datatype Fair = Fair(bid: int, ask: int)

  /** The fair range lies strictly outside the ETF book: one side can be hit at a profit. */
  predicate Mispriced(t: Tops, fair: Fair) {
    fair.bid > t.etfAsk || fair.ask < t.etfBid
  }

  /**
   * The opportunity classifier; the primary leg is the ETF, the secondary the
   * future. Active trades buy the ETF only below its fair bid and sell it only
   * above its fair ask; a passive plan sells the ETF exactly when its offer is
   * above the fair ask.
   */
  function Classify(t: Tops, fair: Fair): (r: Option<Plan>)
    ensures r.None? <==> !Mispriced(t, fair) && fair.ask == t.etfAsk
    ensures r.Some? ==> r.value.pri.side == Opposite(r.value.sec.side)
    ensures r.Some? ==> (StratOf(r.value.kind) == Active <==> Mispriced(t, fair))
    ensures fair.bid > t.etfAsk ==> r.Some? && r.value.kind == ActiveA
    ensures r.Some? && StratOf(r.value.kind) == Active ==>
      && (r.value.pri.side == Bid <==> fair.bid > t.etfAsk)
      && AtTouch(r.value.pri, t.etfBid, t.etfAsk)
      && AtTouch(r.value.sec, t.futBid, t.futAsk)
      && (r.value.pri.side == Bid ==> r.value.pri.price < fair.bid)
      && (r.value.pri.side == Ask ==> r.value.pri.price > fair.ask)
    ensures r.Some? && StratOf(r.value.kind) == Passive ==>
      && (r.value.pri.side == Ask <==> t.etfAsk > fair.ask)
      && (r.value.pri.side == Ask ==>
            && OneTickInside(r.value.pri, t.etfBid, t.etfAsk)
            && r.value.pri.price >= fair.ask
            && r.value.sec == Leg(Bid, t.futAsk))
      && (r.value.pri.side == Bid ==>
            && r.value.pri.price == t.etfAsk
            && r.value.pri.price < fair.ask
            && OneTickInside(r.value.sec, t.futBid, t.futAsk))
  {
    if fair.bid > t.etfAsk then
      Some(Plan(ActiveA, Leg(Bid, t.etfAsk), Leg(Ask, t.futBid)))
    else if fair.ask < t.etfBid then
      Some(Plan(ActiveB, Leg(Ask, t.etfBid), Leg(Bid, t.futAsk)))
    else if t.etfAsk > fair.ask then
      Some(Plan(PassiveA, Leg(Ask, t.etfAsk - Tick), Leg(Bid, t.futAsk)))
    else if fair.ask > t.etfAsk then
      Some(Plan(PassiveB, Leg(Bid, t.etfAsk), Leg(Ask, t.futAsk - Tick)))
    else
      None
  }

  /**
   * The "passive" plans are not all resting: passive-A bids the future at its
   * best offer and passive-B bids the ETF at its best offer, so each has a
   * buying leg priced to trade at once.
   */
  lemma PassiveBuyLegIsMarketable(t: Tops, fair: Fair)
    requires Classify(t, fair).Some? && StratOf(Classify(t, fair).value.kind) == Passive
    ensures AtTouch(BuyLeg(Classify(t, fair).value), t.etfBid, t.etfAsk)
         || AtTouch(BuyLeg(Classify(t, fair).value), t.futBid, t.futAsk)
  {
  }

  // ---------------------------------------------------------------------------
  // Near-limit suspension

  /** The near-limit test of the pass over the positions. */
  predicate NearLimitHit(position: int, q: Quote) {
    (position >= NearLimit && q.bestBid.Some?) || (position <= -NearLimit && q.bestAsk.Some?)
  }

  /**
   * The pass over the positions in iteration order `ids`, carrying the current
   * ETF identifier `target`: a near-limit instrument equal to `target` turns it
   * into the placeholder. The result is the placeholder exactly when it started
   * as one or some instrument equal to `target` is near the limit.
   */
  function ScanTarget(ids: seq<string>, positions: map<string, int>, books: map<string, Quote>,
                      target: string): (r: string)
    requires forall i :: 0 <= i < |ids| ==> ids[i] in positions
    ensures r == target || r == NoInstrument
    ensures r == NoInstrument <==>
      || target == NoInstrument
      || exists i :: 0 <= i < |ids| && ids[i] == target && NearLimitHit(positions[ids[i]], QuoteOf(books, ids[i]))
  {
    if |ids| == 0 then target
    else
      var id := ids[0];
      var target' := if NearLimitHit(positions[id], QuoteOf(books, id)) && id == target then NoInstrument else target;
      assert forall i :: 1 <= i < |ids| ==> ids[1..][i - 1] == ids[i];
      ScanTarget(ids[1..], positions, books, target')
  }

  /**
   * The pair is suspended for this cycle: over an iteration order of the
   * whole positions map, exactly when the ETF is held near the limit with a
   * price on the side that would reduce it.
   */
  function Suspended(ids: seq<string>, positions: map<string, int>, books: map<string, Quote>): (r: bool)
    requires Enumerates(ids, positions)
    ensures r <==> exists i :: 0 <= i < |ids| && ids[i] == EtfId && NearLimitHit(positions[ids[i]], QuoteOf(books, ids[i]))
    ensures r <==> EtfId in positions && NearLimitHit(positions[EtfId], QuoteOf(books, EtfId))
  {
    assert EtfId in positions ==> EtfId in ids;
    ScanTarget(ids, positions, books, EtfId) == NoInstrument
  }

  /**
   * Only the ETF's own entry decides suspension: neither the other positions
   * (the future's included) nor the order in which the map is visited matter.
   */
  lemma OnlyEtfPositionSuspends(ids: seq<string>, positions: map<string, int>,
                                ids': seq<string>, positions': map<string, int>, books: map<string, Quote>)
    requires Enumerates(ids, positions) && Enumerates(ids', positions')
    requires EtfId in positions <==> EtfId in positions'
    requires EtfId in positions ==> positions[EtfId] == positions'[EtfId]
    ensures Suspended(ids, positions, books) == Suspended(ids', positions', books)
  {
  }

  /** A near-limit futures position never suspends the pair. */
  lemma FuturesPositionNeverSuspends(ids: seq<string>, positions: map<string, int>,
                                     books: map<string, Quote>, position: int)
    requires Enumerates(ids, positions) && FutId in positions
    ensures Enumerates(ids, positions[FutId := position])
    ensures Suspended(ids, positions, books) == Suspended(ids, positions[FutId := position], books)
  {
    OnlyEtfPositionSuspends(ids, positions, ids, positions[FutId := position], books);
  }

  // ---------------------------------------------------------------------------
  // One cycle

  /** The four best prices, or nothing when either book lacks a side. */
  function TopsOf(books: map<string, Quote>): (r: Option<Tops>)
    ensures r.None? <==>
      || QuoteOf(books, EtfId).bestBid.None? || QuoteOf(books, EtfId).bestAsk.None?
      || QuoteOf(books, FutId).bestBid.None? || QuoteOf(books, FutId).bestAsk.None?
  {
    var e := QuoteOf(books, EtfId);
    var f := QuoteOf(books, FutId);
    if e.bestBid.Some? && e.bestAsk.Some? && f.bestBid.Some? && f.bestAsk.Some? then
      Some(Tops(e.bestBid.value, e.bestAsk.value, f.bestBid.value, f.bestAsk.value))
    else
      None
  }

  function PlanFor(books: map<string, Quote>, fair: Fair): Option<Plan> {
    match TopsOf(books)
    case None => None
    case Some(t) => Classify(t, fair)
  }

  /** The resting limit order one leg of a plan becomes, sized with the cycle's position. */
  function LegOrder(id: string, position: int, leg: Leg): Order {
    Order(id, leg.side, leg.price, LegVolume(position, leg.side, BaseVolume, Bonus), Limit)
  }

  /** One leg fails the gate: the limit check or the self-trade check says so. */
  predicate LegBlocked(s: Snapshot, o: Order) {
    || CheckBreachUnflagged(s.live, o.instrument, o.volume, SideName(o.side), PositionLimit) == Success(true)
    || IsSelfTrade(OwnOrdersOf(s.own, o.instrument), SideName(o.side), o.price)
  }

  /**
   * One polling cycle, given the fair bid and ask: nothing while suspended;
   * otherwise both legs as resting limit orders (active plans included, and
   * nothing cancelled first) or neither. Each leg respects the live limit and
   * never crosses one's own resting orders.
   */
  function Cycle(s: Snapshot, ids: seq<string>, fair: Fair): (r: seq<Action>)
    requires Enumerates(ids, s.cycle)
    requires EtfId in s.cycle && FutId in s.cycle && EtfId in s.live && FutId in s.live
    ensures NearLimitHit(s.cycle[EtfId], QuoteOf(s.books, EtfId)) ==> r == []
    ensures PlanFor(s.books, fair).None? ==> r == []
    ensures !NearLimitHit(s.cycle[EtfId], QuoteOf(s.books, EtfId)) && PlanFor(s.books, fair).Some? ==>
      var e := LegOrder(EtfId, s.cycle[EtfId], PlanFor(s.books, fair).value.pri);
      var f := LegOrder(FutId, s.cycle[FutId], PlanFor(s.books, fair).value.sec);
      (r != [] <==>
        && !Breaches(s.live[EtfId], e.volume, e.side, PositionLimit)
        && !Breaches(s.live[FutId], f.volume, f.side, PositionLimit)
        && !Crosses(OwnOrdersOf(s.own, EtfId), e.side, e.price)
        && !Crosses(OwnOrdersOf(s.own, FutId), f.side, f.price))
    ensures forall a :: a in r ==> a.Insert? && a.order.kind == Limit
    ensures r == [] || (|r| == 2 && r[0].order.instrument == EtfId && r[1].order.instrument == FutId)
    ensures r != [] ==>
      && PlanFor(s.books, fair).Some?
      && Leg(r[0].order.side, r[0].order.price) == PlanFor(s.books, fair).value.pri
      && Leg(r[1].order.side, r[1].order.price) == PlanFor(s.books, fair).value.sec
      && r[0].order.side == Opposite(r[1].order.side)
      && (r[0].order.volume == BaseVolume || r[0].order.volume == BaseVolume + Bonus)
      && (r[1].order.volume == BaseVolume || r[1].order.volume == BaseVolume + Bonus)
      && (r[0].order.volume > BaseVolume <==> Reducing(s.cycle[EtfId], r[0].order.side))
      && (r[1].order.volume > BaseVolume <==> Reducing(s.cycle[FutId], r[1].order.side))
      && !Breaches(s.live[EtfId], r[0].order.volume, r[0].order.side, PositionLimit)
      && !Breaches(s.live[FutId], r[1].order.volume, r[1].order.side, PositionLimit)
      && !Crosses(OwnOrdersOf(s.own, EtfId), r[0].order.side, r[0].order.price)
      && !Crosses(OwnOrdersOf(s.own, FutId), r[1].order.side, r[1].order.price)
  {
    if Suspended(ids, s.cycle, s.books) then []
    else
      match PlanFor(s.books, fair)
      case None => []
      case Some(plan) =>
        var e := LegOrder(EtfId, s.cycle[EtfId], plan.pri);
        var f := LegOrder(FutId, s.cycle[FutId], plan.sec);
        IsSelfTradeMeansCrosses(OwnOrdersOf(s.own, EtfId), e.side, e.price);
        IsSelfTradeMeansCrosses(OwnOrdersOf(s.own, FutId), f.side, f.price);
        if LegBlocked(s, e) || LegBlocked(s, f) then []
        else [Insert(e), Insert(f)]
  }

  /**
   * The gate's other direction: when the pair is not suspended, a plan exists,
   * neither instrument has resting orders and both live positions are at least
   * one bonus-sized leg away from the limit, both legs go out.
   */
  lemma ClearGateAlwaysEmits(s: Snapshot, ids: seq<string>, fair: Fair)
    requires Enumerates(ids, s.cycle)
    requires EtfId in s.cycle && FutId in s.cycle && EtfId in s.live && FutId in s.live
    requires !NearLimitHit(s.cycle[EtfId], QuoteOf(s.books, EtfId))
    requires PlanFor(s.books, fair).Some?
    requires OwnOrdersOf(s.own, EtfId) == [] && OwnOrdersOf(s.own, FutId) == []
    requires -PositionLimit + BaseVolume + Bonus <= s.live[EtfId] <= PositionLimit - BaseVolume - Bonus
    requires -PositionLimit + BaseVolume + Bonus <= s.live[FutId] <= PositionLimit - BaseVolume - Bonus
    ensures |Cycle(s, ids, fair)| == 2
  {
  }
}
