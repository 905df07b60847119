/**
 * Vocabulary shared by both arbitrage strategies: sides, orders, top-of-book
 * quotes and one's own resting orders, plus the per-cycle market snapshot.
 *
 * Prices are integer cents, so one tick (0.01 in the exchange's units) is 1.
 */
module Market {

  datatype Option<+T> = None | Some(value: T)

  datatype Result<+T, +E> = Success(value: T) | Failure(error: E)

  datatype Side = Bid | Ask

  /** Hard per-instrument position limit used by every guard. */
  const PositionLimit: int := 100

  /** One price tick, in cents. */
  const Tick: int := 1

  function Opposite(s: Side): Side {
    match s
    case Bid => Ask
    case Ask => Bid
  }

  /** The exchange's spelling of a side. */
  function SideName(s: Side): string {
    match s
    case Bid => "bid"
    case Ask => "ask"
  }

  /** Reads a side as the exchange spells it; anything else is not a side. */
  function ParseSide(name: string): (r: Option<Side>)
    ensures r.Some? ==> SideName(r.value) == name
  {
    if name == "bid" then Some(Bid)
    else if name == "ask" then Some(Ask)
    else None
  }

  /** Sign of the position change a fill on this side causes. */
  function Direction(s: Side): int {
    match s
    case Bid => 1
    case Ask => -1
  }

  /** The position after `volume` lots trade on `side`. */
  function Fill(position: int, side: Side, volume: int): int {
    position + Direction(side) * volume
  }

  function Abs(x: int): nat {
    if x < 0 then -x else x
  }

  /** Immediate-or-cancel versus a resting limit order. */
  datatype OrderKind = Ioc | Limit

  /** An outbound order intent, as handed to the exchange. */
  datatype Order = Order(instrument: string, side: Side, price: int, volume: int, kind: OrderKind)

  /** What one cycle asks the exchange to do, in order. */
  datatype Action = Insert(order: Order) | DeleteAll(instrument: string)

  function ActionInstrument(a: Action): string {
    match a
    case Insert(o) => o.instrument
    case DeleteAll(id) => id
  }

  /** No name occurs twice. */
  predicate Distinct(ids: seq<string>) {
    forall i, j :: 0 <= i < j < |ids| ==> ids[i] != ids[j]
  }

  /**
   * `ids` is an iteration order of the positions map: every key exactly once
   * and nothing else.
   */
  predicate Enumerates(ids: seq<string>, positions: map<string, int>) {
    && (forall i :: 0 <= i < |ids| ==> ids[i] in positions)
    && (forall k :: k in positions ==> k in ids)
    && Distinct(ids)
  }

  /** Best bid and best ask of a book; a missing side is `None`. */
  datatype Quote = Quote(bestBid: Option<int>, bestAsk: Option<int>)

  /** An instrument without a book is read as a book with no levels. */
  function QuoteOf(books: map<string, Quote>, id: string): (q: Quote)
    ensures id !in books ==> q == Quote(None, None)
  {
    if id in books then books[id] else Quote(None, None)
  }

  /** One of one's own resting orders on some instrument. */
  datatype OwnOrder = OwnOrder(side: Side, price: int)

  /** An instrument the exchange reports nothing for has no resting orders. */
  function OwnOrdersOf(own: map<string, seq<OwnOrder>>, id: string): (r: seq<OwnOrder>)
    ensures id !in own ==> r == []
  {
    if id in own then own[id] else []
  }

  /**
   * Everything one polling cycle reads from the exchange.
   * `cycle` is the positions map fetched once at the top of the loop and read by
   * the near-limit pass and by the sizing; `live` is what the breach guard
   * re-fetches on each call.
   */
  datatype Snapshot = Snapshot(
    cycle: map<string, int>,
    live: map<string, int>,
    books: map<string, Quote>,
    own: map<string, seq<OwnOrder>>)

  // ---------------------------------------------------------------------------
  // Arbitrage plans, shared by both strategies

  datatype Strat = Active | Passive

  /** The four trading outcomes of the classifier, in the order the classifiers examine them. */
  datatype Case = ActiveA | ActiveB | PassiveA | PassiveB

  function StratOf(c: Case): Strat {
    if c == ActiveA || c == ActiveB then Active else Passive
  }

  datatype Leg = Leg(side: Side, price: int)

  /** The legs to send on the primary and on the secondary instrument of a pair. */
  datatype Plan = Plan(kind: Case, pri: Leg, sec: Leg)

  /** An aggressive leg trades at the venue's opposite best price. */
  predicate AtTouch(leg: Leg, bestBid: int, bestAsk: int) {
    match leg.side
    case Bid => leg.price == bestAsk
    case Ask => leg.price == bestBid
  }

  /** A resting leg improves the venue's own best price on its side by one tick. */
  predicate OneTickInside(leg: Leg, bestBid: int, bestAsk: int) {
    match leg.side
    case Bid => leg.price == bestBid + Tick
    case Ask => leg.price == bestAsk - Tick
  }

  function BuyLeg(p: Plan): Leg {
    if p.pri.side == Bid then p.pri else p.sec
  }

  function SellLeg(p: Plan): Leg {
    if p.pri.side == Ask then p.pri else p.sec
  }

  lemma ParseSideName(s: Side)
    ensures ParseSide(SideName(s)) == Some(s)
  {
  }
}
