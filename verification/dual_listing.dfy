/**
 * The dual-listing strategy: each stock trades on a primary and a secondary
 * venue; one polling cycle first unwinds near-limit positions, then walks the
 * configured pairs, classifying each pair's four top-of-book prices, sizing
 * both legs and sending both or neither.
 */
module DualListing {
  import opened Market
  import opened Ledger
  import opened SelfTrade
  import opened Sizing

  /** The configured pairs, primary listing first, in the order they are visited. */
  const StockPairs: seq<(string, string)> := [("ASML", "ASML_DUAL"), ("SAP", "SAP_DUAL")]

  /** Positions at or beyond +/-NearLimit are unwound before any arbitrage. */
  const NearLimit: int := 94
  const UnwindVolume: int := 10

  const BaseVolume: nat := 4
  const ActiveBonus: nat := 26
  const PassiveBonus: nat := 16

  /** Best bid and ask of the primary and of the secondary book. */
  datatype Tops = Tops(priBid: int, priAsk: int, secBid: int, secAsk: int)

  /** The two books cross each other: one venue bids above the other's offer. */
  predicate Crossed(t: Tops) {
    t.secBid > t.priAsk || t.priBid > t.secAsk
  }

  /**
   * The opportunity classifier. Active cases are examined before passive ones;
   * a passive plan sells on the venue with the higher offer.
   */
  function Classify(t: Tops): (r: Option<Plan>)
    ensures r.None? <==> !Crossed(t) && t.priAsk == t.secAsk
    ensures r.Some? ==> r.value.pri.side == Opposite(r.value.sec.side)
    ensures r.Some? ==> (StratOf(r.value.kind) == Active <==> Crossed(t))
    ensures t.secBid > t.priAsk ==> r.Some? && r.value.kind == ActiveA
    ensures r.Some? && StratOf(r.value.kind) == Active ==>
      && (r.value.pri.side == Bid <==> t.secBid > t.priAsk)
      && AtTouch(r.value.pri, t.priBid, t.priAsk)
      && AtTouch(r.value.sec, t.secBid, t.secAsk)
      && BuyLeg(r.value).price < SellLeg(r.value).price
    ensures r.Some? && StratOf(r.value.kind) == Passive ==>
      && (r.value.pri.side == Ask <==> t.priAsk > t.secAsk)
      && OneTickInside(r.value.pri, t.priBid, t.priAsk)
      && OneTickInside(r.value.sec, t.secBid, t.secAsk)
  {
    if t.secBid > t.priAsk then
      Some(Plan(ActiveA, Leg(Bid, t.priAsk), Leg(Ask, t.secBid)))
    else if t.priBid > t.secAsk then
      Some(Plan(ActiveB, Leg(Ask, t.priBid), Leg(Bid, t.secAsk)))
    else if t.priAsk > t.secAsk then
      Some(Plan(PassiveA, Leg(Ask, t.priAsk - Tick), Leg(Bid, t.secBid + Tick)))
    else if t.secAsk > t.priAsk then
      Some(Plan(PassiveB, Leg(Bid, t.priBid + Tick), Leg(Ask, t.secAsk - Tick)))
    else
      None
  }

  predicate NotCrossedWithin(t: Tops) {
    t.priBid <= t.priAsk && t.secBid <= t.secAsk
  }

  function SwapVenues(t: Tops): Tops {
    Tops(t.secBid, t.secAsk, t.priBid, t.priAsk)
  }

  function SwapCase(c: Case): Case {
    match c
    case ActiveA => ActiveB
    case ActiveB => ActiveA
    case PassiveA => PassiveB
    case PassiveB => PassiveA
  }

  function SwapPlan(p: Option<Plan>): Option<Plan> {
    match p
    case None => None
    case Some(q) => Some(Plan(SwapCase(q.kind), q.sec, q.pri))
  }

  /**
   * For books that are not crossed within themselves, the classifier treats the
   * two venues symmetrically: exchanging them exchanges the legs.
   */
  lemma ClassifyIsSymmetric(t: Tops)
    requires NotCrossedWithin(t)
    ensures Classify(SwapVenues(t)) == SwapPlan(Classify(t))
  {
  }

  /** On books not crossed within themselves, a passive plan never buys above where it sells. */
  lemma PassiveNeverBuysAboveSell(t: Tops)
    requires t.priBid < t.priAsk && t.secBid < t.secAsk
    ensures Classify(t).Some? && StratOf(Classify(t).value.kind) == Passive ==>
      BuyLeg(Classify(t).value).price <= SellLeg(Classify(t).value).price
  {
  }

  // ---------------------------------------------------------------------------
  // Near-limit unwind pass

  /** The IOC unwind order for one instrument, if its position is near the limit. */
  function UnwindOrder(id: string, position: int, q: Quote): (r: Option<Order>)
    ensures r.Some? <==> (position >= NearLimit && q.bestBid.Some?) || (position <= -NearLimit && q.bestAsk.Some?)
    ensures r.Some? ==> r.value.instrument == id && r.value.volume == UnwindVolume && r.value.kind == Ioc
    ensures r.Some? ==> Reducing(position, r.value.side)
    ensures r.Some? ==> 0 < Abs(Fill(position, r.value.side, UnwindVolume)) < Abs(position)
    ensures r.Some? && r.value.side == Ask ==> q.bestBid == Some(r.value.price)
    ensures r.Some? && r.value.side == Bid ==> q.bestAsk == Some(r.value.price)
  {
    if position >= NearLimit && q.bestBid.Some? then
      Some(Order(id, Ask, q.bestBid.value, UnwindVolume, Ioc))
    else if position <= -NearLimit && q.bestAsk.Some? then
      Some(Order(id, Bid, q.bestAsk.value, UnwindVolume, Ioc))
    else
      None
  }

  /**
   * The pass over the positions, in their iteration order `ids`: every action
   * it emits is the unwind order of its instrument, and every instrument that
   * has one gets it.
   */
  function DeRisk(ids: seq<string>, positions: map<string, int>, books: map<string, Quote>): (r: seq<Action>)
    requires forall i :: 0 <= i < |ids| ==> ids[i] in positions
    ensures |r| <= |ids|
    ensures forall a :: a in r ==>
      && a.Insert?
      && a.order.instrument in ids
      && a.order.instrument in positions
      && UnwindOrder(a.order.instrument, positions[a.order.instrument], QuoteOf(books, a.order.instrument)) == Some(a.order)
    ensures forall i :: 0 <= i < |ids| && UnwindOrder(ids[i], positions[ids[i]], QuoteOf(books, ids[i])).Some? ==>
      Insert(UnwindOrder(ids[i], positions[ids[i]], QuoteOf(books, ids[i])).value) in r
  {
    if |ids| == 0 then []
    else
      var here := match UnwindOrder(ids[0], positions[ids[0]], QuoteOf(books, ids[0]))
        case Some(o) => [Insert(o)]
        case None => [];
      var rest := DeRisk(ids[1..], positions, books);
      assert forall i :: 1 <= i < |ids| ==> ids[1..][i - 1] == ids[i];
      assert forall x :: x in ids[1..] ==> x in ids;
      here + rest
  }

  /** `x` occurs in `ids` at an earlier place than `y`. */
  predicate Before(ids: seq<string>, x: string, y: string) {
    exists i, j :: 0 <= i < j < |ids| && ids[i] == x && ids[j] == y
  }

  /** The instruments of `r` occur in `ids` in the same order, at strictly increasing places. */
  predicate FollowsOrder(r: seq<Action>, ids: seq<string>) {
    forall k, l :: 0 <= k < l < |r| ==> Before(ids, ActionInstrument(r[k]), ActionInstrument(r[l]))
  }

  lemma BeforeShift(ids: seq<string>, x: string, y: string)
    requires |ids| > 0 && Before(ids[1..], x, y)
    ensures Before(ids, x, y)
  {
    var i, j :| 0 <= i < j < |ids[1..]| && ids[1..][i] == x && ids[1..][j] == y;
    assert ids[i + 1] == x && ids[j + 1] == y;
  }

  lemma FollowsOrderShift(r: seq<Action>, ids: seq<string>)
    requires |ids| > 0 && FollowsOrder(r, ids[1..])
    ensures FollowsOrder(r, ids)
  {
    forall k, l | 0 <= k < l < |r|
      ensures Before(ids, ActionInstrument(r[k]), ActionInstrument(r[l]))
    {
      BeforeShift(ids, ActionInstrument(r[k]), ActionInstrument(r[l]));
    }
  }

  lemma FollowsOrderCons(a: Action, r: seq<Action>, ids: seq<string>)
    requires |ids| > 0 && ActionInstrument(a) == ids[0] && FollowsOrder(r, ids[1..])
    requires forall x :: x in r ==> ActionInstrument(x) in ids[1..]
    ensures FollowsOrder([a] + r, ids)
  {
    FollowsOrderShift(r, ids);
    var r' := [a] + r;
    forall k, l | 0 <= k < l < |r'|
      ensures Before(ids, ActionInstrument(r'[k]), ActionInstrument(r'[l]))
    {
      if k == 0 {
        assert r'[l] == r[l - 1] && r[l - 1] in r;
        var j :| 0 <= j < |ids[1..]| && ids[1..][j] == ActionInstrument(r'[l]);
        assert ids[0] == ActionInstrument(r'[k]) && ids[j + 1] == ActionInstrument(r'[l]);
      } else {
        assert r'[k] == r[k - 1] && r'[l] == r[l - 1];
      }
    }
  }

  /** The unwind orders come out in the order of `ids`. */
  lemma {:induction false} DeRiskFollowsIds(ids: seq<string>, positions: map<string, int>, books: map<string, Quote>)
    requires forall i :: 0 <= i < |ids| ==> ids[i] in positions
    ensures FollowsOrder(DeRisk(ids, positions, books), ids)
  {
    var r := DeRisk(ids, positions, books);
    if |ids| > 0 {
      assert forall i :: 1 <= i < |ids| ==> ids[1..][i - 1] == ids[i];
      var rest := DeRisk(ids[1..], positions, books);
      DeRiskFollowsIds(ids[1..], positions, books);
      match UnwindOrder(ids[0], positions[ids[0]], QuoteOf(books, ids[0]))
      case Some(o) =>
        assert r == [Insert(o)] + rest;
        FollowsOrderCons(Insert(o), rest, ids);
      case None =>
        assert r == rest;
        FollowsOrderShift(rest, ids);
    }
  }

  /**
   * Over an iteration order of the whole positions map, every near-limit
   * position with a price to trade at is unwound.
   */
  lemma DeRiskCoversPositions(ids: seq<string>, positions: map<string, int>, books: map<string, Quote>)
    requires Enumerates(ids, positions)
    ensures forall id :: id in positions && UnwindOrder(id, positions[id], QuoteOf(books, id)).Some? ==>
      Insert(UnwindOrder(id, positions[id], QuoteOf(books, id)).value) in DeRisk(ids, positions, books)
  {
    forall id | id in positions && UnwindOrder(id, positions[id], QuoteOf(books, id)).Some?
      ensures Insert(UnwindOrder(id, positions[id], QuoteOf(books, id)).value) in DeRisk(ids, positions, books)
    {
      assert id in ids;
      var i :| 0 <= i < |ids| && ids[i] == id;
    }
  }

  lemma DistinctOrderIsInjective(r: seq<Action>, ids: seq<string>)
    requires Distinct(ids) && FollowsOrder(r, ids)
    ensures forall k, l :: 0 <= k < l < |r| ==> ActionInstrument(r[k]) != ActionInstrument(r[l])
  {
    forall k, l | 0 <= k < l < |r|
      ensures ActionInstrument(r[k]) != ActionInstrument(r[l])
    {
      assert Before(ids, ActionInstrument(r[k]), ActionInstrument(r[l]));
    }
  }

  /** When `ids` names each instrument once, no instrument is unwound twice. */
  lemma DeRiskUnwindsEachOnce(ids: seq<string>, positions: map<string, int>, books: map<string, Quote>)
    requires forall i :: 0 <= i < |ids| ==> ids[i] in positions
    requires Distinct(ids)
    ensures var r := DeRisk(ids, positions, books);
      forall k, l :: 0 <= k < l < |r| ==> ActionInstrument(r[k]) != ActionInstrument(r[l])
  {
    DeRiskFollowsIds(ids, positions, books);
    DistinctOrderIsInjective(DeRisk(ids, positions, books), ids);
  }

  // ---------------------------------------------------------------------------
  // Per-pair arbitrage

  /** The breach flags of the primary and secondary legs, carried across pairs within a cycle. */
  datatype Flags = Flags(pri: BreachFlag, sec: BreachFlag)

  /** The flags after a pair, and what that pair asked the exchange to do. */
  datatype Step = Step(flags: Flags, actions: seq<Action>)

  /** The four best prices of a pair, or nothing when any of them is missing. */
  function TopsOf(books: map<string, Quote>, pri: string, sec: string): (r: Option<Tops>)
    ensures r.None? <==>
      || QuoteOf(books, pri).bestBid.None? || QuoteOf(books, pri).bestAsk.None?
      || QuoteOf(books, sec).bestBid.None? || QuoteOf(books, sec).bestAsk.None?
  {
    var p := QuoteOf(books, pri);
    var q := QuoteOf(books, sec);
    if p.bestBid.Some? && p.bestAsk.Some? && q.bestBid.Some? && q.bestAsk.Some? then
      Some(Tops(p.bestBid.value, p.bestAsk.value, q.bestBid.value, q.bestAsk.value))
    else
      None
  }

  function PlanFor(books: map<string, Quote>, pri: string, sec: string): Option<Plan> {
    match TopsOf(books, pri, sec)
    case None => None
    case Some(t) => Classify(t)
  }

  function BonusOf(s: Strat): nat {
    match s
    case Active => ActiveBonus
    case Passive => PassiveBonus
  }

  function KindOf(s: Strat): OrderKind {
    match s
    case Active => Ioc
    case Passive => Limit
  }

  /** A passive leg that reduces inventory switches its breach flag off; nothing switches it back on. */
  function NextFlag(flag: BreachFlag, s: Strat, position: int, side: Side): (f: BreachFlag)
    ensures f == Off <==> flag == Off || (s == Passive && Reducing(position, side))
  {
    if s == Passive && Reducing(position, side) then Off else flag
  }

  /** The order one leg of a plan becomes: sized with the cycle's position, IOC when active. */
  function LegOrder(id: string, position: int, leg: Leg, strat: Strat): Order {
    Order(id, leg.side, leg.price, LegVolume(position, leg.side, BaseVolume, BonusOf(strat)), KindOf(strat))
  }

  /** The pair's plan is passive and its primary leg reduces the primary position. */
  predicate SwitchesPri(s: Snapshot, pri: string, sec: string)
    requires pri in s.cycle
  {
    && PlanFor(s.books, pri, sec).Some?
    && StratOf(PlanFor(s.books, pri, sec).value.kind) == Passive
    && Reducing(s.cycle[pri], PlanFor(s.books, pri, sec).value.pri.side)
  }

  /** The pair's plan is passive and its secondary leg reduces the secondary position. */
  predicate SwitchesSec(s: Snapshot, pri: string, sec: string)
    requires sec in s.cycle
  {
    && PlanFor(s.books, pri, sec).Some?
    && StratOf(PlanFor(s.books, pri, sec).value.kind) == Passive
    && Reducing(s.cycle[sec], PlanFor(s.books, pri, sec).value.sec.side)
  }

  /** One leg fails the gate: the (flagged) limit check or the self-trade check says so. */
  predicate LegBlocked(s: Snapshot, id: string, o: Order, flag: BreachFlag)
  {
    || CheckBreach(s.live, id, o.volume, SideName(o.side), flag, PositionLimit) == Success(true)
    || IsSelfTrade(OwnOrdersOf(s.own, id), SideName(o.side), o.price)
  }

  /** The shape of a pair's emission: nothing, two IOC legs, or two cancels then two resting legs. */
  predicate PairShape(actions: seq<Action>, pri: string, sec: string) {
    || actions == []
    || (&& |actions| == 2
        && actions[0].Insert? && actions[1].Insert?
        && actions[0].order.kind == Ioc && actions[1].order.kind == Ioc
        && actions[0].order.instrument == pri && actions[1].order.instrument == sec)
    || (&& |actions| == 4
        && actions[0] == DeleteAll(pri) && actions[1] == DeleteAll(sec)
        && actions[2].Insert? && actions[3].Insert?
        && actions[2].order.kind == Limit && actions[3].order.kind == Limit
        && actions[2].order.instrument == pri && actions[3].order.instrument == sec)
  }

  /** The primary leg of a non-empty emission. */
  function PriOrder(actions: seq<Action>): Order
    requires |actions| >= 2 && actions[|actions| - 2].Insert?
  {
    actions[|actions| - 2].order
  }

  /** The secondary leg of a non-empty emission. */
  function SecOrder(actions: seq<Action>): Order
    requires |actions| >= 1 && actions[|actions| - 1].Insert?
  {
    actions[|actions| - 1].order
  }

  /**
   * One pair of the cycle: classify, size with the cycle's positions, update the
   * flags, then gate both legs together against the live positions and one's
   * own resting orders.
   */
  function PairStep(s: Snapshot, pri: string, sec: string, flags: Flags): (r: Step)
    requires pri in s.cycle && sec in s.cycle && pri in s.live && sec in s.live
    ensures PlanFor(s.books, pri, sec).None? ==> r == Step(flags, [])
    ensures r.flags.pri == Off <==> flags.pri == Off || SwitchesPri(s, pri, sec)
    ensures r.flags.sec == Off <==> flags.sec == Off || SwitchesSec(s, pri, sec)
    ensures PairShape(r.actions, pri, sec)
    ensures PlanFor(s.books, pri, sec).Some? ==>
      var plan := PlanFor(s.books, pri, sec).value;
      var p := LegOrder(pri, s.cycle[pri], plan.pri, StratOf(plan.kind));
      var q := LegOrder(sec, s.cycle[sec], plan.sec, StratOf(plan.kind));
      (r.actions != [] <==>
        && (r.flags.pri == Nil ==> !Breaches(s.live[pri], p.volume, p.side, PositionLimit))
        && (r.flags.sec == Nil ==> !Breaches(s.live[sec], q.volume, q.side, PositionLimit))
        && !Crosses(OwnOrdersOf(s.own, pri), p.side, p.price)
        && !Crosses(OwnOrdersOf(s.own, sec), q.side, q.price))
    ensures r.actions != [] ==>
      var p := PriOrder(r.actions);
      var q := SecOrder(r.actions);
      && PlanFor(s.books, pri, sec).Some?
      && p.side == PlanFor(s.books, pri, sec).value.pri.side
      && p.price == PlanFor(s.books, pri, sec).value.pri.price
      && q.side == PlanFor(s.books, pri, sec).value.sec.side
      && q.price == PlanFor(s.books, pri, sec).value.sec.price
      && (p.kind == Ioc <==> StratOf(PlanFor(s.books, pri, sec).value.kind) == Active)
      && p.side == Opposite(q.side)
      && (p.volume == BaseVolume || p.volume == BaseVolume + BonusOf(StratOf(PlanFor(s.books, pri, sec).value.kind)))
      && (q.volume == BaseVolume || q.volume == BaseVolume + BonusOf(StratOf(PlanFor(s.books, pri, sec).value.kind)))
      && (p.volume > BaseVolume <==> Reducing(s.cycle[pri], p.side))
      && (q.volume > BaseVolume <==> Reducing(s.cycle[sec], q.side))
      && !Crosses(OwnOrdersOf(s.own, pri), p.side, p.price)
      && !Crosses(OwnOrdersOf(s.own, sec), q.side, q.price)
      && (r.flags.pri == Nil ==> !Breaches(s.live[pri], p.volume, p.side, PositionLimit))
      && (r.flags.sec == Nil ==> !Breaches(s.live[sec], q.volume, q.side, PositionLimit))
  {
    match PlanFor(s.books, pri, sec)
    case None => Step(flags, [])
    case Some(plan) =>
      var strat := StratOf(plan.kind);
      var p := LegOrder(pri, s.cycle[pri], plan.pri, strat);
      var q := LegOrder(sec, s.cycle[sec], plan.sec, strat);
      var flags' := Flags(NextFlag(flags.pri, strat, s.cycle[pri], p.side),
                          NextFlag(flags.sec, strat, s.cycle[sec], q.side));
      IsSelfTradeMeansCrosses(OwnOrdersOf(s.own, pri), p.side, p.price);
      IsSelfTradeMeansCrosses(OwnOrdersOf(s.own, sec), q.side, q.price);
      if LegBlocked(s, pri, p, flags'.pri) || LegBlocked(s, sec, q, flags'.sec) then
        Step(flags', [])
      else
        match strat
        case Active => Step(flags', [Insert(p), Insert(q)])
        case Passive => Step(flags', [DeleteAll(pri), DeleteAll(sec), Insert(p), Insert(q)])
  }

  /**
   * The gate's other direction: with no resting orders on either instrument and
   * both live positions at least one full bonus-sized leg away from the limit,
   * a classified pair always sends both legs.
   */
  lemma ClearGateAlwaysEmits(s: Snapshot, pri: string, sec: string, flags: Flags)
    requires pri in s.cycle && sec in s.cycle && pri in s.live && sec in s.live
    requires PlanFor(s.books, pri, sec).Some?
    requires OwnOrdersOf(s.own, pri) == [] && OwnOrdersOf(s.own, sec) == []
    requires -PositionLimit + BaseVolume + ActiveBonus <= s.live[pri] <= PositionLimit - BaseVolume - ActiveBonus
    requires -PositionLimit + BaseVolume + ActiveBonus <= s.live[sec] <= PositionLimit - BaseVolume - ActiveBonus
    ensures PairStep(s, pri, sec, flags).actions != []
  {
  }

  predicate PairsKnown(s: Snapshot, pairs: seq<(string, string)>) {
    forall i :: 0 <= i < |pairs| ==>
      pairs[i].0 in s.cycle && pairs[i].1 in s.cycle && pairs[i].0 in s.live && pairs[i].1 in s.live
  }

  /** Some pair before place `i` switches the primary flag off. */
  predicate PriSwitchedBefore(s: Snapshot, pairs: seq<(string, string)>, i: int)
    requires PairsKnown(s, pairs) && i <= |pairs|
  {
    exists j :: 0 <= j < i && SwitchesPri(s, pairs[j].0, pairs[j].1)
  }

  /** Some pair before place `i` switches the secondary flag off. */
  predicate SecSwitchedBefore(s: Snapshot, pairs: seq<(string, string)>, i: int)
    requires PairsKnown(s, pairs) && i <= |pairs|
  {
    exists j :: 0 <= j < i && SwitchesSec(s, pairs[j].0, pairs[j].1)
  }

  /**
   * The flags in force when the walk reaches place `i`: each is off when it
   * started off or when some earlier pair switched it.
   */
  function CarriedFlags(s: Snapshot, pairs: seq<(string, string)>, flags: Flags, i: int): Flags
    requires PairsKnown(s, pairs) && 0 <= i <= |pairs|
  {
    Flags(if PriSwitchedBefore(s, pairs, i) then Off else flags.pri,
          if SecSwitchedBefore(s, pairs, i) then Off else flags.sec)
  }

  lemma PairsKnownSuffix(s: Snapshot, pairs: seq<(string, string)>, i: int)
    requires PairsKnown(s, pairs) && 0 <= i <= |pairs|
    ensures PairsKnown(s, pairs[i..])
  {
    assert forall j :: 0 <= j < |pairs| - i ==> pairs[i..][j] == pairs[i + j];
  }

  /** Visiting the first pair turns the flags it starts with into those carried past it. */
  lemma CarriedFlagsStep(s: Snapshot, pairs: seq<(string, string)>, flags: Flags)
    requires PairsKnown(s, pairs) && |pairs| > 0
    ensures PairsKnown(s, pairs[1..])
    ensures CarriedFlags(s, pairs[1..], PairStep(s, pairs[0].0, pairs[0].1, flags).flags, |pairs| - 1)
         == CarriedFlags(s, pairs, flags, |pairs|)
  {
    PairsKnownSuffix(s, pairs, 1);
    var tail := pairs[1..];
    assert forall j :: 0 <= j < |tail| ==> tail[j] == pairs[j + 1];
    if PriSwitchedBefore(s, pairs, |pairs|) {
      var j :| 0 <= j < |pairs| && SwitchesPri(s, pairs[j].0, pairs[j].1);
      if j > 0 { assert SwitchesPri(s, tail[j - 1].0, tail[j - 1].1); }
    }
    if SecSwitchedBefore(s, pairs, |pairs|) {
      var j :| 0 <= j < |pairs| && SwitchesSec(s, pairs[j].0, pairs[j].1);
      if j > 0 { assert SwitchesSec(s, tail[j - 1].0, tail[j - 1].1); }
    }
  }

  /**
   * The walk over the pairs of one cycle, carrying the two breach flags from
   * pair to pair: once a flag is off it stays off for every later pair, and
   * every action touches an instrument of some pair.
   */
  function RunPairs(s: Snapshot, pairs: seq<(string, string)>, flags: Flags): (r: Step)
    requires PairsKnown(s, pairs)
    ensures r.flags == CarriedFlags(s, pairs, flags, |pairs|)
    ensures forall a :: a in r.actions ==>
      exists i :: 0 <= i < |pairs| && (ActionInstrument(a) == pairs[i].0 || ActionInstrument(a) == pairs[i].1)
  {
    if |pairs| == 0 then Step(flags, [])
    else
      var first := PairStep(s, pairs[0].0, pairs[0].1, flags);
      var rest := RunPairs(s, pairs[1..], first.flags);
      assert forall i :: 1 <= i < |pairs| ==> pairs[1..][i - 1] == pairs[i];
      assert forall a :: a in first.actions ==> ActionInstrument(a) == pairs[0].0 || ActionInstrument(a) == pairs[0].1;
      CarriedFlagsStep(s, pairs, flags);
      Step(rest.flags, first.actions + rest.actions)
  }

  /**
   * The pairs from place `i` on, each evaluated with the flags carried to it
   * rather than threaded through the walk.
   */
  function PairsFrom(s: Snapshot, pairs: seq<(string, string)>, flags: Flags, i: int): seq<Action>
    requires PairsKnown(s, pairs) && 0 <= i <= |pairs|
    decreases |pairs| - i
  {
    if i == |pairs| then []
    else PairStep(s, pairs[i].0, pairs[i].1, CarriedFlags(s, pairs, flags, i)).actions + PairsFrom(s, pairs, flags, i + 1)
  }

  lemma {:induction false} RunPairsFromPlace(s: Snapshot, pairs: seq<(string, string)>, flags: Flags, i: int)
    requires PairsKnown(s, pairs) && 0 <= i <= |pairs|
    ensures PairsKnown(s, pairs[i..])
    ensures RunPairs(s, pairs[i..], CarriedFlags(s, pairs, flags, i)).actions == PairsFrom(s, pairs, flags, i)
    decreases |pairs| - i
  {
    PairsKnownSuffix(s, pairs, i);
    if i < |pairs| {
      var here := CarriedFlags(s, pairs, flags, i);
      var step := PairStep(s, pairs[i].0, pairs[i].1, here);
      assert pairs[i..][0] == pairs[i] && pairs[i..][1..] == pairs[i + 1..];
      assert step.flags == CarriedFlags(s, pairs, flags, i + 1) by {
        if SwitchesPri(s, pairs[i].0, pairs[i].1) { assert PriSwitchedBefore(s, pairs, i + 1); }
        if SwitchesSec(s, pairs[i].0, pairs[i].1) { assert SecSwitchedBefore(s, pairs, i + 1); }
        if PriSwitchedBefore(s, pairs, i + 1) && !SwitchesPri(s, pairs[i].0, pairs[i].1) {
          var j :| 0 <= j < i + 1 && SwitchesPri(s, pairs[j].0, pairs[j].1);
          assert PriSwitchedBefore(s, pairs, i);
        }
        if SecSwitchedBefore(s, pairs, i + 1) && !SwitchesSec(s, pairs[i].0, pairs[i].1) {
          var j :| 0 <= j < i + 1 && SwitchesSec(s, pairs[j].0, pairs[j].1);
          assert SecSwitchedBefore(s, pairs, i);
        }
      }
      RunPairsFromPlace(s, pairs, flags, i + 1);
    }
  }

  /**
   * The walk is the pairs in order, each evaluated with the flags carried to
   * it: from the first pair that switches a flag off, every later pair runs
   * with that leg's limit check off.
   */
  lemma RunPairsCarriesFlags(s: Snapshot, pairs: seq<(string, string)>, flags: Flags)
    requires PairsKnown(s, pairs)
    ensures RunPairs(s, pairs, flags) == Step(CarriedFlags(s, pairs, flags, |pairs|), PairsFrom(s, pairs, flags, 0))
  {
    assert pairs[0..] == pairs;
    assert CarriedFlags(s, pairs, flags, 0) == flags;
    RunPairsFromPlace(s, pairs, flags, 0);
  }

  /** Every pair evaluated on its own, with both flags on: the cycle without cross-pair state. */
  function IndependentPairs(s: Snapshot, pairs: seq<(string, string)>): (r: seq<Action>)
    requires PairsKnown(s, pairs)
    ensures |r| <= 4 * |pairs|
  {
    if |pairs| == 0 then []
    else PairStep(s, pairs[0].0, pairs[0].1, Flags(Nil, Nil)).actions + IndependentPairs(s, pairs[1..])
  }

  /**
   * The flags are the only state carried between pairs: as long as no pair
   * switches a flag off, the fold sends exactly what evaluating every pair on
   * its own would send.
   */
  lemma {:induction false} CarriedFlagsMatterOnlyAfterASwitch(s: Snapshot, pairs: seq<(string, string)>)
    requires PairsKnown(s, pairs)
    requires forall i :: 0 <= i < |pairs| ==> PairStep(s, pairs[i].0, pairs[i].1, Flags(Nil, Nil)).flags == Flags(Nil, Nil)
    ensures RunPairs(s, pairs, Flags(Nil, Nil)) == Step(Flags(Nil, Nil), IndependentPairs(s, pairs))
  {
    if |pairs| > 0 {
      assert forall i :: 1 <= i < |pairs| ==> pairs[1..][i - 1] == pairs[i];
      CarriedFlagsMatterOnlyAfterASwitch(s, pairs[1..]);
    }
  }

  /**
   * One polling cycle: the unwind pass over the positions in their iteration
   * order `ids`, then the configured pairs with both flags starting on. Every
   * near-limit position with a price to trade at is unwound exactly once,
   * before any arbitrage order, and the rest is the pairs in order, each with
   * the flags carried to it.
   */
  function Cycle(s: Snapshot, ids: seq<string>): (r: seq<Action>)
    requires Enumerates(ids, s.cycle)
    requires PairsKnown(s, StockPairs)
    ensures DeRisk(ids, s.cycle, s.books) <= r
    ensures forall id :: id in s.cycle && UnwindOrder(id, s.cycle[id], QuoteOf(s.books, id)).Some? ==>
      Insert(UnwindOrder(id, s.cycle[id], QuoteOf(s.books, id)).value) in r[..|DeRisk(ids, s.cycle, s.books)|]
    ensures forall k, l :: 0 <= k < l < |DeRisk(ids, s.cycle, s.books)| ==> ActionInstrument(r[k]) != ActionInstrument(r[l])
    ensures r[|DeRisk(ids, s.cycle, s.books)|..] == PairsFrom(s, StockPairs, Flags(Nil, Nil), 0)
    ensures forall k :: |DeRisk(ids, s.cycle, s.books)| <= k < |r| ==>
      exists i :: 0 <= i < |StockPairs| && (ActionInstrument(r[k]) == StockPairs[i].0 || ActionInstrument(r[k]) == StockPairs[i].1)
  {
    var unwind := DeRisk(ids, s.cycle, s.books);
    var pairs := RunPairs(s, StockPairs, Flags(Nil, Nil));
    DeRiskCoversPositions(ids, s.cycle, s.books);
    DeRiskUnwindsEachOnce(ids, s.cycle, s.books);
    RunPairsCarriesFlags(s, StockPairs, Flags(Nil, Nil));
    assert forall k :: 0 <= k < |unwind| ==> (unwind + pairs.actions)[k] == unwind[k] && unwind[k] in unwind;
    assert forall k :: |unwind| <= k < |unwind + pairs.actions| ==> (unwind + pairs.actions)[k] in pairs.actions;
    assert (unwind + pairs.actions)[..|unwind|] == unwind;
    assert (unwind + pairs.actions)[|unwind|..] == pairs.actions;
    unwind + pairs.actions
  }

  // ---------------------------------------------------------------------------
  // The breach flags outlive the pair that switched them off

  /**
   * A leg whose flag is off has its limit check skipped, so its live position
   * does not matter: changing the live positions of legs whose flags are off
   * leaves the pair's outcome unchanged.
   */
  lemma OffFlagIgnoresLivePosition(s: Snapshot, pri: string, sec: string, flags: Flags, live: map<string, int>)
    requires pri in s.cycle && sec in s.cycle && pri in s.live && sec in s.live
    requires pri in live && sec in live
    requires flags.pri == Nil ==> live[pri] == s.live[pri]
    requires flags.sec == Nil ==> live[sec] == s.live[sec]
    ensures PairStep(s, pri, sec, flags) == PairStep(s.(live := live), pri, sec, flags)
  {
  }

  /**
   * Once both flags are off, the whole walk over the pairs is the same
   * whatever the live positions are.
   */
  lemma {:induction false} FlagsOffIgnoreLivePositions(s: Snapshot, pairs: seq<(string, string)>, live: map<string, int>)
    requires PairsKnown(s, pairs) && PairsKnown(s.(live := live), pairs)
    ensures RunPairs(s, pairs, Flags(Off, Off)) == RunPairs(s.(live := live), pairs, Flags(Off, Off))
  {
    if |pairs| > 0 {
      OffFlagIgnoresLivePosition(s, pairs[0].0, pairs[0].1, Flags(Off, Off), live);
      PairsKnownSuffix(s, pairs, 1);
      PairsKnownSuffix(s.(live := live), pairs, 1);
      FlagsOffIgnoreLivePositions(s, pairs[1..], live);
    }
  }

  /**
   * A two-pair cycle: ASML flat on both listings, SAP long 98. The first pair is
   * a passive trade whose legs both reduce inventory, which switches both flags off.
   */
  function FlagCarrySnapshot(): Snapshot {
    var positions := map["ASML" := 0, "ASML_DUAL" := 0, "SAP" := 98, "SAP_DUAL" := 0];
    Snapshot(
      positions,
      positions,
      map["ASML" := Quote(Some(100), Some(110)), "ASML_DUAL" := Quote(Some(100), Some(105)),
          "SAP" := Quote(Some(100), Some(105)), "SAP_DUAL" := Quote(Some(100), Some(110))],
      map[])
  }

  /**
   * The SAP pair then buys 4 lots at 101 while long 98, which the limit check
   * would refuse; it goes out because ASML's pair switched the flag off. The same
   * SAP pair evaluated with fresh flags sends nothing.
   */
  lemma LaterPairSkipsLimitCheck()
    ensures PairsKnown(FlagCarrySnapshot(), StockPairs)
    ensures Insert(Order("SAP", Bid, 101, 4, Limit)) in RunPairs(FlagCarrySnapshot(), StockPairs, Flags(Nil, Nil)).actions
    ensures Breaches(FlagCarrySnapshot().live["SAP"], 4, Bid, PositionLimit)
    ensures PairStep(FlagCarrySnapshot(), "SAP", "SAP_DUAL", Flags(Nil, Nil)).actions == []
  {
    var s := FlagCarrySnapshot();
    assert StockPairs[0] == ("ASML", "ASML_DUAL") && StockPairs[1] == ("SAP", "SAP_DUAL");
    var tA := TopsOf(s.books, "ASML", "ASML_DUAL");
    assert tA == Some(Tops(100, 110, 100, 105));
    var first := PairStep(s, "ASML", "ASML_DUAL", Flags(Nil, Nil));
    assert first.flags == Flags(Off, Off);
    var tS := TopsOf(s.books, "SAP", "SAP_DUAL");
    assert tS == Some(Tops(100, 105, 100, 110));
    assert PlanFor(s.books, "SAP", "SAP_DUAL") == Some(Plan(PassiveB, Leg(Bid, 101), Leg(Ask, 109)));
    var second := PairStep(s, "SAP", "SAP_DUAL", Flags(Off, Off));
    assert second.actions == [DeleteAll("SAP"), DeleteAll("SAP_DUAL"),
                              Insert(Order("SAP", Bid, 101, 4, Limit)), Insert(Order("SAP_DUAL", Ask, 109, 20, Limit))];
    assert StockPairs[1..][1..] == [];
    var all := RunPairs(s, StockPairs, Flags(Nil, Nil));
    assert all.actions == first.actions + second.actions;
    assert second.actions[2] in all.actions;
  }
}
