# Paired-instrument arbitrage: a verified model of one trading cycle

Two scripts trade pairs of related instruments on a simulated exchange:
`dual_listing_algo.py` trades stocks listed on two venues (ASML/ASML_DUAL,
SAP/SAP_DUAL), and `etf_futures_algo.py` trades an ETF (OB5X_ETF) against its
future (OB5X_202509_F). Each script is an endless polling loop around one
per-cycle decision. This project models that decision as a pure function. It
takes a snapshot of positions, top-of-book quotes and one's own resting orders,
and returns the list of exchange actions (inserts and cancel-alls) the cycle
would issue.

Prices are integer cents, so the scripts' 0.01 tick is `Tick == 1`. Sides are a
closed type `Side = Bid | Ask`. The scripts' string-sided helpers are also
modelled over strings, so their invalid-side paths exist in the model.

Modules, leaf first:

- `Market` (`market.dfy`): sides, orders, actions, quotes, own orders, the
  cycle `Snapshot`, and the plan vocabulary that both strategies share
  (`Case`, `Strat`, `Leg`, `Plan`).
- `Ledger` (`ledger.dfy`): the position-limit breach check, with and without
  the dual-listing flag, and the unwind amount.
- `SelfTrade` (`self_trade.dfy`): the self-trade guard, checked against a
  reference "some resting order would be matched" predicate.
- `Sizing` (`sizing.dfy`): inventory-skew leg sizing.
- `DualListing` (`dual_listing.dfy`): the classifier, the near-limit unwind
  pass, the per-pair step, the fold over the pairs carrying the two breach
  flags, and one cycle.
- `EtfFutures` (`etf_futures.dfy`): the classifier against a fair bid/ask,
  the near-limit suspension scan, and one cycle.

Each cycle reads two position snapshots. `Snapshot.cycle` is the map fetched
once at the top of the loop. The near-limit pass and the leg sizing read it.
`Snapshot.live` is what the breach guard re-fetches on every call. The model
uses one `live` map for all breach checks of a cycle.

The dual-listing breach flags are reset to "NIL" (check on) once per cycle. A
passive leg that reduces inventory sets its flag to `False` (check off), and
the flag then stays off for every later pair in the same cycle.
`DualListing.RunPairs` carries the flags from pair to pair.
`DualListing.LaterPairSkipsLimitCheck` shows the consequence on a concrete
two-pair cycle: SAP is long 98 and buys 4 more lots. The limit check would
refuse that order, but it goes out because the ASML pair switched the flag
off.

Behaviour worth noting:

- The ETF/future script sends no unwind orders near the limit. It suspends the
  pair for the cycle, and only the ETF's position can trigger that.
- The ETF/future script sends its active legs as `limit` orders, not IOC. It
  cancels nothing before a passive insert.
- The ETF/future passive legs are not one tick inside on both instruments.
  Passive-A bids the future at its best ask. Passive-B bids the ETF at the
  ETF's best ask. See `EtfFutures.PassiveBuyLegIsMarketable`.
- Each pair's decision in the dual-listing loop is not independent of the
  others: the breach flags above carry state across the pairs of a cycle.

## Model

| member | source | states |
|---|---|---|
| Ledger.CheckBreach | dual_listing_algo.py:15-26 | A missing instrument raises. A flag equal to False answers "no breach" before the side is examined. With the flag on, a bid breaches iff position + volume > limit, an ask iff position - volume < -limit, and any other side raises. |
| Ledger.CheckBreachUnflagged | etf_futures_algo.py:15-24 | A missing instrument raises. A bid breaches iff position + volume > limit, an ask iff position - volume < -limit, and any other side raises. |
| Ledger.BreachMeansOutsideLimit | dual_listing_algo.py:21-24 | For a position within the limit, the check flags exactly the trades whose resulting position lies outside [-limit, limit]. |
| Ledger.ExactlyAtLimitIsAllowed | etf_futures_algo.py:19-22 | A trade that lands exactly on +limit or -limit is not a breach. |
| Ledger.UnwindAmount | etf_futures_algo.py:26-33 | The unwind is on the opposite side. Shedding the excess after the trade lands the position exactly on the limit edge. The excess is positive iff the trade breaches. |
| Ledger.AmountToReduce | dual_listing_algo.py:28-35 | A missing instrument raises. An unknown side yields nothing. A bid returns an ask of position + volume - limit lots, an ask returns a bid of -limit - (position - volume) lots. The excess is positive iff the breach check answers true. |
| SelfTrade.Opposing | dual_listing_algo.py:61-64 | Keeps exactly the resting orders whose side differs from the candidate's. |
| SelfTrade.ScanCrossing | dual_listing_algo.py:66-76 | The scan answers true iff some order in the list would be matched by the candidate. |
| SelfTrade.IsSelfTrade | dual_listing_algo.py:48-78 | A bid at P is blocked iff some own ask is priced at or below P. An ask at P is blocked iff some own bid is priced at or above P. An unrecognised side and an empty order list are never blocked. |
| SelfTrade.IsSelfTradeMeansCrosses | etf_futures_algo.py:46-76 | For either side, the guard agrees with the reference predicate that some resting order would be matched. |
| SelfTrade.SameSideIgnored | dual_listing_algo.py:62-64 | Adding a resting order on the candidate's own side never changes the answer. |
| SelfTrade.BlockedMonotoneInPrice | dual_listing_algo.py:67-76 | A blocked bid stays blocked at any higher price, and a blocked ask at any lower price. |
| Sizing.LegVolume | dual_listing_algo.py:167-173 | The volume is the base or base + bonus. With a positive bonus, it is base + bonus iff the leg reduces inventory (long-or-flat selling, short-or-flat buying). |
| Sizing.ReducingMeansTowardFlat | etf_futures_algo.py:169-172 | A leg reduces inventory iff its fill direction does not share the position's sign. |
| Sizing.ReducingShrinksExposure | dual_listing_algo.py:197-202 | Away from flat, a leg reduces inventory iff its first lot shrinks the absolute position. |
| Sizing.ReducingLegNeverBreaches | dual_listing_algo.py:197-203 | A reducing leg no larger than the limit can never breach it. |
| Sizing.FlatGetsBonusEitherSide | etf_futures_algo.py:196-199 | At a flat position both a bid and an ask get the bonus. |
| DualListing.Classify | dual_listing_algo.py:131-160 | The result is nothing iff neither book's bid exceeds the other's ask and the asks are equal. Legs are on opposite sides. A plan is active iff the books cross each other, and the secondary-bid-above-primary-ask case wins when both apply. Active legs hit the opposing touch and buy strictly below where they sell. Passive legs quote one tick inside and sell on the venue with the higher ask. |
| DualListing.ClassifyIsSymmetric | dual_listing_algo.py:133-158 | For books not crossed within themselves, exchanging the two venues exchanges the two legs (A and B cases swap). |
| DualListing.PassiveNeverBuysAboveSell | dual_listing_algo.py:147-158 | On books with bid < ask, a passive plan's buy price is at most its sell price. |
| DualListing.UnwindOrder | dual_listing_algo.py:98-105 | An order exists iff position >= 94 with a bid present, or position <= -94 with an ask present. It is a 10-lot IOC on the reducing side at the opposite best price. It shrinks the absolute position without crossing flat. |
| DualListing.DeRisk | dual_listing_algo.py:96-107 | Every emitted action is the unwind order of a listed instrument, every listed instrument that has an unwind order gets it, and there are at most as many actions as listed positions. |
| DualListing.DeRiskFollowsIds | dual_listing_algo.py:97-107 | The unwind orders come out in the order the positions are visited: each one's instrument sits at a strictly earlier place in that order than the next one's. |
| DualListing.DeRiskUnwindsEachOnce | dual_listing_algo.py:97-107 | When every position is visited once, no instrument is unwound twice. |
| DualListing.DeRiskCoversPositions | dual_listing_algo.py:97-105 | Visiting every key of the positions map, each position at or beyond +/-94 with a price on the reducing side gets its unwind order. |
| DualListing.TopsOf | dual_listing_algo.py:117-129 | A pair has prices iff both books have both a best bid and a best ask. |
| DualListing.NextFlag | dual_listing_algo.py:197-202 | After a leg the flag is off iff it was already off or the leg is passive and reduces inventory. |
| DualListing.PairStep | dual_listing_algo.py:115-223 | The pair emits nothing, two IOC legs, or cancel-alls on both instruments followed by two limit legs. An emitted pair follows the classified plan and is on opposite sides. Volumes are 4 or 4 + bonus (26 active, 16 passive), with the bonus iff the leg reduces the cycle-snapshot position. Neither leg crosses own resting orders. A leg whose flag is still on does not breach the live position. Conversely, when a plan exists the pair emits iff neither sized leg crosses own resting orders and neither leg whose flag is still on breaches its live position. Each flag ends off iff it started off or the plan is passive and that leg reduces its cycle-snapshot position. |
| DualListing.ClearGateAlwaysEmits | dual_listing_algo.py:174-188 | With no resting orders and both live positions within 70 of flat, a classified pair always emits both legs. |
| DualListing.RunPairs | dual_listing_algo.py:93-115 | After the walk over the pairs, each flag is off iff it started off or some pair had a passive plan whose leg on that side reduces inventory. Every action concerns an instrument of some pair. |
| DualListing.RunPairsFromPlace | dual_listing_algo.py:93-115 | From any place in the pair list on, the walk emits each remaining pair evaluated with the flags carried to it: off once any earlier pair switched them. |
| DualListing.RunPairsCarriesFlags | dual_listing_algo.py:93-115 | The whole walk equals the pairs in order, each evaluated with the flags carried to it, and ends with the carried flags; so every pair after the first switch runs with that leg's limit check off. |
| DualListing.IndependentPairs | dual_listing_algo.py:115-223 | Evaluating every pair with both flags on emits at most four actions per pair. |
| DualListing.CarriedFlagsMatterOnlyAfterASwitch | dual_listing_algo.py:93-94 | The flags are the only state carried from pair to pair. If no pair switches a flag off, the fold over the pairs emits exactly what evaluating each pair on its own would, and it ends with both flags still on. |
| DualListing.Cycle | dual_listing_algo.py:89-115 | Visiting every held position once, the cycle starts with the unwind pass: every near-limit position with a price to trade at is unwound there, and no instrument twice. The rest is the configured pairs in order, each evaluated with the flags carried to it from flags that start on. |
| DualListing.OffFlagIgnoresLivePosition | dual_listing_algo.py:19-20 | Changing the live position of a leg whose flag is off, primary or secondary, never changes the pair's outcome. |
| DualListing.FlagsOffIgnoreLivePositions | dual_listing_algo.py:19-20 | With both flags off, the whole walk over the pairs is the same whatever the live positions are. |
| DualListing.LaterPairSkipsLimitCheck | dual_listing_algo.py:197-203 | In a concrete cycle, the SAP pair inserts a 4-lot bid while SAP is long 98, which breaches the limit. It goes out only because the earlier ASML pair switched the flag off. With fresh flags the same pair sends nothing. |
| EtfFutures.Classify | etf_futures_algo.py:127-159 | The result is nothing iff there is no active case and the fair ask equals the ETF ask. Legs are on opposite sides. A plan is active iff the fair range lies outside the ETF book. Active legs hit the touch, buying the ETF only below its fair bid and selling it only above its fair ask. Passive-A offers the ETF one tick inside, at or above the fair ask, and bids the future at its ask. Passive-B bids the ETF at its ask, below the fair ask, and offers the future one tick inside. |
| EtfFutures.PassiveBuyLegIsMarketable | etf_futures_algo.py:146-157 | Every passive plan's buying leg is priced at the best ask of its book. |
| EtfFutures.ScanTarget | etf_futures_algo.py:91-100 | The carried ETF identifier ends as the placeholder iff it started as one, or some listed instrument equal to it is near the limit (>= 96 with bids, or <= -96 with asks). Otherwise it is unchanged. |
| EtfFutures.Suspended | etf_futures_algo.py:92-108 | Visiting every key of the positions map once, the pair is suspended iff the ETF is among the positions and is near the limit. |
| EtfFutures.OnlyEtfPositionSuspends | etf_futures_algo.py:92-100 | Two position maps with the same ETF entry, visited in any orders, give the same suspension. |
| EtfFutures.FuturesPositionNeverSuspends | etf_futures_algo.py:95-100 | Changing the futures position never changes whether the pair is suspended. |
| EtfFutures.TopsOf | etf_futures_algo.py:110-125 | The pair has prices iff both books have both a best bid and a best ask. |
| EtfFutures.Cycle | etf_futures_algo.py:88-219 | Visiting every held position once: with the ETF held near the limit, or without a plan, nothing is sent. The cycle sends exactly an ETF limit order and a future limit order, or nothing, and never cancels. When the ETF is not near the limit and a plan exists, both legs go out iff neither sized leg breaches its live position or crosses own resting orders. The legs follow the plan on opposite sides. Volumes are 3 or 30, with 30 iff the leg reduces the cycle-snapshot position. |
| EtfFutures.ClearGateAlwaysEmits | etf_futures_algo.py:200-216 | When the ETF is not near the limit, a plan exists, there are no resting orders, and both live positions are within 70 of flat, both legs are sent. |

## Left out

- Exchange transport is left out: connecting, `get_positions`, `get_last_price_book`, `get_outstanding_orders`, `insert_order` and `delete_orders`. Their results are snapshot parameters, and orders and cancels are returned `Action` values.
- Printing, logging, `print_positions_and_pnl`, `get_pnl`, `time.sleep` and the endless `while True` loop are left out. They are I/O and timing with no decision content. A model run is one loop iteration.
- The float fair-value computation (`np.exp`, the 0.25 multiplier, the 2.5 offset, Python `round`) is left out. `EtfFutures.Cycle` takes the fair bid and ask as integer-cent inputs.
- Float prices and the +/-0.01 tick become integer cents. Float rounding of `price - 0.01` is not modelled.
- Positions that change between breach checks inside one cycle are not modelled. For example, a fill of an IOC sent earlier in the cycle would change them. All breach checks of a cycle read one `live` map.
- Own resting orders inserted or cancelled earlier in the same cycle are not seen by later self-trade checks. The model reads one own-orders map per cycle.
- Books that change within a cycle are not modelled. The model reads one `books` map per cycle. The dual-listing script fetches a book for the near-limit test, again for the unwind price, and again for the pair's prices. The ETF script fetches one for the near-limit test and again for the pair's prices. An earlier unwind fill may have consumed the best level by then. A side that empties between the near-limit test and the price read makes `bids[0]` or `asks[0]` raise an IndexError in the script; the model has no such path.
- Book depth beyond the best bid and best ask is not modelled. The scripts read only the first level.
- `get_last_price_book` returning no book in the near-limit pass is left out. The scripts would raise an attribute error there; the model reads a missing book as one with no levels.
- A missing position key is left out of the engines. `DualListing.PairStep`, `DualListing.RunPairs`, `DualListing.Cycle` and `EtfFutures.Cycle` require both instruments of every pair to be present in both position maps. The scripts raise a KeyError only once a pair has a plan: the sizing and the breach check look the positions up. A pair whose book lacks a side, or that classifies to nothing, reads no position and sends nothing. That input, with a pair instrument absent, is also excluded by the model. The guard functions (`Ledger.CheckBreach`, `Ledger.CheckBreachUnflagged`, `Ledger.AmountToReduce`) do model the lookup failure as an error.
- Python's dictionary iteration order is not modelled. The positions map is visited in a given order `ids` that lists every key once (`Market.Enumerates`); the contracts hold for every such order.
- The passive branch's 2.5-second pause after inserting is not modelled.
