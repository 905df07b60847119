/**
 * Position-limit guard: would a proposed trade push a position past the limit,
 * and how many lots must be shed on the other side to get back to it.
 * Both strategy scripts carry the same two helpers; the dual-listing one adds
 * a flag that switches the limit check off.
 */
module Ledger {
  import opened Market

  /** Errors the helpers raise instead of answering. */
  datatype Fault = UnknownInstrument(id: string) | InvalidSide(side: string)

  /**
   * The dual-listing breach flag: the string "NIL" leaves the check on,
   * the value False switches it off.
   */
  datatype BreachFlag = Nil | Off

  /** A trade of `volume` lots on `side` from `position` breaches `limit`. */
  predicate Breaches(position: int, volume: int, side: Side, limit: int) {
    match side
    case Bid => position + volume > limit
    case Ask => position - volume < -limit
  }

  /**
   * For a position already within the limit, the guard flags exactly the
   * trades whose resulting position lies outside [-limit, limit].
   */
  lemma BreachMeansOutsideLimit(position: int, volume: nat, side: Side, limit: int)
    requires -limit <= position <= limit
    ensures Breaches(position, volume, side, limit) <==> Abs(Fill(position, side, volume)) > limit
  {
  }

  /**
   * The unflagged check both scripts define: look the position up (a missing
   * instrument raises), then compare according to the side (any other side raises).
   */
  function CheckBreachUnflagged(positions: map<string, int>, id: string, volume: int,
                                side: string, limit: int): (r: Result<bool, Fault>)
    ensures id !in positions ==> r == Failure(UnknownInstrument(id))
    ensures id in positions && side == "bid" ==> r == Success(positions[id] + volume > limit)
    ensures id in positions && side == "ask" ==> r == Success(positions[id] - volume < -limit)
    ensures id in positions && side != "bid" && side != "ask" ==> r == Failure(InvalidSide(side))
  {
    if id !in positions then Failure(UnknownInstrument(id))
    else
      match ParseSide(side)
      case Some(s) => Success(Breaches(positions[id], volume, s, limit))
      case None => Failure(InvalidSide(side))
  }

  /**
   * The dual-listing check: the lookup happens first, then a flag equal to
   * `Off` answers "no breach" before the side is even examined.
   */
  function CheckBreach(positions: map<string, int>, id: string, volume: int, side: string,
                       flag: BreachFlag, limit: int): (r: Result<bool, Fault>)
    ensures id !in positions ==> r == Failure(UnknownInstrument(id))
    ensures id in positions && flag == Off ==> r == Success(false)
    ensures id in positions && flag == Nil && side == "bid" ==> r == Success(positions[id] + volume > limit)
    ensures id in positions && flag == Nil && side == "ask" ==> r == Success(positions[id] - volume < -limit)
    ensures id in positions && flag == Nil && side != "bid" && side != "ask" ==> r == Failure(InvalidSide(side))
  {
    if id !in positions then Failure(UnknownInstrument(id))
    else if flag == Off then Success(false)
    else CheckBreachUnflagged(positions, id, volume, side, limit)
  }

  /** A trade that lands exactly on the limit is allowed. */
  lemma ExactlyAtLimitIsAllowed(positions: map<string, int>, id: string, volume: int, limit: int)
    requires id in positions
    ensures positions[id] + volume == limit ==> CheckBreachUnflagged(positions, id, volume, "bid", limit) == Success(false)
    ensures positions[id] - volume == -limit ==> CheckBreachUnflagged(positions, id, volume, "ask", limit) == Success(false)
  {
  }

  /** How much to shed, and on which side, after a trade that overshoots the limit. */
  datatype Unwind = Unwind(side: Side, excess: int)

  /** The limit edge a trade on `side` runs into. */
  function LimitEdge(side: Side, limit: int): int {
    match side
    case Bid => limit
    case Ask => -limit
  }

  /**
   * Shedding the excess on the opposite side after the trade brings the
   * position exactly to the limit edge; the excess is positive exactly when
   * the trade breaches.
   */
  function UnwindAmount(position: int, volume: int, side: Side, limit: int): (r: Unwind)
    ensures r.side == Opposite(side)
    ensures Fill(Fill(position, side, volume), r.side, r.excess) == LimitEdge(side, limit)
    ensures r.excess > 0 <==> Breaches(position, volume, side, limit)
  {
    match side
    case Bid => Unwind(Ask, (position + volume) - limit)
    case Ask => Unwind(Bid, (-limit) - (position - volume))
  }

  /**
   * `amt_to_reduce_position`: the lookup raises on a missing instrument; a
   * side other than "bid"/"ask" falls off the end of the function and yields
   * nothing.
   */
  function AmountToReduce(positions: map<string, int>, id: string, volume: int,
                          side: string, limit: int): (r: Result<Option<Unwind>, Fault>)
    ensures id !in positions ==> r == Failure(UnknownInstrument(id))
    ensures id in positions && side != "bid" && side != "ask" ==> r == Success(None)
    ensures id in positions && side == "bid" ==>
      r.Success? && r.value.Some? && r.value.value.side == Ask
      && positions[id] + volume - r.value.value.excess == limit
    ensures id in positions && side == "ask" ==>
      r.Success? && r.value.Some? && r.value.value.side == Bid
      && positions[id] - volume + r.value.value.excess == -limit
    ensures id in positions && r.Success? && r.value.Some? ==>
      (r.value.value.excess > 0 <==> CheckBreachUnflagged(positions, id, volume, side, limit) == Success(true))
  {
    if id !in positions then Failure(UnknownInstrument(id))
    else
      match ParseSide(side)
      case Some(s) => Success(Some(UnwindAmount(positions[id], volume, s, limit)))
      case None => Success(None)
  }
}
