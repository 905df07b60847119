/**
 * Inventory-skew sizing: each leg trades a small base volume, plus a bonus
 * when the leg moves the position toward (or keeps it at) flat.
 */
module Sizing {
  import opened Market
  import opened Ledger

  /**
   * A leg reduces inventory when it sells out of a long-or-flat position or
   * buys into a short-or-flat one; at zero both sides count.
   */
  predicate Reducing(position: int, side: Side) {
    (position >= 0 && side == Ask) || (position <= 0 && side == Bid)
  }

  /** The volume of one leg: `base`, plus `bonus` on a reducing leg. */
  function LegVolume(position: int, side: Side, base: nat, bonus: nat): (v: nat)
    ensures v == base || v == base + bonus
    ensures v >= base
    ensures bonus > 0 ==> (v == base + bonus <==> Reducing(position, side))
  {
    if Reducing(position, side) then base + bonus else base
  }

  /** Reducing means the fill's direction does not share the position's sign. */
  lemma ReducingMeansTowardFlat(position: int, side: Side)
    ensures Reducing(position, side) <==> position * Direction(side) <= 0
  {
  }

  /** Away from flat, a reducing leg is exactly one whose first lot shrinks the exposure. */
  lemma ReducingShrinksExposure(position: int, side: Side)
    requires position != 0
    ensures Reducing(position, side) <==> Abs(Fill(position, side, 1)) < Abs(position)
  {
  }

  /** A reducing leg no larger than the limit can never breach it, whatever the position. */
  lemma ReducingLegNeverBreaches(position: int, volume: int, side: Side, limit: int)
    requires Reducing(position, side)
    requires 0 <= volume <= limit
    ensures !Breaches(position, volume, side, limit)
  {
  }

  /** At a flat position either side earns the bonus. */
  lemma FlatGetsBonusEitherSide(base: nat, bonus: nat)
    ensures LegVolume(0, Bid, base, bonus) == base + bonus
    ensures LegVolume(0, Ask, base, bonus) == base + bonus
  {
  }
}
