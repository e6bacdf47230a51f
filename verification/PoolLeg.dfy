/**
 One leg of a circuit credit pool: what it holds, what it still asks for, and the
 rules every pool operation applies to it.  Shared by the pool class and by the
 three-party protocol.
 */
module PoolLeg {
  import opened Frames

  const DEMAND_PROGRESS: nat := 32

  datatype Leg = Leg(granted: nat, wanted: nat, demandOpen: bool, progress: nat)

  const FRESH := Leg(0, 0, false, DEMAND_PROGRESS)

  /** `demand`: zero cancels an open demand; anything else must be the only demand and
      must fit the window.  `tooSoon` is the clock's verdict for a rate-limited caller. */
  predicate MayDemand(leg: Leg, amount: nat, tooSoon: bool) {
    && amount <= CIRCUIT_WINDOW
    && (amount == 0 ==> leg.demandOpen)
    && (amount != 0 ==>
          && leg.wanted == 0
          && leg.granted + amount <= CIRCUIT_WINDOW
          && !(tooSoon && leg.progress < DEMAND_PROGRESS))
  }

  function Demanded(leg: Leg, amount: nat): Leg
    requires amount != 0
  {
    leg.(wanted := amount, demandOpen := true,
         progress := if leg.progress < DEMAND_PROGRESS then 0 else leg.progress - DEMAND_PROGRESS)
  }

  function Cancelled(leg: Leg): Leg {
    leg.(wanted := 0, demandOpen := false)
  }

  function Granted(leg: Leg, amount: nat): Leg
    requires amount <= leg.wanted
  {
    leg.(granted := leg.granted + amount, wanted := leg.wanted - amount)
  }

  function Spent(leg: Leg, amount: nat): Leg
    requires amount <= leg.granted
  {
    var earned := leg.progress + amount;
    leg.(granted := leg.granted - amount,
         progress := if earned < 2 * DEMAND_PROGRESS then earned else 2 * DEMAND_PROGRESS)
  }

  function Returned(leg: Leg, amount: nat): Leg
    requires amount <= leg.granted
  {
    leg.(granted := leg.granted - amount)
  }
}
