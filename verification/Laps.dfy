/**
 Tickets laid out over a ring: ticket t lives in slot Idx(t) during lap Lap(t). Both are the
 quotient and remainder by the capacity, defined by repeated subtraction.
 */
module Laps {

  function Idx(t: nat, cap: nat): (i: nat)
    requires cap > 0
    ensures i < cap
    decreases t
  {
    if t < cap then t else Idx(t - cap, cap)
  }

  function Lap(t: nat, cap: nat): nat
    requires cap > 0
    decreases t
  {
    if t < cap then 0 else 1 + Lap(t - cap, cap)
  }

  /** The next ticket is the next slot, or slot 0 one lap on. */
  lemma {:induction false} NextTicket(t: nat, cap: nat)
    requires cap > 0
    ensures Idx(t + 1, cap) == (if Idx(t, cap) + 1 < cap then Idx(t, cap) + 1 else 0)
    ensures Lap(t + 1, cap) == (if Idx(t, cap) + 1 < cap then Lap(t, cap) else Lap(t, cap) + 1)
  {
    if t >= cap { NextTicket(t - cap, cap); }
  }

  /** Slot and lap together determine the ticket. */
  lemma {:induction false} TicketOf(t: nat, u: nat, cap: nat)
    requires cap > 0
    ensures Idx(t, cap) == Idx(u, cap) && Lap(t, cap) == Lap(u, cap) ==> t == u
  {
    if t >= cap && u >= cap { TicketOf(t - cap, u - cap, cap); }
  }

  /** Two tickets of one slot are at least a lap apart. */
  lemma {:induction false} SameSlot(t: nat, u: nat, cap: nat)
    requires cap > 0 && Idx(t, cap) == Idx(u, cap) && t < u
    ensures t + cap <= u
  {
    if t >= cap { SameSlot(t - cap, u - cap, cap); }
  }

  /** Lap * capacity + slot. */
  lemma {:induction false} LapIdx(t: nat, cap: nat)
    requires cap > 0
    ensures t == Lap(t, cap) * cap + Idx(t, cap)
  {
    if t >= cap { LapIdx(t - cap, cap); }
  }
}
