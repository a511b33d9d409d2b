/** The latch of power/barrier.h. */
module Barriers {

  datatype BarrierState = OPENED | CLOSED

  class Barrier {
    var state: BarrierState

    constructor ()
      ensures state == CLOSED
    {
      state := CLOSED;
    }

    method Open()
      modifies this
      ensures state == OPENED
    {
      state := OPENED;
    }

    method Close()
      modifies this
      ensures state == CLOSED
    {
      state := CLOSED;
    }

    /** cv.wait gives up the lock while it sleeps: `seen[i]` is the state found at the i-th wake-up, spurious or
        not. The caller gets through at the first look, before or after a sleep, that finds OPENED. */
    method Wait(seen: seq<BarrierState>) returns (through: bool, sleeps: nat)
      modifies this
      ensures sleeps <= |seen| && state == (if sleeps == 0 then old(state) else seen[sleeps - 1])
      ensures through <==> state == OPENED
      ensures sleeps > 0 ==> old(state) == CLOSED && forall i :: 0 <= i < sleeps - 1 ==> seen[i] == CLOSED
      ensures !through ==> sleeps == |seen|
    {
      sleeps := 0;
      while state == CLOSED && sleeps < |seen|
        invariant sleeps <= |seen| && state == (if sleeps == 0 then old(state) else seen[sleeps - 1])
        invariant sleeps > 0 ==> old(state) == CLOSED && forall i :: 0 <= i < sleeps - 1 ==> seen[i] == CLOSED
      {
        state := seen[sleeps];
        sleeps := sleeps + 1;
      }
      through := state == OPENED;
    }
  }
}
