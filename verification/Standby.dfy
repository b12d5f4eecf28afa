/**
  How long the machine of a failed build is kept.  Time is a clock that only moves forward, in
  seconds; the run's context ends at its timeout or when it is cancelled, and the worker's claim
  handler may mark the run at any moment.
*/
module Standby {
  import opened Prelude

  const TEN_MINUTES := 600

  function Max(a: int, b: int): int {
    if a < b then b else a
  }

  function Min(a: int, b: int): int {
    if a < b then a else b
  }

  class Run {
    const deadline: int             // ctx.Deadline
    const contextEnd: int           // when ctx.Context is done
    const claimedAt: Option<int>    // when the claim handler sets ctx.Claimed
    var clock: int

    constructor (deadline: int, contextEnd: int, claimedAt: Option<int>, now: int)
      ensures this.deadline == deadline && this.contextEnd == contextEnd && this.claimedAt == claimedAt && clock == now
    {
      this.deadline, this.contextEnd, this.claimedAt, this.clock := deadline, contextEnd, claimedAt, now;
    }

    predicate Claimed()
      reads this
    {
      claimedAt.Some? && claimedAt.value <= clock
    }

    /** Waits for a timer or the end of the context; true when the context's end ended the wait. */
    method Select(timer: int) returns (done: bool)
      modifies this`clock
      ensures clock == Max(old(clock), Min(timer, contextEnd))
      ensures contextEnd < timer && old(clock) < timer ==> done
      ensures timer < contextEnd && old(clock) < contextEnd ==> !done
      ensures done ==> contextEnd <= clock
      ensures !done ==> timer <= clock
    {
      while clock < timer && clock < contextEnd
        invariant old(clock) <= clock <= Max(old(clock), Min(timer, contextEnd))
        decreases Min(timer, contextEnd) - clock
      {
        clock := clock + 1;
      }
      done := *;  // either, when both are ready
      if clock < timer {
        done := true;
      } else if clock < contextEnd {
        done := false;
      }
    }

    /**
      Ends at once when the context is already done, and never outlasts the context.  A run that nobody
      claims within ten minutes is given up then; a claimed one is kept to its deadline.
    */
    method Standby()
      modifies this`clock
      ensures old(clock) <= clock <= Max(old(clock), contextEnd)
      ensures !(claimedAt.Some? && claimedAt.value <= old(clock) + 10 * 60) ==>
        clock == Max(old(clock), Min(old(clock) + 10 * 60, contextEnd))
      ensures claimedAt.Some? && claimedAt.value <= old(clock) + 10 * 60 < contextEnd ==>
        clock == Max(old(clock) + 10 * 60, Min(deadline, contextEnd))
    {
      var done := Select(clock + TEN_MINUTES);
      if done {
        return;
      }
      if Claimed() {
        done := Select(deadline);
      }
    }
  }
}
