/** internal/engine/round.go: the fields of RoundScheduler and the critical sections that touch them.

    Times and durations are whole nanoseconds.  A context is an identifier; which contexts are
    cancelled is the business of the machine in SchedulerMachine.dfy. */
module RoundScheduler {

  /** A cancellable context: none yet, a child of the context Run was given, or a child of a
      context made by a later engine Resume. */
  datatype Ctx = NoCtx | OfRun(id: nat) | OfResume(id: nat)

  /** The fields guarded by rs.mu. */
  datatype Clock = Clock(
    paused: bool,
    inBreak: bool,
    roundStart: int,
    breakStart: int,
    remainingRound: int,
    remainingBreak: int,
    pauseCtx: Ctx)

  /** What is left of a timer that has `remaining` on it and has been running for `elapsed`. */
  function Deduct(remaining: int, elapsed: int): int {
    if remaining > elapsed then remaining - elapsed else 0
  }

  function PauseClock(c: Clock, now: int): Clock {
    if c.paused then c
    else if c.inBreak then
      c.(paused := true, remainingBreak := Deduct(c.remainingBreak, now - c.breakStart))
    else
      c.(paused := true, remainingRound := Deduct(c.remainingRound, now - c.roundStart))
  }

  function ResumeClock(c: Clock, now: int, newCtx: Ctx): Clock {
    if !c.paused then c
    else if c.inBreak then c.(paused := false, pauseCtx := newCtx, breakStart := now)
    else c.(paused := false, pauseCtx := newCtx, roundStart := now)
  }

  function BootClock(c: Clock, now: int, newCtx: Ctx): Clock {
    c.(roundStart := now, pauseCtx := newCtx)
  }

  function InitRemainingClock(c: Clock, duration: int): Clock {
    c.(remainingRound := duration, inBreak := false)
  }

  function SetRemainingClock(c: Clock, duration: int): Clock {
    c.(remainingRound := duration)
  }

  function RenewClock(c: Clock, newCtx: Ctx): Clock {
    if c.paused then c.(pauseCtx := newCtx) else c
  }

  function BeginBreakClock(c: Clock, now: int, duration: int): Clock {
    c.(inBreak := true, remainingBreak := duration, breakStart := now)
  }

  function BeginRoundClock(c: Clock, now: int): Clock {
    c.(roundStart := now, inBreak := false)
  }

  /** The scheduler object.  Each method is one stretch of code between Lock and Unlock of rs.mu. */
  class RoundScheduler {
    var paused: bool
    var inBreak: bool
    var roundStart: int
    var breakStart: int
    var remainingRound: int
    var remainingBreak: int
    var pauseCtx: Ctx

    ghost function View(): Clock
      reads this
    {
      Clock(paused, inBreak, roundStart, breakStart, remainingRound, remainingBreak, pauseCtx)
    }

    constructor ()
      ensures View() == Clock(false, false, 0, 0, 0, 0, NoCtx)
    {
      paused, inBreak := false, false;
      roundStart, breakStart := 0, 0;
      remainingRound, remainingBreak := 0, 0;
      pauseCtx := NoCtx;
    }

    /** Freezes the timer of the current phase; the result is the context that gets cancelled. */
    method Pause(now: int) returns (cancelled: Ctx)
      modifies this
      ensures View() == PauseClock(old(View()), now)
      ensures cancelled == if old(paused) then NoCtx else pauseCtx
    {
      if paused {
        return NoCtx;
      }
      paused := true;
      if inBreak {
        var elapsed := now - breakStart;
        if remainingBreak > elapsed {
          remainingBreak := remainingBreak - elapsed;
        } else {
          remainingBreak := 0;
        }
      } else {
        var elapsed := now - roundStart;
        if remainingRound > elapsed {
          remainingRound := remainingRound - elapsed;
        } else {
          remainingRound := 0;
        }
      }
      cancelled := pauseCtx;
    }

    method Resume(now: int, newCtx: Ctx)
      modifies this
      ensures View() == ResumeClock(old(View()), now, newCtx)
    {
      if !paused {
        return;
      }
      paused := false;
      pauseCtx := newCtx;
      if inBreak {
        breakStart := now;
      } else {
        roundStart := now;
      }
    }

    /** First critical section of Run. */
    method Boot(now: int, newCtx: Ctx)
      modifies this
      ensures View() == BootClock(old(View()), now, newCtx)
    {
      roundStart := now;
      pauseCtx := newCtx;
    }

    /** Run once it knows the round duration. */
    method InitRemaining(duration: int)
      modifies this
      ensures View() == InitRemainingClock(old(View()), duration)
    {
      remainingRound := duration;
      inBreak := false;
    }

    method BeginBreak(now: int, duration: int) returns (ctx: Ctx)
      modifies this
      ensures View() == BeginBreakClock(old(View()), now, duration)
      ensures ctx == pauseCtx
    {
      inBreak := true;
      remainingBreak := duration;
      breakStart := now;
      ctx := pauseCtx;
    }

    method BeginRound(now: int)
      modifies this
      ensures View() == BeginRoundClock(old(View()), now)
    {
      roundStart := now;
      inBreak := false;
    }

    method SetRemaining(duration: int)
      modifies this
      ensures View() == SetRemainingClock(old(View()), duration)
    {
      remainingRound := duration;
    }

    /** waitForResume after its context was cancelled. */
    method RenewContext(newCtx: Ctx)
      modifies this
      ensures View() == RenewClock(old(View()), newCtx)
    {
      if paused {
        pauseCtx := newCtx;
      }
    }
  }
}
