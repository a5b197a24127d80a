/** Where the timing of SchedulerTiming.dfy stops: the runs that its conditions shut out. */
module SchedulerLimits {
  import opened SchedulerMachine
  import opened SchedulerTrace
  import opened SchedulerTiming

  /** `acts` is a prompt run from `m` to `m'`. */
  ghost predicate Leads(cfg: Config, m: Machine, acts: seq<Action>, m': Machine) {
    PromptRun(cfg, m, acts) && Exec(cfg, m, acts) == m'
  }

  lemma Stay(cfg: Config, m: Machine)
    ensures Leads(cfg, m, [], m)
  {
  }

  lemma Then(cfg: Config, m: Machine, acts: seq<Action>, m1: Machine, a: Action)
    returns (acts': seq<Action>, m2: Machine)
    requires Leads(cfg, m, acts, m1) && Prompt(m1, a)
    ensures Leads(cfg, m, acts', m2) && m2 == Next(cfg, m1, a)
  {
    hide Next, Prompt;
    ExecAppend(cfg, m, acts, [a]);
    ExecOne(cfg, m1, a);
    acts', m2 := acts + [a], Next(cfg, m1, a);
  }

  lemma Join(cfg: Config, m: Machine, xs: seq<Action>, m1: Machine, ys: seq<Action>, m2: Machine)
    requires Leads(cfg, m, xs, m1) && Leads(cfg, m1, ys, m2)
    ensures Leads(cfg, m, xs + ys, m2)
  {
    hide Next, Prompt;
    ExecAppend(cfg, m, xs, ys);
  }

  const GO: Action := Run(Go, true)

  // ---------------------------------------------------------------- Pause before Run's first section

  ghost predicate EndsShort(cfg: Config, m: Machine) {
    m.go.pc.EndRound? && m.watch.active < Length(cfg, m)
  }

  /** Run has booted while the scheduler was paused: its first timer runs regardless. */
  ghost predicate BootedPaused(cfg: Config, m: Machine) {
    && m.go.pc.RoundSelect? && m.clock.paused && !m.clock.inBreak && !m.engine.running
    && !m.contexts.runDone && !Done(m.contexts, m.go.heldCtx)
    && m.watch.active == 0 && m.go.timer == At(m.now + cfg.roundDuration)
  }

  lemma BootPaused(cfg: Config, m: Machine, ok: bool)
    requires Unstarted(m) && m.clock.paused && !m.watch.stopped
    ensures BootedPaused(cfg, Exec(cfg, Next(cfg, m, Run(Go, ok)), [GO, GO, GO]))
    ensures PromptRun(cfg, Next(cfg, m, Run(Go, ok)), [GO, GO, GO])
  {
    var b := Next(cfg, m, Run(Go, ok));
    assert [GO, GO, GO][1..] == [GO, GO];
    assert [GO, GO][1..] == [GO];
    ExecOne(cfg, Next(cfg, Next(cfg, b, GO), GO), GO);
  }

  lemma PausedTimerRunsOut(cfg: Config, m: Machine) returns (acts: seq<Action>, m': Machine)
    requires BootedPaused(cfg, m) && cfg.roundDuration > 0
    ensures Leads(cfg, m, acts, m') && EndsShort(cfg, m')
  {
    hide Leads;
    Stay(cfg, m);
    acts, m' := Then(cfg, m, [], m, Tick(cfg.roundDuration));
    acts, m' := Then(cfg, m, acts, m', Resume);
    acts, m' := Then(cfg, m, acts, m', Run(OnTimer, true));
    acts, m' := Then(cfg, m, acts, m', GO);
  }

  /** Whether rounds keep their length is settled by one bit: the pause flag that Run's first
      critical section finds. */
  lemma FirstSectionDecides(cfg: Config, m: Machine, ok: bool)
    requires Unstarted(m) && !m.watch.stopped && cfg.roundDuration > 0
    ensures var b := Next(cfg, m, Run(Go, ok));
            (forall acts :: PromptRun(cfg, b, acts) ==> !EndsShort(cfg, Exec(cfg, b, acts))) <==> !m.clock.paused
  {
    var b := Next(cfg, m, Run(Go, ok));
    if m.clock.paused {
      BootPaused(cfg, m, ok);
      var m0 := Exec(cfg, b, [GO, GO, GO]);
      var acts, _ := PausedTimerRunsOut(cfg, m0);
      ExecAppend(cfg, b, [GO, GO, GO], acts);
    } else {
      forall acts | PromptRun(cfg, b, acts)
        ensures !EndsShort(cfg, Exec(cfg, b, acts))
      {
        KeepsTimeFromBoot(cfg, m, ok, acts);
      }
    }
  }

  // ---------------------------------------------------------------- a pause with nothing left

  /** Nothing is paused or stopped, and no context in use is cancelled. */
  ghost predicate Settled(m: Machine) {
    && m.engine.running && !m.clock.paused && !m.contexts.runDone && !m.watch.stopped
    && !m.clock.pauseCtx.NoCtx? && !Done(m.contexts, m.clock.pauseCtx)
    && Issued(m.clock.pauseCtx, m.contexts.nextId)
    && (forall c :: c in m.contexts.cancelled ==> Issued(c, m.contexts.nextId))
  }

  /** Run stands in a select with its timer due now and nothing else to do. */
  ghost predicate Due(cfg: Config, m: Machine) {
    && Selecting(m.go.pc) && (m.clock.inBreak <==> m.go.pc.BreakSelect?)
    && Settled(m) && m.go.heldCtx == m.clock.pauseCtx
    && m.watch.active >= Length(cfg, m) && m.go.timer == At(m.now)
    && Remaining(m.clock) == m.now - RunningSince(m.clock) >= 0
  }

  /** From the start of the game to the first round's timer going off. */
  lemma FirstRoundDue(cfg: Config, now: nat, stored: nat) returns (acts: seq<Action>, m: Machine)
    requires cfg.roundDuration >= 0
    ensures Leads(cfg, Init(now, stored), acts, m) && Due(cfg, m) && m.go.pc.RoundSelect?
    ensures m.trace == Init(now, stored).trace && m.engine.currentRound == Init(now, stored).engine.currentRound
  {
    hide Leads;
    var s := Init(now, stored);
    Stay(cfg, s);
    acts, m := Then(cfg, s, [], s, GO);
    acts, m := Then(cfg, s, acts, m, GO);
    acts, m := Then(cfg, s, acts, m, GO);
    acts, m := Then(cfg, s, acts, m, GO);
    acts, m := Then(cfg, s, acts, m, Tick(cfg.roundDuration));
  }

  /** The round's timer goes off and the round ends. */
  lemma EndOfRound(cfg: Config, m: Machine) returns (acts: seq<Action>, m': Machine)
    requires Due(cfg, m) && m.go.pc.RoundSelect?
    ensures Leads(cfg, m, acts, m') && m'.go.pc.Decide? && Settled(m')
    ensures m'.engine.currentRound == m.engine.currentRound
  {
    hide Leads;
    Stay(cfg, m);
    acts, m' := Then(cfg, m, [], m, Run(OnTimer, true));
    acts, m' := Then(cfg, m, acts, m', GO);
    acts, m' := Then(cfg, m, acts, m', GO);
  }

  /** From there through the break to its timer going off. */
  lemma BreakDue(cfg: Config, m: Machine) returns (acts: seq<Action>, m': Machine)
    requires m.go.pc.Decide? && Settled(m) && m.engine.currentRound < cfg.totalRounds && cfg.breakDuration >= 0
    ensures Leads(cfg, m, acts, m') && Due(cfg, m') && m'.go.pc.BreakSelect?
  {
    hide Leads;
    Stay(cfg, m);
    acts, m' := Then(cfg, m, [], m, GO);
    acts, m' := Then(cfg, m, acts, m', GO);
    acts, m' := Then(cfg, m, acts, m', GO);
    acts, m' := Then(cfg, m, acts, m', Tick(cfg.breakDuration));
  }

  lemma FirstBreakDue(cfg: Config, now: nat, stored: nat) returns (acts: seq<Action>, m: Machine)
    requires cfg.roundDuration >= 0 && cfg.breakDuration >= 0 && cfg.totalRounds > 1 && cfg.totalRounds > stored
    ensures Leads(cfg, Init(now, stored), acts, m) && Due(cfg, m) && m.go.pc.BreakSelect?
  {
    hide Leads, Due, Settled;
    var s := Init(now, stored);
    var xs, r := FirstRoundDue(cfg, now, stored);
    var ys, e := EndOfRound(cfg, r);
    var zs, b := BreakDue(cfg, e);
    Join(cfg, s, xs, r, ys, e);
    Join(cfg, s, xs + ys, e, zs, b);
    acts, m := xs + ys + zs, b;
  }

  /** Paused at that moment and resumed, the round is lost: see LostForever. */
  lemma RoundCanBeLost(cfg: Config, now: nat, stored: nat) returns (acts: seq<Action>, m: Machine)
    requires cfg.roundDuration >= 0
    ensures Leads(cfg, Init(now, stored), acts, m) && Lost(m)
    ensures forall more :: Exec(cfg, m, more).trace == Init(now, stored).trace
  {
    hide Leads;
    var s := Init(now, stored);
    acts, m := FirstRoundDue(cfg, now, stored);
    acts, m := Then(cfg, s, acts, m, Pause);
    acts, m := Then(cfg, s, acts, m, Run(OnPause, true));
    forall more ensures Exec(cfg, m, more).trace == Init(now, stored).trace {
      LostForever(cfg, m, more);
    }
  }

  /** A break that is paused with nothing left, and Run waiting for it to be resumed. */
  ghost predicate Stalled(m: Machine) {
    && m.clock.paused && m.clock.inBreak && !m.engine.running
    && m.clock.remainingBreak == 0 && m.clock.breakStart <= m.now
    && !m.contexts.runDone && !m.watch.stopped
    && !m.clock.pauseCtx.NoCtx? && Issued(m.clock.pauseCtx, m.contexts.nextId)
    && (forall c :: c in m.contexts.cancelled ==> Issued(c, m.contexts.nextId))
  }

  /** Run sleeps in its poll. */
  ghost predicate Dozing(m: Machine) {
    && Stalled(m) && m.go.pc == WaitPoll(MidBreak) && m.go.pollAt == m.now + POLL
    && m.go.waitCtx == m.clock.pauseCtx && !Done(m.contexts, m.go.waitCtx)
  }

  /** Run looks up, finds the scheduler paused and goes back to sleep. */
  lemma GoBackToSleep(cfg: Config, m: Machine) returns (acts: seq<Action>, m': Machine)
    requires Stalled(m) && m.go.pc == WaitCheck(MidBreak) && Done(m.contexts, m.clock.pauseCtx)
    ensures Leads(cfg, m, acts, m') && Dozing(m') && m'.watch.active == m.watch.active
  {
    hide Leads;
    Stay(cfg, m);
    acts, m' := Then(cfg, m, [], m, GO);
    acts, m' := Then(cfg, m, acts, m', Run(OnPause, true));
    acts, m' := Then(cfg, m, acts, m', GO);
    acts, m' := Then(cfg, m, acts, m', GO);
  }

  /** Resume just after the poll, pause just before the next one: Run does not notice. */
  lemma SlipIn(cfg: Config, m: Machine) returns (acts: seq<Action>, m': Machine)
    requires Dozing(m)
    ensures Leads(cfg, m, acts, m') && m'.watch.active == m.watch.active + POLL - 1
    ensures Stalled(m') && m'.go.pc == WaitPoll(MidBreak) && m'.go.pollAt == m'.now + 1
    ensures Done(m'.contexts, m'.clock.pauseCtx) && !Done(m'.contexts, m'.go.waitCtx)
  {
    hide Leads;
    Stay(cfg, m);
    acts, m' := Then(cfg, m, [], m, Resume);
    acts, m' := Then(cfg, m, acts, m', Tick(POLL - 1));
    acts, m' := Then(cfg, m, acts, m', Pause);
  }

  lemma DozeThrough(cfg: Config, m: Machine) returns (acts: seq<Action>, m': Machine)
    requires Dozing(m)
    ensures Leads(cfg, m, acts, m') && Dozing(m') && m'.watch.active > m.watch.active
  {
    hide Leads;
    var xs, p := SlipIn(cfg, m);
    var ys, q := Then(cfg, m, xs, p, Tick(1));
    ys, q := Then(cfg, m, ys, q, Run(OnTimer, true));
    var zs, r := GoBackToSleep(cfg, q);
    Join(cfg, m, ys, q, zs, r);
    acts, m' := ys + zs, r;
  }

  lemma {:induction false} DozeOn(cfg: Config, m: Machine, k: nat) returns (acts: seq<Action>, m': Machine)
    requires Dozing(m)
    ensures Leads(cfg, m, acts, m') && Dozing(m') && m'.watch.active >= m.watch.active + k
    decreases k
  {
    hide Next, Dozing;
    if k == 0 {
      acts, m' := [], m;
    } else {
      var xs, m1 := DozeThrough(cfg, m);
      var ys, m2 := DozeOn(cfg, m1, k - 1);
      Join(cfg, m, xs, m1, ys, m2);
      acts, m' := xs + ys, m2;
    }
  }

  /** So with pauses that come when nothing is left, a break may outlast its length by any amount of
      unpaused time: the lateness then does grow with the number of pauses. */
  lemma BreakOverrunUnbounded(cfg: Config, now: nat, stored: nat, k: nat) returns (acts: seq<Action>, m: Machine)
    requires cfg.roundDuration >= 0 && cfg.breakDuration >= 0 && cfg.totalRounds > 1 && cfg.totalRounds > stored
    ensures Leads(cfg, Init(now, stored), acts, m)
    ensures InBreakPc(m.go.pc) && !m.watch.stopped && m.watch.active >= cfg.breakDuration + k
  {
    hide Leads;
    var s := Init(now, stored);
    acts, m := FirstBreakDue(cfg, now, stored);
    var xs, d := FallAsleep(cfg, m);
    var ys, m' := DozeOn(cfg, d, k);
    Join(cfg, s, acts, m, xs, d);
    Join(cfg, s, acts + xs, d, ys, m');
    acts, m := acts + xs + ys, m';
  }

  lemma FallAsleep(cfg: Config, m: Machine) returns (acts: seq<Action>, m': Machine)
    requires Due(cfg, m) && m.go.pc.BreakSelect?
    ensures Leads(cfg, m, acts, m') && Dozing(m') && m'.watch.active >= cfg.breakDuration
  {
    hide Leads;
    Stay(cfg, m);
    var xs, p := Then(cfg, m, [], m, Pause);
    xs, p := Then(cfg, m, xs, p, Run(OnPause, true));
    var ys, q := GoBackToSleep(cfg, p);
    Join(cfg, m, xs, p, ys, q);
    acts, m' := xs + ys, q;
  }
}
