/** Exactly when a round is lost, and when a break can be drawn out: what the pause at the end of a phase
    decides. */
module SchedulerLoss {
  import opened RoundScheduler
  import opened SchedulerMachine
  import opened SchedulerTrace
  import opened SchedulerTiming
  import opened SchedulerLimits
  import opened SchedulerLeftover
  import opened SchedulerAfterStop

  /** The round is lost, or Run has no choice but to lose it: the pause context that it waits on is done,
      its timer is not due and nothing is left to arm a new one with. */
  ghost predicate Doomed(m: Machine) {
    || Lost(m)
    || (m.go.pc.RoundSelect? && Held(m) && !Fired(m.go.timer, m.now)
        && !m.clock.inBreak && m.clock.remainingRound <= 0 && m.clock.roundStart <= m.now)
  }

  lemma DoomedStep(cfg: Config, m: Machine, a: Action)
    requires Doomed(m) && Prompt(m, a)
    ensures var m' := Next(cfg, m, a); m'.trace == m.trace && (Doomed(m') || m'.go.pc.Exited?)
  {
    if Lost(m) {
      LostStep(cfg, m, a);
    } else if !a.Run? {
      OthersKeepPlace(cfg, m, a);
    }
  }

  lemma {:induction false} DoomedForever(cfg: Config, m: Machine, acts: seq<Action>)
    requires (Doomed(m) || m.go.pc.Exited?) && PromptRun(cfg, m, acts)
    ensures Exec(cfg, m, acts).trace == m.trace
    decreases |acts|
  {
    hide Next, Doomed, Prompt;
    if acts != [] {
      if m.go.pc.Exited? { ExitedForGood(cfg, m, acts[0]); } else { DoomedStep(cfg, m, acts[0]); }
      DoomedForever(cfg, Next(cfg, m, acts[0]), acts[1..]);
    }
  }

  // ---------------------------------------------------------------- where the timer is set

  /** Where Run stands, where its timer is, and what is left of the round. */
  ghost predicate Clocked(m: Machine) {
    var c, g := m.clock, m.go;
    && (RoundPc(g.pc) ==> !c.inBreak && c.roundStart <= m.now)
    && c.roundStart <= m.now && c.breakStart <= m.now
    && ((g.pc.Boot? || g.pc.BootDuration? || g.pc.BootTimer? || g.pc.SetRemaining? || g.pc.ArmRound?
         || g.pc.StartRound?) ==> !c.inBreak)
    && (g.pc.BreakSelect? ==> g.timer.At?)
    && (g.pc.LoopTop? || g.pc.RoundSelect? ==> g.timer.At? || c.remainingRound <= 0)
    && (g.pc.RearmRound? ==> c.remainingRound > 0 ==> g.loaded > 0)
    && (g.pc.ReadRound? || g.pc.RearmRound? || AtSite(g.pc, MidRound, MidRound) ==> g.timer.Idle?)
  }

  lemma ClockedCall(cfg: Config, m: Machine, a: Action)
    requires Clocked(m) && !a.Run?
    ensures Clocked(Next(cfg, m, a))
  {
  }

  lemma ClockedWait(cfg: Config, m: Machine, choice: Choice, ok: bool)
    requires Clocked(m) && !IsShared(m.go.pc) && Waiting(m.go.pc)
    ensures Clocked(Next(cfg, m, Run(choice, ok)))
  {
  }

  lemma ClockedLocal(cfg: Config, m: Machine, choice: Choice, ok: bool)
    requires Clocked(m) && !IsShared(m.go.pc) && !Waiting(m.go.pc)
    ensures Clocked(Next(cfg, m, Run(choice, ok)))
  {
  }

  lemma ClockedShared(cfg: Config, m: Machine, choice: Choice, ok: bool)
    requires Clocked(m) && IsShared(m.go.pc)
    ensures Clocked(Next(cfg, m, Run(choice, ok)))
  {
  }

  lemma {:induction false} ClockedRun(cfg: Config, m: Machine, acts: seq<Action>)
    requires Clocked(m)
    ensures Clocked(Exec(cfg, m, acts))
    decreases |acts|
  {
    hide Next, Clocked;
    if acts != [] {
      match acts[0] {
        case Run(choice, ok) =>
          if IsShared(m.go.pc) { ClockedShared(cfg, m, choice, ok); }
          else if Waiting(m.go.pc) { ClockedWait(cfg, m, choice, ok); }
          else { ClockedLocal(cfg, m, choice, ok); }
        case _ => ClockedCall(cfg, m, acts[0]);
      }
      ClockedRun(cfg, Next(cfg, m, acts[0]), acts[1..]);
    }
  }

  // ---------------------------------------------------------------- no further callback

  /** An unpaused Run before any Stop calls back again by itself unless its round is doomed. */
  lemma SomethingFollows(cfg: Config, m: Machine)
    requires Unstopped(cfg, m) && Clocked(m) && !m.clock.paused && !m.go.pc.Exited? && !Doomed(m)
    ensures Left(cfg, m) != []
  {
    assert ModeOf(m) == Free;
    FreeFinishes(cfg, m.engine.currentRound);
    hide LeftAtEnd, LeftAtDecide, LeftInBreak, LeftAtStart, LeftInRound, ModeOf;
  }

  lemma ResumeKeepsFate(cfg: Config, m: Machine)
    requires Unstopped(cfg, m) && m.clock.paused && !m.go.pc.Exited?
    ensures var m1 := Next(cfg, m, Resume);
            !m1.clock.paused && m1.trace == m.trace && !m1.go.pc.Exited? && (Doomed(m1) ==> Doomed(m) || !Clocked(m))
  {
  }

  lemma CanCallAgain(cfg: Config, m: Machine) returns (acts: seq<Action>)
    requires Unstopped(cfg, m) && Clocked(m) && !m.go.pc.Exited? && !Doomed(m)
    ensures PromptRun(cfg, m, acts) && Exec(cfg, m, acts).trace != m.trace
  {
    hide Next, Doomed, Unstopped, Clocked, Left, Prompt;
    if m.clock.paused {
      var m1 := Next(cfg, m, Resume);
      ResumeKeepsFate(cfg, m);
      UnstoppedStep(cfg, m, Resume);
      ClockedCall(cfg, m, Resume);
      SomethingFollows(cfg, m1);
      SaneOf(cfg, m1);
      var rest := AllLeftCanHappen(cfg, m1);
      acts := [Resume] + rest;
      FirstCall(cfg, m, Resume, rest);
    } else {
      SomethingFollows(cfg, m);
      SaneOf(cfg, m);
      acts := AllLeftCanHappen(cfg, m);
    }
  }

  lemma SaneOf(cfg: Config, m: Machine)
    requires Unstopped(cfg, m)
    ensures Sane(cfg, m)
  {
  }

  lemma FirstCall(cfg: Config, m: Machine, a: Action, rest: seq<Action>)
    requires !a.Tick? && PromptRun(cfg, Next(cfg, m, a), rest)
    ensures PromptRun(cfg, m, [a] + rest) && Exec(cfg, m, [a] + rest) == Exec(cfg, Next(cfg, m, a), rest)
  {
    hide Next;
    assert ([a] + rest)[1..] == rest;
  }

  /** Up to a Stop, no continuation whatever, resumes included, brings another callback if and only if the round
      is doomed or Run has returned. */
  lemma NoMoreCallbacksIff(cfg: Config, now: nat, stored: nat, acts: seq<Action>)
    requires NoStop(acts)
    ensures var m := Exec(cfg, Init(now, stored), acts);
            (forall more :: PromptRun(cfg, m, more) ==> Exec(cfg, m, more).trace == m.trace)
            <==> Doomed(m) || m.go.pc.Exited?
  {
    var m := Exec(cfg, Init(now, stored), acts);
    InitUnstopped(cfg, now, stored);
    UnstoppedRun(cfg, Init(now, stored), acts);
    ClockedRun(cfg, Init(now, stored), acts);
    hide Exec, PromptRun, Doomed, Unstopped, Clocked;
    if Doomed(m) || m.go.pc.Exited? {
      forall more | PromptRun(cfg, m, more) ensures Exec(cfg, m, more).trace == m.trace {
        DoomedForever(cfg, m, more);
      }
    } else {
      var more := CanCallAgain(cfg, m);
    }
  }

  // ---------------------------------------------------------------- the pause that loses a round

  /** Run waits for its timer, in a phase that was never paused with nothing left, and nothing is paused. */
  ghost predicate Awaiting(cfg: Config, m: Machine) {
    && Timed(cfg, m) && Selecting(m.go.pc) && m.engine.running && !m.clock.paused
    && !m.watch.stopped && !m.watch.spent
  }

  function Paused(cfg: Config, m: Machine): Machine {
    Next(cfg, m, Pause)
  }

  /** A pause that Run notices in its select loses the round if and only if the round has run its whole length. */
  lemma NoticedPauseLosesIff(cfg: Config, m: Machine, ok: bool)
    requires Awaiting(cfg, m) && m.go.pc.RoundSelect?
    ensures Lost(Next(cfg, Paused(cfg, m), Run(OnPause, ok))) <==> m.watch.active >= Length(cfg, m)
  {
  }

  ghost predicate NoPause(acts: seq<Action>) {
    forall i :: 0 <= i < |acts| ==> !acts[i].Pause?
  }

  /** Run is in its round, where it stands in every run, never paused with nothing left and not paused now. */
  ghost predicate Playing(cfg: Config, m: Machine) {
    && Timed(cfg, m) && Clocked(m) && RoundPc(m.go.pc) && m.engine.running && !m.clock.paused
    && !m.watch.stopped && !m.watch.spent
  }

  /** Run has seen the round's timer go off. */
  predicate PastTimer(pc: Pc) {
    AtSite(pc, RoundOver, RoundOver)
  }

  /** As long as nobody pauses, the next round will find time left. */
  predicate Spared(m: Machine) {
    || m.clock.remainingRound > 0
    || PastTimer(m.go.pc) || BreakPc(m.go.pc) || m.go.pc.Exited?
    || m.go.pc.EndRound? || m.go.pc.Decide? || m.go.pc.FinishGame? || m.go.pc.EnterBreak?
    || m.go.pc.StartMark? || m.go.pc.StartRound? || m.go.pc.SetRemaining?
  }

  lemma SparedStep(cfg: Config, m: Machine, a: Action)
    requires cfg.roundDuration > 0 && Spared(m) && !a.Pause?
    ensures Spared(Next(cfg, m, a))
  {
  }

  lemma {:induction false} SparedWithoutPause(cfg: Config, m: Machine, acts: seq<Action>)
    requires cfg.roundDuration > 0 && Spared(m) && NoPause(acts)
    ensures !Doomed(Exec(cfg, m, acts))
    decreases |acts|
  {
    if acts != [] {
      SparedStep(cfg, m, acts[0]);
      SparedWithoutPause(cfg, Next(cfg, m, acts[0]), acts[1..]);
    }
    hide Next;
  }

  lemma PauseSpares(cfg: Config, m: Machine)
    requires Playing(cfg, m) && (m.watch.active < Length(cfg, m) || PastTimer(m.go.pc))
    ensures Spared(Paused(cfg, m))
    ensures m.watch.active < Length(cfg, m) ==> cfg.roundDuration > 0
  {
  }

  /** Paused with nothing left, and on the way to a select in which the pause shows. */
  ghost predicate Sinking(m: Machine) {
    && !m.clock.inBreak && m.clock.remainingRound <= 0 && m.clock.roundStart <= m.now
    && Done(m.contexts, m.clock.pauseCtx)
    && (m.go.pc.RearmRound? || m.go.pc.LoopTop? || (m.go.pc.RoundSelect? && Held(m)))
  }

  lemma SinkStep(cfg: Config, m: Machine)
    requires Sinking(m)
    ensures m.go.pc.RearmRound? ==> Sinking(Next(cfg, m, GO)) && Next(cfg, m, GO).go.pc.LoopTop?
    ensures m.go.pc.LoopTop? ==> Sinking(Next(cfg, m, GO)) && Next(cfg, m, GO).go.pc.RoundSelect?
    ensures m.go.pc.RoundSelect? ==> Lost(Next(cfg, m, Run(OnPause, true)))
  {
  }

  lemma SinksToLoss(cfg: Config, m: Machine) returns (acts: seq<Action>)
    requires Sinking(m)
    ensures NoPause(acts) && PromptRun(cfg, m, acts) && Lost(Exec(cfg, m, acts))
    decreases if m.go.pc.RearmRound? then 2 else if m.go.pc.LoopTop? then 1 else 0
  {
    SinkStep(cfg, m);
    hide Next, Sinking, Lost;
    if m.go.pc.RearmRound? || m.go.pc.LoopTop? {
      var rest := SinksToLoss(cfg, Next(cfg, m, GO));
      FirstCall(cfg, m, GO, rest);
      acts := [GO] + rest;
    } else {
      ExecOne(cfg, m, Run(OnPause, true));
      acts := [Run(OnPause, true)];
    }
  }

  lemma PauseSinks(cfg: Config, m: Machine)
    requires Playing(cfg, m) && m.watch.active >= Length(cfg, m) && !PastTimer(m.go.pc)
    ensures Sinking(Paused(cfg, m)) || Lost(Paused(cfg, m))
  {
  }

  /** So a pause can cost the game its round, now or later without any further pause, if and only if it comes when
      the round has run its whole length and Run has not yet seen its timer go off. */
  lemma PauseCanLoseIff(cfg: Config, m: Machine)
    requires Playing(cfg, m) && (PastTimer(m.go.pc) ==> cfg.roundDuration > 0)
    ensures (exists more :: NoPause(more) && PromptRun(cfg, Paused(cfg, m), more)
                            && Doomed(Exec(cfg, Paused(cfg, m), more)))
            <==> m.watch.active >= Length(cfg, m) && !PastTimer(m.go.pc)
  {
    var p := Paused(cfg, m);
    hide Paused, Playing, Sinking, Next;
    if m.watch.active >= Length(cfg, m) && !PastTimer(m.go.pc) {
      PauseSinks(cfg, m);
      if Lost(p) {
        assert NoPause([]) && PromptRun(cfg, p, []) && Doomed(Exec(cfg, p, []));
      } else {
        var acts := SinksToLoss(cfg, p);
        assert Doomed(Exec(cfg, p, acts));
      }
    } else {
      PauseSpares(cfg, m);
      forall more | NoPause(more) && PromptRun(cfg, p, more)
        ensures !Doomed(Exec(cfg, p, more))
      {
        SparedWithoutPause(cfg, p, more);
      }
    }
  }

  /** Every lost round was paused, at some moment, with its whole length already run. */
  lemma DoomedWasSpent(cfg: Config, m: Machine)
    requires Timed(cfg, m) && Doomed(m) && !m.go.pc.Exited?
    ensures m.watch.spent || m.watch.stopped
  {
  }

  // ---------------------------------------------------------------- the pause that stalls a break

  /** Run has noticed the pause. */
  function Noticed(cfg: Config, m: Machine): Machine {
    Next(cfg, Paused(cfg, m), Run(OnPause, true))
  }

  lemma NoticedPauseStallsIff(cfg: Config, m: Machine)
    requires Awaiting(cfg, m) && m.go.pc.BreakSelect?
    ensures var p := Noticed(cfg, m);
            Stalled(p) && p.go.pc == WaitCheck(MidBreak) && Done(p.contexts, p.clock.pauseCtx)
            <==> m.watch.active >= Length(cfg, m)
    ensures m.watch.active >= Length(cfg, m) ==> Noticed(cfg, m).watch.spent
    ensures m.watch.active < Length(cfg, m) ==> !Noticed(cfg, m).watch.spent
    ensures Noticed(cfg, m).watch.active == m.watch.active && !Noticed(cfg, m).watch.stopped
    ensures Timed(cfg, Noticed(cfg, m)) && !Noticed(cfg, m).go.pc.Boot?
  {
    StepSound(cfg, m, Pause);
    StepOnTime(cfg, m, Pause);
    StepSound(cfg, Paused(cfg, m), Run(OnPause, true));
    StepOnTime(cfg, Paused(cfg, m), Run(OnPause, true));
  }

  /** Some continuation that does not change whether the break was ever paused with nothing left runs it so
      much longer than its length. */
  ghost predicate CanOverrun(cfg: Config, p: Machine, k: nat) {
    exists acts :: PromptRun(cfg, p, acts)
                   && var m := Exec(cfg, p, acts);
                      && InBreakPc(m.go.pc) && !m.watch.stopped && m.watch.spent == p.watch.spent
                      && m.watch.active > Full(cfg.breakDuration) + k
  }

  /** The observer has looked at the machine. */
  predicate Observed(cfg: Config, m: Machine) {
    m.clock.paused && m.watch.active >= Duration(cfg, m.clock.inBreak) ==> m.watch.spent
  }

  lemma NextObserved(cfg: Config, m: Machine, a: Action)
    ensures Observed(cfg, Next(cfg, m, a))
  {
    hide Act;
  }

  lemma {:induction false} ExecObserved(cfg: Config, m: Machine, acts: seq<Action>)
    requires Observed(cfg, m)
    ensures Observed(cfg, Exec(cfg, m, acts))
    decreases |acts|
  {
    hide Next, Observed;
    if acts != [] {
      NextObserved(cfg, m, acts[0]);
      ExecObserved(cfg, Next(cfg, m, acts[0]), acts[1..]);
    }
  }

  lemma StalledOverruns(cfg: Config, p: Machine, k: nat)
    requires Stalled(p) && p.go.pc == WaitCheck(MidBreak) && Done(p.contexts, p.clock.pauseCtx)
    requires Observed(cfg, p) && p.watch.active >= Full(cfg.breakDuration)
    ensures CanOverrun(cfg, p, k)
  {
    var xs, d := GoBackToSleep(cfg, p);
    var ys, m := DozeOn(cfg, d, k + 1);
    Join(cfg, p, xs, d, ys, m);
    hide Next, Exec, PromptRun;
    ExecObserved(cfg, p, xs + ys);
  }

  lemma UnspentInTime(cfg: Config, p: Machine, acts: seq<Action>)
    requires Timed(cfg, p) && !p.go.pc.Boot? && PromptRun(cfg, p, acts)
    ensures var m := Exec(cfg, p, acts);
            InBreakPc(m.go.pc) && !m.watch.stopped && !m.watch.spent ==>
              m.watch.active <= Full(cfg.breakDuration) + POLL
  {
    TimedRun(cfg, p, acts);
    hide Exec, PromptRun;
  }

  /** A pause in a break opens the way to overruns of any length if and only if the break has run its whole
      length; otherwise no continuation that keeps such pauses away makes it more than one poll late. */
  lemma OverrunsUnboundedIff(cfg: Config, m: Machine)
    requires Awaiting(cfg, m) && m.go.pc.BreakSelect?
    ensures (forall k: nat :: CanOverrun(cfg, Noticed(cfg, m), k)) <==> m.watch.active >= Length(cfg, m)
  {
    var p := Noticed(cfg, m);
    NoticedPauseStallsIff(cfg, m);
    NextObserved(cfg, Paused(cfg, m), Run(OnPause, true));
    AwaitingBreak(cfg, m);
    hide Noticed, Awaiting, Exec, PromptRun, Timed, Stalled, Observed, CanOverrun;
    if m.watch.active >= Length(cfg, m) {
      forall k: nat ensures CanOverrun(cfg, p, k) {
        StalledOverruns(cfg, p, k);
      }
    } else {
      UnspentNoOverrun(cfg, p);
      assert !CanOverrun(cfg, p, POLL);
    }
  }

  lemma AwaitingBreak(cfg: Config, m: Machine)
    requires Awaiting(cfg, m) && m.go.pc.BreakSelect?
    ensures Length(cfg, m) == cfg.breakDuration && m.watch.active >= 0
  {
  }

  lemma UnspentNoOverrun(cfg: Config, p: Machine)
    requires Timed(cfg, p) && !p.go.pc.Boot? && !p.watch.spent
    ensures !CanOverrun(cfg, p, POLL)
  {
    hide Exec, PromptRun, Timed;
    forall acts | PromptRun(cfg, p, acts)
      ensures var m := Exec(cfg, p, acts);
              InBreakPc(m.go.pc) && !m.watch.stopped && !m.watch.spent ==>
              m.watch.active <= Full(cfg.breakDuration) + POLL
    {
      UnspentInTime(cfg, p, acts);
    }
  }
}
