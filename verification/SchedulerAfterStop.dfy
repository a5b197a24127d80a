/** What a Stop leaves of the goroutine Run, once the engine is not called any more: nothing, the callbacks
    under way, a loop that never lets go, or the rest of the game. */
module SchedulerAfterStop {
  import opened RoundScheduler
  import opened SchedulerMachine
  import opened SchedulerTrace
  import opened SchedulerTiming
  import opened SchedulerLimits
  import opened SchedulerLeftover

  // ---------------------------------------------------------------- before the Stop

  /** What holds in every run up to a Stop. */
  ghost predicate Unstopped(cfg: Config, m: Machine) {
    var c, k, pc := m.clock, m.contexts, m.go.pc;
    && Sane(cfg, m) && !m.watch.stopped && !k.runDone
    && (c.pauseCtx.NoCtx? || Issued(c.pauseCtx, k.nextId)) && (!pc.Boot? ==> !c.pauseCtx.NoCtx?)
    && (m.engine.target.ResumeContext? ==> Issued(m.engine.target.ctx, k.nextId))
    && (m.engine.target.ResumeContext? ==> m.engine.target.ctx.OfResume?)
    && (!pc.Exited? ==> (m.engine.running <==> !c.paused))
    && (!pc.Exited? && !pc.Boot? && !c.paused ==>
          && c.pauseCtx !in k.cancelled
          && (c.pauseCtx.OfResume? ==> m.engine.target == ResumeContext(c.pauseCtx)))
  }

  lemma UnstoppedPause(cfg: Config, m: Machine)
    requires Unstopped(cfg, m)
    ensures Unstopped(cfg, Next(cfg, m, Pause))
  {
  }

  lemma UnstoppedResume(cfg: Config, m: Machine)
    requires Unstopped(cfg, m)
    ensures Unstopped(cfg, Next(cfg, m, Resume))
  {
  }

  lemma UnstoppedLocal(cfg: Config, m: Machine, choice: Choice, ok: bool)
    requires Unstopped(cfg, m) && !IsShared(m.go.pc)
    ensures Unstopped(cfg, Next(cfg, m, Run(choice, ok)))
  {
  }

  lemma UnstoppedShared(cfg: Config, m: Machine, choice: Choice, ok: bool)
    requires Unstopped(cfg, m) && IsShared(m.go.pc)
    ensures Unstopped(cfg, Next(cfg, m, Run(choice, ok)))
  {
  }

  lemma UnstoppedTick(cfg: Config, m: Machine, d: nat)
    requires Unstopped(cfg, m)
    ensures Unstopped(cfg, Next(cfg, m, Tick(d)))
  {
  }

  lemma UnstoppedStep(cfg: Config, m: Machine, a: Action)
    requires Unstopped(cfg, m) && !a.Stop?
    ensures Unstopped(cfg, Next(cfg, m, a))
  {
    hide Unstopped, Next;
    match a
    case Pause => UnstoppedPause(cfg, m);
    case Resume => UnstoppedResume(cfg, m);
    case Tick(d) => UnstoppedTick(cfg, m, d);
    case Run(choice, ok) =>
      if IsShared(m.go.pc) { UnstoppedShared(cfg, m, choice, ok); } else { UnstoppedLocal(cfg, m, choice, ok); }
    case Stop =>
  }

  ghost predicate NoStop(acts: seq<Action>) {
    forall i :: 0 <= i < |acts| ==> !acts[i].Stop?
  }

  lemma {:induction false} UnstoppedRun(cfg: Config, m: Machine, acts: seq<Action>)
    requires Unstopped(cfg, m) && NoStop(acts)
    ensures Unstopped(cfg, Exec(cfg, m, acts))
    decreases |acts|
  {
    hide Unstopped, Next;
    if acts != [] {
      UnstoppedStep(cfg, m, acts[0]);
      UnstoppedRun(cfg, Next(cfg, m, acts[0]), acts[1..]);
    }
  }

  lemma InitUnstopped(cfg: Config, now: nat, stored: nat)
    ensures Unstopped(cfg, Init(now, stored))
  {
  }

  // ---------------------------------------------------------------- the Stop

  /** Run's first section comes, or came, after the last Resume: its pause context is not that Resume's. */
  predicate BootedLate(m: Machine) {
    m.engine.target.ResumeContext? && (m.go.pc.Boot? || m.clock.pauseCtx.OfRun?)
  }

  /** A paused Run polls on.  An unpaused one goes on undisturbed only if it booted late; otherwise the Stop
      has cancelled the pause context that it looks at. */
  lemma ModeAfterStop(cfg: Config, m: Machine)
    requires Unstopped(cfg, m) && !m.go.pc.Exited?
    ensures Sane(cfg, Next(cfg, m, Stop))
    ensures ModeOf(Next(cfg, m, Stop))
            == if m.clock.paused then Polling else if BootedLate(m) then Free else Spinning
    ensures Next(cfg, m, Stop).contexts.runDone <==> m.engine.target.RunContext?
    ensures Next(cfg, m, Stop).trace == m.trace
  {
  }

  /** After any run and a Stop, the callbacks that can still come are the prefixes of Left, no others. */
  lemma StopLeavesExactly(cfg: Config, now: nat, stored: nat, acts: seq<Action>)
    requires NoStop(acts) && !Exec(cfg, Init(now, stored), acts).go.pc.Exited?
    ensures var s := Next(cfg, Exec(cfg, Init(now, stored), acts), Stop);
            && (forall more :: Unattended(more) && PromptRun(cfg, s, more) ==>
                  s.trace <= Exec(cfg, s, more).trace <= s.trace + Left(cfg, s))
            && (exists more :: Unattended(more) && PromptRun(cfg, s, more)
                               && Exec(cfg, s, more).trace == s.trace + Left(cfg, s))
  {
    var m := Exec(cfg, Init(now, stored), acts);
    InitUnstopped(cfg, now, stored);
    UnstoppedRun(cfg, Init(now, stored), acts);
    ModeAfterStop(cfg, m);
    var s := Next(cfg, m, Stop);
    hide Next, Exec, PromptRun, Sane, Left, Unstopped;
    forall more | Unattended(more) && PromptRun(cfg, s, more)
      ensures s.trace <= Exec(cfg, s, more).trace <= s.trace + Left(cfg, s)
    {
      NoMoreThanLeft(cfg, s, more);
    }
    var more := AllLeftCanHappen(cfg, s);
  }

  // ---------------------------------------------------------------- what is left, for real durations

  /** One turn of a game that goes on freely. */
  lemma FreeTurn(cfg: Config, r: int)
    requires r < cfg.totalRounds
    ensures LeftInRound(cfg, Free, r) == LeftAtEnd(cfg, Free, r)
    ensures LeftAtEnd(cfg, Free, r) == [Ended(r)] + LeftAtDecide(cfg, Free, r)
    ensures LeftAtDecide(cfg, Free, r) == LeftInBreak(cfg, Free, r) == LeftAtStart(cfg, Free, r)
    ensures LeftAtStart(cfg, Free, r) == [Started(r + 1)] + LeftAtEnd(cfg, Free, r + 1)
  {
    assert LeftInRound(cfg, Free, r + 1) == LeftAtEnd(cfg, Free, r + 1);
  }

  lemma {:induction false} FreeFinishes(cfg: Config, r: int)
    ensures Finished in LeftAtEnd(cfg, Free, r) && Finished in LeftAtDecide(cfg, Free, r)
    ensures Finished in LeftInRound(cfg, Free, r)
    ensures r < cfg.totalRounds ==> Finished in LeftInBreak(cfg, Free, r) && Finished in LeftAtStart(cfg, Free, r)
    decreases if r < cfg.totalRounds then cfg.totalRounds - r else 0
  {
    if r < cfg.totalRounds {
      FreeFinishes(cfg, r + 1);
      FreeTurn(cfg, r);
      hide LeftAtEnd, LeftAtDecide, LeftInBreak, LeftAtStart, LeftInRound;
    }
  }

  lemma StuckAtEnd(cfg: Config, mode: Mode, r: int)
    requires mode != Free && cfg.roundDuration > 0 && cfg.breakDuration > 0
    ensures LeftAtEnd(cfg, mode, r) == [Ended(r)] + if r >= cfg.totalRounds then [Finished] else []
    ensures LeftAtDecide(cfg, mode, r) == if r >= cfg.totalRounds then [Finished] else []
    ensures r < cfg.totalRounds ==> LeftInBreak(cfg, mode, r) == [] && LeftAtStart(cfg, mode, r) == [Started(r + 1)]
    ensures LeftInRound(cfg, mode, r) == []
  {
    if r < cfg.totalRounds {
      assert LeftInRound(cfg, mode, r + 1) == [] && LeftInBreak(cfg, mode, r) == [];
      assert LeftAtDecide(cfg, mode, r) == [];
    }
  }

  /** A Run that does not go on freely calls back at most twice more, and finishes the game only if it
      stands past the last round's timer. */
  lemma UnderWay(cfg: Config, m: Machine)
    requires ModeOf(m) != Free && cfg.roundDuration > 0 && cfg.breakDuration > 0
    ensures |Left(cfg, m)| <= 2
    ensures Finished in Left(cfg, m) <==>
              || m.go.pc.FinishGame?
              || (m.engine.currentRound >= cfg.totalRounds
                  && (m.go.pc.Decide? || m.go.pc.EndRound?
                      || (RoundPc(m.go.pc) && ModeOf(m) != Polling && RoundEnds(m))))
  {
    StuckAtEnd(cfg, ModeOf(m), m.engine.currentRound);
    hide LeftAtEnd, LeftAtDecide, LeftInBreak, LeftAtStart, LeftInRound, RoundEnds, BreakEnds;
  }

  /** A Run that goes on freely finishes the game if it calls back at all. */
  lemma FreeFinishesIff(cfg: Config, m: Machine)
    requires ModeOf(m) == Free
    ensures Finished in Left(cfg, m) <==> Left(cfg, m) != []
  {
    FreeFinishes(cfg, m.engine.currentRound);
    hide LeftAtEnd, LeftAtDecide, LeftInBreak, LeftAtStart, LeftInRound, RoundEnds, BreakEnds;
  }

  // ---------------------------------------------------------------- returning

  /** The callbacks since `from`. */
  function Since(trace: seq<Callback>, from: nat): seq<Callback>
    requires from <= |trace|
  {
    trace[from..]
  }

  lemma ExitStep(cfg: Config, m: Machine, a: Action)
    requires !m.go.pc.Exited? && !m.contexts.runDone && ByItself(a)
    ensures var m' := Next(cfg, m, a);
            && !m'.contexts.runDone
            && (m'.go.pc.Exited? <==> m'.trace == m.trace + [Finished])
            && (m'.trace == m.trace || exists c :: m'.trace == m.trace + [c])
  {
    var t := Next(cfg, m, a).trace;
    if a.Run? {
      assert m.go.pc.EndRound? ==> t[|m.trace|] != Finished;
      assert m.go.pc.StartRound? ==> t[|m.trace|] != Finished;
    }
  }

  lemma ExitedStaysQuiet(cfg: Config, m: Machine, acts: seq<Action>)
    requires m.go.pc.Exited?
    ensures Exec(cfg, m, acts).go.pc.Exited? && Exec(cfg, m, acts).trace == m.trace
    decreases |acts|
  {
    hide Next;
    if acts != [] {
      ExitedForGood(cfg, m, acts[0]);
      ExitedStaysQuiet(cfg, Next(cfg, m, acts[0]), acts[1..]);
    }
  }

  /** Left alone, a Run whose context is not done returns exactly when it finishes the game. */
  lemma {:induction false} ReturnsByFinishing(cfg: Config, m: Machine, acts: seq<Action>)
    requires !m.go.pc.Exited? && !m.contexts.runDone && Unattended(acts)
    ensures var m' := Exec(cfg, m, acts);
            m.trace <= m'.trace && (m'.go.pc.Exited? <==> Finished in Since(m'.trace, |m.trace|))
    decreases |acts|
  {
    hide Next, ByItself;
    if acts != [] {
      var m1 := Next(cfg, m, acts[0]);
      ExitStep(cfg, m, acts[0]);
      if m1.go.pc.Exited? {
        ExitedStaysQuiet(cfg, m1, acts[1..]);
        assert Since(m1.trace, |m.trace|) == [Finished];
      } else {
        ReturnsByFinishing(cfg, m1, acts[1..]);
        var t := Exec(cfg, m1, acts[1..]).trace;
        assert Since(t, |m.trace|) == Since(m1.trace, |m.trace|) + Since(t, |m1.trace|);
      }
    }
  }

  /** Steps to the next select with the context's case ready. */
  function ToExit(pc: Pc): nat {
    match pc
    case Exited => 0
    case RoundSelect | BreakSelect | WaitPoll(_) | FinishGame => 1
    case LoopTop | ArmBreak => 2
    case RearmRound | ArmRound | BootTimer | EnterBreak => 3
    case ReadRound | SetRemaining | BootDuration | Decide => 4
    case StartRound | Boot | EndRound => 5
    case StartMark => 6
    case RearmBreak => 8
    case ReadBreak => 9
    case WaitCheck(site) => if site.BreakOver? then 7 else 10
    case WaitRenew(_) => 11
  }

  lemma ExitNearer(cfg: Config, m: Machine)
    requires m.contexts.runDone && !m.go.pc.Exited?
    ensures var m' := Next(cfg, m, Run(OnContext, true)); m'.contexts.runDone && ToExit(m'.go.pc) < ToExit(m.go.pc)
  {
  }

  /** A Run whose context is done can return. */
  lemma {:induction false} CanReturn(cfg: Config, m: Machine) returns (acts: seq<Action>)
    requires m.contexts.runDone
    ensures Unattended(acts) && PromptRun(cfg, m, acts) && Exec(cfg, m, acts).go.pc.Exited?
    decreases ToExit(m.go.pc)
  {
    hide Next;
    if m.go.pc.Exited? {
      acts := [];
    } else {
      ExitNearer(cfg, m);
      var rest := CanReturn(cfg, Next(cfg, m, Run(OnContext, true)));
      acts := [Run(OnContext, true)] + rest;
      FirstOf(cfg, m, Run(OnContext, true), rest);
    }
  }

  /** Left alone, Run can return if and only if its context is done or the finish of the game is still to come. */
  lemma ReturnsIff(cfg: Config, m: Machine)
    requires Sane(cfg, m) && !m.go.pc.Exited?
    ensures (exists acts :: Unattended(acts) && PromptRun(cfg, m, acts) && Exec(cfg, m, acts).go.pc.Exited?)
            <==> m.contexts.runDone || Finished in Left(cfg, m)
  {
    if m.contexts.runDone {
      var acts := CanReturn(cfg, m);
    } else {
      hide Exec, PromptRun, Sane, Left;
      if Finished in Left(cfg, m) {
        var acts := AllLeftCanHappen(cfg, m);
        ReturnsByFinishing(cfg, m, acts);
        assert Since(m.trace + Left(cfg, m), |m.trace|) == Left(cfg, m);
      }
      forall acts | Unattended(acts) && PromptRun(cfg, m, acts) && Exec(cfg, m, acts).go.pc.Exited?
        ensures Finished in Left(cfg, m)
      {
        NoMoreThanLeft(cfg, m, acts);
        ReturnsByFinishing(cfg, m, acts);
        PrefixSince(m.trace, Left(cfg, m), Exec(cfg, m, acts).trace);
      }
    }
  }

  lemma PrefixSince(trace: seq<Callback>, more: seq<Callback>, t: seq<Callback>)
    requires trace <= t <= trace + more && Finished in Since(t, |trace|)
    ensures Finished in more
  {
    var i :| 0 <= i < |t| - |trace| && Since(t, |trace|)[i] == Finished;
    assert more[i] == t[|trace| + i];
  }

  // ---------------------------------------------------------------- the loop that never lets go

  /** Run turns between its select and waitForResume on a pause context that is done although nothing is
      paused: no step of it takes time, and none leads out. */
  predicate Spins(m: Machine) {
    var c, g := m.clock, m.go;
    && !c.paused && !m.contexts.runDone && Done(m.contexts, c.pauseCtx) && m.engine.target.ResumeContext?
    && match g.pc
       case LoopTop => !Fired(g.timer, m.now)
       case RoundSelect => !Fired(g.timer, m.now) && Held(m)
       case ReadRound | RearmRound => true
       case BreakSelect => !Fired(g.timer, m.now) && Held(m) && c.remainingBreak > 0
       case ReadBreak => c.remainingBreak > 0
       case RearmBreak => c.remainingBreak > 0 && g.loaded > 0 && Held(m)
       case WaitCheck(site) => site.MidRound? || (site.MidBreak? && c.remainingBreak > 0)
       case _ => false
  }

  lemma SpinStep(cfg: Config, m: Machine, a: Action)
    requires Spins(m) && Prompt(m, a) && (ByItself(a) || a.Stop?)
    ensures var m' := Next(cfg, m, a); Spins(m') && m'.trace == m.trace && m'.now == m.now
  {
  }

  /** Time stands still, nothing is called and Run does not return, however often Stop is called. */
  lemma {:induction false} SpinsForever(cfg: Config, m: Machine, acts: seq<Action>)
    requires Spins(m) && PromptRun(cfg, m, acts)
    requires forall i :: 0 <= i < |acts| ==> ByItself(acts[i]) || acts[i].Stop?
    ensures var m' := Exec(cfg, m, acts); Spins(m') && m'.trace == m.trace && m'.now == m.now
    decreases |acts|
  {
    hide Next, Spins, Prompt, ByItself;
    if acts != [] {
      SpinStep(cfg, m, acts[0]);
      SpinsForever(cfg, Next(cfg, m, acts[0]), acts[1..]);
    }
  }

  /** A select with no timer and no context that is done. */
  predicate Asleep(m: Machine) {
    Selecting(m.go.pc) && m.go.timer.Idle? && Waits(m)
  }

  function ToSpin(m: Machine): nat {
    match m.go.pc
    case Decide => 7
    case EnterBreak => 6
    case ArmBreak => 5
    case SetRemaining | BootDuration => 5
    case ArmRound | BootTimer => 4
    case WaitPoll(_) => if Done(m.contexts, m.go.waitCtx) || m.go.pollAt <= m.now then 2 else 3
    case WaitRenew(_) => 1
    case _ => 0
  }

  ghost predicate Idles(cfg: Config, m: Machine) {
    Sane(cfg, m) && ModeOf(m) == Spinning && !m.contexts.runDone && m.engine.target.ResumeContext?
    && Left(cfg, m) == [] && !m.go.pc.Exited?
  }

  lemma TargetStays(cfg: Config, m: Machine, a: Action)
    requires ByItself(a)
    ensures Next(cfg, m, a).engine.target == m.engine.target
  {
  }

  lemma IdleStays(cfg: Config, m: Machine, a: Action)
    requires Idles(cfg, m) && ByItself(a) && Prompt(m, a)
    ensures Idles(cfg, Next(cfg, m, a))
  {
    hide Next, Sane, Left, ModeOf, ByItself, Prompt;
    SaneStep(cfg, m, a);
    StepUses(cfg, m, a);
    ModeStays(cfg, m, a);
    ExitStep(cfg, m, a);
    TargetStays(cfg, m, a);
  }

  /** A step nearer to the loop. */
  ghost predicate Sinks(cfg: Config, m: Machine) {
    var a := Toward(m);
    ByItself(a) && Prompt(m, a) && ToSpin(Next(cfg, m, a)) < ToSpin(m)
  }

  lemma PollSinks(cfg: Config, m: Machine)
    requires Idles(cfg, m) && m.go.pc.WaitPoll?
    ensures Sinks(cfg, m)
  {
    SomethingLeft(cfg, ModeOf(m), m.engine.currentRound);
    hide LeftAtEnd, LeftAtStart, LeftInRound, LeftInBreak, LeftAtDecide;
  }

  lemma OpeningSinks(cfg: Config, m: Machine)
    requires m.go.pc.SetRemaining? || m.go.pc.BootDuration? || m.go.pc.ArmRound? || m.go.pc.BootTimer?
             || m.go.pc.WaitRenew?
    ensures Sinks(cfg, m)
  {
  }

  lemma TurnSinks(cfg: Config, m: Machine)
    requires Idles(cfg, m) && (m.go.pc.Decide? || m.go.pc.EnterBreak? || m.go.pc.ArmBreak?)
    ensures Sinks(cfg, m)
  {
  }

  lemma OtherSpins(cfg: Config, m: Machine)
    requires Idles(cfg, m) && ToSpin(m) == 0
    ensures Spins(m) || Asleep(m)
  {
    SomethingLeft(cfg, ModeOf(m), m.engine.currentRound);
    hide LeftAtEnd, LeftAtStart, LeftInRound, LeftInBreak, LeftAtDecide;
  }

  lemma SpinNearer(cfg: Config, m: Machine)
    requires Idles(cfg, m)
    ensures Spins(m) || Asleep(m) || Sinks(cfg, m)
  {
    hide Idles, Spins, Asleep, Sinks;
    var pc := m.go.pc;
    if pc.Decide? || pc.EnterBreak? || pc.ArmBreak? { TurnSinks(cfg, m); }
    else if pc.WaitPoll? { PollSinks(cfg, m); }
    else if pc.SetRemaining? || pc.BootDuration? || pc.ArmRound? || pc.BootTimer? || pc.WaitRenew? {
      OpeningSinks(cfg, m);
    }
    else { OtherSpins(cfg, m); }
  }

  lemma SomethingLeft(cfg: Config, mode: Mode, r: int)
    ensures LeftAtEnd(cfg, mode, r) != []
    ensures r < cfg.totalRounds ==> LeftAtStart(cfg, mode, r) != []
  {
  }

  /** That is where a Stop out of reach leads, once nothing is left to call. */
  lemma {:induction false} ComesToSpin(cfg: Config, m: Machine) returns (acts: seq<Action>)
    requires Idles(cfg, m)
    ensures Unattended(acts) && PromptRun(cfg, m, acts)
    ensures Spins(Exec(cfg, m, acts)) || Asleep(Exec(cfg, m, acts))
    decreases ToSpin(m)
  {
    hide Next, Prompt, Idles, Spins, Asleep, ToSpin, Toward, ByItself;
    if Spins(m) || Asleep(m) {
      acts := [];
    } else {
      SpinNearer(cfg, m);
      IdleStays(cfg, m, Toward(m));
      var rest := ComesToSpin(cfg, Next(cfg, m, Toward(m)));
      acts := [Toward(m)] + rest;
      FirstOf(cfg, m, Toward(m), rest);
    }
  }

  // ---------------------------------------------------------------- both happen

  /** In every game a Stop after a Resume may leave nothing but the loop. */
  lemma StopMayLeaveLoop(cfg: Config, now: nat, stored: nat) returns (acts: seq<Action>, m: Machine)
    requires cfg.roundDuration > 0
    ensures NoStop(acts) && Leads(cfg, Init(now, stored), acts, m) && m.engine.target.ResumeContext?
    ensures Left(cfg, Next(cfg, m, Stop)) == [] && Spins(Next(cfg, m, Stop))
  {
    hide Leads;
    var s := Init(now, stored);
    Stay(cfg, s);
    acts, m := Grow(cfg, s, [], s, GO);
    acts, m := Grow(cfg, s, acts, m, GO);
    acts, m := Grow(cfg, s, acts, m, GO);
    acts, m := Grow(cfg, s, acts, m, GO);
    acts, m := Grow(cfg, s, acts, m, Pause);
    acts, m := Grow(cfg, s, acts, m, Resume);
    hide LeftAtEnd;
  }

  /** And it may leave the whole rest of the game, if pause and resume came before Run's first section. */
  lemma StopMayLeaveGame(cfg: Config, now: nat, stored: nat) returns (acts: seq<Action>, m: Machine)
    ensures NoStop(acts) && Leads(cfg, Init(now, stored), acts, m) && m.engine.target.ResumeContext?
    ensures Finished in Left(cfg, Next(cfg, m, Stop))
  {
    hide Leads;
    var s := Init(now, stored);
    Stay(cfg, s);
    acts, m := Grow(cfg, s, [], s, Pause);
    acts, m := Grow(cfg, s, acts, m, Resume);
    FreeFinishes(cfg, s.engine.currentRound);
    hide LeftInRound;
  }

  lemma Grow(cfg: Config, m: Machine, acts: seq<Action>, m1: Machine, a: Action)
    returns (acts': seq<Action>, m2: Machine)
    requires Leads(cfg, m, acts, m1) && Prompt(m1, a) && NoStop(acts) && !a.Stop?
    ensures Leads(cfg, m, acts', m2) && m2 == Next(cfg, m1, a) && NoStop(acts')
  {
    hide Next, Prompt;
    ExecAppend(cfg, m, acts, [a]);
    ExecOne(cfg, m1, a);
    acts', m2 := acts + [a], Next(cfg, m1, a);
  }
}
