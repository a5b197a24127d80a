/** The callbacks of a started engine, over every interleaving, every clock and every callback
    outcome: they follow one script, they run out, and what Stop can and cannot end. */
module SchedulerTrace {
  import opened SchedulerMachine

  function LastRound(cfg: Config, stored: nat): (n: nat)
    ensures n >= 1
  {
    if cfg.totalRounds > stored && cfg.totalRounds > 1 then cfg.totalRounds
    else if stored > 1 then stored
    else 1
  }

  function Rounds(k: nat): seq<Callback> {
    if k == 0 then [] else Rounds(k - 1) + [Started(k), Ended(k)]
  }

  /** start(1) end(1) ... start(n) end(n) finish */
  function Script(n: nat): seq<Callback> {
    Rounds(n) + [Finished]
  }

  /** What has been called back before an engine goes on from a stored round: all up to that round's start. */
  function Told(stored: nat): seq<Callback> {
    if stored == 0 then [] else Rounds(stored - 1) + [Started(stored)]
  }

  lemma {:induction false} RoundsPrefix(k: nat, n: nat)
    requires k <= n
    ensures Rounds(k) <= Rounds(n)
    ensures k < n ==> Rounds(k) + [Started(k + 1)] <= Rounds(n)
    decreases n - k
  {
    if k < n {
      RoundsPrefix(k + 1, n);
      assert Rounds(k + 1) == Rounds(k) + [Started(k + 1), Ended(k + 1)];
      assert Rounds(k) + [Started(k + 1)] <= Rounds(k + 1);
    }
  }

  lemma {:induction false} FinishedNotInRounds(k: nat)
    ensures Finished !in Rounds(k)
  {
    if k > 0 { FinishedNotInRounds(k - 1); }
  }

  /** How far through its round the scheduler is, counting down. */
  function Stage(pc: Pc): nat {
    match pc
    case Boot | BootDuration | BootTimer | LoopTop | RoundSelect | ReadRound | RearmRound => 3
    case WaitCheck(site) => if site.MidRound? || site.RoundOver? then 3 else 1
    case WaitPoll(site) => if site.MidRound? || site.RoundOver? then 3 else 1
    case WaitRenew(site) => if site.MidRound? || site.RoundOver? then 3 else 1
    case EndRound | SetRemaining | ArmRound => 3
    case Decide => 2
    case FinishGame | EnterBreak | ArmBreak | BreakSelect | ReadBreak | RearmBreak | StartMark | StartRound => 1
    case Exited => 0
  }

  ghost predicate OnScript(cfg: Config, stored: nat, m: Machine) {
    var r, n, trace := m.engine.currentRound, LastRound(cfg, stored), Told(stored) + m.trace;
    && 1 <= r <= n && stored <= r
    && match Stage(m.go.pc)
       case 3 => trace == Rounds(r - 1) + [Started(r)]
       case 2 => trace == Rounds(r)
       case 1 => trace == Rounds(r) && if m.go.pc.FinishGame? then r == n else r < n
       case _ => trace == Script(n) || trace <= Rounds(n)
  }

  /** Pause, Resume, Stop and the clock leave Run and the script where they are. */
  lemma OthersKeepPlace(cfg: Config, m: Machine, a: Action)
    requires !a.Run?
    ensures var m' := Next(cfg, m, a);
            m'.go.pc == m.go.pc && m'.trace == m.trace && m'.engine.currentRound == m.engine.currentRound
  {
  }

  /** A step of Run adds at most one callback, and only on leaving its stage. */
  lemma RunKeepsPlace(cfg: Config, m: Machine, choice: Choice)
    ensures var m' := RunStep(cfg, m, choice);
            && (!m.go.pc.EndRound? && !m.go.pc.Decide? && !m.go.pc.FinishGame? && !m.go.pc.StartRound? ==>
                  m'.trace == m.trace && m'.engine.currentRound == m.engine.currentRound
                  && !m'.go.pc.Decide? && !m'.go.pc.FinishGame?
                  && (m'.go.pc.Exited? || Stage(m'.go.pc) == Stage(m.go.pc)))
  {
  }

  /** Steps that leave the place alone, or Run at the end of its stage. */
  lemma PlaceOnScript(cfg: Config, stored: nat, m: Machine, m': Machine)
    requires OnScript(cfg, stored, m) && m'.trace == m.trace && m'.engine.currentRound == m.engine.currentRound
    requires m'.go.pc == m.go.pc
             || (!m'.go.pc.Decide? && !m'.go.pc.FinishGame? && !m.go.pc.FinishGame?
                 && (m'.go.pc.Exited? || Stage(m'.go.pc) == Stage(m.go.pc)))
    ensures OnScript(cfg, stored, m')
  {
    RoundsPrefix(m.engine.currentRound - 1, LastRound(cfg, stored));
    RoundsPrefix(m.engine.currentRound, LastRound(cfg, stored));
    hide Rounds, LastRound, Told;
  }

  lemma StepOnScript(cfg: Config, stored: nat, m: Machine, a: Action)
    requires OnScript(cfg, stored, m)
    ensures OnScript(cfg, stored, Next(cfg, m, a))
  {
    hide RunStep, OnScript, Stage;
    if !a.Run? {
      OthersKeepPlace(cfg, m, a);
      PlaceOnScript(cfg, stored, m, Next(cfg, m, a));
    } else {
      var m' := RunStep(cfg, m, a.choice);
      if m.go.pc.EndRound? {
        EndOnScript(cfg, stored, m, a.choice);
      } else if m.go.pc.Decide? || m.go.pc.FinishGame? || m.go.pc.StartRound? {
        CallbackOnScript(cfg, stored, m, a.choice);
      } else {
        RunKeepsPlace(cfg, m, a.choice);
        PlaceOnScript(cfg, stored, m, m');
      }
      ObserveOnScript(cfg, stored, m');
    }
  }

  lemma ObserveOnScript(cfg: Config, stored: nat, m: Machine)
    requires OnScript(cfg, stored, m)
    ensures OnScript(cfg, stored, Observe(cfg, m))
  {
  }

  /** What can end Run, and what can end the context it was given. */
  lemma StepExits(cfg: Config, stored: nat, m: Machine, a: Action)
    requires OnScript(cfg, stored, m)
    ensures var m' := Next(cfg, m, a);
            && (m'.go.pc.Exited? ==>
                  m.go.pc.Exited? || m.contexts.runDone || Told(stored) + m'.trace == Script(LastRound(cfg, stored)))
            && (m'.contexts.runDone <==> m.contexts.runDone || (a.Stop? && m.engine.target.RunContext?))
            && (m.engine.target.ResumeContext? ==> m'.engine.target.ResumeContext?)
            && (m.go.pc.Exited? ==> m'.go.pc.Exited? && m'.trace == m.trace)
  {
    if !a.Run? {
      OthersKeepPlace(cfg, m, a);
    }
  }

  lemma EndOnScript(cfg: Config, stored: nat, m: Machine, choice: Choice)
    requires OnScript(cfg, stored, m) && m.go.pc.EndRound?
    ensures OnScript(cfg, stored, RunStep(cfg, m, choice))
  {
    var r := m.engine.currentRound;
    assert Rounds(r - 1) + [Started(r)] + [Ended(r)] == Rounds(r);
    assert Told(stored) + m.trace + [Ended(r)] == Told(stored) + (m.trace + [Ended(r)]);
  }

  lemma CallbackOnScript(cfg: Config, stored: nat, m: Machine, choice: Choice)
    requires OnScript(cfg, stored, m)
    requires m.go.pc.Decide? || m.go.pc.FinishGame? || m.go.pc.StartRound?
    ensures OnScript(cfg, stored, RunStep(cfg, m, choice))
  {
    var past, next := Told(stored), m.engine.currentRound + 1;
    assert past + m.trace + [Finished] == past + (m.trace + [Finished]);
    assert past + m.trace + [Started(next)] == past + (m.trace + [Started(next)]);
  }

  lemma {:induction false} RunOnScript(cfg: Config, stored: nat, m: Machine, acts: seq<Action>)
    requires OnScript(cfg, stored, m)
    ensures OnScript(cfg, stored, Exec(cfg, m, acts))
    decreases |acts|
  {
    hide Next;
    if acts != [] {
      StepOnScript(cfg, stored, m, acts[0]);
      RunOnScript(cfg, stored, Next(cfg, m, acts[0]), acts[1..]);
    }
  }

  lemma InitOnScript(cfg: Config, now: nat, stored: nat)
    ensures OnScript(cfg, stored, Init(now, stored))
  {
    assert Rounds(0) + [Started(1)] == [Started(1)];
  }

  /** Whatever the interleaving and whatever the callbacks return, the callbacks so far, after those before the
      stored round, are a prefix of start(1) end(1) ... start(n) end(n) finish, and the game is finished exactly
      when all of it has happened. */
  lemma CallbacksFollowScript(cfg: Config, now: nat, stored: nat, acts: seq<Action>)
    ensures var t, script := Exec(cfg, Init(now, stored), acts).trace, Script(LastRound(cfg, stored));
            && Told(stored) + t <= script
            && (Finished in t <==> Told(stored) + t == script)
  {
    hide Exec, OnScript;
    InitOnScript(cfg, now, stored);
    RunOnScript(cfg, stored, Init(now, stored), acts);
    TraceOnScript(cfg, stored, Exec(cfg, Init(now, stored), acts));
  }

  lemma TraceOnScript(cfg: Config, stored: nat, m: Machine)
    requires OnScript(cfg, stored, m)
    ensures var script := Script(LastRound(cfg, stored));
            && Told(stored) + m.trace <= script
            && (Finished in m.trace <==> Told(stored) + m.trace == script)
  {
    var n := LastRound(cfg, stored);
    RoundsPrefix(m.engine.currentRound - 1, n);
    RoundsPrefix(m.engine.currentRound, n);
    FinishedNotInRounds(n);
    if stored > 0 { FinishedNotInRounds(stored - 1); }
    assert Finished !in Told(stored);
    hide Rounds, Told, LastRound;
    var whole := Told(stored) + m.trace;
    assert whole <= Rounds(n) || whole == Script(n);
    assert Finished in whole <==> Finished in m.trace;
  }

  /** (rounds left, stage) packed into one number. */
  function Measure(cfg: Config, stored: nat, m: Machine): int {
    4 * (LastRound(cfg, stored) - m.engine.currentRound) + Stage(m.go.pc)
  }

  lemma RunMeasure(cfg: Config, stored: nat, m: Machine, choice: Choice)
    requires OnScript(cfg, stored, m)
    ensures var m' := RunStep(cfg, m, choice);
            && Measure(cfg, stored, m') <= Measure(cfg, stored, m)
            && (m'.trace != m.trace ==> Measure(cfg, stored, m') < Measure(cfg, stored, m))
  {
    RunKeepsPlace(cfg, m, choice);
  }

  /** No step raises the measure and every callback lowers it. */
  lemma MeasureDecreases(cfg: Config, stored: nat, m: Machine, a: Action)
    requires OnScript(cfg, stored, m)
    ensures var m' := Next(cfg, m, a);
            && 0 <= Measure(cfg, stored, m') <= Measure(cfg, stored, m)
            && (m'.trace != m.trace ==> Measure(cfg, stored, m') < Measure(cfg, stored, m))
  {
    hide RunStep;
    StepOnScript(cfg, stored, m, a);
    if a.Run? { RunMeasure(cfg, stored, m, a.choice); } else { OthersKeepPlace(cfg, m, a); }
  }

  /** Once a Resume has replaced the engine's cancel function, no later Stop reaches the context
      that Run was given. */
  ghost predicate OutOfReach(m: Machine) {
    m.engine.target.ResumeContext? && !m.contexts.runDone
  }

  lemma {:induction false} StopOutOfReach(cfg: Config, stored: nat, m: Machine, acts: seq<Action>)
    requires OutOfReach(m) && OnScript(cfg, stored, m)
    requires m.go.pc.Exited? ==> Told(stored) + m.trace == Script(LastRound(cfg, stored))
    ensures var m' := Exec(cfg, m, acts);
            OutOfReach(m') && (m'.go.pc.Exited? ==> Told(stored) + m'.trace == Script(LastRound(cfg, stored)))
    decreases |acts|
  {
    hide Next;
    if acts != [] {
      StepOnScript(cfg, stored, m, acts[0]);
      StepExits(cfg, stored, m, acts[0]);
      StopOutOfReach(cfg, stored, Next(cfg, m, acts[0]), acts[1..]);
    }
  }

  /** Some Resume in the run found the engine not running. */
  predicate EverResumed(cfg: Config, m: Machine, acts: seq<Action>)
    decreases |acts|
  {
    acts != [] && ((acts[0].Resume? && !m.engine.running) || EverResumed(cfg, Next(cfg, m, acts[0]), acts[1..]))
  }

  lemma TargetStep(cfg: Config, m: Machine, a: Action)
    ensures Next(cfg, m, a).engine.target.RunContext?
            <==> m.engine.target.RunContext? && !(a.Resume? && !m.engine.running)
  {
  }

  lemma {:induction false} TargetTells(cfg: Config, m: Machine, acts: seq<Action>)
    ensures Exec(cfg, m, acts).engine.target.RunContext?
            <==> m.engine.target.RunContext? && !EverResumed(cfg, m, acts)
    decreases |acts|
  {
    hide Next;
    if acts != [] {
      TargetStep(cfg, m, acts[0]);
      TargetTells(cfg, Next(cfg, m, acts[0]), acts[1..]);
    }
  }

  /** So Stop cancels Run's context exactly when no Resume has taken effect since Start, unless an earlier
      Stop has already cancelled it; and if it does not, Run returns only by playing the script to its
      end, however often Stop is called. */
  lemma StopReachesRun(cfg: Config, now: nat, stored: nat, acts: seq<Action>)
    ensures var m := Exec(cfg, Init(now, stored), acts);
            && (EngineStop(m).contexts.runDone <==> m.contexts.runDone || !EverResumed(cfg, Init(now, stored), acts))
            && (!EngineStop(m).contexts.runDone ==> forall more ::
                  var m', script := Exec(cfg, EngineStop(m), more), Script(LastRound(cfg, stored));
                  !m'.contexts.runDone && (m'.go.pc.Exited? ==> Told(stored) + m'.trace == script))
  {
    var m := Exec(cfg, Init(now, stored), acts);
    InitOnScript(cfg, now, stored);
    RunOnScript(cfg, stored, Init(now, stored), acts);
    ExitsOnlyOnPurpose(cfg, stored, Init(now, stored), acts);
    TargetTells(cfg, Init(now, stored), acts);
    hide Exec, EverResumed, Script;
    if OutOfReach(m) {
      forall more
        ensures var m' := Exec(cfg, EngineStop(m), more);
                !m'.contexts.runDone && (m'.go.pc.Exited? ==> Told(stored) + m'.trace == Script(LastRound(cfg, stored)))
      {
        StopOutOfReach(cfg, stored, EngineStop(m), more);
      }
    }
  }

  lemma {:induction false} ExitsOnlyOnPurpose(cfg: Config, stored: nat, m: Machine, acts: seq<Action>)
    requires OnScript(cfg, stored, m)
    requires m.go.pc.Exited? ==> m.contexts.runDone || Told(stored) + m.trace == Script(LastRound(cfg, stored))
    ensures var m' := Exec(cfg, m, acts);
            m'.go.pc.Exited? ==> m'.contexts.runDone || Told(stored) + m'.trace == Script(LastRound(cfg, stored))
    decreases |acts|
  {
    hide Next;
    if acts != [] {
      StepOnScript(cfg, stored, m, acts[0]);
      StepExits(cfg, stored, m, acts[0]);
      ExitsOnlyOnPurpose(cfg, stored, Next(cfg, m, acts[0]), acts[1..]);
    }
  }

  /** A round that was paused with nothing left on its timer and has been picked up again: the old
      timer is stopped and no new one is armed. */
  ghost predicate Lost(m: Machine) {
    && !m.clock.inBreak && m.clock.remainingRound <= 0 && m.clock.roundStart <= m.now
    && m.go.timer.Idle?
    && (m.go.pc.LoopTop? || m.go.pc.RoundSelect? || m.go.pc.WaitCheck? || m.go.pc.WaitPoll? || m.go.pc.WaitRenew?
        || m.go.pc.ReadRound? || m.go.pc.RearmRound?)
    && (m.go.pc.WaitCheck? || m.go.pc.WaitPoll? || m.go.pc.WaitRenew? ==> m.go.pc.site.MidRound?)
    && (m.go.pc.RearmRound? ==> m.go.loaded <= 0)
  }

  lemma LostStep(cfg: Config, m: Machine, a: Action)
    requires Lost(m)
    ensures var m' := Next(cfg, m, a); m'.trace == m.trace && (Lost(m') || m'.go.pc.Exited?)
  {
    if !a.Run? {
      OthersKeepPlace(cfg, m, a);
    }
  }

  /** Such a round never ends: no pause, resume, stop or passing of time brings another callback. */
  lemma {:induction false} LostForever(cfg: Config, m: Machine, acts: seq<Action>)
    requires Lost(m) || m.go.pc.Exited?
    ensures var m' := Exec(cfg, m, acts);
            m'.trace == m.trace && (Lost(m') || m'.go.pc.Exited?)
    decreases |acts|
  {
    hide Next, Lost;
    if acts != [] {
      if m.go.pc.Exited? { ExitedForGood(cfg, m, acts[0]); } else { LostStep(cfg, m, acts[0]); }
      LostForever(cfg, Next(cfg, m, acts[0]), acts[1..]);
    }
  }

  lemma ExitedForGood(cfg: Config, m: Machine, a: Action)
    requires m.go.pc.Exited?
    ensures Next(cfg, m, a).go.pc.Exited? && Next(cfg, m, a).trace == m.trace
  {
  }

  // ---------------------------------------------------------------- what the engine shows

  /** The phase of the engine by the place of Run.  An engine that goes on from a stored round is in preparation
      until it starts a round itself. */
  function Shown(stored: nat, m: Machine): string {
    if Stage(m.go.pc) == 3 then if stored > 0 && m.engine.currentRound == stored then "preparation" else "running"
    else if m.go.pc.Decide? then "scoring"
    else if m.go.pc.FinishGame? then "finished"
    else "break"
  }

  ghost predicate PhaseFits(stored: nat, m: Machine, paused: bool, stopped: bool) {
    || (m.go.pc.Exited? && (m.engine.phase == "finished" || m.contexts.runDone))
    || m.engine.phase == Shown(stored, m)
    || (paused && m.engine.phase == "break") || (stopped && m.engine.phase == "finished")
  }

  lemma SharedPhase(cfg: Config, stored: nat, m: Machine, paused: bool, stopped: bool)
    requires stored <= m.engine.currentRound && PhaseFits(stored, m, paused, stopped) && IsShared(m.go.pc)
    ensures PhaseFits(stored, SharedStep(cfg, m), paused, stopped)
  {
  }

  lemma LocalPhase(cfg: Config, stored: nat, m: Machine, choice: Choice, paused: bool, stopped: bool)
    requires PhaseFits(stored, m, paused, stopped) && !IsShared(m.go.pc)
    ensures PhaseFits(stored, RunStep(cfg, m, choice), paused, stopped)
  {
    RunKeepsPlace(cfg, m, choice);
  }

  lemma CallPhase(cfg: Config, stored: nat, m: Machine, a: Action, paused: bool, stopped: bool)
    requires PhaseFits(stored, m, paused, stopped) && !a.Run?
    ensures PhaseFits(stored, Act(cfg, m, a), paused || a.Pause?, stopped || a.Stop?)
  {
  }

  lemma PhaseStep(cfg: Config, stored: nat, m: Machine, a: Action, paused: bool, stopped: bool)
    requires stored <= m.engine.currentRound && PhaseFits(stored, m, paused, stopped)
    ensures PhaseFits(stored, Next(cfg, m, a), paused || a.Pause?, stopped || a.Stop?)
  {
    ObservedPhase(cfg, stored, Act(cfg, m, a), paused || a.Pause?, stopped || a.Stop?);
    hide PhaseFits, SharedStep, LocalStep;
    if !a.Run? { CallPhase(cfg, stored, m, a, paused, stopped); }
    else if IsShared(m.go.pc) { SharedPhase(cfg, stored, m, paused, stopped); }
    else { LocalPhase(cfg, stored, m, a.choice, paused, stopped); }
  }

  lemma ObservedPhase(cfg: Config, stored: nat, m: Machine, paused: bool, stopped: bool)
    ensures PhaseFits(stored, Observe(cfg, m), paused, stopped) <==> PhaseFits(stored, m, paused, stopped)
  {
  }

  lemma AtLeastStored(cfg: Config, stored: nat, m: Machine)
    requires OnScript(cfg, stored, m)
    ensures stored <= m.engine.currentRound
  {
  }

  lemma {:induction false} PhaseRun(cfg: Config, stored: nat, m: Machine, acts: seq<Action>,
                                    paused: bool, stopped: bool)
    requires OnScript(cfg, stored, m) && PhaseFits(stored, m, paused, stopped)
    ensures PhaseFits(stored, Exec(cfg, m, acts), paused || Pause in acts, stopped || Stop in acts)
    decreases |acts|
  {
    hide Next, PhaseFits, OnScript;
    if acts == [] {
    } else {
      StepOnScript(cfg, stored, m, acts[0]);
      AtLeastStored(cfg, stored, m);
      PhaseStep(cfg, stored, m, acts[0], paused, stopped);
      PhaseRun(cfg, stored, Next(cfg, m, acts[0]), acts[1..], paused || acts[0].Pause?, stopped || acts[0].Stop?);
      assert acts == [acts[0]] + acts[1..];
    }
  }

  /** Over any run the engine's phase is the one of Run's place, unless a pause has made it "break" or a stop
      "finished". */
  lemma PhaseShows(cfg: Config, now: nat, stored: nat, acts: seq<Action>)
    ensures PhaseFits(stored, Exec(cfg, Init(now, stored), acts), Pause in acts, Stop in acts)
  {
    InitOnScript(cfg, now, stored);
    PhaseRun(cfg, stored, Init(now, stored), acts, false, false);
  }

  /** The engine is running from a start or resume until a pause, a stop or the finish. */
  lemma RunningFollows(cfg: Config, m: Machine, a: Action)
    ensures Next(cfg, m, a).engine.running
            <==> match a
                 case Pause => false
                 case Stop => false
                 case Resume => true
                 case Tick(_) => m.engine.running
                 case Run(_, _) => m.engine.running && !m.go.pc.FinishGame?
  {
  }

  /** What sets the engine's phase: an effective pause, a stop, and five places of Run. */
  lemma PhaseFollows(cfg: Config, m: Machine, a: Action)
    ensures Next(cfg, m, a).engine.phase
            == match a
               case Pause => if m.engine.running then "break" else m.engine.phase
               case Stop => "finished"
               case Resume => m.engine.phase
               case Tick(_) => m.engine.phase
               case Run(_, _) =>
                 if m.go.pc.EndRound? then "scoring"
                 else if m.go.pc.Decide? then if m.engine.currentRound < cfg.totalRounds then "break" else "finished"
                 else if m.go.pc.FinishGame? then "finished"
                 else if m.go.pc.StartRound? then "running"
                 else m.engine.phase
  {
  }

  /** A break resumed with nothing left is over at once: no timer is set for it. */
  lemma NothingLeftOfBreak(cfg: Config, m: Machine, choice: Choice, ok: bool)
    requires m.go.pc.RearmBreak?
    ensures var g := Next(cfg, m, Run(choice, ok)).go;
            if m.go.loaded <= 0 then g.pc == WaitCheck(BreakOver)
            else g.pc.BreakSelect? && g.timer == At(m.now + m.go.loaded)
  {
  }
}
