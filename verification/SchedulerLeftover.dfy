/** What Run can still do when the engine is not called any more: which callbacks can follow from any
    point of any run, exactly, and when Run is left spinning. */
module SchedulerLeftover {
  import opened RoundScheduler
  import opened SchedulerMachine
  import opened SchedulerTiming

  /** Run goes on by itself, spins on a context that is done, or polls a pause that nobody ends. */
  datatype Mode = Free | Spinning | Polling

  function ModeOf(m: Machine): Mode {
    if m.clock.paused then Polling
    else if m.contexts.runDone || (!m.go.pc.Boot? && Done(m.contexts, m.clock.pauseCtx)) then Spinning
    else Free
  }

  /** A phase of this length can run out: a spinning Run never lets time pass. */
  predicate Passes(mode: Mode, d: int) {
    match mode
    case Free => true
    case Spinning => d <= 0
    case Polling => false
  }

  // ---------------------------------------------------------------- the callbacks that are left

  function LeftInRound(cfg: Config, mode: Mode, r: int): seq<Callback>
    decreases if r < cfg.totalRounds then cfg.totalRounds - r else 0, 4
  {
    if Passes(mode, cfg.roundDuration) then LeftAtEnd(cfg, mode, r) else []
  }

  function LeftAtEnd(cfg: Config, mode: Mode, r: int): seq<Callback>
    decreases if r < cfg.totalRounds then cfg.totalRounds - r else 0, 3
  {
    [Ended(r)] + LeftAtDecide(cfg, mode, r)
  }

  function LeftAtDecide(cfg: Config, mode: Mode, r: int): seq<Callback>
    decreases if r < cfg.totalRounds then cfg.totalRounds - r else 0, 2
  {
    if r >= cfg.totalRounds then [Finished] else LeftInBreak(cfg, mode, r)
  }

  function LeftInBreak(cfg: Config, mode: Mode, r: int): seq<Callback>
    requires r < cfg.totalRounds
    decreases cfg.totalRounds - r, 1
  {
    if Passes(mode, cfg.breakDuration) then LeftAtStart(cfg, mode, r) else []
  }

  function LeftAtStart(cfg: Config, mode: Mode, r: int): seq<Callback>
    requires r < cfg.totalRounds
    decreases cfg.totalRounds - r, 0
  {
    [Started(r + 1)] + LeftInRound(cfg, mode, r + 1)
  }

  /** Time may pass in the select that Run is in. */
  predicate Waits(m: Machine) {
    !m.contexts.runDone && !Done(m.contexts, m.go.heldCtx)
  }

  predicate Held(m: Machine) {
    Done(m.contexts, m.go.heldCtx)
  }

  /** The select or poll that Run is in can be left other than by returning. */
  predicate LeavesPoll(m: Machine) {
    Done(m.contexts, m.go.waitCtx) || m.go.pollAt <= m.now || !m.contexts.runDone
  }

  /** The timer that is set can go off, here or after one more turn of the loop. */
  predicate RoundEnds(m: Machine) {
    var g, mode := m.go, ModeOf(m);
    match g.pc
    case LoopTop => if mode == Free then g.timer.At? else Fired(g.timer, m.now)
    case RoundSelect =>
      (g.timer.At? && (Fired(g.timer, m.now) || Waits(m)))
      || (mode == Free && Held(m) && m.clock.remainingRound > 0)
    case WaitPoll(_) => LeavesPoll(m) && (g.pc.site.RoundOver? || (mode == Free && m.clock.remainingRound > 0))
    case WaitCheck(_) => g.pc.site.RoundOver? || (mode == Free && m.clock.remainingRound > 0)
    case WaitRenew(_) => g.pc.site.RoundOver? || (mode == Free && m.clock.remainingRound > 0)
    case ReadRound => mode == Free && m.clock.remainingRound > 0
    case RearmRound => mode == Free && g.loaded > 0
    case _ => false
  }

  predicate BreakEnds(cfg: Config, m: Machine) {
    var g, free := m.go, ModeOf(m) == Free;
    match g.pc
    case ArmBreak => cfg.breakDuration <= 0 || Waits(m) || (Held(m) && (free || m.clock.remainingBreak <= 0))
    case BreakSelect =>
      (g.timer.At? && (Fired(g.timer, m.now) || Waits(m))) || (Held(m) && (free || m.clock.remainingBreak <= 0))
    case WaitPoll(_) => LeavesPoll(m) && (g.pc.site.BreakOver? || free || m.clock.remainingBreak <= 0)
    case WaitCheck(_) => g.pc.site.BreakOver? || free || m.clock.remainingBreak <= 0
    case WaitRenew(_) => g.pc.site.BreakOver? || free || m.clock.remainingBreak <= 0
    case ReadBreak => free || m.clock.remainingBreak <= 0
    case RearmBreak => g.loaded <= 0 || Waits(m) || (Held(m) && (free || m.clock.remainingBreak <= 0))
    case _ => false
  }

  predicate RoundPc(pc: Pc) {
    pc.LoopTop? || pc.RoundSelect? || pc.ReadRound? || pc.RearmRound? || AtSite(pc, MidRound, RoundOver)
  }

  predicate BreakPc(pc: Pc) {
    pc.ArmBreak? || pc.BreakSelect? || pc.ReadBreak? || pc.RearmBreak? || AtSite(pc, MidBreak, BreakOver)
  }

  /** The longest sequence of callbacks that can still follow if the engine is left alone. */
  function Left(cfg: Config, m: Machine): seq<Callback> {
    var r, mode, pc := m.engine.currentRound, ModeOf(m), m.go.pc;
    if pc.FinishGame? then [Finished]
    else if pc.EndRound? then LeftAtEnd(cfg, mode, r)
    else if pc.Decide? then LeftAtDecide(cfg, mode, r)
    else if RoundPc(pc) then if mode != Polling && RoundEnds(m) then LeftAtEnd(cfg, mode, r) else []
    else if pc.Exited? then []
    else if pc.Boot? || pc.BootDuration? || pc.BootTimer? || pc.SetRemaining? || pc.ArmRound? then
      LeftInRound(cfg, mode, r)
    else if r >= cfg.totalRounds then []
    else if pc.EnterBreak? then LeftInBreak(cfg, mode, r)
    else if pc.StartMark? || pc.StartRound? then LeftAtStart(cfg, mode, r)
    else if mode != Polling && BreakEnds(cfg, m) then LeftAtStart(cfg, mode, r)
    else []
  }

  // ---------------------------------------------------------------- no more than that

  /** A new context is not cancelled, and there are no breaks after the last round. */
  ghost predicate Sane(cfg: Config, m: Machine) {
    && (forall x :: x in m.contexts.cancelled ==> Issued(x, m.contexts.nextId))
    && (BreakPc(m.go.pc) || m.go.pc.EnterBreak? || m.go.pc.StartMark? || m.go.pc.StartRound? ==>
          m.engine.currentRound < cfg.totalRounds)
  }

  /** The engine is not called. */
  predicate ByItself(a: Action) {
    a.Run? || a.Tick?
  }

  lemma SaneStep(cfg: Config, m: Machine, a: Action)
    requires Sane(cfg, m) && ByItself(a)
    ensures Sane(cfg, Next(cfg, m, a))
  {
  }

  lemma LocalModeStays(cfg: Config, m: Machine, choice: Choice, ok: bool)
    requires !IsShared(m.go.pc)
    ensures ModeOf(Next(cfg, m, Run(choice, ok))) == ModeOf(m) || Next(cfg, m, Run(choice, ok)).go.pc.Exited?
  {
  }

  lemma SharedModeStays(cfg: Config, m: Machine, choice: Choice, ok: bool)
    requires Sane(cfg, m) && IsShared(m.go.pc)
    ensures ModeOf(Next(cfg, m, Run(choice, ok))) == ModeOf(m) || Next(cfg, m, Run(choice, ok)).go.pc.Exited?
  {
  }

  lemma ModeStays(cfg: Config, m: Machine, a: Action)
    requires Sane(cfg, m) && ByItself(a)
    ensures ModeOf(Next(cfg, m, a)) == ModeOf(m) || Next(cfg, m, a).go.pc.Exited?
  {
    match a
    case Run(choice, ok) =>
      hide Next, ModeOf;
      if IsShared(m.go.pc) { SharedModeStays(cfg, m, choice, ok); } else { LocalModeStays(cfg, m, choice, ok); }
    case Tick(d) =>
  }

  /** From `m` to `m'` either nothing is called and no more is left, or the first callback left is called. */
  ghost predicate Uses(cfg: Config, m: Machine, m': Machine) {
    || (m'.trace == m.trace && Left(cfg, m') <= Left(cfg, m))
    || (exists c :: m'.trace == m.trace + [c] && Left(cfg, m) == [c] + Left(cfg, m'))
  }

  lemma TickUses(cfg: Config, m: Machine, d: nat)
    requires Sane(cfg, m) && Prompt(m, Tick(d))
    ensures Uses(cfg, m, Next(cfg, m, Tick(d)))
  {
    hide LeftAtEnd, LeftAtStart, LeftAtDecide, LeftInBreak, LeftInRound;
  }

  /** The steps that open a round. */
  lemma OpeningUses(cfg: Config, m: Machine, choice: Choice, ok: bool)
    requires Sane(cfg, m)
    requires m.go.pc.Boot? || m.go.pc.BootDuration? || m.go.pc.BootTimer? || m.go.pc.SetRemaining? || m.go.pc.ArmRound?
    ensures Uses(cfg, m, Next(cfg, m, Run(choice, ok)))
  {
    ModeStays(cfg, m, Run(choice, ok));
    hide ModeOf, LeftAtEnd;
  }

  lemma RoundCheckUses(cfg: Config, m: Machine, choice: Choice, ok: bool)
    requires Sane(cfg, m) && RoundPc(m.go.pc) && m.go.pc.WaitCheck?
    ensures Uses(cfg, m, Next(cfg, m, Run(choice, ok)))
  {
    hide LeftAtEnd, LeftAtStart, LeftAtDecide, LeftInBreak, LeftInRound;
  }

  lemma RoundPollUses(cfg: Config, m: Machine, choice: Choice, ok: bool)
    requires Sane(cfg, m) && RoundPc(m.go.pc) && (m.go.pc.WaitPoll? || m.go.pc.WaitRenew?)
    ensures Uses(cfg, m, Next(cfg, m, Run(choice, ok)))
  {
    hide LeftAtEnd, LeftAtStart, LeftAtDecide, LeftInBreak, LeftInRound;
  }

  lemma RoundLoopUses(cfg: Config, m: Machine, choice: Choice, ok: bool)
    requires Sane(cfg, m) && RoundPc(m.go.pc) && !Waiting(m.go.pc)
    ensures Uses(cfg, m, Next(cfg, m, Run(choice, ok)))
  {
    hide LeftAtEnd, LeftAtStart, LeftAtDecide, LeftInBreak, LeftInRound;
  }

  lemma BreakCheckUses(cfg: Config, m: Machine, choice: Choice, ok: bool)
    requires Sane(cfg, m) && BreakPc(m.go.pc) && m.go.pc.WaitCheck?
    ensures Uses(cfg, m, Next(cfg, m, Run(choice, ok)))
  {
    hide LeftAtEnd, LeftAtStart, LeftAtDecide, LeftInBreak, LeftInRound;
  }

  lemma BreakPollUses(cfg: Config, m: Machine, choice: Choice, ok: bool)
    requires Sane(cfg, m) && BreakPc(m.go.pc) && m.go.pc.WaitPoll?
    ensures Uses(cfg, m, Next(cfg, m, Run(choice, ok)))
  {
    hide LeftAtEnd, LeftAtStart, LeftAtDecide, LeftInBreak, LeftInRound;
  }

  lemma BreakRenewUses(cfg: Config, m: Machine, choice: Choice, ok: bool)
    requires Sane(cfg, m) && BreakPc(m.go.pc) && m.go.pc.WaitRenew?
    ensures Uses(cfg, m, Next(cfg, m, Run(choice, ok)))
  {
    hide LeftAtEnd, LeftAtStart, LeftAtDecide, LeftInBreak, LeftInRound;
  }

  lemma BreakSelectUses(cfg: Config, m: Machine, choice: Choice, ok: bool)
    requires Sane(cfg, m) && m.go.pc.BreakSelect?
    ensures Uses(cfg, m, Next(cfg, m, Run(choice, ok)))
  {
    hide LeftAtEnd, LeftAtStart, LeftAtDecide, LeftInBreak, LeftInRound;
  }

  lemma BreakLoopUses(cfg: Config, m: Machine, choice: Choice, ok: bool)
    requires Sane(cfg, m) && (m.go.pc.ReadBreak? || m.go.pc.RearmBreak?)
    ensures Uses(cfg, m, Next(cfg, m, Run(choice, ok)))
  {
    hide LeftAtEnd, LeftAtStart, LeftAtDecide, LeftInBreak, LeftInRound;
  }

  lemma BreakArmUses(cfg: Config, m: Machine, choice: Choice, ok: bool)
    requires Sane(cfg, m) && m.go.pc.ArmBreak?
    ensures Uses(cfg, m, Next(cfg, m, Run(choice, ok)))
  {
    hide LeftAtEnd, LeftAtStart, LeftAtDecide, LeftInBreak, LeftInRound;
  }

  lemma TurnUses(cfg: Config, m: Machine, choice: Choice, ok: bool)
    requires Sane(cfg, m)
    requires m.go.pc.EndRound? || m.go.pc.Decide? || m.go.pc.FinishGame? || m.go.pc.EnterBreak?
             || m.go.pc.StartMark? || m.go.pc.StartRound?
    ensures Uses(cfg, m, Next(cfg, m, Run(choice, ok)))
  {
    ModeStays(cfg, m, Run(choice, ok));
  }

  lemma RunUses(cfg: Config, m: Machine, choice: Choice, ok: bool)
    requires Sane(cfg, m) && !m.go.pc.Exited?
    ensures Uses(cfg, m, Next(cfg, m, Run(choice, ok)))
  {
    hide Uses, Next, Sane;
    var pc := m.go.pc;
    if RoundPc(pc) {
      if pc.WaitCheck? { RoundCheckUses(cfg, m, choice, ok); }
      else if Waiting(pc) { RoundPollUses(cfg, m, choice, ok); }
      else { RoundLoopUses(cfg, m, choice, ok); }
    } else if BreakPc(pc) {
      if pc.WaitCheck? { BreakCheckUses(cfg, m, choice, ok); }
      else if pc.WaitPoll? { BreakPollUses(cfg, m, choice, ok); }
      else if pc.WaitRenew? { BreakRenewUses(cfg, m, choice, ok); }
      else if pc.BreakSelect? { BreakSelectUses(cfg, m, choice, ok); }
      else if pc.ArmBreak? { BreakArmUses(cfg, m, choice, ok); }
      else { BreakLoopUses(cfg, m, choice, ok); }
    } else if pc.Boot? || pc.BootDuration? || pc.BootTimer? || pc.SetRemaining? || pc.ArmRound? {
      OpeningUses(cfg, m, choice, ok);
    } else {
      TurnUses(cfg, m, choice, ok);
    }
  }

  lemma StepUses(cfg: Config, m: Machine, a: Action)
    requires Sane(cfg, m) && ByItself(a) && Prompt(m, a)
    ensures Uses(cfg, m, Next(cfg, m, a))
  {
    hide Uses, Next, Sane, Prompt;
    match a
    case Tick(d) => TickUses(cfg, m, d);
    case Run(choice, ok) =>
      if m.go.pc.Exited? {
        ExitedUses(cfg, m, a);
      } else {
        RunUses(cfg, m, choice, ok);
      }
  }

  lemma ExitedUses(cfg: Config, m: Machine, a: Action)
    requires m.go.pc.Exited? && ByItself(a)
    ensures Uses(cfg, m, Next(cfg, m, a))
  {
  }

  ghost predicate Unattended(acts: seq<Action>) {
    forall i :: 0 <= i < |acts| ==> ByItself(acts[i])
  }

  lemma UsesMore(cfg: Config, m: Machine, m1: Machine, trace: seq<Callback>)
    requires Uses(cfg, m, m1) && m1.trace <= trace <= m1.trace + Left(cfg, m1)
    ensures m.trace <= trace <= m.trace + Left(cfg, m)
  {
    hide Left;
  }

  /** However Run goes on when the engine is left alone, it calls back a prefix of what is left. */
  lemma {:induction false} NoMoreThanLeft(cfg: Config, m: Machine, acts: seq<Action>)
    requires Sane(cfg, m) && Unattended(acts) && PromptRun(cfg, m, acts)
    ensures m.trace <= Exec(cfg, m, acts).trace <= m.trace + Left(cfg, m)
    ensures Sane(cfg, Exec(cfg, m, acts))
    decreases |acts|
  {
    hide Next, Prompt, Uses, Sane, Left;
    if acts != [] {
      var m1 := Next(cfg, m, acts[0]);
      SaneStep(cfg, m, acts[0]);
      StepUses(cfg, m, acts[0]);
      NoMoreThanLeft(cfg, m1, acts[1..]);
      UsesMore(cfg, m, m1, Exec(cfg, m1, acts[1..]).trace);
    }
  }

  // ---------------------------------------------------------------- all of it can happen

  /** A step towards the next callback. */
  function Toward(m: Machine): Action {
    var g := m.go;
    match g.pc
    case RoundSelect =>
      if Fired(g.timer, m.now) then Run(OnTimer, true)
      else if g.timer.At? && Waits(m) then Tick(if g.timer.deadline > m.now then g.timer.deadline - m.now else 0)
      else Run(OnPause, true)
    case BreakSelect =>
      if Fired(g.timer, m.now) then Run(OnTimer, true)
      else if g.timer.At? && Waits(m) then Tick(if g.timer.deadline > m.now then g.timer.deadline - m.now else 0)
      else Run(OnPause, true)
    case WaitPoll(_) =>
      if Done(m.contexts, g.waitCtx) then Run(OnPause, true)
      else if g.pollAt <= m.now then Run(OnTimer, true)
      else Tick(g.pollAt - m.now)
    case _ => Run(Go, true)
  }

  /** How many steps it takes to the next callback, at most. */
  function Distance(m: Machine): nat {
    var g := m.go;
    var ready := Fired(g.timer, m.now);
    match g.pc
    case FinishGame => 1
    case EndRound => 1
    case StartRound => 1
    case StartMark => 2
    case WaitCheck(site) => if site.RoundOver? then 2 else if site.BreakOver? then 3 else 20
    case WaitRenew(site) => if site.RoundOver? then 3 else if site.BreakOver? then 4 else 21
    case WaitPoll(site) =>
      (if site.RoundOver? || site.BreakOver? then 5 else 22)
      + if Done(m.contexts, g.waitCtx) || g.pollAt <= m.now then 0 else 1
    case LoopTop => if g.timer.At? && ModeOf(m) == Free then 14 else 8
    case RoundSelect => if ready then 6 else if g.timer.At? && Waits(m) then 7 else 30
    case BreakSelect => if ready then 6 else if g.timer.At? && Waits(m) then 7 else 30
    case RearmRound => 18
    case ReadRound => 19
    case RearmBreak => if g.loaded <= 0 then 18 else if Waits(m) then 18 else 31
    case ReadBreak => 19
    case ArmBreak => 32
    case EnterBreak => 33
    case Decide => 34
    case ArmRound => 16
    case SetRemaining => 17
    case BootTimer => 16
    case BootDuration => 17
    case Boot => 18
    case Exited => 0
  }

  /** A step that keeps what is left and comes nearer to it, or makes the next call. */
  ghost predicate Advances(cfg: Config, m: Machine, m': Machine) {
    || (m'.trace == m.trace && Left(cfg, m') == Left(cfg, m) && Distance(m') < Distance(m))
    || (exists c :: m'.trace == m.trace + [c] && Left(cfg, m) == [c] + Left(cfg, m'))
  }

  ghost predicate Nearer(cfg: Config, m: Machine) {
    var a := Toward(m);
    ByItself(a) && Prompt(m, a) && Advances(cfg, m, Next(cfg, m, a))
  }

  lemma BootAdvances(cfg: Config, m: Machine)
    requires Sane(cfg, m) && Left(cfg, m) != [] && m.go.pc.Boot?
    ensures Nearer(cfg, m)
  {
    ModeStays(cfg, m, Run(Go, true));
    hide LeftAtEnd;
  }

  lemma OpeningAdvances(cfg: Config, m: Machine)
    requires Sane(cfg, m) && Left(cfg, m) != []
    requires m.go.pc.BootDuration? || m.go.pc.BootTimer? || m.go.pc.SetRemaining? || m.go.pc.ArmRound?
    ensures Nearer(cfg, m)
  {
    ModeStays(cfg, m, Run(Go, true));
    hide LeftAtEnd;
  }

  lemma RoundCheckAdvances(cfg: Config, m: Machine)
    requires Sane(cfg, m) && Left(cfg, m) != [] && RoundPc(m.go.pc) && m.go.pc.WaitCheck?
    ensures Nearer(cfg, m)
  {
    hide LeftAtEnd, LeftAtStart, LeftAtDecide, LeftInBreak, LeftInRound;
  }

  lemma RoundPollAdvances(cfg: Config, m: Machine)
    requires Sane(cfg, m) && Left(cfg, m) != [] && RoundPc(m.go.pc) && m.go.pc.WaitPoll?
    ensures Nearer(cfg, m)
  {
    hide LeftAtEnd, LeftAtStart, LeftAtDecide, LeftInBreak, LeftInRound;
  }

  lemma RoundRenewAdvances(cfg: Config, m: Machine)
    requires Sane(cfg, m) && Left(cfg, m) != [] && RoundPc(m.go.pc) && m.go.pc.WaitRenew?
    ensures Nearer(cfg, m)
  {
    hide LeftAtEnd, LeftAtStart, LeftAtDecide, LeftInBreak, LeftInRound;
  }

  lemma RoundLoopAdvances(cfg: Config, m: Machine)
    requires Sane(cfg, m) && Left(cfg, m) != [] && RoundPc(m.go.pc) && !Waiting(m.go.pc)
    ensures Nearer(cfg, m)
  {
    hide LeftAtEnd, LeftAtStart, LeftAtDecide, LeftInBreak, LeftInRound;
  }

  lemma BreakCheckAdvances(cfg: Config, m: Machine)
    requires Sane(cfg, m) && Left(cfg, m) != [] && BreakPc(m.go.pc) && m.go.pc.WaitCheck?
    ensures Nearer(cfg, m)
  {
    hide LeftAtEnd, LeftAtStart, LeftAtDecide, LeftInBreak, LeftInRound;
  }

  lemma BreakPollAdvances(cfg: Config, m: Machine)
    requires Sane(cfg, m) && Left(cfg, m) != [] && BreakPc(m.go.pc) && m.go.pc.WaitPoll?
    ensures Nearer(cfg, m)
  {
    hide LeftAtEnd, LeftAtStart, LeftAtDecide, LeftInBreak, LeftInRound;
  }

  lemma BreakRenewAdvances(cfg: Config, m: Machine)
    requires Sane(cfg, m) && Left(cfg, m) != [] && BreakPc(m.go.pc) && m.go.pc.WaitRenew?
    ensures Nearer(cfg, m)
  {
    hide LeftAtEnd, LeftAtStart, LeftAtDecide, LeftInBreak, LeftInRound;
  }

  lemma BreakSelectAdvances(cfg: Config, m: Machine)
    requires Sane(cfg, m) && Left(cfg, m) != [] && m.go.pc.BreakSelect?
    ensures Nearer(cfg, m)
  {
    hide LeftAtEnd, LeftAtStart, LeftAtDecide, LeftInBreak, LeftInRound;
  }

  lemma BreakLoopAdvances(cfg: Config, m: Machine)
    requires Sane(cfg, m) && Left(cfg, m) != [] && BreakPc(m.go.pc) && !Waiting(m.go.pc) && !m.go.pc.BreakSelect?
    ensures Nearer(cfg, m)
  {
    hide LeftAtEnd, LeftAtStart, LeftAtDecide, LeftInBreak, LeftInRound;
  }

  lemma EndAdvances(cfg: Config, m: Machine)
    requires Sane(cfg, m) && Left(cfg, m) != [] && (m.go.pc.EndRound? || m.go.pc.Decide? || m.go.pc.FinishGame?)
    ensures Nearer(cfg, m)
  {
    ModeStays(cfg, m, Run(Go, true));
  }

  lemma BreakTurnAdvances(cfg: Config, m: Machine)
    requires Sane(cfg, m) && Left(cfg, m) != [] && m.go.pc.EnterBreak?
    ensures Nearer(cfg, m)
  {
    ModeStays(cfg, m, Run(Go, true));
  }

  lemma StartTurnAdvances(cfg: Config, m: Machine)
    requires Sane(cfg, m) && Left(cfg, m) != [] && (m.go.pc.StartMark? || m.go.pc.StartRound?)
    ensures Nearer(cfg, m)
  {
    ModeStays(cfg, m, Run(Go, true));
  }

  lemma ComesNearer(cfg: Config, m: Machine)
    requires Sane(cfg, m) && Left(cfg, m) != []
    ensures Nearer(cfg, m)
  {
    hide Nearer, Sane;
    var pc := m.go.pc;
    assert !pc.Exited?;
    hide Left;
    if RoundPc(pc) {
      if pc.WaitCheck? { RoundCheckAdvances(cfg, m); }
      else if pc.WaitPoll? { RoundPollAdvances(cfg, m); }
      else if pc.WaitRenew? { RoundRenewAdvances(cfg, m); }
      else { RoundLoopAdvances(cfg, m); }
    } else if BreakPc(pc) {
      if pc.WaitCheck? { BreakCheckAdvances(cfg, m); }
      else if pc.WaitPoll? { BreakPollAdvances(cfg, m); }
      else if pc.WaitRenew? { BreakRenewAdvances(cfg, m); }
      else if pc.BreakSelect? { BreakSelectAdvances(cfg, m); }
      else { BreakLoopAdvances(cfg, m); }
    } else if pc.Boot? { BootAdvances(cfg, m); }
    else if pc.BootDuration? || pc.BootTimer? || pc.SetRemaining? || pc.ArmRound? { OpeningAdvances(cfg, m); }
    else if pc.EndRound? || pc.Decide? || pc.FinishGame? { EndAdvances(cfg, m); }
    else if pc.EnterBreak? { BreakTurnAdvances(cfg, m); }
    else { StartTurnAdvances(cfg, m); }
  }

  lemma FirstOf(cfg: Config, m: Machine, a: Action, rest: seq<Action>)
    requires Prompt(m, a) && ByItself(a) && PromptRun(cfg, Next(cfg, m, a), rest) && Unattended(rest)
    ensures PromptRun(cfg, m, [a] + rest) && Unattended([a] + rest)
    ensures Exec(cfg, m, [a] + rest) == Exec(cfg, Next(cfg, m, a), rest)
  {
    hide Next, Prompt;
    assert ([a] + rest)[1..] == rest;
  }

  /** And all of what is left can be called, in a prompt run. */
  lemma {:induction false} AllLeftCanHappen(cfg: Config, m: Machine) returns (acts: seq<Action>)
    requires Sane(cfg, m)
    ensures Unattended(acts) && PromptRun(cfg, m, acts)
    ensures Exec(cfg, m, acts).trace == m.trace + Left(cfg, m) && Left(cfg, Exec(cfg, m, acts)) == []
    decreases |Left(cfg, m)|, Distance(m)
  {
    hide Next, Prompt, Sane, Left, Distance, Toward, ByItself;
    if Left(cfg, m) == [] {
      acts := [];
      NothingDone(cfg, m);
    } else {
      ComesNearer(cfg, m);
      var a := Toward(m);
      var m1 := Next(cfg, m, a);
      SaneStep(cfg, m, a);
      var rest := AllLeftCanHappen(cfg, m1);
      acts := [a] + rest;
      FirstOf(cfg, m, a, rest);
    }
  }

  lemma NothingDone(cfg: Config, m: Machine)
    ensures PromptRun(cfg, m, []) && Exec(cfg, m, []) == m && m.trace + [] == m.trace
  {
  }
}
