/** internal/engine/round.go and engine.go: the goroutine Run, the engine calls that may arrive
    between any two of its critical sections, and an explicit clock, as one step function.

    Every step is one critical section or one select.  Nothing limits the order of steps; the
    predicate Prompt says when an advance of the clock is one that a goroutine with work to do
    would have allowed. */
module SchedulerMachine {
  import opened RoundScheduler

  datatype Config = Config(roundDuration: int, breakDuration: int, totalRounds: int)

  /** The interval of the poll in waitForResume: 100 ms. */
  const POLL: int := 100_000_000

  datatype Callback = Started(round: int) | Ended(round: int) | Finished

  datatype Timer = Idle | At(deadline: int)

  /** The four places that call waitForResume. */
  datatype Site = MidRound | RoundOver | MidBreak | BreakOver

  /** Where Run is.  Each name but the two selects and WaitPoll is about to enter a critical section. */
  datatype Pc =
    | Boot | BootDuration | BootTimer
    | LoopTop | RoundSelect
    | WaitCheck(site: Site) | WaitPoll(site: Site) | WaitRenew(site: Site)
    | ReadRound | RearmRound
    | EndRound | Decide | FinishGame
    | EnterBreak | ArmBreak | BreakSelect | ReadBreak | RearmBreak
    | StartMark | StartRound | SetRemaining | ArmRound
    | Exited

  /** What the engine's cancelFunc cancels. */
  datatype Target = RunContext | ResumeContext(ctx: Ctx)

  datatype Engine = Engine(currentRound: int, running: bool, phase: string, target: Target)

  /** An observer that the code does not have: how long the current phase has run unpaused,
      whether it was ever paused with its whole duration already run, and whether Stop was called. */
  datatype Watch = Watch(active: int, spent: bool, stopped: bool)

  /** The local variables of Run and of waitForResume. */
  datatype Locals = Locals(
    pc: Pc,
    timer: Timer,
    heldCtx: Ctx,      // currentPauseCtx or breakPauseCtx
    waitCtx: Ctx,      // pCtx in waitForResume
    pollAt: int,
    loaded: int)       // remaining or remainingBreak, read before the timer is re-armed

  datatype Contexts = Contexts(cancelled: set<Ctx>, nextId: nat, runDone: bool)

  datatype Machine = Machine(
    now: int,
    clock: Clock,
    engine: Engine,
    go: Locals,
    contexts: Contexts,
    trace: seq<Callback>,
    watch: Watch)

  /** The cases of a select; Go is a step that has no choice to make. */
  datatype Choice = OnContext | OnPause | OnTimer | Go

  /** `ok` is what a callback in the step returns. */
  datatype Action = Tick(d: nat) | Pause | Resume | Stop | Run(choice: Choice, ok: bool)

  predicate Done(k: Contexts, c: Ctx) {
    c in k.cancelled || (c.OfRun? && k.runDone)
  }

  function NewContext(k: Contexts): Contexts {
    k.(nextId := k.nextId + 1)
  }

  function Cancel(k: Contexts, c: Ctx): Contexts {
    if c.NoCtx? then k else k.(cancelled := k.cancelled + {c})
  }

  predicate Fired(t: Timer, now: int) {
    t.At? && t.deadline <= now
  }

  function Duration(cfg: Config, inBreak: bool): int {
    if inBreak then cfg.breakDuration else cfg.roundDuration
  }

  /** The engine right after Start, or after a Resume that the manager had to make it for, with the round that
      the database had stored: Run is about to be scheduled, and a first round has been announced if none
      was stored. */
  function Init(now: nat, stored: nat): Machine {
    Machine(now, Clock(false, false, 0, 0, 0, 0, NoCtx),
            Engine(if stored == 0 then 1 else stored, true, if stored == 0 then "running" else "preparation",
                   RunContext),
            Locals(Boot, Idle, NoCtx, NoCtx, 0, 0), Contexts({}, 0, false),
            if stored == 0 then [Started(1)] else [], Watch(0, false, false))
  }

  function EnginePause(m: Machine): Machine {
    if !m.engine.running then m
    else m.(clock := PauseClock(m.clock, m.now),
            contexts := Cancel(m.contexts, if m.clock.paused then NoCtx else m.clock.pauseCtx),
            engine := m.engine.(running := false, phase := "break"))
  }

  function EngineResume(m: Machine): Machine {
    if m.engine.running then m
    else
      var ctx := OfResume(m.contexts.nextId);
      m.(clock := ResumeClock(m.clock, m.now, ctx),
         contexts := NewContext(m.contexts),
         engine := m.engine.(running := true, target := ResumeContext(ctx)))
  }

  function EngineStop(m: Machine): Machine {
    m.(engine := m.engine.(running := false, phase := "finished"),
       watch := m.watch.(stopped := true),
       contexts := match m.engine.target
                   case RunContext => m.contexts.(runDone := true)
                   case ResumeContext(ctx) => Cancel(m.contexts, ctx))
  }

  /** A select over ctx.Done, the held pause context and the timer of the phase. */
  function Select(g: Locals, now: int, k: Contexts, choice: Choice, paused: Site, over: Site): Locals {
    if choice == OnContext && k.runDone then g.(pc := Exited)
    else if choice == OnPause && Done(k, g.heldCtx) then g.(timer := Idle, pc := WaitCheck(paused))
    else if choice == OnTimer && Fired(g.timer, now) then g.(timer := Idle, pc := WaitCheck(over))
    else g
  }

  function AfterWait(site: Site): Pc {
    match site
    case MidRound => ReadRound
    case RoundOver => EndRound
    case MidBreak => ReadBreak
    case BreakOver => StartMark
  }

  /** The steps of Run that read the shared state but change only its local variables. */
  function LocalStep(cfg: Config, g: Locals, c: Clock, now: int, k: Contexts, choice: Choice): Locals {
    match g.pc
    case BootTimer => g.(timer := At(now + cfg.roundDuration), pc := LoopTop)
    case LoopTop => g.(heldCtx := c.pauseCtx, pc := RoundSelect)
    case RoundSelect => Select(g, now, k, choice, MidRound, RoundOver)
    case WaitCheck(site) =>
      if !c.paused then g.(pc := AfterWait(site))
      else g.(waitCtx := c.pauseCtx, pollAt := now + POLL, pc := WaitPoll(site))
    case WaitPoll(site) =>
      if choice == OnContext && k.runDone then g.(pc := Exited)
      else if choice == OnPause && Done(k, g.waitCtx) then g.(pc := WaitRenew(site))
      else if choice == OnTimer && g.pollAt <= now then g.(pc := WaitCheck(site))
      else g
    case ReadRound => g.(loaded := c.remainingRound, pc := RearmRound)
    case RearmRound => g.(timer := if g.loaded > 0 then At(now + g.loaded) else Idle, pc := LoopTop)
    case ArmBreak => g.(timer := At(now + cfg.breakDuration), pc := BreakSelect)
    case BreakSelect => Select(g, now, k, choice, MidBreak, BreakOver)
    case ReadBreak => g.(loaded := c.remainingBreak, heldCtx := c.pauseCtx, pc := RearmBreak)
    case RearmBreak =>
      if g.loaded > 0 then g.(timer := At(now + g.loaded), pc := BreakSelect)
      else g.(pc := WaitCheck(BreakOver))
    case ArmRound => g.(timer := At(now + cfg.roundDuration), pc := LoopTop)
    case _ => g
  }

  /** The steps of Run that change what it shares with the engine. */
  function SharedStep(cfg: Config, m: Machine): Machine {
    match m.go.pc
    case Boot =>
      m.(clock := BootClock(m.clock, m.now, OfRun(m.contexts.nextId)),
         contexts := NewContext(m.contexts),
         watch := m.watch.(active := 0, spent := false), go := m.go.(pc := BootDuration))
    case BootDuration =>
      m.(clock := InitRemainingClock(m.clock, cfg.roundDuration), go := m.go.(pc := BootTimer))
    case WaitRenew(site) =>
      m.(clock := RenewClock(m.clock, OfRun(m.contexts.nextId)),
         contexts := NewContext(m.contexts), go := m.go.(pc := WaitCheck(site)))
    case EndRound =>
      m.(trace := m.trace + [Ended(m.engine.currentRound)],
         engine := m.engine.(phase := "scoring"), go := m.go.(pc := Decide))
    case Decide =>
      if m.engine.currentRound >= cfg.totalRounds then
        m.(engine := m.engine.(phase := "finished"), go := m.go.(pc := FinishGame))
      else m.(engine := m.engine.(phase := "break"), go := m.go.(pc := EnterBreak))
    case FinishGame =>
      m.(trace := m.trace + [Finished],
         engine := m.engine.(running := false, phase := "finished"), go := m.go.(pc := Exited))
    case EnterBreak =>
      m.(clock := BeginBreakClock(m.clock, m.now, cfg.breakDuration),
         watch := m.watch.(active := 0, spent := false),
         go := m.go.(heldCtx := m.clock.pauseCtx, pc := ArmBreak))
    case StartMark =>
      m.(clock := BeginRoundClock(m.clock, m.now), watch := m.watch.(active := 0, spent := false),
         go := m.go.(pc := StartRound))
    case StartRound =>
      var round := m.engine.currentRound + 1;
      m.(trace := m.trace + [Started(round)],
         engine := m.engine.(currentRound := round, phase := "running"), go := m.go.(pc := SetRemaining))
    case SetRemaining =>
      m.(clock := SetRemainingClock(m.clock, cfg.roundDuration), go := m.go.(pc := ArmRound))
    case _ => m
  }

  predicate IsShared(pc: Pc) {
    pc.Boot? || pc.BootDuration? || pc.WaitRenew? || pc.EndRound? || pc.Decide? || pc.FinishGame?
    || pc.EnterBreak? || pc.StartMark? || pc.StartRound? || pc.SetRemaining?
  }

  function RunStep(cfg: Config, m: Machine, choice: Choice): Machine {
    if IsShared(m.go.pc) then SharedStep(cfg, m)
    else m.(go := LocalStep(cfg, m.go, m.clock, m.now, m.contexts, choice))
  }

  function Act(cfg: Config, m: Machine, a: Action): Machine {
    match a
    case Tick(d) =>
      m.(now := m.now + d,
         watch := m.watch.(active := m.watch.active + if m.clock.paused then 0 else d))
    case Pause => EnginePause(m)
    case Resume => EngineResume(m)
    case Stop => EngineStop(m)
    case Run(choice, _) => RunStep(cfg, m, choice)
  }

  /** The observer notes a phase that stands paused with its duration already run. */
  function Observe(cfg: Config, m: Machine): Machine {
    m.(watch := m.watch.(spent := m.watch.spent ||
                         (m.clock.paused && m.watch.active >= Duration(cfg, m.clock.inBreak))))
  }

  function Next(cfg: Config, m: Machine, a: Action): Machine {
    Observe(cfg, Act(cfg, m, a))
  }

  function Exec(cfg: Config, m: Machine, acts: seq<Action>): Machine
    decreases |acts|
  {
    if acts == [] then m else Exec(cfg, Next(cfg, m, acts[0]), acts[1..])
  }

  /** Run has nothing to do for the next `d`: it is in a select none of whose cases is ready, and
      no timer it waits for goes off before `d` has passed. */
  predicate CanWait(m: Machine, d: nat) {
    match m.go.pc
    case RoundSelect | BreakSelect =>
      !m.contexts.runDone && !Done(m.contexts, m.go.heldCtx) && (m.go.timer.At? ==> m.now + d <= m.go.timer.deadline)
    case WaitPoll(_) =>
      !m.contexts.runDone && !Done(m.contexts, m.go.waitCtx) && m.now + d <= m.go.pollAt
    case Exited => true
    case _ => false
  }

  predicate Prompt(m: Machine, a: Action) {
    a.Tick? && a.d > 0 ==> CanWait(m, a.d)
  }

  predicate PromptRun(cfg: Config, m: Machine, acts: seq<Action>)
    decreases |acts|
  {
    acts == [] || (Prompt(m, acts[0]) && PromptRun(cfg, Next(cfg, m, acts[0]), acts[1..]))
  }

  lemma {:induction false} ExecAppend(cfg: Config, m: Machine, xs: seq<Action>, ys: seq<Action>)
    ensures Exec(cfg, m, xs + ys) == Exec(cfg, Exec(cfg, m, xs), ys)
    ensures PromptRun(cfg, m, xs + ys) <==> PromptRun(cfg, m, xs) && PromptRun(cfg, Exec(cfg, m, xs), ys)
    decreases |xs|
  {
    if xs == [] {
      assert xs + ys == ys;
    } else {
      assert (xs + ys)[1..] == xs[1..] + ys;
      ExecAppend(cfg, Next(cfg, m, xs[0]), xs[1..], ys);
    }
  }

  predicate RunCanMove(cfg: Config, m: Machine) {
    exists choice :: RunStep(cfg, m, choice).go.pc != m.go.pc
  }

  /** Promptness never wedges the machine and never lets Run dawdle: until Run has returned, either
      it has a step that moves it or the clock may advance, and never both. */
  lemma NeverWedged(cfg: Config, m: Machine)
    ensures m.go.pc.Exited? || (RunCanMove(cfg, m) <==> !CanWait(m, 1))
  {
    if !m.go.pc.Exited? && !CanWait(m, 1) {
      assert RunStep(cfg, m, Go).go.pc != m.go.pc || RunStep(cfg, m, OnContext).go.pc != m.go.pc
             || RunStep(cfg, m, OnPause).go.pc != m.go.pc || RunStep(cfg, m, OnTimer).go.pc != m.go.pc;
    }
  }
}
