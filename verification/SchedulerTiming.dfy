/** How long rounds and breaks last, in unpaused time, when a goroutine that has something to do is
    not kept waiting (Prompt) and Run's first section came before the first Pause. */
module SchedulerTiming {
  import opened RoundScheduler
  import opened SchedulerMachine
  import SchedulerTrace

  function Remaining(c: Clock): int {
    if c.inBreak then c.remainingBreak else c.remainingRound
  }

  function RunningSince(c: Clock): int {
    if c.inBreak then c.breakStart else c.roundStart
  }

  /** What the code's own fields say is left of the phase at this moment. */
  function Credit(m: Machine): int {
    if m.clock.paused then Remaining(m.clock)
    else Remaining(m.clock) - (m.now - RunningSince(m.clock))
  }

  function Length(cfg: Config, m: Machine): int {
    Duration(cfg, m.clock.inBreak)
  }

  predicate Waiting(pc: Pc) {
    pc.WaitCheck? || pc.WaitPoll? || pc.WaitRenew?
  }

  predicate AtSite(pc: Pc, a: Site, b: Site) {
    Waiting(pc) && (pc.site == a || pc.site == b)
  }

  predicate InBreakPc(pc: Pc) {
    pc.ArmBreak? || pc.BreakSelect? || pc.ReadBreak? || pc.RearmBreak? || pc.StartMark?
    || AtSite(pc, MidBreak, BreakOver)
  }

  /** The phase has begun but its remaining time is not stored yet. */
  predicate Opening(pc: Pc) {
    pc.BootDuration? || pc.StartRound? || pc.SetRemaining?
  }

  predicate BetweenPhases(pc: Pc) {
    pc.Boot? || pc.Decide? || pc.FinishGame? || pc.EnterBreak? || pc.Exited?
  }

  predicate InPhase(pc: Pc) {
    !Opening(pc) && !BetweenPhases(pc)
  }

  predicate Arming(pc: Pc) {
    pc.BootTimer? || pc.ArmRound? || pc.ArmBreak?
  }

  predicate Selecting(pc: Pc) {
    pc.RoundSelect? || pc.BreakSelect?
  }

  predicate Armed(pc: Pc) {
    pc.LoopTop? || Selecting(pc)
  }

  /** The phase is over as far as Run is concerned; only a pause can still hold it up. */
  predicate Ending(pc: Pc) {
    pc.EndRound? || pc.StartMark? || AtSite(pc, RoundOver, BreakOver)
  }

  predicate Holding(pc: Pc) {
    pc.RoundSelect? || pc.ArmBreak? || pc.BreakSelect? || pc.RearmBreak?
  }

  predicate Issued(c: Ctx, next: nat) {
    match c case NoCtx => false case OfRun(id) => id < next case OfResume(id) => id < next
  }

  /** A pause is always visible in the context that Run selects on. */
  ghost predicate ContextsOk(m: Machine) {
    var k, c, pc := m.contexts, m.clock, m.go.pc;
    && Issued(c.pauseCtx, k.nextId)
    && (forall x :: x in k.cancelled ==> Issued(x, k.nextId))
    && (m.engine.target.ResumeContext? ==> Issued(m.engine.target.ctx, k.nextId))
    && (k.runDone ==> m.watch.stopped)
    && (!Waiting(pc) && c.paused ==> Done(k, c.pauseCtx))
    && (!m.watch.stopped && Done(k, c.pauseCtx) ==> c.paused)
    && (Holding(pc) && !Done(k, m.go.heldCtx) ==> m.go.heldCtx == c.pauseCtx)
    && (Holding(pc) && !m.watch.stopped && !c.paused && Done(k, m.go.heldCtx) ==> m.now == RunningSince(c))
  }

  /** The stored remaining time agrees with the observer's stopwatch. */
  ghost predicate BooksOk(cfg: Config, m: Machine) {
    var w, pc, len := m.watch, m.go.pc, Length(cfg, m);
    && m.clock.roundStart <= m.now && RunningSince(m.clock) <= m.now
    && 0 <= w.active
    && (m.clock.inBreak <==> InBreakPc(pc))
    && (Opening(pc) || Arming(pc) ==> w.active == 0)
    && (Opening(pc) ==> (!m.clock.paused ==> m.now == m.clock.roundStart) && (w.spent ==> len <= 0))
    && (!BetweenPhases(pc) && m.clock.paused && w.active >= len ==> w.spent)
    && (InPhase(pc) && !w.spent ==> Credit(m) == len - w.active)
    && (InPhase(pc) && w.spent ==> w.active >= len && Remaining(m.clock) <= 0)
  }

  /** No timer is set to go off before the phase has run its length. */
  ghost predicate NotEarly(cfg: Config, m: Machine) {
    var w, g, len := m.watch, m.go, Length(cfg, m);
    && (Armed(g.pc) && g.timer.At? ==> w.active + (g.timer.deadline - m.now) >= len)
    && (g.pc.RearmRound? || g.pc.RearmBreak? ==>
          (g.loaded > 0 ==> w.active + g.loaded >= len) && (g.loaded <= 0 ==> w.active >= len))
    && (Ending(g.pc) ==> w.active >= len)
  }

  ghost predicate Sound(cfg: Config, m: Machine) {
    ContextsOk(m) && BooksOk(cfg, m) && NotEarly(cfg, m)
  }

  lemma TickSound(cfg: Config, m: Machine, d: nat)
    requires Sound(cfg, m) && !m.go.pc.Boot? && !m.go.pc.Exited? && Prompt(m, Tick(d))
    ensures Sound(cfg, Next(cfg, m, Tick(d)))
  {
  }

  lemma PauseSound(cfg: Config, m: Machine)
    requires Sound(cfg, m) && !m.go.pc.Boot? && !m.go.pc.Exited?
    ensures Sound(cfg, Next(cfg, m, Pause))
  {
  }

  lemma ResumeContexts(cfg: Config, m: Machine)
    requires ContextsOk(m) && !m.go.pc.Boot? && !m.go.pc.Exited?
    requires m.clock.inBreak <==> InBreakPc(m.go.pc)
    ensures ContextsOk(Next(cfg, m, Resume))
  {
  }

  lemma ResumeBooks(cfg: Config, m: Machine)
    requires BooksOk(cfg, m) && NotEarly(cfg, m) && !m.go.pc.Boot? && !m.go.pc.Exited?
    ensures BooksOk(cfg, Next(cfg, m, Resume)) && NotEarly(cfg, Next(cfg, m, Resume))
  {
  }

  lemma ResumeSound(cfg: Config, m: Machine)
    requires Sound(cfg, m) && !m.go.pc.Boot? && !m.go.pc.Exited?
    ensures Sound(cfg, Next(cfg, m, Resume))
  {
    hide Next;
    ResumeContexts(cfg, m);
    ResumeBooks(cfg, m);
  }

  lemma StopSound(cfg: Config, m: Machine)
    requires Sound(cfg, m) && !m.go.pc.Boot? && !m.go.pc.Exited?
    ensures Sound(cfg, Next(cfg, m, Stop))
  {
  }

  /** The steps with which a round is opened. */
  predicate OpeningRound(pc: Pc) {
    pc.BootDuration? || pc.StartRound? || pc.SetRemaining?
  }

  lemma OpenContexts(cfg: Config, m: Machine, choice: Choice, ok: bool)
    requires Sound(cfg, m) && OpeningRound(m.go.pc)
    ensures ContextsOk(Next(cfg, m, Run(choice, ok)))
  {
  }

  lemma OpenBooks(cfg: Config, m: Machine, choice: Choice, ok: bool)
    requires Sound(cfg, m) && OpeningRound(m.go.pc)
    ensures (BooksOk(cfg, Next(cfg, m, Run(choice, ok))) && NotEarly(cfg, Next(cfg, m, Run(choice, ok))))
  {
  }

  lemma OpenSound(cfg: Config, m: Machine, choice: Choice, ok: bool)
    requires Sound(cfg, m) && OpeningRound(m.go.pc)
    ensures Sound(cfg, Next(cfg, m, Run(choice, ok)))
  {
    hide Next, ContextsOk, BooksOk, NotEarly;
    OpenContexts(cfg, m, choice, ok);
    OpenBooks(cfg, m, choice, ok);
  }

  lemma RenewContexts(cfg: Config, m: Machine, choice: Choice, ok: bool)
    requires Sound(cfg, m) && m.go.pc.WaitRenew?
    ensures ContextsOk(Next(cfg, m, Run(choice, ok)))
  {
  }

  lemma RenewBooks(cfg: Config, m: Machine, choice: Choice, ok: bool)
    requires Sound(cfg, m) && m.go.pc.WaitRenew?
    ensures (BooksOk(cfg, Next(cfg, m, Run(choice, ok))) && NotEarly(cfg, Next(cfg, m, Run(choice, ok))))
  {
  }

  lemma RenewSound(cfg: Config, m: Machine, choice: Choice, ok: bool)
    requires Sound(cfg, m) && m.go.pc.WaitRenew?
    ensures Sound(cfg, Next(cfg, m, Run(choice, ok)))
  {
    hide Next, ContextsOk, BooksOk, NotEarly;
    RenewContexts(cfg, m, choice, ok);
    RenewBooks(cfg, m, choice, ok);
  }

  lemma TurnContexts(cfg: Config, m: Machine, choice: Choice, ok: bool)
    requires Sound(cfg, m) && IsShared(m.go.pc) && !m.go.pc.Boot? && !OpeningRound(m.go.pc) && !m.go.pc.WaitRenew?
    ensures var m' := Next(cfg, m, Run(choice, ok)); m'.go.pc.Exited? || ContextsOk(m')
  {
  }

  lemma TurnBooks(cfg: Config, m: Machine, choice: Choice, ok: bool)
    requires Sound(cfg, m) && IsShared(m.go.pc) && !m.go.pc.Boot? && !OpeningRound(m.go.pc) && !m.go.pc.WaitRenew?
    ensures var m' := Next(cfg, m, Run(choice, ok)); m'.go.pc.Exited? || (BooksOk(cfg, m') && NotEarly(cfg, m'))
  {
  }

  lemma TurnSound(cfg: Config, m: Machine, choice: Choice, ok: bool)
    requires Sound(cfg, m) && IsShared(m.go.pc) && !m.go.pc.Boot? && !OpeningRound(m.go.pc) && !m.go.pc.WaitRenew?
    ensures var m' := Next(cfg, m, Run(choice, ok)); m'.go.pc.Exited? || Sound(cfg, m')
  {
    hide Next, ContextsOk, BooksOk, NotEarly;
    TurnContexts(cfg, m, choice, ok);
    TurnBooks(cfg, m, choice, ok);
  }

  lemma WaitSound(cfg: Config, m: Machine, choice: Choice, ok: bool)
    requires Sound(cfg, m) && Waiting(m.go.pc) && !IsShared(m.go.pc)
    ensures var m' := Next(cfg, m, Run(choice, ok)); m'.go.pc.Exited? || Sound(cfg, m')
  {
  }

  lemma SelectContexts(cfg: Config, m: Machine, choice: Choice, ok: bool)
    requires Sound(cfg, m) && Selecting(m.go.pc)
    ensures var m' := Next(cfg, m, Run(choice, ok)); m'.go.pc.Exited? || ContextsOk(m')
  {
  }

  lemma SelectRoundBooks(cfg: Config, m: Machine, choice: Choice, ok: bool)
    requires Sound(cfg, m) && Selecting(m.go.pc) && !InBreakPc(m.go.pc)
    ensures var m' := Next(cfg, m, Run(choice, ok)); m'.go.pc.Exited? || (BooksOk(cfg, m') && NotEarly(cfg, m'))
  {
  }

  lemma SelectBreakBooks(cfg: Config, m: Machine, choice: Choice, ok: bool)
    requires Sound(cfg, m) && Selecting(m.go.pc) && InBreakPc(m.go.pc)
    ensures var m' := Next(cfg, m, Run(choice, ok)); m'.go.pc.Exited? || (BooksOk(cfg, m') && NotEarly(cfg, m'))
  {
  }

  lemma SelectSound(cfg: Config, m: Machine, choice: Choice, ok: bool)
    requires Sound(cfg, m) && Selecting(m.go.pc)
    ensures var m' := Next(cfg, m, Run(choice, ok)); m'.go.pc.Exited? || Sound(cfg, m')
  {
    hide Next, ContextsOk, BooksOk, NotEarly;
    SelectContexts(cfg, m, choice, ok);
    if InBreakPc(m.go.pc) { SelectBreakBooks(cfg, m, choice, ok); } else { SelectRoundBooks(cfg, m, choice, ok); }
  }

  lemma ArmRoundSound(cfg: Config, m: Machine, choice: Choice, ok: bool)
    requires Sound(cfg, m) && !IsShared(m.go.pc) && !Waiting(m.go.pc) && !Selecting(m.go.pc)
    requires !InBreakPc(m.go.pc)
    ensures var m' := Next(cfg, m, Run(choice, ok)); m'.go.pc.Exited? || Sound(cfg, m')
  {
  }

  lemma ArmBreakSound(cfg: Config, m: Machine, choice: Choice, ok: bool)
    requires Sound(cfg, m) && !IsShared(m.go.pc) && !Waiting(m.go.pc) && !Selecting(m.go.pc)
    requires InBreakPc(m.go.pc)
    ensures var m' := Next(cfg, m, Run(choice, ok)); m'.go.pc.Exited? || Sound(cfg, m')
  {
  }

  lemma StepSound(cfg: Config, m: Machine, a: Action)
    requires Sound(cfg, m) && !m.go.pc.Boot? && !m.go.pc.Exited? && Prompt(m, a)
    ensures var m' := Next(cfg, m, a); m'.go.pc.Exited? || Sound(cfg, m')
  {
    hide Next, Sound;
    match a {
      case Tick(d) => TickSound(cfg, m, d);
      case Pause => PauseSound(cfg, m);
      case Resume => ResumeSound(cfg, m);
      case Stop => StopSound(cfg, m);
      case Run(choice, ok) =>
        if OpeningRound(m.go.pc) { OpenSound(cfg, m, choice, ok); }
        else if m.go.pc.WaitRenew? { RenewSound(cfg, m, choice, ok); }
        else if IsShared(m.go.pc) { TurnSound(cfg, m, choice, ok); }
        else if Waiting(m.go.pc) { WaitSound(cfg, m, choice, ok); }
        else if Selecting(m.go.pc) { SelectSound(cfg, m, choice, ok); }
        else if InBreakPc(m.go.pc) { ArmBreakSound(cfg, m, choice, ok); }
        else { ArmRoundSound(cfg, m, choice, ok); }
    }
  }

  // ---------------------------------------------------------------- not late

  function Full(len: int): int {
    if len > 0 then len else 0
  }

  /** At most one poll late, as long as the phase was never paused with nothing left on it. */
  ghost predicate OnTime(cfg: Config, m: Machine) {
    var w, g, len := m.watch, m.go, Length(cfg, m);
    !w.spent && !w.stopped ==>
      && (Armed(g.pc) ==> g.timer.At? && w.active + (g.timer.deadline - m.now) <= Full(len) + POLL
                          && (m.now <= g.timer.deadline || w.active == 0))
      && (AtSite(g.pc, MidRound, MidBreak) || g.pc.ReadRound? || g.pc.ReadBreak? ==> Remaining(m.clock) > 0)
      && (Holding(g.pc) && Done(m.contexts, g.heldCtx) ==> Remaining(m.clock) > 0)
      && (g.pc.WaitPoll? || g.pc.WaitRenew? ==>
            && AtSite(g.pc, MidRound, MidBreak)
            && m.now <= g.pollAt <= m.now + POLL
            && (!m.clock.paused ==> g.pollAt <= RunningSince(m.clock) + POLL))
      && (AtSite(g.pc, MidRound, MidBreak) || g.pc.ReadRound? || g.pc.ReadBreak? ==>
            !m.clock.paused ==> m.now - RunningSince(m.clock) <= POLL)
      && (g.pc.RearmRound? || g.pc.RearmBreak? ==> g.loaded > 0 && w.active + g.loaded <= len + POLL)
      && (InPhase(g.pc) ==> w.active <= Full(len) + POLL)
  }

  lemma OthersOnTime(cfg: Config, m: Machine, a: Action)
    requires Sound(cfg, m) && OnTime(cfg, m) && !m.go.pc.Boot? && !m.go.pc.Exited? && Prompt(m, a)
    requires !a.Run?
    ensures OnTime(cfg, Next(cfg, m, a))
  {
  }

  lemma OpenOnTime(cfg: Config, m: Machine, choice: Choice, ok: bool)
    requires Sound(cfg, m) && OnTime(cfg, m) && OpeningRound(m.go.pc)
    ensures OnTime(cfg, Next(cfg, m, Run(choice, ok)))
  {
  }

  lemma TurnOnTime(cfg: Config, m: Machine, choice: Choice, ok: bool)
    requires Sound(cfg, m) && OnTime(cfg, m) && IsShared(m.go.pc) && !m.go.pc.Boot? && !OpeningRound(m.go.pc)
    ensures OnTime(cfg, Next(cfg, m, Run(choice, ok)))
  {
  }

  lemma WaitOnTime(cfg: Config, m: Machine, choice: Choice, ok: bool)
    requires Sound(cfg, m) && OnTime(cfg, m) && Waiting(m.go.pc) && !IsShared(m.go.pc)
    ensures OnTime(cfg, Next(cfg, m, Run(choice, ok)))
  {
  }

  lemma SelectOnTime(cfg: Config, m: Machine, choice: Choice, ok: bool)
    requires Sound(cfg, m) && OnTime(cfg, m) && Selecting(m.go.pc)
    ensures OnTime(cfg, Next(cfg, m, Run(choice, ok)))
  {
  }

  lemma ArmRoundOnTime(cfg: Config, m: Machine, choice: Choice, ok: bool)
    requires Sound(cfg, m) && OnTime(cfg, m) && !IsShared(m.go.pc) && !Waiting(m.go.pc) && !Selecting(m.go.pc)
    requires !InBreakPc(m.go.pc)
    ensures OnTime(cfg, Next(cfg, m, Run(choice, ok)))
  {
  }

  lemma ArmBreakOnTime(cfg: Config, m: Machine, choice: Choice, ok: bool)
    requires Sound(cfg, m) && OnTime(cfg, m) && !IsShared(m.go.pc) && !Waiting(m.go.pc) && !Selecting(m.go.pc)
    requires InBreakPc(m.go.pc)
    ensures OnTime(cfg, Next(cfg, m, Run(choice, ok)))
  {
  }

  lemma StepOnTime(cfg: Config, m: Machine, a: Action)
    requires Sound(cfg, m) && OnTime(cfg, m) && !m.go.pc.Boot? && !m.go.pc.Exited? && Prompt(m, a)
    ensures OnTime(cfg, Next(cfg, m, a))
  {
    hide Next, Sound, OnTime;
    if !a.Run? { OthersOnTime(cfg, m, a); }
    else if OpeningRound(m.go.pc) { OpenOnTime(cfg, m, a.choice, a.ok); }
    else if IsShared(m.go.pc) { TurnOnTime(cfg, m, a.choice, a.ok); }
    else if Waiting(m.go.pc) { WaitOnTime(cfg, m, a.choice, a.ok); }
    else if Selecting(m.go.pc) { SelectOnTime(cfg, m, a.choice, a.ok); }
    else if InBreakPc(m.go.pc) { ArmBreakOnTime(cfg, m, a.choice, a.ok); }
    else { ArmRoundOnTime(cfg, m, a.choice, a.ok); }
  }

  // ---------------------------------------------------------------- whole runs

  /** What can be said before Run's first critical section. */
  ghost predicate Unstarted(m: Machine) {
    && m.go.pc.Boot? && !m.clock.inBreak && m.watch.active == 0
    && (m.contexts.runDone ==> m.watch.stopped)
    && m.clock.roundStart <= m.now && m.clock.breakStart <= m.now
    && (forall x :: x in m.contexts.cancelled ==> Issued(x, m.contexts.nextId))
    && (m.clock.pauseCtx.NoCtx? || Issued(m.clock.pauseCtx, m.contexts.nextId))
    && (m.engine.target.ResumeContext? ==> Issued(m.engine.target.ctx, m.contexts.nextId))
    && (m.clock.paused ==> !m.engine.running)
  }

  ghost predicate Timed(cfg: Config, m: Machine) {
    m.go.pc.Exited? || (Sound(cfg, m) && OnTime(cfg, m))
  }

  lemma {:induction false} TimedRun(cfg: Config, m: Machine, acts: seq<Action>)
    requires Timed(cfg, m) && !m.go.pc.Boot? && PromptRun(cfg, m, acts)
    ensures Timed(cfg, Exec(cfg, m, acts)) && !Exec(cfg, m, acts).go.pc.Boot?
    decreases |acts|
  {
    hide Next, Sound, OnTime, Prompt;
    if acts != [] {
      var m1 := Next(cfg, m, acts[0]);
      if m.go.pc.Exited? {
        SchedulerTrace.ExitedForGood(cfg, m, acts[0]);
      } else {
        StepSound(cfg, m, acts[0]);
        StepOnTime(cfg, m, acts[0]);
        BootOnce(cfg, m, acts[0]);
      }
      TimedRun(cfg, m1, acts[1..]);
    }
  }

  lemma BootOnce(cfg: Config, m: Machine, a: Action)
    ensures m.go.pc.Boot? && !a.Run? <==> Next(cfg, m, a).go.pc.Boot?
  {
  }

  lemma BootTimed(cfg: Config, m: Machine, choice: Choice, ok: bool)
    requires Unstarted(m) && !m.clock.paused
    ensures Timed(cfg, Next(cfg, m, Run(choice, ok)))
  {
  }

  /** Until its first section, Run waits for no one and the clock stands still. */
  lemma UnstartedStep(cfg: Config, m: Machine, a: Action)
    requires Unstarted(m) && Prompt(m, a) && !a.Run?
    ensures Unstarted(Next(cfg, m, a))
  {
  }

  lemma {:induction false} UnstartedRun(cfg: Config, m: Machine, acts: seq<Action>)
    requires Unstarted(m) && PromptRun(cfg, m, acts) && forall a :: a in acts ==> !a.Run?
    ensures Unstarted(Exec(cfg, m, acts))
    decreases |acts|
  {
    hide Next, Unstarted, Prompt;
    if acts != [] {
      UnstartedStep(cfg, m, acts[0]);
      UnstartedRun(cfg, Next(cfg, m, acts[0]), acts[1..]);
    }
  }

  /** Every phase that ends has run its whole length unpaused; and one that was never paused with
      nothing left on it is never more than one poll past its length, however often it was paused,
      and a round of that kind always has its timer set. */
  ghost predicate KeepsTime(cfg: Config, m: Machine) {
    && (Ending(m.go.pc) ==> m.watch.active >= Length(cfg, m))
    && (InPhase(m.go.pc) && !m.watch.spent && !m.watch.stopped ==>
          && m.watch.active <= Full(Length(cfg, m)) + 100_000_000
          && (m.go.pc.RoundSelect? ==> m.go.timer.At?))
  }

  /** The engine calls in `before` come before Run's first section and leave it unpaused. */
  lemma PhasesKeepTime(cfg: Config, now: nat, stored: nat, before: seq<Action>, ok: bool, after: seq<Action>)
    requires PromptRun(cfg, Init(now, stored), before + [Run(Go, ok)] + after)
    requires forall a :: a in before ==> !a.Run?
    requires !Exec(cfg, Init(now, stored), before).clock.paused
    ensures KeepsTime(cfg, Exec(cfg, Init(now, stored), before + [Run(Go, ok)] + after))
  {
    var m := Exec(cfg, Init(now, stored), before);
    ExecAppend(cfg, Init(now, stored), before + [Run(Go, ok)], after);
    ExecAppend(cfg, Init(now, stored), before, [Run(Go, ok)]);
    UnstartedRun(cfg, Init(now, stored), before);
    KeepsTimeFromBoot(cfg, m, ok, after);
    ExecOne(cfg, m, Run(Go, ok));
  }

  lemma ExecOne(cfg: Config, m: Machine, a: Action)
    ensures Exec(cfg, m, [a]) == Next(cfg, m, a)
    ensures PromptRun(cfg, m, [a]) <==> Prompt(m, a)
  {
    hide Next, Prompt;
    assert [a][1..] == [];
    assert Exec(cfg, m, [a]) == Exec(cfg, Next(cfg, m, a), []);
  }

  lemma KeepsTimeFromBoot(cfg: Config, m: Machine, ok: bool, acts: seq<Action>)
    requires Unstarted(m) && !m.clock.paused
    requires PromptRun(cfg, Next(cfg, m, Run(Go, ok)), acts)
    ensures KeepsTime(cfg, Exec(cfg, Next(cfg, m, Run(Go, ok)), acts))
  {
    BootTimed(cfg, m, Go, ok);
    BootOnce(cfg, m, Run(Go, ok));
    TimedRun(cfg, Next(cfg, m, Run(Go, ok)), acts);
  }
}
