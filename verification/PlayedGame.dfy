/** A game's row and engine together with the goroutine that plays it: requests to the service and steps of
    the scheduler in any order.  What the scheduler of a stopped engine can do to the next game, and what a lost
    process does to the round under way. */
module PlayedGame {
  import opened Lifecycle
  import opened LifecycleRuns
  import opened Options
  import opened SchedulerAfterStop
  import opened SchedulerLeftover
  import opened SchedulerTiming
  import M = SchedulerMachine
  import T = SchedulerTrace

  /** A game in the database, its engine as the service knows it, and its scheduler in full. */
  datatype Play = Play(view: View, machine: M.Machine)

  /** A request to the service, or a step of Run or the clock. */
  datatype Move = Asked(op: Op) | Inside(a: M.Action)

  /** The engine call that the service makes for a request. */
  function CallOf(v: View, op: Op): seq<M.Action> {
    if !Accepts(v, op) then []
    else
      match op
      case Pause => [M.Pause]
      case Resume(_) => [M.Resume]
      case _ => []
  }

  /** What a callback writes. */
  function CalledBack(v: View, was: seq<Callback>, trace: seq<Callback>): View {
    if |trace| <= |was| then v
    else
      match trace[|trace| - 1]
      case Started(round) => Step(v, RoundBegins(round))
      case Ended(_) => v
      case Finished => Step(v, GameFinishes)
  }

  /** What a stop at this moment would leave. */
  function LeftByStop(cfg: M.Config, m: M.Machine): seq<Callback> {
    Left(cfg, M.Next(cfg, m, M.Stop))
  }

  function Tracked(cfg: M.Config, v: View, m: M.Machine): Play {
    Play(Step(v, Moves(LeftByStop(cfg, m))), m)
  }

  function After(cfg: M.Config, p: Play, move: Move): Play {
    match move
    case Asked(op) => Tracked(cfg, Step(p.view, op), M.Exec(cfg, p.machine, CallOf(p.view, op)))
    case Inside(a) =>
      var m := M.Next(cfg, p.machine, a);
      Tracked(cfg, CalledBack(p.view, p.machine.trace, m.trace), m)
  }

  function PlayAll(cfg: M.Config, p: Play, moves: seq<Move>): Play {
    if moves == [] then p else After(cfg, PlayAll(cfg, p, moves[..|moves| - 1]), moves[|moves| - 1])
  }

  /** The game has just been given an engine: by a start, or by a resume of a paused game whose engine was lost. */
  predicate Begins(v: View, op: Op) {
    && v.row.Some? && v.engine.None? && v.row.value.round >= 0
    && match op
       case Start(created) => created && v.row.value.status == "draft"
       case Resume(created) => created && v.row.value.status == "paused"
       case _ => false
  }

  function FirstRound(v: View, op: Op): nat
    requires Begins(v, op)
  {
    if op.Start? then 0 else v.row.value.round
  }

  function Begun(cfg: M.Config, v: View, op: Op, now: nat): Play
    requires Begins(v, op)
  {
    Tracked(cfg, Step(v, op), M.Init(now, FirstRound(v, op)))
  }

  /** Requests other than a stop, accepted or not, and what the scheduler does by itself. */
  predicate Goes(move: Move) {
    match move
    case Asked(op) => op.Start? || op.Pause? || op.Resume? || op.Reset?
    case Inside(a) => ByItself(a)
  }

  ghost predicate AllGo(moves: seq<Move>) {
    forall i :: 0 <= i < |moves| ==> Goes(moves[i])
  }

  // ---------------------------------------------------------------- the two sides stay together

  /** What the service's view says of the scheduler is true. */
  ghost predicate Together(cfg: M.Config, p: Play) {
    && Agree(p.view) && p.view.row.Some? && p.view.engine.Some?
    && p.view.engine.value.running == p.machine.engine.running
    && p.view.row.value.round == p.view.engine.value.round == p.machine.engine.currentRound >= 1
    && p.view.engine.value.scheduler == Going(p.machine.engine.target.RunContext?, LeftByStop(cfg, p.machine))
  }

  lemma BegunTogether(cfg: M.Config, v: View, op: Op, now: nat)
    requires Begins(v, op)
    ensures Together(cfg, Begun(cfg, v, op, now)) && Begun(cfg, v, op, now).view.orphans == v.orphans
  {
    hide LeftByStop;
  }

  predicate CallFits(m: M.Machine, m': M.Machine, c: Callback) {
    match c
    case Started(r) => r == m'.engine.currentRound == m.engine.currentRound + 1
    case Ended(_) => m'.engine.currentRound == m.engine.currentRound
    case Finished => m'.go.pc.Exited?
  }

  /** The engine's flag and its cancel function change with engine calls only, until Run returns. */
  lemma InsideKeeps(cfg: M.Config, m: M.Machine, a: M.Action)
    requires ByItself(a)
    ensures var m' := M.Next(cfg, m, a);
            && m'.engine.target == m.engine.target
            && (!m'.go.pc.Exited? ==> m'.engine.running == m.engine.running && !m.go.pc.Exited?)
            && ((m'.trace == m.trace && m'.engine.currentRound == m.engine.currentRound)
                || exists c :: m'.trace == m.trace + [c] && CallFits(m, m', c))
  {
  }

  /** What the callbacks write agrees with what the scheduler does. */
  lemma CalledTogether(v: View, m: M.Machine, m': M.Machine)
    requires Agree(v) && v.row.Some? && v.engine.Some? && v.engine.value.scheduler.Going?
    requires v.row.value.round == v.engine.value.round == m.engine.currentRound >= 1
    requires !m'.go.pc.Exited?
    requires (m'.trace == m.trace && m'.engine.currentRound == m.engine.currentRound)
             || exists c :: m'.trace == m.trace + [c] && CallFits(m, m', c)
    ensures var w := CalledBack(v, m.trace, m'.trace);
            && Agree(w) && w.row.Some? && w.engine.Some? && w.orphans == v.orphans
            && w.engine.value.running == v.engine.value.running
            && w.engine.value.scheduler == v.engine.value.scheduler
            && w.row.value.round == w.engine.value.round == m'.engine.currentRound >= 1
  {
  }

  /** What holds of a view and a scheduler before the view is told what a stop would leave. */
  predicate Matches(v: View, m: M.Machine) {
    && v.row.Some? && v.engine.Some?
    && v.engine.value.running == m.engine.running
    && v.row.value.round == v.engine.value.round == m.engine.currentRound >= 1
    && v.engine.value.scheduler.Going? && v.engine.value.scheduler.inReach == m.engine.target.RunContext?
  }

  lemma TrackedTogether(cfg: M.Config, v: View, m: M.Machine)
    requires Agree(v) && Matches(v, m)
    ensures Together(cfg, Tracked(cfg, v, m)) && Tracked(cfg, v, m).view.orphans == v.orphans
  {
    hide LeftByStop;
  }

  lemma InsideTogether(cfg: M.Config, p: Play, a: M.Action)
    requires Together(cfg, p) && Goes(Inside(a)) && !After(cfg, p, Inside(a)).machine.go.pc.Exited?
    ensures Together(cfg, After(cfg, p, Inside(a))) && After(cfg, p, Inside(a)).view.orphans == p.view.orphans
  {
    hide LeftByStop, M.Next, CalledBack, CallFits, Step, Agree;
    var m' := M.Next(cfg, p.machine, a);
    InsideKeeps(cfg, p.machine, a);
    CalledTogether(p.view, p.machine, m');
    TrackedTogether(cfg, CalledBack(p.view, p.machine.trace, m'.trace), m');
  }

  lemma CallKeeps(cfg: M.Config, m: M.Machine)
    ensures var m' := M.Next(cfg, m, M.Pause);
            && !m'.engine.running && m'.engine.target == m.engine.target
            && m'.engine.currentRound == m.engine.currentRound && (m'.go.pc.Exited? <==> m.go.pc.Exited?)
    ensures var m' := M.Next(cfg, m, M.Resume);
            && m'.engine.running && (!m.engine.running ==> m'.engine.target.ResumeContext?)
            && m'.engine.currentRound == m.engine.currentRound && (m'.go.pc.Exited? <==> m.go.pc.Exited?)
  {
  }

  lemma AskedTogether(cfg: M.Config, p: Play, op: Op)
    requires Together(cfg, p) && Goes(Asked(op))
    ensures var q := After(cfg, p, Asked(op));
            && Together(cfg, q) && q.view.orphans == p.view.orphans
            && (q.machine.go.pc.Exited? <==> p.machine.go.pc.Exited?)
  {
    CallKeeps(cfg, p.machine);
    var call := CallOf(p.view, op);
    if call != [] { ExecOne(cfg, p.machine, call[0]); }
    hide LeftByStop, M.Next, M.Exec, Tracked;
    TrackedTogether(cfg, Step(p.view, op), M.Exec(cfg, p.machine, call));
  }

  /** However requests and steps interleave, the service's view of the scheduler stays true until Run returns. */
  lemma {:induction false} PlayTogether(cfg: M.Config, v: View, op: Op, now: nat, moves: seq<Move>)
    requires Begins(v, op) && AllGo(moves)
    requires !PlayAll(cfg, Begun(cfg, v, op, now), moves).machine.go.pc.Exited?
    ensures var p := PlayAll(cfg, Begun(cfg, v, op, now), moves);
            Together(cfg, p) && p.view.orphans == v.orphans
    decreases |moves|
  {
    hide Together, After, Begun, Goes;
    if moves == [] {
      BegunTogether(cfg, v, op, now);
    } else {
      var init, last := moves[..|moves| - 1], moves[|moves| - 1];
      var p := PlayAll(cfg, Begun(cfg, v, op, now), init);
      assert Goes(last);
      if p.machine.go.pc.Exited? { ExitedStays(cfg, p, last); }
      PlayTogether(cfg, v, op, now, init);
      match last
      case Asked(request) => AskedTogether(cfg, p, request);
      case Inside(a) => InsideTogether(cfg, p, a);
    }
  }

  lemma ExitedStays(cfg: M.Config, p: Play, move: Move)
    requires p.machine.go.pc.Exited?
    ensures After(cfg, p, move).machine.go.pc.Exited?
  {
    match move
    case Asked(op) =>
      var call := CallOf(p.view, op);
      if call != [] {
        ExecOne(cfg, p.machine, call[0]);
        T.ExitedForGood(cfg, p.machine, call[0]);
      }
    case Inside(a) => T.ExitedForGood(cfg, p.machine, a);
  }

  /** The scheduler's part of a play. */
  function ActsOf(cfg: M.Config, p: Play, moves: seq<Move>): seq<M.Action> {
    if moves == [] then []
    else
      var init := moves[..|moves| - 1];
      ActsOf(cfg, p, init)
      + match moves[|moves| - 1]
        case Asked(op) => CallOf(PlayAll(cfg, p, init).view, op)
        case Inside(a) => [a]
  }

  lemma {:induction false} ActsRun(cfg: M.Config, p: Play, moves: seq<Move>)
    requires AllGo(moves)
    ensures PlayAll(cfg, p, moves).machine == M.Exec(cfg, p.machine, ActsOf(cfg, p, moves))
    ensures NoStop(ActsOf(cfg, p, moves))
    decreases |moves|
  {
    if moves != [] {
      var init, last := moves[..|moves| - 1], moves[|moves| - 1];
      var q := PlayAll(cfg, p, init);
      assert Goes(last);
      ActsRun(cfg, p, init);
      var acts := match last case Asked(op) => CallOf(q.view, op) case Inside(a) => [a];
      M.ExecAppend(cfg, p.machine, ActsOf(cfg, p, init), acts);
      if last.Inside? { ExecOne(cfg, q.machine, last.a); }
      hide M.Next, M.Exec, Step, LeftByStop;
    }
  }

  // ---------------------------------------------------------------- a stop, and the next game

  /** Left alone from here, the scheduler can finish the game in the database. */
  ghost predicate CanFinishGame(cfg: M.Config, s: M.Machine) {
    exists more :: Unattended(more) && M.PromptRun(cfg, s, more)
                   && FinishedSince(s.trace, M.Exec(cfg, s, more).trace)
  }

  predicate FinishedSince(was: seq<Callback>, trace: seq<Callback>) {
    |was| <= |trace| && M.Finished in trace[|was|..]
  }

  lemma CanFinishIff(cfg: M.Config, now: nat, stored: nat, acts: seq<M.Action>)
    requires NoStop(acts) && !M.Exec(cfg, M.Init(now, stored), acts).go.pc.Exited?
    ensures var s := M.Next(cfg, M.Exec(cfg, M.Init(now, stored), acts), M.Stop);
            CanFinishGame(cfg, s) <==> M.Finished in Left(cfg, s)
  {
    StopLeavesExactly(cfg, now, stored, acts);
    var s := M.Next(cfg, M.Exec(cfg, M.Init(now, stored), acts), M.Stop);
    hide M.Next, M.Exec, M.PromptRun, Left;
    if M.Finished in Left(cfg, s) {
      var more :| Unattended(more) && M.PromptRun(cfg, s, more) && M.Exec(cfg, s, more).trace == s.trace + Left(cfg, s);
      assert M.Exec(cfg, s, more).trace[|s.trace|..] == Left(cfg, s);
    }
    if more :| Unattended(more) && M.PromptRun(cfg, s, more) && FinishedSince(s.trace, M.Exec(cfg, s, more).trace) {
      var t := M.Exec(cfg, s, more).trace;
      assert t <= s.trace + Left(cfg, s);
      assert t[|s.trace|..] <= Left(cfg, s);
    }
  }

  /** Run goes on freely and has something left, or stands past the last round's timer. */
  predicate CanStillFinish(cfg: M.Config, s: M.Machine) {
    if ModeOf(s) == Free then Left(cfg, s) != []
    else
      || s.go.pc.FinishGame?
      || (s.engine.currentRound >= cfg.totalRounds
          && (s.go.pc.Decide? || s.go.pc.EndRound?
              || (RoundPc(s.go.pc) && ModeOf(s) != Polling
                  && RoundEnds(s))))
  }

  lemma FinishIff(cfg: M.Config, s: M.Machine)
    ensures cfg.roundDuration > 0 && cfg.breakDuration > 0 ==>
              (M.Finished in Left(cfg, s) <==> CanStillFinish(cfg, s))
  {
    hide Left, ModeOf, RoundEnds, RoundPc;
    if cfg.roundDuration > 0 && cfg.breakDuration > 0 {
      if ModeOf(s) == Free {
        FreeFinishesIff(cfg, s);
      } else {
        UnderWay(cfg, s);
      }
    }
  }

  /** The game is stopped, reset and started again. */
  function NextGame(v: View): View {
    Step(Step(Step(v, Stop), Reset), Start(true))
  }

  lemma StopThenStart(cfg: M.Config, p: Play)
    requires Together(cfg, p)
    ensures var left := LeftByStop(cfg, p.machine);
            var dropped := if p.machine.engine.target.RunContext? then Cancelled(left) else Adrift(left);
            var stopped, next := Step(p.view, Stop), NextGame(p.view);
            && Agree(stopped) && stopped.row.Some? && stopped.row.value.status == "finished"
            && Agree(next) && next.row.Some? && next.row.value.status == "running"
            && stopped.orphans == next.orphans == p.view.orphans + [dropped]
  {
    hide LeftByStop;
  }

  /** Take any play of a game, with any requests and any steps of its scheduler, that is then stopped, and the
      next game of the same id.  The first game's scheduler can end that game, in the database and while its engine
      plays on, if and only if, left alone, it can still come to its finish: for durations above zero, if it
      goes on freely and has something left, or stands past its last round's timer. */
  lemma OrphanEndsNewGame(cfg: M.Config, v: View, op: Op, now: nat, moves: seq<Move>)
    requires Begins(v, op) && AllGo(moves)
    requires !PlayAll(cfg, Begun(cfg, v, op, now), moves).machine.go.pc.Exited?
    ensures var p := PlayAll(cfg, Begun(cfg, v, op, now), moves);
            var s, next, i := M.Next(cfg, p.machine, M.Stop), NextGame(p.view), |v.orphans|;
            && Agree(next) && next.row.Some? && next.row.value.status == "running"
            && |next.orphans| == i + 1 && next.orphans[..i] == v.orphans
            && (next.orphans[i].Adrift? <==> p.machine.engine.target.ResumeContext?)
            && ((exists k: nat :: k <= |Left(cfg, s)| && EndedBehind(Calls(next, i, k))) <==> CanFinishGame(cfg, s))
            && (cfg.roundDuration > 0 && cfg.breakDuration > 0 ==>
                  (CanFinishGame(cfg, s) <==> CanStillFinish(cfg, s)))
  {
    var start := Begun(cfg, v, op, now);
    var p := PlayAll(cfg, start, moves);
    var s := M.Next(cfg, p.machine, M.Stop);
    PlayTogether(cfg, v, op, now, moves);
    ActsRun(cfg, start, moves);
    CanFinishIff(cfg, now, FirstRound(v, op), ActsOf(cfg, start, moves));
    FinishIff(cfg, s);
    StopThenStart(cfg, p);
    hide Step, Calls, CanStillFinish, Left, M.Next, M.Exec, CanFinishGame, PlayAll, ActsOf, NextGame, Together, Begins;
    OrphanEndsGameIff(NextGame(p.view), |v.orphans|);
  }

  // ---------------------------------------------------------------- a lost process

  /** The process is lost; the service, which finds a running game, pauses it, so that it can be resumed. */
  function Recovered(v: View): View {
    var w := Step(v, Crash);
    if Accepts(w, Pause) then Step(w, Pause) else w
  }

  lemma RecoveredBegins(cfg: M.Config, p: Play)
    requires Together(cfg, p)
    ensures var w := Recovered(p.view);
            Begins(w, Resume(true)) && FirstRound(w, Resume(true)) == p.machine.engine.currentRound
  {
  }

  lemma FirstCallEndsRound(cfg: M.Config, later: nat, r: nat) returns (acts: seq<M.Action>)
    requires r >= 1
    ensures M.Exec(cfg, M.Init(later, r), acts).trace != []
    ensures M.Exec(cfg, M.Init(later, r), acts).trace[0] == M.Ended(r)
  {
    var m, n := M.Init(later, r), T.LastRound(cfg, r);
    FreeFinishes(cfg, r);
    assert M.Finished in Left(cfg, m);
    acts := AllLeftCanHappen(cfg, m);
    T.CallbacksFollowScript(cfg, later, r, acts);
    var told, t := T.Told(r), M.Exec(cfg, m, acts).trace;
    T.RoundsPrefix(r, n);
    hide M.Exec, Left;
    assert told + [M.Ended(r)] == T.Rounds(r);
    assert T.Rounds(r) <= T.Script(n);
    assert (told + t)[|told|] == T.Script(n)[|told|] == T.Rounds(r)[|told|];
  }

  lemma EndedTwice(cfg: M.Config, r: nat, t: seq<Callback>)
    requires 1 <= r && t != [] && t[0] == M.Ended(r)
    ensures !(T.Rounds(r) + t <= T.Script(T.LastRound(cfg, r)))
  {
    var n := T.LastRound(cfg, r);
    T.RoundsPrefix(r, n);
    var rounds := T.Rounds(r);
    assert T.Script(n) == T.Rounds(n) + [M.Finished];
    if r < n {
      assert T.Rounds(n)[|rounds|] == (rounds + [M.Started(r + 1)])[|rounds|];
    }
    assert T.Script(n)[|rounds|] != M.Ended(r) && (rounds + t)[|rounds|] == M.Ended(r);
  }

  /** The same for the machine alone: what is called back before and after. */
  lemma GoesOnIff(cfg: M.Config, stored: nat, m: M.Machine, later: nat)
    requires T.OnScript(cfg, stored, m) && !m.go.pc.Exited?
    ensures var before, script := T.Told(stored) + m.trace, T.Script(T.LastRound(cfg, stored));
            (forall acts :: before + M.Exec(cfg, M.Init(later, m.engine.currentRound), acts).trace <= script)
            <==> T.Stage(m.go.pc) == 3
  {
    var r: nat := m.engine.currentRound;
    var before, script := T.Told(stored) + m.trace, T.Script(T.LastRound(cfg, stored));
    assert T.LastRound(cfg, r) == T.LastRound(cfg, stored);
    if T.Stage(m.go.pc) == 3 {
      assert before == T.Told(r);
      forall acts ensures before + M.Exec(cfg, M.Init(later, r), acts).trace <= script {
        T.CallbacksFollowScript(cfg, later, r, acts);
      }
    } else {
      assert before == T.Rounds(r);
      var acts := FirstCallEndsRound(cfg, later, r);
      EndedTwice(cfg, r, M.Exec(cfg, M.Init(later, r), acts).trace);
    }
    hide M.Exec, M.Init, T.Script, T.Rounds;
  }

  /** Nothing but the stored round survives a lost process.  The callbacks before and after are those of one game,
      however it goes on, exactly if the round was under way at the loss: if it had ended, it is played and
      scored again. */
  lemma CrashReplaysIff(cfg: M.Config, v: View, op: Op, now: nat, moves: seq<Move>, later: nat)
    requires Begins(v, op) && AllGo(moves)
    requires !PlayAll(cfg, Begun(cfg, v, op, now), moves).machine.go.pc.Exited?
    ensures var p := PlayAll(cfg, Begun(cfg, v, op, now), moves);
            var before, w := T.Told(FirstRound(v, op)) + p.machine.trace, Recovered(p.view);
            && Begins(w, Resume(true))
            && var m := Begun(cfg, w, Resume(true), later).machine;
               (forall acts :: before + M.Exec(cfg, m, acts).trace <= T.Script(T.LastRound(cfg, FirstRound(v, op))))
               <==> T.Stage(p.machine.go.pc) == 3
  {
    var start := Begun(cfg, v, op, now);
    var p := PlayAll(cfg, start, moves);
    var stored := FirstRound(v, op);
    PlayTogether(cfg, v, op, now, moves);
    ActsRun(cfg, start, moves);
    T.InitOnScript(cfg, now, stored);
    T.RunOnScript(cfg, stored, M.Init(now, stored), ActsOf(cfg, start, moves));
    RecoveredBegins(cfg, p);
    GoesOnIff(cfg, stored, p.machine, later);
    hide PlayAll, ActsOf, M.Exec, M.Init, Together, Recovered, Begins, Step, T.LastRound, T.Script, T.OnScript, T.Stage;
  }
}
