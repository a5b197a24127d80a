/** Runs of the lifecycle operations: when the stored status and the engine agree, what a natural finish
    leaves behind, and what the scheduler of a stopped engine can still do to the next game. */
module LifecycleRuns {
  import opened GameModel
  import opened Lifecycle
  import opened Options
  import opened Sums
  import SchedulerMachine

  function Run(v: View, ops: seq<Op>): View {
    if ops == [] then v else Step(Run(v, ops[..|ops| - 1]), ops[|ops| - 1])
  }

  // ---------------------------------------------------------------- agreement

  /** Status running means that there is an engine with running set, paused that there is one with it
      cleared, draft and finished that there is none; and an engine has a scheduler that is going. */
  ghost predicate Agree(v: View) {
    match v.row
    case None => v.engine == None
    case Some(r) =>
      && (r.status == "draft" || r.status == "running" || r.status == "paused" || r.status == "finished")
      && (r.status == "running" <==> v.engine.Some? && v.engine.value.running)
      && (r.status == "paused" <==> v.engine.Some? && !v.engine.value.running)
      && (r.status == "draft" || r.status == "finished" <==> v.engine.None?)
      && (r.status == "running" ==> r.phase == "running")
      && (v.engine.Some? ==> v.engine.value.scheduler.Going?)
  }

  /** The next callback of the orphan is the finish of the game. */
  predicate CallsFinish(v: View, op: Op) {
    op.OrphanCalls? && CanCall(v, op.i) && v.orphans[op.i].left[0].Finished?
  }

  /** The operation does not end the game behind the service's back. */
  predicate Harmless(v: View, op: Op) {
    v.engine.Some? ==> !op.GameFinishes? && !op.Crash? && !CallsFinish(v, op)
  }

  /** From agreement, exactly three things break it, each while the game has an engine: its own scheduler
      finishing the game, an orphan with the finish left calling it, and a crash. */
  lemma StepAgreesIff(v: View, op: Op)
    requires Agree(v)
    ensures Agree(Step(v, op)) <==> Harmless(v, op)
  {
  }

  ghost predicate AllHarmless(v: View, ops: seq<Op>) {
    forall i :: 0 <= i < |ops| ==> Harmless(Run(v, ops[..i]), ops[i])
  }

  lemma HarmlessInit(v: View, ops: seq<Op>)
    requires AllHarmless(v, ops) && ops != []
    ensures AllHarmless(v, ops[..|ops| - 1]) && Harmless(Run(v, ops[..|ops| - 1]), ops[|ops| - 1])
  {
    hide Harmless, Run;
    var init := ops[..|ops| - 1];
    assert forall i :: 0 <= i < |init| ==> init[..i] == ops[..i] && init[i] == ops[i];
  }

  lemma {:induction false} Agreement(v: View, ops: seq<Op>)
    requires Agree(v) && AllHarmless(v, ops)
    ensures Agree(Run(v, ops))
    decreases |ops|
  {
    hide Step, Agree, AllHarmless, Harmless;
    if ops != [] {
      HarmlessInit(v, ops);
      Agreement(v, ops[..|ops| - 1]);
      StepAgreesIff(Run(v, ops[..|ops| - 1]), ops[|ops| - 1]);
    }
  }

  /** An operation that is refused changes nothing, except that a start without an engine writes the phase
      of a draft. */
  lemma RefusedChangesNothing(v: View, op: Op)
    requires !Accepts(v, op) && (op.Start? || op.Pause? || op.Resume? || op.Stop? || op.Reset?)
    ensures Step(v, op) == v
            || (op == Start(false) && v.row.Some? && CanStart(v.row.value.status)
                && Step(v, op) == v.(row := Stored(v.row, "draft", "preparation")))
  {
  }

  // ---------------------------------------------------------------- operation by operation

  /** What the service accepts, in the words of the database. */
  lemma AcceptsIff(v: View, op: Op)
    requires v.row.Some?
    ensures var status, phase := v.row.value.status, v.row.value.phase;
            Accepts(v, op)
            <==> match op
                 case Start(created) => status == "draft" && (v.engine.Some? || created)
                 case Pause => status == "running" && phase == "running"
                 case Resume(_) => status == "paused"
                 case Stop => status == "running" || status == "paused"
                 case Reset => status == "finished" || status == "draft"
                 case _ => false
  {
  }

  /** What an accepted request writes to the row. */
  lemma RowAfter(v: View, op: Op)
    requires Accepts(v, op)
    ensures var round := v.row.value.round;
            Step(v, op).row
            == Some(match op
                    case Start(_) => Row("running", "running", if v.engine == None then 1 else round)
                    case Pause => Row("paused", "break", round)
                    case Resume(created) =>
                      var none := if v.engine.Some? then !v.engine.value.running && v.engine.value.round == 0
                                  else created && round == 0;
                      Row("running", "running", if none then 1 else round)
                    case Stop => Row("finished", "finished", round)
                    case _ => Row("draft", "preparation", 0))
  {
  }

  /** And what it makes of the engine. */
  lemma EngineAfter(v: View, op: Op)
    requires Accepts(v, op)
    ensures var round := v.row.value.round;
            Step(v, op).engine
            == match (op, v.engine)
               case (Start(_), None) => Some(Engine(true, 1, "running", Going(true, [])))
               case (Pause, Some(e)) => Some(if e.running then Engine(false, e.round, "break", e.scheduler) else e)
               case (Resume(created), None) =>
                 if !created then None
                 else if round == 0 then Some(Engine(true, 1, "running", Going(true, [])))
                 else Some(Engine(true, round, "preparation", Going(true, [])))
               case (Resume(_), Some(e)) =>
                 if e.running then Some(e)
                 else
                   Some(Engine(true, if e.round == 0 then 1 else e.round, if e.round == 0 then "running" else e.phase,
                               if e.scheduler.NotYet? then Going(true, [])
                               else if e.scheduler.Going? then Going(false, e.scheduler.left)
                               else e.scheduler))
               case (Stop, _) => None
               case (_, e) => e
  {
  }

  /** What the engine that is stopped, and that finishes by itself, shows to whoever still holds it. */
  lemma EngineEnds(row: Row, e: Engine)
    ensures var (stored, stopped) := StopEngine((Some(row), e));
            && stored == Some(Row("finished", "finished", row.round))
            && !stopped.running && stopped.phase == "finished" && stopped.round == e.round
            && (e.scheduler.Going? ==>
                  stopped.scheduler == if e.scheduler.inReach then Cancelled(e.scheduler.left)
                                       else Adrift(e.scheduler.left))
    ensures FinishEngine((Some(row), e))
            == (Some(Row("finished", "finished", row.round)), Engine(false, e.round, "finished", Over))
  {
  }

  /** What the callbacks of a live scheduler, and of a dropped one, write. */
  lemma CallbackWrites(v: View, round: int, i: nat)
    requires v.row.Some?
    ensures Live(v) ==>
              && Step(v, RoundBegins(round)).row == Some(Row(v.row.value.status, "running", round))
              && Step(v, RoundBegins(round)).engine
                 == Some(Engine(v.engine.value.running, round, "running", v.engine.value.scheduler))
              && Step(v, GameFinishes).row == Some(Row("finished", "finished", v.row.value.round))
    ensures CanCall(v, i) ==>
              && Step(v, OrphanCalls(i)).engine == v.engine
              && Step(v, OrphanCalls(i)).row
                 == match v.orphans[i].left[0]
                    case Started(r) => Some(Row(v.row.value.status, "running", r))
                    case Ended(_) => v.row
                    case Finished => Some(Row("finished", "finished", v.row.value.round))
  {
  }

  // ---------------------------------------------------------------- all games at once

  /** `game` is ignored by the two operations that concern the whole process. */
  datatype Event = Event(game: int, op: Op)

  predicate Concerns(e: Event, g: int) {
    e.game == g || e.op.Shutdown? || e.op.Crash?
  }

  function RunAll(server: int -> View, events: seq<Event>): int -> View {
    if events == [] then server
    else
      var before, e := RunAll(server, events[..|events| - 1]), events[|events| - 1];
      g => if Concerns(e, g) then Step(before(g), e.op) else before(g)
  }

  function OpsOf(events: seq<Event>, g: int): seq<Op> {
    if events == [] then []
    else
      var e := events[|events| - 1];
      OpsOf(events[..|events| - 1], g) + if Concerns(e, g) then [e.op] else []
  }

  /** However the operations on different games interleave, each game sees only its own. */
  lemma {:induction false} GamesAreIndependent(server: int -> View, events: seq<Event>, g: int)
    ensures RunAll(server, events)(g) == Run(server(g), OpsOf(events, g))
    decreases |events|
  {
    if events != [] {
      var init, e := events[..|events| - 1], events[|events| - 1];
      GamesAreIndependent(server, init, g);
      var ops := OpsOf(init, g);
      if Concerns(e, g) {
        assert (ops + [e.op])[..|ops|] == ops;
      } else {
        assert ops + [] == ops;
      }
    }
  }

  /** Started from agreement, a server agrees on every game after any interleaving of starts, pauses,
      resumes, stops, resets, beginning rounds, callbacks of orphans and shutdowns, whether or not engines
      can be created, as long as none of them finishes the game behind the service's back. */
  lemma ServerAgrees(server: int -> View, events: seq<Event>, g: int)
    requires Agree(server(g)) && AllHarmless(server(g), OpsOf(events, g))
    ensures Agree(RunAll(server, events)(g))
  {
    hide Agree, AllHarmless, Run, OpsOf, RunAll;
    GamesAreIndependent(server, events, g);
    Agreement(server(g), OpsOf(events, g));
  }

  // ---------------------------------------------------------------- after a natural finish

  /** The manager holds an engine whose scheduler has returned. */
  predicate Stale(v: View) {
    v.engine.Some? && v.engine.value.scheduler.Over?
  }

  /** No stop was accepted, and the process did not end. */
  predicate NeverStopped(v: View, ops: seq<Op>) {
    if ops == [] then true
    else
      var init, op := ops[..|ops| - 1], ops[|ops| - 1];
      NeverStopped(v, init) && !(op.Stop? && Accepts(Run(v, init), op)) && !op.Shutdown? && !op.Crash?
  }

  lemma StaleStep(v: View, op: Op)
    requires Stale(v)
    ensures Stale(Step(v, op)) <==> !(op.Stop? && Accepts(v, op)) && !op.Shutdown? && !op.Crash?
  {
  }

  /** Once a game has finished by itself, no reset, start, pause or resume gives it a live scheduler, until
      a stop is accepted or the process ends. */
  lemma {:induction false} NoRoundsUntilStopped(v: View, ops: seq<Op>)
    requires Live(v) && NeverStopped(Step(v, GameFinishes), ops)
    ensures Stale(Run(Step(v, GameFinishes), ops)) && !Live(Run(Step(v, GameFinishes), ops))
    decreases |ops|
  {
    if ops != [] {
      var init := ops[..|ops| - 1];
      NoRoundsUntilStopped(v, init);
      StaleStep(Run(Step(v, GameFinishes), init), ops[|ops| - 1]);
    }
  }

  lemma RunMore(v: View, ops: seq<Op>, op: Op)
    ensures Run(v, ops + [op]) == Step(Run(v, ops), op)
  {
    hide Step;
    assert (ops + [op])[..|ops|] == ops;
  }

  lemma RunThree(v: View, a: Op, b: Op, c: Op)
    ensures Run(v, [a, b, c]) == Step(Step(Step(v, a), b), c)
  {
    hide Step;
    assert [] + [a] == [a] && [a] + [b] == [a, b] && [a, b] + [c] == [a, b, c];
    RunMore(v, [], a);
    RunMore(v, [a], b);
    RunMore(v, [a, b], c);
  }

  /** The run that breaks the agreement: a stop right after the finish is refused; reset and start succeed
      whether or not an engine could be created, and store "running" beside an engine that does not run. */
  lemma FinishResetStart(v: View, created: bool)
    requires Agree(v) && v.engine.Some?
    ensures !Accepts(Step(v, GameFinishes), Stop)
    ensures var w := Run(v, [GameFinishes, Reset, Start(created)]);
            && w.row.Some? && w.row.value.status == "running"
            && w.engine.Some? && !w.engine.value.running && Stale(w)
            && Accepts(w, Stop)
  {
    RunThree(v, GameFinishes, Reset, Start(created));
  }

  /** An accepted stop restores agreement from any state whatever. */
  lemma StopHeals(v: View)
    requires Accepts(v, Stop)
    ensures Agree(Step(v, Stop)) && Step(v, Stop).row.value.status == "finished"
  {
  }

  // ---------------------------------------------------------------- orphans

  /** Since the last accepted start there was an accepted resume. */
  predicate Resumed(v: View, ops: seq<Op>) {
    if ops == [] then false
    else
      var init, op := ops[..|ops| - 1], ops[|ops| - 1];
      if op.Start? && Accepts(Run(v, init), op) then false
      else (op.Resume? && Accepts(Run(v, init), op)) || Resumed(v, init)
  }

  /** How many engines were stopped, or shut down, after they had been resumed. */
  function StopsAfterResume(v: View, ops: seq<Op>): nat {
    if ops == [] then 0
    else
      var init, op := ops[..|ops| - 1], ops[|ops| - 1];
      StopsAfterResume(v, init)
      + if Run(v, init).engine.Some? && Resumed(v, init) && (op.Shutdown? || (op.Stop? && Accepts(Run(v, init), op)))
        then 1 else 0
  }

  ghost predicate Reaches(v: View, resumed: bool) {
    && Agree(v)
    && (v.engine.Some? ==> v.engine.value.scheduler.Going? && v.engine.value.scheduler.inReach == !resumed)
  }

  /** How many of the dropped schedulers were set adrift. */
  function AdriftIn(orphans: seq<Scheduler>): nat {
    Count(orphans, (s: Scheduler) => s.Adrift?)
  }

  lemma AdriftMore(orphans: seq<Scheduler>, s: Scheduler)
    ensures AdriftIn(orphans + [s]) == AdriftIn(orphans) + if s.Adrift? then 1 else 0
  {
    assert (orphans + [s])[..|orphans|] == orphans;
  }

  lemma AdriftSame(orphans: seq<Scheduler>, i: nat, s: Scheduler)
    requires i < |orphans| && s.Adrift? == orphans[i].Adrift?
    ensures AdriftIn(orphans[i := s]) == AdriftIn(orphans)
  {
    var p := (s: Scheduler) => s.Adrift?;
    CountWithout(orphans, i, p);
    CountWithout(orphans[i := s], i, p);
    assert Without(orphans, i) == Without(orphans[i := s], i);
  }

  lemma StepReaches(v: View, op: Op, resumed: bool)
    requires Reaches(v, resumed) && Harmless(v, op) && !op.Crash?
    ensures Reaches(Step(v, op),
                    if op.Start? && Accepts(v, op) then false else (op.Resume? && Accepts(v, op)) || resumed)
  {
  }

  lemma StepAdrift(v: View, op: Op, resumed: bool)
    requires Reaches(v, resumed) && !op.Crash?
    ensures AdriftIn(Step(v, op).orphans)
            == AdriftIn(v.orphans)
               + if v.engine.Some? && resumed && (op.Shutdown? || (op.Stop? && Accepts(v, op))) then 1 else 0
  {
    hide AdriftIn;
    if op.OrphanCalls? && CanCall(v, op.i) {
      AdriftSame(v.orphans, op.i, AfterCall(v.orphans[op.i]));
    } else if v.engine.Some? && (op.Stop? || op.Shutdown?) {
      AdriftMore(v.orphans, StopEngine((v.row, v.engine.value)).1.scheduler);
    }
  }

  /** A stop sets a scheduler adrift, out of anybody's reach, exactly when the game was resumed since its
      last start; so the schedulers adrift are as many as such stops. */
  lemma {:induction false} OrphansAreStopsAfterResume(v: View, ops: seq<Op>)
    requires Agree(v) && v.engine.None? && AllHarmless(v, ops) && forall i :: 0 <= i < |ops| ==> !ops[i].Crash?
    ensures Reaches(Run(v, ops), Resumed(v, ops))
    ensures AdriftIn(Run(v, ops).orphans) == AdriftIn(v.orphans) + StopsAfterResume(v, ops)
    decreases |ops|
  {
    if ops != [] {
      var init, op := ops[..|ops| - 1], ops[|ops| - 1];
      HarmlessInit(v, ops);
      OrphansAreStopsAfterResume(v, init);
      StepReaches(Run(v, init), op, Resumed(v, init));
      StepAdrift(Run(v, init), op, Resumed(v, init));
    }
    hide Step, Accepts, Reaches, AdriftIn, Harmless;
  }

  // ---------------------------------------------------------------- what an orphan can do

  /** The orphan makes its next k calls. */
  function Calls(v: View, i: nat, k: nat): View {
    if k == 0 then v else Step(Calls(v, i, k - 1), OrphanCalls(i))
  }

  lemma {:induction false} CallsTake(v: View, i: nat, k: nat)
    requires i < |v.orphans| && Dropped(v.orphans[i]) && k <= |v.orphans[i].left|
    ensures var w := Calls(v, i, k);
            && w.engine == v.engine && (w.row.Some? <==> v.row.Some?) && |w.orphans| == |v.orphans|
            && Dropped(w.orphans[i]) && w.orphans[i].left == v.orphans[i].left[k..]
            && (v.row.Some? && v.row.value.status == "running" ==>
                  (w.row.value.status == "running" || w.row.value.status == "finished")
                  && (w.row.value.status == "finished" <==> SchedulerMachine.Finished in v.orphans[i].left[..k]))
  {
    if k > 0 {
      CallsTake(v, i, k - 1);
      var left := v.orphans[i].left;
      assert left[..k] == left[..k - 1] + [left[k - 1]];
      assert left[k - 1..][1..] == left[k..];
    }
  }

  /** The database says that the game is over, and its engine plays on. */
  predicate EndedBehind(v: View) {
    v.row.Some? && v.row.value.status == "finished" && Live(v)
  }

  /** A dropped scheduler can end a running game in the database, while that game's engine plays on, if and
      only if the finish is among the callbacks that it has left. */
  lemma OrphanEndsGameIff(v: View, i: nat)
    requires Agree(v) && v.row.Some? && v.row.value.status == "running"
    requires i < |v.orphans| && Dropped(v.orphans[i])
    ensures (exists k: nat :: k <= |v.orphans[i].left| && EndedBehind(Calls(v, i, k)))
            <==> SchedulerMachine.Finished in v.orphans[i].left
  {
    var left := v.orphans[i].left;
    hide Calls;
    if SchedulerMachine.Finished in left {
      CallsTake(v, i, |left|);
      assert left[..|left|] == left;
    }
    forall k: nat | k <= |left| && EndedBehind(Calls(v, i, k))
      ensures SchedulerMachine.Finished in left
    {
      CallsTake(v, i, k);
    }
  }

  // ---------------------------------------------------------------- after a crash

  /** A game that was running when the process was lost is played again after a pause and a resume, from
      its stored round; unless the engine cannot be created, which only the log tells. */
  lemma PauseAndResumeAfterCrash(v: View, created: bool)
    requires Agree(v) && v.row.Some? && v.row.value.status == "running"
    ensures var w := Run(v, [Crash, Pause, Resume(created)]);
            && w.row.Some? && w.row.value.status == "running"
            && (Agree(w) <==> created)
            && (created ==> w.engine.value.scheduler == Going(true, [])
                            && w.engine.value.round == if v.row.value.round == 0 then 1 else v.row.value.round)
  {
    RunThree(v, Crash, Pause, Resume(created));
  }
}
