/** internal/service/game_service.go, internal/engine/manager.go and internal/engine/engine.go: the stored
    status of a game beside the engine that plays it.  Writes to the database succeed; a lock makes each
    operation on a game one step.  `created` says whether NewCompetitionEngine succeeds. */
module Lifecycle {
  import opened GameModel
  import opened Options
  import SchedulerMachine
  import Sums
  import Tables

  /** The columns of a game that these operations touch. */
  datatype Row = Row(status: string, phase: string, round: int)

  type Callback = SchedulerMachine.Callback

  /** The goroutine that plays the rounds: not there yet, going, or over.  It is in reach while the
      engine's cancelFunc cancels the context that it was started with; `left` are the callbacks that a
      stop at this moment would still let through (see SchedulerLeftover.Left).  A stop cancels a scheduler
      in reach and sets one out of reach adrift. */
  datatype Scheduler =
    | NotYet
    | Going(inReach: bool, left: seq<Callback>)
    | Cancelled(left: seq<Callback>)
    | Adrift(left: seq<Callback>)
    | Over

  datatype Engine = Engine(running: bool, round: int, phase: string, scheduler: Scheduler)

  /** One game: its row, its engine in the manager's map, and the schedulers of engines that were dropped
      from the map. */
  datatype View = View(row: Option<Row>, engine: Option<Engine>, orphans: seq<Scheduler>)

  predicate CanReset(status: string) {
    status == "finished" || status == "draft"
  }

  // ---------------------------------------------------------------- the objects

  class Database {
    var games: map<int, Row>

    constructor (games: map<int, Row>)
      ensures this.games == games
    {
      this.games := games;
    }

    /** UPDATE games SET status, current_phase WHERE id: no effect when there is no such row. */
    method SetStatus(game: int, status: string, phase: string)
      modifies this
      ensures games == WithStatus(old(games), game, status, phase)
    {
      if game in games {
        games := games[game := games[game].(status := status, phase := phase)];
      }
    }

    method SetRound(game: int, round: int)
      modifies this
      ensures games == if game !in old(games) then old(games)
                       else old(games)[game := old(games)[game].(round := round, phase := "running")]
    {
      if game in games {
        games := games[game := games[game].(round := round, phase := "running")];
      }
    }
  }

  function WithStatus(games: map<int, Row>, game: int, status: string, phase: string): map<int, Row> {
    if game in games then games[game := games[game].(status := status, phase := phase)] else games
  }

  class CompetitionEngine {
    const game: int
    const db: Database
    var running: bool
    var currentRound: int
    var currentPhase: string
    var scheduler: Scheduler

    function Value(): Engine
      reads this
    {
      Engine(running, currentRound, currentPhase, scheduler)
    }

    constructor (game: int, db: Database)
      ensures this.game == game && this.db == db && Value() == NEW_ENGINE
    {
      this.game, this.db := game, db;
      running, currentRound, currentPhase, scheduler := false, 0, "preparation", NotYet;
    }

    ghost function At(): (Option<Row>, Engine)
      reads this, db
    {
      (if game in db.games then Some(db.games[game]) else None, Value())
    }

    ghost predicate Elsewhere(games: map<int, Row>)
      reads this, db
    {
      && (db.games.Keys == games.Keys)
      && forall g :: g in games && g != game ==> db.games[g] == games[g]
    }

    method OnRoundStart(round: int)
      modifies this, db
      ensures At() == BeginRound(old(At()), round) && Elsewhere(old(db.games))
    {
      currentRound := round;
      currentPhase := "running";
      db.SetRound(game, round);
    }

    method Start()
      modifies this, db
      ensures At() == StartEngine(old(At())) && Elsewhere(old(db.games))
    {
      if running {
        return;
      }
      running := true;
      OnRoundStart(1);
      scheduler := Going(true, []);
    }

    method Pause()
      modifies this, db
      ensures At() == PauseEngine(old(At())) && Elsewhere(old(db.games))
    {
      if !running {
        return;
      }
      running := false;
      currentPhase := "break";
      db.SetStatus(game, "paused", "break");
    }

    /** A resume makes a new context and forgets the cancel function of the one that the scheduler runs in. */
    method Resume()
      modifies this, db
      ensures At() == ResumeEngine(old(At())) && Elsewhere(old(db.games))
    {
      if running {
        return;
      }
      running := true;
      if currentRound == 0 {
        OnRoundStart(1);
      }
      if scheduler == NotYet {
        scheduler := Going(true, []);
      } else if scheduler.Going? {
        scheduler := Going(false, scheduler.left);
      }
      db.SetStatus(game, "running", "running");
    }

    method Stop()
      modifies this, db
      ensures At() == StopEngine(old(At())) && Elsewhere(old(db.games))
    {
      if scheduler.Going? {
        scheduler := if scheduler.inReach then Cancelled(scheduler.left) else Adrift(scheduler.left);
      }
      running := false;
      currentPhase := "finished";
      db.SetStatus(game, "finished", "finished");
    }

    /** What the scheduler does after the last round, before it returns. */
    method FinishGame()
      modifies this, db
      ensures At() == FinishEngine(old(At())) && Elsewhere(old(db.games))
    {
      running := false;
      currentPhase := "finished";
      db.SetStatus(game, "finished", "finished");
      scheduler := Over;
    }
  }

  class EngineManager {
    const db: Database
    var engines: map<int, CompetitionEngine>
    var orphans: map<int, seq<Scheduler>>

    ghost predicate Valid()
      reads this, engines.Values
    {
      forall g :: g in engines ==> engines[g].game == g && engines[g].db == db
    }

    ghost function Orphans(game: int): seq<Scheduler>
      reads this
    {
      if game in orphans then orphans[game] else []
    }

    ghost function ViewOf(game: int): View
      reads this, db, if game in engines then {engines[game]} else {}
    {
      View(if game in db.games then Some(db.games[game]) else None,
           if game in engines then Some(engines[game].Value()) else None,
           Orphans(game))
    }

    /** The engine of one game, as a frame. */
    ghost function EngineOf(game: int): set<object>
      reads this
    {
      if game in engines then {engines[game]} else {}
    }

    constructor (db: Database)
      ensures this.db == db && engines == map[] && orphans == map[] && Valid()
    {
      this.db := db;
      engines, orphans := map[], map[];
    }

    method StartGame(game: int, created: bool) returns (ok: bool)
      requires Valid()
      modifies this`engines, db, EngineOf(game)
      ensures Valid() && fresh(EngineOf(game) - old(EngineOf(game)))
      ensures ok == (old(ViewOf(game)).engine.Some? || created)
      ensures ViewOf(game) == ManagerStart(old(ViewOf(game)), created)
      ensures forall g :: g != game ==> ViewOf(g) == old(ViewOf(g))
    {
      if game in engines {
        return true;
      }
      if !created {
        return false;
      }
      var engine := new CompetitionEngine(game, db);
      engine.Start();
      engines := engines[game := engine];
      ok := true;
    }

    method PauseGame(game: int)
      requires Valid()
      modifies db, EngineOf(game)
      ensures Valid()
      ensures ViewOf(game) == ManagerPause(old(ViewOf(game)))
      ensures forall g :: g != game ==> ViewOf(g) == old(ViewOf(g))
    {
      if game in engines {
        engines[game].Pause();
      }
    }

    method ResumeGame(game: int, storedRound: int, created: bool) returns (ok: bool)
      requires Valid()
      modifies this`engines, db, EngineOf(game)
      ensures Valid() && fresh(EngineOf(game) - old(EngineOf(game)))
      ensures ok == (old(ViewOf(game)).engine.Some? || created)
      ensures ViewOf(game) == ManagerResume(old(ViewOf(game)), storedRound, created)
      ensures forall g :: g != game ==> ViewOf(g) == old(ViewOf(g))
    {
      if game in engines {
        engines[game].Resume();
        return true;
      }
      if !created {
        return false;
      }
      var engine := new CompetitionEngine(game, db);
      engine.currentRound := storedRound;
      engine.Resume();
      engines := engines[game := engine];
      ok := true;
    }

    method StopGame(game: int)
      requires Valid()
      modifies this, db, EngineOf(game)
      ensures Valid() && engines == old(engines) - {game}
      ensures ViewOf(game) == ManagerStop(old(ViewOf(game)))
      ensures forall g :: g != game ==> ViewOf(g) == old(ViewOf(g))
    {
      if game in engines {
        var engine := engines[game];
        engine.Stop();
        engines := engines - {game};
        if Dropped(engine.scheduler) {
          orphans := orphans[game := (if game in orphans then orphans[game] else []) + [engine.scheduler]];
        }
      }
    }

    lemma NothingToStop()
      ensures forall g :: g !in engines ==> ManagerStop(ViewOf(g)) == ViewOf(g)
    {
    }

    /** Stops every engine, in whatever order. */
    method ShutdownAll()
      requires Valid()
      modifies this, db, engines.Values
      ensures Valid() && engines == map[]
      ensures forall g :: ViewOf(g) == Step(old(ViewOf(g)), Shutdown)
    {
      hide Step, ManagerStop, ViewOf;
      ShutdownIsStop();
      NothingToStop();
      ghost var start := imap g: int | true :: ViewOf(g);
      ghost var all := engines;
      while engines != map[]
        invariant Valid() && engines.Keys <= all.Keys
        invariant forall g :: g in engines ==> engines[g] == all[g]
        invariant forall g :: ViewOf(g) == if g in engines then start[g] else ManagerStop(start[g])
        decreases engines.Keys
      {
        ghost var member := Sums.Member(engines.Keys);
        var game :| game in engines;
        assert game in all && engines[game] == all[game] && all[game] in all.Values;
        StopGame(game);
      }
    }
  }

  lemma ShutdownIsStop()
    ensures forall v: View :: Step(v, Shutdown) == ManagerStop(v)
  {
  }

  class GameService {
    const db: Database
    const tables: Tables.Database
    const manager: EngineManager

    ghost predicate Valid()
      reads this, manager, manager.engines.Values
    {
      manager.db == db && manager.Valid()
    }

    constructor (db: Database, tables: Tables.Database)
      ensures this.db == db && this.tables == tables && Valid() && fresh(manager)
    {
      this.db, this.tables := db, tables;
      manager := new EngineManager(db);
    }

    method StartGame(game: int, created: bool) returns (ok: bool)
      requires Valid()
      modifies db, manager, manager.EngineOf(game)
      ensures Valid()
      ensures ok == Accepts(old(manager.ViewOf(game)), Start(created))
      ensures manager.ViewOf(game) == Step(old(manager.ViewOf(game)), Start(created))
      ensures forall g :: g != game ==> manager.ViewOf(g) == old(manager.ViewOf(g))
    {
      if game !in db.games || !CanStart(db.games[game].status) {
        return false;
      }
      db.SetStatus(game, "running", "running");
      ok := manager.StartGame(game, created);
      assert forall g :: g != game ==> manager.ViewOf(g) == old(manager.ViewOf(g));
      if !ok {
        db.SetStatus(game, "draft", "preparation");
      }
    }

    method PauseGame(game: int) returns (ok: bool)
      requires Valid()
      modifies db, manager.EngineOf(game)
      ensures Valid()
      ensures ok == Accepts(old(manager.ViewOf(game)), Pause)
      ensures manager.ViewOf(game) == Step(old(manager.ViewOf(game)), Pause)
      ensures forall g :: g != game ==> manager.ViewOf(g) == old(manager.ViewOf(g))
    {
      if game !in db.games || !CanPause(db.games[game].status, db.games[game].phase) {
        return false;
      }
      db.SetStatus(game, "paused", "break");
      manager.PauseGame(game);
      ok := true;
    }

    /** An engine that cannot be created is only logged. */
    method ResumeGame(game: int, created: bool) returns (ok: bool)
      requires Valid()
      modifies db, manager, manager.EngineOf(game)
      ensures Valid()
      ensures ok == Accepts(old(manager.ViewOf(game)), Resume(created))
      ensures manager.ViewOf(game) == Step(old(manager.ViewOf(game)), Resume(created))
      ensures forall g :: g != game ==> manager.ViewOf(g) == old(manager.ViewOf(g))
    {
      if game !in db.games || !CanResume(db.games[game].status) {
        return false;
      }
      db.SetStatus(game, "running", "running");
      var resumed := manager.ResumeGame(game, db.games[game].round, created);
      ok := true;
    }

    method StopGame(game: int) returns (ok: bool)
      requires Valid()
      modifies db, manager, manager.EngineOf(game)
      ensures Valid()
      ensures ok == Accepts(old(manager.ViewOf(game)), Stop)
      ensures manager.ViewOf(game) == Step(old(manager.ViewOf(game)), Stop)
      ensures forall g :: g != game ==> manager.ViewOf(g) == old(manager.ViewOf(g))
    {
      if game !in db.games || !CanFinish(db.games[game].status) {
        return false;
      }
      db.SetStatus(game, "finished", "finished");
      manager.StopGame(game);
      ok := true;
    }

    /** Flags, submissions and round scores of the game go; adjustments and cached scores stay. */
    method ResetGame(game: int) returns (ok: bool)
      requires Valid()
      modifies db, tables`submissions, tables`roundScores, tables`flags
      ensures Valid()
      ensures ok == Accepts(old(manager.ViewOf(game)), Reset)
      ensures manager.ViewOf(game) == Step(old(manager.ViewOf(game)), Reset)
      ensures forall g :: g != game ==> manager.ViewOf(g) == old(manager.ViewOf(g))
      ensures if ok then
                && Tables.Deleted(old(tables.submissions), tables.submissions,
                                  (s: Tables.Submission) => s.key.game == game)
                && Tables.Deleted(old(tables.roundScores), tables.roundScores, (r: Tables.RoundScore) => r.game == game)
                && Tables.Deleted(old(tables.flags), tables.flags, (f: Tables.FlagRecord) => f.game == game)
              else
                && tables.submissions == old(tables.submissions) && tables.roundScores == old(tables.roundScores)
                && tables.flags == old(tables.flags)
      ensures ok ==> tables.roundScores == Tables.OfOthers(old(tables.roundScores), Tables.GameOfRow, game)
    {
      if game !in db.games || !CanReset(db.games[game].status) {
        return false;
      }
      hide Tables.Deleted, Tables.OfOthers;
      tables.DeleteGame(game);
      db.games := db.games[game := Row("draft", "preparation", 0)];
      ok := true;
    }
  }

  // ---------------------------------------------------------------- what they do, on values

  const NEW_ENGINE := Engine(false, 0, "preparation", NotYet)

  type Pair = (Option<Row>, Engine)

  function Stored(row: Option<Row>, status: string, phase: string): Option<Row> {
    match row
    case None => None
    case Some(r) => Some(r.(status := status, phase := phase))
  }

  function BeginRound(p: Pair, round: int): Pair {
    (match p.0 case None => None case Some(r) => Some(r.(round := round, phase := "running")),
     p.1.(round := round, phase := "running"))
  }

  function StartEngine(p: Pair): Pair {
    if p.1.running then p
    else
      var q := BeginRound(p, 1);
      (q.0, q.1.(running := true, scheduler := Going(true, [])))
  }

  function PauseEngine(p: Pair): Pair {
    if !p.1.running then p
    else (Stored(p.0, "paused", "break"), p.1.(running := false, phase := "break"))
  }

  function ResumeEngine(p: Pair): Pair {
    if p.1.running then p
    else
      var q := if p.1.round == 0 then BeginRound(p, 1) else p;
      (Stored(q.0, "running", "running"),
       q.1.(running := true,
            scheduler := match p.1.scheduler
                         case NotYet => Going(true, [])
                         case Going(_, left) => Going(false, left)
                         case other => other))
  }

  function StopEngine(p: Pair): Pair {
    (Stored(p.0, "finished", "finished"),
     p.1.(running := false, phase := "finished",
          scheduler := match p.1.scheduler
                       case Going(inReach, left) => if inReach then Cancelled(left) else Adrift(left)
                       case other => other))
  }

  function FinishEngine(p: Pair): Pair {
    (Stored(p.0, "finished", "finished"), p.1.(running := false, phase := "finished", scheduler := Over))
  }

  function With(v: View, p: Pair): View {
    v.(row := p.0, engine := Some(p.1))
  }

  function ManagerStart(v: View, created: bool): View {
    if v.engine.Some? || !created then v else With(v, StartEngine((v.row, NEW_ENGINE)))
  }

  function ManagerPause(v: View): View {
    match v.engine
    case None => v
    case Some(e) => With(v, PauseEngine((v.row, e)))
  }

  function ManagerResume(v: View, storedRound: int, created: bool): View {
    match v.engine
    case Some(e) => With(v, ResumeEngine((v.row, e)))
    case None => if created then With(v, ResumeEngine((v.row, NEW_ENGINE.(round := storedRound)))) else v
  }

  function ManagerStop(v: View): View {
    match v.engine
    case None => v
    case Some(e) =>
      var p := StopEngine((v.row, e));
      View(p.0, None, if Dropped(p.1.scheduler) then v.orphans + [p.1.scheduler] else v.orphans)
  }

  /** The scheduler was going when its engine was stopped. */
  predicate Dropped(s: Scheduler) {
    s.Cancelled? || s.Adrift?
  }

  /** What a callback of a scheduler writes to the row. */
  function Called(row: Option<Row>, c: Callback): Option<Row> {
    match c
    case Started(round) => BeginRound((row, NEW_ENGINE), round).0
    case Ended(_) => row
    case Finished => Stored(row, "finished", "finished")
  }

  /** The service's operations; then what the scheduler of an engine may do by itself, to move on among
      them; the next callback that an orphan has left; and the end of the process, in good order or not. */
  datatype Op =
    | Start(created: bool) | Pause | Resume(created: bool) | Stop | Reset
    | RoundBegins(round: int) | GameFinishes | Moves(left: seq<Callback>)
    | OrphanCalls(i: nat)
    | Shutdown | Crash

  predicate Accepts(v: View, op: Op) {
    && v.row.Some?
    && match op
       case Start(created) => CanStart(v.row.value.status) && (v.engine.Some? || created)
       case Pause => CanPause(v.row.value.status, v.row.value.phase)
       case Resume(_) => CanResume(v.row.value.status)
       case Stop => CanFinish(v.row.value.status)
       case Reset => CanReset(v.row.value.status)
       case _ => false
  }

  predicate Live(v: View) {
    v.engine.Some? && v.engine.value.scheduler.Going?
  }

  /** A dropped scheduler with its next callback made. */
  function AfterCall(s: Scheduler): Scheduler {
    match s
    case Cancelled(left) => if left == [] then s else Cancelled(left[1..])
    case Adrift(left) => if left == [] then s else Adrift(left[1..])
    case _ => s
  }

  predicate CanCall(v: View, i: nat) {
    i < |v.orphans| && Dropped(v.orphans[i]) && v.orphans[i].left != []
  }

  function Step(v: View, op: Op): View {
    match op
    case Start(created) =>
      if v.row.Some? && CanStart(v.row.value.status) then
        var w := ManagerStart(v.(row := Stored(v.row, "running", "running")), created);
        if w.engine.Some? then w else v.(row := Stored(v.row, "draft", "preparation"))
      else v
    case Pause => if Accepts(v, op) then ManagerPause(v.(row := Stored(v.row, "paused", "break"))) else v
    case Resume(created) =>
      if Accepts(v, op) then
        ManagerResume(v.(row := Stored(v.row, "running", "running")), v.row.value.round, created)
      else v
    case Stop => if Accepts(v, op) then ManagerStop(v.(row := Stored(v.row, "finished", "finished"))) else v
    case Reset => if Accepts(v, op) then v.(row := Some(Row("draft", "preparation", 0))) else v
    case RoundBegins(round) => if Live(v) then With(v, BeginRound((v.row, v.engine.value), round)) else v
    case GameFinishes => if Live(v) then With(v, FinishEngine((v.row, v.engine.value))) else v
    case Moves(left) =>
      if Live(v) then
        v.(engine := Some(v.engine.value.(scheduler := Going(v.engine.value.scheduler.inReach, left))))
      else v
    case OrphanCalls(i) =>
      if CanCall(v, i) then
        v.(row := Called(v.row, v.orphans[i].left[0]),
           orphans := v.orphans[i := AfterCall(v.orphans[i])])
      else v
    case Shutdown => ManagerStop(v)
    case Crash => View(v.row, None, [])
  }
}
