/** internal/engine/game_state_machine.go: transitions with callbacks that may fail and a store that may
    fail.  The row stands for the game's line in the games table; times are opaque numbers. */
module GameStateMachine {
  import opened GameModel
  import opened Options

  datatype State = Preparing | Running | Paused | Finished

  datatype Event = Start | Pause | Resume | Finish

  datatype Outcome = Ok | InvalidTransition | CallbackFailed(index: nat) | PersistFailed

  datatype Row = Row(status: string, phase: string, startTime: Option<int>, endTime: Option<int>)

  function ValidTransitions(state: State): map<Event, State> {
    match state
    case Preparing => map[Start := Running]
    case Running => map[Pause := Paused, Finish := Finished]
    case Paused => map[Resume := Running, Finish := Finished]
    case Finished => map[]
  }

  function MapModelToGameState(status: string, phase: string): State {
    if status == "finished" then Finished
    else if status == "active" then if phase == "break" then Paused else Running
    else Preparing
  }

  function StatusOf(state: State): string {
    match state
    case Preparing => "draft"
    case Running => "active"
    case Paused => "active"
    case Finished => "finished"
  }

  function PhaseOf(state: State): string {
    match state
    case Preparing => "preparation"
    case Running => "running"
    case Paused => "break"
    case Finished => "finished"
  }

  /** One call of Transition: what each registered callback would answer, whether the store would take
      the update, and the time of day. */
  datatype Attempt = Attempt(event: Event, outcomes: seq<bool>, stores: bool, now: int)

  /** The machine's fields and the row.  `startTime` is the model's own, which nothing here updates. */
  datatype Machine = Machine(state: State, status: string, phase: string, startTime: Option<int>,
                             persist: bool, row: Row)

  class GameStateMachine {
    const persistDB: bool
    const startTime: Option<int>
    var state: State
    var status: string
    var currentPhase: string
    var callbacks: nat
    var row: Row

    function Value(): Machine
      reads this
    {
      Machine(state, status, currentPhase, startTime, persistDB, row)
    }

    /** LoadGameStateMachine on a row that exists. */
    constructor (row: Row, persistDB: bool)
      ensures Value() == Load(row, persistDB) && callbacks == 0
    {
      this.row, this.persistDB, startTime := row, persistDB, row.startTime;
      status, currentPhase := row.status, row.phase;
      state := MapModelToGameState(row.status, row.phase);
      callbacks := 0;
    }

    method AddCallback()
      modifies this`callbacks
      ensures callbacks == old(callbacks) + 1
    {
      callbacks := callbacks + 1;
    }

    method UpdateModelState()
      modifies this`status, this`currentPhase
      ensures status == StatusOf(state) && currentPhase == PhaseOf(state)
    {
      match state
      case Preparing => status := "draft"; currentPhase := "preparation";
      case Running => status := "active"; currentPhase := "running";
      case Paused => status := "active"; currentPhase := "break";
      case Finished => status := "finished"; currentPhase := "finished";
    }

    method PersistState(stores: bool, now: int) returns (saved: bool)
      modifies this`row
      ensures saved == stores
      ensures row == if stores then Written(Value().(row := old(row)), now) else old(row)
    {
      if !stores {
        return false;
      }
      var updated := row.(status := status, phase := currentPhase);
      match state {
        case Running =>
          if startTime == None { updated := updated.(startTime := Some(now)); }
        case Finished =>
          updated := updated.(endTime := Some(now));
        case _ =>
      }
      row := updated;
      saved := true;
    }

    /** `called` counts the callbacks that ran. */
    method Transition(a: Attempt) returns (outcome: Outcome, called: nat)
      requires |a.outcomes| == callbacks
      modifies this`state, this`status, this`currentPhase, this`row
      ensures outcome == Verdict(old(Value()), a)
      ensures Value() == Next(old(Value()), a)
      ensures called == match outcome
                        case InvalidTransition => 0
                        case CallbackFailed(i) => i + 1
                        case _ => callbacks
    {
      called := 0;
      var allowed := ValidTransitions(state);
      if a.event !in allowed {
        return InvalidTransition, 0;
      }
      var fromState := state;
      while called < callbacks
        invariant called <= callbacks
        invariant forall i :: 0 <= i < called ==> a.outcomes[i]
      {
        called := called + 1;
        if !a.outcomes[called - 1] {
          FirstFailureIs(a.outcomes, called - 1);
          return CallbackFailed(called - 1), called;
        }
      }
      FirstFailureIs(a.outcomes, called);
      state := allowed[a.event];
      UpdateModelState();
      if persistDB {
        var saved := PersistState(a.stores, a.now);
        if !saved {
          state := fromState;
          UpdateModelState();
          return PersistFailed, called;
        }
      }
      outcome := Ok;
    }
  }

  // ---------------------------------------------------------------- one transition

  function Load(row: Row, persist: bool): Machine {
    Machine(MapModelToGameState(row.status, row.phase), row.status, row.phase, row.startTime, persist, row)
  }

  /** The row after persistState: the fields of the machine, and a time stamp on entering two of the states. */
  function Written(m: Machine, now: int): Row {
    var row := m.row.(status := m.status, phase := m.phase);
    if m.state == Running && m.startTime == None then row.(startTime := Some(now))
    else if m.state == Finished then row.(endTime := Some(now))
    else row
  }

  /** How many callbacks come before the first that fails. */
  function FirstFailure(outcomes: seq<bool>): nat {
    if outcomes == [] || !outcomes[0] then 0 else 1 + FirstFailure(outcomes[1..])
  }

  lemma {:induction false} FirstFailureIs(outcomes: seq<bool>, n: nat)
    requires n <= |outcomes| && (n < |outcomes| ==> !outcomes[n])
    requires forall i :: 0 <= i < n ==> outcomes[i]
    ensures FirstFailure(outcomes) == n
  {
    if n > 0 {
      FirstFailureIs(outcomes[1..], n - 1);
    }
  }

  function Verdict(m: Machine, a: Attempt): Outcome {
    if a.event !in ValidTransitions(m.state) then InvalidTransition
    else if FirstFailure(a.outcomes) < |a.outcomes| then CallbackFailed(FirstFailure(a.outcomes))
    else if m.persist && !a.stores then PersistFailed
    else Ok
  }

  /** The machine with the model fields that updateModelState gives a state. */
  function In(m: Machine, state: State): Machine {
    m.(state := state, status := StatusOf(state), phase := PhaseOf(state))
  }

  function Next(m: Machine, a: Attempt): Machine {
    match Verdict(m, a)
    case Ok =>
      var n := In(m, ValidTransitions(m.state)[a.event]);
      if m.persist then n.(row := Written(n, a.now)) else n
    case PersistFailed => In(m, m.state)
    case _ => m
  }

  // ---------------------------------------------------------------- runs

  function Run(m: Machine, attempts: seq<Attempt>): Machine {
    if attempts == [] then m
    else Next(Run(m, attempts[..|attempts| - 1]), attempts[|attempts| - 1])
  }

  /** The attempts of a run that succeed. */
  function Successes(m: Machine, attempts: seq<Attempt>): seq<Attempt> {
    if attempts == [] then []
    else
      var init, last := attempts[..|attempts| - 1], attempts[|attempts| - 1];
      Successes(m, init) + if Verdict(Run(m, init), last) == Ok then [last] else []
  }

  /** Memory, machine and, with persistence on, the stored row tell the same state. */
  predicate Coherent(m: Machine) {
    && MapModelToGameState(m.status, m.phase) == m.state
    && (m.persist ==> Load(m.row, true).state == m.state)
  }

  lemma StepCoherent(m: Machine, a: Attempt)
    requires Coherent(m)
    ensures Coherent(Next(m, a))
  {
  }

  /** The model always maps back to the machine's state, whatever callbacks and the store do; with
      persistence on, a machine loaded from the row is in the same state. */
  lemma {:induction false} AlwaysCoherent(row: Row, persist: bool, attempts: seq<Attempt>)
    ensures Coherent(Run(Load(row, persist), attempts))
    decreases |attempts|
  {
    if attempts != [] {
      var init := attempts[..|attempts| - 1];
      AlwaysCoherent(row, persist, init);
      StepCoherent(Run(Load(row, persist), init), attempts[|attempts| - 1]);
    }
  }

  /** A transition that fails leaves the state and the row as they were.  Only a failing store touches the
      model, and only a model that did not use this machine's own words for its state. */
  lemma FailureChangesNothing(m: Machine, a: Attempt)
    requires Verdict(m, a) != Ok
    ensures Next(m, a).state == m.state && Next(m, a).row == m.row
    ensures Next(m, a) != m
            <==> Verdict(m, a) == PersistFailed && !(m.status == StatusOf(m.state) && m.phase == PhaseOf(m.state))
  {
  }

  /** A transition succeeds exactly when the event is allowed, no callback fails and the store, if used, takes it. */
  lemma SucceedsIff(m: Machine, a: Attempt)
    ensures Verdict(m, a) == Ok
            <==> && a.event in ValidTransitions(m.state)
                 && (forall i :: 0 <= i < |a.outcomes| ==> a.outcomes[i])
                 && (m.persist ==> a.stores)
  {
    FirstFailureBound(a.outcomes);
    hide FirstFailure;
    if forall i :: 0 <= i < |a.outcomes| ==> a.outcomes[i] {
      FirstFailureIs(a.outcomes, |a.outcomes|);
    }
  }

  lemma {:induction false} FirstFailureBound(outcomes: seq<bool>)
    ensures FirstFailure(outcomes) <= |outcomes|
    ensures forall i :: 0 <= i < FirstFailure(outcomes) ==> outcomes[i]
    ensures FirstFailure(outcomes) < |outcomes| ==> !outcomes[FirstFailure(outcomes)]
  {
    if outcomes != [] && outcomes[0] {
      FirstFailureBound(outcomes[1..]);
      assert forall i :: 1 <= i < FirstFailure(outcomes) ==> outcomes[i] == outcomes[1..][i - 1];
    }
  }

  lemma SuccessStep(m: Machine, a: Attempt)
    ensures Verdict(m, a) == Ok ==> a.event in ValidTransitions(m.state)
    ensures Next(m, a).state == if Verdict(m, a) == Ok then ValidTransitions(m.state)[a.event] else m.state
  {
  }

  // ---------------------------------------------------------------- the order of events

  /** The events that can succeed, in order: a start, then pauses and resumes in turn, then at most one
      finish, and nothing after it. */
  predicate InOrder(done: seq<Attempt>) {
    forall i :: 0 <= i < |done| ==>
      if i == 0 then done[i].event == Start
      else if done[i].event == Finish then i == |done| - 1
      else done[i].event == if i % 2 == 1 then Pause else Resume
  }

  function StateAfter(done: seq<Attempt>): State {
    if done == [] then Preparing
    else if done[|done| - 1].event == Finish then Finished
    else if |done| % 2 == 1 then Running
    else Paused
  }

  /** From a draft, what succeeds is always a start, alternating pauses and resumes and at most one final
      finish, and the state follows from it alone.  So a start succeeds at most once and a finished game
      stays finished. */
  lemma {:induction false} EventsInOrder(m: Machine, attempts: seq<Attempt>)
    requires m.state == Preparing
    ensures InOrder(Successes(m, attempts))
    ensures Run(m, attempts).state == StateAfter(Successes(m, attempts))
    decreases |attempts|
  {
    if attempts != [] {
      var init, last := attempts[..|attempts| - 1], attempts[|attempts| - 1];
      EventsInOrder(m, init);
      SuccessStep(Run(m, init), last);
      var done := Successes(m, init);
      hide Verdict, Next;
      if Verdict(Run(m, init), last) == Ok {
        assert Successes(m, attempts) == done + [last];
        OrderGrows(done, last);
      } else {
        assert Successes(m, attempts) == done + [];
      }
    }
  }

  lemma OrderGrows(done: seq<Attempt>, a: Attempt)
    requires InOrder(done) && a.event in ValidTransitions(StateAfter(done))
    ensures InOrder(done + [a]) && StateAfter(done + [a]) == ValidTransitions(StateAfter(done))[a.event]
  {
    assert done != [] ==> done[|done| - 1].event != Finish;
  }

  /** A finished game accepts no event. */
  lemma {:induction false} FinishedIsFinal(m: Machine, attempts: seq<Attempt>)
    requires m.state == Finished
    ensures Run(m, attempts) == m && Successes(m, attempts) == []
    decreases |attempts|
  {
    if attempts != [] {
      FinishedIsFinal(m, attempts[..|attempts| - 1]);
    }
  }

  // ---------------------------------------------------------------- the stored words

  /** Status and phase after some events. */
  function Words(done: seq<Attempt>): (string, string) {
    if done == [] then ("draft", "preparation")
    else
      match done[|done| - 1].event
      case Start => ("active", "running")
      case Resume => ("active", "running")
      case Pause => ("active", "break")
      case Finish => ("finished", "finished")
  }

  ghost predicate Worded(m: Machine, loaded: Machine, done: seq<Attempt>) {
    && m.persist == loaded.persist
    && ((m.status, m.phase) == Words(done) || (done == [] && m.status == loaded.status && m.phase == loaded.phase))
    && (m.persist ==> if done == [] then m.row == loaded.row else (m.row.status, m.row.phase) == Words(done))
  }

  lemma StepWorded(m: Machine, loaded: Machine, done: seq<Attempt>, a: Attempt)
    requires Worded(m, loaded, done) && m.state == StateAfter(done) && InOrder(done)
    ensures Worded(Next(m, a), loaded, if Verdict(m, a) == Ok then done + [a] else done)
  {
  }

  /** The words in the model, and with persistence in the row, are those of the last event that succeeded. */
  lemma {:induction false} WordsFollowEvents(m: Machine, attempts: seq<Attempt>)
    requires m.state == Preparing
    ensures Worded(Run(m, attempts), m, Successes(m, attempts))
    decreases |attempts|
  {
    if attempts != [] {
      var init, last := attempts[..|attempts| - 1], attempts[|attempts| - 1];
      WordsFollowEvents(m, init);
      EventsInOrder(m, init);
      StepWorded(Run(m, init), m, Successes(m, init), last);
      assert Successes(m, init) + [] == Successes(m, init);
    }
    hide Worded, Next, Verdict, InOrder;
  }

  // ---------------------------------------------------------------- the stored times

  /** When the last of some events entered the running state. */
  function LastEntry(done: seq<Attempt>): Option<int> {
    if done == [] then None
    else
      var last := done[|done| - 1];
      if last.event == Start || last.event == Resume then Some(last.now) else LastEntry(done[..|done| - 1])
  }

  function FinishedAt(done: seq<Attempt>): Option<int> {
    if done != [] && done[|done| - 1].event == Finish then Some(done[|done| - 1].now) else None
  }

  ghost predicate Stamped(m: Machine, loaded: Option<int>, done: seq<Attempt>) {
    && m.persist && m.startTime == loaded
    && m.row.startTime == (if loaded == None then LastEntry(done) else loaded)
    && m.row.endTime == FinishedAt(done)
  }

  lemma StepStamped(m: Machine, loaded: Option<int>, done: seq<Attempt>, a: Attempt)
    requires Stamped(m, loaded, done) && m.state == StateAfter(done)
    ensures Stamped(Next(m, a), loaded, if Verdict(m, a) == Ok then done + [a] else done)
  {
    assert (done + [a])[..|done|] == done;
  }

  /** The stored start time is not the time of the start: as the model's own start time is never set, each
      resume overwrites it, unless the row already had one when the machine was loaded. */
  lemma StartTimeIsLastResume(row: Row, attempts: seq<Attempt>)
    requires MapModelToGameState(row.status, row.phase) == Preparing && row.endTime == None
    ensures var m := Run(Load(row, true), attempts);
            var done := Successes(Load(row, true), attempts);
            && m.row.startTime == (if row.startTime == None then LastEntry(done) else row.startTime)
            && m.row.endTime == FinishedAt(done)
  {
    StampedRun(row, attempts);
  }

  lemma {:induction false} StampedRun(row: Row, attempts: seq<Attempt>)
    requires MapModelToGameState(row.status, row.phase) == Preparing && row.endTime == None
    ensures Stamped(Run(Load(row, true), attempts), row.startTime, Successes(Load(row, true), attempts))
    decreases |attempts|
  {
    var m := Load(row, true);
    if attempts != [] {
      var init, last := attempts[..|attempts| - 1], attempts[|attempts| - 1];
      StampedRun(row, init);
      EventsInOrder(m, init);
      StepStamped(Run(m, init), row.startTime, Successes(m, init), last);
      assert Successes(m, init) + [] == Successes(m, init);
    }
  }

  // ---------------------------------------------------------------- beside the game service

  /** One of the guards that the game service asks before it acts lets it. */
  predicate ServiceAccepts(row: Row) {
    CanStart(row.status) || CanPause(row.status, row.phase) || CanResume(row.status) || CanFinish(row.status)
  }

  /** The machine writes "active" where the service writes "running" and "paused": once it has started a
      game, the service can neither start, pause, resume nor stop it. */
  lemma {:induction false} ServiceIsLockedOut(row: Row, attempts: seq<Attempt>)
    requires MapModelToGameState(row.status, row.phase) == Preparing
    ensures var r := Run(Load(row, true), attempts).row;
            if Successes(Load(row, true), attempts) == [] then r == row
            else !ServiceAccepts(r)
    decreases |attempts|
  {
    var m := Load(row, true);
    if attempts != [] {
      var init, last := attempts[..|attempts| - 1], attempts[|attempts| - 1];
      ServiceIsLockedOut(row, init);
      Persists(m, init);
      LockedStep(Run(m, init), last);
    }
  }

  lemma LockedStep(m: Machine, a: Attempt)
    requires m.persist
    ensures var r := Next(m, a).row;
            if Verdict(m, a) == Ok then !ServiceAccepts(r) else r == m.row
  {
  }

  lemma {:induction false} Persists(m: Machine, attempts: seq<Attempt>)
    ensures Run(m, attempts).persist == m.persist
    decreases |attempts|
  {
    if attempts != [] { Persists(m, attempts[..|attempts| - 1]); }
  }

  /** And a game that the service runs or has paused loads as a draft. */
  lemma RunningLoadsAsDraft(row: Row, persist: bool)
    requires CanFinish(row.status)
    ensures Load(row, persist).state == Preparing
    ensures forall a: Attempt :: Verdict(Load(row, persist), a) == Ok ==> a.event == Start
  {
  }
}
