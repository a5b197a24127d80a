/** internal/engine/round_manager.go: the clock of RoundManager.  Times are whole nanoseconds of a clock that
    never runs back. */
module RoundClock {
  import opened Options

  const SECOND := 1_000_000_000

  datatype Phase = Preparation | Running | Break | Paused | Finished

  datatype State = State(
    round: int,
    phase: Phase,
    roundStart: Option<int>,
    pauseTime: int,
    running: bool,
    paused: bool,
    scheduled: bool)

  datatype Report = Report(elapsed: int, remaining: int)

  /** int(d.Seconds()) for a duration that is not negative. */
  function Seconds(d: int): int {
    if d >= 0 then d / SECOND else -(-d / SECOND)
  }

  class RoundManager {
    const roundSeconds: int
    var currentRound: int
    var phase: Phase
    var roundStartTime: Option<int>
    var pauseTime: int
    var running: bool
    var paused: bool
    var scheduled: bool

    function Value(): State
      reads this
    {
      State(currentRound, phase, roundStartTime, pauseTime, running, paused, scheduled)
    }

    constructor (roundSeconds: int)
      ensures this.roundSeconds == roundSeconds && Value() == FRESH
    {
      this.roundSeconds := roundSeconds;
      currentRound, phase, roundStartTime, pauseTime := 0, Preparation, None, 0;
      running, paused, scheduled := false, false, false;
    }

    /** `ok` is what the callback returns. */
    method StartRound(round: int, now: int, ok: bool) returns (started: bool)
      modifies this`currentRound, this`phase, this`roundStartTime
      ensures started == ok
      ensures Value() == old(Value()).(round := round, phase := Running, roundStart := Some(now))
    {
      currentRound := round;
      phase := Running;
      roundStartTime := Some(now);
      started := ok;
    }

    /** A failing callback leaves the manager running, without its scheduler. */
    method Start(now: int, ok: bool) returns (started: bool)
      modifies this
      ensures started == (old(running) || ok)
      ensures Value() == AfterStart(old(Value()), now, ok)
    {
      if running {
        return true;
      }
      running := true;
      paused := false;
      started := StartRound(1, now, ok);
      if !started {
        return;
      }
      scheduled := true;
    }

    method Pause(now: int)
      modifies this`paused, this`pauseTime, this`phase
      ensures Value() == AfterPause(old(Value()), now)
    {
      if !running || paused {
        return;
      }
      paused := true;
      pauseTime := now;
      phase := Paused;
    }

    /** Moves the start of the round by the length of the pause. */
    method Resume(now: int)
      modifies this`paused, this`roundStartTime, this`phase
      ensures Value() == AfterResume(old(Value()), now)
    {
      if !running || !paused {
        return;
      }
      if roundStartTime.Some? {
        roundStartTime := Some(roundStartTime.value + (now - pauseTime));
      }
      paused := false;
      phase := Running;
    }

    method Stop()
      modifies this`running, this`paused, this`phase, this`scheduled
      ensures Value() == AfterStop(old(Value()))
    {
      scheduled := false;
      running := false;
      paused := false;
      phase := Finished;
    }

    /** Reads the clock twice: at `now`, and for the pause once more at `later`. */
    method GetState(now: int, later: int) returns (r: Report)
      ensures r == Reported(Value(), roundSeconds, now, later)
    {
      r := Report(0, 0);
      if roundStartTime.Some? {
        var elapsed := Seconds(now - roundStartTime.value);
        var remaining := roundSeconds - elapsed;
        if paused {
          var pauseElapsed := Seconds(later - pauseTime);
          elapsed := elapsed - pauseElapsed;
          remaining := remaining + pauseElapsed;
        }
        r := Report(elapsed, remaining);
      }
    }
  }

  const FRESH := State(0, Preparation, None, 0, false, false, false)

  // ---------------------------------------------------------------- the operations, on values

  function AfterStart(s: State, now: int, ok: bool): State {
    if s.running then s
    else State(1, Running, Some(now), s.pauseTime, true, false, s.scheduled || ok)
  }

  function AfterPause(s: State, now: int): State {
    if !s.running || s.paused then s else s.(paused := true, pauseTime := now, phase := Paused)
  }

  function AfterResume(s: State, now: int): State {
    if !s.running || !s.paused then s
    else s.(paused := false, phase := Running,
            roundStart := match s.roundStart
                          case None => None
                          case Some(start) => Some(start + (now - s.pauseTime)))
  }

  function AfterStop(s: State): State {
    s.(running := false, paused := false, phase := Finished, scheduled := false)
  }

  function Reported(s: State, roundSeconds: int, now: int, later: int): Report {
    match s.roundStart
    case None => Report(0, 0)
    case Some(start) =>
      var elapsed := Seconds(now - start) - if s.paused then Seconds(later - s.pauseTime) else 0;
      Report(elapsed, roundSeconds - elapsed)
  }

  // ---------------------------------------------------------------- pauses and resumes of a round

  /** What happens to a round that is under way; a break begins when its timer has run out. */
  datatype Event = PauseAt(now: int) | ResumeAt(now: int) | BreakAt(now: int)

  function Step(s: State, e: Event): State {
    match e
    case PauseAt(now) => AfterPause(s, now)
    case ResumeAt(now) => AfterResume(s, now)
    case BreakAt(_) => s.(phase := Break)
  }

  function Run(s: State, events: seq<Event>): State {
    if events == [] then s else Step(Run(s, events[..|events| - 1]), events[|events| - 1])
  }

  function LastTime(start: int, events: seq<Event>): int {
    if events == [] then start else events[|events| - 1].now
  }

  predicate InOrder(start: int, events: seq<Event>) {
    events != [] ==>
      var init := events[..|events| - 1];
      InOrder(start, init) && LastTime(start, init) <= LastTime(start, events)
  }

  /** The last pause or resume was a pause. */
  predicate IsPaused(events: seq<Event>) {
    if events == [] then false
    else
      match events[|events| - 1]
      case PauseAt(_) => true
      case ResumeAt(_) => false
      case BreakAt(_) => IsPaused(events[..|events| - 1])
  }

  /** How long the round had not been paused, up to its last event. */
  function Unpaused(start: int, events: seq<Event>): int {
    if events == [] then 0
    else
      var init := events[..|events| - 1];
      Unpaused(start, init) + if IsPaused(init) then 0 else events[|events| - 1].now - LastTime(start, init)
  }

  /** The same up to a later moment: the true elapsed time of the round. */
  function TrueElapsed(start: int, events: seq<Event>, now: int): int {
    Unpaused(start, events) + if IsPaused(events) then 0 else now - LastTime(start, events)
  }

  ghost predicate Keeps(s: State, start: int, events: seq<Event>) {
    && s.running && s.roundStart.Some? && s.paused == IsPaused(events)
    && (if s.paused then
          s.pauseTime - s.roundStart.value == Unpaused(start, events) && s.pauseTime <= LastTime(start, events)
        else LastTime(start, events) - s.roundStart.value == Unpaused(start, events))
    && Unpaused(start, events) >= 0
  }

  lemma StepKeeps(s: State, start: int, events: seq<Event>)
    requires events != [] && InOrder(start, events) && Keeps(s, start, events[..|events| - 1])
    ensures Keeps(Step(s, events[|events| - 1]), start, events)
  {
  }

  lemma {:induction false} RunKeeps(s: State, start: int, events: seq<Event>)
    requires s.running && !s.paused && s.roundStart == Some(start) && InOrder(start, events)
    ensures Keeps(Run(s, events), start, events)
    decreases |events|
  {
    if events != [] {
      RunKeeps(s, start, events[..|events| - 1]);
      hide Keeps, Step;
      StepKeeps(Run(s, events[..|events| - 1]), start, events);
    }
  }

  /** Whole seconds of a difference, taken apart: never off by a second or more. */
  lemma Apart(a: int, b: int)
    requires a >= 0 && b >= 0
    ensures a - b - SECOND < (Seconds(a) - Seconds(b)) * SECOND < a - b + SECOND
  {
  }

  /** Whatever pauses and resumes there were since the round started, the reported elapsed time is less than a
      second from the true one, plus the time between the two readings of the clock while paused; and
      elapsed and remaining time are together the duration of the round. */
  lemma ReportIsWithinASecond(s: State, start: int, events: seq<Event>, roundSeconds: int, now: int, later: int)
    requires s.running && !s.paused && s.roundStart == Some(start)
    requires InOrder(start, events) && LastTime(start, events) <= now <= later
    ensures var r := Reported(Run(s, events), roundSeconds, now, later);
            var truth := TrueElapsed(start, events, now);
            && r.elapsed + r.remaining == roundSeconds
            && r.elapsed * SECOND < truth + SECOND
            && r.elapsed * SECOND > truth - SECOND - if IsPaused(events) then later - now else 0
  {
    RunKeeps(s, start, events);
    var m := Run(s, events);
    hide Run, Unpaused, LastTime, Seconds;
    Apart(now - m.roundStart.value, if m.paused then later - m.pauseTime else 0);
    assert Seconds(0) == 0 by { Zero(); }
  }

  lemma Zero()
    ensures Seconds(0) == 0
  {
  }

  /** While a round is paused the reported time does not stand still.  It is the whole seconds of the true time;
      one more once the fractions of true time and pause add up to a second; and one less for every whole second
      of the pause that is completed between the two readings of the clock. */
  lemma PausedReportFlickers(s: State, roundSeconds: int, now: int, later: int)
    requires s.paused && s.roundStart.Some? && s.roundStart.value <= s.pauseTime <= now <= later
    ensures var truth, pause, seen := s.pauseTime - s.roundStart.value, now - s.pauseTime, later - s.pauseTime;
            && Reported(s, roundSeconds, now, later).elapsed
               == truth / SECOND + (if truth % SECOND + pause % SECOND >= SECOND then 1 else 0)
                  - (seen / SECOND - pause / SECOND)
            && Reported(s, roundSeconds, now, later).elapsed == (truth + pause) / SECOND - seen / SECOND
  {
  }

  /** So it stands still for the first `length` of a pause, whenever the two readings are taken, exactly when
      the fraction of the true time and the length stay below a second together: never for a whole second, even
      if the pause began on one. */
  lemma StandsStillIff(s: State, roundSeconds: int, length: nat)
    requires s.paused && s.roundStart.Some? && s.roundStart.value <= s.pauseTime
    ensures (forall now, later :: s.pauseTime <= now <= later <= s.pauseTime + length
               ==> Reported(s, roundSeconds, now, later) == Reported(s, roundSeconds, s.pauseTime, s.pauseTime))
            <==> (s.pauseTime - s.roundStart.value) % SECOND + length < SECOND
  {
    var p, fraction := s.pauseTime, (s.pauseTime - s.roundStart.value) % SECOND;
    PausedReportFlickers(s, roundSeconds, p, p);
    if fraction + length < SECOND {
      forall now, later | p <= now <= later <= p + length
        ensures Reported(s, roundSeconds, now, later) == Reported(s, roundSeconds, p, p)
      {
        PausedReportFlickers(s, roundSeconds, now, later);
      }
    } else {
      var now := if fraction == 0 then p else p + SECOND - fraction;
      var later := if fraction == 0 then p + SECOND else now;
      PausedReportFlickers(s, roundSeconds, now, later);
      assert Reported(s, roundSeconds, now, later) != Reported(s, roundSeconds, p, p);
    }
  }

  // ---------------------------------------------------------------- what the fields forget

  /** Event number i pauses or resumes the round, other than in vain. */
  predicate TakesEffect(events: seq<Event>, i: nat)
    requires i < |events|
  {
    match events[i]
    case PauseAt(_) => !IsPaused(events[..i])
    case ResumeAt(_) => IsPaused(events[..i])
    case BreakAt(_) => false
  }

  /** A break began with event number i, and no pause or resume has taken effect since. */
  ghost predicate BreakSince(events: seq<Event>, i: nat) {
    && i < |events| && events[i].BreakAt?
    && forall j :: i < j < |events| ==> !TakesEffect(events, j)
  }

  lemma BreakSinceGrows(events: seq<Event>, i: nat)
    requires events != [] && i < |events| - 1
    ensures var n := |events| - 1;
            BreakSince(events, i) <==> BreakSince(events[..n], i) && !TakesEffect(events, n)
  {
    var n := |events| - 1;
    assert forall j :: 0 <= j < n ==> events[..n][..j] == events[..j];
    assert forall j :: 0 <= j < n ==> (TakesEffect(events, j) <==> TakesEffect(events[..n], j));
    hide IsPaused, TakesEffect;
  }

  lemma PhaseStep(s: State, e: Event, start: int, before: seq<Event>)
    requires Keeps(s, start, before)
    ensures var all := before + [e];
            Step(s, e).phase == Break <==> e.BreakAt? || (s.phase == Break && !TakesEffect(all, |before|))
  {
    assert (before + [e])[..|before|] == before;
  }

  /** Since a round started, the phase shown is the break if and only if a break has begun and no pause or resume has
      taken effect since: one pause and resume in a break and it is shown as a running round. */
  lemma {:induction false} ResumeForgetsBreak(s: State, start: int, events: seq<Event>)
    requires s.running && !s.paused && s.roundStart == Some(start) && s.phase == Running && InOrder(start, events)
    ensures Run(s, events).phase == Break <==> exists i: nat :: BreakSince(events, i)
    decreases |events|
  {
    if events != [] {
      var n := |events| - 1;
      var init := events[..n];
      ResumeForgetsBreak(s, start, init);
      RunKeeps(s, start, init);
      assert init + [events[n]] == events;
      PhaseStep(Run(s, init), events[n], start, init);
      forall i: nat | i < n
        ensures BreakSince(events, i) <==> BreakSince(init, i) && !TakesEffect(events, n)
      {
        BreakSinceGrows(events, i);
      }
      assert forall i: nat :: BreakSince(init, i) ==> i < n;
      assert BreakSince(events, n) <==> events[n].BreakAt?;
      assert events[n].BreakAt? ==> !TakesEffect(events, n);
      assert forall i: nat :: BreakSince(events, i) ==> i <= n;
      hide BreakSince, TakesEffect, Keeps, Step;
    }
  }

  /** A manager that is stopped while paused counts the pause after all, and goes on counting. */
  lemma StopForgetsPause(s: State, roundSeconds: int, now: int, later: int)
    requires s.paused && s.roundStart.Some? && s.roundStart.value <= s.pauseTime <= now <= later
    ensures Reported(AfterStop(s), roundSeconds, now, later).elapsed
            == Reported(s, roundSeconds, now, later).elapsed + Seconds(later - s.pauseTime)
  {
  }

  datatype Call = Start(now: int, ok: bool) | Pause(now: int) | Resume(now: int) | Stop

  function Do(s: State, c: Call): State {
    match c
    case Start(now, ok) => AfterStart(s, now, ok)
    case Pause(now) => AfterPause(s, now)
    case Resume(now) => AfterResume(s, now)
    case Stop => AfterStop(s)
  }

  function DoAll(s: State, calls: seq<Call>): State {
    if calls == [] then s else Do(DoAll(s, calls[..|calls| - 1]), calls[|calls| - 1])
  }

  /** If the first callback fails in Start, no later call but Stop gives the manager a scheduler, though every
      later start reports success. */
  lemma {:induction false} FailedStartIsFinal(s: State, now: int, calls: seq<Call>)
    requires !s.running && !s.scheduled && Stop !in calls
    ensures var m := DoAll(AfterStart(s, now, false), calls); m.running && !m.scheduled
    decreases |calls|
  {
    if calls != [] {
      assert calls[|calls| - 1] in calls;
      FailedStartIsFinal(s, now, calls[..|calls| - 1]);
    }
  }

  /** The outcome of the start that made the manager run, if it is running. */
  function Opening(calls: seq<Call>): Option<bool> {
    if calls == [] then None
    else
      var before := Opening(calls[..|calls| - 1]);
      match calls[|calls| - 1]
      case Start(_, ok) => if before == None then Some(ok) else before
      case Stop => None
      case _ => before
  }

  /** A pause came while it was running, and since then no resume and no stop. */
  predicate PausedBy(calls: seq<Call>) {
    if calls == [] then false
    else
      var init := calls[..|calls| - 1];
      match calls[|calls| - 1]
      case Start(_, _) => PausedBy(init)
      case Pause(_) => Opening(init).Some?
      case Resume(_) => false
      case Stop => false
  }

  predicate EverStarted(calls: seq<Call>) {
    exists i :: 0 <= i < |calls| && calls[i].Start?
  }

  lemma EverStartedMore(calls: seq<Call>, c: Call)
    ensures EverStarted(calls + [c]) <==> EverStarted(calls) || c.Start?
  {
    assert (calls + [c])[|calls|] == c;
    if i :| 0 <= i < |calls| && calls[i].Start? {
      assert (calls + [c])[i].Start?;
    }
  }

  /** What a new manager shows after any calls: it runs from a start to the next stop, with a scheduler exactly if
      that start's callback succeeded; it is paused only while running; its round is the first from the first
      start on; and before that it reports no time at all. */
  lemma {:induction false} ManagerFollows(calls: seq<Call>, roundSeconds: int, now: int, later: int)
    ensures var m, opening := DoAll(FRESH, calls), Opening(calls);
            && (m.running <==> opening.Some?) && (m.running ==> EverStarted(calls))
            && (m.scheduled <==> opening == Some(true))
            && (m.paused <==> PausedBy(calls)) && (PausedBy(calls) ==> m.running)
            && m.round == (if EverStarted(calls) then 1 else 0)
            && m.phase == (if PausedBy(calls) then Paused else if opening.Some? then Running
                           else if EverStarted(calls) || Stop in calls then Finished else Preparation)
            && (m.roundStart == None <==> !EverStarted(calls))
            && (!EverStarted(calls) ==> Reported(m, roundSeconds, now, later) == Report(0, 0))
    decreases |calls|
  {
    if calls != [] {
      var init, last := calls[..|calls| - 1], calls[|calls| - 1];
      ManagerFollows(init, roundSeconds, now, later);
      assert calls == init + [last];
      EverStartedMore(init, last);
      hide EverStarted;
    }
  }
}
