# AWD Arena: the game engine, verified

AWD Arena runs attack/defense competitions: rounds and breaks alternate under a scheduler that can be
paused, teams take points from each other by submitting flags, scores are kept in several ledgers, and
a database row says what state a game is in. This project models the stateful parts of the Go back end
in Dafny and proves what they keep over all runs, and, where a promise of the code does not hold,
exactly when it does. `dafny verify dfyconfig.toml` checks everything.

## The parts

| files | what they model |
|---|---|
| RoundScheduler, SchedulerMachine, SchedulerTrace, SchedulerTiming, SchedulerLimits | the pausable round timer and the engine calls that drive it |
| SchedulerLeftover, SchedulerAfterStop, SchedulerLoss | what the timer can still do when it is left alone, after a stop, and after a pause at the end of a phase |
| Sums, FirstBlood, Defense, ZeroSum, ZeroSumRuns, ZeroSumOrder, ZeroSumDrift | zero-sum scoring and its three ledgers |
| Tables, FlagText, FlagService, Credits, LiveScoring, LiveScoringRuns, RoundScores, Rankings, LiveGame | flags, submissions, round scores, the cached team score, ranks, and a whole game of them |
| Lifecycle, LifecycleRuns | game service, engine manager and engines against the stored status |
| PlayedGame | requests to the service and steps of the scheduler together: stops, next games, lost processes |
| GameStateMachine | the state machine with callbacks and persistence |
| RateLimiter, ServiceChecker, WSHub, RoundClock | rate limiter, alert automaton, WebSocket hub, round manager's clock |
| PortList, HostPorts, FlagWriter | port lists, host ports, the shell command that writes a flag |
| GameModel, Options | the guards on a game's status; an option type |

Objects of the source that update their fields are classes here, and each method is proved equal to a
function on values (`Next`, `Step`, `AttackLedger`, ...). The theorems about runs are about those
functions. Scores and weights are reals, integers are unbounded, and one critical section is one step.

**The scheduler** is a machine whose state holds the scheduler's fields, the engine's, the contexts and
the program counter and local variables of the goroutine `Run`; `Pause`, `Resume`, `Stop` and the clock
may come between any two of its critical sections. `Prompt` says that time passes only while `Run`
is blocked in a select of which no case is ready, and never beyond the next timer; `NeverWedged` shows
that until `Run` returns it has a step that moves it or time may pass, never both. That is no promise that
time goes on: a `Run` that spins between a cancelled context and its select always has a step, and no time
passes (`SpinsForever`). The `Watch` is an observer that the code does not have: it counts the unpaused
time of the current phase independently of the fields that are meant to track it. A stopped timer delivers nothing afterwards, as Go has it since version 1.23.

**The database** is a set of maps and sequences; a lookup finds the first row in primary key order.
Hashes, random strings, clocks, Docker and callbacks are inputs.

## Where the code does not do what it says

- A round paused when its time is used up may never be armed again, and the game hangs (`RoundCanBeLost`,
  `LostForever`). A pause can have that effect, wherever `Run` is in its round, if and only if the round has
  run its whole length when it comes and `Run` has not yet seen its timer go off (`PauseCanLoseIff`); a pause
  that `Run` then notices in its select always has it (`NoticedPauseLosesIff`). Until a stop nothing else makes the callbacks
  cease (`NoMoreCallbacksIff`). A pause noticed in a break opens the way for
  it to be drawn out without bound if and only if the break has run its whole length
  (`OverrunsUnboundedIff`). A pause before the scheduler's first critical
  section lets the round end early (`FirstSectionDecides`).
- `Resume` replaces the engine's cancel function, so a later `Stop` does not reach the scheduler
  (`StopReachesRun`), whose pause context it cancels instead. What such a scheduler can still call back is
  known exactly (`StopLeavesExactly`): as a rule at most the one or two callbacks under way (`UnderWay`),
  after which `Run` polls a pause that nobody ends or spins without end (`ModeAfterStop`, `ComesToSpin`,
  `SpinsForever`); the whole rest of the game only if its first section came after the last resume. It can
  end the next game of the same id if and only if it can still come to its finish (`OrphanEndsNewGame`).
- After a lost process the engine goes on from the stored round. If that round had already ended, it is played
  and scored again (`CrashReplaysIff`).
- A game that finishes by itself leaves its engine registered: started again it never plays a round,
  until it is stopped (`NoRoundsUntilStopped`, `FinishResetStart`).
- `OnDefense` is commented as keeping the total; it pays out points that attackers already have
  (`RoundEndPaysLossesAgain`, `RoundEndConservesIff`).
- Scoring a round a second time loses its first-blood bonus (`RescoringLosesFirstBlood`); a team with several
  games has the score of whichever was scored last, plus what other games added since
  (`LastScoredGameWins`); the reply to an administrator's adjustment announces points that are not added
  (`AdminAdjustmentCounts`).
- A failed lookup leaves a row that keeps the right flag from being credited later (`CreditedIff`). A flag
  whose row could not be stored is handed out all the same (`HandedOutIsStoredIff`).
- A failed query of the submissions stores zeros over the scores of a round (`RowsShowWith`), and an
  adjustment of which one write fails puts the cached score out of step (`AdjustedIff`).
- `GameStateMachine` writes the status "active", which the game service does not know
  (`ServiceIsLockedOut`), and moves the stored start time at every resume (`StartTimeIsLastResume`).
- `splitPorts` is commented as reading JSON arrays and loses both ends of them (`JsonLosesBothEnds`).
- `shellEscape` escapes inside single quotes, where a backslash is just a character
  (`DeliveredExactlyIff`).
- The round manager's elapsed time does not stand still while paused, and can go back by a second: `GetState`
  reads the clock twice (`PausedReportFlickers`). It stands still at most until the fractions of elapsed time
  and pause make up a second (`StandsStillIff`).
- A reset deletes the round scores of a game but not its adjustments, which count again in the next game
  (`ResetKeepsAdjustments`). Ranks leave out adjustments, so a team can be ranked below one with a lower
  score (`RankAgainstScore`).
- With zero total rounds the defense formulas divide by zero, and the totals of the teams concerned are no
  numbers any more (`NoRoundsNoScore`, `NumbersIff`).
- A full alert channel drops alerts, and the delivered ones then need not alternate (`DeliveredAlternatesIff`);
  closing any connection of a user forgets the current one (`EntryIff`).

## Model

| member | source | states |
|---|---|---|
| RoundScheduler.RoundScheduler.Pause | internal/engine/round.go:35-69 | saves what is left of the phase under way, once, and cancels the current pause context |
| RoundScheduler.RoundScheduler.Resume | internal/engine/round.go:72-94 | restarts the phase's stopwatch under a new pause context; no effect unless paused |
| RoundScheduler.RoundScheduler.BeginBreak | internal/engine/round.go:184-189 | the whole break is left, from now on |
| RoundScheduler.RoundScheduler.RenewContext | internal/engine/round.go:269-276 | waitForResume replaces a cancelled pause context only while still paused |
| SchedulerMachine.ExecAppend | internal/engine/round.go:96-281 | runs and their promptness compose |
| SchedulerMachine.NeverWedged | internal/engine/round.go:118-281 | until Run returns, either it has a step that moves it or the clock may advance, never both and never neither |
| SchedulerTrace.CallbacksFollowScript | internal/engine/round.go:118-252 | from a start, or from any stored round, under any interleaving and any callback outcome the callbacks continue a prefix of start(1) end(1) … end(n) finish with n = max(1, totalRounds, stored round), and the game is finished exactly when all of it happened |
| SchedulerTrace.MeasureDecreases | internal/engine/round.go:157-252 | rounds left and stage within the round form a measure that no step raises and every callback lowers |
| SchedulerTrace.StopReachesRun | internal/engine/engine.go:119-200 | Stop cancels the scheduler's context exactly when no Resume has taken effect since Start; otherwise no later Stop does either, and if Run ever returns it is by having played to the end |
| SchedulerTrace.ExitsOnlyOnPurpose | internal/engine/round.go:125-176 | Run returns only when its context is done or the script is complete |
| SchedulerTrace.LostForever | internal/engine/round.go:134-141 | a round resumed with nothing left never produces another callback, whatever is called afterwards |
| SchedulerTrace.PhaseShows | internal/engine/round.go:157-252 | over any run the engine's phase is that of Run's place (running or preparation, scoring, break, finished) unless a pause has made it break or a stop finished |
| SchedulerTrace.RunningFollows | internal/engine/engine.go:87-200 | the engine runs from a start or resume until a pause, a stop or the finish |
| SchedulerTrace.PhaseFollows | internal/engine/engine.go:87-335 | which calls and which places of Run set the engine's phase, and to what |
| SchedulerTrace.NothingLeftOfBreak | internal/engine/round.go:198-218 | a break resumed with nothing left is over at once, any other gets a timer for what is left |
| SchedulerTiming.StepSound | internal/engine/round.go:35-281 | every step keeps the agreement between saved remaining time, timers, contexts and the true unpaused time |
| SchedulerTiming.StepOnTime | internal/engine/round.go:35-281 | every step keeps the bound of one poll on lateness |
| SchedulerTiming.PhasesKeepTime | internal/engine/round.go:35-281 | for any number of pauses, from any stored round, a phase ends only after its whole duration of unpaused time, and at most one 100 ms poll later unless it was paused with nothing left |
| SchedulerTiming.KeepsTimeFromBoot | internal/engine/round.go:96-144 | the same from any unpaused first section of Run |
| SchedulerLimits.FirstSectionDecides | internal/engine/round.go:96-114 | no round can end early if and only if the pause flag is clear in Run's first critical section |
| SchedulerLimits.RoundCanBeLost | internal/engine/round.go:134-141 | in every game with a duration of zero or more: a prompt run from its start to a round that never ends |
| SchedulerLoss.NoMoreCallbacksIff | internal/engine/round.go:118-144 | until a stop, no continuation at all brings another callback if and only if the round is doomed (nothing left and no timer, or about to be so) or Run has returned |
| SchedulerLoss.NoticedPauseLosesIff | internal/engine/round.go:134-141 | a pause that Run notices in its select loses the round if and only if the round has run its whole length by then |
| SchedulerLoss.PauseCanLoseIff | internal/engine/round.go:134-141 | wherever Run is in its round, a pause is followed by some continuation without further pauses that dooms the round if and only if the round has run its whole length and Run has not yet seen its timer go off |
| SchedulerLoss.DoomedWasSpent | internal/engine/round.go:35-69 | every doomed round was paused with its whole length already run, or stopped |
| SchedulerLimits.BreakOverrunUnbounded | internal/engine/round.go:198-218 | in every game with a break: for every k a prompt run in which it lasts k longer than its duration, unpaused |
| SchedulerLoss.NoticedPauseStallsIff | internal/engine/round.go:198-218 | a pause noticed in a break leaves nothing to arm the timer with if and only if the break has run its whole length |
| SchedulerLoss.OverrunsUnboundedIff | internal/engine/round.go:198-218 | from such a pause every overrun can be reached if and only if the break had run its whole length; otherwise none beyond one poll, other such pauses aside |
| SchedulerLeftover.NoMoreThanLeft | internal/engine/round.go:96-281 | left alone from any point, Run calls back a prefix of Left |
| SchedulerLeftover.AllLeftCanHappen | internal/engine/round.go:96-281 | and all of Left in some prompt run |
| SchedulerAfterStop.ModeAfterStop | internal/engine/engine.go:119-200 | after a Stop a paused Run polls on, an unpaused one goes on freely only if its first section came after the last Resume, and spins otherwise |
| SchedulerAfterStop.StopLeavesExactly | internal/engine/engine.go:162-200 | after any run and a Stop the callbacks still possible are exactly the prefixes of Left |
| SchedulerAfterStop.UnderWay | internal/engine/round.go:157-252 | for positive durations a Run that does not go on freely has at most two callbacks left, and the finish only past its last round's timer |
| SchedulerAfterStop.FreeFinishesIff | internal/engine/round.go:157-252 | one that goes on freely finishes the game or calls nothing back |
| SchedulerAfterStop.ReturnsIff | internal/engine/round.go:118-176 | left alone, Run can return if and only if its context is done or the finish is left |
| SchedulerAfterStop.SpinsForever | internal/engine/round.go:118-144 | a Run that spins lets no time pass, calls nothing back and does not return, however often Stop is called |
| SchedulerAfterStop.ComesToSpin | internal/engine/round.go:118-281 | a Run whose pause context a Stop has cancelled comes to that loop, or to a select without a timer, once nothing is left to call |
| SchedulerAfterStop.StopMayLeaveLoop | internal/engine/engine.go:119-200 | in every game with rounds that last, a Stop after a Resume may leave nothing but the loop |
| SchedulerAfterStop.StopMayLeaveGame | internal/engine/engine.go:119-200 | in every game it may leave the finish to come |
| FirstBlood.FirstBloodDetector.CheckAndRecord | internal/engine/scoring/first_blood.go:38-66 | true exactly for a flag without a record, which it then has |
| FirstBlood.FirstBloodDetector.GetTeamFirstBloods | internal/engine/scoring/first_blood.go:86-97 | all records of the team, each once, and no others |
| FirstBlood.FirstBloodDetector.LoadFromRecords | internal/engine/scoring/first_blood.go:125-134 | a later record of a flag replaces an earlier one |
| FirstBlood.ReloadRestores | internal/engine/scoring/first_blood.go:115-134 | clearing and loading back all records in any order restores the detector |
| Defense.DefenseCalculator.RecordBreach | internal/engine/scoring/defense.go:30-45 | one breach more in the entry of the round and team |
| Defense.DefenseCalculator.GetTeamBreaches | internal/engine/scoring/defense.go:70-79 | the sum of the team's column of the breach matrix |
| Defense.DefenseCalculator.GetDefenseStats | internal/engine/scoring/defense.go:132-160 | the statistics of every listed team, in order |
| Defense.StatsAgreeWithBonus | internal/engine/scoring/defense.go:50-67 | the published defense score is the bonus formula applied to the team's breaches |
| Defense.StatsAre | internal/engine/scoring/defense.go:132-160 | breaches, rounds without one, and a score that all rounds multiply up to as many defense values |
| Defense.BonusIs | internal/engine/scoring/defense.go:50-67 | the bonus is that part of the defense value for the rounds not breached, and never negative |
| Defense.NoRoundsNoScore | internal/engine/scoring/defense.go:50-67 | with zero total rounds the published score and an unbreached team's bonus are not numbers, a breached team's bonus is nothing or, for a negative value, infinite |
| Defense.BreachCounts | internal/engine/scoring/defense.go:30-45 | a breach raises the total of its team by one and of no other |
| Defense.BreachGrandTotal | internal/engine/scoring/defense.go:30-45 | and the sum over all rounds and teams by one |
| ZeroSum.ZeroSumScorer.Initialize | internal/engine/scoring/zero_sum.go:66-88 | an equal share for every id, other teams untouched |
| ZeroSum.ZeroSumScorer.OnAttack | internal/engine/scoring/zero_sum.go:93-141 | the new scores, first-blood records and breach history of an attack, the attacker and the target possibly the same |
| ZeroSum.ZeroSumScorer.OnDefense | internal/engine/scoring/zero_sum.go:169-212 | the new scores after a round end, whatever the order of the map |
| ZeroSum.ZeroSumScorer.DefensePool | internal/engine/scoring/zero_sum.go:173-179 | the loop over the map adds up all negative defense scores |
| ZeroSum.LossesAre | internal/engine/scoring/zero_sum.go:173-179 | what a team puts into the pool is the larger of zero and what it is down on defense |
| ZeroSum.ZeroSumScorer.UndefeatedTeams | internal/engine/scoring/zero_sum.go:181-187 | each team without a lost flag exactly once |
| ZeroSum.ZeroSumScorer.CalculateRoundDefenseBonus | internal/engine/scoring/zero_sum.go:216-233 | the full round bonus for unbreached teams only, and no number for them if there are no rounds |
| ZeroSum.ZeroSumScorer.ValidateZeroSum | internal/engine/scoring/zero_sum.go:237-262 | whether all totals are numbers and their sum is within tolerance of the initial total |
| ZeroSum.ZeroSumScorer.ValidateStrictZeroSum | internal/engine/scoring/zero_sum.go:265-276 | whether initial, attack and defense scores add up to the initial total |
| ZeroSumRuns.TeamScoresClosedForm | internal/engine/scoring/zero_sum.go:93-233 | after any run, each team's attack and defense score, captures and losses in closed form; its total is the sum of its parts and its losses are its column of the breach matrix |
| ZeroSumRuns.RecordsAreFlags | internal/engine/scoring/first_blood.go:38-66 | the first-blood records are exactly the flags captured |
| ZeroSumRuns.RecordsNameFirst | internal/engine/scoring/first_blood.go:38-66 | the record of a flag names the team, round and time of the first correct attack on it |
| ZeroSumRuns.BreachesByRound | internal/engine/scoring/defense.go:30-45 | the breach matrix holds the correct attacks by round and target |
| ZeroSumRuns.SharesAtStart | internal/engine/scoring/zero_sum.go:66-88 | after Initialize each listed team has an equal share of the initial total and nothing else |
| ZeroSumRuns.ZeroSumClosedForm | internal/engine/scoring/zero_sum.go:93-141 | all attack scores equal minus all defense scores equal flag value × (correct attacks + bonus × flags captured), and the breach matrix holds each correct attack once |
| ZeroSumOrder.TotalsIgnoreOrder | internal/engine/scoring/zero_sum.go:93-141 | the two sums and every team's captures and losses are the same for every order of the events |
| ZeroSumOrder.OrderFreeIff | internal/engine/scoring/zero_sum.go:101-114 | single scores are the same for every order if and only if the bonus is worth nothing or no flag was captured by, or from, two teams |
| ZeroSumOrder.FirstsAreOwned | internal/engine/scoring/first_blood.go:38-66 | with one team per flag, its first bloods are the flags it owns |
| ZeroSumDrift.RoundEndDrift | internal/engine/scoring/zero_sum.go:169-233 | what a round end adds to all totals and to all bonuses |
| ZeroSumDrift.RoundEndPaysLossesAgain | internal/engine/scoring/zero_sum.go:162-212 | nothing if every team is breached, otherwise all losses so far once more plus a defense value for each unbreached team |
| ZeroSumDrift.RoundEndConservesIff | internal/engine/scoring/zero_sum.go:165-168 | the total is kept if and only if flags are worth nothing or every team is breached |
| ZeroSumDrift.SharesAreEqual | internal/engine/scoring/zero_sum.go:189-196 | a round end gives all unbreached teams the same and the others nothing |
| ZeroSumDrift.RoundsDefendedCount | internal/engine/scoring/zero_sum.go:189-196 | a team's defended rounds are the round ends at which it had lost nothing while some flag had been captured |
| ZeroSumDrift.StartTotal | internal/engine/scoring/zero_sum.go:66-81 | Initialize hands out the initial total if and only if it is zero or the ids are distinct |
| ZeroSumDrift.StrictCheckNeverFails | internal/engine/scoring/zero_sum.go:265-276 | after any run the strict check passes, exactly |
| ZeroSumDrift.CheckPassesIff | internal/engine/scoring/zero_sum.go:237-262 | the tolerant check passes if and only if all totals are numbers and all defense bonuses together are at most 0.01 or at most half the flag value for each team |
| ZeroSumDrift.NumbersIff | internal/engine/scoring/zero_sum.go:216-233 | all totals are numbers if and only if no round end with zero total rounds met an unbreached team |
| ZeroSumDrift.TotalsByParts | internal/engine/scoring/zero_sum.go:93-233 | the sum of totals is what was handed out plus the bonuses |
| ZeroSumDrift.StatsMatchLedger | internal/engine/scoring/defense.go:132-160 | published breaches and scores agree with the losses in the score ledger |
| FlagText.FlagsDiffer | internal/service/flag_service.go:73 | flags of different games, rounds, teams or challenges differ whatever their random parts |
| FlagText.KeysDiffer | internal/engine/scoring.go:68 | the first-blood key determines game, target and flag hash |
| LiveGame.SeenAreCaptured | internal/engine/scoring.go:68 | so after any rounds the detector's keys are as many as the flags captured, each named by one key |
| FlagService.FlagService.GenerateFlags | internal/service/flag_service.go:66-86 | a row and a value for every team and challenge; without random bytes the rows so far stay and nothing is returned |
| FlagService.RowsAreGenerated | internal/service/flag_service.go:66-86 | every row stored holds the hash of a flag of its game, round and team |
| FlagService.HandedOutIsStoredIff | internal/service/flag_service.go:66-86 | each flag handed out has its row if and only if the database took it |
| FlagService.FlagService.SubmitFlag | internal/service/flag_service.go:89-157 | answer and new rows of a submission, with a failing lookup or insert |
| FlagService.GeneratedFlagFindsItsTeam | internal/service/flag_service.go:66-100 | a submitted flag is matched with the team it was generated for, and only if it was stored |
| FlagService.AnswerSaysIff | internal/service/flag_service.go:89-157 | an answer is correct if and only if lookup and insert work and the flag is stored for another team of that game and round; an error if and only if it is and the insert fails; otherwise wrong and without points |
| FlagService.CreditedOnceAndNeverToOwner | internal/service/flag_service.go:116-145 | in any run, while flags and weights change, a flag is credited at most once per game, round and attacker, never to its owner at the call, for ten points times the weight at the call |
| FlagService.AnnouncedIsStored | internal/service/flag_service.go:134-156 | in any such run the points announced to an attacker in a round are the points of its stored correct rows |
| FlagService.CreditedIff | internal/service/flag_service.go:97-142 | in any such run a call is credited if and only if it finds another team's flag, the insert works and no earlier call got to the insert with the same key |
| LiveScoring.ScoreCalculator.TallySubmissions | internal/engine/scoring.go:59-78 | the three maps hold each team's points won, points lost and bonus for first captures |
| LiveScoring.ScoreCalculator.CalculateRoundScores | internal/engine/scoring.go:29-119 | one row for every enrolled team, inserted or updated, recomputed cached scores and new ranks, with any query or write failing |
| RoundScores.RowSays | internal/engine/scoring.go:53-99 | a team's row, off the table of submissions: attack weight times the points of its correct rows of the round, defense weight times those of the rows against it, the difference plus 50 for each flag that it was the first to capture in the round and that no scoring before has seen |
| RoundScores.ScoringStores | internal/engine/scoring.go:53-119 | and that is the row stored for each enrolled team |
| RoundScores.AnnouncedIsScored | internal/engine/scoring.go:64-85 | so the attack score is the attack weight times the points that the round's answers announced |
| LiveScoring.ScoreCalculator.UpdateCumulativeTeamScores | internal/engine/scoring.go:122-170 | every team with a row in the game gets the sum of its rows and adjustments, others keep their score; then the ranks; with any query or write failing |
| LiveScoring.ScoreCalculator.UpdateRankings | internal/engine/scoring.go:194-228 | each team's place in the query's result is written to its latest row |
| LiveScoring.ContainerService.RestartContainer | internal/service/container_service.go:303-320 | an adjustment of -50 and the same off the cached score, which drops even if the adjustment is not inserted |
| LiveScoring.ScoreService.AdjustScore | internal/service/score_service.go:31-61 | an adjustment and the same on the cached score, or an error without the game or when a write fails, a failed update leaving the adjustment |
| LiveScoring.AdminHandler.AdjustScore | internal/handler/admin_handler.go:613-680 | which requests are refused with 400, 404 and 500, and what the others write and reply |
| LiveScoring.NothingFails | internal/engine/scoring.go:29-170 | with nothing failing, scoring and recomputing are the operations of the runs below |
| LiveScoringRuns.OneRowHoweverOften | internal/engine/scoring.go:101-115 | one row per game, round and team however often rounds are scored |
| LiveScoringRuns.RowsShow | internal/engine/scoring.go:84-116 | after a scoring each enrolled team's row is the one computed, other teams' rows are as before |
| LiveScoringRuns.RecomputeIsRight | internal/engine/scoring.go:161-167 | a recomputation puts the cache in step whatever it held |
| LiveScoringRuns.RecomputedIff | internal/engine/scoring.go:121-170 | after a recomputation that goes wrong here and there a team is in step if and only if its score was written from complete sums, or not written and right before |
| LiveScoringRuns.RowsShowWith | internal/engine/scoring.go:54-116 | a failed query of the submissions stores zeros, a failed write keeps the old row |
| LiveScoringRuns.AdjustedIff | internal/service/container_service.go:303-320 | an adjustment keeps the score in step if and only if both writes succeed or both fail, or it is worth nothing |
| LiveScoringRuns.CacheIsLedger | internal/engine/scoring.go:121-170 | over any interleaving of scorings, restarts and both kinds of adjustment, the cached score of a team with one game and a row is the sum of its rows and adjustments |
| LiveScoringRuns.ResetKeepsAdjustments | internal/service/game_service.go:262-301 | after a reset the game's ledger is its old adjustments alone, and the first scoring afterwards adds them to the new rows; other games keep theirs |
| Rankings.RankGoesToLatest | internal/engine/scoring.go:217-225 | a ranking writes each team's place to the row of its latest round and no other row changes |
| Rankings.RankCountsTeamsAhead | internal/engine/scoring.go:194-228 | the rank is above the number of teams with a higher sum of rows and at most that of teams with no lower one |
| Rankings.RankAgainstScore | internal/engine/scoring.go:207-212 | of two teams in step the one ranked lower has the higher score if and only if its adjustments outweigh what its rows are short |
| LiveScoringRuns.LastScoredGameWins | internal/engine/scoring.go:133-167 | over any run and any number of games the score is the ledger of the game last written to it plus what other games have added since |
| LiveScoringRuns.InStepWithLastIff | internal/engine/scoring.go:133-167 | so it is in step with that game if and only if others have added nothing since |
| LiveScoringRuns.OtherGameKeepsIff | internal/engine/scoring.go:121-170 | an operation of another game keeps the score in step if and only if it overwrites it with an equal ledger or adds nothing |
| LiveScoringRuns.AdminAdjustmentCounts | internal/handler/admin_handler.go:644-680 | how much an adjustment really changes, and that the reply is right if and only if the amount is whole and the team has a row |
| LiveScoringRuns.TruncateTowardZero | internal/handler/admin_handler.go:649 | the adjustment stored is the amount rounded towards zero |
| LiveScoringRuns.RoundTotals | internal/engine/scoring.go:59-99 | a round's totals sum to (attack weight − defense weight) × points credited + 50 × flags newly first-blooded |
| LiveScoringRuns.RescoringLosesFirstBlood | internal/engine/scoring.go:67-118 | scoring again keeps attack and defense and takes back exactly the first-blood bonus |
| LiveGame.RoundsScoredOnceInOrder | internal/engine/round.go:157-176 | whatever pauses, resumes and stops there are, rounds are scored in order and once each from the stored round on, and all of them by the time the game finishes |
| LiveGame.NewRound | internal/engine/scoring.go:84-106 | scoring a round for the first time adds its row's total to each enrolled team and nothing to others |
| LiveGame.GameTotals | internal/engine/scoring.go:29-170 | once every round is scored, whatever restarts and adjustments came between, the cached scores of all teams add up to (attack weight − defense weight) × all points credited + 50 × flags captured at all + all adjustments |
| LiveGame.FinishedGameTotals | internal/engine/round.go:157-176 | the same from any run of the scheduler from a start in which the game finished and its engine scored the rounds as they ended, for the points of all rounds and the number of flags captured |
| Lifecycle.CompetitionEngine.Start | internal/engine/engine.go:61-85 | engine and row after a start; no effect while running |
| Lifecycle.CompetitionEngine.Pause | internal/engine/engine.go:87-117 | engine and row after a pause |
| Lifecycle.CompetitionEngine.Resume | internal/engine/engine.go:119-160 | engine and row after a resume, which puts a going scheduler out of reach |
| Lifecycle.CompetitionEngine.Stop | internal/engine/engine.go:162-200 | ends the scheduler if it is in reach, and otherwise sets it adrift with the callbacks it has left |
| Lifecycle.CompetitionEngine.FinishGame | internal/engine/engine.go:320-347 | the scheduler's own finish leaves the engine in place |
| Lifecycle.EngineManager.StartGame | internal/engine/manager.go:24-47 | nothing new if an engine exists; other games unaffected |
| Lifecycle.EngineManager.ResumeGame | internal/engine/manager.go:65-89 | resumes the engine or makes one at the stored round |
| Lifecycle.EngineManager.StopGame | internal/engine/manager.go:91-106 | stops and forgets the engine, whose scheduler is dropped: cancelled or adrift, with what is left of it |
| Lifecycle.EngineManager.ShutdownAll | internal/engine/manager.go:121-130 | stops every engine, in any order, and no other game changes |
| Lifecycle.GameService.StartGame | internal/service/game_service.go:60-118 | row and engine after a start, undone if the engine cannot be created |
| Lifecycle.GameService.PauseGame | internal/service/game_service.go:121-163 | row and engine after a pause |
| Lifecycle.GameService.ResumeGame | internal/service/game_service.go:166-212 | row and engine after a resume, also if the engine cannot be created |
| Lifecycle.GameService.StopGame | internal/service/game_service.go:215-259 | row finished and engine gone |
| Lifecycle.GameService.ResetGame | internal/service/game_service.go:262-301 | back to draft from draft or finished; of submissions, round scores and flags the game's are deleted and all others kept in their order; nothing else changes, the engine and dropped schedulers included |
| LifecycleRuns.StepAgreesIff | internal/service/game_service.go:60-301 | from agreement between status and engine, exactly three things break it while the game has an engine: its natural finish, a crash, and a dropped scheduler that calls the finish it has left |
| LifecycleRuns.AcceptsIff | internal/service/game_service.go:70-275 | which requests are accepted, by status, phase and engine |
| LifecycleRuns.RowAfter | internal/service/game_service.go:80-301 | status, phase and round that each accepted request leaves in the row |
| LifecycleRuns.EngineAfter | internal/engine/engine.go:61-200 | the engine that each accepted request leaves |
| LifecycleRuns.EngineEnds | internal/engine/engine.go:162-347 | what a stopped and a finished engine and their rows show |
| LifecycleRuns.CallbackWrites | internal/engine/engine.go:214-338 | what callbacks of live and of dropped schedulers write |
| LifecycleRuns.ServerAgrees | internal/engine/manager.go:24-130 | over any interleaving of operations on all games without those three, running, paused and the rest agree with the manager's engines |
| LifecycleRuns.GamesAreIndependent | internal/service/game_service.go:22-36 | a game's state depends on its own operations alone |
| LifecycleRuns.RefusedChangesNothing | internal/service/game_service.go:70-111 | a refused operation changes nothing but the phase of a draft |
| LifecycleRuns.NoRoundsUntilStopped | internal/engine/manager.go:28-30 | after a natural finish no operation gives a live scheduler until a stop is accepted or the process ends |
| LifecycleRuns.FinishResetStart | internal/engine/engine.go:320-347 | natural finish, reset and start succeed and store running beside an engine that does not run |
| LifecycleRuns.StopHeals | internal/service/game_service.go:215-259 | an accepted stop restores agreement from any state |
| LifecycleRuns.OrphansAreStopsAfterResume | internal/engine/engine.go:119-167 | a stop sets its scheduler adrift exactly if the game was resumed since its last start; schedulers adrift are as many as such stops |
| LifecycleRuns.OrphanEndsGameIff | internal/engine/engine.go:320-338 | a dropped scheduler can end a running game, in the database and while its engine plays on, if and only if the finish is among what it has left |
| LifecycleRuns.PauseAndResumeAfterCrash | internal/engine/manager.go:65-89 | after a crash pause and resume restore agreement at the stored round, if and only if the engine can be created |
| PlayedGame.PlayTogether | internal/engine/engine.go:61-200 | in any interleaving of requests and scheduler steps, until Run returns, row, engine and scheduler agree on status, round, reach of the cancel function and what a stop would leave |
| PlayedGame.OrphanEndsNewGame | internal/engine/engine.go:320-338 | after any such interleaving and a stop, the scheduler can end the next game if and only if, left alone, it can still come to its finish: for positive durations exactly if it goes on freely with something left, or stands past its last timer |
| PlayedGame.CrashReplaysIff | internal/engine/manager.go:65-89 | after any such interleaving, a lost process, a pause and a resume, the callbacks before and after are those of one game, however it goes on, if and only if the round was under way at the loss |
| GameStateMachine.GameStateMachine.Transition | internal/engine/game_state_machine.go:138-214 | outcome, callbacks run and new state of a transition with failing callbacks and a failing store |
| GameStateMachine.GameStateMachine.PersistState | internal/engine/game_state_machine.go:246-275 | the row written, with the time stamps of two states |
| GameStateMachine.SucceedsIff | internal/engine/game_state_machine.go:138-214 | a transition succeeds if and only if the event is allowed, every callback succeeds and the store works if used |
| GameStateMachine.AlwaysCoherent | internal/engine/game_state_machine.go:278-297 | over every run the model maps back to the state, and with persistence so does the stored row |
| GameStateMachine.FailureChangesNothing | internal/engine/game_state_machine.go:176-191 | a failed transition leaves state and row; it touches the model only to put it in this machine's words |
| GameStateMachine.EventsInOrder | internal/engine/game_state_machine.go:60-74 | what succeeds is a start, pauses and resumes in turn and at most one last finish; the state follows from it |
| GameStateMachine.WordsFollowEvents | internal/engine/game_state_machine.go:229-275 | status and phase, in the model and in the stored row, are the words of the last event that succeeded |
| GameStateMachine.FinishedIsFinal | internal/engine/game_state_machine.go:73 | nothing succeeds or changes after the finish |
| GameStateMachine.StartTimeIsLastResume | internal/engine/game_state_machine.go:258-266 | the stored start time is that of the last start or resume unless one was loaded; the end time that of the finish |
| GameStateMachine.ServiceIsLockedOut | internal/engine/game_state_machine.go:229-243 | once the machine has moved a game, none of the service's guards accepts it |
| GameStateMachine.RunningLoadsAsDraft | internal/engine/game_state_machine.go:278-297 | a game that the service runs or paused loads as a draft that can only be started |
| RateLimiter.MultiKeyRateLimiter.Allow | internal/middleware/ratelimit.go:46-66 | verdict and new list of a call |
| RateLimiter.HeldIsEnough | internal/middleware/ratelimit.go:50-64 | from any later moment the pruned list shows as many allowed calls as the full record |
| RateLimiter.AllowedIff | internal/middleware/ratelimit.go:46-66 | a call is allowed if and only if fewer than limit earlier calls of its key were allowed in (now − window, now], whatever other keys did |
| RateLimiter.NeverMoreThanLimit | internal/middleware/ratelimit.go:46-66 | no interval of the window's length holds more than limit allowed calls of a key |
| ServiceChecker.ServiceChecker.HandleStatusChange | internal/monitor/health_checker.go:263-311 | new counter, status and flag, and the alert sent if the channel has room |
| ServiceChecker.StateFollowsHistory | internal/monitor/health_checker.go:263-311 | the counter is the unhealthy suffix, the flag says whether the last alert was down, and alerts alternate starting with down |
| ServiceChecker.AlertIff | internal/monitor/health_checker.go:274-291 | down exactly at the threshold-th failure in a row with no alert open; recovered exactly on unhealthy straight to healthy with one open; each carries the status before it |
| ServiceChecker.OpenIff | internal/monitor/health_checker.go:274-291 | an alert is open if and only if the service went down and was not since seen to go from unhealthy straight to healthy |
| ServiceChecker.OpenWhileDown | internal/monitor/health_checker.go:274-291 | without unknown results an alert is open exactly while the service is down |
| ServiceChecker.UnknownHidesRecovery | internal/monitor/health_checker.go:284-291 | one unknown result before the recovery and no recovery is announced while the service stays up |
| ServiceChecker.OneAlertWithoutRecovery | internal/monitor/health_checker.go:284-291 | without recovery notices there is at most one alert ever |
| ServiceChecker.DeliveredFromDecided | internal/monitor/health_checker.go:294-308 | a full channel only drops alerts |
| ServiceChecker.DeliveredAlternatesIff | internal/monitor/health_checker.go:294-308 | delivered alerts alternate if and only if none is delivered after an odd number of dropped ones |
| WSHub.WSHub.Unregister | internal/server/ws.go:75-83 | the connection is gone from the clients and from every channel, and the user from the current connections |
| WSHub.WSHub.TrackUserSub | internal/server/ws.go:94-103 | appends a channel unless it is there |
| WSHub.WSHub.RestoreSubs | internal/server/ws.go:105-114 | subscribes to every tracked channel |
| WSHub.SubscribersAreLive | internal/server/ws.go:68-114 | in every interleaving a channel's subscribers are exactly the registered connections that subscribed to it |
| WSHub.TrackedOnlyGrows | internal/server/ws.go:94-103 | tracked channels have no repetitions and only grow at the end |
| WSHub.RestoredEverything | internal/server/ws.go:194-198 | a session that reads messages is subscribed to every channel tracked for its user when its restore began |
| WSHub.RestoreEnds | internal/server/ws.go:105-198 | left alone, a new session comes to reading messages after one step for each tracked channel and two more |
| WSHub.SubscriptionsAreRemembered | internal/server/ws.go:207-214 | what a session subscribed to is tracked for its user, but for the message under way |
| WSHub.RecordedConnectionIsLive | internal/server/ws.go:68-83 | the current connection of a user is a registered one of that user |
| WSHub.EntryIff | internal/server/ws.go:68-83 | a user has a current connection if and only if the last of its connections' openings and closings was an opening |
| RoundClock.RoundManager.Start | internal/engine/round_manager.go:88-110 | a start, also one whose callback fails |
| RoundClock.RoundManager.Resume | internal/engine/round_manager.go:139-165 | moves the start of the round by the pause |
| RoundClock.RoundManager.GetState | internal/engine/round_manager.go:192-229 | elapsed and remaining seconds from two readings of the clock |
| RoundClock.ReportIsWithinASecond | internal/engine/round_manager.go:113-229 | after any pauses and resumes the reported elapsed time is within a second of the true unpaused time, and elapsed plus remaining is the duration |
| RoundClock.PausedReportFlickers | internal/engine/round_manager.go:209-217 | the exact value reported while paused, from any two readings of the clock: a carry up, and one down for each whole second of the pause completed between the readings |
| RoundClock.StandsStillIff | internal/engine/round_manager.go:209-217 | for all readings within a pause of a given length it stands still if and only if the fraction of elapsed time at the pause and that length stay below a second together |
| RoundClock.StopForgetsPause | internal/engine/round_manager.go:168-189 | stopped while paused, the pause is counted after all |
| RoundClock.ResumeForgetsBreak | internal/engine/round_manager.go:139-152 | over any events: the phase is break if and only if a break has begun since the last pause or resume that took effect |
| RoundClock.FailedStartIsFinal | internal/engine/round_manager.go:92-106 | after a start whose callback failed no later call but a stop gives the manager a scheduler |
| RoundClock.ManagerFollows | internal/engine/round_manager.go:88-189 | after any calls: running from a start to the next stop, with a scheduler exactly if that start's callback succeeded; paused, phase and round by the calls; no time reported before a first start |
| PortList.SplitString | internal/container/manager.go:390-401 | the pieces between separators |
| PortList.JoinSplit | internal/container/manager.go:390-401 | the pieces hold no separator and joined they are the input |
| PortList.SplitJoin | internal/container/manager.go:390-401 | and no other non-empty list is so |
| PortList.TrimSpace | internal/container/manager.go:403-412 | the text without the blanks around it |
| PortList.TrimTakesBlanks | internal/container/manager.go:403-412 | only blanks are taken off, and all at both ends |
| PortList.SplitPorts | internal/container/manager.go:377-388 | the ports of the pieces, all valid |
| PortList.PortOfNumber | internal/container/manager.go:377-388 | of all numbers, with or without a plus sign, exactly 1 to 65535 are read as ports |
| PortList.ListReadsBack | internal/container/manager.go:377-388 | a list of valid ports written with commas and any blanks is read back exactly |
| PortList.JsonLosesBothEnds | internal/container/manager.go:376-380 | a JSON array loses its first and last port |
| PortList.JsonOfOneIsLost | internal/container/manager.go:376-380 | and an array of one is read as empty |
| HostPorts.FillPorts | internal/container/manager.go:126-134 | each listed port mapped to the base plus its place, a later mention replacing an earlier |
| HostPorts.ProvisionContainers | internal/service/container_service.go:121-185 | the containers created, the count of failures, and failure exactly if none was created |
| HostPorts.PlanIsComplete | internal/service/container_service.go:146-163 | a team has a container for a challenge if and only if Docker creates it, whatever else failed |
| HostPorts.PlanPorts | internal/service/container_service.go:143-163 | every container maps exactly the ports that its challenge lists, each to the host port of its last place in the slot of team and challenge |
| HostPorts.PlanValidIff | internal/service/container_service.go:143-163 | all ports of a plan are at most 65535, whatever Docker creates, if and only if the last ports of the largest team id are |
| HostPorts.PlanValidUpTo | internal/service/container_service.go:143-163 | with n ports in every challenge, if and only if 10 × challenges × largest team id + n ≤ 34546; with ten ports, challenges × largest id ≤ 3453 |
| HostPorts.NoHostPortTwice | internal/service/container_service.go:143-163 | no host port is given out twice if no challenge lists more than ten valid ports |
| HostPorts.OneContainer | internal/container/manager.go:126-134 | inside a container host ports differ and every listed port has one |
| HostPorts.SlotsCollideIff | internal/service/container_service.go:151 | two slots share a host port if and only if the lower one's ports reach up to the higher one |
| HostPorts.SlotsDiffer | internal/service/container_service.go:151 | different teams or challenges have different slots |
| HostPorts.AllValidIff | internal/service/container_service.go:143-163 | for any numbers of ports in the challenges, all host ports are at most 65535 if and only if the last port of each challenge of the largest team id is |
| HostPorts.ValidUpTo | internal/service/container_service.go:143-151 | with n ports in each challenge: if and only if 10 × challenges × largest team id + n ≤ 34546; with ten ports, challenges × largest id ≤ 3453 |
| FlagWriter.ShellEscapeIsCharwise | internal/engine/flag_writer.go:30-39 | the seven replacements are one map over the characters |
| FlagWriter.SanitizeIsSafe | internal/engine/flag_writer.go:16-28 | a path that is absolute, of letters, digits and _/-. and without two dots in a row is kept, any other becomes /flag |
| FlagWriter.QuotedFlagIsOneWord | internal/engine/flag_writer.go:79-80 | a quoted flag is read by the shell as exactly one word |
| FlagWriter.CommandReadsAs | internal/engine/flag_writer.go:71-82 | for every flag and path the command line is read as the same nine tokens |
| FlagWriter.DeliveredExactlyIff | internal/engine/flag_writer.go:30-39 | the flag arrives unchanged if and only if it has no backslash, backquote, dollar, exclamation mark or line end |
| FlagWriter.GeneratedFlagDelivered | internal/service/flag_service.go:69-73 | every generated flag arrives unchanged |

## Left out

- Host ports above 65535 are handed to Docker, which refuses them.
- LiveGame.FinishedGameTotals: for an engine begun by a start; one that goes on from a stored round has a new first-blood detector.
- PlayedGame.OrphanEndsNewGame: schedulers of still earlier games make no calls while the first game is played.
- Docker, iptables, SMTP, HTTP, WebSocket transport, SQL and configuration: foreign calls, represented by their outcomes.
- The frontend, export, WAF patterns, RBAC, CRUD handlers, log stores and ranking display: single lookups or library behaviour.
- JWT, bcrypt, SHA-256 and random numbers: inputs; GeneratedFlagFindsItsTeam asks for a hash without collisions, and no model of SHA-256 is made.
- Floating-point rounding: scores are reals, so sums do not depend on the order of a Go map.
- Go memory-model races: unsynchronised reads such as IsRunning are one step with their critical section.
- `RoundScheduler.Run` as a loop: its steps have to interleave with those of the engine, so SchedulerMachine has it as a program counter with one step per critical section or select.
- SchedulerTiming.PhasesKeepTime: callbacks and timers take no time of their own, the first section of Run comes before the first pause, and phases paused with nothing left have no upper bound; FirstSectionDecides, PauseCanLoseIff and OverrunsUnboundedIff say exactly what happens without the last two conditions.
- SchedulerLeftover.NoMoreThanLeft: the engine is left alone; another Pause or Resume of an engine that the manager has dropped is not possible, as nothing refers to it.
- LiveScoringRuns.CacheIsLedger: a team with rows in one game, and nothing fails; LastScoredGameWins is about several games, RecomputedIff and AdjustedIff about failures. Team reset and game reset delete rows and are not operations of the run; ResetKeepsAdjustments is about one reset.
- LiveScoring.ScoreCalculator.CalculateRoundScores: a failing query for the existing row is the failing write of that team's row, as the unique index of migrations/001_init_schema.sql makes it; tables made by AutoMigrate alone lack that index and would then hold the row twice.
- LiveScoring.AdminHandler.AdjustScore: a lookup that fails is one that finds nothing, as in the source.
- Failing writes in the game service: they succeed there; SubmitFlag, GenerateFlags, LiveScoring and GameStateMachine do have failing stores.
- Deleting a game, and UpdateGame, which overwrites a row with anything.
- RoundManager.runScheduler: its timer is not paused at all and its breaks restart at every pause; RoundScheduler is the scheduler that games use.
- WSHub.WSHub.RestoreSubs: the method is undisturbed by others; the steps between which other sessions run are those of WSHub.Step.
- FlagWriter.CommandReadsAs: the reader knows blanks, plain words, both quotings by single quote and backslash, `>` and `&&`, and gives up on anything else; numbers before `>` do not occur in the command.
- PortList.SplitPorts: text is a sequence of characters, not of bytes; no character outside ASCII is a digit, a sign, a blank or a comma.
