/** A whole game: the scheduler scores every round once and in order, and what the cached scores then
    add up to. */
module LiveGame {
  import opened Credits
  import opened FlagText
  import opened LiveScoring
  import opened LiveScoringRuns
  import opened Sums
  import opened Tables
  import SchedulerMachine
  import SchedulerTrace

  // ---------------------------------------------------------------- which rounds are scored

  /** The rounds whose scores the scheduler has had calculated: onRoundEnd does it. */
  function ScoredRounds(trace: seq<SchedulerMachine.Callback>): seq<int> {
    if trace == [] then []
    else
      ScoredRounds(trace[..|trace| - 1])
      + match trace[|trace| - 1]
        case Ended(round) => [round]
        case _ => []
  }

  /** 1, 2, ..., k */
  function UpTo(k: nat): seq<int> {
    if k == 0 then [] else UpTo(k - 1) + [k]
  }

  lemma ScoredSnoc(trace: seq<SchedulerMachine.Callback>, c: SchedulerMachine.Callback)
    ensures ScoredRounds(trace + [c])
            == ScoredRounds(trace) + match c case Ended(round) => [round] case _ => []
  {
    assert (trace + [c])[..|trace|] == trace;
  }

  lemma RoundMore(k: nat)
    requires k > 0
    ensures SchedulerTrace.Rounds(k)
            == SchedulerTrace.Rounds(k - 1) + [SchedulerMachine.Started(k)] + [SchedulerMachine.Ended(k)]
    ensures UpTo(k) == UpTo(k - 1) + [k]
  {
  }

  lemma {:induction false} ScoredInAll(k: nat)
    ensures ScoredRounds(SchedulerTrace.Rounds(k)) == UpTo(k)
  {
    if k > 0 {
      var before := SchedulerTrace.Rounds(k - 1);
      hide SchedulerTrace.Rounds, ScoredRounds, UpTo;
      ScoredInAll(k - 1);
      RoundMore(k);
      ScoredSnoc(before, SchedulerMachine.Started(k));
      ScoredSnoc(before + [SchedulerMachine.Started(k)], SchedulerMachine.Ended(k));
      assert UpTo(k - 1) + [] == UpTo(k - 1);
    }
  }

  lemma {:induction false} ScoredInRounds(k: nat, trace: seq<SchedulerMachine.Callback>) returns (j: nat)
    requires trace <= SchedulerTrace.Rounds(k)
    ensures j <= k && ScoredRounds(trace) == UpTo(j)
    decreases k
  {
    if k == 0 {
      j := 0;
    } else {
      hide ScoredRounds, UpTo;
      var before := SchedulerTrace.Rounds(k - 1);
      RoundMore(k);
      if |trace| <= |before| {
        assert trace <= before;
        j := ScoredInRounds(k - 1, trace);
      } else if |trace| == |before| + 1 {
        assert trace == before + [SchedulerMachine.Started(k)];
        ScoredInAll(k - 1);
        ScoredSnoc(before, SchedulerMachine.Started(k));
        assert UpTo(k - 1) + [] == UpTo(k - 1);
        j := k - 1;
      } else {
        assert trace == SchedulerTrace.Rounds(k);
        ScoredInAll(k);
        j := k;
      }
    }
  }

  lemma {:induction false} ScoredConcat(a: seq<SchedulerMachine.Callback>, b: seq<SchedulerMachine.Callback>)
    ensures ScoredRounds(a + b) == ScoredRounds(a) + ScoredRounds(b)
    decreases |b|
  {
    if b == [] {
      assert a + b == a;
    } else {
      var init, last := b[..|b| - 1], b[|b| - 1];
      ScoredConcat(a, init);
      ScoredSnoc(a + init, last);
      assert a + b == a + init + [last];
    }
  }

  /** How many rounds were over when the stored round began. */
  function RoundsBefore(stored: nat): nat {
    if stored == 0 then 0 else stored - 1
  }

  lemma ScoredBefore(stored: nat)
    ensures ScoredRounds(SchedulerTrace.Told(stored)) == UpTo(RoundsBefore(stored))
  {
    if stored > 0 {
      ScoredInAll(stored - 1);
      ScoredSnoc(SchedulerTrace.Rounds(stored - 1), SchedulerMachine.Started(stored));
    }
  }

  /** Whatever pauses, resumes and stops there are, rounds are scored in order, each once, from the stored round
      on; all of them, and no more, by the time the game finishes. */
  lemma RoundsScoredOnceInOrder(cfg: SchedulerMachine.Config, now: nat, stored: nat, acts: seq<SchedulerMachine.Action>)
    ensures var t := SchedulerMachine.Exec(cfg, SchedulerMachine.Init(now, stored), acts).trace;
            var n, rounds := SchedulerTrace.LastRound(cfg, stored), UpTo(RoundsBefore(stored)) + ScoredRounds(t);
            && (exists j: nat :: j <= n && rounds == UpTo(j))
            && (SchedulerMachine.Finished in t ==> rounds == UpTo(n))
  {
    SchedulerTrace.CallbacksFollowScript(cfg, now, stored, acts);
    var t := SchedulerMachine.Exec(cfg, SchedulerMachine.Init(now, stored), acts).trace;
    var whole := SchedulerTrace.Told(stored) + t;
    var n := SchedulerTrace.LastRound(cfg, stored);
    var rounds := SchedulerTrace.Rounds(n);
    ScoredBefore(stored);
    ScoredConcat(SchedulerTrace.Told(stored), t);
    hide SchedulerMachine.Exec, SchedulerTrace.Rounds, SchedulerTrace.Told, ScoredRounds, UpTo;
    ScoredInAll(n);
    ScoredSnoc(rounds, SchedulerMachine.Finished);
    assert UpTo(n) + [] == UpTo(n);
    if whole != rounds + [SchedulerMachine.Finished] {
      assert whole <= rounds;
      var j := ScoredInRounds(n, whole);
    }
  }

  // ---------------------------------------------------------------- what the scores add up to

  /** The rounds of a game: for each the correct submissions. */
  type Play = seq<seq<Submission>>

  /** Everything that the first-blood detector has seen after the first k rounds. */
  function SeenAfter(game: int, play: Play): set<string> {
    if play == [] then {} else SeenAfter(game, play[..|play| - 1]) + FlagKeys(game, play[|play| - 1])
  }

  function PointsIn(play: Play): real {
    if play == [] then 0.0 else PointsIn(play[..|play| - 1]) + PointsOf(play[|play| - 1])
  }

  /** The scoring of the last round. */
  function LastScoring(game: int, aw: real, dw: real, play: Play): Scoring
    requires play != []
  {
    Scoring(game, |play|, aw, dw, SeenAfter(game, play[..|play| - 1]), play[|play| - 1])
  }

  /** The score rows after every round was scored once, from a table without rows of the game. */
  function RowsAfter(rows: seq<RoundScore>, game: int, aw: real, dw: real, play: Play,
                     teams: seq<int>): seq<RoundScore> {
    if play == [] then rows
    else
      UpsertAll(RowsAfter(rows, game, aw, dw, play[..|play| - 1], teams),
                RowsOf(LastScoring(game, aw, dw, play), teams))
  }

  /** No row of the game is of a later round than `k`. */
  ghost predicate NoneAfter(rows: seq<RoundScore>, game: int, k: int) {
    forall i :: 0 <= i < |rows| && rows[i].game == game ==> rows[i].round <= k
  }

  function SumOfRows(rows: seq<RoundScore>, game: int, teams: seq<int>): real {
    if teams == [] then 0.0
    else SumOfRows(rows, game, teams[..|teams| - 1]) + RowSum(rows, game, teams[|teams| - 1])
  }

  lemma AppendRow(rows: seq<RoundScore>, r: RoundScore)
    requires FindRow(rows, r.game, r.round, r.team) == |rows|
    ensures forall t: int ::
              RowSum(Upsert(rows, r), r.game, t) == RowSum(rows, r.game, t) + if t == r.team then r.total else 0.0
  {
    assert (rows + [r])[..|rows|] == rows;
  }

  /** The rows of a new round are added to what each team has. */
  lemma {:induction false} NewRound(rows: seq<RoundScore>, s: Scoring, teams: seq<int>, team: int)
    requires Distinct(teams) && NoneAfter(rows, s.game, s.round - 1)
    ensures var after := UpsertAll(rows, RowsOf(s, teams));
            && NoneAfter(after, s.game, s.round)
            && RowSum(after, s.game, team)
               == RowSum(rows, s.game, team) + if team in teams then RowOf(s, team).total else 0.0
    decreases |teams|
  {
    hide RowSum, CreditTo, AttackCredits, LossCredits, FirstCredits, Weighted;
    if teams != [] {
      var init, last := teams[..|teams| - 1], teams[|teams| - 1];
      var before := UpsertAll(rows, RowsOf(s, init));
      NewRound(rows, s, init, team);
      NewRowsOnly(rows, s, init, last);
      UpsertMore(rows, RowsOf(s, init), RowOf(s, last));
      AppendRow(before, RowOf(s, last));
      assert teams == init + [last];
      assert forall i :: 0 <= i < |init| ==> init[i] == teams[i] && init[i] != last;
    }
  }

  lemma NewRowsOnly(rows: seq<RoundScore>, s: Scoring, teams: seq<int>, team: int)
    requires Distinct(teams) && team !in teams && NoneAfter(rows, s.game, s.round - 1)
    ensures var after := UpsertAll(rows, RowsOf(s, teams));
            FindRow(after, s.game, s.round, team) == |after|
  {
    hide CreditTo, AttackCredits, LossCredits, FirstCredits, Weighted, UpsertAll, RowsOf;
    RowsShow(rows, s, teams, team);
  }

  lemma {:induction false} NewRoundTotals(rows: seq<RoundScore>, s: Scoring, teams: seq<int>, some: seq<int>)
    requires Distinct(teams) && NoneAfter(rows, s.game, s.round - 1)
    requires forall i :: 0 <= i < |some| ==> some[i] in teams
    ensures SumOfRows(UpsertAll(rows, RowsOf(s, teams)), s.game, some)
            == SumOfRows(rows, s.game, some) + RowTotals(s, some)
    decreases |some|
  {
    hide RowSum, RowOf, UpsertAll, RowsOf;
    if some != [] {
      NewRoundTotals(rows, s, teams, some[..|some| - 1]);
      NewRound(rows, s, teams, some[|some| - 1]);
    }
  }

  ghost predicate EverybodyEnrolled(play: Play, teams: seq<int>) {
    forall k :: 0 <= k < |play| ==> AllEnrolled(play[k], teams)
  }

  lemma {:induction false} RowsAddUp(rows: seq<RoundScore>, game: int, aw: real, dw: real, play: Play, teams: seq<int>)
    requires Distinct(teams) && EverybodyEnrolled(play, teams) && NoneAfter(rows, game, 0)
    ensures var after := RowsAfter(rows, game, aw, dw, play, teams);
            && NoneAfter(after, game, |play|)
            && SumOfRows(after, game, teams)
               == SumOfRows(rows, game, teams) + Weighted(PointsIn(play), aw - dw)
                  + Times(|SeenAfter(game, play)|, FIRST_BLOOD_BONUS_POINTS)
    decreases |play|
  {
    hide RowSum, RowOf, UpsertAll, RowsOf, PointsOf, FlagKeys, Weighted, NoneAfter, AllEnrolled, SumOfRows, RowTotals;
    if play == [] {
      Distribute(0.0, 0.0, aw - dw);
    } else {
      var init, last := play[..|play| - 1], play[|play| - 1];
      var before, s := RowsAfter(rows, game, aw, dw, init, teams), LastScoring(game, aw, dw, play);
      assert forall k :: 0 <= k < |init| ==> init[k] == play[k];
      RowsAddUp(rows, game, aw, dw, init, teams);
      NewRound(before, s, teams, 0);
      NewRoundTotals(before, s, teams, teams);
      RoundTotals(s, teams);
      Distribute(PointsIn(init), PointsOf(last), aw - dw);
      MoreSeen(FlagKeys(game, last), SeenAfter(game, init));
    }
  }

  lemma MoreSeen(keys: set<string>, seen: set<string>)
    ensures Times(|seen + keys|, FIRST_BLOOD_BONUS_POINTS)
            == Times(|seen|, FIRST_BLOOD_BONUS_POINTS) + Times(|keys - seen|, FIRST_BLOOD_BONUS_POINTS)
  {
    assert seen + keys == seen + (keys - seen);
    TimesAdd(|seen|, |keys - seen|, FIRST_BLOOD_BONUS_POINTS);
  }

  function SumOfScores(scores: map<int, real>, teams: seq<int>): real
    requires forall i :: 0 <= i < |teams| ==> teams[i] in scores
  {
    if teams == [] then 0.0
    else SumOfScores(scores, teams[..|teams| - 1]) + scores[teams[|teams| - 1]]
  }

  function SumOfAdjustments(adjustments: seq<Adjustment>, game: int, teams: seq<int>): real {
    if teams == [] then 0.0
    else
      SumOfAdjustments(adjustments, game, teams[..|teams| - 1])
      + AdjustmentSum(adjustments, game, teams[|teams| - 1]) as real
  }

  ghost predicate AllInStep(b: Board, game: int, teams: seq<int>) {
    forall i :: 0 <= i < |teams| ==> teams[i] in b.scores && HasRow(b.rows, game, teams[i]) && InStep(b, game, teams[i])
  }

  lemma {:induction false} ScoresAreLedgers(b: Board, game: int, teams: seq<int>)
    requires AllInStep(b, game, teams)
    ensures SumOfScores(b.scores, teams)
            == SumOfRows(b.rows, game, teams) + SumOfAdjustments(b.adjustments, game, teams)
    decreases |teams|
  {
    hide RowSum, AdjustmentSum, HasRow;
    if teams != [] {
      var last := teams[|teams| - 1];
      ScoresAreLedgers(b, game, teams[..|teams| - 1]);
      assert b.scores[last] == Ledger(b, game, last);
    }
  }

  lemma {:induction false} NoRowsNoSum(rows: seq<RoundScore>, game: int, team: int)
    requires forall i :: 0 <= i < |rows| ==> rows[i].game != game
    ensures RowSum(rows, game, team) == 0.0
    decreases |rows|
  {
    if rows != [] { NoRowsNoSum(rows[..|rows| - 1], game, team); }
  }

  lemma {:induction false} NoRowsNoSums(rows: seq<RoundScore>, game: int, teams: seq<int>)
    requires forall i :: 0 <= i < |rows| ==> rows[i].game != game
    ensures SumOfRows(rows, game, teams) == 0.0
    decreases |teams|
  {
    hide RowSum;
    if teams != [] {
      NoRowsNoSums(rows, game, teams[..|teams| - 1]);
      NoRowsNoSum(rows, game, teams[|teams| - 1]);
    }
  }

  lemma BoardAddsUp(rows: seq<RoundScore>, game: int, aw: real, dw: real, play: Play, teams: seq<int>, b: Board)
    requires Distinct(teams) && EverybodyEnrolled(play, teams)
    requires forall i :: 0 <= i < |rows| ==> rows[i].game != game
    requires b.rows == RowsAfter(rows, game, aw, dw, play, teams) && AllInStep(b, game, teams)
    ensures SumOfScores(b.scores, teams)
            == Weighted(PointsIn(play), aw - dw) + Times(|SeenAfter(game, play)|, FIRST_BLOOD_BONUS_POINTS)
               + SumOfAdjustments(b.adjustments, game, teams)
  {
    hide RowsAfter, RowSum, Weighted, PointsIn, SeenAfter, SumOfRows, SumOfScores, SumOfAdjustments, AllInStep;
    ScoresAreLedgers(b, game, teams);
    RowsAddUp(rows, game, aw, dw, play, teams);
    NoRowsNoSums(rows, game, teams);
  }

  // ---------------------------------------------------------------- the operations of a game

  /** The operations of a game in which every round is scored once and in order, with any restarts and
      adjustments in between. */
  ghost predicate Plays(ops: seq<Op>, game: int, aw: real, dw: real, play: Play, teams: seq<int>)
    decreases |ops|
  {
    if ops == [] then play == []
    else
      var init, last := ops[..|ops| - 1], ops[|ops| - 1];
      && last.game == game
      && if last.Scored? then
           && play != [] && last.rs == RowsOf(LastScoring(game, aw, dw, play), teams)
           && Plays(init, game, aw, dw, play[..|play| - 1], teams)
         else Plays(init, game, aw, dw, play, teams)
  }

  lemma StepKeepsTeams(b: Board, op: Op)
    ensures Step(b, op).scores.Keys == b.scores.Keys
    ensures Step(b, op).rows == if op.Scored? then UpsertAll(b.rows, op.rs) else b.rows
  {
  }

  lemma {:induction false} RowsAreOfGame(s: Scoring, teams: seq<int>)
    ensures WellFormed(Scored(s.game, RowsOf(s, teams)))
    decreases |teams|
  {
    hide CreditTo, AttackCredits, LossCredits, FirstCredits, Weighted;
    if teams != [] {
      var n := |teams| - 1;
      RowsAreOfGame(s, teams[..n]);
      var rs := RowsOf(s, teams[..n]);
      assert RowsOf(s, teams) == rs + [RowOf(s, teams[n])];
      assert forall i :: 0 <= i < |rs| ==> Scored(s.game, rs).rs[i].game == s.game;
    }
  }

  lemma {:induction false} PlayedOps(ops: seq<Op>, game: int, aw: real, dw: real, play: Play, teams: seq<int>)
    requires Plays(ops, game, aw, dw, play, teams)
    ensures forall i :: 0 <= i < |ops| ==> ops[i].game == game && WellFormed(ops[i])
    decreases |ops|
  {
    hide RowsOf, WellFormed;
    if ops != [] {
      var init, last := ops[..|ops| - 1], ops[|ops| - 1];
      PlayedOps(init, game, aw, dw, if last.Scored? then play[..|play| - 1] else play, teams);
      if last.Scored? {
        RowsAreOfGame(LastScoring(game, aw, dw, play), teams);
      } else {
        OthersWellFormed(last);
      }
      assert forall i :: 0 <= i < |init| ==> ops[i] == init[i];
    }
  }

  lemma OthersWellFormed(op: Op)
    requires !op.Scored?
    ensures WellFormed(op)
  {
  }

  lemma {:induction false} PlayedRows(b: Board, ops: seq<Op>, game: int, aw: real, dw: real, play: Play,
                                      teams: seq<int>)
    requires Plays(ops, game, aw, dw, play, teams)
    ensures Run(b, ops).rows == RowsAfter(b.rows, game, aw, dw, play, teams)
    ensures Run(b, ops).scores.Keys == b.scores.Keys
    decreases |ops|
  {
    hide Step, RowsOf, UpsertAll;
    if ops != [] {
      var init, last := ops[..|ops| - 1], ops[|ops| - 1];
      PlayedRows(b, init, game, aw, dw, if last.Scored? then play[..|play| - 1] else play, teams);
      StepKeepsTeams(Run(b, init), last);
    }
  }

  lemma PlayedHasRow(rows: seq<RoundScore>, game: int, aw: real, dw: real, play: Play, teams: seq<int>, team: int)
    requires Distinct(teams) && team in teams && play != []
    ensures HasRow(RowsAfter(rows, game, aw, dw, play, teams), game, team)
  {
    var before := RowsAfter(rows, game, aw, dw, play[..|play| - 1], teams);
    var s := LastScoring(game, aw, dw, play);
    RowsShow(before, s, teams, team);
    var after := UpsertAll(before, RowsOf(s, teams));
    hide RowOf, RowsOf, UpsertAll;
    HasRowIff(after, game, team);
    assert RowFor(after[FindRow(after, s.game, s.round, team)], game, team);
  }

  lemma PlayedInStep(b: Board, ops: seq<Op>, game: int, aw: real, dw: real, play: Play, teams: seq<int>, team: int)
    requires Plays(ops, game, aw, dw, play, teams) && Distinct(teams) && play != []
    requires team in teams && team in b.scores && !HasRow(b.rows, game, team)
    ensures var after := Run(b, ops);
            team in after.scores && HasRow(after.rows, game, team) && InStep(after, game, team)
  {
    PlayedRows(b, ops, game, aw, dw, play, teams);
    PlayedOps(ops, game, aw, dw, play, teams);
    PlayedHasRow(b.rows, game, aw, dw, play, teams, team);
    hide Run, RowsAfter, HasRow, Plays;
    CacheIsLedger(b, ops, game, team);
  }

  /** When every round of a game has been scored once and in order, whatever restarts and adjustments there
      were, the cached scores of its teams add up to the points credited in all rounds, weighted by
      attack weight less defense weight, plus 50 for every flag captured at all, plus all adjustments. */
  lemma GameTotals(b: Board, ops: seq<Op>, game: int, aw: real, dw: real, play: Play, teams: seq<int>)
    requires Plays(ops, game, aw, dw, play, teams) && play != []
    requires Distinct(teams) && EverybodyEnrolled(play, teams)
    requires forall i :: 0 <= i < |teams| ==> teams[i] in b.scores
    requires forall i :: 0 <= i < |b.rows| ==> b.rows[i].game != game
    ensures var after := Run(b, ops);
            && (forall i :: 0 <= i < |teams| ==> teams[i] in after.scores)
            && SumOfScores(after.scores, teams)
               == Weighted(PointsIn(play), aw - dw) + Times(|SeenAfter(game, play)|, FIRST_BLOOD_BONUS_POINTS)
                  + SumOfAdjustments(after.adjustments, game, teams)
  {
    var after := Run(b, ops);
    PlayedRows(b, ops, game, aw, dw, play, teams);
    assert forall t :: !HasRow(b.rows, game, t);
    hide Run, RowsAfter, HasRow, Plays, InStep, Weighted, PointsIn, SeenAfter, SumOfScores, SumOfAdjustments;
    forall i | 0 <= i < |teams|
      ensures teams[i] in after.scores && HasRow(after.rows, game, teams[i]) && InStep(after, game, teams[i])
    {
      PlayedInStep(b, ops, game, aw, dw, play, teams, teams[i]);
    }
    BoardAddsUp(b.rows, game, aw, dw, play, teams, after);
  }

  // ---------------------------------------------------------------- flags captured

  /** A flag, as its owner and its hash. */
  datatype Flag = Flag(target: int, hash: string)

  function KeyOf(game: int, f: Flag): string {
    FirstBloodKey(game, f.target, f.hash)
  }

  function FlagsIn(subs: seq<Submission>): set<Flag> {
    if subs == [] then {}
    else
      var last := subs[|subs| - 1];
      FlagsIn(subs[..|subs| - 1]) + {Flag(last.target, last.key.hash)}
  }

  function Captured(play: Play): set<Flag> {
    if play == [] then {} else Captured(play[..|play| - 1]) + FlagsIn(play[|play| - 1])
  }

  ghost predicate Named(game: int, flags: set<Flag>, key: string) {
    exists f :: f in flags && KeyOf(game, f) == key
  }

  /** The keys are those of the flags, one for each. */
  ghost predicate Names(game: int, keys: set<string>, flags: set<Flag>) {
    && |keys| == |flags|
    && (forall f :: f in flags ==> KeyOf(game, f) in keys)
    && (forall k :: k in keys ==> Named(game, flags, k))
  }

  lemma NamesMore(game: int, keys: set<string>, flags: set<Flag>, f: Flag)
    requires Names(game, keys, flags)
    ensures Names(game, keys + {KeyOf(game, f)}, flags + {f})
  {
    hide KeyOf;
    var k := KeyOf(game, f);
    if k in keys {
      assert Named(game, flags, k);
      var g :| g in flags && KeyOf(game, g) == k;
      SameKey(game, f, g);
      assert keys + {k} == keys && flags + {f} == flags;
    } else {
      assert f !in flags;
      forall k' | k' in keys + {k} ensures Named(game, flags + {f}, k') {
        NamedMore(game, flags, f, k');
      }
      hide Named;
    }
  }

  lemma NamedMore(game: int, flags: set<Flag>, f: Flag, key: string)
    ensures Named(game, flags, key) || KeyOf(game, f) == key ==> Named(game, flags + {f}, key)
  {
    hide KeyOf;
    assert f in flags + {f};
    if Named(game, flags, key) {
      var g :| g in flags && KeyOf(game, g) == key;
      assert g in flags + {f};
    }
  }

  lemma SameKey(game: int, f: Flag, g: Flag)
    requires KeyOf(game, f) == KeyOf(game, g)
    ensures f == g
  {
    KeysDiffer(game, f.target, f.hash, game, g.target, g.hash);
  }

  lemma {:induction false} NamesRound(game: int, keys: set<string>, flags: set<Flag>, subs: seq<Submission>)
    requires Names(game, keys, flags)
    ensures Names(game, keys + FlagKeys(game, subs), flags + FlagsIn(subs))
    decreases |subs|
  {
    hide Names;
    if subs == [] {
      assert keys + {} == keys && flags + {} == flags;
    } else {
      var init, last := subs[..|subs| - 1], subs[|subs| - 1];
      var f := Flag(last.target, last.key.hash);
      NamesRound(game, keys, flags, init);
      NamesMore(game, keys + FlagKeys(game, init), flags + FlagsIn(init), f);
      assert KeyOf(game, f) == FlagKey(game, last);
      assert keys + FlagKeys(game, init) + {KeyOf(game, f)} == keys + FlagKeys(game, subs);
      assert flags + FlagsIn(init) + {f} == flags + FlagsIn(subs);
    }
  }

  /** The detector has seen as many keys as flags were captured. */
  lemma {:induction false} SeenAreCaptured(game: int, play: Play)
    ensures Names(game, SeenAfter(game, play), Captured(play))
    decreases |play|
  {
    if play == [] {
    } else {
      hide Names;
      SeenAreCaptured(game, play[..|play| - 1]);
      NamesRound(game, SeenAfter(game, play[..|play| - 1]), Captured(play[..|play| - 1]), play[|play| - 1]);
    }
  }

  // ---------------------------------------------------------------- from the scheduler to the scores

  function SeenBefore(game: int, rounds: seq<int>, subsOf: int -> seq<Submission>): set<string> {
    if rounds == [] then {}
    else SeenBefore(game, rounds[..|rounds| - 1], subsOf) + FlagKeys(game, subsOf(rounds[|rounds| - 1]))
  }

  /** The scoring operations among `ops` are those that one engine makes when these rounds end: each as
      CalculateRoundScores makes it from the correct submissions of the round and all that the engine's
      detector has seen before. */
  ghost predicate Follows(ops: seq<Op>, game: int, aw: real, dw: real, rounds: seq<int>,
                          subsOf: int -> seq<Submission>, teams: seq<int>)
    decreases |ops|
  {
    if ops == [] then rounds == []
    else
      var init, last := ops[..|ops| - 1], ops[|ops| - 1];
      && last.game == game
      && if last.Scored? then
           && rounds != []
           && var before, r := rounds[..|rounds| - 1], rounds[|rounds| - 1];
              && last.rs == RowsOf(Scoring(game, r, aw, dw, SeenBefore(game, before, subsOf), subsOf(r)), teams)
              && Follows(init, game, aw, dw, before, subsOf, teams)
         else Follows(init, game, aw, dw, rounds, subsOf, teams)
  }

  function PlayOf(subsOf: int -> seq<Submission>, k: nat): (play: Play)
    ensures |play| == k
  {
    if k == 0 then [] else PlayOf(subsOf, k - 1) + [subsOf(k)]
  }

  lemma {:induction false} SeenUpTo(game: int, subsOf: int -> seq<Submission>, k: nat)
    ensures SeenBefore(game, UpTo(k), subsOf) == SeenAfter(game, PlayOf(subsOf, k))
    ensures |UpTo(k)| == k
  {
    hide FlagKeys;
    if k > 0 {
      SeenUpTo(game, subsOf, k - 1);
      SeenSnoc(game, UpTo(k - 1), k, subsOf);
      SeenPlaySnoc(game, PlayOf(subsOf, k - 1), subsOf(k));
    }
    hide SeenBefore, SeenAfter;
  }

  lemma SeenSnoc(game: int, rounds: seq<int>, r: int, subsOf: int -> seq<Submission>)
    ensures SeenBefore(game, rounds + [r], subsOf) == SeenBefore(game, rounds, subsOf) + FlagKeys(game, subsOf(r))
  {
    hide FlagKeys;
    assert (rounds + [r])[..|rounds|] == rounds;
  }

  lemma SeenPlaySnoc(game: int, play: Play, subs: seq<Submission>)
    ensures SeenAfter(game, play + [subs]) == SeenAfter(game, play) + FlagKeys(game, subs)
  {
    hide FlagKeys;
    assert (play + [subs])[..|play|] == play;
  }

  lemma {:induction false} FollowsPlays(ops: seq<Op>, game: int, aw: real, dw: real, k: nat,
                                        subsOf: int -> seq<Submission>, teams: seq<int>)
    requires Follows(ops, game, aw, dw, UpTo(k), subsOf, teams)
    ensures Plays(ops, game, aw, dw, PlayOf(subsOf, k), teams)
    decreases |ops|
  {
    hide RowsOf, FlagKeys;
    SeenUpTo(game, subsOf, k);
    if ops != [] {
      var init, last := ops[..|ops| - 1], ops[|ops| - 1];
      if last.Scored? {
        assert k > 0;
        SeenUpTo(game, subsOf, k - 1);
        assert UpTo(k)[..k - 1] == UpTo(k - 1) && UpTo(k)[k - 1] == k;
        assert PlayOf(subsOf, k)[..k - 1] == PlayOf(subsOf, k - 1) && PlayOf(subsOf, k)[k - 1] == subsOf(k);
        FollowsPlays(init, game, aw, dw, k - 1, subsOf, teams);
      } else {
        FollowsPlays(init, game, aw, dw, k, subsOf, teams);
      }
    }
  }

  /** From the scheduler to the scoreboard: take any run of the scheduler in which the game has finished, and
      the operations on scores in which that engine scored the rounds as they ended, with any restarts and
      adjustments in between.  Then the cached scores of the teams add up to the points of all rounds,
      weighted by attack weight less defense weight, plus 50 for every flag captured, plus all adjustments. */
  lemma FinishedGameTotals(cfg: SchedulerMachine.Config, now: nat, acts: seq<SchedulerMachine.Action>,
                           b: Board, ops: seq<Op>, game: int, aw: real, dw: real,
                           subsOf: int -> seq<Submission>, teams: seq<int>)
    requires var t := SchedulerMachine.Exec(cfg, SchedulerMachine.Init(now, 0), acts).trace;
             SchedulerMachine.Finished in t && Follows(ops, game, aw, dw, ScoredRounds(t), subsOf, teams)
    requires Distinct(teams) && EverybodyEnrolled(PlayOf(subsOf, SchedulerTrace.LastRound(cfg, 0)), teams)
    requires forall i :: 0 <= i < |teams| ==> teams[i] in b.scores
    requires forall i :: 0 <= i < |b.rows| ==> b.rows[i].game != game
    ensures var after, play := Run(b, ops), PlayOf(subsOf, SchedulerTrace.LastRound(cfg, 0));
            && (forall i :: 0 <= i < |teams| ==> teams[i] in after.scores)
            && SumOfScores(after.scores, teams)
               == Weighted(PointsIn(play), aw - dw) + Times(|Captured(play)|, FIRST_BLOOD_BONUS_POINTS)
                  + SumOfAdjustments(after.adjustments, game, teams)
  {
    RoundsScoredOnceInOrder(cfg, now, 0, acts);
    assert forall rounds: seq<int> :: UpTo(0) + rounds == rounds;
    var n := SchedulerTrace.LastRound(cfg, 0);
    hide SchedulerMachine.Exec, ScoredRounds, Follows, Plays, Run, Weighted, PointsIn, SumOfScores, SumOfAdjustments;
    FollowsPlays(ops, game, aw, dw, n, subsOf, teams);
    GameTotals(b, ops, game, aw, dw, PlayOf(subsOf, n), teams);
    SeenAreCaptured(game, PlayOf(subsOf, n));
  }
}
