/** What the live scores keep: the cached score of a team against its ledgers, and the totals of a round. */
module LiveScoringRuns {
  import opened Credits
  import opened LiveScoring
  import opened Sums
  import opened Tables

  // ---------------------------------------------------------------- rows

  ghost predicate HasRow(rows: seq<RoundScore>, game: int, team: int) {
    team in TeamsWithRows(rows, game)
  }

  /** One row for every game, round and team. */
  ghost predicate OneRowPerKey(rows: seq<RoundScore>) {
    forall i, j :: 0 <= i < j < |rows| ==> !Matches(rows[j], rows[i].game, rows[i].round, rows[i].team)
  }

  lemma UpsertKeepsOneRow(rows: seq<RoundScore>, r: RoundScore)
    requires OneRowPerKey(rows)
    ensures OneRowPerKey(Upsert(rows, r))
  {
  }

  /** However often rounds are scored, there is one row for every game, round and team. */
  lemma {:induction false} OneRowHoweverOften(rows: seq<RoundScore>, rs: seq<RoundScore>)
    requires OneRowPerKey(rows)
    ensures OneRowPerKey(UpsertAll(rows, rs))
    decreases |rs|
  {
    if rs != [] {
      OneRowHoweverOften(rows, rs[..|rs| - 1]);
      UpsertKeepsOneRow(UpsertAll(rows, rs[..|rs| - 1]), rs[|rs| - 1]);
    }
  }

  /** The row that the database shows for a key. */
  function RowAt(rows: seq<RoundScore>, game: int, round: int, team: int): seq<RoundScore> {
    var i := FindRow(rows, game, round, team);
    if i < |rows| then [rows[i]] else []
  }

  lemma UpsertShows(rows: seq<RoundScore>, r: RoundScore, game: int, round: int, team: int)
    ensures RowAt(Upsert(rows, r), game, round, team)
            == if Matches(r, game, round, team) then [r] else RowAt(rows, game, round, team)
  {
    var after := Upsert(rows, r);
    var i, j := FindRow(rows, game, round, team), FindRow(after, game, round, team);
    var at := FindRow(rows, r.game, r.round, r.team);
    hide FindRow;
    assert after[at] == r;
    assert forall k :: 0 <= k < |rows| && k != at ==> after[k] == rows[k];
  }

  lemma {:induction false} RowsShow(rows: seq<RoundScore>, s: Scoring, teams: seq<int>, team: int)
    requires Distinct(teams)
    ensures RowAt(UpsertAll(rows, RowsOf(s, teams)), s.game, s.round, team)
            == if team in teams then [RowOf(s, team)] else RowAt(rows, s.game, s.round, team)
    decreases |teams|
  {
    if teams != [] {
      var init, last := teams[..|teams| - 1], teams[|teams| - 1];
      RowsShow(rows, s, init, team);
      UpsertMore(rows, RowsOf(s, init), RowOf(s, last));
      UpsertShows(UpsertAll(rows, RowsOf(s, init)), RowOf(s, last), s.game, s.round, team);
      assert teams == init + [last];
      hide CreditTo, AttackCredits, LossCredits, FirstCredits;
    }
  }

  // ---------------------------------------------------------------- the cached score

  /** The cached score of a team that has a row in the game is the sum of its rows and its adjustments. */
  ghost predicate InStep(b: Board, game: int, team: int) {
    team in b.scores && HasRow(b.rows, game, team) ==> b.scores[team] == Ledger(b, game, team)
  }

  /** An operation of another game leaves the team alone: it has no row there and gets none. */
  ghost predicate LeavesAlone(b: Board, op: Op, team: int) {
    && !HasRow(b.rows, op.game, team)
    && match op
       case Scored(_, rs) => forall i :: 0 <= i < |rs| ==> rs[i].team != team
       case Incremental(_, t, _) => t != team
       case AdminAdjusted(_, t, _) => t != team
  }

  /** The rows that a scoring writes are rows of its own game. */
  ghost predicate WellFormed(op: Op) {
    op.Scored? ==> forall i :: 0 <= i < |op.rs| ==> op.rs[i].game == op.game
  }

  ghost predicate SameFor(rows: seq<RoundScore>, rows': seq<RoundScore>, game: int, team: int) {
    RowSum(rows', game, team) == RowSum(rows, game, team)
    && (HasRow(rows', game, team) <==> HasRow(rows, game, team))
  }

  lemma {:induction false} RowSumReplace(rows: seq<RoundScore>, i: nat, r: RoundScore, game: int, team: int)
    requires i < |rows| && !(r.game == game && r.team == team) && !(rows[i].game == game && rows[i].team == team)
    ensures RowSum(rows[i := r], game, team) == RowSum(rows, game, team)
    decreases |rows|
  {
    var n := |rows| - 1;
    if i == n {
      assert rows[i := r][..n] == rows[..n];
    } else {
      assert rows[i := r][..n] == rows[..n][i := r];
      RowSumReplace(rows[..n], i, r, game, team);
    }
  }

  lemma UpsertOther(rows: seq<RoundScore>, r: RoundScore, game: int, team: int)
    requires !(r.game == game && r.team == team)
    ensures SameFor(rows, Upsert(rows, r), game, team)
  {
    var i := FindRow(rows, r.game, r.round, r.team);
    var after := Upsert(rows, r);
    assert forall k :: 0 <= k < |rows| && k != i ==> after[k] == rows[k];
    assert after[i] == r;
    HasRowIff(rows, game, team);
    HasRowIff(after, game, team);
    if i == |rows| {
      assert after[..|rows|] == rows;
    } else {
      RowSumReplace(rows, i, r, game, team);
    }
  }

  ghost predicate RowFor(row: RoundScore, game: int, team: int) {
    row.game == game && row.team == team
  }

  lemma HasRowIff(rows: seq<RoundScore>, game: int, team: int)
    ensures HasRow(rows, game, team) <==> exists k :: 0 <= k < |rows| && RowFor(rows[k], game, team)
  {
  }

  lemma {:induction false} UpsertAllOther(rows: seq<RoundScore>, rs: seq<RoundScore>, game: int, team: int)
    requires forall i :: 0 <= i < |rs| ==> !RowFor(rs[i], game, team)
    ensures SameFor(rows, UpsertAll(rows, rs), game, team)
    decreases |rs|
  {
    if rs != [] {
      UpsertAllOther(rows, rs[..|rs| - 1], game, team);
      assert !RowFor(rs[|rs| - 1], game, team);
      UpsertOther(UpsertAll(rows, rs[..|rs| - 1]), rs[|rs| - 1], game, team);
    }
  }

  /** A recomputation makes the cache right whatever it held, for every team with a row in that game. */
  lemma RecomputeIsRight(b: Board, game: int, team: int)
    ensures InStep(Recompute(b, game), game, team)
    ensures team in b.scores && !HasRow(b.rows, game, team) ==> Recompute(b, game).scores[team] == b.scores[team]
  {
    hide RowSum, AdjustmentSum, TeamsWithRows;
  }

  /** A recomputation that goes wrong here and there leaves a team in step if and only if its own score was
      written from complete sums, or not written and right before. */
  lemma RecomputedIff(b: Board, game: int, team: int, f: Failures)
    requires team in b.scores && HasRow(b.rows, game, team)
    ensures InStep(RecomputeWith(b, game, f), game, team)
            <==> if f.totals || team in f.cache then InStep(b, game, team)
                 else f.adjustments ==> AdjustmentSum(b.adjustments, game, team) == 0
  {
    hide RowSum, TeamsWithRows;
    assert AdjustmentSum([], game, team) == 0;
  }

  lemma {:induction false} SparingHas(teams: seq<int>, failing: set<int>, team: int)
    requires Distinct(teams)
    ensures Distinct(Sparing(teams, failing))
    ensures team in Sparing(teams, failing) <==> team in teams && team !in failing
    decreases |teams|
  {
    if teams != [] {
      var init, last := teams[..|teams| - 1], teams[|teams| - 1];
      assert teams == init + [last];
      SparingHas(init, failing, team);
      SparingHas(init, failing, last);
    }
  }

  lemma NothingCredited(s: Scoring, team: int)
    requires s.subs == []
    ensures RowOf(s, team) == RoundScore(s.game, s.round, team, 0.0, 0.0, 0.0)
  {
    assert AttackCredits([]) == LossCredits([]) == FirstCredits(s.seen, s.game, []) == [];
  }

  /** What a scoring shows when it goes wrong: a failed query of the submissions stores zeros over whatever the
      round had, and a team whose row could not be written keeps the old one. */
  lemma RowsShowWith(b: Board, s: Scoring, teams: seq<int>, f: Failures, team: int)
    requires Distinct(teams)
    ensures RowAt(ScoreWith(b, s, teams, f).rows, s.game, s.round, team)
            == if team !in teams || team in f.rows then RowAt(b.rows, s.game, s.round, team)
               else [if f.subs then RoundScore(s.game, s.round, team, 0.0, 0.0, 0.0) else RowOf(s, team)]
  {
    SparingHas(teams, f.rows, team);
    RowsShow(b.rows, Queried(s, f), Sparing(teams, f.rows), team);
    if f.subs {
      NothingCredited(Queried(s, f), team);
    }
    hide RowAt, RowOf, UpsertAll, RowsOf, Recomputed, Sparing, TeamsWithRows;
  }

  /** The whole number next to an amount, towards zero. */
  lemma TruncateTowardZero(x: real)
    ensures x >= 0.0 ==> 0.0 <= Truncate(x) as real <= x < (Truncate(x) + 1) as real
    ensures x <= 0.0 ==> (Truncate(x) - 1) as real < x <= Truncate(x) as real <= 0.0
  {
  }

  lemma AdjustmentMore(rows: seq<Adjustment>, a: Adjustment, game: int, team: int)
    ensures AdjustmentSum(rows + [a], game, team)
            == AdjustmentSum(rows, game, team) + if a.game == game && a.team == team then a.value else 0
  {
    assert (rows + [a])[..|rows|] == rows;
  }

  /** An adjustment of which one write fails puts the score out of step, unless it is worth nothing. */
  lemma AdjustedIff(b: Board, game: int, t: int, value: int, inserted: bool, updated: bool, team: int)
    requires team in b.scores && HasRow(b.rows, game, team) && InStep(b, game, team)
    ensures InStep(Adjusted(b, game, t, value, inserted, updated), game, team)
            <==> t != team || value == 0 || inserted == updated
  {
    AdjustmentMore(b.adjustments, Adjustment(game, t, value), game, team);
    hide RowSum, AdjustmentSum, TeamsWithRows;
  }

  lemma StepInStep(b: Board, op: Op, game: int, team: int)
    requires InStep(b, game, team) && WellFormed(op)
    requires op.game == game || LeavesAlone(b, op, team)
    ensures InStep(Step(b, op), game, team)
  {
    match op
    case Scored(g, rs) =>
      var b' := b.(rows := UpsertAll(b.rows, rs));
      RecomputeIsRight(b', g, team);
      if g != game {
        UpsertAllOther(b.rows, rs, game, team);
        UpsertAllOther(b.rows, rs, g, team);
        OtherGame(b', g, game, team);
      }
    case Incremental(g, t, value) =>
      AdjustmentMore(b.adjustments, Adjustment(g, t, value), game, team);
    case AdminAdjusted(g, t, value) =>
      AdjustmentMore(b.adjustments, Adjustment(g, t, value), game, team);
      var b' := b.(adjustments := b.adjustments + [Adjustment(g, t, value)]);
      RecomputeIsRight(b', g, team);
      if g != game {
        OtherGame(b', g, game, team);
      }
  }

  /** Recomputing a game in which the team has no row does not touch it. */
  lemma OtherGame(b: Board, other: int, game: int, team: int)
    requires InStep(b, game, team) && !HasRow(b.rows, other, team)
    ensures InStep(Recompute(b, other), game, team)
  {
    hide RowSum, AdjustmentSum, TeamsWithRows;
  }

  function Run(b: Board, ops: seq<Op>): Board {
    if ops == [] then b else Step(Run(b, ops[..|ops| - 1]), ops[|ops| - 1])
  }

  ghost predicate OwnGameOnly(b: Board, ops: seq<Op>, game: int, team: int) {
    forall i :: 0 <= i < |ops| ==>
      WellFormed(ops[i]) && (ops[i].game == game || LeavesAlone(Run(b, ops[..i]), ops[i], team))
  }

  /** Over any interleaving of round scoring, container restarts, incremental adjustments and adjustments
      with recomputation, for any number of games: the cached score of a team that takes part in one
      game is the sum of its rows plus the sum of its adjustments, as soon as it has a row. */
  lemma {:induction false} CacheIsLedger(b: Board, ops: seq<Op>, game: int, team: int)
    requires InStep(b, game, team) && OwnGameOnly(b, ops, game, team)
    ensures InStep(Run(b, ops), game, team)
    decreases |ops|
  {
    if ops != [] {
      var init := ops[..|ops| - 1];
      assert forall i :: 0 <= i < |init| ==> init[i] == ops[i] && init[..i] == ops[..i];
      CacheIsLedger(b, init, game, team);
      StepInStep(Run(b, init), ops[|ops| - 1], game, team);
    }
  }

  // ---------------------------------------------------------------- after a reset

  /** The board after the game service has reset the game. */
  function AfterReset(b: Board, game: int): Board {
    b.(rows := OfOthers(b.rows, GameOfRow, game))
  }

  lemma {:induction false} OthersKept(rows: seq<RoundScore>, game: int, g: int, team: int)
    ensures RowSum(OfOthers(rows, GameOfRow, game), g, team) == if g == game then 0.0 else RowSum(rows, g, team)
    ensures HasRow(OfOthers(rows, GameOfRow, game), g, team) <==> g != game && HasRow(rows, g, team)
    decreases |rows|
  {
    if rows != [] {
      var init, last := rows[..|rows| - 1], rows[|rows| - 1];
      OthersKept(init, game, g, team);
      var kept := OfOthers(init, GameOfRow, game);
      HasRowMore(init, last, g, team);
      assert init + [last] == rows;
      if last.game != game {
        HasRowMore(kept, last, g, team);
        assert (kept + [last])[..|kept|] == kept;
      } else {
        assert kept + [] == kept;
      }
      hide HasRow;
    }
  }

  lemma HasRowMore(rows: seq<RoundScore>, row: RoundScore, game: int, team: int)
    ensures HasRow(rows + [row], game, team) <==> HasRow(rows, game, team) || RowFor(row, game, team)
  {
    var all := rows + [row];
    HasRowIff(rows, game, team);
    HasRowIff(all, game, team);
    assert all[|rows|] == row;
    assert forall k :: 0 <= k < |rows| ==> all[k] == rows[k];
    hide HasRow, RowFor;
  }

  /** A reset leaves no rows of the game and all its adjustments: the first scoring afterwards gives a team the new
      rows and the adjustments of the game before, unless these add up to nothing.  Other games keep theirs. */
  lemma ResetKeepsAdjustments(b: Board, game: int, rs: seq<RoundScore>, g: int, team: int)
    requires team in b.scores
    ensures var reset := AfterReset(b, game);
            && reset.scores == b.scores
            && !HasRow(reset.rows, game, team)
            && Ledger(reset, game, team) == AdjustmentSum(b.adjustments, game, team) as real
            && (g != game ==>
                  Ledger(reset, g, team) == Ledger(b, g, team) && (InStep(b, g, team) ==> InStep(reset, g, team)))
            && var scored := Step(reset, Scored(game, rs));
               HasRow(scored.rows, game, team) ==>
                 scored.scores[team]
                 == RowSum(scored.rows, game, team) + AdjustmentSum(b.adjustments, game, team) as real
  {
    OthersKept(b.rows, game, game, team);
    OthersKept(b.rows, game, g, team);
    hide RowSum, AdjustmentSum, TeamsWithRows, UpsertAll, OfOthers;
  }

  // ---------------------------------------------------------------- a team in several games

  /** The board that an operation leaves before any cached score is written. */
  function Entered(b: Board, op: Op): Board {
    match op
    case Scored(_, rs) => b.(rows := UpsertAll(b.rows, rs))
    case Incremental(game, team, value) => b.(adjustments := b.adjustments + [Adjustment(game, team, value)])
    case AdminAdjusted(game, team, value) => b.(adjustments := b.adjustments + [Adjustment(game, team, value)])
  }

  /** The operation overwrites the team's score with the ledger of its game. */
  ghost predicate Overwrites(b: Board, op: Op, team: int) {
    !op.Incremental? && HasRow(Entered(b, op).rows, op.game, team)
  }

  /** What the operation adds to the team's score. */
  function Added(op: Op, team: int): int {
    if op.Incremental? && op.team == team then op.value else 0
  }

  lemma StepScore(b: Board, op: Op, team: int)
    requires team in b.scores
    ensures var after := Step(b, op);
            && team in after.scores
            && after.rows == Entered(b, op).rows && after.adjustments == Entered(b, op).adjustments
            && after.scores[team] == if Overwrites(b, op, team) then Ledger(after, op.game, team)
                                     else b.scores[team] + Added(op, team) as real
  {
    hide RowSum, AdjustmentSum, TeamsWithRows, UpsertAll;
  }

  /** An operation of one game leaves the ledger and the rows of another alone. */
  lemma OtherLedger(b: Board, op: Op, game: int, team: int)
    requires op.game != game && WellFormed(op)
    ensures Ledger(Step(b, op), game, team) == Ledger(b, game, team)
    ensures HasRow(Step(b, op).rows, game, team) <==> HasRow(b.rows, game, team)
  {
    match op
    case Scored(_, rs) => UpsertAllOther(b.rows, rs, game, team);
    case Incremental(g, t, value) => AdjustmentMore(b.adjustments, Adjustment(g, t, value), game, team);
    case AdminAdjusted(g, t, value) => AdjustmentMore(b.adjustments, Adjustment(g, t, value), game, team);
  }

  /** An operation of another game keeps a team's score in step if and only if it neither adds anything to it
      nor overwrites it with a different ledger. */
  lemma OtherGameKeepsIff(b: Board, op: Op, game: int, team: int)
    requires team in b.scores && HasRow(b.rows, game, team) && InStep(b, game, team)
    requires op.game != game && WellFormed(op)
    ensures InStep(Step(b, op), game, team)
            <==> if Overwrites(b, op, team) then Ledger(Step(b, op), op.game, team) == Ledger(b, game, team)
                 else Added(op, team) == 0
  {
    StepScore(b, op, team);
    OtherLedger(b, op, game, team);
    hide Step, Ledger, HasRow, Overwrites;
  }

  datatype Source = Initial | Game(game: int)

  /** The game whose ledger was written to the team's score last. */
  ghost function LastWritten(b: Board, ops: seq<Op>, team: int): Source {
    if ops == [] then Initial
    else
      var init, op := ops[..|ops| - 1], ops[|ops| - 1];
      if Overwrites(Run(b, init), op, team) then Game(op.game) else LastWritten(b, init, team)
  }

  /** What other games have added to the score since. */
  ghost function AddedSince(b: Board, ops: seq<Op>, team: int): int {
    if ops == [] then 0
    else
      var init, op := ops[..|ops| - 1], ops[|ops| - 1];
      if Overwrites(Run(b, init), op, team) then 0
      else AddedSince(b, init, team) + if LastWritten(b, init, team) == Game(op.game) then 0 else Added(op, team)
  }

  ghost predicate ScoreIs(b: Board, source: Source, added: int, start: real, team: int) {
    && team in b.scores
    && match source
       case Initial => b.scores[team] == start + added as real
       case Game(game) => HasRow(b.rows, game, team) && b.scores[team] == Ledger(b, game, team) + added as real
  }

  /** In its own game an operation either overwrites the score or adds the same to score and ledger. */
  lemma OwnLedger(b: Board, op: Op, team: int)
    requires HasRow(b.rows, op.game, team) && WellFormed(op)
    ensures HasRow(Step(b, op).rows, op.game, team)
    ensures Overwrites(b, op, team) || (op.Incremental? && Ledger(Step(b, op), op.game, team)
                                                           == Ledger(b, op.game, team) + Added(op, team) as real)
  {
    match op
    case Scored(g, rs) => RowsStay(b.rows, rs, g, team);
    case Incremental(g, t, value) => AdjustmentMore(b.adjustments, Adjustment(g, t, value), g, team);
    case AdminAdjusted(g, t, value) =>
  }

  lemma {:induction false} RowsStay(rows: seq<RoundScore>, rs: seq<RoundScore>, game: int, team: int)
    requires HasRow(rows, game, team)
    ensures HasRow(UpsertAll(rows, rs), game, team)
    decreases |rs|
  {
    if rs != [] {
      var before, r := UpsertAll(rows, rs[..|rs| - 1]), rs[|rs| - 1];
      RowsStay(rows, rs[..|rs| - 1], game, team);
      if r.game == game && r.team == team {
        UpsertHas(before, r);
      } else {
        UpsertOther(before, r, game, team);
      }
    }
  }

  lemma UpsertHas(rows: seq<RoundScore>, r: RoundScore)
    ensures HasRow(Upsert(rows, r), r.game, r.team)
  {
    HasRowIff(Upsert(rows, r), r.game, r.team);
    assert RowFor(Upsert(rows, r)[FindRow(rows, r.game, r.round, r.team)], r.game, r.team);
  }

  lemma ScoreStep(b: Board, op: Op, source: Source, added: int, start: real, team: int)
    requires ScoreIs(b, source, added, start, team) && WellFormed(op)
    ensures if Overwrites(b, op, team) then ScoreIs(Step(b, op), Game(op.game), 0, start, team)
            else
              ScoreIs(Step(b, op), source, added + if source == Game(op.game) then 0 else Added(op, team), start, team)
  {
    StepScore(b, op, team);
    match source {
      case Initial =>
      case Game(game) =>
        if op.game == game { OwnLedger(b, op, team); } else { OtherLedger(b, op, game, team); }
    }
    hide Step, Ledger, HasRow;
  }

  /** Over any run of operations of any number of games, a team's score is the ledger of the game that was
      written to it last, plus what other games have added since; so with two games the one recomputed last
      decides, and the score is in step with a game exactly if its ledger comes to the same. */
  lemma {:induction false} LastScoredGameWins(b: Board, ops: seq<Op>, team: int)
    requires team in b.scores && forall i :: 0 <= i < |ops| ==> WellFormed(ops[i])
    ensures ScoreIs(Run(b, ops), LastWritten(b, ops, team), AddedSince(b, ops, team), b.scores[team], team)
    decreases |ops|
  {
    hide ScoreIs, Step, Overwrites, WellFormed;
    if ops == [] {
      ScoreAtStart(b, team);
    } else {
      var init, op := ops[..|ops| - 1], ops[|ops| - 1];
      LastScoredGameWins(b, init, team);
      ScoreStep(Run(b, init), op, LastWritten(b, init, team), AddedSince(b, init, team), b.scores[team], team);
    }
  }

  lemma ScoreAtStart(b: Board, team: int)
    requires team in b.scores
    ensures ScoreIs(b, Initial, 0, b.scores[team], team)
  {
  }

  /** In particular: in step with the game written last if and only if other games have added nothing since. */
  lemma InStepWithLastIff(b: Board, ops: seq<Op>, game: int, team: int)
    requires team in b.scores && forall i :: 0 <= i < |ops| ==> WellFormed(ops[i])
    requires LastWritten(b, ops, team) == Game(game)
    ensures InStep(Run(b, ops), game, team) <==> AddedSince(b, ops, team) == 0
  {
    LastScoredGameWins(b, ops, team);
    hide Run, Ledger, HasRow, LastWritten, AddedSince;
  }

  /** An administrator's adjustment counts at once for a team with a row, rounded toward zero, and for
      a team without one not before its first row; the reply announces the full amount in both cases. */
  lemma AdminAdjustmentCounts(b: Board, game: int, team: int, amount: real)
    requires team in b.scores && InStep(b, game, team)
    ensures var after := Step(b, AdminAdjusted(game, team, Truncate(amount))).scores[team];
            && after == b.scores[team] + (if HasRow(b.rows, game, team) then Truncate(amount) as real else 0.0)
            && (after == b.scores[team] + amount
                <==> if HasRow(b.rows, game, team) then amount == Truncate(amount) as real else amount == 0.0)
  {
    hide RowSum, AdjustmentSum, TeamsWithRows, Truncate;
    AdjustmentMore(b.adjustments, Adjustment(game, team, Truncate(amount)), game, team);
  }

  // ---------------------------------------------------------------- the totals of a round

  function RowTotals(s: Scoring, teams: seq<int>): real {
    if teams == [] then 0.0
    else RowTotals(s, teams[..|teams| - 1]) + RowOf(s, teams[|teams| - 1]).total
  }

  lemma Distribute(a: real, b: real, c: real)
    ensures Weighted(a + b, c) == Weighted(a, c) + Weighted(b, c)
    ensures Weighted(0.0, c) == 0.0
  {
  }

  lemma {:induction false} RowTotalsSplit(s: Scoring, teams: seq<int>)
    ensures RowTotals(s, teams)
            == Weighted(SumOver(teams, AttackCredits(s.subs)), s.attackWeight)
               - Weighted(SumOver(teams, LossCredits(s.subs)), s.defenseWeight)
               + SumOver(teams, FirstCredits(s.seen, s.game, s.subs))
    decreases |teams|
  {
    hide AttackCredits, LossCredits, FirstCredits, CreditTo, Weighted;
    var a, l := AttackCredits(s.subs), LossCredits(s.subs);
    if teams == [] {
      Distribute(0.0, 0.0, s.attackWeight);
      Distribute(0.0, 0.0, s.defenseWeight);
    } else {
      var init, last := teams[..|teams| - 1], teams[|teams| - 1];
      RowTotalsSplit(s, init);
      Distribute(SumOver(init, a), CreditTo(a, last), s.attackWeight);
      Distribute(SumOver(init, l), CreditTo(l, last), s.defenseWeight);
    }
  }

  function PointsOf(subs: seq<Submission>): real {
    if subs == [] then 0.0 else PointsOf(subs[..|subs| - 1]) + subs[|subs| - 1].points
  }

  /** Attackers and owners of the flags are among the teams. */
  ghost predicate AllEnrolled(subs: seq<Submission>, teams: seq<int>) {
    forall i :: 0 <= i < |subs| ==> subs[i].key.attacker in teams && subs[i].target in teams
  }

  lemma {:induction false} PointTotals(subs: seq<Submission>, teams: seq<int>)
    requires AllEnrolled(subs, teams)
    ensures TotalCredit(AttackCredits(subs)) == PointsOf(subs) && Covers(teams, AttackCredits(subs))
    ensures TotalCredit(LossCredits(subs)) == PointsOf(subs) && Covers(teams, LossCredits(subs))
    decreases |subs|
  {
    if subs != [] {
      PointTotals(subs[..|subs| - 1], teams);
    }
  }

  lemma TotalMore(credits: seq<Credit>, c: Credit, teams: seq<int>)
    requires Covers(teams, credits) && c.team in teams
    ensures TotalCredit(credits + [c]) == TotalCredit(credits) + c.amount && Covers(teams, credits + [c])
  {
    assert (credits + [c])[..|credits|] == credits;
  }

  lemma FirstStep(seen: set<string>, game: int, subs: seq<Submission>)
    requires subs != []
    ensures var init, last := subs[..|subs| - 1], subs[|subs| - 1];
            var key := FlagKey(game, last);
            && FlagKeys(game, subs) == FlagKeys(game, init) + {key}
            && FirstCredits(seen, game, subs)
               == if key in seen + FlagKeys(game, init) then FirstCredits(seen, game, init)
                  else FirstCredits(seen, game, init) + [Credit(last.key.attacker, FIRST_BLOOD_BONUS_POINTS)]
  {
    hide FlagKey;
    var credits := FirstCredits(seen, game, subs[..|subs| - 1]);
    assert credits + [] == credits;
  }

  lemma OneMore(keys: set<string>, seen: set<string>, key: string)
    ensures |keys + {key} - seen| == |keys - seen| + if key in seen + keys then 0 else 1
  {
    assert keys + {key} - seen == if key in seen + keys then keys - seen else keys - seen + {key};
  }

  lemma {:induction false} BonusTotals(seen: set<string>, game: int, subs: seq<Submission>, teams: seq<int>)
    requires AllEnrolled(subs, teams)
    ensures TotalCredit(FirstCredits(seen, game, subs))
            == Sums.Times(|FlagKeys(game, subs) - seen|, FIRST_BLOOD_BONUS_POINTS)
    ensures Covers(teams, FirstCredits(seen, game, subs))
    decreases |subs|
  {
    if subs == [] {
    } else {
      hide FlagKey, FlagKeys, FirstCredits, TotalCredit, Covers;
      var init, last := subs[..|subs| - 1], subs[|subs| - 1];
      BonusTotals(seen, game, init, teams);
      FirstStep(seen, game, subs);
      OneMore(FlagKeys(game, init), seen, FlagKey(game, last));
      TotalMore(FirstCredits(seen, game, init), Credit(last.key.attacker, FIRST_BLOOD_BONUS_POINTS), teams);
    }
  }

  /** The totals of a round over the enrolled teams: the points credited in it, weighted by attack weight
      less defense weight, plus 50 for every flag that has its first capture here. */
  lemma RoundTotals(s: Scoring, teams: seq<int>)
    requires Distinct(teams) && AllEnrolled(s.subs, teams)
    ensures RowTotals(s, teams)
            == Weighted(PointsOf(s.subs), s.attackWeight - s.defenseWeight)
               + Sums.Times(|FlagKeys(s.game, s.subs) - s.seen|, FIRST_BLOOD_BONUS_POINTS)
  {
    hide *;
    RowTotalsSplit(s, teams);
    PointTotals(s.subs, teams);
    BonusTotals(s.seen, s.game, s.subs, teams);
    SumOverEverybody(teams, AttackCredits(s.subs));
    SumOverEverybody(teams, LossCredits(s.subs));
    SumOverEverybody(teams, FirstCredits(s.seen, s.game, s.subs));
    Difference(PointsOf(s.subs), s.attackWeight, s.defenseWeight);
  }

  lemma Difference(p: real, a: real, d: real)
    ensures Weighted(p, a) - Weighted(p, d) == Weighted(p, a - d)
  {
  }

  /** What the detector has seen after a scoring; its next scoring starts from there. */
  function Again(s: Scoring): Scoring {
    s.(seen := s.seen + FlagKeys(s.game, s.subs))
  }

  lemma {:induction false} NoSecondFirst(seen: set<string>, game: int, subs: seq<Submission>)
    requires FlagKeys(game, subs) <= seen
    ensures FirstCredits(seen, game, subs) == []
    decreases |subs|
  {
    if subs != [] {
      NoSecondFirst(seen, game, subs[..|subs| - 1]);
    }
  }

  lemma RowAgain(s: Scoring, team: int)
    ensures RowOf(Again(s), team) == RowOf(s, team).(total := RowOf(s, team).attack - RowOf(s, team).defense)
    ensures RowOf(s, team).total
            == RowOf(s, team).attack - RowOf(s, team).defense + CreditTo(FirstCredits(s.seen, s.game, s.subs), team)
    ensures RowOf(s, team).game == s.game && RowOf(s, team).round == s.round
  {
    NoSecondFirst(Again(s).seen, s.game, s.subs);
    hide AttackCredits, LossCredits, FirstCredits, FlagKeys, Weighted;
  }

  /** Scoring a round again keeps every team's attack and defense, and takes back its first-blood bonus. */
  lemma RescoringLosesFirstBlood(rows: seq<RoundScore>, s: Scoring, teams: seq<int>, team: int)
    requires Distinct(teams) && team in teams
    ensures var once := UpsertAll(rows, RowsOf(s, teams));
            var twice := UpsertAll(once, RowsOf(Again(s), teams));
            exists before, after ::
              && RowAt(once, s.game, s.round, team) == [before] && RowAt(twice, s.game, s.round, team) == [after]
              && after.attack == before.attack && after.defense == before.defense
              && after.total == before.total - CreditTo(FirstCredits(s.seen, s.game, s.subs), team)
  {
    hide *;
    RowsShow(rows, s, teams, team);
    RowsShow(UpsertAll(rows, RowsOf(s, teams)), Again(s), teams, team);
    SameRound(s);
    RowAgain(s, team);
  }

  lemma SameRound(s: Scoring)
    ensures Again(s).game == s.game && Again(s).round == s.round
  {
  }
}
