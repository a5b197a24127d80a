/** What one scoring of a round stores, read off the table of submissions: internal/engine/scoring.go,
    CalculateRoundScores. */
module RoundScores {
  import opened Credits
  import opened FlagText
  import opened LiveScoring
  import opened LiveScoringRuns
  import opened Sums
  import opened Tables
  import FlagService

  /** The points that others won from a team in a round. */
  function LostTo(rows: seq<Submission>, game: int, round: int, team: int): real {
    if rows == [] then 0.0
    else
      var last := rows[|rows| - 1];
      LostTo(rows[..|rows| - 1], game, round, team)
      + if last.correct && last.key.game == game && last.key.round == round && last.target == team then last.points
        else 0.0
  }

  predicate SameFlag(a: Submission, b: Submission) {
    a.target == b.target && a.key.hash == b.key.hash
  }

  predicate CountsFor(row: Submission, game: int, round: int) {
    row.correct && row.key.game == game && row.key.round == round
  }

  /** Some row of the round captures the flag. */
  ghost predicate Captured(rows: seq<Submission>, game: int, round: int, row: Submission) {
    exists j :: 0 <= j < |rows| && CountsFor(rows[j], game, round) && SameFlag(rows[j], row)
  }

  /** Row i captures a flag of the round that no row of the round before it has captured, nor any scoring before. */
  ghost predicate FirstCapture(rows: seq<Submission>, game: int, round: int, seen: set<string>, i: nat)
    requires i < |rows|
  {
    && CountsFor(rows[i], game, round)
    && FirstBloodKey(game, rows[i].target, rows[i].key.hash) !in seen
    && !Captured(rows[..i], game, round, rows[i])
  }

  /** Row i is one with which the team was the first to capture a flag. */
  ghost predicate FirstOf(rows: seq<Submission>, game: int, round: int, seen: set<string>, team: int, i: nat) {
    i < |rows| && rows[i].key.attacker == team && FirstCapture(rows, game, round, seen, i)
  }

  ghost function FirstCaptures(rows: seq<Submission>, game: int, round: int, seen: set<string>, team: int): set<nat> {
    set i: nat | i < |rows| && FirstOf(rows, game, round, seen, team, i)
  }

  lemma FirstOfMore(rows: seq<Submission>, row: Submission, game: int, round: int, seen: set<string>, team: int, i: nat)
    requires i < |rows|
    ensures FirstOf(rows + [row], game, round, seen, team, i) <==> FirstOf(rows, game, round, seen, team, i)
  {
    assert (rows + [row])[i] == rows[i] && (rows + [row])[..i] == rows[..i];
  }

  lemma FirstCapturesMore(rows: seq<Submission>, row: Submission, game: int, round: int, seen: set<string>, team: int)
    ensures var all := rows + [row];
            |FirstCaptures(all, game, round, seen, team)|
            == |FirstCaptures(rows, game, round, seen, team)|
               + if row.key.attacker == team && FirstCapture(all, game, round, seen, |rows|) then 1 else 0
  {
    var all := rows + [row];
    var before, after := FirstCaptures(rows, game, round, seen, team), FirstCaptures(all, game, round, seen, team);
    assert FirstOf(all, game, round, seen, team, |rows|)
      <==> row.key.attacker == team && FirstCapture(all, game, round, seen, |rows|);
    hide FirstOf, FirstCapture;
    forall i: nat | i < |rows|
      ensures FirstOf(all, game, round, seen, team, i) <==> FirstOf(rows, game, round, seen, team, i)
    {
      FirstOfMore(rows, row, game, round, seen, team, i);
    }
    if FirstOf(all, game, round, seen, team, |rows|) {
      assert after == before + {|rows|};
    } else {
      assert after == before;
    }
  }

  lemma FlagKeysMore(game: int, subs: seq<Submission>, row: Submission)
    ensures FlagKeys(game, subs + [row]) == FlagKeys(game, subs) + {FlagKey(game, row)}
  {
    assert (subs + [row])[..|subs|] == subs;
  }

  lemma CapturedMore(rows: seq<Submission>, last: Submission, game: int, round: int, row: Submission)
    ensures Captured(rows + [last], game, round, row)
            <==> Captured(rows, game, round, row) || (CountsFor(last, game, round) && SameFlag(last, row))
  {
    hide CountsFor, SameFlag;
    var all := rows + [last];
    assert all[|rows|] == last;
    if j :| 0 <= j < |rows| && CountsFor(rows[j], game, round) && SameFlag(rows[j], row) {
      assert all[j] == rows[j];
    }
  }

  /** The keys of a round's flags are those of its rows. */
  lemma {:induction false} KeyInRound(rows: seq<Submission>, game: int, round: int, row: Submission)
    ensures FlagKey(game, row) in FlagKeys(game, CorrectIn(rows, game, round)) <==> Captured(rows, game, round, row)
    decreases |rows|
  {
    hide Captured, FirstBloodKey;
    if rows == [] {
      NothingCaptured(game, round, row);
    } else {
      var init, last := rows[..|rows| - 1], rows[|rows| - 1];
      KeyInRound(init, game, round, row);
      CapturedMore(init, last, game, round, row);
      assert init + [last] == rows;
      if FlagKey(game, last) == FlagKey(game, row) {
        KeysDiffer(game, last.target, last.key.hash, game, row.target, row.key.hash);
      }
      if InRound(last, game, round) {
        FlagKeysMore(game, CorrectIn(init, game, round), last);
      } else {
        assert CorrectIn(init, game, round) + [] == CorrectIn(init, game, round);
      }
    }
  }

  lemma NothingCaptured(game: int, round: int, row: Submission)
    ensures !Captured([], game, round, row)
  {
  }

  /** What a row of the table adds to the credits of its round. */
  lemma CreditsMore(subs: seq<Submission>, row: Submission, seen: set<string>, game: int, team: int)
    ensures CreditTo(AttackCredits(subs + [row]), team)
            == CreditTo(AttackCredits(subs), team) + if row.key.attacker == team then row.points else 0.0
    ensures CreditTo(LossCredits(subs + [row]), team)
            == CreditTo(LossCredits(subs), team) + if row.target == team then row.points else 0.0
    ensures CreditTo(FirstCredits(seen, game, subs + [row]), team)
            == CreditTo(FirstCredits(seen, game, subs), team)
               + if row.key.attacker == team && FlagKey(game, row) !in seen + FlagKeys(game, subs) then 50.0 else 0.0
  {
    assert (subs + [row])[..|subs|] == subs;
    CreditMore(AttackCredits(subs), Credit(row.key.attacker, row.points), team);
    CreditMore(LossCredits(subs), Credit(row.target, row.points), team);
    if FlagKey(game, row) in seen + FlagKeys(game, subs) {
      assert FirstCredits(seen, game, subs) + [] == FirstCredits(seen, game, subs);
    } else {
      CreditMore(FirstCredits(seen, game, subs), Credit(row.key.attacker, FIRST_BLOOD_BONUS_POINTS), team);
    }
    hide FlagKey, FlagKeys;
  }

  lemma FirstCaptureIff(rows: seq<Submission>, row: Submission, game: int, round: int, seen: set<string>)
    ensures FirstCapture(rows + [row], game, round, seen, |rows|)
            <==> InRound(row, game, round) && FlagKey(game, row) !in seen + FlagKeys(game, CorrectIn(rows, game, round))
  {
    KeyInRound(rows, game, round, row);
    assert (rows + [row])[..|rows|] == rows;
    hide FirstBloodKey, FlagKeys, CorrectIn, Captured;
  }

  lemma InRoundMore(rows: seq<Submission>, row: Submission, game: int, round: int, team: int)
    ensures CorrectIn(rows + [row], game, round)
            == if InRound(row, game, round) then CorrectIn(rows, game, round) + [row] else CorrectIn(rows, game, round)
    ensures FlagService.Stored(rows + [row], game, round, team)
            == FlagService.Stored(rows, game, round, team)
               + if InRound(row, game, round) && row.key.attacker == team then row.points else 0.0
    ensures LostTo(rows + [row], game, round, team)
            == LostTo(rows, game, round, team)
               + if InRound(row, game, round) && row.target == team then row.points else 0.0
  {
    assert (rows + [row])[..|rows|] == rows;
    assert CorrectIn(rows, game, round) + [] == CorrectIn(rows, game, round);
  }

  lemma CreditsOfNone(game: int, round: int, seen: set<string>, team: int)
    ensures var subs := CorrectIn([], game, round);
            && CreditTo(AttackCredits(subs), team) == FlagService.Stored([], game, round, team) == 0.0
            && CreditTo(LossCredits(subs), team) == LostTo([], game, round, team) == 0.0
            && CreditTo(FirstCredits(seen, game, subs), team) == 0.0
            && FirstCaptures([], game, round, seen, team) == {}
  {
  }

  /** A team's credits in a round: the points of its own correct rows, the points of those against it, and 50 for
      each flag that it was the first to capture. */
  lemma {:induction false} CreditsAre(rows: seq<Submission>, game: int, round: int, seen: set<string>, team: int)
    ensures var subs := CorrectIn(rows, game, round);
            && CreditTo(AttackCredits(subs), team) == FlagService.Stored(rows, game, round, team)
            && CreditTo(LossCredits(subs), team) == LostTo(rows, game, round, team)
            && CreditTo(FirstCredits(seen, game, subs), team)
               == |FirstCaptures(rows, game, round, seen, team)| as real * 50.0
    decreases |rows|
  {
    hide *;
    if rows == [] {
      CreditsOfNone(game, round, seen, team);
    } else {
      var init, last := rows[..|rows| - 1], rows[|rows| - 1];
      assert init + [last] == rows;
      CreditsAre(init, game, round, seen, team);
      InRoundMore(init, last, game, round, team);
      FirstCapturesMore(init, last, game, round, seen, team);
      FirstCaptureIff(init, last, game, round, seen);
      CreditsMore(CorrectIn(init, game, round), last, seen, game, team);
    }
  }

  /** The row that a scoring computes for a team. */
  lemma RowSays(s: Scoring, rows: seq<Submission>, team: int)
    requires s.subs == CorrectIn(rows, s.game, s.round)
    ensures var attack := FlagService.Stored(rows, s.game, s.round, team) * s.attackWeight;
            var defense := LostTo(rows, s.game, s.round, team) * s.defenseWeight;
            var bonus := |FirstCaptures(rows, s.game, s.round, s.seen, team)| as real * 50.0;
            RowOf(s, team) == RoundScore(s.game, s.round, team, attack, defense, attack - defense + bonus)
  {
    CreditsAre(rows, s.game, s.round, s.seen, team);
    hide CorrectIn, AttackCredits, LossCredits, FirstCredits, CreditTo, FirstCaptures, LostTo, FlagService.Stored;
  }

  /** And what the table then shows: enrolled teams have that row unless the query or its write failed. */
  lemma ScoringStores(b: Board, s: Scoring, rows: seq<Submission>, teams: seq<int>, f: Failures, team: int)
    requires Distinct(teams) && s.subs == CorrectIn(rows, s.game, s.round)
    requires team in teams && team !in f.rows && !f.subs
    ensures var attack := FlagService.Stored(rows, s.game, s.round, team) * s.attackWeight;
            var defense := LostTo(rows, s.game, s.round, team) * s.defenseWeight;
            var bonus := |FirstCaptures(rows, s.game, s.round, s.seen, team)| as real * 50.0;
            RowAt(ScoreWith(b, s, teams, f).rows, s.game, s.round, team)
            == [RoundScore(s.game, s.round, team, attack, defense, attack - defense + bonus)]
  {
    RowSays(s, rows, team);
    RowsShowWith(b, s, teams, f, team);
    hide *;
  }

  /** From the answers to the scoreboard: the attack score is the attack weight times the points that the
      round's answers announced to the team. */
  lemma AnnouncedIsScored(visits: seq<FlagService.Visit>, s: Scoring, team: int)
    requires s.subs == CorrectIn(FlagService.Rows(visits), s.game, s.round)
    ensures RowOf(s, team).attack
            == Weighted(FlagService.Announced(visits, s.game, s.round, team), s.attackWeight)
  {
    CreditsAre(FlagService.Rows(visits), s.game, s.round, s.seen, team);
    FlagService.AnnouncedIsStored(visits, s.game, s.round, team);
    hide Weighted, FlagService.Rows, FlagService.Stored, FlagService.Announced, CreditTo, AttackCredits, LossCredits,
         FirstCredits, CorrectIn, LostTo, FirstCaptures;
  }
}
