/** internal/engine/scoring.go, and the other writers of a team's cached score: container_service.go,
    score_service.go and admin_handler.go. */
module LiveScoring {
  import opened Credits
  import opened FirstBlood
  import opened FlagText
  import opened Options
  import opened Sums
  import opened Tables

  const FIRST_BLOOD_BONUS_POINTS := 50.0

  const RESTART_PENALTY := -50

  // ---------------------------------------------------------------- queries

  predicate InRound(s: Submission, game: int, round: int) {
    s.correct && s.key.game == game && s.key.round == round
  }

  /** The correct submissions of a round. */
  function CorrectIn(rows: seq<Submission>, game: int, round: int): seq<Submission> {
    if rows == [] then []
    else
      var last := rows[|rows| - 1];
      CorrectIn(rows[..|rows| - 1], game, round) + if InRound(last, game, round) then [last] else []
  }

  predicate Matches(row: RoundScore, game: int, round: int, team: int) {
    row.game == game && row.round == round && row.team == team
  }

  /** The position of the first row with a key, or the number of rows. */
  function FindRow(rows: seq<RoundScore>, game: int, round: int, team: int): (i: nat)
    ensures i <= |rows|
    ensures i < |rows| ==> Matches(rows[i], game, round, team)
    ensures forall j :: 0 <= j < i ==> !Matches(rows[j], game, round, team)
  {
    if rows == [] || Matches(rows[0], game, round, team) then 0
    else 1 + FindRow(rows[1..], game, round, team)
  }

  function TeamsWithRows(rows: seq<RoundScore>, game: int): set<int> {
    set i | 0 <= i < |rows| && rows[i].game == game :: rows[i].team
  }

  /** SUM(total_score) of a team in a game. */
  function RowSum(rows: seq<RoundScore>, game: int, team: int): real {
    if rows == [] then 0.0
    else
      var last := rows[|rows| - 1];
      RowSum(rows[..|rows| - 1], game, team) + if last.game == game && last.team == team then last.total else 0.0
  }

  /** SUM(adjust_value) of a team in a game. */
  function AdjustmentSum(rows: seq<Adjustment>, game: int, team: int): int {
    if rows == [] then 0
    else
      var last := rows[|rows| - 1];
      AdjustmentSum(rows[..|rows| - 1], game, team) + if last.game == game && last.team == team then last.value else 0
  }

  // ---------------------------------------------------------------- the scores of a round

  function AttackCredits(subs: seq<Submission>): seq<Credit> {
    if subs == [] then []
    else
      var last := subs[|subs| - 1];
      AttackCredits(subs[..|subs| - 1]) + [Credit(last.key.attacker, last.points)]
  }

  function LossCredits(subs: seq<Submission>): seq<Credit> {
    if subs == [] then []
    else
      var last := subs[|subs| - 1];
      LossCredits(subs[..|subs| - 1]) + [Credit(last.target, last.points)]
  }

  function FlagKey(game: int, s: Submission): string {
    FirstBloodKey(game, s.target, s.key.hash)
  }

  function FlagKeys(game: int, subs: seq<Submission>): set<string> {
    if subs == [] then {}
    else FlagKeys(game, subs[..|subs| - 1]) + {FlagKey(game, subs[|subs| - 1])}
  }

  /** The bonus goes to the first capture of each flag that is not in `seen`. */
  function FirstCredits(seen: set<string>, game: int, subs: seq<Submission>): seq<Credit> {
    if subs == [] then []
    else
      var init, last := subs[..|subs| - 1], subs[|subs| - 1];
      FirstCredits(seen, game, init)
      + if FlagKey(game, last) in seen + FlagKeys(game, init) then []
        else [Credit(last.key.attacker, FIRST_BLOOD_BONUS_POINTS)]
  }

  /** One run of CalculateRoundScores: the game as the engine knows it, the flags that its first-blood
      detector has seen, and the correct submissions of the round. */
  datatype Scoring = Scoring(
    game: int,
    round: int,
    attackWeight: real,
    defenseWeight: real,
    seen: set<string>,
    subs: seq<Submission>)

  function Weighted(points: real, weight: real): real {
    points * weight
  }

  function RowOf(s: Scoring, team: int): RoundScore {
    var attack := Weighted(CreditTo(AttackCredits(s.subs), team), s.attackWeight);
    var defense := Weighted(CreditTo(LossCredits(s.subs), team), s.defenseWeight);
    RoundScore(s.game, s.round, team, attack, defense,
               attack - defense + CreditTo(FirstCredits(s.seen, s.game, s.subs), team))
  }

  function RowsOf(s: Scoring, teams: seq<int>): seq<RoundScore> {
    if teams == [] then []
    else RowsOf(s, teams[..|teams| - 1]) + [RowOf(s, teams[|teams| - 1])]
  }

  function Upsert(rows: seq<RoundScore>, r: RoundScore): seq<RoundScore> {
    var i := FindRow(rows, r.game, r.round, r.team);
    if i == |rows| then rows + [r] else rows[i := r]
  }

  function UpsertAll(rows: seq<RoundScore>, rs: seq<RoundScore>): seq<RoundScore> {
    if rs == [] then rows
    else Upsert(UpsertAll(rows, rs[..|rs| - 1]), rs[|rs| - 1])
  }

  // ---------------------------------------------------------------- the cached scores

  datatype Board = Board(rows: seq<RoundScore>, adjustments: seq<Adjustment>, scores: map<int, real>)

  function Ledger(b: Board, game: int, team: int): real {
    RowSum(b.rows, game, team) + AdjustmentSum(b.adjustments, game, team) as real
  }

  /** UpdateCumulativeTeamScores for the teams in `done`. */
  function Recomputed(b: Board, game: int, done: set<int>): map<int, real> {
    map t | t in b.scores :: if t in done then Ledger(b, game, t) else b.scores[t]
  }

  function Recompute(b: Board, game: int): Board {
    b.(scores := Recomputed(b, game, TeamsWithRows(b.rows, game)))
  }

  /** What changes the cached scores.  Incremental is a container restart or an adjustment by the score service. */
  datatype Op =
    | Scored(game: int, rs: seq<RoundScore>)
    | Incremental(game: int, team: int, value: int)
    | AdminAdjusted(game: int, team: int, value: int)

  /** An adjustment and the same on the cached score; either of the two writes may fail. */
  function Adjusted(b: Board, game: int, team: int, value: int, inserted: bool, updated: bool): Board {
    b.(adjustments := if inserted then b.adjustments + [Adjustment(game, team, value)] else b.adjustments,
       scores := if updated && team in b.scores then b.scores[team := b.scores[team] + value as real] else b.scores)
  }

  /** The operations when nothing fails. */
  function Step(b: Board, op: Op): Board {
    match op
    case Scored(game, rs) => Recompute(b.(rows := UpsertAll(b.rows, rs)), game)
    case Incremental(game, team, value) => Adjusted(b, game, team, value, true, true)
    case AdminAdjusted(game, team, value) =>
      Recompute(b.(adjustments := b.adjustments + [Adjustment(game, team, value)]), game)
  }

  /** What goes wrong in a scoring or a recomputation and is only logged: the query of the submissions, of the
      sums of rows, of the sums of adjustments or of the ranking, and the writing of the rows, the cached scores
      and the ranks of some teams. */
  datatype Failures = Failures(
    subs: bool,
    totals: bool,
    adjustments: bool,
    rows: set<int>,
    cache: set<int>,
    ranking: bool,
    ranks: set<int>)

  const NONE := Failures(false, false, false, {}, {}, false, {})

  function RecomputeWith(b: Board, game: int, f: Failures): Board {
    if f.totals then b
    else
      var read := if f.adjustments then b.(adjustments := []) else b;
      b.(scores := Recomputed(read, game, TeamsWithRows(b.rows, game) - f.cache))
  }

  function Sparing(teams: seq<int>, failing: set<int>): seq<int> {
    if teams == [] then []
    else
      var last := teams[|teams| - 1];
      Sparing(teams[..|teams| - 1], failing) + if last in failing then [] else [last]
  }

  function Queried(s: Scoring, f: Failures): Scoring {
    if f.subs then s.(subs := []) else s
  }

  function ScoreWith(b: Board, s: Scoring, teams: seq<int>, f: Failures): Board {
    var rs := RowsOf(Queried(s, f), Sparing(teams, f.rows));
    RecomputeWith(b.(rows := UpsertAll(b.rows, rs)), s.game, f)
  }

  lemma {:induction false} SparingNone(teams: seq<int>)
    ensures Sparing(teams, {}) == teams
  {
    if teams != [] {
      SparingNone(teams[..|teams| - 1]);
    }
  }

  lemma NothingFails(b: Board, game: int, s: Scoring, teams: seq<int>)
    ensures RecomputeWith(b, game, NONE) == Recompute(b, game)
    ensures ScoreWith(b, s, teams, NONE) == Step(b, Scored(s.game, RowsOf(s, teams)))
  {
    SparingNone(teams);
    hide RowsOf, UpsertAll, Recomputed;
    assert TeamsWithRows(b.rows, game) - {} == TeamsWithRows(b.rows, game);
    var rows := UpsertAll(b.rows, RowsOf(s, teams));
    assert TeamsWithRows(rows, s.game) - {} == TeamsWithRows(rows, s.game);
  }

  /** The highest round of a team that has a row in the game. */
  function LatestRound(rows: seq<RoundScore>, game: int, team: int): Option<int> {
    if rows == [] then None
    else
      var before, last := LatestRound(rows[..|rows| - 1], game, team), rows[|rows| - 1];
      if last.game != game || last.team != team then before
      else if before.Some? && before.value > last.round then before
      else Some(last.round)
  }

  /** UpdateRankings: each team's place in `order` goes to its latest row. */
  function Ranked(ranks: map<RowKey, int>, rows: seq<RoundScore>, game: int, order: seq<int>, failing: set<int>)
    : map<RowKey, int>
  {
    if order == [] then ranks
    else
      var n := |order| - 1;
      var before, latest := Ranked(ranks, rows, game, order[..n], failing), LatestRound(rows, game, order[n]);
      if latest == None || order[n] in failing then before else before[RowKey(game, latest.value, order[n]) := n + 1]
  }

  function RankedWith(ranks: map<RowKey, int>, rows: seq<RoundScore>, game: int, order: seq<int>, f: Failures)
    : map<RowKey, int>
  {
    if f.ranking then ranks else Ranked(ranks, rows, game, order, f.ranks)
  }

  /** Go's conversion from float64 to int. */
  function Truncate(x: real): int {
    if x >= 0.0 then x.Floor else -((-x).Floor)
  }

  ghost function BoardOf(db: Database): Board
    reads db
  {
    Board(db.roundScores, db.adjustments, db.scores)
  }

  function Get(m: map<int, real>, team: int): real {
    if team in m then m[team] else 0.0
  }

  /** A map of accumulated amounts agrees with the credits. */
  ghost predicate Tallies(m: map<int, real>, credits: seq<Credit>) {
    forall t: int :: Get(m, t) == CreditTo(credits, t)
  }

  lemma TallyMore(m: map<int, real>, credits: seq<Credit>, c: Credit)
    requires Tallies(m, credits)
    ensures Tallies(m[c.team := Get(m, c.team) + c.amount], credits + [c])
  {
    forall t: int ensures Get(m[c.team := Get(m, c.team) + c.amount], t) == CreditTo(credits + [c], t) {
      CreditMore(credits, c, t);
    }
  }

  class ScoreCalculator {
    const db: Database
    const game: int
    const attackWeight: real
    const defenseWeight: real
    const detector: FirstBloodDetector

    constructor (db: Database, game: int, attackWeight: real, defenseWeight: real)
      ensures this.db == db && this.game == game
      ensures this.attackWeight == attackWeight && this.defenseWeight == defenseWeight
      ensures fresh(detector) && detector.records == map[]
    {
      this.db, this.game, this.attackWeight, this.defenseWeight := db, game, attackWeight, defenseWeight;
      detector := new FirstBloodDetector();
    }

    ghost function ScoringOf(round: int): Scoring
      reads db, detector
    {
      Scoring(game, round, attackWeight, defenseWeight, detector.records.Keys, CorrectIn(db.submissions, game, round))
    }

    /** The first loop of CalculateRoundScores. */
    method TallySubmissions(round: int, subs: seq<Submission>, now: int)
      returns (attackScores: map<int, real>, defenseLosses: map<int, real>, firstBloodBonus: map<int, real>)
      modifies detector
      ensures Tallies(attackScores, AttackCredits(subs))
      ensures Tallies(defenseLosses, LossCredits(subs))
      ensures Tallies(firstBloodBonus, FirstCredits(old(detector.records.Keys), game, subs))
      ensures detector.records.Keys == old(detector.records.Keys) + FlagKeys(game, subs)
    {
      hide FlagKey, Get, CreditTo;
      attackScores, defenseLosses, firstBloodBonus := map[], map[], map[];
      NoCredit();
      ghost var seen := detector.records.Keys;
      for i := 0 to |subs|
        invariant Tallies(attackScores, AttackCredits(subs[..i]))
        invariant Tallies(defenseLosses, LossCredits(subs[..i]))
        invariant Tallies(firstBloodBonus, FirstCredits(seen, game, subs[..i]))
        invariant detector.records.Keys == seen + FlagKeys(game, subs[..i])
      {
        var sub := subs[i];
        assert subs[..i + 1][..i] == subs[..i];
        TallyMore(attackScores, AttackCredits(subs[..i]), Credit(sub.key.attacker, sub.points));
        attackScores := attackScores[sub.key.attacker := Get(attackScores, sub.key.attacker) + sub.points];
        TallyMore(defenseLosses, LossCredits(subs[..i]), Credit(sub.target, sub.points));
        defenseLosses := defenseLosses[sub.target := Get(defenseLosses, sub.target) + sub.points];
        var first := detector.CheckAndRecord(FlagKey(game, sub), sub.key.attacker, round, now);
        if first {
          TallyMore(firstBloodBonus, FirstCredits(seen, game, subs[..i]),
                    Credit(sub.key.attacker, FIRST_BLOOD_BONUS_POINTS));
          firstBloodBonus :=
            firstBloodBonus[sub.key.attacker := Get(firstBloodBonus, sub.key.attacker) + FIRST_BLOOD_BONUS_POINTS];
        } else {
          assert FirstCredits(seen, game, subs[..i]) + [] == FirstCredits(seen, game, subs[..i]);
        }
      }
      assert subs[..|subs|] == subs;
    }

    /** The second loop of CalculateRoundScores: one row for every team, updated in place if it exists. */
    method StoreRows(ghost s: Scoring, round: int, teams: seq<int>, attackScores: map<int, real>,
                     defenseLosses: map<int, real>, firstBloodBonus: map<int, real>, failing: set<int>)
      requires s.game == game && s.round == round && s.attackWeight == attackWeight && s.defenseWeight == defenseWeight
      requires Tallies(attackScores, AttackCredits(s.subs)) && Tallies(defenseLosses, LossCredits(s.subs))
      requires Tallies(firstBloodBonus, FirstCredits(s.seen, game, s.subs))
      modifies db`roundScores
      ensures db.roundScores == UpsertAll(old(db.roundScores), RowsOf(s, Sparing(teams, failing)))
    {
      for i := 0 to |teams|
        invariant db.roundScores == UpsertAll(old(db.roundScores), RowsOf(s, Sparing(teams[..i], failing)))
      {
        assert teams[..i + 1][..i] == teams[..i];
        var row := MakeRow(s, round, teams[i], attackScores, defenseLosses, firstBloodBonus);
        StoredMore(old(db.roundScores), s, Sparing(teams[..i], failing), teams[i]);
        hide RowOf, RowsOf, UpsertAll, Matches;
        var found := FindRow(db.roundScores, row.game, row.round, row.team);
        if teams[i] in failing {
          assert Sparing(teams[..i + 1], failing) == Sparing(teams[..i], failing);
        } else if found == |db.roundScores| {
          db.roundScores := db.roundScores + [row];
        } else {
          db.roundScores := db.roundScores[found := row];
        }
      }
      assert teams[..|teams|] == teams;
    }

    method MakeRow(ghost s: Scoring, round: int, team: int, attackScores: map<int, real>, defenseLosses: map<int, real>,
                   firstBloodBonus: map<int, real>) returns (row: RoundScore)
      requires s.game == game && s.round == round && s.attackWeight == attackWeight && s.defenseWeight == defenseWeight
      requires Tallies(attackScores, AttackCredits(s.subs)) && Tallies(defenseLosses, LossCredits(s.subs))
      requires Tallies(firstBloodBonus, FirstCredits(s.seen, game, s.subs))
      ensures row == RowOf(s, team)
    {
      hide CreditTo, Get, AttackCredits, LossCredits, FirstCredits;
      var attack := Get(attackScores, team) * attackWeight;
      var defense := Get(defenseLosses, team) * defenseWeight;
      var bonus := Get(firstBloodBonus, team);
      row := RoundScore(game, round, team, attack, defense, attack - defense + bonus);
    }

    /** `teams` lists the enrolled teams that have a row in the teams table, if they can be read; `order` is what
        the ranking query returns. */
    method CalculateRoundScores(round: int, teams: Option<seq<int>>, order: seq<int>, now: int, f: Failures)
      returns (ok: bool)
      requires teams.Some? ==> Distinct(teams.value)
      modifies db`roundScores, db`scores, db`ranks, detector
      ensures ok == teams.Some?
      ensures BoardOf(db) == if ok then ScoreWith(old(BoardOf(db)), old(ScoringOf(round)), teams.value, f)
                             else old(BoardOf(db))
      ensures detector.records.Keys == old(detector.records.Keys)
                                       + if ok then FlagKeys(game, Queried(old(ScoringOf(round)), f).subs) else {}
      ensures db.ranks == if ok then RankedWith(old(db.ranks), db.roundScores, game, order, f) else old(db.ranks)
    {
      if teams == None {
        return false;
      }
      ghost var s := Queried(ScoringOf(round), f);
      var subs := if f.subs then [] else CorrectIn(db.submissions, game, round);
      var attackScores, defenseLosses, firstBloodBonus := TallySubmissions(round, subs, now);
      StoreRows(s, round, teams.value, attackScores, defenseLosses, firstBloodBonus, f.rows);
      UpdateCumulativeTeamScores(order, f);
      ok := true;
    }

    method UpdateCumulativeTeamScores(order: seq<int>, f: Failures)
      modifies db`scores, db`ranks
      ensures BoardOf(db) == RecomputeWith(old(BoardOf(db)), game, f)
      ensures db.ranks == RankedWith(old(db.ranks), db.roundScores, game, order, f)
    {
      WriteScores(f);
      UpdateRankings(order, f);
    }

    method UpdateRankings(order: seq<int>, f: Failures)
      modifies db`ranks
      ensures db.ranks == RankedWith(old(db.ranks), db.roundScores, game, order, f)
    {
      if f.ranking {
        return;
      }
      for i := 0 to |order|
        invariant db.ranks == Ranked(old(db.ranks), db.roundScores, game, order[..i], f.ranks)
      {
        assert order[..i + 1][..i] == order[..i];
        var latest := LatestRound(db.roundScores, game, order[i]);
        if latest.Some? && order[i] !in f.ranks {
          db.ranks := db.ranks[RowKey(game, latest.value, order[i]) := i + 1];
        }
      }
      assert order[..|order|] == order;
    }

    /** The loop of UpdateCumulativeTeamScores. */
    method WriteScores(f: Failures)
      modifies db`scores
      ensures BoardOf(db) == RecomputeWith(old(BoardOf(db)), game, f)
    {
      ghost var before := BoardOf(db);
      if f.totals {
        return;
      }
      hide RowSum, AdjustmentSum, Recomputed;
      var adjustments := if f.adjustments then [] else db.adjustments;
      ghost var read := before.(adjustments := adjustments);
      ghost var all := TeamsWithRows(db.roundScores, game) - f.cache;
      var todo := TeamsWithRows(db.roundScores, game);
      while todo != {}
        invariant todo <= TeamsWithRows(db.roundScores, game)
        invariant db.scores == Recomputed(read, game, all - todo)
        decreases todo
      {
        ghost var member := Member(todo);
        var team :| team in todo;
        var cumulative := RowSum(db.roundScores, game, team) + AdjustmentSum(adjustments, game, team) as real;
        RecomputedMore(read, game, all, todo, team);
        if team in db.scores && team !in f.cache {
          db.scores := db.scores[team := cumulative];
        }
        todo := todo - {team};
      }
      assert all - todo == all;
    }
  }

  lemma NoCredit()
    ensures Tallies(map[], [])
  {
  }

  lemma UpsertMore(rows: seq<RoundScore>, rs: seq<RoundScore>, r: RoundScore)
    ensures UpsertAll(rows, rs + [r]) == Upsert(UpsertAll(rows, rs), r)
  {
    assert (rs + [r])[..|rs|] == rs;
  }

  lemma StoredMore(rows: seq<RoundScore>, s: Scoring, teams: seq<int>, team: int)
    ensures UpsertAll(rows, RowsOf(s, teams + [team])) == Upsert(UpsertAll(rows, RowsOf(s, teams)), RowOf(s, team))
  {
    assert (teams + [team])[..|teams|] == teams;
    UpsertMore(rows, RowsOf(s, teams), RowOf(s, team));
  }

  /** The cached scores after one more team of `todo`. */
  lemma RecomputedMore(b: Board, game: int, all: set<int>, todo: set<int>, team: int)
    requires team in todo
    ensures var now := Recomputed(b, game, all - todo);
            Recomputed(b, game, all - (todo - {team}))
            == if team in now && team in all then now[team := Ledger(b, game, team)] else now
  {
    if team in all {
      assert all - (todo - {team}) == all - todo + {team};
    } else {
      assert all - (todo - {team}) == all - todo;
    }
  }

  class ContainerService {
    const db: Database

    constructor (db: Database)
      ensures this.db == db
    {
      this.db := db;
    }

    /** `team` owns the container; `restarted` says whether the container was found and restarted.  The score
        drops even if the adjustment is not inserted. */
    method RestartContainer(game: int, team: int, restarted: bool, insertWorks: bool, updateWorks: bool)
      modifies db`adjustments, db`scores
      ensures BoardOf(db) == if restarted then
                               Adjusted(old(BoardOf(db)), game, team, -50, insertWorks, updateWorks)
                             else old(BoardOf(db))
    {
      if !restarted {
        return;
      }
      if insertWorks {
        db.adjustments := db.adjustments + [Adjustment(game, team, -50)];
      }
      if updateWorks && team in db.scores {
        db.scores := db.scores[team := db.scores[team] + RESTART_PENALTY as real];
      }
    }
  }

  class ScoreService {
    const db: Database

    constructor (db: Database)
      ensures this.db == db
    {
      this.db := db;
    }

    /** An update that fails is reported, but the adjustment stays. */
    method AdjustScore(game: int, team: int, value: int, insertWorks: bool, updateWorks: bool) returns (ok: bool)
      modifies db`adjustments, db`scores
      ensures ok == (game in db.weights && insertWorks && updateWorks)
      ensures BoardOf(db) == if game in db.weights && insertWorks then
                               Adjusted(old(BoardOf(db)), game, team, value, true, updateWorks)
                             else old(BoardOf(db))
    {
      if game !in db.weights || !insertWorks {
        return false;
      }
      db.adjustments := db.adjustments + [Adjustment(game, team, value)];
      var current := if team in db.scores then db.scores[team] else 0.0;
      if !updateWorks {
        return false;
      }
      if team in db.scores {
        db.scores := db.scores[team := current + value as real];
      }
      ok := true;
    }
  }

  datatype Response = Refused(code: int) | Done(oldScore: real, newScore: real)

  class AdminHandler {
    const db: Database

    constructor (db: Database)
      ensures this.db == db
    {
      this.db := db;
    }

    method AdjustScore(game: int, team: int, amount: real, adjustment: real, reason: string, insertWorks: bool,
                       order: seq<int>, f: Failures) returns (r: Response)
      modifies db`adjustments, db`scores, db`ranks
      ensures db.ranks == if r.Done? then RankedWith(old(db.ranks), db.roundScores, game, order, f) else old(db.ranks)
      ensures var effective := if amount == 0.0 then adjustment else amount;
              if effective == 0.0 || game == 0 || team == 0 || reason == "" then
                r == Refused(400) && BoardOf(db) == old(BoardOf(db))
              else if game !in db.weights || team !in old(db.scores) then
                r == Refused(404) && BoardOf(db) == old(BoardOf(db))
              else if !insertWorks then
                r == Refused(500) && BoardOf(db) == old(BoardOf(db))
              else
                && r == Done(old(db.scores)[team], old(db.scores)[team] + effective)
                && var entered := Adjusted(old(BoardOf(db)), game, team, Truncate(effective), true, false);
                   BoardOf(db) == RecomputeWith(entered, game, f)
    {
      var effective := amount;
      if amount == 0.0 && adjustment != 0.0 {
        effective := adjustment;
      }
      if effective == 0.0 {
        return Refused(400);
      }
      if game == 0 || team == 0 {
        return Refused(400);
      }
      if reason == "" {
        return Refused(400);
      }
      if game !in db.weights {
        return Refused(404);
      }
      if team !in db.scores {
        return Refused(404);
      }
      var oldScore := db.scores[team];
      if !insertWorks {
        return Refused(500);
      }
      db.adjustments := db.adjustments + [Adjustment(game, team, Truncate(effective))];
      var calculator := new ScoreCalculator(db, game, db.weights[game], 0.0);
      calculator.UpdateCumulativeTeamScores(order, f);
      r := Done(oldScore, oldScore + effective);
    }
  }
}
