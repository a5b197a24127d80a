/** What the rank column says: internal/engine/scoring.go, UpdateRankings. */
module Rankings {
  import opened LiveScoring
  import opened LiveScoringRuns
  import opened Options
  import opened Sums
  import opened Tables

  /** What the ranking query may return: the teams with rows in the game, the highest sum of rows first, equal
      ones in any order. */
  ghost predicate ByTotal(order: seq<int>, rows: seq<RoundScore>, game: int) {
    && Distinct(order)
    && (forall t :: t in order <==> HasRow(rows, game, t))
    && forall i, j :: 0 <= i < j < |order| ==> RowSum(rows, game, order[i]) >= RowSum(rows, game, order[j])
  }

  lemma {:induction false} LatestIsHighest(rows: seq<RoundScore>, game: int, team: int)
    ensures var latest := LatestRound(rows, game, team);
            && (latest.Some? <==> exists k :: 0 <= k < |rows| && RowFor(rows[k], game, team))
            && (latest.Some? ==>
                  && (exists k :: 0 <= k < |rows| && RowFor(rows[k], game, team) && rows[k].round == latest.value)
                  && forall k :: 0 <= k < |rows| && RowFor(rows[k], game, team) ==> rows[k].round <= latest.value)
    decreases |rows|
  {
    if rows != [] {
      var init, last := rows[..|rows| - 1], rows[|rows| - 1];
      LatestIsHighest(init, game, team);
      assert forall k :: 0 <= k < |init| ==> init[k] == rows[k];
      assert LatestRound(rows, game, team).Some? ==>
          RowFor(rows[|rows| - 1], game, team) || LatestRound(init, game, team).Some?;
    }
  }

  /** The place of a team ends up in its latest row, and no other row changes. */
  lemma {:induction false} RankGoesToLatest(ranks: map<RowKey, int>, rows: seq<RoundScore>, game: int,
                                            order: seq<int>, failing: set<int>, key: RowKey)
    requires Distinct(order)
    ensures var after := Ranked(ranks, rows, game, order, failing);
            if key.game == game && key.team in order && key.team !in failing
               && LatestRound(rows, game, key.team) == Some(key.round) then
              key in after && 1 <= after[key] <= |order| && order[after[key] - 1] == key.team
            else (key in after <==> key in ranks) && (key in ranks ==> after[key] == ranks[key])
    decreases |order|
  {
    if order != [] {
      var init, last := order[..|order| - 1], order[|order| - 1];
      InitDistinct(order);
      RankGoesToLatest(ranks, rows, game, init, failing, key);
    }
    hide LatestRound, Distinct;
  }

  lemma InitDistinct(xs: seq<int>)
    requires Distinct(xs) && xs != []
    ensures var init, last := xs[..|xs| - 1], xs[|xs| - 1];
            Distinct(init) && last !in init && xs == init + [last]
  {
  }

  function SetOf(xs: seq<int>): set<int> {
    set x | x in xs
  }

  lemma {:induction false} DistinctCount(xs: seq<int>)
    requires Distinct(xs)
    ensures |SetOf(xs)| == |xs|
    decreases |xs|
  {
    if xs != [] {
      var init, last := xs[..|xs| - 1], xs[|xs| - 1];
      assert xs == init + [last];
      assert forall i :: 0 <= i < |init| ==> init[i] == xs[i];
      DistinctCount(init);
      assert SetOf(xs) == SetOf(init) + {last};
    }
  }

  /** The teams with a higher sum of rows in the game, and those with at least the same. */
  ghost function Ahead(rows: seq<RoundScore>, game: int, team: int): set<int> {
    set t | t in TeamsWithRows(rows, game) && RowSum(rows, game, t) > RowSum(rows, game, team)
  }

  ghost function Level(rows: seq<RoundScore>, game: int, team: int): set<int> {
    set t | t in TeamsWithRows(rows, game) && RowSum(rows, game, t) >= RowSum(rows, game, team)
  }

  lemma PlaceCounts(order: seq<int>, rows: seq<RoundScore>, game: int, i: nat)
    requires ByTotal(order, rows, game) && i < |order|
    ensures |Ahead(rows, game, order[i])| <= i < |Level(rows, game, order[i])|
  {
    hide RowSum, TeamsWithRows;
    var team := order[i];
    DistinctCount(order[..i]);
    DistinctCount(order[..i + 1]);
    forall t | t in Ahead(rows, game, team) ensures t in order[..i] {
      assert HasRow(rows, game, t);
      var j :| 0 <= j < |order| && order[j] == t;
      assert j < i;
    }
    assert Ahead(rows, game, team) <= SetOf(order[..i]);
    SubsetCount(Ahead(rows, game, team), SetOf(order[..i]));
    forall t | t in SetOf(order[..i + 1]) ensures t in Level(rows, game, team) {
      var j :| 0 <= j < i + 1 && order[j] == t;
      assert HasRow(rows, game, t);
    }
    SubsetCount(SetOf(order[..i + 1]), Level(rows, game, team));
  }

  lemma {:induction false} SubsetCount(a: set<int>, b: set<int>)
    requires a <= b
    ensures |a| <= |b|
    decreases a
  {
    if a != {} {
      ghost var member := Member(a);
      var x :| x in a;
      SubsetCount(a - {x}, b - {x});
    }
  }

  /** After a ranking in which nothing fails, the latest row of a team holds a rank above the number of teams with a
      higher sum of rows, and not above that of teams with at least the same: for distinct sums, exactly its
      place. */
  lemma RankCountsTeamsAhead(ranks: map<RowKey, int>, rows: seq<RoundScore>, game: int, order: seq<int>, team: int)
    requires ByTotal(order, rows, game) && HasRow(rows, game, team)
    ensures var after, latest := Ranked(ranks, rows, game, order, {}), LatestRound(rows, game, team);
            && latest.Some?
            && var key := RowKey(game, latest.value, team);
               key in after && |Ahead(rows, game, team)| < after[key] <= |Level(rows, game, team)|
  {
    LatestIsHighest(rows, game, team);
    HasRowIff(rows, game, team);
    var latest := LatestRound(rows, game, team);
    RankGoesToLatest(ranks, rows, game, order, {}, RowKey(game, latest.value, team));
    var i := Ranked(ranks, rows, game, order, {})[RowKey(game, latest.value, team)] - 1;
    PlaceCounts(order, rows, game, i);
    hide Ranked, LatestRound, Ahead, Level, ByTotal;
  }

  /** Ranks leave out adjustments, scores do not: of two teams in step, the one that is ranked lower has the
      higher score exactly if its adjustments are worth more by more than its rows are worth less. */
  lemma RankAgainstScore(b: Board, game: int, order: seq<int>, i: nat, j: nat)
    requires ByTotal(order, b.rows, game) && i < j < |order|
    requires order[i] in b.scores && order[j] in b.scores
    requires InStep(b, game, order[i]) && InStep(b, game, order[j])
    ensures b.scores[order[j]] > b.scores[order[i]]
            <==> (AdjustmentSum(b.adjustments, game, order[j]) - AdjustmentSum(b.adjustments, game, order[i])) as real
                 > RowSum(b.rows, game, order[i]) - RowSum(b.rows, game, order[j])
    ensures RowSum(b.rows, game, order[i]) >= RowSum(b.rows, game, order[j])
  {
    assert HasRow(b.rows, game, order[i]) && HasRow(b.rows, game, order[j]);
    hide RowSum, AdjustmentSum, HasRow;
  }
}
