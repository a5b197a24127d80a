/** internal/engine/scoring/defense.go */
module Defense {
  import opened Sums

  type History = map<int, map<int, nat>>

  /** Go reads a missing map entry as zero. */
  function Entry(row: map<int, nat>, team: int): nat {
    if team in row then row[team] else 0
  }

  function Row(h: History, round: int): map<int, nat> {
    if round in h then h[round] else map[]
  }

  function Breach(h: History, round: int, team: int): History {
    h[round := Row(h, round)[team := Entry(Row(h, round), team) + 1]]
  }

  ghost function Column(h: History, team: int): map<int, int> {
    map r | r in h :: Entry(h[r], team)
  }

  ghost function TeamBreaches(h: History, team: int): int {
    Total(Column(h, team))
  }

  /** The outcome of a floating-point division, which has one for a divisor of zero too. */
  datatype Number = Num(value: real) | NaN | Infinite(positive: bool)

  function Divide(a: real, n: int): Number {
    if n != 0 then Num(a / n as real)
    else if a == 0.0 then NaN
    else Infinite(a > 0.0)
  }

  /** The part of the defense value for so many of all rounds. */
  function Scaled(successful: int, value: real, totalRounds: int): Number {
    Divide(successful as real * value, totalRounds)
  }

  function DefenseBonus(value: real, totalRounds: int, breached: int): Number {
    match Scaled(totalRounds - breached, value, totalRounds)
    case Num(bonus) => Num(if bonus < 0.0 then 0.0 else bonus)
    case NaN => NaN
    case Infinite(positive) => if positive then Infinite(true) else Num(0.0)
  }

  function Bonus(value: real, totalRounds: int, breached: int): real
    requires totalRounds != 0
  {
    DefenseBonus(value, totalRounds, breached).value
  }

  datatype Stats = Stats(teamID: int, breaches: int, successful: int, score: Number)

  class DefenseCalculator {
    var value: real
    var history: History

    constructor (value: real)
      ensures this.value == value && history == map[]
    {
      this.value := value;
      history := map[];
    }

    method RecordBreach(round: int, teamID: int)
      modifies this`history
      ensures history == Breach(old(history), round, teamID)
    {
      if round !in history {
        history := history[round := map[]];
      }
      var row := history[round];
      history := history[round := row[teamID := Entry(row, teamID) + 1]];
    }

    method CalculateDefenseBonus(round: int, totalRounds: int, timesBreached: int) returns (bonus: Number)
      ensures bonus == DefenseBonus(value, totalRounds, timesBreached)
    {
      var successful := totalRounds - timesBreached;
      bonus := Scaled(successful, value, totalRounds);
      if (bonus.Num? && bonus.value < 0.0) || bonus == Infinite(false) {
        bonus := Num(0.0);
      }
    }

    method GetTeamBreaches(teamID: int) returns (total: int)
      ensures total == TeamBreaches(history, teamID)
    {
      total := 0;
      var todo := history.Keys;
      ghost var column := Column(history, teamID);
      assert column.Keys == history.Keys;
      PartWhole(column);
      while todo != {}
        invariant todo <= history.Keys
        invariant total + Total(Part(column, todo)) == Total(column)
        decreases todo
      {
        ghost var member := Member(todo);
        var r :| r in todo;
        TotalTakeOut(Part(column, todo), r);
        PartLess(column, todo, r);
        total := total + Entry(history[r], teamID);
        todo := todo - {r};
      }
    }

    method GetDefenseStats(totalRounds: int, teamIDs: seq<int>) returns (stats: seq<Stats>)
      ensures |stats| == |teamIDs|
      ensures forall i :: 0 <= i < |teamIDs| ==> stats[i] == StatsOf(value, history, totalRounds, teamIDs[i])
    {
      hide Scaled;
      stats := [];
      for i := 0 to |teamIDs|
        invariant |stats| == i
        invariant forall j :: 0 <= j < i ==> stats[j] == StatsOf(value, history, totalRounds, teamIDs[j])
      {
        var breaches := GetTeamBreaches(teamIDs[i]);
        var successful := totalRounds - breaches;
        if successful < 0 {
          successful := 0;
        }
        var bonus := Scaled(successful, value, totalRounds);
        stats := stats + [Stats(teamIDs[i], breaches, successful, bonus)];
      }
    }

    method Clear()
      modifies this`history
      ensures history == map[]
    {
      history := map[];
    }
  }

  ghost function StatsOf(value: real, h: History, totalRounds: int, team: int): Stats {
    var breaches := TeamBreaches(h, team);
    var successful := if totalRounds - breaches < 0 then 0 else totalRounds - breaches;
    Stats(team, breaches, successful, Scaled(successful, value, totalRounds))
  }

  lemma ScaledSign(x: real, value: real, n: real)
    requires n > 0.0 && value >= 0.0
    ensures x >= 0.0 ==> x * value / n >= 0.0
    ensures x <= 0.0 ==> x * value / n <= 0.0
  {
    if x >= 0.0 {
      assert x * value >= 0.0;
    } else {
      assert -x * value >= 0.0;
      assert x * value == -(-x * value);
    }
  }

  /** So many of all rounds: the number that all rounds together multiply up to as many defense values. */
  lemma ScaledIs(successful: int, value: real, totalRounds: int)
    requires totalRounds != 0
    ensures var part := Scaled(successful, value, totalRounds);
            part.Num? && part.value * totalRounds as real == successful as real * value
  {
    var whole, n := successful as real * value, totalRounds as real;
    assert whole / n * n == whole;
  }

  /** The published numbers of a team: its breaches, the rounds without one, and their part of the defense value. */
  lemma StatsAre(value: real, h: History, totalRounds: int, team: int)
    requires totalRounds > 0
    ensures var stats, breaches := StatsOf(value, h, totalRounds, team), TeamBreaches(h, team);
            && stats.teamID == team && stats.breaches == breaches
            && stats.successful == (if breaches > totalRounds then 0 else totalRounds - breaches)
            && stats.score.Num? && stats.score.value * totalRounds as real == stats.successful as real * value
  {
    ScaledIs(StatsOf(value, h, totalRounds, team).successful, value, totalRounds);
    hide Scaled, TeamBreaches;
  }

  /** The bonus is that part of the defense value, and never negative. */
  lemma BonusIs(value: real, totalRounds: int, breached: int)
    requires totalRounds > 0
    ensures var bonus, left := Bonus(value, totalRounds, breached), (totalRounds - breached) as real * value;
            bonus >= 0.0 && (left >= 0.0 ==> bonus * totalRounds as real == left) && (left <= 0.0 ==> bonus == 0.0)
  {
    ScaledIs(totalRounds - breached, value, totalRounds);
    var part, n := Scaled(totalRounds - breached, value, totalRounds).value, totalRounds as real;
    hide Scaled;
    assert part * n > 0.0 ==> part > 0.0;
    assert part * n < 0.0 ==> part < 0.0;
    assert part * n == 0.0 ==> part == 0.0;
  }

  /** The two formulas for the defense score are one when the value is not negative. */
  lemma StatsAgreeWithBonus(value: real, h: History, totalRounds: int, team: int)
    requires value >= 0.0 && totalRounds > 0
    ensures StatsOf(value, h, totalRounds, team).score == Num(Bonus(value, totalRounds, TeamBreaches(h, team)))
  {
    var left := totalRounds - TeamBreaches(h, team);
    ScaledSign(left as real, value, totalRounds as real);
    if left <= 0 {
      ScaledSign(0.0, value, totalRounds as real);
      assert StatsOf(value, h, totalRounds, team).successful == 0;
    }
  }

  /** A game without rounds has no defense scores: what is published is not a number, nor is the bonus of an
      unbreached team.  That of a breached one is nothing, or infinite if the value is negative. */
  lemma NoRoundsNoScore(value: real, h: History, team: int, breached: nat)
    ensures StatsOf(value, h, 0, team).score == NaN
    ensures DefenseBonus(value, 0, 0) == NaN
    ensures breached > 0 && value > 0.0 ==> DefenseBonus(value, 0, breached) == Num(0.0)
    ensures breached > 0 && value < 0.0 ==> DefenseBonus(value, 0, breached) == Infinite(true)
  {
    var lost := (0 - breached) as real;
    assert breached > 0 && value > 0.0 ==> lost * value < 0.0;
    assert breached > 0 && value < 0.0 ==> lost * value > 0.0;
    BreachesNonNegative(h, team);
  }

  lemma BreachesNonNegative(h: History, team: int)
    ensures TeamBreaches(h, team) >= 0
  {
    var column := Column(h, team);
    forall r | r in column ensures column[r] >= 0 {
    }
    TotalNonNegative(column);
  }

  /** One breach more for the team, in the matrix and in its total. */
  lemma BreachCounts(h: History, round: int, team: int, other: int)
    ensures TeamBreaches(Breach(h, round, team), other) == TeamBreaches(h, other) + if other == team then 1 else 0
  {
    var h' := Breach(h, round, team);
    var row := Row(h, round);
    var before := if round in h then Entry(h[round], other) else 0;
    assert Column(h', other) == Column(h, other)[round := Entry(h'[round], other)];
    TotalUpdate(Column(h, other), round, Entry(h'[round], other));
  }

  ghost function RowTotals(h: History): map<int, int> {
    map r | r in h :: Total(h[r])
  }

  lemma BreachGrandTotal(h: History, round: int, team: int)
    ensures Total(RowTotals(Breach(h, round, team))) == Total(RowTotals(h)) + 1
  {
    var h' := Breach(h, round, team);
    var row := Row(h, round);
    TotalUpdate(row, team, Entry(row, team) + 1);
    assert RowTotals(h') == RowTotals(h)[round := Total(h'[round])];
    TotalUpdate(RowTotals(h), round, Total(h'[round]));
  }
}
