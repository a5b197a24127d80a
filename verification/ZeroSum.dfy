/** internal/engine/scoring/zero_sum.go: the scorer object and, as functions on a Ledger, what its
    operations do.  Scores are reals. */
module ZeroSum {
  import opened Sums
  import opened FirstBlood
  import opened Defense

  datatype Rules = Rules(initialTotal: real, flagValue: real, firstBloodBonus: real)
  {
    /** Defense is worth half an attack. */
    function DefenseValue(): real {
      flagValue * 0.5
    }

    /** What the first capture of a flag is worth on top. */
    function FirstBloodPoints(): real {
      flagValue * firstBloodBonus
    }
  }

  /** `nan` says that bonus and total are not numbers any more; the fields then hold what the numbers among
      their parts come to. */
  datatype TeamScore = TeamScore(
    teamID: int,
    initial: real,
    attack: real,
    defense: real,
    bonus: real,
    total: real,
    captured: nat,
    lost: nat,
    roundsDefended: nat,
    nan: bool)

  datatype Submission = Submission(attacker: int, target: int, flag: string, round: int, correct: bool)

  type Scores = map<int, TeamScore>

  /** The three records that have to stay in agreement. */
  datatype Ledger = Ledger(scores: Scores, records: Records, history: History)

  function NewTeam(team: int, initial: real): TeamScore {
    TeamScore(team, initial, 0.0, 0.0, 0.0, initial, 0, 0, 0, false)
  }

  /** getOrCreateTeam */
  function Team(scores: Scores, team: int): TeamScore {
    if team in scores then scores[team] else NewTeam(team, 0.0)
  }

  function InitializeScores(rules: Rules, scores: Scores, ids: seq<int>): Scores {
    scores + map t | t in ids :: NewTeam(t, rules.initialTotal / |ids| as real)
  }

  function Points(rules: Rules, l: Ledger, flag: string): real {
    if flag in l.records then rules.flagValue
    else rules.flagValue + rules.FirstBloodPoints()
  }

  function Gain(s: TeamScore, points: real): TeamScore {
    s.(attack := s.attack + points, total := s.total + points, captured := s.captured + 1)
  }

  function Lose(s: TeamScore, points: real): TeamScore {
    s.(defense := s.defense - points, total := s.total - points, lost := s.lost + 1)
  }

  function Transfer(scores: Scores, attacker: int, target: int, points: real): Scores {
    var gained := scores[attacker := Gain(Team(scores, attacker), points)];
    gained[target := Lose(Team(gained, target), points)]
  }

  function AttackLedger(rules: Rules, l: Ledger, a: Submission, now: int): Ledger {
    if !a.correct then l
    else
      Ledger(Transfer(l.scores, a.attacker, a.target, Points(rules, l, a.flag)),
             if a.flag in l.records then l.records
             else l.records[a.flag := Record(a.flag, a.attacker, a.round, now)],
             Breach(l.history, a.round, a.target))
  }

  function Losses(scores: Scores): map<int, real> {
    map t | t in scores :: if scores[t].defense < 0.0 then -scores[t].defense else 0.0
  }

  ghost function Pool(scores: Scores): real {
    Sum(Losses(scores))
  }

  /** The larger of zero and what the team is down on defense. */
  lemma LossesAre(scores: Scores, t: int)
    requires t in scores
    ensures var loss, down := Losses(scores)[t], -scores[t].defense;
            loss >= 0.0 && loss >= down && (loss == 0.0 || loss == down)
  {
  }

  function Unbreached(scores: Scores): set<int> {
    set t | t in scores && scores[t].lost == 0
  }

  /** The share of the pool of each unbreached team. */
  function Share(pool: real, winners: nat): real {
    if winners > 0 && pool > 0.0 then pool / winners as real else 0.0
  }

  /** Adds a bonus, which is not a number if there are no rounds. */
  function Plus(s: TeamScore, bonus: Number): TeamScore {
    match bonus
    case Num(b) => s.(bonus := s.bonus + b, total := s.total + b)
    case _ => s.(nan := true)
  }

  function Award(s: TeamScore, share: real, roundBonus: Number): TeamScore {
    if s.lost != 0 then s
    else
      Plus(s.(bonus := s.bonus + share, total := s.total + share,
              roundsDefended := s.roundsDefended + if share > 0.0 then 1 else 0),
           roundBonus)
  }

  ghost function Awarded(scores: Scores, share: real, roundBonus: Number): Scores {
    map t | t in scores :: Award(scores[t], share, roundBonus)
  }

  /** Paying the share and the round bonus one after the other. */
  lemma AwardedTwice(scores: Scores, share: real, bonus: Number)
    ensures Awarded(Awarded(scores, share, Num(0.0)), 0.0, bonus) == Awarded(scores, share, bonus)
    ensures Awarded(scores, 0.0, Num(0.0)) == scores
  {
    forall t | t in scores
      ensures Award(Award(scores[t], share, Num(0.0)), 0.0, bonus) == Award(scores[t], share, bonus)
      ensures Award(scores[t], 0.0, Num(0.0)) == scores[t]
    {
      AwardTwice(scores[t], share, bonus);
    }
    hide Award;
  }

  lemma AwardTwice(s: TeamScore, share: real, bonus: Number)
    ensures Award(Award(s, share, Num(0.0)), 0.0, bonus) == Award(s, share, bonus)
    ensures Award(s, 0.0, Num(0.0)) == s
  {
  }

  /** What every unbreached team gets at a round end on top of its share. */
  function RoundBonus(rules: Rules, totalRounds: int): Number {
    DefenseBonus(rules.DefenseValue(), totalRounds, 0)
  }

  ghost function DefenseLedger(rules: Rules, l: Ledger, totalRounds: int): Ledger {
    var share := Share(Pool(l.scores), |Unbreached(l.scores)|);
    l.(scores := Awarded(l.scores, share, RoundBonus(rules, totalRounds)))
  }

  function TotalScores(scores: Scores): map<int, real> {
    map t | t in scores :: scores[t].total
  }

  function StrictScores(scores: Scores): map<int, real> {
    map t | t in scores :: scores[t].initial + scores[t].attack + scores[t].defense
  }

  predicate AllNumbers(scores: Scores) {
    forall t :: t in scores ==> !scores[t].nan
  }

  function AlmostEqual(a: real, b: real, tolerance: real): (close: bool)
    ensures close <==> -tolerance <= a - b <= tolerance
  {
    (if a - b < 0.0 then b - a else a - b) <= tolerance
  }

  function Tolerance(rules: Rules, teams: nat): real {
    var t := rules.DefenseValue() * teams as real;
    if t < 0.01 then 0.01 else t
  }

  class ZeroSumScorer {
    const rules: Rules
    var teamScores: Scores
    const firstBlood: FirstBloodDetector
    const defense: DefenseCalculator

    ghost predicate Valid()
      reads this, firstBlood, defense
    {
      defense.value == rules.DefenseValue()
    }

    ghost function View(): Ledger
      reads this, firstBlood, defense
    {
      Ledger(teamScores, firstBlood.records, defense.history)
    }

    constructor (initialTotal: real, flagValue: real, firstBloodBonus: real)
      ensures Valid() && rules == Rules(initialTotal, flagValue, firstBloodBonus)
      ensures View() == Ledger(map[], map[], map[])
      ensures fresh(firstBlood) && fresh(defense)
    {
      rules := Rules(initialTotal, flagValue, firstBloodBonus);
      teamScores := map[];
      firstBlood := new FirstBloodDetector();
      defense := new DefenseCalculator(flagValue * 0.5);
    }

    /** Without teams there is no per-team share and nothing to set up. */
    method Initialize(teamIDs: seq<int>)
      requires Valid()
      modifies this`teamScores
      ensures Valid()
      ensures teamScores == if teamIDs == [] then old(teamScores) else InitializeScores(rules, old(teamScores), teamIDs)
    {
      if |teamIDs| == 0 {
        return;
      }
      var perTeam := rules.initialTotal / |teamIDs| as real;
      for i := 0 to |teamIDs|
        invariant teamScores == old(teamScores) + map t | t in teamIDs[..i] :: NewTeam(t, perTeam)
      {
        assert teamIDs[..i + 1] == teamIDs[..i] + [teamIDs[i]];
        teamScores := teamScores[teamIDs[i] := NewTeam(teamIDs[i], perTeam)];
      }
      assert teamIDs[..|teamIDs|] == teamIDs;
    }

    method OnAttack(attack: Submission, now: int)
      requires Valid()
      modifies this`teamScores, firstBlood, defense`history
      ensures Valid() && View() == AttackLedger(rules, old(View()), attack, now)
    {
      if !attack.correct {
        return;
      }
      var points := rules.flagValue;
      var isFirstBlood := firstBlood.CheckAndRecord(attack.flag, attack.attacker, attack.round, now);
      if isFirstBlood {
        points := points + points * rules.firstBloodBonus;
      }
      var attackerScore := Team(teamScores, attack.attacker);
      teamScores := teamScores[attack.attacker := Gain(attackerScore, points)];
      var targetScore := Team(teamScores, attack.target);
      teamScores := teamScores[attack.target := Lose(targetScore, points)];
      defense.RecordBreach(attack.round, attack.target);
      ghost var expected := AttackLedger(rules, old(View()), attack, now);
      assert points == Points(rules, old(View()), attack.flag);
      assert teamScores == Transfer(old(teamScores), attack.attacker, attack.target, points);
      assert firstBlood.records == expected.records && defense.history == expected.history;
    }

    method OnDefense(round: int, totalRounds: int)
      requires Valid()
      modifies this`teamScores
      ensures Valid() && View() == DefenseLedger(rules, old(View()), totalRounds)
    {
      var pool := DefensePool();
      var undefeated := UndefeatedTeams();
      if |undefeated| > 0 && pool > 0.0 {
        PayPool(undefeated, pool / |undefeated| as real);
      }
      hide Awarded, Pool, Unbreached;
      AwardedTwice(old(teamScores), Share(pool, |undefeated|), RoundBonus(rules, totalRounds));
      CalculateRoundDefenseBonus(round, totalRounds);
    }

    method PayPool(undefeated: seq<int>, bonusPerTeam: real)
      requires forall t :: t in Unbreached(teamScores) ==> t in undefeated
      requires forall i :: 0 <= i < |undefeated| ==> undefeated[i] in Unbreached(teamScores)
      requires forall i, j :: 0 <= i < j < |undefeated| ==> undefeated[i] != undefeated[j]
      requires bonusPerTeam > 0.0
      modifies this`teamScores
      ensures teamScores == Awarded(old(teamScores), bonusPerTeam, Num(0.0))
    {
      ghost var before := teamScores;
      for i := 0 to |undefeated|
        invariant teamScores.Keys == before.Keys
        invariant forall j :: i <= j < |undefeated| ==> teamScores[undefeated[j]] == before[undefeated[j]]
        invariant forall t :: t in before ==>
          teamScores[t] == if t in undefeated[..i] then Award(before[t], bonusPerTeam, Num(0.0)) else before[t]
      {
        var score := teamScores[undefeated[i]];
        teamScores := teamScores[undefeated[i] :=
          score.(bonus := score.bonus + bonusPerTeam, total := score.total + bonusPerTeam,
                 roundsDefended := score.roundsDefended + 1)];
        assert undefeated[..i + 1] == undefeated[..i] + [undefeated[i]];
      }
      assert undefeated[..|undefeated|] == undefeated;
      assert forall t :: t in before ==> teamScores[t] == Award(before[t], bonusPerTeam, Num(0.0));
    }

    method DefensePool() returns (pool: real)
      ensures pool == Pool(teamScores)
    {
      pool := 0.0;
      ghost var losses := Losses(teamScores);
      var todo := teamScores.Keys;
      assert losses.Keys == todo;
      PartWhole(losses);
      while todo != {}
        invariant todo <= teamScores.Keys
        invariant pool + Sum(Part(losses, todo)) == Sum(losses)
        decreases todo
      {
        ghost var member := Member(todo);
        var t :| t in todo;
        SumTakeOut(Part(losses, todo), t);
        PartLess(losses, todo, t);
        if teamScores[t].defense < 0.0 {
          pool := pool + -teamScores[t].defense;
        }
        todo := todo - {t};
      }
    }

    method UndefeatedTeams() returns (teams: seq<int>)
      ensures forall t :: t in Unbreached(teamScores) ==> t in teams
      ensures forall i :: 0 <= i < |teams| ==> teams[i] in Unbreached(teamScores)
      ensures |teams| == |Unbreached(teamScores)|
      ensures forall i, j :: 0 <= i < j < |teams| ==> teams[i] != teams[j]
    {
      teams := [];
      var todo := teamScores.Keys;
      ghost var found: set<int> := {};
      while todo != {}
        invariant todo <= teamScores.Keys
        invariant found == set t | t in teamScores && t !in todo && teamScores[t].lost == 0
        invariant forall t :: t in found ==> t in teams
        invariant forall i :: 0 <= i < |teams| ==> teams[i] in found
        invariant |found| == |teams|
        invariant forall i, j :: 0 <= i < j < |teams| ==> teams[i] != teams[j]
        decreases todo
      {
        ghost var member := Member(todo);
        var t :| t in todo;
        if teamScores[t].lost == 0 {
          teams := teams + [t];
          found := found + {t};
        }
        todo := todo - {t};
      }
      assert found == Unbreached(teamScores);
    }

    method CalculateRoundDefenseBonus(round: int, totalRounds: int)
      requires Valid()
      modifies this`teamScores
      ensures Valid()
      ensures teamScores == Awarded(old(teamScores), 0.0, RoundBonus(rules, totalRounds))
    {
      var todo := teamScores.Keys;
      ghost var bonus := RoundBonus(rules, totalRounds);
      while todo != {}
        invariant todo <= teamScores.Keys == old(teamScores).Keys
        invariant forall t :: t in teamScores ==>
          teamScores[t] == if t in todo then old(teamScores)[t] else Award(old(teamScores)[t], 0.0, bonus)
        decreases todo
      {
        ghost var member := Member(todo);
        var t :| t in todo;
        var score := teamScores[t];
        var defenseBonus := defense.CalculateDefenseBonus(round, totalRounds, score.lost);
        if score.lost == 0 {
          teamScores := teamScores[t := Plus(score, defenseBonus)];
        }
        todo := todo - {t};
      }
      assert forall t :: t in teamScores ==> teamScores[t] == Award(old(teamScores)[t], 0.0, bonus);
      assert teamScores.Keys == old(teamScores).Keys;
    }

    /** A sum with a total that is not a number is close to nothing. */
    method ValidateZeroSum() returns (valid: bool)
      ensures valid <==>
        && AllNumbers(teamScores)
        && AlmostEqual(Sum(TotalScores(teamScores)), rules.initialTotal, Tolerance(rules, |teamScores|))
    {
      var total, isNumber := GrandTotal();
      valid := isNumber && AlmostEqual(total, rules.initialTotal, Tolerance(rules, |teamScores|));
    }

    method GrandTotal() returns (total: real, isNumber: bool)
      ensures total == Sum(TotalScores(teamScores)) && isNumber == AllNumbers(teamScores)
    {
      total, isNumber := 0.0, true;
      ghost var all := TotalScores(teamScores);
      var todo := teamScores.Keys;
      assert all.Keys == todo;
      PartWhole(all);
      while todo != {}
        invariant todo <= teamScores.Keys
        invariant total + Sum(Part(all, todo)) == Sum(all)
        invariant isNumber <==> forall u :: u in teamScores && u !in todo ==> !teamScores[u].nan
        decreases todo
      {
        ghost var member := Member(todo);
        var t :| t in todo;
        SumTakeOut(Part(all, todo), t);
        PartLess(all, todo, t);
        total := total + teamScores[t].total;
        isNumber := isNumber && !teamScores[t].nan;
        todo := todo - {t};
      }
    }

    method ValidateStrictZeroSum() returns (valid: bool)
      ensures valid <==> AlmostEqual(Sum(StrictScores(teamScores)), rules.initialTotal, 0.01)
    {
      var total := 0.0;
      ghost var all := StrictScores(teamScores);
      var todo := teamScores.Keys;
      assert all.Keys == todo;
      PartWhole(all);
      while todo != {}
        invariant todo <= teamScores.Keys
        invariant total + Sum(Part(all, todo)) == Sum(all)
        decreases todo
      {
        ghost var member := Member(todo);
        var t :| t in todo;
        SumTakeOut(Part(all, todo), t);
        PartLess(all, todo, t);
        total := total + (teamScores[t].initial + teamScores[t].attack + teamScores[t].defense);
        todo := todo - {t};
      }
      valid := AlmostEqual(total, rules.initialTotal, 0.01);
    }
  }
}
