/** internal/engine/scoring: how far OnDefense takes the scores from zero sum, and what the two
    validators therefore say. */
module ZeroSumDrift {
  import opened Sums
  import opened Defense
  import opened ZeroSum
  import opened ZeroSumRuns

  lemma {:induction false} SumNegate<K>(m: map<K, real>, n: map<K, real>)
    requires m.Keys == n.Keys && forall k :: k in m ==> n[k] == -m[k]
    ensures Sum(n) == -Sum(m)
    decreases |m|
  {
    if m == map[] {
      assert n == map[];
    } else {
      var k :| k in m;
      SumTakeOut(m, k);
      SumTakeOut(n, k);
      SumNegate(m - {k}, n - {k});
    }
  }

  lemma {:induction false} SumNonNegative<K>(m: map<K, real>)
    requires forall k :: k in m ==> m[k] >= 0.0
    ensures Sum(m) >= 0.0
    decreases |m|
  {
    if m != map[] {
      var k :| k in m;
      SumTakeOut(m, k);
      SumNonNegative(m - {k});
    }
  }

  lemma {:induction false} TimesSplit(n: nat, c: real, d: real)
    ensures Times(n, c + d) == Times(n, c) + Times(n, d)
  {
    if n > 0 { TimesSplit(n - 1, c, d); }
  }

  lemma {:induction false} TimesNonNegative(n: nat, c: real)
    requires c >= 0.0
    ensures Times(n, c) >= 0.0
  {
    if n > 0 { TimesNonNegative(n - 1, c); }
  }

  /** n shares of x / n. */
  lemma TimesShare(n: nat, x: real)
    requires n > 0
    ensures Times(n, x / n as real) == x
  {
    TimesIsProduct(n, x / n as real);
  }

  // ---------------------------------------------------------------- one round end

  /** What OnDefense adds to all scores together: nothing when every team has been breached, and
      otherwise the whole pool again plus a round bonus for each unbreached team. */
  ghost function Drift(rules: Rules, scores: Scores, totalRounds: int): real
    requires totalRounds != 0
  {
    if Unbreached(scores) == {} then 0.0
    else (if Pool(scores) > 0.0 then Pool(scores) else 0.0)
         + Times(|Unbreached(scores)|, Bonus(rules.DefenseValue(), totalRounds, 0))
  }

  /** Entry by entry, `m'` is `m` with `c` more for the teams in `s`. */
  lemma SumRaised(m: map<int, real>, m': map<int, real>, s: set<int>, c: real)
    requires m'.Keys == m.Keys && s <= m.Keys
    requires forall t :: t in s ==> m'[t] == m[t] + c
    requires forall t :: t in m && t !in s ==> m'[t] == m[t]
    ensures Sum(m') == Sum(m) + Times(|s|, c)
  {
    var extra := map t | t in m :: if t in s then c else 0.0;
    assert extra.Keys == m.Keys;
    forall t | t in m' ensures m'[t] == m[t] + extra[t] {
      if t in s {
        assert m'[t] == m[t] + c;
      }
    }
    SumAdd(m', m, extra);
    SumConstant(extra, s, c);
  }

  lemma SharesAddUp(rules: Rules, scores: Scores, totalRounds: int)
    requires totalRounds != 0
    ensures var n := |Unbreached(scores)|;
            Times(n, Share(Pool(scores), n) + Bonus(rules.DefenseValue(), totalRounds, 0))
            == Drift(rules, scores, totalRounds)
  {
    var n := |Unbreached(scores)|;
    var rb := Bonus(rules.DefenseValue(), totalRounds, 0);
    if n > 0 {
      TimesSplit(n, Share(Pool(scores), n), rb);
      if Pool(scores) > 0.0 {
        TimesShare(n, Pool(scores));
      } else {
        TimesIsProduct(n, 0.0);
      }
    }
  }

  lemma RoundEndDrift(rules: Rules, l: Ledger, totalRounds: int)
    requires totalRounds != 0
    ensures var l' := DefenseLedger(rules, l, totalRounds);
            && Sum(TotalScores(l'.scores)) == Sum(TotalScores(l.scores)) + Drift(rules, l.scores, totalRounds)
            && Sum(Bonuses(l'.scores)) == Sum(Bonuses(l.scores)) + Drift(rules, l.scores, totalRounds)
  {
    var l' := DefenseLedger(rules, l, totalRounds);
    var u := Unbreached(l.scores);
    var c := Share(Pool(l.scores), |u|) + Bonus(rules.DefenseValue(), totalRounds, 0);
    EachGets(rules, l, totalRounds);
    hide DefenseLedger, Share, Pool, Bonus, Sum, Drift;
    SumRaised(TotalScores(l.scores), TotalScores(l'.scores), u, c);
    SumRaised(Bonuses(l.scores), Bonuses(l'.scores), u, c);
    SharesAddUp(rules, l.scores, totalRounds);
  }

  lemma EachGets(rules: Rules, l: Ledger, totalRounds: int)
    requires totalRounds != 0
    ensures var l', u := DefenseLedger(rules, l, totalRounds), Unbreached(l.scores);
            var c := Share(Pool(l.scores), |u|) + Bonus(rules.DefenseValue(), totalRounds, 0);
            && l'.scores.Keys == l.scores.Keys
            && forall t :: t in l.scores ==>
                 && l'.scores[t].total == l.scores[t].total + (if t in u then c else 0.0)
                 && l'.scores[t].bonus == l.scores[t].bonus + (if t in u then c else 0.0)
  {
    hide Pool, Share;
  }

  /** The pool is shared equally: a round end gives all unbreached teams the same, and nothing to others. */
  lemma SharesAreEqual(rules: Rules, l: Ledger, totalRounds: int, s: int, t: int)
    requires s in l.scores && t in l.scores && t in Unbreached(l.scores)
    ensures var l' := DefenseLedger(rules, l, totalRounds);
            l'.scores[s].bonus - l.scores[s].bonus
            == if s in Unbreached(l.scores) then l'.scores[t].bonus - l.scores[t].bonus else 0.0
  {
    hide Pool, Share, Bonus;
  }

  /** The round ends of a run at which a team was unbreached although flags had been captured. */
  function Defended(es: seq<Event>, team: int): nat {
    if es == [] then 0
    else
      var init, last := es[..|es| - 1], es[|es| - 1];
      Defended(init, team) + if last.RoundEnd? && AllHits(init) > 0 && Hits(Target, init, team) == 0 then 1 else 0
  }

  lemma DefendedStep(rules: Rules, l: Ledger, totalRounds: int, team: int)
    requires team in l.scores
    ensures DefenseLedger(rules, l, totalRounds).scores[team].roundsDefended
            == l.scores[team].roundsDefended + if l.scores[team].lost == 0 && Pool(l.scores) > 0.0 then 1 else 0
  {
    hide Pool, Bonus;
    if l.scores[team].lost == 0 {
      assert team in Unbreached(l.scores);
      SharePositive(Pool(l.scores), |Unbreached(l.scores)|);
    }
  }

  lemma SharePositive(pool: real, winners: nat)
    requires winners > 0
    ensures Share(pool, winners) > 0.0 <==> pool > 0.0
  {
    if pool > 0.0 {
      assert pool / winners as real * winners as real == pool;
      assert pool / winners as real > 0.0;
    }
  }

  lemma PoolPositiveIff(rules: Rules, ids: seq<int>, es: seq<Event>)
    requires rules.flagValue > 0.0 && rules.firstBloodBonus >= 0.0
    ensures Pool(Run(rules, Start(rules, ids), es).scores) > 0.0 <==> AllHits(es) > 0
  {
    hide Run, Start, Value;
    ZeroSumClosedForm(rules, ids, es);
    NoDefenseAboveZero(rules, ids, es);
    PoolIsLosses(Run(rules, Start(rules, ids), es).scores);
    FlagsNeedHits(es);
    ValuePositive(rules, AllHits(es), |Flags(es)|);
  }

  lemma ValuePositive(rules: Rules, hits: nat, firsts: nat)
    requires rules.flagValue > 0.0 && rules.firstBloodBonus >= 0.0
    ensures hits > 0 ==> Value(rules, hits, firsts) > 0.0
    ensures hits == 0 && firsts == 0 ==> Value(rules, hits, firsts) == 0.0
  {
    assert rules.FirstBloodPoints() >= 0.0;
    assert firsts as real * rules.FirstBloodPoints() >= 0.0;
    assert hits > 0 ==> hits as real * rules.flagValue > 0.0;
  }

  lemma {:induction false} FlagsNeedHits(es: seq<Event>)
    ensures AllHits(es) == 0 ==> Flags(es) == {}
    decreases |es|
  {
    if es != [] {
      FlagsNeedHits(es[..|es| - 1]);
      FlagsSnoc(es);
    }
  }

  /** With a flag value above zero, a team's count of defended rounds is the number of round ends at which it
      had lost no flag while some flag had been captured. */
  lemma {:induction false} RoundsDefendedCount(rules: Rules, ids: seq<int>, es: seq<Event>, team: int)
    requires rules.flagValue > 0.0 && rules.firstBloodBonus >= 0.0 && team in ids
    ensures var scores := Run(rules, Start(rules, ids), es).scores;
            team in scores && scores[team].roundsDefended == Defended(es, team)
    decreases |es|
  {
    hide DefenseLedger, Transfer, Breach, Points, Accounts, Pool;
    StartFresh(rules, ids);
    if es != [] {
      var init, last := es[..|es| - 1], es[|es| - 1];
      var l := Run(rules, Start(rules, ids), init);
      RoundsDefendedCount(rules, ids, init, team);
      LostIsHits(rules, ids, init, team);
      if last.RoundEnd? {
        PoolPositiveIff(rules, ids, init);
        DefendedStep(rules, l, last.totalRounds, team);
        KeepsTeams(rules, l, last.totalRounds);
      } else if Correct(last) {
        TransferTeam(l.scores, last.a.attacker, last.a.target, Points(rules, l, last.a.flag), team);
        TransferKeepsTeams(l.scores, last.a.attacker, last.a.target, Points(rules, l, last.a.flag), team);
      }
    }
  }

  lemma LostIsHits(rules: Rules, ids: seq<int>, es: seq<Event>, team: int)
    ensures Team(Run(rules, Start(rules, ids), es).scores, team).lost == Hits(Target, es, team)
  {
    StartFresh(rules, ids);
    hide Run, Start, Hits;
    TeamScoresClosedForm(rules, Start(rules, ids), es, team);
  }

  lemma KeepsTeams(rules: Rules, l: Ledger, totalRounds: int)
    ensures DefenseLedger(rules, l, totalRounds).scores.Keys == l.scores.Keys
  {
  }

  lemma TransferKeepsTeams(scores: Scores, attacker: int, target: int, points: real, team: int)
    requires team in scores
    ensures team in Transfer(scores, attacker, target, points)
  {
  }

  lemma FullBonus(value: real, totalRounds: int)
    requires totalRounds != 0 && value >= 0.0
    ensures Bonus(value, totalRounds, 0) == value
  {
    var n := totalRounds as real;
    assert n * value / n == value;
  }

  /** In a game with a non-negative flag value and bonus the pool is everything lost so far, so what a
      round end adds to all scores is known from the attacks alone: each loss is paid out once more. */
  lemma RoundEndPaysLossesAgain(rules: Rules, ids: seq<int>, es: seq<Event>, totalRounds: int)
    requires totalRounds != 0
    requires rules.flagValue >= 0.0 && rules.firstBloodBonus >= 0.0
    ensures var l := Run(rules, Start(rules, ids), es);
            Sum(TotalScores(DefenseLedger(rules, l, totalRounds).scores)) - Sum(TotalScores(l.scores))
            == if Unbreached(l.scores) == {} then 0.0
               else Value(rules, AllHits(es), |Flags(es)|) + Times(|Unbreached(l.scores)|, rules.DefenseValue())
  {
    hide Run, Start, Value, AllHits, Flags, Bonus, Times, DefenseLedger, TotalScores;
    var l := Run(rules, Start(rules, ids), es);
    StartFresh(rules, ids);
    RoundEndDrift(rules, l, totalRounds);
    FullBonus(rules.DefenseValue(), totalRounds);
    ZeroSumClosedForm(rules, ids, es);
    NoDefenseAboveZero(rules, ids, es);
    PoolIsLosses(l.scores);
  }

  /** The total is kept, as the comments on OnDefense promise, exactly when flags are worth nothing or
      no team is left to be rewarded. */
  lemma RoundEndConservesIff(rules: Rules, ids: seq<int>, es: seq<Event>, totalRounds: int)
    requires totalRounds != 0
    requires rules.flagValue >= 0.0 && rules.firstBloodBonus >= 0.0
    ensures var l := Run(rules, Start(rules, ids), es);
            Sum(TotalScores(DefenseLedger(rules, l, totalRounds).scores)) == Sum(TotalScores(l.scores))
            <==> rules.flagValue == 0.0 || Unbreached(l.scores) == {}
  {
    hide Run, Start, AllHits, Flags, Bonus, Times, DefenseLedger, TotalScores, Value;
    var n := |Unbreached(Run(rules, Start(rules, ids), es).scores)|;
    RoundEndPaysLossesAgain(rules, ids, es, totalRounds);
    ValueSign(rules, AllHits(es), |Flags(es)|);
    if n > 0 { TimesPositive(n, rules.DefenseValue()); }
  }

  lemma ValueSign(rules: Rules, hits: nat, firsts: nat)
    requires rules.flagValue >= 0.0 && rules.firstBloodBonus >= 0.0
    ensures Value(rules, hits, firsts) >= 0.0
    ensures rules.flagValue == 0.0 ==> Value(rules, hits, firsts) == 0.0
  {
    assert rules.FirstBloodPoints() >= 0.0;
    assert hits as real * rules.flagValue >= 0.0;
    assert firsts as real * rules.FirstBloodPoints() >= 0.0;
  }

  ghost predicate OnlyLosses(scores: Scores) {
    forall t :: t in scores ==> scores[t].defense <= 0.0
  }

  lemma PoolIsLosses(scores: Scores)
    requires OnlyLosses(scores)
    ensures Pool(scores) == -Sum(Defenses(scores)) && Pool(scores) >= 0.0
  {
    var d, n := Defenses(scores), Losses(scores);
    assert d.Keys == scores.Keys == n.Keys;
    forall t | t in d ensures n[t] == -d[t] {
      assert scores[t].defense <= 0.0;
    }
    SumNegate(d, n);
    SumNonNegative(Losses(scores));
  }

  lemma NoDefenseAboveZero(rules: Rules, ids: seq<int>, es: seq<Event>)
    requires rules.flagValue >= 0.0 && rules.firstBloodBonus >= 0.0
    ensures OnlyLosses(Run(rules, Start(rules, ids), es).scores)
  {
    hide Run, Start;
    var l := Run(rules, Start(rules, ids), es);
    StartFresh(rules, ids);
    forall t | t in l.scores ensures l.scores[t].defense <= 0.0 {
      TeamScoresClosedForm(rules, Start(rules, ids), es, t);
      TimesNonNegative(Hits(Target, es, t), rules.flagValue);
      TimesNonNegative(Firsts(Target, es, t), rules.FirstBloodPoints());
    }
  }

  // ---------------------------------------------------------------- the validators

  /** Initialize shares out the initial total exactly when no team id is repeated. */
  lemma StartTotal(rules: Rules, ids: seq<int>)
    requires ids != []
    ensures Sum(Initials(Start(rules, ids).scores)) == rules.initialTotal
            <==> rules.initialTotal == 0.0 || |set t | t in ids| == |ids|
  {
    var s := set t | t in ids;
    StartSum(rules, ids, s);
    DistinctCount(ids);
    ShareOut(rules.initialTotal, |s|, |ids|);
  }

  lemma StartSum(rules: Rules, ids: seq<int>, s: set<int>)
    requires ids != [] && s == set t | t in ids
    ensures Sum(Initials(Start(rules, ids).scores)) == Times(|s|, rules.initialTotal / |ids| as real)
  {
    var scores := Start(rules, ids).scores;
    assert scores.Keys == s;
    SumConstant(Initials(scores), s, rules.initialTotal / |ids| as real);
  }

  /** k of n shares of x make x exactly when x is zero or k is n. */
  lemma {:induction false} ShareOut(x: real, k: nat, n: nat)
    requires 0 < n && k <= n
    ensures Times(k, x / n as real) == x <==> x == 0.0 || k == n
  {
    var per := x / n as real;
    TimesShare(n, x);
    TimesAdd(k, n - k, per);
    if k < n {
      TimesPositive(n - k, per);
      TimesPositive(n, per);
    }
  }

  lemma {:induction false} TimesPositive(n: nat, c: real)
    requires n > 0
    ensures c > 0.0 ==> Times(n, c) > 0.0
    ensures c < 0.0 ==> Times(n, c) < 0.0
    ensures c == 0.0 ==> Times(n, c) == 0.0
  {
    if n > 1 { TimesPositive(n - 1, c); }
  }

  lemma {:induction false} DistinctCount(ids: seq<int>)
    ensures |set t | t in ids| <= |ids|
  {
    if ids != [] {
      var init := ids[..|ids| - 1];
      assert ids == init + [ids[|ids| - 1]];
      DistinctCount(init);
      assert (set t | t in ids) == (set t | t in init) + {ids[|ids| - 1]};
    }
  }

  lemma TotalsByParts(rules: Rules, ids: seq<int>, es: seq<Event>)
    ensures var scores := Run(rules, Start(rules, ids), es).scores;
            && Sum(StrictScores(scores)) == Sum(Initials(Start(rules, ids).scores))
            && Sum(TotalScores(scores)) == Sum(StrictScores(scores)) + Sum(Bonuses(scores))
  {
    hide Run, Start;
    var l0 := Start(rules, ids);
    var scores := Run(rules, l0, es).scores;
    StartFresh(rules, ids);
    RunConserves(rules, l0, es);
    var moved := map t | t in scores :: scores[t].attack + scores[t].defense;
    SumAdd(moved, Attacks(scores), Defenses(scores));
    SumAdd(StrictScores(scores), Initials(scores), moved);
    forall t | t in scores
      ensures TotalScores(scores)[t] == StrictScores(scores)[t] + Bonuses(scores)[t]
    {
      TeamScoresClosedForm(rules, l0, es, t);
    }
    SumAdd(TotalScores(scores), StrictScores(scores), Bonuses(scores));
  }

  /** Whatever is attacked and however often rounds end, initial, attack and defense scores always
      add up to what Initialize handed out, so with distinct ids the strict check never fails. */
  lemma StrictCheckNeverFails(rules: Rules, ids: seq<int>, es: seq<Event>)
    requires ids != [] && |set t | t in ids| == |ids|
    ensures var scores := Run(rules, Start(rules, ids), es).scores;
            && Sum(StrictScores(scores)) == rules.initialTotal
            && AlmostEqual(Sum(StrictScores(scores)), rules.initialTotal, 0.01)
  {
    hide Run, Start;
    TotalsByParts(rules, ids, es);
    StartTotal(rules, ids);
  }

  ghost predicate NoNegativeBonus(scores: Scores) {
    forall t :: t in scores ==> scores[t].bonus >= 0.0
  }

  lemma {:induction false} BonusesNonNegative(rules: Rules, l0: Ledger, es: seq<Event>)
    requires Fresh(l0)
    ensures NoNegativeBonus(Run(rules, l0, es).scores)
    decreases |es|
  {
    hide NoNegativeBonus, Points;
    if es == [] {
      FreshBonuses(l0);
    } else {
      var init, last := es[..|es| - 1], es[|es| - 1];
      var l := Run(rules, l0, init);
      BonusesNonNegative(rules, l0, init);
      if last.RoundEnd? {
        AwardsNonNegative(rules, l, last.totalRounds);
      } else if Correct(last) {
        TransferKeepsBonuses(l.scores, last.a.attacker, last.a.target, Points(rules, l, last.a.flag));
      }
    }
  }

  lemma FreshBonuses(l: Ledger)
    requires Fresh(l)
    ensures NoNegativeBonus(l.scores)
  {
    forall t | t in l.scores ensures l.scores[t].bonus >= 0.0 {
      assert l.scores[t] == NewTeam(t, l.scores[t].initial);
    }
  }

  lemma TransferKeepsBonuses(scores: Scores, attacker: int, target: int, points: real)
    requires NoNegativeBonus(scores)
    ensures NoNegativeBonus(Transfer(scores, attacker, target, points))
  {
  }

  lemma AwardsNonNegative(rules: Rules, l: Ledger, totalRounds: int)
    requires NoNegativeBonus(l.scores)
    ensures NoNegativeBonus(DefenseLedger(rules, l, totalRounds).scores)
  {
  }

  lemma BonusSum(scores: Scores)
    requires NoNegativeBonus(scores)
    ensures Sum(Bonuses(scores)) >= 0.0
  {
    var b := Bonuses(scores);
    assert b.Keys == scores.Keys;
    forall t | t in b ensures b[t] >= 0.0 {
      assert scores[t].bonus >= 0.0;
    }
    SumNonNegative(b);
  }

  /** At some round end of a game without rounds there was a team to reward. */
  ghost predicate Poisoned(rules: Rules, l0: Ledger, es: seq<Event>) {
    exists k :: 0 <= k < |es| && es[k] == RoundEnd(0) && Unbreached(Run(rules, l0, es[..k]).scores) != {}
  }

  lemma PoisonedMore(rules: Rules, l0: Ledger, es: seq<Event>)
    requires es != []
    ensures var n := |es| - 1;
            Poisoned(rules, l0, es)
            <==> Poisoned(rules, l0, es[..n])
                 || (es[n] == RoundEnd(0) && Unbreached(Run(rules, l0, es[..n]).scores) != {})
  {
    hide Run, Unbreached;
    var n := |es| - 1;
    assert forall k :: 0 <= k < n ==> es[..n][k] == es[k] && es[..n][..k] == es[..k];
  }

  lemma NumbersStep(rules: Rules, l: Ledger, e: Event)
    ensures AllNumbers(Step(rules, l, e).scores)
            <==> AllNumbers(l.scores) && !(e == RoundEnd(0) && Unbreached(l.scores) != {})
  {
    match e
    case Attack(a, at) =>
      if a.correct { TransferNumbers(l.scores, a.attacker, a.target, Points(rules, l, a.flag)); }
    case RoundEnd(totalRounds) => AwardNumbers(rules, l, totalRounds);
  }

  lemma TransferNumbers(scores: Scores, attacker: int, target: int, points: real)
    ensures AllNumbers(Transfer(scores, attacker, target, points)) <==> AllNumbers(scores)
  {
    var after := Transfer(scores, attacker, target, points);
    assert forall t :: t in scores ==> t in after && after[t].nan == scores[t].nan;
    assert forall t :: t in after && t !in scores ==> !after[t].nan;
  }

  lemma AwardNumbers(rules: Rules, l: Ledger, totalRounds: int)
    ensures AllNumbers(DefenseLedger(rules, l, totalRounds).scores)
            <==> AllNumbers(l.scores) && !(totalRounds == 0 && Unbreached(l.scores) != {})
  {
    var after := DefenseLedger(rules, l, totalRounds).scores;
    NoRoundsNoScore(rules.DefenseValue(), map[], 0, 0);
    hide Pool, Share;
    assert after.Keys == l.scores.Keys;
    forall t | t in l.scores
      ensures after[t].nan <==> l.scores[t].nan || (totalRounds == 0 && t in Unbreached(l.scores))
    {
    }
    if totalRounds == 0 && Unbreached(l.scores) != {} {
      var t := Member(Unbreached(l.scores));
      assert after[t].nan;
    }
  }

  /** Totals stay numbers if and only if no round end of a game without rounds finds an unbreached team. */
  lemma {:induction false} NumbersIff(rules: Rules, ids: seq<int>, es: seq<Event>)
    ensures AllNumbers(Run(rules, Start(rules, ids), es).scores) <==> !Poisoned(rules, Start(rules, ids), es)
    decreases |es|
  {
    hide Step, Poisoned, AllNumbers, Start;
    if es == [] {
      StartNumbers(rules, ids);
      NothingPoisoned(rules, Start(rules, ids));
    } else {
      var init := es[..|es| - 1];
      NumbersIff(rules, ids, init);
      PoisonedMore(rules, Start(rules, ids), es);
      NumbersStep(rules, Run(rules, Start(rules, ids), init), es[|es| - 1]);
    }
  }

  lemma StartNumbers(rules: Rules, ids: seq<int>)
    ensures AllNumbers(Start(rules, ids).scores)
  {
  }

  lemma NothingPoisoned(rules: Rules, l: Ledger)
    ensures !Poisoned(rules, l, [])
  {
  }

  lemma CheckPassesWithin(rules: Rules, ids: seq<int>, es: seq<Event>)
    requires ids != [] && |set t | t in ids| == |ids|
    ensures var scores := Run(rules, Start(rules, ids), es).scores;
            AllNumbers(scores) && AlmostEqual(Sum(TotalScores(scores)), rules.initialTotal, Tolerance(rules, |scores|))
            <==> !Poisoned(rules, Start(rules, ids), es) && Sum(Bonuses(scores)) <= Tolerance(rules, |scores|)
  {
    hide Run, Start, Tolerance, Poisoned, AllNumbers;
    StartFresh(rules, ids);
    TotalsByParts(rules, ids, es);
    StartTotal(rules, ids);
    NumbersIff(rules, ids, es);
    BonusesNonNegative(rules, Start(rules, ids), es);
    BonusSum(Run(rules, Start(rules, ids), es).scores);
  }

  lemma ToleranceTimes(rules: Rules, teams: nat, x: real)
    ensures x <= Tolerance(rules, teams) <==> x <= 0.01 || x <= Times(teams, rules.DefenseValue())
  {
    var bound := rules.DefenseValue() * teams as real;
    TimesIsProduct(teams, rules.DefenseValue());
    assert Tolerance(rules, teams) == if bound < 0.01 then 0.01 else bound;
  }

  lemma ToleranceIs(rules: Rules, teams: nat, x: real)
    ensures x <= Tolerance(rules, teams) <==> x <= 0.01 || x <= Times(teams, rules.flagValue * 0.5)
  {
    ToleranceTimes(rules, teams, x);
    assert rules.DefenseValue() == rules.flagValue * 0.5;
    hide Tolerance, Times;
  }

  /** The other check allows for some drift: it passes exactly while all totals are numbers and all defense
      bonuses together stay within its tolerance, the larger of 0.01 and half a flag for every team. */
  lemma CheckPassesIff(rules: Rules, ids: seq<int>, es: seq<Event>)
    requires ids != [] && |set t | t in ids| == |ids|
    ensures var scores := Run(rules, Start(rules, ids), es).scores;
            AllNumbers(scores) && AlmostEqual(Sum(TotalScores(scores)), rules.initialTotal, Tolerance(rules, |scores|))
            <==> !Poisoned(rules, Start(rules, ids), es)
                 && (Sum(Bonuses(scores)) <= 0.01 || Sum(Bonuses(scores)) <= Times(|scores|, rules.flagValue * 0.5))
  {
    var scores := Run(rules, Start(rules, ids), es).scores;
    CheckPassesWithin(rules, ids, es);
    ToleranceIs(rules, |scores|, Sum(Bonuses(scores)));
    hide *;
  }

  /** The published defense statistics agree with the bonus formula on the losses in the ledger. */
  lemma StatsMatchLedger(rules: Rules, ids: seq<int>, es: seq<Event>, totalRounds: int, team: int)
    requires totalRounds > 0 && rules.flagValue >= 0.0
    ensures var l := Run(rules, Start(rules, ids), es);
            var stats := StatsOf(rules.DefenseValue(), l.history, totalRounds, team);
            && stats.breaches == Team(l.scores, team).lost
            && stats.score == Num(Bonus(rules.DefenseValue(), totalRounds, Team(l.scores, team).lost))
  {
    hide Run, Start, Bonus;
    var l := Run(rules, Start(rules, ids), es);
    StartFresh(rules, ids);
    TeamScoresClosedForm(rules, Start(rules, ids), es, team);
    StatsAgreeWithBonus(rules.DefenseValue(), l.history, totalRounds, team);
  }
}
