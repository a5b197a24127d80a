/** internal/engine/scoring: what every run of attacks and round ends keeps. */
module ZeroSumRuns {
  import opened Sums
  import opened FirstBlood
  import opened Defense
  import opened ZeroSum

  datatype Event = Attack(a: Submission, at: int) | RoundEnd(totalRounds: int)

  datatype Role = Attacker | Target

  ghost function Step(rules: Rules, l: Ledger, e: Event): Ledger
  {
    match e
    case Attack(a, at) => AttackLedger(rules, l, a, at)
    case RoundEnd(totalRounds) => DefenseLedger(rules, l, totalRounds)
  }

  ghost function Run(rules: Rules, l: Ledger, es: seq<Event>): Ledger
  {
    if es == [] then l else Step(rules, Run(rules, l, es[..|es| - 1]), es[|es| - 1])
  }

  /** The scorer after New and one Initialize. */
  function Start(rules: Rules, ids: seq<int>): Ledger {
    Ledger(if ids == [] then map[] else InitializeScores(rules, map[], ids), map[], map[])
  }

  ghost predicate Fresh(l: Ledger) {
    l.records == map[] && l.history == map[]
    && forall t :: t in l.scores ==> l.scores[t] == NewTeam(t, l.scores[t].initial)
  }

  lemma StartFresh(rules: Rules, ids: seq<int>)
    ensures Fresh(Start(rules, ids)) && Start(rules, ids).scores.Keys == set t | t in ids
  {
  }

  // ---------------------------------------------------------------- what a run adds up to

  predicate Correct(e: Event) {
    e.Attack? && e.a.correct
  }

  function Who(role: Role, e: Event): int
    requires e.Attack?
  {
    if role.Attacker? then e.a.attacker else e.a.target
  }

  function Hit(role: Role, team: int): Event -> bool {
    e => Correct(e) && Who(role, e) == team
  }

  /** Correct attacks by, or on, a team. */
  function Hits(role: Role, es: seq<Event>, team: int): nat {
    Count(es, Hit(role, team))
  }

  function AllHits(es: seq<Event>): nat {
    Count(es, e => Correct(e))
  }

  function Flags(es: seq<Event>): set<string> {
    set e | e in es && Correct(e) :: e.a.flag
  }

  /** Of a team's hits, those that were the first on their flag. */
  function Firsts(role: Role, es: seq<Event>, team: int): nat {
    if es == [] then 0
    else
      var init, last := es[..|es| - 1], es[|es| - 1];
      Firsts(role, init, team) +
      if Hit(role, team)(last) && last.a.flag !in Flags(init) then 1 else 0
  }

  ghost function Earned(rules: Rules, hits: nat, firsts: nat): real {
    Times(hits, rules.flagValue) + Times(firsts, rules.FirstBloodPoints())
  }

  /** flag value x (hits + bonus x firsts), multiplied out. */
  function Value(rules: Rules, hits: nat, firsts: nat): real {
    hits as real * rules.flagValue + firsts as real * (rules.flagValue * rules.firstBloodBonus)
  }

  lemma EarnedValue(rules: Rules, hits: nat, firsts: nat)
    ensures Earned(rules, hits, firsts) == Value(rules, hits, firsts)
  {
    TimesIsProduct(hits, rules.flagValue);
    TimesIsProduct(firsts, rules.FirstBloodPoints());
  }

  /** One hit more, first on its flag or not, is worth what OnAttack pays for it. */
  lemma EarnedMore(rules: Rules, l: Ledger, hits: nat, firsts: nat, flag: string)
    ensures Earned(rules, hits + 1, firsts + if flag in l.records then 0 else 1)
         == Earned(rules, hits, firsts) + Points(rules, l, flag)
  {
  }

  // ---------------------------------------------------------------- team by team

  /** A team's entries after so many hits by and on it, so many of each the first on their flag. */
  ghost predicate Accounts(rules: Rules, l: Ledger, team: int, initial: real,
                           hits: nat, firsts: nat, hitsOn: nat, firstsOn: nat) {
    var s := Team(l.scores, team);
    && s.initial == initial
    && s.attack == Earned(rules, hits, firsts)
    && s.defense == -Earned(rules, hitsOn, firstsOn)
    && s.captured == hits
    && s.lost == hitsOn == TeamBreaches(l.history, team)
    && s.total == s.initial + s.attack + s.defense + s.bonus
  }

  lemma FlagsSnoc(es: seq<Event>)
    requires es != []
    ensures var init, last := es[..|es| - 1], es[|es| - 1];
            Flags(es) == Flags(init) + if Correct(last) then {last.a.flag} else {}
  {
    var init, last := es[..|es| - 1], es[|es| - 1];
    assert es == init + [last];
  }

  lemma {:induction false} RecordsAreFlags(rules: Rules, l0: Ledger, es: seq<Event>)
    requires Fresh(l0)
    ensures Run(rules, l0, es).records.Keys == Flags(es)
    decreases |es|
  {
    if es != [] {
      RecordsAreFlags(rules, l0, es[..|es| - 1]);
      FlagsSnoc(es);
    }
  }

  /** The place of the first correct attack on a flag, or the length of the run. */
  function FirstHit(es: seq<Event>, flag: string): (i: nat)
    ensures i <= |es|
    ensures i < |es| ==> Correct(es[i]) && es[i].a.flag == flag
    ensures forall j :: 0 <= j < i ==> !(Correct(es[j]) && es[j].a.flag == flag)
  {
    if es == [] then 0
    else
      var n := |es| - 1;
      var i := FirstHit(es[..n], flag);
      if i < n then i else if Correct(es[n]) && es[n].a.flag == flag then n else n + 1
  }

  /** The record of a flag names the team, round and time of its first capture. */
  lemma {:induction false} RecordsNameFirst(rules: Rules, l0: Ledger, es: seq<Event>, flag: string)
    requires Fresh(l0)
    ensures var records, i := Run(rules, l0, es).records, FirstHit(es, flag);
            && (flag in records <==> i < |es|)
            && (i < |es| ==> records[flag] == Record(flag, es[i].a.attacker, es[i].a.round, es[i].at))
    decreases |es|
  {
    if es != [] {
      RecordsNameFirst(rules, l0, es[..|es| - 1], flag);
      hide DefenseLedger, Transfer, Breach;
      RecordsStep(rules, Run(rules, l0, es[..|es| - 1]), es[|es| - 1]);
    }
  }

  lemma RecordsStep(rules: Rules, l: Ledger, e: Event)
    ensures Step(rules, l, e).records
            == if Correct(e) && e.a.flag !in l.records
               then l.records[e.a.flag := Record(e.a.flag, e.a.attacker, e.a.round, e.at)] else l.records
  {
  }

  /** Every team's scores, captures and losses in closed form, its total as the sum of its parts,
      and its losses as its column of the breach matrix. */
  lemma {:induction false} TeamScoresClosedForm(rules: Rules, l0: Ledger, es: seq<Event>, team: int)
    requires Fresh(l0)
    ensures Accounts(rules, Run(rules, l0, es), team, Team(l0.scores, team).initial,
                     Hits(Attacker, es, team), Firsts(Attacker, es, team),
                     Hits(Target, es, team), Firsts(Target, es, team))
    decreases |es|
  {
    hide Accounts, DefenseLedger, Transfer, Breach, Points;
    if es == [] {
      FreshAccounts(rules, l0, team);
    } else {
      var init, last := es[..|es| - 1], es[|es| - 1];
      var l, initial := Run(rules, l0, init), Team(l0.scores, team).initial;
      TeamScoresClosedForm(rules, l0, init, team);
      if Correct(last) {
        RecordsAreFlags(rules, l0, init);
        AttackAccounts(rules, l, last.a, last.at, team, initial,
                       Hits(Attacker, init, team), Firsts(Attacker, init, team),
                       Hits(Target, init, team), Firsts(Target, init, team));
      } else if last.RoundEnd? {
        RoundEndAccounts(rules, l, last.totalRounds, team, initial,
                         Hits(Attacker, init, team), Firsts(Attacker, init, team),
                         Hits(Target, init, team), Firsts(Target, init, team));
      }
    }
  }

  lemma FreshAccounts(rules: Rules, l: Ledger, team: int)
    requires Fresh(l)
    ensures Accounts(rules, l, team, Team(l.scores, team).initial, 0, 0, 0, 0)
  {
    assert Column(l.history, team) == map[];
  }

  lemma AttackAccounts(rules: Rules, l: Ledger, a: Submission, now: int, team: int, initial: real,
                       hits: nat, firsts: nat, hitsOn: nat, firstsOn: nat)
    requires a.correct && Accounts(rules, l, team, initial, hits, firsts, hitsOn, firstsOn)
    ensures var first := if a.flag in l.records then 0 else 1;
            Accounts(rules, AttackLedger(rules, l, a, now), team, initial,
                     hits + (if a.attacker == team then 1 else 0), firsts + (if a.attacker == team then first else 0),
                     hitsOn + (if a.target == team then 1 else 0), firstsOn + (if a.target == team then first else 0))
  {
    hide Transfer, Earned, Breach, Points, TeamBreaches;
    BreachCounts(l.history, a.round, a.target, team);
    EarnedMore(rules, l, hits, firsts, a.flag);
    EarnedMore(rules, l, hitsOn, firstsOn, a.flag);
    TransferTeam(l.scores, a.attacker, a.target, Points(rules, l, a.flag), team);
  }

  lemma RoundEndAccounts(rules: Rules, l: Ledger, totalRounds: int, team: int, initial: real,
                         hits: nat, firsts: nat, hitsOn: nat, firstsOn: nat)
    requires Accounts(rules, l, team, initial, hits, firsts, hitsOn, firstsOn)
    ensures Accounts(rules, DefenseLedger(rules, l, totalRounds), team, initial, hits, firsts, hitsOn, firstsOn)
  {
    AwardTeam(rules, l, totalRounds, team);
    hide DefenseLedger, Earned, TeamBreaches;
  }

  /** What an attack does to any one team, the attacker and the target possibly the same. */
  lemma TransferTeam(scores: Scores, attacker: int, target: int, points: real, team: int)
    ensures var s, s' := Team(scores, team), Team(Transfer(scores, attacker, target, points), team);
            var gained := if team == attacker then points else 0.0;
            var lost := if team == target then points else 0.0;
            s' == s.(attack := s.attack + gained, defense := s.defense - lost, total := s.total + gained - lost,
                     captured := s.captured + (if team == attacker then 1 else 0),
                     lost := s.lost + if team == target then 1 else 0)
  {
  }

  /** What a round end does to any one team. */
  lemma AwardTeam(rules: Rules, l: Ledger, totalRounds: int, team: int)
    ensures var s, s' := Team(l.scores, team), Team(DefenseLedger(rules, l, totalRounds).scores, team);
            s' == s.(bonus := s'.bonus, total := s.total + s'.bonus - s.bonus, roundsDefended := s'.roundsDefended,
                     nan := s'.nan)
    ensures DefenseLedger(rules, l, totalRounds).history == l.history
  {
  }

  /** Correct attacks of a round on a team. */
  function HitsIn(es: seq<Event>, round: int, team: int): nat {
    Count(es, e => Correct(e) && e.a.round == round && e.a.target == team)
  }

  /** The breach matrix holds the correct attacks, by round and target. */
  lemma {:induction false} BreachesByRound(rules: Rules, l0: Ledger, es: seq<Event>, round: int, team: int)
    requires Fresh(l0)
    ensures var history := Run(rules, l0, es).history;
            (if round in history && team in history[round] then history[round][team] else 0) == HitsIn(es, round, team)
    decreases |es|
  {
    if es != [] {
      BreachesByRound(rules, l0, es[..|es| - 1], round, team);
      hide DefenseLedger, Transfer, Points;
      HistoryStep(rules, Run(rules, l0, es[..|es| - 1]), es[|es| - 1]);
    }
  }

  lemma HistoryStep(rules: Rules, l: Ledger, e: Event)
    ensures Step(rules, l, e).history
            == if Correct(e) then Breach(l.history, e.a.round, e.a.target) else l.history
  {
  }

  /** After Initialize each team that was listed has an equal share and nothing else, and no other team anything. */
  lemma SharesAtStart(rules: Rules, ids: seq<int>, team: int)
    ensures var s := Team(Start(rules, ids).scores, team);
            && s.teamID == team && s.initial == s.total
            && (team in ids ==> s.initial * |ids| as real == rules.initialTotal) && (team !in ids ==> s.initial == 0.0)
            && s.attack == s.defense == s.bonus == 0.0 && s.captured == s.lost == s.roundsDefended == 0 && !s.nan
  {
    if ids != [] {
      var n := |ids| as real;
      assert rules.initialTotal / n * n == rules.initialTotal;
    }
  }

  // ---------------------------------------------------------------- sums over all teams

  function Initials(scores: Scores): map<int, real> { map t | t in scores :: scores[t].initial }
  function Attacks(scores: Scores): map<int, real> { map t | t in scores :: scores[t].attack }
  function Defenses(scores: Scores): map<int, real> { map t | t in scores :: scores[t].defense }
  function Bonuses(scores: Scores): map<int, real> { map t | t in scores :: scores[t].bonus }

  lemma TwoUpdates(m: map<int, real>, m': map<int, real>, j: int, x: real, k: int, y: real, d: real, e: real)
    requires m' == m[j := x][k := y]
    requires x == d + if j in m then m[j] else 0.0
    requires y == e + if k == j then x else if k in m then m[k] else 0.0
    ensures Sum(m') == Sum(m) + d + e
  {
    SumUpdate(m, j, x);
    SumUpdate(m[j := x], k, y);
  }

  lemma TransferAttacks(scores: Scores, attacker: int, target: int, points: real)
    ensures Sum(Attacks(Transfer(scores, attacker, target, points))) == Sum(Attacks(scores)) + points
  {
    var m, m' := Attacks(scores), Attacks(Transfer(scores, attacker, target, points));
    var x := Team(scores, attacker).attack + points;
    var y := if attacker == target then x else Team(scores, target).attack;
    assert m' == m[attacker := x][target := y];
    TwoUpdates(m, m', attacker, x, target, y, points, 0.0);
  }

  lemma TransferDefenses(scores: Scores, attacker: int, target: int, points: real)
    ensures Sum(Defenses(Transfer(scores, attacker, target, points))) == Sum(Defenses(scores)) - points
  {
    var m, m' := Defenses(scores), Defenses(Transfer(scores, attacker, target, points));
    var x := Team(scores, attacker).defense;
    var y := Team(scores, target).defense - points;
    assert m' == m[attacker := x][target := y];
    TwoUpdates(m, m', attacker, x, target, y, 0.0, -points);
  }

  lemma TransferInitials(scores: Scores, attacker: int, target: int, points: real)
    ensures Sum(Initials(Transfer(scores, attacker, target, points))) == Sum(Initials(scores))
  {
    var m, m' := Initials(scores), Initials(Transfer(scores, attacker, target, points));
    var x, y := Team(scores, attacker).initial, Team(scores, target).initial;
    assert m' == m[attacker := x][target := y];
    TwoUpdates(m, m', attacker, x, target, y, 0.0, 0.0);
  }

  lemma RoundEndKeeps(rules: Rules, l: Ledger, totalRounds: int)
    ensures var scores := DefenseLedger(rules, l, totalRounds).scores;
            Attacks(scores) == Attacks(l.scores) && Defenses(scores) == Defenses(l.scores)
            && Initials(scores) == Initials(l.scores)
    ensures DefenseLedger(rules, l, totalRounds).history == l.history
  {
    var scores := DefenseLedger(rules, l, totalRounds).scores;
    assert scores.Keys == l.scores.Keys;
    assert forall t :: t in scores ==> scores[t].attack == l.scores[t].attack;
    assert forall t :: t in scores ==> scores[t].defense == l.scores[t].defense;
    assert forall t :: t in scores ==> scores[t].initial == l.scores[t].initial;
  }

  ghost predicate Conserved(rules: Rules, l: Ledger, initials: real, hits: nat, flags: nat) {
    && Sum(Attacks(l.scores)) == Earned(rules, hits, flags)
    && Sum(Defenses(l.scores)) == -Earned(rules, hits, flags)
    && Sum(Initials(l.scores)) == initials
    && Total(RowTotals(l.history)) == hits
  }

  /** How the counts of a run grow with its last event. */
  lemma CountsMore(es: seq<Event>)
    requires es != []
    ensures var init, last := es[..|es| - 1], es[|es| - 1];
            && AllHits(es) == AllHits(init) + (if Correct(last) then 1 else 0)
            && |Flags(es)| == |Flags(init)| + if Correct(last) && last.a.flag !in Flags(init) then 1 else 0
  {
    FlagsSnoc(es);
    var init, last := es[..|es| - 1], es[|es| - 1];
    hide Flags;
    if Correct(last) && last.a.flag in Flags(init) {
      assert Flags(es) == Flags(init);
    }
  }

  lemma StepConserves(rules: Rules, l: Ledger, e: Event, initials: real, hits: nat, flags: nat)
    requires Conserved(rules, l, initials, hits, flags)
    ensures Conserved(rules, Step(rules, l, e), initials, hits + (if Correct(e) then 1 else 0),
                      flags + if Correct(e) && e.a.flag !in l.records then 1 else 0)
  {
    hide Conserved, DefenseLedger, Transfer, Breach, Points;
    if Correct(e) {
      AttackConserves(rules, l, e.a, e.at, initials, hits, flags);
    } else if e.RoundEnd? {
      RoundEndConserves(rules, l, e.totalRounds, initials, hits, flags);
    }
  }

  lemma {:induction false} RunConserves(rules: Rules, l0: Ledger, es: seq<Event>)
    requires Fresh(l0)
    ensures Conserved(rules, Run(rules, l0, es), Sum(Initials(l0.scores)), AllHits(es), |Flags(es)|)
    decreases |es|
  {
    hide Conserved, Step, AllHits, Flags, Initials, Fresh;
    if es == [] {
      FreshConserved(rules, l0);
      NoCounts();
    } else {
      var init, last := es[..|es| - 1], es[|es| - 1];
      RunConserves(rules, l0, init);
      RecordsAreFlags(rules, l0, init);
      CountsMore(es);
      StepConserves(rules, Run(rules, l0, init), last, Sum(Initials(l0.scores)), AllHits(init), |Flags(init)|);
    }
  }

  lemma NoCounts()
    ensures AllHits([]) == 0 && Flags([]) == {}
  {
  }

  lemma FreshConserved(rules: Rules, l: Ledger)
    requires Fresh(l)
    ensures Conserved(rules, l, Sum(Initials(l.scores)), 0, 0)
  {
    forall t | t in l.scores ensures l.scores[t].attack == l.scores[t].defense == 0.0 {
      assert l.scores[t] == NewTeam(t, l.scores[t].initial);
    }
    SumConstant(Attacks(l.scores), {}, 0.0);
    SumConstant(Defenses(l.scores), {}, 0.0);
    assert RowTotals(l.history) == map[];
  }

  lemma AttackConserves(rules: Rules, l: Ledger, a: Submission, now: int, initials: real, hits: nat, flags: nat)
    requires a.correct && Conserved(rules, l, initials, hits, flags)
    ensures Conserved(rules, AttackLedger(rules, l, a, now), initials, hits + 1,
                      flags + if a.flag in l.records then 0 else 1)
  {
    hide Transfer, Earned, Breach, Points, RowTotals;
    var points := Points(rules, l, a.flag);
    TransferAttacks(l.scores, a.attacker, a.target, points);
    TransferDefenses(l.scores, a.attacker, a.target, points);
    TransferInitials(l.scores, a.attacker, a.target, points);
    BreachGrandTotal(l.history, a.round, a.target);
    EarnedMore(rules, l, hits, flags, a.flag);
  }

  lemma RoundEndConserves(rules: Rules, l: Ledger, totalRounds: int, initials: real, hits: nat, flags: nat)
    requires Conserved(rules, l, initials, hits, flags)
    ensures Conserved(rules, DefenseLedger(rules, l, totalRounds), initials, hits, flags)
  {
    RoundEndKeeps(rules, l, totalRounds);
    hide DefenseLedger, Earned, RowTotals;
  }

  /** Zero sum: what all attackers gained is what all targets lost, and both are the flag value times
      (correct attacks + bonus x flags captured).  The breach matrix holds each correct attack once. */
  lemma ZeroSumClosedForm(rules: Rules, ids: seq<int>, es: seq<Event>)
    ensures var l := Run(rules, Start(rules, ids), es);
            && Sum(Attacks(l.scores)) == -Sum(Defenses(l.scores))
               == Value(rules, AllHits(es), |Flags(es)|)
            && Total(RowTotals(l.history)) == AllHits(es)
  {
    hide Run, Start, Attacks, Defenses, RowTotals, Flags, AllHits, Earned, Value;
    StartFresh(rules, ids);
    RunConserves(rules, Start(rules, ids), es);
    EarnedValue(rules, AllHits(es), |Flags(es)|);
  }
}
