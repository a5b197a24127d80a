/** internal/engine/scoring: which scores depend on the order in which attacks arrive. */
module ZeroSumOrder {
  import opened Sums
  import opened ZeroSum
  import opened ZeroSumRuns

  ghost predicate Reordering(xs: seq<Event>, ys: seq<Event>) {
    multiset(xs) == multiset(ys)
  }

  lemma ReorderingKeeps(xs: seq<Event>, ys: seq<Event>)
    requires Reordering(xs, ys)
    ensures Flags(xs) == Flags(ys) && AllHits(xs) == AllHits(ys)
  {
    assert forall e :: e in xs <==> e in multiset(xs);
    assert forall e :: e in ys <==> e in multiset(ys);
    CountPermutation(xs, ys, e => Correct(e));
  }

  /** The two grand sums, and how many flags each team captured and lost, are the same for every
      order of the same attacks and round ends. */
  lemma TotalsIgnoreOrder(rules: Rules, ids: seq<int>, xs: seq<Event>, ys: seq<Event>, team: int)
    requires Reordering(xs, ys)
    ensures var l, l' := Run(rules, Start(rules, ids), xs), Run(rules, Start(rules, ids), ys);
            && Sum(Attacks(l.scores)) == Sum(Attacks(l'.scores))
            && Sum(Defenses(l.scores)) == Sum(Defenses(l'.scores))
            && Team(l.scores, team).captured == Team(l'.scores, team).captured
            && Team(l.scores, team).lost == Team(l'.scores, team).lost
  {
    hide Run, Start, Attacks, Defenses, Flags, AllHits, Value;
    StartFresh(rules, ids);
    ReorderingKeeps(xs, ys);
    ZeroSumClosedForm(rules, ids, xs);
    ZeroSumClosedForm(rules, ids, ys);
    TeamScoresClosedForm(rules, Start(rules, ids), xs, team);
    TeamScoresClosedForm(rules, Start(rules, ids), ys, team);
    CountPermutation(xs, ys, Hit(Attacker, team));
    CountPermutation(xs, ys, Hit(Target, team));
  }

  // ---------------------------------------------------------------- single scores

  /** What a team has gained as an attacker, or given up as a target. */
  ghost function Moved(rules: Rules, ids: seq<int>, role: Role, es: seq<Event>, team: int): real
  {
    var s := Team(Run(rules, Start(rules, ids), es).scores, team);
    if role.Attacker? then s.attack else -s.defense
  }

  lemma MovedClosedForm(rules: Rules, ids: seq<int>, role: Role, es: seq<Event>, team: int)
    ensures Moved(rules, ids, role, es, team) == Earned(rules, Hits(role, es, team), Firsts(role, es, team))
  {
    hide Run, Start, Earned;
    StartFresh(rules, ids);
    TeamScoresClosedForm(rules, Start(rules, ids), es, team);
  }

  /** No two correct attacks on one flag were made by, or fell on, different teams. */
  ghost predicate OneTeamPerFlag(role: Role, es: seq<Event>) {
    forall x, y :: x in es && y in es && Correct(x) && Correct(y) && x.a.flag == y.a.flag ==>
      Who(role, x) == Who(role, y)
  }

  function Owned(role: Role, es: seq<Event>, team: int): set<string> {
    set e | e in es && Correct(e) && Who(role, e) == team :: e.a.flag
  }

  lemma {:induction false} FirstsAreOwned(role: Role, es: seq<Event>, team: int)
    requires OneTeamPerFlag(role, es)
    ensures Firsts(role, es, team) == |Owned(role, es, team)|
    decreases |es|
  {
    if es != [] {
      var init, last := es[..|es| - 1], es[|es| - 1];
      assert es == init + [last];
      FirstsAreOwned(role, init, team);
      if Hit(role, team)(last) {
        assert Owned(role, es, team) == Owned(role, init, team) + {last.a.flag};
        if last.a.flag in Flags(init) {
          var e :| e in init && Correct(e) && e.a.flag == last.a.flag;
          assert e in es && last in es;
          assert Owned(role, es, team) == Owned(role, init, team);
        }
      } else {
        assert Owned(role, es, team) == Owned(role, init, team);
      }
    }
  }

  lemma FirstOfTwo(role: Role, x: Event, y: Event)
    requires Correct(x) && Correct(y) && x.a.flag == y.a.flag && Who(role, x) != Who(role, y)
    ensures Firsts(role, [x, y], Who(role, x)) == 1 && Firsts(role, [y, x], Who(role, x)) == 0
  {
    assert [x, y][..1] == [x] && [y, x][..1] == [y] && [x][..0] == [] && [y][..0] == [];
    assert y in [y] && y.a.flag in Flags([y]);
    assert Firsts(role, [x], Who(role, x)) == 1;
    assert Firsts(role, [y], Who(role, x)) == 0;
  }

  lemma SameFlags(xs: seq<Event>, ys: seq<Event>, zs: seq<Event>)
    requires multiset(xs) == multiset(ys)
    ensures Flags(xs + zs) == Flags(ys + zs)
  {
    assert forall e :: e in xs <==> e in multiset(xs);
    assert forall e :: e in ys <==> e in multiset(ys);
  }

  lemma {:induction false} SwapFirst(role: Role, x: Event, y: Event, rest: seq<Event>)
    requires Correct(x) && Correct(y) && x.a.flag == y.a.flag && Who(role, x) != Who(role, y)
    ensures Firsts(role, [x, y] + rest, Who(role, x)) == Firsts(role, [y, x] + rest, Who(role, x)) + 1
    decreases |rest|
  {
    hide Flags;
    if rest == [] {
      assert [x, y] + rest == [x, y] && [y, x] + rest == [y, x];
      FirstOfTwo(role, x, y);
    } else {
      var init := rest[..|rest| - 1];
      assert ([x, y] + rest)[..|rest| + 1] == [x, y] + init;
      assert ([y, x] + rest)[..|rest| + 1] == [y, x] + init;
      SameFlags([x, y], [y, x], init);
      SwapFirst(role, x, y, init);
    }
  }

  /** Two of the events, in either order, ahead of the others. */
  lemma BringForward(es: seq<Event>, x: Event, y: Event) returns (rest: seq<Event>)
    requires x in es && y in es && x != y
    ensures Reordering(es, [x, y] + rest) && Reordering(es, [y, x] + rest)
  {
    var i :| 0 <= i < |es| && es[i] == x;
    var es1 := TakeOut(es, i);
    assert y in multiset(es);
    assert y in multiset(es1);
    var j :| 0 <= j < |es1| && es1[j] == y;
    rest := TakeOut(es1, j);
    InFront(es, x, es1);
    InFront(es1, y, rest);
    SwapTwo(x, y, rest);
    assert [x] + ([y] + rest) == [x, y] + rest;
    assert multiset([x] + es1) == multiset([x] + ([y] + rest));
  }

  lemma TakeOut(es: seq<Event>, i: nat) returns (rest: seq<Event>)
    requires i < |es|
    ensures multiset(es) == multiset(rest) + multiset{es[i]}
  {
    rest := Without(es, i);
    WithoutMultiset(es, i);
  }

  lemma InFront(es: seq<Event>, x: Event, rest: seq<Event>)
    requires multiset(es) == multiset(rest) + multiset{x}
    ensures multiset(es) == multiset([x] + rest)
  {
  }

  lemma SwapTwo(x: Event, y: Event, rest: seq<Event>)
    ensures multiset([x, y] + rest) == multiset([y, x] + rest)
  {
    assert multiset([x, y]) == multiset([y, x]);
  }

  ghost predicate OrderFree(rules: Rules, ids: seq<int>, role: Role, es: seq<Event>)
  {
    forall ys, team :: Reordering(es, ys) ==>
      Moved(rules, ids, role, ys, team) == Moved(rules, ids, role, es, team)
  }

  /** The scores of single teams are the same for every order exactly when the first-blood bonus is
      worth nothing or no flag was captured by (for attack scores), or from (for defense scores),
      more than one team. */
  lemma OrderFreeIff(rules: Rules, ids: seq<int>, role: Role, es: seq<Event>)
    ensures OrderFree(rules, ids, role, es) <==> rules.FirstBloodPoints() == 0.0 || OneTeamPerFlag(role, es)
  {
    if rules.FirstBloodPoints() == 0.0 || OneTeamPerFlag(role, es) {
      forall ys, team | Reordering(es, ys)
        ensures Moved(rules, ids, role, ys, team) == Moved(rules, ids, role, es, team)
      {
        SameMoved(rules, ids, role, es, ys, team);
      }
    } else {
      var x, y :| x in es && y in es && Correct(x) && Correct(y) && x.a.flag == y.a.flag
                  && Who(role, x) != Who(role, y);
      OrderShows(rules, ids, role, es, x, y);
    }
  }

  lemma SameMoved(rules: Rules, ids: seq<int>, role: Role, es: seq<Event>, ys: seq<Event>, team: int)
    requires Reordering(es, ys)
    requires rules.FirstBloodPoints() == 0.0 || OneTeamPerFlag(role, es)
    ensures Moved(rules, ids, role, ys, team) == Moved(rules, ids, role, es, team)
  {
    hide Moved, Times, Firsts;
    MovedClosedForm(rules, ids, role, es, team);
    MovedClosedForm(rules, ids, role, ys, team);
    CountPermutation(es, ys, Hit(role, team));
    if OneTeamPerFlag(role, es) {
      assert forall e :: e in es <==> e in multiset(es);
      assert forall e :: e in ys <==> e in multiset(ys);
      assert OneTeamPerFlag(role, ys);
      FirstsAreOwned(role, es, team);
      FirstsAreOwned(role, ys, team);
      assert Owned(role, es, team) == Owned(role, ys, team);
    } else {
      TimesZero(Firsts(role, es, team));
      TimesZero(Firsts(role, ys, team));
    }
  }

  lemma {:induction false} TimesZero(n: nat)
    ensures Times(n, 0.0) == 0.0
  {
    if n > 0 { TimesZero(n - 1); }
  }

  lemma OrderShows(rules: Rules, ids: seq<int>, role: Role, es: seq<Event>, x: Event, y: Event)
    requires rules.FirstBloodPoints() != 0.0
    requires x in es && y in es && Correct(x) && Correct(y) && x.a.flag == y.a.flag && Who(role, x) != Who(role, y)
    ensures !OrderFree(rules, ids, role, es)
  {
    hide Moved, Firsts;
    var team := Who(role, x);
    var rest := BringForward(es, x, y);
    var p, q := [x, y] + rest, [y, x] + rest;
    ReorderingKeeps(es, p);
    ReorderingKeeps(es, q);
    MovedClosedForm(rules, ids, role, p, team);
    MovedClosedForm(rules, ids, role, q, team);
    CountPermutation(p, q, Hit(role, team));
    SwapFirst(role, x, y, rest);
    assert Moved(rules, ids, role, p, team) != Moved(rules, ids, role, q, team);
  }
}
