/** Amounts credited to teams, one after the other, and what each team and all teams get. */
module Credits {
  import opened Sums

  datatype Credit = Credit(team: int, amount: real)

  function CreditTo(credits: seq<Credit>, team: int): real {
    if credits == [] then 0.0
    else
      var last := credits[|credits| - 1];
      CreditTo(credits[..|credits| - 1], team) + if last.team == team then last.amount else 0.0
  }

  function TotalCredit(credits: seq<Credit>): real {
    if credits == [] then 0.0
    else TotalCredit(credits[..|credits| - 1]) + credits[|credits| - 1].amount
  }

  /** What the listed teams get together. */
  function SumOver(teams: seq<int>, credits: seq<Credit>): real {
    if teams == [] then 0.0
    else SumOver(teams[..|teams| - 1], credits) + CreditTo(credits, teams[|teams| - 1])
  }

  lemma CreditMore(credits: seq<Credit>, c: Credit, team: int)
    ensures CreditTo(credits + [c], team) == CreditTo(credits, team) + if c.team == team then c.amount else 0.0
  {
    assert (credits + [c])[..|credits|] == credits;
  }

  lemma {:induction false} SumOverMore(teams: seq<int>, credits: seq<Credit>, c: Credit)
    requires Distinct(teams)
    ensures SumOver(teams, credits + [c]) == SumOver(teams, credits) + if c.team in teams then c.amount else 0.0
    decreases |teams|
  {
    if teams != [] {
      var init, last := teams[..|teams| - 1], teams[|teams| - 1];
      SumOverMore(init, credits, c);
      CreditMore(credits, c, last);
      assert teams == init + [last];
      assert forall i :: 0 <= i < |init| ==> init[i] == teams[i] && init[i] != last;
    }
  }

  lemma {:induction false} SumOverNothing(teams: seq<int>)
    ensures SumOver(teams, []) == 0.0
    decreases |teams|
  {
    if teams != [] {
      SumOverNothing(teams[..|teams| - 1]);
    }
  }

  predicate Covers(teams: seq<int>, credits: seq<Credit>) {
    forall i :: 0 <= i < |credits| ==> credits[i].team in teams
  }

  /** Teams that include everybody credited get everything. */
  lemma {:induction false} SumOverEverybody(teams: seq<int>, credits: seq<Credit>)
    requires Distinct(teams) && Covers(teams, credits)
    ensures SumOver(teams, credits) == TotalCredit(credits)
    decreases |credits|
  {
    if credits == [] {
      SumOverNothing(teams);
    } else {
      var init, last := credits[..|credits| - 1], credits[|credits| - 1];
      assert credits == init + [last];
      SumOverEverybody(teams, init);
      SumOverMore(teams, init, last);
    }
  }
}
