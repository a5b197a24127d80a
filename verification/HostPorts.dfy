/** Host ports: ProvisionContainers in internal/service/container_service.go and the port map that
    internal/container/manager.go fills for a container. */
module HostPorts {
  import opened PortList
  import opened Sums

  const HOST_PORT_BASE := 31000

  /** The first host port of a container. */
  function PortBase(challenges: nat, team: int, index: nat): int {
    HOST_PORT_BASE + (challenges * (team - 1) + index) * 10
  }

  /** Container port to host port. */
  function Mapped(ports: seq<int>, base: int): map<int, int> {
    if ports == [] then map[]
    else Mapped(ports[..|ports| - 1], base)[ports[|ports| - 1] := base + |ports| - 1]
  }

  function Exposed(text: string): seq<int> {
    if text == "" then [] else Ports(Split(text, ','))
  }

  datatype Container = Container(team: int, index: nat, ports: map<int, int>)

  datatype Outcome = Skipped | AllFailed | Done(failed: int)

  function TeamPlan(team: int, challenges: seq<string>, upTo: nat, works: (int, int) -> bool): seq<Container>
    requires upTo <= |challenges|
  {
    if upTo == 0 then []
    else
      var k := upTo - 1;
      TeamPlan(team, challenges, k, works)
      + if works(team, k) then [Container(team, k, Mapped(Exposed(challenges[k]), PortBase(|challenges|, team, k)))]
        else []
  }

  function Plan(teams: seq<int>, challenges: seq<string>, works: (int, int) -> bool): seq<Container> {
    if teams == [] then []
    else
      Plan(teams[..|teams| - 1], challenges, works) + TeamPlan(teams[|teams| - 1], challenges, |challenges|, works)
  }

  /** The port map of CreateChallengeContainer. */
  method FillPorts(text: string, hostPortBase: int) returns (ports: map<int, int>)
    ensures ports == Mapped(Exposed(text), hostPortBase)
  {
    hide Ports, Split, ValidPort;
    ports := map[];
    if text != "" {
      var list := SplitPorts(text);
      for i := 0 to |list|
        invariant ports == Mapped(list[..i], hostPortBase)
      {
        assert list[..i + 1][..i] == list[..i];
        ports := ports[list[i] := hostPortBase + i];
      }
      assert list[..|list|] == list;
    }
  }

  function Cells(teams: nat, challenges: nat): nat {
    teams * challenges
  }

  /** `works` says which containers docker creates. */
  method ProvisionContainers(teams: seq<int>, challenges: seq<string>, works: (int, int) -> bool)
    returns (outcome: Outcome, containers: seq<Container>)
    ensures containers == Plan(teams, challenges, works)
    ensures outcome == if teams == [] || challenges == [] then Skipped
                       else if containers == [] then AllFailed
                       else Done(Cells(|teams|, |challenges|) - |containers|)
  {
    containers := [];
    if teams == [] || challenges == [] {
      NothingToPlan(teams, challenges, works);
      return Skipped, [];
    }
    var total := Cells(|teams|, |challenges|);
    var failed := 0;
    for i := 0 to |teams|
      invariant containers == Plan(teams[..i], challenges, works)
      invariant failed + |containers| == Cells(i, |challenges|)
    {
      hide Cells, TeamPlan;
      assert teams[..i + 1][..i] == teams[..i];
      var ofTeam, failedHere := ProvisionTeam(teams[i], challenges, works);
      failed := failed + failedHere;
      containers := containers + ofTeam;
      CellsMore(i, |challenges|);
    }
    assert teams[..|teams|] == teams;
    CellsMore(|teams| - 1, |challenges|);
    hide Cells, Plan;
    if failed > 0 && failed >= total {
      outcome := AllFailed;
    } else {
      outcome := Done(failed);
    }
  }

  lemma CellsMore(m: nat, n: nat)
    ensures Cells(m + 1, n) == Cells(m, n) + n && Cells(0, n) == 0
  {
  }

  lemma {:induction false} NothingToPlan(teams: seq<int>, challenges: seq<string>, works: (int, int) -> bool)
    requires teams == [] || challenges == []
    ensures Plan(teams, challenges, works) == []
    decreases |teams|
  {
    if teams != [] {
      NothingToPlan(teams[..|teams| - 1], challenges, works);
    }
  }

  /** The inner loop of ProvisionContainers. */
  method ProvisionTeam(team: int, challenges: seq<string>, works: (int, int) -> bool)
    returns (containers: seq<Container>, failed: nat)
    ensures containers == TeamPlan(team, challenges, |challenges|, works)
    ensures failed + |containers| == |challenges|
  {
    containers, failed := [], 0;
    var chalIdx := 0;
    while chalIdx < |challenges|
      invariant chalIdx <= |challenges|
      invariant containers == TeamPlan(team, challenges, chalIdx, works)
      invariant failed + |containers| == chalIdx
    {
      hide Mapped, Exposed, PortBase;
      if works(team, chalIdx) {
        var ports := FillPorts(challenges[chalIdx], PortBase(|challenges|, team, chalIdx));
        containers := containers + [Container(team, chalIdx, ports)];
      } else {
        failed := failed + 1;
        assert containers + [] == containers;
      }
      chalIdx := chalIdx + 1;
    }
  }

  // ---------------------------------------------------------------- numbers

  /** The host port of the i-th port of a container in a slot, counted over teams and challenges. */
  function SlotPort(slot: int, i: nat): int {
    HOST_PORT_BASE + slot * 10 + i
  }

  function Slot(challenges: nat, team: int, index: nat): int {
    challenges * (team - 1) + index
  }

  /** Two slots share a host port exactly when the lower one lists more ports than reach up to the higher
      one; with at most ten ports in a slot, never. */
  lemma SlotsCollideIff(a: int, b: int, m: nat, n: nat)
    requires a < b
    ensures (exists i: nat, j: nat :: i < m && j < n && SlotPort(a, i) == SlotPort(b, j))
            <==> n > 0 && m > 10 * (b - a)
  {
    if n > 0 && m > 10 * (b - a) {
      var i: nat := 10 * (b - a);
      assert SlotPort(a, i) == SlotPort(b, 0);
    }
  }

  lemma SlotsInOrder(challenges: nat, t: int, k: nat, t': int, k': nat)
    requires k < challenges && k' < challenges && t < t'
    ensures Slot(challenges, t, k) < Slot(challenges, t', k')
  {
    var c: int := challenges;
    assert c * (t' - 1) - c * (t - 1) == c * (t' - t);
    Multiple(c, t' - t);
  }

  /** Every team and challenge has a slot of its own. */
  lemma SlotsDiffer(challenges: nat, t: int, k: nat, t': int, k': nat)
    requires k < challenges && k' < challenges
    ensures Slot(challenges, t, k) == Slot(challenges, t', k') ==> t == t' && k == k'
  {
    if t < t' {
      SlotsInOrder(challenges, t, k, t', k');
    } else if t' < t {
      SlotsInOrder(challenges, t', k', t, k);
    }
  }

  lemma Multiple(c: int, n: int)
    requires c > 0 && n > 0
    ensures c * n >= c
  {
  }

  /** Every host port of every team is valid, if challenge k lists counts[k] ports. */
  ghost predicate AllValid(counts: seq<nat>, largest: nat) {
    forall t: int, k: nat, i: nat :: 1 <= t <= largest && k < |counts| && i < counts[k]
      ==> SlotPort(Slot(|counts|, t, k), i) <= 65535
  }

  /** The team with the largest id uses the highest ports, and the last port of each challenge decides. */
  lemma AllValidIff(counts: seq<nat>, largest: nat)
    requires largest > 0
    ensures AllValid(counts, largest)
            <==> forall k: nat :: k < |counts| && counts[k] > 0
                   ==> SlotPort(Slot(|counts|, largest, k), counts[k] - 1) <= 65535
  {
    var c := |counts|;
    if forall k: nat :: k < c && counts[k] > 0 ==> SlotPort(Slot(c, largest, k), counts[k] - 1) <= 65535 {
      forall t: int, k: nat, i: nat | 1 <= t <= largest && k < c && i < counts[k]
        ensures SlotPort(Slot(c, t, k), i) <= 65535
      {
        Monotone(c, t - 1, largest - 1);
        assert SlotPort(Slot(c, largest, k), counts[k] - 1) <= 65535;
      }
    }
  }

  /** With the same number of ports in every challenge: up to this many challenges times largest id. */
  lemma ValidUpTo(counts: seq<nat>, largest: nat, n: nat)
    requires counts != [] && largest > 0 && n > 0 && forall k :: 0 <= k < |counts| ==> counts[k] == n
    ensures AllValid(counts, largest) <==> 10 * |counts| * largest + n <= 34546
    ensures n == 10 ==> (AllValid(counts, largest) <==> |counts| * largest <= 3453)
  {
    var c, l: int := |counts|, largest;
    AllValidIff(counts, largest);
    assert c * (l - 1) == c * l - c;
    assert Slot(c, l, c - 1) == c * l - 1;
    assert 10 * c * l == 10 * (c * l);
    assert counts[c - 1] == n;
    assert SlotPort(Slot(c, l, c - 1), n - 1) <= 65535 <==> 10 * (c * l) + n <= 34546;
  }

  lemma Monotone(c: int, m: int, n: int)
    requires c > 0 && m <= n
    ensures c * m <= c * n
  {
  }

  // ---------------------------------------------------------------- the ports of a plan

  /** The host port of container port p is that of its last place in the challenge's list. */
  ghost predicate PortAt(c: Container, challenges: seq<string>, p: int, i: nat)
    requires p in c.ports && c.index < |challenges|
  {
    var list := Exposed(challenges[c.index]);
    && i < |list| && list[i] == p && (forall j :: i < j < |list| ==> list[j] != p)
    && c.ports[p] == SlotPort(Slot(|challenges|, c.team, c.index), i)
  }

  lemma {:induction false} LastPlace(ports: seq<int>, base: int, p: int) returns (i: nat)
    requires p in Mapped(ports, base)
    ensures i < |ports| && ports[i] == p && (forall j :: i < j < |ports| ==> ports[j] != p)
    ensures Mapped(ports, base)[p] == base + i
    decreases |ports|
  {
    var n := |ports| - 1;
    if p == ports[n] {
      i := n;
    } else {
      i := LastPlace(ports[..n], base, p);
      assert forall j :: 0 <= j < n ==> ports[..n][j] == ports[j];
    }
  }

  /** Whatever Docker creates: each container maps exactly the ports that its challenge lists, each to the host
      port of its place in the slot of team and challenge. */
  lemma PlanPorts(teams: seq<int>, challenges: seq<string>, works: (int, int) -> bool, k: nat, p: int)
    requires Distinct(teams) && k < |Plan(teams, challenges, works)|
    ensures var c := Plan(teams, challenges, works)[k];
            && c.team in teams && c.index < |challenges|
            && (p in c.ports <==> p in Exposed(challenges[c.index]))
            && (p in c.ports ==> exists i: nat :: PortAt(c, challenges, p, i))
  {
    PlanIsGood(teams, challenges, works);
    var c := Plan(teams, challenges, works)[k];
    assert Planned(c, challenges);
    hide Plan, Exposed;
    var ports, base := Exposed(challenges[c.index]), PortBase(|challenges|, c.team, c.index);
    OneContainer(ports, base, p, p);
    if p in c.ports {
      var i := LastPlace(ports, base, p);
      assert base + i == SlotPort(Slot(|challenges|, c.team, c.index), i);
      assert PortAt(c, challenges, p, i);
    }
  }

  /** All host ports of the containers of a plan are valid if the last ports of the largest team id are. */
  ghost predicate PlanValid(plan: seq<Container>) {
    forall k, p :: 0 <= k < |plan| && p in plan[k].ports ==> plan[k].ports[p] <= 65535
  }

  function Counts(challenges: seq<string>): seq<nat> {
    seq(|challenges|, k requires 0 <= k < |challenges| => |Exposed(challenges[k])|)
  }

  lemma PlanValidWithin(teams: seq<int>, challenges: seq<string>, works: (int, int) -> bool, largest: nat)
    requires Distinct(teams) && forall i :: 0 <= i < |teams| ==> 1 <= teams[i] <= largest
    requires AllValid(Counts(challenges), largest)
    ensures PlanValid(Plan(teams, challenges, works))
  {
    var plan := Plan(teams, challenges, works);
    forall k, p | 0 <= k < |plan| && p in plan[k].ports ensures plan[k].ports[p] <= 65535 {
      PlanPorts(teams, challenges, works, k, p);
      var i: nat :| PortAt(plan[k], challenges, p, i);
      assert i < Counts(challenges)[plan[k].index];
    }
  }

  /** Whatever Docker creates. */
  ghost predicate AlwaysValid(teams: seq<int>, challenges: seq<string>) {
    forall works: (int, int) -> bool :: PlanValid(Plan(teams, challenges, works))
  }

  /** With the largest id among the teams: all ports are always valid if and only if the last ports of that team
      are. */
  lemma PlanValidIff(teams: seq<int>, challenges: seq<string>, largest: nat)
    requires Distinct(teams) && largest in teams && forall i :: 0 <= i < |teams| ==> 1 <= teams[i] <= largest
    ensures AlwaysValid(teams, challenges) <==> AllValid(Counts(challenges), largest)
  {
    hide Plan, AllValid, PlanValid;
    if AllValid(Counts(challenges), largest) {
      forall works: (int, int) -> bool ensures PlanValid(Plan(teams, challenges, works)) {
        PlanValidWithin(teams, challenges, works, largest);
      }
    }
    if AlwaysValid(teams, challenges) {
      LastPortsValid(teams, challenges, largest);
    }
  }

  lemma LastPortsValid(teams: seq<int>, challenges: seq<string>, largest: nat)
    requires Distinct(teams) && largest in teams && largest >= 1 && AlwaysValid(teams, challenges)
    ensures AllValid(Counts(challenges), largest)
  {
    var all := (t: int, k: int) => true;
    assert PlanValid(Plan(teams, challenges, all));
    forall k: nat | k < |challenges| && Counts(challenges)[k] > 0
      ensures SlotPort(Slot(|challenges|, largest, k), Counts(challenges)[k] - 1) <= 65535
    {
      LastPortValid(teams, challenges, all, largest, k);
    }
    AllValidIff(Counts(challenges), largest);
    hide Plan, AllValid, PlanValid, Exposed;
  }

  lemma LastPortValid(teams: seq<int>, challenges: seq<string>, works: (int, int) -> bool, team: int, k: nat)
    requires Distinct(teams) && team in teams && k < |challenges| && works(team, k)
    requires |Exposed(challenges[k])| > 0 && PlanValid(Plan(teams, challenges, works))
    ensures SlotPort(Slot(|challenges|, team, k), |Exposed(challenges[k])| - 1) <= 65535
  {
    var plan, list := Plan(teams, challenges, works), Exposed(challenges[k]);
    var t :| 0 <= t < |teams| && teams[t] == team;
    PlanIsComplete(teams, challenges, works, t, k);
    hide Plan, Exposed;
    var i :| 0 <= i < |plan| && plan[i].team == team && plan[i].index == k;
    var p := list[|list| - 1];
    PlanPorts(teams, challenges, works, i, p);
    var place: nat :| PortAt(plan[i], challenges, p, place);
    assert place == |list| - 1;
  }

  /** With n ports in every challenge. */
  lemma PlanValidUpTo(teams: seq<int>, challenges: seq<string>, largest: nat, n: nat)
    requires Distinct(teams) && largest in teams && forall i :: 0 <= i < |teams| ==> 1 <= teams[i] <= largest
    requires challenges != [] && n > 0 && forall k :: 0 <= k < |challenges| ==> |Exposed(challenges[k])| == n
    ensures AlwaysValid(teams, challenges) <==> 10 * |challenges| * largest + n <= 34546
    ensures n == 10 ==> (AlwaysValid(teams, challenges) <==> |challenges| * largest <= 3453)
  {
    PlanValidIff(teams, challenges, largest);
    ValidUpTo(Counts(challenges), largest, n);
    hide AlwaysValid, AllValid, Exposed;
  }

  // ---------------------------------------------------------------- no host port twice

  /** Each entry maps a listed port to the place where the list names it. */
  lemma {:induction false} MappedEntries(ports: seq<int>, base: int, p: int)
    requires p in Mapped(ports, base)
    ensures base <= Mapped(ports, base)[p] < base + |ports| && ports[Mapped(ports, base)[p] - base] == p
    decreases |ports|
  {
    if ports != [] && p != ports[|ports| - 1] {
      MappedEntries(ports[..|ports| - 1], base, p);
    }
  }

  lemma {:induction false} MappedAll(ports: seq<int>, base: int, i: nat)
    requires i < |ports|
    ensures ports[i] in Mapped(ports, base)
    decreases |ports|
  {
    if i < |ports| - 1 {
      MappedAll(ports[..|ports| - 1], base, i);
    }
  }

  /** Inside a container, different container ports get different host ports, and every listed port gets one. */
  lemma OneContainer(ports: seq<int>, base: int, p: int, q: int)
    ensures var m := Mapped(ports, base); p in m && q in m && m[p] == m[q] ==> p == q
    ensures p in Mapped(ports, base) <==> p in ports
  {
    if p in Mapped(ports, base) { MappedEntries(ports, base, p); }
    if q in Mapped(ports, base) { MappedEntries(ports, base, q); }
    if p in ports {
      var i :| 0 <= i < |ports| && ports[i] == p;
      MappedAll(ports, base, i);
    }
  }

  /** What a container of the plan looks like. */
  ghost predicate Planned(c: Container, challenges: seq<string>) {
    && c.index < |challenges|
    && c.ports == Mapped(Exposed(challenges[c.index]), PortBase(|challenges|, c.team, c.index))
  }

  ghost predicate TeamGood(plan: seq<Container>, team: int, upTo: nat, challenges: seq<string>) {
    && (forall i :: 0 <= i < |plan| ==> Planned(plan[i], challenges) && plan[i].team == team && plan[i].index < upTo)
    && forall i, j :: 0 <= i < j < |plan| ==> plan[i].index < plan[j].index
  }

  lemma {:induction false} TeamPlanned(team: int, challenges: seq<string>, upTo: nat, works: (int, int) -> bool)
    requires upTo <= |challenges|
    ensures TeamGood(TeamPlan(team, challenges, upTo, works), team, upTo, challenges)
  {
    hide Mapped, Exposed, PortBase;
    if upTo > 0 {
      var k := upTo - 1;
      TeamPlanned(team, challenges, k, works);
      var c := Container(team, k, Mapped(Exposed(challenges[k]), PortBase(|challenges|, team, k)));
      assert Planned(c, challenges);
    }
  }

  ghost predicate GoodPlan(plan: seq<Container>, teams: seq<int>, challenges: seq<string>) {
    && (forall i :: 0 <= i < |plan| ==> Planned(plan[i], challenges) && plan[i].team in teams)
    && forall i, j :: 0 <= i < j < |plan| ==> plan[i].team != plan[j].team || plan[i].index != plan[j].index
  }

  lemma {:induction false} PlanIsGood(teams: seq<int>, challenges: seq<string>, works: (int, int) -> bool)
    requires Distinct(teams)
    ensures GoodPlan(Plan(teams, challenges, works), teams, challenges)
    decreases |teams|
  {
    if teams != [] {
      var init, last := teams[..|teams| - 1], teams[|teams| - 1];
      PlanIsGood(init, challenges, works);
      assert Plan(teams, challenges, works)
          == Plan(init, challenges, works) + TeamPlan(last, challenges, |challenges|, works);
      TeamPlanned(last, challenges, |challenges|, works);
      assert teams == init + [last];
      assert forall i :: 0 <= i < |init| ==> init[i] == teams[i] && init[i] != last;
      hide Planned, TeamPlan, Plan, GoodPlan, TeamGood;
      GoodAppend(Plan(init, challenges, works), TeamPlan(last, challenges, |challenges|, works),
                 init, last, challenges);
    }
  }

  lemma GoodAppend(plan: seq<Container>, more: seq<Container>, teams: seq<int>, team: int, challenges: seq<string>)
    requires GoodPlan(plan, teams, challenges) && team !in teams
    requires TeamGood(more, team, |challenges|, challenges)
    ensures GoodPlan(plan + more, teams + [team], challenges)
  {
    hide Planned;
  }

  ghost predicate Has(plan: seq<Container>, team: int, index: int) {
    exists i :: 0 <= i < |plan| && plan[i].team == team && plan[i].index == index
  }

  lemma HasAppend(a: seq<Container>, b: seq<Container>, team: int, index: int)
    ensures Has(a + b, team, index) <==> Has(a, team, index) || Has(b, team, index)
  {
    if i :| 0 <= i < |a| && a[i].team == team && a[i].index == index {
      assert (a + b)[i] == a[i];
    }
    if i :| 0 <= i < |b| && b[i].team == team && b[i].index == index {
      assert (a + b)[|a| + i] == b[i];
    }
  }

  lemma {:induction false} TeamComplete(team: int, challenges: seq<string>, upTo: nat,
                                        works: (int, int) -> bool, k: nat)
    requires k < upTo <= |challenges|
    ensures Has(TeamPlan(team, challenges, upTo, works), team, k) <==> works(team, k)
  {
    hide Mapped, Exposed, PortBase, Planned;
    var last := upTo - 1;
    var before := TeamPlan(team, challenges, last, works);
    var c := Container(team, last, Mapped(Exposed(challenges[last]), PortBase(|challenges|, team, last)));
    TeamPlanned(team, challenges, last, works);
    HasAppend(before, if works(team, last) then [c] else [], team, k);
    if k < last {
      TeamComplete(team, challenges, last, works, k);
    } else if works(team, last) {
      assert [c][0].index == k;
    }
  }

  /** There is a container for a team and a challenge exactly when Docker creates it: one failure does not
      keep the others from being tried. */
  lemma {:induction false} PlanIsComplete(teams: seq<int>, challenges: seq<string>, works: (int, int) -> bool,
                                          i: nat, k: nat)
    requires Distinct(teams) && i < |teams| && k < |challenges|
    ensures Has(Plan(teams, challenges, works), teams[i], k) <==> works(teams[i], k)
    decreases |teams|
  {
    var init, last := teams[..|teams| - 1], teams[|teams| - 1];
    var before, more := Plan(init, challenges, works), TeamPlan(last, challenges, |challenges|, works);
    PlanIsGood(init, challenges, works);
    TeamPlanned(last, challenges, |challenges|, works);
    HasAppend(before, more, teams[i], k);
    assert teams[i] != last ==> !Has(more, teams[i], k);
    NotAmong(teams);
    assert teams[i] == last ==> !Has(before, teams[i], k);
    hide TeamPlan, Planned, Has, GoodPlan, TeamGood;
    if i < |init| {
      PlanIsComplete(init, challenges, works, i, k);
    } else {
      TeamComplete(last, challenges, |challenges|, works, k);
    }
  }

  lemma NotAmong(teams: seq<int>)
    requires Distinct(teams) && teams != []
    ensures teams[|teams| - 1] !in teams[..|teams| - 1]
  {
  }

  /** No host port is given out twice, whichever containers were created, when no challenge lists more than
      ten valid ports. */
  lemma NoHostPortTwice(teams: seq<int>, challenges: seq<string>, works: (int, int) -> bool,
                        i: nat, j: nat, p: int, q: int)
    requires Distinct(teams) && forall k :: 0 <= k < |challenges| ==> |Exposed(challenges[k])| <= 10
    requires var plan := Plan(teams, challenges, works);
             i < |plan| && j < |plan| && p in plan[i].ports && q in plan[j].ports
    ensures var plan := Plan(teams, challenges, works);
            plan[i].ports[p] == plan[j].ports[q] ==> i == j && p == q
  {
    PlanIsGood(teams, challenges, works);
    var plan := Plan(teams, challenges, works);
    hide Plan, Exposed, Mapped;
    var a, b := plan[i], plan[j];
    var n := |challenges|;
    assert Planned(a, challenges) && Planned(b, challenges);
    MappedEntries(Exposed(challenges[a.index]), PortBase(n, a.team, a.index), p);
    MappedEntries(Exposed(challenges[b.index]), PortBase(n, b.team, b.index), q);
    if a.ports[p] == b.ports[q] {
      assert Slot(n, a.team, a.index) == Slot(n, b.team, b.index);
      SlotsDiffer(n, a.team, a.index, b.team, b.index);
      OneContainer(Exposed(challenges[a.index]), PortBase(n, a.team, a.index), p, q);
    }
  }
}
