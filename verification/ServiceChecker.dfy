/** internal/monitor/health_checker.go: when ServiceChecker.handleStatusChange decides on an alert. */
module ServiceChecker {
  import opened Options

  datatype Status = Healthy | Unhealthy | Unknown

  datatype Kind = Down | Recovered

  /** The alert and the status before the check that caused it. */
  datatype AlertEvent = AlertEvent(kind: Kind, oldStatus: Status)

  datatype Config = Config(failureCount: int, recoveryNotify: bool)

  /** The fields that handleStatusChange updates. */
  datatype State = State(fails: nat, last: Status, notified: bool)

  const START := State(0, Unknown, false)

  class ServiceChecker {
    const config: Config
    var consecutiveFails: nat
    var lastStatus: Status
    var lastNotified: bool

    function Fields(): State
      reads this
    {
      State(consecutiveFails, lastStatus, lastNotified)
    }

    constructor (config: Config)
      ensures this.config == config && Fields() == START
    {
      this.config := config;
      consecutiveFails, lastStatus, lastNotified := 0, Unknown, false;
    }

    /** `room` says whether the alert channel exists and is not full; an alert that finds no room is
        dropped, but counts as notified all the same. */
    method HandleStatusChange(newStatus: Status, room: bool) returns (sent: Option<AlertEvent>)
      modifies this
      ensures Fields() == Next(config, old(Fields()), newStatus)
      ensures sent == if room then Alert(config, old(Fields()), newStatus) else None
    {
      var oldStatus := lastStatus;
      if newStatus == Unhealthy {
        consecutiveFails := consecutiveFails + 1;
      } else {
        consecutiveFails := 0;
      }
      var shouldAlert, alertStatus := false, Down;
      if newStatus == Unhealthy && consecutiveFails >= config.failureCount && !lastNotified {
        shouldAlert := true;
        lastNotified := true;
      } else if oldStatus == Unhealthy && newStatus == Healthy && config.recoveryNotify && lastNotified {
        shouldAlert := true;
        alertStatus := Recovered;
        lastNotified := false;
      }
      sent := None;
      if shouldAlert && room {
        sent := Some(AlertEvent(alertStatus, oldStatus));
      }
      lastStatus := newStatus;
    }
  }

  // ---------------------------------------------------------------- one check

  function Fails(s: State, status: Status): nat {
    if status == Unhealthy then s.fails + 1 else 0
  }

  function Alert(config: Config, s: State, status: Status): Option<AlertEvent> {
    if status == Unhealthy && Fails(s, status) >= config.failureCount && !s.notified then
      Some(AlertEvent(Down, s.last))
    else if s.last == Unhealthy && status == Healthy && config.recoveryNotify && s.notified then
      Some(AlertEvent(Recovered, s.last))
    else None
  }

  function Next(config: Config, s: State, status: Status): State {
    State(Fails(s, status), status,
          match Alert(config, s, status)
          case None => s.notified
          case Some(alert) => alert.kind == Down)
  }

  // ---------------------------------------------------------------- a run of checks

  function After(config: Config, checks: seq<Status>): State {
    if checks == [] then START
    else Next(config, After(config, checks[..|checks| - 1]), checks[|checks| - 1])
  }

  /** What the last check of a run decides. */
  function LastAlert(config: Config, checks: seq<Status>): Option<AlertEvent>
    requires checks != []
  {
    Alert(config, After(config, checks[..|checks| - 1]), checks[|checks| - 1])
  }

  /** Everything decided in a run. */
  function Decided(config: Config, checks: seq<Status>): seq<Kind> {
    if checks == [] then []
    else
      Decided(config, checks[..|checks| - 1])
      + match LastAlert(config, checks)
        case None => []
        case Some(alert) => [alert.kind]
  }

  /** The length of the unhealthy suffix of a run. */
  function Streak(checks: seq<Status>): nat {
    if checks == [] || checks[|checks| - 1] != Unhealthy then 0
    else Streak(checks[..|checks| - 1]) + 1
  }

  function Threshold(config: Config): nat {
    if config.failureCount < 1 then 1 else config.failureCount
  }

  predicate Alternating(alerts: seq<Kind>) {
    forall i :: 0 <= i < |alerts| ==> alerts[i] == if i % 2 == 0 then Down else Recovered
  }

  /** There is an odd number of alerts: the last one said "down". */
  predicate Open(config: Config, checks: seq<Status>) {
    |Decided(config, checks)| % 2 == 1
  }

  ghost predicate Agrees(config: Config, checks: seq<Status>) {
    var s := After(config, checks);
    && s.fails == Streak(checks)
    && s.last == (if checks == [] then Unknown else checks[|checks| - 1])
    && (s.notified <==> Open(config, checks))
    && (!s.notified ==> s.fails < Threshold(config))
    && Alternating(Decided(config, checks))
  }

  lemma AgreesStep(config: Config, checks: seq<Status>)
    requires checks != [] && Agrees(config, checks[..|checks| - 1])
    ensures Agrees(config, checks)
  {
    var init := checks[..|checks| - 1];
    match LastAlert(config, checks)
    case None =>
      assert Decided(config, checks) == Decided(config, init) + [];
    case Some(alert) =>
      assert Decided(config, checks) == Decided(config, init) + [alert.kind];
  }

  /** The counter is the length of the current unhealthy suffix, the flag says whether the last alert
      said "down", and alerts alternate, beginning with "down". */
  lemma {:induction false} StateFollowsHistory(config: Config, checks: seq<Status>)
    ensures Agrees(config, checks)
    decreases |checks|
  {
    if checks != [] {
      StateFollowsHistory(config, checks[..|checks| - 1]);
      AgreesStep(config, checks);
    }
  }

  /** A check decides "down" exactly when no alert is open and it is the threshold-th failure in a row,
      and "recovered" exactly when one is open, recoveries are wanted and the service goes from unhealthy
      straight to healthy.  It carries the status that the check before it found. */
  lemma AlertIff(config: Config, checks: seq<Status>)
    requires checks != []
    ensures var init, now := checks[..|checks| - 1], checks[|checks| - 1];
            && (LastAlert(config, checks).Some? && LastAlert(config, checks).value.kind == Down
                <==> !Open(config, init) && Streak(checks) == Threshold(config))
            && (LastAlert(config, checks).Some? && LastAlert(config, checks).value.kind == Recovered
                <==> Open(config, init) && config.recoveryNotify && RecoversAt(checks, |checks| - 1))
            && (LastAlert(config, checks).Some? ==>
                  LastAlert(config, checks).value.oldStatus == if init == [] then Unknown else init[|init| - 1])
  {
    StateFollowsHistory(config, checks[..|checks| - 1]);
  }

  /** Check number `i` finds a service healthy that the check before it found unhealthy. */
  predicate RecoversAt(checks: seq<Status>, i: int) {
    0 < i < |checks| && checks[i - 1] == Unhealthy && checks[i] == Healthy
  }

  /** After `k` checks the service has failed often enough in a row, and has not been seen to recover since. */
  ghost predicate DownSince(config: Config, checks: seq<Status>, k: nat) {
    && k <= |checks|
    && Streak(checks[..k]) >= Threshold(config)
    && forall i :: k <= i < |checks| ==> !(config.recoveryNotify && RecoversAt(checks, i))
  }

  /** An alert is open exactly when the service went down at some check and no later check saw it go
      from unhealthy straight to healthy. */
  lemma {:induction false} OpenIff(config: Config, checks: seq<Status>)
    ensures Open(config, checks) <==> exists k: nat :: DownSince(config, checks, k)
    decreases |checks|
  {
    if checks == [] {
      assert forall k: nat :: !DownSince(config, [], k);
    } else {
      var init := checks[..|checks| - 1];
      OpenIff(config, init);
      DownSinceNow(config, init);
      AlertIff(config, checks);
      DownSinceStep(config, checks);
      OpenStep(config, checks);
    }
  }

  lemma OpenStep(config: Config, checks: seq<Status>)
    requires checks != []
    ensures var init := checks[..|checks| - 1];
            Open(config, checks) <==> (Open(config, init) <==> LastAlert(config, checks) == None)
  {
  }

  lemma DownSinceGrows(config: Config, checks: seq<Status>, k: nat)
    requires checks != [] && k < |checks|
    ensures DownSince(config, checks, k)
            <==> DownSince(config, checks[..|checks| - 1], k)
                 && !(config.recoveryNotify && RecoversAt(checks, |checks| - 1))
  {
    var n := |checks| - 1;
    var init := checks[..n];
    assert init[..k] == checks[..k];
    assert forall i :: i < n ==> (RecoversAt(checks, i) <==> RecoversAt(init, i));
    if DownSince(config, checks, k) {
      assert forall i :: k <= i < n ==> !(config.recoveryNotify && RecoversAt(checks, i));
    }
  }

  lemma DownSinceNow(config: Config, checks: seq<Status>)
    ensures DownSince(config, checks, |checks|) <==> Streak(checks) >= Threshold(config)
  {
    assert checks[..|checks|] == checks;
  }

  lemma DownSinceStep(config: Config, checks: seq<Status>)
    requires checks != []
    ensures var init := checks[..|checks| - 1];
            (exists k: nat :: DownSince(config, checks, k))
            <==> (Streak(checks) >= Threshold(config)
                  || ((exists k: nat :: DownSince(config, init, k))
                      && !(config.recoveryNotify && RecoversAt(checks, |checks| - 1))))
  {
    var n := |checks| - 1;
    var init := checks[..n];
    DownSinceNow(config, checks);
    forall k: nat | k <= n
      ensures DownSince(config, checks, k)
              <==> DownSince(config, init, k) && !(config.recoveryNotify && RecoversAt(checks, n))
    {
      DownSinceGrows(config, checks, k);
    }
    assert forall k: nat :: DownSince(config, checks, k) ==> k <= n + 1;
    assert forall k: nat :: DownSince(config, init, k) ==> k <= n;
    hide DownSince, Streak, Threshold, RecoversAt;
  }

  /** When recoveries are wanted and no check ends "unknown", an alert is open exactly while the service
      is down: the present unhealthy suffix is at least as long as the threshold. */
  lemma {:induction false} OpenWhileDown(config: Config, checks: seq<Status>)
    requires config.recoveryNotify && forall i :: 0 <= i < |checks| ==> checks[i] != Unknown
    ensures Open(config, checks) <==> Streak(checks) >= Threshold(config)
    decreases |checks|
  {
    if checks != [] {
      var init := checks[..|checks| - 1];
      OpenWhileDown(config, init);
      AlertIff(config, checks);
      OpenStep(config, checks);
    }
  }

  /** Otherwise the alert stays open: one "unknown" between failure and recovery hides the recovery, for as
      long as the service then stays up. */
  lemma {:induction false} UnknownHidesRecovery(config: Config, down: seq<Status>, up: seq<Status>)
    requires Open(config, down)
    requires forall i :: 0 <= i < |up| ==> up[i] == Healthy
    ensures Decided(config, down + [Unknown] + up) == Decided(config, down)
    decreases |up|
  {
    var checks := down + [Unknown] + up;
    var init := checks[..|checks| - 1];
    AlertIff(config, checks);
    if up == [] {
      assert init == down;
    } else {
      assert init == down + [Unknown] + up[..|up| - 1];
      UnknownHidesRecovery(config, down, up[..|up| - 1]);
    }
  }

  /** Without recovery notices a service never gets a second alert. */
  lemma {:induction false} OneAlertWithoutRecovery(config: Config, checks: seq<Status>)
    requires !config.recoveryNotify
    ensures |Decided(config, checks)| <= 1
    decreases |checks|
  {
    if checks != [] {
      OneAlertWithoutRecovery(config, checks[..|checks| - 1]);
      AlertIff(config, checks);
    }
  }

  /** What reaches a channel that has room only at some checks. */
  function Delivered(config: Config, checks: seq<Status>, room: seq<bool>): seq<Kind>
    requires |room| == |checks|
  {
    if checks == [] then []
    else
      var n := |checks| - 1;
      Delivered(config, checks[..n], room[..n])
      + match LastAlert(config, checks)
        case None => []
        case Some(alert) => if room[n] then [alert.kind] else []
  }

  /** The alert that the last check decides, as a sequence. */
  function Now(config: Config, checks: seq<Status>): seq<Kind>
    requires checks != []
  {
    match LastAlert(config, checks)
    case None => []
    case Some(alert) => [alert.kind]
  }

  lemma OneMore(config: Config, checks: seq<Status>, room: seq<bool>)
    requires |room| == |checks| && checks != []
    ensures var n := |checks| - 1;
            && Decided(config, checks) == Decided(config, checks[..n]) + Now(config, checks)
            && Delivered(config, checks, room)
               == Delivered(config, checks[..n], room[..n]) + (if room[n] then Now(config, checks) else [])
            && |Now(config, checks)| <= 1
  {
    hide LastAlert;
  }

  predicate Subsequence(xs: seq<Kind>, ys: seq<Kind>)
    decreases |ys|
  {
    if xs == [] then true
    else if ys == [] then false
    else
      var m, n := |xs| - 1, |ys| - 1;
      (xs[m] == ys[n] && Subsequence(xs[..m], ys[..n])) || Subsequence(xs, ys[..n])
  }

  lemma SubsequenceMore(xs: seq<Kind>, ys: seq<Kind>, now: seq<Kind>)
    requires Subsequence(xs, ys) && |now| <= 1
    ensures Subsequence(xs, ys + now) && Subsequence(xs + now, ys + now)
  {
    if now == [] {
      assert xs + now == xs && ys + now == ys;
    } else {
      assert (xs + now)[..|xs|] == xs && (ys + now)[..|ys|] == ys;
    }
  }

  /** What was decided reaches the channel in order, without additions; all of it if there was always room. */
  lemma {:induction false} DeliveredFromDecided(config: Config, checks: seq<Status>, room: seq<bool>)
    requires |room| == |checks|
    ensures Subsequence(Delivered(config, checks, room), Decided(config, checks))
    ensures (forall i :: 0 <= i < |room| ==> room[i]) ==> Delivered(config, checks, room) == Decided(config, checks)
    decreases |checks|
  {
    if checks != [] {
      var n := |checks| - 1;
      DeliveredFromDecided(config, checks[..n], room[..n]);
      OneMore(config, checks, room);
      var sent, decided := Delivered(config, checks[..n], room[..n]), Decided(config, checks[..n]);
      SubsequenceMore(sent, decided, Now(config, checks));
      assert sent + [] == sent;
    }
    hide Decided, Delivered, Subsequence, Now;
  }

  /** How many decided alerts found no room. */
  function Dropped(config: Config, checks: seq<Status>, room: seq<bool>): nat
    requires |room| == |checks|
  {
    if checks == [] then 0
    else
      var n := |checks| - 1;
      Dropped(config, checks[..n], room[..n]) + if room[n] then 0 else |Now(config, checks)|
  }

  lemma {:induction false} DroppedOrDelivered(config: Config, checks: seq<Status>, room: seq<bool>)
    requires |room| == |checks|
    ensures |Decided(config, checks)| == |Delivered(config, checks, room)| + Dropped(config, checks, room)
    decreases |checks|
  {
    if checks != [] {
      DroppedOrDelivered(config, checks[..|checks| - 1], room[..|checks| - 1]);
      OneMore(config, checks, room);
    }
    hide Decided, Delivered, Now;
  }

  /** Check number `i` sends an alert, after an odd number of dropped ones. */
  predicate SendsAfterOddDrops(config: Config, checks: seq<Status>, room: seq<bool>, i: nat)
    requires |room| == |checks|
  {
    && i < |checks| && room[i] && Now(config, checks[..i + 1]) != []
    && Dropped(config, checks[..i], room[..i]) % 2 == 1
  }

  lemma SendsInit(config: Config, checks: seq<Status>, room: seq<bool>, i: nat)
    requires |room| == |checks| && checks != [] && i < |checks| - 1
    ensures var n := |checks| - 1;
            SendsAfterOddDrops(config, checks, room, i) <==> SendsAfterOddDrops(config, checks[..n], room[..n], i)
  {
    hide Now, Dropped;
    var n := |checks| - 1;
    assert checks[..n][..i + 1] == checks[..i + 1] && checks[..n][..i] == checks[..i] && room[..n][..i] == room[..i];
  }

  lemma AlternatingMore(alerts: seq<Kind>, now: seq<Kind>)
    requires |now| <= 1
    ensures Alternating(alerts + now)
            <==> Alternating(alerts) && (now != [] ==> now[0] == if |alerts| % 2 == 0 then Down else Recovered)
  {
    if Alternating(alerts + now) {
      assert forall i :: 0 <= i < |alerts| ==> alerts[i] == (alerts + now)[i];
      assert now != [] ==> (alerts + now)[|alerts|] == now[0];
    }
  }

  /** `dropped` of the decided alerts were not sent. */
  lemma NextSent(sent: seq<Kind>, decided: seq<Kind>, now: seq<Kind>, dropped: nat, room: bool)
    requires |now| <= 1 && |decided| == |sent| + dropped
    requires Alternating(decided) && Alternating(decided + now)
    ensures Alternating(sent + if room then now else [])
            <==> Alternating(sent) && !(room && now != [] && dropped % 2 == 1)
  {
    hide Alternating;
    AlternatingMore(decided, now);
    AlternatingMore(sent, if room then now else []);
  }

  lemma NextAlternates(config: Config, checks: seq<Status>, room: seq<bool>)
    requires |room| == |checks| && checks != []
    ensures var n := |checks| - 1;
            Alternating(Delivered(config, checks, room))
            <==> Alternating(Delivered(config, checks[..n], room[..n])) && !SendsAfterOddDrops(config, checks, room, n)
  {
    var n := |checks| - 1;
    OneMore(config, checks, room);
    DroppedOrDelivered(config, checks[..n], room[..n]);
    StateFollowsHistory(config, checks);
    StateFollowsHistory(config, checks[..n]);
    assert checks[..n + 1] == checks;
    hide Delivered, Decided, Dropped, Now, After, Alternating;
    NextSent(Delivered(config, checks[..n], room[..n]), Decided(config, checks[..n]), Now(config, checks),
             Dropped(config, checks[..n], room[..n]), room[n]);
  }

  /** The delivered alerts alternate if and only if no alert is sent after an odd number of dropped ones. */
  lemma {:induction false} DeliveredAlternatesIff(config: Config, checks: seq<Status>, room: seq<bool>)
    requires |room| == |checks|
    ensures Alternating(Delivered(config, checks, room))
            <==> forall i: nat :: !SendsAfterOddDrops(config, checks, room, i)
    decreases |checks|
  {
    if checks != [] {
      var n := |checks| - 1;
      DeliveredAlternatesIff(config, checks[..n], room[..n]);
      NextAlternates(config, checks, room);
      forall i: nat | i < n
        ensures SendsAfterOddDrops(config, checks, room, i) <==> SendsAfterOddDrops(config, checks[..n], room[..n], i)
      {
        SendsInit(config, checks, room, i);
      }
      assert forall i: nat :: SendsAfterOddDrops(config, checks, room, i) ==> i <= n;
      assert forall i: nat :: SendsAfterOddDrops(config, checks[..n], room[..n], i) ==> i < n;
      hide SendsAfterOddDrops, Delivered, Alternating;
    }
  }

  /** The shortest instance: a full channel drops a recovery, and two alerts in a row say down. */
  lemma DroppedRecoveryShowsTwoDowns()
    ensures Delivered(Config(1, true), [Unhealthy, Healthy, Unhealthy], [true, false, true]) == [Down, Down]
  {
    var config := Config(1, true);
    var c1, c2, c3 := [Unhealthy], [Unhealthy, Healthy], [Unhealthy, Healthy, Unhealthy];
    assert c3[..2] == c2 && c2[..1] == c1 && c1[..0] == [];
    assert [true, false, true][..2] == [true, false] && [true, false][..1] == [true];
    assert After(config, c1) == State(1, Unhealthy, true);
    assert After(config, c2) == State(0, Healthy, false);
    assert Delivered(config, c1, [true]) == [Down];
    assert Delivered(config, c2, [true, false]) == [Down];
  }
}
