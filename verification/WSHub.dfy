/** internal/server/ws.go: the hub and the sessions that use it concurrently.  A connection is the number of
    its wsConn; every method but RestoreSubs is one critical section. */
module WSHub {
  import opened Sums

  type Conn = int

  /** The four maps of the hub. */
  datatype Hub = Hub(
    clients: set<Conn>,
    gameSub: map<string, set<Conn>>,
    userSubs: map<string, seq<string>>,
    userConn: map<string, Conn>)

  function Subscribers(h: Hub, game: string): set<Conn> {
    if game in h.gameSub then h.gameSub[game] else {}
  }

  function Tracked(h: Hub, user: string): seq<string> {
    if user in h.userSubs then h.userSubs[user] else []
  }

  function AfterRegister(h: Hub, c: Conn, user: string): Hub {
    h.(clients := h.clients + {c}, userConn := h.userConn[user := c])
  }

  function AfterUnregister(h: Hub, c: Conn, user: string): Hub {
    h.(clients := h.clients - {c},
       userConn := h.userConn - {user},
       gameSub := map g | g in h.gameSub :: h.gameSub[g] - {c})
  }

  function AfterSubscribe(h: Hub, game: string, c: Conn): Hub {
    h.(gameSub := h.gameSub[game := Subscribers(h, game) + {c}])
  }

  function AfterTrack(h: Hub, user: string, game: string): Hub {
    if game in Tracked(h, user) then h else h.(userSubs := h.userSubs[user := Tracked(h, user) + [game]])
  }

  function AfterSubscribeAll(h: Hub, games: seq<string>, c: Conn): Hub {
    if games == [] then h else AfterSubscribe(AfterSubscribeAll(h, games[..|games| - 1], c), games[|games| - 1], c)
  }

  class WSHub {
    var clients: set<Conn>
    var gameSub: map<string, set<Conn>>
    var userSubs: map<string, seq<string>>
    var userConn: map<string, Conn>

    function Value(): Hub
      reads this
    {
      Hub(clients, gameSub, userSubs, userConn)
    }

    constructor ()
      ensures Value() == EMPTY
    {
      clients, gameSub, userSubs, userConn := {}, map[], map[], map[];
    }

    method Register(c: Conn, user: string)
      modifies this
      ensures Value() == AfterRegister(old(Value()), c, user)
    {
      clients := clients + {c};
      userConn := userConn[user := c];
    }

    method Unregister(c: Conn, user: string)
      modifies this
      ensures Value() == AfterUnregister(old(Value()), c, user)
    {
      clients := clients - {c};
      userConn := userConn - {user};
      ghost var before := gameSub;
      var todo := gameSub.Keys;
      while todo != {}
        invariant todo <= gameSub.Keys == before.Keys
        invariant gameSub == map g | g in before :: if g in todo then before[g] else before[g] - {c}
        invariant clients == old(clients) - {c} && userConn == old(userConn) - {user} && userSubs == old(userSubs)
        decreases todo
      {
        var game :| game in todo;
        gameSub := gameSub[game := gameSub[game] - {c}];
        todo := todo - {game};
      }
    }

    method Subscribe(game: string, c: Conn)
      modifies this`gameSub
      ensures Value() == AfterSubscribe(old(Value()), game, c)
    {
      if game !in gameSub {
        gameSub := gameSub[game := {}];
      }
      gameSub := gameSub[game := gameSub[game] + {c}];
    }

    method TrackUserSub(user: string, game: string)
      modifies this`userSubs
      ensures Value() == AfterTrack(old(Value()), user, game)
    {
      var tracked := if user in userSubs then userSubs[user] else [];
      for i := 0 to |tracked|
        invariant game !in tracked[..i]
      {
        if tracked[i] == game {
          return;
        }
      }
      assert tracked[..|tracked|] == tracked;
      userSubs := userSubs[user := tracked + [game]];
    }

    /** Undisturbed by other sessions. */
    method RestoreSubs(user: string, c: Conn)
      modifies this`gameSub
      ensures Value() == AfterSubscribeAll(old(Value()), Tracked(old(Value()), user), c)
    {
      var games := if user in userSubs then userSubs[user] else [];
      for i := 0 to |games|
        invariant Value() == AfterSubscribeAll(old(Value()), games[..i], c)
      {
        assert games[..i + 1][..i] == games[..i];
        Subscribe(games[i], c);
      }
      assert games[..|games|] == games;
    }
  }

  const EMPTY := Hub({}, map[], map[], map[])

  // ---------------------------------------------------------------- sessions

  /** Where a session is in wsHandler: about to copy the tracked channels, about to subscribe the next of
      them, about to read a message, between Subscribe and TrackUserSub, or gone. */
  datatype Phase = Copying | Restoring(todo: seq<string>) | Reading | Tracking(channel: string) | Closed

  /** `copied` is what RestoreSubs copied; `wanted` every channel that the session has subscribed to. */
  datatype Session = Session(user: string, phase: Phase, copied: seq<string>, wanted: set<string>)

  datatype World = World(hub: Hub, sessions: map<Conn, Session>)

  /** Open is Register on a new connection; Advance the next step of a session that has one to make;
      Message a subscribe message; Close the end of the read loop and Unregister. */
  datatype Action = Open(c: Conn, user: string) | Advance(c: Conn) | Message(c: Conn, channel: string) | Close(c: Conn)

  function Step(w: World, a: Action): World {
    match a
    case Open(c, user) =>
      if c in w.sessions then w
      else World(AfterRegister(w.hub, c, user), w.sessions[c := Session(user, Copying, [], {})])
    case Advance(c) =>
      if c !in w.sessions then w else AdvanceSession(w, c, w.sessions[c])
    case Message(c, channel) =>
      if c in w.sessions && w.sessions[c].phase == Reading then
        var s := w.sessions[c];
        World(AfterSubscribe(w.hub, channel, c),
              w.sessions[c := s.(phase := Tracking(channel), wanted := s.wanted + {channel})])
      else w
    case Close(c) =>
      if c in w.sessions && w.sessions[c].phase == Reading then
        World(AfterUnregister(w.hub, c, w.sessions[c].user), w.sessions[c := w.sessions[c].(phase := Closed)])
      else w
  }

  function AdvanceSession(w: World, c: Conn, s: Session): World {
    match s.phase
    case Copying =>
      w.(sessions := w.sessions[c := s.(phase := Restoring(Tracked(w.hub, s.user)), copied := Tracked(w.hub, s.user))])
    case Restoring(todo) =>
      if todo == [] then w.(sessions := w.sessions[c := s.(phase := Reading)])
      else World(AfterSubscribe(w.hub, todo[0], c),
                 w.sessions[c := s.(phase := Restoring(todo[1..]), wanted := s.wanted + {todo[0]})])
    case Tracking(channel) =>
      World(AfterTrack(w.hub, s.user, channel), w.sessions[c := s.(phase := Reading)])
    case _ => w
  }

  function Run(w: World, actions: seq<Action>): World {
    if actions == [] then w else Step(Run(w, actions[..|actions| - 1]), actions[|actions| - 1])
  }

  const START := World(EMPTY, map[])

  predicate Live(w: World, c: Conn) {
    c in w.sessions && w.sessions[c].phase != Closed
  }

  // ---------------------------------------------------------------- subscriptions

  ghost predicate Exact(w: World, c: Conn, channel: string) {
    && (c in w.hub.clients <==> Live(w, c))
    && (c in Subscribers(w.hub, channel) <==> Live(w, c) && channel in w.sessions[c].wanted)
  }

  lemma StepExact(w: World, a: Action, c: Conn, channel: string)
    requires Exact(w, c, channel)
    ensures Exact(Step(w, a), c, channel)
  {
    hide Tracked, AfterTrack;
    if a.Advance? && a.c in w.sessions {
      var s := w.sessions[a.c];
      TrackOnly(w.hub, s.user, if s.phase.Tracking? then s.phase.channel else "");
    }
  }

  lemma TrackOnly(h: Hub, user: string, channel: string)
    ensures AfterTrack(h, user, channel).clients == h.clients && AfterTrack(h, user, channel).gameSub == h.gameSub
  {
  }

  /** However the steps of the sessions interleave, the subscribers of a channel are exactly the connections
      that are registered and have subscribed to it; so they are all registered clients. */
  lemma SubscribersAreLive(actions: seq<Action>, c: Conn, channel: string)
    ensures Exact(Run(START, actions), c, channel)
    ensures Subscribers(Run(START, actions).hub, channel) <= Run(START, actions).hub.clients
  {
    ExactRun(actions, c, channel);
    var hub := Run(START, actions).hub;
    forall d: Conn | d in Subscribers(hub, channel) ensures d in hub.clients {
      ExactRun(actions, d, channel);
    }
  }

  lemma {:induction false} ExactRun(actions: seq<Action>, c: Conn, channel: string)
    ensures Exact(Run(START, actions), c, channel)
    decreases |actions|
  {
    if actions != [] {
      ExactRun(actions[..|actions| - 1], c, channel);
      hide Exact, Step;
      StepExact(Run(START, actions[..|actions| - 1]), actions[|actions| - 1], c, channel);
    }
  }

  // ---------------------------------------------------------------- tracking

  lemma TrackMore(h: Hub, u: string, channel: string, user: string)
    ensures var before, after := Tracked(h, user), Tracked(AfterTrack(h, u, channel), user);
            before <= after && (Distinct(before) ==> Distinct(after))
    ensures channel in Tracked(AfterTrack(h, u, channel), u)
  {
  }

  lemma StepTracks(w: World, a: Action, user: string)
    ensures Tracked(w.hub, user) <= Tracked(Step(w, a).hub, user)
    ensures Distinct(Tracked(w.hub, user)) ==> Distinct(Tracked(Step(w, a).hub, user))
  {
    if a.Advance? && a.c in w.sessions && w.sessions[a.c].phase.Tracking? {
      TrackMore(w.hub, w.sessions[a.c].user, w.sessions[a.c].phase.channel, user);
      hide AfterTrack, Tracked, Distinct;
    } else {
      hide Distinct, AfterTrack;
    }
  }

  lemma {:induction false} TracksGrow(w: World, actions: seq<Action>, user: string)
    ensures Tracked(w.hub, user) <= Tracked(Run(w, actions).hub, user)
    ensures Distinct(Tracked(w.hub, user)) ==> Distinct(Tracked(Run(w, actions).hub, user))
    decreases |actions|
  {
    if actions != [] {
      TracksGrow(w, actions[..|actions| - 1], user);
      hide Step, Tracked, Distinct;
      StepTracks(Run(w, actions[..|actions| - 1]), actions[|actions| - 1], user);
    }
  }

  /** The tracked channels of a user have no repetitions, and only grow at the end. */
  lemma TrackedOnlyGrows(before: seq<Action>, after: seq<Action>, user: string)
    ensures Distinct(Tracked(Run(START, before).hub, user))
    ensures Tracked(Run(START, before).hub, user) <= Tracked(Run(Run(START, before), after).hub, user)
  {
    TracksGrow(START, before, user);
    TracksGrow(Run(START, before), after, user);
    hide Run;
  }

  // ---------------------------------------------------------------- restoring

  /** The session has subscribed to the channels that it copied, as far as it has got. */
  ghost predicate Restored(s: Session) {
    match s.phase
    case Copying => true
    case Restoring(todo) =>
      && |todo| <= |s.copied| && s.copied[|s.copied| - |todo|..] == todo
      && forall i :: 0 <= i < |s.copied| - |todo| ==> s.copied[i] in s.wanted
    case _ => forall i :: 0 <= i < |s.copied| ==> s.copied[i] in s.wanted
  }

  lemma StepRestores(w: World, a: Action, c: Conn)
    requires c in w.sessions && Restored(w.sessions[c])
    ensures var w' := Step(w, a);
            && c in w'.sessions && Restored(w'.sessions[c]) && w'.sessions[c].user == w.sessions[c].user
            && (w.sessions[c].phase != Copying
                ==> w'.sessions[c].phase != Copying && w'.sessions[c].copied == w.sessions[c].copied)
  {
    hide AfterTrack, AfterSubscribe, AfterRegister, AfterUnregister, Tracked;
    if a == Advance(c) && w.sessions[c].phase.Restoring? && w.sessions[c].phase.todo != [] {
      OneRestored(w.sessions[c]);
    }
  }

  lemma OneRestored(s: Session)
    requires s.phase.Restoring? && s.phase.todo != [] && Restored(s)
    ensures Restored(s.(phase := Restoring(s.phase.todo[1..]), wanted := s.wanted + {s.phase.todo[0]}))
  {
    var todo := s.phase.todo;
    var done := |s.copied| - |todo|;
    assert s.copied[done] == todo[0];
    assert s.copied[done + 1..] == todo[1..];
  }

  lemma {:induction false} RunRestores(w: World, actions: seq<Action>, c: Conn)
    requires c in w.sessions && Restored(w.sessions[c]) && w.sessions[c].phase != Copying
    ensures var w' := Run(w, actions);
            && c in w'.sessions && Restored(w'.sessions[c])
            && w'.sessions[c].phase != Copying && w'.sessions[c].copied == w.sessions[c].copied
    decreases |actions|
  {
    if actions != [] {
      RunRestores(w, actions[..|actions| - 1], c);
      hide Step, Restored;
      StepRestores(Run(w, actions[..|actions| - 1]), actions[|actions| - 1], c);
    }
  }

  /** A session that has come to reading messages is subscribed to every channel that was tracked for its
      user when it began to restore, whatever other sessions did in between. */
  lemma RestoredEverything(before: seq<Action>, after: seq<Action>, c: Conn, channel: string)
    requires var w := Run(START, before);
             c in w.sessions && w.sessions[c].phase == Copying && channel in Tracked(w.hub, w.sessions[c].user)
    requires var w' := Run(START, before + [Advance(c)] + after);
             c in w'.sessions && (w'.sessions[c].phase.Reading? || w'.sessions[c].phase.Tracking?)
    ensures c in Subscribers(Run(START, before + [Advance(c)] + after).hub, channel)
  {
    var w := Run(START, before);
    var copied := Step(w, Advance(c));
    var actions := before + [Advance(c)] + after;
    RunSplit(START, before + [Advance(c)], after);
    RunOneMore(START, before, Advance(c));
    RunRestores(copied, after, c);
    ExactRun(actions, c, channel);
    hide Run;
    assert copied.sessions[c].copied == Tracked(w.hub, w.sessions[c].user);
    assert Run(START, actions).sessions[c].copied == copied.sessions[c].copied;
  }

  lemma RunOneMore(w: World, actions: seq<Action>, a: Action)
    ensures Run(w, actions + [a]) == Step(Run(w, actions), a)
  {
    hide Step;
    assert (actions + [a])[..|actions|] == actions;
  }

  lemma {:induction false} RunSplit(w: World, xs: seq<Action>, ys: seq<Action>)
    ensures Run(w, xs + ys) == Run(Run(w, xs), ys)
    decreases |ys|
  {
    hide Step;
    if ys == [] {
      assert xs + ys == xs;
    } else {
      assert (xs + ys)[..|xs + ys| - 1] == xs + ys[..|ys| - 1];
      RunSplit(w, xs, ys[..|ys| - 1]);
    }
  }

  /** What a session has subscribed to is tracked for its user, or about to be. */
  ghost predicate Remembered(w: World, c: Conn, channel: string) {
    c in w.sessions ==>
      var s := w.sessions[c];
      var tracked := Tracked(w.hub, s.user);
      && (channel in s.wanted ==> channel in tracked || s.phase == Tracking(channel))
      && (s.phase.Restoring? && channel in s.phase.todo ==> channel in tracked)
      && (s.phase.Copying? ==> channel !in s.wanted)
  }

  lemma StepRemembers(w: World, a: Action, c: Conn, channel: string)
    requires Remembered(w, c, channel)
    ensures Remembered(Step(w, a), c, channel)
  {
    if c in w.sessions {
      StepTracks(w, a, w.sessions[c].user);
      if a == Advance(c) && w.sessions[c].phase.Tracking? {
        TrackMore(w.hub, w.sessions[c].user, w.sessions[c].phase.channel, w.sessions[c].user);
      }
      hide AfterTrack, AfterSubscribe, AfterRegister, AfterUnregister;
      assert a == Advance(c) && w.sessions[c].phase.Restoring? && w.sessions[c].phase.todo != [] ==>
          w.sessions[c].phase.todo[0] in w.sessions[c].phase.todo;
    }
  }

  /** A session left alone in n steps of its own. */
  function Alone(w: World, c: Conn, n: nat): World {
    if n == 0 then w else Step(Alone(w, c, n - 1), Advance(c))
  }

  lemma {:induction false} AloneFirst(w: World, c: Conn, n: nat)
    requires n > 0
    ensures Alone(w, c, n) == Alone(Step(w, Advance(c)), c, n - 1)
  {
    if n > 1 { AloneFirst(w, c, n - 1); }
    hide Step;
  }

  lemma {:induction false} RestoringEnds(w: World, c: Conn)
    requires c in w.sessions && w.sessions[c].phase.Restoring?
    ensures var todo := w.sessions[c].phase.todo;
            var w' := Alone(w, c, |todo| + 1);
            c in w'.sessions && w'.sessions[c].phase == Reading
    decreases |w.sessions[c].phase.todo|
  {
    var todo := w.sessions[c].phase.todo;
    AloneFirst(w, c, |todo| + 1);
    if todo != [] {
      RestoringEnds(Step(w, Advance(c)), c);
    }
    hide AfterSubscribe, Alone;
  }

  /** A new session comes to reading messages: one step to copy, one for each tracked channel, and one to begin. */
  lemma RestoreEnds(w: World, c: Conn)
    requires c in w.sessions && w.sessions[c].phase == Copying
    ensures var w' := Alone(w, c, |Tracked(w.hub, w.sessions[c].user)| + 2);
            c in w'.sessions && w'.sessions[c].phase == Reading
  {
    AloneFirst(w, c, |Tracked(w.hub, w.sessions[c].user)| + 2);
    RestoringEnds(Step(w, Advance(c)), c);
    hide Alone;
  }

  /** So the next session of the same user will find it: what a session that is reading has subscribed to is
      tracked for its user. */
  lemma {:induction false} SubscriptionsAreRemembered(actions: seq<Action>, c: Conn, channel: string)
    ensures Remembered(Run(START, actions), c, channel)
    decreases |actions|
  {
    if actions != [] {
      SubscriptionsAreRemembered(actions[..|actions| - 1], c, channel);
      hide Remembered, Step;
      StepRemembers(Run(START, actions[..|actions| - 1]), actions[|actions| - 1], c, channel);
    }
  }

  // ---------------------------------------------------------------- the current connection

  ghost predicate EntryIsLive(w: World, user: string) {
    user in w.hub.userConn ==> Live(w, w.hub.userConn[user]) && w.sessions[w.hub.userConn[user]].user == user
  }

  lemma StepEntry(w: World, a: Action, user: string)
    requires EntryIsLive(w, user)
    ensures EntryIsLive(Step(w, a), user)
  {
    hide Tracked, Subscribers;
  }

  /** The connection recorded for a user is a live one of that user. */
  lemma {:induction false} RecordedConnectionIsLive(actions: seq<Action>, user: string)
    ensures EntryIsLive(Run(START, actions), user)
    decreases |actions|
  {
    if actions != [] {
      RecordedConnectionIsLive(actions[..|actions| - 1], user);
      hide EntryIsLive, Step;
      StepEntry(Run(START, actions[..|actions| - 1]), actions[|actions| - 1], user);
    }
  }

  /** The action opens a new connection of the user. */
  predicate Opens(w: World, a: Action, user: string) {
    a.Open? && a.user == user && a.c !in w.sessions
  }

  /** The action ends a session of the user. */
  predicate Closes(w: World, a: Action, user: string) {
    a.Close? && a.c in w.sessions && w.sessions[a.c].user == user && w.sessions[a.c].phase == Reading
  }

  /** Among the opens and closes of the user's connections, the last was an open. */
  predicate LastWasOpen(actions: seq<Action>, user: string) {
    if actions == [] then false
    else
      var init, a := actions[..|actions| - 1], actions[|actions| - 1];
      Opens(Run(START, init), a, user) || (LastWasOpen(init, user) && !Closes(Run(START, init), a, user))
  }

  lemma EntryStep(w: World, a: Action, user: string)
    ensures user in Step(w, a).hub.userConn <==> Opens(w, a, user) || (user in w.hub.userConn && !Closes(w, a, user))
    ensures Opens(w, a, user) ==> Step(w, a).hub.userConn[user] == a.c
  {
    hide Tracked, Subscribers;
  }

  /** A user has a current connection if and only if the last open or close of any of the user's connections
      was an open: closing an older connection forgets a newer one that lives on. */
  lemma {:induction false} EntryIff(actions: seq<Action>, user: string)
    ensures user in Run(START, actions).hub.userConn <==> LastWasOpen(actions, user)
    decreases |actions|
  {
    hide Step, Opens, Closes;
    if actions != [] {
      EntryIff(actions[..|actions| - 1], user);
      EntryStep(Run(START, actions[..|actions| - 1]), actions[|actions| - 1], user);
    }
  }

  /** For instance, while another connection of the user is live. */
  lemma OlderConnectionTakesEntryAlong(w: World, c: Conn, d: Conn)
    requires c != d && Live(w, c) && Live(w, d) && w.sessions[c].user == w.sessions[d].user
    requires w.sessions[c].phase == Reading
    ensures var w' := Step(w, Close(c)); Live(w', d) && w.sessions[d].user !in w'.hub.userConn
  {
  }
}
