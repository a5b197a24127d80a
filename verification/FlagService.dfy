/** internal/service/flag_service.go: GenerateFlags and SubmitFlag.  Another row with the same game, round,
    attacker and hash makes the database refuse an insert. */
module FlagService {
  import opened FlagText
  import opened Options
  import opened Tables

  datatype Answer = Answer(correct: bool, points: real) | StoreFailed

  const BASE_ATTACK_POINTS := 10.0

  /** One call: who submits what, and whether the lookup and the insert get through to the database. */
  datatype Call = Call(key: Key, lookupWorks: bool, insertWorks: bool)

  /** The first record of a flag, if the lookup finds one. */
  function Lookup(flags: seq<FlagRecord>, c: Call): Option<FlagRecord> {
    if flags == [] || !c.lookupWorks then None
    else if flags[0].game == c.key.game && flags[0].round == c.key.round && flags[0].hash == c.key.hash then
      Some(flags[0])
    else Lookup(flags[1..], c)
  }

  predicate Taken(rows: seq<Submission>, key: Key) {
    exists i :: 0 <= i < |rows| && rows[i].key == key
  }

  function Weight(weights: map<int, real>, game: int): real {
    if game in weights then weights[game] else 0.0
  }

  class FlagService {
    const db: Database

    constructor (db: Database)
      ensures this.db == db
    {
      this.db := db;
    }

    /** The inner loop of GenerateFlags; a row that the database refuses is passed over. */
    method GenerateForTeam(b: Batch, team: int, challenges: seq<int>) returns (ofTeam: Option<map<int, string>>)
      modifies db`flags
      ensures db.flags == old(db.flags) + Made(b, OfTeam(team, challenges))
      ensures ofTeam == if AllDrawn(b, OfTeam(team, challenges)) then Some(TeamValues(b, team, challenges)) else None
    {
      hide GeneratedFlag, Made, AllDrawn, OfTeam, TeamValues;
      var values := map[];
      NothingLeft(b, team, challenges);
      for j := 0 to |challenges|
        invariant db.flags + Made(b, OfTeam(team, challenges[j..]))
                  == old(db.flags) + Made(b, OfTeam(team, challenges))
        invariant AllDrawn(b, OfTeam(team, challenges)) <==> AllDrawn(b, OfTeam(team, challenges[j..]))
        invariant values == TeamValues(b, team, challenges[..j])
      {
        TeamStep(b, team, challenges, j);
        ghost var row, next := RowFor(b, Slot(team, challenges[j])), Made(b, OfTeam(team, challenges[j + 1..]));
        assert db.flags + (row + next) == db.flags + row + next;
        var ch := challenges[j];
        var random := b.random(team, ch);
        if random == None {
          return None;
        }
        var flag := GeneratedFlag(b.game, b.round, team, ch, random.value);
        if b.stored(team, ch) {
          db.flags := db.flags + [FlagRecord(b.game, b.round, team, b.hash(flag))];
        } else {
          assert db.flags + [] == db.flags;
        }
        values := values[ch := flag];
      }
      ofTeam := Some(values);
    }

    /** The outer loop of GenerateFlags. */
    method GenerateForTeams(b: Batch, teams: seq<int>, challenges: seq<int>)
      returns (values: Option<map<int, map<int, string>>>)
      modifies db`flags
      ensures db.flags == old(db.flags) + Made(b, Slots(teams, challenges))
      ensures values == if AllDrawn(b, Slots(teams, challenges)) then Some(GeneratedValues(b, teams, challenges))
                        else None
    {
      hide Made, AllDrawn, OfTeam, TeamValues, Slots, GeneratedValues;
      var found := map[];
      NoTeamLeft(b, teams, challenges);
      ghost var goal := db.flags + Made(b, Slots(teams, challenges));
      for i := 0 to |teams|
        invariant db.flags + Made(b, Slots(teams[i..], challenges)) == goal
        invariant AllDrawn(b, Slots(teams, challenges)) <==> AllDrawn(b, Slots(teams[i..], challenges))
        invariant found == GeneratedValues(b, teams[..i], challenges)
      {
        SlotsStep(b, teams, challenges, i);
        ghost var before, rows := db.flags, Made(b, OfTeam(teams[i], challenges));
        ghost var next := Made(b, Slots(teams[i + 1..], challenges));
        assert before + (rows + next) == before + rows + next;
        var ofTeam := GenerateForTeam(b, teams[i], challenges);
        if ofTeam == None {
          return None;
        }
        found := found[teams[i] := ofTeam.value];
      }
      values := Some(found);
    }

    /** One flag for every team and challenge.  Without random bytes it gives up, and the rows stored so far
        stay. */
    method GenerateFlags(b: Batch, teams: seq<int>, challenges: seq<int>)
      returns (values: Option<map<int, map<int, string>>>)
      modifies db`flags
      ensures db.flags == old(db.flags) + if b.loads then Made(b, Slots(teams, challenges)) else []
      ensures values == if b.loads && AllDrawn(b, Slots(teams, challenges)) then
                          Some(GeneratedValues(b, teams, challenges))
                        else None
    {
      if !b.loads {
        return None;
      }
      values := GenerateForTeams(b, teams, challenges);
    }

    /** True when the database takes the row. */
    method Insert(row: Submission, works: bool) returns (ok: bool)
      modifies db`submissions
      ensures ok == (works && !Taken(old(db.submissions), row.key))
      ensures db.submissions == old(db.submissions) + if ok then [row] else []
    {
      ok := works && !Taken(db.submissions, row.key);
      if ok {
        db.submissions := db.submissions + [row];
      }
    }

    method SubmitFlag(c: Call) returns (answer: Answer)
      modifies db`submissions
      ensures answer == Reply(db.weights, db.flags, old(db.submissions), c)
      ensures db.submissions == old(db.submissions) + NewRows(db.weights, db.flags, old(db.submissions), c)
    {
      var record := None;
      if c.lookupWorks {
        var i := 0;
        while i < |db.flags| && record == None
          invariant i <= |db.flags|
          invariant Lookup(db.flags, c) == if record == None then Lookup(db.flags[i..], c) else record
        {
          var flag := db.flags[i];
          if flag.game == c.key.game && flag.round == c.key.round && flag.hash == c.key.hash {
            record := Some(flag);
          }
          i := i + 1;
        }
      }
      if record == None {
        var inserted := Insert(Submission(c.key, 0, false, 0.0), c.insertWorks);
        return Answer(false, 0.0);
      }
      if record.value.team == c.key.attacker {
        return Answer(false, 0.0);
      }
      var points := BASE_ATTACK_POINTS * Weight(db.weights, c.key.game);
      var ok := Insert(Submission(c.key, record.value.team, true, points), c.insertWorks);
      if !ok {
        answer := if c.insertWorks then Answer(true, 0.0) else StoreFailed;
      } else {
        answer := Answer(true, points);
      }
    }
  }

  // ---------------------------------------------------------------- generated flags

  /** One call of GenerateFlags: whether the game, its challenges and its teams can be read, the random part of
      each flag unless the generator fails, and whether the database takes the row. */
  datatype Batch = Batch(
    game: int,
    round: int,
    loads: bool,
    random: (int, int) -> Option<string>,
    stored: (int, int) -> bool,
    hash: string -> string)

  datatype Slot = Slot(team: int, challenge: int)

  function OfTeam(team: int, challenges: seq<int>): seq<Slot> {
    if challenges == [] then [] else [Slot(team, challenges[0])] + OfTeam(team, challenges[1..])
  }

  /** The slots in the order in which their flags are made. */
  function Slots(teams: seq<int>, challenges: seq<int>): seq<Slot> {
    if teams == [] then [] else OfTeam(teams[0], challenges) + Slots(teams[1..], challenges)
  }

  predicate AllDrawn(b: Batch, slots: seq<Slot>) {
    forall i :: 0 <= i < |slots| ==> b.random(slots[i].team, slots[i].challenge).Some?
  }

  function FlagOf(b: Batch, team: int, challenge: int): string {
    var drawn := b.random(team, challenge);
    GeneratedFlag(b.game, b.round, team, challenge, if drawn.Some? then drawn.value else "")
  }

  function RowOf(b: Batch, s: Slot): FlagRecord {
    FlagRecord(b.game, b.round, s.team, b.hash(FlagOf(b, s.team, s.challenge)))
  }

  /** The row made for a slot, if the database takes it. */
  function RowFor(b: Batch, s: Slot): seq<FlagRecord> {
    if b.stored(s.team, s.challenge) then [RowOf(b, s)] else []
  }

  /** The rows made for some slots, up to the first one for which there are no random bytes. */
  function Made(b: Batch, slots: seq<Slot>): seq<FlagRecord> {
    if slots == [] || b.random(slots[0].team, slots[0].challenge) == None then []
    else RowFor(b, slots[0]) + Made(b, slots[1..])
  }

  function TeamValues(b: Batch, team: int, challenges: seq<int>): map<int, string> {
    if challenges == [] then map[]
    else
      var ch := challenges[|challenges| - 1];
      TeamValues(b, team, challenges[..|challenges| - 1])[ch := FlagOf(b, team, ch)]
  }

  function GeneratedValues(b: Batch, teams: seq<int>, challenges: seq<int>): map<int, map<int, string>> {
    if teams == [] then map[]
    else
      var team := teams[|teams| - 1];
      GeneratedValues(b, teams[..|teams| - 1], challenges)[team := TeamValues(b, team, challenges)]
  }

  lemma MadeHead(b: Batch, slots: seq<Slot>)
    ensures slots == [] ==> AllDrawn(b, slots) && Made(b, slots) == []
    ensures slots != [] ==>
              var drawn := b.random(slots[0].team, slots[0].challenge).Some?;
              && (AllDrawn(b, slots) <==> drawn && AllDrawn(b, slots[1..]))
              && Made(b, slots) == if drawn then RowFor(b, slots[0]) + Made(b, slots[1..]) else []
  {
    if slots != [] {
      assert slots == [slots[0]] + slots[1..];
    }
  }

  lemma NothingLeft(b: Batch, team: int, challenges: seq<int>)
    ensures challenges[0..] == challenges[..|challenges|] == challenges
    ensures Made(b, OfTeam(team, challenges[|challenges|..])) == []
    ensures AllDrawn(b, OfTeam(team, challenges[|challenges|..]))
    ensures TeamValues(b, team, challenges[..0]) == map[]
  {
  }

  /** One turn of the inner loop. */
  lemma TeamStep(b: Batch, team: int, challenges: seq<int>, j: nat)
    requires j < |challenges|
    ensures var ch, rest, next := challenges[j], OfTeam(team, challenges[j..]), OfTeam(team, challenges[j + 1..]);
            && Made(b, rest) == (if b.random(team, ch) == None then []
                                 else RowFor(b, Slot(team, ch)) + Made(b, next))
            && (AllDrawn(b, rest) <==> b.random(team, ch).Some? && AllDrawn(b, next))
            && TeamValues(b, team, challenges[..j + 1])
               == TeamValues(b, team, challenges[..j])[ch := FlagOf(b, team, ch)]
  {
    hide FlagOf, RowFor, Made, AllDrawn;
    var rest := OfTeam(team, challenges[j..]);
    assert challenges[j..][1..] == challenges[j + 1..];
    assert rest[1..] == OfTeam(team, challenges[j + 1..]);
    assert challenges[..j + 1][..j] == challenges[..j];
    MadeHead(b, rest);
  }

  lemma NoTeamLeft(b: Batch, teams: seq<int>, challenges: seq<int>)
    ensures teams[0..] == teams[..|teams|] == teams
    ensures Made(b, Slots(teams[|teams|..], challenges)) == []
    ensures AllDrawn(b, Slots(teams[|teams|..], challenges))
    ensures GeneratedValues(b, teams[..0], challenges) == map[]
  {
  }

  /** Slots after a failure get no flag. */
  lemma {:induction false} MadeTogether(b: Batch, first: seq<Slot>, rest: seq<Slot>)
    ensures AllDrawn(b, first + rest) <==> AllDrawn(b, first) && AllDrawn(b, rest)
    ensures Made(b, first + rest) == Made(b, first) + if AllDrawn(b, first) then Made(b, rest) else []
  {
    hide RowFor, AllDrawn, Made;
    if first == [] {
      assert first + rest == rest;
      MadeHead(b, first);
    } else {
      var all := first + rest;
      assert all[1..] == first[1..] + rest;
      MadeTogether(b, first[1..], rest);
      MadeHead(b, first);
      MadeHead(b, all);
      var row, made := RowFor(b, first[0]), Made(b, first[1..]);
      assert row + (made + Made(b, rest)) == row + made + Made(b, rest);
      assert row + (made + []) == row + made + [];
    }
  }

  /** One turn of the outer loop. */
  lemma SlotsStep(b: Batch, teams: seq<int>, challenges: seq<int>, i: nat)
    requires i < |teams|
    ensures var ofTeam := OfTeam(teams[i], challenges);
            var rest, next := Slots(teams[i..], challenges), Slots(teams[i + 1..], challenges);
            && Made(b, rest) == (if AllDrawn(b, ofTeam) then Made(b, ofTeam) + Made(b, next) else Made(b, ofTeam))
            && (AllDrawn(b, rest) <==> AllDrawn(b, ofTeam) && AllDrawn(b, next))
            && GeneratedValues(b, teams[..i + 1], challenges)
               == GeneratedValues(b, teams[..i], challenges)[teams[i] := TeamValues(b, teams[i], challenges)]
  {
    hide Made, AllDrawn, TeamValues, OfTeam;
    assert teams[i..][1..] == teams[i + 1..];
    assert teams[..i + 1][..i] == teams[..i];
    MadeTogether(b, OfTeam(teams[i], challenges), Slots(teams[i + 1..], challenges));
  }

  predicate IsSlot(teams: seq<int>, challenges: seq<int>, s: Slot) {
    s.team in teams && s.challenge in challenges
  }

  lemma {:induction false} OfTeamHas(team: int, challenges: seq<int>, s: Slot)
    ensures s in OfTeam(team, challenges) <==> s.team == team && s.challenge in challenges
  {
    if challenges != [] {
      assert challenges == [challenges[0]] + challenges[1..];
      OfTeamHas(team, challenges[1..], s);
    }
  }

  lemma {:induction false} SlotsHas(teams: seq<int>, challenges: seq<int>, s: Slot)
    ensures s in Slots(teams, challenges) <==> IsSlot(teams, challenges, s)
  {
    if teams != [] {
      assert teams == [teams[0]] + teams[1..];
      OfTeamHas(teams[0], challenges, s);
      SlotsHas(teams[1..], challenges, s);
    }
  }

  lemma {:induction false} TeamValueOf(b: Batch, team: int, challenges: seq<int>, ch: int)
    requires ch in challenges
    ensures ch in TeamValues(b, team, challenges) && TeamValues(b, team, challenges)[ch] == FlagOf(b, team, ch)
    decreases |challenges|
  {
    var init, last := challenges[..|challenges| - 1], challenges[|challenges| - 1];
    assert challenges == init + [last];
    if ch != last {
      TeamValueOf(b, team, init, ch);
    }
  }

  lemma {:induction false} ValueOf(b: Batch, teams: seq<int>, challenges: seq<int>, s: Slot)
    requires IsSlot(teams, challenges, s)
    ensures var values := GeneratedValues(b, teams, challenges);
            s.team in values && s.challenge in values[s.team]
            && values[s.team][s.challenge] == FlagOf(b, s.team, s.challenge)
    decreases |teams|
  {
    var init, last := teams[..|teams| - 1], teams[|teams| - 1];
    assert teams == init + [last];
    TeamValueOf(b, s.team, challenges, s.challenge);
    hide FlagOf, TeamValues;
    if s.team != last {
      ValueOf(b, init, challenges, s);
    }
  }

  lemma {:induction false} RowsHave(b: Batch, slots: seq<Slot>, s: Slot)
    requires Collisionless(b.hash) && AllDrawn(b, slots)
    ensures RowOf(b, s) in Made(b, slots) <==> s in slots && b.stored(s.team, s.challenge)
  {
    if slots != [] {
      var first := slots[0];
      assert slots == [first] + slots[1..];
      MadeHead(b, slots);
      RowsHave(b, slots[1..], s);
      if RowOf(b, first) == RowOf(b, s) {
        var x, y := b.random(first.team, first.challenge), b.random(s.team, s.challenge);
        FlagsDiffer(b.game, b.round, first.team, first.challenge, if x.Some? then x.value else "",
                    b.game, b.round, s.team, s.challenge, if y.Some? then y.value else "");
      }
    }
    hide GeneratedFlag;
  }

  /** A call that succeeds hands out a flag for every team and challenge.  Whether its row was stored is not
      looked at: the flag can be found again if and only if the database took it. */
  lemma HandedOutIsStoredIff(b: Batch, teams: seq<int>, challenges: seq<int>, s: Slot)
    requires Collisionless(b.hash)
    requires IsSlot(teams, challenges, s) && AllDrawn(b, Slots(teams, challenges))
    ensures var values := GeneratedValues(b, teams, challenges);
            && s.team in values && s.challenge in values[s.team]
            && var row := FlagRecord(b.game, b.round, s.team, b.hash(values[s.team][s.challenge]));
               row in Made(b, Slots(teams, challenges)) <==> b.stored(s.team, s.challenge)
  {
    SlotsHas(teams, challenges, s);
    ValueOf(b, teams, challenges, s);
    RowsHave(b, Slots(teams, challenges), s);
    hide Slots, GeneratedValues, Made, FlagOf, AllDrawn, Collisionless;
  }

  /** The row holds the hash of a flag generated for its game, round and team. */
  ghost predicate Generated(row: FlagRecord, hash: string -> string) {
    exists ch: int, x: string :: row.hash == hash(GeneratedFlag(row.game, row.round, row.team, ch, x))
  }

  ghost predicate AllGenerated(rows: seq<FlagRecord>, hash: string -> string) {
    forall i :: 0 <= i < |rows| ==> Generated(rows[i], hash)
  }

  ghost predicate Collisionless(hash: string -> string) {
    forall x: string, y: string :: hash(x) == hash(y) ==> x == y
  }

  /** With a hash that has no collisions, whoever submits a generated flag in its game and round is matched
      with the team that the flag was made for, whatever else was generated. */
  lemma {:induction false} GeneratedFlagFindsItsTeam(flags: seq<FlagRecord>, hash: string -> string, c: Call,
                                                     team: int, ch: int, x: string)
    requires Collisionless(hash) && c.lookupWorks
    requires AllGenerated(flags, hash)
    requires c.key.hash == hash(GeneratedFlag(c.key.game, c.key.round, team, ch, x))
    ensures Lookup(flags, c) == if FlagRecord(c.key.game, c.key.round, team, c.key.hash) in flags
                                then Some(FlagRecord(c.key.game, c.key.round, team, c.key.hash)) else None
  {
    hide GeneratedFlag;
    if flags != [] {
      var row := flags[0];
      GeneratedFlagFindsItsTeam(flags[1..], hash, c, team, ch, x);
      if row.game == c.key.game && row.round == c.key.round && row.hash == c.key.hash {
        assert Generated(row, hash);
        var ch', x' :| row.hash == hash(GeneratedFlag(row.game, row.round, row.team, ch', x'));
        FlagsDiffer(row.game, row.round, row.team, ch', x', c.key.game, c.key.round, team, ch, x);
      }
      assert flags == [row] + flags[1..];
    }
  }

  /** GenerateFlags only ever stores such rows. */
  lemma {:induction false} RowsAreGenerated(b: Batch, slots: seq<Slot>)
    ensures AllGenerated(Made(b, slots), b.hash)
  {
    if slots != [] {
      RowsAreGenerated(b, slots[1..]);
      hide GeneratedFlag;
      assert Generated(RowOf(b, slots[0]), b.hash);
      hide Generated;
    }
  }

  // ---------------------------------------------------------------- one call, on values

  predicate Own(flags: seq<FlagRecord>, c: Call) {
    Lookup(flags, c).Some? && Lookup(flags, c).value.team == c.key.attacker
  }

  /** The row that a call tries to insert. */
  function Attempted(weights: map<int, real>, flags: seq<FlagRecord>, c: Call): Submission {
    match Lookup(flags, c)
    case None => Submission(c.key, 0, false, 0.0)
    case Some(flag) => Submission(c.key, flag.team, true, BASE_ATTACK_POINTS * Weight(weights, c.key.game))
  }

  function NewRows(weights: map<int, real>, flags: seq<FlagRecord>, rows: seq<Submission>, c: Call): seq<Submission> {
    if Own(flags, c) || !c.insertWorks || Taken(rows, c.key) then [] else [Attempted(weights, flags, c)]
  }

  function Reply(weights: map<int, real>, flags: seq<FlagRecord>, rows: seq<Submission>, c: Call): Answer {
    if Lookup(flags, c) == None || Own(flags, c) then Answer(false, 0.0)
    else if !c.insertWorks then StoreFailed
    else if Taken(rows, c.key) then Answer(true, 0.0)
    else Answer(true, Attempted(weights, flags, c).points)
  }

  /** The call adds a correct submission to the table. */
  ghost predicate Credited(weights: map<int, real>, flags: seq<FlagRecord>, rows: seq<Submission>, c: Call) {
    exists row :: NewRows(weights, flags, rows, c) == [row] && row.correct
  }

  /** In a table of generated flags a lookup comes to the same whichever record of the hash it finds. */
  lemma {:induction false} LookupIsRecord(flags: seq<FlagRecord>, hash: string -> string, c: Call, team: int)
    requires Collisionless(hash) && AllGenerated(flags, hash)
    ensures Lookup(flags, c) == Some(FlagRecord(c.key.game, c.key.round, team, c.key.hash))
            <==> c.lookupWorks && FlagRecord(c.key.game, c.key.round, team, c.key.hash) in flags
  {
    hide GeneratedFlag, Generated, AllGenerated, Collisionless;
    var record := FlagRecord(c.key.game, c.key.round, team, c.key.hash);
    if c.lookupWorks && record in flags {
      var ch, x := FlagBehind(flags, hash, record);
      GeneratedFlagFindsItsTeam(flags, hash, c, team, ch, x);
    } else {
      LookupFinds(flags, c);
      LookupNeedsDatabase(flags, c);
    }
  }

  lemma LookupNeedsDatabase(flags: seq<FlagRecord>, c: Call)
    ensures !c.lookupWorks ==> Lookup(flags, c) == None
  {
  }

  lemma FlagBehind(flags: seq<FlagRecord>, hash: string -> string, record: FlagRecord) returns (ch: int, x: string)
    requires AllGenerated(flags, hash) && record in flags
    ensures record.hash == hash(GeneratedFlag(record.game, record.round, record.team, ch, x))
  {
    hide GeneratedFlag;
    assert Generated(record, hash);
    ch, x :| record.hash == hash(GeneratedFlag(record.game, record.round, record.team, ch, x));
  }

  /** The flag submitted was made for another team in this game and round. */
  ghost predicate AnotherTeams(flags: seq<FlagRecord>, key: Key) {
    exists t: int :: t != key.attacker && FlagRecord(key.game, key.round, t, key.hash) in flags
  }

  /** The verdict, from the table of flags alone: correct if and only if lookup and database work and the flag is
      another team's; an error if and only if it is and the insert fails; otherwise wrong. */
  lemma AnswerSaysIff(weights: map<int, real>, flags: seq<FlagRecord>, hash: string -> string,
                      rows: seq<Submission>, c: Call)
    requires Collisionless(hash) && AllGenerated(flags, hash)
    ensures var answer := Reply(weights, flags, rows, c);
            && (answer.Answer? && answer.correct <==> c.lookupWorks && c.insertWorks && AnotherTeams(flags, c.key))
            && (answer.StoreFailed? <==> c.lookupWorks && !c.insertWorks && AnotherTeams(flags, c.key))
            && (answer.Answer? && !answer.correct ==> answer.points == 0.0)
  {
    hide AllGenerated, Collisionless, Taken, Weight;
    LookupFinds(flags, c);
    LookupNeedsDatabase(flags, c);
    if c.lookupWorks && AnotherTeams(flags, c.key) {
      var t :| t != c.key.attacker && FlagRecord(c.key.game, c.key.round, t, c.key.hash) in flags;
      LookupIsRecord(flags, hash, c, t);
    }
    hide Lookup;
  }

  // ---------------------------------------------------------------- runs

  /** A call and the tables that it reads, which other requests may change between calls.  A game without a row,
      or whose row cannot be read, has no weight. */
  datatype Visit = Visit(weights: map<int, real>, flags: seq<FlagRecord>, call: Call)

  /** The submissions after a run of calls. */
  function Rows(visits: seq<Visit>): seq<Submission> {
    if visits == [] then []
    else
      var rows, v := Rows(visits[..|visits| - 1]), visits[|visits| - 1];
      rows + NewRows(v.weights, v.flags, rows, v.call)
  }

  predicate OnePerKey(rows: seq<Submission>) {
    forall i, j :: 0 <= i < j < |rows| ==> rows[i].key != rows[j].key
  }

  /** The row stems from this call.  If it is correct, the flag was known at the call as another team's, and earns
      ten points times the weight of the game. */
  predicate Earned(v: Visit, row: Submission) {
    && row.key == v.call.key
    && if row.correct then
         && row.target != row.key.attacker
         && FlagRecord(row.key.game, row.key.round, row.target, row.key.hash) in v.flags
         && row.points == 10.0 * (if row.key.game in v.weights then v.weights[row.key.game] else 0.0)
       else row.target == 0 && row.points == 0.0
  }

  ghost predicate EarnedIn(visits: seq<Visit>, row: Submission) {
    exists k :: 0 <= k < |visits| && Earned(visits[k], row)
  }

  ghost predicate AllEarned(visits: seq<Visit>, rows: seq<Submission>) {
    forall i :: 0 <= i < |rows| ==> EarnedIn(visits, rows[i])
  }

  lemma {:induction false} LookupFinds(flags: seq<FlagRecord>, c: Call)
    ensures match Lookup(flags, c)
            case None => true
            case Some(flag) => flag in flags && flag == FlagRecord(c.key.game, c.key.round, flag.team, c.key.hash)
  {
    if flags != [] {
      LookupFinds(flags[1..], c);
    }
  }

  lemma NewRowEarned(rows: seq<Submission>, v: Visit)
    requires OnePerKey(rows)
    ensures var added := NewRows(v.weights, v.flags, rows, v.call);
            OnePerKey(rows + added) && |added| <= 1 && forall i :: 0 <= i < |added| ==> Earned(v, added[i])
  {
    LookupFinds(v.flags, v.call);
    hide Lookup;
  }

  lemma EarnedStays(visits: seq<Visit>, v: Visit, rows: seq<Submission>, added: seq<Submission>)
    requires AllEarned(visits, rows)
    requires forall i :: 0 <= i < |added| ==> Earned(v, added[i])
    ensures AllEarned(visits + [v], rows + added)
  {
    hide Earned;
    forall row: Submission ensures EarnedIn(visits, row) || Earned(v, row) ==> EarnedIn(visits + [v], row) {
      EarnedMore(visits, v, row);
    }
    hide EarnedIn;
  }

  lemma EarnedMore(visits: seq<Visit>, v: Visit, row: Submission)
    ensures EarnedIn(visits, row) || Earned(v, row) ==> EarnedIn(visits + [v], row)
  {
    hide Earned;
    var all := visits + [v];
    assert all[|visits|] == v;
    if k :| 0 <= k < |visits| && Earned(visits[k], row) {
      assert all[k] == visits[k];
    }
  }

  /** In any run, whatever fails and however the flags and weights change, a flag is credited at most once per
      game, round and attacker, and never to the one who owned it at the call. */
  lemma {:induction false} CreditedOnceAndNeverToOwner(visits: seq<Visit>)
    ensures OnePerKey(Rows(visits)) && AllEarned(visits, Rows(visits))
    decreases |visits|
  {
    if visits != [] {
      var init, v := visits[..|visits| - 1], visits[|visits| - 1];
      CreditedOnceAndNeverToOwner(init);
      NewRowEarned(Rows(init), v);
      EarnedStays(init, v, Rows(init), NewRows(v.weights, v.flags, Rows(init), v.call));
      assert init + [v] == visits;
      hide NewRows, OnePerKey, AllEarned;
    }
  }

  /** The points that a run announces to an attacker in a round. */
  function Announced(visits: seq<Visit>, game: int, round: int, attacker: int): real {
    if visits == [] then 0.0
    else
      var init, v := visits[..|visits| - 1], visits[|visits| - 1];
      Announced(init, game, round, attacker)
      + if By(v.call.key, game, round, attacker) then Points(Reply(v.weights, v.flags, Rows(init), v.call)) else 0.0
  }

  function Points(answer: Answer): real {
    match answer
    case Answer(_, points) => points
    case StoreFailed => 0.0
  }

  predicate By(key: Key, game: int, round: int, attacker: int) {
    key.game == game && key.round == round && key.attacker == attacker
  }

  /** The points of an attacker's correct rows of a round. */
  function Stored(rows: seq<Submission>, game: int, round: int, attacker: int): real {
    if rows == [] then 0.0
    else
      var last := rows[|rows| - 1];
      Stored(rows[..|rows| - 1], game, round, attacker)
      + if last.correct && By(last.key, game, round, attacker) then last.points else 0.0
  }

  lemma StoredMore(rows: seq<Submission>, row: Submission, game: int, round: int, attacker: int)
    ensures Stored(rows + [row], game, round, attacker)
            == Stored(rows, game, round, attacker)
               + if row.correct && By(row.key, game, round, attacker) then row.points else 0.0
  {
    assert (rows + [row])[..|rows|] == rows;
  }

  lemma PointsAreStored(v: Visit, rows: seq<Submission>, game: int, round: int, attacker: int)
    ensures Stored(rows + NewRows(v.weights, v.flags, rows, v.call), game, round, attacker)
            == Stored(rows, game, round, attacker)
               + if By(v.call.key, game, round, attacker) then Points(Reply(v.weights, v.flags, rows, v.call)) else 0.0
  {
    hide Stored, Lookup, Taken, Weight;
    if NewRows(v.weights, v.flags, rows, v.call) == [] {
      assert rows + [] == rows;
    } else {
      StoredMore(rows, Attempted(v.weights, v.flags, v.call), game, round, attacker);
    }
  }

  /** Every point announced is in the table, and no other. */
  lemma {:induction false} AnnouncedIsStored(visits: seq<Visit>, game: int, round: int, attacker: int)
    ensures Announced(visits, game, round, attacker) == Stored(Rows(visits), game, round, attacker)
    decreases |visits|
  {
    if visits == [] {
    } else {
      hide Stored, NewRows, Reply, Points, By;
      var init, v := visits[..|visits| - 1], visits[|visits| - 1];
      AnnouncedIsStored(init, game, round, attacker);
      PointsAreStored(v, Rows(init), game, round, attacker);
    }
  }

  /** The call gets as far as the insert with this key, and the database works. */
  predicate Tries(v: Visit, key: Key) {
    v.call.key == key && v.call.insertWorks && !Own(v.flags, v.call)
  }

  predicate TriedBefore(visits: seq<Visit>, key: Key) {
    exists i :: 0 <= i < |visits| && Tries(visits[i], key)
  }

  lemma {:induction false} TakenIff(visits: seq<Visit>, key: Key)
    ensures Taken(Rows(visits), key) <==> TriedBefore(visits, key)
    decreases |visits|
  {
    if visits != [] {
      var init, v := visits[..|visits| - 1], visits[|visits| - 1];
      var rows := Rows(init);
      TakenIff(init, key);
      var added := NewRows(v.weights, v.flags, rows, v.call);
      TakenMore(rows, added, key);
      TriedMore(init, v, key);
      assert init + [v] == visits;
      assert |added| == 1 ==> added[0].key == v.call.key;
      hide Rows, Lookup, Taken, TriedBefore, Own;
    }
  }

  lemma TakenMore(rows: seq<Submission>, added: seq<Submission>, key: Key)
    requires |added| <= 1
    ensures Taken(rows + added, key) <==> Taken(rows, key) || (added != [] && added[0].key == key)
  {
    if added != [] {
      assert (rows + added)[|rows|] == added[0];
    }
    if i :| 0 <= i < |rows| && rows[i].key == key {
      assert (rows + added)[i].key == key;
    }
  }

  lemma TriedMore(visits: seq<Visit>, v: Visit, key: Key)
    ensures TriedBefore(visits + [v], key) <==> TriedBefore(visits, key) || Tries(v, key)
  {
    hide Tries;
    var all := visits + [v];
    assert all[|visits|] == v;
    if i :| 0 <= i < |visits| && Tries(visits[i], key) {
      assert all[i] == visits[i];
    }
  }

  /** A call is credited exactly when it finds the flag, the flag is another team's, the insert works, and
      no earlier call got as far as the insert with the same key.  An earlier call counts even if its own
      lookup failed, or the flag was not yet known: the row that records the miss then keeps the right answer
      from being credited. */
  lemma CreditedIff(visits: seq<Visit>, v: Visit)
    ensures Credited(v.weights, v.flags, Rows(visits), v.call)
            <==> Lookup(v.flags, v.call).Some? && Tries(v, v.call.key) && !TriedBefore(visits, v.call.key)
  {
    TakenIff(visits, v.call.key);
    hide Rows, TriedBefore, Taken;
    var row := Attempted(v.weights, v.flags, v.call);
    assert row.correct <==> Lookup(v.flags, v.call).Some?;
    assert NewRows(v.weights, v.flags, Rows(visits), v.call) == []
           || NewRows(v.weights, v.flags, Rows(visits), v.call) == [row];
  }
}
