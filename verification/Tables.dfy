/** The database tables that flags and scores live in: internal/model/flag.go, score.go and team.go, in
    primary key order.  Hashes are opaque strings, scores and weights reals. */
module Tables {

  datatype FlagRecord = FlagRecord(game: int, round: int, team: int, hash: string)

  /** What the unique index idx_flag_dedup covers. */
  datatype Key = Key(game: int, round: int, attacker: int, hash: string)

  datatype Submission = Submission(key: Key, target: int, correct: bool, points: real)

  datatype RoundScore = RoundScore(game: int, round: int, team: int, attack: real, defense: real, total: real)

  /** Names a row of round scores. */
  datatype RowKey = RowKey(game: int, round: int, team: int)

  datatype Adjustment = Adjustment(game: int, team: int, value: int)

  /** DELETE WHERE game_id: the rows that are left. */
  function OfOthers<T>(xs: seq<T>, gameOf: T -> int, game: int): seq<T> {
    if xs == [] then []
    else
      var last := xs[|xs| - 1];
      OfOthers(xs[..|xs| - 1], gameOf, game) + if gameOf(last) == game then [] else [last]
  }

  /** `after` holds, in their order, exactly the elements of `before` that are not deleted: `at` says where they
      were. */
  ghost predicate KeptAt<T>(before: seq<T>, after: seq<T>, deleted: T -> bool, at: seq<nat>) {
    && |at| == |after|
    && (forall i, j :: 0 <= i < j < |at| ==> at[i] < at[j])
    && (forall i :: 0 <= i < |at| ==> at[i] < |before| && after[i] == before[at[i]])
    && forall k: nat :: k < |before| ==> (k in at <==> !deleted(before[k]))
  }

  ghost predicate Deleted<T(!new)>(before: seq<T>, after: seq<T>, deleted: T -> bool) {
    exists at :: KeptAt(before, after, deleted, at)
  }

  lemma KeptMore<T>(before: seq<T>, x: T, after: seq<T>, deleted: T -> bool, at: seq<nat>)
    requires KeptAt(before, after, deleted, at)
    ensures deleted(x) ==> KeptAt(before + [x], after, deleted, at)
    ensures !deleted(x) ==> KeptAt(before + [x], after + [x], deleted, at + [|before|])
  {
    var all, n := before + [x], |before|;
    assert forall k: nat :: k < n ==> all[k] == before[k];
    assert forall k :: k in at ==> k < n;
    assert forall k :: k in at + [n] <==> k in at || k == n;
  }

  lemma {:induction false} OthersAreKept<T>(xs: seq<T>, gameOf: T -> int, game: int, deleted: T -> bool)
      returns (at: seq<nat>)
    requires forall i :: 0 <= i < |xs| ==> (deleted(xs[i]) <==> gameOf(xs[i]) == game)
    ensures KeptAt(xs, OfOthers(xs, gameOf, game), deleted, at)
    decreases |xs|
  {
    hide KeptAt, OfOthers;
    if xs == [] {
      NothingKept(gameOf, game, deleted);
      at := [];
    } else {
      var init, x := xs[..|xs| - 1], xs[|xs| - 1];
      assert forall k :: 0 <= k < |init| ==> init[k] == xs[k];
      var before := OthersAreKept(init, gameOf, game, deleted);
      OfOthersMore(xs, gameOf, game);
      KeptMore(init, x, OfOthers(init, gameOf, game), deleted, before);
      assert xs == init + [x];
      at := if deleted(x) then before else before + [|init|];
    }
  }

  lemma NothingKept<T>(gameOf: T -> int, game: int, deleted: T -> bool)
    ensures KeptAt([], OfOthers([], gameOf, game), deleted, [])
  {
  }

  lemma OfOthersMore<T>(xs: seq<T>, gameOf: T -> int, game: int)
    requires xs != []
    ensures var before, x := OfOthers(xs[..|xs| - 1], gameOf, game), xs[|xs| - 1];
            OfOthers(xs, gameOf, game) == if gameOf(x) == game then before else before + [x]
  {
  }

  function GameOfFlag(f: FlagRecord): int { f.game }

  function GameOfSubmission(s: Submission): int { s.key.game }

  function GameOfRow(r: RoundScore): int { r.game }

  /** `weights` holds the attack weight of every game, `scores` the cached score of every team, `ranks` the rank
      column of the round scores. */
  class Database {
    var weights: map<int, real>
    var flags: seq<FlagRecord>
    var submissions: seq<Submission>
    var roundScores: seq<RoundScore>
    var adjustments: seq<Adjustment>
    var scores: map<int, real>
    var ranks: map<RowKey, int>

    constructor ()
      ensures weights == map[] && flags == [] && submissions == [] && roundScores == [] && adjustments == []
      ensures scores == map[] && ranks == map[]
    {
      weights, flags, submissions, roundScores, adjustments := map[], [], [], [], [];
      scores, ranks := map[], map[];
    }

    /** Adjustments and cached scores stay. */
    method DeleteGame(game: int)
      modifies `submissions, `roundScores, `flags
      ensures Deleted(old(submissions), submissions, (s: Submission) => s.key.game == game)
      ensures Deleted(old(roundScores), roundScores, (r: RoundScore) => r.game == game)
      ensures Deleted(old(flags), flags, (f: FlagRecord) => f.game == game)
      ensures roundScores == OfOthers(old(roundScores), GameOfRow, game)
    {
      ghost var atS := OthersAreKept(submissions, GameOfSubmission, game, (s: Submission) => s.key.game == game);
      ghost var atR := OthersAreKept(roundScores, GameOfRow, game, (r: RoundScore) => r.game == game);
      ghost var atF := OthersAreKept(flags, GameOfFlag, game, (f: FlagRecord) => f.game == game);
      submissions := OfOthers(submissions, GameOfSubmission, game);
      roundScores := OfOthers(roundScores, GameOfRow, game);
      flags := OfOthers(flags, GameOfFlag, game);
    }
  }
}
