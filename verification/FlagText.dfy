/** The strings that identify flags: the format in internal/service/flag_service.go and the
    first-blood key in internal/engine/scoring.go.  Integers are written as %d writes them. */
module FlagText {

  function Digit(d: nat): char
    requires d < 10
  {
    '0' + d as char
  }

  function Decimal(n: nat): string {
    if n < 10 then [Digit(n)] else Decimal(n / 10) + [Digit(n % 10)]
  }

  function Integer(n: int): string {
    if n < 0 then "-" + Decimal(-n) else Decimal(n)
  }

  /** A number, an underscore and what follows. */
  function Field(n: int, rest: string): string {
    Integer(n) + ['_'] + rest
  }

  /** flag{game_round_team_challenge_random} */
  function GeneratedFlag(game: int, round: int, team: int, challenge: int, random: string): string {
    "flag{" + Field(game, Field(round, Field(team, Field(challenge, random + "}"))))
  }

  /** game<id>_target<id>_flag<hash> */
  function FirstBloodKey(game: int, target: int, hash: string): string {
    "game" + Field(game, "target" + Field(target, "flag" + hash))
  }

  predicate NumberChar(c: char) {
    c == '-' || '0' <= c <= '9'
  }

  lemma {:induction false} DecimalChars(n: nat)
    ensures Decimal(n) != [] && forall c :: c in Decimal(n) ==> '0' <= c <= '9'
  {
    if n >= 10 { DecimalChars(n / 10); }
  }

  lemma IntegerChars(n: int)
    ensures Integer(n) != [] && forall c :: c in Integer(n) ==> NumberChar(c)
  {
    DecimalChars(if n < 0 then -n else n);
  }

  lemma {:induction false} DecimalInjective(m: nat, n: nat)
    requires Decimal(m) == Decimal(n)
    ensures m == n
    decreases m
  {
    var s, t := Decimal(m), Decimal(n);
    assert s[|s| - 1] == Digit(m % 10) && t[|t| - 1] == Digit(n % 10);
    DecimalLength(m);
    DecimalLength(n);
    if m >= 10 {
      assert s[..|s| - 1] == Decimal(m / 10) && t[..|t| - 1] == Decimal(n / 10);
      DecimalInjective(m / 10, n / 10);
    }
  }

  lemma {:induction false} DecimalLength(n: nat)
    ensures |Decimal(n)| >= 1 && (|Decimal(n)| == 1 <==> n < 10)
  {
    if n >= 10 { DecimalLength(n / 10); }
  }

  lemma Sign(n: int)
    ensures Integer(n) != [] && (Integer(n)[0] == '-' <==> n < 0)
  {
    if n >= 0 {
      DecimalChars(n);
      assert Decimal(n)[0] in Decimal(n);
    }
  }

  lemma IntegerInjective(m: int, n: int)
    requires Integer(m) == Integer(n)
    ensures m == n
  {
    Sign(m);
    Sign(n);
    if m < 0 {
      assert Integer(m)[1..] == Decimal(-m) && Integer(n)[1..] == Decimal(-n);
      DecimalInjective(-m, -n);
    } else {
      DecimalInjective(m, n);
    }
  }

  /** Two strings that agree up to their first separator agree before and after it. */
  lemma SplitAtFirst(a: string, x: string, b: string, y: string, sep: char)
    requires sep !in a && sep !in b
    requires a + [sep] + x == b + [sep] + y
    ensures a == b && x == y
  {
    var s, t := a + [sep] + x, b + [sep] + y;
    assert s[|a|] == sep && t[|b|] == sep;
    assert forall i :: 0 <= i < |a| ==> s[i] == a[i] && a[i] in a;
    assert forall i :: 0 <= i < |b| ==> t[i] == b[i] && b[i] in b;
    assert |a| == |b|;
    assert s[..|a|] == a && t[..|b|] == b;
    assert s[|a| + 1..] == x && t[|b| + 1..] == y;
  }

  lemma FieldInjective(m: int, x: string, n: int, y: string)
    requires Field(m, x) == Field(n, y)
    ensures m == n && x == y
  {
    IntegerChars(m);
    IntegerChars(n);
    SplitAtFirst(Integer(m), x, Integer(n), y, '_');
    IntegerInjective(m, n);
  }

  lemma SamePrefix(p: string, x: string, y: string)
    requires p + x == p + y
    ensures x == y
  {
    assert (p + x)[|p|..] == x && (p + y)[|p|..] == y;
  }

  lemma SameSuffix(x: string, y: string, s: string)
    requires x + s == y + s
    ensures x == y
  {
    assert |x| == |y|;
    assert (x + s)[..|x|] == x && (y + s)[..|y|] == y;
  }

  /** Flags of different games, rounds, teams or challenges differ even if the random parts coincide. */
  lemma FlagsDiffer(g: int, r: int, t: int, c: int, x: string, g': int, r': int, t': int, c': int, x': string)
    requires GeneratedFlag(g, r, t, c, x) == GeneratedFlag(g', r', t', c', x')
    ensures g == g' && r == r' && t == t' && c == c' && x == x'
  {
    var a4, b4 := x + "}", x' + "}";
    var a3, b3 := Field(c, a4), Field(c', b4);
    var a2, b2 := Field(t, a3), Field(t', b3);
    var a1, b1 := Field(r, a2), Field(r', b2);
    hide Field;
    SamePrefix("flag{", Field(g, a1), Field(g', b1));
    FieldInjective(g, a1, g', b1);
    FieldInjective(r, a2, r', b2);
    FieldInjective(t, a3, t', b3);
    FieldInjective(c, a4, c', b4);
    SameSuffix(x, x', "}");
  }

  /** The first-blood key tells apart any two flags of any two targets. */
  lemma KeysDiffer(g: int, t: int, h: string, g': int, t': int, h': string)
    requires FirstBloodKey(g, t, h) == FirstBloodKey(g', t', h')
    ensures g == g' && t == t' && h == h'
  {
    var a2, b2 := "flag" + h, "flag" + h';
    var a1, b1 := "target" + Field(t, a2), "target" + Field(t', b2);
    hide Field;
    SamePrefix("game", Field(g, a1), Field(g', b1));
    FieldInjective(g, a1, g', b1);
    SamePrefix("target", Field(t, a2), Field(t', b2));
    FieldInjective(t, a2, t', b2);
    SamePrefix("flag", h, h');
  }
}
