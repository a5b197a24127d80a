/** The port list of a challenge: splitPorts, splitString and trimSpace in internal/container/manager.go. */
module PortList {
  import opened FlagText
  import opened Options

  // ---------------------------------------------------------------- splitString

  function Split(s: string, sep: char): (pieces: seq<string>)
    ensures pieces != []
  {
    if s == [] then [""]
    else
      var before, last := Split(s[..|s| - 1], sep), s[|s| - 1];
      if last == sep then before + [""]
      else before[..|before| - 1] + [before[|before| - 1] + [last]]
  }

  function Join(pieces: seq<string>, sep: char): string {
    if pieces == [] then ""
    else if |pieces| == 1 then pieces[0]
    else Join(pieces[..|pieces| - 1], sep) + [sep] + pieces[|pieces| - 1]
  }

  method SplitString(s: string, sep: char) returns (result: seq<string>)
    ensures result == Split(s, sep)
  {
    hide Split;
    result := [];
    var start := 0;
    SplitNothing(sep);
    for i := 0 to |s|
      invariant 0 <= start <= i
      invariant result + [s[start..i]] == Split(s[..i], sep)
    {
      SplitMore(result, s, start, i, sep);
      if s[i] == sep {
        result := result + [s[start..i]];
        start := i + 1;
      }
    }
    assert s[..|s|] == s && s[start..|s|] == s[start..];
    result := result + [s[start..]];
  }

  lemma SplitNothing(sep: char)
    ensures Split("", sep) == [""]
  {
  }

  lemma SplitMore(result: seq<string>, s: string, start: nat, i: nat, sep: char)
    requires start <= i < |s| && result + [s[start..i]] == Split(s[..i], sep)
    ensures Split(s[..i + 1], sep)
            == if s[i] == sep then result + [s[start..i]] + [s[i + 1..i + 1]] else result + [s[start..i + 1]]
  {
    var before := Split(s[..i], sep);
    assert s[..i + 1][..i] == s[..i];
    assert before[|before| - 1] == s[start..i] && before[..|before| - 1] == result;
    assert s[start..i] + [s[i]] == s[start..i + 1];
    assert s[i + 1..i + 1] == "";
  }

  ghost predicate Free(pieces: seq<string>, sep: char) {
    forall i :: 0 <= i < |pieces| ==> sep !in pieces[i]
  }

  lemma JoinMore(pieces: seq<string>, p: string, sep: char)
    requires pieces != []
    ensures Join(pieces + [p], sep) == Join(pieces, sep) + [sep] + p
  {
    assert (pieces + [p])[..|pieces|] == pieces;
  }

  /** The last piece grows by a character. */
  function Grown(pieces: seq<string>, c: char): seq<string>
    requires pieces != []
  {
    pieces[..|pieces| - 1] + [pieces[|pieces| - 1] + [c]]
  }

  lemma JoinGrown(pieces: seq<string>, c: char, sep: char)
    requires pieces != []
    ensures Join(Grown(pieces, c), sep) == Join(pieces, sep) + [c]
    ensures Free(pieces, sep) && c != sep ==> Free(Grown(pieces, c), sep)
  {
    hide Join;
    var n := |pieces| - 1;
    JoinLast(pieces[..n], pieces[n], [c], sep);
    assert pieces == pieces[..n] + [pieces[n]];
  }

  /** One character more. */
  lemma JoinNext(before: seq<string>, c: char, sep: char)
    requires before != [] && Free(before, sep)
    ensures var next := if c == sep then before + [""] else Grown(before, c);
            Free(next, sep) && Join(next, sep) == Join(before, sep) + [c]
  {
    hide Join, Grown;
    if c == sep {
      JoinMore(before, "", sep);
      NoMore(Join(before, sep) + [sep]);
    } else {
      JoinGrown(before, c, sep);
    }
  }

  /** The pieces hold no separator, and joined they are the input. */
  lemma {:induction false} JoinSplit(s: string, sep: char)
    ensures Free(Split(s, sep), sep) && Join(Split(s, sep), sep) == s
    decreases |s|
  {
    hide Join, Split, Grown, Free;
    if s == [] {
      SplitEmpty(sep);
    } else {
      var init, last := s[..|s| - 1], s[|s| - 1];
      JoinSplit(init, sep);
      SplitStep(s, sep);
      JoinNext(Split(init, sep), last, sep);
      assert init + [last] == s;
    }
  }

  lemma SplitEmpty(sep: char)
    ensures Free(Split("", sep), sep) && Join(Split("", sep), sep) == ""
  {
  }

  lemma NoMore(s: string)
    ensures s + "" == s
  {
  }

  lemma SplitStep(s: string, sep: char)
    requires s != []
    ensures var before, last := Split(s[..|s| - 1], sep), s[|s| - 1];
            Split(s, sep) == if last == sep then before + [""] else Grown(before, last)
  {
  }

  lemma JoinLast(pieces: seq<string>, p: string, more: string, sep: char)
    ensures Join(pieces + [p + more], sep) == Join(pieces + [p], sep) + more
  {
    assert (pieces + [p])[..|pieces|] == pieces && (pieces + [p + more])[..|pieces|] == pieces;
    if pieces != [] {
      assert Join(pieces, sep) + [sep] + (p + more) == Join(pieces, sep) + [sep] + p + more;
    }
  }

  /** No other list of pieces does that. */
  lemma {:induction false} SplitJoin(pieces: seq<string>, sep: char)
    requires pieces != [] && Free(pieces, sep)
    ensures Split(Join(pieces, sep), sep) == pieces
    decreases |pieces|
  {
    var init, last := pieces[..|pieces| - 1], pieces[|pieces| - 1];
    assert pieces == init + [last];
    if init == [] {
      SplitAppend("", last, sep);
      assert "" + last == last;
    } else {
      SplitJoin(init, sep);
      var s := Join(init, sep) + [sep];
      assert s[..|s| - 1] == Join(init, sep);
      SplitAppend(s, last, sep);
    }
  }

  /** Text without separators goes to the end of the last piece. */
  lemma {:induction false} SplitAppend(s: string, more: string, sep: char)
    requires sep !in more
    ensures var pieces := Split(s, sep);
            Split(s + more, sep) == pieces[..|pieces| - 1] + [pieces[|pieces| - 1] + more]
    decreases |more|
  {
    if more == [] {
      assert s + more == s;
      assert Split(s, sep)[|Split(s, sep)| - 1] + more == Split(s, sep)[|Split(s, sep)| - 1];
    } else {
      var n := |more| - 1;
      assert (s + more)[..|s + more| - 1] == s + more[..n];
      SplitAppend(s, more[..n], sep);
      var p := Split(s, sep)[|Split(s, sep)| - 1];
      assert p + more[..n] + [more[n]] == p + more;
    }
  }

  // ---------------------------------------------------------------- trimSpace

  predicate Space(c: char) {
    c == ' ' || c == '\t' || c == '\n' || c == '\r'
  }

  predicate Blank(s: string) {
    forall i :: 0 <= i < |s| ==> Space(s[i])
  }

  predicate Tight(s: string) {
    s == "" || (!Space(s[0]) && !Space(s[|s| - 1]))
  }

  function TrimLeft(s: string): string {
    if s != [] && Space(s[0]) then TrimLeft(s[1..]) else s
  }

  function TrimRight(s: string): string {
    if s != [] && Space(s[|s| - 1]) then TrimRight(s[..|s| - 1]) else s
  }

  function Trim(s: string): string {
    TrimRight(TrimLeft(s))
  }

  /** The second loop of trimSpace. */
  method TrimEnd(s: string, i: nat) returns (r: string)
    requires i <= |s|
    ensures r == TrimRight(s[i..])
  {
    var j := |s|;
    assert s[i..j] == s[i..];
    while j > i && Space(s[j - 1])
      invariant i <= j <= |s| && TrimRight(s[i..j]) == TrimRight(s[i..])
    {
      assert s[i..j][..j - i - 1] == s[i..j - 1];
      j := j - 1;
    }
    r := s[i..j];
  }

  method TrimSpace(s: string) returns (r: string)
    ensures r == Trim(s)
  {
    var i := 0;
    while i < |s| && Space(s[i])
      invariant 0 <= i <= |s| && TrimLeft(s[i..]) == TrimLeft(s)
    {
      assert s[i..][1..] == s[i + 1..];
      i := i + 1;
    }
    r := TrimEnd(s, i);
  }

  lemma {:induction false} TrimLeftPads(a: string, s: string)
    requires Blank(a) && (s == "" || !Space(s[0]))
    ensures TrimLeft(a + s) == s
  {
    if a == "" {
      assert a + s == s;
    } else {
      assert (a + s)[1..] == a[1..] + s;
      TrimLeftPads(a[1..], s);
    }
  }

  lemma {:induction false} TrimRightPads(s: string, b: string)
    requires Blank(b) && (s == "" || !Space(s[|s| - 1]))
    ensures TrimRight(s + b) == s
    decreases |b|
  {
    if b == "" {
      assert s + b == s;
    } else {
      assert (s + b)[..|s + b| - 1] == s + b[..|b| - 1];
      TrimRightPads(s, b[..|b| - 1]);
    }
  }

  /** Whatever blanks are put around a text without blanks at its ends are taken off again, and no more. */
  lemma TrimPads(a: string, s: string, b: string)
    requires Blank(a) && Tight(s) && Blank(b)
    ensures Trim(a + s + b) == s
  {
    if s == "" {
      assert a + s + b == (a + b) + "";
      TrimLeftPads(a + b, "");
    } else {
      assert a + s + b == a + (s + b);
      TrimLeftPads(a, s + b);
      TrimRightPads(s, b);
    }
  }

  lemma {:induction false} TrimLeftEnds(s: string)
    ensures exists a :: Blank(a) && s == a + TrimLeft(s)
    ensures TrimLeft(s) == "" || !Space(TrimLeft(s)[0])
  {
    if s != [] && Space(s[0]) {
      TrimLeftEnds(s[1..]);
      var a :| Blank(a) && s[1..] == a + TrimLeft(s[1..]);
      assert s == ([s[0]] + a) + TrimLeft(s);
    } else {
      assert s == "" + TrimLeft(s);
    }
  }

  lemma {:induction false} TrimRightEnds(s: string)
    ensures exists b :: Blank(b) && s == TrimRight(s) + b
    ensures TrimRight(s) == "" || !Space(TrimRight(s)[|TrimRight(s)| - 1])
    decreases |s|
  {
    if s != [] && Space(s[|s| - 1]) {
      TrimRightEnds(s[..|s| - 1]);
      var b :| Blank(b) && s[..|s| - 1] == TrimRight(s[..|s| - 1]) + b;
      assert s == TrimRight(s) + (b + [s[|s| - 1]]);
    } else {
      assert s == TrimRight(s) + "";
    }
  }

  /** Only blanks are taken off. */
  lemma TrimTakesBlanks(s: string)
    ensures Tight(Trim(s)) && exists a, b :: Blank(a) && Blank(b) && s == a + Trim(s) + b
  {
    var left := TrimLeft(s);
    TrimLeftEnds(s);
    TrimRightEnds(left);
    var a :| Blank(a) && s == a + left;
    var b :| Blank(b) && left == TrimRight(left) + b;
    assert s == a + Trim(s) + b;
    assert Trim(s) != "" ==> Trim(s)[0] == left[0];
  }

  // ---------------------------------------------------------------- strconv.Atoi

  predicate IsDigit(c: char) {
    '0' <= c <= '9'
  }

  predicate AllDigits(s: string) {
    forall i :: 0 <= i < |s| ==> IsDigit(s[i])
  }

  function DigitsValue(s: string): nat
    requires AllDigits(s)
  {
    if s == [] then 0 else DigitsValue(s[..|s| - 1]) * 10 + (s[|s| - 1] as int - '0' as int)
  }

  const MAX_INT := 0x7fff_ffff_ffff_ffff

  /** An optional sign and at least one digit, within 64 bits. */
  function Atoi(s: string): Option<int> {
    var negative := s != [] && s[0] == '-';
    var digits := if s != [] && (s[0] == '-' || s[0] == '+') then s[1..] else s;
    if digits == [] || !AllDigits(digits) then None
    else
      var n: int := if negative then 0 - DigitsValue(digits) else DigitsValue(digits);
      if -MAX_INT - 1 <= n <= MAX_INT then Some(n) else None
  }

  lemma AtoiNeedsDigits(s: string, k: nat)
    requires k < |s| && !IsDigit(s[k]) && (k > 0 || (s[0] != '-' && s[0] != '+'))
    ensures Atoi(s) == None
  {
    hide DigitsValue;
    if s[0] == '-' || s[0] == '+' {
      assert s[1..][k - 1] == s[k];
    }
  }

  predicate ValidPort(p: int) {
    0 < p < 65536
  }

  /** The port that a trimmed piece stands for, if any. */
  function PortIn(piece: string): seq<int> {
    match Atoi(piece)
    case Some(p) => if ValidPort(p) then [p] else []
    case None => []
  }

  // ---------------------------------------------------------------- splitPorts

  function Ports(pieces: seq<string>): seq<int> {
    if pieces == [] then []
    else Ports(pieces[..|pieces| - 1]) + PortIn(Trim(pieces[|pieces| - 1]))
  }

  method SplitPorts(s: string) returns (ports: seq<int>)
    ensures ports == Ports(Split(s, ','))
    ensures forall i :: 0 <= i < |ports| ==> ValidPort(ports[i])
  {
    hide Split, Atoi, Trim, Ports;
    ports := [];
    NoPorts();
    var parts := SplitString(s, ',');
    for i := 0 to |parts|
      invariant ports == Ports(parts[..i])
      invariant forall k :: 0 <= k < |ports| ==> ValidPort(ports[k])
    {
      PortsMore(parts, i);
      var trimmed := TrimSpace(parts[i]);
      var p := Atoi(trimmed);
      if p.Some? && p.value > 0 && p.value < 65536 {
        ports := ports + [p.value];
      } else {
        assert ports + [] == ports;
      }
    }
    assert parts[..|parts|] == parts;
  }

  lemma NoPorts()
    ensures Ports([]) == []
  {
  }

  lemma PortsMore(parts: seq<string>, i: nat)
    requires i < |parts|
    ensures Ports(parts[..i + 1]) == Ports(parts[..i]) + PortIn(Trim(parts[i]))
  {
    hide PortIn, Trim;
    assert parts[..i + 1][..i] == parts[..i];
  }

  lemma {:induction false} PortsAppend(xs: seq<string>, ys: seq<string>)
    ensures Ports(xs + ys) == Ports(xs) + Ports(ys)
    decreases |ys|
  {
    hide PortIn, Trim;
    if ys == [] {
      assert xs + ys == xs;
    } else {
      assert (xs + ys)[..|xs + ys| - 1] == xs + ys[..|ys| - 1];
      PortsAppend(xs, ys[..|ys| - 1]);
    }
  }

  lemma PortsOne(piece: string)
    ensures Ports([piece]) == PortIn(Trim(piece))
  {
    hide PortIn, Trim;
    assert [piece][..0] == [];
  }

  // ---------------------------------------------------------------- reading back what was written

  /** How a piece may be written: a port in decimal with blanks around it. */
  datatype Written = Written(before: string, port: int, after: string)

  ghost predicate WellWritten(w: Written) {
    Blank(w.before) && ValidPort(w.port) && Blank(w.after)
  }

  ghost predicate AllWellWritten(ws: seq<Written>) {
    forall i :: 0 <= i < |ws| ==> WellWritten(ws[i])
  }

  function Text(w: Written): string {
    w.before + (if w.port < 0 then "" else Decimal(w.port)) + w.after
  }

  function Texts(ws: seq<Written>): seq<string> {
    if ws == [] then [] else Texts(ws[..|ws| - 1]) + [Text(ws[|ws| - 1])]
  }

  function PortsIn(ws: seq<Written>): seq<int> {
    if ws == [] then [] else PortsIn(ws[..|ws| - 1]) + [ws[|ws| - 1].port]
  }

  lemma {:induction false} DigitsOfDecimal(n: nat)
    ensures AllDigits(Decimal(n)) && DigitsValue(Decimal(n)) == n && Decimal(n) != []
  {
    if n >= 10 {
      DigitsOfDecimal(n / 10);
      assert Decimal(n)[..|Decimal(n)| - 1] == Decimal(n / 10);
    } else {
      assert Decimal(n)[..0] == [];
    }
  }

  lemma AtoiOfDecimal(n: nat)
    ensures Atoi(Decimal(n)) == if n <= MAX_INT then Some(n as int) else None
  {
    DigitsOfDecimal(n);
    DecimalChars(n);
    hide Decimal, AllDigits, DigitsValue;
    assert Decimal(n)[0] in Decimal(n);
  }

  lemma AtoiOfSigned(n: nat)
    ensures Atoi("+" + Decimal(n)) == if n <= MAX_INT then Some(n as int) else None
    ensures var m: int := 0 - n; Atoi("-" + Decimal(n)) == if n <= MAX_INT + 1 then Some(m) else None
  {
    var digits := Decimal(n);
    DigitsOfDecimal(n);
    hide Decimal, AllDigits, DigitsValue;
    assert ("-" + digits)[1..] == digits && ("+" + digits)[1..] == digits;
  }

  /** Of all numbers, with or without a plus sign, exactly 1 to 65535 are ports. */
  lemma PortOfNumber(n: int)
    ensures PortIn(Integer(n)) == if 1 <= n <= 65535 then [n] else []
    ensures n >= 0 ==> PortIn("+" + Decimal(n)) == PortIn(Integer(n))
  {
    AtoiOfDecimal(if n < 0 then -n else n);
    AtoiOfSigned(if n < 0 then -n else n);
    hide Atoi, Decimal;
  }

  lemma DecimalReadsBack(p: int)
    requires ValidPort(p)
    ensures PortIn(Decimal(p)) == [p] && Tight(Decimal(p)) && ',' !in Decimal(p)
  {
    DigitsOfDecimal(p);
    hide Decimal, DigitsValue;
    var d := Decimal(p);
    assert IsDigit(d[0]) && IsDigit(d[|d| - 1]);
  }

  lemma PieceReadsBack(w: Written)
    requires WellWritten(w)
    ensures PortIn(Trim(Text(w))) == [w.port] && ',' !in Text(w)
  {
    DecimalReadsBack(w.port);
    TrimPads(w.before, Decimal(w.port), w.after);
    hide Decimal, Trim, PortIn;
  }

  lemma {:induction false} TextsReadBack(ws: seq<Written>)
    requires AllWellWritten(ws)
    ensures Ports(Texts(ws)) == PortsIn(ws) && Free(Texts(ws), ',') && |Texts(ws)| == |ws|
    decreases |ws|
  {
    hide Text, PortIn, Trim, WellWritten;
    if ws != [] {
      var init, last := ws[..|ws| - 1], ws[|ws| - 1];
      TextsReadBack(init);
      PieceReadsBack(last);
      assert Texts(ws)[..|Texts(init)|] == Texts(init);
    }
  }

  /** A list of ports written with commas and any blanks is read back exactly. */
  lemma ListReadsBack(ws: seq<Written>)
    requires ws != [] && AllWellWritten(ws)
    ensures Ports(Split(Join(Texts(ws), ','), ',')) == PortsIn(ws)
  {
    TextsReadBack(ws);
    hide Ports, Texts, PortsIn;
    SplitJoin(Texts(ws), ',');
  }

  // ---------------------------------------------------------------- the JSON form

  lemma {:induction false} JoinFirst(p: string, x: string, rest: seq<string>, sep: char)
    ensures Join([p + x] + rest, sep) == p + Join([x] + rest, sep)
    decreases |rest|
  {
    if rest == [] {
      assert [p + x] + rest == [p + x] && [x] + rest == [x];
    } else {
      var n := |rest| - 1;
      JoinFirst(p, x, rest[..n], sep);
      assert ([p + x] + rest)[..n + 1] == [p + x] + rest[..n] && ([x] + rest)[..n + 1] == [x] + rest[..n];
      assert p + Join([x] + rest[..n], sep) + [sep] + rest[n] == p + (Join([x] + rest[..n], sep) + [sep] + rest[n]);
    }
  }

  /** A piece that opens or closes a bracket is no port. */
  lemma NoPortAtBracket(s: string)
    requires s != "" && (s[0] == '[' || s[|s| - 1] == ']')
    ensures PortIn(Trim(s)) == []
  {
    TrimTakesBlanks(s);
    var a, b :| Blank(a) && Blank(b) && s == a + Trim(s) + b;
    var r := Trim(s);
    hide Trim, Atoi;
    Ends(s, a, r, b);
    AtoiNeedsDigits(r, if s[0] == '[' then 0 else |r| - 1);
  }

  lemma Ends(s: string, a: string, r: string, b: string)
    requires s != "" && s == a + r + b && Blank(a) && Blank(b)
    ensures Space(s[0]) || (r != "" && r[0] == s[0])
    ensures Space(s[|s| - 1]) || (r != "" && r[|r| - 1] == s[|s| - 1])
  {
    if a != "" {
      assert s[0] == a[0];
    } else if r == "" {
      assert s == b;
    }
    if b != "" {
      assert s[|s| - 1] == b[|b| - 1];
    } else if r == "" {
      assert s == a;
    }
  }

  lemma PortsBetween(a: string, mid: seq<string>, b: string)
    requires PortIn(Trim(a)) == [] && PortIn(Trim(b)) == []
    ensures Ports([a] + mid + [b]) == Ports(mid)
  {
    hide Ports, PortIn, Trim;
    PortsAppend([a] + mid, [b]);
    PortsAppend([a], mid);
    PortsOne(a);
    PortsOne(b);
    assert [] + Ports(mid) + [] == Ports(mid);
  }

  /** Despite the comment on it, splitPorts does not read a JSON array: the brackets cost the first and the
      last port. */
  lemma JsonLosesBothEnds(first: Written, middle: seq<Written>, last: Written)
    requires WellWritten(first) && AllWellWritten(middle) && WellWritten(last)
    ensures Ports(Split("[" + Join(Texts([first] + middle + [last]), ',') + "]", ',')) == PortsIn(middle)
  {
    hide *;
    TextsReadBack(middle);
    TextsAround(first, middle, last);
    PieceReadsBack(first);
    PieceReadsBack(last);
    BracketsReadBack(Text(first), Texts(middle), Text(last));
  }

  /** An array of one port is read as none. */
  lemma JsonOfOneIsLost(w: Written)
    requires WellWritten(w)
    ensures Ports(Split("[" + Text(w) + "]", ',')) == []
  {
    hide Ports, Split, PortIn, Trim, Text;
    var piece := "[" + Text(w) + "]";
    PieceReadsBack(w);
    SplitJoin([piece], ',');
    NoPortAtBracket(piece);
    PortsOne(piece);
  }

  lemma BracketsReadBack(x: string, mid: seq<string>, y: string)
    requires ',' !in x && ',' !in y && Free(mid, ',')
    ensures Ports(Split("[" + Join([x] + mid + [y], ',') + "]", ',')) == Ports(mid)
  {
    hide Ports, Split, Join, PortIn, Trim;
    var pieces := ["[" + x] + mid + [y + "]"];
    BracketPieces(x, mid, y);
    SplitJoin(pieces, ',');
    NoPortAtBracket("[" + x);
    NoPortAtBracket(y + "]");
    PortsBetween("[" + x, mid, y + "]");
  }

  lemma {:induction false} TextsAround(first: Written, middle: seq<Written>, last: Written)
    ensures Texts([first] + middle + [last]) == [Text(first)] + Texts(middle) + [Text(last)]
    decreases |middle|
  {
    hide Text;
    assert ([first] + middle + [last])[..|middle| + 1] == [first] + middle;
    if middle == [] {
      assert [first] + middle == [first] && [first][..0] == [];
      assert [Text(first)] + Texts(middle) == [Text(first)];
    } else {
      var n := |middle| - 1;
      TextsAround(first, middle[..n], middle[n]);
      assert [first] + middle == [first] + middle[..n] + [middle[n]];
      assert [Text(first)] + Texts(middle) == [Text(first)] + Texts(middle[..n]) + [Text(middle[n])];
    }
  }

  lemma BracketPieces(x: string, mid: seq<string>, y: string)
    ensures Join(["[" + x] + mid + [y + "]"], ',') == "[" + Join([x] + mid + [y], ',') + "]"
  {
    hide Join;
    JoinLast(["[" + x] + mid, y, "]", ',');
    assert ["[" + x] + mid + [y] == ["[" + x] + (mid + [y]);
    assert [x] + mid + [y] == [x] + (mid + [y]);
    JoinFirst("[", x, mid + [y], ',');
  }
}
