/** internal/engine/flag_writer.go: the escaping of flags, the path filter, and the command line that
    WriteFlag hands to sh, read back by the quoting rules of the POSIX Shell Command Language
    (IEEE Std 1003.1, sections 2.2.1 and 2.2.2). */
module FlagWriter {
  import opened FlagText
  import opened Options

  // ---------------------------------------------------------------- shellEscape

  /** strings.ReplaceAll for a pattern of one character. */
  function ReplaceAll(s: string, c: char, text: string): string {
    if s == "" then "" else (if s[0] == c then text else [s[0]]) + ReplaceAll(s[1..], c, text)
  }

  function ShellEscape(s: string): string {
    var s := ReplaceAll(s, '\\', "\\\\");
    var s := ReplaceAll(s, '\'', "'\\''");
    var s := ReplaceAll(s, '`', "\\`");
    var s := ReplaceAll(s, '$', "\\$");
    var s := ReplaceAll(s, '!', "\\!");
    var s := ReplaceAll(s, '\n', "");
    ReplaceAll(s, '\r', "")
  }

  /** What the seven replacements together make of one character. */
  function EscapedChar(c: char): string {
    if c == '\\' then "\\\\"
    else if c == '\'' then "'\\''"
    else if c == '`' then "\\`"
    else if c == '$' then "\\$"
    else if c == '!' then "\\!"
    else if c == '\n' || c == '\r' then ""
    else [c]
  }

  function Escaped(s: string): string {
    if s == "" then "" else EscapedChar(s[0]) + Escaped(s[1..])
  }

  lemma {:induction false} ReplaceAllConcat(a: string, b: string, c: char, text: string)
    ensures ReplaceAll(a + b, c, text) == ReplaceAll(a, c, text) + ReplaceAll(b, c, text)
    decreases |a|
  {
    if a == "" {
      assert a + b == b;
    } else {
      assert (a + b)[1..] == a[1..] + b;
      ReplaceAllConcat(a[1..], b, c, text);
    }
  }

  lemma {:induction false} ReplaceAllAbsent(s: string, c: char, text: string)
    requires c !in s
    ensures ReplaceAll(s, c, text) == s
  {
    if s != "" { ReplaceAllAbsent(s[1..], c, text); }
  }

  lemma ShellEscapeConcat(a: string, b: string)
    ensures ShellEscape(a + b) == ShellEscape(a) + ShellEscape(b)
  {
    var a1, b1 := ReplaceAll(a, '\\', "\\\\"), ReplaceAll(b, '\\', "\\\\");
    var a2, b2 := ReplaceAll(a1, '\'', "'\\''"), ReplaceAll(b1, '\'', "'\\''");
    var a3, b3 := ReplaceAll(a2, '`', "\\`"), ReplaceAll(b2, '`', "\\`");
    var a4, b4 := ReplaceAll(a3, '$', "\\$"), ReplaceAll(b3, '$', "\\$");
    var a5, b5 := ReplaceAll(a4, '!', "\\!"), ReplaceAll(b4, '!', "\\!");
    var a6, b6 := ReplaceAll(a5, '\n', ""), ReplaceAll(b5, '\n', "");
    hide ReplaceAll;
    ReplaceAllConcat(a, b, '\\', "\\\\");
    ReplaceAllConcat(a1, b1, '\'', "'\\''");
    ReplaceAllConcat(a2, b2, '`', "\\`");
    ReplaceAllConcat(a3, b3, '$', "\\$");
    ReplaceAllConcat(a4, b4, '!', "\\!");
    ReplaceAllConcat(a5, b5, '\n', "");
    ReplaceAllConcat(a6, b6, '\r', "");
  }

  function Replace1(c: char, d: char, text: string): string {
    if c == d then text else [c]
  }

  lemma ReplaceOne(c: char, d: char, text: string)
    ensures ReplaceAll([c], d, text) == Replace1(c, d, text)
  {
    assert [c][1..] == "";
  }

  /** The replacements after the first two. */
  function LastFive(s: string): string {
    ReplaceAll(ReplaceAll(ReplaceAll(ReplaceAll(ReplaceAll(s, '`', "\\`"), '$', "\\$"), '!', "\\!"),
                          '\n', ""), '\r', "")
  }

  lemma LastFiveKeeps(s: string)
    requires '`' !in s && '$' !in s && '!' !in s && '\n' !in s && '\r' !in s
    ensures LastFive(s) == s
  {
    hide ReplaceAll;
    ReplaceAllAbsent(s, '`', "\\`");
    ReplaceAllAbsent(s, '$', "\\$");
    ReplaceAllAbsent(s, '!', "\\!");
    ReplaceAllAbsent(s, '\n', "");
    ReplaceAllAbsent(s, '\r', "");
  }

  /** No replacement touches what an earlier one has put in. */
  lemma ShellEscapeChar(c: char)
    ensures ShellEscape([c]) == EscapedChar(c)
  {
    hide ReplaceAll, LastFive;
    var s1 := Replace1(c, '\\', "\\\\");
    ReplaceOne(c, '\\', "\\\\");
    ShellEscapeSplit([c]);
    if c == '\\' {
      ReplaceAllAbsent(s1, '\'', "'\\''");
      LastFiveKeeps(s1);
    } else {
      ReplaceOne(c, '\'', "'\\''");
      if c == '\'' { LastFiveKeeps("'\\''"); } else { ShellEscapeRest(c); }
    }
  }

  lemma ShellEscapeSplit(s: string)
    ensures ShellEscape(s) == LastFive(ReplaceAll(ReplaceAll(s, '\\', "\\\\"), '\'', "'\\''"))
  {
  }

  lemma ShellEscapeRest(c: char)
    requires c != '\\' && c != '\''
    ensures LastFive([c]) == EscapedChar(c)
  {
    var s3 := Replace1(c, '`', "\\`");
    ReplaceOne(c, '`', "\\`");
    ReplaceOne(c, '$', "\\$");
    ReplaceOne(c, '!', "\\!");
    ReplaceOne(c, '\n', "");
    ReplaceOne(c, '\r', "");
    if c == '`' || c == '$' || c == '!' {
      var e := ['\\', c];
      ReplaceAllAbsent("\\`", '$', "\\$");
      ReplaceAllAbsent("\\`", '!', "\\!");
      ReplaceAllAbsent("\\$", '!', "\\!");
      ReplaceAllAbsent(e, '\n', "");
      ReplaceAllAbsent(e, '\r', "");
      assert e == EscapedChar(c);
    } else if c == '\n' {
      ReplaceAllAbsent("", '\r', "");
    }
  }

  /** The chain of replacements is one map over the characters. */
  lemma {:induction false} ShellEscapeIsCharwise(s: string)
    ensures ShellEscape(s) == Escaped(s)
  {
    hide ShellEscape, EscapedChar;
    if s == "" {
      ShellEscapeEmpty();
    } else {
      assert s == [s[0]] + s[1..];
      ShellEscapeConcat([s[0]], s[1..]);
      ShellEscapeChar(s[0]);
      ShellEscapeIsCharwise(s[1..]);
    }
  }

  lemma ShellEscapeEmpty()
    ensures ShellEscape("") == ""
  {
  }

  // ---------------------------------------------------------------- sanitizeFilePath

  predicate PathChar(c: char) {
    'a' <= c <= 'z' || 'A' <= c <= 'Z' || '0' <= c <= '9' || c == '_' || c == '/' || c == '-' || c == '.'
  }

  predicate HasDotDot(path: string) {
    exists i :: 0 <= i < |path| - 1 && path[i] == '.' && path[i + 1] == '.'
  }

  predicate SafePath(path: string) {
    path != "" && (forall c :: c in path ==> PathChar(c)) && !HasDotDot(path) && path[0] == '/'
  }

  function SanitizeFilePath(path: string): string {
    if path == "" || exists c :: c in path && !PathChar(c) then "/flag"
    else if HasDotDot(path) then "/flag"
    else if path[0] != '/' then "/flag"
    else path
  }

  lemma LowerCase(c: char)
    ensures 'a' <= c <= 'z' <==> c in "abcdefghijklmnopqrstuvwxyz"
  {
  }

  lemma UpperCase(c: char)
    ensures 'A' <= c <= 'Z' <==> c in "ABCDEFGHIJKLMNOPQRSTUVWXYZ"
  {
  }

  lemma Digit(c: char)
    ensures '0' <= c <= '9' <==> c in "0123456789"
  {
  }

  /** Absolute, of letters, digits and four signs, and without two dots in a row. */
  ghost predicate Harmless(path: string) {
    && "/" <= path
    && (forall c :: c in path ==>
          || c in "abcdefghijklmnopqrstuvwxyz" || c in "ABCDEFGHIJKLMNOPQRSTUVWXYZ" || c in "0123456789" || c in "_/-.")
    && forall i :: 0 <= i <= |path| ==> !(".." <= path[i..])
  }

  lemma HarmlessIsSafe(path: string)
    ensures Harmless(path) <==> SafePath(path)
  {
    forall c: char
      ensures PathChar(c) <==> c in "abcdefghijklmnopqrstuvwxyz" || c in "ABCDEFGHIJKLMNOPQRSTUVWXYZ"
                               || c in "0123456789" || c in "_/-."
    {
      LowerCase(c);
      UpperCase(c);
      Digit(c);
    }
    hide PathChar;
    DotDot(path);
    hide HasDotDot;
    assert "/" <= path <==> path != "" && path[0] == '/';
  }

  lemma DotDot(path: string)
    ensures HasDotDot(path) <==> exists i :: 0 <= i <= |path| && ".." <= path[i..]
  {
    if i :| 0 <= i < |path| - 1 && path[i] == '.' && path[i + 1] == '.' {
      assert ".." <= path[i..];
    }
    if i :| 0 <= i <= |path| && ".." <= path[i..] {
      assert path[i..][0] == path[i] && path[i..][1] == path[i + 1];
    }
  }

  /** A harmless path is taken as it is, any other becomes "/flag", which is one too. */
  lemma SanitizeIsSafe(path: string)
    ensures SanitizeFilePath(path) == if Harmless(path) then path else "/flag"
    ensures Harmless(SanitizeFilePath(path)) && SafePath(SanitizeFilePath(path))
  {
    HarmlessIsSafe(path);
    HarmlessIsSafe("/flag");
    assert SafePath("/flag");
    hide Harmless;
  }

  // ---------------------------------------------------------------- reading a command line

  datatype Token = Word(text: string) | Operator(text: string)

  /** Characters that stand for themselves outside quotes wherever they appear. */
  predicate PlainChar(c: char) {
    PathChar(c)
  }

  function EndWord(word: Option<string>): seq<Token> {
    if word.None? then [] else [Word(word.value)]
  }

  function Sofar(word: Option<string>): string {
    if word.None? then "" else word.value
  }

  function Then(ts: seq<Token>, rest: Option<seq<Token>>): Option<seq<Token>> {
    if rest.None? then None else Some(ts + rest.value)
  }

  /** Tokens of a command line, `word` being the one under way; None for an open quote and for
      every construct beyond blanks, plain words, quotes, > and &&. */
  function Lex(s: string, word: Option<string>): Option<seq<Token>>
    decreases |s|
  {
    if s == "" then Some(EndWord(word))
    else if s[0] == ' ' then Then(EndWord(word), Lex(s[1..], None))
    else if s[0] == '\'' then LexQuoted(s[1..], Sofar(word))
    else if s[0] == '\\' then
      if |s| < 2 then None
      else if s[1] == '\n' then Lex(s[2..], word)
      else Lex(s[2..], Some(Sofar(word) + [s[1]]))
    else if s[0] == '>' then
      if word.Some? then None else Then([Operator(">")], Lex(s[1..], None))
    else if s[0] == '&' then
      if word.Some? || |s| < 2 || s[1] != '&' then None else Then([Operator("&&")], Lex(s[2..], None))
    else if PlainChar(s[0]) then Lex(s[1..], Some(Sofar(word) + [s[0]]))
    else None
  }

  /** Between single quotes every character stands for itself. */
  function LexQuoted(s: string, word: string): Option<seq<Token>>
    decreases |s|
  {
    if s == "" then None
    else if s[0] == '\'' then Lex(s[1..], Some(word))
    else LexQuoted(s[1..], word + [s[0]])
  }

  /** What arrives of a character. */
  function DeliveredChar(c: char): string {
    if c == '\\' || c == '`' || c == '$' || c == '!' then ['\\', c]
    else if c == '\n' || c == '\r' then ""
    else [c]
  }

  function Delivered(s: string): string {
    if s == "" then "" else DeliveredChar(s[0]) + Delivered(s[1..])
  }

  lemma {:induction false} QuotedText(text: string, rest: string, word: string)
    requires '\'' !in text
    ensures LexQuoted(text + "'" + rest, word) == Lex(rest, Some(word + text))
    decreases |text|
  {
    var s := text + "'" + rest;
    if text == "" {
      assert s[1..] == rest && word + text == word;
    } else {
      assert s[1..] == text[1..] + "'" + rest;
      assert word + [text[0]] + text[1..] == word + text;
      QuotedText(text[1..], rest, word + [text[0]]);
    }
  }

  /** One escaped character inside single quotes. */
  lemma QuotedChar(c: char, rest: string, word: string)
    ensures LexQuoted(EscapedChar(c) + rest, word) == LexQuoted(rest, word + DeliveredChar(c))
  {
    var s := EscapedChar(c) + rest;
    if c == '\'' {
      assert s[1..] == "\\''" + rest;
      assert s[1..][2..] == "'" + rest;
      assert ("'" + rest)[1..] == rest;
      assert LexQuoted(s, word) == Lex("\\''" + rest, Some(word)) == Lex("'" + rest, Some(word + "'"));
    } else if c == '\n' || c == '\r' {
      assert s == rest && word + "" == word;
    } else if |EscapedChar(c)| == 2 {
      var d := EscapedChar(c)[1];
      assert s[1..] == [d] + rest && s[1..][1..] == rest;
      assert word + ['\\'] + [d] == word + ['\\', d];
    } else {
      assert s[1..] == rest;
    }
  }

  lemma {:induction false} QuotedEscaped(s: string, rest: string, word: string)
    ensures LexQuoted(Escaped(s) + "'" + rest, word) == Lex(rest, Some(word + Delivered(s)))
    decreases |s|
  {
    if s == "" {
      assert Escaped(s) + "'" + rest == "" + "'" + rest;
      QuotedText("", rest, word);
    } else {
      var tail := Escaped(s[1..]) + "'" + rest;
      assert Escaped(s) + "'" + rest == EscapedChar(s[0]) + tail;
      QuotedChar(s[0], tail, word);
      QuotedEscaped(s[1..], rest, word + DeliveredChar(s[0]));
      assert word + DeliveredChar(s[0]) + Delivered(s[1..]) == word + Delivered(s);
    }
  }

  /** A quoted flag is one word whatever the flag: what Delivered makes of it. */
  lemma QuotedFlagIsOneWord(flag: string)
    ensures Lex("'" + ShellEscape(flag) + "'", None) == Some([Word(Delivered(flag))])
  {
    ShellEscapeIsCharwise(flag);
    var s := "'" + ShellEscape(flag) + "'";
    assert s[1..] == Escaped(flag) + "'" + "";
    QuotedEscaped(flag, "", "");
    assert "" + Delivered(flag) == Delivered(flag);
  }

  /** The command line that WriteFlag builds for an escaped flag and a filtered path. */
  function Command(flag: string, path: string): string {
    var quotedPath := ReplaceAll(path, '\'', "'\\''");
    "printf '%s' '" + flag + "' > '" + quotedPath + "' && chmod 600 '" + quotedPath + "'"
  }

  lemma {:induction false} PlainText(p: string, rest: string, word: string)
    requires forall c :: c in p ==> PlainChar(c)
    ensures Lex(p + rest, Some(word)) == Lex(rest, Some(word + p))
    decreases |p|
  {
    var s := p + rest;
    if p == "" {
      assert s == rest && word + p == word;
    } else {
      assert p[0] in p && s[0] == p[0] && s[1..] == p[1..] + rest;
      PlainText(p[1..], rest, word + [p[0]]);
      assert word + [p[0]] + p[1..] == word + p;
    }
  }

  lemma PlainWord(p: string, rest: string)
    requires p != "" && forall c :: c in p ==> PlainChar(c)
    ensures Lex(p + rest, None) == Lex(rest, Some(p))
  {
    var s := p + rest;
    assert PlainChar(p[0]) by { assert p[0] in p; }
    assert s[0] == p[0] && s[1..] == p[1..] + rest;
    assert "" + [p[0]] == [p[0]];
    assert Lex(s, None) == Lex(p[1..] + rest, Some([p[0]]));
    PlainText(p[1..], rest, [p[0]]);
    assert [p[0]] + p[1..] == p;
  }

  lemma QuotedWord(text: string, rest: string)
    requires '\'' !in text
    ensures Lex("'" + (text + "'" + rest), None) == Lex(rest, Some(text))
  {
    assert ("'" + (text + "'" + rest))[1..] == text + "'" + rest;
    QuotedText(text, rest, "");
    assert "" + text == text;
  }

  lemma QuotedFlag(flag: string, rest: string)
    ensures Lex("'" + (Escaped(flag) + "'" + rest), None) == Lex(rest, Some(Delivered(flag)))
  {
    assert ("'" + (Escaped(flag) + "'" + rest))[1..] == Escaped(flag) + "'" + rest;
    QuotedEscaped(flag, rest, "");
    assert "" + Delivered(flag) == Delivered(flag);
  }

  lemma Blank(rest: string, word: Option<string>)
    ensures Lex(" " + rest, word) == Then(EndWord(word), Lex(rest, None))
  {
    assert (" " + rest)[1..] == rest;
  }

  lemma PrependTokens(a: seq<Token>, b: seq<Token>, c: seq<Token>)
    requires a + b == c
    ensures Then(a, Some(b)) == Some(c)
  {
  }

  /** "chmod 600 'path'" */
  lemma ChmodTail(path: string)
    requires SafePath(path)
    ensures Lex("chmod 600 '" + path + "'", None) == Some([Word("chmod"), Word("600"), Word(path)])
  {
    var t3 := "'" + (path + "'" + "");
    var t2 := "600" + (" " + t3);
    var t1 := "chmod" + (" " + t2);
    assert "chmod 600 '" + path + "'" == t1;
    hide Lex, Then, SafePath;
    PlainWord("chmod", " " + t2);
    Blank(t2, Some("chmod"));
    PlainWord("600", " " + t3);
    Blank(t3, Some("600"));
    SafePathUnquoted(path);
    QuotedWord(path, "");
    LexNothing(path);
    PrependTokens([Word("600")], [Word(path)], [Word("600"), Word(path)]);
    PrependTokens([Word("chmod")], [Word("600"), Word(path)], [Word("chmod"), Word("600"), Word(path)]);
  }

  lemma SafePathUnquoted(path: string)
    requires SafePath(path)
    ensures '\'' !in path
  {
  }

  lemma LexNothing(word: string)
    ensures Lex("", Some(word)) == Some([Word(word)])
  {
  }

  lemma Operators(rest: string)
    ensures Lex("> " + rest, None) == Then([Operator(">")], Lex(rest, None))
    ensures Lex("&& " + rest, None) == Then([Operator("&&")], Lex(rest, None))
  {
    assert ("> " + rest)[1..] == " " + rest;
    assert ("&& " + rest)[2..] == " " + rest;
    Blank(rest, None);
    if Lex(rest, None).Some? { assert [] + Lex(rest, None).value == Lex(rest, None).value; }
  }

  lemma RedirectText(path: string)
    ensures "> '" + path + "' && chmod 600 '" + path + "'"
         == "> " + ("'" + (path + "'" + (" " + ("&& " + ("chmod 600 '" + path + "'")))))
  {
  }

  /** "> 'path' && chmod 600 'path'" */
  lemma RedirectTail(path: string)
    requires SafePath(path)
    ensures Lex("> '" + path + "' && chmod 600 '" + path + "'", None)
         == Some([Operator(">"), Word(path), Operator("&&"), Word("chmod"), Word("600"), Word(path)])
  {
    var t3 := "chmod 600 '" + path + "'";
    var t2 := "&& " + t3;
    var t1 := "'" + (path + "'" + (" " + t2));
    RedirectText(path);
    ChmodTail(path);
    SafePathUnquoted(path);
    hide Lex, Then, SafePath;
    Operators(t1);
    QuotedWord(path, " " + t2);
    Blank(t2, Some(path));
    Operators(t3);
    var c := [Word("chmod"), Word("600"), Word(path)];
    var b := [Operator("&&"), Word("chmod"), Word("600"), Word(path)];
    var a := [Word(path), Operator("&&"), Word("chmod"), Word("600"), Word(path)];
    PrependTokens([Operator("&&")], c, b);
    PrependTokens([Word(path)], b, a);
    PrependTokens([Operator(">")], a,
                  [Operator(">"), Word(path), Operator("&&"), Word("chmod"), Word("600"), Word(path)]);
  }

  /** For every flag and every path the shell sees the same nine tokens: print one word, which is what
      Delivered makes of the flag, to one file and set that file's mode. */
  lemma CommandReadsAs(flag: string, path: string)
    ensures var p := SanitizeFilePath(path);
            Lex(Command(ShellEscape(flag), p), None) ==
            Some([Word("printf"), Word("%s"), Word(Delivered(flag)), Operator(">"), Word(p),
                  Operator("&&"), Word("chmod"), Word("600"), Word(p)])
  {
    var p := SanitizeFilePath(path);
    SanitizeIsSafe(path);
    SafePathUnquoted(p);
    ReplaceAllAbsent(p, '\'', "'\\''");
    ShellEscapeIsCharwise(flag);
    RedirectTail(p);
    var t3 := "> '" + p + "' && chmod 600 '" + p + "'";
    var t2 := "'" + (Escaped(flag) + "'" + (" " + t3));
    var t1 := "'" + ("%s" + "'" + (" " + t2));
    CommandText(Escaped(flag), p);
    hide Lex, Then, SafePath, SanitizeFilePath, ShellEscape, ReplaceAll, Command, Delivered, Escaped;
    PlainWord("printf", " " + t1);
    Blank(t1, Some("printf"));
    QuotedWord("%s", " " + t2);
    Blank(t2, Some("%s"));
    QuotedFlag(flag, " " + t3);
    Blank(t3, Some(Delivered(flag)));
    JoinTokens(Delivered(flag), p);
  }

  lemma JoinTokens(flag: string, p: string)
    ensures var c := [Operator(">"), Word(p), Operator("&&"), Word("chmod"), Word("600"), Word(p)];
            Then([Word("printf")], Then([Word("%s")], Then([Word(flag)], Some(c)))) ==
            Some([Word("printf"), Word("%s"), Word(flag), Operator(">"), Word(p),
                  Operator("&&"), Word("chmod"), Word("600"), Word(p)])
  {
    var c := [Operator(">"), Word(p), Operator("&&"), Word("chmod"), Word("600"), Word(p)];
    var b := [Word(flag), Operator(">"), Word(p), Operator("&&"), Word("chmod"), Word("600"), Word(p)];
    var a := [Word("%s"), Word(flag), Operator(">"), Word(p), Operator("&&"), Word("chmod"), Word("600"), Word(p)];
    assert [Word(flag)] + c == b;
    assert [Word("%s")] + b == a;
    assert [Word("printf")] + a ==
      [Word("printf"), Word("%s"), Word(flag), Operator(">"), Word(p),
       Operator("&&"), Word("chmod"), Word("600"), Word(p)];
  }

  lemma CommandText(flag: string, p: string)
    requires ReplaceAll(p, '\'', "'\\''") == p
    ensures Command(flag, p) ==
            "printf" + (" " + ("'" + ("%s" + "'" + (" " +
              ("'" + (flag + "'" + (" " + ("> '" + p + "' && chmod 600 '" + p + "'"))))))))
  {
  }

  // ---------------------------------------------------------------- when the flag arrives unchanged

  predicate Altered(c: char) {
    c == '\\' || c == '`' || c == '$' || c == '!' || c == '\n' || c == '\r'
  }

  lemma {:induction false} NoNewlines(s: string)
    ensures '\n' !in Delivered(s) && '\r' !in Delivered(s)
  {
    if s != "" { NoNewlines(s[1..]); }
  }

  lemma {:induction false} DeliveredLength(s: string)
    requires '\n' !in s && '\r' !in s
    ensures |Delivered(s)| >= |s|
    ensures (exists c :: c in s && Altered(c)) ==> |Delivered(s)| > |s|
  {
    if s != "" { DeliveredLength(s[1..]); }
  }

  lemma {:induction false} UnalteredKept(s: string)
    requires forall c :: c in s ==> !Altered(c)
    ensures Delivered(s) == s
  {
    if s != "" {
      assert s == [s[0]] + s[1..] && s[0] in s;
      UnalteredKept(s[1..]);
    }
  }

  /** The container gets exactly the flag iff it has no backslash, backquote, dollar, exclamation mark,
      line feed or carriage return. */
  lemma DeliveredExactlyIff(s: string)
    ensures Delivered(s) == s <==> forall c :: c in s ==> !Altered(c)
  {
    if forall c :: c in s ==> !Altered(c) {
      UnalteredKept(s);
    } else if '\n' in s || '\r' in s {
      NoNewlines(s);
    } else {
      DeliveredLength(s);
    }
  }

  predicate HexChar(c: char) {
    '0' <= c <= '9' || 'a' <= c <= 'f'
  }

  predicate Unaltered(s: string) {
    forall c :: c in s ==> !Altered(c)
  }

  lemma FieldUnaltered(n: int, rest: string)
    requires Unaltered(rest)
    ensures Unaltered(Field(n, rest))
  {
    IntegerChars(n);
  }

  /** So every generated flag arrives as generated. */
  lemma GeneratedFlagDelivered(game: int, round: int, team: int, challenge: int, random: string)
    requires forall c :: c in random ==> HexChar(c)
    ensures var flag := GeneratedFlag(game, round, team, challenge, random);
            Delivered(flag) == flag
  {
    hide Field, Delivered;
    var s4 := random + "}";
    var s3 := Field(challenge, s4);
    var s2 := Field(team, s3);
    var s1 := Field(round, s2);
    assert Unaltered(s4);
    FieldUnaltered(challenge, s4);
    FieldUnaltered(team, s3);
    FieldUnaltered(round, s2);
    FieldUnaltered(game, s1);
    UnalteredKept("flag{" + Field(game, s1));
  }
}
