/** Composing argv, directory, environment and stdin into one `sh -c` line, and
    reading such a line back by the quoting and token rules of the POSIX.1-2017
    Shell Command Language (sections 2.2.1, 2.2.2 and 2.3). */
module ShellCommand {
  import opened Base64
  import opened Wrappers
  import Scanner

  datatype Variable = Variable(name: string, value: string)

  datatype Request = Request(argv: seq<string>, cwd: Option<string>, env: seq<Variable>, stdin: Option<seq<Byte>>)

  // ----- The shell's tokens

  datatype Letter = Letter(c: char, quoted: bool)

  datatype Token = Word(letters: seq<Letter>) | Operator(text: string)

  datatype Lex =
    | Idle(tokens: seq<Token>)
    | InWord(tokens: seq<Token>, letters: seq<Letter>)
    | InQuotes(tokens: seq<Token>, letters: seq<Letter>)
    | AfterBackslash(tokens: seq<Token>, letters: seq<Letter>)
    | InOperator(tokens: seq<Token>, text: string)
    | InComment(tokens: seq<Token>)
    | Unsupported

  predicate Blank(c: char) { c == ' ' || c == '\t' }

  predicate OperatorChar(c: char) {
    c == '&' || c == '|' || c == ';' || c == '<' || c == '>' || c == '(' || c == ')' || c == '\n'
  }

  /** Characters that begin the expansions and double quotes of other sections. */
  predicate Expanding(c: char) { c == '\"' || c == '$' || c == '`' }

  predicate IsOperator(s: string) {
    s in {"&", "&&", "|", "||", ";", ";;", "<", "<<", "<<-", "<&", "<>", ">", ">>", ">&", ">|", "(", ")", "\n"}
  }

  /** A character where no token is in progress. */
  function Begin(tokens: seq<Token>, c: char): Lex {
    if Blank(c) then Idle(tokens)
    else if OperatorChar(c) then InOperator(tokens, [c])
    else if c == '#' then InComment(tokens)
    else Continue(tokens, [], c)
  }

  /** A character that is neither blank nor an operator, within a word. */
  function Continue(tokens: seq<Token>, letters: seq<Letter>, c: char): Lex {
    if c == '\'' then InQuotes(tokens, letters)
    else if c == '\\' then AfterBackslash(tokens, letters)
    else if Expanding(c) then Unsupported
    else InWord(tokens, letters + [Letter(c, false)])
  }

  function Step(st: Lex, c: char): Lex {
    match st
    case Idle(tokens) => Begin(tokens, c)
    case InWord(tokens, letters) =>
      if Blank(c) || OperatorChar(c) then Begin(tokens + [Word(letters)], c) else Continue(tokens, letters, c)
    case InQuotes(tokens, letters) =>
      if c == '\'' then InWord(tokens, letters) else InQuotes(tokens, letters + [Letter(c, true)])
    case AfterBackslash(tokens, letters) =>
      if c == '\n' then (if letters == [] then Idle(tokens) else InWord(tokens, letters))
      else InWord(tokens, letters + [Letter(c, true)])
    case InOperator(tokens, text) =>
      if IsOperator(text + [c]) then InOperator(tokens, text + [c]) else Begin(tokens + [Operator(text)], c)
    case InComment(tokens) => if c == '\n' then InOperator(tokens, "\n") else st
    case Unsupported => st
  }

  function Feed(st: Lex, s: string): Lex { Scanner.Scan(Step, st, s) }

  /** The tokens at the end of input; an open quote is an error. */
  function Finish(st: Lex): Option<seq<Token>> {
    match st
    case Idle(tokens) => Some(tokens)
    case InWord(tokens, letters) => Some(tokens + [Word(letters)])
    case InOperator(tokens, text) => Some(tokens + [Operator(text)])
    case InComment(tokens) => Some(tokens)
    case _ => None
  }

  // ----- Reading a request back from tokens

  function Text(letters: seq<Letter>): string {
    if letters == [] then "" else [letters[0].c] + Text(letters[1..])
  }

  function Marked(s: string, quoted: bool): (r: seq<Letter>)
    ensures |r| == |s| && forall i | 0 <= i < |s| :: r[i] == Letter(s[i], quoted)
  {
    seq(|s|, i requires 0 <= i < |s| => Letter(s[i], quoted))
  }

  function Plain(s: string): Token { Word(Marked(s, false)) }

  predicate NameStart(c: char) { 'a' <= c <= 'z' || 'A' <= c <= 'Z' || c == '_' }

  predicate NameChar(c: char) { NameStart(c) || '0' <= c <= '9' }

  predicate ValidName(s: string) { s != "" && NameStart(s[0]) && forall c | c in s :: NameChar(c) }

  /** The number of leading unquoted name characters. */
  function NameLength(letters: seq<Letter>): (n: nat)
    ensures n <= |letters|
  {
    if letters == [] || letters[0].quoted || !NameChar(letters[0].c) then 0 else 1 + NameLength(letters[1..])
  }

  /** An assignment word: an unquoted name and equals sign, then the value. */
  function Assignment(token: Token): Option<Variable> {
    if token.Operator? then None
    else
      var n := NameLength(token.letters);
      var name := Text(token.letters[..n]);
      if n < |token.letters| && token.letters[n] == Letter('=', false) && ValidName(name)
      then Some(Variable(name, Text(token.letters[n + 1..])))
      else None
  }

  function ReadWords(tokens: seq<Token>): Option<seq<string>> {
    if tokens == [] then Some([])
    else if tokens[0].Operator? then None
    else
      match ReadWords(tokens[1..])
      case None => None
      case Some(rest) => Some([Text(tokens[0].letters)] + rest)
  }

  /** Leading assignments, then the command words. */
  function ReadSimple(tokens: seq<Token>): Option<(seq<Variable>, seq<string>)> {
    if tokens != [] && Assignment(tokens[0]).Some? then
      match ReadSimple(tokens[1..])
      case None => None
      case Some((env, argv)) => Some(([Assignment(tokens[0]).value] + env, argv))
    else
      match ReadWords(tokens)
      case None => None
      case Some(argv) => Some(([], argv))
  }

  function ReadInner(tokens: seq<Token>, stdin: Option<seq<Byte>>): Option<Request> {
    var moved := |tokens| >= 3 && tokens[0] == Plain("cd") && tokens[1].Word? && tokens[2] == Operator("&&");
    match ReadSimple(if moved then tokens[3..] else tokens)
    case None => None
    case Some((env, argv)) => Some(Request(argv, if moved then Some(Text(tokens[1].letters)) else None, env, stdin))
  }

  predicate Piped(tokens: seq<Token>) {
    && |tokens| >= 9
    && tokens[0] == Plain("printf") && tokens[1] == Plain("%s") && tokens[2].Word? && tokens[3] == Operator("|")
    && tokens[4] == Plain("base64") && tokens[5] == Plain("-d") && tokens[6] == Operator("|") && tokens[7] == Operator("(")
    && tokens[|tokens| - 1] == Operator(")")
  }

  function ReadRequest(tokens: seq<Token>): Option<Request> {
    if Piped(tokens) then
      match Decode(Text(tokens[2].letters))
      case None => None
      case Some(bytes) => ReadInner(tokens[8..|tokens| - 1], Some(bytes))
    else ReadInner(tokens, None)
  }

  function Read(line: string): Option<Request> {
    match Finish(Feed(Idle([]), line))
    case None => None
    case Some(tokens) => ReadRequest(tokens)
  }

  // ----- The writer, as functions

  function EscapedBody(s: string): string {
    if s == "" then "" else EscapedBody(s[..|s| - 1]) + (if s[|s| - 1] == '\'' then "'\\''" else [s[|s| - 1]])
  }

  function SingleQuoted(s: string): string { "'" + EscapedBody(s) + "'" }

  function EnvText(env: seq<Variable>): string {
    if env == [] then ""
    else
      var v := env[|env| - 1];
      EnvText(env[..|env| - 1]) + (v.name + "=" + SingleQuoted(v.value) + " ")
  }

  function ArgvText(argv: seq<string>): string {
    if argv == [] then ""
    else if |argv| == 1 then SingleQuoted(argv[0])
    else ArgvText(argv[..|argv| - 1]) + (" " + SingleQuoted(argv[|argv| - 1]))
  }

  function CwdText(cwd: Option<string>): string {
    match cwd
    case None => ""
    case Some(dir) => "cd " + SingleQuoted(dir) + " && "
  }

  function InnerText(r: Request): string { CwdText(r.cwd) + EnvText(r.env) + ArgvText(r.argv) }

  function CommandText(r: Request): string {
    match r.stdin
    case None => InnerText(r)
    case Some(bytes) => "printf %s " + SingleQuoted(Encode(bytes)) + " | base64 -d | ( " + InnerText(r) + " )"
  }

  // ----- The writer, as it is written

  method SingleQuote(value: string) returns (quoted: string)
    ensures quoted == SingleQuoted(value)
  {
    quoted := "'";
    for i := 0 to |value|
      invariant quoted == "'" + EscapedBody(value[..i])
    {
      assert value[..i + 1][..i] == value[..i];
      if value[i] == '\'' {
        quoted := quoted + "'\\''";
      } else {
        quoted := quoted + [value[i]];
      }
    }
    assert value[..|value|] == value;
    quoted := quoted + "'";
  }

  method ComposeEnv(env: seq<Variable>) returns (text: string)
    ensures text == EnvText(env)
  {
    text := "";
    for i := 0 to |env|
      invariant text == EnvText(env[..i])
    {
      ghost var before := text;
      var v := env[i];
      assert env[..i + 1][..i] == env[..i];
      var quoted := SingleQuote(v.value);
      text := text + v.name;
      text := text + "=";
      text := text + quoted;
      text := text + " ";
      assert text == before + (v.name + "=" + quoted + " ");
    }
    assert env[..|env|] == env;
  }

  method Compose(r: Request) returns (line: string)
    ensures line == CommandText(r)
  {
    var inner := "";
    if r.cwd.Some? {
      var quoted := SingleQuote(r.cwd.value);
      inner := "cd " + quoted + " && ";
    }
    var env := ComposeEnv(r.env);
    inner := inner + env;
    var words := JoinArgv(r.argv);
    inner := inner + words;
    if r.stdin.Some? {
      var encoded := SingleQuote(Encode(r.stdin.value));
      line := "printf %s " + encoded + " | base64 -d | ( " + inner + " )";
    } else {
      line := inner;
    }
  }

  method JoinArgv(argv: seq<string>) returns (text: string)
    ensures text == ArgvText(argv)
  {
    text := "";
    for i := 0 to |argv|
      invariant text == ArgvText(argv[..i])
    {
      var quoted := SingleQuote(argv[i]);
      assert argv[..i + 1][..i] == argv[..i];
      text := if i == 0 then quoted else text + (" " + quoted);
    }
    assert argv[..|argv|] == argv;
  }

  // ----- Tokens of the written line

  lemma FeedAppend(st: Lex, a: string, b: string)
    ensures Feed(st, a + b) == Feed(Feed(st, a), b)
  {
    Scanner.ScanAppend(Step, st, a, b);
  }

  lemma FeedOne(st: Lex, c: char)
    ensures Feed(st, [c]) == Step(st, c)
  {
    Scanner.ScanOne(Step, st, c);
  }

  lemma FeedTwo(st: Lex, c: char, d: char)
    ensures Feed(st, [c, d]) == Step(Step(st, c), d)
  {
    Scanner.ScanTwo(Step, st, c, d);
  }

  lemma MarkedAppend(a: string, b: string, quoted: bool)
    ensures Marked(a + b, quoted) == Marked(a, quoted) + Marked(b, quoted)
  {}

  /** Closing, an escaped quote, and opening again adds one quoted quote. */
  lemma FeedEscapedQuote(tokens: seq<Token>, letters: seq<Letter>)
    ensures Feed(InQuotes(tokens, letters), "'\\''") == InQuotes(tokens, letters + [Letter('\'', true)])
  {
    assert "'\\''" == ['\'', '\\'] + ['\'', '\''];
    FeedAppend(InQuotes(tokens, letters), ['\'', '\\'], ['\'', '\'']);
    FeedTwo(InQuotes(tokens, letters), '\'', '\\');
    FeedTwo(AfterBackslash(tokens, letters), '\'', '\'');
  }

  lemma {:induction false} FeedBody(tokens: seq<Token>, letters: seq<Letter>, s: string)
    ensures Feed(InQuotes(tokens, letters), EscapedBody(s)) == InQuotes(tokens, letters + Marked(s, true))
    decreases |s|
  {
    var st := InQuotes(tokens, letters);
    if s == "" {
      assert letters + Marked(s, true) == letters;
    } else {
      hide Step;
      var init, last := s[..|s| - 1], s[|s| - 1];
      FeedBody(tokens, letters, init);
      var piece := if last == '\'' then "'\\''" else [last];
      FeedAppend(st, EscapedBody(init), piece);
      var read := letters + Marked(init, true);
      FeedPiece(tokens, read, last);
      assert s == init + [last];
      MarkedAppend(init, [last], true);
      assert read + [Letter(last, true)] == letters + Marked(s, true);
    }
  }

  lemma FeedPiece(tokens: seq<Token>, letters: seq<Letter>, c: char)
    ensures Feed(InQuotes(tokens, letters), if c == '\'' then "'\\''" else [c]) == InQuotes(tokens, letters + [Letter(c, true)])
  {
    if c == '\'' {
      FeedEscapedQuote(tokens, letters);
    } else {
      FeedOne(InQuotes(tokens, letters), c);
    }
  }

  /** A single-quoted value appends exactly its characters, quoted, to the word
      in progress or starts a word with them. */
  lemma FeedSingleQuoted(tokens: seq<Token>, letters: seq<Letter>, s: string)
    ensures Feed(InWord(tokens, letters), SingleQuoted(s)) == InWord(tokens, letters + Marked(s, true))
    ensures Feed(Idle(tokens), SingleQuoted(s)) == InWord(tokens, Marked(s, true))
  {
    hide EscapedBody;
    assert SingleQuoted(s) == ['\''] + (EscapedBody(s) + ['\'']);
    FeedAppend(InWord(tokens, letters), ['\''], EscapedBody(s) + ['\'']);
    FeedAppend(Idle(tokens), ['\''], EscapedBody(s) + ['\'']);
    FeedOne(InWord(tokens, letters), '\'');
    FeedOne(Idle(tokens), '\'');
    FeedClosed(tokens, letters, s);
    FeedClosed(tokens, [], s);
    assert [] + Marked(s, true) == Marked(s, true);
  }

  lemma FeedClosed(tokens: seq<Token>, letters: seq<Letter>, s: string)
    ensures Feed(InQuotes(tokens, letters), EscapedBody(s) + ['\'']) == InWord(tokens, letters + Marked(s, true))
  {
    FeedAppend(InQuotes(tokens, letters), EscapedBody(s), ['\'']);
    FeedBody(tokens, letters, s);
    FeedOne(InQuotes(tokens, letters + Marked(s, true)), '\'');
  }

  predicate Ordinary(c: char) {
    !Blank(c) && !OperatorChar(c) && !Expanding(c) && c != '\'' && c != '\\' && c != '#'
  }

  lemma {:induction false} FeedOrdinary(tokens: seq<Token>, letters: seq<Letter>, s: string)
    requires forall c | c in s :: Ordinary(c)
    ensures Feed(InWord(tokens, letters), s) == InWord(tokens, letters + Marked(s, false))
    decreases |s|
  {
    if s == "" {
      assert letters + Marked(s, false) == letters;
    } else {
      assert s[0] in s && (forall c | c in s[1..] :: c in s);
      FeedOrdinary(tokens, letters + [Letter(s[0], false)], s[1..]);
      assert letters + [Letter(s[0], false)] + Marked(s[1..], false) == letters + Marked(s, false);
    }
  }

  lemma FeedPlain(tokens: seq<Token>, s: string)
    requires s != "" && forall c | c in s :: Ordinary(c)
    ensures Feed(Idle(tokens), s) == InWord(tokens, Marked(s, false))
  {
    assert s[0] in s;
    assert Step(Idle(tokens), s[0]) == Step(InWord(tokens, []), s[0]);
    FeedOrdinary(tokens, [], s);
    assert [] + Marked(s, false) == Marked(s, false);
  }

  lemma FeedPlainThenBlank(tokens: seq<Token>, s: string)
    requires s != "" && forall c | c in s :: Ordinary(c)
    ensures Feed(Idle(tokens), s + " ") == Idle(tokens + [Plain(s)])
  {
    FeedAppend(Idle(tokens), s, " ");
    FeedPlain(tokens, s);
    FeedOne(InWord(tokens, Marked(s, false)), ' ');
  }

  // ----- The parts of the line

  function EnvToken(v: Variable): Token {
    Word(Marked(v.name, false) + [Letter('=', false)] + Marked(v.value, true))
  }

  function EnvTokens(env: seq<Variable>): (r: seq<Token>)
    ensures |r| == |env| && forall i | 0 <= i < |env| :: r[i] == EnvToken(env[i])
  {
    seq(|env|, i requires 0 <= i < |env| => EnvToken(env[i]))
  }

  function ArgvTokens(argv: seq<string>): (r: seq<Token>)
    ensures |r| == |argv| && forall i | 0 <= i < |argv| :: r[i] == Word(Marked(argv[i], true))
  {
    seq(|argv|, i requires 0 <= i < |argv| => Word(Marked(argv[i], true)))
  }

  function CwdTokens(cwd: Option<string>): seq<Token> {
    match cwd
    case None => []
    case Some(dir) => [Plain("cd"), Word(Marked(dir, true)), Operator("&&")]
  }

  function InnerTokens(r: Request): seq<Token> { CwdTokens(r.cwd) + EnvTokens(r.env) + ArgvTokens(r.argv) }

  ghost predicate Portable(r: Request) { forall v | v in r.env :: ValidName(v.name) }

  /** The lexer has read exactly `tokens`, whatever separator comes next. */
  ghost predicate HasRead(st: Lex, tokens: seq<Token>) {
    Finish(st) == Some(tokens) && Step(st, ' ') == Idle(tokens)
  }

  lemma NameIsOrdinary(s: string)
    requires ValidName(s)
    ensures forall c | c in s :: Ordinary(c)
  {}

  lemma FeedVariable(tokens: seq<Token>, v: Variable)
    requires ValidName(v.name)
    ensures Feed(Idle(tokens), v.name + "=" + SingleQuoted(v.value) + " ") == Idle(tokens + [EnvToken(v)])
  {
    hide SingleQuoted;
    var st, letters := Idle(tokens), Marked(v.name, false) + [Letter('=', false)];
    NameIsOrdinary(v.name);
    FeedPlain(tokens, v.name);
    FeedAppend(st, v.name, "=");
    FeedOne(InWord(tokens, Marked(v.name, false)), '=');
    FeedAppend(st, v.name + "=", SingleQuoted(v.value));
    FeedSingleQuoted(tokens, letters, v.value);
    FeedAppend(st, v.name + "=" + SingleQuoted(v.value), " ");
    FeedOne(InWord(tokens, letters + Marked(v.value, true)), ' ');
  }

  lemma {:induction false} FeedEnv(tokens: seq<Token>, env: seq<Variable>)
    requires forall v | v in env :: ValidName(v.name)
    ensures Feed(Idle(tokens), EnvText(env)) == Idle(tokens + EnvTokens(env))
    decreases |env|
  {
    if env == [] {
      assert tokens + EnvTokens(env) == tokens;
    } else {
      hide Feed, SingleQuoted, ValidName;
      var init, last := env[..|env| - 1], env[|env| - 1];
      FeedEnv(tokens, init);
      FeedAppend(Idle(tokens), EnvText(init), last.name + "=" + SingleQuoted(last.value) + " ");
      FeedVariable(tokens + EnvTokens(init), last);
      assert tokens + EnvTokens(init) + [EnvToken(last)] == tokens + EnvTokens(env);
    }
  }

  lemma {:induction false} FeedArgv(tokens: seq<Token>, argv: seq<string>)
    ensures HasRead(Feed(Idle(tokens), ArgvText(argv)), tokens + ArgvTokens(argv))
    decreases |argv|
  {
    if argv == [] {
      assert tokens + ArgvTokens(argv) == tokens;
    } else {
      var init, last := argv[..|argv| - 1], argv[|argv| - 1];
      var before := tokens + ArgvTokens(init);
      assert before + [Word(Marked(last, true))] == tokens + ArgvTokens(argv);
      FeedSingleQuoted(before, [], last);
      if |argv| == 1 {
        assert before == tokens;
      } else {
        FeedArgv(tokens, init);
        FeedAppend(Idle(tokens), ArgvText(init), " " + SingleQuoted(last));
        assert (" " + SingleQuoted(last))[1..] == SingleQuoted(last);
      }
    }
  }

  lemma FeedCwd(tokens: seq<Token>, cwd: Option<string>)
    ensures Feed(Idle(tokens), CwdText(cwd)) == Idle(tokens + CwdTokens(cwd))
  {
    match cwd
    case None => assert tokens + [] == tokens;
    case Some(dir) =>
      hide Feed, SingleQuoted, Marked;
      var t := tokens + [Plain("cd")];
      FeedCd(tokens);
      FeedSingleQuoted(t, [], dir);
      FeedAnd(t, Marked(dir, true));
      FeedThree(Idle(tokens), "cd ", SingleQuoted(dir), " && ");
      assert t + [Word(Marked(dir, true))] + [Operator("&&")] == tokens + CwdTokens(cwd);
  }

  lemma FeedCd(tokens: seq<Token>)
    ensures Feed(Idle(tokens), "cd ") == Idle(tokens + [Plain("cd")])
  {
    hide Feed;
    assert "cd" + " " == "cd ";
    FeedPlainThenBlank(tokens, "cd");
  }

  /** Three texts in a row, each read on its own. */
  lemma FeedThree(st: Lex, a: string, b: string, c: string)
    ensures Feed(st, a + b + c) == Feed(Feed(Feed(st, a), b), c)
  {
    hide Feed;
    FeedAppend(st, a, b);
    FeedAppend(st, a + b, c);
  }

  lemma FeedAnd(tokens: seq<Token>, letters: seq<Letter>)
    ensures Feed(InWord(tokens, letters), " && ") == Idle(tokens + [Word(letters)] + [Operator("&&")])
  {
    var t := tokens + [Word(letters)];
    assert " && " == [' ', '&'] + ['&', ' '];
    FeedAppend(InWord(tokens, letters), [' ', '&'], ['&', ' ']);
    FeedTwo(InWord(tokens, letters), ' ', '&');
    FeedTwo(InOperator(t, "&"), '&', ' ');
    assert "&" + ['&'] == "&&";
    assert |"&&" + [' ']| == 3 && ("&&" + [' '])[2] == ' ';
    assert !IsOperator("&&" + [' ']);
  }

  lemma FeedInner(tokens: seq<Token>, r: Request)
    requires Portable(r)
    ensures HasRead(Feed(Idle(tokens), InnerText(r)), tokens + InnerTokens(r))
  {
    hide Feed, CwdText, EnvText, ArgvText, HasRead, CwdTokens, EnvTokens, ArgvTokens;
    var t1 := tokens + CwdTokens(r.cwd);
    var t2 := t1 + EnvTokens(r.env);
    FeedCwd(tokens, r.cwd);
    FeedEnv(t1, r.env);
    FeedArgv(t2, r.argv);
    FeedThree(Idle(tokens), CwdText(r.cwd), EnvText(r.env), ArgvText(r.argv));
    assert t2 + ArgvTokens(r.argv) == tokens + InnerTokens(r);
  }

  function PipePrefix(encoded: string): seq<Token> {
    [Plain("printf"), Plain("%s"), Word(Marked(encoded, true)), Operator("|")]
    + [Plain("base64"), Plain("-d"), Operator("|"), Operator("(")]
  }

  function CommandTokens(r: Request): seq<Token> {
    match r.stdin
    case None => InnerTokens(r)
    case Some(bytes) => PipePrefix(Encode(bytes)) + InnerTokens(r) + [Operator(")")]
  }

  lemma FeedBar(tokens: seq<Token>)
    ensures Feed(Idle(tokens), "| ") == Idle(tokens + [Operator("|")])
  {
    FeedTwo(Idle(tokens), '|', ' ');
    assert ("|" + [' '])[1] == ' ' && |"|" + [' ']| == 2;
    assert !IsOperator("|" + [' ']);
  }

  lemma FeedOpen(tokens: seq<Token>)
    ensures Feed(Idle(tokens), "( ") == Idle(tokens + [Operator("(")])
  {
    FeedTwo(Idle(tokens), '(', ' ');
    assert ("(" + [' '])[1] == ' ' && |"(" + [' ']| == 2;
    assert !IsOperator("(" + [' ']);
  }

  lemma FeedPrintf(tokens: seq<Token>)
    ensures Feed(Idle(tokens), "printf ") == Idle(tokens + [Plain("printf")])
  {
    assert "printf" + " " == "printf ";
    FeedPlainThenBlank(tokens, "printf");
  }

  lemma FeedFormat(tokens: seq<Token>)
    ensures Feed(Idle(tokens), "%s ") == Idle(tokens + [Plain("%s")])
  {
    assert "%s" + " " == "%s ";
    FeedPlainThenBlank(tokens, "%s");
  }

  lemma FeedBase64(tokens: seq<Token>)
    ensures Feed(Idle(tokens), "base64 ") == Idle(tokens + [Plain("base64")])
  {
    assert "base64" + " " == "base64 ";
    FeedPlainThenBlank(tokens, "base64");
  }

  lemma FeedFlag(tokens: seq<Token>)
    ensures Feed(Idle(tokens), "-d ") == Idle(tokens + [Plain("-d")])
  {
    assert "-d" + " " == "-d ";
    FeedPlainThenBlank(tokens, "-d");
  }

  lemma FeedSource(encoded: string)
    ensures Feed(Idle([]), "printf %s " + SingleQuoted(encoded) + " ") ==
            Idle([Plain("printf"), Plain("%s"), Word(Marked(encoded, true))])
  {
    hide SingleQuoted, Feed, Marked, Plain, IsOperator;
    var t1, t2 := [Plain("printf")], [Plain("printf"), Plain("%s")];
    FeedPrintf([]);
    assert [] + [Plain("printf")] == t1;
    FeedFormat(t1);
    assert t1 + [Plain("%s")] == t2;
    assert "printf " + "%s " == "printf %s ";
    FeedAppend(Idle([]), "printf ", "%s ");
    FeedAppend(Idle([]), "printf %s ", SingleQuoted(encoded));
    FeedSingleQuoted(t2, [], encoded);
    FeedAppend(Idle([]), "printf %s " + SingleQuoted(encoded), " ");
    FeedOne(InWord(t2, Marked(encoded, true)), ' ');
    assert t2 + [Word(Marked(encoded, true))] == [Plain("printf"), Plain("%s"), Word(Marked(encoded, true))];
  }

  lemma FeedDecoder(tokens: seq<Token>)
    ensures Feed(Idle(tokens), "| base64 -d | ( ") ==
            Idle(tokens + [Operator("|")] + [Plain("base64"), Plain("-d"), Operator("|"), Operator("(")])
  {
    hide Feed, Plain, IsOperator, Step;
    var t1 := tokens + [Operator("|")];
    var t2 := t1 + [Plain("base64")];
    var t3 := t2 + [Plain("-d")];
    var t4 := t3 + [Operator("|")];
    FeedBar(tokens);
    FeedBase64(t1);
    FeedFlag(t2);
    FeedBar(t3);
    FeedOpen(t4);
    var s1 := "| " + "base64 ";
    var s2 := s1 + "-d ";
    var s3 := s2 + "| ";
    FeedAppend(Idle(tokens), "| ", "base64 ");
    FeedAppend(Idle(tokens), s1, "-d ");
    FeedAppend(Idle(tokens), s2, "| ");
    FeedAppend(Idle(tokens), s3, "( ");
    assert s3 + "( " == "| base64 -d | ( ";
    assert t4 + [Operator("(")] == tokens + [Operator("|")] + [Plain("base64"), Plain("-d"), Operator("|"), Operator("(")];
  }

  lemma FeedPipe(encoded: string)
    ensures Feed(Idle([]), "printf %s " + SingleQuoted(encoded) + " | base64 -d | ( ") == Idle(PipePrefix(encoded))
  {
    hide SingleQuoted, Feed;
    var head := "printf %s " + SingleQuoted(encoded);
    FeedSource(encoded);
    var t := [Plain("printf"), Plain("%s"), Word(Marked(encoded, true))];
    FeedDecoder(t);
    FeedAppend(Idle([]), head + " ", "| base64 -d | ( ");
    assert head + " " + "| base64 -d | ( " == head + " | base64 -d | ( ";
    assert t + [Operator("|")] + [Plain("base64"), Plain("-d"), Operator("|"), Operator("(")] == PipePrefix(encoded);
  }

  lemma FeedClose(st: Lex, tokens: seq<Token>)
    requires HasRead(st, tokens)
    ensures Finish(Feed(st, " )")) == Some(tokens + [Operator(")")])
  {
    assert " )" == [' ', ')'];
    FeedTwo(st, ' ', ')');
  }

  /** The shell sees exactly the intended tokens. */
  lemma CommandTokenised(r: Request)
    requires Portable(r)
    ensures Finish(Feed(Idle([]), CommandText(r))) == Some(CommandTokens(r))
  {
    hide InnerText, InnerTokens, SingleQuoted, Feed, PipePrefix;
    match r.stdin
    case None =>
      FeedInner([], r);
      assert [] + InnerTokens(r) == InnerTokens(r);
    case Some(bytes) =>
      var head := "printf %s " + SingleQuoted(Encode(bytes)) + " | base64 -d | ( ";
      var prefix := PipePrefix(Encode(bytes));
      FeedPipe(Encode(bytes));
      FeedInner(prefix, r);
      FeedAppend(Idle([]), head, InnerText(r));
      FeedAppend(Idle([]), head + InnerText(r), " )");
      FeedClose(Feed(Idle(prefix), InnerText(r)), prefix + InnerTokens(r));
  }

  // ----- Reading the tokens back

  lemma {:induction false} TextOfMarked(s: string, quoted: bool)
    ensures Text(Marked(s, quoted)) == s
    decreases |s|
  {
    if s != "" {
      TextOfMarked(s[1..], quoted);
      assert Marked(s, quoted)[1..] == Marked(s[1..], quoted);
      assert s == [s[0]] + s[1..];
    }
  }

  lemma {:induction false} NameLengthExact(letters: seq<Letter>, n: nat)
    requires n <= |letters| && (forall i | 0 <= i < n :: !letters[i].quoted && NameChar(letters[i].c))
    requires n < |letters| ==> letters[n].quoted || !NameChar(letters[n].c)
    ensures NameLength(letters) == n
    decreases n
  {
    if n > 0 { NameLengthExact(letters[1..], n - 1); }
  }

  lemma AssignmentOfEnv(v: Variable)
    requires ValidName(v.name)
    ensures Assignment(EnvToken(v)) == Some(v)
  {
    var letters := EnvToken(v).letters;
    forall i | 0 <= i < |v.name| ensures !letters[i].quoted && NameChar(letters[i].c) {
      assert letters[i] == Letter(v.name[i], false) && v.name[i] in v.name;
    }
    NameLengthExact(letters, |v.name|);
    assert letters[..|v.name|] == Marked(v.name, false);
    assert letters[|v.name| + 1..] == Marked(v.value, true);
    TextOfMarked(v.name, false);
    TextOfMarked(v.value, true);
  }

  lemma ArgumentIsNoAssignment(a: string)
    ensures Assignment(Word(Marked(a, true))) == None
  {
    NameLengthExact(Marked(a, true), 0);
  }

  lemma {:induction false} ReadArgv(argv: seq<string>)
    ensures ReadWords(ArgvTokens(argv)) == Some(argv)
    decreases |argv|
  {
    if argv != [] {
      ReadArgv(argv[1..]);
      assert ArgvTokens(argv)[1..] == ArgvTokens(argv[1..]);
      TextOfMarked(argv[0], true);
      assert argv == [argv[0]] + argv[1..];
    }
  }

  lemma {:induction false} ReadEnvArgv(env: seq<Variable>, argv: seq<string>)
    requires forall v | v in env :: ValidName(v.name)
    ensures ReadSimple(EnvTokens(env) + ArgvTokens(argv)) == Some((env, argv))
    decreases |env|
  {
    hide Assignment, EnvToken, Marked, Text;
    var tokens := EnvTokens(env) + ArgvTokens(argv);
    if env == [] {
      assert tokens == ArgvTokens(argv);
      if argv != [] { ArgumentIsNoAssignment(argv[0]); }
      ReadArgv(argv);
    } else {
      AssignmentOfEnv(env[0]);
      assert tokens[1..] == EnvTokens(env[1..]) + ArgvTokens(argv);
      ReadEnvArgv(env[1..], argv);
      assert env == [env[0]] + env[1..];
    }
  }

  lemma ReadInnerTokens(r: Request)
    requires Portable(r)
    ensures ReadInner(InnerTokens(r), r.stdin) == Some(r)
  {
    hide EnvToken, Marked, Text, ReadSimple, Assignment;
    var tokens, rest := InnerTokens(r), EnvTokens(r.env) + ArgvTokens(r.argv);
    ReadEnvArgv(r.env, r.argv);
    assert tokens == CwdTokens(r.cwd) + rest;
    match r.cwd
    case None =>
      assert tokens == rest;
      NoOperators(r.env, r.argv);
      if |tokens| >= 3 { assert tokens[2] in rest; }
    case Some(dir) =>
      TextOfMarked(dir, true);
      assert tokens[3..] == rest;
  }

  lemma NoOperators(env: seq<Variable>, argv: seq<string>)
    ensures forall t | t in EnvTokens(env) + ArgvTokens(argv) :: t.Word?
  {
    hide Marked;
    var tokens := EnvTokens(env) + ArgvTokens(argv);
    forall i | 0 <= i < |tokens| ensures tokens[i].Word? {
      if i < |env| { assert tokens[i] == EnvToken(env[i]); }
    }
  }

  lemma InnerIsNotPiped(r: Request)
    ensures !Piped(InnerTokens(r))
  {
    var tokens, rest := InnerTokens(r), EnvTokens(r.env) + ArgvTokens(r.argv);
    if |tokens| >= 9 {
      assert tokens == CwdTokens(r.cwd) + rest;
      assert tokens[3] == rest[3 - |CwdTokens(r.cwd)|];
    }
  }

  lemma WrittenIsRead(r: Request)
    requires Portable(r)
    ensures Read(CommandText(r)) == Some(r)
  {
    hide InnerTokens, CommandText, Feed, Finish, ReadInner;
    CommandTokenised(r);
    ReadInnerTokens(r);
    match r.stdin
    case None => InnerIsNotPiped(r);
    case Some(bytes) =>
      var tokens, prefix := CommandTokens(r), PipePrefix(Encode(bytes));
      assert tokens == prefix + InnerTokens(r) + [Operator(")")];
      assert tokens[8..|tokens| - 1] == InnerTokens(r);
      assert forall i | 0 <= i < 8 :: tokens[i] == prefix[i];
      TextOfMarked(Encode(bytes), true);
      RoundTrip(bytes);
  }

  lemma {:induction false} ReadNamesAreValid(tokens: seq<Token>)
    requires ReadSimple(tokens).Some?
    ensures forall v | v in ReadSimple(tokens).value.0 :: ValidName(v.name)
    decreases |tokens|
  {
    if tokens != [] && Assignment(tokens[0]).Some? { ReadNamesAreValid(tokens[1..]); }
  }

  /** The composed line, read by the shell's own rules, gives back directory,
      environment, arguments and standard input exactly, precisely when every
      variable has a valid name: names are the one part that is written unquoted. */
  lemma TextRoundTrip(r: Request)
    ensures Read(CommandText(r)) == Some(r) <==> Portable(r)
  {
    hide CommandText, Feed;
    if Portable(r) {
      WrittenIsRead(r);
    } else if Read(CommandText(r)) == Some(r) {
      var tokens := Finish(Feed(Idle([]), CommandText(r))).value;
      var inner := if Piped(tokens) then tokens[8..|tokens| - 1] else tokens;
      var moved := |inner| >= 3 && inner[0] == Plain("cd") && inner[1].Word? && inner[2] == Operator("&&");
      ReadNamesAreValid(if moved then inner[3..] else inner);
    }
  }

  // ----- Handing the line to a shell

  const NUL: char := 0 as char

  /** A line reaches the shell as a NUL-terminated argument, so one that
      contains a NUL does not reach it. */
  function Delivered(line: string): Option<Request> { if NUL in line then None else Read(line) }

  ghost predicate NulFree(r: Request) {
    && (r.cwd.Some? ==> NUL !in r.cwd.value)
    && (forall v | v in r.env :: NUL !in v.name && NUL !in v.value)
    && (forall a | a in r.argv :: NUL !in a)
  }

  lemma {:induction false} NulQuoted(s: string)
    ensures NUL in SingleQuoted(s) <==> NUL in s
    ensures NUL in EscapedBody(s) <==> NUL in s
    decreases |s|
  {
    if s != "" {
      var init, c := s[..|s| - 1], s[|s| - 1];
      NulQuoted(init);
      assert s == init + [c];
      assert NUL in EscapedBody(s) <==> NUL in EscapedBody(init) || c == NUL;
    }
  }

  lemma {:induction false} NulEnv(env: seq<Variable>)
    ensures NUL in EnvText(env) <==> exists v | v in env :: NUL in v.name || NUL in v.value
    decreases |env|
  {
    if env != [] {
      hide SingleQuoted;
      var init, v := env[..|env| - 1], env[|env| - 1];
      NulEnv(init);
      NulQuoted(v.value);
      assert env == init + [v];
      assert NUL in EnvText(env) <==> NUL in EnvText(init) || NUL in v.name || NUL in SingleQuoted(v.value);
    }
  }

  lemma {:induction false} NulArgv(argv: seq<string>)
    ensures NUL in ArgvText(argv) <==> exists a | a in argv :: NUL in a
    decreases |argv|
  {
    if argv != [] {
      hide SingleQuoted;
      var init, a := argv[..|argv| - 1], argv[|argv| - 1];
      NulArgv(init);
      NulQuoted(a);
      assert argv == init + [a];
      assert NUL in ArgvText(argv) <==> NUL in ArgvText(init) || NUL in SingleQuoted(a);
    }
  }

  lemma NulInner(r: Request)
    ensures NUL in InnerText(r) <==> !NulFree(r)
  {
    hide SingleQuoted, EnvText, ArgvText;
    NulEnv(r.env);
    NulArgv(r.argv);
    if r.cwd.Some? { NulQuoted(r.cwd.value); }
    assert NUL in CwdText(r.cwd) <==> r.cwd.Some? && NUL in r.cwd.value;
  }

  lemma {:induction false} EncodedNulFree(bytes: seq<Byte>)
    ensures NUL !in Encode(bytes)
    decreases |bytes|
  {
    if |bytes| > 2 { EncodedNulFree(bytes[3..]); }
  }

  lemma NulCommand(r: Request)
    ensures NUL in CommandText(r) <==> !NulFree(r)
  {
    hide SingleQuoted, InnerText, NulFree;
    NulInner(r);
    match r.stdin
    case None =>
    case Some(bytes) =>
      EncodedNulFree(bytes);
      NulQuoted(Encode(bytes));
  }

  /** The line reaches the shell and is read back as the request exactly when the
      variable names are valid and no value but standard input, which is
      encoded, contains a NUL. */
  lemma CommandRoundTrip(r: Request)
    ensures Delivered(CommandText(r)) == Some(r) <==> Portable(r) && NulFree(r)
  {
    hide CommandText, Portable, NulFree, Read;
    TextRoundTrip(r);
    NulCommand(r);
  }
}
