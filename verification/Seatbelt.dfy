/** Seatbelt profiles: the rendered text of a directory jail, a reader for it,
    and what the profile permits when the last matching rule decides. */
module Seatbelt {

  import opened Wrappers
  import Scanner

  // ----- Paths

  /** A canonical absolute path as its components; the root directory is []. */
  type Path = seq<string>

  predicate ValidName(s: string) { s != "" && '/' !in s }

  predicate ValidPath(p: Path) { forall s | s in p :: ValidName(s) }

  function PathText(p: Path): string {
    if p == [] then "/" else Joined(p)
  }

  function Joined(p: Path): string {
    if p == [] then "" else Joined(p[..|p| - 1]) + "/" + p[|p| - 1]
  }

  /** The non-empty components of a path text. */
  function Components(s: string): Path { Split(s, "", []) }

  function Split(s: string, name: string, done: Path): Path
    decreases |s|
  {
    if s == "" then (if name == "" then done else done + [name])
    else if s[0] == '/' then Split(s[1..], "", if name == "" then done else done + [name])
    else Split(s[1..], name + [s[0]], done)
  }

  predicate Under(p: Path, base: Path) { base <= p }

  datatype Jail = Jail(root: Path, readWrite: seq<Path>, denyRead: seq<Path>, allowNet: bool, allowSubprocess: bool)

  predicate ValidJail(j: Jail) {
    ValidPath(j.root) && (forall p | p in j.readWrite :: ValidPath(p)) && (forall p | p in j.denyRead :: ValidPath(p))
  }

  // ----- Rules and decisions

  datatype Matcher = Subpath(text: string) | Literal(text: string)

  datatype Rule = Rule(allow: bool, operations: seq<string>, filters: seq<Matcher>)

  /** `default` covers every operation and a trailing star every extension. */
  predicate Covers(pattern: string, op: string) {
    || pattern == "default"
    || (pattern != "" && pattern[|pattern| - 1] == '*' && pattern[..|pattern| - 1] <= op)
    || pattern == op
  }

  predicate Selects(f: Matcher, path: string) {
    match f
    case Subpath(text) => Components(text) <= Components(path)
    case Literal(text) => text == path
  }

  predicate Applies(r: Rule, op: string, path: string) {
    && (exists o | o in r.operations :: Covers(o, op))
    && (r.filters == [] || exists f | f in r.filters :: Selects(f, path))
  }

  /** The last applicable rule decides; without one the operation is denied. */
  function Permits(rules: seq<Rule>, op: string, path: string): bool {
    if rules == [] then false
    else if Applies(rules[|rules| - 1], op, path) then rules[|rules| - 1].allow
    else Permits(rules[..|rules| - 1], op, path)
  }

  // ----- The reader

  datatype Token = Open | Close | Atom(text: string) | Str(text: string)

  datatype Lex =
    | Gap(tokens: seq<Token>)
    | InAtom(tokens: seq<Token>, text: string)
    | InString(tokens: seq<Token>, text: string)
    | InEscape(tokens: seq<Token>, text: string)
    | Malformed

  predicate Space(c: char) { c == ' ' || c == '\n' || c == '\t' }

  predicate AtomChar(c: char) { !Space(c) && c != '(' && c != ')' && c != '\"' && c != '\\' && c != ';' }

  function Outside(tokens: seq<Token>, c: char): Lex {
    if Space(c) then Gap(tokens)
    else if c == '(' then Gap(tokens + [Open])
    else if c == ')' then Gap(tokens + [Close])
    else if c == '\"' then InString(tokens, "")
    else if AtomChar(c) then InAtom(tokens, [c])
    else Malformed
  }

  function Step(st: Lex, c: char): Lex {
    match st
    case Gap(tokens) => Outside(tokens, c)
    case InAtom(tokens, text) => if AtomChar(c) then InAtom(tokens, text + [c]) else Outside(tokens + [Atom(text)], c)
    case InString(tokens, text) =>
      if c == '\"' then Gap(tokens + [Str(text)])
      else if c == '\\' then InEscape(tokens, text)
      else InString(tokens, text + [c])
    case InEscape(tokens, text) => if c == '\"' || c == '\\' then InString(tokens, text + [c]) else Malformed
    case Malformed => Malformed
  }

  function Feed(st: Lex, s: string): Lex { Scanner.Scan(Step, st, s) }

  /** Leading atoms. */
  function AtomsAhead(tokens: seq<Token>): (n: nat)
    ensures n <= |tokens| && forall i | 0 <= i < n :: tokens[i].Atom?
  {
    if tokens == [] || !tokens[0].Atom? then 0 else 1 + AtomsAhead(tokens[1..])
  }

  function AtomTexts(tokens: seq<Token>): seq<string>
    requires forall t | t in tokens :: t.Atom?
  {
    if tokens == [] then [] else [tokens[0].text] + AtomTexts(tokens[1..])
  }

  /** Filters up to the closing parenthesis of the rule, and what follows it. */
  function ReadFilters(tokens: seq<Token>): (r: Option<(seq<Matcher>, seq<Token>)>)
    ensures r.Some? ==> |r.value.1| < |tokens|
  {
    if tokens == [] then None
    else if tokens[0] == Close then Some(([], tokens[1..]))
    else if |tokens| >= 4 && tokens[0] == Open && tokens[2].Str? && tokens[3] == Close
            && (tokens[1] == Atom("subpath") || tokens[1] == Atom("literal")) then
      var f := if tokens[1] == Atom("subpath") then Subpath(tokens[2].text) else Literal(tokens[2].text);
      match ReadFilters(tokens[4..])
      case None => None
      case Some((fs, rest)) => Some(([f] + fs, rest))
    else None
  }

  function ReadRules(tokens: seq<Token>): Option<seq<Rule>>
    decreases |tokens|
  {
    if tokens == [] then Some([])
    else if |tokens| < 2 || tokens[0] != Open || !(tokens[1] == Atom("allow") || tokens[1] == Atom("deny")) then None
    else
      var n := AtomsAhead(tokens[2..]);
      match ReadFilters(tokens[2 + n..])
      case None => None
      case Some((fs, rest)) =>
        match ReadRules(rest)
        case None => None
        case Some(rules) => Some([Rule(tokens[1] == Atom("allow"), AtomTexts(tokens[2..2 + n]), fs)] + rules)
  }

  const VERSION := [Open, Atom("version"), Atom("1"), Close]

  function ReadProfile(text: string): Option<seq<Rule>> {
    match Feed(Gap([]), text)
    case Gap(tokens) => if VERSION <= tokens then ReadRules(tokens[4..]) else None
    case _ => None
  }

  // ----- The writer, as functions

  /** `str::replace` of one character. */
  function Replace(s: string, c: char, text: string): string {
    if s == "" then "" else (if s[0] == c then text else [s[0]]) + Replace(s[1..], c, text)
  }

  function Escaped(s: string): string { Replace(Replace(s, '\\', "\\\\"), '\"', "\\\"") }

  function SubpathLine(text: string): string { "  (subpath \"" + Escaped(text) + "\")\n" }

  function Lines(paths: seq<Path>): string {
    if paths == [] then "" else Lines(paths[..|paths| - 1]) + SubpathLine(PathText(paths[|paths| - 1]))
  }

  function Gates(j: Jail): string {
    (if j.allowNet then "" else NET_GATE) + (if j.allowSubprocess then "" else FORK_GATE + EXEC_GATE)
  }

  const NET_GATE := "(deny network*)\n"
  const FORK_GATE := "(deny process-fork)\n"
  const EXEC_GATE := "(deny process-exec)\n"

  const SCRATCH_LINES := "  (subpath \"/private/tmp\")\n  (literal \"/dev/null\")\n)\n"

  function Denials(paths: seq<Path>): string {
    if paths == [] then "" else "(deny file-read* file-write*\n" + Lines(paths) + ")\n"
  }

  function ProfileText(j: Jail): string {
    "(version 1)\n" + "(allow default)\n" + Gates(j) + "(deny file-write*)\n" + "(allow file-write*\n"
    + Lines([j.root] + j.readWrite) + SCRATCH_LINES + Denials(j.denyRead)
  }

  // ----- The writer, as it is written

  method RenderPaths(out: string, paths: seq<Path>) returns (result: string)
    ensures result == out + Lines(paths)
  {
    hide SubpathLine, PathText;
    result := out;
    for i := 0 to |paths|
      invariant result == out + Lines(paths[..i])
    {
      assert paths[..i + 1][..i] == paths[..i];
      result := result + SubpathLine(PathText(paths[i]));
    }
    assert paths[..|paths|] == paths;
  }

  method RenderGates(out: string, j: Jail) returns (result: string)
    ensures result == out + Gates(j)
  {
    hide NET_GATE, FORK_GATE, EXEC_GATE;
    result := out;
    if !j.allowNet { result := result + NET_GATE; }
    if !j.allowSubprocess {
      result := result + FORK_GATE;
      result := result + EXEC_GATE;
    }
  }

  method RenderDenials(out: string, paths: seq<Path>) returns (result: string)
    ensures result == out + Denials(paths)
  {
    hide Lines;
    result := out;
    if paths != [] {
      result := result + "(deny file-read* file-write*\n";
      result := RenderPaths(result, paths);
      result := result + ")\n";
    }
  }

  method RenderProfile(j: Jail) returns (out: string)
    ensures out == ProfileText(j)
  {
    hide Lines, Gates, Denials;
    out := "(version 1)\n";
    out := out + "(allow default)\n";
    out := RenderGates(out, j);
    out := out + "(deny file-write*)\n";
    out := out + "(allow file-write*\n";
    out := RenderPaths(out, [j.root] + j.readWrite);
    out := out + SCRATCH_LINES;
    out := RenderDenials(out, j.denyRead);
  }

  // ----- Tokens of the rendered text

  lemma FeedAppend(st: Lex, a: string, b: string)
    ensures Feed(st, a + b) == Feed(Feed(st, a), b)
  {
    Scanner.ScanAppend(Step, st, a, b);
  }

  lemma FeedOne(st: Lex, c: char)
    ensures Feed(st, [c]) == Step(st, c)
  {
    Scanner.ScanOne(Step, st, c);
  }

  lemma FeedTwo(st: Lex, c: char, d: char)
    ensures Feed(st, [c, d]) == Step(Step(st, c), d)
  {
    Scanner.ScanTwo(Step, st, c, d);
  }

  ghost predicate AtomText(s: string) { s != "" && forall c | c in s :: AtomChar(c) }

  lemma {:induction false} FeedAtomChars(tokens: seq<Token>, text: string, s: string)
    requires forall c | c in s :: AtomChar(c)
    ensures Feed(InAtom(tokens, text), s) == InAtom(tokens, text + s)
    decreases |s|
  {
    if s == "" {
      assert text + s == text;
    } else {
      assert s[0] in s && (forall c | c in s[1..] :: c in s);
      FeedAtomChars(tokens, text + [s[0]], s[1..]);
      assert text + [s[0]] + s[1..] == text + s;
    }
  }

  /** An atom and the space or parenthesis that ends it. */
  lemma FeedAtom(tokens: seq<Token>, s: string, c: char)
    requires AtomText(s) && (Space(c) || c == ')')
    ensures Feed(Gap(tokens), s + [c]) == Gap(tokens + [Atom(s)] + if c == ')' then [Close] else [])
  {
    assert s[0] in s && (forall x | x in s[1..] :: x in s);
    FeedAtomChars(tokens, [s[0]], s[1..]);
    assert [s[0]] + s[1..] == s;
    FeedAppend(Gap(tokens), s, [c]);
    FeedOne(InAtom(tokens, s), c);
    assert tokens + [Atom(s)] + [] == tokens + [Atom(s)];
  }

  /** `(verb op` and the character after it. */
  lemma FeedHead(tokens: seq<Token>, verb: string, op: string, c: char)
    requires AtomText(verb) && AtomText(op) && (Space(c) || c == ')')
    ensures Feed(Gap(tokens), "(" + verb + " " + op + [c]) ==
            Gap(tokens + [Open, Atom(verb), Atom(op)] + if c == ')' then [Close] else [])
  {
    hide AtomText;
    var t1, t2 := tokens + [Open], tokens + [Open] + [Atom(verb)];
    FeedOne(Gap(tokens), '(');
    FeedAtom(t1, verb, ' ');
    FeedAtom(t2, op, c);
    assert t1 + [Atom(verb)] + [] == t2;
    FeedAppend(Gap(tokens), "(", verb + " ");
    FeedAppend(Gap(tokens), "(" + (verb + " "), op + [c]);
    assert "(" + verb + " " + op + [c] == "(" + (verb + " ") + (op + [c]);
    assert t2 + [Atom(op)] == tokens + [Open, Atom(verb), Atom(op)];
  }

  /** A whole rule without filters on one line. */
  lemma FeedForm(tokens: seq<Token>, verb: string, op: string)
    requires AtomText(verb) && AtomText(op)
    ensures Feed(Gap(tokens), "(" + verb + " " + op + ")\n") == Gap(tokens + [Open, Atom(verb), Atom(op), Close])
  {
    hide AtomText;
    var t := tokens + [Open, Atom(verb), Atom(op)] + [Close];
    FeedHead(tokens, verb, op, ')');
    FeedAppend(Gap(tokens), "(" + verb + " " + op + ")", "\n");
    FeedOne(Gap(t), '\n');
    assert "(" + verb + " " + op + ")" + "\n" == "(" + verb + " " + op + ")\n";
    assert t == tokens + [Open, Atom(verb), Atom(op), Close];
  }

  // ----- Escaped strings

  lemma Associate(a: string, b: string, c: string)
    ensures a + b + c == a + (b + c)
  {
  }

  lemma {:induction false} ReplaceAppend(a: string, b: string, c: char, text: string)
    ensures Replace(a + b, c, text) == Replace(a, c, text) + Replace(b, c, text)
    decreases |a|
  {
    if a == "" {
      assert a + b == b;
    } else {
      ReplaceAppend(a[1..], b, c, text);
      assert (a + b)[0] == a[0] && (a + b)[1..] == a[1..] + b;
      Associate(if a[0] == c then text else [a[0]], Replace(a[1..], c, text), Replace(b, c, text));
    }
  }

  function Piece(c: char): string {
    if c == '\\' then "\\\\" else if c == '\"' then "\\\"" else [c]
  }

  lemma ReplaceOne(c: char, d: char, text: string)
    ensures Replace([c], d, text) == if c == d then text else [c]
  {
    assert [c][1..] == "";
    assert text + "" == text && [c] + "" == [c];
  }

  lemma EscapedPiece(c: char)
    ensures Escaped([c]) == Piece(c)
  {
    ReplaceOne(c, '\\', "\\\\");
    ReplaceOne(c, '\"', "\\\"");
    ReplaceOne('\\', '\"', "\\\"");
    assert "\\\\" == ['\\'] + ['\\'];
    ReplaceAppend(['\\'], ['\\'], '\"', "\\\"");
  }

  lemma EscapedCons(s: string)
    requires s != ""
    ensures Escaped(s) == Piece(s[0]) + Escaped(s[1..])
  {
    hide Replace, Piece;
    var a, b := [s[0]], s[1..];
    assert s == a + b;
    ReplaceAppend(a, b, '\\', "\\\\");
    ReplaceAppend(Replace(a, '\\', "\\\\"), Replace(b, '\\', "\\\\"), '\"', "\\\"");
    EscapedPiece(s[0]);
  }

  lemma FeedPiece(tokens: seq<Token>, text: string, c: char)
    ensures Feed(InString(tokens, text), Piece(c)) == InString(tokens, text + [c])
  {
    if c == '\\' {
      FeedTwo(InString(tokens, text), '\\', '\\');
    } else if c == '\"' {
      FeedTwo(InString(tokens, text), '\\', '\"');
    } else {
      FeedOne(InString(tokens, text), c);
    }
  }

  lemma FeedEscapedEmpty(st: Lex)
    ensures Feed(st, Escaped("")) == st
  {
  }

  /** Reading an escaped string gives back the original characters. */
  lemma {:induction false} FeedEscaped(tokens: seq<Token>, text: string, s: string)
    ensures Feed(InString(tokens, text), Escaped(s)) == InString(tokens, text + s)
    decreases |s|
  {
    hide Escaped, Piece, Feed;
    if s == "" {
      assert text + s == text;
      FeedEscapedEmpty(InString(tokens, text));
    } else {
      EscapedCons(s);
      FeedPiece(tokens, text, s[0]);
      FeedEscaped(tokens, text + [s[0]], s[1..]);
      FeedAppend(InString(tokens, text), Piece(s[0]), Escaped(s[1..]));
      assert text + [s[0]] + s[1..] == text + s;
    }
  }

  function MatcherTokens(f: Matcher): seq<Token> {
    [Open, Atom(if f.Subpath? then "subpath" else "literal"), Str(f.text), Close]
  }

  lemma FeedFilterHead(tokens: seq<Token>, kind: string)
    requires AtomText(kind)
    ensures Feed(Gap(tokens), "  (" + kind + " \"") == InString(tokens + [Open, Atom(kind)], "")
  {
    var t := tokens + [Open];
    assert "  (" == [' ', ' '] + ['('];
    FeedAppend(Gap(tokens), [' ', ' '], ['(']);
    FeedTwo(Gap(tokens), ' ', ' ');
    FeedOne(Gap(tokens), '(');
    FeedAtom(t, kind, ' ');
    FeedAppend(Gap(tokens), "  (", kind + " ");
    FeedAppend(Gap(tokens), "  (" + (kind + " "), "\"");
    FeedOne(Gap(t + [Atom(kind)] + []), '\"');
    assert "  (" + kind + " \"" == "  (" + (kind + " ") + "\"";
    assert t + [Atom(kind)] + [] == tokens + [Open, Atom(kind)];
  }

  /** One filter line, with its quoted and escaped path. */
  lemma FeedFilter(tokens: seq<Token>, kind: string, text: string)
    requires AtomText(kind)
    ensures Feed(Gap(tokens), "  (" + kind + " \"" + Escaped(text) + "\")\n") == Gap(tokens + [Open, Atom(kind), Str(text), Close])
  {
    hide AtomText, Escaped, Feed;
    var head, t := "  (" + kind + " \"", tokens + [Open, Atom(kind)];
    FeedFilterHead(tokens, kind);
    FeedEscaped(t, "", text);
    assert "" + text == text;
    FeedAppend(Gap(tokens), head, Escaped(text));
    FeedAppend(Gap(tokens), head + Escaped(text), "\")\n");
    FeedStringEnd(t, text);
    assert t + [Str(text), Close] == tokens + [Open, Atom(kind), Str(text), Close];
  }

  lemma FeedStringEnd(tokens: seq<Token>, text: string)
    ensures Feed(InString(tokens, text), "\")\n") == Gap(tokens + [Str(text), Close])
  {
    assert "\")\n" == ['\"', ')'] + ['\n'];
    FeedAppend(InString(tokens, text), ['\"', ')'], ['\n']);
    FeedTwo(InString(tokens, text), '\"', ')');
    FeedOne(Gap(tokens + [Str(text)] + [Close]), '\n');
    assert tokens + [Str(text)] + [Close] == tokens + [Str(text), Close];
  }

  // ----- The rules a jail stands for

  function Subpaths(paths: seq<Path>): (r: seq<Matcher>)
    ensures |r| == |paths| && forall i | 0 <= i < |paths| :: r[i] == Subpath(PathText(paths[i]))
  {
    seq(|paths|, i requires 0 <= i < |paths| => Subpath(PathText(paths[i])))
  }

  const SCRATCH: seq<Matcher> := [Subpath("/private/tmp"), Literal("/dev/null")]

  function GateRules(j: Jail): seq<Rule> {
    NetRules(j) + SubRules(j)
  }

  function NetRules(j: Jail): seq<Rule> {
    if j.allowNet then [] else [Rule(false, ["network*"], [])]
  }

  function SubRules(j: Jail): seq<Rule> {
    if j.allowSubprocess then [] else [Rule(false, ["process-fork"], []), Rule(false, ["process-exec"], [])]
  }

  function DenialRules(paths: seq<Path>): seq<Rule> {
    if paths == [] then [] else [Rule(false, ["file-read*", "file-write*"], Subpaths(paths))]
  }

  function Rules(j: Jail): seq<Rule> {
    [ALLOW_ALL] + GateRules(j) + [DENY_WRITES] + [GrantRule(j)] + DenialRules(j.denyRead)
  }

  function AtomTokens(words: seq<string>): (r: seq<Token>)
    ensures |r| == |words| && forall i | 0 <= i < |words| :: r[i] == Atom(words[i])
  {
    seq(|words|, i requires 0 <= i < |words| => Atom(words[i]))
  }

  function FilterTokens(filters: seq<Matcher>): seq<Token> {
    if filters == [] then [] else FilterTokens(filters[..|filters| - 1]) + MatcherTokens(filters[|filters| - 1])
  }

  function RuleTokens(r: Rule): seq<Token> {
    [Open, Atom(if r.allow then "allow" else "deny")] + AtomTokens(r.operations) + FilterTokens(r.filters) + [Close]
  }

  function RulesTokens(rules: seq<Rule>): seq<Token> {
    if rules == [] then [] else RuleTokens(rules[0]) + RulesTokens(rules[1..])
  }

  lemma {:induction false} FilterTokensAppend(a: seq<Matcher>, b: seq<Matcher>)
    ensures FilterTokens(a + b) == FilterTokens(a) + FilterTokens(b)
    decreases |b|
  {
    if b == [] {
      assert a + b == a;
    } else {
      FilterTokensAppend(a, b[..|b| - 1]);
      assert (a + b)[..|a + b| - 1] == a + b[..|b| - 1];
    }
  }

  lemma {:induction false} RulesTokensAppend(a: seq<Rule>, b: seq<Rule>)
    ensures RulesTokens(a + b) == RulesTokens(a) + RulesTokens(b)
    decreases |a|
  {
    hide RuleTokens;
    if a == [] {
      assert a + b == b;
    } else {
      RulesTokensAppend(a[1..], b);
      assert (a + b)[1..] == a[1..] + b;
    }
  }

  lemma RulesTokensOne(r: Rule)
    ensures RulesTokens([r]) == RuleTokens(r)
  {
    assert RuleTokens(r) + [] == RuleTokens(r);
  }

  // ----- Lexing the profile

  lemma FeedRule(tokens: seq<Token>, allow: bool, op: string)
    requires AtomText(op)
    ensures Feed(Gap(tokens), "(" + (if allow then "allow" else "deny") + " " + op + ")\n") ==
            Gap(tokens + RuleTokens(Rule(allow, [op], [])))
  {
    FeedForm(tokens, if allow then "allow" else "deny", op);
    var r := Rule(allow, [op], []);
    assert AtomTokens([op]) == [Atom(op)];
    assert RuleTokens(r) == [Open, Atom(if allow then "allow" else "deny"), Atom(op), Close];
  }

  lemma {:induction false} FeedLines(tokens: seq<Token>, paths: seq<Path>)
    ensures Feed(Gap(tokens), Lines(paths)) == Gap(tokens + FilterTokens(Subpaths(paths)))
    decreases |paths|
  {
    if paths == [] {
      assert Subpaths(paths) == [];
      assert tokens + [] == tokens;
    } else {
      hide Feed, Escaped, PathText, FilterTokens, MatcherTokens, SubpathLine, Subpaths;
      var init, last := paths[..|paths| - 1], PathText(paths[|paths| - 1]);
      var t := tokens + FilterTokens(Subpaths(init));
      FeedLines(tokens, init);
      FeedSubpathLine(t, last);
      FeedAppend(Gap(tokens), Lines(init), SubpathLine(last));
      SubpathsSnoc(paths);
      FilterTokensSnoc(Subpaths(init), Subpath(last));
      assert t + MatcherTokens(Subpath(last)) == tokens + (FilterTokens(Subpaths(init)) + MatcherTokens(Subpath(last)));
    }
  }

  lemma SubpathsSnoc(paths: seq<Path>)
    requires paths != []
    ensures Subpaths(paths) == Subpaths(paths[..|paths| - 1]) + [Subpath(PathText(paths[|paths| - 1]))]
  {
    hide PathText;
  }

  lemma FeedSubpathLine(tokens: seq<Token>, text: string)
    ensures Feed(Gap(tokens), SubpathLine(text)) == Gap(tokens + MatcherTokens(Subpath(text)))
  {
    hide Feed, Escaped;
    FeedFilter(tokens, "subpath", text);
    SubpathHeadText();
  }

  lemma SubpathHeadText()
    ensures "  (" + "subpath" + " \"" == "  (subpath \""
  {
  }

  lemma FilterTokensSnoc(filters: seq<Matcher>, f: Matcher)
    ensures FilterTokens(filters + [f]) == FilterTokens(filters) + MatcherTokens(f)
  {
    assert (filters + [f])[..|filters|] == filters;
  }

  lemma {:induction false} EscapedPlain(s: string)
    requires forall c | c in s :: c != '\\' && c != '\"'
    ensures Escaped(s) == s
    decreases |s|
  {
    if s != "" {
      assert s[0] in s && (forall c | c in s[1..] :: c in s);
      EscapedCons(s);
      EscapedPlain(s[1..]);
      assert s == [s[0]] + s[1..];
    }
  }

  lemma ScratchTokens()
    ensures FilterTokens(SCRATCH) == MatcherTokens(SCRATCH[0]) + MatcherTokens(SCRATCH[1])
  {
    FilterTokensSnoc([], SCRATCH[0]);
    FilterTokensSnoc([SCRATCH[0]], SCRATCH[1]);
    assert [] + [SCRATCH[0]] == [SCRATCH[0]] && [SCRATCH[0]] + [SCRATCH[1]] == SCRATCH;
  }

  /** Three texts in a row, each read on its own. */
  lemma FeedThree(st: Lex, a: string, b: string, c: string)
    ensures Feed(st, a + b + c) == Feed(Feed(Feed(st, a), b), c)
  {
    hide Feed;
    FeedAppend(st, a, b);
    FeedAppend(st, a + b, c);
  }

  lemma FeedEnd(tokens: seq<Token>)
    ensures Feed(Gap(tokens), ")\n") == Gap(tokens + [Close])
  {
    assert ")\n" == [')', '\n'];
    FeedTwo(Gap(tokens), ')', '\n');
  }

  lemma FeedScratch(tokens: seq<Token>)
    ensures Feed(Gap(tokens), SCRATCH_LINES) == Gap(tokens + FilterTokens(SCRATCH) + [Close])
  {
    hide Feed, FilterTokens, MatcherTokens;
    var t1 := tokens + MatcherTokens(SCRATCH[0]);
    var t2 := t1 + MatcherTokens(SCRATCH[1]);
    ScratchTokens();
    FeedTmp(tokens);
    FeedNull(t1);
    FeedEnd(t2);
    FeedThree(Gap(tokens), "  (subpath \"/private/tmp\")\n", "  (literal \"/dev/null\")\n", ")\n");
    ScratchText();
    assert t2 == tokens + FilterTokens(SCRATCH);
  }

  lemma TmpText()
    ensures "  (" + "subpath" + " \"" + "/private/tmp" + "\")\n" == "  (subpath \"/private/tmp\")\n"
  {
  }

  lemma NullText()
    ensures "  (" + "literal" + " \"" + "/dev/null" + "\")\n" == "  (literal \"/dev/null\")\n"
  {
  }

  lemma ScratchText()
    ensures SCRATCH_LINES == "  (subpath \"/private/tmp\")\n" + "  (literal \"/dev/null\")\n" + ")\n"
  {
  }

  lemma FeedPlainFilter(tokens: seq<Token>, kind: string, text: string)
    requires AtomText(kind) && (forall c | c in text :: c != '\\' && c != '\"')
    ensures Feed(Gap(tokens), "  (" + kind + " \"" + text + "\")\n") == Gap(tokens + [Open, Atom(kind), Str(text), Close])
  {
    hide Feed, Escaped, AtomText;
    EscapedPlain(text);
    FeedFilter(tokens, kind, text);
  }

  lemma FeedTmp(tokens: seq<Token>)
    ensures Feed(Gap(tokens), "  (subpath \"/private/tmp\")\n") == Gap(tokens + MatcherTokens(SCRATCH[0]))
  {
    hide Feed;
    TmpText();
    FeedPlainFilter(tokens, "subpath", "/private/tmp");
  }

  lemma FeedNull(tokens: seq<Token>)
    ensures Feed(Gap(tokens), "  (literal \"/dev/null\")\n") == Gap(tokens + MatcherTokens(SCRATCH[1]))
  {
    hide Feed;
    NullText();
    FeedPlainFilter(tokens, "literal", "/dev/null");
  }

  lemma FeedGrant(tokens: seq<Token>, paths: seq<Path>)
    ensures Feed(Gap(tokens), "(allow file-write*\n" + Lines(paths) + SCRATCH_LINES) ==
            Gap(tokens + RuleTokens(Rule(true, ["file-write*"], Subpaths(paths) + SCRATCH)))
  {
    hide Feed, Lines, FilterTokens;
    var head := "(allow file-write*\n";
    var t1 := tokens + [Open, Atom("allow"), Atom("file-write*")];
    var t2 := t1 + FilterTokens(Subpaths(paths));
    FeedGrantHead(tokens);
    FeedLines(t1, paths);
    FeedScratch(t2);
    FeedAppend(Gap(tokens), head, Lines(paths));
    FeedAppend(Gap(tokens), head + Lines(paths), SCRATCH_LINES);
    FilterTokensAppend(Subpaths(paths), SCRATCH);
    assert AtomTokens(["file-write*"]) == [Atom("file-write*")];
    assert t2 + FilterTokens(SCRATCH) + [Close] == tokens + RuleTokens(Rule(true, ["file-write*"], Subpaths(paths) + SCRATCH));
  }

  lemma FeedGrantHead(tokens: seq<Token>)
    ensures Feed(Gap(tokens), "(allow file-write*\n") == Gap(tokens + [Open, Atom("allow"), Atom("file-write*")])
  {
    hide Feed;
    FeedHead(tokens, "allow", "file-write*", '\n');
    GrantHeadText();
    assert tokens + [Open, Atom("allow"), Atom("file-write*")] + [] == tokens + [Open, Atom("allow"), Atom("file-write*")];
  }

  lemma GrantHeadText()
    ensures "(" + "allow" + " " + "file-write*" + "\n" == "(allow file-write*\n"
  {
  }

  lemma DenialHeadText()
    ensures "(" + "deny" + " " + "file-read*" + " " + ("file-write*" + "\n") == "(deny file-read* file-write*\n"
  {
  }

  lemma FeedDenialHead(tokens: seq<Token>)
    ensures Feed(Gap(tokens), "(deny file-read* file-write*\n") ==
            Gap(tokens + [Open, Atom("deny"), Atom("file-read*"), Atom("file-write*")])
  {
    FeedThreeAtoms(tokens, "deny", "file-read*", "file-write*");
    DenialHeadText();
  }

  lemma FeedThreeAtoms(tokens: seq<Token>, verb: string, op: string, op2: string)
    requires AtomText(verb) && AtomText(op) && AtomText(op2)
    ensures Feed(Gap(tokens), "(" + verb + " " + op + " " + (op2 + "\n")) ==
            Gap(tokens + [Open, Atom(verb), Atom(op), Atom(op2)])
  {
    hide AtomText, Feed;
    var t := tokens + [Open, Atom(verb), Atom(op)];
    FeedHead(tokens, verb, op, ' ');
    assert t + [] == t;
    FeedAtom(t, op2, '\n');
    FeedAppend(Gap(tokens), "(" + verb + " " + op + " ", op2 + "\n");
    assert t + [Atom(op2)] + [] == tokens + [Open, Atom(verb), Atom(op), Atom(op2)];
  }

  lemma FeedDenials(tokens: seq<Token>, paths: seq<Path>)
    ensures Feed(Gap(tokens), Denials(paths)) == Gap(tokens + RulesTokens(DenialRules(paths)))
  {
    hide Feed, Lines, FilterTokens, RuleTokens;
    if paths == [] {
      FeedNothing(tokens);
    } else {
      var head, r := "(deny file-read* file-write*\n", DenialRules(paths)[0];
      var t1 := tokens + [Open, Atom("deny"), Atom("file-read*"), Atom("file-write*")];
      var t2 := t1 + FilterTokens(Subpaths(paths));
      FeedDenialHead(tokens);
      FeedLines(t1, paths);
      FeedThree(Gap(tokens), head, Lines(paths), ")\n");
      FeedEnd(t2);
      DenialTokens(paths);
      RulesTokensOne(r);
      assert t2 + [Close] == tokens + RuleTokens(r);
    }
  }

  lemma FeedNothing(tokens: seq<Token>)
    ensures Feed(Gap(tokens), "") == Gap(tokens + RulesTokens([]))
  {
    assert tokens + [] == tokens;
  }

  lemma DenialTokens(paths: seq<Path>)
    ensures RuleTokens(Rule(false, ["file-read*", "file-write*"], Subpaths(paths))) ==
            [Open, Atom("deny"), Atom("file-read*"), Atom("file-write*")] + FilterTokens(Subpaths(paths)) + [Close]
  {
    hide FilterTokens;
    assert AtomTokens(["file-read*", "file-write*"]) == [Atom("file-read*"), Atom("file-write*")];
  }

  lemma FeedGates(tokens: seq<Token>, j: Jail)
    ensures Feed(Gap(tokens), Gates(j)) == Gap(tokens + RulesTokens(GateRules(j)))
  {
    hide Feed, RuleTokens;
    var net, sub := if j.allowNet then "" else NET_GATE, if j.allowSubprocess then "" else FORK_GATE + EXEC_GATE;
    var t := tokens + RulesTokens(NetRules(j));
    FeedNetGate(tokens, j.allowNet);
    FeedSubGate(t, j.allowSubprocess);
    FeedAppend(Gap(tokens), net, sub);
    RulesTokensAppend(NetRules(j), SubRules(j));
    assert t + RulesTokens(SubRules(j)) == tokens + RulesTokens(GateRules(j));
  }

  lemma FeedNetGate(tokens: seq<Token>, allow: bool)
    ensures Feed(Gap(tokens), if allow then "" else NET_GATE) ==
            Gap(tokens + RulesTokens(if allow then [] else [Rule(false, ["network*"], [])]))
  {
    hide Feed, RuleTokens;
    if allow {
      FeedNothing(tokens);
    } else {
      FeedRule(tokens, false, "network*");
      NetText();
      RulesTokensOne(Rule(false, ["network*"], []));
    }
  }

  lemma FeedSubGate(tokens: seq<Token>, allow: bool)
    ensures Feed(Gap(tokens), if allow then "" else FORK_GATE + EXEC_GATE) ==
            Gap(tokens + RulesTokens(if allow then [] else [Rule(false, ["process-fork"], []), Rule(false, ["process-exec"], [])]))
  {
    hide Feed, RuleTokens;
    if allow {
      FeedNothing(tokens);
    } else {
      var fork, exec := Rule(false, ["process-fork"], []), Rule(false, ["process-exec"], []);
      FeedRule(tokens, false, "process-fork");
      FeedRule(tokens + RuleTokens(fork), false, "process-exec");
      FeedAppend(Gap(tokens), FORK_GATE, EXEC_GATE);
      ForkText();
      ExecText();
      RulesTokensTwo(fork, exec);
      assert tokens + RuleTokens(fork) + RuleTokens(exec) == tokens + (RuleTokens(fork) + RuleTokens(exec));
    }
  }

  lemma RulesTokensTwo(a: Rule, b: Rule)
    ensures RulesTokens([a, b]) == RuleTokens(a) + RuleTokens(b)
  {
    hide RuleTokens;
    assert [a, b] == [a] + [b];
    RulesTokensAppend([a], [b]);
    RulesTokensOne(a);
    RulesTokensOne(b);
  }

  lemma NetText()
    ensures "(" + "deny" + " " + "network*" + ")\n" == NET_GATE
  {
  }

  lemma ForkText()
    ensures "(" + "deny" + " " + "process-fork" + ")\n" == FORK_GATE
  {
  }

  lemma ExecText()
    ensures "(" + "deny" + " " + "process-exec" + ")\n" == EXEC_GATE
  {
  }

  lemma VersionText()
    ensures "(" + "version" + " " + "1" + ")\n" == "(version 1)\n"
  {
  }

  lemma DefaultText()
    ensures "(" + "allow" + " " + "default" + ")\n" == "(allow default)\n"
  {
  }

  lemma NoWriteText()
    ensures "(" + "deny" + " " + "file-write*" + ")\n" == "(deny file-write*)\n"
  {
  }

  const ALLOW_ALL := Rule(true, ["default"], [])
  const DENY_WRITES := Rule(false, ["file-write*"], [])

  function GrantRule(j: Jail): Rule { Rule(true, ["file-write*"], Subpaths([j.root] + j.readWrite) + SCRATCH) }

  lemma FeedVersion()
    ensures Feed(Gap([]), "(version 1)\n") == Gap(VERSION)
  {
    hide Feed;
    FeedForm([], "version", "1");
    VersionText();
    assert [] + VERSION == VERSION;
  }

  lemma FeedDefault(tokens: seq<Token>)
    ensures Feed(Gap(tokens), "(allow default)\n") == Gap(tokens + RulesTokens([ALLOW_ALL]))
  {
    hide Feed, RuleTokens;
    FeedRule(tokens, true, "default");
    DefaultText();
    RulesTokensOne(ALLOW_ALL);
  }

  lemma FeedNoWrites(tokens: seq<Token>)
    ensures Feed(Gap(tokens), "(deny file-write*)\n") == Gap(tokens + RulesTokens([DENY_WRITES]))
  {
    hide Feed, RuleTokens;
    FeedRule(tokens, false, "file-write*");
    NoWriteText();
    RulesTokensOne(DENY_WRITES);
  }

  /** Lexing a text after some rules adds the tokens of the rules it stands for. */
  ghost predicate Spells(text: string, rules: seq<Rule>) {
    forall tokens :: Feed(Gap(tokens), text) == Gap(tokens + RulesTokens(rules))
  }

  lemma SpellsAppend(a: string, ra: seq<Rule>, b: string, rb: seq<Rule>)
    requires Spells(a, ra) && Spells(b, rb)
    ensures Spells(a + b, ra + rb)
  {
    hide Feed, RulesTokens;
    forall tokens
      ensures Feed(Gap(tokens), a + b) == Gap(tokens + RulesTokens(ra + rb))
    {
      FeedAppend(Gap(tokens), a, b);
      RulesTokensAppend(ra, rb);
      assert Feed(Gap(tokens + RulesTokens(ra)), b) == Gap(tokens + RulesTokens(ra) + RulesTokens(rb));
      assert tokens + RulesTokens(ra) + RulesTokens(rb) == tokens + RulesTokens(ra + rb);
    }
  }

  lemma SpellsGrant(j: Jail)
    ensures Spells("(allow file-write*\n" + Lines([j.root] + j.readWrite) + SCRATCH_LINES, [GrantRule(j)])
  {
    hide Feed, Lines, RuleTokens, Subpaths;
    forall tokens
      ensures Feed(Gap(tokens), "(allow file-write*\n" + Lines([j.root] + j.readWrite) + SCRATCH_LINES)
              == Gap(tokens + RulesTokens([GrantRule(j)]))
    {
      FeedGrant(tokens, [j.root] + j.readWrite);
      RulesTokensOne(GrantRule(j));
    }
  }

  lemma SpellsAll(j: Jail)
    ensures Spells("(allow default)\n", [ALLOW_ALL]) && Spells(Gates(j), GateRules(j))
    ensures Spells("(deny file-write*)\n", [DENY_WRITES]) && Spells(Denials(j.denyRead), DenialRules(j.denyRead))
  {
    hide Feed, RulesTokens, Gates, GateRules, Denials, DenialRules;
    forall tokens
      ensures Feed(Gap(tokens), "(allow default)\n") == Gap(tokens + RulesTokens([ALLOW_ALL]))
      ensures Feed(Gap(tokens), "(deny file-write*)\n") == Gap(tokens + RulesTokens([DENY_WRITES]))
      ensures Feed(Gap(tokens), Gates(j)) == Gap(tokens + RulesTokens(GateRules(j)))
      ensures Feed(Gap(tokens), Denials(j.denyRead)) == Gap(tokens + RulesTokens(DenialRules(j.denyRead)))
    {
      FeedDefault(tokens);
      FeedNoWrites(tokens);
      FeedGates(tokens, j);
      FeedDenials(tokens, j.denyRead);
    }
  }

  function Body(j: Jail): string {
    "(allow default)\n" + Gates(j) + "(deny file-write*)\n"
    + ("(allow file-write*\n" + Lines([j.root] + j.readWrite) + SCRATCH_LINES) + Denials(j.denyRead)
  }

  lemma SpellsBody(j: Jail)
    ensures Spells(Body(j), Rules(j))
  {
    hide Spells, Gates, Denials, Lines, GateRules, DenialRules, GrantRule;
    var grant := "(allow file-write*\n" + Lines([j.root] + j.readWrite) + SCRATCH_LINES;
    SpellsAll(j);
    SpellsGrant(j);
    var a, ra := "(allow default)\n" + Gates(j), [ALLOW_ALL] + GateRules(j);
    SpellsAppend("(allow default)\n", [ALLOW_ALL], Gates(j), GateRules(j));
    SpellsAppend(a, ra, "(deny file-write*)\n", [DENY_WRITES]);
    var b, rb := a + "(deny file-write*)\n", ra + [DENY_WRITES];
    SpellsAppend(b, rb, grant, [GrantRule(j)]);
    SpellsAppend(b + grant, rb + [GrantRule(j)], Denials(j.denyRead), DenialRules(j.denyRead));
  }

  lemma TextIsBody(j: Jail)
    ensures ProfileText(j) == "(version 1)\n" + Body(j)
  {
    hide Gates, Denials, Lines;
  }

  lemma ProfileTokens(j: Jail)
    ensures Feed(Gap([]), ProfileText(j)) == Gap(VERSION + RulesTokens(Rules(j)))
  {
    hide Feed, ProfileText, Body, Rules, RulesTokens;
    TextIsBody(j);
    FeedAppend(Gap([]), "(version 1)\n", Body(j));
    FeedVersion();
    SpellsBody(j);
    assert Feed(Gap(VERSION), Body(j)) == Gap(VERSION + RulesTokens(Rules(j)));
  }

  // ----- Reading the tokens back

  lemma {:induction false} AtomsRead(words: seq<string>, rest: seq<Token>)
    requires rest == [] || !rest[0].Atom?
    ensures AtomsAhead(AtomTokens(words) + rest) == |words|
    ensures AtomTexts(AtomTokens(words)) == words
    decreases |words|
  {
    var all := AtomTokens(words) + rest;
    if words == [] {
      assert all == rest;
    } else {
      AtomsRead(words[1..], rest);
      assert AtomTokens(words)[1..] == AtomTokens(words[1..]);
      assert all[1..] == AtomTokens(words[1..]) + rest;
    }
  }

  lemma {:induction false} FiltersRead(filters: seq<Matcher>, rest: seq<Token>)
    ensures ReadFilters(FilterTokens(filters) + [Close] + rest) == Some((filters, rest))
    decreases |filters|
  {
    var all := FilterTokens(filters) + [Close] + rest;
    if filters == [] {
      assert all[0] == Close && all[1..] == rest;
    } else {
      var f := filters[0];
      FiltersRead(filters[1..], rest);
      assert filters == [f] + filters[1..];
      FilterTokensAppend([f], filters[1..]);
      FilterTokensSnoc([], f);
      assert [] + [f] == [f] && FilterTokens([]) + MatcherTokens(f) == MatcherTokens(f);
      assert all == MatcherTokens(f) + (FilterTokens(filters[1..]) + [Close] + rest);
      ReadFiltersStep(f, FilterTokens(filters[1..]) + [Close] + rest);
    }
  }

  lemma ReadFiltersStep(f: Matcher, rest: seq<Token>)
    requires ReadFilters(rest).Some?
    ensures var r := ReadFilters(rest).value; ReadFilters(MatcherTokens(f) + rest) == Some(([f] + r.0, r.1))
  {
    var all := MatcherTokens(f) + rest;
    assert all[0] == Open && all[1] == Atom(if f.Subpath? then "subpath" else "literal") && all[2] == Str(f.text) && all[3] == Close;
    assert all[4..] == rest;
    assert "literal"[0] != "subpath"[0];
  }

  /** A rule's tokens in front of others are read as that rule. */
  lemma RuleRead(r: Rule, rest: seq<Token>)
    requires ReadRules(rest).Some?
    ensures ReadRules(RuleTokens(r) + rest) == Some([r] + ReadRules(rest).value)
  {
    hide FilterTokens, ReadFilters, AtomsAhead, AtomTexts, AtomTokens, RuleTokens;
    var tail := FilterTokens(r.filters) + [Close] + rest;
    RuleParts(r, rest);
    TailNotAtom(r.filters, rest);
    AtomsRead(r.operations, tail);
    FiltersRead(r.filters, rest);
    assert "allow"[0] != "deny"[0];
  }

  lemma RuleParts(r: Rule, rest: seq<Token>)
    ensures var all, n := RuleTokens(r) + rest, |r.operations|;
            var tail := FilterTokens(r.filters) + [Close] + rest;
            && |all| >= 2 + n && all[0] == Open && all[1] == Atom(if r.allow then "allow" else "deny")
            && all[2..] == AtomTokens(r.operations) + tail && all[2..2 + n] == AtomTokens(r.operations) && all[2 + n..] == tail
  {
    hide FilterTokens, AtomTokens;
    var all, tail := RuleTokens(r) + rest, FilterTokens(r.filters) + [Close] + rest;
    assert all == [Open, Atom(if r.allow then "allow" else "deny")] + AtomTokens(r.operations) + tail;
  }

  lemma TailNotAtom(filters: seq<Matcher>, rest: seq<Token>)
    ensures !(FilterTokens(filters) + [Close] + rest)[0].Atom?
  {
    if filters != [] {
      assert filters == [filters[0]] + filters[1..];
      FilterTokensAppend([filters[0]], filters[1..]);
      FilterTokensSnoc([], filters[0]);
      assert [] + [filters[0]] == [filters[0]];
    }
  }

  lemma {:induction false} RulesRead(rules: seq<Rule>)
    ensures ReadRules(RulesTokens(rules)) == Some(rules)
    decreases |rules|
  {
    hide RuleTokens;
    if rules != [] {
      hide ReadRules;
      RulesRead(rules[1..]);
      RuleRead(rules[0], RulesTokens(rules[1..]));
      assert rules == [rules[0]] + rules[1..];
    }
  }

  /** The rendered text is read back as the rules the jail stands for. */
  lemma ProfileRoundTrip(j: Jail)
    ensures ReadProfile(ProfileText(j)) == Some(Rules(j))
  {
    hide Feed, ProfileText, Rules, RulesTokens, ReadRules;
    ProfileTokens(j);
    RulesRead(Rules(j));
    var tokens := VERSION + RulesTokens(Rules(j));
    assert tokens[4..] == RulesTokens(Rules(j));
  }

  // ----- Path texts

  lemma {:induction false} SplitName(x: string, name: string, done: Path)
    requires '/' !in x
    ensures Split(x, name, done) == if name + x == "" then done else done + [name + x]
    decreases |x|
  {
    if x == "" {
      assert name + x == name;
    } else {
      assert x[0] in x && (forall c | c in x[1..] :: c in x);
      SplitName(x[1..], name + [x[0]], done);
      assert name + [x[0]] + x[1..] == name + x;
    }
  }

  lemma {:induction false} SplitLast(a: string, x: string, name: string, done: Path)
    requires ValidName(x)
    ensures Split(a + "/" + x, name, done) == Split(a, name, done) + [x]
    decreases |a|
  {
    var all := a + "/" + x;
    if a == "" {
      assert all[0] == '/' && all[1..] == x;
      SplitName(x, "", if name == "" then done else done + [name]);
      assert "" + x == x;
    } else {
      assert all[0] == a[0] && all[1..] == a[1..] + "/" + x;
      if a[0] == '/' {
        SplitLast(a[1..], x, "", if name == "" then done else done + [name]);
      } else {
        SplitLast(a[1..], x, name + [a[0]], done);
      }
    }
  }

  lemma {:induction false} ComponentsJoined(p: Path)
    requires ValidPath(p)
    ensures Components(Joined(p)) == p
    decreases |p|
  {
    if p != [] {
      hide Split, ValidName;
      var init, x := p[..|p| - 1], p[|p| - 1];
      assert x in p && (forall s | s in init :: s in p);
      ComponentsJoined(init);
      SplitLast(Joined(init), x, "", []);
      assert p == init + [x];
    }
  }

  lemma ComponentsOfText(p: Path)
    requires ValidPath(p)
    ensures Components(PathText(p)) == p
  {
    ComponentsJoined(p);
    if p == [] {
      assert "/"[1..] == "";
    }
  }

  const TMP: Path := ["private", "tmp"]
  const NULL_DEVICE: Path := ["dev", "null"]

  lemma JoinedTwo(a: string, b: string)
    ensures Joined([a, b]) == "/" + a + "/" + b
  {
    assert [a, b][..1] == [a] && [a][..0] == [];
    assert Joined([a]) == Joined([]) + "/" + a;
  }

  lemma TmpIsValid()
    ensures ValidPath(TMP) && PathText(TMP) == "/private/tmp"
  {
    JoinedTwo("private", "tmp");
    assert "/" + "private" + "/" + "tmp" == "/private/tmp";
  }

  lemma NullIsValid()
    ensures ValidPath(NULL_DEVICE) && PathText(NULL_DEVICE) == "/dev/null"
  {
    JoinedTwo("dev", "null");
    assert "/" + "dev" + "/" + "null" == "/dev/null";
  }

  lemma SubpathMeaning(q: Path, p: Path)
    requires ValidPath(q) && ValidPath(p)
    ensures Selects(Subpath(PathText(q)), PathText(p)) <==> Under(p, q)
  {
    hide Components, PathText, ValidPath;
    ComponentsOfText(q);
    ComponentsOfText(p);
  }

  lemma LiteralMeaning(q: Path, p: Path)
    requires ValidPath(q) && ValidPath(p)
    ensures Selects(Literal(PathText(q)), PathText(p)) <==> p == q
  {
    hide Components, PathText, ValidPath;
    ComponentsOfText(q);
    ComponentsOfText(p);
  }

  // ----- What the profile permits

  ghost predicate Writable(j: Jail, p: Path) {
    Under(p, j.root) || (exists w | w in j.readWrite :: Under(p, w)) || Under(p, TMP) || p == NULL_DEVICE
  }

  ghost predicate Denied(j: Jail, p: Path) { exists d | d in j.denyRead :: Under(p, d) }

  predicate WriteOp(op: string) { "file-write" <= op }
  predicate ReadOp(op: string) { "file-read" <= op }
  predicate NetOp(op: string) { "network" <= op }
  predicate SpawnOp(op: string) { op == "process-fork" || op == "process-exec" }

  /** The promise of the directory jail, without rules or text. */
  ghost predicate Promised(j: Jail, op: string, p: Path) {
    if WriteOp(op) then Writable(j, p) && !Denied(j, p)
    else if ReadOp(op) then !Denied(j, p)
    else if NetOp(op) then j.allowNet
    else if SpawnOp(op) then j.allowSubprocess
    else true
  }

  lemma StarCovers(pattern: string, stem: string, op: string)
    requires pattern == stem + "*" && pattern != "default"
    ensures Covers(pattern, op) <==> stem <= op
  {
    assert pattern[..|pattern| - 1] == stem;
  }

  lemma SubpathsMeaning(paths: seq<Path>, p: Path)
    requires ValidPath(p) && forall q | q in paths :: ValidPath(q)
    ensures (exists f | f in Subpaths(paths) :: Selects(f, PathText(p))) <==> exists q | q in paths :: Under(p, q)
  {
    hide Selects, PathText, ValidPath, Under;
    forall i | 0 <= i < |paths|
      ensures Selects(Subpaths(paths)[i], PathText(p)) <==> Under(p, paths[i])
    {
      assert paths[i] in paths;
      SubpathMeaning(paths[i], p);
    }
    if f :| f in Subpaths(paths) && Selects(f, PathText(p)) {
      var i :| 0 <= i < |paths| && Subpaths(paths)[i] == f;
      assert paths[i] in paths && Under(p, paths[i]);
    }
    if q :| q in paths && Under(p, q) {
      var i :| 0 <= i < |paths| && paths[i] == q;
      assert Subpaths(paths)[i] in Subpaths(paths);
    }
  }

  /** No operation is in two of the four classes. */
  lemma ClassesExclusive(op: string)
    ensures WriteOp(op) ==> !ReadOp(op) && !NetOp(op) && !SpawnOp(op)
    ensures ReadOp(op) ==> !NetOp(op) && !SpawnOp(op)
    ensures NetOp(op) ==> !SpawnOp(op)
  {
    if WriteOp(op) { assert op[0] == "file-write"[0] && op[5] == "file-write"[5]; }
    if ReadOp(op) { assert op[0] == "file-read"[0] && op[5] == "file-read"[5]; }
    if NetOp(op) { assert op[0] == "network"[0]; }
  }

  lemma CoverClasses(op: string)
    ensures Covers("file-write*", op) <==> WriteOp(op)
    ensures Covers("file-read*", op) <==> ReadOp(op)
    ensures Covers("network*", op) <==> NetOp(op)
  {
    assert "default"[0] == 'd' && "file-write*"[0] == 'f' && "file-read*"[0] == 'f' && "network*"[0] == 'n';
    StarCovers("file-write*", "file-write", op);
    StarCovers("file-read*", "file-read", op);
    StarCovers("network*", "network", op);
  }

  lemma CoverSpawns(op: string)
    ensures Covers("process-fork", op) || Covers("process-exec", op) <==> SpawnOp(op)
  {
    assert "default"[0] == 'd' && "process-fork"[0] == 'p' && "process-exec"[0] == 'p';
    assert "process-fork"[11] == 'k' && "process-exec"[11] == 'c';
  }

  lemma PermitsSnoc(rules: seq<Rule>, r: Rule, op: string, path: string)
    ensures Permits(rules + [r], op, path) == if Applies(r, op, path) then r.allow else Permits(rules, op, path)
  {
    assert (rules + [r])[..|rules|] == rules;
  }

  lemma AppliesPlain(allow: bool, o: string, op: string, path: string)
    ensures Applies(Rule(allow, [o], []), op, path) <==> Covers(o, op)
  {
    hide Covers;
    assert o in [o];
  }

  ghost predicate Gated(j: Jail, op: string) { (NetOp(op) ==> j.allowNet) && (SpawnOp(op) ==> j.allowSubprocess) }

  lemma AllowAllPermits(op: string, path: string)
    ensures Permits([ALLOW_ALL], op, path)
  {
    AppliesPlain(true, "default", op, path);
    assert [ALLOW_ALL] == [] + [ALLOW_ALL];
    PermitsSnoc([], ALLOW_ALL, op, path);
  }

  lemma NetPermits(j: Jail, op: string, path: string)
    ensures Permits([ALLOW_ALL] + NetRules(j), op, path) <==> (NetOp(op) ==> j.allowNet)
  {
    hide Covers, Permits, NetOp, Applies;
    AllowAllPermits(op, path);
    if j.allowNet {
      assert [ALLOW_ALL] + NetRules(j) == [ALLOW_ALL];
    } else {
      CoverClasses(op);
      AppliesPlain(false, "network*", op, path);
      PermitsSnoc([ALLOW_ALL], Rule(false, ["network*"], []), op, path);
    }
  }

  lemma GatesPermit(j: Jail, op: string, path: string)
    ensures Permits([ALLOW_ALL] + GateRules(j), op, path) <==> Gated(j, op)
  {
    hide Covers, Permits, NetOp, SpawnOp, Applies, NetRules;
    var before := [ALLOW_ALL] + NetRules(j);
    NetPermits(j, op, path);
    if j.allowSubprocess {
      assert [ALLOW_ALL] + GateRules(j) == before;
    } else {
      var fork, exec := Rule(false, ["process-fork"], []), Rule(false, ["process-exec"], []);
      assert [ALLOW_ALL] + GateRules(j) == before + [fork] + [exec];
      AppliesPlain(false, "process-fork", op, path);
      AppliesPlain(false, "process-exec", op, path);
      CoverSpawns(op);
      PermitsSnoc(before, fork, op, path);
      PermitsSnoc(before + [fork], exec, op, path);
    }
  }

  lemma GrantMeaning(j: Jail, op: string, p: Path)
    requires ValidJail(j) && ValidPath(p)
    ensures Applies(GrantRule(j), op, PathText(p)) <==> WriteOp(op) && Writable(j, p)
  {
    hide Covers, WriteOp, Selects, PathText, ValidPath;
    var filters, text := GrantRule(j).filters, PathText(p);
    CoverClasses(op);
    assert "file-write*" in ["file-write*"];
    assert Applies(GrantRule(j), op, text) <==> WriteOp(op) && exists f | f in filters :: Selects(f, text);
    GrantFilters(j, p);
  }

  lemma ScratchMeaning(p: Path)
    requires ValidPath(p)
    ensures (exists f | f in SCRATCH :: Selects(f, PathText(p))) <==> Under(p, TMP) || p == NULL_DEVICE
  {
    hide Selects, PathText, ValidPath;
    TmpIsValid();
    NullIsValid();
    SubpathMeaning(TMP, p);
    LiteralMeaning(NULL_DEVICE, p);
    assert SCRATCH[0] in SCRATCH && SCRATCH[1] in SCRATCH;
  }

  lemma GrantFilters(j: Jail, p: Path)
    requires ValidJail(j) && ValidPath(p)
    ensures (exists f | f in Subpaths([j.root] + j.readWrite) + SCRATCH :: Selects(f, PathText(p))) <==> Writable(j, p)
  {
    hide Selects, PathText, ValidPath, Under, Subpaths;
    var paths := [j.root] + j.readWrite;
    SubpathsMeaning(paths, p);
    ScratchMeaning(p);
    assert j.root in paths && (forall w | w in j.readWrite :: w in paths);
    assert (exists q | q in paths :: Under(p, q)) <==> Under(p, j.root) || exists w | w in j.readWrite :: Under(p, w);
    assert (exists f | f in Subpaths(paths) + SCRATCH :: Selects(f, PathText(p))) <==>
           (exists f | f in Subpaths(paths) :: Selects(f, PathText(p))) || (exists f | f in SCRATCH :: Selects(f, PathText(p)));
  }

  lemma DenialMeaning(j: Jail, op: string, p: Path)
    requires ValidJail(j) && ValidPath(p) && j.denyRead != []
    ensures Applies(DenialRules(j.denyRead)[0], op, PathText(p)) <==> (WriteOp(op) || ReadOp(op)) && Denied(j, p)
  {
    hide Covers, WriteOp, ReadOp, Selects, PathText, ValidPath, Under;
    var ops := ["file-read*", "file-write*"];
    CoverClasses(op);
    assert ops[0] in ops && ops[1] in ops;
    SubpathsMeaning(j.denyRead, p);
  }

  /** Last match over the jail's rules decides exactly what the jail promises,
      for every operation and every path. */
  lemma RulesMeaning(j: Jail, op: string, p: Path)
    requires ValidJail(j) && ValidPath(p)
    ensures Permits(Rules(j), op, PathText(p)) <==> Promised(j, op, p)
  {
    hide Covers, WriteOp, ReadOp, NetOp, SpawnOp, PathText, ValidPath, Writable, Denied, Permits, Applies, GateRules, GrantRule, Subpaths;
    var text, gates := PathText(p), [ALLOW_ALL] + GateRules(j);
    ClassesExclusive(op);
    GatesPermit(j, op, text);
    CoverClasses(op);
    AppliesPlain(false, "file-write*", op, text);
    PermitsSnoc(gates, DENY_WRITES, op, text);
    var grants := gates + [DENY_WRITES] + [GrantRule(j)];
    GrantMeaning(j, op, p);
    PermitsSnoc(gates + [DENY_WRITES], GrantRule(j), op, text);
    assert GrantRule(j).allow by { GrantAllows(j); }
    if j.denyRead == [] {
      assert Rules(j) == grants;
      NothingDenied(j, p);
    } else {
      DenialMeaning(j, op, p);
      PermitsSnoc(grants, DenialRules(j.denyRead)[0], op, text);
      assert Rules(j) == grants + [DenialRules(j.denyRead)[0]];
    }
  }

  lemma GrantAllows(j: Jail)
    ensures GrantRule(j).allow
  {
  }

  lemma NothingDenied(j: Jail, p: Path)
    requires j.denyRead == []
    ensures !Denied(j, p)
  {
  }

  /** The rendered profile, read back and decided by the last matching rule,
      permits exactly what the jail promises. */
  lemma ProfileMeaning(j: Jail, op: string, p: Path)
    requires ValidJail(j) && ValidPath(p)
    ensures var profile := ReadProfile(ProfileText(j));
            profile.Some? && (Permits(profile.value, op, PathText(p)) <==> Promised(j, op, p))
  {
    hide ReadProfile, ProfileText, Permits, Promised, PathText, Rules, ValidJail, ValidPath;
    ProfileRoundTrip(j);
    RulesMeaning(j, op, p);
  }
}
