/** Windows command lines: the quoting of `build_command_line` against the
    reader `CommandLineToArgvW`. */
module WindowsQuoting {

  import Scanner

  const QUOTE := '\"'
  const SLASH := '\\'

  predicate Blank(c: char) { c == ' ' || c == '\t' }

  function Slashes(n: nat): (s: string)
    ensures |s| == n
  {
    if n == 0 then "" else Slashes(n - 1) + [SLASH]
  }

  // ----- The reader

  /** Reading arguments after the program name. Inside an argument, `quotes` is
      1 in a quoted part and may stand at 2 while a run of quotes lasts, `run`
      says the last character was a quote, and `slashes` backslashes wait to
      learn whether a quote follows. */
  datatype Scan =
    | Between(words: seq<string>)
    | Inside(words: seq<string>, text: string, quotes: nat, run: bool, slashes: nat)

  function Settle(quotes: nat): nat { if quotes == 2 then 0 else quotes }

  function Step(st: Scan, c: char): Scan {
    match st
    case Between(words) => if Blank(c) then st else StepInside(words, "", 0, false, 0, c)
    case Inside(words, text, quotes, run, slashes) => StepInside(words, text, quotes, run, slashes, c)
  }

  function StepInside(words: seq<string>, text: string, quotes: nat, run: bool, slashes: nat, c: char): Scan {
    if c == QUOTE then
      if run then
        // Three quotes in a row stand for one.
        if quotes + 1 == 3 then Inside(words, text + [QUOTE], 0, true, 0) else Inside(words, text, quotes + 1, true, 0)
      else if slashes % 2 == 0 then Inside(words, text + Slashes(slashes / 2), quotes + 1, true, 0)
      else Inside(words, text + Slashes(slashes / 2) + [QUOTE], quotes, true, 0)
    else
      var q := if run then Settle(quotes) else quotes;
      if c == SLASH then Inside(words, text, q, false, slashes + 1)
      else if Blank(c) && q == 0 then Between(words + [text + Slashes(slashes)])
      else Inside(words, text + Slashes(slashes) + [c], q, false, 0)
  }

  function Feed(st: Scan, s: string): Scan { Scanner.Scan(Step, st, s) }

  function Words(st: Scan): seq<string> {
    match st
    case Between(words) => words
    case Inside(words, text, _, _, slashes) => words + [text + Slashes(slashes)]
  }

  /** The text before the first character that satisfies `stop`. */
  function Until(s: string, stop: char -> bool): (n: nat)
    ensures n <= |s|
    ensures forall i | 0 <= i < n :: !stop(s[i])
    ensures n < |s| ==> stop(s[n])
  {
    if s == "" || stop(s[0]) then 0 else 1 + Until(s[1..], stop)
  }

  /** The program name knows no escapes: it ends at the next quote when it starts
      with one, and at the first blank otherwise. */
  function Parse(line: string): seq<string> {
    if line != "" && line[0] == QUOTE then
      var n := Until(line[1..], c => c == QUOTE);
      [line[1..][..n]] + Words(Feed(Between([]), if n < |line| - 1 then line[n + 2..] else ""))
    else
      var n := Until(line, c => Blank(c));
      [line[..n]] + Words(Feed(Between([]), line[n..]))
  }

  // ----- The writer, as a function

  predicate NeedsQuotes(a: string) { a == "" || exists c | c in a :: Blank(c) || c == QUOTE }

  /** The quoted form of `a` without the surrounding quotes, when `pending`
      backslashes were read but not written yet. */
  function Escaped(a: string, pending: nat): string
    decreases |a|
  {
    if a == "" then Slashes(2 * pending)
    else if a[0] == SLASH then Escaped(a[1..], pending + 1)
    else if a[0] == QUOTE then Slashes(2 * pending + 1) + [QUOTE] + Escaped(a[1..], 0)
    else Slashes(pending) + [a[0]] + Escaped(a[1..], 0)
  }

  function Quoted(a: string): string {
    if NeedsQuotes(a) then [QUOTE] + Escaped(a, 0) + [QUOTE] else a
  }

  function Tail(args: seq<string>): string {
    if args == [] then "" else Tail(args[..|args| - 1]) + " " + Quoted(args[|args| - 1])
  }

  // ----- The writer, as it is written

  method PushArg(out: string, a: string) returns (result: string)
    ensures result == out + Quoted(a)
  {
    if !NeedsQuotes(a) { return out + a; }
    result := out + [QUOTE];
    var backslashes := 0;
    assert result + Escaped(a[0..], 0) == out + [QUOTE] + Escaped(a, 0);
    for i := 0 to |a|
      invariant result + Escaped(a[i..], backslashes) == out + [QUOTE] + Escaped(a, 0)
    {
      ghost var before := result;
      var c := a[i];
      assert a[i..][1..] == a[i + 1..];
      if c == SLASH {
        backslashes := backslashes + 1;
      } else if c == QUOTE {
        result := PushSlashes(result, backslashes * 2 + 1);
        result := result + [QUOTE];
        assert result + Escaped(a[i + 1..], 0) == before + Escaped(a[i..], backslashes);
        backslashes := 0;
      } else {
        result := PushSlashes(result, backslashes);
        result := result + [c];
        assert result + Escaped(a[i + 1..], 0) == before + Escaped(a[i..], backslashes);
        backslashes := 0;
      }
    }
    result := PushSlashes(result, backslashes * 2);
    result := result + [QUOTE];
  }

  method PushSlashes(out: string, n: nat) returns (result: string)
    ensures result == out + Slashes(n)
  {
    result := out;
    for i := 0 to n
      invariant result == out + Slashes(i)
    {
      result := result + [SLASH];
    }
  }

  method BuildCommandLine(program: string, args: seq<string>) returns (line: string)
    ensures line == Quoted(program) + Tail(args)
  {
    hide Quoted, Tail;
    line := PushArg("", program);
    TailOf(args, 0);
    for i := 0 to |args|
      invariant line == Quoted(program) + Tail(args[..i])
    {
      line := line + " ";
      line := PushArg(line, args[i]);
      TailOf(args, i + 1);
      Associate(Quoted(program), Tail(args[..i]), " ", Quoted(args[i]));
    }
    assert args[..|args|] == args;
  }

  lemma TailOf(args: seq<string>, i: nat)
    requires i <= |args|
    ensures Tail(args[..i]) == if i == 0 then "" else Tail(args[..i - 1]) + " " + Quoted(args[i - 1])
  {
    hide Quoted;
    if i > 0 { assert args[..i][..i - 1] == args[..i - 1]; }
  }

  lemma Regroup(a: string, b: string, c: string)
    ensures a + b + c == a + (b + c)
  {
  }

  lemma Associate(a: string, b: string, c: string, d: string)
    ensures a + b + c + d == a + (b + c + d)
  {
  }

  // ----- The round trip

  lemma FeedAppend(st: Scan, a: string, b: string)
    ensures Feed(st, a + b) == Feed(Feed(st, a), b)
  {
    Scanner.ScanAppend(Step, st, a, b);
  }

  lemma FeedNone(st: Scan)
    ensures Feed(st, Slashes(0)) == st
  {
  }

  lemma FeedOne(st: Scan, c: char)
    ensures Feed(st, [c]) == Step(st, c)
  {
    Scanner.ScanOne(Step, st, c);
  }

  lemma {:induction false} FeedSlashes(words: seq<string>, text: string, quotes: nat, run: bool, slashes: nat, n: nat)
    requires n > 0
    ensures Feed(Inside(words, text, quotes, run, slashes), Slashes(n)) ==
            Inside(words, text, if run then Settle(quotes) else quotes, false, slashes + n)
    decreases n
  {
    var st := Inside(words, text, quotes, run, slashes);
    if n == 1 {
      assert Slashes(1) == [SLASH];
      FeedOne(st, SLASH);
    } else {
      FeedSlashes(words, text, quotes, run, slashes, n - 1);
      FeedAppend(st, Slashes(n - 1), [SLASH]);
      FeedOne(Feed(st, Slashes(n - 1)), SLASH);
    }
  }

  /** Inside a quoted part, `n` backslashes and then `c`. */
  lemma FeedSlashesThen(words: seq<string>, text: string, run: bool, n: nat, c: char)
    ensures Feed(Inside(words, text, 1, run, 0), Slashes(n) + [c]) == StepInside(words, text, 1, run && n == 0, n, c)
  {
    hide Feed, Slashes, StepInside;
    var st := Inside(words, text, 1, run, 0);
    FeedAppend(st, Slashes(n), [c]);
    if n > 0 { FeedSlashes(words, text, 1, run, 0, n); } else { FeedNone(st); }
    FeedOne(Feed(st, Slashes(n)), c);
  }

  lemma SlashesThen(n: nat, a: string)
    requires a != "" && a[0] == SLASH
    ensures Slashes(n + 1) + a[1..] == Slashes(n) + a
  {
    assert a == [SLASH] + a[1..];
  }

  /** One character that is not a backslash, with the backslashes before it. */
  function EscapedHead(c: char, n: nat): string {
    (if c == QUOTE then Slashes(2 * n + 1) else Slashes(n)) + [c]
  }

  lemma FeedHead(words: seq<string>, text: string, run: bool, c: char, n: nat)
    requires c != SLASH
    ensures Feed(Inside(words, text, 1, run, 0), EscapedHead(c, n)) == Inside(words, text + Slashes(n) + [c], 1, c == QUOTE, 0)
  {
    hide Feed, Slashes;
    if c == QUOTE {
      FeedSlashesThen(words, text, run, 2 * n + 1, c);
      assert (2 * n + 1) % 2 == 1 && (2 * n + 1) / 2 == n;
    } else {
      FeedSlashesThen(words, text, run, n, c);
    }
  }

  lemma Reassociate(text: string, n: nat, a: string)
    requires a != ""
    ensures text + Slashes(n) + [a[0]] + Slashes(0) + a[1..] == text + Slashes(n) + a
  {
    var left := text + Slashes(n);
    assert Slashes(0) == "";
    assert a == [a[0]] + a[1..];
    assert left + [a[0]] + Slashes(0) == left + [a[0]];
    assert left + [a[0]] + a[1..] == left + ([a[0]] + a[1..]);
  }

  lemma FeedClosing(words: seq<string>, text: string, run: bool, n: nat)
    ensures Feed(Inside(words, text, 1, run, 0), Slashes(2 * n) + [QUOTE]) == Inside(words, text + Slashes(n), 2, true, 0)
  {
    FeedSlashesThen(words, text, run, 2 * n, QUOTE);
    if n == 0 { assert text + Slashes(0) == text; }
  }

  /** The heart: reading an escaped argument up to its closing quote gives back
      the argument. */
  lemma {:induction false} FeedEscaped(words: seq<string>, text: string, run: bool, a: string, n: nat)
    ensures Feed(Inside(words, text, 1, run, 0), Escaped(a, n) + [QUOTE]) == Inside(words, text + Slashes(n) + a, 2, true, 0)
    decreases |a|
  {
    hide Feed, Slashes, StepInside;
    if a == "" {
      FeedClosing(words, text, run, n);
      assert text + Slashes(n) + a == text + Slashes(n);
    } else if a[0] == SLASH {
      FeedEscaped(words, text, run, a[1..], n + 1);
      SlashesThen(n, a);
      assert text + Slashes(n + 1) + a[1..] == text + (Slashes(n + 1) + a[1..]);
      assert text + Slashes(n) + a == text + (Slashes(n) + a);
    } else {
      var st, head, rest := Inside(words, text, 1, run, 0), EscapedHead(a[0], n), Escaped(a[1..], 0);
      FeedHead(words, text, run, a[0], n);
      FeedEscaped(words, text + Slashes(n) + [a[0]], a[0] == QUOTE, a[1..], 0);
      FeedAppend(st, head, rest + [QUOTE]);
      assert Escaped(a, n) == head + rest;
      assert head + rest + [QUOTE] == head + (rest + [QUOTE]);
      Reassociate(text, n, a);
    }
  }

  lemma {:induction false} FeedPlain(words: seq<string>, text: string, slashes: nat, a: string) returns (text': string, slashes': nat)
    requires forall c | c in a :: !Blank(c) && c != QUOTE
    ensures Feed(Inside(words, text, 0, false, slashes), a) == Inside(words, text', 0, false, slashes')
    ensures text' + Slashes(slashes') == text + Slashes(slashes) + a
    decreases |a|
  {
    if a == "" {
      return text, slashes;
    }
    assert a == [a[0]] + a[1..] && a[0] in a;
    if a[0] == SLASH {
      text', slashes' := FeedPlain(words, text, slashes + 1, a[1..]);
      SlashesThen(slashes, a);
      assert text + Slashes(slashes + 1) + a[1..] == text + (Slashes(slashes + 1) + a[1..]);
    } else {
      text', slashes' := FeedPlain(words, text + Slashes(slashes) + [a[0]], 0, a[1..]);
    }
  }

  /** A state that has read exactly `words` and is ready for a separator. */
  ghost predicate HasRead(st: Scan, words: seq<string>) {
    Words(st) == words && Step(st, ' ') == Between(words)
  }

  lemma FeedQuoted(words: seq<string>, a: string)
    ensures HasRead(Feed(Between(words), Quoted(a)), words + [a])
  {
    if NeedsQuotes(a) {
      var entered := Step(Between(words), QUOTE);
      assert entered == Inside(words, "", 1, true, 0);
      FeedEscaped(words, "", true, a, 0);
      assert Quoted(a) == [QUOTE] + (Escaped(a, 0) + [QUOTE]);
      assert Quoted(a)[1..] == Escaped(a, 0) + [QUOTE];
      assert "" + Slashes(0) + a == a;
      assert a + Slashes(0) == a;
    } else {
      var st := Inside(words, "", 0, false, 0);
      assert a[0] in a;
      assert Step(Between(words), a[0]) == Step(st, a[0]);
      var text, slashes := FeedPlain(words, "", 0, a);
      assert "" + Slashes(0) + a == a;
    }
  }

  lemma {:induction false} FeedTail(words: seq<string>, args: seq<string>)
    ensures HasRead(Feed(Between(words), Tail(args)), words + args)
    decreases |args|
  {
    if args == [] {
      assert words + args == words;
      assert Feed(Between(words), Tail(args)) == Between(words);
    } else {
      hide Feed, Quoted, HasRead, Tail;
      var init, last := args[..|args| - 1], args[|args| - 1];
      FeedTail(words, init);
      TailOf(args, |args|);
      assert args[..|args|] == args;
      Regroup(Tail(init), " ", Quoted(last));
      FeedAppend(Between(words), Tail(init), " " + Quoted(last));
      FeedWord(Feed(Between(words), Tail(init)), words + init, last);
      assert words + init + [last] == words + args;
    }
  }

  lemma FeedWord(st: Scan, words: seq<string>, a: string)
    requires HasRead(st, words)
    ensures HasRead(Feed(st, " " + Quoted(a)), words + [a])
  {
    hide Quoted;
    assert (" " + Quoted(a))[1..] == Quoted(a);
    FeedQuoted(words, a);
  }

  lemma {:induction false} UntilExact(s: string, stop: char -> bool, n: nat)
    requires n <= |s| && (forall i | 0 <= i < n :: !stop(s[i])) && (n < |s| ==> stop(s[n]))
    ensures Until(s, stop) == n
    decreases n
  {
    if n > 0 { UntilExact(s[1..], stop, n - 1); }
  }

  lemma TailStartsBlank(args: seq<string>)
    ensures Tail(args) != "" ==> Tail(args)[0] == ' '
    decreases |args|
  {
    if args != [] { TailStartsBlank(args[..|args| - 1]); }
  }

  lemma {:induction false} EscapedHasNoQuote(a: string, n: nat)
    requires QUOTE !in a
    ensures QUOTE !in Escaped(a, n)
    decreases |a|
  {
    NoQuoteInSlashes(n);
    NoQuoteInSlashes(2 * n);
    if a != "" {
      assert a[0] in a;
      EscapedHasNoQuote(a[1..], if a[0] == SLASH then n + 1 else 0);
    }
  }

  lemma EscapedStep(a: string, n: nat)
    requires a != "" && a[0] != QUOTE
    ensures a[0] == SLASH ==> Escaped(a, n) == Escaped(a[1..], n + 1)
    ensures a[0] != SLASH ==> Escaped(a, n) == Slashes(n) + [a[0]] + Escaped(a[1..], 0)
  {}

  /** Without quotes, only backslashes at the very end are doubled. */
  lemma {:induction false} EscapedWithoutQuotes(a: string, n: nat)
    requires QUOTE !in a
    ensures if (if a == "" then n > 0 else EndsInSlash(a)) then |Escaped(a, n)| > n + |a| else Escaped(a, n) == Slashes(n) + a
    decreases |a|
  {
    if a == "" {
      assert Slashes(n) + a == Slashes(n);
    } else {
      hide Slashes, Escaped;
      var rest := a[1..];
      assert a[0] in a && (forall c | c in rest :: c in a);
      EscapedStep(a, n);
      assert rest != "" ==> rest[|rest| - 1] == a[|a| - 1];
      if a[0] == SLASH {
        EscapedWithoutQuotes(rest, n + 1);
        SlashesThen(n, a);
      } else {
        EscapedWithoutQuotes(rest, 0);
        PlainStep(a, n);
      }
    }
  }

  lemma PlainStep(a: string, n: nat)
    requires a != ""
    ensures Slashes(n) + [a[0]] + (Slashes(0) + a[1..]) == Slashes(n) + a
  {
    assert Slashes(0) + a[1..] == a[1..];
    assert a == [a[0]] + a[1..];
  }

  lemma {:induction false} NoQuoteInSlashes(n: nat)
    ensures QUOTE !in Slashes(n)
    ensures n > 0 ==> Slashes(n)[n - 1] == SLASH
  {
    if n > 0 { NoQuoteInSlashes(n - 1); }
  }

  predicate EndsInSlash(a: string) { a != "" && a[|a| - 1] == SLASH }

  lemma ParsedQuotedProgram(inside: string, tail: string)
    requires QUOTE !in inside
    ensures Parse([QUOTE] + inside + [QUOTE] + tail) == [inside] + Words(Feed(Between([]), tail))
  {
    hide Feed, Words;
    var line := [QUOTE] + inside + [QUOTE] + tail;
    assert line[1..] == inside + [QUOTE] + tail;
    forall i | 0 <= i < |inside| ensures line[1..][i] != QUOTE { assert line[1..][i] == inside[i] && inside[i] in inside; }
    UntilExact(line[1..], c => c == QUOTE, |inside|);
    assert line[1..][..|inside|] == inside;
    assert line[|inside| + 2..] == tail;
  }

  lemma ParsedPlainProgram(program: string, tail: string)
    requires !NeedsQuotes(program) && (tail != "" ==> tail[0] == ' ')
    ensures Parse(program + tail) == [program] + Words(Feed(Between([]), tail))
  {
    hide Feed, Words;
    var line := program + tail;
    forall i | 0 <= i < |program| ensures !Blank(line[i]) { assert line[i] == program[i] && program[i] in program; }
    assert line[0] == program[0] && program[0] in program;
    UntilExact(line, c => Blank(c), |program|);
    assert line[..|program|] == program && line[|program|..] == tail;
  }

  /** What the reader makes of the line: the arguments exactly, whenever the
      program contains no quote, and the program's quoted inside as it stands. */
  lemma ParsedLine(program: string, args: seq<string>)
    requires QUOTE !in program
    ensures Parse(Quoted(program) + Tail(args)) == [if NeedsQuotes(program) then Escaped(program, 0) else program] + args
  {
    hide Feed, Parse;
    FeedTail([], args);
    TailStartsBlank(args);
    assert [] + args == args;
    if NeedsQuotes(program) {
      EscapedHasNoQuote(program, 0);
      ParsedQuotedProgram(Escaped(program, 0), Tail(args));
    } else {
      ParsedPlainProgram(program, Tail(args));
    }
  }

  /** The arguments always survive a program without quotes. */
  lemma ArgumentsRoundTrip(program: string, args: seq<string>)
    requires QUOTE !in program
    ensures |Parse(Quoted(program) + Tail(args))| == 1 + |args|
    ensures Parse(Quoted(program) + Tail(args))[1..] == args
  {
    ParsedLine(program, args);
  }

  /** The whole line round-trips exactly when the program name contains no quote
      and is not a quoted name ending in a backslash. */
  lemma CommandLineRoundTrip(program: string, args: seq<string>)
    ensures Parse(Quoted(program) + Tail(args)) == [program] + args <==>
            QUOTE !in program && !(NeedsQuotes(program) && EndsInSlash(program))
  {
    var line := Quoted(program) + Tail(args);
    if QUOTE in program {
      assert NeedsQuotes(program);
      assert line[0] == QUOTE;
      var n := Until(line[1..], c => c == QUOTE);
      assert QUOTE !in Parse(line)[0];
    } else {
      ParsedLine(program, args);
      EscapedWithoutQuotes(program, 0);
      assert Slashes(0) + program == program;
      assert Parse(line)[1..] == args && ([program] + args)[0] == program;
    }
  }

  lemma FeedChars(st: Scan, a: char, b: char, c: char, d: char)
    ensures Feed(st, [a, b, c, d]) == Step(Step(Step(Step(st, a), b), c), d)
  {
    assert [a, b, c, d] == [a] + [b] + [c] + [d];
    FeedAppend(st, [a] + [b] + [c], [d]);
    FeedAppend(st, [a] + [b], [c]);
    FeedAppend(st, [a], [b]);
    FeedOne(st, a);
    FeedOne(Step(st, a), b);
    FeedOne(Step(Step(st, a), b), c);
    FeedOne(Step(Step(Step(st, a), b), c), d);
  }

  lemma QuotedExample()
    ensures Quoted("a\"b") + Tail(["x"]) == [QUOTE] + "a\\" + [QUOTE] + ['b', QUOTE, ' ', 'x']
  {
    var p := "a\"b";
    assert p[1] == QUOTE && QUOTE in p;
    assert p[1..] == "\"b" && p[1..][1..] == "b" && "b"[1..] == "";
    assert Escaped("b", 0) == Slashes(0) + ['b'] + Escaped("", 0);
    assert Slashes(1) == Slashes(0) + [SLASH];
    assert Escaped("\"b", 0) == Slashes(1) + [QUOTE] + Escaped("b", 0);
    assert Escaped(p, 0) == Slashes(0) + ['a'] + Escaped("\"b", 0);
    assert ["x"][..0] == [];
    assert Tail(["x"]) == Tail([]) + " " + Quoted("x");
  }

  lemma RestExample()
    ensures Words(Feed(Between([]), ['b', QUOTE, ' ', 'x'])) == ["b x"]
  {
    FeedChars(Between([]), 'b', QUOTE, ' ', 'x');
    hide Feed;
    var none := Slashes(0);
    assert none == "";
    assert Step(Between([]), 'b') == Inside([], "b", 0, false, 0) by { assert "" + none + ['b'] == "b"; }
    assert Step(Inside([], "b", 0, false, 0), QUOTE) == Inside([], "b", 1, true, 0) by { assert "b" + none == "b"; }
    assert Step(Inside([], "b", 1, true, 0), ' ') == Inside([], "b ", 1, false, 0) by { assert "b" + none + [' '] == "b "; }
    assert Step(Inside([], "b ", 1, false, 0), 'x') == Inside([], "b x", 1, false, 0) by { assert "b " + none + ['x'] == "b x"; }
    assert [] + ["b x" + none] == ["b x"] by { assert "b x" + none == "b x"; }
  }

  /** A quote in the program name loses more than the name: the reader's rule for
      the program stops at the escaped quote, and the rest runs into the
      arguments. */
  lemma ProgramWithQuoteIsLost()
    ensures Parse(Quoted("a\"b") + Tail(["x"])) == ["a\\", "b x"]
    ensures Parse(Quoted("a\"b") + Tail(["x"]))[1..] != ["x"]
  {
    hide Parse, Quoted, Tail, Feed, Words;
    QuotedExample();
    ParsedQuotedProgram("a\\", ['b', QUOTE, ' ', 'x']);
    RestExample();
    assert ["a\\"] + ["b x"] == ["a\\", "b x"];
    assert "b x"[0] != "x"[0];
  }
}
