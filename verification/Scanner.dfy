/** Reading a text one character at a time, whatever the reader's states are. */
module Scanner {

  function Scan<S>(step: (S, char) -> S, st: S, s: string): S
    decreases |s|
  {
    if s == "" then st else Scan(step, step(st, s[0]), s[1..])
  }

  lemma {:induction false} ScanAppend<S>(step: (S, char) -> S, st: S, a: string, b: string)
    ensures Scan(step, st, a + b) == Scan(step, Scan(step, st, a), b)
    decreases |a|
  {
    if a == "" {
      assert a + b == b;
    } else {
      ScanAppend(step, step(st, a[0]), a[1..], b);
      assert (a + b)[1..] == a[1..] + b;
    }
  }

  lemma ScanOne<S>(step: (S, char) -> S, st: S, c: char)
    ensures Scan(step, st, [c]) == step(st, c)
  {
    assert [c][1..] == "";
  }

  lemma ScanTwo<S>(step: (S, char) -> S, st: S, c: char, d: char)
    ensures Scan(step, st, [c, d]) == step(step(st, c), d)
  {
    assert [c, d] == [c] + [d];
    ScanAppend(step, st, [c], [d]);
    ScanOne(step, st, c);
    ScanOne(step, step(st, c), d);
  }
}
