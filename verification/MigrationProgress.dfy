/** A migrator that nothing disturbs finishes, and leaves everything moved. */
module MigrationProgress {
  import opened Wrappers
  import opened Migration

  // ----- The calls of an undisturbed run

  function Answers(run: nat, n: nat): seq<Action> {
    if n == 0 then [] else [Advance(run, Answer)] + Answers(run, n - 1)
  }

  /** The scan returns the documents under `keys`, in this order. */
  function Sees(run: nat, keys: seq<Key>): seq<Action> {
    if keys == [] then [] else [Advance(run, SeeRow(keys[0]))] + Sees(run, keys[1..])
  }

  /** Copy, read back and delete; a copy that is there already is compared first. */
  function RowCalls(st: Store, key: Key): nat { if key in st.target then 4 else 3 }

  function RowsCalls(st: Store, keys: seq<Key>): nat {
    if keys == [] then 0 else RowCalls(st, keys[0]) + RowsCalls(st, keys[1..])
  }

  /** Read, and write unless the receipt is there already. */
  function ReceiptCalls(st: Store, step: Step): nat { if step in st.receipts then 1 else 2 }

  function StepActions(st: Store, run: nat, step: Step, keys: seq<Key>): seq<Action> {
    Sees(run, keys) + Answers(run, 1 + RowsCalls(st, keys) + ReceiptCalls(st, step))
  }

  /** Both receipts validated, then one collection after the other. */
  function RunActions(st: Store, run: nat, boxes: seq<Key>, jails: seq<Key>): seq<Action> {
    [Start(run)] + Answers(run, 2) + StepActions(st, run, Boxes, boxes) + StepActions(st, run, JailIndex, jails)
  }

  // ----- What it needs and what it leaves

  /** `keys` lists the source rows of a step, each once. */
  ghost predicate Lists(st: Store, step: Step, keys: seq<Key>) {
    && (forall k | k in st.source && k.step == step :: k in keys)
    && (forall k | k in keys :: k in st.source && k.step == step)
    && (forall i, j | 0 <= i < j < |keys| :: keys[i] != keys[j])
  }

  /** Every listed row converts, and its target is free or already its copy. */
  ghost predicate Movable(conv: Conversion, st: Store, keys: seq<Key>) {
    forall k | k in keys ::
      && k in st.source && conv(k, st.source[k].body).Some?
      && (k in st.target ==> Faithful(conv, st.target[k], Row(k, st.source[k])))
  }

  /** `st'` is `st` with the listed rows moved. */
  ghost predicate Moved(conv: Conversion, st: Store, st': Store, keys: seq<Key>) {
    && (forall k :: k in st'.source <==> k in st.source && k !in keys)
    && (forall k | k in st'.source :: st'.source[k] == st.source[k])
    && (forall k | k in keys :: k in st.source && k in st'.target && Faithful(conv, st'.target[k], Row(k, st.source[k])))
    && (forall k | k !in keys :: (k in st'.target <==> k in st.target) && (k in st.target ==> st'.target[k] == st.target[k]))
    && st'.receipts == st.receipts
  }

  ghost predicate GoodReceipts(st: Store) {
    forall step | step in st.receipts :: ReceiptIsValid(st.receipts[step], step)
  }

  // ----- Composition

  lemma {:induction false} ExecuteAppend(conv: Conversion, s: State, xs: seq<Action>, ys: seq<Action>)
    ensures Execute(conv, s, xs + ys) == Execute(conv, Execute(conv, s, xs), ys)
    decreases |xs|
  {
    if xs == [] {
      assert xs + ys == ys;
    } else {
      assert (xs + ys)[0] == xs[0] && (xs + ys)[1..] == xs[1..] + ys;
      ExecuteAppend(conv, Next(conv, s, xs[0]), xs[1..], ys);
    }
  }

  lemma {:induction false} AnswersAppend(run: nat, m: nat, n: nat)
    ensures Answers(run, m + n) == Answers(run, m) + Answers(run, n)
    decreases m
  {
    if m > 0 {
      AnswersAppend(run, m - 1, n);
    } else {
      assert Answers(run, 0) + Answers(run, n) == Answers(run, n);
    }
  }

  /** `n` calls that answer. */
  function Run(conv: Conversion, s: State, run: nat, n: nat): State { Execute(conv, s, Answers(run, n)) }

  lemma RunOne(conv: Conversion, s: State, run: nat)
    requires run in s.runs
    ensures Run(conv, s, run, 1) == AdvanceRun(conv, s, run, Answer)
  {
    hide AdvanceRun;
    var one := Answers(run, 1);
    assert one == [Advance(run, Answer)] + Answers(run, 0) == [Advance(run, Answer)];
    assert one[1..] == [];
    assert Execute(conv, Next(conv, s, one[0]), []) == Next(conv, s, one[0]);
  }

  lemma RunMore(conv: Conversion, s: State, run: nat, m: nat, n: nat)
    ensures Run(conv, s, run, m + n) == Run(conv, Run(conv, s, run, m), run, n)
  {
    AnswersAppend(run, m, n);
    ExecuteAppend(conv, s, Answers(run, m), Answers(run, n));
  }

  // ----- The scan

  function RowsFor(st: Store, keys: seq<Key>): (rows: seq<Row>)
    requires forall k | k in keys :: k in st.source
    ensures |rows| == |keys| && forall i | 0 <= i < |keys| :: rows[i] == Row(keys[i], st.source[keys[i]])
  {
    seq(|keys|, i requires 0 <= i < |keys| => Row(keys[i], st.source[keys[i]]))
  }

  lemma {:induction false} ScanPhase(conv: Conversion, s: State, run: nat, step: Step, rows: seq<Row>, keys: seq<Key>)
    requires run in s.runs && s.runs[run] == Scanning(step, rows)
    requires forall k | k in keys :: k in s.store.source && k.step == step
    ensures var s' := Execute(conv, s, Sees(run, keys));
            s'.store == s.store && s'.runs == s.runs[run := Scanning(step, rows + RowsFor(s.store, keys))]
    decreases |keys|
  {
    if keys == [] {
      assert rows + RowsFor(s.store, keys) == rows;
    } else {
      var k, rest := keys[0], keys[1..];
      var s1 := AdvanceRun(conv, s, run, SeeRow(k));
      assert k in keys;
      SeesFirst(conv, s, run, keys);
      assert s1.store == s.store && s1.runs[run] == Scanning(step, rows + [Row(k, s.store.source[k])]);
      ScanPhase(conv, s1, run, step, rows + [Row(k, s.store.source[k])], rest);
      assert rows + [Row(k, s.store.source[k])] + RowsFor(s.store, rest) == rows + RowsFor(s.store, keys);
    }
  }

  lemma SeesFirst(conv: Conversion, s: State, run: nat, keys: seq<Key>)
    requires run in s.runs && keys != []
    ensures Execute(conv, s, Sees(run, keys)) == Execute(conv, AdvanceRun(conv, s, run, SeeRow(keys[0])), Sees(run, keys[1..]))
  {
    hide AdvanceRun;
    var all := Sees(run, keys);
    assert all[0] == Advance(run, SeeRow(keys[0])) && all[1..] == Sees(run, keys[1..]);
  }

  // ----- One row

  /** The store after one row. */
  ghost predicate RowMoved(conv: Conversion, st: Store, st': Store, key: Key) {
    Moved(conv, st, st', [key])
  }

  lemma CopyStep(conv: Conversion, s: State, run: nat, step: Step, rows: seq<Row>, at: nat)
    requires run in s.runs && s.runs[run] == Copying(step, rows, at) && at < |rows|
    requires conv(rows[at].key, rows[at].doc.body).Some?
    requires rows[at].key in s.store.target ==> Faithful(conv, s.store.target[rows[at].key], rows[at])
    ensures var n := RowCalls(s.store, rows[at].key) - 2; var s' := Run(conv, s, run, n);
            && s'.runs == s.runs[run := ReadingBack(step, rows, at)]
            && s'.store.source == s.store.source && s'.store.receipts == s.store.receipts
            && rows[at].key in s'.store.target && Faithful(conv, s'.store.target[rows[at].key], rows[at])
            && s'.store.target == s.store.target[rows[at].key := s'.store.target[rows[at].key]]
  {
    RunOne(conv, s, run);
    var s1 := AdvanceRun(conv, s, run, Answer);
    if rows[at].key in s.store.target {
      RunMore(conv, s, run, 1, 1);
      RunOne(conv, s1, run);
    }
  }

  lemma DeleteStep(conv: Conversion, s: State, run: nat, step: Step, rows: seq<Row>, at: nat)
    requires run in s.runs && s.runs[run] == ReadingBack(step, rows, at) && at < |rows|
    requires rows[at].key in s.store.target && Faithful(conv, s.store.target[rows[at].key], rows[at])
    requires rows[at].key in s.store.source && s.store.source[rows[at].key] == rows[at].doc
    ensures var s' := Run(conv, s, run, 2);
            && s'.runs == s.runs[run := AfterRow(step, rows, at)]
            && s'.store == s.store.(source := s.store.source - {rows[at].key})
  {
    RunMore(conv, s, run, 1, 1);
    RunOne(conv, s, run);
    var s1 := AdvanceRun(conv, s, run, Answer);
    RunOne(conv, s1, run);
  }

  lemma RowPhase(conv: Conversion, s: State, run: nat, step: Step, rows: seq<Row>, at: nat)
    requires run in s.runs && s.runs[run] == Copying(step, rows, at) && at < |rows|
    requires rows[at].key in s.store.source && s.store.source[rows[at].key] == rows[at].doc
    requires Movable(conv, s.store, [rows[at].key])
    ensures var s' := Run(conv, s, run, RowCalls(s.store, rows[at].key));
            s'.runs == s.runs[run := AfterRow(step, rows, at)] && Moved(conv, s.store, s'.store, [rows[at].key])
  {
    hide AdvanceRun, Run, Faithful;
    var key := rows[at].key;
    assert key in [key] && rows[at] == Row(key, s.store.source[key]);
    var n := RowCalls(s.store, key) - 2;
    CopyStep(conv, s, run, step, rows, at);
    var s1 := Run(conv, s, run, n);
    DeleteStep(conv, s1, run, step, rows, at);
    RunMore(conv, s, run, n, 2);
  }

  // ----- All rows of a step

  lemma MovedTransitive(conv: Conversion, st: Store, st1: Store, st2: Store, k: Key, rest: seq<Key>)
    requires Moved(conv, st, st1, [k]) && Moved(conv, st1, st2, rest) && k !in rest
    ensures Moved(conv, st, st2, [k] + rest)
  {
    hide Faithful;
    assert forall x :: x in [k] + rest <==> x == k || x in rest;
    assert forall x :: x in [k] <==> x == k;
  }

  lemma StillMovable(conv: Conversion, st: Store, st1: Store, k: Key, rest: seq<Key>)
    requires Moved(conv, st, st1, [k]) && Movable(conv, st, rest) && k !in rest
    ensures Movable(conv, st1, rest) && RowsCalls(st1, rest) == RowsCalls(st, rest)
  {
    hide Faithful;
    SameCalls(st, st1, rest);
  }

  lemma {:induction false} SameCalls(st: Store, st1: Store, keys: seq<Key>)
    requires forall k | k in keys :: k in st.target <==> k in st1.target
    ensures RowsCalls(st, keys) == RowsCalls(st1, keys)
    decreases |keys|
  {
    if keys != [] {
      assert keys[0] in keys && forall k | k in keys[1..] :: k in keys;
      SameCalls(st, st1, keys[1..]);
    }
  }

  /** The rows still to be moved, as they are in the source. */
  ghost predicate Pending(st: Store, rows: seq<Row>, at: nat, keys: seq<Key>) {
    && at + |keys| == |rows|
    && (forall i | 0 <= i < |keys| :: keys[i] in st.source && rows[at + i] == Row(keys[i], st.source[keys[i]]))
    && (forall i, j | 0 <= i < j < |keys| :: keys[i] != keys[j])
  }

  lemma PendingNext(conv: Conversion, st: Store, st1: Store, rows: seq<Row>, at: nat, keys: seq<Key>)
    requires keys != [] && Pending(st, rows, at, keys) && Moved(conv, st, st1, [keys[0]])
    ensures Pending(st1, rows, at + 1, keys[1..]) && keys[0] !in keys[1..]
  {
    hide Faithful;
    var rest := keys[1..];
    forall i | 0 <= i < |rest|
      ensures rest[i] != keys[0] && rest[i] in st1.source && rows[at + 1 + i] == Row(rest[i], st1.source[rest[i]])
    {
      assert rest[i] == keys[i + 1] && keys[0] != keys[i + 1];
    }
  }

  lemma FirstMovable(conv: Conversion, st: Store, keys: seq<Key>)
    requires keys != [] && Movable(conv, st, keys)
    ensures Movable(conv, st, [keys[0]]) && Movable(conv, st, keys[1..]) && keys == [keys[0]] + keys[1..]
  {
    hide Faithful;
    assert keys[0] in keys && forall k | k in keys[1..] :: k in keys;
  }

  lemma {:induction false} RowsPhase(conv: Conversion, s: State, run: nat, step: Step, rows: seq<Row>, at: nat, keys: seq<Key>)
    requires Pending(s.store, rows, at, keys) && Movable(conv, s.store, keys)
    requires run in s.runs && s.runs[run] == if keys == [] then ReceiptReading(step, rows) else Copying(step, rows, at)
    ensures var s' := Run(conv, s, run, RowsCalls(s.store, keys));
            s'.runs == s.runs[run := ReceiptReading(step, rows)] && Moved(conv, s.store, s'.store, keys)
    decreases |keys|
  {
    hide Run, Movable, Pending, AdvanceRun, Execute, Next, Faithful;
    if keys == [] {
      RunNone(conv, s, run);
      PendingFirst(s.store, rows, at, keys);
    } else {
      hide Moved;
      var k, rest := keys[0], keys[1..];
      var n := RowCalls(s.store, k);
      PendingFirst(s.store, rows, at, keys);
      FirstMovable(conv, s.store, keys);
      RowPhase(conv, s, run, step, rows, at);
      var s1 := Run(conv, s, run, n);
      PendingNext(conv, s.store, s1.store, rows, at, keys);
      StillMovable(conv, s.store, s1.store, k, rest);
      RowsPhase(conv, s1, run, step, rows, at + 1, rest);
      RunMore(conv, s, run, n, RowsCalls(s.store, rest));
      MovedTransitive(conv, s.store, s1.store, Run(conv, s1, run, RowsCalls(s1.store, rest)).store, k, rest);
    }
  }

  lemma PendingFirst(st: Store, rows: seq<Row>, at: nat, keys: seq<Key>)
    requires Pending(st, rows, at, keys)
    ensures at + |keys| == |rows|
    ensures keys != [] ==> rows[at].key == keys[0] && keys[0] in st.source && st.source[keys[0]] == rows[at].doc
  {
    if keys != [] { assert rows[at + 0] == Row(keys[0], st.source[keys[0]]); }
  }

  lemma RunNone(conv: Conversion, s: State, run: nat)
    ensures Run(conv, s, run, 0) == s
  {
  }

  // ----- The receipt

  lemma ReceiptPhase(conv: Conversion, s: State, run: nat, step: Step, rows: seq<Row>)
    requires run in s.runs && s.runs[run] == ReceiptReading(step, rows)
    requires step in s.store.receipts ==> ReceiptIsValid(s.store.receipts[step], step)
    ensures var s' := Run(conv, s, run, ReceiptCalls(s.store, step));
            && s'.runs == s.runs[run := AfterReceipt(step)]
            && step in s'.store.receipts && ReceiptIsValid(s'.store.receipts[step], step)
            && s'.store == s.store.(receipts := s.store.receipts[step := s'.store.receipts[step]])
  {
    RunOne(conv, s, run);
    if step !in s.store.receipts {
      var s1 := AdvanceRun(conv, s, run, Answer);
      RunMore(conv, s, run, 1, 1);
      RunOne(conv, s1, run);
    }
  }

  // ----- One collection

  lemma StepPhase(conv: Conversion, s: State, run: nat, step: Step, keys: seq<Key>)
    requires run in s.runs && s.runs[run] == Scanning(step, [])
    requires Lists(s.store, step, keys) && Movable(conv, s.store, keys)
    requires step in s.store.receipts ==> ReceiptIsValid(s.store.receipts[step], step)
    ensures var s' := Execute(conv, s, StepActions(s.store, run, step, keys));
            && s'.runs == s.runs[run := AfterReceipt(step)]
            && step in s'.store.receipts && ReceiptIsValid(s'.store.receipts[step], step)
            && Moved(conv, s.store, s'.store.(receipts := s.store.receipts), keys)
            && s'.store.receipts == s.store.receipts[step := s'.store.receipts[step]]
  {
    hide Run, Movable, Moved, Pending, AdvanceRun, Lists, ReceiptIsValid, Execute, Next, RowsCalls, ReceiptCalls, Sees, StepActions, Faithful;
    ScanDone(conv, s, run, step, keys);
    var rows := RowsFor(s.store, keys);
    var n, m := RowsCalls(s.store, keys), ReceiptCalls(s.store, step);
    var s1 := Execute(conv, s, Sees(run, keys));
    var s2 := Run(conv, s1, run, 1);
    RowsPhase(conv, s2, run, step, rows, 0, keys);
    var s3 := Run(conv, s2, run, n);
    MovedReceipts(conv, s2.store, s3.store, keys);
    SameReceiptCalls(s.store, s3.store, step);
    ReceiptPhase(conv, s3, run, step, rows);
    var s4 := Run(conv, s3, run, m);
    RunMore(conv, s1, run, 1, n);
    RunMore(conv, s1, run, 1 + n, m);
    MovedElsewhere(conv, s.store, s3.store, s4.store, keys);
    StepIsRun(conv, s, run, step, keys);
  }

  lemma SameReceiptCalls(st: Store, st1: Store, step: Step)
    requires st.receipts == st1.receipts
    ensures ReceiptCalls(st, step) == ReceiptCalls(st1, step)
  {
  }

  lemma ListedRows(st: Store, step: Step, keys: seq<Key>)
    requires Lists(st, step, keys)
    ensures (forall k | k in keys :: k in st.source && k.step == step) && Pending(st, RowsFor(st, keys), 0, keys)
  {
  }

  /** The scan, and the answer that ends it. */
  lemma ScanDone(conv: Conversion, s: State, run: nat, step: Step, keys: seq<Key>)
    requires run in s.runs && s.runs[run] == Scanning(step, []) && Lists(s.store, step, keys)
    ensures (forall k | k in keys :: k in s.store.source) && Pending(s.store, RowsFor(s.store, keys), 0, keys)
    ensures var rows, s' := RowsFor(s.store, keys), Run(conv, Execute(conv, s, Sees(run, keys)), run, 1);
            && s'.store == s.store
            && s'.runs == s.runs[run := if keys == [] then ReceiptReading(step, rows) else Copying(step, rows, 0)]
  {
    ListedRows(s.store, step, keys);
    hide Lists, Pending, Execute, Sees, Run, AdvanceRun;
    var rows := RowsFor(s.store, keys);
    ScanPhase(conv, s, run, step, [], keys);
    assert [] + rows == rows;
    var s1 := Execute(conv, s, Sees(run, keys));
    assert s1.runs == s.runs[run := Scanning(step, rows)];
    ScanEnds(conv, s1, run, step, rows);
    assert rows == [] <==> keys == [];
  }

  lemma ScanEnds(conv: Conversion, s: State, run: nat, step: Step, rows: seq<Row>)
    requires run in s.runs && s.runs[run] == Scanning(step, rows)
    ensures var s' := Run(conv, s, run, 1);
            && s'.store == s.store
            && s'.runs == s.runs[run := if rows == [] then ReceiptReading(step, rows) else Copying(step, rows, 0)]
  {
    RunOne(conv, s, run);
    hide Run;
  }

  lemma StepIsRun(conv: Conversion, s: State, run: nat, step: Step, keys: seq<Key>)
    ensures Execute(conv, s, StepActions(s.store, run, step, keys)) ==
            Run(conv, Execute(conv, s, Sees(run, keys)), run, 1 + RowsCalls(s.store, keys) + ReceiptCalls(s.store, step))
  {
    hide Sees, RowsCalls, ReceiptCalls, Execute;
    ExecuteAppend(conv, s, Sees(run, keys), Answers(run, 1 + RowsCalls(s.store, keys) + ReceiptCalls(s.store, step)));
  }

  lemma MovedReceipts(conv: Conversion, st: Store, st1: Store, keys: seq<Key>)
    requires Moved(conv, st, st1, keys)
    ensures st1.receipts == st.receipts
  {
  }

  lemma MovedElsewhere(conv: Conversion, st: Store, st1: Store, st2: Store, keys: seq<Key>)
    requires Moved(conv, st, st1, keys) && st2 == st1.(receipts := st2.receipts)
    ensures Moved(conv, st, st2.(receipts := st.receipts), keys)
  {
    hide Faithful;
  }

  // ----- The whole run

  lemma Opening(conv: Conversion, s: State, run: nat)
    requires run !in s.runs && GoodReceipts(s.store)
    ensures var s' := Execute(conv, s, [Start(run)] + Answers(run, 2));
            s'.store == s.store && s'.runs == s.runs[run := Scanning(Boxes, [])]
  {
    var s1 := Next(conv, s, Start(run));
    ExecuteAppend(conv, s, [Start(run)], Answers(run, 2));
    assert [Start(run)][1..] == [];
    assert Execute(conv, s1, []) == s1;
    RunMore(conv, s1, run, 1, 1);
    RunOne(conv, s1, run);
    var s2 := AdvanceRun(conv, s1, run, Answer);
    RunOne(conv, s2, run);
  }

  /** Everything is moved: both sources are empty, every row has a faithful copy
      and both receipts are there. */
  ghost predicate AllMoved(conv: Conversion, st: Store, st': Store) {
    && st'.source == map[]
    && (forall k | k in st.source :: k in st'.target && Faithful(conv, st'.target[k], Row(k, st.source[k])))
    && (forall step: Step :: step in st'.receipts && ReceiptIsValid(st'.receipts[step], step))
  }

  /** A run whose calls all answer, whose scans return every source row, whose
      rows convert and whose targets are free or already right, with nobody else
      at work, finishes with everything moved. */
  lemma UndisturbedRunFinishes(conv: Conversion, s: State, run: nat, boxes: seq<Key>, jails: seq<Key>)
    requires run !in s.runs && GoodReceipts(s.store)
    requires Lists(s.store, Boxes, boxes) && Lists(s.store, JailIndex, jails)
    requires Movable(conv, s.store, boxes) && Movable(conv, s.store, jails)
    ensures var s' := Execute(conv, s, RunActions(s.store, run, boxes, jails));
            s'.runs[run := Finished] == s'.runs && AllMoved(conv, s.store, s'.store)
  {
    var opening := [Start(run)] + Answers(run, 2);
    Opening(conv, s, run);
    var s1 := Execute(conv, s, opening);
    StepPhase(conv, s1, run, Boxes, boxes);
    var s2 := Execute(conv, s1, StepActions(s.store, run, Boxes, boxes));
    Beyond(conv, s.store, s2.store, boxes, jails);
    StepPhase(conv, s2, run, JailIndex, jails);
    var s3 := Execute(conv, s2, StepActions(s2.store, run, JailIndex, jails));
    BothMoved(conv, s.store, s2.store, s3.store, boxes, jails);
    hide Execute, Lists, Movable, Moved, AllMoved, StepActions;
    ExecuteAppend(conv, s, opening, StepActions(s.store, run, Boxes, boxes));
    ExecuteAppend(conv, s, opening + StepActions(s.store, run, Boxes, boxes), StepActions(s.store, run, JailIndex, jails));
  }

  /** The second collection is as it was after the first was moved. */
  lemma Beyond(conv: Conversion, st: Store, st1: Store, boxes: seq<Key>, jails: seq<Key>)
    requires Lists(st, Boxes, boxes) && Lists(st, JailIndex, jails) && Movable(conv, st, jails) && GoodReceipts(st)
    requires Moved(conv, st, st1.(receipts := st.receipts), boxes) && Boxes in st1.receipts
    requires st1.receipts == st.receipts[Boxes := st1.receipts[Boxes]]
    ensures Lists(st1, JailIndex, jails) && Movable(conv, st1, jails)
    ensures JailIndex in st1.receipts ==> ReceiptIsValid(st1.receipts[JailIndex], JailIndex)
    ensures forall run :: StepActions(st1, run, JailIndex, jails) == StepActions(st, run, JailIndex, jails)
  {
    hide Faithful;
    assert forall k | k in jails :: k !in boxes;
    SameCalls(st, st1, jails);
  }

  lemma BothMoved(conv: Conversion, st: Store, st1: Store, st2: Store, boxes: seq<Key>, jails: seq<Key>)
    requires Lists(st, Boxes, boxes) && Lists(st, JailIndex, jails)
    requires Moved(conv, st, st1.(receipts := st.receipts), boxes) && Moved(conv, st1, st2.(receipts := st1.receipts), jails)
    requires Boxes in st1.receipts && ReceiptIsValid(st1.receipts[Boxes], Boxes)
    requires JailIndex in st2.receipts && ReceiptIsValid(st2.receipts[JailIndex], JailIndex)
    requires st2.receipts == st1.receipts[JailIndex := st2.receipts[JailIndex]]
    ensures AllMoved(conv, st, st2)
  {
    hide Faithful, ReceiptIsValid;
    assert forall k | k in jails :: k !in boxes;
    forall k: Key
      ensures k !in st2.source
    {
      assert k.step == Boxes || k.step == JailIndex;
    }
    forall k | k in st.source
      ensures k in st2.target && Faithful(conv, st2.target[k], Row(k, st.source[k]))
    {
      assert k.step == Boxes || k.step == JailIndex;
    }
    forall step: Step
      ensures step in st2.receipts && ReceiptIsValid(st2.receipts[step], step)
    {
      assert step == Boxes || step == JailIndex;
    }
  }
}
