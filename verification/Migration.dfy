/** Moving v1 documents to v2 collections on a versioned document store, by any
    number of migrators that may crash at any point, beside v1 writers that are
    still running. */
module Migration {

  import opened Wrappers

  /** The two migrated collections, in order. */
  datatype Step = Boxes | JailIndex

  datatype Key = Key(step: Step, id: string)

  type Body = string

  const BODY_VERSION: nat := 2

  datatype Doc = Doc(version: nat, body: Body, schema: nat, expires: Option<nat>)

  /** A stored completion receipt; `Garbled` does not decode. */
  datatype Receipt = Garbled | Receipt(step: Step, version: nat, complete: bool, schema: nat)

  datatype Store = Store(
    source: map<Key, Doc>, target: map<Key, Doc>, receipts: map<Step, Receipt>, next: nat, clock: nat)

  datatype Row = Row(key: Key, doc: Doc)

  predicate ReceiptIsValid(r: Receipt, step: Step) {
    r == Receipt(step, 1, true, BODY_VERSION)
  }

  predicate Expired(d: Doc, clock: nat) { d.expires.Some? && d.expires.value <= clock }

  // ----- One migrator

  /** The conversion of a legacy body, which may refuse it. */
  type Conversion = (Key, Body) -> Option<Body>

  /** Where a migrator stands: the awaited storage call is the next thing it
      does. `rows` is what its scan returned, `at` the row being moved. */
  datatype Pc =
    | Validating(step: Step)
    | Scanning(step: Step, rows: seq<Row>)
    | Copying(step: Step, rows: seq<Row>, at: nat)
    | Comparing(step: Step, rows: seq<Row>, at: nat)
    | ReadingBack(step: Step, rows: seq<Row>, at: nat)
    | Deleting(step: Step, rows: seq<Row>, at: nat)
    | Rechecking(step: Step, rows: seq<Row>, at: nat)
    | ReceiptReading(step: Step, rows: seq<Row>)
    | ReceiptWriting(step: Step, rows: seq<Row>)
    | ReceiptComparing(step: Step, rows: seq<Row>)
    | Finished
    | Failed

  datatype Event =
    | Seen(run: nat, row: Row)
    | ReadBack(run: nat, row: Row, found: Doc)
    | Copied(run: nat, row: Row)
    | Deleted(run: nat, row: Row)
    | Recorded(run: nat, step: Step)

  datatype State = State(store: Store, runs: map<nat, Pc>, latest: map<Key, Doc>, history: map<nat, Row>, log: seq<Event>)

  /** How the awaited call turns out: it answers, or it fails with or without
      having taken effect; a scan may return one more row it sees now. */
  datatype Choice = Answer | Fail(effect: bool) | SeeRow(key: Key)

  datatype Action =
    | LegacyPut(key: Key, body: Body, schema: nat, expires: Option<nat>)
    | LegacyDelete(key: Key)
    | Tick
    | DropExpiredSource(key: Key)
    | DropExpiredTarget(key: Key)
    | Start(run: nat)
    | Crash(run: nat)
    | Advance(run: nat, choice: Choice)

  function AfterRow(step: Step, rows: seq<Row>, at: nat): Pc {
    if at + 1 < |rows| then Copying(step, rows, at + 1) else ReceiptReading(step, rows)
  }

  function AfterReceipt(step: Step): Pc {
    if step == Boxes then Scanning(JailIndex, []) else Finished
  }

  /** The copy carries the converted body, the current schema and the row's expiry. */
  predicate Faithful(conv: Conversion, found: Doc, row: Row) {
    conv(row.key, row.doc.body) == Some(found.body) && found.schema == BODY_VERSION && found.expires == row.doc.expires
  }

  function PutTarget(s: State, run: nat, row: Row, body: Body): State {
    s.(store := s.store.(target := s.store.target[row.key := Doc(s.store.next, body, BODY_VERSION, row.doc.expires)],
                         next := s.store.next + 1),
       log := s.log + [Copied(run, row)])
  }

  function DeleteSource(s: State, run: nat, row: Row): State {
    s.(store := s.store.(source := s.store.source - {row.key}), log := s.log + [Deleted(run, row)])
  }

  function PutReceipt(s: State, run: nat, step: Step): State {
    s.(store := s.store.(receipts := s.store.receipts[step := Receipt(step, 1, true, BODY_VERSION)]),
       log := s.log + [Recorded(run, step)])
  }

  function At(s: State, run: nat, pc: Pc): State { s.(runs := s.runs[run := pc]) }

  /** One storage call of one migrator. */
  function AdvanceRun(conv: Conversion, s: State, run: nat, choice: Choice): State
    requires run in s.runs
  {
    var st := s.store;
    var failed := At(s, run, Failed);
    match s.runs[run]
    case Validating(step) =>
      if !choice.Answer? then failed
      else if step in st.receipts && !ReceiptIsValid(st.receipts[step], step) then failed
      else At(s, run, if step == Boxes then Validating(JailIndex) else Scanning(Boxes, []))
    case Scanning(step, rows) =>
      (match choice
       case SeeRow(key) =>
         if key in st.source && key.step == step then
           var row := Row(key, st.source[key]);
           At(s.(log := s.log + [Seen(run, row)]), run, Scanning(step, rows + [row]))
         else s
       case Answer => At(s, run, if rows == [] then ReceiptReading(step, rows) else Copying(step, rows, 0))
       case Fail(_) => failed)
    case Copying(step, rows, at) =>
      if at >= |rows| then s else
      var row := rows[at];
      (match conv(row.key, row.doc.body)
       case None => failed
       case Some(body) =>
         if row.key in st.target then
           if choice.Answer? then At(s, run, Comparing(step, rows, at)) else failed
         else if choice.Answer? then At(PutTarget(s, run, row, body), run, ReadingBack(step, rows, at))
         else if choice == Fail(true) then At(PutTarget(s, run, row, body), run, Failed)
         else failed)
    case Comparing(step, rows, at) =>
      if at >= |rows| then s else
      var row := rows[at];
      if choice.Answer? && row.key in st.target && Faithful(conv, st.target[row.key], row)
      then At(s, run, ReadingBack(step, rows, at))
      else failed
    case ReadingBack(step, rows, at) =>
      if at >= |rows| then s else
      var row := rows[at];
      if choice.Answer? && row.key in st.target && Faithful(conv, st.target[row.key], row)
      then At(s.(log := s.log + [ReadBack(run, row, st.target[row.key])]), run, Deleting(step, rows, at))
      else failed
    case Deleting(step, rows, at) =>
      if at >= |rows| then s else
      var row := rows[at];
      var current := row.key in st.source && st.source[row.key].version == row.doc.version;
      if choice.Answer? then
        if current then At(DeleteSource(s, run, row), run, AfterRow(step, rows, at)) else At(s, run, Rechecking(step, rows, at))
      else if choice == Fail(true) && current then At(DeleteSource(s, run, row), run, Failed)
      else failed
    case Rechecking(step, rows, at) =>
      if at >= |rows| then s else
      if choice.Answer? && rows[at].key !in st.source then At(s, run, AfterRow(step, rows, at)) else failed
    case ReceiptReading(step, rows) =>
      if !choice.Answer? then failed
      else if step !in st.receipts then At(s, run, ReceiptWriting(step, rows))
      else if ReceiptIsValid(st.receipts[step], step) then At(s, run, AfterReceipt(step))
      else failed
    case ReceiptWriting(step, rows) =>
      if step in st.receipts then
        if choice.Answer? then At(s, run, ReceiptComparing(step, rows)) else failed
      else if choice.Answer? then At(PutReceipt(s, run, step), run, AfterReceipt(step))
      else if choice == Fail(true) then At(PutReceipt(s, run, step), run, Failed)
      else failed
    case ReceiptComparing(step, rows) =>
      if choice.Answer? && step in st.receipts && ReceiptIsValid(st.receipts[step], step) then At(s, run, AfterReceipt(step)) else failed
    case Finished => s
    case Failed => s
  }

  function Next(conv: Conversion, s: State, a: Action): State {
    var st := s.store;
    match a
    case LegacyPut(key, body, schema, expires) =>
      var d := Doc(st.next, body, schema, expires);
      s.(store := st.(source := st.source[key := d], next := st.next + 1),
         latest := s.latest[key := d], history := s.history[st.next := Row(key, d)])
    case LegacyDelete(key) => s.(store := st.(source := st.source - {key}), latest := s.latest - {key})
    case Tick => s.(store := st.(clock := st.clock + 1))
    case DropExpiredSource(key) =>
      if key in st.source && Expired(st.source[key], st.clock) then s.(store := st.(source := st.source - {key})) else s
    case DropExpiredTarget(key) =>
      if key in st.target && Expired(st.target[key], st.clock) then s.(store := st.(target := st.target - {key})) else s
    case Start(run) => if run in s.runs then s else At(s, run, Validating(Boxes))
    case Crash(run) => if run in s.runs then At(s, run, Failed) else s
    case Advance(run, choice) => if run in s.runs then AdvanceRun(conv, s, run, choice) else s
  }

  function Execute(conv: Conversion, s: State, actions: seq<Action>): State
    decreases |actions|
  {
    if actions == [] then s else Execute(conv, Next(conv, s, actions[0]), actions[1..])
  }

  // ----- Invariants

  function RowsOf(pc: Pc): seq<Row> {
    if pc.Validating? || pc.Finished? || pc.Failed? then [] else pc.rows
  }

  predicate OnRow(pc: Pc) { pc.Copying? || pc.Comparing? || pc.ReadingBack? || pc.Deleting? || pc.Rechecking? }

  /** How many scanned rows the run has dealt with. */
  function DoneWith(pc: Pc): nat {
    if OnRow(pc) then pc.at else if pc.ReceiptReading? || pc.ReceiptWriting? || pc.ReceiptComparing? then |pc.rows| else 0
  }

  ghost predicate OnRecord(s: State, row: Row) {
    row.doc.version in s.history && s.history[row.doc.version] == row
  }

  /** Versions are unique: the history says what each legacy version held. */
  ghost predicate VersionsUnique(s: State) {
    && (forall v | v in s.history :: v < s.store.next && s.history[v].doc.version == v)
    && (forall k | k in s.store.source :: OnRecord(s, Row(k, s.store.source[k])))
  }

  ghost predicate CopyHeld(conv: Conversion, st: Store, row: Row) {
    || (row.key in st.target && Faithful(conv, st.target[row.key], row))
    || Expired(row.doc, st.clock)
  }

  /** The latest legacy value of every id is in the source, or its faithful copy
      is in the target, unless it has expired. */
  ghost predicate NothingLost(conv: Conversion, s: State) {
    && (forall k | k in s.store.source :: k in s.latest && s.latest[k] == s.store.source[k])
    && (forall k | k in s.latest :: k in s.store.source || CopyHeld(conv, s.store, Row(k, s.latest[k])))
  }

  /** Before position `before`, the run read back a faithful copy of the row. */
  ghost predicate VerifiedIn(conv: Conversion, log: seq<Event>, before: nat, run: nat, row: Row) {
    exists j | 0 <= j < before && j < |log| ::
      log[j].ReadBack? && log[j].run == run && log[j].row == row && Faithful(conv, log[j].found, row)
  }

  /** Every deletion was preceded by that run's own successful read-back. */
  ghost predicate DeletionsVerified(conv: Conversion, log: seq<Event>) {
    forall i | 0 <= i < |log| && log[i].Deleted? :: VerifiedIn(conv, log, i, log[i].run, log[i].row)
  }

  /** The scanned version is no longer in the source. */
  ghost predicate Retired(st: Store, row: Row) {
    row.key in st.source ==> st.source[row.key].version != row.doc.version
  }

  ghost predicate RowsKnown(s: State, rows: seq<Row>) { forall row | row in rows :: OnRecord(s, row) }

  ghost predicate RowsRetired(st: Store, rows: seq<Row>, n: nat) {
    n <= |rows| && forall i | 0 <= i < n :: Retired(st, rows[i])
  }

  ghost predicate CopyVerified(conv: Conversion, s: State, r: nat, row: Row) {
    CopyHeld(conv, s.store, row) && VerifiedIn(conv, s.log, |s.log|, r, row)
  }

  /** What a run's position promises: its rows existed, the rows it passed are
      retired, and before a deletion it holds a verified copy. */
  ghost predicate PcOk(conv: Conversion, s: State, r: nat, pc: Pc) {
    && RowsKnown(s, RowsOf(pc))
    && RowsRetired(s.store, RowsOf(pc), DoneWith(pc))
    && (OnRow(pc) ==> pc.at < |pc.rows|)
    && (pc.Deleting? ==> CopyVerified(conv, s, r, pc.rows[pc.at]))
  }

  ghost predicate Inv(conv: Conversion, s: State) {
    && VersionsUnique(s)
    && NothingLost(conv, s)
    && DeletionsVerified(conv, s.log)
    && forall r | r in s.runs :: PcOk(conv, s, r, s.runs[r])
  }

  // ----- Every action keeps the invariant

  /** What no action ever undoes. */
  ghost predicate Evolves(conv: Conversion, s: State, s': State) {
    && s.store.next <= s'.store.next
    && (forall v | v in s.history :: v in s'.history && s'.history[v] == s.history[v])
    && (forall k | k in s'.store.source ::
          (k in s.store.source && s.store.source[k] == s'.store.source[k]) || s'.store.source[k].version >= s.store.next)
    && (forall row | CopyHeld(conv, s.store, row) :: CopyHeld(conv, s'.store, row))
    && s.log <= s'.log
  }

  lemma VerifiedStays(conv: Conversion, log: seq<Event>, log': seq<Event>, before: nat, run: nat, row: Row)
    requires VerifiedIn(conv, log, before, run, row) && log <= log'
    ensures VerifiedIn(conv, log', before, run, row)
    ensures VerifiedIn(conv, log', |log'|, run, row)
  {
    var j :| 0 <= j < before && j < |log| && log[j].ReadBack? && log[j].run == run && log[j].row == row && Faithful(conv, log[j].found, row);
    assert log'[j] == log[j];
  }

  lemma RowsStay(conv: Conversion, s: State, s': State, rows: seq<Row>, n: nat)
    requires VersionsUnique(s) && Evolves(conv, s, s')
    requires RowsKnown(s, rows) && RowsRetired(s.store, rows, n)
    ensures RowsKnown(s', rows) && RowsRetired(s'.store, rows, n)
  {
    forall i | 0 <= i < n ensures Retired(s'.store, rows[i]) {
      assert rows[i] in rows;
      assert OnRecord(s, rows[i]) && Retired(s.store, rows[i]);
    }
  }

  lemma PcStays(conv: Conversion, s: State, s': State, r: nat, pc: Pc)
    requires VersionsUnique(s) && PcOk(conv, s, r, pc) && Evolves(conv, s, s')
    ensures PcOk(conv, s', r, pc)
  {
    RowsStay(conv, s, s', RowsOf(pc), DoneWith(pc));
    if pc.Deleting? { VerifiedStays(conv, s.log, s'.log, |s.log|, r, pc.rows[pc.at]); }
  }

  /** If the store evolves soundly and one run moves to a justified position,
      the invariant holds again. */
  lemma MoveKeeps(conv: Conversion, s: State, s1: State, r: nat, pc: Pc)
    requires Inv(conv, s) && Evolves(conv, s, s1) && s1.runs == s.runs
    requires VersionsUnique(s1) && NothingLost(conv, s1) && DeletionsVerified(conv, s1.log)
    requires PcOk(conv, s1, r, pc)
    ensures Inv(conv, At(s1, r, pc))
  {
    var s' := At(s1, r, pc);
    forall q | q in s'.runs ensures PcOk(conv, s', q, s'.runs[q]) {
      if q != r { PcStays(conv, s, s', q, s.runs[q]); }
    }
  }

  lemma LogGrows(conv: Conversion, log: seq<Event>, e: Event)
    requires DeletionsVerified(conv, log)
    requires e.Deleted? ==> VerifiedIn(conv, log, |log|, e.run, e.row)
    ensures DeletionsVerified(conv, log + [e])
  {
    var log' := log + [e];
    forall i | 0 <= i < |log'| && log'[i].Deleted? ensures VerifiedIn(conv, log', i, log'[i].run, log'[i].row) {
      VerifiedStays(conv, log, log', i, log'[i].run, log'[i].row);
    }
  }

  lemma PutTargetKeeps(conv: Conversion, s: State, run: nat, row: Row, body: Body)
    requires Inv(conv, s) && row.key !in s.store.target
    ensures var s' := PutTarget(s, run, row, body);
            Evolves(conv, s, s') && VersionsUnique(s') && NothingLost(conv, s') && DeletionsVerified(conv, s'.log)
  {
    LogGrows(conv, s.log, Copied(run, row));
  }

  lemma DeleteSourceKeeps(conv: Conversion, s: State, run: nat, row: Row)
    requires Inv(conv, s) && OnRecord(s, row) && CopyHeld(conv, s.store, row) && VerifiedIn(conv, s.log, |s.log|, run, row)
    requires row.key in s.store.source && s.store.source[row.key].version == row.doc.version
    ensures var s' := DeleteSource(s, run, row);
            Evolves(conv, s, s') && VersionsUnique(s') && NothingLost(conv, s') && DeletionsVerified(conv, s'.log)
  {
    assert s.store.source[row.key] == row.doc;
    LogGrows(conv, s.log, Deleted(run, row));
  }

  lemma StayKeeps(conv: Conversion, s: State, r: nat, pc: Pc)
    requires Inv(conv, s) && PcOk(conv, s, r, pc)
    ensures Inv(conv, At(s, r, pc))
  {
    MoveKeeps(conv, s, s, r, pc);
  }

  lemma CopyingKeeps(conv: Conversion, s: State, run: nat, choice: Choice)
    requires Inv(conv, s) && run in s.runs && s.runs[run].Copying?
    ensures Inv(conv, AdvanceRun(conv, s, run, choice))
  {
    hide VersionsUnique, NothingLost, DeletionsVerified, Evolves, RowsKnown, RowsRetired, Faithful;
    var Copying(step, rows, at) := s.runs[run];
    assert PcOk(conv, s, run, s.runs[run]);
    var row := rows[at];
    NoRowsOk(conv, s, run, Failed);
    StayKeeps(conv, s, run, Failed);
    StayKeeps(conv, s, run, Comparing(step, rows, at));
    if row.key !in s.store.target && conv(row.key, row.doc.body).Some? {
      var s1 := PutTarget(s, run, row, conv(row.key, row.doc.body).value);
      PutTargetKeeps(conv, s, run, row, conv(row.key, row.doc.body).value);
      RowsStay(conv, s, s1, rows, at);
      NoRowsOk(conv, s1, run, Failed);
      MoveKeeps(conv, s, s1, run, Failed);
      MoveKeeps(conv, s, s1, run, ReadingBack(step, rows, at));
    }
  }

  lemma ReadBackKeeps(conv: Conversion, s: State, run: nat, choice: Choice)
    requires Inv(conv, s) && run in s.runs && s.runs[run].ReadingBack?
    ensures Inv(conv, AdvanceRun(conv, s, run, choice))
  {
    hide VersionsUnique, NothingLost, DeletionsVerified, Evolves, RowsKnown, RowsRetired;
    var ReadingBack(step, rows, at) := s.runs[run];
    assert PcOk(conv, s, run, s.runs[run]);
    var row := rows[at];
    NoRowsOk(conv, s, run, Failed);
    StayKeeps(conv, s, run, Failed);
    if row.key in s.store.target && Faithful(conv, s.store.target[row.key], row) {
      var e := ReadBack(run, row, s.store.target[row.key]);
      var s1 := s.(log := s.log + [e]);
      NoteKeeps(conv, s, e);
      RowsStay(conv, s, s1, rows, at);
      assert s1.log[|s.log|] == e;
      assert VerifiedIn(conv, s1.log, |s1.log|, run, row);
      MoveKeeps(conv, s, s1, run, Deleting(step, rows, at));
    }
  }

  lemma RetireRow(s: State, rows: seq<Row>, at: nat)
    requires at < |rows| && RowsRetired(s.store, rows, at) && Retired(s.store, rows[at])
    ensures RowsRetired(s.store, rows, at + 1)
  {}

  lemma KnownRow(s: State, rows: seq<Row>, at: nat)
    requires at < |rows| && RowsKnown(s, rows)
    ensures OnRecord(s, rows[at])
  {}

  lemma AfterRowOk(conv: Conversion, s: State, run: nat, step: Step, rows: seq<Row>, at: nat)
    requires at < |rows| && RowsKnown(s, rows) && RowsRetired(s.store, rows, at) && Retired(s.store, rows[at])
    ensures PcOk(conv, s, run, AfterRow(step, rows, at))
  {
    RetireRow(s, rows, at);
  }

  lemma DeletingKeeps(conv: Conversion, s: State, run: nat, choice: Choice)
    requires Inv(conv, s) && run in s.runs && s.runs[run].Deleting?
    ensures Inv(conv, AdvanceRun(conv, s, run, choice))
  {
    hide VersionsUnique, NothingLost, DeletionsVerified, Evolves, VerifiedIn, CopyHeld, RowsKnown, RowsRetired;
    var Deleting(step, rows, at) := s.runs[run];
    assert PcOk(conv, s, run, s.runs[run]);
    var row := rows[at];
    KnownRow(s, rows, at);
    NoRowsOk(conv, s, run, Failed);
    StayKeeps(conv, s, run, Failed);
    StayKeeps(conv, s, run, Rechecking(step, rows, at));
    if row.key in s.store.source && s.store.source[row.key].version == row.doc.version {
      var s1 := DeleteSource(s, run, row);
      DeleteSourceKeeps(conv, s, run, row);
      RowsStay(conv, s, s1, rows, at);
      NoRowsOk(conv, s1, run, Failed);
      MoveKeeps(conv, s, s1, run, Failed);
      AfterRowOk(conv, s1, run, step, rows, at);
      MoveKeeps(conv, s, s1, run, AfterRow(step, rows, at));
    }
  }

  lemma ScanningKeeps(conv: Conversion, s: State, run: nat, choice: Choice)
    requires Inv(conv, s) && run in s.runs && s.runs[run].Scanning?
    ensures Inv(conv, AdvanceRun(conv, s, run, choice))
  {
    hide VersionsUnique, NothingLost, DeletionsVerified, Evolves, OnRecord;
    var Scanning(step, rows) := s.runs[run];
    assert PcOk(conv, s, run, s.runs[run]);
    NoRowsOk(conv, s, run, Failed);
    StayKeeps(conv, s, run, Failed);
    if choice.SeeRow? && choice.key in s.store.source {
      SeeRowKeeps(conv, s, run, step, rows, choice.key);
    }
    StayKeeps(conv, s, run, if rows == [] then ReceiptReading(step, rows) else Copying(step, rows, 0));
  }

  lemma SeeRowKeeps(conv: Conversion, s: State, run: nat, step: Step, rows: seq<Row>, key: Key)
    requires Inv(conv, s) && RowsKnown(s, rows) && key in s.store.source
    ensures var row := Row(key, s.store.source[key]);
            Inv(conv, At(s.(log := s.log + [Seen(run, row)]), run, Scanning(step, rows + [row])))
  {
    var row := Row(key, s.store.source[key]);
    var s1 := s.(log := s.log + [Seen(run, row)]);
    assert OnRecord(s, row);
    hide VersionsUnique, NothingLost, DeletionsVerified, Evolves;
    NoteKeeps(conv, s, Seen(run, row));
    assert PcOk(conv, s1, run, Scanning(step, rows + [row]));
    MoveKeeps(conv, s, s1, run, Scanning(step, rows + [row]));
  }

  lemma CheckingKeeps(conv: Conversion, s: State, run: nat, choice: Choice)
    requires Inv(conv, s) && run in s.runs
    requires s.runs[run].Validating? || s.runs[run].Comparing? || s.runs[run].Rechecking?
    ensures Inv(conv, AdvanceRun(conv, s, run, choice))
  {
    hide VersionsUnique, NothingLost, DeletionsVerified, RowsKnown, RowsRetired, Faithful;
    var pc := s.runs[run];
    assert PcOk(conv, s, run, pc);
    NoRowsOk(conv, s, run, Failed);
    StayKeeps(conv, s, run, Failed);
    match pc
    case Validating(step) =>
      var next := if step == Boxes then Validating(JailIndex) else Scanning(Boxes, []);
      NoRowsOk(conv, s, run, next);
      StayKeeps(conv, s, run, next);
    case Comparing(step, rows, at) => StayKeeps(conv, s, run, ReadingBack(step, rows, at));
    case Rechecking(step, rows, at) =>
      if rows[at].key !in s.store.source {
        AfterRowOk(conv, s, run, step, rows, at);
        StayKeeps(conv, s, run, AfterRow(step, rows, at));
      }
  }

  lemma ReceiptKeeps(conv: Conversion, s: State, run: nat, choice: Choice)
    requires Inv(conv, s) && run in s.runs
    requires s.runs[run].ReceiptReading? || s.runs[run].ReceiptWriting? || s.runs[run].ReceiptComparing?
    ensures Inv(conv, AdvanceRun(conv, s, run, choice))
  {
    hide VersionsUnique, NothingLost, DeletionsVerified, Evolves, RowsKnown, RowsRetired;
    var step, rows := s.runs[run].step, s.runs[run].rows;
    assert PcOk(conv, s, run, s.runs[run]);
    NoRowsOk(conv, s, run, Failed);
    NoRowsOk(conv, s, run, AfterReceipt(step));
    StayKeeps(conv, s, run, Failed);
    StayKeeps(conv, s, run, AfterReceipt(step));
    StayKeeps(conv, s, run, ReceiptWriting(step, rows));
    StayKeeps(conv, s, run, ReceiptComparing(step, rows));
    var s1 := PutReceipt(s, run, step);
    PutReceiptKeeps(conv, s, run, step);
    NoRowsOk(conv, s1, run, Failed);
    NoRowsOk(conv, s1, run, AfterReceipt(step));
    MoveKeeps(conv, s, s1, run, AfterReceipt(step));
    MoveKeeps(conv, s, s1, run, Failed);
  }

  lemma NoRowsOk(conv: Conversion, s: State, run: nat, pc: Pc)
    requires RowsOf(pc) == [] && DoneWith(pc) == 0 && !OnRow(pc)
    ensures PcOk(conv, s, run, pc)
  {}

  lemma NoteKeeps(conv: Conversion, s: State, e: Event)
    requires Inv(conv, s) && !e.Deleted?
    ensures var s' := s.(log := s.log + [e]);
            Evolves(conv, s, s') && VersionsUnique(s') && NothingLost(conv, s') && DeletionsVerified(conv, s'.log)
  {
    LogGrows(conv, s.log, e);
  }

  lemma PutReceiptKeeps(conv: Conversion, s: State, run: nat, step: Step)
    requires Inv(conv, s)
    ensures var s' := PutReceipt(s, run, step);
            Evolves(conv, s, s') && VersionsUnique(s') && NothingLost(conv, s') && DeletionsVerified(conv, s'.log)
  {
    LogGrows(conv, s.log, Recorded(run, step));
  }

  lemma AdvanceKeeps(conv: Conversion, s: State, run: nat, choice: Choice)
    requires Inv(conv, s) && run in s.runs
    ensures Inv(conv, AdvanceRun(conv, s, run, choice))
  {
    hide Inv;
    match s.runs[run]
    case Validating(_) => CheckingKeeps(conv, s, run, choice);
    case Scanning(_, _) => ScanningKeeps(conv, s, run, choice);
    case Copying(_, _, _) => CopyingKeeps(conv, s, run, choice);
    case Comparing(_, _, _) => CheckingKeeps(conv, s, run, choice);
    case ReadingBack(_, _, _) => ReadBackKeeps(conv, s, run, choice);
    case Deleting(_, _, _) => DeletingKeeps(conv, s, run, choice);
    case Rechecking(_, _, _) => CheckingKeeps(conv, s, run, choice);
    case ReceiptReading(_, _) => ReceiptKeeps(conv, s, run, choice);
    case ReceiptWriting(_, _) => ReceiptKeeps(conv, s, run, choice);
    case ReceiptComparing(_, _) => ReceiptKeeps(conv, s, run, choice);
    case Finished =>
    case Failed =>
  }

  lemma EnvironmentEvolves(conv: Conversion, s: State, a: Action)
    requires VersionsUnique(s) && !a.Advance? && !a.Start? && !a.Crash?
    ensures Evolves(conv, s, Next(conv, s, a))
  {}

  lemma EnvironmentVersions(conv: Conversion, s: State, a: Action)
    requires VersionsUnique(s) && !a.Advance? && !a.Start? && !a.Crash?
    ensures VersionsUnique(Next(conv, s, a))
  {}

  lemma EnvironmentLosesNothing(conv: Conversion, s: State, a: Action)
    requires NothingLost(conv, s) && !a.Advance? && !a.Start? && !a.Crash?
    ensures NothingLost(conv, Next(conv, s, a))
  {}

  lemma EnvironmentKeeps(conv: Conversion, s: State, a: Action)
    requires Inv(conv, s) && !a.Advance? && !a.Start? && !a.Crash?
    ensures Inv(conv, Next(conv, s, a))
  {
    hide VersionsUnique, NothingLost, DeletionsVerified, Evolves, PcOk;
    var s' := Next(conv, s, a);
    EnvironmentEvolves(conv, s, a);
    EnvironmentVersions(conv, s, a);
    EnvironmentLosesNothing(conv, s, a);
    forall r | r in s'.runs ensures PcOk(conv, s', r, s'.runs[r]) {
      PcStays(conv, s, s', r, s.runs[r]);
    }
  }

  lemma NextKeeps(conv: Conversion, s: State, a: Action)
    requires Inv(conv, s)
    ensures Inv(conv, Next(conv, s, a))
  {
    match a
    case Advance(run, choice) => if run in s.runs { AdvanceKeeps(conv, s, run, choice); }
    case Start(run) => StayKeeps(conv, s, run, Validating(Boxes));
    case Crash(run) => StayKeeps(conv, s, run, Failed);
    case _ => EnvironmentKeeps(conv, s, a);
  }

  /** A store before any migrator started, with its legacy rows on record. */
  ghost predicate Initial(s: State) {
    s.runs == map[] && s.log == [] && VersionsUnique(s) && s.latest == s.store.source
  }

  lemma {:induction false} ExecuteKeeps(conv: Conversion, s: State, actions: seq<Action>)
    requires Inv(conv, s)
    ensures Inv(conv, Execute(conv, s, actions))
    decreases |actions|
  {
    if actions != [] {
      NextKeeps(conv, s, actions[0]);
      ExecuteKeeps(conv, Next(conv, s, actions[0]), actions[1..]);
    }
  }

  /** Migration safety, over every interleaving of migrators, crashes, legacy
      writers and expiry: no latest legacy value is lost, no source version is
      deleted before that run read back its faithful copy, and a run reaches its
      completion receipt only when every version it scanned has left the source. */
  lemma MigrationSafety(conv: Conversion, s: State, actions: seq<Action>, run: nat)
    requires Initial(s)
    ensures var s' := Execute(conv, s, actions);
            && NothingLost(conv, s')
            && DeletionsVerified(conv, s'.log)
            && (run in s'.runs && s'.runs[run].ReceiptWriting? ==>
                  forall row | row in s'.runs[run].rows :: Retired(s'.store, row))
  {
    ExecuteKeeps(conv, s, actions);
    var s' := Execute(conv, s, actions);
    if run in s'.runs { assert PcOk(conv, s', run, s'.runs[run]); }
  }

  /** What ends a run: a failing call, a row that does not convert, a target that
      is not its copy, a row that changed meanwhile, a receipt that is not this
      version's. None of these changes a document, unless a failing write took
      effect. */
  lemma RefusalsFail(conv: Conversion, s: State, run: nat, choice: Choice)
    requires run in s.runs && PcOk(conv, s, run, s.runs[run]) && !choice.SeeRow?
    ensures var pc, s' := s.runs[run], AdvanceRun(conv, s, run, choice);
            && (Working(pc) && choice.Fail? ==> s'.runs[run] == Failed)
            && (pc.Validating? && (choice.Fail? || Damaged(s.store.receipts, pc.step)) ==> s'.runs[run] == Failed)
            && (pc.Copying? && conv(pc.rows[pc.at].key, pc.rows[pc.at].doc.body).None? ==> s' == At(s, run, Failed))
            && ((pc.Comparing? || pc.ReadingBack?)
                && !(pc.rows[pc.at].key in s.store.target && Faithful(conv, s.store.target[pc.rows[pc.at].key], pc.rows[pc.at]))
                ==> s' == At(s, run, Failed))
            && (pc.Rechecking? && pc.rows[pc.at].key in s.store.source ==> s' == At(s, run, Failed))
            && ((pc.ReceiptReading? || pc.ReceiptComparing?) && Damaged(s.store.receipts, pc.step) ==> s' == At(s, run, Failed))
  {
    hide Faithful, RowsKnown, RowsRetired, CopyVerified;
  }

  // ----- What was scanned is what is moved

  /** What a run's position says of a row it scanned: it is among the rows being
      moved, or its step is over and the row has left the source. */
  ghost predicate Covers(st: Store, pc: Pc, row: Row) {
    match pc
    case Failed => true
    case Finished => Retired(st, row)
    case Validating(_) => false
    case _ => if pc.step == row.key.step then row in pc.rows else pc.step == JailIndex && Retired(st, row)
  }

  ghost predicate SeenOk(s: State, run: nat, row: Row) {
    OnRecord(s, row) && run in s.runs && Covers(s.store, s.runs[run], row)
  }

  ghost predicate AllSeenOk(s: State) {
    forall i | 0 <= i < |s.log| && s.log[i].Seen? :: SeenOk(s, s.log[i].run, s.log[i].row)
  }

  /** A completion receipt is written only when every row that run scanned for
      that step has left the source. */
  ghost predicate ReceiptsEarned(s: State) {
    forall i, j | 0 <= j < i < |s.log| && s.log[i].Recorded? && s.log[j].Seen?
                  && s.log[j].run == s.log[i].run && s.log[j].row.key.step == s.log[i].step ::
      Retired(s.store, s.log[j].row)
  }

  lemma RetiredStays(conv: Conversion, s: State, s': State, row: Row)
    requires VersionsUnique(s) && Evolves(conv, s, s') && OnRecord(s, row)
    ensures OnRecord(s', row) && (Retired(s.store, row) ==> Retired(s'.store, row))
  {
  }

  /** Every action evolves the state. */
  lemma NextEvolves(conv: Conversion, s: State, a: Action)
    requires Inv(conv, s)
    ensures Evolves(conv, s, Next(conv, s, a))
  {
    if a.Advance? {
      if a.run in s.runs { AdvanceEvolves(conv, s, a.run, a.choice); }
    } else if !a.Start? && !a.Crash? {
      EnvironmentEvolves(conv, s, a);
    }
  }

  lemma AdvanceEvolves(conv: Conversion, s: State, run: nat, choice: Choice)
    requires Inv(conv, s) && run in s.runs
    ensures Evolves(conv, s, AdvanceRun(conv, s, run, choice))
  {
    var pc := s.runs[run];
    if pc.Copying? {
      CopyingEvolves(conv, s, run, choice);
    } else if pc.Deleting? {
      DeletingEvolves(conv, s, run, choice);
    } else {
      QuietEvolves(conv, s, run, choice);
    }
  }

  lemma CopyingEvolves(conv: Conversion, s: State, run: nat, choice: Choice)
    requires Inv(conv, s) && run in s.runs && s.runs[run].Copying?
    ensures Evolves(conv, s, AdvanceRun(conv, s, run, choice))
  {
    assert PcOk(conv, s, run, s.runs[run]);
    var row := s.runs[run].rows[s.runs[run].at];
    if row.key !in s.store.target && conv(row.key, row.doc.body).Some? {
      PutTargetKeeps(conv, s, run, row, conv(row.key, row.doc.body).value);
    }
    hide Inv, Faithful;
  }

  lemma DeletingEvolves(conv: Conversion, s: State, run: nat, choice: Choice)
    requires Inv(conv, s) && run in s.runs && s.runs[run].Deleting?
    ensures Evolves(conv, s, AdvanceRun(conv, s, run, choice))
  {
    hide NothingLost, DeletionsVerified, Faithful;
  }

  lemma QuietEvolves(conv: Conversion, s: State, run: nat, choice: Choice)
    requires run in s.runs && !s.runs[run].Copying? && !s.runs[run].Deleting?
    ensures Evolves(conv, s, AdvanceRun(conv, s, run, choice))
  {
    hide Faithful;
    var s' := AdvanceRun(conv, s, run, choice);
    assert s'.store == s.store || s'.store == s.store.(receipts := s'.store.receipts);
  }

  /** What one storage call does to a run's position and to the log. */
  ghost predicate Shape(s: State, s': State, run: nat)
    requires run in s.runs
  {
    && run in s'.runs && s'.runs == s.runs[run := s'.runs[run]]
    && var pc, pc' := s.runs[run], s'.runs[run];
    && (|| pc' == pc || pc' == Failed || pc.Validating?
        || (Working(pc) && Working(pc') && pc'.step == pc.step && pc.rows <= pc'.rows)
        || ((pc.ReceiptReading? || pc.ReceiptWriting? || pc.ReceiptComparing?) && pc' == AfterReceipt(pc.step)))
    && (|| s'.log == s.log
        || (&& |s'.log| == |s.log| + 1 && s'.log == s.log + [s'.log[|s.log|]]
            && EventFits(s, s', run, s'.log[|s.log|])))
  }

  predicate Working(pc: Pc) { !pc.Validating? && !pc.Finished? && !pc.Failed? }

  ghost predicate EventFits(s: State, s': State, run: nat, e: Event)
    requires run in s.runs && run in s'.runs
  {
    && e.run == run
    && (e.Recorded? ==> s.runs[run].ReceiptWriting? && s.runs[run].step == e.step)
    && (e.Seen? ==>
          && s.runs[run].Scanning? && e.row.key in s.store.source && e.row.doc == s.store.source[e.row.key]
          && s'.runs[run] == Scanning(e.row.key.step, s.runs[run].rows + [e.row]))
  }

  lemma ScanningShape(conv: Conversion, s: State, run: nat, choice: Choice)
    requires run in s.runs && s.runs[run].Scanning?
    ensures Shape(s, AdvanceRun(conv, s, run, choice), run)
  {
  }

  lemma CopyingShape(conv: Conversion, s: State, run: nat, choice: Choice)
    requires run in s.runs && s.runs[run].Copying?
    ensures Shape(s, AdvanceRun(conv, s, run, choice), run)
  {
  }

  lemma CheckingShape(conv: Conversion, s: State, run: nat, choice: Choice)
    requires run in s.runs && (s.runs[run].Validating? || s.runs[run].Comparing? || s.runs[run].Rechecking?)
    ensures Shape(s, AdvanceRun(conv, s, run, choice), run)
  {
    hide Faithful;
  }

  lemma ReadBackShape(conv: Conversion, s: State, run: nat, choice: Choice)
    requires run in s.runs && s.runs[run].ReadingBack?
    ensures Shape(s, AdvanceRun(conv, s, run, choice), run)
  {
    hide Faithful;
  }

  lemma DeletingShape(conv: Conversion, s: State, run: nat, choice: Choice)
    requires run in s.runs && s.runs[run].Deleting?
    ensures Shape(s, AdvanceRun(conv, s, run, choice), run)
  {
  }

  lemma ReceiptShape(conv: Conversion, s: State, run: nat, choice: Choice)
    requires run in s.runs
    requires s.runs[run].ReceiptReading? || s.runs[run].ReceiptWriting? || s.runs[run].ReceiptComparing?
    ensures Shape(s, AdvanceRun(conv, s, run, choice), run)
  {
  }

  lemma AdvanceShape(conv: Conversion, s: State, run: nat, choice: Choice)
    requires run in s.runs
    ensures Shape(s, AdvanceRun(conv, s, run, choice), run)
  {
    match s.runs[run]
    case Validating(_) => hide AdvanceRun, Shape; CheckingShape(conv, s, run, choice);
    case Scanning(_, _) => hide AdvanceRun, Shape; ScanningShape(conv, s, run, choice);
    case Copying(_, _, _) => hide AdvanceRun, Shape; CopyingShape(conv, s, run, choice);
    case Comparing(_, _, _) => hide AdvanceRun, Shape; CheckingShape(conv, s, run, choice);
    case ReadingBack(_, _, _) => hide AdvanceRun, Shape; ReadBackShape(conv, s, run, choice);
    case Deleting(_, _, _) => hide AdvanceRun, Shape; DeletingShape(conv, s, run, choice);
    case Rechecking(_, _, _) => hide AdvanceRun, Shape; CheckingShape(conv, s, run, choice);
    case ReceiptReading(_, _) => hide AdvanceRun, Shape; ReceiptShape(conv, s, run, choice);
    case ReceiptWriting(_, _) => hide AdvanceRun, Shape; ReceiptShape(conv, s, run, choice);
    case ReceiptComparing(_, _) => hide AdvanceRun, Shape; ReceiptShape(conv, s, run, choice);
    case Finished =>
    case Failed =>
  }

  /** The stepping run still covers what it scanned. */
  lemma CoversAdvance(conv: Conversion, s: State, run: nat, choice: Choice, row: Row)
    requires Inv(conv, s) && SeenOk(s, run, row)
    ensures var s' := AdvanceRun(conv, s, run, choice); run in s'.runs && Covers(s'.store, s'.runs[run], row)
  {
    assert PcOk(conv, s, run, s.runs[run]) && VersionsUnique(s);
    AdvanceEvolves(conv, s, run, choice);
    AdvanceShape(conv, s, run, choice);
    hide Inv, AdvanceRun, CopyVerified, RowsKnown;
    var pc, s' := s.runs[run], AdvanceRun(conv, s, run, choice);
    RetiredStays(conv, s, s', row);
    hide Evolves, VersionsUnique, OnRecord;
    if (pc.ReceiptReading? || pc.ReceiptWriting? || pc.ReceiptComparing?) && pc.step == row.key.step {
      var k :| 0 <= k < |pc.rows| && pc.rows[k] == row;
      assert Retired(s.store, row);
    }
  }

  /** Only a run with its step's rows retired writes the receipt. */
  lemma RecordingIsEarned(conv: Conversion, s: State, run: nat, choice: Choice, row: Row)
    requires Inv(conv, s) && SeenOk(s, run, row)
    requires s.runs[run].ReceiptWriting? && s.runs[run].step == row.key.step
    ensures Retired(s.store, row)
  {
    assert PcOk(conv, s, run, s.runs[run]);
    var rows := s.runs[run].rows;
    var k :| 0 <= k < |rows| && rows[k] == row;
  }

  /** At most one event is added, by the stepping run at its position. */
  lemma NextLog(conv: Conversion, s: State, a: Action)
    ensures var s' := Next(conv, s, a);
            s'.log == s.log ||
            (&& a.Advance? && a.run in s.runs && a.run in s'.runs && |s'.log| == |s.log| + 1 && s'.log == s.log + [s'.log[|s.log|]]
             && EventFits(s, s', a.run, s'.log[|s.log|]))
  {
    if a.Advance? && a.run in s.runs {
      AdvanceShape(conv, s, a.run, a.choice);
      hide AdvanceRun, EventFits;
    }
  }

  lemma AllSeenKeeps(conv: Conversion, s: State, a: Action)
    requires Inv(conv, s) && AllSeenOk(s)
    ensures AllSeenOk(Next(conv, s, a))
  {
    var s' := Next(conv, s, a);
    NextLog(conv, s, a);
    NextEvolves(conv, s, a);
    assert VersionsUnique(s);
    hide Next, Evolves, Inv, Retired;
    forall i | 0 <= i < |s'.log| && s'.log[i].Seen?
      ensures SeenOk(s', s'.log[i].run, s'.log[i].row)
    {
      var run, row := s'.log[i].run, s'.log[i].row;
      if i < |s.log| {
        assert s'.log[i] == s.log[i] && SeenOk(s, run, row);
        RetiredStays(conv, s, s', row);
        SeenKept(conv, s, a, run, row);
      } else {
        assert OnRecord(s, row);
        RetiredStays(conv, s, s', row);
      }
    }
  }

  lemma SeenKept(conv: Conversion, s: State, a: Action, run: nat, row: Row)
    requires Inv(conv, s) && SeenOk(s, run, row) && OnRecord(Next(conv, s, a), row)
    requires Retired(s.store, row) ==> Retired(Next(conv, s, a).store, row)
    ensures SeenOk(Next(conv, s, a), run, row)
  {
    if a.Advance? && a.run == run {
      CoversAdvance(conv, s, run, a.choice, row);
    } else {
      OthersStand(conv, s, a, run);
    }
  }

  lemma OthersStand(conv: Conversion, s: State, a: Action, run: nat)
    requires run in s.runs && !(a.Advance? && a.run == run)
    ensures run in Next(conv, s, a).runs
    ensures Next(conv, s, a).runs[run] == s.runs[run] || Next(conv, s, a).runs[run] == Failed
  {
    if a.Advance? && a.run in s.runs {
      AdvanceShape(conv, s, a.run, a.choice);
      hide AdvanceRun;
    }
  }

  lemma ReceiptsKeep(conv: Conversion, s: State, a: Action)
    requires Inv(conv, s) && AllSeenOk(s) && ReceiptsEarned(s)
    ensures ReceiptsEarned(Next(conv, s, a))
  {
    var s' := Next(conv, s, a);
    NextLog(conv, s, a);
    NextEvolves(conv, s, a);
    assert VersionsUnique(s);
    hide Next, Evolves, VersionsUnique, Covers, Retired, OnRecord, Inv;
    forall i, j | 0 <= j < i < |s'.log| && s'.log[i].Recorded? && s'.log[j].Seen?
                  && s'.log[j].run == s'.log[i].run && s'.log[j].row.key.step == s'.log[i].step
      ensures Retired(s'.store, s'.log[j].row)
    {
      var run, row := s'.log[j].run, s'.log[j].row;
      assert s'.log[j] == s.log[j] && SeenOk(s, run, row);
      RetiredStays(conv, s, s', row);
      if i < |s.log| {
        assert s'.log[i] == s.log[i];
      } else {
        RecordingIsEarned(conv, s, run, a.choice, row);
      }
    }
  }

  lemma {:induction false} ScansKept(conv: Conversion, s: State, actions: seq<Action>)
    requires Inv(conv, s) && AllSeenOk(s) && ReceiptsEarned(s)
    ensures AllSeenOk(Execute(conv, s, actions)) && ReceiptsEarned(Execute(conv, s, actions))
    decreases |actions|
  {
    if actions != [] {
      NextKeeps(conv, s, actions[0]);
      AllSeenKeeps(conv, s, actions[0]);
      ReceiptsKeep(conv, s, actions[0]);
      ScansKept(conv, Next(conv, s, actions[0]), actions[1..]);
    }
  }

  /** In every interleaving: what a run scanned is what it moves. Each row a run
      saw is among the rows it works on or, once the run is past that step, has
      left the source; and a receipt is written only when all of them have. */
  lemma ScannedIsMoved(conv: Conversion, s: State, actions: seq<Action>)
    requires Initial(s)
    ensures AllSeenOk(Execute(conv, s, actions)) && ReceiptsEarned(Execute(conv, s, actions))
  {
    ScansKept(conv, s, actions);
  }

  // ----- A damaged receipt stops every migrator

  predicate Damaged(receipts: map<Step, Receipt>, step: Step) {
    step in receipts && !ReceiptIsValid(receipts[step], step)
  }

  /** No run is past validation while a receipt is damaged. */
  ghost predicate Stopped(s: State) {
    && (Damaged(s.store.receipts, Boxes) || Damaged(s.store.receipts, JailIndex))
    && forall r | r in s.runs ::
         || s.runs[r].Failed?
         || s.runs[r] == Validating(Boxes)
         || (s.runs[r] == Validating(JailIndex) && !Damaged(s.store.receipts, Boxes))
  }

  /** The actions that do not belong to a migrator. */
  function Outside(actions: seq<Action>): seq<Action> {
    if actions == [] then []
    else (if actions[0].Start? || actions[0].Crash? || actions[0].Advance? then [] else [actions[0]]) + Outside(actions[1..])
  }

  lemma StoppedStep(conv: Conversion, s: State, a: Action)
    requires Stopped(s)
    ensures Stopped(Next(conv, s, a))
    ensures a.Start? || a.Crash? || a.Advance? ==> Next(conv, s, a).store == s.store && Next(conv, s, a).log == s.log
  {}

  lemma SameOutside(conv: Conversion, s: State, t: State, a: Action)
    requires s.store == t.store && !a.Start? && !a.Crash? && !a.Advance?
    ensures Next(conv, s, a).store == Next(conv, t, a).store && Next(conv, s, a).log == s.log
  {}

  /** While a receipt is damaged, the store evolves exactly as if there were no
      migrators: they write, copy and delete nothing. */
  lemma {:induction false} DamagedReceiptChangesNothing(conv: Conversion, s: State, t: State, actions: seq<Action>)
    requires Stopped(s) && t.store == s.store
    ensures Execute(conv, s, actions).store == Execute(conv, t, Outside(actions)).store
    ensures Execute(conv, s, actions).log == s.log
    decreases |actions|
  {
    if actions != [] {
      var a := actions[0];
      StoppedStep(conv, s, a);
      if a.Start? || a.Crash? || a.Advance? {
        assert [] + Outside(actions[1..]) == Outside(actions[1..]);
        DamagedReceiptChangesNothing(conv, Next(conv, s, a), t, actions[1..]);
      } else {
        SameOutside(conv, s, t, a);
        assert ([a] + Outside(actions[1..]))[1..] == Outside(actions[1..]);
        DamagedReceiptChangesNothing(conv, Next(conv, s, a), Next(conv, t, a), actions[1..]);
      }
    }
  }
}
