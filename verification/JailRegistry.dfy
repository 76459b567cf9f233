/** The registry of jail directories: an index in memory, its saved copy and
    the directories, under saves and directory calls that may fail. */
module JailRegistry {

  import opened Wrappers

  /** `SaveFailed` is the index store's error, `Io` a directory call's. */
  datatype Error = NotFound | PermissionDenied | Io | SaveFailed

  datatype Result<T> = Ok(value: T) | Err(error: Error)

  datatype Record = Record(
    id: string, title: string, dir: string, backend: string, created: nat, updated: nat, notes: Option<string>)

  type Index = map<string, Record>

  // ----- Identifiers

  function Digit(n: nat): char
    requires n < 16
  {
    "0123456789abcdef"[n]
  }

  function Hex(n: nat): (s: string)
    ensures s != ""
  {
    if n < 16 then [Digit(n)] else Hex(n / 16) + [Digit(n % 16)]
  }

  /** `j`, the second and the counter, with nothing between the two. */
  function GenerateId(timestamp: nat, counter: nat): string { "j" + Hex(timestamp) + Hex(counter) }

  function Pow16(n: nat): nat { if n == 0 then 1 else 16 * Pow16(n - 1) }

  lemma {:induction false} Pow16Grows(m: nat, n: nat)
    requires m <= n
    ensures Pow16(m) <= Pow16(n)
    decreases n
  {
    if m < n { Pow16Grows(m, n - 1); }
  }

  lemma {:induction false} HexIsLong(n: nat)
    ensures n < Pow16(|Hex(n)|)
  {
    if n >= 16 {
      HexIsLong(n / 16);
      var k := |Hex(n / 16)|;
      assert Pow16(k + 1) == 16 * Pow16(k);
    } else {
      assert Pow16(1) == 16 * Pow16(0);
    }
  }

  lemma DigitInjective(a: nat, b: nat)
    requires a < 16 && b < 16 && Digit(a) == Digit(b)
    ensures a == b
  {
    var digits := "0123456789abcdef";
    assert forall i, j | 0 <= i < j < 16 :: digits[i] < digits[j];
  }

  lemma {:induction false} HexInjective(a: nat, b: nat)
    requires Hex(a) == Hex(b)
    ensures a == b
    decreases a
  {
    var s, t := Hex(a), Hex(b);
    assert s[|s| - 1] == t[|t| - 1] && s[..|s| - 1] == t[..|t| - 1];
    DigitInjective(a % 16, b % 16);
    if a >= 16 && b >= 16 {
      assert s[..|s| - 1] == Hex(a / 16) && t[..|t| - 1] == Hex(b / 16);
      HexInjective(a / 16, b / 16);
    }
  }

  /** Identifiers of timestamps with as many digits are distinct whenever the
      timestamps or the counters are. */
  lemma IdsDistinct(t1: nat, n1: nat, t2: nat, n2: nat)
    requires |Hex(t1)| == |Hex(t2)|
    ensures GenerateId(t1, n1) == GenerateId(t2, n2) <==> t1 == t2 && n1 == n2
  {
    hide Hex;
    var a, b := GenerateId(t1, n1), GenerateId(t2, n2);
    var k := 1 + |Hex(t1)|;
    assert a[1..k] == Hex(t1) && a[k..] == Hex(n1) && b[1..k] == Hex(t2) && b[k..] == Hex(n2);
    if a == b {
      HexInjective(t1, t2);
      HexInjective(n1, n2);
    }
  }

  /** Without that, two different pairs can share an identifier. */
  lemma IdsCollide()
    ensures GenerateId(1, 0x23) == GenerateId(0x12, 3)
  {
    assert Hex(0x23) == Hex(2) + [Digit(3)] && Hex(0x12) == Hex(1) + [Digit(2)];
  }

  // ----- Names already taken

  ghost predicate Within(names: set<string>, length: nat) { forall s | s in names :: |s| <= length }

  lemma {:induction false} LengthsBounded(names: set<string>) returns (length: nat)
    ensures Within(names, length)
    decreases |names|
  {
    if names == {} { return 0; }
    var s :| s in names;
    var rest := LengthsBounded(names - {s});
    length := if |s| > rest then |s| else rest;
    forall t | t in names
      ensures |t| <= length
    {
      assert t == s || t in names - {s};
    }
  }

  function DirOf(base: string, id: string): string { base + "/" + id }

  /** A counter past this bound gives an identifier longer than any taken name. */
  lemma LateIdsAreFree(timestamp: nat, counter: nat, names: set<string>, length: nat, base: string)
    requires Within(names, length) && counter >= Pow16(length)
    ensures GenerateId(timestamp, counter) !in names && DirOf(base, GenerateId(timestamp, counter)) !in names
  {
    var n := |Hex(counter)|;
    HexIsLong(counter);
    if n <= length { Pow16Grows(n, length); }
  }

  // ----- What was saved, and what deletes did since

  datatype Op =
    | Create(title: string)
    | Rename(id: string, title: string)
    | SetNotes(id: string, notes: Option<string>)
    | Delete(id: string)
    | Clear
    | Reopen

  /** One deletion of a `clear`. */
  datatype Deletion = Deletion(id: string, result: Result<()>)

  /** What an operation answers; for `clear` also the deletions it got to. */
  datatype Reply =
    | Recorded(recorded: Result<Record>)
    | Deleted(deleted: Result<()>)
    | Cleared(cleared: Result<nat>, deletions: seq<Deletion>)
    | Reopened

  /** What a reply says happened to the index: a record or a removal that was
      saved, a removal that failed to save, or a restart. */
  datatype Change = Put(id: string, record: Record) | Gone(id: string) | Lost(id: string) | Restart

  function DeletionChanges(d: Deletion): seq<Change> {
    match d.result
    case Ok(_) => [Gone(d.id)]
    case Err(SaveFailed) => [Lost(d.id)]
    case Err(_) => []
  }

  function AllDeletions(ds: seq<Deletion>): seq<Change> {
    if ds == [] then [] else AllDeletions(ds[..|ds| - 1]) + DeletionChanges(ds[|ds| - 1])
  }

  function Changes(op: Op, reply: Reply): seq<Change> {
    match reply
    case Recorded(Ok(record)) => [Put(if op.Rename? || op.SetNotes? then op.id else record.id, record)]
    case Recorded(Err(_)) => []
    case Deleted(result) => if op.Delete? then DeletionChanges(Deletion(op.id, result)) else []
    case Cleared(_, deletions) => AllDeletions(deletions)
    case Reopened => [Restart]
  }

  function History(ops: seq<Op>, replies: seq<Reply>): seq<Change>
    requires |ops| == |replies|
  {
    if ops == [] then []
    else History(ops[..|ops| - 1], replies[..|ops| - 1]) + Changes(ops[|ops| - 1], replies[|ops| - 1])
  }

  /** The saved index, and the ids gone from memory alone. */
  datatype Book = Book(saved: Index, lost: set<string>)
  {
    function Memory(): Index { saved - lost }
  }

  function Enter(b: Book, c: Change): Book {
    match c
    case Put(id, record) => Book(b.Memory()[id := record], {})
    case Gone(id) => Book(b.Memory() - {id}, {})
    case Lost(id) => Book(b.saved, b.lost + {id})
    case Restart => Book(b.saved, {})
  }

  function EnterAll(b: Book, changes: seq<Change>): Book {
    if changes == [] then b else Enter(EnterAll(b, changes[..|changes| - 1]), changes[|changes| - 1])
  }

  lemma {:induction false} EnterAppend(b: Book, xs: seq<Change>, ys: seq<Change>)
    ensures EnterAll(b, xs + ys) == EnterAll(EnterAll(b, xs), ys)
    decreases |ys|
  {
    if ys == [] {
      assert xs + ys == xs;
    } else {
      EnterAppend(b, xs, ys[..|ys| - 1]);
      assert (xs + ys)[..|xs + ys| - 1] == xs + ys[..|ys| - 1];
    }
  }

  lemma EnterOne(b: Book, c: Change)
    ensures EnterAll(b, [c]) == Enter(b, c)
  {
    assert [c][..0] == [];
  }

  /** The lost ids are those whose delete failed to save since the last save or
      restart, and no others. */
  lemma {:induction false} LostExactly(index: Index, changes: seq<Change>, id: string)
    ensures id in EnterAll(Book(index, {}), changes).lost <==>
            exists i | 0 <= i < |changes| :: changes[i] == Lost(id) && forall k | i < k < |changes| :: changes[k].Lost?
    decreases |changes|
  {
    if changes != [] {
      var n := |changes| - 1;
      var init, last := changes[..n], changes[n];
      LostExactly(index, init, id);
      if last == Lost(id) {
        assert changes[n] == Lost(id);
      } else if last.Lost? {
        if i :| 0 <= i < n && init[i] == Lost(id) && forall k | i < k < n :: init[k].Lost? {
          assert changes[i] == Lost(id) && forall k | i < k <= n :: changes[k].Lost? by {
            assert forall k | i < k < n :: changes[k] == init[k];
          }
        }
        if i :| 0 <= i <= n && changes[i] == Lost(id) && forall k | i < k <= n :: changes[k].Lost? {
          assert init[i] == Lost(id) && forall k | i < k < n :: init[k] == changes[k];
        }
      }
    }
  }

  /** Without a delete that failed to save, memory is the saved index. */
  lemma {:induction false} NothingLost(index: Index, changes: seq<Change>)
    requires forall c | c in changes :: !c.Lost?
    ensures var b := EnterAll(Book(index, {}), changes); b.lost == {} && b.Memory() == b.saved
    decreases |changes|
  {
    if changes != [] {
      assert changes[|changes| - 1] in changes;
      NothingLost(index, changes[..|changes| - 1]);
    }
    var b := EnterAll(Book(index, {}), changes);
    assert b.lost == {} ==> b.saved - b.lost == b.saved;
  }

  // ----- The registry

  /** How a directory call or a save ends; only a directory removal can fail
      with an effect. */
  datatype Outcome = Works | Fails(effect: bool)

  /** The outcome of the next call; calls work once the script is used up. */
  function First(outcomes: seq<Outcome>): Outcome { if outcomes == [] then Works else outcomes[0] }

  function Later(outcomes: seq<Outcome>): seq<Outcome> { if outcomes == [] then [] else outcomes[1..] }

  /** The clock at a reading, and how many ids others drew before it. */
  datatype Tick = Tick(now: nat, drawn: nat)

  /** Where a record's directory resolves to. */
  datatype Resolution = Unresolvable | OutsideBase | InsideBase

  /** The clock after `k` readings. */
  function Rest(clock: seq<Tick>, k: nat): seq<Tick> { if k <= |clock| then clock[k..] else [] }

  function Reading(clock: seq<Tick>): Tick { if clock == [] then Tick(0, 0) else clock[0] }

  /** Where the next directory resolves to; inside the base once the script is
      used up. */
  function Where(resolutions: seq<Resolution>): Resolution { if resolutions == [] then InsideBase else resolutions[0] }

  class Registry {
    const base: string
    const backend: string
    var records: Index
    var saved: Index
    var dirs: set<string>
    var counter: nat
    var outcomes: seq<Outcome>
    var clock: seq<Tick>
    var resolutions: seq<Resolution>
    ghost var lost: set<string>

    ghost predicate Valid()
      reads this
    {
      records == saved - lost
    }

    ghost function Books(): Book
      reads this
    {
      Book(saved, lost)
    }

    /** Opens a registry on the saved index. */
    constructor (base: string, backend: string, saved: Index, dirs: set<string>,
                 outcomes: seq<Outcome>, clock: seq<Tick>, resolutions: seq<Resolution>)
      ensures Valid() && records == saved == this.saved && lost == {} && this.dirs == dirs
      ensures this.base == base && this.outcomes == outcomes && this.resolutions == resolutions
    {
      this.base, this.backend := base, backend;
      this.records, this.saved, this.dirs, this.counter := saved, saved, dirs, 0;
      this.outcomes, this.clock, this.resolutions := outcomes, clock, resolutions;
      this.lost := {};
      new;
      assert saved - {} == saved;
    }

    method Draw() returns (o: Outcome)
      modifies this`outcomes
      ensures o == First(old(outcomes)) && outcomes == Later(old(outcomes))
    {
      if outcomes == [] { return Works; }
      o, outcomes := outcomes[0], outcomes[1..];
    }

    method Now() returns (t: Tick)
      modifies this`clock
      ensures t == Reading(old(clock)) && clock == Rest(old(clock), 1)
    {
      if clock == [] { return Tick(0, 0); }
      t, clock := clock[0], clock[1..];
    }

    method Resolve() returns (r: Resolution)
      modifies this`resolutions
      ensures r == Where(old(resolutions)) && resolutions == if old(resolutions) == [] then [] else old(resolutions)[1..]
    {
      if resolutions == [] { return InsideBase; }
      r, resolutions := resolutions[0], resolutions[1..];
    }

    /** Saves the index in memory; a failing save writes nothing. */
    method Persist() returns (ok: bool)
      modifies this`saved, this`outcomes
      ensures saved == if ok then records else old(saved)
      ensures ok == First(old(outcomes)).Works? && outcomes == Later(old(outcomes))
    {
      var o := Draw();
      ok := o.Works?;
      if ok { saved := records; }
    }

    /** The id of the next candidate; others may draw ids in between. */
    method Candidate() returns (id: string, ghost timestamp: nat, ghost n: nat)
      modifies this`counter, this`clock
      ensures id == GenerateId(timestamp, n) && old(counter) <= n < counter
      ensures timestamp == Reading(old(clock)).now && clock == Rest(old(clock), 1)
    {
      var t := Now();
      timestamp, n := t.now, counter + t.drawn;
      id := GenerateId(t.now, counter + t.drawn);
      counter := counter + t.drawn + 1;
    }

    /** Draws ids until one is free both in the index and on disk, and makes
        its directory. */
    method Allocate() returns (r: Option<string>)
      modifies this`counter, this`clock, this`outcomes, this`dirs
      ensures old(outcomes) == [] ==> r.Some? && outcomes == []
      ensures exists k: nat :: clock == Rest(old(clock), k)
      ensures r.Some? ==> exists timestamp: nat, n: nat :: r.value == GenerateId(timestamp, n) && old(counter) <= n < counter
      ensures r.None? ==> dirs == old(dirs)
      ensures r.Some? ==> r.value !in records && DirOf(base, r.value) !in old(dirs)
                          && dirs == old(dirs) + {DirOf(base, r.value)}
    {
      hide Hex, Pow16, GenerateId, DirOf;
      ghost var names := records.Keys + dirs;
      ghost var length := LengthsBounded(names);
      ghost var readings := 0;
      while true
        invariant dirs == old(dirs) && (old(outcomes) == [] ==> outcomes == [])
        invariant clock == Rest(old(clock), readings) && old(counter) <= counter
        decreases Pow16(length) - counter
      {
        ghost var was := counter;
        var candidate, timestamp, n := Candidate();
        RestAgain(old(clock), readings);
        readings := readings + 1;
        if counter > Pow16(length) && n >= Pow16(length) { LateIdsAreFree(timestamp, n, names, length, base); }
        if candidate !in records {
          var o := Draw();
          if o.Fails? { return None; }
          if DirOf(base, candidate) !in dirs {
            dirs := dirs + {DirOf(base, candidate)};
            return Some(candidate);
          }
        }
      }
    }

    /** `removal` is how removing the new directory ended, after a failed save. */
    method CreateJail(title: string) returns (r: Result<Record>, ghost removal: Option<Outcome>)
      requires Valid()
      modifies this`records, this`saved, this`dirs, this`counter, this`outcomes, this`clock, this`lost
      ensures Valid() && Books() == EnterAll(old(Books()), Changes(Create(title), Recorded(r)))
      ensures r.Ok? ==>
                && r.value.id !in old(records) && r.value.dir == DirOf(base, r.value.id) && r.value.dir !in old(dirs)
                && r.value.title == title && r.value.notes.None? && r.value.backend == backend
                // Both times are the reading taken once the id was found.
                && r.value.created == r.value.updated
                && (exists k: nat :: r.value.created == Reading(Rest(old(clock), k)).now && clock == Rest(old(clock), k + 1))
                && records == saved == old(records)[r.value.id := r.value] && dirs == old(dirs) + {r.value.dir}
      ensures old(outcomes) == [] ==> r.Ok?
      ensures r.Err? ==> records == old(records) && saved == old(saved)
      // The directory is left behind only if its own removal failed without effect.
      ensures r == Err(SaveFailed) <==> removal.Some?
      ensures r.Err? && removal != Some(Fails(false)) ==> dirs == old(dirs)
      ensures removal == Some(Fails(false)) ==> exists id | id !in records && DirOf(base, id) !in old(dirs) :: dirs == old(dirs) + {DirOf(base, id)}
    {
      hide DirOf, Rest, Reading, EnterAll, GenerateId;
      removal := None;
      var drawnId := Allocate();
      if drawnId.None? {
        EnterNone(Books());
        return Err(Io), removal;
      }
      var id := drawnId.value;
      ghost var readings: nat :| clock == Rest(old(clock), readings);
      RestAgain(old(clock), readings);
      var t := Now();
      var record := Record(id, title, DirOf(base, id), backend, t.now, t.now, None);
      var ok := Enroll(id, record);
      if !ok {
        var o := Draw();
        removal := Some(o);
        if o.Works? || o.effect { dirs := dirs - {record.dir}; }
        EnterNone(Books());
        return Err(SaveFailed), removal;
      }
      return Ok(record), removal;
    }

    /** Inserts a record and saves, or takes it out again. */
    method Enroll(id: string, record: Record) returns (ok: bool)
      requires Valid() && id !in records
      modifies this`records, this`saved, this`outcomes, this`lost
      ensures Valid() && (ok <==> First(old(outcomes)).Works?) && outcomes == Later(old(outcomes))
      ensures ok ==> records == saved == old(records)[id := record] && Books() == EnterAll(old(Books()), [Put(id, record)])
      ensures !ok ==> records == old(records) && saved == old(saved) && Books() == old(Books())
    {
      hide EnterAll;
      ghost var before := records;
      records := records[id := record];
      ok := Persist();
      if ok {
        EnterOne(old(Books()), Put(id, record));
        lost := {};
        assert saved - lost == saved;
      } else {
        records := records - {id};
        assert records == before;
      }
    }

    method RenameJail(id: string, title: string) returns (r: Result<Record>)
      requires Valid()
      modifies this`records, this`saved, this`outcomes, this`clock, this`lost
      ensures Valid() && Books() == EnterAll(old(Books()), Changes(Rename(id, title), Recorded(r)))
      ensures r == Err(NotFound) <==> id !in old(records)
      ensures r.Ok? <==> id in old(records) && First(old(outcomes)).Works?
      ensures r.Ok? ==> r.value == old(records)[id].(title := title, updated := Reading(old(clock)).now)
                        && records == saved == old(records)[id := r.value]
      ensures r.Err? ==> records == old(records) && saved == old(saved)
    {
      if id !in records { return Err(NotFound); }
      ghost var before := records;
      var previous := records[id];
      var t := Now();
      var changed := previous.(title := title, updated := t.now);
      records := records[id := changed];
      var ok := Persist();
      if !ok {
        records := records[id := records[id].(title := previous.title, updated := previous.updated)];
        assert records == before;
        return Err(SaveFailed);
      }
      EnterOne(old(Books()), Put(id, changed));
      lost := {};
      assert saved - lost == saved;
      return Ok(changed);
    }

    method SetJailNotes(id: string, notes: Option<string>) returns (r: Result<Record>)
      requires Valid()
      modifies this`records, this`saved, this`outcomes, this`clock, this`lost
      ensures Valid() && Books() == EnterAll(old(Books()), Changes(SetNotes(id, notes), Recorded(r)))
      ensures r == Err(NotFound) <==> id !in old(records)
      ensures r.Ok? <==> id in old(records) && First(old(outcomes)).Works?
      ensures r.Ok? ==> r.value == old(records)[id].(notes := notes, updated := Reading(old(clock)).now)
                        && records == saved == old(records)[id := r.value]
      ensures r.Err? ==> records == old(records) && saved == old(saved)
    {
      if id !in records { return Err(NotFound); }
      ghost var before := records;
      var previous := records[id];
      var t := Now();
      var changed := previous.(notes := notes, updated := t.now);
      records := records[id := changed];
      var ok := Persist();
      if !ok {
        records := records[id := records[id].(notes := previous.notes, updated := previous.updated)];
        assert records == before;
        return Err(SaveFailed);
      }
      EnterOne(old(Books()), Put(id, changed));
      lost := {};
      assert saved - lost == saved;
      return Ok(changed);
    }

    method DeleteJail(id: string) returns (r: Result<()>)
      requires Valid()
      modifies this`records, this`saved, this`dirs, this`outcomes, this`resolutions, this`lost
      ensures Valid() && Books() == EnterAll(old(Books()), DeletionChanges(Deletion(id, r)))
      ensures r == Err(NotFound) <==> id !in old(records)
      ensures r.Ok? ==> records == saved == old(records) - {id} && dirs == old(dirs) - {old(records)[id].dir}
      // A failed save drops the id in memory alone, its directory being gone;
      // any other error keeps memory.
      ensures r.Err? ==> saved == old(saved)
      ensures r == Err(SaveFailed) ==> id in old(records) && records == old(records) - {id} && old(records)[id].dir !in dirs
      ensures r.Err? && r != Err(SaveFailed) ==> records == old(records)
      ensures r == Err(PermissionDenied) ==> dirs == old(dirs)
      ensures dirs == old(dirs) || (id in old(records) && dirs == old(dirs) - {old(records)[id].dir})
      // A directory that resolves outside the base, or not at all, is refused and
      // nothing is touched; inside, the removal of an existing directory and then
      // the save decide.
      ensures id in old(records) ==>
                var there := old(records)[id].dir in old(dirs);
                var saving := if there then Later(old(outcomes)) else old(outcomes);
                match Where(old(resolutions))
                case OutsideBase =>
                  r == Err(PermissionDenied) && dirs == old(dirs) && records == old(records) && saved == old(saved)
                case Unresolvable =>
                  r == Err(Io) && dirs == old(dirs) && records == old(records) && saved == old(saved)
                case InsideBase =>
                  && (r.Ok? <==> (there ==> First(old(outcomes)).Works?) && First(saving).Works?)
                  && (r == Err(SaveFailed) <==> (there ==> First(old(outcomes)).Works?) && First(saving).Fails?)
                  && (r == Err(Io) <==> there && First(old(outcomes)).Fails?)
      ensures id !in old(records) ==> dirs == old(dirs) && records == old(records)
      ensures (old(outcomes) == [] ==> outcomes == []) && (old(resolutions) == [] ==> resolutions == [])
    {
      if id !in records { return Err(NotFound); }
      var record := records[id];
      var where := Resolve();
      if where.Unresolvable? { return Err(Io); }
      if where.OutsideBase? { return Err(PermissionDenied); }
      if record.dir in dirs {
        var o := Draw();
        if o.Works? || o.effect { dirs := dirs - {record.dir}; }
        if o.Fails? { return Err(Io); }
      }
      var ok := Forget(id);
      return if ok then Ok(()) else Err(SaveFailed);
    }

    /** `delete`, as far as `clear` relies on it. */
    method DeleteListed(id: string) returns (r: Result<()>)
      requires Valid() && id in records
      modifies this`records, this`saved, this`dirs, this`outcomes, this`resolutions, this`lost
      ensures Valid() && Books() == EnterAll(old(Books()), DeletionChanges(Deletion(id, r)))
      ensures r.Ok? ==> records == saved == old(records) - {id}
      ensures records == old(records) || records == old(records) - {id}
      ensures old(outcomes) == [] && old(resolutions) == [] ==> r.Ok? && outcomes == [] && resolutions == []
    {
      hide EnterAll, DeletionChanges;
      r := DeleteJail(id);
    }

    /** Drops a record whose directory is gone, in memory even if the save fails. */
    method Forget(id: string) returns (ok: bool)
      requires Valid() && id in records
      modifies this`records, this`saved, this`outcomes, this`lost
      ensures Valid() && records == old(records) - {id}
      ensures Books() == EnterAll(old(Books()), [if ok then Gone(id) else Lost(id)])
      ensures ok ==> saved == records
      ensures !ok ==> saved == old(saved)
      ensures ok == First(old(outcomes)).Works? && outcomes == Later(old(outcomes))
    {
      records := records - {id};
      ok := Persist();
      EnterOne(old(Books()), if ok then Gone(id) else Lost(id));
      if ok {
        lost := {};
        assert saved - lost == saved;
      } else {
        lost := lost + {id};
        assert old(saved) - old(lost) - {id} == saved - lost;
      }
    }

    /** Deletes the jails one by one, in some order, up to the first error. */
    method ClearJails() returns (r: Result<nat>, deletions: seq<Deletion>)
      requires Valid()
      modifies this`records, this`saved, this`dirs, this`outcomes, this`resolutions, this`lost
      ensures Valid() && Books() == EnterAll(old(Books()), AllDeletions(deletions))
      ensures r.Ok? ==> records == map[] && r.value == |old(records)| == |deletions|
      ensures r.Ok? && old(records) != map[] ==> saved == map[]
      ensures r.Ok? && old(records) == map[] ==> saved == old(saved)
      ensures records.Keys <= old(records.Keys)
      ensures forall k | 0 <= k < |deletions| :: deletions[k].id in old(records) && (deletions[k].result.Ok? || k == |deletions| - 1)
      ensures r.Err? ==> deletions != [] && deletions[|deletions| - 1].result == Err(r.error)
      ensures old(records) == map[] ==> r == Ok(0) && resolutions == old(resolutions) && dirs == old(dirs)
      ensures old(outcomes) == [] && old(resolutions) == [] ==> r.Ok?
    {
      hide Listed, Distinct, EnterAll, DeletionChanges, AllDeletions, Later, Enter;
      var ids := KeysOf(records);
      assert ids[0..] == ids;
      deletions := [];
      var n := |ids|;
      EnterNone(Books());
      for i := 0 to n
        invariant Valid() && Listed(records, ids[i..]) && records.Keys <= old(records.Keys)
        invariant Books() == EnterAll(old(Books()), AllDeletions(deletions)) && |deletions| == i
        invariant i == 0 ==> saved == old(saved) && records == old(records) && resolutions == old(resolutions) && dirs == old(dirs)
        invariant i > 0 ==> saved == records
        invariant old(outcomes) == [] && old(resolutions) == [] ==> outcomes == [] && resolutions == []
        invariant forall k | 0 <= k < i :: deletions[k].id in old(records) && deletions[k].result.Ok?
      {
        ListedNext(records, ids, i);
        var deleted := DeleteListed(ids[i]);
        DeletionNoted(old(Books()), deletions, Deletion(ids[i], deleted));
        deletions := deletions + [Deletion(ids[i], deleted)];
        if deleted.Err? { return Err(deleted.error), deletions; }
      }
      ListedNone(records, ids[n..]);
      return Ok(n), deletions;
    }

    /** A new process on the same files: memory is the saved index again and
        the id counter starts over. */
    method ReopenRegistry()
      requires Valid()
      modifies this`records, this`counter, this`lost
      ensures Valid() && records == saved && counter == 0 && Books() == EnterAll(old(Books()), [Restart])
    {
      EnterOne(Books(), Restart);
      records := saved;
      counter := 0;
      lost := {};
      assert saved - lost == saved;
    }

    method Perform(op: Op) returns (reply: Reply)
      requires Valid()
      modifies this
      ensures Valid() && Books() == EnterAll(old(Books()), Changes(op, reply)) && Answers(op, reply)
    {
      hide EnterAll;
      match op
      case Create(title) =>
        var r, removal := CreateJail(title);
        reply := Recorded(r);
      case Rename(id, title) =>
        var r := RenameJail(id, title);
        reply := Recorded(r);
      case SetNotes(id, notes) =>
        var r := SetJailNotes(id, notes);
        reply := Recorded(r);
      case Delete(id) =>
        var r := DeleteJail(id);
        reply := Deleted(r);
      case Clear =>
        var r, deletions := ClearJails();
        reply := Cleared(r, deletions);
      case Reopen =>
        ReopenRegistry();
        reply := Reopened;
    }

    /** Over any operations and failures: the saved index is what the answers say
        was saved, and memory is that index less the ids whose delete failed to
        save since. */
    method Session(ops: seq<Op>) returns (replies: seq<Reply>)
      requires Valid() && records == saved && lost == {}
      modifies this
      ensures |replies| == |ops| && forall i | 0 <= i < |ops| :: Answers(ops[i], replies[i])
      ensures var b := EnterAll(Book(old(saved), {}), History(ops, replies));
              saved == b.saved && records == b.Memory()
      // Memory and saved index differ only by a delete that failed to save.
      ensures (forall c | c in History(ops, replies) :: !c.Lost?) ==> records == saved
    {
      hide EnterAll, Changes;
      replies := [];
      EnterNone(Books());
      assert ops[..0] == [];
      for n := 0 to |ops|
        invariant Valid() && |replies| == n && forall i | 0 <= i < n :: Answers(ops[i], replies[i])
        invariant Books() == EnterAll(Book(old(saved), {}), History(ops[..n], replies))
      {
        ghost var was := Books();
        var reply := Perform(ops[n]);
        HistoryGrows(ops[..n], replies, ops[n], reply);
        EnterAppend(Book(old(saved), {}), History(ops[..n], replies), Changes(ops[n], reply));
        replies := replies + [reply];
        assert ops[..n] + [ops[n]] == ops[..n + 1];
      }
      assert ops[..|ops|] == ops;
      if forall c | c in History(ops, replies) :: !c.Lost? { NothingLost(old(saved), History(ops, replies)); }
    }
  }

  /** The shape of an answer. */
  predicate Answers(op: Op, reply: Reply) {
    match op
    case Delete(_) => reply.Deleted?
    case Clear => reply.Cleared?
    case Reopen => reply.Reopened?
    case _ => reply.Recorded?
  }

  lemma RestAgain(clock: seq<Tick>, k: nat)
    ensures Rest(Rest(clock, k), 1) == Rest(clock, k + 1)
  {
  }

  lemma EnterNone(b: Book)
    ensures EnterAll(b, []) == b && EnterAll(b, AllDeletions([])) == b
  {
  }

  lemma DeletionNoted(b: Book, ds: seq<Deletion>, d: Deletion)
    ensures EnterAll(b, AllDeletions(ds + [d])) == EnterAll(EnterAll(b, AllDeletions(ds)), DeletionChanges(d))
  {
    hide EnterAll, DeletionChanges;
    assert (ds + [d])[..|ds|] == ds;
    EnterAppend(b, AllDeletions(ds), DeletionChanges(d));
  }

  lemma HistoryGrows(ops: seq<Op>, replies: seq<Reply>, op: Op, reply: Reply)
    requires |ops| == |replies|
    ensures History(ops + [op], replies + [reply]) == History(ops, replies) + Changes(op, reply)
  {
    hide Changes;
    assert (ops + [op])[..|ops|] == ops && (replies + [reply])[..|ops|] == replies;
  }

  /** `clear` can report success while a record stays saved: a delete whose save
      failed leaves memory empty, `clear` then finds nothing to delete, and a
      restart brings the record back. */
  method ClearedThenBack(base: string, record: Record)
    returns (registry: Registry, deleted: Result<()>, cleared: Result<nat>)
    ensures deleted == Err(SaveFailed) && cleared == Ok(0)
    ensures registry.records == map[record.id := record]
  {
    registry := new Registry(base, "", map[record.id := record], {record.dir}, [Works, Fails(false)], [], []);
    deleted := registry.DeleteJail(record.id);
    assert registry.records == map[];
    var deletions;
    cleared, deletions := registry.ClearJails();
    registry.ReopenRegistry();
  }

  predicate Distinct(ids: seq<string>) { forall i, j | 0 <= i < j < |ids| :: ids[i] != ids[j] }

  ghost predicate Listed(index: Index, ids: seq<string>) { forall id :: id in index <==> id in ids }

  lemma ListedNext(index: Index, ids: seq<string>, i: nat)
    requires i < |ids| && Distinct(ids) && Listed(index, ids[i..])
    ensures ids[i] in index && Listed(index - {ids[i]}, ids[i + 1..])
  {
    assert ids[i..] == [ids[i]] + ids[i + 1..];
  }

  lemma ListedNone(index: Index, ids: seq<string>)
    requires Listed(index, ids) && ids == []
    ensures index == map[]
  {
  }

  method KeysOf(index: Index) returns (ids: seq<string>)
    ensures |ids| == |index| && Distinct(ids) && Listed(index, ids)
  {
    ids := [];
    var rest := index.Keys;
    while rest != {}
      invariant rest <= index.Keys && |ids| + |rest| == |index| && Distinct(ids)
      invariant forall id :: id in index <==> id in rest || id in ids
      invariant forall id | id in ids :: id !in rest
      decreases |rest|
    {
      var id :| id in rest;
      ids := ids + [id];
      rest := rest - {id};
    }
  }
}
