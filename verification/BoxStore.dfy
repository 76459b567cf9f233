/** Box records on a versioned document store: absent-only inserts,
    compare-and-swap state changes and unconditional removals by any number of
    concurrent clients, refining one atomic map. */
module BoxStore {

  import opened Wrappers

  type Id = string

  datatype BoxRecord = BoxRecord(state: string, spec: string, created: Option<int>)

  // ----- The atomic store clients believe in

  datatype Op = Insert(id: Id, record: BoxRecord) | SetState(id: Id, state: string) | Remove(id: Id)

  datatype Reply = Done | DuplicateBox | UnknownBox

  type Boxes = map<Id, BoxRecord>

  function Effect(m: Boxes, op: Op): Boxes {
    match op
    case Insert(id, record) => if id in m then m else m[id := record]
    case SetState(id, state) => if id in m then m[id := m[id].(state := state)] else m
    case Remove(id) => m - {id}
  }

  function ReplyOf(m: Boxes, op: Op): Reply {
    match op
    case Insert(id, _) => if id in m then DuplicateBox else Done
    case SetState(id, _) => if id in m then Done else UnknownBox
    case Remove(id) => if id in m then Done else UnknownBox
  }

  // ----- The versioned store and its clients

  datatype Doc = Doc(version: nat, record: BoxRecord)

  datatype Outcome = Replied(reply: Reply) | RetriesExhausted | StorageFailed

  /** Where one call stands; the awaited storage request comes next. `writes`
      counts the conditional writes already issued. */
  datatype Pc =
    | Inserting(op: Op)
    | Reading(op: Op, writes: nat)
    | Writing(op: Op, writes: nat, seen: Doc)
    | Removing(op: Op)
    | Returned(op: Op, outcome: Outcome)
    | Crashed(op: Op)

  /** A call that took effect, or was answered without effect, at this moment. */
  datatype Entry = Entry(client: nat, op: Op, reply: Reply)

  datatype State = State(docs: map<Id, Doc>, next: nat, clients: map<nat, Pc>, history: map<nat, (Id, BoxRecord)>, log: seq<Entry>)

  datatype Choice = Answer | Fail(effect: bool)

  datatype Action = Call(client: nat, op: Op) | Crash(client: nat) | Advance(client: nat, choice: Choice)

  function At(s: State, client: nat, pc: Pc): State { s.(clients := s.clients[client := pc]) }

  function Put(s: State, id: Id, record: BoxRecord): State {
    s.(docs := s.docs[id := Doc(s.next, record)], next := s.next + 1, history := s.history[s.next := (id, record)])
  }

  function Note(s: State, client: nat, op: Op, reply: Reply): State { s.(log := s.log + [Entry(client, op, reply)]) }

  function Answered(s: State, client: nat, op: Op, reply: Reply): State {
    At(Note(s, client, op, reply), client, Returned(op, Replied(reply)))
  }

  function Budget(attempts: nat): nat { if attempts == 0 then 1 else attempts }

  /** One storage request of one client, within a budget of conditional writes. */
  function AdvanceClient(budget: nat, s: State, c: nat, choice: Choice): State
    requires c in s.clients
  {
    var failed := (t: State, op: Op) => At(t, c, Returned(op, StorageFailed));
    match s.clients[c]
    case Inserting(op) =>
      if !op.Insert? then s
      else if op.id in s.docs then
        if choice.Answer? then Answered(s, c, op, DuplicateBox) else failed(s, op)
      else if choice.Answer? then Answered(Put(s, op.id, op.record), c, op, Done)
      else if choice == Fail(true) then failed(Note(Put(s, op.id, op.record), c, op, Done), op)
      else failed(s, op)
    case Reading(op, writes) =>
      if !op.SetState? then s
      else if !choice.Answer? then failed(s, op)
      else if op.id in s.docs then At(s, c, Writing(op, writes, s.docs[op.id]))
      else Answered(s, c, op, UnknownBox)
    case Writing(op, writes, seen) =>
      if !op.SetState? then s else
      var next := seen.record.(state := op.state);
      if op.id in s.docs && s.docs[op.id].version == seen.version then
        if choice.Answer? then Answered(Put(s, op.id, next), c, op, Done)
        else if choice == Fail(true) then failed(Note(Put(s, op.id, next), c, op, Done), op)
        else failed(s, op)
      else if !choice.Answer? then failed(s, op)
      else if writes + 1 >= budget then At(s, c, Returned(op, RetriesExhausted))
      else At(s, c, Reading(op, writes + 1))
    case Removing(op) =>
      if !op.Remove? then s
      else if op.id !in s.docs then
        if choice.Answer? then Answered(s, c, op, UnknownBox) else failed(s, op)
      else if choice.Answer? then Answered(s.(docs := s.docs - {op.id}), c, op, Done)
      else if choice == Fail(true) then failed(Note(s.(docs := s.docs - {op.id}), c, op, Done), op)
      else failed(s, op)
    case Returned(_, _) => s
    case Crashed(_) => s
  }

  function Next(budget: nat, s: State, a: Action): State {
    match a
    case Call(c, op) =>
      if c in s.clients then s
      else At(s, c, if op.Insert? then Inserting(op) else if op.SetState? then Reading(op, 0) else Removing(op))
    case Crash(c) =>
      if c in s.clients && !s.clients[c].Returned? then At(s, c, Crashed(s.clients[c].op)) else s
    case Advance(c, choice) => if c in s.clients then AdvanceClient(budget, s, c, choice) else s
  }

  function Execute(budget: nat, s: State, actions: seq<Action>): State
    decreases |actions|
  {
    if actions == [] then s else Execute(budget, Next(budget, s, actions[0]), actions[1..])
  }

  // ----- Refinement

  function View(docs: map<Id, Doc>): Boxes { map id | id in docs :: docs[id].record }

  function Replay(m: Boxes, log: seq<Entry>): Boxes {
    if log == [] then m else Effect(Replay(m, log[..|log| - 1]), log[|log| - 1].op)
  }

  /** Every logged reply is what the atomic store would have answered there. */
  ghost predicate Truthful(m: Boxes, log: seq<Entry>) {
    forall i | 0 <= i < |log| :: log[i].reply == ReplyOf(Replay(m, log[..i]), log[i].op)
  }

  ghost predicate InLog(log: seq<Entry>, c: nat) { exists i | 0 <= i < |log| :: log[i].client == c }

  ghost predicate OnceEach(log: seq<Entry>) {
    forall i, j | 0 <= i < j < |log| :: log[i].client != log[j].client
  }

  ghost predicate VersionsUnique(s: State) {
    && (forall v | v in s.history :: v < s.next)
    && (forall id | id in s.docs :: s.docs[id].version in s.history && s.history[s.docs[id].version] == (id, s.docs[id].record))
  }

  /** What a client's position promises. */
  ghost predicate PcOk(budget: nat, s: State, c: nat, pc: Pc) {
    match pc
    case Inserting(op) => op.Insert? && !InLog(s.log, c)
    case Reading(op, writes) => op.SetState? && writes < budget && !InLog(s.log, c)
    case Writing(op, writes, seen) =>
      && op.SetState? && writes < budget && !InLog(s.log, c)
      && seen.version in s.history && s.history[seen.version] == (op.id, seen.record)
    case Removing(op) => op.Remove? && !InLog(s.log, c)
    case Returned(op, Replied(reply)) => exists i | 0 <= i < |s.log| :: s.log[i] == Entry(c, op, reply)
    case Returned(op, RetriesExhausted) => !InLog(s.log, c)
    case Returned(op, StorageFailed) => true
    case Crashed(_) => true
  }

  ghost predicate Inv(budget: nat, m: Boxes, s: State) {
    && VersionsUnique(s)
    && View(s.docs) == Replay(m, s.log)
    && Truthful(m, s.log)
    && OnceEach(s.log)
    && (forall i | 0 <= i < |s.log| :: s.log[i].client in s.clients)
    && (forall c | c in s.clients :: PcOk(budget, s, c, s.clients[c]))
  }

  lemma LogExtends(m: Boxes, log: seq<Entry>, e: Entry)
    requires Truthful(m, log) && e.reply == ReplyOf(Replay(m, log), e.op)
    ensures Truthful(m, log + [e])
    ensures Replay(m, log + [e]) == Effect(Replay(m, log), e.op)
  {
    var log' := log + [e];
    assert log'[..|log|] == log;
    forall i | 0 <= i < |log'| ensures log'[i].reply == ReplyOf(Replay(m, log'[..i]), log'[i].op) {
      assert log'[..i] == log[..i];
    }
  }

  /** Another client's promises survive new versions and a foreign log entry. */
  lemma PcStays(budget: nat, s: State, s': State, c: nat, pc: Pc)
    requires PcOk(budget, s, c, pc)
    requires forall v | v in s.history :: v in s'.history && s'.history[v] == s.history[v]
    requires s.log <= s'.log && (forall i | |s.log| <= i < |s'.log| :: s'.log[i].client != c)
    ensures PcOk(budget, s', c, pc)
  {
    assert InLog(s'.log, c) ==> InLog(s.log, c);
    if pc.Returned? && pc.outcome.Replied? {
      var i :| 0 <= i < |s.log| && s.log[i] == Entry(c, pc.op, pc.outcome.reply);
      assert s'.log[i] == s.log[i];
    }
  }

  /** A step that touches no document and adds no entry. */
  lemma MoveKeeps(budget: nat, m: Boxes, s: State, c: nat, pc: Pc)
    requires Inv(budget, m, s) && PcOk(budget, s, c, pc)
    ensures Inv(budget, m, At(s, c, pc))
  {
    var s' := At(s, c, pc);
    forall d | d in s'.clients ensures PcOk(budget, s', d, s'.clients[d]) {
      if d != c { PcStays(budget, s, s', d, s.clients[d]); }
    }
  }

  /** A step that takes effect, or answers, at this moment. */
  lemma CommitKeeps(budget: nat, m: Boxes, s: State, s1: State, c: nat, op: Op, reply: Reply, pc: Pc)
    requires Inv(budget, m, s) && c in s.clients && !InLog(s.log, c)
    requires s1.clients == s.clients && s1.log == s.log
    requires VersionsUnique(s1) && (forall v | v in s.history :: v in s1.history && s1.history[v] == s.history[v])
    requires View(s1.docs) == Effect(View(s.docs), op) && reply == ReplyOf(View(s.docs), op)
    requires pc == Returned(op, Replied(reply)) || pc == Returned(op, StorageFailed)
    ensures Inv(budget, m, At(Note(s1, c, op, reply), c, pc))
  {
    var s' := At(Note(s1, c, op, reply), c, pc);
    LogExtends(m, s.log, Entry(c, op, reply));
    assert s'.log[|s.log|] == Entry(c, op, reply);
    forall d | d in s'.clients ensures PcOk(budget, s', d, s'.clients[d]) {
      if d != c { PcStays(budget, s, s', d, s.clients[d]); }
    }
    forall i, j | 0 <= i < j < |s'.log| ensures s'.log[i].client != s'.log[j].client {
      if j == |s.log| { assert s.log[i] == s'.log[i]; }
    }
  }

  lemma PutKeeps(s: State, id: Id, record: BoxRecord)
    requires VersionsUnique(s)
    ensures var s1 := Put(s, id, record);
            && VersionsUnique(s1)
            && (forall v | v in s.history :: v in s1.history && s1.history[v] == s.history[v])
            && View(s1.docs) == View(s.docs)[id := record]
  {}

  lemma DropKeeps(s: State, id: Id)
    requires VersionsUnique(s)
    ensures VersionsUnique(s.(docs := s.docs - {id}))
    ensures View(s.docs - {id}) == View(s.docs) - {id}
    ensures id !in s.docs ==> View(s.docs) - {id} == View(s.docs)
  {}

  lemma ViewHas(docs: map<Id, Doc>, id: Id)
    ensures id in View(docs) <==> id in docs
    ensures id in docs ==> View(docs)[id] == docs[id].record
  {}

  lemma CurrentPc(budget: nat, m: Boxes, s: State, c: nat)
    requires Inv(budget, m, s) && c in s.clients
    ensures PcOk(budget, s, c, s.clients[c]) && VersionsUnique(s)
  {}

  lemma SameVersionSameRecord(s: State, id: Id, seen: Doc)
    requires VersionsUnique(s) && id in s.docs && s.docs[id].version == seen.version
    requires seen.version in s.history && s.history[seen.version] == (id, seen.record)
    ensures s.docs[id].record == seen.record
  {}

  lemma InsertingKeeps(budget: nat, m: Boxes, s: State, c: nat, choice: Choice)
    requires Inv(budget, m, s) && c in s.clients && s.clients[c].Inserting?
    ensures Inv(budget, m, AdvanceClient(budget, s, c, choice))
  {
    hide Inv, VersionsUnique, InLog, View;
    CurrentPc(budget, m, s, c);
    ViewHas(s.docs, s.clients[c].op.id);
    var op := s.clients[c].op;
    MoveKeeps(budget, m, s, c, Returned(op, StorageFailed));
    if op.id in s.docs {
      CommitKeeps(budget, m, s, s, c, op, DuplicateBox, Returned(op, Replied(DuplicateBox)));
    } else {
      PutKeeps(s, op.id, op.record);
      CommitKeeps(budget, m, s, Put(s, op.id, op.record), c, op, Done, Returned(op, Replied(Done)));
      CommitKeeps(budget, m, s, Put(s, op.id, op.record), c, op, Done, Returned(op, StorageFailed));
    }
  }

  lemma ReadingKeeps(budget: nat, m: Boxes, s: State, c: nat, choice: Choice)
    requires Inv(budget, m, s) && c in s.clients && s.clients[c].Reading?
    ensures Inv(budget, m, AdvanceClient(budget, s, c, choice))
  {
    var Reading(op, writes) := s.clients[c];
    assert PcOk(budget, s, c, s.clients[c]);
    MoveKeeps(budget, m, s, c, Returned(op, StorageFailed));
    if op.id in s.docs {
      MoveKeeps(budget, m, s, c, Writing(op, writes, s.docs[op.id]));
    } else {
      CommitKeeps(budget, m, s, s, c, op, UnknownBox, Returned(op, Replied(UnknownBox)));
    }
  }

  /** The compare-and-swap: an unchanged version means an unchanged record, so
      the write is the atomic update of the value immediately before it. */
  lemma WritingKeeps(budget: nat, m: Boxes, s: State, c: nat, choice: Choice)
    requires Inv(budget, m, s) && c in s.clients && s.clients[c].Writing?
    ensures Inv(budget, m, AdvanceClient(budget, s, c, choice))
  {
    hide Inv, VersionsUnique, InLog, View;
    CurrentPc(budget, m, s, c);
    ViewHas(s.docs, s.clients[c].op.id);
    var Writing(op, writes, seen) := s.clients[c];
    MoveKeeps(budget, m, s, c, Returned(op, StorageFailed));
    if op.id in s.docs && s.docs[op.id].version == seen.version {
      assert s.docs[op.id].record == seen.record by { SameVersionSameRecord(s, op.id, seen); }
      var next := seen.record.(state := op.state);
      PutKeeps(s, op.id, next);
      CommitKeeps(budget, m, s, Put(s, op.id, next), c, op, Done, Returned(op, Replied(Done)));
      CommitKeeps(budget, m, s, Put(s, op.id, next), c, op, Done, Returned(op, StorageFailed));
    } else if writes + 1 < budget {
      MoveKeeps(budget, m, s, c, Reading(op, writes + 1));
    } else {
      MoveKeeps(budget, m, s, c, Returned(op, RetriesExhausted));
    }
  }

  lemma RemovingKeeps(budget: nat, m: Boxes, s: State, c: nat, choice: Choice)
    requires Inv(budget, m, s) && c in s.clients && s.clients[c].Removing?
    ensures Inv(budget, m, AdvanceClient(budget, s, c, choice))
  {
    hide Inv, VersionsUnique, InLog, View;
    CurrentPc(budget, m, s, c);
    ViewHas(s.docs, s.clients[c].op.id);
    var op := s.clients[c].op;
    MoveKeeps(budget, m, s, c, Returned(op, StorageFailed));
    if op.id in s.docs {
      var s1 := s.(docs := s.docs - {op.id});
      DropKeeps(s, op.id);
      CommitKeeps(budget, m, s, s1, c, op, Done, Returned(op, Replied(Done)));
      CommitKeeps(budget, m, s, s1, c, op, Done, Returned(op, StorageFailed));
    } else {
      DropKeeps(s, op.id);
      CommitKeeps(budget, m, s, s, c, op, UnknownBox, Returned(op, Replied(UnknownBox)));
    }
  }

  lemma NextKeeps(budget: nat, m: Boxes, s: State, a: Action)
    requires budget > 0 && Inv(budget, m, s)
    ensures Inv(budget, m, Next(budget, s, a))
  {
    match a
    case Call(c, op) =>
      if c !in s.clients {
        assert !InLog(s.log, c);
        MoveKeeps(budget, m, s, c, if op.Insert? then Inserting(op) else if op.SetState? then Reading(op, 0) else Removing(op));
      }
    case Crash(c) => if c in s.clients { MoveKeeps(budget, m, s, c, Crashed(s.clients[c].op)); }
    case Advance(c, choice) =>
      if c in s.clients {
        match s.clients[c]
        case Inserting(_) => InsertingKeeps(budget, m, s, c, choice);
        case Reading(_, _) => ReadingKeeps(budget, m, s, c, choice);
        case Writing(_, _, _) => WritingKeeps(budget, m, s, c, choice);
        case Removing(_) => RemovingKeeps(budget, m, s, c, choice);
        case Returned(_, _) =>
        case Crashed(_) =>
      }
  }

  lemma {:induction false} ExecuteKeeps(budget: nat, m: Boxes, s: State, actions: seq<Action>)
    requires budget > 0 && Inv(budget, m, s)
    ensures Inv(budget, m, Execute(budget, s, actions))
    decreases |actions|
  {
    if actions != [] {
      NextKeeps(budget, m, s, actions[0]);
      ExecuteKeeps(budget, m, Next(budget, s, actions[0]), actions[1..]);
    }
  }

  ghost predicate Initial(s: State) { s.clients == map[] && s.log == [] && VersionsUnique(s) }

  /** Storage that answers is never reported as failed, and a call gives up only
      when its budget of conditional writes is used. */
  lemma AnswersAreAnswered(budget: nat, s: State, c: nat)
    requires c in s.clients && PcOk(budget, s, c, s.clients[c])
    ensures var pc, pc' := s.clients[c], AdvanceClient(budget, s, c, Answer).clients[c];
            match pc
            case Inserting(op) => pc' == Returned(op, Replied(if op.id in s.docs then DuplicateBox else Done))
            case Reading(op, writes) =>
              pc' == if op.id in s.docs then Writing(op, writes, s.docs[op.id]) else Returned(op, Replied(UnknownBox))
            case Writing(op, writes, seen) =>
              if op.id in s.docs && s.docs[op.id].version == seen.version then pc' == Returned(op, Replied(Done))
              else if writes + 1 < budget then pc' == Reading(op, writes + 1)
              else writes + 1 == budget && pc' == Returned(op, RetriesExhausted)
            case Removing(op) => pc' == Returned(op, Replied(if op.id in s.docs then Done else UnknownBox))
            case _ => pc' == pc
  {
    hide InLog;
  }

  /** Atomicity, over every interleaving with crashes and storage faults:
      the documents are the atomic map after the logged calls, every logged reply
      is truthful, no call takes effect twice, an acknowledged call is logged
      with its reply, and a call that ran out of retries had no effect. */
  lemma NoLostUpdate(attempts: nat, s: State, actions: seq<Action>, c: nat)
    requires Initial(s)
    ensures var s', m := Execute(Budget(attempts), s, actions), View(s.docs);
            && View(s'.docs) == Replay(m, s'.log)
            && Truthful(m, s'.log)
            && OnceEach(s'.log)
            && (c in s'.clients && s'.clients[c].Returned? ==>
                  match s'.clients[c].outcome
                  case Replied(reply) => exists i | 0 <= i < |s'.log| :: s'.log[i] == Entry(c, s'.clients[c].op, reply)
                  case RetriesExhausted => !InLog(s'.log, c)
                  case StorageFailed => true)
            // A conditional write is only ever issued within the budget.
            && (c in s'.clients && s'.clients[c].Writing? ==> s'.clients[c].writes < Budget(attempts))
  {
    assert View(s.docs) == Replay(View(s.docs), s.log);
    ExecuteKeeps(Budget(attempts), View(s.docs), s, actions);
    var s' := Execute(Budget(attempts), s, actions);
    if c in s'.clients { assert PcOk(Budget(attempts), s', c, s'.clients[c]); }
  }

  // ----- What the atomic history implies for one box

  /** The record of the last successful insert of `id` that no removal followed. */
  function LastInsert(m: Boxes, log: seq<Entry>, id: Id): Option<BoxRecord> {
    if log == [] then (if id in m then Some(m[id]) else None)
    else
      var e, before := log[|log| - 1], LastInsert(m, log[..|log| - 1], id);
      if e.op.id != id then before
      else match e.op
        case Insert(_, record) => if before.None? then Some(record) else before
        case SetState(_, _) => before
        case Remove(_) => None
  }

  /** A live box keeps the spec and creation time of its last insert, and a state
      change neither creates nor removes a box. */
  lemma {:induction false} LiveBoxKeepsItsInsert(m: Boxes, log: seq<Entry>, id: Id)
    ensures id in Replay(m, log) <==> LastInsert(m, log, id).Some?
    ensures id in Replay(m, log) ==>
              && Replay(m, log)[id].spec == LastInsert(m, log, id).value.spec
              && Replay(m, log)[id].created == LastInsert(m, log, id).value.created
    decreases |log|
  {
    if log != [] { LiveBoxKeepsItsInsert(m, log[..|log| - 1], id); }
  }

  /** After a removal the box stays gone through any number of state changes and
      removals, until an insert. */
  lemma {:induction false} NeverResurrected(m: Boxes, log: seq<Entry>, from: nat, id: Id)
    requires from < |log| && log[from].op == Remove(id)
    requires forall i | from < i < |log| && log[i].op.id == id :: !log[i].op.Insert?
    ensures id !in Replay(m, log)
    decreases |log|
  {
    if from + 1 < |log| { NeverResurrected(m, log[..|log| - 1], from, id); }
  }

  // ----- Every run

  ghost predicate Ended(s: State, c: nat) { c in s.clients && (s.clients[c].Returned? || s.clients[c].Crashed?) }

  /** The log only grows, and a call that has ended adds nothing to it. */
  ghost predicate Grows(s: State, s': State) {
    && s.log <= s'.log
    && (forall i | |s.log| <= i < |s'.log| :: !Ended(s, s'.log[i].client))
    && (forall c | Ended(s, c) :: Ended(s', c))
  }

  /** A step of client `c` that has not ended: its position, and at most one
      entry of its own. */
  ghost predicate OneMoves(s: State, s': State, c: nat) {
    && !Ended(s, c) && c in s'.clients && s'.clients == s.clients[c := s'.clients[c]]
    && (s'.log == s.log || exists e: Entry :: s'.log == s.log + [e] && e.client == c)
  }

  lemma AdvanceMoves(budget: nat, s: State, c: nat, choice: Choice)
    requires c in s.clients
    ensures AdvanceClient(budget, s, c, choice) == s || OneMoves(s, AdvanceClient(budget, s, c, choice), c)
  {
    var s' := AdvanceClient(budget, s, c, choice);
    if s' != s && s'.log != s.log {
      var e := s'.log[|s.log|];
      assert s'.log == s.log + [e] && e.client == c;
    }
  }

  lemma MovesGrow(s: State, s': State, c: nat)
    requires c in s'.clients && OneMoves(s, s', c)
    ensures Grows(s, s')
  {
  }

  lemma NextGrows(budget: nat, s: State, a: Action)
    ensures Grows(s, Next(budget, s, a))
  {
    var s' := Next(budget, s, a);
    if s' != s {
      if a.Advance? { AdvanceMoves(budget, s, a.client, a.choice); }
      hide AdvanceClient, Grows;
      MovesGrow(s, s', a.client);
    }
  }

  lemma {:induction false} ExecuteGrows(budget: nat, s: State, actions: seq<Action>)
    ensures Grows(s, Execute(budget, s, actions))
    decreases |actions|
  {
    if actions != [] {
      hide Next;
      NextGrows(budget, s, actions[0]);
      var mid := Next(budget, s, actions[0]);
      ExecuteGrows(budget, mid, actions[1..]);
      var end := Execute(budget, mid, actions[1..]);
      forall i | |s.log| <= i < |end.log|
        ensures !Ended(s, end.log[i].client)
      {
        if i < |mid.log| { assert end.log[i] == mid.log[i]; }
      }
    }
  }

  lemma {:induction false} ExecuteAppend(budget: nat, s: State, xs: seq<Action>, ys: seq<Action>)
    ensures Execute(budget, s, xs + ys) == Execute(budget, Execute(budget, s, xs), ys)
    decreases |xs|
  {
    if xs == [] {
      assert xs + ys == ys;
    } else {
      assert (xs + ys)[0] == xs[0] && (xs + ys)[1..] == xs[1..] + ys;
      ExecuteAppend(budget, Next(budget, s, xs[0]), xs[1..], ys);
    }
  }

  lemma LoggedAreClients(budget: nat, s: State, actions: seq<Action>, i: nat)
    requires budget > 0 && Initial(s) && i < |Execute(budget, s, actions).log|
    ensures Execute(budget, s, actions).log[i].client in Execute(budget, s, actions).clients
  {
    ExecuteKeeps(budget, View(s.docs), s, actions);
  }

  /** Real time is respected: a call that ended before another was issued stands
      before it in the order in which the calls took effect. */
  lemma RealTimeOrder(attempts: nat, s: State, xs: seq<Action>, ys: seq<Action>, c: nat, d: nat, i: nat, j: nat)
    requires Initial(s)
    requires var mid := Execute(Budget(attempts), s, xs); Ended(mid, c) && d !in mid.clients
    requires var log := Execute(Budget(attempts), s, xs + ys).log;
             i < |log| && j < |log| && log[i].client == c && log[j].client == d
    ensures i < j
  {
    hide Execute, Ended, Initial;
    var budget := Budget(attempts);
    var mid := Execute(budget, s, xs);
    ExecuteAppend(budget, s, xs, ys);
    ExecuteGrows(budget, mid, ys);
    if j < |mid.log| {
      LoggedAreClients(budget, s, xs, j);
    }
  }

  /** In every run a live box has the spec and creation time of its last insert. */
  lemma LiveBoxes(attempts: nat, s: State, actions: seq<Action>, id: Id)
    requires Initial(s)
    ensures var s' := Execute(Budget(attempts), s, actions);
            var last := LastInsert(View(s.docs), s'.log, id);
            && (id in s'.docs <==> last.Some?)
            && (id in s'.docs ==> s'.docs[id].record.spec == last.value.spec && s'.docs[id].record.created == last.value.created)
  {
    hide Execute, Replay, LastInsert;
    var s' := Execute(Budget(attempts), s, actions);
    NoLostUpdate(attempts, s, actions, 0);
    LiveBoxKeepsItsInsert(View(s.docs), s'.log, id);
    ViewHas(s'.docs, id);
  }

  lemma {:induction false} AbsentStays(m: Boxes, log: seq<Entry>, from: nat, id: Id)
    requires from <= |log| && id !in Replay(m, log[..from])
    requires forall i | from <= i < |log| && log[i].op.id == id :: !log[i].op.Insert?
    ensures id !in Replay(m, log)
    decreases |log|
  {
    if from == |log| {
      assert log[..from] == log;
    } else {
      var init := log[..|log| - 1];
      assert init[..from] == log[..from];
      AbsentStays(m, init, from, id);
    }
  }

  /** In every run, a box that is absent at some moment stays absent until an
      insert of it takes effect, whatever the calls then under way do. */
  lemma GoneUntilInserted(attempts: nat, s: State, xs: seq<Action>, ys: seq<Action>, id: Id)
    requires Initial(s)
    requires var mid, end := Execute(Budget(attempts), s, xs), Execute(Budget(attempts), s, xs + ys);
             && id !in mid.docs
             && forall i | |mid.log| <= i < |end.log| && end.log[i].op.id == id :: !end.log[i].op.Insert?
    ensures id !in Execute(Budget(attempts), s, xs + ys).docs
  {
    hide Execute, Replay, Ended;
    var budget := Budget(attempts);
    var mid, end := Execute(budget, s, xs), Execute(budget, s, xs + ys);
    ExecuteAppend(budget, s, xs, ys);
    ExecuteGrows(budget, mid, ys);
    NoLostUpdate(attempts, s, xs, 0);
    NoLostUpdate(attempts, s, xs + ys, 0);
    assert end.log[..|mid.log|] == mid.log;
    ViewHas(mid.docs, id);
    ViewHas(end.docs, id);
    AbsentStays(View(s.docs), end.log, |mid.log|, id);
  }
}
