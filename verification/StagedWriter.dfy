/** The staged workspace file writer: chunks go to a temporary file that one
    rename publishes, and every file-system call may fail. */
module StagedWriter {

  import opened Wrappers

  type Bytes = seq<bv8>

  const MAX_OFFSET: nat := 0xFFFF_FFFF_FFFF_FFFF

  datatype Reply = Ok(offset: nat) | InvalidTransfer | IoError

  /** How one file-system call ends. A failing write leaves some of its bytes
      behind; any other failing call has either no effect or its whole effect. */
  datatype Outcome = Works | Fails(written: nat, effect: bool)

  datatype Op = Write(offset: nat, bytes: Bytes) | Finish | Abort

  function Lookup(dir: map<string, Bytes>, name: string): Option<Bytes> {
    if name in dir then Some(dir[name]) else None
  }

  /** The outcome of the next call; calls work once the script is used up. */
  function First(faults: seq<Outcome>): Outcome { if faults == [] then Works else faults[0] }

  function Later(faults: seq<Outcome>): seq<Outcome> { if faults == [] then [] else faults[1..] }

  // ----- Histories

  predicate Acked(op: Op, reply: Reply) { op.Write? && reply.Ok? }

  predicate Aborted(op: Op, reply: Reply) { op.Abort? && reply.Ok? }

  /** The acknowledged chunks, one after another. */
  function Acknowledged(ops: seq<Op>, replies: seq<Reply>): Bytes
    requires |ops| == |replies|
  {
    if ops == [] then []
    else
      var n := |ops| - 1;
      Acknowledged(ops[..n], replies[..n]) + if Acked(ops[n], replies[n]) then ops[n].bytes else []
  }

  /** Acknowledged chunks are contiguous: each starts where the ones before it
      end, and its reply is where the next one starts. */
  ghost predicate Contiguous(ops: seq<Op>, replies: seq<Reply>)
    requires |ops| == |replies|
  {
    forall i | 0 <= i < |ops| && Acked(ops[i], replies[i]) ::
      ops[i].offset == |Acknowledged(ops[..i], replies[..i])|
      && replies[i].offset == ops[i].offset + |ops[i].bytes|
  }

  lemma AcknowledgedSnoc(ops: seq<Op>, replies: seq<Reply>, op: Op, reply: Reply)
    requires |ops| == |replies|
    ensures Acknowledged(ops + [op], replies + [reply]) ==
            Acknowledged(ops, replies) + if Acked(op, reply) then op.bytes else []
  {
    assert (ops + [op])[..|ops|] == ops && (replies + [reply])[..|ops|] == replies;
  }

  lemma ContiguousSnoc(ops: seq<Op>, replies: seq<Reply>, op: Op, reply: Reply)
    requires |ops| == |replies| && Contiguous(ops, replies)
    requires Acked(op, reply) ==> op.offset == |Acknowledged(ops, replies)| && reply.offset == op.offset + |op.bytes|
    ensures Contiguous(ops + [op], replies + [reply])
  {
    forall i | 0 <= i < |ops| + 1
      ensures (ops + [op])[..i] == ops[..i] && (replies + [reply])[..i] == replies[..i]
    {
    }
    assert ops[..|ops|] == ops && replies[..|ops|] == replies;
  }

  ghost predicate SplitAt(seen: seq<Option<Bytes>>, k: nat, before: Option<Bytes>, after: Option<Bytes>) {
    k <= |seen| && (forall i | 0 <= i < k :: seen[i] == before) && (forall i | k <= i < |seen| :: seen[i] == after)
  }

  /** The destination was `before` up to some call and `after` from then on. */
  ghost predicate ChangedAtMostOnce(seen: seq<Option<Bytes>>, before: Option<Bytes>, after: Option<Bytes>) {
    exists k :: SplitAt(seen, k, before, after)
  }

  lemma SeenSnoc(seen: seq<Option<Bytes>>, before: Option<Bytes>, after: Option<Bytes>)
    requires ChangedAtMostOnce(seen, before, after)
    ensures ChangedAtMostOnce(seen + [after], before, after)
  {
    var k: nat :| SplitAt(seen, k, before, after);
    assert SplitAt(seen + [after], k, before, after);
  }

  /** A writer's state, as far as its history decides it. */
  datatype State = State(acked: Bytes, published: bool, finished: bool, poisoned: bool)

  /** What one call may do to it. */
  ghost predicate Moves(s: State, t: State, op: Op, r: Reply) {
    && (s.published ==> t.published) && (s.finished ==> t.finished)
    && t.acked == (if Acked(op, r) then s.acked + op.bytes else s.acked)
    && (s.published || s.finished ==> !Acked(op, r) && t.published == s.published)
    && (t.published && !s.published ==> op.Finish?)
    && (Acked(op, r) ==> op.offset == |s.acked| && r.offset == op.offset + |op.bytes|)
    && (Aborted(op, r) ==> t.finished && t.published == s.published)
    && (op.Finish? && r.Ok? ==> t.finished && r.offset == |t.acked| && (t.published || s.finished))
    && (t.finished && !s.finished ==> r.Ok? && if op.Finish? then t.published else op.Abort?)
  }

  predicate NoFinish(ops: seq<Op>, n: nat)
    requires n <= |ops|
  {
    forall k | 0 <= k < n :: !ops[k].Finish?
  }

  predicate NoAbort(ops: seq<Op>, replies: seq<Reply>, n: nat)
    requires n <= |ops| == |replies|
  {
    forall k | 0 <= k < n :: !Aborted(ops[k], replies[k])
  }

  function Shown(s: State, before: Option<Bytes>): Option<Bytes> { if s.published then Some(s.acked) else before }

  /** A finish that succeeds without an earlier successful abort has published
      every acknowledged byte. */
  ghost predicate FinishesPublish(ops: seq<Op>, replies: seq<Reply>, seen: seq<Option<Bytes>>, acked: Bytes)
    requires |ops| == |replies| == |seen|
  {
    forall i | 0 <= i < |ops| && ops[i].Finish? && replies[i].Ok? ::
      replies[i].offset == |acked| && (NoAbort(ops, replies, i) ==> seen[i] == Some(acked))
  }

  /** A successful abort that no finish came before. */
  ghost predicate AbortedFirst(ops: seq<Op>, replies: seq<Reply>)
    requires |ops| == |replies|
  {
    exists i | 0 <= i < |ops| :: Aborted(ops[i], replies[i]) && NoFinish(ops, i)
  }

  /** The destination just before call `i`. */
  function SeenBefore(seen: seq<Option<Bytes>>, i: nat, before: Option<Bytes>): Option<Bytes>
    requires i <= |seen|
  {
    if i == 0 then before else seen[i - 1]
  }

  /** A successful abort freezes the destination as it was before the abort. */
  ghost predicate AbortsFreeze(ops: seq<Op>, replies: seq<Reply>, seen: seq<Option<Bytes>>, before: Option<Bytes>)
    requires |ops| == |replies| == |seen|
  {
    forall i, j | 0 <= i <= j < |ops| && Aborted(ops[i], replies[i]) :: seen[j] == SeenBefore(seen, i, before)
  }

  ghost predicate Story(ops: seq<Op>, replies: seq<Reply>, seen: seq<Option<Bytes>>, s: State, before: Option<Bytes>) {
    && |ops| == |replies| == |seen|
    && s.acked == Acknowledged(ops, replies) && Contiguous(ops, replies)
    && (!s.published ==> forall i | 0 <= i < |seen| :: seen[i] == before)
    && (s.published ==> ChangedAtMostOnce(seen, before, Some(s.acked)))
    && SeenBefore(seen, |seen|, before) == Shown(s, before)
    && FinishesPublish(ops, replies, seen, s.acked)
    && AbortsFreeze(ops, replies, seen, before)
    && (AbortedFirst(ops, replies) ==> s.finished && !s.published)
    && (!NoAbort(ops, replies, |ops|) ==> s.finished)
    && (s.published ==> !NoFinish(ops, |ops|))
    && (s.finished && !s.published ==> !NoAbort(ops, replies, |ops|))
    && ((exists i | 0 <= i < |ops| :: ops[i].Finish? && replies[i].Ok?) ==> s.finished)
  }

  lemma SeenStep(seen: seq<Option<Bytes>>, s: State, t: State, op: Op, r: Reply, before: Option<Bytes>)
    requires Moves(s, t, op, r)
    requires !s.published ==> forall i | 0 <= i < |seen| :: seen[i] == before
    requires s.published ==> ChangedAtMostOnce(seen, before, Some(s.acked))
    ensures var more := seen + [Shown(t, before)];
            && (!t.published ==> forall i | 0 <= i < |more| :: more[i] == before)
            && (t.published ==> ChangedAtMostOnce(more, before, Some(t.acked)))
  {
    if s.published {
      SeenSnoc(seen, before, Some(s.acked));
    } else if t.published {
      assert SplitAt(seen, |seen|, before, Some(t.acked));
      SeenSnoc(seen, before, Some(t.acked));
    }
  }

  lemma FinishStep(ops: seq<Op>, replies: seq<Reply>, seen: seq<Option<Bytes>>, s: State, t: State, op: Op, r: Reply, before: Option<Bytes>)
    requires Story(ops, replies, seen, s, before) && Moves(s, t, op, r)
    ensures FinishesPublish(ops + [op], replies + [r], seen + [Shown(t, before)], t.acked)
  {
    hide Acknowledged, Contiguous, ChangedAtMostOnce, AbortedFirst, NoFinish;
    var more, answers, shown := ops + [op], replies + [r], seen + [Shown(t, before)];
    forall i | 0 <= i < |more| && more[i].Finish? && answers[i].Ok?
      ensures answers[i].offset == |t.acked| && (NoAbort(more, answers, i) ==> shown[i] == Some(t.acked))
    {
      assert NoAbort(more, answers, i) <==> NoAbort(ops, replies, i) by {
        assert forall k | 0 <= k < i :: more[k] == ops[k] && answers[k] == replies[k];
      }
    }
  }

  lemma AbortStep(ops: seq<Op>, replies: seq<Reply>, seen: seq<Option<Bytes>>, s: State, t: State, op: Op, r: Reply, before: Option<Bytes>)
    requires Story(ops, replies, seen, s, before) && Moves(s, t, op, r)
    requires AbortedFirst(ops + [op], replies + [r])
    ensures t.finished && !t.published
  {
    hide Acknowledged, Contiguous, ChangedAtMostOnce, FinishesPublish;
    var more, answers := ops + [op], replies + [r];
    var i :| 0 <= i < |more| && Aborted(more[i], answers[i]) && NoFinish(more, i);
    assert NoFinish(ops, i) by {
      assert forall k | 0 <= k < i :: more[k] == ops[k];
    }
  }

  lemma FreezeStep(ops: seq<Op>, replies: seq<Reply>, seen: seq<Option<Bytes>>, s: State, t: State, op: Op, r: Reply, before: Option<Bytes>)
    requires Story(ops, replies, seen, s, before) && Moves(s, t, op, r)
    ensures AbortsFreeze(ops + [op], replies + [r], seen + [Shown(t, before)], before)
  {
    hide Acknowledged, Contiguous, ChangedAtMostOnce, FinishesPublish, AbortedFirst, NoFinish;
    var n, more, answers, shown := |ops|, ops + [op], replies + [r], seen + [Shown(t, before)];
    forall i, j | 0 <= i <= j < |more| && Aborted(more[i], answers[i])
      ensures shown[j] == SeenBefore(shown, i, before)
    {
      assert SeenBefore(shown, i, before) == SeenBefore(seen, i, before);
      if j == n {
        if i < n {
          assert Aborted(ops[i], replies[i]);
          assert seen[n - 1] == SeenBefore(seen, i, before);
        }
        assert Shown(t, before) == Shown(s, before);
      } else {
        assert Aborted(ops[i], replies[i]) && shown[j] == seen[j];
      }
    }
  }

  lemma MarkersStep(ops: seq<Op>, replies: seq<Reply>, seen: seq<Option<Bytes>>, s: State, t: State, op: Op, r: Reply, before: Option<Bytes>)
    requires Story(ops, replies, seen, s, before) && Moves(s, t, op, r)
    ensures t.published ==> !NoFinish(ops + [op], |ops| + 1)
    ensures t.finished && !t.published ==> !NoAbort(ops + [op], replies + [r], |ops| + 1)
    ensures !NoAbort(ops + [op], replies + [r], |ops| + 1) ==> t.finished
  {
    hide Acknowledged, Contiguous, ChangedAtMostOnce, FinishesPublish, AbortedFirst;
    var more, answers := ops + [op], replies + [r];
    assert more[|ops|] == op && answers[|ops|] == r;
    if s.published {
      var k :| 0 <= k < |ops| && ops[k].Finish?;
      assert more[k].Finish?;
    }
    if k :| 0 <= k <= |ops| && Aborted(more[k], answers[k]) {
      assert k < |ops| ==> Aborted(ops[k], replies[k]);
    }
    if s.finished && !s.published {
      var k :| 0 <= k < |ops| && Aborted(ops[k], replies[k]);
      assert Aborted(more[k], answers[k]);
    }
  }

  lemma StoryStep(ops: seq<Op>, replies: seq<Reply>, seen: seq<Option<Bytes>>, s: State, t: State, op: Op, r: Reply, before: Option<Bytes>)
    requires Story(ops, replies, seen, s, before) && Moves(s, t, op, r)
    ensures Story(ops + [op], replies + [r], seen + [Shown(t, before)], t, before)
  {
    hide Acknowledged, Contiguous, ChangedAtMostOnce, FinishesPublish, AbortedFirst, AbortsFreeze, NoFinish, NoAbort;
    AcknowledgedSnoc(ops, replies, op, r);
    ContiguousSnoc(ops, replies, op, r);
    SeenStep(seen, s, t, op, r, before);
    FinishStep(ops, replies, seen, s, t, op, r, before);
    FreezeStep(ops, replies, seen, s, t, op, r, before);
    MarkersStep(ops, replies, seen, s, t, op, r, before);
    if AbortedFirst(ops + [op], replies + [r]) { AbortStep(ops, replies, seen, s, t, op, r, before); }
    assert forall i | 0 <= i < |ops| :: (ops + [op])[i] == ops[i] && (replies + [r])[i] == replies[i];
  }

  lemma StoryBegins(before: Option<Bytes>)
    ensures Story([], [], [], State([], false, false, false), before)
  {
  }

  class LocalFileWriter {
    const temporary: string
    const destination: string
    var dir: map<string, Bytes>
    var file: bool
    var nextOffset: nat
    var finished: bool
    var poisoned: bool
    var faults: seq<Outcome>

    /** The directory when the writer was opened. */
    ghost const base: map<string, Bytes>
    ghost var acked: Bytes
    ghost var published: bool

    ghost predicate Valid()
      reads this
    {
      && temporary != destination
      && nextOffset == |acked| <= MAX_OFFSET
      && (forall n | n != temporary && n != destination :: Lookup(dir, n) == Lookup(base, n))
      && Lookup(dir, destination) == (if published then Some(acked) else Lookup(base, destination))
      && (published ==> temporary !in dir && !poisoned && !file)
      && (file ==> temporary in dir && !finished)
      && (!poisoned && temporary in dir ==> dir[temporary] == acked)
      && (finished ==> temporary !in dir)
    }

    constructor (root: map<string, Bytes>, temporary: string, destination: string, faults: seq<Outcome>)
      requires temporary != destination && temporary !in root
      ensures Valid() && this.temporary == temporary && this.destination == destination && base == root
      ensures this.faults == faults && dir == root[temporary := []]
      ensures acked == [] && !published && !poisoned && !finished && file
    {
      this.temporary, this.destination, this.faults := temporary, destination, faults;
      dir := root[temporary := []];
      file, nextOffset, finished, poisoned := true, 0, false, false;
      base, acked, published := root, [], false;
    }

    method Draw() returns (o: Outcome)
      modifies this`faults
      ensures o == First(old(faults)) && faults == Later(old(faults))
    {
      if faults == [] { return Works; }
      o := faults[0];
      faults := faults[1..];
    }

    method WriteAll(bytes: Bytes) returns (ok: bool)
      requires Valid() && file && temporary in dir
      modifies this`dir, this`faults
      ensures ok == First(old(faults)).Works? && faults == Later(old(faults))
      ensures dir.Keys == old(dir.Keys) && dir == old(dir)[temporary := dir[temporary]]
      ensures ok ==> dir[temporary] == old(dir[temporary]) + bytes
    {
      var o := Draw();
      ok := o.Works?;
      var n := if o.Works? || o.written > |bytes| then |bytes| else o.written;
      dir := dir[temporary := dir[temporary] + bytes[..n]];
    }

    /** Renames the temporary file over the destination. */
    method Publish() returns (ok: bool)
      requires Valid() && !finished && !poisoned && !file
      modifies this`dir, this`faults, this`published
      ensures Valid() && (old(published) ==> published && !ok)
      ensures ok ==> published
      ensures ok <==> old(temporary in dir) && First(old(faults)).Works?
    {
      var o := Draw();
      if temporary !in dir { return false; }
      if o.Works? || o.effect {
        dir := dir[destination := dir[temporary]] - {temporary};
        published := true;
      }
      ok := o.Works?;
    }

    /** Removes the temporary file; `gone` also when there is none. */
    method RemoveStaged() returns (gone: bool)
      requires Valid() && !file
      modifies this`dir, this`faults
      ensures Valid() && (gone ==> temporary !in dir)
      ensures faults == Later(old(faults)) && (First(old(faults)).Works? ==> gone)
      ensures old(temporary in dir) ==> (gone <==> First(old(faults)).Works?)
      ensures First(old(faults)).Fails? && !First(old(faults)).effect ==> dir == old(dir)
    {
      var o := Draw();
      if temporary !in dir { return o.Works? || o.effect; }
      if o.Works? || o.effect { dir := dir - {temporary}; }
      gone := o.Works?;
    }

    method WriteChunk(offset: nat, bytes: Bytes) returns (r: Reply)
      requires Valid()
      modifies this`dir, this`faults, this`nextOffset, this`poisoned, this`acked
      ensures Valid() && (old(poisoned) ==> poisoned)
      ensures r.Ok? ==> !old(poisoned) && !finished && file && !published && offset == |old(acked)| && bytes != []
                        && r.offset == offset + |bytes|
      ensures acked == if r.Ok? then old(acked) + bytes else old(acked)
      ensures poisoned != old(poisoned) ==> r.IoError?
      ensures r.InvalidTransfer? <==> old(poisoned) || finished || offset != old(nextOffset) || bytes == []
      ensures !r.InvalidTransfer? ==> (r.Ok? <==> offset + |bytes| <= MAX_OFFSET && file && First(old(faults)).Works?)
      ensures r.Ok? ==> faults == Later(old(faults))
    {
      if poisoned || finished || offset != nextOffset || bytes == [] { return InvalidTransfer; }
      if offset + |bytes| > MAX_OFFSET { return IoError; }
      if !file { return IoError; }
      var ok := WriteAll(bytes);
      if !ok {
        poisoned := true;
        return IoError;
      }
      nextOffset := offset + |bytes|;
      acked := acked + bytes;
      return Ok(nextOffset);
    }

    /** Flushes, syncs, closes and renames. */
    method FinishTransfer() returns (r: Reply)
      requires Valid()
      modifies this`dir, this`faults, this`file, this`finished, this`published
      ensures Valid() && (old(published) ==> published) && (old(finished) ==> finished)
      ensures old(finished) ==> r == Ok(nextOffset) && published == old(published) && dir == old(dir)
      ensures !old(finished) && poisoned ==> r.InvalidTransfer? && published == old(published) && dir == old(dir)
      ensures !old(finished) && r.Ok? ==> published && r.offset == |acked|
      // A failing flush or sync keeps the file open and publishes nothing.
      ensures && !old(finished) && !poisoned && old(file)
              && (First(old(faults)).Fails? || First(Later(old(faults))).Fails?) ==>
                r.IoError? && file && published == old(published) && dir == old(dir)
      // Otherwise the rename decides.
      ensures && !old(finished) && !poisoned && old(file) && old(temporary in dir)
              && First(old(faults)).Works? && First(Later(old(faults))).Works? ==>
                (r.Ok? <==> First(Later(Later(old(faults)))).Works?) && !file
      ensures finished <==> r.Ok?
      ensures !old(finished) && !poisoned && old(temporary in dir) && (old(faults) == [] || (!old(file) && First(old(faults)).Works?)) ==> r.Ok?
    {
      if finished { return Ok(nextOffset); }
      if poisoned { return InvalidTransfer; }
      if file {
        var flushed := Draw();
        if !flushed.Works? { return IoError; }
        var synced := Draw();
        if !synced.Works? { return IoError; }
      }
      file := false;
      var ok := Publish();
      if !ok { return IoError; }
      finished := true;
      return Ok(nextOffset);
    }

    method AbortTransfer() returns (r: Reply)
      requires Valid()
      modifies this`dir, this`faults, this`file, this`finished
      ensures Valid() && (old(finished) ==> finished)
      ensures (r.Ok? <==> finished) && !r.InvalidTransfer?
      ensures !old(finished) && old(temporary in dir) ==> (r.Ok? <==> First(old(faults)).Works?)
      ensures !old(finished) ==> !file && faults == Later(old(faults))
      ensures First(old(faults)).Fails? && !First(old(faults)).effect ==> dir == old(dir)
      ensures Lookup(dir, destination) == old(Lookup(dir, destination))
    {
      if finished { return Ok(nextOffset); }
      file := false;
      var gone := RemoveStaged();
      if !gone { return IoError; }
      finished := true;
      return Ok(nextOffset);
    }

    /** What dropping the writer does; nothing is reported. */
    method Drop()
      requires Valid()
      modifies this`dir, this`faults, this`file
      ensures Valid() && Lookup(dir, destination) == old(Lookup(dir, destination))
      ensures old(faults) == [] ==> temporary !in dir
    {
      if finished { return; }
      file := false;
      var gone := RemoveStaged();
    }

    ghost function Now(): State
      reads this
    {
      State(acked, published, finished, poisoned)
    }

    method Perform(op: Op) returns (r: Reply)
      requires Valid()
      modifies this
      ensures Valid() && Moves(old(Now()), Now(), op, r)
    {
      match op
      case Write(offset, bytes) => r := WriteChunk(offset, bytes);
      case Finish => r := FinishTransfer();
      case Abort => r := AbortTransfer();
    }

    /** Any sequence of calls with any failures, then the drop. */
    method Session(ops: seq<Op>) returns (replies: seq<Reply>, ghost seen: seq<Option<Bytes>>)
      requires Valid() && acked == [] && !published && !poisoned && !finished
      modifies this
      ensures Valid() && |replies| == |seen| == |ops|
      ensures Contiguous(ops, replies)
      // The destination changes at most once, and only to all acknowledged bytes.
      ensures ChangedAtMostOnce(seen, Lookup(base, destination), Some(Acknowledged(ops, replies)))
      ensures Lookup(dir, destination) == if ops == [] then Lookup(base, destination) else seen[|ops| - 1]
      ensures poisoned ==> Lookup(dir, destination) == Lookup(base, destination)
      ensures FinishesPublish(ops, replies, seen, Acknowledged(ops, replies))
      // A successful abort freezes it for good; without an earlier finish, as it was.
      ensures AbortsFreeze(ops, replies, seen, Lookup(base, destination))
      ensures AbortedFirst(ops, replies) ==> Lookup(dir, destination) == Lookup(base, destination)
      ensures forall n | n != temporary && n != destination :: Lookup(dir, n) == Lookup(base, n)
    {
      hide Story, Moves, Contiguous, Acknowledged;
      replies, seen := [], [];
      ghost var before := Lookup(base, destination);
      StoryBegins(before);
      assert ops[..0] == [];
      for n := 0 to |ops|
        invariant Valid() && |replies| == |seen| == n
        invariant Story(ops[..n], replies, seen, Now(), before)
      {
        ghost var was := Now();
        var r := Perform(ops[n]);
        StoryStep(ops[..n], replies, seen, was, Now(), ops[n], r, before);
        replies := replies + [r];
        seen := seen + [Shown(Now(), before)];
        assert ops[..n] + [ops[n]] == ops[..n + 1];
      }
      assert ops[..|ops|] == ops;
      StoryTold(ops, replies, seen, Now(), before);
      Drop();
    }
  }

  lemma StoryTold(ops: seq<Op>, replies: seq<Reply>, seen: seq<Option<Bytes>>, s: State, before: Option<Bytes>)
    requires Story(ops, replies, seen, s, before)
    ensures |ops| == |replies| == |seen| && Contiguous(ops, replies) && s.acked == Acknowledged(ops, replies)
    ensures ChangedAtMostOnce(seen, before, Some(s.acked))
    ensures Shown(s, before) == if ops == [] then before else seen[|ops| - 1]
    ensures FinishesPublish(ops, replies, seen, s.acked)
    ensures AbortsFreeze(ops, replies, seen, before)
    ensures AbortedFirst(ops, replies) ==> !s.published
  {
    if !s.published {
      assert SplitAt(seen, |seen|, before, Some(s.acked));
    }
  }

  /** An abort that fails leaves a writer that can still publish: the chunks
      acknowledged before it are what a later finish puts in place. */
  method FinishAfterFailedAbort(root: map<string, Bytes>, temporary: string, destination: string, bytes: Bytes)
    returns (writer: LocalFileWriter, written: Reply, aborted: Reply, done: Reply)
    requires temporary != destination && temporary !in root && 0 < |bytes| <= MAX_OFFSET
    ensures written == Ok(|bytes|) && aborted == IoError && done == Ok(|bytes|)
    ensures Lookup(writer.dir, destination) == Some(bytes)
  {
    writer := new LocalFileWriter(root, temporary, destination, [Works, Fails(0, false)]);
    written := writer.WriteChunk(0, bytes);
    assert writer.acked == bytes;
    aborted := writer.AbortTransfer();
    done := writer.FinishTransfer();
  }
}
