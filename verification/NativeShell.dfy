/** Supervision of one native shell: a client that polls replayable output,
    cancels on timeout or request, and cleans up on every path. */
module NativeShell {

  import opened Wrappers

  datatype Stream = Stdout | Stderr

  datatype Chunk = Chunk(sequence: nat, stream: Stream, bytes: seq<int>)

  datatype Failure = TimedOut | StartFailed | OutputLimit | OutputFailed | CleanupFailed | BackendFailed

  datatype ExecutionState = Running | Exited(code: int) | Cancelled | Failed(failure: Failure)

  datatype Batch = Batch(chunks: seq<Chunk>, next: nat, state: ExecutionState)

  datatype Call = ReserveResource | Create | ReserveProcess | StartShell | Read | Cancel | Release | Close

  /** How an awaited call turns out. A read may also lose the race against the
      caller's cancellation or the timer. */
  datatype Event = Acknowledged | Refused | Arrived(batch: Batch) | CallerCancels | TimerFires

  /** One call that was made and what came of it. */
  datatype Entry = Entry(call: Call, event: Event)

  datatype Output = Output(exitCode: int, stdout: seq<int>, stderr: seq<int>, timedOut: bool)

  datatype ShellError =
    | Transport(operation: Call)
    | Execution(failure: Failure)
    | InvalidOutputCursor
    | Cancellation
    | OutputRelease
    | ResourceClose
    | Cleanup(operation: Call, during: ShellError)

  datatype Outcome =
    | Finished(output: Output)
    | StillRunning(cursor: nat, stdout: seq<int>, stderr: seq<int>)
    | Error(error: ShellError)

  // ----- What a trace of calls must satisfy

  ghost predicate Made(t: seq<Entry>, call: Call) { exists e | e in t :: e.call == call }

  /** The process is known to have stopped: a cancellation succeeded, or a read
      reported a terminal state. */
  predicate Stops(e: Entry) {
    || (e.call == Cancel && e.event == Acknowledged)
    || (e.call == Read && e.event.Arrived? && e.event.batch.state != Running)
  }

  /** Output is released at most once, only after the process has stopped, and
      nothing is read or cancelled afterwards. */
  ghost predicate ReleaseDiscipline(t: seq<Entry>) {
    && (forall i, j | 0 <= i < j < |t| && t[i].call == Release :: t[j].call != Release && t[j].call != Read && t[j].call != Cancel)
    && (forall i | 0 <= i < |t| && t[i].call == Release :: exists j | 0 <= j < i :: Stops(t[j]))
  }

  ghost predicate ClosedOnceAndLast(t: seq<Entry>) {
    t != [] && t[|t| - 1].call == Close && forall i | 0 <= i < |t| - 1 :: t[i].call != Close
  }

  lemma TraceGrows(t: seq<Entry>, e: Entry)
    requires ReleaseDiscipline(t)
    requires Made(t, Release) ==> e.call != Release && e.call != Read && e.call != Cancel
    requires e.call == Release ==> exists j | 0 <= j < |t| :: Stops(t[j])
    ensures ReleaseDiscipline(t + [e])
    ensures forall c: Call :: Made(t + [e], c) <==> Made(t, c) || c == e.call
  {
    var t' := t + [e];
    assert t'[|t|] == e;
    forall i, j | 0 <= i < j < |t'| && t'[i].call == Release
      ensures t'[j].call != Release && t'[j].call != Read && t'[j].call != Cancel
    {
      if j == |t| { assert t[i] in t && Made(t, Release); }
    }
    forall i | 0 <= i < |t'| && t'[i].call == Release ensures exists j | 0 <= j < i :: Stops(t'[j]) {
      var j :| 0 <= j < i && Stops(t[j]);
      assert t'[j] == t[j];
    }
    forall c: Call ensures Made(t', c) <==> Made(t, c) || c == e.call {
      if Made(t, c) {
        var x :| x in t && x.call == c;
        assert x in t';
      }
      if c == e.call { assert e in t'; }
    }
  }

  lemma NotMade(t: seq<Entry>, call: Call)
    requires !Made(t, call)
    ensures forall i | 0 <= i < |t| :: t[i].call != call
  {
    forall i | 0 <= i < |t| ensures t[i].call != call { assert t[i] in t; }
  }

  // ----- What the observer sees

  function Bytes(chunks: seq<Chunk>, s: Stream): seq<int> {
    if chunks == [] then []
    else Bytes(chunks[..|chunks| - 1], s) + (if chunks[|chunks| - 1].stream == s then chunks[|chunks| - 1].bytes else [])
  }

  lemma {:induction false} BytesAppend(a: seq<Chunk>, b: seq<Chunk>, s: Stream)
    ensures Bytes(a + b, s) == Bytes(a, s) + Bytes(b, s)
    decreases |b|
  {
    if b == [] {
      assert a + b == a;
    } else {
      var init, last := b[..|b| - 1], b[|b| - 1];
      BytesAppend(a, init, s);
      assert (a + b)[..|a + b| - 1] == a + init;
      assert (a + b)[|a + b| - 1] == last;
      var tail := if last.stream == s then last.bytes else [];
      assert (Bytes(a, s) + Bytes(init, s)) + tail == Bytes(a, s) + (Bytes(init, s) + tail);
    }
  }

  /** A yielded result followed by the log from its cursor gives the same bytes
      as the whole log. */
  lemma ResumeFromCursor(log: seq<Chunk>, cursor: nat, s: Stream)
    requires cursor <= |log|
    ensures Bytes(log[..cursor], s) + Bytes(log[cursor..], s) == Bytes(log, s)
  {
    BytesAppend(log[..cursor], log[cursor..], s);
    assert log[..cursor] + log[cursor..] == log;
  }

  /** Chunks numbered from zero without gap or replay. */
  ghost predicate Numbered(chunks: seq<Chunk>) { forall i | 0 <= i < |chunks| :: chunks[i].sequence == i }

  /** Everything the module delivers comes from `log`, in whatever batches, and
      an empty read of a stopped process means the log is exhausted. */
  ghost predicate Honest(log: seq<Chunk>, e: Event) {
    e.Arrived? ==>
      && (forall c | c in e.batch.chunks :: c.sequence < |log| && log[c.sequence] == c)
      && (e.batch.chunks == [] && e.batch.state != Running ==> e.batch.next >= |log|)
  }

  // ----- Why a run ends as it does

  /** The event of the last read. */
  function LastRead(t: seq<Entry>): Event {
    if t == [] then Refused
    else if t[|t| - 1].call == Read then t[|t| - 1].event
    else LastRead(t[..|t| - 1])
  }

  ghost predicate RefusedIn(t: seq<Entry>, call: Call) { exists e | e in t :: e.call == call && e.event != Acknowledged }

  /** The batch goes on exactly where the capture stands. */
  ghost predicate Continues(b: Batch, cursor: nat) {
    b.next == cursor + |b.chunks| && forall i | 0 <= i < |b.chunks| :: b.chunks[i].sequence == cursor + i
  }

  /** The trace holds the reason for exactly this error; `seen` chunks were
      observed. */
  ghost predicate Caused(error: ShellError, t: seq<Entry>, seen: nat)
    decreases error
  {
    match error
    case Transport(op) =>
      if op == Read then !LastRead(t).Arrived? && !LastRead(t).CallerCancels? && !LastRead(t).TimerFires? else RefusedIn(t, op)
    case Execution(failure) =>
      LastRead(t).Arrived? && LastRead(t).batch.chunks == [] && LastRead(t).batch.state == Failed(failure) && failure != TimedOut
    case InvalidOutputCursor => LastRead(t).Arrived? && !Continues(LastRead(t).batch, seen)
    case Cancellation => RefusedIn(t, Cancel)
    case OutputRelease => RefusedIn(t, Release)
    case ResourceClose => RefusedIn(t, Close)
    case Cleanup(op, during) => RefusedIn(t, op) && Caused(during, t, seen)
  }

  /** A further call that is not a read keeps the reason. */
  lemma {:induction false} CauseStays(error: ShellError, t: seq<Entry>, e: Entry, seen: nat)
    requires e.call != Read
    ensures Caused(error, t, seen) ==> Caused(error, t + [e], seen)
    ensures LastRead(t + [e]) == LastRead(t)
    ensures e.event != Acknowledged ==> RefusedIn(t + [e], e.call)
    decreases error
  {
    assert (t + [e])[..|t|] == t && e in t + [e];
    assert forall x | x in t :: x in t + [e];
    if error.Cleanup? { CauseStays(error.during, t, e, seen); }
  }

  lemma ReadIsLast(t: seq<Entry>, event: Event)
    ensures LastRead(t + [Entry(Read, event)]) == event
  {
  }

  /** How many running batches arrived before anyone asked to cancel; the yield
      point is looked at after each. */
  ghost function Checks(t: seq<Entry>): nat {
    if t == [] then 0
    else
      var e, before := t[|t| - 1], t[..|t| - 1];
      Checks(before) +
      if e.call == Read && e.event.Arrived? && e.event.batch.state == Running && !Made(before, Cancel) then 1 else 0
  }

  lemma ChecksGrow(t: seq<Entry>, e: Entry)
    ensures Checks(t + [e]) == Checks(t) +
              if e.call == Read && e.event.Arrived? && e.event.batch.state == Running && !Made(t, Cancel) then 1 else 0
  {
    assert (t + [e])[..|t|] == t;
  }

  /** The run stops at the first passed yield point and at no other. */
  ghost predicate YieldsAt(clock: seq<bool>, t: seq<Entry>, yielded: bool) {
    && (forall i | 0 <= i < |clock| && i < Checks(t) - (if yielded then 1 else 0) :: !clock[i])
    && (yielded ==> 0 < Checks(t) <= |clock| && clock[Checks(t) - 1])
  }

  /** After `n` looks at the clock, none of which said the point had passed. */
  ghost predicate Looked(clock: seq<bool>, rest: seq<bool>, n: nat) {
    && (forall i | 0 <= i < |clock| && i < n :: !clock[i])
    && rest == if n <= |clock| then clock[n..] else []
  }

  lemma LookedNone(clock: seq<bool>)
    ensures Looked(clock, clock, 0)
  {
  }

  lemma LookedOnce(clock: seq<bool>, rest: seq<bool>, n: nat, elapsed: bool)
    requires Looked(clock, rest, n) && elapsed == (rest != [] && rest[0])
    ensures !elapsed ==> Looked(clock, if rest == [] then [] else rest[1..], n + 1)
  {
    if rest != [] { assert rest[0] == clock[n] && rest[1..] == clock[n + 1..]; }
  }

  lemma LookedIsYield(clock: seq<bool>, rest: seq<bool>, t: seq<Entry>)
    requires Looked(clock, rest, Checks(t))
    ensures YieldsAt(clock, t, false)
  {
  }

  lemma LookedYields(clock: seq<bool>, rest: seq<bool>, t: seq<Entry>)
    requires Checks(t) > 0 && Looked(clock, rest, Checks(t) - 1) && rest != [] && rest[0]
    ensures YieldsAt(clock, t, true)
  {
  }

  lemma YieldsStay(clock: seq<bool>, t: seq<Entry>, t': seq<Entry>)
    requires Checks(t') == Checks(t)
    ensures YieldsAt(clock, t', false) <==> YieldsAt(clock, t, false)
  {
  }

  predicate AboutCursor(error: ShellError) {
    error == InvalidOutputCursor || (error.Cleanup? && AboutCursor(error.during))
  }

  /** An interrupted read is followed by a cancellation. */
  ghost predicate InterruptsCancel(t: seq<Entry>) {
    forall i | 0 <= i < |t| && t[i].call == Read && (t[i].event.CallerCancels? || t[i].event.TimerFires?) ::
      i + 1 < |t| && t[i + 1].call == Cancel
  }

  lemma InterruptsGrow(t: seq<Entry>, e: Entry)
    requires InterruptsCancel(t) && (e.call == Read ==> !e.event.CallerCancels? && !e.event.TimerFires?)
    ensures InterruptsCancel(t + [e])
  {
    forall i | 0 <= i < |t| + 1 && (t + [e])[i].call == Read && ((t + [e])[i].event.CallerCancels? || (t + [e])[i].event.TimerFires?)
      ensures i + 1 < |t| + 1 && (t + [e])[i + 1].call == Cancel
    {
      assert i < |t| ==> (t + [e])[i] == t[i];
    }
  }

  lemma InterruptsAnswered(t: seq<Entry>, e: Entry, c: Entry)
    requires InterruptsCancel(t) && c.call == Cancel
    ensures InterruptsCancel(t + [e] + [c])
  {
    var all := t + [e] + [c];
    forall i | 0 <= i < |all| && all[i].call == Read && (all[i].event.CallerCancels? || all[i].event.TimerFires?)
      ensures i + 1 < |all| && all[i + 1].call == Cancel
    {
      if i < |t| { assert all[i] == t[i] && all[i + 1] == t[i + 1]; }
    }
  }

  const OPENING := [
    Entry(ReserveResource, Acknowledged), Entry(Create, Acknowledged), Entry(ReserveProcess, Acknowledged), Entry(StartShell, Acknowledged)]

  /** Nothing is read before the process was started. */
  ghost predicate Opened(t: seq<Entry>) { forall i | 0 <= i < |t| && t[i].call == Read :: i >= 4 && OPENING <= t }

  datatype Poll = Delivered(batch: Batch) | Interrupted(timedOut: bool) | Broken(error: ShellError)

  ghost predicate TimerFired(t: seq<Entry>) { Entry(Read, TimerFires) in t }

  lemma TimerStays(t: seq<Entry>, t': seq<Entry>)
    requires exists e :: t' == t + [e] && e.call != Read
    ensures TimerFired(t') <==> TimerFired(t)
  {}

  lemma TimerSeen(t: seq<Entry>, e: Entry)
    ensures TimerFired(t + [e]) <==> TimerFired(t) || e == Entry(Read, TimerFires)
  {}

  /** The run ended on an empty read of a stopped process, which also fixes the
      exit code and the timeout flag. */
  ghost predicate ConcludedBy(t: seq<Entry>, b: Batch, output: Output) {
    && LastRead(t) == Arrived(b)
    && b.chunks == [] && b.state != Running && (b.state.Failed? ==> b.state.failure == TimedOut)
    && output.exitCode == (if b.state.Exited? then b.state.code else -1)
    && output.timedOut == (TimerFired(t) || b.state == Failed(TimedOut))
  }

  lemma Concludes(before: seq<Entry>, t: seq<Entry>, b: Batch, e: Entry, output: Output)
    requires t == before + [Entry(Read, Arrived(b))] + [e] && e.call != Read
    requires b.chunks == [] && b.state != Running && (b.state.Failed? ==> b.state.failure == TimedOut)
    requires output.exitCode == (if b.state.Exited? then b.state.code else -1)
    requires output.timedOut == (TimerFired(before) || b.state.Failed?)
    ensures ConcludedBy(t, b, output)
  {
    ReadIsLast(before, Arrived(b));
    CauseStays(OutputRelease, before + [Entry(Read, Arrived(b))], e, 0);
  }

  lemma ConclusionStays(t: seq<Entry>, e: Entry, b: Batch, output: Output)
    requires ConcludedBy(t, b, output) && e.call != Read
    ensures ConcludedBy(t + [e], b, output)
  {
    CauseStays(OutputRelease, t, e, 0);
  }

  lemma PrefixGrows(log: seq<Chunk>, seen: seq<Chunk>, b: Batch)
    requires Honest(log, Arrived(b)) && Numbered(log) && seen <= log
    requires Continues(b, |seen|)
    ensures seen + b.chunks <= log
    ensures b.chunks == [] && b.state != Running ==> seen + b.chunks == log
  {
    forall i | 0 <= i < |b.chunks| ensures |seen| + i < |log| && log[|seen| + i] == b.chunks[i] {
      assert b.chunks[i] in b.chunks;
    }
    if b.chunks != [] { assert b.chunks[|b.chunks| - 1] in b.chunks; }
  }

  class Supervisor {
    /** What the environment will do, in order; once exhausted every call fails. */
    var script: seq<Event>
    /** Whether the yield point has passed, each time it is checked. */
    var clock: seq<bool>
    ghost var trace: seq<Entry>

    // NativeShellCapture
    var cursor: nat
    var stdout: seq<int>
    var stderr: seq<int>
    ghost var observed: seq<Chunk>

    constructor (script: seq<Event>, clock: seq<bool>)
      ensures this.script == script && this.clock == clock
      ensures trace == [] && CaptureOk() && observed == []
    {
      this.script, this.clock, trace := script, clock, [];
      cursor, stdout, stderr, observed := 0, [], [], [];
    }

    /** The observer saw chunks 0..cursor once each, in order, and the capture is
        their per-stream concatenation. */
    ghost predicate CaptureOk()
      reads this
    {
      && |observed| == cursor && Numbered(observed)
      && stdout == Bytes(observed, Stdout) && stderr == Bytes(observed, Stderr)
    }

    method Draw() returns (e: Event)
      modifies this`script
      ensures old(script) == [] ==> e == Refused && script == []
      ensures old(script) != [] ==> e == old(script)[0] && script == old(script)[1..]
    {
      e := Refused;
      if script != [] { e, script := script[0], script[1..]; }
    }

    /** A call that is only acknowledged or refused. */
    method Request(call: Call) returns (ok: bool)
      requires ReleaseDiscipline(trace)
      requires Made(trace, Release) ==> call == Close
      requires call != Read
      requires call == Release ==> exists j | 0 <= j < |trace| :: Stops(trace[j])
      modifies this`script, this`trace
      ensures ReleaseDiscipline(trace)
      ensures |script| <= |old(script)| && (forall e | e in script :: e in old(script))
      ensures |trace| == |old(trace)| + 1 && trace == old(trace) + [trace[|old(trace)|]]
      ensures trace[|old(trace)|].call == call && (ok <==> trace[|old(trace)|].event == Acknowledged)
      ensures forall c: Call :: Made(trace, c) <==> Made(old(trace), c) || c == call
      ensures LastRead(trace) == LastRead(old(trace)) && Checks(trace) == Checks(old(trace))
      ensures (!ok ==> RefusedIn(trace, call)) && (TimerFired(trace) <==> TimerFired(old(trace)))
    {
      hide ReleaseDiscipline, Made, Checks, LastRead, RefusedIn, Caused;
      var e := Draw();
      ok := e == Acknowledged;
      trace := trace + [Entry(call, e)];
      TraceGrows(old(trace), Entry(call, e));
      CauseStays(OutputRelease, old(trace), Entry(call, e), 0);
      ChecksGrow(old(trace), Entry(call, e));
    }

    /** `NativeShellCapture::append`. */
    method AppendBatch(batch: Batch) returns (ok: bool)
      requires CaptureOk()
      modifies this`cursor, this`stdout, this`stderr, this`observed
      ensures CaptureOk()
      ensures ok <==> Continues(batch, |old(observed)|)
      ensures observed == if ok then old(observed) + batch.chunks else old(observed)
    {
      if batch.next != cursor + |batch.chunks|
         || exists i | 0 <= i < |batch.chunks| :: batch.chunks[i].sequence != cursor + i
      {
        return false;
      }
      assert observed + batch.chunks[..0] == observed;
      for i := 0 to |batch.chunks|
        invariant observed == old(observed) + batch.chunks[..i]
        invariant stdout == Bytes(observed, Stdout) && stderr == Bytes(observed, Stderr)
      {
        var chunk := batch.chunks[i];
        observed := observed + [chunk];
        assert observed[..|observed| - 1] == old(observed) + batch.chunks[..i];
        match chunk.stream
        case Stdout => stdout := stdout + chunk.bytes;
        case Stderr => stderr := stderr + chunk.bytes;
      }
      assert batch.chunks[..|batch.chunks|] == batch.chunks;
      cursor := batch.next;
      ok := true;
    }

    /** The outcome of a read; once cancellation was requested only the read
        itself can complete. */
    method DrawRead(requested: bool) returns (e: Event)
      modifies this`script
      ensures requested ==> !e.CallerCancels? && !e.TimerFires?
      ensures forall x | x in script :: x in old(script)
      ensures if old(script) == [] then e == Refused else |script| < |old(script)|
      ensures e == Refused || e in old(script)
    {
      e := Draw();
      while requested && (e.CallerCancels? || e.TimerFires?)
        invariant forall x | x in script :: x in old(script)
        invariant if old(script) == [] then e == Refused else |script| < |old(script)|
        invariant e == Refused || e in old(script)
        decreases |script| + if e.CallerCancels? || e.TimerFires? then 1 else 0
      {
        e := Draw();
      }
    }

    /** `next_native_shell_batch`: one read, raced against cancellation and the
        timer unless cancellation was already requested. */
    method NextBatch(requested: bool) returns (poll: Poll)
      requires ReleaseDiscipline(trace) && !Made(trace, Release) && InterruptsCancel(trace)
      modifies this`script, this`trace
      ensures ReleaseDiscipline(trace) && (Made(trace, Close) <==> Made(old(trace), Close)) && InterruptsCancel(trace)
      ensures old(trace) <= trace
      ensures forall e | e in script :: e in old(script)
      ensures !poll.Broken? ==> |script| < |old(script)| && !Made(trace, Release)
      ensures poll.Broken? ==> Caused(poll.error, trace, |observed|) && !AboutCursor(poll.error)
      ensures poll.Delivered? ==>
                && trace == old(trace) + [Entry(Read, Arrived(poll.batch))] && Arrived(poll.batch) in old(script)
                && (Made(trace, Cancel) <==> Made(old(trace), Cancel))
      ensures !poll.Delivered? ==> Checks(trace) == Checks(old(trace))
      // A failed read is cleaned up after, unless a cancellation is under way.
      ensures requested ==> |trace| == |old(trace)| + 1
      ensures poll == Broken(Transport(Read)) && !requested ==> Made(trace, Cancel) && Made(trace, Release)
      ensures poll.Interrupted? ==> !requested && Made(trace, Cancel) && (TimerFired(trace) <==> TimerFired(old(trace)) || poll.timedOut)
    {
      hide ReleaseDiscipline, Made, InterruptsCancel, Checks, LastRead, RefusedIn, TimerFired;
      var e := DrawRead(requested);
      trace := trace + [Entry(Read, e)];
      TraceGrows(old(trace), Entry(Read, e));
      ChecksGrow(old(trace), Entry(Read, e));
      ReadIsLast(old(trace), e);
      TimerSeen(old(trace), Entry(Read, e));
      match e
      case Arrived(batch) =>
        InterruptsGrow(old(trace), Entry(Read, e));
        return Delivered(batch);
      case CallerCancels =>
        var ok := Request(Cancel);
        InterruptsAnswered(old(trace), Entry(Read, e), trace[|trace| - 1]);
        return if ok then Interrupted(false) else Broken(Cancellation);
      case TimerFires =>
        var ok := Request(Cancel);
        InterruptsAnswered(old(trace), Entry(Read, e), trace[|trace| - 1]);
        return if ok then Interrupted(true) else Broken(Cancellation);
      case _ =>
        InterruptsGrow(old(trace), Entry(Read, e));
        if requested { return Broken(Transport(Read)); }
        var ok := CancelAndRelease();
        poll := Broken(if ok.Some? then ok.value else Transport(Read));
    }

    /** Cancels, then releases the output; the error if either is refused. */
    method CancelAndRelease() returns (failed: Option<ShellError>)
      requires ReleaseDiscipline(trace) && !Made(trace, Release) && InterruptsCancel(trace)
      modifies this`script, this`trace
      ensures ReleaseDiscipline(trace) && (Made(trace, Close) <==> Made(old(trace), Close)) && InterruptsCancel(trace)
      ensures old(trace) <= trace && (forall e | e in script :: e in old(script))
      ensures LastRead(trace) == LastRead(old(trace)) && Checks(trace) == Checks(old(trace))
      ensures failed.Some? ==>
                || (failed.value == Cancellation && RefusedIn(trace, Cancel))
                || (failed.value == OutputRelease && RefusedIn(trace, Release))
      ensures Made(trace, Cancel) && (failed != Some(Cancellation) ==> Made(trace, Release))
    {
      hide ReleaseDiscipline, Made, InterruptsCancel, Checks, LastRead, RefusedIn, TimerFired;
      var ok := Request(Cancel);
      InterruptsGrow(old(trace), trace[|trace| - 1]);
      if !ok { return Some(Cancellation); }
      assert Stops(trace[|trace| - 1]);
      ghost var cancelled := trace;
      ok := Request(Release);
      InterruptsGrow(cancelled, trace[|trace| - 1]);
      if !ok { return Some(OutputRelease); }
      return None;
    }

    /** `finish_native_shell` on a terminal state. */
    method Finish(state: ExecutionState, timedOut: bool) returns (outcome: Outcome)
      requires state != Running && CaptureOk()
      requires ReleaseDiscipline(trace) && !Made(trace, Release) && InterruptsCancel(trace)
      requires exists j | 0 <= j < |trace| :: Stops(trace[j])
      modifies this`script, this`trace
      ensures ReleaseDiscipline(trace) && Made(trace, Release) && (Made(trace, Close) <==> Made(old(trace), Close))
      ensures InterruptsCancel(trace)
      ensures |trace| == |old(trace)| + 1 && trace == old(trace) + [trace[|old(trace)|]] && trace[|old(trace)|].call == Release
      ensures LastRead(trace) == LastRead(old(trace)) && Checks(trace) == Checks(old(trace))
      // A refused release is the error; otherwise the state decides.
      ensures trace[|old(trace)|].event != Acknowledged ==> outcome == Error(OutputRelease) && RefusedIn(trace, Release)
      ensures trace[|old(trace)|].event == Acknowledged ==>
                match state
                case Exited(code) => outcome == Finished(Output(code, stdout, stderr, timedOut))
                case Cancelled => outcome == Finished(Output(-1, stdout, stderr, timedOut))
                case Failed(failure) =>
                  outcome == if failure == TimedOut then Finished(Output(-1, stdout, stderr, true)) else Error(Execution(failure))
                case Running => true
    {
      hide ReleaseDiscipline, Made, InterruptsCancel, Checks, LastRead, RefusedIn;
      var ok := Request(Release);
      InterruptsGrow(old(trace), trace[|trace| - 1]);
      if !ok { return Error(OutputRelease); }
      match state
      case Exited(code) => outcome := Finished(Output(code, stdout, stderr, timedOut));
      case Cancelled => outcome := Finished(Output(-1, stdout, stderr, timedOut));
      case Failed(TimedOut) => outcome := Finished(Output(-1, stdout, stderr, true));
      case Failed(failure) => outcome := Error(Execution(failure));
    }

    /** A batch that does not continue at the cursor: cancel, then release. */
    method RejectCursor() returns (outcome: Outcome)
      requires ReleaseDiscipline(trace) && !Made(trace, Release) && InterruptsCancel(trace)
      requires LastRead(trace).Arrived? && !Continues(LastRead(trace).batch, |observed|)
      modifies this`script, this`trace
      ensures old(trace) <= trace && InterruptsCancel(trace)
      ensures ReleaseDiscipline(trace) && (Made(trace, Close) <==> Made(old(trace), Close))
      ensures outcome.Error? && Caused(outcome.error, trace, |observed|) && AboutCursor(outcome.error)
      ensures Made(trace, Cancel) && (outcome.error != Cleanup(Cancel, InvalidOutputCursor) ==> Made(trace, Release))
    {
      hide ReleaseDiscipline, Made, InterruptsCancel, Checks, LastRead, RefusedIn, Continues;
      var failed := CancelAndRelease();
      match failed
      case None => outcome := Error(InvalidOutputCursor);
      case Some(error) => outcome := Error(Cleanup(if error == Cancellation then Cancel else Release, InvalidOutputCursor));
    }

    method YieldPointPassed() returns (elapsed: bool)
      modifies this`clock
      ensures elapsed == (old(clock) != [] && old(clock)[0])
      ensures clock == if old(clock) == [] then [] else old(clock)[1..]
    {
      elapsed := false;
      if clock != [] { elapsed, clock := clock[0], clock[1..]; }
    }

    /** Finishes on a terminal batch without chunks. */
    method Conclude(batch: Batch, timedOut: bool, ghost before: seq<Entry>) returns (outcome: Outcome)
      requires batch.chunks == [] && batch.state != Running && CaptureOk() && ReleaseDiscipline(trace) && InterruptsCancel(trace)
      requires trace == before + [Entry(Read, Arrived(batch))] && (timedOut <==> TimerFired(before))
      requires !Made(trace, Release) && !Made(trace, Close)
      modifies this`script, this`trace
      ensures CaptureOk() && ReleaseDiscipline(trace) && InterruptsCancel(trace) && old(trace) <= trace
      ensures Made(trace, Release) && !Made(trace, Close) && Checks(trace) == Checks(old(trace))
      ensures !outcome.StillRunning?
      ensures outcome.Finished? ==>
                && outcome.output.stdout == Bytes(observed, Stdout) && outcome.output.stderr == Bytes(observed, Stderr)
                && ConcludedBy(trace, batch, outcome.output)
      ensures outcome.Error? ==> Caused(outcome.error, trace, |observed|) && !AboutCursor(outcome.error)
    {
      hide ReleaseDiscipline, Made, ConcludedBy, TimerFired, Bytes, InterruptsCancel, Checks, LastRead, RefusedIn, Continues;
      assert Stops(trace[|trace| - 1]);
      ReadIsLast(before, Arrived(batch));
      outcome := Finish(batch.state, timedOut);
      if outcome.Finished? { Concludes(before, trace, batch, trace[|trace| - 1], outcome.output); }
    }

    /** `collect_native_shell`: the polling loop. */
    method Collect(mayYield: bool, ghost log: seq<Chunk>) returns (outcome: Outcome)
      requires CaptureOk() && observed == [] && InterruptsCancel(trace) && Checks(trace) == 0
      requires ReleaseDiscipline(trace) && !Made(trace, Cancel) && !Made(trace, Release) && !Made(trace, Close) && !TimerFired(trace)
      modifies this
      ensures old(trace) <= trace && InterruptsCancel(trace)
      ensures CaptureOk() && ReleaseDiscipline(trace) && !Made(trace, Close)
      ensures outcome.StillRunning? ==>
                && mayYield && !Made(trace, Cancel) && !Made(trace, Release)
                && outcome == StillRunning(|observed|, Bytes(observed, Stdout), Bytes(observed, Stderr))
      ensures outcome.Finished? ==>
                && Made(trace, Release)
                && outcome.output.stdout == Bytes(observed, Stdout) && outcome.output.stderr == Bytes(observed, Stderr)
                && exists b: Batch :: ConcludedBy(trace, b, outcome.output)
      // An error has its reason in the trace, and a passed yield point is taken.
      ensures outcome.Error? ==> Caused(outcome.error, trace, |observed|)
      ensures mayYield && !(outcome.Error? && AboutCursor(outcome.error)) ==> YieldsAt(old(clock), trace, outcome.StillRunning?)
      // An honest module: the observer saw a prefix of its log, all of it at the end.
      ensures (forall e | e in old(script) :: Honest(log, e)) && Numbered(log) ==>
                && observed <= log
                && (outcome.Finished? ==> observed == log)
    {
      hide ReleaseDiscipline, Made, Honest, Numbered, ConcludedBy, TimerFired, Bytes, InterruptsCancel, Checks, LastRead, Caused, Continues, YieldsAt, Looked, AboutCursor;
      LookedNone(clock);
      var requested, timedOut := false, false;
      ghost var honest := (forall e | e in script :: Honest(log, e)) && Numbered(log);
      ghost var all := script;
      while true
        invariant old(trace) <= trace && InterruptsCancel(trace)
        invariant CaptureOk() && ReleaseDiscipline(trace) && !Made(trace, Release) && !Made(trace, Close)
        invariant Made(trace, Cancel) <==> requested
        invariant timedOut <==> TimerFired(trace)
        invariant forall e | e in script :: e in all
        invariant honest ==> observed <= log
        invariant mayYield ==> Looked(old(clock), clock, Checks(trace))
        decreases |script|
      {
        ghost var before := trace;
        var poll := NextBatch(requested);
        match poll
        case Broken(error) =>
          if mayYield { LookedIsYield(old(clock), clock, trace); }
          return Error(error);
        case Interrupted(timer) =>
          requested := true;
          timedOut := timedOut || timer;
        case Delivered(batch) =>
          var done := Accept(batch, requested, timedOut, mayYield, before, old(clock), log, honest);
          if done.Some? { return done.value; }
      }
    }

    /** One delivered batch: rejected, taken as the last one, or taken with a look
        at the yield point. */
    method Accept(
        batch: Batch, requested: bool, timedOut: bool, mayYield: bool,
        ghost before: seq<Entry>, ghost clock0: seq<bool>, ghost log: seq<Chunk>, ghost honest: bool)
      returns (done: Option<Outcome>)
      requires CaptureOk() && ReleaseDiscipline(trace) && InterruptsCancel(trace) && !Made(trace, Release) && !Made(trace, Close)
      requires trace == before + [Entry(Read, Arrived(batch))]
      requires (Made(trace, Cancel) <==> requested) && (Made(before, Cancel) <==> requested) && (timedOut <==> TimerFired(before))
      requires honest ==> Honest(log, Arrived(batch)) && Numbered(log) && observed <= log
      requires mayYield ==> Looked(clock0, clock, Checks(before))
      modifies this
      ensures old(trace) <= trace && InterruptsCancel(trace) && CaptureOk() && ReleaseDiscipline(trace) && !Made(trace, Close)
      ensures done.None? ==> script == old(script)
      ensures honest ==> observed <= log
      ensures done.None? ==>
                && trace == old(trace) && (timedOut <==> TimerFired(trace))
                && (mayYield ==> Looked(clock0, clock, Checks(trace)))
      ensures done.Some? && done.value.StillRunning? ==>
                && mayYield && !Made(trace, Cancel) && !Made(trace, Release)
                && done.value == StillRunning(|observed|, Bytes(observed, Stdout), Bytes(observed, Stderr))
      ensures done.Some? && done.value.Finished? ==>
                && Made(trace, Release) && (honest ==> observed == log)
                && done.value.output.stdout == Bytes(observed, Stdout) && done.value.output.stderr == Bytes(observed, Stderr)
                && ConcludedBy(trace, batch, done.value.output)
      ensures done.Some? && done.value.Error? ==> Caused(done.value.error, trace, |observed|)
      ensures done.Some? && mayYield && !(done.value.Error? && AboutCursor(done.value.error)) ==>
                YieldsAt(clock0, trace, done.value.StillRunning?)
    {
      hide ReleaseDiscipline, Made, Honest, Numbered, ConcludedBy, TimerFired, Bytes, InterruptsCancel, Checks, LastRead, Caused, Continues, YieldsAt, Looked;
      ghost var seen := observed;
      TimerSeen(before, Entry(Read, Arrived(batch)));
      ChecksGrow(before, Entry(Read, Arrived(batch)));
      ReadIsLast(before, Arrived(batch));
      var ok := AppendBatch(batch);
      if !ok {
        var rejected := RejectCursor();
        return Some(rejected);
      }
      if honest { PrefixGrows(log, seen, batch); }
      if batch.chunks == [] && batch.state != Running {
        var concluded := Conclude(batch, timedOut, before);
        if mayYield { LookedIsYield(clock0, clock, trace); }
        return Some(concluded);
      }
      if batch.state == Running && !requested && mayYield {
        ghost var shown := clock;
        var elapsed := YieldPointPassed();
        LookedOnce(clock0, shown, Checks(before), elapsed);
        if elapsed {
          LookedYields(clock0, shown, trace);
          return Some(StillRunning(cursor, stdout, stderr));
        }
      }
      return None;
    }

    /** `run_native_shell`. */
    method Run(mayYield: bool, ghost log: seq<Chunk>) returns (outcome: Outcome)
      requires trace == [] && CaptureOk() && observed == []
      modifies this
      ensures CaptureOk() && ReleaseDiscipline(trace) && InterruptsCancel(trace) && Opened(trace)
      // Once the resource is reserved it is closed exactly once, last, unless the
      // process is handed over running.
      ensures trace != [] && trace[0].call == ReserveResource
      ensures trace[0].event == Acknowledged && !outcome.StillRunning? ==> ClosedOnceAndLast(trace)
      ensures outcome.StillRunning? || trace[0].event != Acknowledged ==> !Made(trace, Close)
      // A process is handed over only if nobody asked to cancel it.
      ensures outcome.StillRunning? ==>
                && mayYield && !Made(trace, Cancel) && !Made(trace, Release)
                && outcome == StillRunning(|observed|, Bytes(observed, Stdout), Bytes(observed, Stderr))
      ensures outcome.Finished? ==>
                && Made(trace, Release)
                && outcome.output.stdout == Bytes(observed, Stdout) && outcome.output.stderr == Bytes(observed, Stderr)
                && exists b: Batch :: ConcludedBy(trace, b, outcome.output)
      // An error has its reason in the trace: a refused call, a read that failed,
      // a batch off the cursor or a failed execution, and it names that reason.
      ensures outcome.Error? ==> Caused(outcome.error, trace, |observed|)
      ensures mayYield && !(outcome.Error? && AboutCursor(outcome.error)) ==> YieldsAt(old(clock), trace, outcome.StillRunning?)
      // Complete output from an honest module.
      ensures (forall e | e in old(script) :: Honest(log, e)) && Numbered(log) ==>
                && observed <= log
                && (outcome.Finished? ==> observed == log)
    {
      hide Honest, Bytes, ConcludedBy, Caused, Checks, LastRead, RefusedIn, Numbered, YieldsAt, Opened, TimerFired, ReleaseDiscipline, Made, InterruptsCancel, ClosedOnceAndLast;
      NothingRead();
      var ok := Request(ReserveResource);
      InterruptsGrow([], trace[0]);
      if !ok {
        NoReadsIsOpened(trace);
        LookedNone(clock);
        LookedIsYield(clock, clock, trace);
        RefusalCauses(trace, ReserveResource, |observed|);
        return Error(Transport(ReserveResource));
      }
      outcome := StartAndCollect(mayYield, log);
      if outcome.StillRunning? { return; }
      ghost var before := trace;
      outcome := CloseAfter(outcome);
      YieldsStay(old(clock), before, trace);
    }

    /** Closes the resource after a result. */
    method CloseAfter(result: Outcome) returns (outcome: Outcome)
      requires !result.StillRunning? && ReleaseDiscipline(trace) && InterruptsCancel(trace) && Opened(trace) && !Made(trace, Close)
      requires result.Finished? ==> exists b: Batch :: ConcludedBy(trace, b, result.output)
      requires result.Error? ==> Caused(result.error, trace, |observed|)
      modifies this`script, this`trace
      ensures old(trace) <= trace && ReleaseDiscipline(trace) && InterruptsCancel(trace) && Opened(trace) && ClosedOnceAndLast(trace)
      ensures forall c: Call :: Made(trace, c) <==> Made(old(trace), c) || c == Close
      ensures Checks(trace) == Checks(old(trace))
      // An acknowledged close keeps the result; a refused one is reported with it.
      ensures trace[|trace| - 1].event == Acknowledged ==> outcome == result
      ensures trace[|trace| - 1].event != Acknowledged ==>
                outcome == Error(if result.Error? then Cleanup(Close, result.error) else ResourceClose)
      ensures outcome.Finished? ==> exists b: Batch :: ConcludedBy(trace, b, outcome.output)
      ensures outcome.Error? ==> Caused(outcome.error, trace, |observed|)
    {
      hide ConcludedBy, Caused, Checks, LastRead, RefusedIn, Opened, TimerFired, ReleaseDiscipline, Made, InterruptsCancel, ClosedOnceAndLast;
      ghost var before := trace;
      var ok := Request(Close);
      ghost var last := trace[|trace| - 1];
      InterruptsGrow(before, last);
      OpenedStays(before, last);
      ClosesLast(before, last);
      if result.Finished? {
        ghost var b :| ConcludedBy(before, b, result.output);
        ConclusionStays(before, last, b, result.output);
      } else {
        CauseStays(result.error, before, last, |observed|);
      }
      outcome := result;
      if !ok {
        CloseCauses(if result.Error? then result.error else ResourceClose, trace, |observed|);
        outcome := if result.Error? then Error(Cleanup(Close, result.error)) else Error(ResourceClose);
      }
    }

    method StartAndCollect(mayYield: bool, ghost log: seq<Chunk>) returns (outcome: Outcome)
      requires |trace| == 1 && trace[0] == Entry(ReserveResource, Acknowledged) && CaptureOk() && observed == []
      requires ReleaseDiscipline(trace) && InterruptsCancel(trace) && forall c: Call :: Made(trace, c) ==> c == ReserveResource
      requires Checks(trace) == 0
      modifies this
      ensures old(trace) <= trace && InterruptsCancel(trace) && Opened(trace)
      ensures CaptureOk() && ReleaseDiscipline(trace) && !Made(trace, Close)
      ensures outcome.StillRunning? ==>
                && mayYield && !Made(trace, Cancel) && !Made(trace, Release)
                && outcome == StillRunning(|observed|, Bytes(observed, Stdout), Bytes(observed, Stderr))
      ensures outcome.Finished? ==>
                && Made(trace, Release)
                && outcome.output.stdout == Bytes(observed, Stdout) && outcome.output.stderr == Bytes(observed, Stderr)
                && exists b: Batch :: ConcludedBy(trace, b, outcome.output)
      ensures outcome.Error? ==> Caused(outcome.error, trace, |observed|)
      ensures mayYield && !(outcome.Error? && AboutCursor(outcome.error)) ==> YieldsAt(old(clock), trace, outcome.StillRunning?)
      ensures (forall e | e in old(script) :: Honest(log, e)) && Numbered(log) ==>
                && observed <= log
                && (outcome.Finished? ==> observed == log)
    {
      hide ReleaseDiscipline, Made, Honest, Bytes, ConcludedBy, InterruptsCancel, Checks, LastRead, Caused, RefusedIn, TimerFired, Opened, Numbered, YieldsAt, Looked, AboutCursor;
      var refused := StartProcess();
      if refused.Some? {
        if mayYield { LookedNone(clock); LookedIsYield(clock, clock, trace); }
        return Error(refused.value);
      }
      outcome := Collect(mayYield, log);
      StartedIsOpened(trace);
    }

    /** `start_native_shell`: create, reserve the process, start it. */
    method StartProcess() returns (refused: Option<ShellError>)
      requires |trace| == 1 && trace[0] == Entry(ReserveResource, Acknowledged)
      requires ReleaseDiscipline(trace) && InterruptsCancel(trace) && forall c: Call :: Made(trace, c) ==> c == ReserveResource
      requires Checks(trace) == 0
      modifies this`script, this`trace
      ensures old(trace) <= trace && ReleaseDiscipline(trace) && InterruptsCancel(trace) && Opened(trace) && Checks(trace) == 0
      ensures forall c: Call :: Made(trace, c) ==> c in {ReserveResource, Create, ReserveProcess, StartShell}
      ensures |script| <= |old(script)| && forall e | e in script :: e in old(script)
      ensures refused.Some? ==> Caused(refused.value, trace, |observed|) && !AboutCursor(refused.value)
      ensures refused.None? ==> trace == OPENING && !TimerFired(trace)
    {
      hide ReleaseDiscipline, Made, InterruptsCancel, Checks, LastRead, Caused, RefusedIn, TimerFired, Opened;
      NoTimer(trace);
      var ok := Request(Create);
      InterruptsGrow(old(trace), trace[1]);
      NoReadsIsOpened(trace);
      if !ok {
        RefusalCauses(trace, Create, |observed|);
        return Some(Transport(Create));
      }
      ghost var t2 := trace;
      ok := Request(ReserveProcess);
      InterruptsGrow(t2, trace[2]);
      NoReadsIsOpened(trace);
      if !ok {
        RefusalCauses(trace, ReserveProcess, |observed|);
        return Some(Transport(ReserveProcess));
      }
      ghost var t3 := trace;
      ok := Request(StartShell);
      InterruptsGrow(t3, trace[3]);
      NoReadsIsOpened(trace);
      if !ok {
        RefusalCauses(trace, StartShell, |observed|);
        return Some(Transport(StartShell));
      }
      return None;
    }
  }

  lemma NothingRead()
    ensures InterruptsCancel([]) && Checks([]) == 0 && Opened([])
    ensures ReleaseDiscipline([]) && forall c: Call :: !Made([], c)
  {
  }

  lemma ClosesLast(t: seq<Entry>, e: Entry)
    requires !Made(t, Close) && e.call == Close
    ensures ClosedOnceAndLast(t + [e])
  {
    NotMade(t, Close);
  }

  lemma NoTimer(t: seq<Entry>)
    requires forall e | e in t :: e.call != Read
    ensures !TimerFired(t)
  {
  }

  lemma NoReadsIsOpened(t: seq<Entry>)
    requires forall i | 0 <= i < |t| :: t[i].call != Read
    ensures Opened(t)
  {
  }

  lemma StartedIsOpened(t: seq<Entry>)
    requires OPENING <= t
    ensures Opened(t)
  {
    assert t[0] == OPENING[0] && t[1] == OPENING[1] && t[2] == OPENING[2] && t[3] == OPENING[3];
  }

  lemma OpenedStays(t: seq<Entry>, e: Entry)
    requires Opened(t) && e.call != Read
    ensures Opened(t + [e])
  {
    forall i | 0 <= i < |t| + 1 && (t + [e])[i].call == Read
      ensures i >= 4 && OPENING <= t + [e]
    {
      assert (t + [e])[i] == t[i];
    }
  }

  lemma RefusalCauses(t: seq<Entry>, call: Call, seen: nat)
    requires RefusedIn(t, call) && call != Read
    ensures Caused(Transport(call), t, seen)
  {
  }

  lemma CloseCauses(error: ShellError, t: seq<Entry>, seen: nat)
    requires RefusedIn(t, Close) && (error == ResourceClose || Caused(error, t, seen))
    ensures Caused(Cleanup(Close, error), t, seen) && Caused(ResourceClose, t, seen)
  {
  }
}
