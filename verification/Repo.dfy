/** The optimistic update loop of one repository handle, run against a store
    that other clients change between any two of its requests. */
module Repo {

  import opened Wrappers

  datatype Doc<T> = Doc(version: nat, value: T)

  /** What other clients do between two of our requests. */
  datatype Foreign<T> = ForeignPut(id: string, value: T) | ForeignDelete(id: string)

  datatype Fault = Healthy | FailsBefore | FailsAfter

  datatype PutResult = Written(version: nat) | Conflict | PutFailed

  /** The caller's closure: leave the record alone, replace it, or give up. */
  datatype Decision<T> = Leave | Replace(value: T) | GiveUp

  datatype UpdateResult<T> = Updated(value: T, version: nat) | LeftAlone | ConflictError | OtherError

  /** A committed write of ours, with the value that was there immediately before. */
  datatype Commit<T> = Commit(id: string, before: Option<T>, after: T, version: nat)

  function Budget(attempts: nat): nat { if attempts == 0 then 1 else attempts }

  function Value<T>(docs: map<string, Doc<T>>, id: string): Option<T> {
    if id in docs then Some(docs[id].value) else None
  }

  /** The document is at the expected version, or absent as expected. */
  predicate Current<T>(docs: map<string, Doc<T>>, id: string, expected: Option<nat>) {
    if expected.None? then id !in docs else id in docs && docs[id].version == expected.value
  }

  /** The documents after other clients ran, versions counting on. */
  function Interfered<T>(docs: map<string, Doc<T>>, next: nat, steps: seq<Foreign<T>>): map<string, Doc<T>>
    decreases |steps|
  {
    if steps == [] then docs
    else match steps[0]
      case ForeignPut(id, value) => Interfered(docs[id := Doc(next, value)], next + 1, steps[1..])
      case ForeignDelete(id) => Interfered(docs - {id}, next, steps[1..])
  }

  function First<X>(script: seq<seq<X>>): seq<X> { if script == [] then [] else script[0] }

  function Later<X>(script: seq<X>): seq<X> { if script == [] then [] else script[1..] }

  function Coming(faults: seq<Fault>): Fault { if faults == [] then Healthy else faults[0] }

  class Documents<T(!new, 0)> {
    var docs: map<string, Doc<T>>
    var next: nat
    var interference: seq<seq<Foreign<T>>>
    var faults: seq<Fault>
    /** What each version held; versions are never reused. */
    ghost var history: map<nat, (string, T)>
    ghost var commits: seq<Commit<T>>
    ghost var writes: nat

    ghost predicate Valid()
      reads this
    {
      && (forall v | v in history :: v < next)
      && (forall id | id in docs :: docs[id].version in history && history[docs[id].version] == (id, docs[id].value))
    }

    constructor (interference: seq<seq<Foreign<T>>>, faults: seq<Fault>)
      ensures Valid() && docs == map[] && commits == [] && writes == 0
    {
      docs, next, history, commits, writes := map[], 0, map[], [], 0;
      this.interference, this.faults := interference, faults;
    }

    method Store(id: string, value: T)
      requires Valid()
      modifies this`docs, this`next, this`history
      ensures Valid() && docs == old(docs)[id := Doc(old(next), value)] && next == old(next) + 1
      ensures history == old(history)[old(next) := (id, value)]
    {
      docs, history := docs[id := Doc(next, value)], history[next := (id, value)];
      next := next + 1;
    }

    /** Other clients run. */
    method Interfere()
      requires Valid()
      modifies this`docs, this`next, this`history, this`interference
      ensures Valid()
      ensures docs == Interfered(old(docs), old(next), First(old(interference))) && interference == Later(old(interference))
      ensures forall v | v in old(history) :: v in history && history[v] == old(history)[v]
    {
      if interference == [] { return; }
      var steps := interference[0];
      interference := interference[1..];
      for i := 0 to |steps|
        invariant Valid()
        invariant interference == Later(old(interference))
        invariant Interfered(docs, next, steps[i..]) == Interfered(old(docs), old(next), steps)
        invariant forall v | v in old(history) :: v in history && history[v] == old(history)[v]
      {
        assert steps[i..][0] == steps[i] && steps[i..][1..] == steps[i + 1..];
        match steps[i]
        case ForeignPut(id, value) => Store(id, value);
        case ForeignDelete(id) => docs := docs - {id};
      }
    }

    method Draw() returns (fault: Fault)
      modifies this`faults
      ensures fault == Coming(old(faults)) && faults == Later(old(faults))
    {
      fault := Healthy;
      if faults != [] { fault, faults := faults[0], faults[1..]; }
    }

    method Get(id: string) returns (ok: bool, found: Option<Doc<T>>)
      requires Valid()
      modifies this`docs, this`next, this`history, this`interference, this`faults
      ensures Valid()
      ensures forall v | v in old(history) :: v in history && history[v] == old(history)[v]
      ensures docs == Interfered(old(docs), old(next), First(old(interference))) && interference == Later(old(interference))
      ensures (ok <==> Coming(old(faults)).Healthy?) && faults == Later(old(faults))
      ensures found == if id in docs then Some(docs[id]) else None
    {
      Interfere();
      var fault := Draw();
      ok := fault.Healthy?;
      found := if id in docs then Some(docs[id]) else None;
    }

    /** `put_with` under the precondition that the document is still at
        `expected`, or still absent. */
    method PutIf(id: string, value: T, expected: Option<nat>) returns (result: PutResult)
      requires Valid()
      modifies this
      ensures Valid()
      ensures forall v | v in old(history) :: v in history && history[v] == old(history)[v]
      ensures writes == old(writes) + 1 && interference == Later(old(interference)) && faults == Later(old(faults))
      // The documents as the request finds them decide, and what it writes is there.
      ensures var found := Interfered(old(docs), old(next), First(old(interference)));
              && (result.PutFailed? <==> !Coming(old(faults)).Healthy?)
              && (result.Written? ==>
                    && Current(found, id, expected) && docs == found[id := Doc(result.version, value)]
                    && commits == old(commits) + [Commit(id, Value(found, id), value, result.version)])
              && (result.Conflict? ==> !Current(found, id, expected) && docs == found && commits == old(commits))
              && (result.PutFailed? ==>
                    if Coming(old(faults)).FailsAfter? && Current(found, id, expected) then
                      && id in docs && docs[id].value == value && docs == found[id := docs[id]]
                      && commits == old(commits) + [Commit(id, Value(found, id), value, docs[id].version)]
                    else docs == found && commits == old(commits))
      ensures expected.Some? && Current(Interfered(old(docs), old(next), First(old(interference))), id, expected) ==>
                expected.value in history && history[expected.value] == (id, Interfered(old(docs), old(next), First(old(interference)))[id].value)
    {
      writes := writes + 1;
      Interfere();
      ghost var found := docs;
      var fault := Draw();
      if fault.FailsBefore? { return PutFailed; }
      if !Current(docs, id, expected) { return if fault.Healthy? then Conflict else PutFailed; }
      var version := next;
      Store(id, value);
      commits := commits + [Commit(id, Value(found, id), value, version)];
      result := if fault.Healthy? then Written(version) else PutFailed;
    }

    /** `Repo::update`. */
    method Update(id: string, update: Option<T> -> Decision<T>, attempts: nat) returns (result: UpdateResult<T>)
      requires Valid()
      modifies this
      ensures Valid()
      // At most max(1, attempts) conditional writes, and all of them before giving up.
      ensures old(writes) <= writes <= old(writes) + Budget(attempts)
      ensures result.ConflictError? ==> writes == old(writes) + Budget(attempts)
      // A success committed, exactly once, the closure's answer to the value
      // immediately before the commit, and the document is there.
      ensures result.Updated? ==>
                && id in docs && docs[id] == Doc(result.version, result.value)
                && exists before: Option<T> ::
                     && commits == old(commits) + [Commit(id, before, result.value, result.version)]
                     && update(before) == Replace(result.value)
      // Leaving alone or running out of retries commits nothing.
      ensures result.LeftAlone? ==> commits == old(commits) && update(Value(docs, id)) == Leave
      ensures result.ConflictError? ==> commits == old(commits)
      // Even a failure commits at most once, and only the closure's answer.
      ensures result.OtherError? && commits != old(commits) ==>
                exists before: Option<T>, after: T, version: nat ::
                  commits == old(commits) + [Commit(id, before, after, version)] && update(before) == Replace(after)
      // Without a storage failure the only other error is the closure's own.
      ensures result.OtherError? && (forall f | f in old(faults) :: f == Healthy) ==> update(Value(docs, id)) == GiveUp
      // It takes a change in every attempt to run out of retries.
      ensures result.ConflictError? ==> |old(interference)| >= 2 * Budget(attempts)
      // Undisturbed, one attempt decides.
      ensures old(faults) == [] && old(interference) == [] ==>
                match update(Value(old(docs), id))
                case GiveUp => result.OtherError? && docs == old(docs)
                case Leave => result.LeftAlone? && docs == old(docs)
                case Replace(value) =>
                  result.Updated? && result.value == value && docs == old(docs)[id := Doc(result.version, value)]
    {
      var budget := Budget(attempts);
      for attempt := 0 to budget
        invariant Valid()
        invariant commits == old(commits)
        invariant writes == old(writes) + attempt
        invariant forall f | f in faults :: f in old(faults)
        invariant |old(interference)| >= 2 * attempt && |interference| == |old(interference)| - 2 * attempt
        invariant attempt == 0 ==> docs == old(docs) && interference == old(interference) && faults == old(faults)
      {
        var r := Attempt(id, update);
        if r.Some? { return r.value; }
        if attempt + 1 == budget { return ConflictError; }
      }
      result := ConflictError;
    }

    /** One read and one conditional write; `None` when the write conflicts. */
    method Attempt(id: string, update: Option<T> -> Decision<T>) returns (r: Option<UpdateResult<T>>)
      requires Valid()
      modifies this
      ensures Valid()
      ensures forall f | f in faults :: f in old(faults)
      ensures r.None? ==>
                && commits == old(commits) && writes == old(writes) + 1
                && |old(interference)| >= 2 && |interference| == |old(interference)| - 2
      ensures r.Some? ==> old(writes) <= writes <= old(writes) + 1 && !r.value.ConflictError?
      ensures r.Some? && r.value.Updated? ==>
                && id in docs && docs[id] == Doc(r.value.version, r.value.value)
                && exists before: Option<T> ::
                     && commits == old(commits) + [Commit(id, before, r.value.value, r.value.version)]
                     && update(before) == Replace(r.value.value)
      ensures r.Some? && r.value.LeftAlone? ==> commits == old(commits) && update(Value(docs, id)) == Leave
      ensures r.Some? && r.value.OtherError? && commits != old(commits) ==>
                exists before: Option<T>, after: T, version: nat ::
                  commits == old(commits) + [Commit(id, before, after, version)] && update(before) == Replace(after)
      ensures r.Some? && r.value.OtherError? && (forall f | f in old(faults) :: f == Healthy) ==> update(Value(docs, id)) == GiveUp
      ensures old(faults) == [] && old(interference) == [] ==>
                r.Some? &&
                match update(Value(old(docs), id))
                case GiveUp => r.value.OtherError? && docs == old(docs)
                case Leave => r.value.LeftAlone? && docs == old(docs)
                case Replace(value) =>
                  r.value.Updated? && r.value.value == value && docs == old(docs)[id := Doc(r.value.version, value)]
    {
      hide Interfered;
      Undisturbed(docs, next);
      var ok, found := Get(id);
      if !ok {
        assert Coming(old(faults)) in old(faults);
        return Some(OtherError);
      }
      ghost var read := docs;
      var current := if found.Some? then Some(found.value.value) else None;
      var expected := if found.Some? then Some(found.value.version) else None;
      match update(current)
      case GiveUp => return Some(OtherError);
      case Leave => return Some(LeftAlone);
      case Replace(value) =>
        ghost var faultsNow, later := faults, Interfered(docs, next, First(interference));
        Undisturbed(docs, next);
        assert Current(read, id, expected);
        assert expected.Some? ==> expected.value in history && history[expected.value] == (id, current.value);
        var put := PutIf(id, value, expected);
        assert Current(later, id, expected) ==> Value(later, id) == current;
        assert put.Written? ==> commits == old(commits) + [Commit(id, current, value, put.version)];
        match put
        case Written(version) => return Some(Updated(value, version));
        case PutFailed =>
          assert Coming(faultsNow) in faultsNow && forall f | f in faultsNow :: f in old(faults);
          return Some(OtherError);
        case Conflict => return None;
    }
  }

  lemma Undisturbed<T>(docs: map<string, Doc<T>>, next: nat)
    ensures Interfered(docs, next, First<Foreign<T>>([])) == docs
  {
  }
}
