/** Several boxes on one machine: prepared and cleaned up one call at a time, in
    any order, with any failures. */
module EgressFleet {
  import opened Firewall
  import opened EgressNames
  import opened EgressHost
  import opened EgressInvariant
  import opened EgressRecovery
  import opened EgressController
  import opened EgressBeside
  import opened Wrappers

  datatype Member = Member(box: Identity, attempt: string, targets: seq<PinnedTarget>, subnets: seq<Prefix>)
  {
    ghost predicate Valid() { box.Valid() && ValidAttempt(attempt) }

    function Attempt(): (a: Attempt)
      requires Valid()
      ensures a.names == Names()
    {
      AttemptFor(box, attempt, targets, subnets)
    }

    function Names(): Names
      requires Valid()
    {
      box.ForAttempt(attempt)
    }
  }

  ghost predicate AllValid(live: seq<Member>) { forall m | m in live :: m.Valid() }

  predicate AllDisjoint(live: seq<Member>)
    requires AllValid(live)
  {
    forall i, j | 0 <= i < |live| && 0 <= j < |live| && i != j :: Disjoint(live[i].Names(), live[j].Names())
  }

  /** Every member is on the machine, recoverable towards the machine without it. */
  ghost predicate AllHeld(h: Host, live: seq<Member>)
    requires AllValid(live)
  {
    forall m | m in live :: Held(h, m.Attempt()) && m.Names().network in h.networks
  }

  /** The machine without any of them. */
  ghost function StripAll(h: Host, live: seq<Member>): Host
    requires AllValid(live)
    decreases |live|
  {
    if live == [] then h else StripAll(Strip(h, live[0].Names()), live[1..])
  }

  function Others(live: seq<Member>, i: nat): seq<Member>
    requires i < |live|
  {
    live[..i] + live[i + 1..]
  }

  lemma OthersFacts(live: seq<Member>, i: nat)
    requires i < |live| && AllValid(live) && AllDisjoint(live)
    ensures AllValid(Others(live, i)) && AllDisjoint(Others(live, i))
    ensures forall m | m in Others(live, i) :: m in live && Disjoint(live[i].Names(), m.Names())
  {
    hide Disjoint;
    var rest := Others(live, i);
    assert forall k | 0 <= k < |rest| :: rest[k] == live[if k < i then k else k + 1];
    forall j, k | 0 <= j < |rest| && 0 <= k < |rest| && j != k
      ensures Disjoint(rest[j].Names(), rest[k].Names())
    {
      var x, y := if j < i then j else j + 1, if k < i then k else k + 1;
      assert Disjoint(live[x].Names(), live[y].Names());
    }
    forall k | 0 <= k < |rest|
      ensures rest[k] in live && Disjoint(live[i].Names(), rest[k].Names())
    {
      var x := if k < i then k else k + 1;
      assert Disjoint(live[i].Names(), live[x].Names());
    }
  }

  lemma OthersShift(live: seq<Member>, i: nat)
    requires 0 < i < |live|
    ensures Others(live, i)[0] == live[0] && Others(live, i)[1..] == Others(live[1..], i - 1)
  {
    var rest := live[1..];
    assert rest[..i - 1] == live[1..i] && rest[i..] == live[i + 1..];
    assert (live[..i] + live[i + 1..])[1..] == live[1..i] + live[i + 1..];
  }

  /** It does not matter which member is taken away first. */
  lemma {:induction false} StripAny(h: Host, live: seq<Member>, i: nat)
    requires i < |live| && AllValid(live)
    ensures AllValid(Others(live, i))
    ensures StripAll(h, live) == StripAll(Strip(h, live[i].Names()), Others(live, i))
    decreases |live|
  {
    hide Strip;
    if i == 0 {
      assert Others(live, i) == live[1..];
    } else {
      var rest := live[1..];
      StripAny(Strip(h, live[0].Names()), rest, i - 1);
      StripCommutes(h, live[0].Names(), live[i].Names());
      OthersShift(live, i);
    }
  }

  lemma {:induction false} StripLast(h: Host, live: seq<Member>, m: Member)
    requires AllValid(live) && m.Valid()
    ensures AllValid(live + [m])
    ensures StripAll(h, live + [m]) == StripAll(Strip(h, m.Names()), live)
  {
    var all := live + [m];
    StripAny(h, all, |live|);
    assert Others(all, |live|) == live;
  }

  // ----- What a call for one member does to the others

  /** Since position `from` of the log, every host holds the member, and keeps it
      installed if it was. */
  ghost predicate Undisturbed(before: Host, log: seq<Step>, from: nat, a: Attempt) {
    forall i | from <= i < |log| :: Held(log[i].host, a) && (Standing(before, a) ==> Standing(log[i].host, a))
  }

  lemma TrailStep(start: Host, log: seq<Step>, host: Host, i: nat)
    requires Trail(start, log, host) && i < |log|
    ensures StepTaken(log[i]) && log[i].before == HostAt(start, log, i) && log[i].host == HostAt(start, log, i + 1)
  {
    hide StepTaken;
  }

  ghost predicate Kept(h: Host, h': Host, a: Attempt) {
    Held(h', a) && (Standing(h, a) ==> Standing(h', a)) && (a.names.network in h'.networks <==> a.names.network in h.networks)
  }

  lemma StepBeside(s: Step, a: Attempt)
    requires StepTaken(s) && Disjoint(s.names, a.names) && Held(s.before, a)
    ensures Kept(s.before, s.host, a)
  {
    hide Held, Standing, Disjoint, OwnCommand, Apply;
    HeldBeside(s.before, s.host, a, s.names, s.command);
  }

  lemma {:induction false} TrailBeside(start: Host, log: seq<Step>, host: Host, from: nat, upto: nat, n: Names, a: Attempt)
    requires Trail(start, log, host) && from <= upto <= |log| && Disjoint(n, a.names)
    requires forall i | from <= i < |log| :: log[i].names == n
    requires Held(HostAt(start, log, from), a)
    ensures Kept(HostAt(start, log, from), HostAt(start, log, upto), a)
    decreases upto
  {
    hide Trail, StepTaken, HostAt, Held, Standing, Disjoint;
    if upto > from {
      TrailBeside(start, log, host, from, upto - 1, n, a);
      TrailStep(start, log, host, upto - 1);
      StepBeside(log[upto - 1], a);
    }
  }

  lemma {:induction false} TrailReady(start: Host, log: seq<Step>, host: Host, from: nat, upto: nat)
    requires Trail(start, log, host) && from <= upto <= |log| && EngineReady(HostAt(start, log, from))
    ensures EngineReady(HostAt(start, log, upto))
    decreases upto
  {
    hide Trail, HostAt, EngineReady, OwnCommand, Apply;
    if upto > from {
      TrailReady(start, log, host, from, upto - 1);
      var s := log[upto - 1];
      TrailStep(start, log, host, upto - 1);
      ReadyBeside(s.before, s.host, s.names, s.command);
    }
  }

  /** A call whose commands are all the attempt `n`'s, seen by every other member. */
  lemma CallBeside(start: Host, earlier: seq<Step>, h: Host, log: seq<Step>, h': Host, n: Names, live: seq<Member>)
    requires Trail(start, earlier, h) && Trail(start, log, h') && earlier <= log
    requires forall i | |earlier| <= i < |log| :: log[i].names == n
    requires AllValid(live) && AllHeld(h, live) && EngineReady(h) && forall m | m in live :: Disjoint(n, m.Names())
    ensures AllHeld(h', live) && EngineReady(h') && (forall i | |earlier| <= i < |log| :: EngineReady(log[i].host))
    ensures forall m | m in live ::
              Undisturbed(h, log, |earlier|, m.Attempt()) && (Standing(h, m.Attempt()) ==> Standing(h', m.Attempt()))
  {
    hide Trail, Held, Standing, EngineReady, Disjoint, Undisturbed, AttemptFor;
    TrailContinues(start, earlier, h, log, h');
    TrailReady(start, log, h', |earlier|, |log|);
    forall i | |earlier| <= i < |log|
      ensures EngineReady(log[i].host)
    {
      TrailReady(start, log, h', |earlier|, i + 1);
    }
    forall m | m in live
      ensures Kept(h, h', m.Attempt()) && Undisturbed(h, log, |earlier|, m.Attempt())
    {
      MemberBeside(start, earlier, h, log, h', n, m.Attempt());
    }
  }

  lemma MemberBeside(start: Host, earlier: seq<Step>, h: Host, log: seq<Step>, h': Host, n: Names, a: Attempt)
    requires Trail(start, earlier, h) && Trail(start, log, h') && earlier <= log
    requires forall i | |earlier| <= i < |log| :: log[i].names == n
    requires Held(h, a) && Disjoint(n, a.names)
    ensures Kept(h, h', a) && Undisturbed(h, log, |earlier|, a)
  {
    TrailContinues(start, earlier, h, log, h');
    hide Trail, HostAt, Held, Standing, Disjoint;
    TrailBeside(start, log, h', |earlier|, |log|, n, a);
    forall i | |earlier| <= i < |log|
      ensures Kept(h, log[i].host, a)
    {
      TrailBeside(start, log, h', |earlier|, i + 1, n, a);
      TrailStep(start, log, h', i);
    }
  }

  lemma TrailContinues(start: Host, earlier: seq<Step>, h: Host, log: seq<Step>, h': Host)
    requires Trail(start, earlier, h) && Trail(start, log, h') && earlier <= log
    ensures HostAt(start, log, |earlier|) == h && HostAt(start, log, |log|) == h'
  {
    hide StepTaken;
    assert |earlier| > 0 ==> log[|earlier| - 1] == earlier[|earlier| - 1];
  }

  // ----- The fleet

  ghost predicate FleetInv(h: Host, live: seq<Member>, origin: Host) {
    AllValid(live) && AllDisjoint(live) && AllHeld(h, live) && EngineReady(h) && StripAll(h, live) == origin
  }

  /** A box that can be prepared now: a fresh attempt, its network name free and
      its names shared with no live box. */
  predicate Admissible(h: Host, live: seq<Member>, m: Member)
    requires AllValid(live) && m.Valid()
  {
    && FreshAttempt(h, m.box, m.attempt) && m.Names().network !in h.networks
    && forall i | 0 <= i < |live| :: Disjoint(m.Names(), live[i].Names())
  }

  lemma Joins(h: Host, h': Host, live: seq<Member>, m: Member, origin: Host)
    requires FleetInv(h, live, origin) && m.Valid() && (forall o | o in live :: Disjoint(m.Names(), o.Names()))
    requires AllHeld(h', live) && EngineReady(h')
    requires Recoverable(h', h, m.Attempt()) && m.Names().network in h'.networks
    ensures FleetInv(h', live + [m], origin)
  {
    hide Held, Recoverable, EngineReady, AttemptFor, Strip, Disjoint, AllDisjoint, StripAll;
    RecoverableIsHeld(h', h, m.Attempt());
    StripLast(h', live, m);
    DisjointJoin(live, m);
    assert AllHeld(h', live + [m]);
  }

  lemma DisjointJoin(live: seq<Member>, m: Member)
    requires AllValid(live) && AllDisjoint(live) && m.Valid() && forall o | o in live :: Disjoint(m.Names(), o.Names())
    ensures AllValid(live + [m]) && AllDisjoint(live + [m])
  {
    hide Disjoint;
    var all := live + [m];
    forall i, j | 0 <= i < |all| && 0 <= j < |all| && i != j
      ensures Disjoint(all[i].Names(), all[j].Names())
    {
      assert i < |live| ==> all[i] == live[i];
      assert j < |live| ==> all[j] == live[j];
      DisjointSymmetric(all[i].Names(), all[j].Names());
    }
  }

  lemma DisjointSymmetric(m: Names, n: Names)
    ensures Disjoint(m, n) <==> Disjoint(n, m)
  {
  }

  /** What is left after a cleanup of member `i`, finished or not. */
  lemma Leaves(h: Host, h': Host, live: seq<Member>, i: nat, origin: Host)
    requires i < |live| && FleetInv(h, live, origin) && EngineReady(h')
    requires Recoverable(h', Strip(h, live[i].Names()), live[i].Attempt())
    requires AllValid(Others(live, i)) && AllHeld(h', Others(live, i))
    ensures if live[i].Names().network in h'.networks then FleetInv(h', live, origin)
            else h' == Strip(h, live[i].Names()) && FleetInv(h', Others(live, i), origin)
  {
    var m := live[i];
    assert m.Names().network in h'.networks || h' == Strip(h, m.Names());
    hide Held, Recoverable, EngineReady, AttemptFor, Strip, Disjoint;
    OthersFacts(live, i);
    StripAny(h, live, i);
    StripAny(h', live, i);
    RecoverableIsHeld(h', Strip(h, m.Names()), m.Attempt());
    if m.Names().network in h'.networks {
      forall o | o in live
        ensures Held(h', o.Attempt()) && o.Names().network in h'.networks
      {
        if o != m { InOthers(live, i, o); }
      }
    }
  }

  lemma PreparedPart(h: Host, h0: Host, m: Member, outcome: Outcome)
    requires m.Valid() && m.Names().network !in h0.networks
    requires outcome == Prepared ==> Installed(h, h0, m.Attempt())
    requires outcome == Refused ==> h == h0
    requires outcome == RollbackFailed ==> h == h0 || Recoverable(h, h0, m.Attempt())
    ensures if m.Names().network in h.networks then outcome != Refused && Recoverable(h, h0, m.Attempt())
            else h == h0 && outcome != Prepared
  {
    hide FamilyInv, Apart;
  }

  /** What a cleanup of a live member starts from. */
  lemma MemberFacts(h: Host, m: Member)
    requires m.Valid() && Held(h, m.Attempt()) && EngineReady(h)
    ensures AttemptOf(m.Attempt(), m.box) && Recoverable(h, Strip(h, m.Names()), m.Attempt())
    ensures EngineReady(Strip(h, m.Names())) && m.box.Network() == m.Names().network
  {
    AttemptForIsAttempt(m.box, m.attempt, m.targets, m.subnets);
    StripKeepsReady(h, m.Names());
    hide Recoverable, AttemptOf, EngineReady, Strip;
  }

  lemma StrippedNetwork(h: Host, n: Names)
    ensures n.network !in Strip(h, n).networks
  {
  }

  lemma InOthers(live: seq<Member>, i: nat, o: Member)
    requires i < |live| && o in live && o != live[i]
    ensures o in Others(live, i)
  {
    var k :| 0 <= k < |live| && live[k] == o;
    assert Others(live, i)[if k < i then k else k - 1] == o;
  }

  // ----- What packets meet

  /** Every installed box is filtered by its own plan, however many boxes were
      prepared before or after it, and at every host on the way. */
  lemma FleetFilters(h: Host, m: Member, f: Family, p: Packet)
    requires EngineReady(h) && m.Valid() && Standing(h, m.Attempt())
    requires p.iface == m.Names().bridge && OneFamily(p) && p.dst.V6? == (f == Inet6)
    ensures Traverse(h.Table(f), Forward, p) == if MayForward(m.targets, p) then Accepted else Dropped
    ensures Traverse(h.Table(f), Input, p) == if MayReachHost(p) then Accepted else Dropped
  {
    StripKeepsReady(h, m.Names());
    hide EngineReady, Installed, Strip, MayForward, MayReachHost, Traverse, AttemptFor;
    PreparedFilters(h, Strip(h, m.Names()), m.box, m.attempt, m.targets, m.subnets, f, p);
  }

  /** Packets of every other interface are treated as on the machine without any
      box. */
  lemma {:induction false} FleetPasses(h: Host, live: seq<Member>, f: Family, builtin: ChainName, p: Packet)
    requires AllValid(live) && AllDisjoint(live) && (forall m | m in live :: Held(h, m.Attempt()) && p.iface != m.Names().bridge)
    requires builtin in {Forward, Input, DockerUser}
    ensures Traverse(h.Table(f), builtin, p) == Traverse(StripAll(h, live).Table(f), builtin, p)
    decreases |live|
  {
    if live != [] {
      hide Held, Strip, Traverse, AttemptFor, Disjoint;
      var m, rest := live[0], live[1..];
      assert m in live && Others(live, 0) == rest;
      HeldPasses(h, m, f, builtin, p);
      OthersFacts(live, 0);
      forall o | o in rest
        ensures Held(Strip(h, m.Names()), o.Attempt())
      {
        StripHolds(h, o.Attempt(), m.Names());
      }
      FleetPasses(Strip(h, m.Names()), rest, f, builtin, p);
    }
  }

  lemma HeldPasses(h: Host, m: Member, f: Family, builtin: ChainName, p: Packet)
    requires m.Valid() && Held(h, m.Attempt()) && p.iface != m.Names().bridge && builtin in {Forward, Input, DockerUser}
    ensures Traverse(h.Table(f), builtin, p) == Traverse(Strip(h, m.Names()).Table(f), builtin, p)
  {
    hide Recoverable, Strip, Traverse, AttemptFor;
    OtherInterfacesUnaffected(h, Strip(h, m.Names()), m.Attempt(), f, builtin, p);
  }

  datatype Op =
    | Start(member: Member, script: seq<Fault>)
    | Stop(index: nat, script: seq<Fault>)

  class Fleet {
    const machine: Controller
    var live: seq<Member>
    ghost const origin: Host

    ghost predicate Valid()
      reads this, machine
    {
      machine.Valid() && FleetInv(machine.host, live, origin)
    }

    constructor (h: Host)
      requires EngineReady(h)
      ensures Valid() && fresh(machine) && machine.host == h == origin && live == []
    {
      machine := new Controller(h, []);
      live, origin := [], h;
    }

    /** No live box notices: at every host on the way it is held, and stays
        installed if it was. */
    twostate predicate Unnoticed(members: seq<Member>)
      requires AllValid(members)
      reads machine
    {
      && old(machine.log) <= machine.log
      && (forall i | |old(machine.log)| <= i < |machine.log| :: EngineReady(machine.log[i].host))
      && forall o | o in members ::
           && Undisturbed(old(machine.host), machine.log, |old(machine.log)|, o.Attempt())
           && (Standing(old(machine.host), o.Attempt()) ==> Standing(machine.host, o.Attempt()))
    }

    /** Prepares a further box. */
    method StartBox(m: Member, script: seq<Fault>) returns (outcome: Outcome)
      requires Valid() && m.Valid() && Admissible(machine.host, live, m)
      modifies this, machine
      ensures Valid() && Unnoticed(old(live))
      ensures live == old(live) || live == old(live) + [m]
      ensures live == old(live) ==> machine.host == old(machine.host)
      ensures outcome == Prepared ==> live == old(live) + [m] && Standing(machine.host, m.Attempt())
      ensures outcome == Refused ==> live == old(live)
      ensures script == [] && OutsideSubnets(m.targets, m.subnets) ==> outcome == Prepared
    {
      hide EngineReady, FreshAttempt, OutsideSubnets, Recoverable, AttemptFor, Trail, Strip, Disjoint, Held, StripAll, ClosedAttempt, Installed;
      ghost var a, h, members := m.Attempt(), machine.host, live;
      assert m.box.Network() == m.Names().network;
      machine.faults := script;
      outcome := machine.Prepare(m.box, m.attempt, m.targets, m.subnets);
      CallBeside(machine.start, old(machine.log), h, machine.log, machine.host, m.Names(), members);
      PreparedPart(machine.host, h, m, outcome);
      if m.Names().network in machine.host.networks {
        RecoverableIsHeld(machine.host, h, a);
        Joins(h, machine.host, members, m, origin);
        live := live + [m];
      }
    }

    /** Cleans up one live box. */
    method StopBox(i: nat, script: seq<Fault>) returns (ok: bool)
      requires Valid() && i < |live|
      modifies this, machine
      ensures Valid() && AllValid(Others(old(live), i)) && Unnoticed(Others(old(live), i))
      ensures live == old(live) || live == Others(old(live), i)
      ensures live == Others(old(live), i) ==> machine.host == Strip(old(machine.host), old(live)[i].Names())
      ensures ok ==> live == Others(old(live), i)
      ensures script == [] ==> ok
    {
      hide EngineReady, Recoverable, AttemptFor, Trail, Strip, Disjoint, Held, StripAll, ClosedAttempt, AttemptOf, Orphans, Standing, Undisturbed;
      ghost var h, members := machine.host, live;
      var m := live[i];
      ghost var a, h0 := m.Attempt(), Strip(h, m.Names());
      MemberFacts(h, m);
      OthersFacts(live, i);
      machine.faults := script;
      ok := machine.CleanupBox(m.box, h0, a);
      CallBeside(machine.start, old(machine.log), h, machine.log, machine.host, m.Names(), Others(members, i));
      Leaves(h, machine.host, members, i, origin);
      if ok { StrippedNetwork(h, m.Names()); }
      if m.Names().network !in machine.host.networks { live := Others(live, i); }
    }

    /** Any calls, in any order, with any failures. */
    method Session(ops: seq<Op>)
      requires Valid() && forall op | op in ops && op.Start? :: op.member.Valid()
      modifies this, machine
      ensures Valid()
    {
      for k := 0 to |ops|
        invariant Valid()
      {
        assert ops[k] in ops;
        match ops[k]
        case Start(m, script) =>
          if Admissible(machine.host, live, m) { var _ := StartBox(m, script); }
        case Stop(i, script) =>
          if i < |live| { var _ := StopBox(i, script); }
      }
    }

    /** One failure-free cleanup each, in any order, and the machine is what it
        was before any of them. */
    method Drain(order: seq<nat>)
      requires Valid()
      modifies this, machine
      ensures Valid() && live == [] && machine.host == origin
    {
      var rest := order;
      while live != []
        invariant Valid()
        decreases |live|
      {
        var i := if rest == [] then 0 else rest[0] % |live|;
        rest := if rest == [] then [] else rest[1..];
        var _ := StopBox(i, []);
      }
    }
  }
}
