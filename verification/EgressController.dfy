/** The controller that installs and removes a box's egress filter, one host
    command at a time, where any command may fail before or after taking
    effect. */
module EgressController {
  import opened Firewall
  import opened EgressNames
  import opened EgressHost
  import opened EgressInvariant
  import opened EgressRecovery
  import opened Wrappers

  /** How one command behaves. `Blank` is a success that prints nothing; a
      failure either exits with a nonzero status or raises a host error. */
  datatype Fault = Healthy | Blank | FailsBefore(raised: bool) | FailsAfter(raised: bool)

  predicate Failing(f: Fault) { f.FailsBefore? || f.FailsAfter? }

  /** How many of the coming commands fail. */
  function Fails(script: seq<Fault>): nat {
    if script == [] then 0 else (if Failing(script[0]) then 1 else 0) + Fails(script[1..])
  }

  lemma FailsNone()
    ensures Fails([]) == 0
  {
  }

  datatype Outcome = Prepared | Refused | RollbackFailed

  /** A mutating command issued for the attempt with these names, the host it
      met, the host it left behind and how it behaved. */
  datatype Step = Step(names: Names, command: Command, before: Host, host: Host, fault: Fault)

  ghost predicate NewChainStep(s: Step) { s.command.Filter? && s.command.op.NewChain? }

  /** No chain was created since position `from`. */
  ghost predicate Quiet(log: seq<Step>, from: nat) {
    forall i | from <= i < |log| :: !NewChainStep(log[i])
  }

  /** Some chain was created by a command that reported a failure. */
  ghost predicate Stranded(log: seq<Step>, from: nat) {
    exists i | from <= i < |log| :: NewChainStep(log[i]) && log[i].fault.FailsAfter?
  }

  /** The log grew by one command, and the host is what the command made of it. */
  ghost predicate Logged(earlier: seq<Step>, log: seq<Step>, n: Names, cmd: Command, before: Host, host: Host) {
    && |log| == |earlier| + 1
    && log == earlier + [Step(n, cmd, before, host, log[|earlier|].fault)]
    && host == if Apply(before, cmd).Some? && !log[|earlier|].fault.FailsBefore? then Apply(before, cmd).value else before
  }

  /** The reply of the last command and the failures it used up. */
  ghost predicate Replied(earlier: seq<Step>, log: seq<Step>, cmd: Command, before: Host, ok: bool, script: seq<Fault>, rest: seq<Fault>)
    requires |log| == |earlier| + 1
  {
    && (ok <==> Apply(before, cmd).Some? && !Failing(log[|earlier|].fault))
    && Fails(script) == Fails(rest) + if Failing(log[|earlier|].fault) then 1 else 0
  }

  ghost predicate StepTaken(s: Step) {
    OwnCommand(s.names, s.command) && (s.host == s.before || Apply(s.before, s.command) == Some(s.host))
  }

  /** The host before step `i`, and the current one after all of them. */
  ghost function HostAt(start: Host, log: seq<Step>, i: nat): Host
    requires i <= |log|
  {
    if i == 0 then start else log[i - 1].host
  }

  /** The log leads from `start` to `host`, one command of its attempt at a time. */
  ghost predicate Trail(start: Host, log: seq<Step>, host: Host) {
    && (forall i | 0 <= i < |log| :: StepTaken(log[i]) && log[i].before == HostAt(start, log, i))
    && host == HostAt(start, log, |log|)
  }

  lemma TrailGrows(start: Host, log: seq<Step>, host: Host, s: Step)
    requires Trail(start, log, host) && StepTaken(s) && s.before == host
    ensures Trail(start, log + [s], s.host)
  {
    hide StepTaken, HostAt;
    forall i | 0 <= i < |log| + 1
      ensures StepTaken((log + [s])[i]) && (log + [s])[i].before == HostAt(start, log + [s], i)
    {
      SameHostAt(start, log, s, i);
    }
    SameHostAt(start, log, s, |log|);
  }

  lemma SameHostAt(start: Host, log: seq<Step>, s: Step, i: nat)
    requires i <= |log|
    ensures HostAt(start, log + [s], i) == HostAt(start, log, i) && HostAt(start, log + [s], |log| + 1) == s.host
  {
  }

  // ----- Recoverable runs

  /** Every host since position `from` of the log was recoverable. */
  ghost predicate AllRecoverable(log: seq<Step>, from: nat, h0: Host, a: Attempt) {
    forall i | from <= i < |log| :: log[i].names == a.names && Recoverable(log[i].host, h0, a)
  }

  /** Every command since position `from` is a cleanup command, and every host
      differs from `start` in nothing but what these may touch. */
  ghost predicate AllFramed(log: seq<Step>, from: nat, start: Host, n: Names) {
    forall i | from <= i < |log| ::
      log[i].names == n && CleanupCommand(n, log[i].command) && HostFramed(start, log[i].host, n)
  }

  lemma {:induction false} PinnedRulesAppend(xs: seq<PinnedTarget>, ys: seq<PinnedTarget>, ipv6: bool)
    ensures PinnedRules(xs + ys, ipv6) == PinnedRules(xs, ipv6) + PinnedRules(ys, ipv6)
    decreases |xs|
  {
    if xs == [] {
      assert xs + ys == ys;
    } else {
      hide PinnedRule;
      PinnedRulesAppend(xs[1..], ys, ipv6);
      assert (xs + ys)[0] == xs[0] && (xs + ys)[1..] == xs[1..] + ys;
      var first := if xs[0].address.V6? == ipv6 then [PinnedRule(xs[0])] else [];
      assert first + PinnedRules(xs[1..] + ys, ipv6) == first + PinnedRules(xs[1..], ipv6) + PinnedRules(ys, ipv6);
    }
  }

  lemma PinnedRulesSnoc(targets: seq<PinnedTarget>, i: nat, ipv6: bool)
    requires i < |targets|
    ensures PinnedRules(targets[..i + 1], ipv6) ==
            PinnedRules(targets[..i], ipv6) + if targets[i].address.V6? == ipv6 then [PinnedRule(targets[i])] else []
  {
    assert targets[..i + 1] == targets[..i] + [targets[i]];
    PinnedRulesAppend(targets[..i], [targets[i]], ipv6);
  }

  lemma PinnedRulesPrefix(targets: seq<PinnedTarget>, i: nat, ipv6: bool)
    requires i <= |targets|
    ensures PinnedRules(targets[..i], ipv6) <= PinnedRules(targets, ipv6)
  {
    assert targets == targets[..i] + targets[i..];
    PinnedRulesAppend(targets[..i], targets[i..], ipv6);
  }

  /** A chain of the attempt that exists is among the owned ones. */
  ghost predicate ListedAt(h: Host, n: Names, owned: set<Slot>, s: Slot) {
    ChainOf(n, s.direction) in h.Table(s.family) ==> s in owned
  }

  /** An empty chain of the attempt that is not among the owned ones. */
  ghost predicate Stray(h: Host, n: Names, owned: set<Slot>) {
    exists s: Slot :: ChainOf(n, s.direction) in h.Table(s.family) && h.Table(s.family)[ChainOf(n, s.direction)] == [] && s !in owned
  }

  ghost predicate AllListed(h: Host, n: Names, owned: set<Slot>) { forall s: Slot :: ListedAt(h, n, owned, s) }

  /** Every chain that exists is among the owned ones, unless its creation
      reported a failure. */
  ghost predicate Accounted(log: seq<Step>, from: nat, h: Host, n: Names, owned: set<Slot>) {
    if Stranded(log, from) then Stray(h, n, owned) else AllListed(h, n, owned)
  }

  lemma QuietIsNotStranded(log: seq<Step>, from: nat)
    requires Quiet(log, from)
    ensures !Stranded(log, from)
  {
  }

  /** A longer log strands a chain in its earlier or in its later part. */
  lemma StrandedSplit(earlier: seq<Step>, log: seq<Step>, from: nat)
    requires earlier <= log && from <= |earlier|
    ensures Stranded(log, from) <==> Stranded(earlier, from) || Stranded(log, |earlier|)
  {
    hide NewChainStep;
    if i :| from <= i < |earlier| && NewChainStep(earlier[i]) && earlier[i].fault.FailsAfter? {
      assert log[i] == earlier[i];
    }
    if i :| from <= i < |log| && NewChainStep(log[i]) && log[i].fault.FailsAfter? {
      assert i < |earlier| ==> earlier[i] == log[i];
    }
  }

  lemma QuietSplit(earlier: seq<Step>, log: seq<Step>, from: nat)
    requires earlier <= log && from <= |earlier| && Quiet(earlier, from) && Quiet(log, |earlier|)
    ensures Quiet(log, from)
  {
    hide NewChainStep;
    forall i | from <= i < |log|
      ensures !NewChainStep(log[i])
    {
      if i < |earlier| { assert log[i] == earlier[i]; }
    }
  }

  /** Work on one existing chain leaves the list of owned chains complete. */
  lemma ListedKept(h: Host, h': Host, a: Attempt, s: Slot, owned: set<Slot>)
    requires AllListed(h, a.names, owned) && OthersSame(h, h', a, s) && s in owned
    ensures AllListed(h', a.names, owned)
  {
    forall r: Slot
      ensures ListedAt(h', a.names, owned, r)
    {
      assert ListedAt(h, a.names, owned, r);
      if r != s { assert SameAt(h, h', a, r); }
    }
  }

  /** The same for both chains of a family. */
  lemma ListedKeptFamily(h: Host, h': Host, a: Attempt, f: Family, owned: set<Slot>)
    requires AllListed(h, a.names, owned) && OtherFamilySame(h, h', a, f)
    requires Slot(f, Forwarding) in owned && Slot(f, Inbound) in owned
    ensures AllListed(h', a.names, owned)
  {
    forall r: Slot
      ensures ListedAt(h', a.names, owned, r)
    {
      assert ListedAt(h, a.names, owned, r);
      if r.family != f { assert SameAt(h, h', a, r); }
    }
  }

  /** Quiet work after a complete list. */
  lemma AccountedQuiet(log: seq<Step>, from: nat, h: Host, n: Names, owned: set<Slot>)
    requires AllListed(h, n, owned) && Quiet(log, from)
    ensures Accounted(log, from, h, n, owned) && !Stranded(log, from)
  {
    QuietIsNotStranded(log, from);
  }

  /** Further work after a part that stranded nothing. */
  lemma AccountedLater(earlier: seq<Step>, log: seq<Step>, from: nat, h: Host, n: Names, owned: set<Slot>)
    requires earlier <= log && from <= |earlier| && !Stranded(earlier, from)
    requires Accounted(log, |earlier|, h, n, owned)
    ensures Accounted(log, from, h, n, owned) && (Stranded(log, from) <==> Stranded(log, |earlier|))
  {
    StrandedSplit(earlier, log, from);
  }

  lemma UnstrandedIsListed(log: seq<Step>, from: nat, h: Host, n: Names, owned: set<Slot>)
    requires Accounted(log, from, h, n, owned) && !Stranded(log, from)
    ensures AllListed(h, n, owned)
  {
  }

  lemma NothingIsQuiet(log: seq<Step>)
    ensures Quiet(log, |log|)
  {
  }

  lemma ClearIsListed(h: Host, h0: Host, a: Attempt)
    requires forall s: Slot :: ClearAt(h, h0, a, s)
    ensures AllListed(h, a.names, {})
  {
    forall s: Slot
      ensures ListedAt(h, a.names, {}, s)
    {
      assert ClearAt(h, h0, a, s);
    }
  }

  lemma FamilyStaysClear(h: Host, h': Host, h0: Host, a: Attempt, f: Family, s: Slot)
    requires OtherFamilySame(h, h', a, f) && s.family != f && ClearAt(h, h0, a, s)
    ensures ClearAt(h', h0, a, s)
  {
    SameStaysClear(h, h', h0, a, s);
  }

  lemma FamilyStaysHooked(h: Host, h': Host, h0: Host, a: Attempt, f: Family, s: Slot)
    requires OtherFamilySame(h, h', a, f) && s.family != f && HookedAt(h, h0, s)
    ensures HookedAt(h', h0, s)
  {
    SameStaysHooked(h, h', h0, a, s);
  }

  lemma LoggedReply(earlier: seq<Step>, log: seq<Step>, n: Names, cmd: Command, h: Host, h': Host)
    requires Logged(earlier, log, n, cmd, h, h')
    ensures earlier <= log && |log| == |earlier| + 1 && log[|earlier|].names == n && log[|earlier|].host == h'
  {
  }

  /** A complete list is what the rollback can verify. */
  lemma ListedIsVerified(h: Host, h0: Host, a: Attempt, box: Identity, owned: set<Slot>)
    requires AttemptOf(a, box) && TrackingAt(h, h0, a) && AllListed(h, a.names, owned)
    ensures Verified(h, box, owned, false) && box.Network() in h.networks
  {
    hide Recoverable, AttemptOf, Removable, ClosedAttempt;
    RecoverableNetwork(h, h0, a, box);
    RecoverableIsVerified(h, h0, a, box, owned) by { ClosedOfAttempt(a, box); }
    forall s: Slot
      ensures SlotVerified(h, a.names, owned, false, s)
    {
      assert ListedAt(h, a.names, owned, s) && SlotVerified(h, a.names, owned, true, s);
    }
  }

  lemma VerifiedHasLabels(h: Host, box: Identity, created: set<Slot>, reclaimEmpty: bool)
    requires box.Valid() && Verified(h, box, created, reclaimEmpty)
    ensures LabelsVerified(h, box)
  {
  }

  lemma ValidOfAttempt(a: Attempt, box: Identity)
    requires AttemptOf(a, box)
    ensures box.Valid()
  {
  }

  lemma ClosedOfAttempt(a: Attempt, box: Identity)
    requires AttemptOf(a, box)
    ensures ClosedAttempt(a)
  {
  }

  /** A stray chain is what it cannot. */
  lemma StrayIsUnverified(h: Host, h0: Host, a: Attempt, box: Identity, owned: set<Slot>)
    requires AttemptOf(a, box) && TrackingAt(h, h0, a) && Stray(h, a.names, owned)
    ensures !Verified(h, box, owned, false) && box.Network() in h.networks
  {
    RecoverableNetwork(h, h0, a, box);
    RecoverableIsVerified(h, h0, a, box, owned);
    hide Recoverable, AttemptOf, ClosedAttempt;
    var s: Slot :| ChainOf(a.names, s.direction) in h.Table(s.family) && h.Table(s.family)[ChainOf(a.names, s.direction)] == [] && s !in owned;
    assert !SlotVerified(h, a.names, owned, false, s);
  }

  lemma CreationIsQuiet(earlier: seq<Step>, log: seq<Step>, n: Names, network: Network, h: Host, h': Host)
    requires Logged(earlier, log, n, CreateNetwork(n.network, network), h, h')
    ensures Quiet(log, |earlier|) && earlier <= log && |log| == |earlier| + 1
    ensures log[|earlier|].names == n && log[|earlier|].host == h'
  {
  }

  lemma RecoverableIsCleanable(h: Host, h0: Host, a: Attempt, box: Identity)
    requires AttemptOf(a, box) && Recoverable(h, h0, a) && (box.Network() in h.networks || !Orphans(h0, box))
    ensures Cleanable(h, box, {}, true)
  {
    RecoverableNetwork(h, h0, a, box);
    if box.Network() in h.networks { RecoverableIsVerified(h, h0, a, box, {}); }
  }

  lemma FramedIsQuiet(log: seq<Step>, from: nat, begun: Host, n: Names)
    requires AllFramed(log, from, begun, n)
    ensures Quiet(log, from)
  {
    hide HostFramed;
  }

  /** What the creation of a chain leaves, whatever it reports. */
  lemma CreationAccounted(
      earlier: seq<Step>, log: seq<Step>, h: Host, h': Host, a: Attempt, s: Slot, created: set<Slot>)
    requires Logged(earlier, log, a.names, Filter(s.family, NewChain(ChainOf(a.names, s.direction))), h, h')
    requires AllListed(h, a.names, created) && s !in created
    requires OthersSame(h, h', a, s) && Apply(h, Filter(s.family, NewChain(ChainOf(a.names, s.direction)))).Some?
    ensures AllListed(h', a.names, created + {s})
    ensures Failing(log[|earlier|].fault) ==> Accounted(log, |earlier|, h', a.names, created)
    ensures Stranded(log, |earlier|) <==> log[|earlier|].fault.FailsAfter?
  {
    forall r: Slot
      ensures ListedAt(h', a.names, created + {s}, r)
    {
      assert ListedAt(h, a.names, created, r);
      if r != s { assert SameAt(h, h', a, r); }
    }
    assert NewChainStep(log[|earlier|]);
    if log[|earlier|].fault.FailsAfter? {
      assert ChainOf(a.names, s.direction) in h'.Table(s.family) && h'.Table(s.family)[ChainOf(a.names, s.direction)] == [];
    }
  }

  /** Nothing but a failing command can keep this attempt from being prepared: the
      name is free, the targets are outside the assigned subnets and the creation
      was confirmed. */
  ghost predicate Sound(h0: Host, box: Identity, targets: seq<PinnedTarget>, subnets: seq<Prefix>, log: seq<Step>, from: nat)
    requires box.Valid()
  {
    box.Network() !in h0.networks && OutsideSubnets(targets, subnets) && (from < |log| ==> !log[from].fault.Blank?)
  }

  /** A host on which cleanup can succeed: everything is verified, or there is
      neither network nor orphaned chain. */
  ghost predicate Cleanable(h: Host, box: Identity, created: set<Slot>, reclaimEmpty: bool)
    requires box.Valid()
  {
    if box.Network() in h.networks then Verified(h, box, created, reclaimEmpty) else !Orphans(h, box)
  }

  lemma ChainCleanups(n: Names, s: Slot)
    ensures CleanupCommand(n, Filter(s.family, Flush(ChainOf(n, s.direction))))
    ensures CleanupCommand(n, Filter(s.family, DeleteChain(ChainOf(n, s.direction))))
    ensures CleanupCommand(n, Filter(s.family, Append(ChainOf(n, s.direction), Marker(n.marker, s.family == Inet6))))
  {
  }

  lemma MarkingMarks(h: Host, h': Host, a: Attempt, s: Slot)
    requires EmptiedAt(h, a, s)
    requires h' == h || Apply(h, Filter(s.family, Append(ChainOf(a.names, s.direction), Marker(a.names.marker, s.family == Inet6)))) == Some(h')
    ensures Apply(h, Filter(s.family, Append(ChainOf(a.names, s.direction), Marker(a.names.marker, s.family == Inet6)))).Some? <==>
            ChainOf(a.names, s.direction) in h.Table(s.family)
    ensures Apply(h, Filter(s.family, Append(ChainOf(a.names, s.direction), Marker(a.names.marker, s.family == Inet6)))) == Some(h') ==>
              ChainIs(h', a, s, [Marker(a.names.marker, s.family == Inet6)])
    ensures ChainOf(a.names, s.direction) in h'.Table(s.family) <==> ChainOf(a.names, s.direction) in h.Table(s.family)
  {
  }

  lemma NetworkCommandsOwn(n: Names, network: Network)
    ensures OwnCommand(n, CreateNetwork(n.network, network)) && OwnCommand(n, RemoveNetwork(n.network))
  {
  }

  lemma CreateAccepted(h: Host, name: string, network: Network)
    ensures Apply(h, CreateNetwork(name, network)).Some? <==> name !in h.networks
  {
  }

  class Controller {
    var host: Host
    var faults: seq<Fault>
    ghost const start: Host
    ghost var log: seq<Step>

    ghost predicate Valid()
      reads this`host, this`log
    {
      Trail(start, log, host)
    }

    constructor (h: Host, script: seq<Fault>)
      ensures Valid() && host == h && faults == script && log == []
    {
      host, faults, start, log := h, script, h, [];
    }

    method Draw() returns (fault: Fault)
      modifies this`faults
      ensures old(faults) == [] ==> fault == Healthy && faults == []
      ensures Fails(old(faults)) == Fails(faults) + if Failing(fault) then 1 else 0
    {
      fault := Healthy;
      if faults != [] {
        fault, faults := faults[0], faults[1..];
      }
    }

    /** A command that only reads; its answer is truthful when it succeeds. */
    method Query() returns (ok: bool)
      modifies this`faults
      ensures Fails(old(faults)) == Fails(faults) + if ok then 0 else 1
      ensures old(faults) == [] ==> faults == []
    {
      var fault := Draw();
      ok := fault.Healthy? || fault.Blank?;
    }

    /** A command that changes the host. `raised` tells a host error from a
        nonzero exit when it fails. */
    method Mutate(n: Names, cmd: Command) returns (ok: bool, raised: bool)
      requires OwnCommand(n, cmd)
      requires Valid()
      modifies this
      ensures Valid()
      ensures Logged(old(log), log, n, cmd, old(host), host)
      ensures Replied(old(log), log, cmd, old(host), ok, old(faults), faults)
      ensures raised <==> Failing(log[|old(log)|].fault) && log[|old(log)|].fault.raised
    {
      hide Trail, OwnCommand, Apply, Fails;
      var fault := Draw();
      var applied := Apply(host, cmd);
      if applied.Some? && !fault.FailsBefore? {
        host := applied.value;
      }
      ok := applied.Some? && (fault.Healthy? || fault.Blank?);
      raised := (fault.FailsBefore? || fault.FailsAfter?) && fault.raised;
      TrailGrows(start, log, old(host), Step(n, cmd, old(host), host, fault));
      log := log + [Step(n, cmd, old(host), host, fault)];
    }

    // ----- Cleanup

    /** Lists the rules before each ownership decision; mutates nothing. */
    method Preflight(n: Names, created: set<Slot>, reclaimEmpty: bool) returns (owned: Option<set<Slot>>)
      modifies this`faults
      ensures owned.Some? ==> forall s: Slot :: SlotVerified(host, n, created, reclaimEmpty, s)
      ensures owned.Some? ==> forall s: Slot :: s in owned.value <==> ChainOf(n, s.direction) in host.Table(s.family)
      ensures Fails(faults) <= Fails(old(faults)) && (owned.Some? ==> Fails(faults) == Fails(old(faults)))
      ensures Fails(faults) == Fails(old(faults)) && (forall s: Slot :: SlotVerified(host, n, created, reclaimEmpty, s)) ==> owned.Some?
    {
      var found: set<Slot> := {};
      for i := 0 to |SLOTS|
        invariant forall j | 0 <= j < i :: SlotVerified(host, n, created, reclaimEmpty, SLOTS[j])
        invariant forall j | 0 <= j < i :: SLOTS[j] in found <==> ChainOf(n, SLOTS[j].direction) in host.Table(SLOTS[j].family)
        invariant forall j | i <= j < |SLOTS| :: SLOTS[j] !in found
        invariant Fails(faults) == Fails(old(faults))
      {
        var s := SLOTS[i];
        var listed := Query();
        if !listed { return None; }
        var t, chain := host.Table(s.family), ChainOf(n, s.direction);
        if chain in t {
          if !Removable(t, chain, n.marker, s in created || reclaimEmpty) {
            assert !SlotVerified(host, n, created, reclaimEmpty, s);
            return None;
          }
          found := found + {s};
        }
      }
      forall s: Slot
        ensures SlotVerified(host, n, created, reclaimEmpty, s)
        ensures s in found <==> ChainOf(n, s.direction) in host.Table(s.family)
      {
        assert s == SLOTS[0] || s == SLOTS[1] || s == SLOTS[2] || s == SLOTS[3];
      }
      return Some(found);
    }

    /** A cleanup command on one slot. */
    method Issue(n: Names, s: Slot, op: TableOp, ghost begun: Host, ghost h0: Host, ghost a: Attempt) returns (ok: bool)
      requires HostFramed(begun, host, n) && CleanupCommand(n, Filter(s.family, op))
      requires Valid()
      modifies this
      ensures Valid()
      ensures HostFramed(begun, host, n) && AllFramed(log, |old(log)|, begun, n)
      ensures host == old(host) || Apply(old(host), Filter(s.family, op)) == Some(host)
      ensures ok ==> Apply(old(host), Filter(s.family, op)) == Some(host)
      ensures old(log) <= log && |log| == |old(log)| + 1 && log[|old(log)|].names == n && log[|old(log)|].host == host
      ensures Fails(faults) <= Fails(old(faults))
      ensures ok <==> Fails(faults) == Fails(old(faults)) && Apply(old(host), Filter(s.family, op)).Some?
      ensures SanctionedAt(old(host), h0, a, s, op) ==> TrackingAt(host, h0, a) && OthersSame(old(host), host, a, s)
    {
      hide Trail, OwnCommand, HostFramed, Recoverable, Sanctioned, ClosedAttempt, OthersSame;
      var raised;
      CleanupIsOwn(n, Filter(s.family, op));
      ok, raised := Mutate(n, Filter(s.family, op));
      HostFramedStep(begun, old(host), host, n, Filter(s.family, op));
      if SanctionedAt(old(host), h0, a, s, op) {
        SanctionedStep(old(host), host, h0, a, s, op);
      }
    }

    /** Removes the hook of one verified chain, if it is listed. */
    method Unhook(n: Names, s: Slot, ghost begun: Host, ghost h0: Host, ghost a: Attempt) returns (ok: bool)
      requires HostFramed(begun, host, n)
      requires Valid()
      modifies this
      ensures Valid()
      ensures HostFramed(begun, host, n)
      ensures old(log) <= log && AllFramed(log, |old(log)|, begun, n)
      ensures Fails(faults) <= Fails(old(faults)) && (ok ==> Fails(faults) == Fails(old(faults)))
      ensures n == a.names && TrackingAt(old(host), h0, a) ==>
                && TrackingAt(host, h0, a)
                && AllRecoverable(log, |old(log)|, h0, a)
                && OthersSame(old(host), host, a, s)
                && (ok ==> UnhookedAt(host, h0, s))
                && (ChainOf(n, s.direction) in old(host).Table(s.family) ==> ChainOf(n, s.direction) in host.Table(s.family))
                && (Fails(faults) == Fails(old(faults)) ==> ok)
    {
      hide Trail, OwnCommand, HostFramed, Recoverable, Sanctioned, ClosedAttempt;
      var parent, hook := Parent(s.direction), Hook(n, s.direction);
      ghost var tracking := n == a.names && TrackingAt(host, h0, a);
      ok := Query();
      if !ok { return; }
      if tracking { UnlistedIsUnhooked(host, h0, a, s); }
      if parent in host.Table(s.family) && hook in host.Table(s.family)[parent] {
        ok := Issue(n, s, DeleteRule(parent, hook), begun, h0, a);
        if tracking && ok { UnhookWorks(old(host), host, h0, a, s); }
      }
    }

    /** Flushes and deletes one unhooked chain, marking it again when the
        deletion fails. */
    method Dismantle(n: Names, s: Slot, ghost begun: Host, ghost h0: Host, ghost a: Attempt) returns (ok: bool)
      requires HostFramed(begun, host, n)
      requires Valid()
      modifies this
      ensures Valid()
      ensures HostFramed(begun, host, n)
      ensures old(log) <= log && AllFramed(log, |old(log)|, begun, n)
      ensures Fails(faults) <= Fails(old(faults)) && (ok ==> Fails(faults) == Fails(old(faults)))
      ensures n == a.names && TrackingAt(old(host), h0, a) && UnhookedAt(old(host), h0, s) ==>
                && TrackingAt(host, h0, a)
                && AllRecoverable(log, |old(log)|, h0, a)
                && OthersSame(old(host), host, a, s)
                && (ok ==> ClearAt(host, h0, a, s))
                && (Fails(faults) == Fails(old(faults)) && ChainOf(n, s.direction) in old(host).Table(s.family) ==> ok)
    {
      hide Trail, OwnCommand, HostFramed, Recoverable, SlotClear, Sanctioned, ClosedAttempt, OthersSame, Marker, Apply, SanctionedAt, ClearAt, UnhookedAt, EmptiedAt, Fails, CleanupCommand;
      var chain := ChainOf(n, s.direction);
      ChainCleanups(n, s);
      ghost var tracking := n == a.names && TrackingAt(host, h0, a) && UnhookedAt(host, h0, s);
      ok := Issue(n, s, Flush(chain), begun, h0, a);
      if tracking { FlushWorks(old(host), host, h0, a, s); }
      if !ok { return; }
      ghost var flushed := host;
      ok := DeleteOrMark(n, s, begun, h0, a);
      if tracking { OthersSameTransitive(old(host), flushed, host, a, s); }
    }

    /** Deletes one flushed chain, marking it again when the deletion fails. */
    method DeleteOrMark(n: Names, s: Slot, ghost begun: Host, ghost h0: Host, ghost a: Attempt) returns (ok: bool)
      requires HostFramed(begun, host, n)
      requires Valid()
      modifies this
      ensures Valid()
      ensures HostFramed(begun, host, n)
      ensures old(log) <= log && AllFramed(log, |old(log)|, begun, n)
      ensures Fails(faults) <= Fails(old(faults)) && (ok ==> Fails(faults) == Fails(old(faults)))
      ensures && n == a.names && TrackingAt(old(host), h0, a) && UnhookedAt(old(host), h0, s) && EmptiedAt(old(host), a, s)
              && ChainOf(n, s.direction) in old(host).Table(s.family) ==>
                && TrackingAt(host, h0, a)
                && AllRecoverable(log, |old(log)|, h0, a)
                && OthersSame(old(host), host, a, s)
                && (ok ==> ClearAt(host, h0, a, s))
                && (Fails(faults) == Fails(old(faults)) ==> ok)
                // A chain whose deletion alone failed carries the marker again.
                && (!ok && Fails(old(faults)) == Fails(faults) + 1 && ChainOf(n, s.direction) in host.Table(s.family) ==>
                      ChainIs(host, a, s, [Marker(n.marker, s.family == Inet6)]))
    {
      hide Trail, OwnCommand, HostFramed, Recoverable, SlotClear, Sanctioned, ClosedAttempt, OthersSame, Marker, Apply, SanctionedAt, ClearAt, UnhookedAt, EmptiedAt, Fails, CleanupCommand;
      var chain := ChainOf(n, s.direction);
      ChainCleanups(n, s);
      ghost var tracking := n == a.names && TrackingAt(host, h0, a) && UnhookedAt(host, h0, s) && EmptiedAt(host, a, s)
        && chain in host.Table(s.family);
      ok := Issue(n, s, DeleteChain(chain), begun, h0, a);
      if tracking {
        DeleteWorks(old(host), h0, a, s);
        if ok || host != old(host) { DeleteClears(old(host), host, h0, a, s); }
      }
      ghost var deleted := host;
      if !ok {
        if tracking { RestoreIsSanctioned(host, h0, a, s); }
        var _ := Issue(n, s, Append(chain, Marker(n.marker, s.family == Inet6)), begun, h0, a);
        if tracking {
          OthersSameTransitive(old(host), deleted, host, a, s);
          MarkingMarks(deleted, host, a, s);
        }
        return;
      }
      ok := Query();
      if !ok { return; }
      ok := chain !in host.Table(s.family);
    }

    /** Removes the hook and the chain of one slot. */
    method RemoveChain(n: Names, s: Slot, ghost begun: Host, ghost h0: Host, ghost a: Attempt) returns (ok: bool)
      requires HostFramed(begun, host, n)
      requires Valid()
      modifies this
      ensures Valid()
      ensures HostFramed(begun, host, n)
      ensures old(log) <= log && AllFramed(log, |old(log)|, begun, n)
      ensures Fails(faults) <= Fails(old(faults)) && (ok ==> Fails(faults) == Fails(old(faults)))
      ensures n == a.names && TrackingAt(old(host), h0, a) ==>
                && TrackingAt(host, h0, a)
                && AllRecoverable(log, |old(log)|, h0, a)
                && OthersSame(old(host), host, a, s)
                && (ok ==> ClearAt(host, h0, a, s))
                && (Fails(faults) == Fails(old(faults)) && ChainOf(n, s.direction) in old(host).Table(s.family) ==> ok)
    {
      hide Trail, OwnCommand, HostFramed, Recoverable, SlotClear, ClosedAttempt, OthersSame, UnhookedAt, CleanupCommand;
      ok := Unhook(n, s, begun, h0, a);
      if !ok { return; }
      ghost var middle := host;
      ok := Dismantle(n, s, begun, h0, a);
      if n == a.names && TrackingAt(old(host), h0, a) { OthersSameTransitive(old(host), middle, host, a, s); }
    }

    /** Removes every verified chain, in order. */
    method RemoveChains(n: Names, owned: set<Slot>, ghost h0: Host, ghost a: Attempt) returns (ok: bool)
      requires forall s: Slot :: s in owned <==> ChainOf(n, s.direction) in host.Table(s.family)
      requires Valid()
      modifies this
      ensures Valid()
      ensures HostFramed(old(host), host, n)
      ensures old(log) <= log && AllFramed(log, |old(log)|, old(host), n)
      ensures Fails(faults) <= Fails(old(faults)) && (ok ==> Fails(faults) == Fails(old(faults)))
      ensures n == a.names && TrackingAt(old(host), h0, a) ==>
                && TrackingAt(host, h0, a)
                && AllRecoverable(log, |old(log)|, h0, a)
                && (ok ==> host.v4 == h0.v4 && host.v6 == h0.v6)
                && (Fails(faults) == Fails(old(faults)) ==> ok)
    {
      hide Trail, OwnCommand, HostFramed, Recoverable, SlotClear, ClosedAttempt;
      ghost var begun := host;
      ghost var tracking := n == a.names && TrackingAt(host, h0, a);
      HostFramedSelf(host, n);
      if tracking {
        forall s: Slot | s !in owned ensures ClearAt(host, h0, a, s) { AbsentIsClear(host, h0, a, s); }
      }
      for i := 0 to |SLOTS|
        invariant Valid() && HostFramed(begun, host, n)
        invariant old(log) <= log && AllFramed(log, |old(log)|, begun, n)
        invariant Fails(faults) == Fails(old(faults))
        invariant tracking ==> TrackingAt(host, h0, a) && AllRecoverable(log, |old(log)|, h0, a)
        invariant tracking ==> forall s: Slot | s !in owned :: ClearAt(host, h0, a, s)
        invariant tracking ==> forall j | 0 <= j < i :: ClearAt(host, h0, a, SLOTS[j])
        invariant tracking ==> forall j | i <= j < |SLOTS| && SLOTS[j] in owned ::
                                 ChainOf(n, SLOTS[j].direction) in host.Table(SLOTS[j].family)
      {
        var s := SLOTS[i];
        if s in owned {
          ghost var before := host;
          ok := RemoveChain(n, s, begun, h0, a);
          if !ok { return; }
          if tracking {
            forall r: Slot | r != s && ClearAt(before, h0, a, r) ensures ClearAt(host, h0, a, r) {
              SameStaysClear(before, host, h0, a, r);
            }
            forall j | i < j < |SLOTS| ensures SameAt(before, host, a, SLOTS[j]) {}
          }
        }
      }
      ok := true;
      if tracking { AllClearIsOriginal(host, h0, a); }
    }

    /** `cleanup_native_with_attempt`. */
    method Cleanup(box: Identity, created: set<Slot>, reclaimEmpty: bool, ghost h0: Host, ghost a: Attempt) returns (ok: bool)
      requires box.Valid()
      requires Valid()
      modifies this
      ensures Valid()
      // Nothing is issued before ownership is verified.
      ensures !Verified(old(host), box, created, reclaimEmpty) ==> host == old(host) && log == old(log)
      // Every command is a cleanup command of the labelled attempt, and nothing
      // else is touched by any of them.
      ensures LabelsVerified(old(host), box) ==>
                var n := box.ForAttempt(old(host).networks[box.Network()].attempt);
                HostFramed(old(host), host, n) && AllFramed(log, |old(log)|, old(host), n)
      ensures old(log) <= log
      ensures Fails(faults) <= Fails(old(faults)) && (ok ==> Fails(faults) == Fails(old(faults)))
      // It succeeds only on a host it could verify.
      ensures ok ==> Cleanable(old(host), box, created, reclaimEmpty)
      // A recoverable host stays recoverable, success means it is restored, and
      // if no command fails the verified host is cleaned up.
      ensures AttemptOf(a, box) && Recoverable(old(host), h0, a) ==>
                && Recoverable(host, h0, a)
                && AllRecoverable(log, |old(log)|, h0, a)
                && (ok ==> host == h0)
                && (Fails(faults) == Fails(old(faults)) && Cleanable(old(host), box, created, reclaimEmpty) ==> ok)
    {
      hide Trail, OwnCommand, HostFramed, Recoverable, ClosedAttempt, Mentions, LabelsReadable, SlotVerified, Fails;
      ghost var known := AttemptOf(a, box) && Recoverable(host, h0, a);
      if known {
        RecoverableNetwork(host, h0, a, box);
        if box.Network() in host.networks { RecoverableIsVerified(host, h0, a, box, created); }
      }
      if LabelsVerified(host, box) { HostFramedSelf(host, box.ForAttempt(host.networks[box.Network()].attempt)); }
      ok := Query();
      if !ok { return; }
      if box.Network() !in host.networks {
        ok := Query();
        if !ok { return; }
        if Orphaned(host.v4, box.ChainPrefix()) { return false; }
        ok := Query();
        if !ok { return; }
        ok := !Orphaned(host.v6, box.ChainPrefix());
        return;
      }
      var net := host.networks[box.Network()];
      if !LabelsReadable(net) || net.owner != box.id || net.scope != box.Scope() || !ValidAttempt(net.attempt) {
        return false;
      }
      var n := box.ForAttempt(net.attempt);
      var owned := Preflight(n, created, reclaimEmpty);
      if owned.None? { return false; }
      ok := Demolish(n, owned.value, h0, a);
    }

    /** Removes every verified chain and then the network. */
    method Demolish(n: Names, owned: set<Slot>, ghost h0: Host, ghost a: Attempt) returns (ok: bool)
      requires forall s: Slot :: s in owned <==> ChainOf(n, s.direction) in host.Table(s.family)
      requires Valid()
      modifies this
      ensures Valid()
      ensures HostFramed(old(host), host, n)
      ensures old(log) <= log && AllFramed(log, |old(log)|, old(host), n)
      ensures Fails(faults) <= Fails(old(faults)) && (ok ==> Fails(faults) == Fails(old(faults)))
      ensures n == a.names && TrackingAt(old(host), h0, a) ==>
                && Recoverable(host, h0, a)
                && AllRecoverable(log, |old(log)|, h0, a)
                && (ok ==> host == h0)
                && (Fails(faults) == Fails(old(faults)) ==> ok)
    {
      hide Trail, OwnCommand, HostFramed, Recoverable, ClosedAttempt, Fails, Apply;
      ok := RemoveChains(n, owned, h0, a);
      if !ok { return; }
      ghost var bare := host;
      var raised;
      NetworkCommandsOwn(n, a.network);
      ok, raised := Mutate(n, RemoveNetwork(n.network));
      HostFramedStep(old(host), bare, host, n, RemoveNetwork(n.network));
      if n == a.names && TrackingAt(old(host), h0, a) { RemovalRestores(bare, host, h0, a); }
    }

    // ----- Install

    /** A sanctioned install command on one slot. */
    method Perform(n: Names, s: Slot, op: TableOp, ghost h0: Host, ghost a: Attempt) returns (ok: bool)
      requires n == a.names && SanctionedAt(host, h0, a, s, op) && Modify(host.Table(s.family), op).Some?
      requires Valid()
      modifies this
      ensures Valid()
      ensures host == old(host) || Apply(old(host), Filter(s.family, op)) == Some(host)
      ensures ok ==> Apply(old(host), Filter(s.family, op)) == Some(host)
      ensures Logged(old(log), log, n, Filter(s.family, op), old(host), host)
      ensures Fails(faults) <= Fails(old(faults)) && (ok <==> Fails(faults) == Fails(old(faults)))
      ensures ok <==> !Failing(log[|old(log)|].fault)
      ensures TrackingAt(host, h0, a) && OthersSame(old(host), host, a, s)
    {
      SanctionedIsOwn(host, h0, a, s, op);
      hide Trail, OwnCommand, Recoverable, Sanctioned, ClosedAttempt, OthersSame;
      var raised;
      ok, raised := Mutate(n, Filter(s.family, op));
      SanctionedStep(old(host), host, h0, a, s, op);
    }

    method AppendRule(n: Names, s: Slot, r: Rule, ghost done: seq<Rule>, ghost h0: Host, ghost a: Attempt) returns (ok: bool)
      requires n == a.names && BuildingAt(host, h0, a, s, done)
      requires done + [r] <= FullChain(a, s.direction, s.family)
      requires Valid()
      modifies this
      ensures Valid()
      ensures TrackingAt(host, h0, a) && OthersSame(old(host), host, a, s)
      ensures ok ==> BuildingAt(host, h0, a, s, done + [r])
      ensures old(log) <= log && AllRecoverable(log, |old(log)|, h0, a) && Quiet(log, |old(log)|)
      ensures Fails(faults) <= Fails(old(faults)) && (ok <==> Fails(faults) == Fails(old(faults)))
    {
      hide Trail, OwnCommand, Recoverable, Sanctioned, ClosedAttempt, OthersSame;
      AppendWorks(host, host, h0, a, s, done, r);
      ok := Perform(n, s, Append(ChainOf(n, s.direction), r), h0, a);
      AppendWorks(old(host), host, h0, a, s, done, r);
    }

    method AppendRules(
        n: Names, s: Slot, rules: seq<Rule>, ghost done: seq<Rule>, ghost rest: seq<Rule>, ghost h0: Host, ghost a: Attempt)
      returns (ok: bool)
      requires n == a.names && BuildingAt(host, h0, a, s, done)
      requires done + rules + rest == FullChain(a, s.direction, s.family)
      requires Valid()
      modifies this
      ensures Valid()
      ensures TrackingAt(host, h0, a) && OthersSame(old(host), host, a, s)
      ensures ok ==> BuildingAt(host, h0, a, s, done + rules)
      ensures old(log) <= log && AllRecoverable(log, |old(log)|, h0, a) && Quiet(log, |old(log)|)
      ensures Fails(faults) <= Fails(old(faults)) && (ok <==> Fails(faults) == Fails(old(faults)))
    {
      hide Trail, OwnCommand, Recoverable, ClosedAttempt, OthersSame;
      OthersSameSelf(host, a, s);
      assert done + rules[..0] == done;
      for i := 0 to |rules|
        invariant Valid() && BuildingAt(host, h0, a, s, done + rules[..i])
        invariant OthersSame(old(host), host, a, s)
        invariant old(log) <= log && AllRecoverable(log, |old(log)|, h0, a) && Quiet(log, |old(log)|)
        invariant Fails(faults) == Fails(old(faults))
      {
        ghost var before := host;
        assert done + rules[..i] + [rules[i]] == done + rules[..i + 1] <= FullChain(a, s.direction, s.family);
        ok := AppendRule(n, s, rules[i], done + rules[..i], h0, a);
        OthersSameTransitive(old(host), before, host, a, s);
        if !ok { return; }
      }
      assert rules[..|rules|] == rules;
      ok := true;
    }

    /** Appends an accept rule for every pinned destination of one family. */
    method InstallPinned(
        n: Names, f: Family, targets: seq<PinnedTarget>, ghost done: seq<Rule>, ghost rest: seq<Rule>,
        ghost h0: Host, ghost a: Attempt)
      returns (ok: bool)
      requires n == a.names && BuildingAt(host, h0, a, Slot(f, Forwarding), done)
      requires done + PinnedRules(targets, f == Inet6) + rest == FullChain(a, Forwarding, f)
      requires Valid()
      modifies this
      ensures Valid()
      ensures TrackingAt(host, h0, a) && OthersSame(old(host), host, a, Slot(f, Forwarding))
      ensures ok ==> BuildingAt(host, h0, a, Slot(f, Forwarding), done + PinnedRules(targets, f == Inet6))
      ensures old(log) <= log && AllRecoverable(log, |old(log)|, h0, a) && Quiet(log, |old(log)|)
      ensures Fails(faults) <= Fails(old(faults)) && (ok <==> Fails(faults) == Fails(old(faults)))
    {
      hide Trail, OwnCommand, Recoverable, ClosedAttempt, OthersSame;
      var s, v6 := Slot(f, Forwarding), f == Inet6;
      OthersSameSelf(host, a, s);
      assert done + PinnedRules(targets[..0], v6) == done;
      for i := 0 to |targets|
        invariant Valid() && BuildingAt(host, h0, a, s, done + PinnedRules(targets[..i], v6))
        invariant OthersSame(old(host), host, a, s)
        invariant old(log) <= log && AllRecoverable(log, |old(log)|, h0, a) && Quiet(log, |old(log)|)
        invariant Fails(faults) == Fails(old(faults))
      {
        PinnedRulesSnoc(targets, i, v6);
        if targets[i].address.V6? == v6 {
          ghost var before := host;
          ghost var soFar := done + PinnedRules(targets[..i], v6);
          assert soFar + [PinnedRule(targets[i])] == done + PinnedRules(targets[..i + 1], v6);
          PinnedRulesPrefix(targets, i + 1, v6);
          ok := AppendRule(n, s, PinnedRule(targets[i]), soFar, h0, a);
          OthersSameTransitive(old(host), before, host, a, s);
          if !ok { return; }
        }
      }
      assert targets[..|targets|] == targets;
      ok := true;
    }

    /** Creates one chain and marks it. */
    method CreateChain(n: Names, s: Slot, created: set<Slot>, ghost h0: Host, ghost a: Attempt)
      returns (ok: bool, owned: set<Slot>)
      requires n == a.names && TrackingAt(host, h0, a) && ClearAt(host, h0, a, s)
      requires AllListed(host, n, created) && s !in created
      requires Valid()
      modifies this
      ensures Valid()
      ensures TrackingAt(host, h0, a) && OthersSame(old(host), host, a, s)
      ensures ok ==> BuildingAt(host, h0, a, s, [Marker(n.marker, s.family == Inet6)])
      ensures old(log) <= log && AllRecoverable(log, |old(log)|, h0, a)
      ensures Fails(faults) <= Fails(old(faults)) && (ok <==> Fails(faults) == Fails(old(faults)))
      ensures created <= owned <= created + {s} && (ok ==> s in owned)
      ensures Accounted(log, |old(log)|, host, n, owned) && (Stranded(log, |old(log)|) ==> Fails(faults) < Fails(old(faults)))
    {
      hide Trail, OwnCommand, Recoverable, SlotClear, OthersSame, Logged, Accounted, AllListed, Stranded, Fails, Quiet;
      owned := created;
      NewChainWorks(host, host, h0, a, s);
      ok := Perform(n, s, NewChain(ChainOf(n, s.direction)), h0, a);
      NewChainWorks(old(host), host, h0, a, s);
      CreationAccounted(old(log), log, old(host), host, a, s, created);
      LoggedReply(old(log), log, n, Filter(s.family, NewChain(ChainOf(n, s.direction))), old(host), host);
      if !ok { return; }
      owned := owned + {s};
      ghost var empty, made := host, log;
      var marker := Marker(n.marker, s.family == Inet6);
      assert [] + [marker] <= FullChain(a, s.direction, s.family) by {
        assert ClosedChain(FullChain(a, s.direction, s.family), n.marker, s.family == Inet6);
      }
      ok := AppendRule(n, s, marker, [], h0, a);
      assert [] + [marker] == [marker];
      OthersSameTransitive(old(host), empty, host, a, s);
      ListedKept(empty, host, a, s, owned);
      AccountedQuiet(log, |made|, host, n, owned);
      AccountedLater(made, log, |old(log)|, host, n, owned);
    }

    /** Hooks a complete chain first in its parent. */
    method HookChain(n: Names, s: Slot, ghost h0: Host, ghost a: Attempt) returns (ok: bool)
      requires n == a.names && BuildingAt(host, h0, a, s, FullChain(a, s.direction, s.family))
      requires Valid()
      modifies this
      ensures Valid()
      ensures TrackingAt(host, h0, a) && OthersSame(old(host), host, a, s)
      ensures ok ==> HookedAt(host, h0, s) && ChainIs(host, a, s, FullChain(a, s.direction, s.family))
      ensures old(log) <= log && AllRecoverable(log, |old(log)|, h0, a) && Quiet(log, |old(log)|)
      ensures Fails(faults) <= Fails(old(faults)) && (ok <==> Fails(faults) == Fails(old(faults)))
    {
      hide Trail, OwnCommand, Recoverable, Sanctioned, ClosedAttempt, OthersSame;
      HookWorks(host, host, h0, a, s);
      ok := Perform(n, s, InsertFirst(Parent(s.direction), Hook(n, s.direction)), h0, a);
      HookWorks(old(host), host, h0, a, s);
    }

    /** Creates and marks both chains of one family. */
    method CreateChains(n: Names, f: Family, created: set<Slot>, ghost h0: Host, ghost a: Attempt)
      returns (ok: bool, owned: set<Slot>)
      requires n == a.names && TrackingAt(host, h0, a)
      requires ClearAt(host, h0, a, Slot(f, Forwarding)) && ClearAt(host, h0, a, Slot(f, Inbound))
      requires AllListed(host, n, created) && Slot(f, Forwarding) !in created && Slot(f, Inbound) !in created
      requires Valid()
      modifies this
      ensures Valid()
      ensures TrackingAt(host, h0, a) && OtherFamilySame(old(host), host, a, f)
      ensures ok ==> BothBuilding(host, h0, a, f, [Marker(n.marker, f == Inet6)], [Marker(n.marker, f == Inet6)])
      ensures old(log) <= log && AllRecoverable(log, |old(log)|, h0, a)
      ensures Fails(faults) <= Fails(old(faults)) && (ok <==> Fails(faults) == Fails(old(faults)))
      ensures created <= owned <= created + {Slot(f, Forwarding), Slot(f, Inbound)}
      ensures ok ==> Slot(f, Forwarding) in owned && Slot(f, Inbound) in owned
      ensures Accounted(log, |old(log)|, host, n, owned) && (Stranded(log, |old(log)|) ==> Fails(faults) < Fails(old(faults)))
    {
      hide Trail, OwnCommand, Recoverable, SlotClear, ClosedAttempt, OthersSame, BuildingAt, OtherFamilySame, DenyBlocks, DenyRules, PinnedRules, Eval, Accounted, AllListed, Stranded, Fails, Quiet;
      var fwd, inp := Slot(f, Forwarding), Slot(f, Inbound);
      OtherFamilySelf(host, a, f);
      ok, owned := CreateChain(n, fwd, created, h0, a);
      KeepOther(old(host), old(host), host, a, fwd);
      if !ok { return; }
      ghost var h1, made := host, log;
      UnstrandedIsListed(log, |old(log)|, host, n, owned);
      ClearKept(old(host), host, h0, a, fwd, inp);
      ok, owned := CreateChain(n, inp, owned, h0, a);
      KeepOther(old(host), h1, host, a, inp);
      AccountedLater(made, log, |old(log)|, host, n, owned);
      if !ok { return; }
      KeepBuilding(h1, host, h0, a, inp, fwd, [Marker(n.marker, f == Inet6)]);
    }

    /** Appends the deny, neighbour-discovery and pinned rules. */
    method FillChains(
        n: Names, f: Family, targets: seq<PinnedTarget>, ghost tail: seq<Rule>, ghost h0: Host, ghost a: Attempt)
      returns (ok: bool)
      requires n == a.names
      requires var m := [Marker(n.marker, f == Inet6)];
               && BothBuilding(host, h0, a, f, m, m)
               && m + DenyRules(DenyBlocks(f == Inet6)) + PinnedRules(targets, f == Inet6) + tail == FullChain(a, Forwarding, f)
               && m + NeighborRules(f == Inet6) + tail == FullChain(a, Inbound, f)
      requires Valid()
      modifies this
      ensures Valid()
      ensures TrackingAt(host, h0, a) && OtherFamilySame(old(host), host, a, f)
      ensures var m := [Marker(n.marker, f == Inet6)];
              ok ==> BothBuilding(host, h0, a, f,
                                  m + DenyRules(DenyBlocks(f == Inet6)) + PinnedRules(targets, f == Inet6),
                                  m + NeighborRules(f == Inet6))
      ensures old(log) <= log && AllRecoverable(log, |old(log)|, h0, a) && Quiet(log, |old(log)|)
      ensures Fails(faults) <= Fails(old(faults)) && (ok <==> Fails(faults) == Fails(old(faults)))
    {
      hide Trail, OwnCommand, Recoverable, SlotClear, ClosedAttempt, OthersSame, BuildingAt, OtherFamilySame, DenyBlocks, DenyRules, PinnedRules, Eval;
      var fwd, inp, v6 := Slot(f, Forwarding), Slot(f, Inbound), f == Inet6;
      var marker, deny, neighbor := Marker(n.marker, v6), DenyRules(DenyBlocks(v6)), NeighborRules(v6);
      ghost var pinned := PinnedRules(targets, v6);
      OtherFamilySelf(host, a, f);
      assert [marker] + deny + (pinned + tail) == FullChain(a, Forwarding, f);
      ok := AppendRules(n, fwd, deny, [marker], pinned + tail, h0, a);
      KeepOther(old(host), old(host), host, a, fwd);
      KeepBuilding(old(host), host, h0, a, fwd, inp, [marker]);
      if !ok { return; }

      ghost var h1 := host;
      ok := AppendRules(n, inp, neighbor, [marker], tail, h0, a);
      KeepOther(old(host), h1, host, a, inp);
      KeepBuilding(h1, host, h0, a, inp, fwd, [marker] + deny);
      if !ok { return; }

      ghost var h2 := host;
      ok := InstallPinned(n, f, targets, [marker] + deny, tail, h0, a);
      KeepOther(old(host), h2, host, a, fwd);
      KeepBuilding(h2, host, h0, a, fwd, inp, [marker] + neighbor);
    }

    /** Appends the return-traffic accept and the default drop to both chains. */
    method CloseChains(n: Names, f: Family, ghost forward: seq<Rule>, ghost input: seq<Rule>, ghost h0: Host, ghost a: Attempt)
      returns (ok: bool)
      requires n == a.names && BothBuilding(host, h0, a, f, forward, input)
      requires forward + [ESTABLISHED_ACCEPT, DROP_ALL] == FullChain(a, Forwarding, f)
      requires input + [ESTABLISHED_ACCEPT, DROP_ALL] == FullChain(a, Inbound, f)
      requires Valid()
      modifies this
      ensures Valid()
      ensures TrackingAt(host, h0, a) && OtherFamilySame(old(host), host, a, f)
      ensures ok ==> BothBuilding(host, h0, a, f, FullChain(a, Forwarding, f), FullChain(a, Inbound, f))
      ensures old(log) <= log && AllRecoverable(log, |old(log)|, h0, a) && Quiet(log, |old(log)|)
      ensures Fails(faults) <= Fails(old(faults)) && (ok <==> Fails(faults) == Fails(old(faults)))
    {
      hide Trail, OwnCommand, Recoverable, SlotClear, ClosedAttempt, OthersSame, BuildingAt, OtherFamilySame, DenyBlocks, DenyRules, PinnedRules, Eval;
      var fwd, inp := Slot(f, Forwarding), Slot(f, Inbound);
      OtherFamilySelf(host, a, f);
      assert forward + [ESTABLISHED_ACCEPT, DROP_ALL] + [] == FullChain(a, Forwarding, f);
      ok := AppendRules(n, fwd, [ESTABLISHED_ACCEPT, DROP_ALL], forward, [], h0, a);
      KeepOther(old(host), old(host), host, a, fwd);
      KeepBuilding(old(host), host, h0, a, fwd, inp, input);
      if !ok { return; }

      ghost var h1 := host;
      assert input + [ESTABLISHED_ACCEPT, DROP_ALL] + [] == FullChain(a, Inbound, f);
      ok := AppendRules(n, inp, [ESTABLISHED_ACCEPT, DROP_ALL], input, [], h0, a);
      KeepOther(old(host), h1, host, a, inp);
      KeepBuilding(h1, host, h0, a, inp, fwd, FullChain(a, Forwarding, f));
    }

    /** Creates both chains of one family and appends every rule, hooking nothing. */
    method BuildFamily(n: Names, f: Family, targets: seq<PinnedTarget>, created: set<Slot>, ghost h0: Host, ghost a: Attempt)
      returns (ok: bool, owned: set<Slot>)
      requires n == a.names && a == Compile(n, targets, a.network) && TrackingAt(host, h0, a)
      requires ClearAt(host, h0, a, Slot(f, Forwarding)) && ClearAt(host, h0, a, Slot(f, Inbound))
      requires AllListed(host, n, created) && Slot(f, Forwarding) !in created && Slot(f, Inbound) !in created
      requires Valid()
      modifies this
      ensures Valid()
      ensures TrackingAt(host, h0, a) && OtherFamilySame(old(host), host, a, f)
      ensures ok ==> BothBuilding(host, h0, a, f, FullChain(a, Forwarding, f), FullChain(a, Inbound, f))
      ensures old(log) <= log && AllRecoverable(log, |old(log)|, h0, a)
      ensures Fails(faults) <= Fails(old(faults)) && (ok <==> Fails(faults) == Fails(old(faults)))
      ensures created <= owned <= created + {Slot(f, Forwarding), Slot(f, Inbound)}
      ensures ok ==> Slot(f, Forwarding) in owned && Slot(f, Inbound) in owned
      ensures Accounted(log, |old(log)|, host, n, owned) && (Stranded(log, |old(log)|) ==> Fails(faults) < Fails(old(faults)))
    {
      hide Trail, OwnCommand, Recoverable, SlotClear, ClosedAttempt, OthersSame, BothBuilding, OtherFamilySame, DenyBlocks, DenyRules, PinnedRules, Eval, Accounted, AllListed, Stranded, Fails, Quiet;
      var v6 := f == Inet6;
      ghost var m, deny, pinned, neighbor :=
        [Marker(n.marker, v6)], DenyRules(DenyBlocks(v6)), PinnedRules(targets, v6), NeighborRules(v6);
      ghost var tail := [ESTABLISHED_ACCEPT, DROP_ALL];
      assert m + deny + pinned + tail == m + deny + pinned + [ESTABLISHED_ACCEPT] + [DROP_ALL] == FullChain(a, Forwarding, f);
      assert m + neighbor + tail == m + neighbor + [ESTABLISHED_ACCEPT] + [DROP_ALL] == FullChain(a, Inbound, f);
      ok, owned := CreateChains(n, f, created, h0, a);
      if !ok { return; }
      ghost var h1, made := host, log;
      UnstrandedIsListed(log, |old(log)|, host, n, owned);
      ok := FillChains(n, f, targets, tail, h0, a);
      OtherFamilyTransitive(old(host), h1, host, a, f);
      ListedKeptFamily(h1, host, a, f, owned);
      AccountedQuiet(log, |made|, host, n, owned);
      AccountedLater(made, log, |old(log)|, host, n, owned);
      if !ok { return; }
      ghost var h2, filled := host, log;
      ok := CloseChains(n, f, m + deny + pinned, m + neighbor, h0, a);
      OtherFamilyTransitive(old(host), h2, host, a, f);
      ListedKeptFamily(h2, host, a, f, owned);
      AccountedQuiet(log, |filled|, host, n, owned);
      AccountedLater(filled, log, |old(log)|, host, n, owned);
    }

    method InstallFamily(n: Names, f: Family, targets: seq<PinnedTarget>, created: set<Slot>, ghost h0: Host, ghost a: Attempt)
      returns (ok: bool, owned: set<Slot>)
      requires n == a.names && a == Compile(n, targets, a.network) && TrackingAt(host, h0, a)
      requires ClearAt(host, h0, a, Slot(f, Forwarding)) && ClearAt(host, h0, a, Slot(f, Inbound))
      requires AllListed(host, n, created) && Slot(f, Forwarding) !in created && Slot(f, Inbound) !in created
      requires Valid()
      modifies this
      ensures Valid()
      ensures TrackingAt(host, h0, a) && OtherFamilySame(old(host), host, a, f)
      ensures ok ==> HookedAt(host, h0, Slot(f, Forwarding)) && HookedAt(host, h0, Slot(f, Inbound))
      ensures old(log) <= log && AllRecoverable(log, |old(log)|, h0, a)
      ensures Fails(faults) <= Fails(old(faults)) && (ok ==> Fails(faults) == Fails(old(faults)))
      ensures ok <==> Fails(faults) == Fails(old(faults)) && !Stale(h0.Table(f), n.forward) && !Stale(h0.Table(f), n.input)
      ensures created <= owned <= created + {Slot(f, Forwarding), Slot(f, Inbound)}
      ensures Accounted(log, |old(log)|, host, n, owned) && (Stranded(log, |old(log)|) ==> Fails(faults) < Fails(old(faults)))
    {
      hide Trail, OwnCommand, Recoverable, SlotClear, ClosedAttempt, OthersSame, BuildingAt, OtherFamilySame, Mentions, ForwardChain, InputChain, Accounted, AllListed, Stranded, Fails, Quiet, Stale;
      var fwd, inp := Slot(f, Forwarding), Slot(f, Inbound);
      owned := created;
      OtherFamilySelf(host, a, f);
      SlotsClearTable(host, h0, a, f);
      NothingIsQuiet(log);
      AccountedQuiet(log, |log|, host, n, owned);
      ok := Query();
      if !ok { return; }
      if Stale(host.Table(f), n.forward) || Stale(host.Table(f), n.input) {
        ok := false;
        return;
      }
      ok, owned := BuildFamily(n, f, targets, owned, h0, a);
      if !ok { return; }
      ghost var h1, built := host, log;
      UnstrandedIsListed(log, |old(log)|, host, n, owned);
      ok := HookChain(n, fwd, h0, a);
      KeepOther(old(host), h1, host, a, fwd);
      ListedKept(h1, host, a, fwd, owned);
      AccountedQuiet(log, |built|, host, n, owned);
      AccountedLater(built, log, |old(log)|, host, n, owned);
      KeepBuilding(h1, host, h0, a, fwd, inp, FullChain(a, Inbound, f));
      if !ok { return; }
      ghost var h2, hooked := host, log;
      ok := HookChain(n, inp, h0, a);
      KeepOther(old(host), h2, host, a, inp);
      ListedKept(h2, host, a, inp, owned);
      AccountedQuiet(log, |hooked|, host, n, owned);
      AccountedLater(hooked, log, |old(log)|, host, n, owned);
      if !ok { return; }
      KeepHooked(h2, host, h0, a, inp, fwd);
      ok := VerifyDefaultDrop(fwd, n, h0, a);
      if !ok { return; }
      ok := VerifyDefaultDrop(inp, n, h0, a);
    }

    /** The listing of a hooked chain must end in the unconditional drop. */
    method VerifyDefaultDrop(s: Slot, n: Names, ghost h0: Host, ghost a: Attempt) returns (ok: bool)
      requires n == a.names && TrackingAt(host, h0, a) && HookedAt(host, h0, s)
      modifies this`faults
      ensures Fails(faults) <= Fails(old(faults)) && (ok <==> Fails(faults) == Fails(old(faults)))
    {
      assert ClosedChain(FullChain(a, s.direction, s.family), n.marker, s.family == Inet6);
      ok := Query();
      if !ok { return; }
      var t, chain := host.Table(s.family), ChainOf(n, s.direction);
      ok := chain in t && t[chain] != [] && t[chain][|t[chain]| - 1] == DROP_ALL;
    }

    method InstallFirewall(n: Names, targets: seq<PinnedTarget>, ghost h0: Host, ghost a: Attempt)
      returns (ok: bool, owned: set<Slot>)
      requires n == a.names && a == Compile(n, targets, a.network) && TrackingAt(host, h0, a)
      requires forall s: Slot :: ClearAt(host, h0, a, s)
      requires Valid()
      modifies this
      ensures Valid()
      ensures TrackingAt(host, h0, a)
      ensures ok ==> Installed(host, h0, a)
      ensures old(log) <= log && AllRecoverable(log, |old(log)|, h0, a)
      ensures Fails(faults) <= Fails(old(faults)) && (ok ==> Fails(faults) == Fails(old(faults)))
      ensures Fails(faults) == Fails(old(faults)) && NamesFresh(h0, n) ==> ok
      ensures Accounted(log, |old(log)|, host, n, owned) && (Stranded(log, |old(log)|) ==> Fails(faults) < Fails(old(faults)))
    {
      hide Trail, OwnCommand, Recoverable, SlotClear, ClosedAttempt, Mentions, Compile, Accounted, AllListed, Stranded, Fails, Stale, OtherFamilySame;
      assert NamesFresh(h0, n) ==> !Stale(h0.Table(Inet), n.forward) && !Stale(h0.Table(Inet6), n.forward);
      ClearIsListed(host, h0, a);
      ok, owned := InstallFamily(n, Inet, targets, {}, h0, a);
      if !ok { return; }
      ghost var h1, half := host, log;
      UnstrandedIsListed(log, |old(log)|, host, n, owned);
      forall d: Direction ensures ClearAt(host, h0, a, Slot(Inet6, d)) {
        FamilyStaysClear(old(host), host, h0, a, Inet, Slot(Inet6, d));
      }
      ok, owned := InstallFamily(n, Inet6, targets, owned, h0, a);
      AccountedLater(half, log, |old(log)|, host, n, owned);
      if !ok { return; }
      forall d: Direction ensures HookedAt(host, h0, Slot(Inet, d)) {
        FamilyStaysHooked(h1, host, h0, a, Inet6, Slot(Inet, d));
      }
      AllHookedIsInstalled(host, h0, a);
      ok := VerifyHooks(n, h0, a);
    }

    /** Checks all four hooks once more. */
    method VerifyHooks(n: Names, ghost h0: Host, ghost a: Attempt) returns (ok: bool)
      requires n == a.names && Installed(host, h0, a) && ClosedAttempt(a)
      modifies this`faults
      ensures Fails(faults) <= Fails(old(faults)) && (ok <==> Fails(faults) == Fails(old(faults)))
    {
      for i := 0 to |SLOTS|
        invariant Fails(faults) == Fails(old(faults))
      {
        var s := SLOTS[i];
        ok := Query();
        if !ok { return; }
        HookedIffListed(host.Table(s.family), h0.Table(s.family), a, s.direction, s.family);
        if Hook(n, s.direction) !in host.Table(s.family)[Parent(s.direction)] {
          ok := false;
          return;
        }
      }
      ok := true;
    }

    /** The daemon must be a native rootful engine whose FORWARD chain enters
        DOCKER-USER first, for both families. */
    method VerifyEngine() returns (ok: bool)
      modifies this`faults
      ensures ok ==> EngineReady(host)
      ensures Fails(faults) <= Fails(old(faults))
      ensures ok <==> Fails(faults) == Fails(old(faults)) && EngineReady(host)
      ensures old(faults) == [] ==> faults == []
    {
      ok := Query();
      if !ok { return; }
      if !host.native { return false; }
      for i := 0 to 2
        invariant i > 0 ==> FilterReady(host.v4)
        invariant i > 1 ==> FilterReady(host.v6)
        invariant old(faults) == [] ==> faults == []
        invariant Fails(faults) == Fails(old(faults))
      {
        var t := if i == 0 then host.v4 else host.v6;
        ok := Query();
        if !ok { return; }
        if DockerUser !in t { return false; }
        ok := Query();
        if !ok { return; }
        if Input !in t { return false; }
        ok := Query();
        if !ok { return; }
        if Forward !in t || t[Forward] == [] || t[Forward][0] != Rule([], Jump(DockerUser)) { return false; }
      }
      ok := true;
    }

    /** `reconcile_ambiguous_network_create`: after a create whose outcome is
        unknown, remove the network only if it is this attempt's. */
    method Reconcile(box: Identity, n: Names, ghost h0: Host, ghost a: Attempt) returns (ok: bool)
      requires AttemptOf(a, box) && n == a.names && FreshAttempt(h0, box, n.attempt) && EngineReady(h0)
      requires host == h0 || Apply(h0, CreateNetwork(n.network, a.network)) == Some(host)
      requires Valid()
      modifies this
      ensures Valid()
      ensures host == h0 || (n.network !in h0.networks && Recoverable(host, h0, a))
      ensures ok ==> host == h0
      ensures old(log) <= log
      ensures n.network !in h0.networks ==> AllRecoverable(log, |old(log)|, h0, a)
      ensures n.network in h0.networks ==> log == old(log)
      ensures Quiet(log, |old(log)|) && Fails(faults) <= Fails(old(faults))
      // A removal that reports a failure is looked at once more: it succeeded if
      // the network is gone, unless the failure left no answer at all.
      ensures |old(log)| < |log| && Failing(log[|old(log)|].fault) ==>
                && (log[|old(log)|].fault.raised || log[|old(log)|].fault.FailsBefore? ==> !ok)
                && (log[|old(log)|].fault == FailsAfter(false) && Fails(old(faults)) == Fails(faults) + 1 ==> ok)
      // If no command fails it knows the answer, unless a foreign network has
      // labels it cannot read.
      ensures Fails(faults) == Fails(old(faults)) && (n.network in h0.networks ==> LabelsReadable(h0.networks[n.network])) ==> ok
    {
      hide Trail, OwnCommand, Recoverable, ClosedAttempt, Mentions, LabelsReadable, AttemptOf;
      ghost var created := if n.network in h0.networks then h0 else h0.(networks := h0.networks[n.network := a.network]);
      if n.network !in h0.networks { CreationTracks(h0, created, box, n.attempt, a); }
      OwnLabelsReadable(a, box);
      ok := Query();
      if !ok { return; }
      if n.network !in host.networks { return true; }
      var net := host.networks[n.network];
      if !LabelsReadable(net) { return false; }
      if net.owner != box.id || net.scope != n.scope || net.attempt != n.attempt { return true; }
      assert host == created && n.network !in h0.networks;
      var raised;
      NetworkCommandsOwn(n, net);
      ok, raised := Mutate(n, RemoveNetwork(n.network));
      RemovalRestores(created, host, h0, a);
      if ok || raised { return; }
      ok := Query();
      if !ok { return; }
      ok := false;
      if n.network !in host.networks { return true; }
    }

    /** `docker network create`: a taken name is reported as such, without effect. */
    method CreateBoxNetwork(n: Names, network: Network) returns (fault: Fault, taken: bool)
      requires Valid()
      modifies this
      ensures Valid()
      ensures (taken <==> n.network in old(host).networks) && (taken ==> host == old(host))
      ensures host == old(host) || Apply(old(host), CreateNetwork(n.network, network)) == Some(host)
      ensures !taken && (fault.Healthy? || fault.Blank?) ==> Apply(old(host), CreateNetwork(n.network, network)) == Some(host)
      ensures Logged(old(log), log, n, CreateNetwork(n.network, network), old(host), host) && log[|old(log)|].fault == fault
      ensures Fails(old(faults)) == Fails(faults) + if Failing(fault) then 1 else 0
      ensures old(faults) == [] ==> fault.Healthy? && faults == []
    {
      hide Trail, OwnCommand, Apply;
      fault := Draw();
      var applied := Apply(host, CreateNetwork(n.network, network));
      CreateAccepted(host, n.network, network);
      if applied.Some? && !fault.FailsBefore? { host := applied.value; }
      taken := applied.None?;
      NetworkCommandsOwn(n, network);
      TrailGrows(start, log, old(host), Step(n, CreateNetwork(n.network, network), old(host), host, fault));
      log := log + [Step(n, CreateNetwork(n.network, network), old(host), host, fault)];
    }

    /** Cleanup of this call's own attempt after a failed setup. */
    method RollBack(box: Identity, owned: set<Slot>, ghost from: nat, ghost h0: Host, ghost a: Attempt) returns (ok: bool)
      requires AttemptOf(a, box) && TrackingAt(host, h0, a)
      requires from <= |log| && Accounted(log, from, host, a.names, owned)
      requires Valid()
      modifies this
      ensures Valid()
      ensures Recoverable(host, h0, a) && (ok ==> host == h0)
      ensures old(log) <= log && AllRecoverable(log, |old(log)|, h0, a)
      ensures Stranded(log, from) <==> Stranded(old(log), from)
      ensures Fails(faults) <= Fails(old(faults))
      // It fails only if a command fails or a chain is stranded, and then always.
      ensures Stranded(old(log), from) ==> !ok
      ensures Fails(faults) == Fails(old(faults)) && !Stranded(old(log), from) ==> ok
    {
      hide Trail, Recoverable, AttemptOf, ClosedAttempt, Stranded, AllListed, Stray, Fails, Verified, Quiet, LabelsVerified, HostFramed, CleanupCommand, AllFramed;
      ghost var before, h := log, host;
      if Stranded(log, from) {
        StrayIsUnverified(host, h0, a, box, owned);
      } else {
        ListedIsVerified(host, h0, a, box, owned);
      }
      ValidOfAttempt(a, box);
      ok := Cleanup(box, owned, false, h0, a);
      if Stranded(before, from) {
        assert log == before;
      } else {
        VerifiedHasLabels(h, box, owned, false);
        FramedIsQuiet(log, |before|, h, box.ForAttempt(h.networks[box.Network()].attempt));
        QuietIsNotStranded(log, |before|);
        StrandedSplit(before, log, from);
      }
    }

    /** `prepare` on a verified engine: `targets` is the pinned plan, `attempt`
        the fresh token and `subnets` what Docker assigns to the network. */
    method Provision(box: Identity, attempt: string, targets: seq<PinnedTarget>, subnets: seq<Prefix>)
      returns (outcome: Outcome)
      requires box.Valid() && ValidAttempt(attempt) && FreshAttempt(host, box, attempt)
      requires EngineReady(host)
      requires Valid()
      modifies this
      ensures Valid()
      // Prepared: the complete filter is hooked in both families.
      ensures outcome == Prepared ==>
                && Installed(host, old(host), AttemptFor(box, attempt, targets, subnets))
                && OutsideSubnets(targets, subnets)
      // Refused: nothing of the attempt remains.
      ensures outcome == Refused ==> host == old(host)
      // RollbackFailed: whatever remains is provably this attempt's.
      ensures outcome == RollbackFailed ==>
                host == old(host) || Recoverable(host, old(host), AttemptFor(box, attempt, targets, subnets))
      // The same holds after every single command on the way.
      ensures old(log) <= log
      ensures box.Network() !in old(host).networks ==>
                AllRecoverable(log, |old(log)|, old(host), AttemptFor(box, attempt, targets, subnets))
      ensures Fails(faults) <= Fails(old(faults))
      // A failed rollback needs a failing command, and a single one is enough only
      // if it created a chain, or if the setup was going to fail anyway.
      ensures outcome == RollbackFailed ==> Fails(faults) < Fails(old(faults))
      ensures Sound(old(host), box, targets, subnets, log, |old(log)|) && Fails(old(faults)) <= Fails(faults) + 1 ==>
                (outcome == RollbackFailed <==> Stranded(log, |old(log)|))
      ensures Sound(old(host), box, targets, subnets, log, |old(log)|) ==>
                (outcome == Prepared <==> Fails(faults) == Fails(old(faults)))
      ensures old(faults) == [] && box.Network() !in old(host).networks && OutsideSubnets(targets, subnets) ==> outcome == Prepared
      // Docker confirmed the network of a prepared box.
      ensures outcome == Prepared ==> |old(log)| < |log| && log[|old(log)|].fault == Healthy
    {
      hide Trail, OwnCommand, Recoverable, ClosedAttempt, Mentions, AttemptOf, Installed, EngineReady, OutsideSubnets, Stale, SlotClear, Apply,
           Logged, Stranded, Accounted, Quiet, Fails, AllListed, NamesFresh, LabelsReadable;
      var a := AttemptFor(box, attempt, targets, subnets);
      var n := a.names;
      ghost var h0, from := host, |log|;
      FailsNone();
      AttemptForIsAttempt(box, attempt, targets, subnets);
      var ok;
      var fault, taken := CreateBoxNetwork(n, a.network);
      CreationIsQuiet(old(log), log, n, a.network, h0, host);
      if !taken {
        CreateAccepted(h0, n.network, a.network);
        CreationTracks(h0, Apply(h0, CreateNetwork(n.network, a.network)).value, box, attempt, a);
      }
      ghost var made := log;
      if Failing(fault) {
        ok := Reconcile(box, n, h0, a);
        QuietSplit(made, log, from);
        QuietIsNotStranded(log, from);
        return if ok then Refused else RollbackFailed;
      }
      QuietIsNotStranded(log, from);
      if taken { return Refused; }
      if fault.Blank? {
        ClearIsListed(host, h0, a);
        AccountedQuiet(log, from, host, n, {});
        ok := RollBack(box, {}, from, h0, a);
        return if ok then Refused else RollbackFailed;
      }

      var owned;
      ok, owned := SetUp(box, n, targets, h0, a);
      AccountedLater(made, log, from, host, n, owned);
      if !ok {
        ok := RollBack(box, owned, from, h0, a);
        return if ok then Refused else RollbackFailed;
      }
      outcome := Prepared;
    }

    /** `prepare` for a plan: `targets` is the pinned plan, `attempt` the
        fresh token and `subnets` what Docker assigns to the network. */
    method Prepare(box: Identity, attempt: string, targets: seq<PinnedTarget>, subnets: seq<Prefix>)
      returns (outcome: Outcome)
      requires box.Valid() && ValidAttempt(attempt) && FreshAttempt(host, box, attempt)
      requires Valid()
      modifies this
      ensures Valid()
      // Prepared: the complete filter is hooked in both families.
      ensures outcome == Prepared ==>
                && Installed(host, old(host), AttemptFor(box, attempt, targets, subnets))
                && EngineReady(old(host)) && OutsideSubnets(targets, subnets)
      // Refused: nothing of the attempt remains.
      ensures outcome == Refused ==> host == old(host)
      // RollbackFailed: whatever remains is provably this attempt's.
      ensures outcome == RollbackFailed ==>
                host == old(host) || Recoverable(host, old(host), AttemptFor(box, attempt, targets, subnets))
      // The same holds after every single command on the way.
      ensures old(log) <= log
      ensures box.Network() !in old(host).networks ==>
                AllRecoverable(log, |old(log)|, old(host), AttemptFor(box, attempt, targets, subnets))
      ensures Fails(faults) <= Fails(old(faults))
      // A failed rollback needs a failing command, and a single one is enough only
      // if it created a chain, or if the setup was going to fail anyway.
      ensures outcome == RollbackFailed ==> Fails(faults) < Fails(old(faults))
      ensures EngineReady(old(host)) && Sound(old(host), box, targets, subnets, log, |old(log)|) && Fails(old(faults)) <= Fails(faults) + 1 ==>
                (outcome == RollbackFailed <==> Stranded(log, |old(log)|))
      ensures EngineReady(old(host)) && Sound(old(host), box, targets, subnets, log, |old(log)|) ==>
                (outcome == Prepared <==> Fails(faults) == Fails(old(faults)))
      ensures old(faults) == [] && EngineReady(old(host)) && box.Network() !in old(host).networks && OutsideSubnets(targets, subnets)
              ==> outcome == Prepared
      // Docker confirmed the network of a prepared box.
      ensures outcome == Prepared ==> |old(log)| < |log| && log[|old(log)|].fault == Healthy
    {
      hide Trail, Recoverable, AttemptFor, Installed, EngineReady, OutsideSubnets, FreshAttempt;
      var ok := VerifyEngine();
      if !ok { return Refused; }
      outcome := Provision(box, attempt, targets, subnets);
    }

    /** The checks on the created network, then the firewall. */
    method SetUp(box: Identity, n: Names, targets: seq<PinnedTarget>, ghost h0: Host, ghost a: Attempt)
      returns (ok: bool, owned: set<Slot>)
      requires AttemptOf(a, box) && n == a.names && a == Compile(n, targets, a.network) && TrackingAt(host, h0, a)
      requires forall s: Slot :: ClearAt(host, h0, a, s)
      requires Valid()
      modifies this
      ensures Valid()
      ensures TrackingAt(host, h0, a)
      ensures ok ==> Installed(host, h0, a) && OutsideSubnets(targets, a.network.subnets)
      ensures old(log) <= log && AllRecoverable(log, |old(log)|, h0, a)
      ensures Fails(faults) <= Fails(old(faults)) && (ok ==> Fails(faults) == Fails(old(faults)))
      ensures Fails(faults) == Fails(old(faults)) && NamesFresh(h0, n) && OutsideSubnets(targets, a.network.subnets) ==> ok
      ensures Accounted(log, |old(log)|, host, n, owned) && (Stranded(log, |old(log)|) ==> Fails(faults) < Fails(old(faults)))
    {
      hide Trail, OwnCommand, Recoverable, ClosedAttempt, Mentions, Compile, SlotClear, Installed, Accounted, AllListed, Stranded, Fails, OutsideSubnets, NamesFresh;
      owned := {};
      ClearIsListed(host, h0, a);
      NothingIsQuiet(log);
      AccountedQuiet(log, |log|, host, n, owned);
      assert n.network in host.networks && host.networks[n.network] == a.network by {
        RecoverableNetwork(host, h0, a, box);
      }
      ok := Query();
      if !ok { return; }
      var net := host.networks[n.network];
      if net.(subnets := []) != Network("bridge", true, n.bridge, box.id, n.scope, n.attempt, []) {
        ok := false;
        return;
      }
      ok := Query();
      if !ok { return; }
      if !OutsideSubnets(targets, net.subnets) {
        ok := false;
        return;
      }
      ok := Query();
      if !ok { return; }
      if !BridgeVisible(host, n.bridge) {
        ok := false;
        return;
      }
      ok, owned := InstallFirewall(n, targets, h0, a);
    }

    /** The public `cleanup`. */
    method CleanupBox(box: Identity, ghost h0: Host, ghost a: Attempt) returns (ok: bool)
      requires AttemptOf(a, box) && Recoverable(host, h0, a)
      requires Valid()
      modifies this
      ensures Valid()
      ensures Recoverable(host, h0, a)
      ensures old(log) <= log && AllRecoverable(log, |old(log)|, h0, a)
      ensures ok ==> host == h0
      ensures Fails(faults) == Fails(old(faults)) && EngineReady(h0) && (box.Network() in old(host).networks || !Orphans(h0, box)) ==> ok
      ensures Fails(faults) <= Fails(old(faults))
      // Nothing is touched on an engine that is not ready.
      ensures !EngineReady(old(host)) ==> !ok && host == old(host) && log == old(log)
    {
      hide Trail, OwnCommand, FamilyInv, ClosedAttempt, Mentions, HostFramed, Verified, LabelsVerified;
      if EngineReady(h0) { EngineStaysReady(host, h0, a); }
      if box.Network() in host.networks || !Orphans(h0, box) { RecoverableIsCleanable(host, h0, a, box); }
      ok := VerifyEngine();
      if !ok { return; }
      ok := Cleanup(box, {}, true, h0, a);
    }

    /** A whole life: one `prepare`, then any number of cleanups, each command
        failing as the scripts say, then one cleanup without faults. The host
        ends exactly as it began, and every host in between was recoverable. */
    method Lifecycle(
        box: Identity, attempt: string, targets: seq<PinnedTarget>, subnets: seq<Prefix>, scripts: seq<seq<Fault>>)
      requires box.Valid() && ValidAttempt(attempt) && FreshAttempt(host, box, attempt)
      requires EngineReady(host) && box.Network() !in host.networks && !Orphans(host, box)
      requires Valid()
      modifies this
      ensures Valid()
      ensures host == old(host)
      ensures old(log) <= log && AllRecoverable(log, |old(log)|, old(host), AttemptFor(box, attempt, targets, subnets))
    {
      hide Trail, OwnCommand, FamilyInv, ClosedAttempt, Mentions, AttemptOf, Orphans;
      ghost var h0, a := host, AttemptFor(box, attempt, targets, subnets);
      AttemptForIsAttempt(box, attempt, targets, subnets);
      CreationTracks(h0, h0.(networks := h0.networks[a.names.network := a.network]), box, attempt, a);
      var _ := Prepare(box, attempt, targets, subnets);
      for i := 0 to |scripts|
        invariant Valid() && Recoverable(host, h0, a)
        invariant old(log) <= log && AllRecoverable(log, |old(log)|, h0, a)
      {
        faults := scripts[i];
        var _ := CleanupBox(box, h0, a);
      }
      faults := [];
      var ok := CleanupBox(box, h0, a);
    }
  }
}
