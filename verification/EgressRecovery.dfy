/** Ownership checks, the frame of a cleanup, and how a recoverable host moves
    towards the original one. */
module EgressRecovery {
  import opened Firewall
  import opened EgressNames
  import opened EgressHost
  import opened EgressInvariant
  import opened Wrappers

  datatype Slot = Slot(family: Family, direction: Direction)

  const SLOTS: seq<Slot> := [
    Slot(Inet, Forwarding), Slot(Inet, Inbound), Slot(Inet6, Forwarding), Slot(Inet6, Inbound)
  ]

  // ----- The ownership preflight

  /** The controller may remove `chain`: it carries this attempt's marker, or
      it is an empty unreferenced chain it is entitled to reclaim. */
  predicate Removable(t: Tables, chain: ChainName, token: string, reclaim: bool) {
    || Marked(t, chain, token)
    || (reclaim && chain in t && t[chain] == [] && !Referenced(t, chain))
  }

  ghost predicate SlotVerified(h: Host, n: Names, created: set<Slot>, reclaimEmpty: bool, s: Slot) {
    var chain := ChainOf(n, s.direction);
    chain in h.Table(s.family) ==>
      Removable(h.Table(s.family), chain, n.marker, s in created || reclaimEmpty)
  }

  ghost predicate LabelsVerified(h: Host, box: Identity)
    requires box.Valid()
  {
    && box.Network() in h.networks
    && var net := h.networks[box.Network()];
       LabelsReadable(net) && net.owner == box.id && net.scope == box.Scope() && ValidAttempt(net.attempt)
  }

  /** Everything cleanup must have seen before its first mutating command. */
  ghost predicate Verified(h: Host, box: Identity, created: set<Slot>, reclaimEmpty: bool)
    requires box.Valid()
  {
    && LabelsVerified(h, box)
    && var n := box.ForAttempt(h.networks[box.Network()].attempt);
       forall s: Slot :: SlotVerified(h, n, created, reclaimEmpty, s)
  }

  // ----- What cleanup may touch

  function Without(rules: seq<Rule>, r: Rule): seq<Rule> {
    if rules == [] then [] else (if rules[0] == r then [] else [rules[0]]) + Without(rules[1..], r)
  }

  ghost predicate ParentFramed(t: Tables, t': Tables, n: Names, d: Direction) {
    && (Parent(d) in t <==> Parent(d) in t')
    && (Parent(d) in t ==> Without(t[Parent(d)], Hook(n, d)) == Without(t'[Parent(d)], Hook(n, d)))
  }

  ghost predicate TableFramed(t: Tables, t': Tables, n: Names) {
    OthersKept(t', t, n) && ParentFramed(t, t', n, Forwarding) && ParentFramed(t, t', n, Inbound)
  }

  /** `h'` differs from `h` at most in the network, the two chains per family
      and their hooks. */
  ghost predicate HostFramed(h: Host, h': Host, n: Names) {
    && h.native == h'.native
    && h.networks - {n.network} == h'.networks - {n.network}
    && TableFramed(h.v4, h'.v4, n)
    && TableFramed(h.v6, h'.v6, n)
  }

  predicate CleanupCommand(n: Names, cmd: Command) {
    match cmd
    case CreateNetwork(_, _) => false
    case RemoveNetwork(name) => name == n.network
    case Filter(_, DeleteRule(c, r)) => OwnHook(n, c, r)
    case Filter(f, Append(c, r)) => OwnChain(n, c) && r == Marker(n.marker, f == Inet6)
    case Filter(_, op) => (op.Flush? || op.DeleteChain?) && OwnChain(n, op.chain)
  }

  predicate OwnChain(n: Names, c: ChainName) { c == ChainOf(n, Forwarding) || c == ChainOf(n, Inbound) }

  predicate OwnHook(n: Names, parent: ChainName, r: Rule) {
    (parent == Parent(Forwarding) && r == Hook(n, Forwarding)) || (parent == Parent(Inbound) && r == Hook(n, Inbound))
  }

  /** The commands of an attempt named `n`, whether it installs or cleans up. */
  predicate OwnCommand(n: Names, cmd: Command) {
    match cmd
    case CreateNetwork(name, _) => name == n.network
    case RemoveNetwork(name) => name == n.network
    case Filter(_, op) =>
      match op
      case NewChain(c) => OwnChain(n, c)
      case Append(c, r) => OwnChain(n, c) && !r.target.Jump?
      case InsertFirst(c, r) => OwnHook(n, c, r)
      case DeleteRule(c, r) => OwnHook(n, c, r)
      case Flush(c) => OwnChain(n, c)
      case DeleteChain(c) => OwnChain(n, c)
  }

  lemma CleanupIsOwn(n: Names, cmd: Command)
    requires CleanupCommand(n, cmd)
    ensures OwnCommand(n, cmd)
  {
  }

  lemma SanctionedIsOwn(h: Host, h0: Host, a: Attempt, s: Slot, op: TableOp)
    requires SanctionedAt(h, h0, a, s, op) && Modify(h.Table(s.family), op).Some?
    ensures OwnCommand(a.names, Filter(s.family, op))
  {
    var full := FullChain(a, s.direction, s.family);
    assert ClosedChain(full, a.names.marker, s.family == Inet6);
    if op.Append? {
      var rules := h.Table(s.family)[op.chain] + [op.rule];
      assert op.rule == rules[|rules| - 1] == full[|rules| - 1];
    }
  }

  lemma {:induction false} WithoutRemoveFirst(rules: seq<Rule>, r: Rule)
    ensures Without(RemoveFirst(rules, r), r) == Without(rules, r)
    decreases |rules|
  {
    if rules != [] && rules[0] != r {
      WithoutRemoveFirst(rules[1..], r);
      var shorter := RemoveFirst(rules, r);
      assert shorter[0] == rules[0] && shorter[1..] == RemoveFirst(rules[1..], r);
    }
  }

  lemma TableFramedStep(t0: Tables, t: Tables, n: Names, f: Family, op: TableOp)
    requires TableFramed(t0, t, n)
    requires CleanupCommand(n, Filter(f, op)) && Modify(t, op).Some?
    ensures TableFramed(t0, Modify(t, op).value, n)
  {
    if op.DeleteRule? {
      WithoutRemoveFirst(t[op.chain], op.rule);
    }
  }

  lemma HostFramedStep(h0: Host, h: Host, h': Host, n: Names, cmd: Command)
    requires HostFramed(h0, h, n)
    requires CleanupCommand(n, cmd)
    requires h' == h || Apply(h, cmd) == Some(h')
    ensures HostFramed(h0, h', n)
  {
    if h' != h {
      match cmd
      case RemoveNetwork(name) =>
        assert h'.networks - {n.network} == h.networks - {n.network};
      case Filter(f, op) =>
        TableFramedStep(h0.Table(f), h.Table(f), n, f, op);
    }
  }

  lemma HookedIffListed(t: Tables, t0: Tables, a: Attempt, d: Direction, f: Family)
    requires FamilyInv(t, t0, a, f) && Apart(t0, a.names)
    ensures Hooked(t, t0, d) <==> Hook(a.names, d) in t[Parent(d)]
  {
    HookNotInBase(t0, a.names, d);
    if Hooked(t, t0, d) { PlacedFacts(t[Parent(d)], t0[Parent(d)], Hook(a.names, d), a.names.bridge); }
  }

  lemma SlotIsVerified(t: Tables, t0: Tables, a: Attempt, d: Direction, f: Family)
    requires ClosedAttempt(a) && FamilyInv(t, t0, a, f) && Apart(t0, a.names)
    requires ChainOf(a.names, d) in t
    ensures Removable(t, ChainOf(a.names, d), a.names.marker, true)
  {
    if t[ChainOf(a.names, d)] == [] {
      assert ClosedChain(FullChain(a, d, f), a.names.marker, f == Inet6);
      UnhookedIsUnreferenced(t, t0, a, d, f);
    } else {
      PrefixIsMarked(t, t0, a, d, f);
    }
  }

  lemma OwnLabelsReadable(a: Attempt, box: Identity)
    requires AttemptOf(a, box)
    ensures LabelsReadable(a.network)
    ensures a.network.owner == box.id && a.network.attempt == a.names.attempt
    ensures a.network.scope == box.Scope() == a.names.scope
  {
    assert HexText(box.hashes.sha(ScopePreimage(box.namespace, box.id)));
    assert HexText(a.names.attempt);
  }

  lemma RecoverableIsVerified(h: Host, h0: Host, a: Attempt, box: Identity, created: set<Slot>)
    requires AttemptOf(a, box) && ClosedAttempt(a) && Recoverable(h, h0, a)
    requires a.names.network in h.networks
    ensures Verified(h, box, created, true)
    ensures box.ForAttempt(h.networks[box.Network()].attempt) == a.names
  {
    OwnLabelsReadable(a, box);
    assert h.networks[box.Network()] == a.network;
    forall s: Slot ensures SlotVerified(h, a.names, created, true, s) {
      if ChainOf(a.names, s.direction) in h.Table(s.family) {
        SlotIsVerified(h.Table(s.family), h0.Table(s.family), a, s.direction, s.family);
      }
    }
  }

  /** `h` is recoverable towards `h0` and still carries the labelled network. */
  ghost predicate TrackingAt(h: Host, h0: Host, a: Attempt) {
    ClosedAttempt(a) && Recoverable(h, h0, a) && a.names.network in h.networks
  }

  ghost predicate ClearAt(h: Host, h0: Host, a: Attempt, s: Slot) {
    SlotClear(h.Table(s.family), h0.Table(s.family), a, s.direction)
  }

  /** The chain and the hooking point of `s` hold the same rules in both hosts. */
  ghost predicate SameAt(h: Host, h': Host, a: Attempt, s: Slot) {
    var t, t', chain, parent := h.Table(s.family), h'.Table(s.family), ChainOf(a.names, s.direction), Parent(s.direction);
    && (chain in t <==> chain in t') && (chain in t ==> t[chain] == t'[chain])
    && (parent in t <==> parent in t') && (parent in t ==> t[parent] == t'[parent])
  }

  ghost predicate OthersSame(h: Host, h': Host, a: Attempt, s: Slot) {
    forall r: Slot | r != s :: SameAt(h, h', a, r)
  }

  ghost predicate SanctionedAt(h: Host, h0: Host, a: Attempt, s: Slot, op: TableOp) {
    && TrackingAt(h, h0, a)
    && Sanctioned(h.Table(s.family), h0.Table(s.family), a, s.direction, s.family, op)
  }

  lemma OtherSameStep(h: Host, h': Host, a: Attempt, s: Slot, op: TableOp, r: Slot)
    requires a.names.forward != a.names.input && r != s
    requires op.chain == ChainOf(a.names, s.direction) || op.chain == Parent(s.direction)
    requires Apply(h, Filter(s.family, op)) == Some(h')
    ensures SameAt(h, h', a, r)
  {
    hide Modify;
    if r.family == s.family {
      ModifyElsewhere(h.Table(s.family), op, ChainOf(a.names, r.direction));
      ModifyElsewhere(h.Table(s.family), op, Parent(r.direction));
    }
  }

  lemma OthersSameStep(h: Host, h': Host, a: Attempt, s: Slot, op: TableOp)
    requires a.names.forward != a.names.input
    requires op.chain == ChainOf(a.names, s.direction) || op.chain == Parent(s.direction)
    requires Apply(h, Filter(s.family, op)) == Some(h')
    ensures OthersSame(h, h', a, s)
  {
    hide Apply, SameAt;
    forall r: Slot | r != s ensures SameAt(h, h', a, r) {
      OtherSameStep(h, h', a, s, op, r);
    }
  }

  lemma ModifyElsewhere(t: Tables, op: TableOp, c: ChainName)
    requires c != op.chain && Modify(t, op).Some?
    ensures var t' := Modify(t, op).value; (c in t <==> c in t') && (c in t ==> t[c] == t'[c])
  {}

  lemma OthersSameSelf(h: Host, a: Attempt, s: Slot)
    ensures OthersSame(h, h, a, s)
  {}

  lemma OthersSameTransitive(h: Host, h': Host, h'': Host, a: Attempt, s: Slot)
    requires OthersSame(h, h', a, s) && OthersSame(h', h'', a, s)
    ensures OthersSame(h, h'', a, s)
  {
    forall r: Slot | r != s ensures SameAt(h, h'', a, r) {
      assert SameAt(h, h', a, r) && SameAt(h', h'', a, r);
    }
  }

  lemma SanctionedStep(h: Host, h': Host, h0: Host, a: Attempt, s: Slot, op: TableOp)
    requires SanctionedAt(h, h0, a, s, op)
    requires h' == h || Apply(h, Filter(s.family, op)) == Some(h')
    ensures TrackingAt(h', h0, a)
    ensures OthersSame(h, h', a, s)
  {
    if h' != h {
      CommandKeeps(h, h0, a, s.direction, s.family, op);
      OthersSameStep(h, h', a, s, op);
    }
  }

  // ----- Removing one chain

  ghost predicate UnhookedAt(h: Host, h0: Host, s: Slot) {
    var parent := Parent(s.direction);
    && parent in h.Table(s.family) && parent in h0.Table(s.family)
    && h.Table(s.family)[parent] == h0.Table(s.family)[parent]
  }

  ghost predicate EmptiedAt(h: Host, a: Attempt, s: Slot) {
    var chain := ChainOf(a.names, s.direction);
    chain in h.Table(s.family) ==> h.Table(s.family)[chain] == []
  }

  lemma UnlistedIsUnhooked(h: Host, h0: Host, a: Attempt, s: Slot)
    requires TrackingAt(h, h0, a)
    ensures Parent(s.direction) in h.Table(s.family)
    ensures Hook(a.names, s.direction) !in h.Table(s.family)[Parent(s.direction)] ==> UnhookedAt(h, h0, s)
    ensures SanctionedAt(h, h0, a, s, DeleteRule(Parent(s.direction), Hook(a.names, s.direction)))
  {
    HookedIffListed(h.Table(s.family), h0.Table(s.family), a, s.direction, s.family);
  }

  lemma UnhookWorks(h: Host, h': Host, h0: Host, a: Attempt, s: Slot)
    requires TrackingAt(h, h0, a)
    requires Apply(h, Filter(s.family, DeleteRule(Parent(s.direction), Hook(a.names, s.direction)))) == Some(h')
    ensures UnhookedAt(h', h0, s)
  {
    var t, t0, parent, hook := h.Table(s.family), h0.Table(s.family), Parent(s.direction), Hook(a.names, s.direction);
    HookNotInBase(t0, a.names, s.direction);
    HookedIffListed(t, t0, a, s.direction, s.family);
    PlacedRemoved(t[parent], t0[parent], hook, a.names.bridge);
  }

  lemma FlushWorks(h: Host, h': Host, h0: Host, a: Attempt, s: Slot)
    requires TrackingAt(h, h0, a) && UnhookedAt(h, h0, s)
    ensures SanctionedAt(h, h0, a, s, Flush(ChainOf(a.names, s.direction)))
    ensures ChainOf(a.names, s.direction) in h.Table(s.family) ==>
              Apply(h, Filter(s.family, Flush(ChainOf(a.names, s.direction)))).Some?
    ensures Apply(h, Filter(s.family, Flush(ChainOf(a.names, s.direction)))) == Some(h') ==>
              && UnhookedAt(h', h0, s) && EmptiedAt(h', a, s)
              && ChainOf(a.names, s.direction) in h'.Table(s.family)
  {
  }

  lemma DeleteWorks(h: Host, h0: Host, a: Attempt, s: Slot)
    requires TrackingAt(h, h0, a) && UnhookedAt(h, h0, s) && EmptiedAt(h, a, s)
    requires ChainOf(a.names, s.direction) in h.Table(s.family)
    ensures SanctionedAt(h, h0, a, s, DeleteChain(ChainOf(a.names, s.direction)))
    ensures Apply(h, Filter(s.family, DeleteChain(ChainOf(a.names, s.direction)))).Some?
  {
    UnhookedIsUnreferenced(h.Table(s.family), h0.Table(s.family), a, s.direction, s.family);
  }

  lemma DeleteClears(h: Host, h': Host, h0: Host, a: Attempt, s: Slot)
    requires TrackingAt(h, h0, a) && UnhookedAt(h, h0, s)
    requires Apply(h, Filter(s.family, DeleteChain(ChainOf(a.names, s.direction)))) == Some(h')
    ensures ClearAt(h', h0, a, s) && UnhookedAt(h', h0, s) && EmptiedAt(h', a, s)
    ensures ChainOf(a.names, s.direction) !in h'.Table(s.family)
  {
  }

  lemma RestoreIsSanctioned(h: Host, h0: Host, a: Attempt, s: Slot)
    requires TrackingAt(h, h0, a) && UnhookedAt(h, h0, s) && EmptiedAt(h, a, s)
    ensures SanctionedAt(h, h0, a, s, Append(ChainOf(a.names, s.direction), Marker(a.names.marker, s.family == Inet6)))
  {
    assert ClosedChain(FullChain(a, s.direction, s.family), a.names.marker, s.family == Inet6);
  }

  // ----- Finishing a cleanup

  lemma AbsentIsClear(h: Host, h0: Host, a: Attempt, s: Slot)
    requires TrackingAt(h, h0, a)
    requires ChainOf(a.names, s.direction) !in h.Table(s.family)
    ensures ClearAt(h, h0, a, s)
  {}

  lemma SameStaysClear(h: Host, h': Host, h0: Host, a: Attempt, s: Slot)
    requires SameAt(h, h', a, s) && ClearAt(h, h0, a, s)
    ensures ClearAt(h', h0, a, s)
  {}

  lemma AllClearIsOriginal(h: Host, h0: Host, a: Attempt)
    requires TrackingAt(h, h0, a)
    requires forall i | 0 <= i < |SLOTS| :: ClearAt(h, h0, a, SLOTS[i])
    ensures h.v4 == h0.v4 && h.v6 == h0.v6
  {
    assert ClearAt(h, h0, a, SLOTS[0]) && ClearAt(h, h0, a, SLOTS[1]);
    assert ClearAt(h, h0, a, SLOTS[2]) && ClearAt(h, h0, a, SLOTS[3]);
    ClearIsOriginal(h.v4, h0.v4, a, Inet);
    ClearIsOriginal(h.v6, h0.v6, a, Inet6);
  }

  lemma RemovalRestores(h: Host, h': Host, h0: Host, a: Attempt)
    requires TrackingAt(h, h0, a) && h.v4 == h0.v4 && h.v6 == h0.v6
    ensures Apply(h, RemoveNetwork(a.names.network)).Some?
    ensures Apply(h, RemoveNetwork(a.names.network)) == Some(h') ==> h' == h0
    ensures Recoverable(h0, h0, a)
  {
    assert h0.networks[a.names.network := a.network] - {a.names.network} == h0.networks;
  }

  ghost predicate Orphans(h: Host, box: Identity)
    requires box.Valid()
  {
    Orphaned(h.v4, box.ChainPrefix()) || Orphaned(h.v6, box.ChainPrefix())
  }

  lemma HostFramedSelf(h: Host, n: Names)
    ensures HostFramed(h, h, n)
  {}

  /** A recoverable host either carries this attempt's labelled network or is
      the original host. */
  lemma RecoverableNetwork(h: Host, h0: Host, a: Attempt, box: Identity)
    requires AttemptOf(a, box) && Recoverable(h, h0, a)
    ensures a.names.network == box.Network()
    ensures if a.names.network in h.networks then TrackingAt(h, h0, a) && h.networks[a.names.network] == a.network else h == h0
  {}

  // ----- Building one chain

  ghost predicate ChainIs(h: Host, a: Attempt, s: Slot, rules: seq<Rule>) {
    var chain := ChainOf(a.names, s.direction);
    chain in h.Table(s.family) && h.Table(s.family)[chain] == rules
  }

  /** The chain of `s` holds exactly `rules` and is not hooked yet. */
  ghost predicate BuildingAt(h: Host, h0: Host, a: Attempt, s: Slot, rules: seq<Rule>) {
    TrackingAt(h, h0, a) && UnhookedAt(h, h0, s) && ChainIs(h, a, s, rules)
  }

  ghost predicate HookedAt(h: Host, h0: Host, s: Slot) {
    var parent := Parent(s.direction);
    parent in h.Table(s.family) && parent in h0.Table(s.family) && Hooked(h.Table(s.family), h0.Table(s.family), s.direction)
  }

  ghost predicate BothBuilding(h: Host, h0: Host, a: Attempt, f: Family, forward: seq<Rule>, input: seq<Rule>) {
    BuildingAt(h, h0, a, Slot(f, Forwarding), forward) && BuildingAt(h, h0, a, Slot(f, Inbound), input)
  }

  lemma SameStaysBuilding(h: Host, h': Host, h0: Host, a: Attempt, s: Slot, rules: seq<Rule>)
    requires SameAt(h, h', a, s) && BuildingAt(h, h0, a, s, rules) && TrackingAt(h', h0, a)
    ensures BuildingAt(h', h0, a, s, rules)
  {}

  lemma SameStaysHooked(h: Host, h': Host, h0: Host, a: Attempt, s: Slot)
    requires SameAt(h, h', a, s) && HookedAt(h, h0, s)
    ensures HookedAt(h', h0, s)
  {}

  lemma NewChainWorks(h: Host, h': Host, h0: Host, a: Attempt, s: Slot)
    requires TrackingAt(h, h0, a) && ClearAt(h, h0, a, s)
    ensures SanctionedAt(h, h0, a, s, NewChain(ChainOf(a.names, s.direction)))
    ensures Apply(h, Filter(s.family, NewChain(ChainOf(a.names, s.direction)))).Some?
    ensures Apply(h, Filter(s.family, NewChain(ChainOf(a.names, s.direction)))) == Some(h') ==>
              UnhookedAt(h', h0, s) && ChainIs(h', a, s, [])
  {}

  lemma AppendWorks(h: Host, h': Host, h0: Host, a: Attempt, s: Slot, rules: seq<Rule>, r: Rule)
    requires BuildingAt(h, h0, a, s, rules) && rules + [r] <= FullChain(a, s.direction, s.family)
    ensures SanctionedAt(h, h0, a, s, Append(ChainOf(a.names, s.direction), r))
    ensures Apply(h, Filter(s.family, Append(ChainOf(a.names, s.direction), r))).Some?
    ensures Apply(h, Filter(s.family, Append(ChainOf(a.names, s.direction), r))) == Some(h') ==>
              UnhookedAt(h', h0, s) && ChainIs(h', a, s, rules + [r])
  {}

  lemma HookWorks(h: Host, h': Host, h0: Host, a: Attempt, s: Slot)
    requires BuildingAt(h, h0, a, s, FullChain(a, s.direction, s.family))
    ensures SanctionedAt(h, h0, a, s, InsertFirst(Parent(s.direction), Hook(a.names, s.direction)))
    ensures Apply(h, Filter(s.family, InsertFirst(Parent(s.direction), Hook(a.names, s.direction)))).Some?
    ensures Apply(h, Filter(s.family, InsertFirst(Parent(s.direction), Hook(a.names, s.direction)))) == Some(h') ==>
              HookedAt(h', h0, s) && ChainIs(h', a, s, FullChain(a, s.direction, s.family))
  {
    var t0, parent := h0.Table(s.family), Parent(s.direction);
    assert |[Hook(a.names, s.direction)] + t0[parent]| != |t0[parent]|;
  }

  lemma SlotsClearTable(h: Host, h0: Host, a: Attempt, f: Family)
    requires TrackingAt(h, h0, a)
    requires ClearAt(h, h0, a, Slot(f, Forwarding)) && ClearAt(h, h0, a, Slot(f, Inbound))
    ensures h.Table(f) == h0.Table(f)
  {
    ClearIsOriginal(h.Table(f), h0.Table(f), a, f);
  }

  /** Neither slot of the other family changed. */
  ghost predicate OtherFamilySame(h: Host, h': Host, a: Attempt, f: Family) {
    forall s: Slot | s.family != f :: SameAt(h, h', a, s)
  }

  lemma OtherFamilySelf(h: Host, a: Attempt, f: Family)
    ensures OtherFamilySame(h, h, a, f)
  {}

  lemma OtherFamilyTransitive(h: Host, h': Host, h'': Host, a: Attempt, f: Family)
    requires OtherFamilySame(h, h', a, f) && OtherFamilySame(h', h'', a, f)
    ensures OtherFamilySame(h, h'', a, f)
  {
    forall s: Slot | s.family != f ensures SameAt(h, h'', a, s) {
      assert SameAt(h, h', a, s) && SameAt(h', h'', a, s);
    }
  }

  lemma KeepOther(start: Host, before: Host, after: Host, a: Attempt, worked: Slot)
    requires OtherFamilySame(start, before, a, worked.family) && OthersSame(before, after, a, worked)
    ensures OtherFamilySame(start, after, a, worked.family)
  {
    forall s: Slot | s.family != worked.family ensures SameAt(start, after, a, s) {
      assert SameAt(start, before, a, s) && SameAt(before, after, a, s);
    }
  }

  lemma KeepBuilding(before: Host, after: Host, h0: Host, a: Attempt, worked: Slot, idle: Slot, rules: seq<Rule>)
    requires OthersSame(before, after, a, worked) && idle != worked
    requires BuildingAt(before, h0, a, idle, rules) && TrackingAt(after, h0, a)
    ensures BuildingAt(after, h0, a, idle, rules)
  {
    SameStaysBuilding(before, after, h0, a, idle, rules);
  }

  lemma KeepHooked(before: Host, after: Host, h0: Host, a: Attempt, worked: Slot, idle: Slot)
    requires OthersSame(before, after, a, worked) && idle != worked
    requires HookedAt(before, h0, idle)
    ensures HookedAt(after, h0, idle)
  {
    SameStaysHooked(before, after, h0, a, idle);
  }

  lemma ClearKept(before: Host, after: Host, h0: Host, a: Attempt, worked: Slot, idle: Slot)
    requires OthersSame(before, after, a, worked) && idle != worked
    requires ClearAt(before, h0, a, idle)
    ensures ClearAt(after, h0, a, idle)
  {
    SameStaysClear(before, after, h0, a, idle);
  }

  // ----- Starting an attempt

  function AttemptFor(box: Identity, attempt: string, targets: seq<PinnedTarget>, subnets: seq<Prefix>): Attempt
    requires box.Valid() && ValidAttempt(attempt)
  {
    var n := box.ForAttempt(attempt);
    Compile(n, targets, Network("bridge", true, n.bridge, box.id, n.scope, n.attempt, subnets))
  }

  predicate NamesFresh(h: Host, n: Names) {
    !Stale(h.v4, n.forward) && !Stale(h.v4, n.input) && !Stale(h.v6, n.forward) && !Stale(h.v6, n.input)
  }

  /** What a fresh attempt token guarantees: no rule names its chains and no
      network carries its label. */
  predicate FreshAttempt(h: Host, box: Identity, attempt: string)
    requires box.Valid() && ValidAttempt(attempt)
  {
    && NamesFresh(h, box.ForAttempt(attempt))
    && forall name | name in h.networks :: h.networks[name].attempt != attempt
  }

  predicate EngineReady(h: Host) { h.native && FilterReady(h.v4) && FilterReady(h.v6) }

  predicate BridgeVisible(h: Host, bridge: string) {
    exists name | name in h.networks :: h.networks[name].bridge == bridge
  }

  predicate OutsideSubnets(targets: seq<PinnedTarget>, subnets: seq<Prefix>) {
    subnets != [] && forall t, s | t in targets && s in subnets :: !s.Contains(t.address)
  }

  lemma AttemptForIsAttempt(box: Identity, attempt: string, targets: seq<PinnedTarget>, subnets: seq<Prefix>)
    requires box.Valid() && ValidAttempt(attempt)
    ensures AttemptOf(AttemptFor(box, attempt, targets, subnets), box)
  {
    var a := AttemptFor(box, attempt, targets, subnets);
    CompiledIsClosed(a.names, targets, a.network);
  }

  lemma CreationTracks(h: Host, h': Host, box: Identity, attempt: string, a: Attempt)
    requires AttemptOf(a, box) && a.names.attempt == attempt && FreshAttempt(h, box, attempt) && EngineReady(h)
    requires Apply(h, CreateNetwork(a.names.network, a.network)) == Some(h')
    ensures TrackingAt(h', h, a) && Recoverable(h, h, a)
    ensures forall s: Slot :: ClearAt(h', h, a, s)
  {
    ChainNamesDistinct(box, attempt);
    FreshNamesApart(h.v4, a.names);
    FreshNamesApart(h.v6, a.names);
  }

  lemma EngineStaysReady(h: Host, h0: Host, a: Attempt)
    requires Recoverable(h, h0, a)
    ensures EngineReady(h0) ==> EngineReady(h)
  {}

  lemma AllHookedIsInstalled(h: Host, h0: Host, a: Attempt)
    requires TrackingAt(h, h0, a)
    requires forall i | 0 <= i < |SLOTS| :: HookedAt(h, h0, SLOTS[i])
    ensures Installed(h, h0, a)
  {
    assert HookedAt(h, h0, SLOTS[0]) && HookedAt(h, h0, SLOTS[1]) && HookedAt(h, h0, SLOTS[2]) && HookedAt(h, h0, SLOTS[3]);
  }

  /** What a prepared box's packets meet, in either family: the plan decides
      forwarding, only replies and neighbour discovery reach the host, and any
      other interface sees the machine as it was. */
  lemma PreparedFilters(
      h: Host, h0: Host, box: Identity, attempt: string, targets: seq<PinnedTarget>, subnets: seq<Prefix>, f: Family, p: Packet)
    requires box.Valid() && ValidAttempt(attempt) && EngineReady(h0)
    requires Installed(h, h0, AttemptFor(box, attempt, targets, subnets))
    requires OneFamily(p) && p.dst.V6? == (f == Inet6)
    ensures var own := p.iface == box.ForAttempt(attempt).bridge;
            && Traverse(h.Table(f), Forward, p) ==
               (if !own then Traverse(h0.Table(f), Forward, p) else if MayForward(targets, p) then Accepted else Dropped)
            && Traverse(h.Table(f), Input, p) ==
               (if !own then Traverse(h0.Table(f), Input, p) else if MayReachHost(p) then Accepted else Dropped)
  {
    hide Recoverable, Traverse, MayForward, MayReachHost, FilterReady, Hooked, ForwardChain, InputChain;
    var a := AttemptFor(box, attempt, targets, subnets);
    if p.iface == a.names.bridge {
      BoxForwarding(h, h0, a, targets, f, p);
      BoxInput(h, h0, a, targets, f, p);
    } else {
      OtherInterfacesUnaffected(h, h0, a, f, Forward, p);
      OtherInterfacesUnaffected(h, h0, a, f, Input, p);
    }
  }
}
