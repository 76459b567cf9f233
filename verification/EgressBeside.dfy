/** Boxes beside each other: what one attempt's commands do to another attempt
    on the same machine, and what is left of a machine without an attempt. */
module EgressBeside {
  import opened Firewall
  import opened EgressNames
  import opened EgressHost
  import opened EgressInvariant
  import opened EgressRecovery
  import opened Wrappers

  // ----- The machine without an attempt

  function StripChain(rules: seq<Rule>, n: Names, c: ChainName): seq<Rule> {
    if c == Parent(Forwarding) then Without(rules, Hook(n, Forwarding))
    else if c == Parent(Inbound) then Without(rules, Hook(n, Inbound))
    else rules
  }

  function StripTable(t: Tables, n: Names): Tables {
    map c | c in t && !OwnChain(n, c) :: StripChain(t[c], n, c)
  }

  function Strip(h: Host, n: Names): Host {
    Host(h.native, h.networks - {n.network}, StripTable(h.v4, n), StripTable(h.v6, n))
  }

  lemma {:induction false} WithoutAbsent(rules: seq<Rule>, r: Rule)
    requires r !in rules
    ensures Without(rules, r) == rules
    decreases |rules|
  {
    if rules != [] {
      WithoutAbsent(rules[1..], r);
      assert rules == [rules[0]] + rules[1..];
    }
  }

  lemma {:induction false} PlacedWithout(rules: seq<Rule>, base: seq<Rule>, hook: Rule, bridge: string)
    requires Placed(rules, base, hook, bridge) && hook !in base
    ensures Without(rules, hook) == base
    decreases |rules|
  {
    if rules[0] == hook && rules[1..] == base {
      WithoutAbsent(base, hook);
    } else {
      PlacedWithout(rules[1..], base[1..], hook, bridge);
      assert base == [base[0]] + base[1..];
    }
  }

  lemma WithoutCons(first: Rule, rest: seq<Rule>, r: Rule)
    ensures Without([first] + rest, r) == if first == r then Without(rest, r) else [first] + Without(rest, r)
  {
    assert ([first] + rest)[1..] == rest && [] + Without(rest, r) == Without(rest, r);
  }

  lemma {:induction false} WithoutCommutes(rules: seq<Rule>, r: Rule, q: Rule)
    ensures Without(Without(rules, r), q) == Without(Without(rules, q), r)
    decreases |rules|
  {
    if rules != [] {
      var first, rest := rules[0], rules[1..];
      WithoutCommutes(rest, r, q);
      assert rules == [first] + rest;
      hide Without;
      WithoutCons(first, rest, r);
      WithoutCons(first, rest, q);
      WithoutCons(first, Without(rest, r), q);
      WithoutCons(first, Without(rest, q), r);
    }
  }

  lemma ParentStripped(t: Tables, t0: Tables, a: Attempt, d: Direction, f: Family)
    requires FamilyInv(t, t0, a, f) && Apart(t0, a.names)
    ensures Without(t[Parent(d)], Hook(a.names, d)) == t0[Parent(d)]
  {
    HookNotInBase(t0, a.names, d);
    if Hooked(t, t0, d) {
      PlacedWithout(t[Parent(d)], t0[Parent(d)], Hook(a.names, d), a.names.bridge);
    } else {
      WithoutAbsent(t0[Parent(d)], Hook(a.names, d));
    }
  }

  lemma TableStripped(t: Tables, t0: Tables, a: Attempt, f: Family)
    requires FamilyInv(t, t0, a, f) && Apart(t0, a.names)
    ensures StripTable(t, a.names) == t0
  {
    ParentStripped(t, t0, a, Forwarding, f);
    ParentStripped(t, t0, a, Inbound, f);
    hide Without, Placed, SlotInv;
    assert Parent(Forwarding) in t && Parent(Inbound) in t && Parent(Forwarding) in t0 && Parent(Inbound) in t0 by {
      ParentsThere(t, t0, a, f);
    }
    var u := StripTable(t, a.names);
    assert u.Keys == t0.Keys;
    forall c | c in t0
      ensures u[c] == t0[c]
    {
    }
  }

  lemma ParentsThere(t: Tables, t0: Tables, a: Attempt, f: Family)
    requires FamilyInv(t, t0, a, f)
    ensures forall d: Direction :: Parent(d) in t && Parent(d) in t0
  {
  }

  /** A recoverable host determines the host before the attempt. */
  lemma BaseIsStrip(h: Host, h0: Host, a: Attempt)
    requires Recoverable(h, h0, a)
    ensures Strip(h, a.names) == h0
  {
    hide FamilyInv, Apart, StripTable;
    TableStripped(h.v4, h0.v4, a, Inet);
    TableStripped(h.v6, h0.v6, a, Inet6);
  }

  lemma StripTableCommutes(t: Tables, m: Names, n: Names)
    ensures StripTable(StripTable(t, m), n) == StripTable(StripTable(t, n), m)
  {
    hide Without;
    forall c | c in t
      ensures StripChain(StripChain(t[c], m, c), n, c) == StripChain(StripChain(t[c], n, c), m, c)
    {
      if c == Parent(Forwarding) { WithoutCommutes(t[c], Hook(m, Forwarding), Hook(n, Forwarding)); }
      if c == Parent(Inbound) { WithoutCommutes(t[c], Hook(m, Inbound), Hook(n, Inbound)); }
    }
  }

  lemma StripCommutes(h: Host, m: Names, n: Names)
    ensures Strip(Strip(h, m), n) == Strip(Strip(h, n), m)
  {
    hide StripTable;
    StripTableCommutes(h.v4, m, n);
    StripTableCommutes(h.v6, m, n);
    assert h.networks - {m.network} - {n.network} == h.networks - {n.network} - {m.network};
  }

  lemma StripKeepsReady(h: Host, n: Names)
    ensures EngineReady(Strip(h, n)) <==> EngineReady(h)
  {
  }

  // ----- Commands that leave an attempt alone

  predicate LeavesRule(n: Names, r: Rule) {
    r.target != Jump(ChainOf(n, Forwarding)) && r.target != Jump(ChainOf(n, Inbound))
  }

  predicate Gate(c: ChainName) { c == Parent(Forwarding) || c == Parent(Inbound) }

  /** A table command of another attempt or of any program that keeps off the
      chains and hooks of `n` and puts nothing for its bridge above its hooks. */
  predicate ForeignOp(n: Names, op: TableOp) {
    && !OwnChain(n, op.chain)
    && match op
       case NewChain(_) => true
       case Append(_, r) => LeavesRule(n, r)
       case InsertFirst(c, r) => LeavesRule(n, r) && (Gate(c) ==> Elsewhere(r, n.bridge))
       case DeleteRule(_, r) => LeavesRule(n, r)
       case Flush(c) => !Gate(c)
       case DeleteChain(c) => !Gate(c)
  }

  predicate Foreign(n: Names, cmd: Command) {
    match cmd
    case CreateNetwork(name, _) => name != n.network
    case RemoveNetwork(name) => name != n.network
    case Filter(_, op) => ForeignOp(n, op)
  }

  /** Two attempts that share no name. */
  predicate Disjoint(m: Names, n: Names) {
    && m.network != n.network && m.bridge != n.bridge
    && m.forward != n.forward && m.forward != n.input && m.input != n.forward && m.input != n.input
  }

  lemma OwnIsForeign(m: Names, n: Names, cmd: Command)
    requires Disjoint(m, n) && OwnCommand(m, cmd)
    ensures Foreign(n, cmd)
  {
    if cmd.Filter? && cmd.op.InsertFirst? {
      assert InIface(m.bridge) in cmd.op.rule.conditions;
    }
  }

  /** A hooking point with or without the hook. */
  ghost predicate Gated(rules: seq<Rule>, base: seq<Rule>, hook: Rule, bridge: string) {
    rules == base || Placed(rules, base, hook, bridge)
  }

  /** Both keep their relation, and whether they differ. */
  ghost predicate SameGate(
      rules: seq<Rule>, base: seq<Rule>, rules': seq<Rule>, base': seq<Rule>, hook: Rule, bridge: string) {
    Gated(rules', base', hook, bridge) && (rules' == base' <==> rules == base)
  }

  lemma PlacedDiffers(rules: seq<Rule>, base: seq<Rule>, hook: Rule, bridge: string)
    requires Placed(rules, base, hook, bridge)
    ensures rules != base
  {
    PlacedFacts(rules, base, hook, bridge);
  }

  lemma GateInsert(rules: seq<Rule>, base: seq<Rule>, hook: Rule, bridge: string, r: Rule)
    requires Gated(rules, base, hook, bridge) && Elsewhere(r, bridge)
    ensures SameGate(rules, base, [r] + rules, [r] + base, hook, bridge)
  {
    hide Elsewhere;
    assert ([r] + rules)[1..] == rules && ([r] + base)[1..] == base;
    if rules != base { PlacedDiffers([r] + rules, [r] + base, hook, bridge); }
  }

  lemma {:induction false} PlacedAppended(rules: seq<Rule>, base: seq<Rule>, hook: Rule, bridge: string, r: Rule)
    requires Placed(rules, base, hook, bridge)
    ensures Placed(rules + [r], base + [r], hook, bridge)
    decreases |rules|
  {
    hide Elsewhere;
    assert (rules + [r])[0] == rules[0] && (rules + [r])[1..] == rules[1..] + [r];
    if !(rules[0] == hook && rules[1..] == base) {
      assert (base + [r])[0] == base[0] && (base + [r])[1..] == base[1..] + [r];
      PlacedAppended(rules[1..], base[1..], hook, bridge, r);
    }
  }

  lemma GateAppend(rules: seq<Rule>, base: seq<Rule>, hook: Rule, bridge: string, r: Rule)
    requires Gated(rules, base, hook, bridge)
    ensures SameGate(rules, base, rules + [r], base + [r], hook, bridge)
  {
    hide Placed;
    if rules != base {
      PlacedAppended(rules, base, hook, bridge, r);
      PlacedDiffers(rules + [r], base + [r], hook, bridge);
    }
  }

  lemma {:induction false} PlacedDropped(rules: seq<Rule>, base: seq<Rule>, hook: Rule, bridge: string, r: Rule)
    requires Placed(rules, base, hook, bridge) && r != hook && r in base
    ensures Placed(RemoveFirst(rules, r), RemoveFirst(base, r), hook, bridge)
    decreases |rules|
  {
    hide Elsewhere;
    if rules[0] == hook && rules[1..] == base {
      PlacedFirst(RemoveFirst(base, r), hook, bridge);
    } else if rules[0] != r {
      var x := rules[0];
      PlacedDropped(rules[1..], base[1..], hook, bridge, r);
      assert ([x] + RemoveFirst(rules[1..], r))[1..] == RemoveFirst(rules[1..], r);
      assert ([x] + RemoveFirst(base[1..], r))[1..] == RemoveFirst(base[1..], r);
    }
  }

  lemma GateDrop(rules: seq<Rule>, base: seq<Rule>, hook: Rule, bridge: string, r: Rule)
    requires Gated(rules, base, hook, bridge) && r != hook && r in rules
    ensures r in base && SameGate(rules, base, RemoveFirst(rules, r), RemoveFirst(base, r), hook, bridge)
  {
    hide Placed, RemoveFirst;
    if rules != base {
      PlacedFacts(rules, base, hook, bridge);
      PlacedDropped(rules, base, hook, bridge, r);
      PlacedDiffers(RemoveFirst(rules, r), RemoveFirst(base, r), hook, bridge);
    }
  }

  lemma {:induction false} RemoveFirstMembers(rules: seq<Rule>, r: Rule)
    ensures forall q | q in RemoveFirst(rules, r) :: q in rules
    decreases |rules|
  {
    if rules != [] && rules[0] != r { RemoveFirstMembers(rules[1..], r); }
  }

  // ----- One table beside a foreign command

  /** What a foreign command keeps of an attempt in one table. */
  ghost predicate TableKept(t: Tables, t0: Tables, t': Tables, t0': Tables, a: Attempt, f: Family)
    requires FamilyInv(t, t0, a, f)
  {
    && FamilyInv(t', t0', a, f) && Apart(t0', a.names)
    && forall d: Direction :: Hooked(t', t0', d) <==> Hooked(t, t0, d)
  }

  lemma GatesOf(t: Tables, t0: Tables, a: Attempt, f: Family, d: Direction)
    requires FamilyInv(t, t0, a, f)
    ensures Gated(t[Parent(d)], t0[Parent(d)], Hook(a.names, d), a.names.bridge)
  {
  }

  /** A command on a chain that is neither the attempt's nor a hooking point. */
  lemma ElsewhereKept(t: Tables, t0: Tables, t': Tables, t0': Tables, a: Attempt, f: Family, c: ChainName)
    requires FamilyInv(t, t0, a, f) && Apart(t0, a.names) && !Touched(a.names, c)
    requires forall x | x != c :: (x in t' <==> x in t) && (x in t ==> t'[x] == t[x])
    requires forall x | x != c :: (x in t0' <==> x in t0) && (x in t0 ==> t0'[x] == t0[x])
    requires (c in t' <==> c in t0') && (c in t' ==> t'[c] == t0'[c] && forall r | r in t'[c] :: LeavesRule(a.names, r))
    ensures TableKept(t, t0, t', t0', a, f)
  {
    hide Placed;
    forall x, r | x in t0' && r in t0'[x]
      ensures LeavesRule(a.names, r)
    {
      if x != c { assert r in t0[x]; }
    }
  }

  /** A command on a hooking point. */
  lemma GateKept(t: Tables, t0: Tables, a: Attempt, f: Family, d: Direction, rules: seq<Rule>, base: seq<Rule>)
    requires FamilyInv(t, t0, a, f) && Apart(t0, a.names)
    requires SameGate(t[Parent(d)], t0[Parent(d)], rules, base, Hook(a.names, d), a.names.bridge)
    requires forall r | r in base :: LeavesRule(a.names, r)
    ensures TableKept(t, t0, t[Parent(d) := rules], t0[Parent(d) := base], a, f)
  {
    hide Placed;
    var t', t0' := t[Parent(d) := rules], t0[Parent(d) := base];
    forall x, r | x in t0' && r in t0'[x]
      ensures LeavesRule(a.names, r)
    {
      if x != Parent(d) { assert r in t0[x]; }
    }
    var e := if d == Forwarding then Inbound else Forwarding;
    assert SlotInv(t', t0', a, e, f) && SlotInv(t', t0', a, d, f);
  }

  lemma BaseLeaves(t0: Tables, n: Names, c: ChainName)
    requires Apart(t0, n) && c in t0
    ensures forall r | r in t0[c] :: LeavesRule(n, r)
  {
  }

  lemma SameReferences(t: Tables, t0: Tables, a: Attempt, f: Family, c: ChainName)
    requires FamilyInv(t, t0, a, f) && Apart(t0, a.names) && !Touched(a.names, c) && Referenced(t0, c)
    ensures Referenced(t, c)
  {
    hide Placed;
    var parent :| parent in t0 && parent != c && exists r | r in t0[parent] :: r.target == Jump(c);
    var r :| r in t0[parent] && r.target == Jump(c);
    if Gate(parent) {
      var d := if parent == Parent(Forwarding) then Forwarding else Inbound;
      if Hooked(t, t0, d) { PlacedFacts(t[parent], t0[parent], Hook(a.names, d), a.names.bridge); }
    }
    assert r in t[parent];
  }

  lemma GateBeside(t: Tables, t0: Tables, a: Attempt, f: Family, d: Direction, op: TableOp)
    requires FamilyInv(t, t0, a, f) && Apart(t0, a.names) && ForeignOp(a.names, op) && op.chain == Parent(d)
    requires Modify(t, op).Some?
    ensures Modify(t0, op).Some? && TableKept(t, t0, Modify(t, op).value, Modify(t0, op).value, a, f)
  {
    hide Placed, Gated, TableKept, SameGate;
    var c, hook, bridge := op.chain, Hook(a.names, d), a.names.bridge;
    GatesOf(t, t0, a, f, d);
    BaseLeaves(t0, a.names, c);
    match op
    case Append(_, r) =>
      GateAppend(t[c], t0[c], hook, bridge, r);
      GateKept(t, t0, a, f, d, t[c] + [r], t0[c] + [r]);
    case InsertFirst(_, r) =>
      GateInsert(t[c], t0[c], hook, bridge, r);
      GateKept(t, t0, a, f, d, [r] + t[c], [r] + t0[c]);
    case DeleteRule(_, r) =>
      GateDrop(t[c], t0[c], hook, bridge, r);
      RemoveFirstMembers(t0[c], r);
      GateKept(t, t0, a, f, d, RemoveFirst(t[c], r), RemoveFirst(t0[c], r));
    case _ =>
  }

  lemma OtherChainBeside(t: Tables, t0: Tables, a: Attempt, f: Family, op: TableOp)
    requires FamilyInv(t, t0, a, f) && Apart(t0, a.names) && ForeignOp(a.names, op) && !Gate(op.chain)
    requires Modify(t, op).Some?
    ensures Modify(t0, op).Some? && TableKept(t, t0, Modify(t, op).value, Modify(t0, op).value, a, f)
  {
    hide Placed, TableKept;
    var c := op.chain;
    assert !Touched(a.names, c);
    if c in t0 { BaseLeaves(t0, a.names, c); }
    if op.DeleteRule? { RemoveFirstMembers(t[c], op.rule); }
    if op.DeleteChain? && Referenced(t0, c) { SameReferences(t, t0, a, f, c); }
    ElsewhereKept(t, t0, Modify(t, op).value, Modify(t0, op).value, a, f, c);
  }

  /** A foreign command that the table accepts is accepted without the attempt
      too, and the attempt stays recoverable against the changed base. */
  lemma TableBeside(t: Tables, t0: Tables, a: Attempt, f: Family, op: TableOp)
    requires FamilyInv(t, t0, a, f) && Apart(t0, a.names) && ForeignOp(a.names, op)
    requires Modify(t, op).Some?
    ensures Modify(t0, op).Some? && TableKept(t, t0, Modify(t, op).value, Modify(t0, op).value, a, f)
  {
    hide FamilyInv, Apart, ForeignOp, TableKept;
    if Gate(op.chain) {
      GateBeside(t, t0, a, f, if op.chain == Parent(Forwarding) then Forwarding else Inbound, op);
    } else {
      OtherChainBeside(t, t0, a, f, op);
    }
  }

  // ----- The host beside a foreign command

  lemma NetworksBeside(h: Host, h0: Host, a: Attempt, cmd: Command)
    requires Recoverable(h, h0, a) && Foreign(a.names, cmd) && !cmd.Filter? && Apply(h, cmd).Some?
    ensures Apply(h0, cmd).Some? && Recoverable(Apply(h, cmd).value, Apply(h0, cmd).value, a)
    ensures a.names.network in Apply(h, cmd).value.networks <==> a.names.network in h.networks
  {
    hide FamilyInv, Apart;
    var x := a.names.network;
    match cmd
    case CreateNetwork(name, network) =>
      assert h0.networks[x := a.network][name := network] == h0.networks[name := network][x := a.network];
    case RemoveNetwork(name) =>
      assert h0.networks[x := a.network] - {name} == (h0.networks - {name})[x := a.network];
  }

  lemma FilterBeside(h: Host, h0: Host, a: Attempt, f: Family, op: TableOp)
    requires Recoverable(h, h0, a) && ForeignOp(a.names, op) && Apply(h, Filter(f, op)).Some?
    ensures Apply(h0, Filter(f, op)).Some? && Recoverable(Apply(h, Filter(f, op)).value, Apply(h0, Filter(f, op)).value, a)
    ensures Installed(h, h0, a) ==> Installed(Apply(h, Filter(f, op)).value, Apply(h0, Filter(f, op)).value, a)
  {
    TableBeside(h.Table(f), h0.Table(f), a, f, op);
    hide Modify, Apart, ForeignOp, OthersKept, Placed;
    if Installed(h, h0, a) {
      var h', h0' := Apply(h, Filter(f, op)).value, Apply(h0, Filter(f, op)).value;
      forall g: Family, d: Direction
        ensures Hooked(h'.Table(g), h0'.Table(g), d)
      {
        assert Hooked(h.Table(g), h0.Table(g), d);
      }
    }
  }

  /** A foreign command keeps an attempt recoverable and, once it is installed,
      installed; the host without the attempt takes the same step. */
  lemma HostBeside(h: Host, h': Host, h0: Host, a: Attempt, cmd: Command)
    requires Recoverable(h, h0, a) && Foreign(a.names, cmd) && Apply(h, cmd) == Some(h')
    ensures Apply(h0, cmd).Some? && Recoverable(h', Apply(h0, cmd).value, a)
    ensures a.names.network in h'.networks <==> a.names.network in h.networks
    ensures Installed(h, h0, a) ==> Installed(h', Apply(h0, cmd).value, a)
  {
    if cmd.Filter? {
      FilterBeside(h, h0, a, cmd.family, cmd.op);
      hide FamilyInv, Apart, Modify, ForeignOp, Installed;
    } else {
      NetworksBeside(h, h0, a, cmd);
      hide Apart, Foreign, Placed;
      if Installed(h, h0, a) {
        var h0' := Apply(h0, cmd).value;
        forall g: Family, d: Direction
          ensures Hooked(h'.Table(g), h0'.Table(g), d)
        {
          assert Hooked(h.Table(g), h0.Table(g), d);
        }
      }
    }
  }

  /** Attempt `a` is on `h`, recoverable towards the machine without it. */
  ghost predicate Held(h: Host, a: Attempt) { Recoverable(h, Strip(h, a.names), a) }

  ghost predicate Standing(h: Host, a: Attempt) { Installed(h, Strip(h, a.names), a) }

  lemma RecoverableIsHeld(h: Host, h0: Host, a: Attempt)
    requires Recoverable(h, h0, a)
    ensures Held(h, a) && Strip(h, a.names) == h0
    ensures Installed(h, h0, a) ==> Standing(h, a)
  {
    hide Recoverable, Strip;
    BaseIsStrip(h, h0, a);
  }

  lemma HeldBeside(h: Host, h': Host, a: Attempt, m: Names, cmd: Command)
    requires Held(h, a) && Disjoint(m, a.names) && OwnCommand(m, cmd)
    requires h' == h || Apply(h, cmd) == Some(h')
    ensures Held(h', a) && (Standing(h, a) ==> Standing(h', a))
    ensures a.names.network in h'.networks <==> a.names.network in h.networks
    ensures Strip(h', a.names) == Strip(h, a.names) || Apply(Strip(h, a.names), cmd) == Some(Strip(h', a.names))
  {
    if h' != h {
      hide Recoverable, Strip, Apply, OwnCommand, Foreign, Disjoint, Installed;
      OwnIsForeign(m, a.names, cmd);
      HostBeside(h, h', Strip(h, a.names), a, cmd);
      RecoverableIsHeld(h', Apply(Strip(h, a.names), cmd).value, a);
    }
  }

  lemma ReadyBeside(h: Host, h': Host, m: Names, cmd: Command)
    requires EngineReady(h) && OwnCommand(m, cmd) && (h' == h || Apply(h, cmd) == Some(h'))
    ensures EngineReady(h')
  {
  }

  /** Any interleaving of single commands: a step of one attempt keeps it and
      every attempt beside it. */
  lemma InterleavedStep(h: Host, h': Host, all: set<Attempt>, b: Attempt, s: Slot, op: TableOp)
    requires forall x, y | x in all && y in all && x != y :: Disjoint(x.names, y.names)
    requires forall x | x in all :: Held(h, x)
    requires b in all && SanctionedAt(h, Strip(h, b.names), b, s, op)
    requires h' == h || Apply(h, Filter(s.family, op)) == Some(h')
    ensures forall x | x in all :: Held(h', x) && (x != b && Standing(h, x) ==> Standing(h', x))
  {
    forall x | x in all
      ensures Held(h', x) && (x != b && Standing(h, x) ==> Standing(h', x))
    {
      if h' != h {
        hide Recoverable, Strip, Sanctioned, Disjoint, OwnCommand, Installed, ClosedAttempt, Modify;
        if x == b {
          SanctionedStep(h, h', Strip(h, b.names), b, s, op);
          RecoverableIsHeld(h', Strip(h, b.names), b);
        } else {
          SanctionedIsOwn(h, Strip(h, b.names), b, s, op);
          HeldBeside(h, h', x, b.names, Filter(s.family, op));
        }
      }
    }
  }

  /** One attempt's turn in an interleaved run: a command that may or may not
      take effect. */
  datatype Turn = Turn(attempt: Attempt, slot: Slot, op: TableOp, effect: bool)

  function TakeTurn(h: Host, turn: Turn): Host {
    var applied := Apply(h, Filter(turn.slot.family, turn.op));
    if turn.effect && applied.Some? then applied.value else h
  }

  function TakeTurns(h: Host, turns: seq<Turn>): Host
    decreases |turns|
  {
    if turns == [] then h else TakeTurns(TakeTurn(h, turns[0]), turns[1..])
  }

  /** Each command is one its own attempt may issue when its turn comes. */
  ghost predicate Sensible(h: Host, turns: seq<Turn>, all: set<Attempt>)
    decreases |turns|
  {
    turns == [] ||
    (&& turns[0].attempt in all
     && SanctionedAt(h, Strip(h, turns[0].attempt.names), turns[0].attempt, turns[0].slot, turns[0].op)
     && Sensible(TakeTurn(h, turns[0]), turns[1..], all))
  }

  /** However the commands of several attempts interleave and fail, each attempt
      stays recoverable towards the machine without it. */
  lemma {:induction false} InterleavedRun(h: Host, turns: seq<Turn>, all: set<Attempt>)
    requires forall x, y | x in all && y in all && x != y :: Disjoint(x.names, y.names)
    requires (forall x | x in all :: Held(h, x)) && Sensible(h, turns, all)
    ensures forall x | x in all :: Held(TakeTurns(h, turns), x)
    decreases |turns|
  {
    if turns != [] {
      hide Held, Disjoint, SanctionedAt;
      InterleavedStep(h, TakeTurn(h, turns[0]), all, turns[0].attempt, turns[0].slot, turns[0].op);
      InterleavedRun(TakeTurn(h, turns[0]), turns[1..], all);
    }
  }

  // ----- Stripping one attempt beside another

  lemma {:induction false} PlacedKept(rules: seq<Rule>, base: seq<Rule>, hook: Rule, bridge: string, r: Rule)
    requires Placed(rules, base, hook, bridge) && r != hook
    ensures Placed(Without(rules, r), Without(base, r), hook, bridge)
    decreases |rules|
  {
    hide Elsewhere;
    var first, rest := rules[0], rules[1..];
    assert rules == [first] + rest;
    WithoutCons(first, rest, r);
    if first == hook && rest == base {
      PlacedFirst(Without(base, r), hook, bridge);
    } else {
      PlacedKept(rest, base[1..], hook, bridge, r);
      assert base == [first] + base[1..];
      WithoutCons(first, base[1..], r);
      var x, y := Without(rest, r), Without(base[1..], r);
      assert ([first] + x)[1..] == x && ([first] + y)[1..] == y;
    }
  }

  lemma {:induction false} WithoutMembers(rules: seq<Rule>, r: Rule)
    ensures forall q | q in Without(rules, r) :: q in rules
    decreases |rules|
  {
    if rules != [] { WithoutMembers(rules[1..], r); }
  }

  lemma StripSlot(t: Tables, t0: Tables, a: Attempt, d: Direction, f: Family, m: Names)
    requires FamilyInv(t, t0, a, f) && Disjoint(m, a.names)
    ensures SlotInv(StripTable(t, m), StripTable(t0, m), a, d, f)
  {
    hide Placed, Without;
    var parent := Parent(d);
    assert StripTable(t, m)[parent] == Without(t[parent], Hook(m, d));
    assert StripTable(t0, m)[parent] == Without(t0[parent], Hook(m, d));
    if Hooked(t, t0, d) {
      PlacedKept(t[parent], t0[parent], Hook(a.names, d), a.names.bridge, Hook(m, d));
    }
  }

  lemma StripApart(t0: Tables, a: Attempt, m: Names)
    requires Apart(t0, a.names)
    ensures Apart(StripTable(t0, m), a.names)
  {
    hide Without;
    var u := StripTable(t0, m);
    forall c: ChainName, r: Rule | c in u && r in u[c]
      ensures r.target != Jump(ChainOf(a.names, Forwarding)) && r.target != Jump(ChainOf(a.names, Inbound))
    {
      if c == Parent(Forwarding) { WithoutMembers(t0[c], Hook(m, Forwarding)); }
      if c == Parent(Inbound) { WithoutMembers(t0[c], Hook(m, Inbound)); }
      assert r in t0[c];
    }
  }

  lemma StripFamily(t: Tables, t0: Tables, a: Attempt, f: Family, m: Names)
    requires FamilyInv(t, t0, a, f) && Apart(t0, a.names) && Disjoint(m, a.names)
    ensures FamilyInv(StripTable(t, m), StripTable(t0, m), a, f) && Apart(StripTable(t0, m), a.names)
  {
    StripSlot(t, t0, a, Forwarding, f, m);
    StripSlot(t, t0, a, Inbound, f, m);
    StripApart(t0, a, m);
    hide Without, SlotInv, Apart;
    assert OthersKept(StripTable(t, m), StripTable(t0, m), a.names);
  }

  /** Taking one attempt away leaves the others held. */
  lemma StripHolds(h: Host, a: Attempt, m: Names)
    requires Held(h, a) && Disjoint(m, a.names)
    ensures Held(Strip(h, m), a)
  {
    var h0, x := Strip(h, a.names), a.names.network;
    StripFamily(h.v4, h0.v4, a, Inet, m);
    StripFamily(h.v6, h0.v6, a, Inet6, m);
    StripCommutes(h, m, a.names);
    StripNetworks(h, h0, a, m);
    hide StripTable, FamilyInv, Apart, Disjoint;
  }

  lemma StripNetworks(h: Host, h0: Host, a: Attempt, m: Names)
    requires Recoverable(h, h0, a) && Disjoint(m, a.names)
    ensures a.names.network in Strip(h, m).networks <==> a.names.network in h.networks
    ensures a.names.network in h.networks ==>
              Strip(h, m).networks == Strip(h0, m).networks[a.names.network := a.network]
  {
    hide FamilyInv, Apart, StripTable;
    if a.names.network in h.networks {
      assert h0.networks[a.names.network := a.network] - {m.network} == (h0.networks - {m.network})[a.names.network := a.network];
    }
  }
}
