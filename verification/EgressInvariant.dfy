/** Why every command of an install or a cleanup keeps the host recoverable. */
module EgressInvariant {
  import opened Firewall
  import opened EgressNames
  import opened EgressHost

  // ----- The complete chains

  lemma {:induction false} DenyRulesNoJumps(blocks: seq<Prefix>)
    ensures NoJumps(DenyRules(blocks))
    decreases |blocks|
  {
    if blocks != [] { DenyRulesNoJumps(blocks[1..]); }
  }

  lemma {:induction false} PinnedRulesNoJumps(targets: seq<PinnedTarget>, ipv6: bool)
    ensures NoJumps(PinnedRules(targets, ipv6))
    decreases |targets|
  {
    if targets != [] { PinnedRulesNoJumps(targets[1..], ipv6); }
  }

  lemma CompiledIsClosed(names: Names, targets: seq<PinnedTarget>, network: Network)
    ensures ClosedAttempt(Compile(names, targets, network))
  {
    var a := Compile(names, targets, network);
    forall d: Direction, f: Family ensures ClosedChain(FullChain(a, d, f), a.names.marker, f == Inet6) {
      DenyRulesNoJumps(DenyBlocks(f == Inet6));
      PinnedRulesNoJumps(targets, f == Inet6);
    }
  }

  lemma PrefixIsMarked(t: Tables, t0: Tables, a: Attempt, d: Direction, f: Family)
    requires ClosedAttempt(a) && SlotInv(t, t0, a, d, f)
    requires ChainOf(a.names, d) in t && t[ChainOf(a.names, d)] != []
    ensures Marked(t, ChainOf(a.names, d), a.names.marker)
  {
    assert ClosedChain(FullChain(a, d, f), a.names.marker, f == Inet6);
    var r := t[ChainOf(a.names, d)][0];
    assert r == FullChain(a, d, f)[0];
    assert IsMarker(r, a.names.marker);
  }

  lemma UnhookedIsUnreferenced(t: Tables, t0: Tables, a: Attempt, d: Direction, f: Family)
    requires ClosedAttempt(a) && FamilyInv(t, t0, a, f) && Apart(t0, a.names)
    requires !Hooked(t, t0, d)
    ensures !Referenced(t, ChainOf(a.names, d))
  {
    var chain := ChainOf(a.names, d);
    forall c, r | c in t && c != chain && r in t[c] ensures r.target != Jump(chain) {
      if c == ChainOf(a.names, Forwarding) {
        assert ClosedChain(FullChain(a, Forwarding, f), a.names.marker, f == Inet6);
      } else if c == ChainOf(a.names, Inbound) {
        assert ClosedChain(FullChain(a, Inbound, f), a.names.marker, f == Inet6);
      } else if c == Parent(Forwarding) || c == Parent(Inbound) {
        var e := if c == Parent(Forwarding) then Forwarding else Inbound;
        if Hooked(t, t0, e) {
          assert e != d;
          PlacedFacts(t[c], t0[c], Hook(a.names, e), a.names.bridge);
          assert r == Hook(a.names, e) || r in t0[c];
        }
      }
    }
  }

  // ----- Where a hook stands

  lemma {:induction false} PlacedFacts(rules: seq<Rule>, base: seq<Rule>, hook: Rule, bridge: string)
    requires Placed(rules, base, hook, bridge)
    ensures |rules| == |base| + 1 && hook in rules
    ensures forall r :: r in rules <==> r == hook || r in base
    decreases |rules|
  {
    assert rules == [rules[0]] + rules[1..];
    if !(rules[0] == hook && rules[1..] == base) {
      PlacedFacts(rules[1..], base[1..], hook, bridge);
      assert base == [base[0]] + base[1..];
    }
  }

  lemma PlacedFirst(base: seq<Rule>, hook: Rule, bridge: string)
    ensures Placed([hook] + base, base, hook, bridge)
  {
    assert ([hook] + base)[1..] == base;
  }

  lemma {:induction false} PlacedRemoved(rules: seq<Rule>, base: seq<Rule>, hook: Rule, bridge: string)
    requires Placed(rules, base, hook, bridge) && hook !in base
    ensures RemoveFirst(rules, hook) == base
    decreases |rules|
  {
    if !(rules[0] == hook && rules[1..] == base) {
      assert base == [base[0]] + base[1..];
      PlacedRemoved(rules[1..], base[1..], hook, bridge);
    }
  }

  lemma ElsewhereSkipped(r: Rule, bridge: string, p: Packet)
    requires Elsewhere(r, bridge) && p.iface == bridge
    ensures !Matches(r, p)
  {
    var c :| c in r.conditions && c.InIface? && c.name != bridge;
    assert !Holds(c, p);
  }

  /** Its own packets meet the hook whatever stands above it. */
  lemma {:induction false} PlacedTaken(
      t: Tables, seen: set<ChainName>, rules: seq<Rule>, base: seq<Rule>, hook: Rule, chain: seq<Rule>, p: Packet)
    requires Placed(rules, base, hook, p.iface)
    requires hook.target.Jump? && hook.conditions == [InIface(p.iface)]
    requires hook.target.chain in t && hook.target.chain !in seen && t[hook.target.chain] == chain
    ensures var inner := Eval(t, seen + {hook.target.chain}, chain, p);
            inner == Accepted || inner == Dropped ==> Eval(t, seen, rules, p) == inner
    decreases |rules|
  {
    if rules[0] == hook && rules[1..] == base {
      MatchesOne(InIface(p.iface), hook.target, p);
    } else {
      ElsewhereSkipped(rules[0], p.iface, p);
      PlacedTaken(t, seen, rules[1..], base[1..], hook, chain, p);
    }
  }

  /** Other interfaces' packets do not notice it. */
  lemma {:induction false} PlacedUnnoticed(
      t: Tables, seen: set<ChainName>, rules: seq<Rule>, base: seq<Rule>, hook: Rule, bridge: string, p: Packet)
    requires Placed(rules, base, hook, bridge) && hook.conditions == [InIface(bridge)] && p.iface != bridge
    ensures Eval(t, seen, rules, p) == Eval(t, seen, base, p)
    decreases |rules|
  {
    if rules[0] == hook && rules[1..] == base {
      MatchesOne(InIface(bridge), hook.target, p);
    } else {
      PlacedUnnoticed(t, seen, rules[1..], base[1..], hook, bridge, p);
    }
  }

  // ----- Single table commands

  /** The table commands the controller may issue for direction `d`. */
  ghost predicate Sanctioned(t: Tables, t0: Tables, a: Attempt, d: Direction, f: Family, op: TableOp)
    requires Parent(d) in t && Parent(d) in t0
  {
    var chain, parent, full := ChainOf(a.names, d), Parent(d), FullChain(a, d, f);
    match op
    case NewChain(c) => c == chain
    case Append(c, r) => c == chain && !Hooked(t, t0, d) && (c in t ==> t[c] + [r] <= full)
    case InsertFirst(c, r) => c == parent && r == Hook(a.names, d) && !Hooked(t, t0, d) && chain in t && t[chain] == full
    case DeleteRule(c, r) => c == parent && r == Hook(a.names, d)
    case Flush(c) => c == chain && !Hooked(t, t0, d)
    case DeleteChain(c) => c == chain && !Hooked(t, t0, d)
  }

  lemma HookNotInBase(t0: Tables, n: Names, d: Direction)
    requires Apart(t0, n) && Parent(d) in t0
    ensures Hook(n, d) !in t0[Parent(d)]
  {
  }

  lemma ModifyKeeps(t: Tables, t0: Tables, a: Attempt, d: Direction, f: Family, op: TableOp)
    requires FamilyInv(t, t0, a, f) && Apart(t0, a.names)
    requires Sanctioned(t, t0, a, d, f, op) && Modify(t, op).Some?
    ensures FamilyInv(Modify(t, op).value, t0, a, f)
  {
    hide Placed;
    var t' := Modify(t, op).value;
    var e := if d == Forwarding then Inbound else Forwarding;
    OwnSlotKept(t, t0, a, d, f, op);
    assert SlotInv(t', t0, a, e, f);
  }

  lemma OwnSlotKept(t: Tables, t0: Tables, a: Attempt, d: Direction, f: Family, op: TableOp)
    requires FamilyInv(t, t0, a, f) && Apart(t0, a.names)
    requires Sanctioned(t, t0, a, d, f, op) && Modify(t, op).Some?
    ensures SlotInv(Modify(t, op).value, t0, a, d, f)
  {
    hide Placed, OthersKept;
    var parent, hook, bridge := Parent(d), Hook(a.names, d), a.names.bridge;
    HookNotInBase(t0, a.names, d);
    PlacedFirst(t0[parent], hook, bridge);
    if op.DeleteRule? && Hooked(t, t0, d) { PlacedRemoved(t[parent], t0[parent], hook, bridge); }
  }

  /** Sanctioned commands on either family keep the whole host recoverable. */
  lemma CommandKeeps(h: Host, h0: Host, a: Attempt, d: Direction, f: Family, op: TableOp)
    requires Recoverable(h, h0, a)
    requires a.names.network in h.networks
    requires Sanctioned(h.Table(f), h0.Table(f), a, d, f, op)
    requires Apply(h, Filter(f, op)).Some?
    ensures Recoverable(Apply(h, Filter(f, op)).value, h0, a)
  {
    ModifyKeeps(h.Table(f), h0.Table(f), a, d, f, op);
  }

  lemma ClearIsOriginal(t: Tables, t0: Tables, a: Attempt, f: Family)
    requires FamilyInv(t, t0, a, f) && Apart(t0, a.names)
    requires SlotClear(t, t0, a, Forwarding) && SlotClear(t, t0, a, Inbound)
    ensures t == t0
  {
    assert t.Keys == t0.Keys;
    forall c | c in t ensures t[c] == t0[c] {}
  }

  // ----- What every recoverable state means for traffic

  lemma {:induction false} EvalUnaffected(
      t: Tables, t0: Tables, a: Attempt, f: Family, seen: set<ChainName>, rules: seq<Rule>, p: Packet)
    requires FamilyInv(t, t0, a, f) && Apart(t0, a.names)
    requires p.iface != a.names.bridge
    requires forall r, d: Direction | r in rules :: r.target != Jump(ChainOf(a.names, d))
    ensures Eval(t, seen, rules, p) == Eval(t0, seen, rules, p)
    decreases t0.Keys - seen, |rules|
  {
    if rules != [] {
      EvalUnaffected(t, t0, a, f, seen, rules[1..], p);
      if rules[0].target.Jump? {
        var c := rules[0].target.chain;
        assert rules[0] in rules;
        assert c != ChainOf(a.names, Forwarding) && c != ChainOf(a.names, Inbound);
        assert c in t <==> c in t0;
        if c in t0 && c !in seen {
          EvalUnaffected(t, t0, a, f, seen + {c}, t0[c], p);
          ChainUnaffected(t, t0, a, f, seen + {c}, c, p);
        }
      }
    }
  }

  /** A chain that differs from `t0` differs by a hook for the box's bridge. */
  lemma ChainUnaffected(t: Tables, t0: Tables, a: Attempt, f: Family, seen: set<ChainName>, c: ChainName, p: Packet)
    requires FamilyInv(t, t0, a, f) && Apart(t0, a.names)
    requires p.iface != a.names.bridge
    requires c in t && c in t0
    ensures Eval(t, seen, t[c], p) == Eval(t, seen, t0[c], p)
  {
    if t[c] != t0[c] {
      var d := if c == DockerUser then Forwarding else Inbound;
      assert c == Parent(d);
      var hook := Hook(a.names, d);
      PlacedUnnoticed(t, seen, t[c], t0[c], hook, a.names.bridge, p);
    }
  }

  /** In every recoverable state, traffic from any other interface is treated
      exactly as before the attempt, on every built-in chain. */
  lemma OtherInterfacesUnaffected(h: Host, h0: Host, a: Attempt, f: Family, builtin: ChainName, p: Packet)
    requires Recoverable(h, h0, a)
    requires p.iface != a.names.bridge
    requires builtin in {Forward, Input, DockerUser}
    ensures Traverse(h.Table(f), builtin, p) == Traverse(h0.Table(f), builtin, p)
  {
    var t, t0 := h.Table(f), h0.Table(f);
    assert builtin in t <==> builtin in t0;
    if builtin in t {
      ChainUnaffected(t, t0, a, f, {builtin}, builtin, p);
      EvalUnaffected(t, t0, a, f, {builtin}, t0[builtin], p);
    }
  }

  lemma HookedEval(
      t: Tables, t0: Tables, a: Attempt, targets: seq<PinnedTarget>, d: Direction, f: Family, seen: set<ChainName>, p: Packet)
    requires a == Compile(a.names, targets, a.network)
    requires FamilyInv(t, t0, a, f) && Apart(t0, a.names)
    requires Hooked(t, t0, d)
    requires p.iface == a.names.bridge && OneFamily(p) && p.dst.V6? == (f == Inet6)
    requires ChainOf(a.names, d) !in seen
    ensures Eval(t, seen, t[Parent(d)], p) ==
            if (if d == Forwarding then MayForward(targets, p) else MayReachHost(p)) then Accepted else Dropped
  {
    var hook, chain := Hook(a.names, d), ChainOf(a.names, d);
    var inner := Eval(t, seen + {chain}, FullChain(a, d, f), p);
    assert inner == if (if d == Forwarding then MayForward(targets, p) else MayReachHost(p)) then Accepted else Dropped by {
      if d == Forwarding {
        ForwardChainMeaning(t, seen + {chain}, a.names.marker, targets, p);
      } else {
        InputChainMeaning(t, seen + {chain}, a.names.marker, p);
      }
    }
    PlacedTaken(t, seen, t[Parent(d)], t0[Parent(d)], hook, FullChain(a, d, f), p);
  }

  /** The gate `verify_engine_and_firewall` checks. */
  predicate FilterReady(t: Tables) {
    && DockerUser in t && Input in t && Forward in t
    && t[Forward] != [] && t[Forward][0] == Rule([], Jump(DockerUser))
  }

  lemma EvalFirstJump(t: Tables, seen: set<ChainName>, rules: seq<Rule>, c: ChainName, p: Packet)
    requires rules != [] && rules[0] == Rule([], Jump(c)) && c in t && c !in seen
    ensures var inner := Eval(t, seen + {c}, t[c], p);
            inner == Accepted || inner == Dropped ==> Eval(t, seen, rules, p) == inner
  {
    assert Matches(rules[0], p);
  }

  lemma ForwardTraversal(t: Tables, t0: Tables, a: Attempt, targets: seq<PinnedTarget>, f: Family, p: Packet)
    requires a == Compile(a.names, targets, a.network)
    requires FamilyInv(t, t0, a, f) && Apart(t0, a.names)
    requires FilterReady(t0) && Hooked(t, t0, Forwarding)
    requires p.iface == a.names.bridge && OneFamily(p) && p.dst.V6? == (f == Inet6)
    ensures Traverse(t, Forward, p) == if MayForward(targets, p) then Accepted else Dropped
  {
    var seen := {Forward} + {DockerUser};
    assert Forward in t && t[Forward] == t0[Forward] && ChainOf(a.names, Forwarding) !in seen by {
    }
    HookedEval(t, t0, a, targets, Forwarding, f, seen, p);
    EvalFirstJump(t, {Forward}, t[Forward], DockerUser, p);
  }

  /** In every recoverable state, once the forward chain is hooked a packet
      from the box's bridge is forwarded exactly when the plan permits it. */
  lemma BoxForwarding(h: Host, h0: Host, a: Attempt, targets: seq<PinnedTarget>, f: Family, p: Packet)
    requires a == Compile(a.names, targets, a.network)
    requires Recoverable(h, h0, a)
    requires FilterReady(h0.Table(f)) && Hooked(h.Table(f), h0.Table(f), Forwarding)
    requires p.iface == a.names.bridge && OneFamily(p) && p.dst.V6? == (f == Inet6)
    ensures Traverse(h.Table(f), Forward, p) == if MayForward(targets, p) then Accepted else Dropped
  {
    ForwardTraversal(h.Table(f), h0.Table(f), a, targets, f, p);
  }

  lemma BoxInput(h: Host, h0: Host, a: Attempt, targets: seq<PinnedTarget>, f: Family, p: Packet)
    requires a == Compile(a.names, targets, a.network)
    requires Recoverable(h, h0, a)
    requires Hooked(h.Table(f), h0.Table(f), Inbound)
    requires p.iface == a.names.bridge && OneFamily(p) && p.dst.V6? == (f == Inet6)
    ensures Traverse(h.Table(f), Input, p) == if MayReachHost(p) then Accepted else Dropped
  {
    HookedEval(h.Table(f), h0.Table(f), a, targets, Inbound, f, {Input}, p);
  }
}
