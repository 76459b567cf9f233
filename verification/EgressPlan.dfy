/** Resolving an allowlist once and pinning its destinations. */
module EgressPlan {
  import opened Firewall
  import opened Ordered
  import opened Wrappers

  /** Host-name syntax: which entries validation accepts, how a name is
      normalised, and which names are address literals. */
  datatype Syntax = Syntax(acceptable: string -> bool, normalize: string -> string, literal: string -> Option<Ip>)

  datatype PlanError = InvalidPolicy | ResolverFailed | NoAddresses | ForbiddenAddress | ScopedAddress

  datatype PlanResult = Pinned(targets: seq<PinnedTarget>) | Rejected(error: PlanError)

  // ----- Addresses

  /** IPv4-mapped IPv6 addresses: ::ffff:0:0/96. */
  predicate Mapped(a: Ip) { a.V6? && a.bits6 / 0x1_0000_0000 == 0xffff }

  function Unmap(a: Ip): (r: Ip)
    ensures !Mapped(r)
    ensures !Mapped(a) ==> r == a
    ensures Mapped(a) ==> r.V4? && 0xffff_0000_0000 + r.bits4 == a.bits6
  {
    if Mapped(a) then V4(a.bits6 % 0x1_0000_0000) else a
  }

  /** `is_forbidden_address`, which also looks through a mapped address. */
  predicate Forbidden(a: Ip) { Metadata(Unmap(a)) || Loopback(Unmap(a)) }

  /** fe80::/10. */
  predicate LinkLocal(a: Ip) { a.V6? && a.bits6 / 0x40_0000_0000_0000_0000_0000_0000_0000 == 0x3fa }

  /** Exactly fe80:: to febf:ffff:ffff:ffff:ffff:ffff:ffff:ffff. */
  lemma LinkLocalRange(b: Bits128)
    ensures LinkLocal(V6(b)) <==>
            0xfe80_0000_0000_0000_0000_0000_0000_0000 <= b <= 0xfebf_ffff_ffff_ffff_ffff_ffff_ffff_ffff
  {
  }

  function UnmapAll(addresses: seq<Ip>): (r: seq<Ip>)
    ensures forall x :: x in r <==> exists a | a in addresses :: Unmap(a) == x
  {
    if addresses == [] then [] else
      assert addresses == [addresses[0]] + addresses[1..];
      [Unmap(addresses[0])] + UnmapAll(addresses[1..])
  }

  // ----- Orders

  predicate TextBelow(a: string, b: string) {
    b != "" && (a == "" || a[0] < b[0] || (a[0] == b[0] && TextBelow(a[1..], b[1..])))
  }

  predicate PortBelow(a: nat, b: nat) { a < b }

  predicate IpBelow(a: Ip, b: Ip) {
    if a.V4? != b.V4? then a.V4? else a.Bits() < b.Bits()
  }

  predicate TargetBelow(a: PinnedTarget, b: PinnedTarget) {
    || TextBelow(a.host, b.host)
    || (a.host == b.host && (a.port < b.port || (a.port == b.port && IpBelow(a.address, b.address))))
  }

  lemma {:induction false} TextTotal(a: string, b: string)
    ensures !TextBelow(a, a)
    ensures a != b ==> TextBelow(a, b) || TextBelow(b, a)
    decreases |a|
  {
    if a != "" {
      TextTotal(a[1..], if b == "" then b else b[1..]);
      if b != "" && a[0] == b[0] { assert a == [a[0]] + a[1..] && b == [b[0]] + b[1..]; }
    }
  }

  lemma {:induction false} TextTransitive(a: string, b: string, c: string)
    requires TextBelow(a, b) && TextBelow(b, c)
    ensures TextBelow(a, c)
    decreases |a|
  {
    if a != "" && a[0] == b[0] == c[0] { TextTransitive(a[1..], b[1..], c[1..]); }
  }

  lemma OrdersAreStrict()
    ensures StrictOrder(TextBelow) && StrictOrder(PortBelow) && StrictOrder(IpBelow)
  {
    forall a, b ensures !TextBelow(a, a) && (a != b ==> TextBelow(a, b) || TextBelow(b, a)) { TextTotal(a, b); }
    forall a, b, c | TextBelow(a, b) && TextBelow(b, c) ensures TextBelow(a, c) { TextTransitive(a, b, c); }
  }

  lemma TargetOrderIsStrict()
    ensures StrictOrder(TargetBelow)
  {
    OrdersAreStrict();
    forall a, b, c | TargetBelow(a, b) && TargetBelow(b, c) ensures TargetBelow(a, c) {
      if TextBelow(a.host, b.host) && TextBelow(b.host, c.host) { TextTransitive(a.host, b.host, c.host); }
    }
  }

  // ----- The product of hosts, ports and answers

  type Answers = map<string, seq<Ip>>

  function OnPort(host: string, port: nat, addresses: seq<Ip>): seq<PinnedTarget> {
    if addresses == [] then []
    else OnPort(host, port, addresses[..|addresses| - 1]) + [PinnedTarget(host, port, addresses[|addresses| - 1])]
  }

  function OnPorts(host: string, ports: seq<nat>, addresses: seq<Ip>): seq<PinnedTarget> {
    if ports == [] then []
    else OnPorts(host, ports[..|ports| - 1], addresses) + OnPort(host, ports[|ports| - 1], addresses)
  }

  function Product(hosts: seq<string>, ports: seq<nat>, answers: Answers): seq<PinnedTarget>
    requires forall h | h in hosts :: h in answers
  {
    if hosts == [] then []
    else
      var h := hosts[|hosts| - 1];
      Product(hosts[..|hosts| - 1], ports, answers) + OnPorts(h, ports, answers[h])
  }

  lemma Unsnoc<T>(xs: seq<T>)
    requires xs != []
    ensures xs == xs[..|xs| - 1] + [xs[|xs| - 1]]
    ensures forall x :: x in xs <==> x in xs[..|xs| - 1] || x == xs[|xs| - 1]
  {
    var init, last := xs[..|xs| - 1], xs[|xs| - 1];
    assert xs == init + [last];
  }

  lemma {:induction false} OnPortSorted(host: string, port: nat, addresses: seq<Ip>)
    requires Sorted(IpBelow, addresses)
    ensures Sorted(TargetBelow, OnPort(host, port, addresses))
    ensures forall t :: t in OnPort(host, port, addresses) <==> t.host == host && t.port == port && t.address in addresses
    decreases |addresses|
  {
    if addresses != [] {
      Unsnoc(addresses);
      OnPortSorted(host, port, addresses[..|addresses| - 1]);
    }
  }

  lemma {:induction false} OnPortsSorted(host: string, ports: seq<nat>, addresses: seq<Ip>)
    requires Sorted(PortBelow, ports) && Sorted(IpBelow, addresses)
    ensures Sorted(TargetBelow, OnPorts(host, ports, addresses))
    ensures forall t :: t in OnPorts(host, ports, addresses) <==> t.host == host && t.port in ports && t.address in addresses
    decreases |ports|
  {
    if ports != [] {
      Unsnoc(ports);
      var init, last := ports[..|ports| - 1], ports[|ports| - 1];
      OnPortsSorted(host, init, addresses);
      OnPortSorted(host, last, addresses);
      SortedAppend(TargetBelow, OnPorts(host, init, addresses), OnPort(host, last, addresses));
    }
  }

  lemma {:induction false} ProductSorted(hosts: seq<string>, ports: seq<nat>, answers: Answers)
    requires Sorted(TextBelow, hosts) && Sorted(PortBelow, ports)
    requires forall h | h in hosts :: h in answers && Sorted(IpBelow, answers[h])
    ensures Sorted(TargetBelow, Product(hosts, ports, answers))
    ensures forall t :: t in Product(hosts, ports, answers) <==> t.host in hosts && t.port in ports && t.address in answers[t.host]
    decreases |hosts|
  {
    if hosts != [] {
      Unsnoc(hosts);
      var init, last := hosts[..|hosts| - 1], hosts[|hosts| - 1];
      ProductSorted(init, ports, answers);
      OnPortsSorted(last, ports, answers[last]);
      SortedAppend(TargetBelow, Product(init, ports, answers), OnPorts(last, ports, answers[last]));
    }
  }

  // ----- Planning

  /** A resolver whose answer to the `k`-th call may differ from any earlier
      answer for the same name. */
  class Resolver {
    const answer: Answering
    var calls: seq<string>

    constructor (answer: Answering)
      ensures this.answer == answer && calls == []
    {
      this.answer := answer;
      calls := [];
    }

    method Resolve(host: string) returns (reply: Option<seq<Ip>>)
      modifies this
      ensures calls == old(calls) + [host] && reply == answer(host, |old(calls)|)
    {
      reply := answer(host, |calls|);
      calls := calls + [host];
    }
  }

  ghost predicate NoDuplicates<T>(xs: seq<T>) {
    forall i, j | 0 <= i < j < |xs| :: xs[i] != xs[j]
  }

  type Answering = (string, nat) -> Option<seq<Ip>>

  /** The reply that was recorded for `host` since call `from`. */
  ghost predicate Answered(syntax: Syntax, answer: Answering, calls: seq<string>, from: nat, host: string, reply: seq<Ip>) {
    if syntax.literal(host).Some? then reply == [syntax.literal(host).value]
    else exists k | from <= k < |calls| :: calls[k] == host && answer(host, k) == Some(reply)
  }

  ghost predicate Usable(reply: seq<Ip>) {
    reply != [] && forall a | a in reply :: !Forbidden(a) && !LinkLocal(Unmap(a))
  }

  predicate WellFormed(syntax: Syntax, hosts: seq<string>, ports: seq<nat>) {
    hosts != [] && ports != [] && 0 !in ports && forall h | h in hosts :: syntax.acceptable(h)
  }

  /** `pinned` is the sorted, unmapped form of a usable recorded reply. */
  ghost predicate Entry(
      syntax: Syntax, answer: Answering, calls: seq<string>, from: nat, host: string, pinned: seq<Ip>, reply: seq<Ip>)
  {
    && Answered(syntax, answer, calls, from, host, reply)
    && Usable(reply)
    && Sorted(IpBelow, pinned)
    && forall x :: x in pinned <==> exists a | a in reply :: Unmap(a) == x
  }

  /** Why a name cannot be pinned: its lookup failed, or its answer is empty, has
      a forbidden address, or has none but a link-local one. */
  ghost predicate Unpinnable(
      syntax: Syntax, answer: Answering, calls: seq<string>, from: nat, name: string, error: PlanError)
  {
    match error
    case InvalidPolicy => false
    case ResolverFailed => exists k | from <= k < |calls| :: calls[k] == name && answer(name, k).None?
    case NoAddresses => Answered(syntax, answer, calls, from, name, [])
    case ForbiddenAddress =>
      exists reply: seq<Ip> :: Answered(syntax, answer, calls, from, name, reply) && exists a | a in reply :: Forbidden(a)
    case ScopedAddress =>
      exists reply: seq<Ip> ::
        && Answered(syntax, answer, calls, from, name, reply)
        && (forall a | a in reply :: !Forbidden(a)) && exists a | a in reply :: LinkLocal(Unmap(a))
  }

  /** One allowlist host: its unmapped, sorted answer, or the reason to reject. */
  method PinHost(syntax: Syntax, host: string, resolver: Resolver)
    returns (pinned: Option<seq<Ip>>, error: PlanError, ghost reply: seq<Ip>)
    modifies resolver
    ensures resolver.calls == old(resolver.calls) + if syntax.literal(host).None? then [host] else []
    ensures pinned.Some? ==> Entry(syntax, resolver.answer, resolver.calls, |old(resolver.calls)|, host, pinned.value, reply)
    ensures pinned.None? ==>
              Unpinnable(syntax, resolver.answer, resolver.calls, |old(resolver.calls)|, host, error)
  {
    OrdersAreStrict();
    error, pinned := ResolverFailed, None;
    var addresses: seq<Ip>;
    if syntax.literal(host).Some? {
      addresses := [syntax.literal(host).value];
    } else {
      var answer := resolver.Resolve(host);
      assert resolver.calls[|old(resolver.calls)|] == host;
      if answer.None? {
        reply := [];
        return;
      }
      addresses := answer.value;
    }
    reply := addresses;
    assert Answered(syntax, resolver.answer, resolver.calls, |old(resolver.calls)|, host, reply);
    if addresses == [] {
      error := NoAddresses;
      return;
    }
    var sorted := InsertAll(IpBelow, UnmapAll(addresses));
    forall x | x in sorted ensures exists a | a in addresses :: Unmap(a) == x { assert x in UnmapAll(addresses); }
    forall a | a in addresses ensures Unmap(a) in sorted { assert Unmap(a) in UnmapAll(addresses); }
    if exists x | x in sorted :: Forbidden(x) {
      error := ForbiddenAddress;
      return;
    }
    if exists x | x in sorted :: LinkLocal(x) {
      error := ScopedAddress;
      return;
    }
    pinned := Some(sorted);
  }

  ghost predicate NamedBy(syntax: Syntax, hosts: seq<string>, name: string) {
    exists h | h in hosts :: syntax.normalize(h) == name
  }

  /** Since call `from`, exactly the non-literal names of `names` were resolved,
      once each. */
  ghost predicate ResolvedOnce(syntax: Syntax, calls: seq<string>, from: nat, names: set<string>)
    requires from <= |calls|
  {
    && NoDuplicates(calls[from..])
    && forall name :: name in calls[from..] <==> name in names && syntax.literal(name).None?
  }

  /** Every listed name has one entry, and nothing else was resolved. */
  ghost predicate Table(
      syntax: Syntax, answer: Answering, calls: seq<string>, from: nat, keys: seq<string>, pinned: Answers, replies: Answers)
    requires from <= |calls|
  {
    && pinned.Keys == replies.Keys == (set k | k in keys)
    && (forall k | k in keys :: Entry(syntax, answer, calls, from, k, pinned[k], replies[k]))
    && ResolvedOnce(syntax, calls, from, pinned.Keys)
  }

  lemma EntryKept(
      syntax: Syntax, answer: Answering, calls: seq<string>, more: seq<string>, from: nat, from': nat, k: string,
      pinned: seq<Ip>, reply: seq<Ip>)
    requires Entry(syntax, answer, calls, from, k, pinned, reply) && calls <= more && from' <= from
    ensures Entry(syntax, answer, more, from', k, pinned, reply)
  {}

  lemma TableGrows(
      syntax: Syntax, answer: Answering, calls: seq<string>, more: seq<string>, from: nat, keys: seq<string>, keys': seq<string>,
      pinned: Answers, replies: Answers, host: string, addresses: seq<Ip>, reply: seq<Ip>)
    requires from <= |calls| && Table(syntax, answer, calls, from, keys, pinned, replies)
    requires host !in pinned && more == calls + (if syntax.literal(host).None? then [host] else [])
    requires Entry(syntax, answer, more, |calls|, host, addresses, reply)
    requires forall k :: k in keys' <==> k in keys || k == host
    ensures Table(syntax, answer, more, from, keys', pinned[host := addresses], replies[host := reply])
  {
    var pinned', replies' := pinned[host := addresses], replies[host := reply];
    assert more[from..] == calls[from..] + more[|calls|..];
    assert pinned'.Keys == replies'.Keys == (set k | k in keys');
    forall k | k in keys' ensures Entry(syntax, answer, more, from, k, pinned'[k], replies'[k]) {
      if k == host {
        EntryKept(syntax, answer, more, more, |calls|, from, k, addresses, reply);
      } else {
        EntryKept(syntax, answer, calls, more, from, from, k, pinned[k], replies[k]);
      }
    }
  }

  lemma UnpinnableKept(
      syntax: Syntax, answer: Answering, calls: seq<string>, from: nat, from': nat, name: string, error: PlanError)
    requires Unpinnable(syntax, answer, calls, from, name, error) && from' <= from
    ensures Unpinnable(syntax, answer, calls, from', name, error) && error != InvalidPolicy
  {
    forall reply | Answered(syntax, answer, calls, from, name, reply)
      ensures Answered(syntax, answer, calls, from', name, reply)
    {
    }
  }

  /** The first loop of `plan_egress_allowlist`: every distinct name is pinned
      from one answer. `keys` lists the names in order. */
  method PinHosts(syntax: Syntax, hosts: seq<string>, resolver: Resolver)
    returns (keys: seq<string>, pinned: Answers, error: Option<PlanError>, ghost replies: Answers)
    modifies resolver
    ensures old(resolver.calls) <= resolver.calls
    ensures NoDuplicates(resolver.calls[|old(resolver.calls)|..])
    ensures error.None? ==>
              && Sorted(TextBelow, keys) && (forall name :: name in keys <==> NamedBy(syntax, hosts, name))
              && Table(syntax, resolver.answer, resolver.calls, |old(resolver.calls)|, keys, pinned, replies)
    ensures error.Some? ==>
              && error.value != InvalidPolicy
              && exists h | h in hosts ::
                   Unpinnable(syntax, resolver.answer, resolver.calls, |old(resolver.calls)|, syntax.normalize(h), error.value)
  {
    hide Table, Unpinnable, TextBelow;
    OrdersAreStrict();
    keys, pinned, replies, error := [], map[], map[], None;
    ghost var from := |resolver.calls|;
    TableStarts(syntax, resolver.answer, resolver.calls);
    for i := 0 to |hosts|
      invariant old(resolver.calls) <= resolver.calls
      invariant Sorted(TextBelow, keys) && (forall name :: name in keys <==> NamedBy(syntax, hosts[..i], name))
      invariant Table(syntax, resolver.answer, resolver.calls, from, keys, pinned, replies)
    {
      var host := syntax.normalize(hosts[i]);
      NamedBySnoc(syntax, hosts, i);
      TableKeys(syntax, resolver.answer, resolver.calls, from, keys, pinned, replies);
      if host !in pinned {
        ghost var before := resolver.calls;
        var answer, reason;
        ghost var reply;
        answer, reason, reply := PinHost(syntax, host, resolver);
        assert resolver.calls[from..] == before[from..] + resolver.calls[|before|..];
        if answer.None? {
          UnpinnableKept(syntax, resolver.answer, resolver.calls, |before|, from, host, reason);
          assert hosts[i] in hosts;
          error := Some(reason);
          return;
        }
        var keys' := Insert(TextBelow, keys, host);
        TableGrows(syntax, resolver.answer, before, resolver.calls, from, keys, keys', pinned, replies, host, answer.value, reply);
        keys := keys';
        pinned := pinned[host := answer.value];
        replies := replies[host := reply];
      }
    }
    assert hosts[..|hosts|] == hosts;
    TableKeys(syntax, resolver.answer, resolver.calls, from, keys, pinned, replies);
  }

  lemma TableStarts(syntax: Syntax, answer: Answering, calls: seq<string>)
    ensures Table(syntax, answer, calls, |calls|, [], map[], map[])
  {}

  lemma TableKeys(
      syntax: Syntax, answer: Answering, calls: seq<string>, from: nat, keys: seq<string>, pinned: Answers, replies: Answers)
    requires from <= |calls| && Table(syntax, answer, calls, from, keys, pinned, replies)
    ensures forall k :: k in pinned <==> k in keys
    ensures NoDuplicates(calls[from..])
    ensures forall name | name !in pinned :: name !in calls[from..]
  {}

  lemma NamedBySnoc(syntax: Syntax, hosts: seq<string>, i: nat)
    requires i < |hosts|
    ensures forall name :: NamedBy(syntax, hosts[..i + 1], name) <==> NamedBy(syntax, hosts[..i], name) || name == syntax.normalize(hosts[i])
  {
    assert hosts[..i + 1] == hosts[..i] + [hosts[i]];
    forall name ensures NamedBy(syntax, hosts[..i + 1], name) <==> NamedBy(syntax, hosts[..i], name) || name == syntax.normalize(hosts[i]) {
      if NamedBy(syntax, hosts[..i], name) {
        var h :| h in hosts[..i] && syntax.normalize(h) == name;
        assert h in hosts[..i + 1];
      }
      if name == syntax.normalize(hosts[i]) { assert hosts[i] in hosts[..i + 1]; }
    }
  }

  /** The second loop: hosts, then ports, then addresses, all in order. */
  method Enumerate(keys: seq<string>, ports: seq<nat>, pinned: Answers) returns (targets: seq<PinnedTarget>)
    requires forall k | k in keys :: k in pinned
    ensures targets == Product(keys, ports, pinned)
  {
    hide Product, OnPorts, OnPort;
    targets := [];
    ProductOf(keys, ports, pinned, 0);
    for i := 0 to |keys|
      invariant targets == Product(keys[..i], ports, pinned)
    {
      var host, addresses := keys[i], pinned[keys[i]];
      ghost var outer := targets;
      OnPortsOf(host, ports, addresses, 0);
      for j := 0 to |ports|
        invariant targets == outer + OnPorts(host, ports[..j], addresses)
      {
        ghost var inner := targets;
        OnPortOf(host, ports[j], addresses, 0);
        for k := 0 to |addresses|
          invariant targets == inner + OnPort(host, ports[j], addresses[..k])
        {
          OnPortOf(host, ports[j], addresses, k + 1);
          targets := targets + [PinnedTarget(host, ports[j], addresses[k])];
        }
        assert addresses[..|addresses|] == addresses;
        OnPortsOf(host, ports, addresses, j + 1);
      }
      assert ports[..|ports|] == ports;
      ProductOf(keys, ports, pinned, i + 1);
    }
    assert keys[..|keys|] == keys;
  }

  lemma OnPortOf(host: string, port: nat, addresses: seq<Ip>, k: nat)
    requires k <= |addresses|
    ensures OnPort(host, port, addresses[..k]) ==
            if k == 0 then [] else OnPort(host, port, addresses[..k - 1]) + [PinnedTarget(host, port, addresses[k - 1])]
  {
    if k > 0 { assert addresses[..k][..k - 1] == addresses[..k - 1]; }
  }

  lemma OnPortsOf(host: string, ports: seq<nat>, addresses: seq<Ip>, j: nat)
    requires j <= |ports|
    ensures OnPorts(host, ports[..j], addresses) ==
            if j == 0 then [] else OnPorts(host, ports[..j - 1], addresses) + OnPort(host, ports[j - 1], addresses)
  {
    hide OnPort;
    if j > 0 { assert ports[..j][..j - 1] == ports[..j - 1]; }
  }

  lemma ProductOf(keys: seq<string>, ports: seq<nat>, pinned: Answers, i: nat)
    requires i <= |keys| && forall k | k in keys :: k in pinned
    ensures Product(keys[..i], ports, pinned) ==
            if i == 0 then [] else Product(keys[..i - 1], ports, pinned) + OnPorts(keys[i - 1], ports, pinned[keys[i - 1]])
  {
    hide OnPorts;
    if i > 0 { assert keys[..i][..i - 1] == keys[..i - 1]; }
  }

  method Plan(syntax: Syntax, hosts: seq<string>, ports: seq<nat>, resolver: Resolver)
    returns (result: PlanResult, ghost replies: Answers)
    modifies resolver
    // Every distinct name is looked up at most once, whatever the outcome.
    ensures old(resolver.calls) <= resolver.calls
    ensures NoDuplicates(resolver.calls[|old(resolver.calls)|..])
    // A plan is the strictly sorted product of names, ports and unmapped answers.
    ensures result.Pinned? ==>
              && WellFormed(syntax, hosts, ports)
              && Sorted(TargetBelow, result.targets)
              && (forall t :: t in result.targets <==>
                    && NamedBy(syntax, hosts, t.host)
                    && t.port in ports
                    && t.host in replies && exists a | a in replies[t.host] :: Unmap(a) == t.address)
              && ResolvedOnce(syntax, resolver.calls, |old(resolver.calls)|, replies.Keys)
              && (forall name | NamedBy(syntax, hosts, name) ::
                    name in replies && Answered(syntax, resolver.answer, resolver.calls, |old(resolver.calls)|, name, replies[name]))
              && (forall t | t in result.targets :: Safe(t.address))
    // A rejection has a cause.
    ensures !WellFormed(syntax, hosts, ports) <==> result == Rejected(InvalidPolicy)
    ensures result.Rejected? ==>
              if result.error == InvalidPolicy then !WellFormed(syntax, hosts, ports) && resolver.calls == old(resolver.calls)
              else exists h | h in hosts ::
                     Unpinnable(syntax, resolver.answer, resolver.calls, |old(resolver.calls)|, syntax.normalize(h), result.error)
  {
    replies := map[];
    if !WellFormed(syntax, hosts, ports) {
      result := Rejected(InvalidPolicy);
      return;
    }
    var keys, pinned, error;
    keys, pinned, error, replies := PinHosts(syntax, hosts, resolver);
    if error.Some? {
      result := Rejected(error.value);
      return;
    }
    OrdersAreStrict();
    var portSet := InsertAll(PortBelow, ports);
    ProductSorted(keys, portSet, pinned);
    var targets := Enumerate(keys, portSet, pinned);
    forall t | t in targets ensures Safe(t.address) {
      var a :| a in replies[t.host] && Unmap(a) == t.address;
      assert !Forbidden(a);
    }
    result := Pinned(targets);
  }

  /** What no pinned target may be. */
  ghost predicate Safe(a: Ip) { !Mapped(a) && !Loopback(a) && !Metadata(a) && !LinkLocal(a) }

  /** Two plans with the same destinations are the same plan, so neither the
      order nor the repetition of allowlist entries matters. */
  lemma PlanIsCanonical(xs: seq<PinnedTarget>, ys: seq<PinnedTarget>)
    requires Sorted(TargetBelow, xs) && Sorted(TargetBelow, ys)
    requires forall t :: t in xs <==> t in ys
    ensures xs == ys
  {
    TargetOrderIsStrict();
    SortedUnique(TargetBelow, xs, ys);
  }

  /** A packet to an address that a listed name resolved to, on a listed port. */
  ghost predicate Allowed(syntax: Syntax, hosts: seq<string>, ports: seq<nat>, replies: Answers, p: Packet) {
    && p.protocol == Tcp && p.dport in ports
    && exists name | name in replies :: NamedBy(syntax, hosts, name) && exists a | a in replies[name] :: Unmap(a) == p.dst
  }

  /** What forwarding by a plan means in terms of the allowlist: no deny rule
      shadows an allowed destination, and nothing else opens a connection. */
  lemma PlanDecides(
      syntax: Syntax, hosts: seq<string>, ports: seq<nat>, replies: Answers, targets: seq<PinnedTarget>, p: Packet)
    requires forall t :: t in targets <==>
               && NamedBy(syntax, hosts, t.host) && t.port in ports
               && t.host in replies && exists a | a in replies[t.host] :: Unmap(a) == t.address
    requires forall t | t in targets :: Safe(t.address)
    ensures MayForward(targets, p) <==>
            && !Unspecified(p.src)
            && (Allowed(syntax, hosts, ports, replies, p) || (p.established && !Loopback(p.dst) && !Metadata(p.dst)))
  {
    hide NamedBy, Unmap;
    if Allowed(syntax, hosts, ports, replies, p) {
      var name :| name in replies && NamedBy(syntax, hosts, name) && exists a | a in replies[name] :: Unmap(a) == p.dst;
      assert PinnedTarget(name, p.dport, p.dst) in targets;
    }
    if Firewall.Pinned(targets, p) {
      var t :| t in targets && t.address == p.dst && t.port == p.dport;
      assert NamedBy(syntax, hosts, t.host) && t.host in replies && exists a | a in replies[t.host] :: Unmap(a) == p.dst;
    }
  }
}
