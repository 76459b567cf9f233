/** Packet filtering as the native Linux egress controller relies on it: ordered
    chains evaluated by first match, and the compilation of a pinned plan into
    the two chains a box gets per address family. */
module Firewall {

  // ----- Addresses and packets

  type Bits32 = n: nat | n < 0x1_0000_0000
  type Bits128 = n: nat | n < 0x1_0000_0000_0000_0000_0000_0000_0000_0000

  datatype Ip = V4(bits4: Bits32) | V6(bits6: Bits128)
  {
    function Bits(): nat { if V4? then bits4 else bits6 }
  }

  /** An aligned block of addresses: all that share `base / size`, so
      127.0.0.0/8 is `Prefix(V4(0x7f000000), 0x1000000)`. */
  datatype Prefix = Prefix(base: Ip, size: nat)
  {
    predicate Contains(a: Ip) {
      size > 0 && a.V4? == base.V4? && a.Bits() / size == base.Bits() / size
    }
  }

  function Single(a: Ip): Prefix { Prefix(a, 1) }

  datatype Protocol = Tcp | Udp | Icmpv6(kind: nat) | OtherProtocol

  datatype Packet = Packet(iface: string, src: Ip, dst: Ip, protocol: Protocol, dport: nat, established: bool)

  const NEIGHBOR_SOLICITATION: nat := 135
  const NEIGHBOR_ADVERTISEMENT: nat := 136

  // ----- Rules and chains

  datatype Condition =
    | InIface(name: string)
    | Source(block: Prefix)
    | Destination(block: Prefix)
    | TcpTo(port: nat)
    | EstablishedOrRelated
    | Icmpv6Type(kind: nat)
    | Comment(text: string)

  /** The built-in and Docker chains the controller hooks into, and all others. */
  datatype ChainName = Forward | Input | DockerUser | Custom(text: string)
  {
    function Word(): string {
      match this
      case Forward => "FORWARD"
      case Input => "INPUT"
      case DockerUser => "DOCKER-USER"
      case Custom(text) => text
    }
  }

  datatype Target = Accept | Drop | Return | Log | Jump(chain: ChainName)

  datatype Rule = Rule(conditions: seq<Condition>, target: Target)

  /** One family's filter table: chain name to its rules. */
  type Tables = map<ChainName, seq<Rule>>

  predicate Holds(c: Condition, p: Packet) {
    match c
    case InIface(name) => p.iface == name
    case Source(block) => block.Contains(p.src)
    case Destination(block) => block.Contains(p.dst)
    case TcpTo(port) => p.protocol == Tcp && p.dport == port
    case EstablishedOrRelated => p.established
    case Icmpv6Type(kind) => p.protocol == Icmpv6(kind)
    case Comment(_) => true
  }

  predicate Matches(r: Rule, p: Packet) {
    forall c | c in r.conditions :: Holds(c, p)
  }

  datatype Verdict = Accepted | Dropped | Returned | FellThrough

  /** First-match evaluation. `seen` holds the chains on the call stack; a
      loaded table never jumps back into one of them. */
  function Eval(t: Tables, seen: set<ChainName>, rules: seq<Rule>, p: Packet): Verdict
    decreases t.Keys - seen, |rules|
  {
    if rules == [] then FellThrough
    else if !Matches(rules[0], p) then Eval(t, seen, rules[1..], p)
    else
      match rules[0].target
      case Accept => Accepted
      case Drop => Dropped
      case Return => Returned
      case Log => Eval(t, seen, rules[1..], p)
      case Jump(c) =>
        var inner := if c in t && c !in seen then Eval(t, seen + {c}, t[c], p) else FellThrough;
        if inner == Accepted || inner == Dropped then inner else Eval(t, seen, rules[1..], p)
  }

  /** The verdict of a built-in chain; anything but `Accepted` or `Dropped`
      means the chain's policy decides. */
  function Traverse(t: Tables, builtin: ChainName, p: Packet): Verdict {
    if builtin in t then Eval(t, {builtin}, t[builtin], p) else FellThrough
  }

  lemma {:induction false} EvalAppend(t: Tables, seen: set<ChainName>, a: seq<Rule>, b: seq<Rule>, p: Packet)
    ensures Eval(t, seen, a + b, p) ==
            if Eval(t, seen, a, p) == FellThrough then Eval(t, seen, b, p) else Eval(t, seen, a, p)
    decreases |a|
  {
    if a == [] {
      assert a + b == b;
    } else {
      EvalAppend(t, seen, a[1..], b, p);
      assert (a + b)[0] == a[0];
      assert (a + b)[1..] == a[1..] + b;
    }
  }

  // ----- The compiled policy

  datatype PinnedTarget = PinnedTarget(host: string, port: nat, address: Ip)

  const UNSPECIFIED4 := V4(0)
  const UNSPECIFIED6 := V6(0)

  function Marker(token: string, ipv6: bool): Rule {
    Rule([Source(Single(if ipv6 then UNSPECIFIED6 else UNSPECIFIED4)), Comment(token)], Drop)
  }

  function DenyBlocks(ipv6: bool): seq<Prefix> {
    if ipv6 then
      [Single(V6(1)), Single(V6(0xfd00_0ec2_0000_0000_0000_0000_0000_0254))]
    else
      [Prefix(V4(0x7f00_0000), 0x100_0000), Single(V4(0xa9fe_a9fe)), Single(V4(0xa9fe_aa02)), Single(V4(0x6464_64c8))]
  }

  function DenyRule(block: Prefix): Rule { Rule([Destination(block)], Drop) }

  function DenyRules(blocks: seq<Prefix>): seq<Rule> {
    if blocks == [] then [] else [DenyRule(blocks[0])] + DenyRules(blocks[1..])
  }

  function NeighborRule(kind: nat): Rule { Rule([Icmpv6Type(kind)], Accept) }

  function NeighborRules(ipv6: bool): seq<Rule> {
    if ipv6 then [NeighborRule(NEIGHBOR_SOLICITATION), NeighborRule(NEIGHBOR_ADVERTISEMENT)] else []
  }

  function PinnedRule(t: PinnedTarget): Rule {
    Rule([Destination(Single(t.address)), TcpTo(t.port)], Accept)
  }

  function PinnedRules(targets: seq<PinnedTarget>, ipv6: bool): seq<Rule> {
    if targets == [] then []
    else (if targets[0].address.V6? == ipv6 then [PinnedRule(targets[0])] else []) + PinnedRules(targets[1..], ipv6)
  }

  const ESTABLISHED_ACCEPT := Rule([EstablishedOrRelated], Accept)
  const DROP_ALL := Rule([], Drop)

  /** The complete forward chain, in the order the rules are appended. */
  function ForwardChain(token: string, targets: seq<PinnedTarget>, ipv6: bool): seq<Rule> {
    [Marker(token, ipv6)] + DenyRules(DenyBlocks(ipv6)) + PinnedRules(targets, ipv6) + [ESTABLISHED_ACCEPT] + [DROP_ALL]
  }

  function InputChain(token: string, ipv6: bool): seq<Rule> {
    [Marker(token, ipv6)] + NeighborRules(ipv6) + [ESTABLISHED_ACCEPT] + [DROP_ALL]
  }

  // ----- What the policy means, stated without rules

  predicate Unspecified(a: Ip) { a == UNSPECIFIED4 || a == UNSPECIFIED6 }

  predicate Loopback(a: Ip) {
    match a
    case V4(b) => 0x7f00_0000 <= b <= 0x7fff_ffff
    case V6(b) => b == 1
  }

  /** The cloud metadata endpoints, for addresses already in canonical form. */
  predicate Metadata(a: Ip) {
    a in {V4(0xa9fe_a9fe), V4(0xa9fe_aa02), V4(0x6464_64c8), V6(0xfd00_0ec2_0000_0000_0000_0000_0000_0254)}
  }

  ghost predicate Pinned(targets: seq<PinnedTarget>, p: Packet) {
    && p.protocol == Tcp
    && exists t | t in targets :: t.address == p.dst && t.port == p.dport
  }

  ghost predicate MayForward(targets: seq<PinnedTarget>, p: Packet) {
    && !Unspecified(p.src)
    && !Loopback(p.dst)
    && !Metadata(p.dst)
    && (Pinned(targets, p) || p.established)
  }

  predicate MayReachHost(p: Packet) {
    && !Unspecified(p.src)
    && (p.established
        || (p.dst.V6? && p.protocol in {Icmpv6(NEIGHBOR_SOLICITATION), Icmpv6(NEIGHBOR_ADVERTISEMENT)}))
  }

  /** Both ends of an IP packet belong to one family. */
  predicate OneFamily(p: Packet) { p.src.V6? == p.dst.V6? }

  // ----- Proofs

  lemma EvalOne(t: Tables, seen: set<ChainName>, r: Rule, p: Packet)
    requires r.target == Accept || r.target == Drop
    ensures Eval(t, seen, [r], p) ==
            if !Matches(r, p) then FellThrough else if r.target == Accept then Accepted else Dropped
  {
    assert [r][1..] == [];
  }

  lemma MatchesOne(c: Condition, target: Target, p: Packet)
    ensures Matches(Rule([c], target), p) == Holds(c, p)
  {
    assert c in [c];
  }

  lemma MatchesTwo(c: Condition, d: Condition, target: Target, p: Packet)
    ensures Matches(Rule([c, d], target), p) == (Holds(c, p) && Holds(d, p))
  {
    assert c in [c, d] && d in [c, d];
  }

  lemma SingleContains(a: Ip, b: Ip)
    ensures Single(a).Contains(b) == (a == b)
  {
    assert a.Bits() / 1 == a.Bits() && b.Bits() / 1 == b.Bits();
  }

  lemma {:induction false} EvalDeny(t: Tables, seen: set<ChainName>, blocks: seq<Prefix>, p: Packet)
    ensures Eval(t, seen, DenyRules(blocks), p) ==
            if exists b | b in blocks :: b.Contains(p.dst) then Dropped else FellThrough
    decreases |blocks|
  {
    if blocks != [] {
      var r := DenyRule(blocks[0]);
      EvalDeny(t, seen, blocks[1..], p);
      EvalAppend(t, seen, [r], DenyRules(blocks[1..]), p);
      EvalOne(t, seen, r, p);
      MatchesOne(Destination(blocks[0]), Drop, p);
      assert blocks == [blocks[0]] + blocks[1..];
    }
  }

  /** The deny prefixes cover exactly the loopback and metadata addresses. */
  lemma DenyBlocksMeaning(a: Ip)
    ensures (exists b | b in DenyBlocks(a.V6?) :: b.Contains(a)) <==> Loopback(a) || Metadata(a)
  {
    var blocks := DenyBlocks(a.V6?);
    match a
    case V4(x) =>
      SingleContains(V4(0xa9fe_a9fe), a);
      SingleContains(V4(0xa9fe_aa02), a);
      SingleContains(V4(0x6464_64c8), a);
      assert blocks[0].Contains(a) <==> x / 0x100_0000 == 0x7f;
      assert blocks[1].Contains(a) <==> a == V4(0xa9fe_a9fe);
      assert blocks[2].Contains(a) <==> a == V4(0xa9fe_aa02);
      assert blocks[3].Contains(a) <==> a == V4(0x6464_64c8);
    case V6(x) =>
      SingleContains(V6(1), a);
      SingleContains(V6(0xfd00_0ec2_0000_0000_0000_0000_0000_0254), a);
      assert blocks[0].Contains(a) <==> a == V6(1);
      assert blocks[1].Contains(a) <==> a == V6(0xfd00_0ec2_0000_0000_0000_0000_0000_0254);
  }

  lemma {:induction false} EvalPinned(t: Tables, seen: set<ChainName>, targets: seq<PinnedTarget>, p: Packet)
    ensures Eval(t, seen, PinnedRules(targets, p.dst.V6?), p) ==
            if Pinned(targets, p) then Accepted else FellThrough
    decreases |targets|
  {
    if targets != [] {
      var first, rest := targets[0], PinnedRules(targets[1..], p.dst.V6?);
      EvalPinned(t, seen, targets[1..], p);
      assert targets == [first] + targets[1..];
      if first.address.V6? == p.dst.V6? {
        EvalAppend(t, seen, [PinnedRule(first)], rest, p);
        EvalOne(t, seen, PinnedRule(first), p);
        MatchesTwo(Destination(Single(first.address)), TcpTo(first.port), Accept, p);
        SingleContains(first.address, p.dst);
      } else {
        assert [] + rest == rest;
        assert first.address != p.dst;
      }
    }
  }

  lemma EvalMarker(t: Tables, seen: set<ChainName>, token: string, p: Packet)
    requires OneFamily(p)
    ensures Eval(t, seen, [Marker(token, p.dst.V6?)], p) == if Unspecified(p.src) then Dropped else FellThrough
  {
    var zero := if p.dst.V6? then UNSPECIFIED6 else UNSPECIFIED4;
    EvalOne(t, seen, Marker(token, p.dst.V6?), p);
    MatchesTwo(Source(Single(zero)), Comment(token), Drop, p);
    SingleContains(zero, p.src);
  }

  lemma EvalTail(t: Tables, seen: set<ChainName>, p: Packet)
    ensures Eval(t, seen, [ESTABLISHED_ACCEPT], p) == if p.established then Accepted else FellThrough
    ensures Eval(t, seen, [DROP_ALL], p) == Dropped
  {
    EvalOne(t, seen, ESTABLISHED_ACCEPT, p);
    EvalOne(t, seen, DROP_ALL, p);
    MatchesOne(EstablishedOrRelated, Accept, p);
  }

  lemma EvalNeighbor(t: Tables, seen: set<ChainName>, p: Packet)
    ensures Eval(t, seen, NeighborRules(p.dst.V6?), p) ==
            if p.dst.V6? && p.protocol in {Icmpv6(NEIGHBOR_SOLICITATION), Icmpv6(NEIGHBOR_ADVERTISEMENT)}
            then Accepted else FellThrough
  {
    if p.dst.V6? {
      var s, a := NeighborRule(NEIGHBOR_SOLICITATION), NeighborRule(NEIGHBOR_ADVERTISEMENT);
      assert NeighborRules(true) == [s] + [a];
      EvalAppend(t, seen, [s], [a], p);
      EvalOne(t, seen, s, p);
      EvalOne(t, seen, a, p);
      MatchesOne(Icmpv6Type(NEIGHBOR_SOLICITATION), Accept, p);
      MatchesOne(Icmpv6Type(NEIGHBOR_ADVERTISEMENT), Accept, p);
    }
  }

  /** The forward chain always decides, and accepts exactly the permitted packets. */
  lemma ForwardChainMeaning(t: Tables, seen: set<ChainName>, token: string, targets: seq<PinnedTarget>, p: Packet)
    requires OneFamily(p)
    ensures Eval(t, seen, ForwardChain(token, targets, p.dst.V6?), p) ==
            if MayForward(targets, p) then Accepted else Dropped
  {
    var v6 := p.dst.V6?;
    var m, d, q := [Marker(token, v6)], DenyRules(DenyBlocks(v6)), PinnedRules(targets, v6);
    EvalAppend(t, seen, m + d + q + [ESTABLISHED_ACCEPT], [DROP_ALL], p);
    EvalAppend(t, seen, m + d + q, [ESTABLISHED_ACCEPT], p);
    EvalAppend(t, seen, m + d, q, p);
    EvalAppend(t, seen, m, d, p);
    EvalMarker(t, seen, token, p);
    EvalDeny(t, seen, DenyBlocks(v6), p);
    DenyBlocksMeaning(p.dst);
    EvalPinned(t, seen, targets, p);
    EvalTail(t, seen, p);
  }

  lemma InputChainMeaning(t: Tables, seen: set<ChainName>, token: string, p: Packet)
    requires OneFamily(p)
    ensures Eval(t, seen, InputChain(token, p.dst.V6?), p) == if MayReachHost(p) then Accepted else Dropped
  {
    var v6 := p.dst.V6?;
    var m, n := [Marker(token, v6)], NeighborRules(v6);
    EvalAppend(t, seen, m + n + [ESTABLISHED_ACCEPT], [DROP_ALL], p);
    EvalAppend(t, seen, m + n, [ESTABLISHED_ACCEPT], p);
    EvalAppend(t, seen, m, n, p);
    EvalMarker(t, seen, token, p);
    EvalNeighbor(t, seen, p);
    EvalTail(t, seen, p);
  }
}
