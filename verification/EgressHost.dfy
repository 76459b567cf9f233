/** The machine the egress controller acts on: Docker networks with labels and
    one filter table per address family, changed one command at a time. */
module EgressHost {
  import opened Firewall
  import opened EgressNames
  import opened Wrappers

  datatype Network = Network(
    driver: string, ipv6: bool, bridge: string,
    owner: string, scope: string, attempt: string, subnets: seq<Prefix>)

  datatype Family = Inet | Inet6

  datatype Host = Host(native: bool, networks: map<string, Network>, v4: Tables, v6: Tables)
  {
    function Table(f: Family): Tables { if f == Inet then v4 else v6 }

    function WithTable(f: Family, t: Tables): Host {
      if f == Inet then this.(v4 := t) else this.(v6 := t)
    }
  }

  // ----- Commands

  datatype TableOp =
    | NewChain(chain: ChainName)
    | Append(chain: ChainName, rule: Rule)
    | InsertFirst(chain: ChainName, rule: Rule)
    | DeleteRule(chain: ChainName, rule: Rule)
    | Flush(chain: ChainName)
    | DeleteChain(chain: ChainName)

  datatype Command =
    | CreateNetwork(name: string, network: Network)
    | RemoveNetwork(name: string)
    | Filter(family: Family, op: TableOp)

  function RemoveFirst(rules: seq<Rule>, r: Rule): seq<Rule> {
    if rules == [] then [] else if rules[0] == r then rules[1..] else [rules[0]] + RemoveFirst(rules[1..], r)
  }

  /** Some other chain jumps to `chain`. */
  predicate Referenced(t: Tables, chain: ChainName) {
    exists parent | parent in t && parent != chain :: exists r | r in t[parent] :: r.target == Jump(chain)
  }

  /** What a table command does when the kernel accepts it, `None` when it refuses. */
  function Modify(t: Tables, op: TableOp): Option<Tables> {
    match op
    case NewChain(c) => if c in t then None else Some(t[c := []])
    case Append(c, r) => if c in t then Some(t[c := t[c] + [r]]) else None
    case InsertFirst(c, r) => if c in t then Some(t[c := [r] + t[c]]) else None
    case DeleteRule(c, r) => if c in t && r in t[c] then Some(t[c := RemoveFirst(t[c], r)]) else None
    case Flush(c) => if c in t then Some(t[c := []]) else None
    case DeleteChain(c) => if c in t && t[c] == [] && !Referenced(t, c) then Some(t - {c}) else None
  }

  function Apply(h: Host, cmd: Command): Option<Host> {
    match cmd
    case CreateNetwork(name, network) =>
      if name in h.networks then None else Some(h.(networks := h.networks[name := network]))
    case RemoveNetwork(name) =>
      if name in h.networks then Some(h.(networks := h.networks - {name})) else None
    case Filter(f, op) =>
      match Modify(h.Table(f), op)
      case None => None
      case Some(t) => Some(h.WithTable(f, t))
  }

  // ----- What the controller reads from a listing

  predicate Contains(text: string, part: string) {
    part <= text || (text != "" && Contains(text[1..], part))
  }

  function WordOf(c: Condition): string {
    match c
    case InIface(name) => name
    case Comment(text) => text
    case _ => ""
  }

  /** A word of the `-S` listing of `t` satisfies `hit`. */
  predicate Mentions(t: Tables, hit: string -> bool) {
    exists chain | chain in t ::
      || hit(chain.Word())
      || exists r | r in t[chain] ::
           || (r.target.Jump? && hit(r.target.chain.Word()))
           || exists c | c in r.conditions :: hit(WordOf(c))
  }

  predicate Stale(t: Tables, name: string) { Mentions(t, (w: string) => Contains(w, name)) }

  predicate Orphaned(t: Tables, prefix: string) { Mentions(t, (w: string) => prefix <= w) }

  predicate IsMarker(r: Rule, token: string) { Comment(token) in r.conditions && r.target == Drop }

  predicate Marked(t: Tables, chain: ChainName, token: string) {
    chain in t && exists r | r in t[chain] :: IsMarker(r, token)
  }

  /** Label values the controller can parse back from one `|`-separated line. */
  predicate LabelsReadable(n: Network) {
    n.owner != "" && n.scope != "" && n.attempt != "" && '|' !in n.owner && '|' !in n.scope && '|' !in n.attempt
  }

  // ----- The four places an attempt touches

  datatype Direction = Forwarding | Inbound

  function Parent(d: Direction): ChainName { if d == Forwarding then DockerUser else Input }

  function ChainOf(n: Names, d: Direction): ChainName { Custom(if d == Forwarding then n.forward else n.input) }

  function Hook(n: Names, d: Direction): Rule { Rule([InIface(n.bridge)], Jump(ChainOf(n, d))) }

  /** One call of `prepare`: its names, the network it asks for and the four
      complete chains it is going to append. */
  datatype Attempt = Attempt(
    names: Names, network: Network,
    forward4: seq<Rule>, input4: seq<Rule>, forward6: seq<Rule>, input6: seq<Rule>)

  function FullChain(a: Attempt, d: Direction, f: Family): seq<Rule> {
    match (f, d)
    case (Inet, Forwarding) => a.forward4
    case (Inet, Inbound) => a.input4
    case (Inet6, Forwarding) => a.forward6
    case (Inet6, Inbound) => a.input6
  }

  function Compile(names: Names, targets: seq<PinnedTarget>, network: Network): Attempt {
    Attempt(names, network,
            ForwardChain(names.marker, targets, false), InputChain(names.marker, false),
            ForwardChain(names.marker, targets, true), InputChain(names.marker, true))
  }

  ghost predicate NoJumps(rules: seq<Rule>) { forall r | r in rules :: !r.target.Jump? }

  /** A chain that starts with the ownership marker, jumps nowhere and ends in
      an unconditional drop. */
  ghost predicate ClosedChain(rules: seq<Rule>, token: string, ipv6: bool) {
    && |rules| > 1
    && rules[0] == Marker(token, ipv6)
    && rules[|rules| - 1] == DROP_ALL
    && NoJumps(rules)
  }

  ghost predicate ClosedAttempt(a: Attempt) {
    forall d: Direction, f: Family :: ClosedChain(FullChain(a, d, f), a.names.marker, f == Inet6)
  }

  ghost predicate AttemptOf(a: Attempt, box: Identity) {
    && box.Valid()
    && ValidAttempt(a.names.attempt)
    && ClosedAttempt(a)
    && a.names == box.ForAttempt(a.names.attempt)
    && a.network.(subnets := []) == Network("bridge", true, a.names.bridge, box.id, a.names.scope, a.names.attempt, [])
  }

  // ----- The invariant of every run

  /** Matches only packets of one interface other than `bridge`. */
  predicate Elsewhere(r: Rule, bridge: string) {
    exists c | c in r.conditions :: c.InIface? && c.name != bridge
  }

  /** `rules` is `base` with `hook` put in once, below rules of other interfaces
      only. */
  predicate Placed(rules: seq<Rule>, base: seq<Rule>, hook: Rule, bridge: string) {
    && rules != []
    && (|| (rules[0] == hook && rules[1..] == base)
        || (base != [] && rules[0] == base[0] && Elsewhere(rules[0], bridge) && Placed(rules[1..], base[1..], hook, bridge)))
  }

  /** One direction of one family, relative to the table `t0` without the
      attempt: the chain holds a prefix of the complete chain, and it is hooked,
      once, only while it is complete. Hooks of boxes prepared later stand above
      this one's. */
  ghost predicate SlotInv(t: Tables, t0: Tables, a: Attempt, d: Direction, f: Family) {
    var chain, parent, full := ChainOf(a.names, d), Parent(d), FullChain(a, d, f);
    && parent in t0 && parent in t
    && (chain in t ==> t[chain] <= full)
    && (t[parent] != t0[parent] ==> chain in t && t[chain] == full && Placed(t[parent], t0[parent], Hook(a.names, d), a.names.bridge))
  }

  ghost predicate Hooked(t: Tables, t0: Tables, d: Direction)
    requires Parent(d) in t && Parent(d) in t0
  {
    t[Parent(d)] != t0[Parent(d)]
  }

  ghost predicate SlotClear(t: Tables, t0: Tables, a: Attempt, d: Direction) {
    ChainOf(a.names, d) !in t && Parent(d) in t && Parent(d) in t0 && t[Parent(d)] == t0[Parent(d)]
  }

  predicate Touched(n: Names, c: ChainName) {
    c == ChainOf(n, Forwarding) || c == ChainOf(n, Inbound) || c == DockerUser || c == Input
  }

  ghost predicate OthersKept(t: Tables, t0: Tables, n: Names) {
    forall c | !Touched(n, c) :: (c in t <==> c in t0) && (c in t ==> t[c] == t0[c])
  }

  ghost predicate FamilyInv(t: Tables, t0: Tables, a: Attempt, f: Family) {
    && OthersKept(t, t0, a.names)
    && SlotInv(t, t0, a, Forwarding, f)
    && SlotInv(t, t0, a, Inbound, f)
  }

  /** `t0` neither defines nor jumps to one of the attempt's chains. */
  ghost predicate Apart(t0: Tables, n: Names) {
    && n.forward != n.input
    && ChainOf(n, Forwarding) !in t0 && ChainOf(n, Inbound) !in t0
    && forall c, r | c in t0 && r in t0[c] :: r.target != Jump(ChainOf(n, Forwarding)) && r.target != Jump(ChainOf(n, Inbound))
  }

  /** `h` is `h0` plus some recoverable part of attempt `a`; without the
      labelled network there is nothing of the attempt at all. */
  ghost predicate Recoverable(h: Host, h0: Host, a: Attempt) {
    && a.names.network !in h0.networks
    && Apart(h0.v4, a.names) && Apart(h0.v6, a.names)
    && h.native == h0.native
    && FamilyInv(h.v4, h0.v4, a, Inet)
    && FamilyInv(h.v6, h0.v6, a, Inet6)
    && if a.names.network in h.networks
       then h.networks == h0.networks[a.names.network := a.network]
       else h == h0
  }

  /** `h0` plus the complete attempt. */
  ghost predicate Installed(h: Host, h0: Host, a: Attempt) {
    && Recoverable(h, h0, a)
    && a.names.network in h.networks
    && forall f: Family, d: Direction :: Hooked(h.Table(f), h0.Table(f), d)
  }

  // ----- Facts about fresh names

  lemma MentionsChain(t: Tables, hit: string -> bool, chain: ChainName)
    requires chain in t && hit(chain.Word())
    ensures Mentions(t, hit)
  {}

  lemma MentionsJump(t: Tables, hit: string -> bool, chain: ChainName, r: Rule)
    requires chain in t && r in t[chain] && r.target.Jump? && hit(r.target.chain.Word())
    ensures Mentions(t, hit)
  {}

  lemma FreshName(t0: Tables, name: string)
    requires !Stale(t0, name)
    ensures Custom(name) !in t0
    ensures forall c, r | c in t0 && r in t0[c] :: r.target != Jump(Custom(name))
  {
    var hit := (w: string) => Contains(w, name);
    assert !Mentions(t0, hit) by {
      assert Stale(t0, name) == Mentions(t0, hit);
    }
    if Custom(name) in t0 {
      MentionsChain(t0, hit, Custom(name));
    }
    forall c, r | c in t0 && r in t0[c] ensures r.target != Jump(Custom(name)) {
      if r.target == Jump(Custom(name)) {
        MentionsJump(t0, hit, c, r);
      }
    }
  }

  /** A table that never mentions the attempt's chain names is apart from them. */
  lemma FreshNamesApart(t0: Tables, n: Names)
    requires !Stale(t0, n.forward) && !Stale(t0, n.input) && n.forward != n.input
    ensures Apart(t0, n)
  {
    FreshName(t0, n.forward);
    FreshName(t0, n.input);
  }
}
