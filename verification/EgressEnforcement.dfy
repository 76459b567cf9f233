/** From an allowlist to the verdict on every packet. */
module EgressEnforcement {
  import opened Firewall
  import opened EgressNames
  import opened EgressHost
  import opened EgressRecovery
  import opened EgressController
  import Plans = EgressPlan

  /** The verdict an allowlist asks for, given the answers its names got. */
  ghost predicate Opens(
      syntax: Plans.Syntax, hosts: seq<string>, ports: seq<nat>, replies: Plans.Answers, p: Packet)
  {
    && !Unspecified(p.src)
    && (Plans.Allowed(syntax, hosts, ports, replies, p) || (p.established && !Loopback(p.dst) && !Metadata(p.dst)))
  }

  /** On `h` the box's packets are decided by the allowlist alone. */
  ghost predicate Enforced(
      h: Host, bridge: string, syntax: Plans.Syntax, hosts: seq<string>, ports: seq<nat>, replies: Plans.Answers)
  {
    forall f: Family, p: Packet | OneFamily(p) && p.dst.V6? == (f == Inet6) && p.iface == bridge ::
      && Traverse(h.Table(f), Forward, p) == (if Opens(syntax, hosts, ports, replies, p) then Accepted else Dropped)
      && Traverse(h.Table(f), Input, p) == if MayReachHost(p) then Accepted else Dropped
  }

  /** `prepare`, from the allowlist on: the engine is verified before any name is
      looked up, and the plan before any resource is made. */
  method PrepareAllowlist(
      controller: Controller, box: Identity, attempt: string, syntax: Plans.Syntax, hosts: seq<string>, ports: seq<nat>,
      resolver: Plans.Resolver, subnets: seq<Prefix>)
    returns (outcome: Outcome, ghost replies: Plans.Answers, ghost plan: Plans.PlanResult)
    requires controller.Valid() && box.Valid() && ValidAttempt(attempt) && FreshAttempt(controller.host, box, attempt)
    modifies controller, resolver
    ensures controller.Valid()
    ensures outcome == Prepared ==>
              && Enforced(controller.host, box.ForAttempt(attempt).bridge, syntax, hosts, ports, replies)
              && (forall name | Plans.NamedBy(syntax, hosts, name) ::
                    && name in replies
                    && Plans.Answered(syntax, resolver.answer, resolver.calls, |old(resolver.calls)|, name, replies[name]))
    ensures outcome == Refused ==> controller.host == old(controller.host)
    ensures outcome == RollbackFailed ==>
              && plan.Pinned? && Fails(controller.faults) < Fails(old(controller.faults))
              && (|| controller.host == old(controller.host)
                  || Recoverable(controller.host, old(controller.host), AttemptFor(box, attempt, plan.targets, subnets)))
    // With a ready engine, a plan outside the assigned subnets, a free network
    // name and no failing command, the box is prepared.
    ensures && EngineReady(old(controller.host)) && old(controller.faults) == []
            && plan.Pinned? && OutsideSubnets(plan.targets, subnets) && box.Network() !in old(controller.host).networks
            ==> outcome == Prepared
    ensures !EngineReady(old(controller.host)) ==> outcome == Refused && resolver.calls == old(resolver.calls)
    ensures EngineReady(old(controller.host)) && old(controller.faults) == [] && plan.Rejected? ==>
              if plan.error == Plans.InvalidPolicy then !Plans.WellFormed(syntax, hosts, ports)
              else exists h | h in hosts ::
                     Plans.Unpinnable(syntax, resolver.answer, resolver.calls, |old(resolver.calls)|, syntax.normalize(h), plan.error)
    // Each name is looked up at most once.
    ensures old(resolver.calls) <= resolver.calls && Plans.NoDuplicates(resolver.calls[|old(resolver.calls)|..])
  {
    hide EngineReady, Fails, FreshAttempt, Installed, Recoverable, Traverse, Plans.Answered, Plans.NamedBy, Plans.Safe, OutsideSubnets, Trail, AttemptFor;
    replies, plan := map[], Plans.Rejected(Plans.InvalidPolicy);
    FailsNone();
    ghost var h0 := controller.host;
    var ok := controller.VerifyEngine();
    if !ok { return Refused, replies, plan; }
    var planned;
    planned, replies := Plans.Plan(syntax, hosts, ports, resolver);
    plan := planned;
    if planned.Rejected? { return Refused, replies, plan; }
    outcome := controller.Provision(box, attempt, planned.targets, subnets);
    if outcome == Prepared {
      forall f: Family, p: Packet | OneFamily(p) && p.dst.V6? == (f == Inet6) && p.iface == box.ForAttempt(attempt).bridge
        ensures Traverse(controller.host.Table(f), Forward, p) == (if Opens(syntax, hosts, ports, replies, p) then Accepted else Dropped)
        ensures Traverse(controller.host.Table(f), Input, p) == if MayReachHost(p) then Accepted else Dropped
      {
        Plans.PlanDecides(syntax, hosts, ports, replies, plan.targets, p);
        PreparedFilters(controller.host, h0, box, attempt, plan.targets, subnets, f, p);
      }
    }
  }
}
