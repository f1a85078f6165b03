/** Whole lives of a service: any number of reconciles, cut off anywhere and retried, and a delete. */
module Lifecycle {
  import opened GoText
  import opened Kubernetes
  import opened Cloud
  import opened Plan
  import opened Runs
  import opened Metadata
  import opened Desired
  import opened LoadBalancers
  import opened Controller
  import opened Acl
  import SecurityRules

  /** The group is as the service asks for on the port, with the nodes' machines attached in order. */
  ghost predicate GroupServes(cfg: Config, svc: Service, nodes: seq<Node>, port: ServicePort, g: Group) {
    g.vpc == cfg.vpcIdentity && GroupAsked(cfg, svc, port, g.spec) && AttachedFor(nodes, g.attached)
  }

  /** The listener is as the service asks for on the port, and forwards to a group that serves the port. */
  ghost predicate ListenerServes(cfg: Config, svc: Service, nodes: seq<Node>, port: ServicePort,
                                 groups: map<string, Group>, spec: ListenerSpec, target: string) {
    ListenerAsked(cfg, svc, port, spec) && target in groups && GroupServes(cfg, svc, nodes, port, groups[target])
  }

  /** A listener of the load balancer serves port i. */
  ghost predicate Serves(cfg: Config, svc: Service, nodes: seq<Node>, s: State, lb: string, i: nat)
    requires i < |svc.ports|
  {
    exists l :: l in s.listeners && s.listeners[l].lb == lb
                && ListenerServes(cfg, svc, nodes, svc.ports[i], s.groups, s.listeners[l].spec, s.listeners[l].target)
  }

  /** A group of the service in the VPC that no listener uses serves one of the ports. */
  ghost predicate NoStaleGroups(cfg: Config, svc: Service, nodes: seq<Node>, s: State) {
    forall g | g in s.groups && OwnGroupHere(OwnerOf(cfg, svc), s.groups[g]) && ListenersOf(s, g) == {} ::
      exists i :: 0 <= i < |svc.ports| && GroupServes(cfg, svc, nodes, svc.ports[i], s.groups[g])
  }

  /** What the plan has for port i is what the service asks for on it. */
  lemma PlannedPortIsAsked(cfg: Config, svc: Service, nodes: seq<Node>, subnets: seq<Subnet>, i: nat)
    requires i < |svc.ports|
    ensures var p := PlanOf(cfg, svc, nodes, subnets);
            && |p.groups| == |p.listeners| == |svc.ports|
            && p.listeners[i].port == svc.ports[i].port && ListenerAsked(cfg, svc, svc.ports[i], p.listeners[i])
            && p.groups[i].Key() == (Lower(svc.ports[i].protocol), svc.ports[i].nodePort as int)
            && GroupServes(cfg, svc, nodes, svc.ports[i], Group(p.owner.vpc, p.groups[i], p.servers))
  {
    hide ListenerAsked, GroupAsked, AttachedFor, Attachments, NewSg, NewLb, SecurityGroupsFor, SubnetFor;
    DesiredListenerIsAsked(cfg, svc, svc.ports[i]);
    DesiredGroupIsAsked(cfg, svc, svc.ports[i]);
    AttachmentsMean(nodes);
  }

  lemma ReadyPortServes(cfg: Config, svc: Service, nodes: seq<Node>, subnets: seq<Subnet>, groups: map<string, Group>,
                        i: nat, target: string)
    requires var p := PlanOf(cfg, svc, nodes, subnets);
             i < |p.groups| == |p.listeners| && ReadyGroup(p, groups, i, target)
    ensures var p := PlanOf(cfg, svc, nodes, subnets);
            && |p.groups| == |p.listeners| == |svc.ports|
            && p.listeners[i].port == svc.ports[i].port
            && ListenerServes(cfg, svc, nodes, svc.ports[i], groups, p.listeners[i], target)
  {
    PlannedPorts(cfg, svc, nodes, subnets);
    hide PlanOf, ListenerAsked, GroupServes;
    PlannedPortIsAsked(cfg, svc, nodes, subnets, i);
  }

  lemma PlannedPorts(cfg: Config, svc: Service, nodes: seq<Node>, subnets: seq<Subnet>)
    ensures var p := PlanOf(cfg, svc, nodes, subnets); |p.groups| == |p.listeners| == |svc.ports|
  {}

  lemma SettledServes(cfg: Config, svc: Service, nodes: seq<Node>, subnets: seq<Subnet>, s: State, lb: string, i: nat)
    requires var p := PlanOf(cfg, svc, nodes, subnets); Sound(p) && Settled(p, s, lb)
    requires i < |svc.ports|
    ensures Serves(cfg, svc, nodes, s, lb, i)
  {
    hide LbSettled, GroupsSettled, Sound, PlanOf, ListenerServes, ReadyGroup;
    var p := PlanOf(cfg, svc, nodes, subnets);
    PlannedPorts(cfg, svc, nodes, subnets);
    assert PortServed(p, s, lb, i);
    var l :| l in s.listeners && s.listeners[l].lb == lb && s.listeners[l].spec == p.listeners[i]
             && ReadyGroup(p, s.groups, i, s.listeners[l].target);
    ReadyPortServes(cfg, svc, nodes, subnets, s.groups, i, s.listeners[l].target);
  }

  lemma SettledHasNoStaleGroups(cfg: Config, svc: Service, nodes: seq<Node>, subnets: seq<Subnet>, s: State, lb: string)
    requires var p := PlanOf(cfg, svc, nodes, subnets); Sound(p) && Settled(p, s, lb)
    ensures NoStaleGroups(cfg, svc, nodes, s)
  {
    hide LbSettled, ListenersSettled, Sound, PlanOf, OwnerOf, GroupServes, ListenersOf, WantsKey;
    var p := PlanOf(cfg, svc, nodes, subnets);
    OwnerOfPlan(cfg, svc, nodes, subnets);
    PlannedPorts(cfg, svc, nodes, subnets);
    forall g | g in s.groups && OwnGroupHere(OwnerOf(cfg, svc), s.groups[g]) && ListenersOf(s, g) == {}
      ensures exists i :: 0 <= i < |svc.ports| && GroupServes(cfg, svc, nodes, svc.ports[i], s.groups[g])
    {
      var i :| 0 <= i < |p.groups| && s.groups[g] == Group(p.owner.vpc, p.groups[i], p.servers);
      PlannedPortIsAsked(cfg, svc, nodes, subnets, i);
    }
  }

  /** A settled load balancer and its managed security groups are as the service asks for them. */
  lemma SettledIsInLine(cfg: Config, svc: Service, nodes: seq<Node>, subnets: seq<Subnet>, s: State, lb: string)
    requires LbSettled(PlanOf(cfg, svc, nodes, subnets), s, lb)
    ensures LbInLine(cfg, svc, s, lb) && SgsInLine(cfg, svc, s.sgs)
  {
    hide SgsInLine, NewSg, NewLb, Attachments, DesiredGroups, DesiredListeners, OwnerOf, ListsSecurityGroups, OwnSg,
      OwnLb, SecurityGroupsFor, UpdatedSg;
    var p := PlanOf(cfg, svc, nodes, subnets);
    SecurityGroupsAreListed(svc);
    SettledSgsAreInLine(cfg, svc, subnets, p, s.sgs);
  }

  /** The port numbers of the service. */
  function ServicePorts(svc: Service): set<int> {
    set i | 0 <= i < |svc.ports| :: svc.ports[i].port as int
  }

  lemma WantedPortsAreServicePorts(cfg: Config, svc: Service, nodes: seq<Node>, subnets: seq<Subnet>)
    ensures WantedPorts(PlanOf(cfg, svc, nodes, subnets)) == ServicePorts(svc)
  {
    hide DesiredGroup, NewSg, NewLb, Attachments, OwnerOf;
    var p := PlanOf(cfg, svc, nodes, subnets);
    assert forall i | 0 <= i < |svc.ports| :: p.listeners[i].port == svc.ports[i].port as int;
  }

  /** What a successful reconcile leaves, field by field as the service asks for it: exactly one load balancer,
      where the service wants it and with its security groups, of which the managed one has the rules that the
      annotations ask for; on it listeners for exactly the service's ports, each served; and no stale group
      without listeners. */
  ghost predicate InOrder(cfg: Config, svc: Service, nodes: seq<Node>, s: State, lb: string) {
    && (forall id | id in s.lbs && OwnLb(OwnerOf(cfg, svc), s.lbs[id]) :: id == lb)
    && LbInLine(cfg, svc, s, lb) && SgsInLine(cfg, svc, s.sgs)
    && PortsOf(s, lb) == ServicePorts(svc) && NoStaleGroups(cfg, svc, nodes, s)
    && forall i | 0 <= i < |svc.ports| :: Serves(cfg, svc, nodes, s, lb, i)
  }

  /** Convergence, in the service's own terms. */
  lemma ConvergedIsInOrder(cfg: Config, svc: Service, nodes: seq<Node>, subnets: seq<Subnet>, s: State)
    returns (lb: string)
    requires Converged(cfg, svc, nodes, subnets, s) && Inv(OwnerOf(cfg, svc), s)
    ensures lb in s.lbs && OwnLb(OwnerOf(cfg, svc), s.lbs[lb]) && InOrder(cfg, svc, nodes, s, lb)
    ensures Sound(PlanOf(cfg, svc, nodes, subnets)) && Settled(PlanOf(cfg, svc, nodes, subnets), s, lb)
  {
    hide Sound, Inv, PlanOf, OwnerOf, Serves, NoStaleGroups, PortsOf, ServicePorts, ListenersSettled, GroupsSettled,
      WantedSgs, OwnLb, OwnSg, LbInLine, SgsInLine;
    var p := PlanOf(cfg, svc, nodes, subnets);
    OwnerOfPlan(cfg, svc, nodes, subnets);
    SoundRun(p);
    lb :| Settled(p, s, lb);
    SettledPorts(p, s, lb);
    WantedPortsAreServicePorts(cfg, svc, nodes, subnets);
    OneLbIsIt(p.owner, s, lb);
    SettledHasNoStaleGroups(cfg, svc, nodes, subnets, s, lb);
    SettledIsInLine(cfg, svc, nodes, subnets, s, lb);
    forall i | 0 <= i < |svc.ports|
      ensures Serves(cfg, svc, nodes, s, lb, i)
    {
      SettledServes(cfg, svc, nodes, subnets, s, lb, i);
    }
  }

  lemma OwnerOfPlan(cfg: Config, svc: Service, nodes: seq<Node>, subnets: seq<Subnet>)
    ensures PlanOf(cfg, svc, nodes, subnets).owner == OwnerOf(cfg, svc)
  {}

  /** The preconditions of a reconcile cannot be dropped: in a well-formed cloud, the ports of a service,
      which differ in number or protocol, can all be served only if their numbers differ and their
      (protocol, node port) pairs do. */
  lemma ServedOnlyIfDistinct(cfg: Config, svc: Service, nodes: seq<Node>, s: State, lb: string)
    requires Inv(OwnerOf(cfg, svc), s) && lb in s.lbs && OwnLb(OwnerOf(cfg, svc), s.lbs[lb])
             && LABEL_PORT !in cfg.additionalLabels
    requires forall i | 0 <= i < |svc.ports| :: Serves(cfg, svc, nodes, s, lb, i)
    requires forall i, j | 0 <= i < j < |svc.ports| ::
               (svc.ports[i].port, Lower(svc.ports[i].protocol)) != (svc.ports[j].port, Lower(svc.ports[j].protocol))
    ensures DistinctPorts(svc) && DistinctNodePorts(svc)
  {
    forall i, j | 0 <= i < j < |svc.ports|
      ensures svc.ports[i].port != svc.ports[j].port
      ensures (Lower(svc.ports[i].protocol), svc.ports[i].nodePort)
           != (Lower(svc.ports[j].protocol), svc.ports[j].nodePort)
    {
      BothServed(cfg, svc, nodes, s, lb, i, j);
    }
  }

  lemma BothServed(cfg: Config, svc: Service, nodes: seq<Node>, s: State, lb: string, i: nat, j: nat)
    requires Inv(OwnerOf(cfg, svc), s) && lb in s.lbs && OwnLb(OwnerOf(cfg, svc), s.lbs[lb])
             && LABEL_PORT !in cfg.additionalLabels
    requires i < |svc.ports| && j < |svc.ports| && Serves(cfg, svc, nodes, s, lb, i)
             && Serves(cfg, svc, nodes, s, lb, j)
    requires (svc.ports[i].port, Lower(svc.ports[i].protocol)) != (svc.ports[j].port, Lower(svc.ports[j].protocol))
    ensures svc.ports[i].port != svc.ports[j].port
    ensures (Lower(svc.ports[i].protocol), svc.ports[i].nodePort)
         != (Lower(svc.ports[j].protocol), svc.ports[j].nodePort)
  {
    hide Linked, OneLb, OneSg, OwnLb, OwnerOf, ListenerServes, Lower;
    var a :| a in s.listeners && s.listeners[a].lb == lb
             && ListenerServes(cfg, svc, nodes, svc.ports[i], s.groups, s.listeners[a].spec, s.listeners[a].target);
    var b :| b in s.listeners && s.listeners[b].lb == lb
             && ListenerServes(cfg, svc, nodes, svc.ports[j], s.groups, s.listeners[b].spec, s.listeners[b].target);
    ServingIsOwn(cfg, svc, nodes, svc.ports[i], s.groups, s.listeners[a]);
    ServingIsOwn(cfg, svc, nodes, svc.ports[j], s.groups, s.listeners[b]);
    assert OwnListener(OwnerOf(cfg, svc), s.lbs, s.listeners[a]);
    assert svc.ports[i].port != svc.ports[j].port;
    if Decimal(svc.ports[i].port) == Decimal(svc.ports[j].port) {
      DecimalInjective(svc.ports[i].port, svc.ports[j].port);
    }
    assert s.listeners[a].target != s.listeners[b].target;
  }

  /** A group that serves a port is the service's own, and its labels say which port it is. */
  lemma ServingIsOwn(cfg: Config, svc: Service, nodes: seq<Node>, port: ServicePort, groups: map<string, Group>,
                     l: Listener)
    requires ListenerServes(cfg, svc, nodes, port, groups, l.spec, l.target)
    ensures l.spec.port == port.port && l.spec.protocol == Lower(port.protocol)
    ensures l.target in groups && OwnGroupHere(OwnerOf(cfg, svc), groups[l.target])
            && groups[l.target].spec.Key() == (Lower(port.protocol), port.nodePort as int)
            && (LABEL_PORT !in cfg.additionalLabels ==>
                  Says(groups[l.target].spec.labels, LABEL_PORT, Decimal(port.port)))
  {
    hide Lower, Decimal, NamedFor, CheckAsked, AttachedFor, Reading.Asks, Carries;
    LabelledIsCarried(cfg, svc, port, groups[l.target].spec.labels);
  }

  lemma LabelledIsCarried(cfg: Config, svc: Service, port: ServicePort, labels: Labels)
    requires LabelledForPort(cfg, svc, port.port, port.protocol, labels)
    ensures Carries(LbLabels(cfg, svc), labels)
    ensures LABEL_PORT !in cfg.additionalLabels ==> Says(labels, LABEL_PORT, Decimal(port.port))
  {
    hide Lower, Decimal;
  }

  // ---------------------------------------------------------------- every call, field by field

  /** The call is one the service asks for: it makes a group, listener, load balancer or security group just as
      the service asks for it, or removes one that it does not ask for. */
  ghost predicate CallAsked(cfg: Config, svc: Service, nodes: seq<Node>, subnets: seq<Subnet>, s: State, c: Call) {
    match c
    case CreateGroup(_, g) => g.vpc == cfg.vpcIdentity && g.attached == [] && AsksForGroup(cfg, svc, g.spec)
    case UpdateGroup(_, spec) => AsksForGroup(cfg, svc, spec)
    case SetAttachments(_, servers) => AttachedFor(nodes, servers)
    case DeleteGroup(id) =>
      id in s.groups && ListenersOf(s, id) == {}
      && forall port | port in svc.ports ::
           s.groups[id].spec.Key() != (Lower(port.protocol), port.nodePort as int)
    case CreateListener(_, l) => AsksForListener(cfg, svc, nodes, s.groups, l.spec, l.target)
    case UpdateListener(_, spec, target) => AsksForListener(cfg, svc, nodes, s.groups, spec, target)
    case DeleteListener(id) => id in s.listeners && s.listeners[id].spec.port !in ServicePorts(svc)
    case CreateLb(_, lb) => CreatedAsked(cfg, svc, subnets, s.sgs, lb)
    case UpdateLb(id, _) =>
      id in s.lbs && LbUpdated(cfg, svc, Item(id, s.lbs[id]), Apply(s, c))
    case CreateSg(_, sg) =>
      svc.settings.createSecurityGroup && SgAsked(cfg, svc, sg) && SgNamed(svc, sg) && sg.vpc == cfg.vpcIdentity
    case UpdateSg(id, sg) =>
      svc.settings.createSecurityGroup && id in s.sgs && SgAsked(cfg, svc, sg)
      && sg.vpc == s.sgs[id].vpc && sg.name == s.sgs[id].name && sg.description == s.sgs[id].description
    case _ => false
  }

  predicate AsksForGroup(cfg: Config, svc: Service, spec: GroupSpec) {
    exists port :: port in svc.ports && GroupAsked(cfg, svc, port, spec)
  }

  ghost predicate AsksForListener(cfg: Config, svc: Service, nodes: seq<Node>, groups: map<string, Group>,
                                  spec: ListenerSpec, target: string) {
    exists port :: port in svc.ports && ListenerServes(cfg, svc, nodes, port, groups, spec, target)
  }

  lemma GroupCallIsAsked(cfg: Config, svc: Service, nodes: seq<Node>, subnets: seq<Subnet>, s: State, c: Call)
    requires MayChangeGroups(PlanOf(cfg, svc, nodes, subnets), s, c)
    ensures CallAsked(cfg, svc, nodes, subnets, s, c)
  {
    hide PlanOf, OwnGroupHere, GroupAsked, AttachedFor, ListenersOf, ListenerAsked, LbUpdated;
    var p := PlanOf(cfg, svc, nodes, subnets);
    PlannedPorts(cfg, svc, nodes, subnets);
    PlanIsFor(cfg, svc, nodes, subnets);
    forall i | 0 <= i < |p.groups|
      ensures svc.ports[i] in svc.ports && GroupAsked(cfg, svc, svc.ports[i], p.groups[i])
              && p.groups[i].Key() == (Lower(svc.ports[i].protocol), svc.ports[i].nodePort as int)
    {
      PlannedPortIsAsked(cfg, svc, nodes, subnets, i);
    }
    if c.DeleteGroup? {
      forall port | port in svc.ports
        ensures s.groups[c.id].spec.Key() != (Lower(port.protocol), port.nodePort as int)
      {
        var i :| 0 <= i < |svc.ports| && svc.ports[i] == port;
        assert p.groups[i].Key() == (Lower(port.protocol), port.nodePort as int);
      }
    }
  }

  lemma PlanIsFor(cfg: Config, svc: Service, nodes: seq<Node>, subnets: seq<Subnet>)
    ensures var p := PlanOf(cfg, svc, nodes, subnets); p.owner.vpc == cfg.vpcIdentity && AttachedFor(nodes, p.servers)
  {
    AttachmentsMean(nodes);
  }

  lemma ListenerCallIsAsked(cfg: Config, svc: Service, nodes: seq<Node>, subnets: seq<Subnet>, s: State, c: Call)
    requires var p := PlanOf(cfg, svc, nodes, subnets); |p.groups| == |p.listeners| && MayChangeListeners(p, s, c)
    ensures CallAsked(cfg, svc, nodes, subnets, s, c)
  {
    hide PlanOf, OwnListener, ListenerServes, ReadyGroup, ListenersOf, LbUpdated;
    var p := PlanOf(cfg, svc, nodes, subnets);
    PlannedPorts(cfg, svc, nodes, subnets);
    if c.DeleteListener? {
      var port := s.listeners[c.id].spec.port;
      forall i | 0 <= i < |svc.ports|
        ensures svc.ports[i].port as int != port
      {
        PlannedPortIsAsked(cfg, svc, nodes, subnets, i);
        assert p.listeners[i].port != port;
      }
    } else {
      var spec := if c.CreateListener? then c.listener.spec else c.listenerSpec;
      var target := if c.CreateListener? then c.listener.target else c.target;
      var i :| 0 <= i < |p.listeners| && p.listeners[i] == spec && ReadyGroup(p, s.groups, i, target);
      ReadyPortServes(cfg, svc, nodes, subnets, s.groups, i, target);
      assert svc.ports[i] in svc.ports;
    }
  }

  lemma PlannedLbCallIsAsked(cfg: Config, svc: Service, nodes: seq<Node>, subnets: seq<Subnet>, s: State, c: Call)
    requires MayChangeLb(PlanOf(cfg, svc, nodes, subnets), s, c)
    ensures CallAsked(cfg, svc, nodes, subnets, s, c)
  {
    hide OwnerOf, NewSg, NewLb, Attachments, DesiredGroups, DesiredListeners, ChooseSubnet, SecurityGroupsFor,
      SubnetFor, LbAsked, SubnetAsked, OwnLb, OwnSg, LbUpdated, ListsSecurityGroups, ListenersOf;
    SecurityGroupsAreListed(svc);
    var p := PlanOf(cfg, svc, nodes, subnets);
    if c.CreateLb? {
      ChosenIsAsked(cfg, svc, subnets);
      NewLbIsAsked(cfg, svc, c.lb);
    } else {
      UpdateBringsInLine(cfg, svc, subnets, p, s, c.id, c.lb.securityGroups);
    }
  }

  lemma SgCallIsAsked(cfg: Config, svc: Service, nodes: seq<Node>, subnets: seq<Subnet>, s: State, c: Call)
    requires MayChangeSgs(PlanOf(cfg, svc, nodes, subnets), s, c)
    ensures CallAsked(cfg, svc, nodes, subnets, s, c)
  {
    hide OwnerOf, NewSg, NewLb, Attachments, DesiredGroups, DesiredListeners, SecurityGroupsFor, SubnetFor, SgAsked,
      SgNamed, OwnSg, ListenersOf;
    NewSgIsNamed(cfg, svc);
    NewSgIsAsked(cfg, svc, c.sg);
  }

  /** Every call of a planned reconcile, also one that is cut off, is one the service asks for when it is made. */
  lemma EveryCallIsAsked(cfg: Config, svc: Service, nodes: seq<Node>, subnets: seq<Subnet>, s: State, l: seq<Call>,
                         s': State, l': seq<Call>, k: nat)
    requires Reconciled(cfg, svc, nodes, subnets, s, l, s', l') && |l| <= k < |l'|
    ensures CallAsked(cfg, svc, nodes, subnets, ApplyAll(s, l'[|l|..k]), l'[k])
  {
    hide PlanOf, Sound, Inv, Foreign, ApplyAll, CallAsked, OwnerOf, MayChangeGroups, MayChangeListeners, MayChangeLb,
      MayChangeSgs, Permitted;
    var p, calls := PlanOf(cfg, svc, nodes, subnets), l'[|l|..];
    SoundRun(p);
    PermittedEach(Ensure(p), s, calls, k - |l|);
    assert calls[..k - |l|] == l'[|l|..k] && calls[k - |l|] == l'[k];
    var now, c := ApplyAll(s, l'[|l|..k]), l'[k];
    if MayChangeGroups(p, now, c) {
      GroupCallIsAsked(cfg, svc, nodes, subnets, now, c);
    } else if MayChangeListeners(p, now, c) {
      ListenerCallIsAsked(cfg, svc, nodes, subnets, now, c);
    } else if MayChangeLb(p, now, c) {
      PlannedLbCallIsAsked(cfg, svc, nodes, subnets, now, c);
    } else {
      SgCallIsAsked(cfg, svc, nodes, subnets, now, c);
    }
  }

  lemma {:induction false} PermittedEach(run: Run, s: State, calls: seq<Call>, k: nat)
    requires run.IsSound() && Permitted(run, s, calls) && k < |calls|
    ensures run.Allows(ApplyAll(s, calls[..k]), calls[k])
  {
    hide Run.Allows, ApplyAll;
    if k < |calls| - 1 {
      PermittedEach(run, s, calls[..|calls| - 1], k);
      assert calls[..|calls| - 1][..k] == calls[..k];
    }
  }

  /** In a cloud in order, the managed security group admits a source to a port exactly if the source is an entry
      that counts of some annotation for this port of the service; what is not udp is admitted as tcp. */
  lemma InOrderAdmitsExactly(cfg: Config, svc: Service, nodes: seq<Node>, s: State, lb: string, sg: string,
                             protocol: string, port: int, source: string)
    requires InOrder(cfg, svc, nodes, s, lb) && svc.settings.createSecurityGroup
    requires sg in s.sgs && OwnSg(OwnerOf(cfg, svc), s.sgs[sg])
    ensures SecurityRules.RulesAdmit(s.sgs[sg].ingress, protocol, port, source)
       <==> exists i, place ::
              && 0 <= i < |svc.ports| && svc.ports[i].port as int == port
              && protocol == (if Lower(svc.ports[i].protocol) == "udp" then "udp" else "tcp")
              && ReadingFor(cfg, svc, svc.ports[i]).StandsAt(place, source)
  {
    InOrderSgIsAsked(cfg, svc, nodes, s, lb, sg);
    AskedAdmitsExactly(cfg, svc, s.sgs[sg].ingress, protocol, port, source);
  }

  lemma AskedAdmitsExactly(cfg: Config, svc: Service, rules: seq<Rule>, protocol: string, port: int, source: string)
    requires forall r :: r in rules <==> exists i, x :: RuleOfPort(cfg, svc, i, x, r)
    ensures SecurityRules.RulesAdmit(rules, protocol, port, source)
       <==> exists i, place ::
              && 0 <= i < |svc.ports| && svc.ports[i].port as int == port
              && protocol == (if Lower(svc.ports[i].protocol) == "udp" then "udp" else "tcp")
              && ReadingFor(cfg, svc, svc.ports[i]).StandsAt(place, source)
  {
    hide Reading.StandsAt, Lower, Decimal;
    if r :| r in rules && r.protocol == protocol && r.portMin <= port <= r.portMax && r.remote == source {
      var i, x :| RuleOfPort(cfg, svc, i, x, r);
    }
    if i, place :| 0 <= i < |svc.ports| && svc.ports[i].port as int == port
                   && protocol == (if Lower(svc.ports[i].protocol) == "udp" then "udp" else "tcp")
                   && ReadingFor(cfg, svc, svc.ports[i]).StandsAt(place, source) {
      var r := Rule(Lower(svc.ports[i].protocol) + "-" + Decimal(svc.ports[i].port), cfg.isIPv6(source), protocol, 100,
                    source, svc.ports[i].port, svc.ports[i].port);
      assert RuleOfPort(cfg, svc, i, source, r);
      assert r in rules;
    }
  }

  lemma InOrderSgIsAsked(cfg: Config, svc: Service, nodes: seq<Node>, s: State, lb: string, sg: string)
    requires InOrder(cfg, svc, nodes, s, lb) && svc.settings.createSecurityGroup
    requires sg in s.sgs && OwnSg(OwnerOf(cfg, svc), s.sgs[sg])
    ensures SgAsked(cfg, svc, s.sgs[sg])
    ensures forall r :: r in s.sgs[sg].ingress <==> exists i, x :: RuleOfPort(cfg, svc, i, x, r)
  {
    hide OwnSg, OwnerOf, LbInLine, NoStaleGroups, Serves, PortsOf, ServicePorts, OwnLb, RuleOfPort;
  }

  // ---------------------------------------------------------------- any service, any state

  /** Safety at every moment of whatever is done for a service, well-formed or not, in a cloud in which
      nothing dangles: after each call nothing dangles, and the other services' objects are untouched. */
  lemma EveryPrefixIsHarmless(o: Owner, s: State, l: seq<Call>, s': State, l': seq<Call>, k: nat)
    requires Safe(s) && Touched(o, s, l, s', l') && |l| <= k <= |l'|
    ensures var mid := ApplyAll(s, l'[|l|..k]); Safe(mid) && Foreign(o, mid) == Foreign(o, s)
  {
    hide Safe, Foreign, Permitted, ApplyAll;
    var calls := l'[|l|..];
    EveryRunIsHarmless(Touch(o), s, calls, k - |l|);
    assert calls[..k - |l|] == l'[|l|..k];
  }

  // ---------------------------------------------------------------- crash and retry

  /** A run for the service, whatever became of it, is one more attempt on the service's behalf. */
  lemma RunIsAttempt(o: Owner, s: State, attempts: seq<Attempt>, run: Run, l: seq<Call>, s': State, l': seq<Call>)
    returns (more: seq<Attempt>)
    requires History(o, s, attempts) && run.IsSound() && run.Owner() == o
    requires Ran(run, After(s, attempts), l, s', l')
    ensures History(o, s, more) && After(s, more) == s' && |more| == |attempts| + 1 && more[..|attempts|] == attempts
    ensures more[|attempts|].run == run && |l| <= |l'| && l' == l + more[|attempts|].calls
  {
    hide Run.IsSound, Permitted, History, After, ApplyAll;
    var last := Attempt(run, l'[|l|..]);
    HistoryExtended(o, s, attempts, last);
    more := attempts + [last];
  }

  /** A reconcile of a well-formed service is an attempt to follow its plan, and any other an attempt that
      just touches the service's objects. */
  lemma ReconcileIsAttempt(s: State, attempts: seq<Attempt>, cfg: Config, svc: Service, nodes: seq<Node>,
                           subnets: seq<Subnet>, l: seq<Call>, s': State, l': seq<Call>, ok: bool)
    returns (more: seq<Attempt>)
    requires History(OwnerOf(cfg, svc), s, attempts)
             && Reconciles(cfg, svc, nodes, subnets, After(s, attempts), l, s', l', ok)
    ensures History(OwnerOf(cfg, svc), s, more) && After(s, more) == s'
    ensures |more| == |attempts| + 1 && more[..|attempts|] == attempts
    ensures |l| <= |l'| && l' == l + more[|attempts|].calls
    ensures more[|attempts|].run ==
            if Orderly(cfg, svc, After(s, attempts)) then Ensure(PlanOf(cfg, svc, nodes, subnets))
            else Touch(OwnerOf(cfg, svc))
  {
    hide Sound, Inv, Safe, Foreign, Ran, History, After, PlanOf, OwnerOf, Orderly, Converged;
    OwnerOfPlan(cfg, svc, nodes, subnets);
    if Orderly(cfg, svc, After(s, attempts)) {
      more := RunIsAttempt(OwnerOf(cfg, svc), s, attempts, Ensure(PlanOf(cfg, svc, nodes, subnets)), l, s', l');
    } else {
      more := RunIsAttempt(OwnerOf(cfg, svc), s, attempts, Touch(OwnerOf(cfg, svc)), l, s', l');
    }
  }

  /** Crash and retry: from a well-formed cloud, after any number of reconciles of any versions of the
      service for any nodes, each cut off anywhere, one that succeeds leaves the service in order for its
      own version and nodes, with at most one load balancer ever created on the way and all other
      services' objects as they were. */
  lemma RetryConverges(o: Owner, s: State, attempts: seq<Attempt>, cfg: Config, svc: Service, nodes: seq<Node>,
                       subnets: seq<Subnet>, l: seq<Call>, s': State, l': seq<Call>) returns (lb: string)
    requires Inv(o, s) && History(o, s, attempts) && forall i | 0 <= i < |attempts| :: attempts[i].run.Ensure?
    requires OwnerOf(cfg, svc) == o && Reconciled(cfg, svc, nodes, subnets, After(s, attempts), l, s', l')
    requires Converged(cfg, svc, nodes, subnets, s')
    ensures Inv(o, s') && Foreign(o, s') == Foreign(o, s)
    ensures lb in s'.lbs && OwnLb(o, s'.lbs[lb]) && InOrder(cfg, svc, nodes, s', lb)
    ensures |l| <= |l'| && AllLbCreates(attempts) + LbCreates(l'[|l|..]) <= 1
  {
    hide Sound, Inv, Foreign, Permitted, History, After, ApplyAll, PlanOf, OwnerOf, InOrder, Settled, AllLbCreates,
      LbCreates, OwnLb, PortsOf, WantedPorts;
    InvAfterReconcile(cfg, svc, nodes, subnets, After(s, attempts), l, s', l');
    OwnerOfPlan(cfg, svc, nodes, subnets);
    lb := ConvergedIsInOrder(cfg, svc, nodes, subnets, s');
    CrashAndRetry(o, s, attempts, PlanOf(cfg, svc, nodes, subnets), l'[|l|..], lb);
  }

  lemma InvAfterReconcile(cfg: Config, svc: Service, nodes: seq<Node>, subnets: seq<Subnet>, s: State, l: seq<Call>,
                          s': State, l': seq<Call>)
    requires Reconciled(cfg, svc, nodes, subnets, s, l, s', l')
    ensures Inv(OwnerOf(cfg, svc), s') && |l| <= |l'|
  {
    hide Sound, Inv, Foreign, Permitted, ApplyAll, OwnerOf;
    OwnerOfPlan(cfg, svc, nodes, subnets);
  }

  /** Safety at every moment of a reconcile, also one that stops on an error: after each of its calls the
      cloud is well-formed, so that every listener points to an existing group, the other services'
      objects are untouched, and the ports that stay keep their listeners, none of which points to a
      group without this run's servers unless it did before. */
  lemma EveryPrefixIsSafe(cfg: Config, svc: Service, nodes: seq<Node>, subnets: seq<Subnet>, s: State, l: seq<Call>,
                          s': State, l': seq<Call>, k: nat)
    requires Inv(OwnerOf(cfg, svc), s) && Reconciled(cfg, svc, nodes, subnets, s, l, s', l') && |l| <= k <= |l'|
    ensures var p, mid := PlanOf(cfg, svc, nodes, subnets), ApplyAll(s, l'[|l|..k]);
            Sound(p) && Inv(p.owner, mid) && Foreign(p.owner, mid) == Foreign(p.owner, s) && KeepsServing(p, s, mid)
  {
    hide Sound, Inv, Foreign, Permitted, ApplyAll, PlanOf, OwnerOf, KeepsServing;
    OwnerOfPlan(cfg, svc, nodes, subnets);
    var p, calls := PlanOf(cfg, svc, nodes, subnets), l'[|l|..];
    PrefixesSafe(Ensure(p), s, calls, k - |l|);
    MakeBeforeBreak(p, s, calls, k - |l|);
    assert calls[..k - |l|] == l'[|l|..k];
  }

  /** Idempotence: a further reconcile of a converged cloud for the same version and nodes, whatever
      becomes of it, leaves the cloud exactly as it is and creates and deletes nothing. */
  lemma ReconcileAgain(cfg: Config, svc: Service, nodes: seq<Node>, subnets: seq<Subnet>, s: State, l: seq<Call>,
                       s': State, l': seq<Call>)
    requires Converged(cfg, svc, nodes, subnets, s) && Inv(OwnerOf(cfg, svc), s)
             && Reconciled(cfg, svc, nodes, subnets, s, l, s', l')
    ensures s' == s && |l| <= |l'| && l'[..|l|] == l
    ensures forall i | |l| <= i < |l'| :: !IsCreate(l'[i]) && !IsDelete(l'[i])
  {
    hide Sound, Inv, Foreign, Permitted, ApplyAll, PlanOf, OwnerOf, InOrder, Settled, OwnLb;
    OwnerOfPlan(cfg, svc, nodes, subnets);
    var lb := ConvergedIsInOrder(cfg, svc, nodes, subnets, s);
    var calls := l'[|l|..];
    Idempotence(PlanOf(cfg, svc, nodes, subnets), s, lb, calls);
    assert forall i | |l| <= i < |l'| :: l'[i] == calls[i - |l|];
  }

  // ---------------------------------------------------------------- ensure, then delete

  /** Ensure, then delete: from a cloud with nothing of the service's, after any attempts, a delete in
      which no call fails leaves the cloud as it was if and only if it finds a load balancer or there is
      nothing to delete. */
  method DeleteRestores(cloud: Cloud, cfg: Config, svc: Service, ghost s: State, ghost attempts: seq<Attempt>)
    returns (ok: bool)
    requires Safe(s) && OwnsNothing(OwnerOf(cfg, svc), s) && History(OwnerOf(cfg, svc), s, attempts)
    requires cloud.now == After(s, attempts)
    modifies cloud
    ensures cloud.failures == old(cloud.failures) ==> ok
    ensures cloud.failures == old(cloud.failures) ==>
              (cloud.now == s <==>
               HasLb(OwnerOf(cfg, svc), old(cloud.now)) || OwnsNothing(OwnerOf(cfg, svc), old(cloud.now)))
  {
    hide Safe, Foreign, History, After, OwnerOf, OwnsNothing, OneSg, HasLb, Deleted, DeletedFrom, TornDown;
    EveryHistoryIsHarmless(OwnerOf(cfg, svc), s, attempts);
    EnsureThenDelete(OwnerOf(cfg, svc), s, attempts);
    NothingIsOne(OwnerOf(cfg, svc), s);
    EveryHistoryKeepsOne(OwnerOf(cfg, svc), s, attempts);
    ok := EnsureLoadBalancerDeleted(cloud, cfg, svc);
  }

  lemma NothingIsOne(o: Owner, s: State)
    requires OwnsNothing(o, s)
    ensures OneSg(o, s.sgs)
  {}

  // ---------------------------------------------------------------- subnets by slug

  /** A subnet given by its slug is found when the load balancer is created, and yet a converged load
      balancer is in no subnet of the VPC. */
  lemma SlugIsNoIdentity(cfg: Config, svc: Service, nodes: seq<Node>, subnets: seq<Subnet>, s: State)
    requires svc.settings.subnet == "front" && subnets == [Subnet("subnet-1", "front")]
    requires Converged(cfg, svc, nodes, subnets, s) && Inv(OwnerOf(cfg, svc), s)
    ensures ChooseSubnet(subnets, SubnetFor(cfg, svc)) == Some(subnets[0]) && HasLb(OwnerOf(cfg, svc), s)
    ensures forall lb | lb in s.lbs && OwnLb(OwnerOf(cfg, svc), s.lbs[lb]) :: !IsSubnet(subnets, s.lbs[lb].subnet)
  {
    hide Sound, Inv, InOrder, ListenersSettled, GroupsSettled, WantedSgs, OwnLb, OwnSg, OwnerOf;
    var it := ConvergedIsInOrder(cfg, svc, nodes, subnets, s);
    OwnerOfPlan(cfg, svc, nodes, subnets);
    OneLbIsIt(OwnerOf(cfg, svc), s, it);
  }

  // ---------------------------------------------------------------- a first run

  const EMPTY := State(map[], map[], map[], map[])

  /** The calls that bring up a service with one port in an empty cloud, as long as no subnet is asked for. */
  function FirstRun(p: Plan): seq<Call>
    requires |p.groups| == |p.listeners| == 1 && p.subnets != []
  {
    [CreateLb("lb", p.newLb.(subnet := p.subnets[0].identity, securityGroups := p.securityGroups)),
     CreateGroup("tg", Group(p.owner.vpc, p.groups[0], [])),
     SetAttachments("tg", p.servers),
     CreateListener("ln", Listener("lb", p.listeners[0], "tg"))]
  }

  lemma OneMoreCall(run: Run, s: State, calls: seq<Call>, c: Call)
    requires run.IsSound() && Permitted(run, s, calls) && run.Allows(ApplyAll(s, calls), c)
    ensures Permitted(run, s, calls + [c]) && ApplyAll(s, calls + [c]) == Apply(ApplyAll(s, calls), c)
  {
    assert (calls + [c])[..|calls|] == calls;
  }

  lemma NoCalls(run: Run, s: State)
    requires run.IsSound()
    ensures Permitted(run, s, []) && ApplyAll(s, []) == s
  {}

  predicate Simple(p: Plan) {
    |p.groups| == 1 && !p.managed && p.subnets != [] && ChooseSubnet(p.subnets, p.subnet) == Some(p.subnets[0])
  }

  lemma FirstCallsAllowed(p: Plan)
    requires Sound(p) && Simple(p)
    ensures var calls := FirstRun(p);
            var a := Apply(EMPTY, calls[0]);
            var b := Apply(a, calls[1]);
            var c := Apply(b, calls[2]);
            && Ensure(p).Allows(EMPTY, calls[0]) && Ensure(p).Allows(a, calls[1])
            && Ensure(p).Allows(b, calls[2]) && Ensure(p).Allows(c, calls[3])
  {
    hide OwnGroup;
    var calls := FirstRun(p);
    var c := Apply(Apply(Apply(EMPTY, calls[0]), calls[1]), calls[2]);
    GroupsCarriedByOwner(p);
    assert WantsGroup(p, p.groups[0]);
    assert ReadyGroup(p, c.groups, 0, "tg");
  }

  lemma GroupsCarriedByOwner(p: Plan)
    requires Sound(p)
    ensures forall i, servers | 0 <= i < |p.groups| :: OwnGroup(p.owner, Group(p.owner.vpc, p.groups[i], servers))
  {}

  lemma FirstRunPermitted(p: Plan)
    requires Sound(p) && Simple(p)
    ensures Permitted(Ensure(p), EMPTY, FirstRun(p))
    ensures ApplyAll(EMPTY, FirstRun(p))
         == State(map["lb" := FirstRun(p)[0].lb], map["ln" := FirstRun(p)[3].listener],
                  map["tg" := Group(p.owner.vpc, p.groups[0], p.servers)], map[])
  {
    hide Permitted, ApplyAll, Run.Allows, Run.IsSound, Sound, ChooseSubnet;
    SoundRun(p);
    var calls := FirstRun(p);
    FirstCallsAllowed(p);
    NoCalls(Ensure(p), EMPTY);
    OneMoreCall(Ensure(p), EMPTY, [], calls[0]);
    assert [] + [calls[0]] == calls[..1];
    OneMoreCall(Ensure(p), EMPTY, calls[..1], calls[1]);
    assert calls[..1] + [calls[1]] == calls[..2];
    OneMoreCall(Ensure(p), EMPTY, calls[..2], calls[2]);
    assert calls[..2] + [calls[2]] == calls[..3];
    OneMoreCall(Ensure(p), EMPTY, calls[..3], calls[3]);
    assert calls[..3] + [calls[3]] == calls;
  }

  lemma FirstRunSettles(p: Plan)
    requires Sound(p) && Simple(p) && p.subnet == "" && p.newLb.reservedIP == p.reservedIP
    ensures Settled(p, ApplyAll(EMPTY, FirstRun(p)), "lb")
  {
    FirstRunPermitted(p);
    hide Permitted, ApplyAll, OwnGroup;
    var end := ApplyAll(EMPTY, FirstRun(p));
    assert end.listeners["ln"].lb == "lb" && ReadyGroup(p, end.groups, 0, "tg");
    assert PortServed(p, end, "lb", 0);
  }

  /** Four calls bring up a service with one port in an empty cloud. */
  lemma FirstReconcile(cfg: Config, svc: Service, nodes: seq<Node>, subnets: seq<Subnet>)
    requires |svc.ports| == 1 && !svc.settings.createSecurityGroup && SubnetFor(cfg, svc) == "" && subnets != []
    ensures Inv(OwnerOf(cfg, svc), EMPTY) && OwnsNothing(OwnerOf(cfg, svc), EMPTY)
    ensures var calls := FirstRun(PlanOf(cfg, svc, nodes, subnets));
            var end := ApplyAll(EMPTY, calls);
            Reconciled(cfg, svc, nodes, subnets, EMPTY, [], end, calls) && Converged(cfg, svc, nodes, subnets, end)
  {
    hide Permitted, ApplyAll, Settled, FirstRun, Sound, OwnerOf, DesiredGroup, DesiredListener, Attachments, SubnetFor,
      NewSg, Foreign;
    var p := PlanOf(cfg, svc, nodes, subnets);
    OwnerOfPlan(cfg, svc, nodes, subnets);
    PlanSoundExactly(cfg, svc, nodes, subnets);
    SoundRun(p);
    FirstRunPermitted(p);
    FirstRunSettles(p);
    var calls := FirstRun(p);
    assert calls[0..] == calls;
    RanKeepsInv(Ensure(p), EMPTY, [], ApplyAll(EMPTY, calls), calls);
  }

  // ---------------------------------------------------------------- a subnet by its slug

  /** The calls that bring up a service with one port whose subnet is given: the last moves the new load
      balancer to the subnet that is named as the service names it. */
  function RunIntoSubnet(p: Plan): seq<Call>
    requires |p.groups| == |p.listeners| == 1 && p.subnets != []
  {
    FirstRun(p) + [UpdateLb("lb", FirstRun(p)[0].lb.(subnet := p.subnet))]
  }

  lemma RunIntoSubnetSettles(p: Plan)
    requires Sound(p) && Simple(p) && p.subnet != "" && p.newLb.reservedIP == p.reservedIP
    ensures var calls := RunIntoSubnet(p);
            Permitted(Ensure(p), EMPTY, calls) && Settled(p, ApplyAll(EMPTY, calls), "lb")
  {
    hide Permitted, ApplyAll, OwnGroup, ChooseSubnet;
    FirstRunPermitted(p);
    var s, calls := ApplyAll(EMPTY, FirstRun(p)), RunIntoSubnet(p);
    OneMoreCall(Ensure(p), EMPTY, FirstRun(p), calls[4]);
    var end := ApplyAll(EMPTY, calls);
    assert end.listeners["ln"].lb == "lb" && ReadyGroup(p, end.groups, 0, "tg");
    assert PortServed(p, end, "lb", 0);
  }

  /** A subnet given by its slug is found when the load balancer is created, and a run of five calls reaches
      the wanted state, in which the load balancer is in no subnet of the VPC. */
  lemma SlugIsReached(cfg: Config, svc: Service, nodes: seq<Node>, subnets: seq<Subnet>) returns (calls: seq<Call>)
    requires svc.settings.subnet == "front" && subnets == [Subnet("subnet-1", "front")]
    requires |svc.ports| == 1 && !svc.settings.createSecurityGroup
    ensures var end := ApplyAll(EMPTY, calls);
            && Reconciled(cfg, svc, nodes, subnets, EMPTY, [], end, calls) && Converged(cfg, svc, nodes, subnets, end)
            && forall lb | lb in end.lbs && OwnLb(OwnerOf(cfg, svc), end.lbs[lb]) ::
                 !IsSubnet(subnets, end.lbs[lb].subnet)
  {
    hide Permitted, ApplyAll, Settled, RunIntoSubnet, Sound, OwnerOf, DesiredGroup, DesiredListener, Attachments, NewSg,
      Foreign, IsSubnet, Inv, OwnLb;
    var p := PlanOf(cfg, svc, nodes, subnets);
    OwnerOfPlan(cfg, svc, nodes, subnets);
    PlanSoundExactly(cfg, svc, nodes, subnets);
    SoundRun(p);
    RunIntoSubnetSettles(p);
    calls := RunIntoSubnet(p);
    assert calls[0..] == calls;
    EmptyIsInv(p.owner);
    RanKeepsInv(Ensure(p), EMPTY, [], ApplyAll(EMPTY, calls), calls);
    SlugIsNoIdentity(cfg, svc, nodes, subnets, ApplyAll(EMPTY, calls));
  }

  lemma EmptyIsInv(o: Owner)
    ensures Inv(o, EMPTY)
  {}
}
