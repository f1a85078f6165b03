/** The listeners and target groups a service asks for (pkg/provider/loadbalancer_listeners.go,
    loadbalancer_targetgroups.go), and the plan they make up. */
module Desired {
  import opened GoText
  import opened Kubernetes
  import opened Cloud
  import opened Plan
  import opened Metadata
  import ProviderId
  import opened Acl
  import SecurityRules

  // ---------------------------------------------------------------- listeners

  function PortName(lbName: string, port: ServicePort): string {
    if port.name != "" then lbName + "-" + port.name
    else lbName + "-" + Lower(port.protocol) + "-p" + Decimal(port.port)
  }

  predicate NamedFor(svc: Service, port: ServicePort, name: string) {
    && (port.name != "" ==> name == svc.lbName + "-" + port.name)
    && (port.name == "" ==> name == svc.lbName + "-" + Lower(port.protocol) + "-p" + Decimal(port.port))
  }

  /** What the annotations have to say about a port's sources. */
  function ReadingFor(cfg: Config, svc: Service, port: ServicePort): Reading {
    Reading(cfg.validCidr, svc.annotations, port.name, port.port)
  }

  /** The listener that the service asks for on a port. */
  ghost predicate ListenerAsked(cfg: Config, svc: Service, port: ServicePort, l: ListenerSpec) {
    && NamedFor(svc, port, l.name) && l.description == "Listener for Kubernetes service " + svc.name
    && LabelledForPort(cfg, svc, port.port, port.protocol, l.labels) && l.annotations == map[]
    && l.port == port.port && l.protocol == Lower(port.protocol)
    && ReadingFor(cfg, svc, port).Asks(l.allowedSources)
    && l.connectionIdleTimeout == ToUint32(svc.settings.idleConnectionTimeout)
    && l.maxConnections == ToUint32(svc.settings.maxConnections)
  }

  lemma DesiredListenerIsAsked(cfg: Config, svc: Service, port: ServicePort)
    ensures ListenerAsked(cfg, svc, port, DesiredListener(cfg, svc, port))
  {
    GroupLabelsMean(cfg, svc, port.port, port.protocol);
    CombinedIsAsked(ReadingFor(cfg, svc, port));
    hide LabelledForPort, GroupLabels, Reading.Asks, CombinedSources, Decimal, Lower;
  }

  function DesiredListener(cfg: Config, svc: Service, port: ServicePort): ListenerSpec {
    ListenerSpec(PortName(svc.lbName, port), "Listener for Kubernetes service " + svc.name,
                 GroupLabels(cfg, svc, port.port, port.protocol), map[], port.port, Lower(port.protocol),
                 CombinedSources(cfg.validCidr, svc.annotations, port.name, port.port),
                 ToUint32(svc.settings.idleConnectionTimeout), ToUint32(svc.settings.maxConnections))
  }

  function DesiredListeners(cfg: Config, svc: Service): (r: seq<ListenerSpec>)
    ensures |r| == |svc.ports|
    ensures forall i | 0 <= i < |r| :: r[i] == DesiredListener(cfg, svc, svc.ports[i])
  {
    seq(|svc.ports|, i requires 0 <= i < |svc.ports| => DesiredListener(cfg, svc, svc.ports[i]))
  }

  ghost predicate ListenersAsked(cfg: Config, svc: Service, listeners: seq<ListenerSpec>) {
    |listeners| == |svc.ports| && forall i | 0 <= i < |listeners| :: ListenerAsked(cfg, svc, svc.ports[i], listeners[i])
  }

  lemma DesiredListenersAreAsked(cfg: Config, svc: Service)
    ensures ListenersAsked(cfg, svc, DesiredListeners(cfg, svc))
  {
    hide ListenerAsked, DesiredListener;
    forall i | 0 <= i < |svc.ports|
      ensures ListenerAsked(cfg, svc, svc.ports[i], DesiredListeners(cfg, svc)[i])
    {
      DesiredListenerIsAsked(cfg, svc, svc.ports[i]);
    }
  }

  /** Each slice shows its port's combined sources, in memory other than the global slice's. */
  ghost predicate SourcesCollected(cfg: Config, svc: Service, globalSources: Slice, sources: seq<Slice>)
    requires |sources| <= |svc.ports|
    reads set i | 0 <= i < |sources| :: sources[i].base
  {
    forall j | 0 <= j < |sources| ::
      && sources[j].Valid() && sources[j].base != globalSources.base
      && sources[j].View() == CombinedSources(cfg.validCidr, svc.annotations, svc.ports[j].name, svc.ports[j].port)
      && ReadingFor(cfg, svc, svc.ports[j]).Asks(sources[j].View())
  }

  /** The ACL half of the port loop: every round appends onto the one global slice, and no slice is read
      before the last round is over. */
  method CollectSources(cfg: Config, svc: Service) returns (globalSources: Slice, sources: seq<Slice>)
    ensures |sources| == |svc.ports| && SourcesCollected(cfg, svc, globalSources, sources)
  {
    hide CombinedSources, SourcesAt, Reading.Asks;
    globalSources := GlobalAclSources(cfg.validCidr, svc.annotations);
    sources := [];
    while |sources| < |svc.ports|
      invariant |sources| <= |svc.ports|
      invariant globalSources.Valid() && fresh(globalSources.base)
      invariant globalSources.View() == SourcesAt(cfg.validCidr, svc.annotations, ACL_SOURCES)
      invariant SourcesCollected(cfg, svc, globalSources, sources)
    {
      var port := svc.ports[|sources|];
      var combined := CombineForPort(cfg.validCidr, svc.annotations, globalSources, port.name, port.port);
      sources := sources + [combined];
    }
  }

  method DesiredVpcLoadbalancerListener(cfg: Config, svc: Service) returns (listeners: seq<ListenerSpec>)
    ensures listeners == DesiredListeners(cfg, svc) && ListenersAsked(cfg, svc, listeners)
  {
    DesiredListenersAreAsked(cfg, svc);
    hide CombinedSources, GroupLabels, ListenersAsked, LabelledForPort;
    var globalSources, sources := CollectSources(cfg, svc);
    listeners := [];
    var i := 0;
    while i < |svc.ports|
      invariant 0 <= i == |listeners| <= |svc.ports|
      invariant SourcesCollected(cfg, svc, globalSources, sources)
      invariant forall j | 0 <= j < i :: listeners[j] == DesiredListener(cfg, svc, svc.ports[j])
    {
      var port := svc.ports[i];
      var labels := GetLabelsForVpcLoadbalancerTargetGroup(cfg, svc, port.port, port.protocol);
      var listener := ListenerSpec(PortName(svc.lbName, port), "Listener for Kubernetes service " + svc.name, labels,
                                   map[], port.port, Lower(port.protocol), sources[i].base[..sources[i].len],
                                   ToUint32(svc.settings.idleConnectionTimeout), ToUint32(svc.settings.maxConnections));
      assert sources[i].View() == CombinedSources(cfg.validCidr, svc.annotations, port.name, port.port);
      listeners := listeners + [listener];
      i := i + 1;
    }
  }

  // ---------------------------------------------------------------- target groups

  /** The service's own health check port wins, with the annotation overriding the port only; otherwise
      the annotations decide. */
  function DesiredHealthCheck(svc: Service): Option<HealthCheck> {
    var t := svc.settings;
    if svc.healthCheckNodePort > 0 then
      Some(HealthCheck(if t.healthCheckPort > 0 then ToInt32(t.healthCheckPort) else svc.healthCheckNodePort, "http",
                       t.healthCheckPath, t.healthCheckTimeoutSeconds, t.healthCheckPeriodSeconds,
                       ToInt32(t.healthCheckHealthyThreshold), ToInt32(t.healthCheckUnhealthyThreshold)))
    else if t.healthCheckPort != -1 && t.healthCheckEnabled then
      Some(HealthCheck(ToInt32(t.healthCheckPort), t.healthCheckProtocol,
                       t.healthCheckPath, t.healthCheckTimeoutSeconds, t.healthCheckPeriodSeconds,
                       ToInt32(t.healthCheckHealthyThreshold), ToInt32(t.healthCheckUnhealthyThreshold)))
    else None
  }

  /** There is a health check if Kubernetes has given the service a health check port, or if checks are enabled and
      the annotation gives a port. In the first case it is over http, and the annotation's port takes precedence
      over Kubernetes's if it is positive; in the second, port and protocol are the annotations'. The rest always
      is as the annotations say. */
  predicate CheckAsked(svc: Service, check: Option<HealthCheck>) {
    var t := svc.settings;
    && (check.Some? <==> svc.healthCheckNodePort > 0 || (t.healthCheckEnabled && t.healthCheckPort != -1))
    && (check.Some? ==>
          var c := check.value;
          && (svc.healthCheckNodePort > 0 ==> c.protocol == "http")
          && (svc.healthCheckNodePort > 0 && t.healthCheckPort <= 0 ==> c.port == svc.healthCheckNodePort)
          && (t.healthCheckPort > 0 || svc.healthCheckNodePort <= 0 ==> c.port == ToInt32(t.healthCheckPort))
          && (svc.healthCheckNodePort <= 0 ==> c.protocol == t.healthCheckProtocol)
          && c.path == t.healthCheckPath
          && c.timeoutSeconds == t.healthCheckTimeoutSeconds && c.periodSeconds == t.healthCheckPeriodSeconds
          && c.healthyThreshold == ToInt32(t.healthCheckHealthyThreshold)
          && c.unhealthyThreshold == ToInt32(t.healthCheckUnhealthyThreshold))
  }

  /** The target group that the service asks for on a port. */
  predicate GroupAsked(cfg: Config, svc: Service, port: ServicePort, g: GroupSpec) {
    && NamedFor(svc, port, g.name) && g.description == ""
    && g.protocol == Lower(port.protocol) && g.targetPort == port.nodePort
    && LabelledForPort(cfg, svc, port.port, port.protocol, g.labels) && g.annotations == map[]
    && CheckAsked(svc, g.healthCheck) && (g.enableProxyProtocol <==> svc.settings.enableProxyProtocol)
    && (svc.settings.policy.Some? ==> g.policy == svc.settings.policy.value)
  }

  lemma DesiredGroupIsAsked(cfg: Config, svc: Service, port: ServicePort)
    ensures GroupAsked(cfg, svc, port, DesiredGroup(cfg, svc, port))
  {
    GroupLabelsMean(cfg, svc, port.port, port.protocol);
    hide LabelledForPort, GroupLabels, Decimal, Lower;
  }

  const DEFAULT_POLICY := "ROUND_ROBIN"

  function DesiredGroup(cfg: Config, svc: Service, port: ServicePort): GroupSpec {
    GroupSpec(PortName(svc.lbName, port), "", Lower(port.protocol), port.nodePort,
              GroupLabels(cfg, svc, port.port, port.protocol), map[], DesiredHealthCheck(svc),
              svc.settings.enableProxyProtocol,
              if svc.settings.policy.Some? then svc.settings.policy.value else DEFAULT_POLICY)
  }

  function DesiredGroups(cfg: Config, svc: Service): (r: seq<GroupSpec>)
    ensures |r| == |svc.ports|
    ensures forall i | 0 <= i < |r| :: r[i] == DesiredGroup(cfg, svc, svc.ports[i])
  {
    seq(|svc.ports|, i requires 0 <= i < |svc.ports| => DesiredGroup(cfg, svc, svc.ports[i]))
  }

  predicate GroupsAsked(cfg: Config, svc: Service, groups: seq<GroupSpec>) {
    |groups| == |svc.ports| && forall i | 0 <= i < |groups| :: GroupAsked(cfg, svc, svc.ports[i], groups[i])
  }

  lemma DesiredGroupsAreAsked(cfg: Config, svc: Service)
    ensures GroupsAsked(cfg, svc, DesiredGroups(cfg, svc))
  {
    hide GroupAsked, DesiredGroup;
    forall i | 0 <= i < |svc.ports|
      ensures GroupAsked(cfg, svc, svc.ports[i], DesiredGroups(cfg, svc)[i])
    {
      DesiredGroupIsAsked(cfg, svc, svc.ports[i]);
    }
  }

  /** An unknown load-balancing policy is an error. */
  method GetDesiredVpcLoadbalancerTargetGroups(cfg: Config, svc: Service) returns (r: Result<seq<GroupSpec>>)
    ensures r.Ok? <==> svc.settings.policy.Some?
    ensures r.Ok? ==> r.value == DesiredGroups(cfg, svc) && GroupsAsked(cfg, svc, r.value)
  {
    DesiredGroupsAreAsked(cfg, svc);
    hide GroupsAsked, LabelledForPort, GroupLabels, DesiredHealthCheck, PortName, Decimal, Lower;
    if svc.settings.policy.None? {
      return Err;
    }
    var tgs: seq<GroupSpec> := [];
    var i := 0;
    while i < |svc.ports|
      invariant 0 <= i == |tgs| <= |svc.ports|
      invariant forall j | 0 <= j < i :: tgs[j] == DesiredGroup(cfg, svc, svc.ports[j])
    {
      var port := svc.ports[i];
      var labels := GetLabelsForVpcLoadbalancerTargetGroup(cfg, svc, port.port, port.protocol);
      tgs := tgs + [GroupSpec(PortName(svc.lbName, port), "", Lower(port.protocol), port.nodePort, labels, map[],
                              DesiredHealthCheck(svc), svc.settings.enableProxyProtocol, svc.settings.policy.value)];
      i := i + 1;
    }
    return Ok(tgs);
  }

  // ---------------------------------------------------------------- attachments

  /** The identities of the nodes with well-formed provider IDs, in order. */
  function Attachments(nodes: seq<Node>): seq<string> {
    if nodes == [] then []
    else
      var id := ProviderId.AttachmentIdentity(nodes[|nodes| - 1].providerID);
      Attachments(nodes[..|nodes| - 1]) + if id.Some? then [id.value] else []
  }

  /** At these positions are the nodes whose provider ID is cut in two by its "://", each with what follows it. */
  ghost predicate AttachedAt(at: seq<nat>, nodes: seq<Node>, attachments: seq<string>) {
    && Picks(at, nodes, (n: Node) => exists id :: ProviderId.CutInTwo(n.providerID, id)) && |at| == |attachments|
    && forall k | 0 <= k < |at| :: ProviderId.CutInTwo(nodes[at[k]].providerID, attachments[k])
  }

  /** The attachments are, in order, the identities of the nodes that have one. */
  ghost predicate AttachedFor(nodes: seq<Node>, attachments: seq<string>) {
    exists at :: AttachedAt(at, nodes, attachments)
  }

  lemma AttachmentsMeanOn(at: seq<nat>, init: seq<Node>, attachments: seq<string>, last: Node)
    requires AttachedAt(at, init, attachments)
    ensures var id := ProviderId.AttachmentIdentity(last.providerID);
            AttachedFor(init + [last], attachments + if id.Some? then [id.value] else [])
  {
    hide ProviderId.CutInTwo, ProviderId.AttachmentIdentity;
    var test := (n: Node) => exists id :: ProviderId.CutInTwo(n.providerID, id);
    forall id
      ensures ProviderId.AttachmentIdentity(last.providerID) == Some(id) <==> ProviderId.CutInTwo(last.providerID, id)
    {
      ProviderId.AttachmentExactly(last.providerID, id);
    }
    var found := ProviderId.AttachmentIdentity(last.providerID);
    assert test(last) <==> found.Some?;
    PicksInRange(at, init, test);
    PicksOn(at, init, test, last);
    var at', attachments' := at + if test(last) then [|init|] else [],
      attachments + if found.Some? then [found.value] else [];
    assert Picks(at', init + [last], test) && |at'| == |attachments'|;
    forall k | 0 <= k < |at'|
      ensures ProviderId.CutInTwo((init + [last])[at'[k]].providerID, attachments'[k])
    {
      if k < |at| {
        assert at'[k] == at[k];
      }
    }
    assert AttachedAt(at', init + [last], attachments');
  }

  lemma {:induction false} AttachmentsMean(nodes: seq<Node>)
    ensures AttachedFor(nodes, Attachments(nodes))
  {
    if nodes == [] {
      assert AttachedAt([], nodes, []);
    } else {
      hide AttachedAt, ProviderId.AttachmentIdentity;
      var init, last := nodes[..|nodes| - 1], nodes[|nodes| - 1];
      AttachmentsMean(init);
      var at :| AttachedAt(at, init, Attachments(init));
      AttachmentsMeanOn(at, init, Attachments(init), last);
      assert nodes == init + [last];
    }
  }

  method AttachTargets(nodes: seq<Node>) returns (attachments: seq<string>)
    ensures attachments == Attachments(nodes) && AttachedFor(nodes, attachments)
  {
    AttachmentsMean(nodes);
    hide AttachedFor;
    attachments := [];
    var i := 0;
    while i < |nodes|
      invariant 0 <= i <= |nodes|
      invariant attachments == Attachments(nodes[..i])
    {
      assert nodes[..i + 1][..i] == nodes[..i];
      var providerId := nodes[i].providerID;
      i := i + 1;
      if providerId == "" {
        continue;
      }
      var providerIdParts := Split(providerId, "://");
      if |providerIdParts| != 2 {
        continue;
      }
      attachments := attachments + [providerIdParts[1]];
    }
    assert nodes[..i] == nodes;
  }

  /** Nodes registered by this provider are attached by exactly their machine identities, in order. */
  lemma {:induction false} AttachmentsOfOwnNodes(nodes: seq<Node>, ids: seq<string>)
    requires |nodes| == |ids|
    requires forall i | 0 <= i < |nodes| ::
               ProviderId.WellFormedIdentity(ids[i]) && nodes[i].providerID == ProviderId.GetProviderID(ids[i])
    ensures Attachments(nodes) == ids
  {
    if nodes != [] {
      AttachmentsOfOwnNodes(nodes[..|nodes| - 1], ids[..|ids| - 1]);
      ProviderId.ReadingsAgreeExactly(nodes[|nodes| - 1].providerID, ids[|ids| - 1]);
      assert ids == ids[..|ids| - 1] + [ids[|ids| - 1]];
    }
  }

  // ---------------------------------------------------------------- the plan

  function OwnerWith(vpc: string, lbName: string, labels: Labels): Owner {
    Owner(vpc, lbName, labels, actual => Carries(labels, actual), actual => Matches(labels, actual))
  }

  function OwnerOf(cfg: Config, svc: Service): Owner {
    OwnerWith(cfg.vpcIdentity, svc.lbName, LbLabels(cfg, svc))
  }

  /** All versions of a service own the same objects. */
  lemma VersionsShareOwner(cfg: Config, svc: Service, version: Service)
    requires svc.namespace == version.namespace && svc.name == version.name && svc.uid == version.uid
             && svc.lbName == version.lbName
    ensures OwnerOf(cfg, svc) == OwnerOf(cfg, version)
  {
    assert IdentityLabels(cfg, svc) == IdentityLabels(cfg, version);
  }

  function SubnetFor(cfg: Config, svc: Service): string {
    if svc.settings.subnet != "" then svc.settings.subnet else cfg.defaultSubnet
  }

  function SecurityGroupsFor(svc: Service): seq<string> {
    if svc.settings.securityGroups.Some? then Split(svc.settings.securityGroups.value, ",") else []
  }

  /** Names of security groups are cut to 16 characters. */
  function SecurityGroupName(name: string): string {
    var base := "sg-" + name;
    if |base| > 16 then base[..16] else base
  }

  const EGRESS: seq<Rule> := [
    Rule("allow-all-outbound", false, "all", 100, "0.0.0.0/0", 0, 0),
    Rule("allow-all-outbound", true, "all", 110, "::/0", 0, 0)]

  function NewSg(cfg: Config, svc: Service): SecurityGroup {
    SecurityGroup(cfg.vpcIdentity, SecurityGroupName(svc.name), "Security group for Kubernetes service " + svc.name,
                  LbLabels(cfg, svc), map[], true,
                  SecurityRules.IngressRules(cfg.isIPv6, DesiredListeners(cfg, svc)), EGRESS)
  }

  /** The load balancer to create, apart from its subnet and security groups. */
  function NewLb(cfg: Config, svc: Service): LoadBalancer {
    LoadBalancer(cfg.vpcIdentity, svc.lbName, "Loadbalancer for Kubernetes service " + svc.name, LbLabels(cfg, svc),
                 map[], "", svc.settings.internal, [], svc.settings.reservedIP)
  }

  // ---------------------------------------------------------------- load balancer and security group, field by field

  /** The text is that of the annotation, cut at its commas; there is no list without the annotation. */
  predicate ListsSecurityGroups(svc: Service, ids: seq<string>) {
    && (svc.settings.securityGroups.None? ==> ids == [])
    && (svc.settings.securityGroups.Some? ==>
          ids != [] && Join(ids, ",") == svc.settings.securityGroups.value && forall id | id in ids :: ',' !in id)
  }

  lemma SecurityGroupsAreListed(svc: Service)
    ensures ListsSecurityGroups(svc, SecurityGroupsFor(svc))
  {
    if svc.settings.securityGroups.Some? {
      JoinSplit(svc.settings.securityGroups.value, ",");
      SplitParts(svc.settings.securityGroups.value, ",");
    }
  }

  /** Attached are the security groups of the annotation and then, if the service asks for it, its managed one. */
  predicate AttachesAsked(cfg: Config, svc: Service, sgs: map<string, SecurityGroup>, ids: seq<string>) {
    && (!svc.settings.createSecurityGroup ==> ListsSecurityGroups(svc, ids))
    && (svc.settings.createSecurityGroup ==>
          && ids != [] && ListsSecurityGroups(svc, ids[..|ids| - 1])
          && ids[|ids| - 1] in sgs && OwnSg(OwnerOf(cfg, svc), sgs[ids[|ids| - 1]]))
  }

  /** The subnet is one of those with the requested identity or slug, the annotation's request taking precedence
      over the configuration's, or without a request the first. */
  predicate SubnetAsked(cfg: Config, svc: Service, subnets: seq<Subnet>, identity: string) {
    && (svc.settings.subnet != "" ==> Answers(subnets, svc.settings.subnet, identity))
    && (svc.settings.subnet == "" && cfg.defaultSubnet != "" ==> Answers(subnets, cfg.defaultSubnet, identity))
    && (svc.settings.subnet == "" && cfg.defaultSubnet == "" ==> subnets != [] && identity == subnets[0].identity)
  }

  predicate Answers(subnets: seq<Subnet>, requested: string, identity: string) {
    exists s :: s in subnets && s.identity == identity && (s.identity == requested || s.slug == requested)
  }

  lemma {:induction false} ChoiceIsAsked(subnets: seq<Subnet>, requested: string)
    requires ChooseSubnet(subnets, requested).Some?
    ensures subnets != []
    ensures var identity := ChooseSubnet(subnets, requested).value.identity;
            if requested == "" then identity == subnets[0].identity else Answers(subnets, requested, identity)
  {
    if !(requested == "" || subnets[0].identity == requested || subnets[0].slug == requested) {
      ChoiceIsAsked(subnets[1..], requested);
      var s :| s in subnets[1..] && s.identity == ChooseSubnet(subnets, requested).value.identity
               && (s.identity == requested || s.slug == requested);
      assert s in subnets;
    }
  }

  lemma ChosenIsAsked(cfg: Config, svc: Service, subnets: seq<Subnet>)
    requires ChooseSubnet(subnets, SubnetFor(cfg, svc)).Some?
    ensures SubnetAsked(cfg, svc, subnets, ChooseSubnet(subnets, SubnetFor(cfg, svc)).value.identity)
  {
    hide ChooseSubnet, Answers;
    ChoiceIsAsked(subnets, SubnetFor(cfg, svc));
  }

  /** The load balancer as the service asks for it when it is created, apart from subnet and security groups. */
  predicate LbAsked(cfg: Config, svc: Service, lb: LoadBalancer) {
    && lb.vpc == cfg.vpcIdentity && lb.name == svc.lbName
    && lb.description == "Loadbalancer for Kubernetes service " + svc.name
    && LabelledFor(cfg, svc, lb.labels) && lb.annotations == map[]
    && (lb.internal <==> svc.settings.internal) && lb.reservedIP == svc.settings.reservedIP
  }

  /** What a load balancer is created with and never changed in. */
  predicate SameMaking(lb: LoadBalancer, lb': LoadBalancer) {
    && lb'.vpc == lb.vpc && lb'.name == lb.name && lb'.description == lb.description && lb'.labels == lb.labels
    && lb'.annotations == lb.annotations && lb'.internal == lb.internal
  }

  lemma NewLbIsAsked(cfg: Config, svc: Service, lb: LoadBalancer)
    requires lb == NewLb(cfg, svc).(subnet := lb.subnet, securityGroups := lb.securityGroups)
    ensures LbAsked(cfg, svc, lb)
  {
    LbLabelsMean(cfg, svc);
    hide LabelledFor, LbLabels;
  }

  /** The load balancer is where the service asks for it, under its address and with its security groups. */
  predicate LbInLine(cfg: Config, svc: Service, s: State, id: string) {
    && id in s.lbs && OwnLb(OwnerOf(cfg, svc), s.lbs[id])
    && (svc.settings.subnet != "" ==> s.lbs[id].subnet == svc.settings.subnet)
    && (svc.settings.subnet == "" && cfg.defaultSubnet != "" ==> s.lbs[id].subnet == cfg.defaultSubnet)
    && s.lbs[id].reservedIP == svc.settings.reservedIP
    && AttachesAsked(cfg, svc, s.sgs, s.lbs[id].securityGroups)
  }

  /** The name a managed security group is created under is cut to 16 characters. */
  predicate SgNamed(svc: Service, sg: SecurityGroup) {
    && sg.name <= "sg-" + svc.name && |sg.name| <= 16 && (|svc.name| <= 13 ==> |sg.name| == 3 + |svc.name|)
    && (|svc.name| > 13 ==> |sg.name| == 16) && sg.description == "Security group for Kubernetes service " + svc.name
  }

  lemma NewSgIsNamed(cfg: Config, svc: Service)
    ensures SgNamed(svc, NewSg(cfg, svc)) && NewSg(cfg, svc).vpc == cfg.vpcIdentity
  {
    hide LbLabels, SecurityRules.IngressRules, DesiredListeners;
  }

  /** The rules are, for every port and every source that stands in the annotations for it, one that admits this
      source to this port. */
  ghost predicate IngressAsked(cfg: Config, svc: Service, rules: seq<Rule>) {
    && (forall r :: r in rules <==> exists i, source :: RuleOfPort(cfg, svc, i, source, r))
    && (DistinctPorts(svc) ==> NoDuplicates(rules))
  }

  ghost predicate RuleOfPort(cfg: Config, svc: Service, i: int, source: string, r: Rule) {
    && 0 <= i < |svc.ports| && (exists place :: ReadingFor(cfg, svc, svc.ports[i]).StandsAt(place, source))
    && var port := svc.ports[i];
       && r.name == Lower(port.protocol) + "-" + Decimal(port.port) && r.priority == 100
       && r.remote == source && (r.ipv6 <==> cfg.isIPv6(source)) && r.portMin == port.port && r.portMax == port.port
       && (Lower(port.protocol) == "udp" ==> r.protocol == "udp")
       && (Lower(port.protocol) != "udp" ==> r.protocol == "tcp")
  }

  /** Two rules let everything out, over IPv4 and over IPv6. */
  predicate EgressOpen(rules: seq<Rule>) {
    && |rules| == 2 && rules[0].priority == 100 && rules[1].priority == 110
    && (forall r | r in rules ::
          r.name == "allow-all-outbound" && r.protocol == "all" && r.portMin == 0 && r.portMax == 0)
    && rules[0].remote == "0.0.0.0/0" && !rules[0].ipv6 && rules[1].remote == "::/0" && rules[1].ipv6
  }

  /** The managed security group as the service asks for it, apart from the name and description it was created with. */
  ghost predicate SgAsked(cfg: Config, svc: Service, sg: SecurityGroup) {
    && LabelledFor(cfg, svc, sg.labels) && sg.annotations == map[] && sg.allowSameGroup
    && IngressAsked(cfg, svc, sg.ingress) && EgressOpen(sg.egress)
  }

  lemma RuleOfListener(cfg: Config, svc: Service, i: nat, l: ListenerSpec, source: string, r: Rule)
    requires i < |svc.ports| && ListenerAsked(cfg, svc, svc.ports[i], l)
    ensures source in l.allowedSources && SecurityRules.RuleAsked(cfg.isIPv6, l, source, r) <==>
            RuleOfPort(cfg, svc, i, source, r)
  {
    hide LabelledForPort, NamedFor, Decimal, Reading.StandsAt;
    LowerIdempotent(svc.ports[i].protocol);
  }

  lemma IngressIsAsked(cfg: Config, svc: Service, listeners: seq<ListenerSpec>, rules: seq<Rule>)
    requires ListenersAsked(cfg, svc, listeners) && SecurityRules.RulesAsked(cfg.isIPv6, listeners, rules)
    requires DistinctPorts(svc) ==> NoDuplicates(rules)
    ensures IngressAsked(cfg, svc, rules)
  {
    hide ListenerAsked, SecurityRules.RuleAsked, RuleOfPort, DistinctPorts;
    forall r
      ensures r in rules <==> exists i, source :: RuleOfPort(cfg, svc, i, source, r)
    {
      forall i, source | 0 <= i < |svc.ports|
        ensures source in listeners[i].allowedSources && SecurityRules.RuleAsked(cfg.isIPv6, listeners[i], source, r)
           <==> RuleOfPort(cfg, svc, i, source, r)
      {
        RuleOfListener(cfg, svc, i, listeners[i], source, r);
      }
      if i, source :| RuleOfPort(cfg, svc, i, source, r) {
        PortInRange(cfg, svc, i, source, r);
        assert listeners[i] in listeners;
      }
      if l, source :| l in listeners && source in l.allowedSources
                      && SecurityRules.RuleAsked(cfg.isIPv6, l, source, r) {
        var i :| 0 <= i < |listeners| && listeners[i] == l;
        assert RuleOfPort(cfg, svc, i, source, r);
      }
    }
  }

  lemma PortInRange(cfg: Config, svc: Service, i: int, source: string, r: Rule)
    requires RuleOfPort(cfg, svc, i, source, r)
    ensures 0 <= i < |svc.ports|
  {}

  lemma DesiredRulesAreDistinct(cfg: Config, svc: Service)
    requires DistinctPorts(svc)
    ensures NoDuplicates(SecurityRules.IngressRules(cfg.isIPv6, DesiredListeners(cfg, svc)))
  {
    hide ListenerAsked, DesiredListener;
    var listeners := DesiredListeners(cfg, svc);
    DesiredListenersAreAsked(cfg, svc);
    forall i | 0 <= i < |listeners|
      ensures listeners[i].port == svc.ports[i].port && NoDuplicates(listeners[i].allowedSources)
    {
      AskedHasPort(cfg, svc, svc.ports[i], listeners[i]);
    }
    SecurityRules.RulesHaveNoDuplicates(cfg.isIPv6, listeners);
  }

  lemma AskedHasPort(cfg: Config, svc: Service, port: ServicePort, l: ListenerSpec)
    requires ListenerAsked(cfg, svc, port, l)
    ensures l.port == port.port && l.protocol == Lower(port.protocol) && NoDuplicates(l.allowedSources)
  {}

  lemma NewSgIsAsked(cfg: Config, svc: Service, sg: SecurityGroup)
    requires sg == NewSg(cfg, svc).(vpc := sg.vpc, name := sg.name, description := sg.description)
    ensures SgAsked(cfg, svc, sg)
  {
    hide LabelledFor, LbLabels, DesiredListeners, SecurityRules.IngressRules, DistinctPorts, ListenersAsked,
      IngressAsked, SecurityRules.RulesAsked;
    LbLabelsMean(cfg, svc);
    DesiredListenersAreAsked(cfg, svc);
    SecurityRules.IngressRulesAreAsked(cfg.isIPv6, DesiredListeners(cfg, svc));
    if DistinctPorts(svc) {
      DesiredRulesAreDistinct(cfg, svc);
    }
    IngressIsAsked(cfg, svc, DesiredListeners(cfg, svc), sg.ingress);
  }

  /** What an ensure run for this version of the service and these nodes wants. */
  function PlanOf(cfg: Config, svc: Service, nodes: seq<Node>, subnets: seq<Subnet>): Plan {
    Plan(OwnerOf(cfg, svc), DesiredGroups(cfg, svc), DesiredListeners(cfg, svc), Attachments(nodes), NewLb(cfg, svc),
         subnets, SubnetFor(cfg, svc), SecurityGroupsFor(svc), svc.settings.createSecurityGroup, NewSg(cfg, svc),
         svc.settings.reservedIP)
  }

  predicate DistinctPorts(svc: Service) {
    forall i, j | 0 <= i < j < |svc.ports| :: svc.ports[i].port != svc.ports[j].port
  }

  predicate DistinctNodePorts(svc: Service) {
    forall i, j | 0 <= i < j < |svc.ports| ::
      (Lower(svc.ports[i].protocol), svc.ports[i].nodePort) != (Lower(svc.ports[j].protocol), svc.ports[j].nodePort)
  }

  lemma GroupsCarried(cfg: Config, svc: Service)
    ensures forall i | 0 <= i < |svc.ports| :: OwnerOf(cfg, svc).carried(DesiredGroups(cfg, svc)[i].labels)
  {
    forall i | 0 <= i < |svc.ports|
      ensures Carries(LbLabels(cfg, svc), DesiredGroups(cfg, svc)[i].labels)
    {
      GroupLabelsCarryIdentity(cfg, svc, svc.ports[i].port, svc.ports[i].protocol);
    }
  }

  lemma KeysDistinctExactly(cfg: Config, svc: Service)
    ensures var groups := DesiredGroups(cfg, svc);
            (forall i, j | 0 <= i < j < |groups| :: groups[i].Key() != groups[j].Key()) <==> DistinctNodePorts(svc)
    ensures var listeners := DesiredListeners(cfg, svc);
            (forall i, j | 0 <= i < j < |listeners| :: listeners[i].port != listeners[j].port) <==> DistinctPorts(svc)
  {
    hide GroupLabels, CombinedSources, Lower, PortName, DesiredHealthCheck, Decimal, DesiredGroups, DesiredListeners;
    var groups, listeners := DesiredGroups(cfg, svc), DesiredListeners(cfg, svc);
    forall i | 0 <= i < |svc.ports|
      ensures groups[i].Key() == (Lower(svc.ports[i].protocol), svc.ports[i].nodePort as int)
      ensures listeners[i].port == svc.ports[i].port
    {
      assert groups[i] == DesiredGroup(cfg, svc, svc.ports[i]);
    }
  }

  /** Whatever the service and the additional labels are, its plan asks for objects of its own only. */
  lemma PlanIsProper(cfg: Config, svc: Service, nodes: seq<Node>, subnets: seq<Subnet>)
    ensures Proper(PlanOf(cfg, svc, nodes, subnets))
  {
    GroupsCarried(cfg, svc);
  }

  /** A service's plan is sound exactly when its port numbers and its (protocol, node port) pairs are distinct. */
  lemma PlanSoundExactly(cfg: Config, svc: Service, nodes: seq<Node>, subnets: seq<Subnet>)
    ensures Sound(PlanOf(cfg, svc, nodes, subnets)) <==> DistinctPorts(svc) && DistinctNodePorts(svc)
  {
    GroupsCarried(cfg, svc);
    KeysDistinctExactly(cfg, svc);
  }

  /** The search for the group of port i's listener takes the group of port j. */
  predicate TakesGroupOf(cfg: Config, svc: Service, i: nat, j: nat)
    requires i < |svc.ports| && j < |svc.ports|
  {
    Matches(GroupLabels(cfg, svc, svc.ports[i].port, Lower(svc.ports[i].protocol)),
            GroupLabels(cfg, svc, svc.ports[j].port, svc.ports[j].protocol))
  }

  /** Searching groups by a listener's labels finds the group of its own port and no other. */
  predicate MatchingExact(cfg: Config, svc: Service) {
    forall i, j | 0 <= i < |svc.ports| && 0 <= j < |svc.ports| :: TakesGroupOf(cfg, svc, i, j) <==> i == j
  }

  predicate DistinctProtocols(svc: Service) {
    forall i, j | 0 <= i < j < |svc.ports| :: Lower(svc.ports[i].protocol) != Lower(svc.ports[j].protocol)
  }

  /** With distinct port numbers the matching is exact if and only if no additional label masks the port
      label, or there are no two ports, or no two have one protocol and no additional label masks the
      protocol label. */
  lemma MatchingExactly(cfg: Config, svc: Service)
    requires DistinctPorts(svc)
    ensures MatchingExact(cfg, svc)
       <==> || LABEL_PORT !in cfg.additionalLabels
            || |svc.ports| <= 1
            || (DistinctProtocols(svc) && LABEL_PROTOCOL !in cfg.additionalLabels)
  {
    hide GroupLabels, Matches, Lower;
    forall i, j | 0 <= i < |svc.ports| && 0 <= j < |svc.ports|
      ensures TakesGroupOf(cfg, svc, i, j)
         <==> && (i == j || LABEL_PORT in cfg.additionalLabels)
              && (Lower(svc.ports[i].protocol) == Lower(svc.ports[j].protocol)
                  || LABEL_PROTOCOL in cfg.additionalLabels)
    {
      var a, b := svc.ports[i], svc.ports[j];
      GroupLabelsOfLowered(cfg, svc, a.port, a.protocol);
      PortsConfusedExactly(cfg, svc, a.port, a.protocol, b.port, b.protocol);
    }
    if MatchingExact(cfg, svc) && |svc.ports| > 1 {
      assert !TakesGroupOf(cfg, svc, 0, 1);
      assert forall i, j | 0 <= i < j < |svc.ports| :: !TakesGroupOf(cfg, svc, i, j);
    }
  }
}
