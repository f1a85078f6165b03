/** pkg/provider/loadbalancer.go: finding, creating and updating a service's load balancer and its
    managed security group. */
module LoadBalancers {
  import opened GoText
  import opened Kubernetes
  import opened Cloud
  import opened Plan
  import opened Runs
  import opened Metadata
  import opened Desired
  import SecurityRules

  // ---------------------------------------------------------------- finding

  /** The first of several objects whose labels match. */
  method FirstMatching(labels: Labels, all: seq<Labels>) returns (r: Option<nat>)
    ensures r.Some? ==> r.value < |all| && Matches(labels, all[r.value])
    ensures r.None? ==> forall j | 0 <= j < |all| :: !Matches(labels, all[j])
  {
    hide Matches;
    var i := 0;
    while i < |all|
      invariant 0 <= i <= |all|
      invariant forall j | 0 <= j < i :: !Matches(labels, all[j])
    {
      var matching := MatchLabels(labels, all[i]);
      if matching {
        return Some(i);
      }
      i := i + 1;
    }
    return None;
  }

  /** The first load balancer with the name. */
  method FirstNamed(name: string, lbs: seq<Item<LoadBalancer>>) returns (r: Option<nat>)
    ensures r.Some? ==> r.value < |lbs| && lbs[r.value].value.name == name
    ensures r.None? ==> forall j | 0 <= j < |lbs| :: lbs[j].value.name != name
  {
    var i := 0;
    while i < |lbs|
      invariant 0 <= i <= |lbs|
      invariant forall j | 0 <= j < i :: lbs[j].value.name != name
    {
      if lbs[i].value.name == name {
        return Some(i);
      }
      i := i + 1;
    }
    return None;
  }

  function LabelsOfLbs(lbs: seq<Item<LoadBalancer>>): (all: seq<Labels>)
    ensures |all| == |lbs| && forall i | 0 <= i < |lbs| :: all[i] == lbs[i].value.labels
  {
    seq(|lbs|, i requires 0 <= i < |lbs| => lbs[i].value.labels)
  }

  /** The object is a load balancer of the VPC that has the service's labels, or has its name when none
      has the labels. */
  ghost predicate FoundLb(cfg: Config, svc: Service, s: State, lb: Item<LoadBalancer>) {
    && lb.identity in s.lbs && s.lbs[lb.identity] == lb.value && lb.value.vpc == cfg.vpcIdentity
    && (Matches(LbLabels(cfg, svc), lb.value.labels) || (lb.value.name == svc.lbName && NoneLabelled(cfg, svc, s)))
  }

  ghost predicate NoneLabelled(cfg: Config, svc: Service, s: State) {
    forall id | id in s.lbs && s.lbs[id].vpc == cfg.vpcIdentity :: !Matches(LbLabels(cfg, svc), s.lbs[id].labels)
  }

  ghost predicate ListsLbs(cfg: Config, s: State, lbs: seq<Item<LoadBalancer>>) {
    Lists(lbs, s.lbs, LbIds(s, cfg.vpcIdentity))
  }

  lemma FoundByLabels(cfg: Config, svc: Service, s: State, lbs: seq<Item<LoadBalancer>>, i: nat)
    requires ListsLbs(cfg, s, lbs) && i < |lbs| && Matches(LbLabels(cfg, svc), LabelsOfLbs(lbs)[i])
    ensures FoundLb(cfg, svc, s, lbs[i])
  {
    hide LbLabels, Matches;
  }

  lemma NotFoundByLabels(cfg: Config, svc: Service, s: State, lbs: seq<Item<LoadBalancer>>)
    requires ListsLbs(cfg, s, lbs) && forall i | 0 <= i < |lbs| :: !Matches(LbLabels(cfg, svc), LabelsOfLbs(lbs)[i])
    ensures NoneLabelled(cfg, svc, s)
  {
    hide LbLabels, Matches;
    forall id | id in s.lbs && s.lbs[id].vpc == cfg.vpcIdentity
      ensures !Matches(LbLabels(cfg, svc), s.lbs[id].labels)
    {
      assert id in LbIds(s, cfg.vpcIdentity);
      var i :| 0 <= i < |lbs| && lbs[i].identity == id;
      assert LabelsOfLbs(lbs)[i] == s.lbs[id].labels;
    }
  }

  lemma FoundByName(cfg: Config, svc: Service, s: State, lbs: seq<Item<LoadBalancer>>, i: nat)
    requires ListsLbs(cfg, s, lbs) && i < |lbs| && lbs[i].value.name == svc.lbName && NoneLabelled(cfg, svc, s)
    ensures FoundLb(cfg, svc, s, lbs[i])
  {
    hide LbLabels, Matches, NoneLabelled;
  }

  lemma NotFound(cfg: Config, svc: Service, s: State, lbs: seq<Item<LoadBalancer>>)
    requires ListsLbs(cfg, s, lbs) && NoneLabelled(cfg, svc, s)
    requires forall i | 0 <= i < |lbs| :: lbs[i].value.name != svc.lbName
    ensures !HasLb(OwnerOf(cfg, svc), s)
  {
    hide LbLabels, Matches;
    forall id | id in s.lbs && s.lbs[id].vpc == cfg.vpcIdentity
      ensures s.lbs[id].name != svc.lbName
    {
      assert id in LbIds(s, cfg.vpcIdentity);
      var i :| 0 <= i < |lbs| && lbs[i].identity == id;
    }
  }

  lemma FoundIsOwn(cfg: Config, svc: Service, s: State, lb: Item<LoadBalancer>)
    requires FoundLb(cfg, svc, s, lb)
    ensures OwnLb(OwnerOf(cfg, svc), lb.value) && HasLb(OwnerOf(cfg, svc), s)
    ensures lb.identity in s.lbs && s.lbs[lb.identity] == lb.value
  {
    hide LbLabels, Matches, NoneLabelled;
  }

  /** Finds the service's load balancer by its labels, else by its name; there is none exactly when
      nothing is found. */
  method FetchVpcLoadbalancerFromCloud(cloud: Cloud, cfg: Config, svc: Service)
    returns (r: Result<Option<Item<LoadBalancer>>>)
    modifies cloud`failures
    ensures cloud.failures == old(cloud.failures) + if r.Ok? then 0 else 1
    ensures r.Ok? ==> (r.value.Some? <==> HasLb(OwnerOf(cfg, svc), cloud.now))
    ensures r.Ok? && r.value.Some? ==> FoundLb(cfg, svc, cloud.now, r.value.value)
  {
    hide *;
    var listed := cloud.ListLoadbalancers(cfg.vpcIdentity);
    if listed.Err? {
      return Err;
    }
    var lbs := listed.value;
    ListedLbs(cfg, cloud.now, lbs);
    var labels := GetLabelsForVpcLoadbalancer(cfg, svc);
    var all := LabelsOfLbs(lbs);
    var matching := FirstMatching(labels, all);
    if matching.Some? {
      FoundByLabels(cfg, svc, cloud.now, lbs, matching.value);
      FoundIsOwn(cfg, svc, cloud.now, lbs[matching.value]);
      return Ok(Some(lbs[matching.value]));
    }
    NotFoundByLabels(cfg, svc, cloud.now, lbs);
    var named := FirstNamed(svc.lbName, lbs);
    if named.Some? {
      FoundByName(cfg, svc, cloud.now, lbs, named.value);
      FoundIsOwn(cfg, svc, cloud.now, lbs[named.value]);
      return Ok(Some(lbs[named.value]));
    }
    NotFound(cfg, svc, cloud.now, lbs);
    return Ok(None);
  }

  lemma ListedLbs(cfg: Config, s: State, lbs: seq<Item<LoadBalancer>>)
    requires Lists(lbs, s.lbs, LbIds(s, cfg.vpcIdentity))
    ensures ListsLbs(cfg, s, lbs)
  {}

  // ---------------------------------------------------------------- security groups

  predicate InVpc(cfg: Config, sgs: map<string, SecurityGroup>, ids: seq<string>) {
    forall id | id in ids :: id in sgs && sgs[id].vpc == cfg.vpcIdentity
  }

  method IsListed(identity: string, items: seq<Item<SecurityGroup>>) returns (found: bool)
    ensures found <==> exists k :: 0 <= k < |items| && items[k].identity == identity
  {
    var k := 0;
    while k < |items|
      invariant 0 <= k <= |items|
      invariant forall j | 0 <= j < k :: items[j].identity != identity
    {
      if items[k].identity == identity {
        return true;
      }
      k := k + 1;
    }
    return false;
  }

  /** Whether all of the security groups exist in the VPC, unless the listing fails. */
  method VerifySecurityGroupsExist(cloud: Cloud, cfg: Config, securityGroups: seq<string>) returns (ok: bool)
    modifies cloud`failures
    ensures old(cloud.failures) <= cloud.failures && (cloud.failures > old(cloud.failures) ==> !ok)
    ensures cloud.failures == old(cloud.failures) ==> (ok <==> InVpc(cfg, cloud.now.sgs, securityGroups))
  {
    if |securityGroups| == 0 {
      return true;
    }
    var inVpc := cloud.ListSecurityGroups(cfg.vpcIdentity, None);
    if inVpc.Err? {
      return false;
    }
    var i := 0;
    while i < |securityGroups|
      invariant 0 <= i <= |securityGroups| && cloud.failures == old(cloud.failures)
      invariant forall j | 0 <= j < i :: securityGroups[j] in SgIds(cloud.now, cfg.vpcIdentity, None)
    {
      var found := IsListed(securityGroups[i], inVpc.value);
      if !found {
        assert securityGroups[i] in securityGroups && securityGroups[i] !in SgIds(cloud.now, cfg.vpcIdentity, None);
        return false;
      }
      i := i + 1;
    }
    return true;
  }

  function LabelsOfSgs(sgs: seq<Item<SecurityGroup>>): (all: seq<Labels>)
    ensures |all| == |sgs| && forall i | 0 <= i < |sgs| :: all[i] == sgs[i].value.labels
  {
    seq(|sgs|, i requires 0 <= i < |sgs| => sgs[i].value.labels)
  }

  /** The security groups listed by the service's labels are its own, and matchLabels agrees. */
  lemma ListedSgs(cfg: Config, svc: Service, s: State, sgs: seq<Item<SecurityGroup>>)
    requires Lists(sgs, s.sgs, SgIds(s, cfg.vpcIdentity, Some(LbLabels(cfg, svc))))
    ensures forall i | 0 <= i < |sgs| ::
              && sgs[i].identity in s.sgs && s.sgs[sgs[i].identity] == sgs[i].value
              && OwnSg(OwnerOf(cfg, svc), sgs[i].value)
    ensures sgs != [] ==> Matches(LbLabels(cfg, svc), LabelsOfSgs(sgs)[0])
    ensures sgs == [] ==> forall id | id in s.sgs :: !OwnSg(OwnerOf(cfg, svc), s.sgs[id])
  {
    hide LbLabels;
    forall id | id in s.sgs && OwnSg(OwnerOf(cfg, svc), s.sgs[id])
      ensures sgs != []
    {
      assert id in SgIds(s, cfg.vpcIdentity, Some(LbLabels(cfg, svc)));
    }
  }

  /** Finds the service's managed security group by its labels; there is none exactly when nothing is found. */
  method FindManagedSecurityGroup(cloud: Cloud, cfg: Config, svc: Service)
    returns (r: Result<Option<Item<SecurityGroup>>>)
    modifies cloud`failures
    ensures cloud.failures == old(cloud.failures) + if r.Ok? then 0 else 1
    ensures r.Ok? && r.value.None? ==> forall id | id in cloud.now.sgs :: !OwnSg(OwnerOf(cfg, svc), cloud.now.sgs[id])
    ensures r.Ok? && r.value.Some? ==>
              var sg := r.value.value;
              sg.identity in cloud.now.sgs && cloud.now.sgs[sg.identity] == sg.value
                && OwnSg(OwnerOf(cfg, svc), sg.value)
  {
    hide LbLabels, Matches, Lists;
    var labels := GetLabelsForVpcLoadbalancer(cfg, svc);
    var inVpc := cloud.ListSecurityGroups(cfg.vpcIdentity, Some(labels));
    if inVpc.Err? {
      return Err;
    }
    ListedSgs(cfg, svc, cloud.now, inVpc.value);
    var matching := FirstMatching(labels, LabelsOfSgs(inVpc.value));
    return Ok(if matching.Some? then Some(inVpc.value[matching.value]) else None);
  }

  /** The plan's load balancer and security group are those of this version of the service. */
  ghost predicate PlansLb(cfg: Config, svc: Service, subnets: seq<Subnet>, p: Plan) {
    && p.owner == OwnerOf(cfg, svc) && p.listeners == DesiredListeners(cfg, svc)
    && p.newSg == NewSg(cfg, svc) && p.newLb == NewLb(cfg, svc) && p.subnets == subnets
    && p.subnet == SubnetFor(cfg, svc) && p.securityGroups == SecurityGroupsFor(svc)
    && p.managed == svc.settings.createSecurityGroup && p.reservedIP == svc.settings.reservedIP
  }

  lemma PlansListeners(cfg: Config, svc: Service, subnets: seq<Subnet>, p: Plan)
    requires PlansLb(cfg, svc, subnets, p)
    ensures p.listeners == DesiredListeners(cfg, svc)
  {}

  /** The service's managed security groups are up to date. */
  predicate SgsSettled(p: Plan, sgs: map<string, SecurityGroup>) {
    forall id | id in sgs && OwnSg(p.owner, sgs[id]) :: sgs[id] == UpdatedSg(p, sgs[id])
  }

  /** A service that asks for a managed security group has no other than as it asks for it. */
  ghost predicate SgsInLine(cfg: Config, svc: Service, sgs: map<string, SecurityGroup>) {
    svc.settings.createSecurityGroup ==>
      forall id | id in sgs && OwnSg(OwnerOf(cfg, svc), sgs[id]) :: SgAsked(cfg, svc, sgs[id])
  }

  lemma SettledSgsAreInLine(cfg: Config, svc: Service, subnets: seq<Subnet>, p: Plan, sgs: map<string, SecurityGroup>)
    requires PlansLb(cfg, svc, subnets, p) && (p.managed ==> SgsSettled(p, sgs))
    ensures SgsInLine(cfg, svc, sgs)
  {
    hide OwnSg, OwnerOf, NewSg, NewLb, DesiredListeners, SecurityGroupsFor, SubnetFor, SgAsked;
    if p.managed {
      forall id | id in sgs && OwnSg(p.owner, sgs[id])
        ensures SgAsked(cfg, svc, sgs[id])
      {
        assert sgs[id] == UpdatedSg(p, sgs[id]);
        NewSgIsAsked(cfg, svc, sgs[id]);
      }
    }
  }

  /** Every security group is still there, in its VPC. */
  predicate SgsKept(sgs: map<string, SecurityGroup>, sgs': map<string, SecurityGroup>) {
    forall id | id in sgs :: id in sgs' && sgs'[id].vpc == sgs[id].vpc
  }

  lemma SgEnsured(p: Plan, run: Run, s: State, c: Call)
    requires For(run, p) && |p.groups| == |p.listeners| && MayChangeSgs(p, s, c)
    ensures run.IsSound() && run.Allows(s, c) && Apply(s, c) == s.(sgs := Apply(s, c).sgs)
    ensures c.id in Apply(s, c).sgs && OwnSg(p.owner, Apply(s, c).sgs[c.id]) && SgsKept(s.sgs, Apply(s, c).sgs)
    ensures OneSg(p.owner, s.sgs) ==> SgsSettled(p, Apply(s, c).sgs)
  {
    hide Run.Allows, Sound;
    PlannedIsAllowed(run, p, s, c);
  }

  /** A managed security group with one rule per listener and source, open to the outside. */
  method DesiredSecurityGroup(cfg: Config, svc: Service, desired: seq<ListenerSpec>) returns (sg: SecurityGroup)
    requires desired == DesiredListeners(cfg, svc)
    ensures sg == NewSg(cfg, svc) && SgAsked(cfg, svc, sg) && SgNamed(svc, sg) && sg.vpc == cfg.vpcIdentity
  {
    NewSgIsAsked(cfg, svc, NewSg(cfg, svc));
    NewSgIsNamed(cfg, svc);
    hide SgAsked, SgNamed, LabelledFor;
    hide DesiredListeners, LbLabels, SecurityRules.IngressRules;
    var labels := GetLabelsForVpcLoadbalancer(cfg, svc);
    var ingress := SecurityRules.BuildIngressRulesFromListeners(cfg.isIPv6, desired);
    sg := SecurityGroup(cfg.vpcIdentity, SecurityGroupName(svc.name),
                        "Security group for Kubernetes service " + svc.name, labels, map[], true, ingress, EGRESS);
  }

  /** The security group is there as the service asks for it; it has the name and description it was created
      with, and all others are as they were. */
  ghost predicate SgEnsuredAs(cfg: Config, svc: Service, before: map<string, SecurityGroup>,
                              sgs: map<string, SecurityGroup>, id: string) {
    && id in sgs && SgAsked(cfg, svc, sgs[id]) && sgs - {id} == before - {id}
    && (id in before ==> sgs[id].vpc == before[id].vpc && sgs[id].name == before[id].name
                         && sgs[id].description == before[id].description)
    && (id !in before ==> sgs[id].vpc == cfg.vpcIdentity && SgNamed(svc, sgs[id]))
  }

  lemma CreatedSgAsAsked(cfg: Config, svc: Service, s: State, id: string, sg: SecurityGroup)
    requires id !in s.sgs && SgAsked(cfg, svc, sg) && SgNamed(svc, sg) && sg.vpc == cfg.vpcIdentity
    ensures SgEnsuredAs(cfg, svc, s.sgs, Apply(s, CreateSg(id, sg)).sgs, id)
  {
    hide SgAsked, SgNamed;
  }

  lemma UpdatedSgAsAsked(cfg: Config, svc: Service, s: State, id: string, sg: SecurityGroup)
    requires id in s.sgs && SgAsked(cfg, svc, sg)
    requires sg.vpc == s.sgs[id].vpc && sg.name == s.sgs[id].name && sg.description == s.sgs[id].description
    ensures SgEnsuredAs(cfg, svc, s.sgs, Apply(s, UpdateSg(id, sg)).sgs, id)
  {
    hide SgAsked, SgNamed;
  }

  /** Only calls about security groups were made. */
  predicate OnlySgCalls(l: seq<Call>, l': seq<Call>) {
    |l| <= |l'| && l'[..|l|] == l && forall i | |l| <= i < |l'| :: l'[i].CreateSg? || l'[i].UpdateSg?
  }

  /** Creates the managed security group, or brings the rules of the existing one up to date. */
  method EnsureManagedSecurityGroup(cloud: Cloud, cfg: Config, svc: Service, ghost p: Plan, ghost run: Run,
                                    desired: seq<ListenerSpec>) returns (r: Result<string>)
    requires For(run, p) && run.IsSound() && |p.groups| == |p.listeners| && p.managed
    requires PlansLb(cfg, svc, cloud.subnets, p) && desired == p.listeners
    modifies cloud
    ensures Ran(run, old(cloud.now), old(cloud.log), cloud.now, cloud.log)
    ensures r.Ok? ==> cloud.now == old(cloud.now).(sgs := cloud.now.sgs)
    ensures r.Ok? ==> r.value in cloud.now.sgs && OwnSg(p.owner, cloud.now.sgs[r.value])
    ensures r.Ok? && OneSg(p.owner, old(cloud.now).sgs) ==> SgsSettled(p, cloud.now.sgs)
    ensures r.Ok? ==> SgsKept(old(cloud.now).sgs, cloud.now.sgs)
    ensures r.Ok? ==> SgEnsuredAs(cfg, svc, old(cloud.now).sgs, cloud.now.sgs, r.value)
    ensures OnlySgCalls(old(cloud.log), cloud.log)
    ensures cloud.failures == old(cloud.failures) + if r.Ok? then 0 else 1
  {
    hide Permitted, Ran, Run.IsSound, Run.Allows, For, OneSg, LbLabels, SgsSettled, DesiredListeners, NewSg, NewLb,
      OwnerOf, OwnSg, Apply, SgAsked, SgNamed, LabelledFor, SgEnsuredAs;
    ghost var s, l := cloud.now, cloud.log;
    RanNothing(run, s, l);
    var sg := FindManagedSecurityGroup(cloud, cfg, svc);
    if sg.Err? {
      return Err;
    }
    var wanted := DesiredSecurityGroup(cfg, svc, desired);
    if sg.value.None? {
      ghost var id;
      r, id := cloud.CreateSecurityGroup(wanted);
      SgEnsured(p, run, s, CreateSg(id, wanted));
      CreatedSgAsAsked(cfg, svc, s, id, wanted);
      RanCall(run, s, l, s, l, CreateSg(id, wanted), r.Ok?, cloud.now, cloud.log);
    } else {
      var found := sg.value.value;
      var update := wanted.(vpc := found.value.vpc, name := found.value.name, description := found.value.description);
      var updated := cloud.Send(UpdateSg(found.identity, update));
      SgEnsured(p, run, s, UpdateSg(found.identity, update));
      NewSgIsAsked(cfg, svc, update);
      UpdatedSgAsAsked(cfg, svc, s, found.identity, update);
      RanCall(run, s, l, s, l, UpdateSg(found.identity, update), updated, cloud.now, cloud.log);
      r := if updated then Ok(found.identity) else Err;
    }
  }

  // ---------------------------------------------------------------- creating the load balancer

  method ChooseVpcSubnet(subnets: seq<Subnet>, requested: string) returns (r: Option<Subnet>)
    ensures r == ChooseSubnet(subnets, requested)
  {
    if requested == "" {
      return if subnets == [] then None else Some(subnets[0]);
    }
    var i := 0;
    while i < |subnets|
      invariant 0 <= i <= |subnets|
      invariant ChooseSubnet(subnets, requested) == ChooseSubnet(subnets[i..], requested)
    {
      if subnets[i].identity == requested || subnets[i].slug == requested {
        return Some(subnets[i]);
      }
      assert subnets[i..][1..] == subnets[i + 1..];
      i := i + 1;
    }
    assert subnets[i..] == [];
    return None;
  }

  /** What ChooseSubnet finds: the first subnet with the requested identity or slug, or with nothing
      requested the first of all. */
  lemma {:induction false} ChosenSubnet(subnets: seq<Subnet>, requested: string)
    ensures ChooseSubnet(subnets, requested).None? <==>
            forall s | s in subnets :: requested != "" && s.identity != requested && s.slug != requested
    ensures var r := ChooseSubnet(subnets, requested);
            r.Some? ==> r.value in subnets
                        && (requested == "" || r.value.identity == requested || r.value.slug == requested)
    ensures ChooseSubnet(subnets, requested).Some? ==> FirstSubnet(subnets, requested)
  {
    if subnets != [] {
      ChosenSubnet(subnets[1..], requested);
      assert forall s :: s in subnets <==> s == subnets[0] || s in subnets[1..];
      if requested == "" || subnets[0].identity == requested || subnets[0].slug == requested {
        assert FirstSubnetAt(subnets, requested, 0);
      } else if ChooseSubnet(subnets[1..], requested).Some? {
        var i: nat :| FirstSubnetAt(subnets[1..], requested, i);
        assert FirstSubnetAt(subnets, requested, i + 1);
      }
    }
  }

  ghost predicate FirstSubnet(subnets: seq<Subnet>, requested: string) {
    exists i: nat :: FirstSubnetAt(subnets, requested, i)
  }

  /** The chosen subnet stands here, and no earlier one goes by the requested name. */
  predicate FirstSubnetAt(subnets: seq<Subnet>, requested: string, i: nat) {
    && i < |subnets| && ChooseSubnet(subnets, requested) == Some(subnets[i])
    && forall j | 0 <= j < i :: requested != "" && subnets[j].identity != requested && subnets[j].slug != requested
  }

  predicate IsSubnet(subnets: seq<Subnet>, identity: string) {
    exists s :: s in subnets && s.identity == identity
  }

  /** Where a load balancer is after its update: in the requested subnet, by whatever name, if there is one. */
  function SubnetAfter(cfg: Config, svc: Service, lb: LoadBalancer): string {
    if SubnetFor(cfg, svc) == "" then lb.subnet else SubnetFor(cfg, svc)
  }

  predicate InSubnet(o: Owner, lbs: map<string, LoadBalancer>, id: string, subnet: string) {
    id in lbs && OwnLb(o, lbs[id]) && lbs[id].subnet == subnet
  }

  /** A load balancer created in the chosen subnet and then updated is in a subnet of the VPC exactly when
      none was requested or one was requested by its identity. */
  lemma CreatedThenUpdated(cfg: Config, svc: Service, subnets: seq<Subnet>, lb: LoadBalancer)
    requires ChooseSubnet(subnets, SubnetFor(cfg, svc)).Some?
    requires lb.subnet == ChooseSubnet(subnets, SubnetFor(cfg, svc)).value.identity
    ensures IsSubnet(subnets, SubnetAfter(cfg, svc, lb)) <==>
            SubnetFor(cfg, svc) == "" || IsSubnet(subnets, SubnetFor(cfg, svc))
  {
    ChosenSubnet(subnets, SubnetFor(cfg, svc));
  }

  lemma StillInVpc(cfg: Config, sgs: map<string, SecurityGroup>, sgs': map<string, SecurityGroup>, ids: seq<string>)
    requires InVpc(cfg, sgs, ids) && SgsKept(sgs, sgs')
    ensures InVpc(cfg, sgs', ids)
  {}

  lemma SgsWanted(p: Plan, sgs: map<string, SecurityGroup>, managed: string)
    requires p.managed ==> managed in sgs && OwnSg(p.owner, sgs[managed])
    ensures WantedSgs(p, sgs, p.securityGroups + if p.managed then [managed] else [])
  {
    var all := p.securityGroups + [managed];
    assert all[..|all| - 1] == p.securityGroups;
    assert p.securityGroups + [] == p.securityGroups;
  }

  /** The security groups of the load balancer: those listed, which must exist, then the managed one. */
  method DesiredSecurityGroups(cloud: Cloud, cfg: Config, svc: Service, ghost p: Plan, ghost run: Run,
                               desired: seq<ListenerSpec>) returns (r: Result<seq<string>>)
    requires For(run, p) && run.IsSound() && |p.groups| == |p.listeners|
    requires PlansLb(cfg, svc, cloud.subnets, p) && desired == p.listeners
    modifies cloud
    ensures Ran(run, old(cloud.now), old(cloud.log), cloud.now, cloud.log)
    ensures r.Ok? ==> cloud.now == old(cloud.now).(sgs := cloud.now.sgs) && WantedSgs(p, cloud.now.sgs, r.value)
    ensures r.Ok? && p.managed && OneSg(p.owner, old(cloud.now).sgs) ==> SgsSettled(p, cloud.now.sgs)
    ensures r.Ok? ==> InVpc(cfg, cloud.now.sgs, SecurityGroupsFor(svc)) && cloud.failures == old(cloud.failures)
    ensures r.Err? ==> cloud.failures > old(cloud.failures) || !InVpc(cfg, old(cloud.now).sgs, SecurityGroupsFor(svc))
    ensures r.Ok? ==> AttachesAsked(cfg, svc, cloud.now.sgs, r.value)
    ensures OnlySgCalls(old(cloud.log), cloud.log)
  {
    hide Permitted, Ran, Run.IsSound, For, OneSg, SgsSettled, WantedSgs, NewSg, NewLb, OwnerOf, SecurityGroupsFor,
      InVpc, SgsKept, SgEnsuredAs, ListsSecurityGroups, OwnSg;
    SecurityGroupsAreListed(svc);
    RanNothing(run, cloud.now, cloud.log);
    var securityGroups := SecurityGroupsFor(svc);
    var exist := VerifySecurityGroupsExist(cloud, cfg, securityGroups);
    if !exist {
      return Err;
    }
    ghost var managed := "";
    if svc.settings.createSecurityGroup {
      var sg := EnsureManagedSecurityGroup(cloud, cfg, svc, p, run, desired);
      if sg.Err? {
        return Err;
      }
      StillInVpc(cfg, old(cloud.now).sgs, cloud.now.sgs, securityGroups);
      securityGroups := securityGroups + [sg.value];
      managed := sg.value;
    }
    SgsWanted(p, cloud.now.sgs, managed);
    assert SecurityGroupsFor(svc) + [] == SecurityGroupsFor(svc);
    return Ok(securityGroups);
  }

  /** The load balancer as created: the planned one, in the chosen subnet and with its security groups. */
  lemma LbMayBeCreated(cfg: Config, svc: Service, subnets: seq<Subnet>, p: Plan, run: Run, s: State, id: string,
                       create: LoadBalancer)
    requires For(run, p) && |p.groups| == |p.listeners| && PlansLb(cfg, svc, subnets, p)
    requires !HasLb(p.owner, s) && id != "" && id !in s.lbs
    requires ChooseSubnet(subnets, SubnetFor(cfg, svc)).Some? && WantedSgs(p, s.sgs, create.securityGroups)
    requires create == NewLb(cfg, svc).(subnet := ChooseSubnet(subnets, SubnetFor(cfg, svc)).value.identity,
                                        securityGroups := create.securityGroups)
    ensures run.IsSound() && run.Allows(s, CreateLb(id, create)) && OwnLb(p.owner, create)
    ensures Apply(s, CreateLb(id, create)) == s.(lbs := s.lbs[id := create])
  {
    hide WantedSgs, ChooseSubnet, SubnetFor, NewLb, NewSg, OwnerOf, DesiredListeners, SecurityGroupsFor, Run.Allows;
    PlannedIsAllowed(run, p, s, CreateLb(id, create));
  }

  /** The load balancer as the service asks for it to be created, field by field. */
  predicate CreatedAsked(cfg: Config, svc: Service, subnets: seq<Subnet>, sgs: map<string, SecurityGroup>,
                         lb: LoadBalancer) {
    LbAsked(cfg, svc, lb) && SubnetAsked(cfg, svc, subnets, lb.subnet)
      && AttachesAsked(cfg, svc, sgs, lb.securityGroups)
  }

  /** Every load balancer that was created, whether or not the answer came through, was created as asked. */
  predicate CreatesAsked(cfg: Config, svc: Service, subnets: seq<Subnet>, sgs: map<string, SecurityGroup>,
                         l: seq<Call>, l': seq<Call>) {
    |l| <= |l'| && forall i | |l| <= i < |l'| && l'[i].CreateLb? :: CreatedAsked(cfg, svc, subnets, sgs, l'[i].lb)
  }

  method CreateVpcLoadbalancer(cloud: Cloud, cfg: Config, svc: Service, ghost p: Plan, ghost run: Run)
    returns (r: Result<Item<LoadBalancer>>)
    requires For(run, p) && run.IsSound() && |p.groups| == |p.listeners| && PlansLb(cfg, svc, cloud.subnets, p)
    requires !HasLb(p.owner, cloud.now)
    modifies cloud
    ensures Ran(run, old(cloud.now), old(cloud.log), cloud.now, cloud.log)
    ensures r.Ok? ==>
              r.value.identity in cloud.now.lbs && cloud.now.lbs[r.value.identity] == r.value.value
              && OwnLb(p.owner, r.value.value)
    ensures r.Ok? ==> var subnet := ChooseSubnet(cloud.subnets, SubnetFor(cfg, svc));
                      subnet.Some? && r.value.value.subnet == subnet.value.identity
    ensures r.Ok? ==> CreatedAsked(cfg, svc, cloud.subnets, cloud.now.sgs, r.value.value)
    ensures CreatesAsked(cfg, svc, cloud.subnets, cloud.now.sgs, old(cloud.log), cloud.log)
    ensures r.Ok? ==> InVpc(cfg, cloud.now.sgs, SecurityGroupsFor(svc)) && cloud.failures == old(cloud.failures)
    ensures r.Err? ==> cloud.failures > old(cloud.failures) || !InVpc(cfg, old(cloud.now).sgs, SecurityGroupsFor(svc))
                       || ChooseSubnet(cloud.subnets, SubnetFor(cfg, svc)).None?
  {
    hide Permitted, Ran, For, Run.IsSound, OneSg, SgsSettled, WantedSgs, ChooseSubnet, LbLabels, SecurityGroupsFor,
      SubnetFor, InVpc, OwnLb, OwnerOf, NewSg, PlansLb, DesiredListeners, Apply, Run.Allows, ListenersAsked,
      LabelledFor, LbAsked, SubnetAsked, AttachesAsked;
    PlansListeners(cfg, svc, cloud.subnets, p);
    ghost var s0, l0 := cloud.now, cloud.log;
    RanNothing(run, s0, l0);
    var subnets := cloud.GetVpcSubnets();
    if subnets.Err? {
      return Err;
    }
    var subnet := ChooseVpcSubnet(subnets.value, SubnetFor(cfg, svc));
    if subnet.None? {
      return Err;
    }
    var labels := GetLabelsForVpcLoadbalancer(cfg, svc);
    var desired := DesiredVpcLoadbalancerListener(cfg, svc);
    var securityGroups := DesiredSecurityGroups(cloud, cfg, svc, p, run, desired);
    if securityGroups.Err? {
      return Err;
    }
    ghost var s1, l1 := cloud.now, cloud.log;
    var create := LoadBalancer(cfg.vpcIdentity, svc.lbName, "Loadbalancer for Kubernetes service " + svc.name, labels,
                               map[], subnet.value.identity, svc.settings.internal, securityGroups.value,
                               svc.settings.reservedIP);
    var created;
    ghost var id;
    created, id := cloud.CreateLoadbalancer(create);
    LbMayBeCreated(cfg, svc, cloud.subnets, p, run, s1, id, create);
    ChosenIsAsked(cfg, svc, cloud.subnets);
    NewLbIsAsked(cfg, svc, create);
    RanCall(run, s0, l0, s1, l1, CreateLb(id, create), created.Ok?, cloud.now, cloud.log);
    return if created.Ok? then Ok(Item(created.value, create)) else Err;
  }

  // ---------------------------------------------------------------- updating the load balancer

  /** The update moves the load balancer to the wanted subnet, security groups and reserved address. */
  lemma UpdateSettlesLb(p: Plan, run: Run, s: State, lb: string, securityGroups: seq<string>)
    requires For(run, p) && |p.groups| == |p.listeners| && lb in s.lbs && OwnLb(p.owner, s.lbs[lb])
    requires WantedSgs(p, s.sgs, securityGroups)
    ensures run.IsSound()
    ensures var wanted := s.lbs[lb].(subnet := if p.subnet == "" then s.lbs[lb].subnet else p.subnet,
                                     securityGroups := securityGroups, reservedIP := p.reservedIP);
            && run.Allows(s, UpdateLb(lb, wanted)) && OwnLb(p.owner, wanted)
            && Apply(s, UpdateLb(lb, wanted)) == s.(lbs := s.lbs[lb := wanted])
            && ((p.managed ==> SgsSettled(p, s.sgs)) ==>
                  LbSettled(p, Apply(s, UpdateLb(lb, wanted)), lb) && (s.lbs[lb] == wanted ==> LbSettled(p, s, lb)))
  {
    hide WantedSgs, Sound, Run.Allows;
    var wanted := s.lbs[lb].(subnet := if p.subnet == "" then s.lbs[lb].subnet else p.subnet,
                             securityGroups := securityGroups, reservedIP := p.reservedIP);
    PlannedIsAllowed(run, p, s, UpdateLb(lb, wanted));
  }

  /** The load balancer is in line with the service, in its subnet or else where it was, and otherwise as it was. */
  predicate LbUpdated(cfg: Config, svc: Service, lb: Item<LoadBalancer>, s: State) {
    && LbInLine(cfg, svc, s, lb.identity) && SameMaking(lb.value, s.lbs[lb.identity])
    && InSubnet(OwnerOf(cfg, svc), s.lbs, lb.identity, SubnetAfter(cfg, svc, lb.value))
  }

  lemma UpdateBringsInLine(cfg: Config, svc: Service, subnets: seq<Subnet>, p: Plan, s: State, lb: string,
                           securityGroups: seq<string>)
    requires PlansLb(cfg, svc, subnets, p) && lb in s.lbs && OwnLb(p.owner, s.lbs[lb])
    requires AttachesAsked(cfg, svc, s.sgs, securityGroups)
    ensures var wanted := s.lbs[lb].(subnet := if p.subnet == "" then s.lbs[lb].subnet else p.subnet,
                                     securityGroups := securityGroups, reservedIP := p.reservedIP);
            && LbUpdated(cfg, svc, Item(lb, s.lbs[lb]), Apply(s, UpdateLb(lb, wanted)))
            && (s.lbs[lb] == wanted ==> LbUpdated(cfg, svc, Item(lb, s.lbs[lb]), s))
  {
    hide AttachesAsked, OwnerOf, NewLb, NewSg, DesiredListeners, SecurityGroupsFor;
  }

  /** Brings the load balancer and its managed security group up to date; an update is sent only if
      something differs. */
  method UpdateVpcLoadbalancer(cloud: Cloud, cfg: Config, svc: Service, ghost p: Plan, ghost run: Run,
                               lb: Item<LoadBalancer>, desired: seq<ListenerSpec>) returns (ok: bool)
    requires For(run, p) && run.IsSound() && |p.groups| == |p.listeners|
    requires PlansLb(cfg, svc, cloud.subnets, p) && desired == p.listeners
    requires lb.identity in cloud.now.lbs && cloud.now.lbs[lb.identity] == lb.value && OwnLb(p.owner, lb.value)
    modifies cloud
    ensures Ran(run, old(cloud.now), old(cloud.log), cloud.now, cloud.log)
    ensures ok ==> cloud.now == old(cloud.now).(lbs := cloud.now.lbs, sgs := cloud.now.sgs)
    ensures ok && OneSg(p.owner, old(cloud.now).sgs) ==> LbSettled(p, cloud.now, lb.identity)
    ensures ok ==> LbUpdated(cfg, svc, lb, cloud.now)
    ensures ok && OneSg(p.owner, old(cloud.now).sgs) ==> SgsInLine(cfg, svc, cloud.now.sgs)
    ensures ok ==> InVpc(cfg, cloud.now.sgs, SecurityGroupsFor(svc)) && cloud.failures == old(cloud.failures)
    ensures !ok ==> cloud.failures > old(cloud.failures) || !InVpc(cfg, old(cloud.now).sgs, SecurityGroupsFor(svc))
  {
    hide Permitted, Ran, For, Run.IsSound, Run.Allows, OneSg, SgsSettled, WantedSgs, NewSg, NewLb, OwnLb, OwnerOf,
      LbSettled, SecurityGroupsFor, InVpc, SubnetFor, Apply, AttachesAsked, SgsInLine, LbUpdated;
    ghost var s0, l0 := cloud.now, cloud.log;
    RanNothing(run, s0, l0);
    var securityGroups := DesiredSecurityGroups(cloud, cfg, svc, p, run, desired);
    if securityGroups.Err? {
      return false;
    }
    ghost var s1, l1 := cloud.now, cloud.log;
    var preferredSubnet := SubnetFor(cfg, svc);
    if preferredSubnet == "" {
      preferredSubnet := lb.value.subnet;
    }
    UpdateSettlesLb(p, run, s1, lb.identity, securityGroups.value);
    UpdateBringsInLine(cfg, svc, cloud.subnets, p, s1, lb.identity, securityGroups.value);
    if p.managed ==> SgsSettled(p, s1.sgs) {
      SettledSgsAreInLine(cfg, svc, cloud.subnets, p, s1.sgs);
    }
    var sgNeedsUpdate := securityGroups.value != lb.value.securityGroups;
    var subnetNeedsUpdate := lb.value.subnet != preferredSubnet;
    var reservedIPNeedsUpdate := svc.settings.reservedIP != lb.value.reservedIP;
    if sgNeedsUpdate || subnetNeedsUpdate || reservedIPNeedsUpdate {
      var update := lb.value.(subnet := preferredSubnet, securityGroups := securityGroups.value);
      if reservedIPNeedsUpdate {
        update := update.(reservedIP := svc.settings.reservedIP);
      }
      ok := cloud.Send(UpdateLb(lb.identity, update));
      RanCall(run, s0, l0, s1, l1, UpdateLb(lb.identity, update), ok, cloud.now, cloud.log);
      return;
    }
    return true;
  }
}
