/** pkg/provider/loadbalancer.go: ensuring, updating and deleting a service's load balancer. */
module Controller {
  import opened GoText
  import opened Kubernetes
  import opened Cloud
  import opened Plan
  import opened Runs
  import opened Metadata
  import opened Desired
  import opened TargetGroups
  import opened Listeners
  import opened LoadBalancers
  import opened NodeFilter

  // ---------------------------------------------------------------- what a reconcile promises

  /** What the code needs of a service to bring it up: distinct port numbers, distinct (protocol, node port)
      pairs, and labels that tell its ports apart. */
  predicate WellFormed(cfg: Config, svc: Service) {
    DistinctPorts(svc) && DistinctNodePorts(svc) && MatchingExact(cfg, svc)
  }

  /** Where a reconcile is promised to follow its plan: a well-formed service, with nothing there twice. */
  predicate Orderly(cfg: Config, svc: Service, s: State) {
    WellFormed(cfg, svc) && Inv(OwnerOf(cfg, svc), s)
  }

  /** The run a reconcile makes: it follows its plan where that is promised. */
  ghost function RunOf(cfg: Config, svc: Service, nodes: seq<Node>, subnets: seq<Subnet>, s: State): Run {
    if Orderly(cfg, svc, s) then Ensure(PlanOf(cfg, svc, nodes, subnets)) else Touch(OwnerOf(cfg, svc))
  }

  lemma PlanParts(cfg: Config, svc: Service, nodes: seq<Node>, subnets: seq<Subnet>, p: Plan)
    requires p == PlanOf(cfg, svc, nodes, subnets)
    ensures Proper(p) && |p.groups| == |p.listeners| && p.owner == OwnerOf(cfg, svc) && p.servers == Attachments(nodes)
    ensures PlansPorts(cfg, svc, p) && PlansLb(cfg, svc, subnets, p)
    ensures p.groups == DesiredGroups(cfg, svc) && p.listeners == DesiredListeners(cfg, svc)
  {
    hide Proper, MatchingExact, DesiredGroups, DesiredListeners, NewSg, NewLb, Attachments, OwnerOf;
    PlanIsProper(cfg, svc, nodes, subnets);
    ProperPlan(p);
  }

  lemma ProperPlan(p: Plan)
    requires Proper(p)
    ensures |p.groups| == |p.listeners|
  {}

  lemma RunOfIsFor(cfg: Config, svc: Service, nodes: seq<Node>, subnets: seq<Subnet>, s: State)
    ensures var run, p := RunOf(cfg, svc, nodes, subnets, s), PlanOf(cfg, svc, nodes, subnets);
            && For(run, p) && run.IsSound() && run.Owner() == p.owner && p.owner == OwnerOf(cfg, svc)
            && |p.groups| == |p.listeners| && (run.Ensure? <==> Orderly(cfg, svc, s))
               && (run.Ensure? ==> run == Ensure(p))
            && (run.Ensure? ==> Sound(p) && Inv(p.owner, s) && MatchingExact(cfg, svc))
  {
    hide Sound, Proper, MatchingExact, PlanOf, DistinctPorts, DistinctNodePorts, Inv, OwnerOf;
    PlanParts(cfg, svc, nodes, subnets, PlanOf(cfg, svc, nodes, subnets));
    PlanSoundExactly(cfg, svc, nodes, subnets);
  }

  /** From s to s' only the owner's objects were touched: nothing dangles, and everyone else's objects are
      what they were. */
  ghost predicate Touched(o: Owner, s: State, l: seq<Call>, s': State, l': seq<Call>) {
    Touch(o).IsSound() && Ran(Touch(o), s, l, s', l') && Safe(s') && Foreign(o, s') == Foreign(o, s)
  }

  /** From s to s' only calls were made that a reconcile of the service for these nodes plans to make. */
  ghost predicate Reconciled(cfg: Config, svc: Service, nodes: seq<Node>, subnets: seq<Subnet>,
                             s: State, l: seq<Call>, s': State, l': seq<Call>) {
    var p := PlanOf(cfg, svc, nodes, subnets);
    && Sound(p) && Ran(Ensure(p), s, l, s', l')
    && Inv(p.owner, s') && Foreign(p.owner, s') == Foreign(p.owner, s)
  }

  /** The cloud is as this version of the service wants it for these nodes. */
  ghost predicate Converged(cfg: Config, svc: Service, nodes: seq<Node>, subnets: seq<Subnet>, s: State) {
    var p := PlanOf(cfg, svc, nodes, subnets);
    Sound(p) && SettledSomewhere(p, s)
  }

  ghost predicate SettledSomewhere(p: Plan, s: State)
    requires |p.groups| == |p.listeners|
  {
    exists lb :: Settled(p, s, lb)
  }

  /** All that a reconcile of the service for these nodes did: it touched the service's objects only, and
      where that is promised it followed its plan and, if it succeeded, reached the wanted state. */
  ghost predicate Reconciles(cfg: Config, svc: Service, nodes: seq<Node>, subnets: seq<Subnet>,
                             s: State, l: seq<Call>, s': State, l': seq<Call>, ok: bool) {
    && Touched(OwnerOf(cfg, svc), s, l, s', l')
    && (Orderly(cfg, svc, s) ==>
          Reconciled(cfg, svc, nodes, subnets, s, l, s', l') && (ok ==> Converged(cfg, svc, nodes, subnets, s')))
  }

  lemma RunReconciles(cfg: Config, svc: Service, nodes: seq<Node>, subnets: seq<Subnet>,
                      s: State, l: seq<Call>, s': State, l': seq<Call>, ok: bool)
    requires Safe(s)
    requires var run, p := RunOf(cfg, svc, nodes, subnets, s), PlanOf(cfg, svc, nodes, subnets);
             && run.IsSound() && Ran(run, s, l, s', l') && |p.groups| == |p.listeners|
             && (ok && run.Ensure? ==> SettledSomewhere(p, s'))
    ensures Reconciles(cfg, svc, nodes, subnets, s, l, s', l', ok)
  {
    hide Sound, Safe, Orderly, MatchingExact, PlanOf, OwnerOf, Ran, Inv, Foreign, RunOf, SettledSomewhere, For;
    RunOfIsFor(cfg, svc, nodes, subnets, s);
    var run := RunOf(cfg, svc, nodes, subnets, s);
    RanIsHarmless(run, s, l, s', l');
    if run.Ensure? {
      RanKeepsInv(run, s, l, s', l');
    }
  }

  // ---------------------------------------------------------------- listeners and target groups

  /** Collecting the garbage leaves the listeners served and no stale group without listeners. */
  lemma CollectedSettles(p: Plan, s: State, tgs: seq<Item<GroupSpec>>, lb: string)
    requires Sound(p) && GroupsReady(p, s.groups, tgs) && WantedGroupsReady(p, s.groups) && ListenersSettled(p, s, lb)
    ensures MayCollect(Ensure(p), Values(tgs))
    ensures ListenersSettled(p, Collected(p.owner, s, Values(tgs)), lb)
            && GroupsSettled(p, Collected(p.owner, s, Values(tgs)))
  {
    ItemsAreWanted(p, s.groups, tgs);
    CollectedKeepsListeners(p, s, Values(tgs), lb);
    CollectedSettlesGroups(p, s, Values(tgs));
  }

  /** The groups handed on have exactly the wanted keys. */
  lemma ItemsAreWanted(p: Plan, groups: map<string, Group>, tgs: seq<Item<GroupSpec>>)
    requires GroupsReady(p, groups, tgs)
    ensures forall key :: HasSpec(Values(tgs), key) <==> WantsKey(p, key)
  {
    forall key | HasSpec(Values(tgs), key)
      ensures WantsKey(p, key)
    {
      var t :| 0 <= t < |tgs| && Values(tgs)[t].Key() == key;
      assert ReadyItem(p, groups, tgs[t]);
    }
    forall key | WantsKey(p, key)
      ensures HasSpec(Values(tgs), key)
    {
      var i :| 0 <= i < |p.groups| && p.groups[i].Key() == key;
      assert Provides(tgs, p.groups[i]);
      var t :| 0 <= t < |tgs| && tgs[t].value == p.groups[i];
      assert Values(tgs)[t].Key() == key;
    }
  }

  lemma UsedGroupStays(o: Owner, s: State, keep: seq<GroupSpec>, l: string)
    requires l in s.listeners && s.listeners[l].target in s.groups
    ensures var s', g := Collected(o, s, keep), s.listeners[l].target; g in s'.groups && s'.groups[g] == s.groups[g]
  {
    assert l in ListenersOf(s, s.listeners[l].target);
  }

  lemma CollectedKeepsListeners(p: Plan, s: State, keep: seq<GroupSpec>, lb: string)
    requires |p.groups| == |p.listeners| && ListenersSettled(p, s, lb)
    ensures ListenersSettled(p, Collected(p.owner, s, keep), lb)
  {
    hide Collected, ListenersOf;
    var s' := Collected(p.owner, s, keep);
    CollectedKeepsTheRest(p.owner, s, keep);
    forall i | 0 <= i < |p.listeners|
      ensures PortServed(p, s', lb, i)
    {
      assert PortServed(p, s, lb, i);
      var l :| l in s.listeners && s.listeners[l].lb == lb && s.listeners[l].spec == p.listeners[i]
               && ReadyGroup(p, s.groups, i, s.listeners[l].target);
      UsedGroupStays(p.owner, s, keep, l);
      assert s'.listeners[l] == s.listeners[l];
    }
    forall l | l in s'.listeners && s'.listeners[l].lb == lb
      ensures ReadyListener(p, s'.groups, s'.listeners[l].spec, s'.listeners[l].target)
    {
      var i :| 0 <= i < |p.listeners| && p.listeners[i] == s.listeners[l].spec
        && ReadyGroup(p, s.groups, i, s.listeners[l].target);
      UsedGroupStays(p.owner, s, keep, l);
      assert ReadyGroup(p, s'.groups, i, s'.listeners[l].target);
    }
  }

  lemma CollectedKeepsTheRest(o: Owner, s: State, keep: seq<GroupSpec>)
    ensures Collected(o, s, keep) == s.(groups := Collected(o, s, keep).groups)
  {}

  lemma CollectedSettlesGroups(p: Plan, s: State, keep: seq<GroupSpec>)
    requires WantedGroupsReady(p, s.groups) && forall key :: HasSpec(keep, key) <==> WantsKey(p, key)
    ensures GroupsSettled(p, Collected(p.owner, s, keep))
  {
    hide WantsKey, HasSpec;
    var s' := Collected(p.owner, s, keep);
    assert forall g :: ListenersOf(s', g) == ListenersOf(s, g);
  }

  /** The load balancer's own update leaves listeners and groups settled. */
  lemma LbUpdateKeepsSettled(p: Plan, s: State, s': State, lb: string)
    requires |p.groups| == |p.listeners| && ListenersSettled(p, s, lb) && GroupsSettled(p, s)
    requires s' == s.(lbs := s'.lbs, sgs := s'.sgs) && LbSettled(p, s', lb)
    ensures SettledSomewhere(p, s')
  {
    assert forall g :: ListenersOf(s', g) == ListenersOf(s, g);
    assert forall i | 0 <= i < |p.listeners| && PortServed(p, s, lb, i) :: PortServed(p, s', lb, i);
    assert Settled(p, s', lb);
  }

  /** The annotations ask for what there is: a known policy, and security groups of the VPC. */
  predicate CanBeMet(cfg: Config, svc: Service, s: State) {
    svc.settings.policy.Some? && InVpc(cfg, s.sgs, SecurityGroupsFor(svc))
  }

  lemma CanStillBeMet(cfg: Config, svc: Service, s: State, s': State)
    requires svc.settings.policy.Some? && s'.sgs == s.sgs
    ensures CanBeMet(cfg, svc, s) <==> InVpc(cfg, s'.sgs, SecurityGroupsFor(svc))
  {}

  lemma NeedsPolicy(cfg: Config, svc: Service, s: State)
    requires svc.settings.policy.None?
    ensures !CanBeMet(cfg, svc, s)
  {}

  /** The groups first, then the listeners that point to them, then the garbage, then the load balancer. */
  method UpdateVpcLoadbalancerListenersAndTargetGroups(cloud: Cloud, cfg: Config, svc: Service, nodes: seq<Node>,
                                                       lb: Item<LoadBalancer>, ghost p: Plan, ghost run: Run)
    returns (ok: bool)
    requires p == PlanOf(cfg, svc, nodes, cloud.subnets) && For(run, p) && run.IsSound() && |p.groups| == |p.listeners|
    requires Safe(cloud.now) && (run.Ensure? ==> Inv(p.owner, cloud.now) && MatchingExact(cfg, svc))
    requires lb.identity in cloud.now.lbs && cloud.now.lbs[lb.identity] == lb.value && OwnLb(p.owner, lb.value)
    modifies cloud
    ensures Ran(run, old(cloud.now), old(cloud.log), cloud.now, cloud.log)
    ensures ok ==> CanBeMet(cfg, svc, cloud.now) && cloud.failures == old(cloud.failures)
    ensures ok && run.Ensure? ==> SettledSomewhere(p, cloud.now)
    ensures ok ==> LbUpdated(cfg, svc, lb, cloud.now)
    ensures !ok ==> cloud.failures > old(cloud.failures) || !CanBeMet(cfg, svc, old(cloud.now))
  {
    hide *;
    PlanParts(cfg, svc, nodes, cloud.subnets, p);
    RunsFor(run, p);
    ghost var s0, l0 := cloud.now, cloud.log;
    RanNothing(run, s0, l0);
    var desiredListeners := DesiredVpcLoadbalancerListener(cfg, svc);
    var desiredTgs := GetDesiredVpcLoadbalancerTargetGroups(cfg, svc);
    if desiredTgs.Err? {
      NeedsPolicy(cfg, svc, s0);
      return false;
    }
    SafeParts(s0);
    var tgs := CreateOrUpdateTargetGroups(cloud, cfg, svc, p, run, desiredTgs.value, nodes);
    if tgs.Err? {
      return false;
    }
    ghost var s1, l1 := cloud.now, cloud.log;
    RanIsHarmless(run, s0, l0, s1, l1);
    SafeParts(s1);
    IsPrepared(cfg, svc, p, run, s1, lb.identity, tgs.value);
    ok := UpdateVpcLoadbalancerListener(cloud, cfg, svc, p, run, lb.identity, desiredListeners, tgs.value);
    RanOn(run, s0, l0, s1, l1, cloud.now, cloud.log);
    if !ok {
      return false;
    }
    ghost var s2, l2 := cloud.now, cloud.log;
    MayCollectGarbage(p, run, s2, tgs.value, lb.identity);
    CollectedKeepsTheRest(p.owner, s2, Values(tgs.value));
    CanStillBeMet(cfg, svc, s0, Collected(p.owner, s2, Values(tgs.value)));
    ok := CleanupUnusedTargetGroups(cloud, cfg, svc, run, Values(tgs.value));
    RanOn(run, s0, l0, s2, l2, cloud.now, cloud.log);
    if !ok {
      return false;
    }
    ghost var s3, l3 := cloud.now, cloud.log;
    if run.Ensure? {
      RanKeepsInv(run, s0, l0, s3, l3);
      InvParts(p.owner, s3);
    }
    ok := UpdateVpcLoadbalancer(cloud, cfg, svc, p, run, lb, desiredListeners);
    RanOn(run, s0, l0, s3, l3, cloud.now, cloud.log);
    if ok {
      CanStillBeMet(cfg, svc, cloud.now, cloud.now);
      if run.Ensure? {
        LbUpdateKeepsSettled(p, s3, cloud.now, lb.identity);
      }
    }
  }

  /** Any run may collect the garbage; one that follows the plan collects none that it planned. */
  lemma MayCollectGarbage(p: Plan, run: Run, s: State, tgs: seq<Item<GroupSpec>>, lb: string)
    requires For(run, p) && |p.groups| == |p.listeners|
    requires run.Ensure? ==>
               GroupsReady(p, s.groups, tgs) && WantedGroupsReady(p, s.groups) && ListenersSettled(p, s, lb)
    ensures MayCollect(run, Values(tgs))
    ensures run.Ensure? ==> ListenersSettled(p, Collected(p.owner, s, Values(tgs)), lb)
                            && GroupsSettled(p, Collected(p.owner, s, Values(tgs)))
  {
    hide GroupsReady, WantedGroupsReady, ListenersSettled, GroupsSettled, Collected, Sound, For;
    RunsFor(run, p);
    if run.Ensure? {
      CollectedSettles(p, s, tgs, lb);
    }
  }

  lemma SafeParts(s: State)
    requires Safe(s)
    ensures Named(s) && "" !in s.groups
  {}

  lemma InvParts(o: Owner, s: State)
    requires Inv(o, s)
    ensures Safe(s) && OneLb(o, s.lbs) && OneSg(o, s.sgs)
  {}

  lemma IsPrepared(cfg: Config, svc: Service, p: Plan, run: Run, s: State, lb: string, tgs: seq<Item<GroupSpec>>)
    requires For(run, p) && PlansPorts(cfg, svc, p)
             && (run.Ensure? ==> MatchingExact(cfg, svc) && GroupsReady(p, s.groups, tgs))
    requires lb in s.lbs && OwnLb(p.owner, s.lbs[lb]) && ItemsReady(p, s.groups, tgs)
    ensures Prepared(cfg, svc, p, run, s, lb, tgs)
  {}

  // ---------------------------------------------------------------- ensure and update

  /** What the service asks for can be had: a load balancer to update, or a subnet for a new one. */
  predicate Feasible(cfg: Config, svc: Service, subnets: seq<Subnet>, s: State) {
    CanBeMet(cfg, svc, s) && (HasLb(OwnerOf(cfg, svc), s) || ChooseSubnet(subnets, SubnetFor(cfg, svc)).Some?)
  }

  lemma CreateFeasible(cfg: Config, svc: Service, subnets: seq<Subnet>, s: State)
    requires !HasLb(OwnerOf(cfg, svc), s)
    ensures Feasible(cfg, svc, subnets, s) <==>
            svc.settings.policy.Some? && InVpc(cfg, s.sgs, SecurityGroupsFor(svc))
              && ChooseSubnet(subnets, SubnetFor(cfg, svc)).Some?
  {}

  lemma UpdateFeasible(cfg: Config, svc: Service, subnets: seq<Subnet>, s: State)
    ensures CanBeMet(cfg, svc, s) <==> svc.settings.policy.Some? && InVpc(cfg, s.sgs, SecurityGroupsFor(svc))
    ensures HasLb(OwnerOf(cfg, svc), s) ==> (Feasible(cfg, svc, subnets, s) <==> CanBeMet(cfg, svc, s))
  {}

  /** A load balancer of the service's is as the service asks for it, and it is in a subnet of the VPC exactly
      when the service asks for none or asks for one by its identity. */
  predicate HasLbCreated(cfg: Config, svc: Service, subnets: seq<Subnet>, s: State) {
    exists id :: id in s.lbs && LbInLine(cfg, svc, s, id) && LbAsked(cfg, svc, s.lbs[id])
                 && (IsSubnet(subnets, s.lbs[id].subnet) <==>
                     SubnetFor(cfg, svc) == "" || IsSubnet(subnets, SubnetFor(cfg, svc)))
  }

  lemma UpdatedHasLb(cfg: Config, svc: Service, lb: Item<LoadBalancer>, s: State)
    requires LbUpdated(cfg, svc, lb, s)
    ensures HasLb(OwnerOf(cfg, svc), s)
  {}

  lemma CreatedLb(cfg: Config, svc: Service, subnets: seq<Subnet>, sgs: map<string, SecurityGroup>, s: State,
                  created: Item<LoadBalancer>)
    requires ChooseSubnet(subnets, SubnetFor(cfg, svc)).Some?
    requires created.value.subnet == ChooseSubnet(subnets, SubnetFor(cfg, svc)).value.identity
    requires CreatedAsked(cfg, svc, subnets, sgs, created.value) && LbUpdated(cfg, svc, created, s)
    ensures HasLbCreated(cfg, svc, subnets, s)
    ensures created.identity in s.lbs && OwnLb(OwnerOf(cfg, svc), s.lbs[created.identity])
  {
    hide OwnLb, IsSubnet, ChooseSubnet, SubnetAfter, OwnerOf, AttachesAsked, SubnetAsked, LabelledFor;
    CreatedThenUpdated(cfg, svc, subnets, created.value);
  }

  /** Finds or creates the load balancer, then brings all of it in line with the service and the nodes
      that the endpoint slices admit, and for a new one waits until it is ready. Whatever the service asks
      for and whatever fails on the way, nothing dangles and others' objects are untouched. For a well-formed
      service only planned calls were made, and success means the cloud is as wanted. It fails only if a
      call fails, the wait takes too long, or the service asks for what is not there. */
  method EnsureLoadBalancer(cloud: Cloud, nodeFilter: NodeFilter, cfg: Config, svc: Service, nodes: seq<Node>)
    returns (ok: bool)
    requires Safe(cloud.now)
    modifies cloud, nodeFilter`failures
    ensures Reconciles(cfg, svc, Decide(svc, nodeFilter.cache).Apply(nodes), cloud.subnets,
                       old(cloud.now), old(cloud.log), cloud.now, cloud.log, ok)
    ensures ok ==> HasLb(OwnerOf(cfg, svc), cloud.now) && CanBeMet(cfg, svc, cloud.now)
    ensures ok && !HasLb(OwnerOf(cfg, svc), old(cloud.now)) ==> HasLbCreated(cfg, svc, cloud.subnets, cloud.now)
    ensures ok && !HasLb(OwnerOf(cfg, svc), old(cloud.now)) ==>
              SeenReady(OwnerOf(cfg, svc), cloud.now, cloud.lastStatus)
    ensures !ok ==> cloud.failures > old(cloud.failures) || nodeFilter.failures > old(nodeFilter.failures)
                    || !Feasible(cfg, svc, cloud.subnets, old(cloud.now))
  {
    hide *;
    ghost var s0, l0, admitted := cloud.now, cloud.log, Decide(svc, nodeFilter.cache).Apply(nodes);
    ghost var p, run := PlanOf(cfg, svc, admitted, cloud.subnets), RunOf(cfg, svc, admitted, cloud.subnets, s0);
    RunOfIsFor(cfg, svc, admitted, cloud.subnets, s0);
    PlanParts(cfg, svc, admitted, cloud.subnets, p);
    RanNothing(run, s0, l0);
    RunReconciles(cfg, svc, admitted, cloud.subnets, s0, l0, s0, l0, false);
    var found := FetchVpcLoadbalancerFromCloud(cloud, cfg, svc);
    if found.Err? {
      return false;
    }
    var filtered := nodeFilter.Filter(svc, nodes);
    if filtered.Err? {
      return false;
    }
    UpdateFeasible(cfg, svc, cloud.subnets, s0);
    var createdIdentity := "";
    if found.value.Some? {
      FoundIsOwn(cfg, svc, s0, found.value.value);
      ok := UpdateVpcLoadbalancerListenersAndTargetGroups(cloud, cfg, svc, filtered.value, found.value.value, p, run);
      if ok {
        UpdatedHasLb(cfg, svc, found.value.value, cloud.now);
      }
    } else {
      CreateFeasible(cfg, svc, cloud.subnets, s0);
      var created := CreateVpcLoadbalancer(cloud, cfg, svc, p, run);
      RunReconciles(cfg, svc, admitted, cloud.subnets, s0, l0, cloud.now, cloud.log, false);
      if created.Err? {
        return false;
      }
      ghost var s1, l1 := cloud.now, cloud.log;
      RanIsHarmless(run, s0, l0, s1, l1);
      if run.Ensure? {
        RanKeepsInv(run, s0, l0, s1, l1);
      }
      UpdateFeasible(cfg, svc, cloud.subnets, s1);
      ok := UpdateVpcLoadbalancerListenersAndTargetGroups(cloud, cfg, svc, filtered.value, created.value, p, run);
      RanOn(run, s0, l0, s1, l1, cloud.now, cloud.log);
      if ok {
        UpdatedHasLb(cfg, svc, created.value, cloud.now);
        CreatedLb(cfg, svc, cloud.subnets, s1.sgs, cloud.now, created.value);
        createdIdentity := created.value.identity;
      }
    }
    RunReconciles(cfg, svc, admitted, cloud.subnets, s0, l0, cloud.now, cloud.log, ok);
    RunReconciles(cfg, svc, admitted, cloud.subnets, s0, l0, cloud.now, cloud.log, false);
    if !ok {
      return false;
    }
    if found.value.None? {
      ok := WaitUntilReady(cloud, cfg, svc, createdIdentity);
    }
  }

  /** The status read last was that of a load balancer of the owner's, and it was ready. */
  predicate SeenReady(o: Owner, s: State, status: Option<(string, bool)>) {
    status.Some? && status.value.1 && status.value.0 in s.lbs && OwnLb(o, s.lbs[status.value.0])
  }

  lemma SeenOwn(cfg: Config, svc: Service, s: State, id: string)
    requires id in s.lbs && OwnLb(OwnerOf(cfg, svc), s.lbs[id])
    ensures SeenReady(OwnerOf(cfg, svc), s, Some((id, true)))
  {}

  /** The polling never meets a load balancer that is gone, and it succeeds only on seeing one of the service's
      that is ready. */
  method WaitUntilReady(cloud: Cloud, cfg: Config, svc: Service, created: string) returns (ok: bool)
    requires HasLb(OwnerOf(cfg, svc), cloud.now)
    requires created in cloud.now.lbs && OwnLb(OwnerOf(cfg, svc), cloud.now.lbs[created])
    modifies cloud`failures, cloud`lastStatus
    ensures cloud.failures == old(cloud.failures) + if ok then 0 else 1
    ensures ok ==> SeenReady(OwnerOf(cfg, svc), cloud.now, cloud.lastStatus)
  {
    hide *;
    var attempts: nat := *;
    while attempts > 0
      invariant cloud.failures == old(cloud.failures)
    {
      var createdReady := cloud.ShowsReady(created);
      if createdReady {
        SeenOwn(cfg, svc, cloud.now, created);
        return true;
      }
      var found := FetchVpcLoadbalancerFromCloud(cloud, cfg, svc);
      if found.Err? {
        return false;
      }
      var polled := found.value.value;
      FoundIsOwn(cfg, svc, cloud.now, polled);
      var polledReady := cloud.ShowsReady(polled.identity);
      if polledReady {
        SeenOwn(cfg, svc, cloud.now, polled.identity);
        return true;
      }
      attempts := attempts - 1;
    }
    cloud.TimeUp();
    return false;
  }

  method UpdateLoadBalancer(cloud: Cloud, nodeFilter: NodeFilter, cfg: Config, svc: Service, nodes: seq<Node>)
    returns (ok: bool)
    requires Safe(cloud.now)
    modifies cloud, nodeFilter`failures
    ensures Reconciles(cfg, svc, Decide(svc, nodeFilter.cache).Apply(nodes), cloud.subnets,
                       old(cloud.now), old(cloud.log), cloud.now, cloud.log, ok)
    ensures ok ==> HasLb(OwnerOf(cfg, svc), cloud.now) && CanBeMet(cfg, svc, cloud.now)
    ensures !ok ==> cloud.failures > old(cloud.failures) || nodeFilter.failures > old(nodeFilter.failures)
                    || !CanBeMet(cfg, svc, old(cloud.now)) || !HasLb(OwnerOf(cfg, svc), old(cloud.now))
    ensures !HasLb(OwnerOf(cfg, svc), old(cloud.now)) ==> !ok && cloud.now == old(cloud.now)
  {
    hide *;
    ghost var s0, l0, admitted := cloud.now, cloud.log, Decide(svc, nodeFilter.cache).Apply(nodes);
    ghost var p, run := PlanOf(cfg, svc, admitted, cloud.subnets), RunOf(cfg, svc, admitted, cloud.subnets, s0);
    RunOfIsFor(cfg, svc, admitted, cloud.subnets, s0);
    PlanParts(cfg, svc, admitted, cloud.subnets, p);
    RanNothing(run, s0, l0);
    RunReconciles(cfg, svc, admitted, cloud.subnets, s0, l0, s0, l0, false);
    var found := FetchVpcLoadbalancerFromCloud(cloud, cfg, svc);
    if found.Err? || found.value.None? {
      return false;
    }
    var filtered := nodeFilter.Filter(svc, nodes);
    if filtered.Err? {
      return false;
    }
    FoundIsOwn(cfg, svc, s0, found.value.value);
    ok := UpdateVpcLoadbalancerListenersAndTargetGroups(cloud, cfg, svc, filtered.value, found.value.value, p, run);
    if ok {
      UpdatedHasLb(cfg, svc, found.value.value, cloud.now);
    }
    RunReconciles(cfg, svc, admitted, cloud.subnets, s0, l0, cloud.now, cloud.log, ok);
  }

  // ---------------------------------------------------------------- delete

  lemma TeardownIsSound(o: Owner)
    ensures Teardown(o).IsSound() && Teardown(o).Owner() == o && MayCollect(Teardown(o), [])
  {}

  lemma LbMayBeDeleted(o: Owner, s: State, lb: string)
    requires lb in s.lbs && OwnLb(o, s.lbs[lb])
    ensures Teardown(o).IsSound() && Teardown(o).Allows(s, DeleteLb(lb))
  {}

  /** The groups of the service that no listener uses. */
  function Unused(o: Owner, s: State): set<string> {
    set id | id in s.groups && OwnGroup(o, s.groups[id]) && ListenersOf(s, id) == {}
  }

  lemma UnusedMayBeDeleted(o: Owner, s: State, items: seq<Item<ListedGroup>>, n: nat)
    requires n < |items| && items[n].identity in Unused(o, s)
    requires forall j, k | 0 <= j < k < |items| :: items[j].identity != items[k].identity
    ensures Teardown(o).IsSound()
    ensures Teardown(o).Allows(Without(s, JunkAmong(Unused(o, s), items, n)), DeleteGroup(items[n].identity))
  {
    hide Unused;
    UnusedMeans(o, s, items[n].identity);
    var s' := Without(s, JunkAmong(Unused(o, s), items, n));
    assert ListenersOf(s', items[n].identity) == ListenersOf(s, items[n].identity);
  }

  lemma UnusedMeans(o: Owner, s: State, id: string)
    ensures id in Unused(o, s) <==> id in s.groups && OwnGroup(o, s.groups[id]) && ListenersOf(s, id) == {}
  {}

  /** The listing by labels alone, of all VPCs, shows exactly the service's groups. */
  lemma ListedUnused(cfg: Config, svc: Service, s: State, items: seq<Item<ListedGroup>>)
    requires Lists(items, ListedGroups(s), GroupIds(s, None, LbLabels(cfg, svc)))
    ensures forall j, k | 0 <= j < k < |items| :: items[j].identity != items[k].identity
    ensures forall k | 0 <= k < |items| :: items[k].identity in Unused(OwnerOf(cfg, svc), s) <==>
            items[k].value.listeners == {}
    ensures JunkAmong(Unused(OwnerOf(cfg, svc), s), items, |items|) == Unused(OwnerOf(cfg, svc), s)
  {
    hide LbLabels, Carries, Matches, ListenersOf, JunkAmong;
    var o := OwnerOf(cfg, svc);
    assert forall id | id in s.groups :: id in GroupIds(s, None, LbLabels(cfg, svc)) <==> OwnGroup(o, s.groups[id]);
    AllJunk(Unused(o, s), items);
  }

  lemma UnusedGone(o: Owner, s: State)
    requires !HasLb(o, s)
    ensures TornDown(o, Without(s, Unused(o, s)))
  {
    var s' := Without(s, Unused(o, s));
    assert forall g :: ListenersOf(s', g) == ListenersOf(s, g);
  }

  /** Deletes every group of the service that no listener uses. */
  method DeleteUnusedTargetGroups(cloud: Cloud, cfg: Config, svc: Service) returns (ok: bool)
    requires Teardown(OwnerOf(cfg, svc)).IsSound()
    modifies cloud
    ensures Ran(Teardown(OwnerOf(cfg, svc)), old(cloud.now), old(cloud.log), cloud.now, cloud.log)
    ensures ok ==> cloud.now == Without(old(cloud.now), Unused(OwnerOf(cfg, svc), old(cloud.now)))
    ensures cloud.failures == old(cloud.failures) + if ok then 0 else 1
  {
    hide *;
    ghost var s0, l0, o := cloud.now, cloud.log, OwnerOf(cfg, svc);
    RanNothing(Teardown(o), s0, l0);
    var labels := GetLabelsForVpcLoadbalancer(cfg, svc);
    var listed := cloud.ListTargetGroups(None, labels);
    if listed.Err? {
      return false;
    }
    ListedUnused(cfg, svc, s0, listed.value);
    ghost var unused := Unused(o, s0);
    NoJunkYet(s0, unused, listed.value);
    var i := 0;
    while i < |listed.value|
      invariant 0 <= i <= |listed.value|
      invariant Ran(Teardown(o), s0, l0, cloud.now, cloud.log)
      invariant cloud.failures == old(cloud.failures)
      invariant cloud.now == Without(s0, JunkAmong(unused, listed.value, i))
    {
      var item := listed.value[i];
      OneMoreJunk(s0, unused, listed.value, i);
      i := i + 1;
      if item.value.listeners != {} {
        continue;
      }
      ghost var s1, l1 := cloud.now, cloud.log;
      UnusedMayBeDeleted(o, s0, listed.value, i - 1);
      var deleted := cloud.Send(DeleteGroup(item.identity));
      RanCall(Teardown(o), s0, l0, s1, l1, DeleteGroup(item.identity), deleted, cloud.now, cloud.log);
      if !deleted {
        return false;
      }
    }
    return true;
  }

  lemma SgMayBeDeleted(o: Owner, s: State, id: string)
    requires id in s.sgs && OwnSg(o, s.sgs[id])
    ensures Teardown(o).IsSound() && Teardown(o).Allows(s, DeleteSg(id))
    ensures OneSg(o, s.sgs) ==> Apply(s, DeleteSg(id)) == WithoutSgs(o, s)
    ensures TornDown(o, s) ==> TornDown(o, Apply(s, DeleteSg(id)))
  {
    hide OwnSg;
    var s' := Apply(s, DeleteSg(id));
    assert forall g :: ListenersOf(s', g) == ListenersOf(s, g);
  }

  predicate NoSg(o: Owner, s: State) {
    forall id | id in s.sgs :: !OwnSg(o, s.sgs[id])
  }

  /** The cloud without the owner's security groups. */
  function WithoutSgs(o: Owner, s: State): State {
    s.(sgs := ForeignSgs(o, s.sgs))
  }

  lemma NothingToDelete(cfg: Config, svc: Service, s: State)
    requires NoSg(OwnerOf(cfg, svc), s)
    ensures WithoutSgs(OwnerOf(cfg, svc), s) == s
  {
    assert ForeignSgs(OwnerOf(cfg, svc), s.sgs) == s.sgs;
  }

  /** Deletes the managed security group if it is found; failures are not reported to the caller. */
  method DeleteManagedSecurityGroup(cloud: Cloud, cfg: Config, svc: Service)
    requires Teardown(OwnerOf(cfg, svc)).IsSound()
    modifies cloud
    ensures Ran(Teardown(OwnerOf(cfg, svc)), old(cloud.now), old(cloud.log), cloud.now, cloud.log)
    ensures TornDown(OwnerOf(cfg, svc), old(cloud.now)) ==> TornDown(OwnerOf(cfg, svc), cloud.now)
    ensures cloud.failures >= old(cloud.failures)
    ensures cloud.failures == old(cloud.failures) && OneSg(OwnerOf(cfg, svc), old(cloud.now).sgs) ==>
              cloud.now == WithoutSgs(OwnerOf(cfg, svc), old(cloud.now))
  {
    hide Permitted, Ran, OneSg, TornDown, Apply, WithoutSgs;
    ghost var s, l, o := cloud.now, cloud.log, OwnerOf(cfg, svc);
    RanNothing(Teardown(o), s, l);
    var sg := FindManagedSecurityGroup(cloud, cfg, svc);
    if sg.Err? {
      return;
    }
    if sg.value.None? {
      assert cloud.now == s;
      NothingToDelete(cfg, svc, s);
      return;
    }
    var deleted := cloud.Send(DeleteSg(sg.value.value.identity));
    SgMayBeDeleted(o, s, sg.value.value.identity);
    RanCall(Teardown(o), s, l, s, l, DeleteSg(sg.value.value.identity), deleted, cloud.now, cloud.log);
  }

  /** From s to s' only calls were made that deleting the service may make; nothing dangles, and everyone
      else's objects are what they were, as after anything done for the service. */
  ghost predicate Deleted(cfg: Config, svc: Service, s: State, l: seq<Call>, s': State, l': seq<Call>) {
    var o := OwnerOf(cfg, svc);
    && Teardown(o).IsSound() && Ran(Teardown(o), s, l, s', l')
    && Touched(o, s, l, s', l') && (Inv(o, s) ==> Inv(o, s'))
  }

  lemma RunDeletes(cfg: Config, svc: Service, s: State, l: seq<Call>, s': State, l': seq<Call>)
    requires Safe(s) && Teardown(OwnerOf(cfg, svc)).IsSound() && Ran(Teardown(OwnerOf(cfg, svc)), s, l, s', l')
    ensures Deleted(cfg, svc, s, l, s', l')
  {
    hide Ran, Inv, Safe, Foreign;
    var o := OwnerOf(cfg, svc);
    TeardownIsSound(o);
    RanIsHarmless(Teardown(o), s, l, s', l');
    if Inv(o, s) {
      RanKeepsInv(Teardown(o), s, l, s', l');
    }
  }

  /** Polls until the load balancer is gone; failing reads are tried again until the time is up. */
  method WaitUntilGone(cloud: Cloud, cfg: Config, svc: Service) returns (ok: bool)
    modifies cloud`failures
    ensures ok ==> !HasLb(OwnerOf(cfg, svc), cloud.now)
    ensures cloud.failures >= old(cloud.failures) + if ok then 0 else 1
  {
    hide *;
    var attempts: nat := *;
    while attempts > 0
      invariant cloud.failures >= old(cloud.failures)
    {
      var found := FetchVpcLoadbalancerFromCloud(cloud, cfg, svc);
      if found.Ok? && found.value.None? {
        return true;
      }
      attempts := attempts - 1;
    }
    cloud.TimeUp();
    return false;
  }

  /** With one load balancer, deleting it leaves everyone else's listeners. */
  lemma LbGone(o: Owner, s: State, keep: seq<GroupSpec>, lb: string)
    requires Safe(s) && OneLb(o, s.lbs) && lb in s.lbs && OwnLb(o, s.lbs[lb])
    ensures var s' := Apply(Collected(o, s, keep), DeleteLb(lb));
            s'.lbs == ForeignLbs(o, s.lbs) && s'.listeners == ForeignListeners(o, s.lbs, s.listeners) && s'.sgs == s.sgs
  {
    hide OwnLb, Garbage;
  }

  /** If deleting one load balancer leaves none, it was the only one. */
  lemma OnlyOneGone(o: Owner, s: State, keep: seq<GroupSpec>, lb: string)
    requires !HasLb(o, Apply(Collected(o, s, keep), DeleteLb(lb)))
    ensures OneLb(o, s.lbs)
  {
    hide OwnLb, Garbage;
    var s' := Apply(Collected(o, s, keep), DeleteLb(lb));
    assert forall id | id in s.lbs && id != lb :: id in s'.lbs && s'.lbs[id] == s.lbs[id];
  }

  /** The steps of a delete in which nothing fails: the unused groups, the load balancer, the groups unused
      now, and the security group. */
  lemma PurgedInSteps(o: Owner, s: State, lb: string)
    requires Safe(s) && OneLb(o, s.lbs) && lb in s.lbs && OwnLb(o, s.lbs[lb])
    ensures var s' := Apply(Collected(o, s, []), DeleteLb(lb));
            var s'' := Without(s', Unused(o, s'));
            s''.sgs == s.sgs && WithoutSgs(o, s'') == Purged(o, s)
  {
    hide OwnLb, OwnGroup, OwnSg, ForeignLbs, ForeignListeners;
    LbGone(o, s, [], lb);
    var s1 := Collected(o, s, []);
    var s' := Apply(s1, DeleteLb(lb));
    forall id | id in s.groups
      ensures id in Without(s', Unused(o, s')).groups <==> id in Purged(o, s).groups
    {
      UsedAsPurged(o, s, s', id);
      assert id in s1.groups <==> !Garbage(o, s, [], id);
    }
    assert Without(s', Unused(o, s')).groups == Purged(o, s).groups;
  }

  lemma UsedAsPurged(o: Owner, s: State, s': State, id: string)
    requires s'.listeners == ForeignListeners(o, s.lbs, s.listeners)
    ensures ListenersOf(s', id) != {} <==> InUse(s'.listeners, id)
    ensures ListenersOf(s, id) == {} ==> ListenersOf(s', id) == {}
  {
    hide OwnLb;
    if l :| l in s'.listeners && s'.listeners[l].target == id {
      assert l in ListenersOf(s', id) && l in ListenersOf(s, id);
    }
  }

  lemma DeletedFromMeans(o: Owner, s: State)
    ensures DeletedFrom(o, s) == if HasLb(o, s) then Purged(o, s) else s
  {}

  /** Without a load balancer there is nothing to do, whatever else is left. With one, success means that
      it is gone and so is every group no listener uses, and it fails only if a call fails or the wait
      takes too long. If finding or deleting the security group fails, that is not reported. If no call
      fails, everything of the service's that nobody else uses is gone, and nothing else has changed. */
  method EnsureLoadBalancerDeleted(cloud: Cloud, cfg: Config, svc: Service) returns (ok: bool)
    requires Safe(cloud.now)
    modifies cloud
    ensures Deleted(cfg, svc, old(cloud.now), old(cloud.log), cloud.now, cloud.log)
    ensures !HasLb(OwnerOf(cfg, svc), old(cloud.now)) ==> cloud.now == old(cloud.now)
    ensures ok && HasLb(OwnerOf(cfg, svc), old(cloud.now)) ==> TornDown(OwnerOf(cfg, svc), cloud.now)
    ensures !ok ==> cloud.failures > old(cloud.failures)
    ensures cloud.failures == old(cloud.failures) && OneSg(OwnerOf(cfg, svc), old(cloud.now).sgs) ==>
              cloud.now == DeletedFrom(OwnerOf(cfg, svc), old(cloud.now))
  {
    hide *;
    ghost var s0, l0, o := cloud.now, cloud.log, OwnerOf(cfg, svc);
    TeardownIsSound(o);
    RanNothing(Teardown(o), s0, l0);
    RunDeletes(cfg, svc, s0, l0, s0, l0);
    DeletedFromMeans(o, s0);
    var found := FetchVpcLoadbalancerFromCloud(cloud, cfg, svc);
    if found.Err? {
      return false;
    }
    if found.value.None? {
      return true;
    }
    var lb := found.value.value.identity;
    FoundIsOwn(cfg, svc, s0, found.value.value);
    ok := CleanupUnusedTargetGroups(cloud, cfg, svc, Teardown(o), []);
    RunDeletes(cfg, svc, s0, l0, cloud.now, cloud.log);
    if !ok {
      return false;
    }
    ghost var s1, l1 := cloud.now, cloud.log;
    CollectedKeepsTheRest(o, s0, []);
    LbMayBeDeleted(o, s1, lb);
    ok := cloud.Send(DeleteLb(lb));
    WasIssued(s1, l1, DeleteLb(lb), ok, cloud.now, cloud.log);
    RanCall(Teardown(o), s0, l0, s1, l1, DeleteLb(lb), ok, cloud.now, cloud.log);
    RunDeletes(cfg, svc, s0, l0, cloud.now, cloud.log);
    if !ok {
      return false;
    }
    ok := WaitUntilGone(cloud, cfg, svc);
    if !ok {
      return false;
    }
    ghost var s2, l2 := cloud.now, cloud.log;
    ok := DeleteUnusedTargetGroups(cloud, cfg, svc);
    RanOn(Teardown(o), s0, l0, s2, l2, cloud.now, cloud.log);
    RunDeletes(cfg, svc, s0, l0, cloud.now, cloud.log);
    if !ok {
      return false;
    }
    UnusedGone(o, s2);
    ghost var s3, l3 := cloud.now, cloud.log;
    DeleteManagedSecurityGroup(cloud, cfg, svc);
    RanOn(Teardown(o), s0, l0, s3, l3, cloud.now, cloud.log);
    RunDeletes(cfg, svc, s0, l0, cloud.now, cloud.log);
    OnlyOneGone(o, s0, [], lb);
    PurgedInSteps(o, s0, lb);
    return true;
  }
}
