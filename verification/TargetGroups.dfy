/** pkg/provider/loadbalancer_targetgroups.go: creating, updating and cleaning up a service's target groups. */
module TargetGroups {
  import opened GoText
  import opened Kubernetes
  import opened Cloud
  import opened Plan
  import opened Runs
  import opened Metadata
  import opened Desired

  // ---------------------------------------------------------------- maps keyed by "protocol:port"

  /** The map a loop over target groups builds; the last of several groups with one key stays. */
  function KeyMap(specs: seq<GroupSpec>): map<string, GroupSpec> {
    if specs == [] then map[]
    else
      var last := specs[|specs| - 1];
      KeyMap(specs[..|specs| - 1])[GroupKey(last.protocol, last.targetPort) := last]
  }

  predicate DistinctKeys(specs: seq<GroupSpec>) {
    forall i, j | 0 <= i < j < |specs| :: specs[i].Key() != specs[j].Key()
  }

  method IndexByKey(specs: seq<GroupSpec>) returns (m: map<string, GroupSpec>)
    ensures m == KeyMap(specs)
  {
    m := map[];
    var i := 0;
    while i < |specs|
      invariant 0 <= i <= |specs|
      invariant m == KeyMap(specs[..i])
    {
      assert specs[..i + 1][..i] == specs[..i];
      m := m[GroupKey(specs[i].protocol, specs[i].targetPort) := specs[i]];
      i := i + 1;
    }
    assert specs[..i] == specs;
  }

  /** A key is in the map exactly when some group has that protocol and port, and then it holds such a group. */
  lemma {:induction false} KeyMapLookup(specs: seq<GroupSpec>, protocol: string, port: int)
    ensures var key := GroupKey(protocol, port);
            && (key in KeyMap(specs) <==> exists i :: 0 <= i < |specs| && specs[i].Key() == (protocol, port))
            && (key in KeyMap(specs) ==> KeyMap(specs)[key] in specs && KeyMap(specs)[key].Key() == (protocol, port))
  {
    if specs != [] {
      var init, last := specs[..|specs| - 1], specs[|specs| - 1];
      assert specs == init + [last];
      KeyMapLookup(init, protocol, port);
      GroupKeyInjective(protocol, port, last.protocol, last.targetPort);
    }
  }

  /** The map gives every group back under its own key exactly when the keys are distinct. */
  lemma {:induction false} KeyMapFaithfulExactly(specs: seq<GroupSpec>)
    requires forall i, j | 0 <= i < j < |specs| :: specs[i] != specs[j]
    ensures (forall i | 0 <= i < |specs| :: var key := GroupKey(specs[i].protocol, specs[i].targetPort);
                                            key in KeyMap(specs) && KeyMap(specs)[key] == specs[i])
       <==> DistinctKeys(specs)
  {
    forall i | 0 <= i < |specs|
      ensures var key := GroupKey(specs[i].protocol, specs[i].targetPort);
              key in KeyMap(specs) && KeyMap(specs)[key] in specs && KeyMap(specs)[key].Key() == specs[i].Key()
    {
      KeyMapLookup(specs, specs[i].protocol, specs[i].targetPort);
    }
    forall i, j | 0 <= i < j < |specs| && specs[i].Key() == specs[j].Key()
      ensures GroupKey(specs[i].protocol, specs[i].targetPort) == GroupKey(specs[j].protocol, specs[j].targetPort)
    {
      GroupKeyInjective(specs[i].protocol, specs[i].targetPort, specs[j].protocol, specs[j].targetPort);
    }
  }

  /** Without allocated node ports, all node ports are 0 and all TCP ports share one entry of the map. */
  lemma NoNodePortsOneGroup(cfg: Config, svc: Service)
    requires svc.ports == [ServicePort("http", "TCP", 80, 0), ServicePort("https", "TCP", 443, 0)]
    ensures !DistinctNodePorts(svc)
    ensures KeyMap(DesiredGroups(cfg, svc)) == map[GroupKey(Lower("TCP"), 0) := DesiredGroup(cfg, svc, svc.ports[1])]
  {
    hide DesiredGroup, GroupKey, Lower;
    assert (Lower(svc.ports[0].protocol), svc.ports[0].nodePort)
        == (Lower(svc.ports[1].protocol), svc.ports[1].nodePort);
    var specs := DesiredGroups(cfg, svc);
    DesiredGroupKey(cfg, svc, svc.ports[0]);
    DesiredGroupKey(cfg, svc, svc.ports[1]);
    assert specs[..1][..0] == [] && KeyMap(specs[..1]) == map[GroupKey(Lower("TCP"), 0) := specs[0]];
  }

  lemma DesiredGroupKey(cfg: Config, svc: Service, port: ServicePort)
    ensures DesiredGroup(cfg, svc, port).protocol == Lower(port.protocol)
            && DesiredGroup(cfg, svc, port).targetPort == port.nodePort
  {}

  /** The plan's own map: it finds exactly the wanted keys, and under each the planned group. */
  lemma PlanLookup(p: Plan, protocol: string, port: int)
    ensures var key := GroupKey(protocol, port);
            && (key in KeyMap(p.groups) <==> WantsKey(p, (protocol, port)))
            && (key in KeyMap(p.groups) ==>
                  WantsGroup(p, KeyMap(p.groups)[key]) && KeyMap(p.groups)[key].Key() == (protocol, port))
  {
    KeyMapLookup(p.groups, protocol, port);
  }

  function Specs(items: seq<Item<ListedGroup>>): (specs: seq<GroupSpec>)
    ensures |specs| == |items|
    ensures forall i | 0 <= i < |specs| :: specs[i] == items[i].value.group.spec
  {
    seq(|items|, i requires 0 <= i < |items| => items[i].value.group.spec)
  }

  function Values(tgs: seq<Item<GroupSpec>>): (specs: seq<GroupSpec>)
    ensures |specs| == |tgs|
    ensures forall i | 0 <= i < |specs| :: specs[i] == tgs[i].value
  {
    seq(|tgs|, i requires 0 <= i < |tgs| => tgs[i].value)
  }

  // ---------------------------------------------------------------- one group

  /** A group the plan wants may be attached its servers, and one of a wanted key be brought up to date,
      by every run for the plan. */
  lemma GroupMayBeChanged(run: Run, p: Plan, s: State, id: string, spec: GroupSpec)
    requires For(run, p) && id in s.groups && OwnGroupHere(p.owner, s.groups[id])
    ensures run.IsSound()
    ensures WantsGroup(p, s.groups[id].spec) ==> run.Allows(s, SetAttachments(id, p.servers))
    ensures WantsGroup(p, spec) && spec.Key() == s.groups[id].spec.Key() ==> run.Allows(s, UpdateGroup(id, spec))
    ensures WantsGroup(p, spec) ==>
              var s' := Apply(s, UpdateGroup(id, spec));
              id in s'.groups && s'.groups[id].spec == spec && OwnGroupHere(p.owner, s'.groups[id])
  {
    hide WantsKey, ListenersOf, Sound;
    RunsFor(run, p);
    if WantsGroup(p, s.groups[id].spec) {
      PlannedIsAllowed(run, p, s, SetAttachments(id, p.servers));
    }
    if WantsGroup(p, spec) && spec.Key() == s.groups[id].spec.Key() {
      PlannedIsAllowed(run, p, s, UpdateGroup(id, spec));
    }
  }

  /** A group may be created by any run; one that follows the plan creates it only if its key is not there. */
  lemma GroupMayBeCreated(run: Run, p: Plan, s: State, id: string, spec: GroupSpec)
    requires For(run, p) && WantsGroup(p, spec) && id != "" && id !in s.groups
    requires run.Ensure? ==> !HasKey(p.owner, s.groups, spec.Key())
    ensures run.IsSound() && run.Allows(s, CreateGroup(id, Group(p.owner.vpc, spec, [])))
    ensures OwnGroupHere(p.owner, Group(p.owner.vpc, spec, []))
  {
    hide WantsKey, Sound;
    RunsFor(run, p);
  }

  /** Sets the attachments of one of the service's groups to the nodes' machines. */
  method UpgradeTargetGroupAttachments(cloud: Cloud, ghost p: Plan, ghost run: Run, identity: string, nodes: seq<Node>)
    returns (ok: bool)
    requires For(run, p) && run.IsSound() && p.servers == Attachments(nodes)
    requires identity in cloud.now.groups
    requires OwnGroupHere(p.owner, cloud.now.groups[identity]) && WantsGroup(p, cloud.now.groups[identity].spec)
    modifies cloud
    ensures cloud.failures == old(cloud.failures) + if ok then 0 else 1
    ensures Ran(run, old(cloud.now), old(cloud.log), cloud.now, cloud.log)
    ensures ok ==> cloud.now == Apply(old(cloud.now), SetAttachments(identity, p.servers))
  {
    hide Permitted, Attachments, WantsKey, WantsGroup, For, Run.Allows, Run.IsSound, OwnGroup, Ran;
    RanNothing(run, cloud.now, cloud.log);
    var attachments := AttachTargets(nodes);
    GroupMayBeChanged(run, p, cloud.now, identity, cloud.now.groups[identity].spec);
    ok := cloud.Send(SetAttachments(identity, attachments));
    RanCall(run, old(cloud.now), old(cloud.log), old(cloud.now), old(cloud.log),
            SetAttachments(identity, attachments), ok, cloud.now, cloud.log);
  }

  /** Creates a wanted group that the service does not have yet and attaches the servers. */
  method CreateAndAttach(cloud: Cloud, cfg: Config, ghost p: Plan, ghost run: Run, spec: GroupSpec, nodes: seq<Node>)
    returns (r: Result<string>)
    requires For(run, p) && run.IsSound() && p.servers == Attachments(nodes) && p.owner.vpc == cfg.vpcIdentity
    requires WantsGroup(p, spec) && (run.Ensure? ==> !HasKey(p.owner, cloud.now.groups, spec.Key()))
    modifies cloud
    ensures cloud.failures == old(cloud.failures) + if r.Ok? then 0 else 1
    ensures Ran(run, old(cloud.now), old(cloud.log), cloud.now, cloud.log)
    ensures r.Ok? ==> r.value != "" && r.value !in old(cloud.now).groups
    ensures r.Ok? ==>
              cloud.now == old(cloud.now).(groups :=
                old(cloud.now).groups[r.value := Group(cfg.vpcIdentity, spec, p.servers)])
  {
    hide Permitted, Attachments, WantsKey, WantsGroup, HasKey, For, Run.Allows, Run.IsSound, OwnGroup, Ran;
    RanNothing(run, cloud.now, cloud.log);
    ghost var s0, l0 := cloud.now, cloud.log;
    ghost var id;
    r, id := cloud.CreateTargetGroup(Group(cfg.vpcIdentity, spec, []));
    GroupMayBeCreated(run, p, s0, id, spec);
    RanCall(run, s0, l0, s0, l0, CreateGroup(id, Group(cfg.vpcIdentity, spec, [])), r.Ok?, cloud.now, cloud.log);
    if r.Err? {
      return Err;
    }
    ghost var s1, l1 := cloud.now, cloud.log;
    assert s1.groups[id] == Group(cfg.vpcIdentity, spec, []);
    var attached := UpgradeTargetGroupAttachments(cloud, p, run, r.value, nodes);
    RanOn(run, s0, l0, s1, l1, cloud.now, cloud.log);
    if !attached {
      return Err;
    }
  }

  /** Brings a group of the service with a wanted key up to date and attaches the servers. */
  method UpdateAndAttach(cloud: Cloud, ghost p: Plan, ghost run: Run, identity: string, spec: GroupSpec,
                         nodes: seq<Node>)
    returns (ok: bool)
    requires For(run, p) && run.IsSound() && p.servers == Attachments(nodes) && WantsGroup(p, spec)
    requires identity in cloud.now.groups && OwnGroupHere(p.owner, cloud.now.groups[identity])
    requires cloud.now.groups[identity].spec.Key() == spec.Key()
    modifies cloud
    ensures cloud.failures == old(cloud.failures) + if ok then 0 else 1
    ensures Ran(run, old(cloud.now), old(cloud.log), cloud.now, cloud.log)
    ensures ok ==>
              cloud.now == old(cloud.now).(groups :=
                old(cloud.now).groups[identity := Group(p.owner.vpc, spec, p.servers)])
  {
    hide Permitted, Attachments, WantsKey, WantsGroup, For, Run.Allows, Run.IsSound, OwnGroup, Ran;
    RanNothing(run, cloud.now, cloud.log);
    ghost var s0, l0 := cloud.now, cloud.log;
    GroupMayBeChanged(run, p, s0, identity, spec);
    ok := cloud.Send(UpdateGroup(identity, spec));
    RanCall(run, s0, l0, s0, l0, UpdateGroup(identity, spec), ok, cloud.now, cloud.log);
    if !ok {
      return false;
    }
    ghost var s1, l1 := cloud.now, cloud.log;
    ok := UpgradeTargetGroupAttachments(cloud, p, run, identity, nodes);
    RanOn(run, s0, l0, s1, l1, cloud.now, cloud.log);
  }

  // ---------------------------------------------------------------- all groups

  /** A group handed on to the listeners: as planned, with this run's servers attached. */
  predicate ReadyItem(p: Plan, groups: map<string, Group>, t: Item<GroupSpec>) {
    t.identity != "" && t.identity in groups && WantsGroup(p, t.value)
      && groups[t.identity] == Group(p.owner.vpc, t.value, p.servers)
  }

  predicate ItemsReady(p: Plan, groups: map<string, Group>, tgs: seq<Item<GroupSpec>>) {
    forall t | 0 <= t < |tgs| :: ReadyItem(p, groups, tgs[t])
  }

  predicate Provides(tgs: seq<Item<GroupSpec>>, spec: GroupSpec) {
    exists t :: 0 <= t < |tgs| && tgs[t].value == spec
  }

  predicate ProvidesId(tgs: seq<Item<GroupSpec>>, id: string) {
    exists t :: 0 <= t < |tgs| && tgs[t].identity == id
  }

  lemma OneMoreItem(tgs: seq<Item<GroupSpec>>, item: Item<GroupSpec>)
    ensures forall spec :: Provides(tgs + [item], spec) <==> Provides(tgs, spec) || spec == item.value
    ensures forall id :: ProvidesId(tgs + [item], id) <==> ProvidesId(tgs, id) || id == item.identity
  {
    var tgs' := tgs + [item];
    assert tgs'[|tgs|] == item && forall t | 0 <= t < |tgs| :: tgs'[t] == tgs[t];
  }

  /** The groups handed on are all ready, and there is one for every planned group. */
  predicate GroupsReady(p: Plan, groups: map<string, Group>, tgs: seq<Item<GroupSpec>>) {
    ItemsReady(p, groups, tgs) && forall i | 0 <= i < |p.groups| :: Provides(tgs, p.groups[i])
  }

  /** The group is some planned group with this run's servers attached. */
  predicate IsReady(p: Plan, g: Group) {
    exists i :: 0 <= i < |p.groups| && g == Group(p.owner.vpc, p.groups[i], p.servers)
  }

  /** Every group of the service with a wanted key is ready. */
  predicate WantedGroupsReady(p: Plan, groups: map<string, Group>) {
    forall g | g in groups && OwnGroupHere(p.owner, groups[g]) && WantsKey(p, groups[g].spec.Key()) ::
      IsReady(p, groups[g])
  }

  lemma SameKeySameGroup(p: Plan, a: GroupSpec, b: GroupSpec)
    requires Sound(p) && WantsGroup(p, a) && WantsGroup(p, b) && a.Key() == b.Key()
    ensures a == b
  {}

  predicate HasKey(o: Owner, groups: map<string, Group>, key: (string, int)) {
    exists g :: g in groups && OwnGroupHere(o, groups[g]) && groups[g].spec.Key() == key
  }

  /** The listing is of the service's groups in the VPC. */
  ghost predicate ListsOwn(o: Owner, s: State, existing: seq<Item<ListedGroup>>) {
    && (forall k | 0 <= k < |existing| ::
          && existing[k].identity in s.groups && OwnGroupHere(o, s.groups[existing[k].identity])
          && existing[k].value.group == s.groups[existing[k].identity]
          && existing[k].value.listeners == ListenersOf(s, existing[k].identity))
    && (forall g | g in s.groups && OwnGroupHere(o, s.groups[g]) ::
          exists k :: 0 <= k < |existing| && existing[k].identity == g)
    && (forall j, k | 0 <= j < k < |existing| :: existing[j].identity != existing[k].identity)
  }

  lemma ListingIsOwn(cfg: Config, svc: Service, o: Owner, s: State, existing: seq<Item<ListedGroup>>)
    requires o == OwnerOf(cfg, svc)
    requires Lists(existing, ListedGroups(s), GroupIds(s, Some(cfg.vpcIdentity), LbLabels(cfg, svc)))
    ensures ListsOwn(o, s, existing)
  {
    hide LbLabels, Carries, Matches, ListenersOf;
    assert forall g | g in s.groups :: g in GroupIds(s, Some(cfg.vpcIdentity), LbLabels(cfg, svc)) <==>
           OwnGroupHere(o, s.groups[g]);
  }

  /** A key is in the map of the listed groups exactly when the service has a group with it. */
  lemma ListedExactly(p: Plan, s: State, existing: seq<Item<ListedGroup>>, protocol: string, port: int)
    requires ListsOwn(p.owner, s, existing)
    ensures GroupKey(protocol, port) in KeyMap(Specs(existing)) <==> HasKey(p.owner, s.groups, (protocol, port))
  {
    hide ListenersOf, KeyMap, GroupKey;
    KeyMapLookup(Specs(existing), protocol, port);
    if k :| 0 <= k < |existing| && Specs(existing)[k].Key() == (protocol, port) {
      assert s.groups[existing[k].identity].spec.Key() == (protocol, port);
    }
    if g :| g in s.groups && OwnGroupHere(p.owner, s.groups[g]) && s.groups[g].spec.Key() == (protocol, port) {
      var k :| 0 <= k < |existing| && existing[k].identity == g;
      assert Specs(existing)[k].Key() == (protocol, port);
    }
  }

  // ---------------------------------------------------------------- creating the missing ones

  /** Only groups were added, and those are the ones handed on. */
  predicate OnlyAdded(s0: State, s: State, tgs: seq<Item<GroupSpec>>) {
    && s == s0.(groups := s.groups)
    && (forall g | g in s0.groups :: g in s.groups && s.groups[g] == s0.groups[g])
    && (forall g | g in s.groups && g !in s0.groups :: ProvidesId(tgs, g))
  }

  /** The groups handed on are among the first n, and each of those is handed on or was there. */
  predicate FirstOnes(p: Plan, groups0: map<string, Group>, tgs: seq<Item<GroupSpec>>, n: nat)
    requires n <= |p.groups|
  {
    && (forall t | 0 <= t < |tgs| :: exists i :: 0 <= i < n && p.groups[i] == tgs[t].value)
    && (forall i | 0 <= i < n :: Provides(tgs, p.groups[i]) || HasKey(p.owner, groups0, p.groups[i].Key()))
  }

  /** None of the groups handed on so far was there at the start. */
  predicate AllNew(groups0: map<string, Group>, tgs: seq<Item<GroupSpec>>) {
    forall t | 0 <= t < |tgs| :: tgs[t].identity !in groups0
  }

  /** After the first n planned groups were looked at and the missing ones created. */
  predicate Creating(p: Plan, s0: State, s: State, tgs: seq<Item<GroupSpec>>, n: nat)
    requires n <= |p.groups|
  {
    && OnlyAdded(s0, s, tgs) && AllNew(s0.groups, tgs)
    && ItemsReady(p, s.groups, tgs) && FirstOnes(p, s0.groups, tgs, n)
  }

  lemma MissingKeyMayBeCreated(p: Plan, s0: State, s: State, tgs: seq<Item<GroupSpec>>, n: nat)
    requires Sound(p) && n < |p.groups| && Creating(p, s0, s, tgs, n) && !HasKey(p.owner, s0.groups, p.groups[n].Key())
    ensures !HasKey(p.owner, s.groups, p.groups[n].Key())
  {
    hide WantsGroup, Provides;
    forall g | g in s.groups && OwnGroupHere(p.owner, s.groups[g])
      ensures s.groups[g].spec.Key() != p.groups[n].Key()
    {
      if g !in s0.groups {
        var t :| 0 <= t < |tgs| && tgs[t].identity == g;
        assert ReadyItem(p, s.groups, tgs[t]);
        var i :| 0 <= i < n && p.groups[i] == tgs[t].value;
      }
    }
  }

  lemma CreatedOne(p: Plan, s0: State, s: State, tgs: seq<Item<GroupSpec>>, n: nat, id: string, s': State)
    requires n < |p.groups| && Creating(p, s0, s, tgs, n)
    requires id != "" && id !in s.groups
             && s' == s.(groups := s.groups[id := Group(p.owner.vpc, p.groups[n], p.servers)])
    ensures Creating(p, s0, s', tgs + [Item(id, p.groups[n])], n + 1)
  {
    hide HasKey, Provides, ProvidesId;
    var item := Item(id, p.groups[n]);
    OneMoreItem(tgs, item);
    assert ReadyItem(p, s'.groups, item);
    forall t | 0 <= t < |tgs + [item]|
      ensures exists i :: 0 <= i < n + 1 && p.groups[i] == (tgs + [item])[t].value
    {
      if t == |tgs| {
        assert p.groups[n] == item.value;
      } else {
        assert (tgs + [item])[t] == tgs[t];
        var i :| 0 <= i < n && p.groups[i] == tgs[t].value;
      }
    }
  }

  // ---------------------------------------------------------------- updating the existing ones

  /** Every group is as it was or ready; the listed ones from n on are as they were. */
  predicate PartlyReady(p: Plan, s0: State, s: State, existing: seq<Item<ListedGroup>>, n: nat) {
    && s == s0.(groups := s.groups)
    && (forall g | g in s.groups :: (g in s0.groups && s.groups[g] == s0.groups[g]) || IsReady(p, s.groups[g]))
    && (forall k | n <= k < |existing| :: existing[k].identity in s.groups && existing[k].identity in s0.groups
                                          && s.groups[existing[k].identity] == s0.groups[existing[k].identity])
  }

  predicate ReadyAt(p: Plan, groups: map<string, Group>, id: string) {
    id in groups && IsReady(p, groups[id])
  }

  /** What the first n listed groups with wanted keys have become. */
  ghost predicate DoneUpTo(p: Plan, groups: map<string, Group>, tgs: seq<Item<GroupSpec>>,
                           existing: seq<Item<ListedGroup>>, n: nat)
    requires n <= |existing|
  {
    forall k | 0 <= k < n && WantsKey(p, existing[k].value.group.spec.Key()) ::
      ReadyAt(p, groups, existing[k].identity) && HandedOn(tgs, existing[k].value.group.spec.Key())
  }

  ghost predicate HandedOn(tgs: seq<Item<GroupSpec>>, key: (string, int)) {
    exists spec :: Provides(tgs, spec) && spec.Key() == key
  }

  /** None of the groups handed on so far is listed at n or later. */
  predicate NotYet(tgs: seq<Item<GroupSpec>>, existing: seq<Item<ListedGroup>>, n: nat) {
    forall t, k | 0 <= t < |tgs| && n <= k < |existing| :: tgs[t].identity != existing[k].identity
  }

  /** After the first n listed groups were looked at and the wanted ones updated. */
  ghost predicate Updating(p: Plan, s0: State, s: State, tgs: seq<Item<GroupSpec>>, existing: seq<Item<ListedGroup>>,
                           n: nat)
    requires n <= |existing|
  {
    && PartlyReady(p, s0, s, existing, n) && NotYet(tgs, existing, n)
    && ItemsReady(p, s.groups, tgs) && DoneUpTo(p, s.groups, tgs, existing, n)
    && (forall i | 0 <= i < |p.groups| :: Provides(tgs, p.groups[i]) || HasKey(p.owner, s0.groups, p.groups[i].Key()))
  }

  lemma ReadyItemIsReady(p: Plan, groups: map<string, Group>, t: Item<GroupSpec>)
    requires ReadyItem(p, groups, t)
    ensures IsReady(p, groups[t.identity])
  {}

  lemma CreatingDone(p: Plan, s0: State, s: State, tgs: seq<Item<GroupSpec>>, existing: seq<Item<ListedGroup>>)
    requires ListsOwn(p.owner, s0, existing) && Creating(p, s0, s, tgs, |p.groups|)
    ensures Updating(p, s0, s, tgs, existing, 0)
  {
    hide ListenersOf, HasKey, Provides, IsReady, WantsKey;
    forall g | g in s.groups && g !in s0.groups
      ensures IsReady(p, s.groups[g])
    {
      var t :| 0 <= t < |tgs| && tgs[t].identity == g;
      assert ReadyItem(p, s.groups, tgs[t]);
      ReadyItemIsReady(p, s.groups, tgs[t]);
    }
  }

  /** Updating a listed group disturbs no group handed on before. */
  lemma ItemsStayReady(p: Plan, groups: map<string, Group>, tgs: seq<Item<GroupSpec>>, id: string, spec: GroupSpec,
                       groups': map<string, Group>)
    requires ItemsReady(p, groups, tgs) && id != "" && id in groups && WantsGroup(p, spec)
    requires forall t | 0 <= t < |tgs| :: tgs[t].identity != id
    requires groups' == groups[id := Group(p.owner.vpc, spec, p.servers)]
    ensures ItemsReady(p, groups', tgs + [Item(id, spec)])
  {
    forall t | 0 <= t < |tgs|
      ensures ReadyItem(p, groups', tgs[t])
    {
      assert ReadyItem(p, groups, tgs[t]);
    }
  }

  lemma PartlyReadyOn(p: Plan, s0: State, s: State, existing: seq<Item<ListedGroup>>, n: nat, spec: GroupSpec,
                      s': State)
    requires n < |existing| && ListsOwn(p.owner, s0, existing) && PartlyReady(p, s0, s, existing, n)
             && WantsGroup(p, spec)
    requires s' == s.(groups := s.groups[existing[n].identity := Group(p.owner.vpc, spec, p.servers)])
    ensures PartlyReady(p, s0, s', existing, n + 1) && ReadyAt(p, s'.groups, existing[n].identity)
    ensures forall id | ReadyAt(p, s.groups, id) :: ReadyAt(p, s'.groups, id)
  {
    assert IsReady(p, Group(p.owner.vpc, spec, p.servers));
    hide ListenersOf, IsReady, WantsGroup;
  }

  lemma UpdatedOne(p: Plan, s0: State, s: State, tgs: seq<Item<GroupSpec>>, existing: seq<Item<ListedGroup>>, n: nat,
                   spec: GroupSpec, s': State)
    requires n < |existing| && ListsOwn(p.owner, s0, existing) && "" !in s0.groups
    requires Updating(p, s0, s, tgs, existing, n)
    requires WantsGroup(p, spec) && spec.Key() == existing[n].value.group.spec.Key()
    requires s' == s.(groups := s.groups[existing[n].identity := Group(p.owner.vpc, spec, p.servers)])
    ensures Updating(p, s0, s', tgs + [Item(existing[n].identity, spec)], existing, n + 1)
  {
    hide ListenersOf, IsReady, WantsGroup, WantsKey, Provides, ReadyAt, HasKey, ItemsReady;
    var item := Item(existing[n].identity, spec);
    OneMoreItem(tgs, item);
    PartlyReadyOn(p, s0, s, existing, n, spec, s');
    ItemsStayReady(p, s.groups, tgs, existing[n].identity, spec, s'.groups);
    forall key | HandedOn(tgs, key)
      ensures HandedOn(tgs + [item], key)
    {
      var was :| Provides(tgs, was) && was.Key() == key;
      assert Provides(tgs + [item], was);
    }
    assert Provides(tgs + [item], spec) && HandedOn(tgs + [item], spec.Key());
  }

  lemma SkippedOne(p: Plan, s0: State, s: State, tgs: seq<Item<GroupSpec>>, existing: seq<Item<ListedGroup>>, n: nat)
    requires n < |existing| && Updating(p, s0, s, tgs, existing, n) && !WantsKey(p, existing[n].value.group.spec.Key())
    ensures Updating(p, s0, s, tgs, existing, n + 1)
  {
    hide IsReady, WantsKey, Provides, ReadyAt, HasKey, ItemsReady, HandedOn;
  }

  /** A planned group that was there before is handed on by now. */
  lemma ExistingHandedOn(p: Plan, s0: State, s: State, tgs: seq<Item<GroupSpec>>, existing: seq<Item<ListedGroup>>,
                         i: nat)
    requires Sound(p) && ListsOwn(p.owner, s0, existing) && Updating(p, s0, s, tgs, existing, |existing|)
    requires i < |p.groups| && HasKey(p.owner, s0.groups, p.groups[i].Key())
    ensures Provides(tgs, p.groups[i])
  {
    hide ListenersOf, IsReady, ReadyAt;
    var g :| g in s0.groups && OwnGroupHere(p.owner, s0.groups[g]) && s0.groups[g].spec.Key() == p.groups[i].Key();
    var k :| 0 <= k < |existing| && existing[k].identity == g;
    assert existing[k].value.group.spec.Key() == p.groups[i].Key() && WantsKey(p, p.groups[i].Key());
    var spec :| Provides(tgs, spec) && spec.Key() == p.groups[i].Key();
    var t :| 0 <= t < |tgs| && tgs[t].value == spec;
    assert ReadyItem(p, s.groups, tgs[t]) && WantsGroup(p, p.groups[i]);
    SameKeySameGroup(p, spec, p.groups[i]);
  }

  lemma UpdatingDone(p: Plan, s0: State, s: State, tgs: seq<Item<GroupSpec>>, existing: seq<Item<ListedGroup>>)
    requires ListsOwn(p.owner, s0, existing) && Updating(p, s0, s, tgs, existing, |existing|)
    ensures ItemsReady(p, s.groups, tgs) && WantedGroupsReady(p, s.groups)
    ensures Sound(p) ==> GroupsReady(p, s.groups, tgs)
  {
    hide ListenersOf, Sound, IsReady, HandedOn, Provides, HasKey, ItemsReady, WantsKey;
    if Sound(p) {
      forall i | 0 <= i < |p.groups| && HasKey(p.owner, s0.groups, p.groups[i].Key())
        ensures Provides(tgs, p.groups[i])
      {
        ExistingHandedOn(p, s0, s, tgs, existing, i);
      }
    }
    forall g | g in s.groups && OwnGroupHere(p.owner, s.groups[g]) && WantsKey(p, s.groups[g].spec.Key())
      ensures IsReady(p, s.groups[g])
    {
      if g in s0.groups && s.groups[g] == s0.groups[g] {
        var k :| 0 <= k < |existing| && existing[k].identity == g;
      }
    }
  }

  method CreateMissing(cloud: Cloud, cfg: Config, ghost p: Plan, ghost run: Run, desired: seq<GroupSpec>,
                       nodes: seq<Node>, existing: seq<Item<ListedGroup>>) returns (r: Result<seq<Item<GroupSpec>>>)
    requires For(run, p) && run.IsSound() && p.servers == Attachments(nodes)
    requires p.owner.vpc == cfg.vpcIdentity && desired == p.groups && ListsOwn(p.owner, cloud.now, existing)
    modifies cloud
    ensures cloud.failures == old(cloud.failures) + if r.Ok? then 0 else 1
    ensures Ran(run, old(cloud.now), old(cloud.log), cloud.now, cloud.log)
    ensures r.Ok? ==> Creating(p, old(cloud.now), cloud.now, r.value, |p.groups|)
  {
    hide Permitted, Attachments, Ran, WantsKey, ListsOwn, KeyMap, GroupKey, ReadyItem, Provides, HasKey, For, Sound,
      Run.IsSound;
    RunsFor(run, p);
    ghost var s0, l0 := cloud.now, cloud.log;
    RanNothing(run, s0, l0);
    var existingMap := IndexByKey(Specs(existing));
    var tgs: seq<Item<GroupSpec>> := [];
    var i := 0;
    while i < |desired|
      invariant 0 <= i <= |desired|
      invariant Ran(run, s0, l0, cloud.now, cloud.log)
      invariant cloud.failures == old(cloud.failures)
      invariant Creating(p, s0, cloud.now, tgs, i)
    {
      ListedExactly(p, s0, existing, desired[i].protocol, desired[i].targetPort);
      if GroupKey(desired[i].protocol, desired[i].targetPort) !in existingMap {
        if run.Ensure? {
          MissingKeyMayBeCreated(p, s0, cloud.now, tgs, i);
        }
        ghost var s1, l1 := cloud.now, cloud.log;
        assert WantsGroup(p, desired[i]);
        var created := CreateAndAttach(cloud, cfg, p, run, desired[i], nodes);
        RanOn(run, s0, l0, s1, l1, cloud.now, cloud.log);
        if created.Err? {
          return Err;
        }
        CreatedOne(p, s0, s1, tgs, i, created.value, cloud.now);
        tgs := tgs + [Item(created.value, desired[i])];
      }
      i := i + 1;
    }
    return Ok(tgs);
  }

  method UpdateExisting(cloud: Cloud, ghost p: Plan, ghost run: Run, desired: seq<GroupSpec>, nodes: seq<Node>,
                        existing: seq<Item<ListedGroup>>, created: seq<Item<GroupSpec>>, ghost s0: State)
    returns (r: Result<seq<Item<GroupSpec>>>)
    requires For(run, p) && run.IsSound() && p.servers == Attachments(nodes) && desired == p.groups
    requires ListsOwn(p.owner, s0, existing) && "" !in s0.groups && Updating(p, s0, cloud.now, created, existing, 0)
    modifies cloud
    ensures cloud.failures == old(cloud.failures) + if r.Ok? then 0 else 1
    ensures Ran(run, old(cloud.now), old(cloud.log), cloud.now, cloud.log)
    ensures r.Ok? ==> Updating(p, s0, cloud.now, r.value, existing, |existing|)
  {
    hide Permitted, Attachments, Ran, WantsKey, WantsGroup, ListenersOf, KeyMap, GroupKey, ItemsReady, Provides,
      DoneUpTo, HasKey, IsReady, For, Sound, Run.IsSound, NotYet;
    ghost var s1, l1 := cloud.now, cloud.log;
    RanNothing(run, s1, l1);
    var desiredMap := IndexByKey(desired);
    var tgs := created;
    var i := 0;
    while i < |existing|
      invariant 0 <= i <= |existing|
      invariant Ran(run, s1, l1, cloud.now, cloud.log)
      invariant cloud.failures == old(cloud.failures)
      invariant Updating(p, s0, cloud.now, tgs, existing, i)
    {
      var item := existing[i];
      var spec := item.value.group.spec;
      PlanLookup(p, spec.protocol, spec.targetPort);
      if GroupKey(spec.protocol, spec.targetPort) in desiredMap && item.identity != "" {
        ghost var s2, l2 := cloud.now, cloud.log;
        var desiredGroup := desiredMap[GroupKey(spec.protocol, spec.targetPort)];
        var ok := UpdateAndAttach(cloud, p, run, item.identity, desiredGroup, nodes);
        RanOn(run, s1, l1, s2, l2, cloud.now, cloud.log);
        if !ok {
          return Err;
        }
        UpdatedOne(p, s0, s2, tgs, existing, i, desiredGroup, cloud.now);
        tgs := tgs + [Item(item.identity, desiredGroup)];
      } else {
        SkippedOne(p, s0, cloud.now, tgs, existing, i);
      }
      i := i + 1;
    }
    return Ok(tgs);
  }

  /** Creates the missing groups, updates the existing ones, and attaches the nodes to all. For a sound
      plan there is then a group for every port. */
  method CreateOrUpdateTargetGroups(cloud: Cloud, cfg: Config, svc: Service, ghost p: Plan, ghost run: Run,
                                    desired: seq<GroupSpec>, nodes: seq<Node>)
    returns (r: Result<seq<Item<GroupSpec>>>)
    requires For(run, p) && run.IsSound() && p.servers == Attachments(nodes) && p.owner == OwnerOf(cfg, svc)
    requires desired == p.groups && "" !in cloud.now.groups
    modifies cloud
    ensures cloud.failures == old(cloud.failures) + if r.Ok? then 0 else 1
    ensures Ran(run, old(cloud.now), old(cloud.log), cloud.now, cloud.log)
    ensures r.Ok? ==> cloud.now == old(cloud.now).(groups := cloud.now.groups)
    ensures r.Ok? ==> ItemsReady(p, cloud.now.groups, r.value) && WantedGroupsReady(p, cloud.now.groups)
    ensures r.Ok? && Sound(p) ==> GroupsReady(p, cloud.now.groups, r.value)
  {
    hide Permitted, Attachments, Ran, ListsOwn, GroupsReady, ItemsReady, WantedGroupsReady, LbLabels, Sound, For,
      Run.IsSound, NotYet, AllNew;
    ghost var s0, l0 := cloud.now, cloud.log;
    RanNothing(run, s0, l0);
    var labels := GetLabelsForVpcLoadbalancer(cfg, svc);
    var existing := cloud.ListTargetGroups(Some(cfg.vpcIdentity), labels);
    if existing.Err? {
      return Err;
    }
    ListingIsOwn(cfg, svc, p.owner, s0, existing.value);
    r := CreateMissing(cloud, cfg, p, run, desired, nodes, existing.value);
    if r.Err? {
      return Err;
    }
    ghost var s1, l1 := cloud.now, cloud.log;
    CreatingDone(p, s0, s1, r.value, existing.value);
    r := UpdateExisting(cloud, p, run, desired, nodes, existing.value, r.value, s0);
    RanOn(run, s0, l0, s1, l1, cloud.now, cloud.log);
    if r.Ok? {
      UpdatingDone(p, s0, cloud.now, r.value, existing.value);
    }
  }

  // ---------------------------------------------------------------- garbage collection

  predicate HasSpec(specs: seq<GroupSpec>, key: (string, int)) {
    exists i :: 0 <= i < |specs| && specs[i].Key() == key
  }

  /** A group of the service in the VPC that no listener uses and that has none of the keys to keep. */
  predicate Garbage(o: Owner, s: State, keep: seq<GroupSpec>, id: string) {
    && id in s.groups && OwnGroupHere(o, s.groups[id])
    && ListenersOf(s, id) == {} && !HasSpec(keep, s.groups[id].spec.Key())
  }

  function GarbageIds(o: Owner, s: State, keep: seq<GroupSpec>): set<string> {
    set id | id in s.groups && Garbage(o, s, keep, id)
  }

  function Without(s: State, ids: set<string>): State {
    s.(groups := s.groups - ids)
  }

  function Collected(o: Owner, s: State, keep: seq<GroupSpec>): State {
    Without(s, GarbageIds(o, s, keep))
  }

  /** The junk among the first n listed objects. */
  function JunkAmong<T>(junk: set<string>, items: seq<Item<T>>, n: nat): set<string>
    requires n <= |items|
  {
    set k | 0 <= k < n && items[k].identity in junk :: items[k].identity
  }

  lemma NoJunkYet<T>(s0: State, junk: set<string>, items: seq<Item<T>>)
    ensures Without(s0, JunkAmong(junk, items, 0)) == s0
  {
    assert s0.groups - {} == s0.groups;
  }

  /** Deleting the next listed group if it is junk, and else leaving it. */
  lemma OneMoreJunk<T>(s0: State, junk: set<string>, items: seq<Item<T>>, n: nat)
    requires n < |items|
    ensures var s, s' := Without(s0, JunkAmong(junk, items, n)), Without(s0, JunkAmong(junk, items, n + 1));
            s' == if items[n].identity in junk then Apply(s, DeleteGroup(items[n].identity)) else s
  {
    var gone, id := JunkAmong(junk, items, n), items[n].identity;
    assert JunkAmong(junk, items, n + 1) == gone + if id in junk then {id} else {};
    assert s0.groups - gone - {id} == s0.groups - (gone + {id}) && gone + {} == gone;
  }

  lemma AllJunk<T>(junk: set<string>, items: seq<Item<T>>)
    requires forall id | id in junk :: exists k :: 0 <= k < |items| && items[k].identity == id
    ensures JunkAmong(junk, items, |items|) == junk
  {
    forall id | id in junk
      ensures id in JunkAmong(junk, items, |items|)
    {
      var k :| 0 <= k < |items| && items[k].identity == id;
    }
  }

  /** The run may collect what is not kept: a delete run keeps nothing, an ensure run all that it planned. */
  predicate MayCollect(run: Run, keep: seq<GroupSpec>) {
    run.Ensure? ==> forall i | 0 <= i < |run.plan.groups| :: HasSpec(keep, run.plan.groups[i].Key())
  }

  lemma GarbageMayBeDeleted(run: Run, s0: State, keep: seq<GroupSpec>, existing: seq<Item<ListedGroup>>, n: nat)
    requires run.IsSound() && MayCollect(run, keep) && ListsOwn(run.Owner(), s0, existing)
    requires n < |existing| && Garbage(run.Owner(), s0, keep, existing[n].identity)
    ensures run.Allows(Without(s0, JunkAmong(GarbageIds(run.Owner(), s0, keep), existing, n)),
                       DeleteGroup(existing[n].identity))
  {
    hide Sound, HasSpec, GarbageIds;
    var s := Without(s0, JunkAmong(GarbageIds(run.Owner(), s0, keep), existing, n));
    assert ListenersOf(s, existing[n].identity) == ListenersOf(s0, existing[n].identity);
  }

  /** The listing tells which groups are garbage. */
  lemma ListedGarbage(o: Owner, s0: State, keep: seq<GroupSpec>, existing: seq<Item<ListedGroup>>, n: nat)
    requires n < |existing| && ListsOwn(o, s0, existing)
    ensures var spec := existing[n].value.group.spec;
            existing[n].value.listeners == {} && GroupKey(spec.protocol, spec.targetPort) !in KeyMap(keep)
            <==> existing[n].identity in GarbageIds(o, s0, keep)
    ensures existing[n].identity in GarbageIds(o, s0, keep) <==> Garbage(o, s0, keep, existing[n].identity)
  {
    hide ListenersOf, KeyMap, GroupKey;
    KeyMapLookup(keep, existing[n].value.group.spec.protocol, existing[n].value.group.spec.targetPort);
  }

  lemma AllGarbage(o: Owner, s0: State, keep: seq<GroupSpec>, existing: seq<Item<ListedGroup>>)
    requires ListsOwn(o, s0, existing)
    ensures Without(s0, JunkAmong(GarbageIds(o, s0, keep), existing, |existing|)) == Collected(o, s0, keep)
  {
    hide ListenersOf, HasSpec, JunkAmong;
    AllJunk(GarbageIds(o, s0, keep), existing);
  }

  /** Deletes the groups of the service that the fresh listing shows without listeners and that are not
      to be kept; a delete run keeps none. */
  method CleanupUnusedTargetGroups(cloud: Cloud, cfg: Config, svc: Service, ghost run: Run, keep: seq<GroupSpec>)
    returns (ok: bool)
    requires run.IsSound() && run.Owner() == OwnerOf(cfg, svc) && MayCollect(run, keep)
    modifies cloud
    ensures cloud.failures == old(cloud.failures) + if ok then 0 else 1
    ensures Ran(run, old(cloud.now), old(cloud.log), cloud.now, cloud.log)
    ensures ok ==> cloud.now == Collected(run.Owner(), old(cloud.now), keep)
  {
    hide *;
    ghost var s0, l0, o := cloud.now, cloud.log, run.Owner();
    RanNothing(run, s0, l0);
    var labels := GetLabelsForVpcLoadbalancer(cfg, svc);
    var existing := cloud.ListTargetGroups(Some(cfg.vpcIdentity), labels);
    if existing.Err? {
      return false;
    }
    ListingIsOwn(cfg, svc, o, s0, existing.value);
    var keepMap := IndexByKey(keep);
    ghost var junk := GarbageIds(o, s0, keep);
    NoJunkYet(s0, junk, existing.value);
    var i := 0;
    while i < |existing.value|
      invariant 0 <= i <= |existing.value|
      invariant Ran(run, s0, l0, cloud.now, cloud.log)
      invariant cloud.failures == old(cloud.failures)
      invariant cloud.now == Without(s0, JunkAmong(junk, existing.value, i))
    {
      var item := existing.value[i];
      var spec := item.value.group.spec;
      ListedGarbage(o, s0, keep, existing.value, i);
      OneMoreJunk(s0, junk, existing.value, i);
      i := i + 1;
      if item.value.listeners != {} {
        continue;
      }
      if GroupKey(spec.protocol, spec.targetPort) !in keepMap {
        ghost var s1, l1 := cloud.now, cloud.log;
        GarbageMayBeDeleted(run, s0, keep, existing.value, i - 1);
        var deleted := cloud.Send(DeleteGroup(item.identity));
        RanCall(run, s0, l0, s1, l1, DeleteGroup(item.identity), deleted, cloud.now, cloud.log);
        if !deleted {
          return false;
        }
      }
    }
    AllGarbage(o, s0, keep, existing.value);
    return true;
  }
}
