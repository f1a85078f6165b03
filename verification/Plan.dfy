/** What one reconcile or delete run may do to the cloud: every call it makes is allowed in the state
    it is made in. The safety properties of runs, whole or cut off anywhere, follow from that alone. */
module Plan {
  import opened GoText
  import opened Cloud

  /** Whose objects a run works on: the VPC, the service's load balancer name and labels, and the two
      tests for those labels, the API's filter and the controller's own matchLabels. */
  datatype Owner = Owner(
    vpc: string, lbName: string, labels: Labels, carried: Labels -> bool, matched: Labels -> bool)

  /** What an ensure run wants: target group i serves listener i, and every group has the servers attached. */
  datatype Plan = Plan(
    owner: Owner,
    groups: seq<GroupSpec>,
    listeners: seq<ListenerSpec>,
    servers: seq<string>,
    newLb: LoadBalancer,            // the load balancer to create, apart from subnet and security groups
    subnets: seq<Subnet>,           // of the VPC
    subnet: string,                 // the preferred one, or ""
    securityGroups: seq<string>,    // those the service lists
    managed: bool,                  // whether it also wants a managed one
    newSg: SecurityGroup,           // the managed security group
    reservedIP: string)

  // ---------------------------------------------------------------- ownership

  predicate OwnLb(o: Owner, lb: LoadBalancer) {
    lb.vpc == o.vpc && (o.matched(lb.labels) || lb.name == o.lbName)
  }

  predicate OwnGroup(o: Owner, g: Group) {
    o.carried(g.spec.labels)
  }

  /** The groups a reconcile lists: the service's, in the VPC. */
  predicate OwnGroupHere(o: Owner, g: Group) {
    g.vpc == o.vpc && OwnGroup(o, g)
  }

  predicate OwnSg(o: Owner, sg: SecurityGroup) {
    sg.vpc == o.vpc && o.carried(sg.labels)
  }

  /** A listener belongs to whom its load balancer belongs to. */
  predicate OwnListener(o: Owner, lbs: map<string, LoadBalancer>, l: Listener) {
    l.lb in lbs && OwnLb(o, lbs[l.lb])
  }

  function ForeignLbs(o: Owner, lbs: map<string, LoadBalancer>): map<string, LoadBalancer> {
    map id | id in lbs && !OwnLb(o, lbs[id]) :: lbs[id]
  }

  function ForeignListeners(o: Owner, lbs: map<string, LoadBalancer>, listeners: map<string, Listener>)
    : map<string, Listener>
  {
    map id | id in listeners && !OwnListener(o, lbs, listeners[id]) :: listeners[id]
  }

  function ForeignGroups(o: Owner, groups: map<string, Group>): map<string, Group> {
    map id | id in groups && !OwnGroup(o, groups[id]) :: groups[id]
  }

  function ForeignSgs(o: Owner, sgs: map<string, SecurityGroup>): map<string, SecurityGroup> {
    map id | id in sgs && !OwnSg(o, sgs[id]) :: sgs[id]
  }

  /** The cloud as everyone else sees it: without the owner's objects. */
  function Foreign(o: Owner, s: State): State {
    State(ForeignLbs(o, s.lbs), ForeignListeners(o, s.lbs, s.listeners), ForeignGroups(o, s.groups),
          ForeignSgs(o, s.sgs))
  }

  // ---------------------------------------------------------------- well-formed clouds and plans

  /** Referential integrity: every listener has its load balancer and points to an existing group. */
  predicate Linked(lbs: set<string>, listeners: map<string, Listener>, groups: set<string>) {
    forall l | l in listeners :: listeners[l].lb in lbs && listeners[l].target in groups
  }

  predicate Named(s: State) {
    "" !in s.lbs && "" !in s.listeners && "" !in s.groups && "" !in s.sgs
  }

  /** No two listeners of the service's load balancer share a port. */
  predicate UniquePorts(o: Owner, lbs: map<string, LoadBalancer>, listeners: map<string, Listener>) {
    forall a, b | a in listeners && b in listeners && a != b
                  && listeners[a].lb == listeners[b].lb && OwnListener(o, lbs, listeners[a]) ::
      listeners[a].spec.port != listeners[b].spec.port
  }

  /** At most one target group of the service per (protocol, port). */
  predicate UniqueKeys(o: Owner, groups: map<string, Group>) {
    forall a, b | a in groups && b in groups && a != b && OwnGroupHere(o, groups[a]) && OwnGroupHere(o, groups[b]) ::
      groups[a].spec.Key() != groups[b].spec.Key()
  }

  predicate OneLb(o: Owner, lbs: map<string, LoadBalancer>) {
    forall a, b | a in lbs && b in lbs && OwnLb(o, lbs[a]) && OwnLb(o, lbs[b]) :: a == b
  }

  predicate OneSg(o: Owner, sgs: map<string, SecurityGroup>) {
    forall a, b | a in sgs && b in sgs && OwnSg(o, sgs[a]) && OwnSg(o, sgs[b]) :: a == b
  }

  /** What safety rests on: nothing dangles, and no identity is empty. */
  predicate Safe(s: State) {
    Linked(s.lbs.Keys, s.listeners, s.groups.Keys) && Named(s)
  }

  /** What convergence needs beyond that: nothing of the owner's is there twice. */
  predicate Unique(o: Owner, s: State) {
    UniquePorts(o, s.lbs, s.listeners) && UniqueKeys(o, s.groups) && OneLb(o, s.lbs) && OneSg(o, s.sgs)
  }

  predicate Inv(o: Owner, s: State) {
    Safe(s) && Unique(o, s)
  }

  /** What a plan asks for is the service's own. */
  predicate Proper(p: Plan) {
    && |p.groups| == |p.listeners|
    && (forall i | 0 <= i < |p.groups| :: p.owner.carried(p.groups[i].labels))
    && p.newLb.vpc == p.owner.vpc && p.newLb.name == p.owner.lbName && p.newLb.labels == p.owner.labels
    && p.newSg.vpc == p.owner.vpc && p.owner.carried(p.newSg.labels)
  }

  /** A proper plan with distinct keys and distinct ports. */
  predicate Sound(p: Plan) {
    && Proper(p)
    && (forall i, j | 0 <= i < j < |p.groups| :: p.groups[i].Key() != p.groups[j].Key())
    && (forall i, j | 0 <= i < j < |p.listeners| :: p.listeners[i].port != p.listeners[j].port)
  }

  // ---------------------------------------------------------------- what a plan asks for

  predicate WantsKey(p: Plan, key: (string, int)) {
    exists i :: 0 <= i < |p.groups| && p.groups[i].Key() == key
  }

  predicate WantsPort(p: Plan, port: int) {
    exists i :: 0 <= i < |p.listeners| && p.listeners[i].port == port
  }

  predicate WantsGroup(p: Plan, spec: GroupSpec) {
    exists i :: 0 <= i < |p.groups| && p.groups[i] == spec
  }

  /** The group as planned for port i, with this run's servers attached. */
  predicate ReadyGroup(p: Plan, groups: map<string, Group>, i: nat, id: string)
    requires i < |p.groups|
  {
    id in groups && groups[id] == Group(p.owner.vpc, p.groups[i], p.servers)
  }

  /** The listener as planned, pointing to its own port's group, which already has the servers attached. */
  predicate ReadyListener(p: Plan, groups: map<string, Group>, spec: ListenerSpec, target: string)
    requires |p.groups| == |p.listeners|
  {
    exists i :: 0 <= i < |p.listeners| && p.listeners[i] == spec && ReadyGroup(p, groups, i, target)
  }

  /** The listed security groups, then the managed one if there is to be one. */
  predicate WantedSgs(p: Plan, existing: map<string, SecurityGroup>, sgs: seq<string>) {
    if p.managed then
      sgs != [] && sgs[..|sgs| - 1] == p.securityGroups
      && sgs[|sgs| - 1] in existing && OwnSg(p.owner, existing[sgs[|sgs| - 1]])
    else sgs == p.securityGroups
  }

  /** The subnet a new load balancer goes to: the requested one, by identity or slug, or the first. */
  function ChooseSubnet(subnets: seq<Subnet>, requested: string): Option<Subnet> {
    if subnets == [] then None
    else if requested == "" || subnets[0].identity == requested || subnets[0].slug == requested then Some(subnets[0])
    else ChooseSubnet(subnets[1..], requested)
  }

  /** An existing managed security group after its update: it keeps its name and description. */
  function UpdatedSg(p: Plan, sg: SecurityGroup): SecurityGroup {
    p.newSg.(vpc := sg.vpc, name := sg.name, description := sg.description)
  }

  // ---------------------------------------------------------------- what a run may do

  predicate MayChangeGroups(p: Plan, s: State, c: Call) {
    match c
    case CreateGroup(id, group) =>
      && id != "" && id !in s.groups
      && group.vpc == p.owner.vpc && group.attached == [] && WantsGroup(p, group.spec)
      && forall g | g in s.groups && OwnGroupHere(p.owner, s.groups[g]) :: s.groups[g].spec.Key() != group.spec.Key()
    case UpdateGroup(id, spec) =>
      id in s.groups && OwnGroupHere(p.owner, s.groups[id]) && WantsGroup(p, spec)
        && spec.Key() == s.groups[id].spec.Key()
    case SetAttachments(id, servers) =>
      id in s.groups && OwnGroupHere(p.owner, s.groups[id]) && WantsGroup(p, s.groups[id].spec) && servers == p.servers
    case DeleteGroup(id) =>
      && id in s.groups && OwnGroupHere(p.owner, s.groups[id])
      && ListenersOf(s, id) == {} && !WantsKey(p, s.groups[id].spec.Key())
    case _ => false
  }

  predicate MayChangeListeners(p: Plan, s: State, c: Call)
    requires |p.groups| == |p.listeners|
  {
    match c
    case CreateListener(id, l) =>
      && id != "" && id !in s.listeners && OwnListener(p.owner, s.lbs, l)
         && ReadyListener(p, s.groups, l.spec, l.target)
      && forall x | x in s.listeners && s.listeners[x].lb == l.lb :: s.listeners[x].spec.port != l.spec.port
    case UpdateListener(id, spec, target) =>
      && id in s.listeners && OwnListener(p.owner, s.lbs, s.listeners[id])
      && spec.port == s.listeners[id].spec.port && ReadyListener(p, s.groups, spec, target)
    case DeleteListener(id) =>
      id in s.listeners && OwnListener(p.owner, s.lbs, s.listeners[id]) && !WantsPort(p, s.listeners[id].spec.port)
    case _ => false
  }

  predicate MayChangeLb(p: Plan, s: State, c: Call) {
    match c
    case CreateLb(id, lb) =>
      && id != "" && id !in s.lbs && (forall x | x in s.lbs :: !OwnLb(p.owner, s.lbs[x]))
      && ChooseSubnet(p.subnets, p.subnet).Some?
      && lb == p.newLb.(subnet := ChooseSubnet(p.subnets, p.subnet).value.identity, securityGroups := lb.securityGroups)
      && WantedSgs(p, s.sgs, lb.securityGroups)
    case UpdateLb(id, lb) =>
      && id in s.lbs && OwnLb(p.owner, s.lbs[id])
      && lb == s.lbs[id].(subnet := if p.subnet == "" then s.lbs[id].subnet else p.subnet,
                          securityGroups := lb.securityGroups, reservedIP := p.reservedIP)
      && WantedSgs(p, s.sgs, lb.securityGroups)
    case _ => false
  }

  predicate MayChangeSgs(p: Plan, s: State, c: Call) {
    match c
    case CreateSg(id, sg) =>
      p.managed && id != "" && id !in s.sgs && sg == p.newSg && forall x | x in s.sgs :: !OwnSg(p.owner, s.sgs[x])
    case UpdateSg(id, sg) => p.managed && id in s.sgs && OwnSg(p.owner, s.sgs[id]) && sg == UpdatedSg(p, s.sgs[id])
    case _ => false
  }

  predicate MayTearDown(o: Owner, s: State, c: Call) {
    match c
    case DeleteGroup(id) => id in s.groups && OwnGroup(o, s.groups[id]) && ListenersOf(s, id) == {}
    case DeleteLb(id) => id in s.lbs && OwnLb(o, s.lbs[id])
    case DeleteSg(id) => id in s.sgs && OwnSg(o, s.sgs[id])
    case _ => false
  }

  predicate OwnTarget(o: Owner, groups: map<string, Group>, target: string) {
    target in groups && OwnGroup(o, groups[target])
  }

  /** The least that holds of every call any run makes for the owner, whatever the service asks for and
      whatever the cloud is like: it touches the owner's objects only, creates them as the owner's, and a
      load balancer or security group only where the owner has none, points listeners only at the owner's
      existing groups, and deletes a group only when it is not in use. */
  predicate MayTouch(o: Owner, s: State, c: Call) {
    match c
    case CreateGroup(id, group) => id != "" && id !in s.groups && OwnGroup(o, group)
    case UpdateGroup(id, spec) => id in s.groups && OwnGroup(o, s.groups[id]) && o.carried(spec.labels)
    case SetAttachments(id, _) => id in s.groups && OwnGroup(o, s.groups[id])
    case DeleteGroup(_) => MayTearDown(o, s, c)
    case CreateListener(id, l) =>
      id != "" && id !in s.listeners && OwnListener(o, s.lbs, l) && OwnTarget(o, s.groups, l.target)
    case UpdateListener(id, _, target) =>
      id in s.listeners && OwnListener(o, s.lbs, s.listeners[id]) && OwnTarget(o, s.groups, target)
    case DeleteListener(id) => id in s.listeners && OwnListener(o, s.lbs, s.listeners[id])
    case CreateLb(id, lb) =>
      && id != "" && id !in s.lbs && lb.vpc == o.vpc && lb.name == o.lbName && lb.labels == o.labels
      && forall x | x in s.lbs :: !OwnLb(o, s.lbs[x])
    case UpdateLb(id, lb) =>
      && id in s.lbs && OwnLb(o, s.lbs[id])
      && lb.vpc == s.lbs[id].vpc && lb.name == s.lbs[id].name && lb.labels == s.lbs[id].labels
    case DeleteLb(_) => MayTearDown(o, s, c)
    case CreateSg(id, sg) =>
      id != "" && id !in s.sgs && OwnSg(o, sg) && forall x | x in s.sgs :: !OwnSg(o, s.sgs[x])
    case UpdateSg(id, sg) => id in s.sgs && OwnSg(o, s.sgs[id]) && OwnSg(o, sg)
    case DeleteSg(_) => MayTearDown(o, s, c)
  }

  /** A reconcile that follows a plan, a delete, or any run at all on the owner's behalf. */
  datatype Run = Ensure(plan: Plan) | Teardown(teardownOwner: Owner) | Touch(touchedOwner: Owner) {
    function Owner(): Owner {
      match this
      case Ensure(p) => p.owner
      case Teardown(o) => o
      case Touch(o) => o
    }

    predicate IsSound() {
      Ensure? ==> Sound(plan)
    }

    /** The run may make the call in this state. */
    predicate Allows(s: State, c: Call)
      requires IsSound()
    {
      match this
      case Ensure(p) => MayEnsure(p, s, c)
      case Teardown(o) => MayTearDown(o, s, c)
      case Touch(o) => MayTouch(o, s, c)
    }
  }

  predicate MayEnsure(p: Plan, s: State, c: Call)
    requires |p.groups| == |p.listeners|
  {
    MayChangeGroups(p, s, c) || MayChangeListeners(p, s, c) || MayChangeLb(p, s, c) || MayChangeSgs(p, s, c)
  }

  /** Every call was allowed in the state the calls before it led to. */
  predicate Permitted(run: Run, s: State, calls: seq<Call>)
    requires run.IsSound()
  {
    calls == [] ||
    (var init, last := calls[..|calls| - 1], calls[|calls| - 1];
     Permitted(run, s, init) && run.Allows(ApplyAll(s, init), last))
  }

  // ---------------------------------------------------------------- every run is harmless

  lemma GroupTouchIsHarmless(o: Owner, s: State, c: Call)
    requires Safe(s) && MayTouch(o, s, c)
    requires c.CreateGroup? || c.UpdateGroup? || c.SetAttachments? || c.DeleteGroup?
    ensures Safe(Apply(s, c)) && Foreign(o, Apply(s, c)) == Foreign(o, s)
  {
    hide OwnLb, OwnSg;
    if c.DeleteGroup? {
      assert forall l | l in s.listeners :: l !in ListenersOf(s, c.id);
    }
    assert ForeignGroups(o, Apply(s, c).groups) == ForeignGroups(o, s.groups);
  }

  lemma ListenerTouchIsHarmless(o: Owner, s: State, c: Call)
    requires Safe(s) && MayTouch(o, s, c) && (c.CreateListener? || c.UpdateListener? || c.DeleteListener?)
    ensures Safe(Apply(s, c)) && Foreign(o, Apply(s, c)) == Foreign(o, s)
  {
    hide OwnLb, OwnGroup, OwnSg;
    var s' := Apply(s, c);
    assert ForeignListeners(o, s'.lbs, s'.listeners) == ForeignListeners(o, s.lbs, s.listeners);
  }

  /** Load balancer calls change nobody's ownership of a listener that stays. */
  lemma LbTouchKeepsListeners(o: Owner, s: State, c: Call)
    requires Safe(s) && MayTouch(o, s, c) && (c.CreateLb? || c.UpdateLb? || c.DeleteLb?)
    ensures var s' := Apply(s, c);
            forall l | l in s'.listeners ::
              l in s.listeners && s'.listeners[l] == s.listeners[l] && s'.listeners[l].lb in s'.lbs
              && (OwnListener(o, s'.lbs, s'.listeners[l]) <==> OwnListener(o, s.lbs, s.listeners[l]))
    ensures forall l | l in s.listeners && l !in Apply(s, c).listeners :: OwnListener(o, s.lbs, s.listeners[l])
  {}

  lemma LbTouchKeepsForeignListeners(o: Owner, s: State, c: Call)
    requires Safe(s) && MayTouch(o, s, c) && (c.CreateLb? || c.UpdateLb? || c.DeleteLb?)
    ensures ForeignListeners(o, Apply(s, c).lbs, Apply(s, c).listeners) == ForeignListeners(o, s.lbs, s.listeners)
  {
    LbTouchKeepsListeners(o, s, c);
    hide OwnListener, MayTouch, Apply, Safe;
  }

  lemma LbTouchIsHarmless(o: Owner, s: State, c: Call)
    requires Safe(s) && MayTouch(o, s, c) && (c.CreateLb? || c.UpdateLb? || c.DeleteLb?)
    ensures Safe(Apply(s, c)) && Foreign(o, Apply(s, c)) == Foreign(o, s)
  {
    hide OwnGroup, OwnSg, OwnTarget, OwnListener, ForeignListeners, ListenersOf;
    LbTouchKeepsForeignListeners(o, s, c);
    assert ForeignLbs(o, Apply(s, c).lbs) == ForeignLbs(o, s.lbs);
  }

  lemma SgTouchIsHarmless(o: Owner, s: State, c: Call)
    requires Safe(s) && MayTouch(o, s, c) && (c.CreateSg? || c.UpdateSg? || c.DeleteSg?)
    ensures Safe(Apply(s, c)) && Foreign(o, Apply(s, c)) == Foreign(o, s)
  {
    assert ForeignSgs(o, Apply(s, c).sgs) == ForeignSgs(o, s.sgs);
  }

  /** One call on the owner's behalf leaves no listener dangling and everyone else's objects alone. */
  lemma TouchIsHarmless(o: Owner, s: State, c: Call)
    requires Safe(s) && MayTouch(o, s, c)
    ensures Safe(Apply(s, c)) && Foreign(o, Apply(s, c)) == Foreign(o, s)
  {
    hide *;
    if c.CreateGroup? || c.UpdateGroup? || c.SetAttachments? || c.DeleteGroup? {
      GroupTouchIsHarmless(o, s, c);
    } else if c.CreateListener? || c.UpdateListener? || c.DeleteListener? {
      ListenerTouchIsHarmless(o, s, c);
    } else if c.CreateLb? || c.UpdateLb? || c.DeleteLb? {
      LbTouchIsHarmless(o, s, c);
    } else {
      SgTouchIsHarmless(o, s, c);
    }
  }

  lemma PlannedCallIsTouch(p: Plan, s: State, c: Call)
    requires Proper(p) && MayEnsure(p, s, c)
    ensures MayTouch(p.owner, s, c)
  {
    hide WantedSgs, WantsKey, WantsPort, ListenersOf, ChooseSubnet;
    if MayChangeListeners(p, s, c) && (c.CreateListener? || c.UpdateListener?) {
      var spec := if c.CreateListener? then c.listener.spec else c.listenerSpec;
      var target := if c.CreateListener? then c.listener.target else c.target;
      var i :| 0 <= i < |p.listeners| && p.listeners[i] == spec && ReadyGroup(p, s.groups, i, target);
      assert OwnGroup(p.owner, s.groups[target]);
    }
  }

  /** What a plan or a delete may do, any run may. */
  lemma AllowedIsTouch(run: Run, s: State, c: Call)
    requires run.IsSound() && run.Allows(s, c)
    ensures MayTouch(run.Owner(), s, c)
  {
    hide Sound, Proper, MayEnsure, MayTouch;
    match run
    case Ensure(p) =>
      SoundIsProper(p);
      PlannedCallIsTouch(p, s, c);
    case Teardown(o) => TornIsTouch(o, s, c);
    case Touch(_) =>
  }

  lemma SoundIsProper(p: Plan)
    requires Sound(p)
    ensures Proper(p) && |p.groups| == |p.listeners|
  {}

  lemma TornIsTouch(o: Owner, s: State, c: Call)
    requires MayTearDown(o, s, c)
    ensures MayTouch(o, s, c)
  {}

  lemma {:induction false} PermittedIsTouch(run: Run, s: State, calls: seq<Call>)
    requires run.IsSound() && Permitted(run, s, calls)
    ensures Permitted(Touch(run.Owner()), s, calls)
    decreases |calls|
  {
    hide Apply, MayEnsure, MayTearDown, MayTouch, Sound;
    if calls != [] {
      var init, last := calls[..|calls| - 1], calls[|calls| - 1];
      PermittedIsTouch(run, s, init);
      AllowedIsTouch(run, ApplyAll(s, init), last);
    }
  }

  /** Safety of every run at every moment, for any service and from any state in which nothing dangles,
      however often things are there twice: no listener dangles, and everyone else's objects are what
      they were. */
  lemma {:induction false} EveryRunIsHarmless(run: Run, s: State, calls: seq<Call>, k: nat)
    requires run.IsSound() && Safe(s) && Permitted(run, s, calls) && k <= |calls|
    ensures Safe(ApplyAll(s, calls[..k])) && Foreign(run.Owner(), ApplyAll(s, calls[..k])) == Foreign(run.Owner(), s)
    ensures Permitted(run, s, calls[..k])
    decreases |calls|
  {
    hide Apply, Run.Allows, Safe, Foreign;
    if calls == [] {
      assert calls[..k] == [];
    } else {
      var init, last := calls[..|calls| - 1], calls[|calls| - 1];
      if k < |calls| {
        EveryRunIsHarmless(run, s, init, k);
        assert init[..k] == calls[..k];
      } else {
        EveryRunIsHarmless(run, s, init, |init|);
        assert init[..|init|] == init && calls[..k] == calls;
        AllowedIsTouch(run, ApplyAll(s, init), last);
        TouchIsHarmless(run.Owner(), ApplyAll(s, init), last);
      }
    }
  }

  lemma TouchKeepsOne(o: Owner, s: State, c: Call)
    requires MayTouch(o, s, c)
    ensures OneLb(o, s.lbs) ==> OneLb(o, Apply(s, c).lbs)
    ensures OneSg(o, s.sgs) ==> OneSg(o, Apply(s, c).sgs)
  {
    hide OwnGroup, OwnTarget, ListenersOf;
  }

  /** Nor does any run make a second load balancer or security group for its owner. */
  lemma {:induction false} EveryRunKeepsOne(run: Run, s: State, calls: seq<Call>)
    requires run.IsSound() && Permitted(run, s, calls)
    ensures OneLb(run.Owner(), s.lbs) ==> OneLb(run.Owner(), ApplyAll(s, calls).lbs)
    ensures OneSg(run.Owner(), s.sgs) ==> OneSg(run.Owner(), ApplyAll(s, calls).sgs)
    decreases |calls|
  {
    hide Apply, Run.Allows, OneLb, OneSg;
    if calls != [] {
      var init, last := calls[..|calls| - 1], calls[|calls| - 1];
      EveryRunKeepsOne(run, s, init);
      AllowedIsTouch(run, ApplyAll(s, init), last);
      TouchKeepsOne(run.Owner(), ApplyAll(s, init), last);
    }
  }

  // ---------------------------------------------------------------- planned runs and deletes keep the invariant

  lemma GroupsStayUnique(p: Plan, s: State, c: Call)
    requires Sound(p) && UniqueKeys(p.owner, s.groups) && MayChangeGroups(p, s, c)
    ensures UniqueKeys(p.owner, Apply(s, c).groups)
  {
    hide WantsKey, ListenersOf;
  }

  lemma ListenersStayUnique(p: Plan, s: State, c: Call)
    requires Sound(p) && UniquePorts(p.owner, s.lbs, s.listeners) && MayChangeListeners(p, s, c)
    ensures UniquePorts(p.owner, s.lbs, Apply(s, c).listeners)
  {}

  lemma LbCallKeepsUnique(p: Plan, s: State, c: Call)
    requires Proper(p) && Safe(s) && OneLb(p.owner, s.lbs) && UniquePorts(p.owner, s.lbs, s.listeners)
    requires MayChangeLb(p, s, c)
    ensures OneLb(p.owner, Apply(s, c).lbs) && UniquePorts(p.owner, Apply(s, c).lbs, Apply(s, c).listeners)
  {
    hide WantedSgs, ChooseSubnet;
  }

  lemma SgCallKeepsUnique(p: Plan, s: State, c: Call)
    requires OneSg(p.owner, s.sgs) && MayChangeSgs(p, s, c)
    ensures OneSg(p.owner, Apply(s, c).sgs)
  {}

  lemma EnsureKeepsUnique(p: Plan, s: State, c: Call)
    requires Sound(p) && Inv(p.owner, s) && MayEnsure(p, s, c)
    ensures Unique(p.owner, Apply(s, c))
  {
    hide Sound, Proper, Safe, UniqueKeys, UniquePorts, OneLb, OneSg;
    SoundIsProper(p);
    if MayChangeGroups(p, s, c) {
      GroupsStayUnique(p, s, c);
    } else if MayChangeListeners(p, s, c) {
      ListenersStayUnique(p, s, c);
    } else if MayChangeLb(p, s, c) {
      LbCallKeepsUnique(p, s, c);
    } else {
      SgCallKeepsUnique(p, s, c);
    }
  }

  lemma TeardownKeepsUnique(o: Owner, s: State, c: Call)
    requires Inv(o, s) && MayTearDown(o, s, c)
    ensures Unique(o, Apply(s, c))
  {}

  /** One call of a planned run or of a delete keeps the invariant and everyone else's objects. */
  lemma CallKeepsInv(run: Run, s: State, c: Call)
    requires run.IsSound() && !run.Touch? && Inv(run.Owner(), s) && run.Allows(s, c)
    ensures Inv(run.Owner(), Apply(s, c)) && Foreign(run.Owner(), Apply(s, c)) == Foreign(run.Owner(), s)
  {
    hide Sound, MayEnsure, MayTearDown, MayTouch, Safe, Unique, Apply, Foreign;
    AllowedIsTouch(run, s, c);
    TouchIsHarmless(run.Owner(), s, c);
    match run
    case Teardown(o) => TeardownKeepsUnique(o, s, c);
    case Ensure(p) => EnsureKeepsUnique(p, s, c);
    case Touch(_) =>
  }

  /** After any number of a run's calls the cloud is well-formed, every listener points to an existing
      group, and everyone else's objects are what they were. */
  lemma {:induction false} PrefixesSafe(run: Run, s: State, calls: seq<Call>, k: nat)
    requires run.IsSound() && !run.Touch? && Inv(run.Owner(), s) && Permitted(run, s, calls) && k <= |calls|
    ensures Inv(run.Owner(), ApplyAll(s, calls[..k]))
            && Foreign(run.Owner(), ApplyAll(s, calls[..k])) == Foreign(run.Owner(), s)
    ensures Permitted(run, s, calls[..k])
    decreases |calls|
  {
    hide Apply, Run.Allows, Inv, Foreign;
    if calls == [] {
      assert calls[..k] == [];
    } else {
      var init, last := calls[..|calls| - 1], calls[|calls| - 1];
      if k < |calls| {
        PrefixesSafe(run, s, init, k);
        assert init[..k] == calls[..k];
      } else {
        PrefixesSafe(run, s, init, |init|);
        assert init[..|init|] == init && calls[..k] == calls;
        CallKeepsInv(run, ApplyAll(s, init), last);
      }
    }
  }

  // ---------------------------------------------------------------- make before break

  /** The listeners of the service's load balancer whose port stays wanted are still there, under the
      same identity, and every listener is either untouched or points to its group with all of this
      run's servers attached. */
  predicate KeepsServing(p: Plan, s0: State, s: State)
    requires |p.groups| == |p.listeners|
  {
    && (forall l | l in s0.listeners && OwnListener(p.owner, s0.lbs, s0.listeners[l])
        && WantsPort(p, s0.listeners[l].spec.port) ::
          l in s.listeners && s.listeners[l].lb == s0.listeners[l].lb
            && s.listeners[l].spec.port == s0.listeners[l].spec.port)
    && (forall l | l in s.listeners ::
          (l in s0.listeners && s.listeners[l] == s0.listeners[l])
          || ReadyListener(p, s.groups, s.listeners[l].spec, s.listeners[l].target))
  }

  /** A group that is ready stays so under every allowed group call, as long as a listener uses it. */
  lemma GroupCallKeepsReady(p: Plan, s: State, c: Call, spec: ListenerSpec, target: string)
    requires Sound(p) && MayChangeGroups(p, s, c) && ReadyListener(p, s.groups, spec, target)
    requires ListenersOf(s, target) != {}
    ensures ReadyListener(p, Apply(s, c).groups, spec, target)
  {
    var i :| 0 <= i < |p.listeners| && p.listeners[i] == spec && ReadyGroup(p, s.groups, i, target);
    assert ReadyGroup(p, Apply(s, c).groups, i, target);
  }

  lemma GroupCallKeepsServing(p: Plan, s0: State, s: State, c: Call)
    requires Sound(p) && KeepsServing(p, s0, s) && MayChangeGroups(p, s, c)
    ensures KeepsServing(p, s0, Apply(s, c))
  {
    forall l | l in s.listeners && ReadyListener(p, s.groups, s.listeners[l].spec, s.listeners[l].target)
      ensures ReadyListener(p, Apply(s, c).groups, s.listeners[l].spec, s.listeners[l].target)
    {
      assert l in ListenersOf(s, s.listeners[l].target);
      GroupCallKeepsReady(p, s, c, s.listeners[l].spec, s.listeners[l].target);
    }
  }

  lemma ListenerCallKeepsServing(p: Plan, s0: State, s: State, c: Call)
    requires Sound(p) && KeepsServing(p, s0, s) && MayChangeListeners(p, s, c)
    ensures KeepsServing(p, s0, Apply(s, c))
  {}

  /** At every prefix of an ensure run, whatever happens to ports and node ports in it. */
  lemma {:induction false} MakeBeforeBreak(p: Plan, s: State, calls: seq<Call>, k: nat)
    requires Sound(p) && Permitted(Ensure(p), s, calls) && k <= |calls|
    ensures KeepsServing(p, s, ApplyAll(s, calls[..k]))
    decreases |calls|
  {
    if calls == [] {
      assert calls[..k] == [];
    } else {
      var init, last := calls[..|calls| - 1], calls[|calls| - 1];
      if k < |calls| {
        MakeBeforeBreak(p, s, init, k);
        assert init[..k] == calls[..k];
      } else {
        MakeBeforeBreak(p, s, init, |init|);
        assert init[..|init|] == init && calls[..k] == calls;
        var mid := ApplyAll(s, init);
        if MayChangeGroups(p, mid, last) {
          GroupCallKeepsServing(p, s, mid, last);
        } else if MayChangeListeners(p, mid, last) {
          ListenerCallKeepsServing(p, s, mid, last);
        }
      }
    }
  }

  // ---------------------------------------------------------------- the wanted state

  predicate LbSettled(p: Plan, s: State, lb: string) {
    && lb in s.lbs && OwnLb(p.owner, s.lbs[lb])
    && (p.subnet != "" ==> s.lbs[lb].subnet == p.subnet)
    && s.lbs[lb].reservedIP == p.reservedIP && WantedSgs(p, s.sgs, s.lbs[lb].securityGroups)
    && (p.managed ==> forall id | id in s.sgs && OwnSg(p.owner, s.sgs[id]) :: s.sgs[id] == UpdatedSg(p, s.sgs[id]))
  }

  /** Some listener of the load balancer serves port i as planned. */
  predicate PortServed(p: Plan, s: State, lb: string, i: nat)
    requires i < |p.groups| == |p.listeners|
  {
    exists l :: l in s.listeners && s.listeners[l].lb == lb && s.listeners[l].spec == p.listeners[i]
                && ReadyGroup(p, s.groups, i, s.listeners[l].target)
  }

  predicate ListenersSettled(p: Plan, s: State, lb: string)
    requires |p.groups| == |p.listeners|
  {
    && (forall i | 0 <= i < |p.listeners| :: PortServed(p, s, lb, i))
    && (forall l | l in s.listeners && s.listeners[l].lb == lb ::
          ReadyListener(p, s.groups, s.listeners[l].spec, s.listeners[l].target))
  }

  /** A group of the service is as planned, or is stale and still used by a listener. */
  predicate GroupsSettled(p: Plan, s: State) {
    forall g | g in s.groups && OwnGroupHere(p.owner, s.groups[g]) ::
      (exists i :: 0 <= i < |p.groups| && s.groups[g] == Group(p.owner.vpc, p.groups[i], p.servers))
      || (!WantsKey(p, s.groups[g].spec.Key()) && ListenersOf(s, g) != {})
  }

  /** The cloud is as the plan wants it. */
  predicate Settled(p: Plan, s: State, lb: string)
    requires |p.groups| == |p.listeners|
  {
    LbSettled(p, s, lb) && ListenersSettled(p, s, lb) && GroupsSettled(p, s)
  }

  // ---------------------------------------------------------------- idempotence

  predicate HasGroup(p: Plan, groups: map<string, Group>, spec: GroupSpec) {
    exists g :: g in groups && OwnGroupHere(p.owner, groups[g]) && groups[g].spec == spec
  }

  lemma SettledHasGroups(p: Plan, s: State, lb: string)
    requires Sound(p) && ListenersSettled(p, s, lb)
    ensures forall spec | WantsGroup(p, spec) :: HasGroup(p, s.groups, spec)
  {
    forall spec | WantsGroup(p, spec)
      ensures HasGroup(p, s.groups, spec)
    {
      var i :| 0 <= i < |p.groups| && p.groups[i] == spec;
      assert PortServed(p, s, lb, i);
      var l :| l in s.listeners && s.listeners[l].lb == lb && s.listeners[l].spec == p.listeners[i]
               && ReadyGroup(p, s.groups, i, s.listeners[l].target);
      var g := s.listeners[l].target;
      assert g in s.groups && OwnGroupHere(p.owner, s.groups[g]);
    }
  }

  lemma SettledGroupCallIsNoOp(p: Plan, s: State, lb: string, c: Call)
    requires Sound(p) && UniqueKeys(p.owner, s.groups) && ListenersSettled(p, s, lb) && GroupsSettled(p, s)
             && MayChangeGroups(p, s, c)
    ensures Apply(s, c) == s && !IsCreate(c) && !IsDelete(c)
  {
    hide Sound, PortServed, ReadyListener, ListenersSettled;
    SettledHasGroups(p, s, lb);
    if c.CreateGroup? {
    } else if c.UpdateGroup? || c.SetAttachments? {
      var g := s.groups[c.id];
      assert WantsKey(p, g.spec.Key());
      var i :| 0 <= i < |p.groups| && g == Group(p.owner.vpc, p.groups[i], p.servers);
    }
  }

  lemma SettledCreatesNoListener(p: Plan, s: State, lb: string, c: Call)
    requires Sound(p) && OneLb(p.owner, s.lbs) && LbSettled(p, s, lb) && ListenersSettled(p, s, lb)
    requires c.CreateListener?
    ensures !MayChangeListeners(p, s, c)
  {
    if OwnListener(p.owner, s.lbs, c.listener) && ReadyListener(p, s.groups, c.listener.spec, c.listener.target) {
      var i :| 0 <= i < |p.listeners| && p.listeners[i] == c.listener.spec
        && ReadyGroup(p, s.groups, i, c.listener.target);
      assert c.listener.lb == lb && PortServed(p, s, lb, i);
    }
  }

  /** Two ready listeners of one port are the same listener: same specification, same group. */
  lemma ReadyListenersAgree(p: Plan, s: State, a: ListenerSpec, t: string, b: ListenerSpec, u: string)
    requires Sound(p) && UniqueKeys(p.owner, s.groups) && a.port == b.port
    requires ReadyListener(p, s.groups, a, t) && ReadyListener(p, s.groups, b, u)
    ensures a == b && t == u
  {
    var i :| 0 <= i < |p.listeners| && p.listeners[i] == a && ReadyGroup(p, s.groups, i, t);
    var j :| 0 <= j < |p.listeners| && p.listeners[j] == b && ReadyGroup(p, s.groups, j, u);
    assert i == j;
    assert OwnGroupHere(p.owner, s.groups[t]) && OwnGroupHere(p.owner, s.groups[u]);
  }

  lemma SettledListenerCallIsNoOp(p: Plan, s: State, lb: string, c: Call)
    requires Sound(p) && UniqueKeys(p.owner, s.groups) && OneLb(p.owner, s.lbs) && MayChangeListeners(p, s, c)
    requires LbSettled(p, s, lb) && ListenersSettled(p, s, lb)
    ensures Apply(s, c) == s && !IsCreate(c) && !IsDelete(c)
  {
    if c.CreateListener? {
      SettledCreatesNoListener(p, s, lb, c);
    } else {
      var before := s.listeners[c.id];
      assert before.lb == lb && ReadyListener(p, s.groups, before.spec, before.target);
      if c.UpdateListener? {
        ReadyListenersAgree(p, s, c.listenerSpec, c.target, before.spec, before.target);
      }
    }
  }

  lemma SettledLbCallIsNoOp(p: Plan, s: State, lb: string, c: Call)
    requires Sound(p) && OneLb(p.owner, s.lbs) && OneSg(p.owner, s.sgs) && LbSettled(p, s, lb) && MayChangeLb(p, s, c)
    ensures Apply(s, c) == s && !IsCreate(c) && !IsDelete(c)
  {
    if c.UpdateLb? {
      var have, want := s.lbs[lb].securityGroups, c.lb.securityGroups;
      if p.managed {
        assert have == have[..|have| - 1] + [have[|have| - 1]];
        assert want == want[..|want| - 1] + [want[|want| - 1]];
      }
      assert have == want;
    }
  }

  /** Once the cloud is as the plan wants it, no call that an ensure run of the plan may make changes
      anything, and none creates or deletes. */
  lemma SettledCallIsNoOp(p: Plan, s: State, lb: string, c: Call)
    requires Sound(p) && Inv(p.owner, s) && Settled(p, s, lb) && Ensure(p).Allows(s, c)
    ensures Apply(s, c) == s && !IsCreate(c) && !IsDelete(c)
  {
    if MayChangeGroups(p, s, c) {
      SettledGroupCallIsNoOp(p, s, lb, c);
    } else if MayChangeListeners(p, s, c) {
      SettledListenerCallIsNoOp(p, s, lb, c);
    } else if MayChangeLb(p, s, c) {
      SettledLbCallIsNoOp(p, s, lb, c);
    }
  }

  /** Idempotence: a further run of the plan, whole or cut off anywhere, leaves the cloud exactly as it
      is and issues no create and no delete. */
  lemma {:induction false} Idempotence(p: Plan, s: State, lb: string, calls: seq<Call>)
    requires Sound(p) && Inv(p.owner, s) && Settled(p, s, lb) && Permitted(Ensure(p), s, calls)
    ensures ApplyAll(s, calls) == s && forall i | 0 <= i < |calls| :: !IsCreate(calls[i]) && !IsDelete(calls[i])
    decreases |calls|
  {
    if calls != [] {
      var init, last := calls[..|calls| - 1], calls[|calls| - 1];
      Idempotence(p, s, lb, init);
      SettledCallIsNoOp(p, s, lb, last);
      assert forall i | 0 <= i < |init| :: calls[i] == init[i];
    }
  }

  // ---------------------------------------------------------------- crash and retry

  /** One attempt: a run and the calls it got to make before it ended or was cut off. */
  datatype Attempt = Attempt(run: Run, calls: seq<Call>)

  function After(s: State, attempts: seq<Attempt>): State {
    if attempts == [] then s
    else ApplyAll(After(s, attempts[..|attempts| - 1]), attempts[|attempts| - 1].calls)
  }

  /** Attempts on behalf of one owner, one after the other. */
  ghost predicate History(o: Owner, s: State, attempts: seq<Attempt>) {
    attempts == [] ||
    (var init, last := attempts[..|attempts| - 1], attempts[|attempts| - 1];
     && History(o, s, init) && last.run.IsSound() && last.run.Owner() == o
     && Permitted(last.run, After(s, init), last.calls))
  }

  /** No attempt of the history was for a version outside the plans' preconditions. */
  predicate Planned(attempts: seq<Attempt>) {
    forall i | 0 <= i < |attempts| :: !attempts[i].run.Touch?
  }

  /** Any history of runs for one owner, interrupted anywhere and for whatever the service asked, is
      harmless to everyone else. */
  lemma {:induction false} EveryHistoryIsHarmless(o: Owner, s: State, attempts: seq<Attempt>)
    requires Safe(s) && History(o, s, attempts)
    ensures Safe(After(s, attempts)) && Foreign(o, After(s, attempts)) == Foreign(o, s)
  {
    hide Safe, Foreign, Permitted;
    if attempts != [] {
      var init, last := attempts[..|attempts| - 1], attempts[|attempts| - 1];
      EveryHistoryIsHarmless(o, s, init);
      EveryRunIsHarmless(last.run, After(s, init), last.calls, |last.calls|);
      assert last.calls[..|last.calls|] == last.calls;
    }
  }

  lemma {:induction false} EveryHistoryKeepsOne(o: Owner, s: State, attempts: seq<Attempt>)
    requires History(o, s, attempts)
    ensures OneLb(o, s.lbs) ==> OneLb(o, After(s, attempts).lbs)
    ensures OneSg(o, s.sgs) ==> OneSg(o, After(s, attempts).sgs)
  {
    hide OneLb, OneSg, Permitted;
    if attempts != [] {
      var init, last := attempts[..|attempts| - 1], attempts[|attempts| - 1];
      EveryHistoryKeepsOne(o, s, init);
      EveryRunKeepsOne(last.run, After(s, init), last.calls);
    }
  }

  lemma {:induction false} HistorySafe(o: Owner, s: State, attempts: seq<Attempt>)
    requires Inv(o, s) && History(o, s, attempts) && Planned(attempts)
    ensures Inv(o, After(s, attempts)) && Foreign(o, After(s, attempts)) == Foreign(o, s)
  {
    hide Inv, Foreign, Permitted;
    if attempts != [] {
      var init, last := attempts[..|attempts| - 1], attempts[|attempts| - 1];
      HistorySafe(o, s, init);
      PrefixesSafe(last.run, After(s, init), last.calls, |last.calls|);
      assert last.calls[..|last.calls|] == last.calls;
    }
  }

  function LbCreates(calls: seq<Call>): nat {
    if calls == [] then 0 else LbCreates(calls[..|calls| - 1]) + if calls[|calls| - 1].CreateLb? then 1 else 0
  }

  function AllLbCreates(attempts: seq<Attempt>): nat {
    if attempts == [] then 0
    else AllLbCreates(attempts[..|attempts| - 1]) + LbCreates(attempts[|attempts| - 1].calls)
  }

  predicate HasLb(o: Owner, s: State) {
    exists id :: id in s.lbs && OwnLb(o, s.lbs[id])
  }

  /** A run creates a load balancer only while there is none, and then there is one. */
  lemma {:induction false} RunCreatesLbOnce(p: Plan, s: State, calls: seq<Call>)
    requires Sound(p) && Permitted(Ensure(p), s, calls)
    ensures HasLb(p.owner, s) ==> LbCreates(calls) == 0 && HasLb(p.owner, ApplyAll(s, calls))
    ensures LbCreates(calls) <= 1 && (LbCreates(calls) == 1 ==> HasLb(p.owner, ApplyAll(s, calls)))
    decreases |calls|
  {
    if calls != [] {
      var init, last := calls[..|calls| - 1], calls[|calls| - 1];
      RunCreatesLbOnce(p, s, init);
      var mid := ApplyAll(s, init);
      if HasLb(p.owner, mid) {
        var id :| id in mid.lbs && OwnLb(p.owner, mid.lbs[id]);
        assert id in Apply(mid, last).lbs && OwnLb(p.owner, Apply(mid, last).lbs[id]);
      } else if last.CreateLb? {
        assert OwnLb(p.owner, Apply(mid, last).lbs[last.id]);
      }
    }
  }

  /** However often ensure runs are cut off and retried, whatever versions of the service they are
      for, at most one load balancer is ever created. */
  lemma {:induction false} AtMostOneLbCreated(o: Owner, s: State, attempts: seq<Attempt>)
    requires History(o, s, attempts) && forall i | 0 <= i < |attempts| :: attempts[i].run.Ensure?
    ensures HasLb(o, s) ==> AllLbCreates(attempts) == 0 && HasLb(o, After(s, attempts))
    ensures AllLbCreates(attempts) <= 1 && (AllLbCreates(attempts) == 1 ==> HasLb(o, After(s, attempts)))
  {
    if attempts != [] {
      var init, last := attempts[..|attempts| - 1], attempts[|attempts| - 1];
      assert forall i | 0 <= i < |init| :: init[i] == attempts[i];
      AtMostOneLbCreated(o, s, init);
      RunCreatesLbOnce(last.run.plan, After(s, init), last.calls);
    }
  }

  function PortsOf(s: State, lb: string): set<int> {
    set l | l in s.listeners && s.listeners[l].lb == lb :: s.listeners[l].spec.port
  }

  function WantedPorts(p: Plan): set<int> {
    set i | 0 <= i < |p.listeners| :: p.listeners[i].port
  }

  lemma SettledPorts(p: Plan, s: State, lb: string)
    requires Sound(p) && Settled(p, s, lb)
    ensures PortsOf(s, lb) == WantedPorts(p)
  {
    forall i | 0 <= i < |p.listeners|
      ensures p.listeners[i].port in PortsOf(s, lb)
    {
      assert PortServed(p, s, lb, i);
    }
    forall l | l in s.listeners && s.listeners[l].lb == lb
      ensures s.listeners[l].spec.port in WantedPorts(p)
    {
      assert ReadyListener(p, s.groups, s.listeners[l].spec, s.listeners[l].target);
    }
  }

  lemma OneLbIsIt(o: Owner, s: State, lb: string)
    requires Inv(o, s) && lb in s.lbs && OwnLb(o, s.lbs[lb])
    ensures forall id | id in s.lbs && OwnLb(o, s.lbs[id]) :: id == lb
  {}

  lemma HistoryExtended(o: Owner, s: State, attempts: seq<Attempt>, last: Attempt)
    requires History(o, s, attempts) && last.run.IsSound() && last.run.Owner() == o
    requires Permitted(last.run, After(s, attempts), last.calls)
    ensures History(o, s, attempts + [last])
    ensures After(s, attempts + [last]) == ApplyAll(After(s, attempts), last.calls)
    ensures AllLbCreates(attempts + [last]) == AllLbCreates(attempts) + LbCreates(last.calls)
  {
    var all := attempts + [last];
    assert all[..|all| - 1] == attempts;
  }

  /** Crash and retry: after any attempts, each for some version of the service and cut off anywhere, one
      last attempt that reaches the wanted state leaves exactly one load balancer of the service, with
      exactly the wanted ports, at most one group per (protocol, port), and everyone else's objects
      untouched; over the whole history at most one load balancer was created. */
  lemma CrashAndRetry(o: Owner, s: State, attempts: seq<Attempt>, p: Plan, calls: seq<Call>, lb: string)
    requires Inv(o, s) && History(o, s, attempts) && forall i | 0 <= i < |attempts| :: attempts[i].run.Ensure?
    requires Sound(p) && p.owner == o && Permitted(Ensure(p), After(s, attempts), calls)
    requires Settled(p, ApplyAll(After(s, attempts), calls), lb)
    ensures var end := ApplyAll(After(s, attempts), calls);
            && Inv(o, end) && Foreign(o, end) == Foreign(o, s)
            && (forall id | id in end.lbs && OwnLb(o, end.lbs[id]) :: id == lb)
            && PortsOf(end, lb) == WantedPorts(p)
            && AllLbCreates(attempts) + LbCreates(calls) <= 1
  {
    hide Inv, Foreign, Permitted, ListenersSettled, GroupsSettled, History, After, ApplyAll, AllLbCreates, PortsOf,
      WantedPorts, HasLb;
    HistoryExtended(o, s, attempts, Attempt(Ensure(p), calls));
    var all := attempts + [Attempt(Ensure(p), calls)];
    HistorySafe(o, s, all);
    AtMostOneLbCreated(o, s, all);
    SettledPorts(p, After(s, all), lb);
    OneLbIsIt(o, After(s, all), lb);
  }

  // ---------------------------------------------------------------- ensure, then delete

  predicate OwnsNothing(o: Owner, s: State) {
    && (forall id | id in s.lbs :: !OwnLb(o, s.lbs[id]))
    && (forall id | id in s.groups :: !OwnGroup(o, s.groups[id]))
    && (forall id | id in s.sgs :: !OwnSg(o, s.sgs[id]))
  }

  /** What a completed delete leaves behind: no load balancer, and no group that is not in use. */
  predicate TornDown(o: Owner, s: State) {
    && (forall id | id in s.lbs :: !OwnLb(o, s.lbs[id]))
    && (forall id | id in s.groups && OwnGroup(o, s.groups[id]) :: ListenersOf(s, id) != {})
  }

  predicate InUse(listeners: map<string, Listener>, group: string) {
    exists l :: l in listeners && listeners[l].target == group
  }

  /** The cloud without the owner's load balancers, listeners and security groups, and without its groups
      that nobody else uses. */
  function Purged(o: Owner, s: State): State {
    var listeners := ForeignListeners(o, s.lbs, s.listeners);
    State(ForeignLbs(o, s.lbs), listeners,
          map id | id in s.groups && (OwnGroup(o, s.groups[id]) ==> InUse(listeners, id)) :: s.groups[id],
          ForeignSgs(o, s.sgs))
  }

  /** What a delete leaves when none of its calls fails: it looks for the load balancer first and, finding
      none, leaves everything as it is. */
  function DeletedFrom(o: Owner, s: State): State {
    if HasLb(o, s) then Purged(o, s) else s
  }

  /** Other people's listeners use other people's groups as long as nothing but the owner's has changed
      since it owned nothing. */
  lemma GroupNotInUse(o: Owner, s: State, now: State, id: string)
    requires Safe(s) && OwnsNothing(o, s) && Foreign(o, now) == Foreign(o, s)
    requires id in now.groups && OwnGroup(o, now.groups[id])
    ensures !InUse(ForeignListeners(o, now.lbs, now.listeners), id)
  {
    forall l | l in Foreign(o, now).listeners
      ensures now.listeners[l].target != id
    {
      assert l in Foreign(o, s).listeners;
      assert l in s.listeners && s.listeners[l] == now.listeners[l];
      var target := s.listeners[l].target;
      assert target in Foreign(o, s).groups && target in Foreign(o, now).groups;
    }
  }

  lemma PurgedIsForeign(o: Owner, s: State, now: State)
    requires Safe(s) && OwnsNothing(o, s) && Foreign(o, now) == Foreign(o, s)
    ensures Purged(o, now) == Foreign(o, now)
  {
    forall id | id in now.groups && OwnGroup(o, now.groups[id])
      ensures id !in Purged(o, now).groups
    {
      GroupNotInUse(o, s, now, id);
    }
    assert Purged(o, now).groups == ForeignGroups(o, now.groups);
  }

  /** Ensure, then delete: from a cloud without objects of the service, after any runs for it, planned or
      not and cut off anywhere, a delete in which no call fails restores the cloud if and only if it finds
      a load balancer or there was nothing to delete. */
  lemma EnsureThenDelete(o: Owner, s: State, attempts: seq<Attempt>)
    requires Safe(s) && OwnsNothing(o, s) && History(o, s, attempts)
    ensures var before := After(s, attempts);
            DeletedFrom(o, before) == s <==> HasLb(o, before) || OwnsNothing(o, before)
  {
    hide Safe, Foreign, Purged, History, After, OwnsNothing;
    var before := After(s, attempts);
    EveryHistoryIsHarmless(o, s, attempts);
    NothingOwnedIsForeign(o, s);
    PurgedIsForeign(o, s, before);
    if OwnsNothing(o, before) {
      NothingOwnedIsForeign(o, before);
    }
  }

  /** A delete that ends torn down, because it reports no failing deletion of the security group, still
      restores everything but that. */
  lemma TornDownRestores(o: Owner, s: State, attempts: seq<Attempt>, calls: seq<Call>)
    requires Safe(s) && OwnsNothing(o, s) && History(o, s, attempts)
    requires Permitted(Teardown(o), After(s, attempts), calls)
    requires TornDown(o, ApplyAll(After(s, attempts), calls))
    ensures var end := ApplyAll(After(s, attempts), calls);
            && end.lbs == s.lbs && end.listeners == s.listeners && end.groups == s.groups
            && ForeignSgs(o, end.sgs) == s.sgs
  {
    hide Safe, Permitted, History, After, ApplyAll, TornDown, OwnsNothing, OwnSg;
    HistoryExtended(o, s, attempts, Attempt(Teardown(o), calls));
    var all := attempts + [Attempt(Teardown(o), calls)];
    EveryHistoryIsHarmless(o, s, all);
    var end := After(s, all);
    NothingOwnedIsForeign(o, s);
    NoGroupLeft(o, s, end);
  }

  lemma NoGroupLeft(o: Owner, s: State, end: State)
    requires Safe(s) && OwnsNothing(o, s) && Foreign(o, end) == Foreign(o, s) && TornDown(o, end)
    ensures ForeignLbs(o, end.lbs) == end.lbs && ForeignGroups(o, end.groups) == end.groups
    ensures ForeignListeners(o, end.lbs, end.listeners) == end.listeners
  {
    var listeners := ForeignListeners(o, end.lbs, end.listeners);
    assert listeners == end.listeners;
    forall id | id in end.groups
      ensures !OwnGroup(o, end.groups[id])
    {
      if OwnGroup(o, end.groups[id]) {
        var l :| l in ListenersOf(end, id);
        assert l in listeners && listeners[l].target == id;
        GroupNotInUse(o, s, end, id);
      }
    }
  }

  lemma NothingOwnedIsForeign(o: Owner, s: State)
    requires OwnsNothing(o, s)
    ensures Foreign(o, s) == s
  {
    assert ForeignLbs(o, s.lbs) == s.lbs && ForeignListeners(o, s.lbs, s.listeners) == s.listeners;
    assert ForeignGroups(o, s.groups) == s.groups && ForeignSgs(o, s.sgs) == s.sgs;
  }

  lemma OneCall(run: Run, s: State, c: Call)
    requires run.IsSound() && run.Allows(s, c)
    ensures Permitted(run, s, [c]) && ApplyAll(s, [c]) == Apply(s, c)
  {
    var calls := [c];
    assert calls[..|calls| - 1] == [];
  }

  /** An ensure run cut off between creating the managed security group and the load balancer leaves a
      group that no delete removes: the delete finds no load balancer and leaves the cloud as it is. */
  lemma CutOffBeforeLbLeaks(p: Plan, s: State, id: string)
    requires Sound(p) && p.managed && Safe(s) && OwnsNothing(p.owner, s) && id != "" && id !in s.sgs
    ensures History(p.owner, s, [Attempt(Ensure(p), [CreateSg(id, p.newSg)])])
    ensures var before := After(s, [Attempt(Ensure(p), [CreateSg(id, p.newSg)])]);
            var end := DeletedFrom(p.owner, before);
            !HasLb(p.owner, before) && end != s && id in end.sgs && OwnSg(p.owner, end.sgs[id])
  {
    hide Safe, OwnLb, OwnGroup, Foreign;
    var c := CreateSg(id, p.newSg);
    OneCall(Ensure(p), s, c);
    var attempts := [Attempt(Ensure(p), [c])];
    var init, last := attempts[..|attempts| - 1], attempts[|attempts| - 1];
    assert init == [] && History(p.owner, s, init) && After(s, init) == s;
    assert last.run.Owner() == p.owner && Permitted(last.run, s, last.calls);
  }
}
