/** What one owner sees of the cloud, and that this is all that a run on its behalf depends on: its
    uniqueness, its wanted state and every permission are the same wherever it sees the same. */
module Views {
  import opened Cloud
  import opened Plan

  /** The owner's listeners forward to the owner's groups. */
  predicate OwnTargets(o: Owner, s: State) {
    forall l | l in s.listeners && OwnListener(o, s.lbs, s.listeners[l]) ::
      s.listeners[l].target in s.groups && OwnGroup(o, s.groups[s.listeners[l].target])
  }

  predicate KeptLbs(o: Owner, lbs: map<string, LoadBalancer>, lbs': map<string, LoadBalancer>) {
    forall id | id in lbs && OwnLb(o, lbs[id]) :: id in lbs' && lbs'[id] == lbs[id]
  }

  predicate KeptListeners(o: Owner, s: State, s': State) {
    forall l | l in s.listeners && OwnListener(o, s.lbs, s.listeners[l]) ::
      l in s'.listeners && s'.listeners[l] == s.listeners[l]
  }

  predicate KeptGroups(o: Owner, groups: map<string, Group>, groups': map<string, Group>) {
    forall id | id in groups && OwnGroup(o, groups[id]) :: id in groups' && groups'[id] == groups[id]
  }

  /** Whoever's they are, listeners that forward to the owner's groups still do. */
  predicate KeptUses(o: Owner, s: State, s': State) {
    forall l | l in s.listeners && OwnTarget(o, s.groups, s.listeners[l].target) ::
      l in s'.listeners && s'.listeners[l].target == s.listeners[l].target
  }

  predicate KeptSgs(o: Owner, sgs: map<string, SecurityGroup>, sgs': map<string, SecurityGroup>) {
    forall id | id in sgs && OwnSg(o, sgs[id]) :: id in sgs' && sgs'[id] == sgs[id]
  }

  /** Every object of the owner's in s is in s', too, unchanged, and whoever uses its groups still does. */
  predicate Kept(o: Owner, s: State, s': State) {
    && KeptLbs(o, s.lbs, s'.lbs) && KeptListeners(o, s, s') && KeptGroups(o, s.groups, s'.groups)
    && KeptUses(o, s, s') && KeptSgs(o, s.sgs, s'.sgs)
  }

  /** The owner sees the same in both: the same objects of its own, and the same users of its groups. */
  predicate SameView(o: Owner, s: State, s': State) {
    Kept(o, s, s') && Kept(o, s', s)
  }

  lemma KeptOn(o: Owner, a: State, b: State, c: State)
    requires Kept(o, a, b) && Kept(o, b, c)
    ensures Kept(o, a, c)
  {
    hide OwnLb, OwnGroup, OwnSg, ListenersOf;
  }

  lemma SameViewOn(o: Owner, a: State, b: State, c: State)
    requires SameView(o, a, b) && SameView(o, b, c)
    ensures SameView(o, a, c)
  {
    hide Kept;
    KeptOn(o, a, b, c);
    KeptOn(o, c, b, a);
  }

  lemma SameViewOfSame(o: Owner, s: State)
    ensures SameView(o, s, s)
  {}

  // ---------------------------------------------------------------- what the view decides

  lemma SameUses(o: Owner, s: State, s': State, g: string)
    requires SameView(o, s, s') && OwnTarget(o, s.groups, g)
    ensures ListenersOf(s', g) == ListenersOf(s, g)
  {
    hide OwnLb, OwnGroup, OwnSg, KeptSgs, KeptListeners, KeptLbs;
  }

  lemma ViewDecidesUnique(o: Owner, s: State, s': State)
    requires SameView(o, s, s') && Unique(o, s)
    ensures Unique(o, s')
  {
    hide OwnLb, OwnGroup, OwnSg, ListenersOf;
  }

  lemma ViewDecidesTargets(o: Owner, s: State, s': State)
    requires SameView(o, s, s') && OwnTargets(o, s)
    ensures OwnTargets(o, s')
  {
    hide OwnLb, OwnGroup, OwnSg, ListenersOf;
  }

  lemma ViewDecidesSgs(p: Plan, s: State, s': State, sgs: seq<string>)
    requires SameView(p.owner, s, s') && WantedSgs(p, s.sgs, sgs)
    ensures WantedSgs(p, s'.sgs, sgs)
  {
    hide OwnLb, OwnGroup, OwnSg, ListenersOf;
  }

  lemma ViewDecidesReadyGroup(p: Plan, s: State, s': State, i: nat, id: string)
    requires SameView(p.owner, s, s') && Proper(p) && i < |p.groups| && ReadyGroup(p, s.groups, i, id)
    ensures ReadyGroup(p, s'.groups, i, id)
  {
    hide OwnLb, OwnListener, OwnSg, ListenersOf;
    assert OwnGroup(p.owner, s.groups[id]);
  }

  lemma ViewDecidesReady(p: Plan, s: State, s': State, spec: ListenerSpec, target: string)
    requires SameView(p.owner, s, s') && Proper(p) && |p.groups| == |p.listeners|
    requires ReadyListener(p, s.groups, spec, target)
    ensures ReadyListener(p, s'.groups, spec, target)
  {
    hide SameView, Proper, ReadyGroup;
    var i :| 0 <= i < |p.listeners| && p.listeners[i] == spec && ReadyGroup(p, s.groups, i, target);
    ViewDecidesReadyGroup(p, s, s', i, target);
  }

  lemma ViewDecidesLbSettled(p: Plan, s: State, s': State, lb: string)
    requires SameView(p.owner, s, s') && LbSettled(p, s, lb)
    ensures LbSettled(p, s', lb)
  {
    hide OwnLb, OwnGroup, OwnSg, OwnListener, ListenersOf, WantedSgs;
    ViewDecidesSgs(p, s, s', s.lbs[lb].securityGroups);
  }

  lemma ViewDecidesListenersSettled(p: Plan, s: State, s': State, lb: string)
    requires SameView(p.owner, s, s') && Proper(p) && |p.groups| == |p.listeners|
    requires lb in s.lbs && OwnLb(p.owner, s.lbs[lb]) && ListenersSettled(p, s, lb)
    ensures ListenersSettled(p, s', lb)
  {
    hide OwnLb, OwnGroup, OwnSg, ListenersOf, Proper, ReadyGroup;
    forall i | 0 <= i < |p.listeners|
      ensures PortServed(p, s', lb, i)
    {
      assert PortServed(p, s, lb, i);
      var l :| l in s.listeners && s.listeners[l].lb == lb && s.listeners[l].spec == p.listeners[i]
               && ReadyGroup(p, s.groups, i, s.listeners[l].target);
      assert OwnListener(p.owner, s.lbs, s.listeners[l]);
      ViewDecidesReadyGroup(p, s, s', i, s.listeners[l].target);
    }
    forall l | l in s'.listeners && s'.listeners[l].lb == lb
      ensures ReadyListener(p, s'.groups, s'.listeners[l].spec, s'.listeners[l].target)
    {
      assert OwnListener(p.owner, s'.lbs, s'.listeners[l]) && s'.listeners[l] == s.listeners[l];
      ViewDecidesReady(p, s, s', s.listeners[l].spec, s.listeners[l].target);
    }
  }

  lemma ViewDecidesGroupsSettled(p: Plan, s: State, s': State)
    requires SameView(p.owner, s, s') && GroupsSettled(p, s)
    ensures GroupsSettled(p, s')
  {
    hide OwnLb, OwnListener, OwnGroup, OwnSg, ListenersOf, WantsKey, KeptUses;
    forall g | OwnTarget(p.owner, s.groups, g)
      ensures ListenersOf(s', g) == ListenersOf(s, g)
    {
      SameUses(p.owner, s, s', g);
    }
    assert forall g | g in s'.groups && OwnGroupHere(p.owner, s'.groups[g]) :: OwnTarget(p.owner, s.groups, g);
  }

  /** Whether the cloud is as a plan wants it depends on nothing but what its owner sees. */
  lemma ViewDecidesSettled(p: Plan, s: State, s': State, lb: string)
    requires SameView(p.owner, s, s') && Proper(p) && |p.groups| == |p.listeners| && Settled(p, s, lb)
    ensures Settled(p, s', lb)
  {
    hide SameView, Proper, ListenersSettled, GroupsSettled, OwnLb, WantedSgs, OwnSg;
    ViewDecidesLbSettled(p, s, s', lb);
    ViewDecidesListenersSettled(p, s, s', lb);
    ViewDecidesGroupsSettled(p, s, s');
  }

  // ---------------------------------------------------------------- what the view permits

  /** The identity the cloud gives a new object is in use by no other. */
  predicate IsNew(s: State, c: Call) {
    match c
    case CreateGroup(id, _) => id !in s.groups
    case CreateListener(id, _) => id !in s.listeners
    case CreateLb(id, _) => id !in s.lbs
    case CreateSg(id, _) => id !in s.sgs
    case _ => true
  }

  /** A call that may be made creates only under a new identity. */
  lemma AllowedIsNew(run: Run, s: State, c: Call)
    requires run.IsSound() && run.Allows(s, c)
    ensures IsNew(s, c)
  {
    hide Sound, MayTouch;
    AllowedIsTouch(run, s, c);
    TouchIsNew(run.Owner(), s, c);
  }

  lemma TouchIsNew(o: Owner, s: State, c: Call)
    requires MayTouch(o, s, c)
    ensures IsNew(s, c)
  {}

  lemma ViewPermitsTouch(o: Owner, s: State, s': State, c: Call)
    requires SameView(o, s, s') && MayTouch(o, s, c) && IsNew(s', c)
    ensures MayTouch(o, s', c)
  {
    hide OwnLb, OwnGroup, OwnSg, ListenersOf;
    if c.DeleteGroup? {
      SameUses(o, s, s', c.id);
    }
  }

  lemma ViewPermitsTearDown(o: Owner, s: State, s': State, c: Call)
    requires SameView(o, s, s') && MayTearDown(o, s, c)
    ensures MayTearDown(o, s', c)
  {
    hide OwnLb, OwnGroup, OwnSg, ListenersOf;
    if c.DeleteGroup? {
      SameUses(o, s, s', c.id);
    }
  }

  lemma ViewPermitsGroups(p: Plan, s: State, s': State, c: Call)
    requires SameView(p.owner, s, s') && MayChangeGroups(p, s, c) && IsNew(s', c)
    ensures MayChangeGroups(p, s', c)
  {
    hide OwnLb, OwnListener, OwnGroup, OwnSg, ListenersOf, WantsGroup, WantsKey;
    if c.DeleteGroup? {
      SameUses(p.owner, s, s', c.id);
    }
  }

  lemma ViewPermitsListeners(p: Plan, s: State, s': State, c: Call)
    requires SameView(p.owner, s, s') && Proper(p) && |p.groups| == |p.listeners|
    requires MayChangeListeners(p, s, c) && IsNew(s', c)
    ensures MayChangeListeners(p, s', c)
  {
    hide OwnLb, OwnGroup, OwnSg, ListenersOf, WantsPort, Proper, ReadyListener;
    if c.CreateListener? {
      ViewDecidesReady(p, s, s', c.listener.spec, c.listener.target);
    } else if c.UpdateListener? {
      ViewDecidesReady(p, s, s', c.listenerSpec, c.target);
    }
  }

  lemma ViewPermitsLb(p: Plan, s: State, s': State, c: Call)
    requires SameView(p.owner, s, s') && MayChangeLb(p, s, c) && IsNew(s', c)
    ensures MayChangeLb(p, s', c)
  {
    hide OwnLb, OwnGroup, OwnSg, OwnListener, ListenersOf, WantedSgs, ChooseSubnet;
    ViewDecidesSgs(p, s, s', c.lb.securityGroups);
  }

  lemma ViewPermitsSgs(p: Plan, s: State, s': State, c: Call)
    requires SameView(p.owner, s, s') && MayChangeSgs(p, s, c) && IsNew(s', c)
    ensures MayChangeSgs(p, s', c)
  {
    hide OwnLb, OwnGroup, OwnListener, OwnSg, ListenersOf;
  }

  lemma ViewPermitsEnsure(p: Plan, s: State, s': State, c: Call)
    requires SameView(p.owner, s, s') && Proper(p) && |p.groups| == |p.listeners| && MayEnsure(p, s, c) && IsNew(s', c)
    ensures MayEnsure(p, s', c)
  {
    hide SameView, Proper, MayChangeGroups, MayChangeListeners, MayChangeLb, MayChangeSgs, IsNew;
    if MayChangeGroups(p, s, c) {
      ViewPermitsGroups(p, s, s', c);
    } else if MayChangeListeners(p, s, c) {
      ViewPermitsListeners(p, s, s', c);
    } else if MayChangeLb(p, s, c) {
      ViewPermitsLb(p, s, s', c);
    } else {
      ViewPermitsSgs(p, s, s', c);
    }
  }

  /** What a run may do depends on nothing but what its owner sees, and on identities being new. */
  lemma ViewPermits(run: Run, s: State, s': State, c: Call)
    requires run.IsSound() && SameView(run.Owner(), s, s') && run.Allows(s, c) && IsNew(s', c)
    ensures run.Allows(s', c)
  {
    hide SameView, Sound, MayEnsure, MayTearDown, MayTouch, IsNew;
    match run
    case Ensure(p) =>
      SoundIsProper(p);
      ViewPermitsEnsure(p, s, s', c);
    case Teardown(o) => ViewPermitsTearDown(o, s, s', c);
    case Touch(o) => ViewPermitsTouch(o, s, s', c);
  }

  // ---------------------------------------------------------------- the owner's own calls

  lemma GroupCallKept(o: Owner, s: State, s': State, c: Call)
    requires SameView(o, s, s') && Safe(s) && Safe(s') && MayTouch(o, s, c) && MayTouch(o, s', c)
    requires c.CreateGroup? || c.UpdateGroup? || c.SetAttachments? || c.DeleteGroup?
    ensures Kept(o, Apply(s, c), Apply(s', c))
  {
    hide OwnLb, OwnSg, KeptLbs, KeptSgs;
    KeepsUsesThroughGroups(o, s, s', c);
  }

  lemma KeepsUsesThroughGroups(o: Owner, s: State, s': State, c: Call)
    requires KeptUses(o, s, s') && Safe(s) && MayTouch(o, s, c) && MayTouch(o, s', c)
    requires c.CreateGroup? || c.UpdateGroup? || c.SetAttachments? || c.DeleteGroup?
    ensures KeptUses(o, Apply(s, c), Apply(s', c))
  {
    hide OwnLb, OwnSg, ListenersOf;
  }

  lemma ListenerCallKept(o: Owner, s: State, s': State, c: Call)
    requires SameView(o, s, s') && MayTouch(o, s, c) && MayTouch(o, s', c)
    requires c.CreateListener? || c.UpdateListener? || c.DeleteListener?
    ensures Kept(o, Apply(s, c), Apply(s', c))
  {
    hide OwnLb, OwnGroup, OwnSg, KeptLbs, KeptSgs, KeptGroups;
  }

  lemma LbCallKept(o: Owner, s: State, s': State, c: Call)
    requires SameView(o, s, s') && Safe(s) && Safe(s') && MayTouch(o, s, c) && MayTouch(o, s', c)
    requires c.CreateLb? || c.UpdateLb? || c.DeleteLb?
    ensures Kept(o, Apply(s, c), Apply(s', c))
  {
    hide OwnGroup, OwnSg, KeptGroups, KeptSgs, KeptListeners, KeptUses, OwnTarget;
    KeepsListenersThroughLbs(o, s, s', c);
    KeepsUsesThroughLbs(o, s, s', c);
  }

  lemma KeepsListenersThroughLbs(o: Owner, s: State, s': State, c: Call)
    requires KeptListeners(o, s, s') && Safe(s) && Safe(s') && MayTouch(o, s, c) && MayTouch(o, s', c)
    requires c.CreateLb? || c.UpdateLb? || c.DeleteLb?
    ensures KeptListeners(o, Apply(s, c), Apply(s', c))
  {
    hide MayTouch, Safe, OwnListener, Apply;
    LbTouchKeepsListeners(o, s, c);
    LbCallTakes(s, c);
    LbCallTakes(s', c);
    forall l | l in Apply(s, c).listeners && OwnListener(o, Apply(s, c).lbs, Apply(s, c).listeners[l])
      ensures l in Apply(s', c).listeners && Apply(s', c).listeners[l] == Apply(s, c).listeners[l]
    {
      assert l in s'.listeners && s'.listeners[l] == s.listeners[l];
    }
  }

  /** Which listeners a call about load balancers leaves, all as they were. */
  lemma LbCallTakes(s: State, c: Call)
    requires c.CreateLb? || c.UpdateLb? || c.DeleteLb?
    ensures var s' := Apply(s, c);
            forall l | l in s.listeners && (c.DeleteLb? ==> s.listeners[l].lb != c.id) ::
              l in s'.listeners && s'.listeners[l] == s.listeners[l]
    ensures c.DeleteLb? ==> forall l | l in Apply(s, c).listeners :: Apply(s, c).listeners[l].lb != c.id
  {}

  /** A deleted load balancer takes its listeners along on both sides. */
  lemma KeepsUsesThroughLbs(o: Owner, s: State, s': State, c: Call)
    requires SameView(o, s, s') && MayTouch(o, s, c) && MayTouch(o, s', c)
    requires c.CreateLb? || c.UpdateLb? || c.DeleteLb?
    ensures KeptUses(o, Apply(s, c), Apply(s', c))
  {
    hide OwnLb, OwnGroup, OwnSg, KeptLbs, KeptGroups, KeptSgs;
    if c.DeleteLb? {
      forall l | l in s'.listeners && s'.listeners[l].lb == c.id
        ensures l in s.listeners && s.listeners[l] == s'.listeners[l]
      {
        assert OwnListener(o, s'.lbs, s'.listeners[l]);
      }
    }
  }

  lemma SgCallKept(o: Owner, s: State, s': State, c: Call)
    requires SameView(o, s, s') && MayTouch(o, s, c) && MayTouch(o, s', c)
    requires c.CreateSg? || c.UpdateSg? || c.DeleteSg?
    ensures Kept(o, Apply(s, c), Apply(s', c))
  {
    hide OwnLb, OwnGroup, OwnListener, KeptLbs, KeptGroups;
  }

  lemma CallKept(o: Owner, s: State, s': State, c: Call)
    requires SameView(o, s, s') && Safe(s) && Safe(s') && MayTouch(o, s, c) && MayTouch(o, s', c)
    ensures Kept(o, Apply(s, c), Apply(s', c))
  {
    hide SameView, Kept, Safe, MayTouch, Apply;
    if c.CreateGroup? || c.UpdateGroup? || c.SetAttachments? || c.DeleteGroup? {
      GroupCallKept(o, s, s', c);
    } else if c.CreateListener? || c.UpdateListener? || c.DeleteListener? {
      ListenerCallKept(o, s, s', c);
    } else if c.CreateLb? || c.UpdateLb? || c.DeleteLb? {
      LbCallKept(o, s, s', c);
    } else {
      SgCallKept(o, s, s', c);
    }
  }

  /** One call on the owner's behalf has the same effect wherever the owner sees the same. */
  lemma OwnCallKeepsView(o: Owner, s: State, s': State, c: Call)
    requires SameView(o, s, s') && Safe(s) && Safe(s') && MayTouch(o, s, c) && MayTouch(o, s', c)
    ensures SameView(o, Apply(s, c), Apply(s', c))
  {
    hide Kept, Safe, MayTouch, Apply;
    CallKept(o, s, s', c);
    CallKept(o, s', s, c);
  }
}
