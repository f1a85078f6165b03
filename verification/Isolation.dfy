/** Many services, one cloud: a run for one service leaves every other service's invariant and wanted
    state as they were. */
module Isolation {
  import opened GoText
  import opened Kubernetes
  import opened Cloud
  import opened Plan
  import opened Views
  import opened Metadata
  import opened Desired

  // ---------------------------------------------------------------- two owners

  /** No labels pass both owners' filters. */
  ghost predicate Unlike(a: Owner, b: Owner) {
    forall labels :: !(a.carried(labels) && b.carried(labels))
  }

  /** No load balancer counts as both owners'. */
  predicate NotShared(a: Owner, b: Owner, lbs: map<string, LoadBalancer>) {
    forall id | id in lbs :: !(OwnLb(a, lbs[id]) && OwnLb(b, lbs[id]))
  }

  /** Services with different UIDs are unlike, whatever the additional labels are. */
  lemma DifferentUidsUnlike(cfg: Config, svc: Service, other: Service)
    requires svc.uid != other.uid
    ensures Unlike(OwnerOf(cfg, svc), OwnerOf(cfg, other))
  {
    hide LbLabels;
    forall labels: Labels
      ensures !(Carries(LbLabels(cfg, svc), labels) && Carries(LbLabels(cfg, other), labels))
    {
      UidCarried(cfg, svc, labels);
      UidCarried(cfg, other, labels);
    }
  }

  lemma UidCarried(cfg: Config, svc: Service, labels: Labels)
    ensures Carries(LbLabels(cfg, svc), labels) ==> LABEL_UID in labels && labels[LABEL_UID] == svc.uid
  {
    assert LABEL_UID in LbLabels(cfg, svc) && LbLabels(cfg, svc)[LABEL_UID] == svc.uid;
  }

  /** A load balancer created for a does not count as b's. */
  predicate StaysClear(a: Owner, b: Owner) {
    a.vpc == b.vpc ==> !b.matched(a.labels) && a.lbName != b.lbName
  }

  /** The load balancer of one service is not taken for the other's: the UIDs and the names differ. */
  lemma PlanStaysClear(cfg: Config, svc: Service, other: Service)
    requires svc.uid != other.uid && svc.lbName != other.lbName
    ensures StaysClear(OwnerOf(cfg, svc), OwnerOf(cfg, other))
  {
    var labels := LbLabels(cfg, svc);
    assert labels[LABEL_UID] == svc.uid;
    OtherUidIsForeign(cfg, other, labels);
  }

  // ---------------------------------------------------------------- what a run's calls keep

  lemma CallKeepsNotShared(a: Owner, b: Owner, s: State, c: Call)
    requires MayTouch(a, s, c) && StaysClear(a, b) && NotShared(a, b, s.lbs)
    ensures NotShared(a, b, Apply(s, c).lbs)
  {
    hide ListenersOf, OwnGroup, OwnSg, OwnTarget;
  }

  lemma GroupCallKeepsTargets(o: Owner, s: State, c: Call)
    requires MayTouch(o, s, c) && OwnTargets(o, s)
    requires c.CreateGroup? || c.UpdateGroup? || c.SetAttachments? || c.DeleteGroup?
    ensures OwnTargets(o, Apply(s, c))
  {
    hide OwnLb;
    if c.DeleteGroup? {
      assert forall l | l in s.listeners :: l !in ListenersOf(s, c.id);
    }
  }

  lemma LbCallKeepsTargets(o: Owner, s: State, c: Call)
    requires Safe(s) && MayTouch(o, s, c) && OwnTargets(o, s) && (c.CreateLb? || c.UpdateLb? || c.DeleteLb?)
    ensures OwnTargets(o, Apply(s, c))
  {
    LbTouchKeepsListeners(o, s, c);
    hide OwnListener, OwnGroup;
  }

  lemma CallKeepsTargets(o: Owner, s: State, c: Call)
    requires Safe(s) && MayTouch(o, s, c) && OwnTargets(o, s)
    ensures OwnTargets(o, Apply(s, c))
  {
    if c.CreateGroup? || c.UpdateGroup? || c.SetAttachments? || c.DeleteGroup? {
      GroupCallKeepsTargets(o, s, c);
    } else if c.CreateLb? || c.UpdateLb? || c.DeleteLb? {
      LbCallKeepsTargets(o, s, c);
    } else {
      hide OwnLb, OwnGroup, OwnSg, Safe;
    }
  }

  lemma {:induction false} RunKeepsTargets(run: Run, s: State, calls: seq<Call>)
    requires run.IsSound() && Safe(s) && Permitted(run, s, calls) && OwnTargets(run.Owner(), s)
    ensures OwnTargets(run.Owner(), ApplyAll(s, calls))
    decreases |calls|
  {
    hide OwnTargets, MayTouch, Run.Allows, Safe, Apply, Foreign, Run.IsSound;
    if calls != [] {
      var init, last := calls[..|calls| - 1], calls[|calls| - 1];
      RunKeepsTargets(run, s, init);
      EveryRunIsHarmless(run, s, calls, |init|);
      assert calls[..|init|] == init;
      AllowedIsTouch(run, ApplyAll(s, init), last);
      CallKeepsTargets(run.Owner(), ApplyAll(s, init), last);
    }
  }

  lemma {:induction false} RunKeepsNotShared(run: Run, b: Owner, s: State, calls: seq<Call>)
    requires run.IsSound() && Permitted(run, s, calls) && StaysClear(run.Owner(), b) && NotShared(run.Owner(), b, s.lbs)
    ensures NotShared(run.Owner(), b, ApplyAll(s, calls).lbs)
    decreases |calls|
  {
    hide NotShared, MayTouch, Run.Allows, StaysClear, Apply, Run.IsSound;
    if calls != [] {
      var init, last := calls[..|calls| - 1], calls[|calls| - 1];
      RunKeepsNotShared(run, b, s, init);
      AllowedIsTouch(run, ApplyAll(s, init), last);
      CallKeepsNotShared(run.Owner(), b, ApplyAll(s, init), last);
    }
  }

  // ---------------------------------------------------------------- what the other owner sees

  /** Nothing of b's changed from s to s' while a run for a went on. */
  predicate Undisturbed(a: Owner, s: State, s': State) {
    Foreign(a, s') == Foreign(a, s)
  }

  lemma ForeignLbsAndSgsKept(a: Owner, b: Owner, s: State, s': State)
    requires Unlike(a, b) && NotShared(a, b, s.lbs) && Undisturbed(a, s, s')
    ensures KeptLbs(b, s.lbs, s'.lbs) && KeptSgs(b, s.sgs, s'.sgs)
  {
    assert forall id | id in s.lbs && OwnLb(b, s.lbs[id]) :: id in Foreign(a, s).lbs;
    assert forall id | id in s.sgs && OwnSg(b, s.sgs[id]) :: id in Foreign(a, s).sgs;
  }

  lemma ForeignListenersKept(a: Owner, b: Owner, s: State, s': State)
    requires Unlike(a, b) && NotShared(a, b, s.lbs) && Undisturbed(a, s, s') && OwnTargets(a, s)
    ensures KeptListeners(b, s, s') && KeptUses(b, s, s')
  {
    hide OwnLb;
    forall l | l in s.listeners
               && (OwnListener(b, s.lbs, s.listeners[l]) || OwnTarget(b, s.groups, s.listeners[l].target))
      ensures l in s'.listeners && s'.listeners[l] == s.listeners[l]
    {
      assert !OwnListener(a, s.lbs, s.listeners[l]);
      assert l in Foreign(a, s).listeners;
    }
  }

  lemma ForeignGroupsKept(a: Owner, b: Owner, s: State, s': State)
    requires Unlike(a, b) && Undisturbed(a, s, s')
    ensures KeptGroups(b, s.groups, s'.groups)
  {
    assert forall id | id in s.groups && OwnGroup(b, s.groups[id]) :: id in Foreign(a, s).groups;
  }

  /** Whatever a run for one owner did, the other sees the same as before. */
  lemma ForeignRunKeepsView(a: Owner, b: Owner, s: State, s': State)
    requires Unlike(a, b) && NotShared(a, b, s.lbs) && NotShared(a, b, s'.lbs) && Undisturbed(a, s, s')
    requires OwnTargets(a, s) && OwnTargets(a, s')
    ensures SameView(b, s, s')
  {
    hide Unlike, NotShared, OwnTargets, Foreign, KeptLbs, KeptListeners, KeptGroups, KeptUses, KeptSgs;
    ForeignLbsAndSgsKept(a, b, s, s');
    ForeignListenersKept(a, b, s, s');
    ForeignGroupsKept(a, b, s, s');
    ForeignLbsAndSgsKept(a, b, s', s);
    ForeignListenersKept(a, b, s', s);
    ForeignGroupsKept(a, b, s', s);
  }

  /** Load balancers that two others do not share, they still do not share. */
  lemma OthersStayNotShared(b: Owner, c: Owner, s: State, s': State)
    requires SameView(b, s, s') && NotShared(b, c, s.lbs)
    ensures NotShared(b, c, s'.lbs)
  {
    hide OwnLb, KeptListeners, KeptGroups, KeptUses, KeptSgs;
  }

  /** A run for one service, well-formed or not, however far it gets, leaves another's view as it was. */
  lemma RunKeepsView(run: Run, b: Owner, s: State, calls: seq<Call>)
    requires run.IsSound() && Safe(s) && Permitted(run, s, calls)
    requires Unlike(run.Owner(), b) && StaysClear(run.Owner(), b) && NotShared(run.Owner(), b, s.lbs)
    requires OwnTargets(run.Owner(), s)
    ensures NotShared(run.Owner(), b, ApplyAll(s, calls).lbs) && SameView(b, s, ApplyAll(s, calls))
  {
    hide Safe, NotShared, Unlike, StaysClear, OwnTargets, Foreign, Permitted, SameView, Run.IsSound;
    RunKeepsNotShared(run, b, s, calls);
    RunKeepsTargets(run, s, calls);
    EveryRunIsHarmless(run, s, calls, |calls|);
    assert calls[..|calls|] == calls;
    ForeignRunKeepsView(run.Owner(), b, s, ApplyAll(s, calls));
  }

  /** Isolation: whatever a run for one service, well-formed or not, gets to do before it ends or is cut
      off, another service's objects stay unique if they were, and if its cloud was as its plan wants it,
      it still is. */
  lemma OthersUndisturbed(run: Run, p: Plan, s: State, calls: seq<Call>, lb: string)
    requires run.IsSound() && Safe(s) && Permitted(run, s, calls) && Proper(p) && |p.groups| == |p.listeners|
    requires Unlike(run.Owner(), p.owner) && StaysClear(run.Owner(), p.owner) && NotShared(run.Owner(), p.owner, s.lbs)
    requires OwnTargets(run.Owner(), s) && OwnTargets(p.owner, s)
    ensures var s' := ApplyAll(s, calls); NotShared(run.Owner(), p.owner, s'.lbs) && OwnTargets(p.owner, s')
    ensures Inv(p.owner, s) ==> Inv(p.owner, ApplyAll(s, calls))
    ensures Settled(p, s, lb) ==> Settled(p, ApplyAll(s, calls), lb)
  {
    hide Safe, Unique, NotShared, Unlike, StaysClear, OwnTargets, Foreign, Permitted, SameView, Run.IsSound, Settled,
      Proper, ApplyAll;
    var s' := ApplyAll(s, calls);
    RunKeepsView(run, p.owner, s, calls);
    EveryRunIsHarmless(run, s, calls, |calls|);
    assert calls[..|calls|] == calls;
    ViewDecidesTargets(p.owner, s, s');
    if Unique(p.owner, s) {
      ViewDecidesUnique(p.owner, s, s');
    }
    if Settled(p, s, lb) {
      ViewDecidesSettled(p, s, s', lb);
    }
  }

  // ---------------------------------------------------------------- what listings show

  /** Every listing that a reconcile or a delete goes by shows the same wherever the owner sees the same: its
      target groups with their users, its load balancers' listeners, and its security groups. Of the listing
      of load balancers, which has no filter, the code keeps the owner's. The one other listing, by which it
      checks that the security groups a service names exist, can only make it stop. */
  lemma SameListings(cfg: Config, svc: Service, s: State, s': State)
    requires SameView(OwnerOf(cfg, svc), s, s')
    ensures forall vpc :: GroupIds(s', vpc, LbLabels(cfg, svc)) == GroupIds(s, vpc, LbLabels(cfg, svc))
    ensures forall id | id in s.groups && OwnGroup(OwnerOf(cfg, svc), s.groups[id]) ::
              id in s'.groups && ListedGroups(s')[id] == ListedGroups(s)[id]
    ensures forall lb | lb in s.lbs && OwnLb(OwnerOf(cfg, svc), s.lbs[lb]) :: ListenerIds(s', lb) == ListenerIds(s, lb)
    ensures var labels := Some(LbLabels(cfg, svc));
            SgIds(s', cfg.vpcIdentity, labels) == SgIds(s, cfg.vpcIdentity, labels)
    ensures forall id | id in LbIds(s, cfg.vpcIdentity) && OwnLb(OwnerOf(cfg, svc), s.lbs[id]) ::
              id in LbIds(s', cfg.vpcIdentity) && s'.lbs[id] == s.lbs[id]
  {
    hide LbLabels, Carries, Matches;
    var o := OwnerOf(cfg, svc);
    forall id | id in s.groups && OwnGroup(o, s.groups[id])
      ensures id in s'.groups && ListedGroups(s')[id] == ListedGroups(s)[id]
    {
      SameUses(o, s, s', id);
    }
    forall lb | lb in s.lbs && OwnLb(o, s.lbs[lb])
      ensures ListenerIds(s', lb) == ListenerIds(s, lb)
    {
      assert forall l | l in s.listeners && s.listeners[l].lb == lb :: OwnListener(o, s.lbs, s.listeners[l]);
      assert forall l | l in s'.listeners && s'.listeners[l].lb == lb :: OwnListener(o, s'.lbs, s'.listeners[l]);
    }
  }

  // ---------------------------------------------------------------- all services at once

  /** Two versions of one service, or services with UIDs and load balancer names of their own. */
  predicate Compatible(a: Service, b: Service) {
    if a.uid == b.uid then a.namespace == b.namespace && a.name == b.name && a.lbName == b.lbName
    else a.lbName != b.lbName
  }

  /** The services of a cluster, in all their versions. */
  predicate AllKnown(all: set<Service>) {
    forall a, b | a in all && b in all :: Compatible(a, b)
  }

  /** Nothing dangles, every service's listeners forward to its own groups, and no two services share a
      load balancer. Whether anything is there twice does not matter. */
  ghost predicate CloudSafe(cfg: Config, all: set<Service>, s: State) {
    && Safe(s)
    && (forall a | a in all :: OwnTargets(OwnerOf(cfg, a), s))
    && (forall a, b | a in all && b in all && a.uid != b.uid :: NotShared(OwnerOf(cfg, a), OwnerOf(cfg, b), s.lbs))
  }

  lemma KnownApart(cfg: Config, all: set<Service>, svc: Service, other: Service)
    requires AllKnown(all) && svc in all && other in all && svc.uid != other.uid
    ensures Unlike(OwnerOf(cfg, svc), OwnerOf(cfg, other)) && StaysClear(OwnerOf(cfg, svc), OwnerOf(cfg, other))
  {
    hide Unlike, StaysClear, OwnerOf;
    assert Compatible(svc, other);
    DifferentUidsUnlike(cfg, svc, other);
    PlanStaysClear(cfg, svc, other);
  }

  lemma KnownSame(cfg: Config, all: set<Service>, svc: Service, other: Service)
    requires AllKnown(all) && svc in all && other in all && svc.uid == other.uid
    ensures OwnerOf(cfg, svc) == OwnerOf(cfg, other)
  {
    assert Compatible(svc, other);
    VersionsShareOwner(cfg, svc, other);
  }

  /** What a run for one service leaves another, of a different UID: all that it sees. */
  lemma RunForAnother(cfg: Config, all: set<Service>, svc: Service, run: Run, s: State, calls: seq<Call>,
                      other: Service)
    requires AllKnown(all) && CloudSafe(cfg, all, s) && svc in all && other in all && svc.uid != other.uid
    requires run.IsSound() && Permitted(run, s, calls) && run.Owner() == OwnerOf(cfg, svc)
    ensures SameView(OwnerOf(cfg, other), s, ApplyAll(s, calls))
  {
    hide Safe, NotShared, Unlike, OwnerOf, Permitted, Run.IsSound, OwnTargets, StaysClear, ApplyAll, AllKnown, SameView;
    KnownApart(cfg, all, svc, other);
    RunKeepsView(run, OwnerOf(cfg, other), s, calls);
  }

  /** Any run for one service, whole or cut off anywhere, keeps the cloud safe for all services. */
  lemma RunKeepsCloudSafe(cfg: Config, all: set<Service>, svc: Service, run: Run, s: State, calls: seq<Call>)
    requires AllKnown(all) && CloudSafe(cfg, all, s) && svc in all
    requires run.IsSound() && Permitted(run, s, calls) && run.Owner() == OwnerOf(cfg, svc)
    ensures CloudSafe(cfg, all, ApplyAll(s, calls))
  {
    hide Safe, NotShared, Unlike, OwnerOf, Permitted, Run.IsSound, OwnTargets, StaysClear, ApplyAll, AllKnown, Foreign,
      SameView;
    var o, s' := OwnerOf(cfg, svc), ApplyAll(s, calls);
    EveryRunIsHarmless(run, s, calls, |calls|);
    assert calls[..|calls|] == calls;
    RunKeepsTargets(run, s, calls);
    forall other | other in all
      ensures OwnTargets(OwnerOf(cfg, other), s')
      ensures other.uid != svc.uid ==>
                SameView(OwnerOf(cfg, other), s, s') && NotShared(o, OwnerOf(cfg, other), s'.lbs)
                && NotShared(OwnerOf(cfg, other), o, s'.lbs)
    {
      if other.uid == svc.uid {
        KnownSame(cfg, all, svc, other);
      } else {
        KnownApart(cfg, all, svc, other);
        RunKeepsView(run, OwnerOf(cfg, other), s, calls);
        NotSharedSymmetric(o, OwnerOf(cfg, other), s'.lbs);
        ViewDecidesTargets(OwnerOf(cfg, other), s, s');
      }
    }
    forall a, b | a in all && b in all && a.uid != b.uid
      ensures NotShared(OwnerOf(cfg, a), OwnerOf(cfg, b), s'.lbs)
    {
      if a.uid == svc.uid {
        KnownSame(cfg, all, svc, a);
      } else if b.uid == svc.uid {
        KnownSame(cfg, all, svc, b);
      } else {
        OthersStayNotShared(OwnerOf(cfg, a), OwnerOf(cfg, b), s, s');
      }
    }
  }

  lemma NotSharedSymmetric(a: Owner, b: Owner, lbs: map<string, LoadBalancer>)
    ensures NotShared(a, b, lbs) <==> NotShared(b, a, lbs)
  {}
}
