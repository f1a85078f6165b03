/** The watcher, the resync queue and the service controller together with the cloud that their syncs
    change, call by call: what holds on every run of the whole controller for all services of a cluster. */
module Cluster {
  import opened Kubernetes
  import opened NodeFilter
  import opened Cloud
  import opened Plan
  import opened Runs
  import opened Views
  import opened Metadata
  import opened Desired
  import opened Controller
  import opened Isolation
  import opened Lifecycle
  import Watcher
  import Resync

  /** The configuration, the subnets of the VPC, and every version of every service there will be. */
  datatype Site = Site(cfg: Config, subnets: seq<Subnet>, all: set<Service>)

  /** What a sync or a deletion has done so far, as if it were alone: the cloud as it was when it began to
      change it, and its own calls since. */
  datatype Solo = Solo(start: State, calls: seq<Call>) {
    function Now(): State {
      ApplyAll(start, calls)
    }
  }

  datatype World = World(sys: Resync.System, cloud: State, solos: map<string, Solo>)

  /** A step of the queue and the caches, or one call of the sync or deletion under way for a key. */
  datatype Move = Step(step: Resync.Step) | Make(key: string, call: Call)

  // ---------------------------------------------------------------- moves

  predicate Acting(phase: Resync.Phase) {
    phase.Applying? || phase.Deleting?
  }

  /** The run that a sync or a deletion is, given the cloud it begins in. */
  ghost function RunFor(site: Site, phase: Resync.Phase, start: State): Run
    requires Acting(phase)
  {
    if phase.Applying? then RunOf(site.cfg, phase.svc, phase.decision.Apply(phase.nodes), site.subnets, start)
    else Teardown(OwnerOf(site.cfg, phase.svc))
  }

  /** A sync makes the calls it would make alone, since every listing it goes by shows it what it would see
      alone (Isolation.SameListings); meanwhile others make theirs. Only the identities that the cloud gives
      new objects take all objects into account. */
  ghost predicate MayMake(site: Site, w: World, key: string, c: Call) {
    && key in w.sys.running && Acting(w.sys.running[key].phase) && key in w.solos
    && var run := RunFor(site, w.sys.running[key].phase, w.solos[key].start);
       run.IsSound() && run.Allows(w.solos[key].Now(), c) && IsNew(w.cloud, c)
  }

  /** Alone, the sync would have reached the wanted state if it followed a plan. */
  ghost predicate Reached(site: Site, phase: Resync.Phase, solo: Solo) {
    phase.Applying? && (RunFor(site, phase, solo.start).Ensure? ==>
      Converged(site.cfg, phase.svc, phase.decision.Apply(phase.nodes), site.subnets, solo.Now()))
  }

  ghost predicate StepAllowed(site: Site, w: World, step: Resync.Step) {
    && Resync.Enabled(w.sys, step)
    && match step
       case SetService(svc) => svc in site.all
       case DeleteStart(svc) => svc in site.all
       case Finish(key, ok) => ok ==> key in w.solos && Reached(site, w.sys.running[key].phase, w.solos[key])
       case _ => true
  }

  ghost predicate Allowed(site: Site, w: World, m: Move) {
    match m
    case Step(step) => StepAllowed(site, w, step)
    case Make(key, c) => MayMake(site, w, key, c)
  }

  function SolosAfter(w: World, step: Resync.Step): map<string, Solo> {
    match step
    case Filter(key) => w.solos[key := Solo(w.cloud, [])]
    case DeleteStart(svc) => w.solos[svc.Key() := Solo(w.cloud, [])]
    case Finish(key, _) => w.solos - {key}
    case DeleteEnd(key, _) => w.solos - {key}
    case _ => w.solos
  }

  predicate Possible(w: World, m: Move) {
    match m
    case Step(step) => Resync.Enabled(w.sys, step)
    case Make(key, _) => key in w.solos
  }

  function Do(w: World, m: Move): World
    requires Possible(w, m)
  {
    match m
    case Step(step) => World(Resync.Do(w.sys, step), w.cloud, SolosAfter(w, step))
    case Make(key, c) =>
      World(w.sys, Apply(w.cloud, c), w.solos[key := Solo(w.solos[key].start, w.solos[key].calls + [c])])
  }

  ghost predicate IsRun(site: Site, worlds: seq<World>, moves: seq<Move>) {
    && |worlds| == |moves| + 1
    && forall i | 0 <= i < |moves| :: Allowed(site, worlds[i], moves[i]) && worlds[i + 1] == Do(worlds[i], moves[i])
  }

  lemma AllowedIsPossible(site: Site, w: World, m: Move)
    requires Allowed(site, w, m)
    ensures Possible(w, m)
  {}

  lemma ExtendRun(site: Site, worlds: seq<World>, moves: seq<Move>, m: Move)
    requires IsRun(site, worlds, moves) && Allowed(site, worlds[|moves|], m)
    ensures IsRun(site, worlds + [Do(worlds[|moves|], m)], moves + [m])
  {
    hide Reached, RunFor, Resync.Do, Apply;
    var worlds', moves' := worlds + [Do(worlds[|moves|], m)], moves + [m];
    forall i | 0 <= i < |moves'|
      ensures Allowed(site, worlds'[i], moves'[i]) && worlds'[i + 1] == Do(worlds'[i], moves'[i])
    {
      if i < |moves| {
        assert worlds'[i] == worlds[i] && worlds'[i + 1] == worlds[i + 1] && moves'[i] == moves[i];
      }
    }
  }

  // ---------------------------------------------------------------- what the methods do

  /** The calls that EnsureLoadBalancer or UpdateLoadBalancer made are those of a sync, one by one, and its
      success is that of the sync. */
  lemma ReconcileIsSync(site: Site, phase: Resync.Phase, s: State, l: seq<Call>, s': State, l': seq<Call>, ok: bool)
    requires phase.Applying?
    requires Reconciles(site.cfg, phase.svc, phase.decision.Apply(phase.nodes), site.subnets, s, l, s', l', ok)
    ensures |l| <= |l'| && s' == ApplyAll(s, l'[|l|..])
    ensures RunFor(site, phase, s).IsSound() && Permitted(RunFor(site, phase, s), s, l'[|l|..])
    ensures ok ==> Reached(site, phase, Solo(s, l'[|l|..]))
  {
    hide Permitted, Sound, Inv, Safe, Foreign, OwnerOf, PlanOf, Converged, Orderly, ApplyAll, Decision.Apply;
  }

  /** The calls that EnsureLoadBalancerDeleted made are those of a deletion. */
  lemma DeleteIsDeletion(site: Site, svc: Service, s: State, l: seq<Call>, s': State, l': seq<Call>)
    requires Deleted(site.cfg, svc, s, l, s', l')
    ensures var run := RunFor(site, Resync.Deleting(svc), s);
            |l| <= |l'| && s' == ApplyAll(s, l'[|l|..]) && run.IsSound() && Permitted(run, s, l'[|l|..])
  {
    hide Permitted, Inv, Safe, Foreign, OwnerOf, ApplyAll;
  }

  lemma ExtendWith(site: Site, worlds: seq<World>, moves: seq<Move>, m: Move)
    returns (worlds': seq<World>, moves': seq<Move>)
    requires IsRun(site, worlds, moves) && Allowed(site, worlds[|moves|], m)
    ensures IsRun(site, worlds', moves') && moves' == moves + [m] && worlds' == worlds + [Do(worlds[|moves|], m)]
  {
    ExtendRun(site, worlds, moves, m);
    worlds', moves' := worlds + [Do(worlds[|moves|], m)], moves + [m];
  }

  lemma RunShape(site: Site, worlds: seq<World>, moves: seq<Move>)
    requires IsRun(site, worlds, moves)
    ensures |worlds| == |moves| + 1
  {}

  function Makes(key: string, calls: seq<Call>): (moves: seq<Move>)
    ensures |moves| == |calls| && forall i | 0 <= i < |moves| :: moves[i] == Make(key, calls[i])
  {
    seq(|calls|, i requires 0 <= i < |calls| => Make(key, calls[i]))
  }

  lemma MakesOn(moves: seq<Move>, key: string, calls: seq<Call>, c: Call)
    ensures moves + Makes(key, calls + [c]) == moves + Makes(key, calls) + [Make(key, c)]
  {}

  /** The world after some calls of a sync that has nobody about. */
  function AfterCalls(w: World, key: string, calls: seq<Call>): World {
    World(w.sys, ApplyAll(w.cloud, calls), w.solos[key := Solo(w.cloud, calls)])
  }

  lemma OneMoreMake(site: Site, w: World, key: string, calls: seq<Call>, c: Call)
    requires key in w.sys.running && Acting(w.sys.running[key].phase)
    requires var run := RunFor(site, w.sys.running[key].phase, w.cloud);
             run.IsSound() && run.Allows(ApplyAll(w.cloud, calls), c)
    ensures Allowed(site, AfterCalls(w, key, calls), Make(key, c))
    ensures Do(AfterCalls(w, key, calls), Make(key, c)) == AfterCalls(w, key, calls + [c])
  {
    hide RunFor, Run.Allows, Run.IsSound, Apply, IsNew;
    AllowedIsNew(RunFor(site, w.sys.running[key].phase, w.cloud), ApplyAll(w.cloud, calls), c);
    assert (calls + [c])[..|calls|] == calls;
  }

  /** With nobody else about, a sync makes its calls one after the other. */
  lemma {:induction false} MakeCalls(site: Site, worlds: seq<World>, moves: seq<Move>, key: string, calls: seq<Call>)
    returns (worlds': seq<World>)
    requires IsRun(site, worlds, moves)
    requires var w := worlds[|moves|];
             && key in w.sys.running && Acting(w.sys.running[key].phase)
             && key in w.solos && w.solos[key] == Solo(w.cloud, [])
             && var run := RunFor(site, w.sys.running[key].phase, w.cloud);
                run.IsSound() && Permitted(run, w.cloud, calls)
    ensures IsRun(site, worlds', moves + Makes(key, calls)) && worlds'[..|worlds|] == worlds
    ensures worlds'[|moves| + |calls|] == AfterCalls(worlds[|moves|], key, calls)
    decreases |calls|
  {
    hide RunFor, Run.Allows, Run.IsSound, Allowed, Do, AfterCalls, IsRun;
    RunShape(site, worlds, moves);
    if calls == [] {
      worlds' := worlds;
      assert moves + Makes(key, calls) == moves;
      NothingMade(worlds[|moves|], key);
    } else {
      var init, c := calls[..|calls| - 1], calls[|calls| - 1];
      assert init + [c] == calls;
      var before := MakeCalls(site, worlds, moves, key, init);
      var moves' := moves + Makes(key, init);
      RunShape(site, before, moves');
      OneMoreMake(site, worlds[|moves|], key, init, c);
      worlds', moves' := ExtendWith(site, before, moves', Make(key, c));
      MakesOn(moves, key, init, c);
      assert worlds'[..|before|] == before;
    }
  }

  lemma NothingMade(w: World, key: string)
    requires key in w.solos && w.solos[key] == Solo(w.cloud, [])
    ensures AfterCalls(w, key, []) == w
  {
    assert w.solos[key := Solo(w.cloud, [])] == w.solos;
  }

  // ---------------------------------------------------------------- the invariant

  /** All versions of the service are well-formed. */
  predicate Steady(site: Site, uid: string) {
    forall a | a in site.all && a.uid == uid :: WellFormed(site.cfg, a)
  }

  /** The cloud is safe for all services, and nothing of a steady service's is there twice. */
  ghost predicate CloudGood(site: Site, s: State) {
    && CloudSafe(site.cfg, site.all, s)
    && forall a | a in site.all && Steady(site, a.uid) :: Inv(OwnerOf(site.cfg, a), s)
  }

  lemma SteadyIsUnique(site: Site, s: State, svc: Service)
    requires CloudGood(site, s) && svc in site.all && Steady(site, svc.uid)
    ensures Inv(OwnerOf(site.cfg, svc), s)
  {}

  predicate SyncKnown(site: Site, k: string, sync: Resync.Sync) {
    sync.phase.Fetching? || (sync.phase.svc.Key() == k && sync.phase.svc in site.all)
  }

  ghost predicate Known(site: Site, sys: Resync.System) {
    && Resync.WellKeyed(sys)
    && (forall k | k in sys.services :: sys.services[k] in site.all)
    && (forall k | k in sys.running :: SyncKnown(site, k, sys.running[k]))
    && (forall k | k in sys.applied :: sys.applied[k].svc.Key() == k && sys.applied[k].svc in site.all)
    && (forall k | k in sys.applied && k in sys.running && sys.running[k].phase.Deleting? ::
          sys.running[k].phase.svc.uid != sys.applied[k].svc.uid)
  }

  /** What a run under way would have done alone, its owner sees in the cloud. */
  ghost predicate Tracked(site: Site, s: State, phase: Resync.Phase, solo: Solo) {
    && Acting(phase) && phase.svc in site.all
    && var o, run := OwnerOf(site.cfg, phase.svc), RunFor(site, phase, solo.start);
       && run.IsSound() && Safe(solo.start) && Permitted(run, solo.start, solo.calls)
       && SameView(o, solo.Now(), s) && (Steady(site, phase.svc.uid) ==> Inv(o, solo.start))
  }

  ghost predicate AllTracked(site: Site, w: World) {
    && (forall k | k in w.solos :: k in w.sys.running && Tracked(site, w.cloud, w.sys.running[k].phase, w.solos[k]))
    && (forall k | k in w.sys.running && Acting(w.sys.running[k].phase) :: k in w.solos)
  }

  /** What every move keeps of the cloud and the runs under way. */
  ghost predicate Sane(site: Site, w: World) {
    AllKnown(site.all) && Known(site, w.sys) && CloudGood(site, w.cloud) && AllTracked(site, w)
  }

  /** The cloud is as the last update left it. */
  ghost predicate StillConverged(site: Site, last: Resync.LastSync, s: State) {
    Steady(site, last.svc.uid) ==> Converged(site.cfg, last.svc, last.decision.Apply(last.nodes), site.subnets, s)
  }

  /** An update for the service is under way. */
  predicate BeingUpdated(sys: Resync.System, k: string) {
    && k in sys.running && k in sys.applied
    && sys.running[k].phase.Applying? && sys.running[k].phase.svc.uid == sys.applied[k].svc.uid
  }

  /** The cloud is as the last update of the service left it, unless another is under way. */
  ghost predicate AsSynced(site: Site, w: World, k: string) {
    k in w.sys.applied && !BeingUpdated(w.sys, k) ==> StillConverged(site, w.sys.applied[k], w.cloud)
  }

  ghost predicate Good(site: Site, w: World) {
    Sane(site, w) && forall k :: AsSynced(site, w, k)
  }

  /** Where runs start: nothing is known of any service yet, and the cloud is good. */
  ghost predicate Start(site: Site, w: World) {
    w.sys == Resync.INIT && w.solos == map[] && AllKnown(site.all) && CloudGood(site, w.cloud)
  }

  lemma StartIsGood(site: Site, w: World)
    requires Start(site, w)
    ensures Good(site, w)
  {}

  // ---------------------------------------------------------------- what runs for one service leave the others

  /** The calls were a run for the service, and one that keeps its invariant if it is steady. */
  ghost predicate RanFor(site: Site, svc: Service, s: State, calls: seq<Call>) {
    && Touch(OwnerOf(site.cfg, svc)).IsSound() && Permitted(Touch(OwnerOf(site.cfg, svc)), s, calls)
    && (Steady(site, svc.uid) ==> Inv(OwnerOf(site.cfg, svc), ApplyAll(s, calls)))
  }

  lemma OthersSeeTheSame(site: Site, svc: Service, s: State, calls: seq<Call>, other: Service)
    requires AllKnown(site.all) && svc in site.all && CloudGood(site, s) && RanFor(site, svc, s, calls)
    requires other in site.all && other.uid != svc.uid
    ensures SameView(OwnerOf(site.cfg, other), s, ApplyAll(s, calls))
  {
    hide AllKnown, CloudSafe, Permitted, Inv, OwnerOf, ApplyAll, Steady, Run.IsSound, SameView;
    RunForAnother(site.cfg, site.all, svc, Touch(OwnerOf(site.cfg, svc)), s, calls, other);
  }

  lemma RunKeepsCloudGood(site: Site, svc: Service, s: State, calls: seq<Call>)
    requires AllKnown(site.all) && svc in site.all && CloudGood(site, s) && RanFor(site, svc, s, calls)
    ensures CloudGood(site, ApplyAll(s, calls))
  {
    hide AllKnown, Permitted, OwnerOf, ApplyAll, Steady, Run.IsSound, SameView, Safe, Unique, OwnTargets, NotShared;
    RunKeepsCloudSafe(site.cfg, site.all, svc, Touch(OwnerOf(site.cfg, svc)), s, calls);
    forall a | a in site.all && Steady(site, a.uid)
      ensures Inv(OwnerOf(site.cfg, a), ApplyAll(s, calls))
    {
      if a.uid == svc.uid {
        KnownSame(site.cfg, site.all, svc, a);
      } else {
        OthersSeeTheSame(site, svc, s, calls, a);
        ViewDecidesUnique(OwnerOf(site.cfg, a), s, ApplyAll(s, calls));
      }
    }
  }

  /** A service for which the cloud is as wanted is served as wanted wherever it sees the same. */
  lemma ViewDecidesConverged(site: Site, svc: Service, nodes: seq<Node>, s: State, s': State)
    requires SameView(OwnerOf(site.cfg, svc), s, s') && Converged(site.cfg, svc, nodes, site.subnets, s)
    ensures Converged(site.cfg, svc, nodes, site.subnets, s')
  {
    hide OwnerOf, Sound, Proper, Settled, SameView;
    var p := PlanOf(site.cfg, svc, nodes, site.subnets);
    PlanParts(site.cfg, svc, nodes, site.subnets, p);
    var lb :| Settled(p, s, lb);
    ViewDecidesSettled(p, s, s', lb);
  }

  /** Another service, steady or not, for which the cloud is as wanted, is still served as wanted. */
  lemma OtherStaysConverged(site: Site, svc: Service, s: State, calls: seq<Call>, other: Service, nodes: seq<Node>)
    requires AllKnown(site.all) && svc in site.all && CloudGood(site, s) && RanFor(site, svc, s, calls)
    requires other in site.all && other.uid != svc.uid && Converged(site.cfg, other, nodes, site.subnets, s)
    ensures Converged(site.cfg, other, nodes, site.subnets, ApplyAll(s, calls))
  {
    hide AllKnown, CloudGood, RanFor, SameView, OwnerOf, Converged, ApplyAll;
    OthersSeeTheSame(site, svc, s, calls, other);
    ViewDecidesConverged(site, other, nodes, s, ApplyAll(s, calls));
  }

  lemma OtherStaysAsSynced(site: Site, svc: Service, s: State, calls: seq<Call>, last: Resync.LastSync)
    requires AllKnown(site.all) && svc in site.all && CloudGood(site, s) && RanFor(site, svc, s, calls)
    requires last.svc in site.all && last.svc.uid != svc.uid && StillConverged(site, last, s)
    ensures StillConverged(site, last, ApplyAll(s, calls))
  {
    hide AllKnown, CloudGood, RanFor, Steady, Converged, ApplyAll;
    if Steady(site, last.svc.uid) {
      OtherStaysConverged(site, svc, s, calls, last.svc, last.decision.Apply(last.nodes));
    }
  }

  /** Services under different keys have different UIDs. */
  lemma KeysApart(site: Site, a: Service, b: Service)
    requires AllKnown(site.all) && a in site.all && b in site.all && a.Key() != b.Key()
    ensures a.uid != b.uid
  {
    assert Compatible(a, b);
  }

  // ---------------------------------------------------------------- what is known

  lemma OtherStepsLeaveServices(sys: Resync.System, step: Resync.Step)
    requires Resync.Enabled(sys, step) && !step.SetService? && !step.RemoveService?
    ensures Resync.Do(sys, step).services == sys.services
  {}

  lemma ServicesStep(site: Site, w: World, step: Resync.Step)
    requires Known(site, w.sys) && StepAllowed(site, w, step)
    ensures var sys := Resync.Do(w.sys, step);
            Resync.WellKeyed(sys) && forall k | k in sys.services :: sys.services[k] in site.all
  {
    hide Reached, Decide, SyncKnown, Service.Key;
    if step.SetService? {
      assert step.svc in site.all && Resync.SlashFree(step.svc);
    } else if !step.RemoveService? {
      OtherStepsLeaveServices(w.sys, step);
    }
  }

  /** The steps that start, advance or end a sync or a deletion. */
  predicate AboutSync(step: Resync.Step) {
    || step.Get? || step.Fetch? || step.FetchFails? || step.Filter? || step.Finish? || step.ControllerStart?
    || step.DeleteStart? || step.DeleteEnd?
  }

  function KeyOf(step: Resync.Step): string
    requires AboutSync(step)
  {
    if step.DeleteStart? then step.svc.Key() else step.key
  }

  /** The same syncs are under way, at the same points. */
  predicate SameSyncs(sys: Resync.System, sys': Resync.System) {
    sys'.running.Keys == sys.running.Keys && forall k | k in sys.running ::
      sys'.running[k].phase == sys.running[k].phase
  }

  lemma EventsMoveNoSync(sys: Resync.System, step: Resync.Step)
    requires Resync.Enabled(sys, step) && (step.SetService? || step.DeliverService?)
    ensures SameSyncs(sys, Resync.Do(sys, step))
  {
    hide Decide, Service.Key;
  }

  lemma OtherStepsMoveNoSync(sys: Resync.System, step: Resync.Step)
    requires Resync.Enabled(sys, step) && !AboutSync(step)
    ensures SameSyncs(sys, Resync.Do(sys, step))
  {
    if step.SetService? || step.DeliverService? {
      EventsMoveNoSync(sys, step);
    } else {
      hide Decide, Service.Key;
    }
  }

  /** A step about one key's sync is about no other's. */
  lemma SyncStepMovesOne(sys: Resync.System, step: Resync.Step)
    requires Resync.Enabled(sys, step) && AboutSync(step)
    ensures Resync.Do(sys, step).running - {KeyOf(step)} == sys.running - {KeyOf(step)}
  {
    hide Decide, Service.Key, Resync.Processing;
  }

  lemma SyncStepAppliesOne(sys: Resync.System, step: Resync.Step)
    requires Resync.Enabled(sys, step) && AboutSync(step)
    ensures Resync.Do(sys, step).applied - {KeyOf(step)} == sys.applied - {KeyOf(step)}
  {
    hide Decide, Service.Key, Resync.Processing;
  }

  /** What becomes of the sync of the step's own key. */
  lemma SyncStepMoves(sys: Resync.System, step: Resync.Step)
    requires Resync.Enabled(sys, step) && AboutSync(step)
    ensures var k, sys' := KeyOf(step), Resync.Do(sys, step);
            k in sys'.running ==>
              var phase := sys'.running[k].phase;
              || phase.Fetching?
              || (phase.Filtering? && k in sys.services && phase.svc == sys.services[k])
              || (step.Filter? && phase.Applying? && k in sys.running && sys.running[k].phase.Filtering?
                  && phase.svc == sys.running[k].phase.svc)
              || (step.DeleteStart? && phase == Resync.Deleting(step.svc)
                  && (k in sys'.applied ==> sys'.applied[k].svc.uid != step.svc.uid))
  {
    hide Decide, Resync.Processing;
  }

  /** Only the end of an update and the start of a deletion bear on what was last applied. */
  lemma OtherStepsApplyNothing(sys: Resync.System, step: Resync.Step)
    requires Resync.Enabled(sys, step) && !step.Finish? && !step.DeleteStart?
    ensures Resync.Do(sys, step).applied == sys.applied
  {}

  lemma FinishApplies(sys: Resync.System, key: string, ok: bool)
    requires Resync.Enabled(sys, Resync.Finish(key, ok))
    ensures var applied := Resync.Do(sys, Resync.Finish(key, ok)).applied;
            if ok then
              var Applying(svc, nodes, decision) := sys.running[key].phase;
              applied == sys.applied[key := Resync.LastSync(svc, nodes, decision)]
            else applied == sys.applied - {key}
  {}

  lemma DeleteStartApplies(sys: Resync.System, svc: Service)
    requires Resync.Enabled(sys, Resync.DeleteStart(svc))
    ensures var applied := Resync.Do(sys, Resync.DeleteStart(svc)).applied;
            forall k | k in applied :: k in sys.applied && applied[k] == sys.applied[k]
  {}

  lemma AppliedStep(site: Site, w: World, step: Resync.Step)
    requires Known(site, w.sys) && StepAllowed(site, w, step)
    ensures var sys := Resync.Do(w.sys, step);
            forall k | k in sys.applied :: sys.applied[k].svc.Key() == k && sys.applied[k].svc in site.all
  {
    hide Reached, Resync.WellKeyed, Resync.Do, Service.Key;
    if step.Finish? {
      assert SyncKnown(site, step.key, w.sys.running[step.key]);
      FinishApplies(w.sys, step.key, step.ok);
    } else if step.DeleteStart? {
      DeleteStartApplies(w.sys, step.svc);
    } else {
      OtherStepsApplyNothing(w.sys, step);
    }
  }

  lemma SyncsStep(site: Site, w: World, step: Resync.Step)
    requires Known(site, w.sys) && StepAllowed(site, w, step)
    ensures var sys := Resync.Do(w.sys, step);
            && (forall k | k in sys.running :: SyncKnown(site, k, sys.running[k]))
            && (forall k | k in sys.applied && k in sys.running && sys.running[k].phase.Deleting? ::
                  sys.running[k].phase.svc.uid != sys.applied[k].svc.uid)
  {
    hide Reached, Resync.Do, Resync.Enabled, Service.Key;
    var sys := Resync.Do(w.sys, step);
    if AboutSync(step) {
      SyncStepMovesOne(w.sys, step);
      SyncStepAppliesOne(w.sys, step);
      SyncStepMoves(w.sys, step);
      forall k | k in sys.running
        ensures SyncKnown(site, k, sys.running[k])
        ensures k in sys.applied && sys.running[k].phase.Deleting? ==>
                  sys.running[k].phase.svc.uid != sys.applied[k].svc.uid
      {
        assert k in w.sys.running ==> SyncKnown(site, k, w.sys.running[k]);
        if k != KeyOf(step) {
          assert k in sys.running - {KeyOf(step)} && (sys.running - {KeyOf(step)})[k] == sys.running[k];
          if k in sys.applied {
            assert k in sys.applied - {KeyOf(step)} && (sys.applied - {KeyOf(step)})[k] == sys.applied[k];
          }
        }
      }
    } else {
      OtherStepsMoveNoSync(w.sys, step);
      OtherStepsApplyNothing(w.sys, step);
      forall k | k in sys.running
        ensures SyncKnown(site, k, sys.running[k])
      {
        assert SyncKnown(site, k, w.sys.running[k]);
      }
    }
  }

  lemma KnownStep(site: Site, w: World, step: Resync.Step)
    requires Known(site, w.sys) && StepAllowed(site, w, step)
    ensures Known(site, Resync.Do(w.sys, step))
  {
    hide Reached, SyncKnown, Resync.WellKeyed, Resync.Do;
    ServicesStep(site, w, step);
    SyncsStep(site, w, step);
    AppliedStep(site, w, step);
  }

  lemma KnownMeans(site: Site, sys: Resync.System)
    requires Known(site, sys)
    ensures forall k | k in sys.running && !sys.running[k].phase.Fetching? ::
              sys.running[k].phase.svc.Key() == k && sys.running[k].phase.svc in site.all
    ensures forall k | k in sys.applied :: sys.applied[k].svc.Key() == k && sys.applied[k].svc in site.all
    ensures forall k | k in sys.services :: sys.services[k].Key() == k && sys.services[k] in site.all
  {
    assert forall k | k in sys.running :: SyncKnown(site, k, sys.running[k]);
  }

  // ---------------------------------------------------------------- one call among others

  lemma RunForMeans(site: Site, phase: Resync.Phase, start: State)
    requires Acting(phase)
    ensures var run := RunFor(site, phase, start);
            && run.IsSound() && run.Owner() == OwnerOf(site.cfg, phase.svc)
            && (Inv(OwnerOf(site.cfg, phase.svc), start) && WellFormed(site.cfg, phase.svc) ==> !run.Touch?)
            && (phase.Applying? && !run.Touch? ==> run.Ensure?)
  {
    hide Sound, OwnerOf, PlanOf, WellFormed, Inv, For, Decision.Apply;
    if phase.Applying? {
      RunOfIsFor(site.cfg, phase.svc, phase.decision.Apply(phase.nodes), site.subnets, start);
    }
  }

  /** A call that a run may make next were it alone, it may make amid all the others' calls, and it has the
      same effect for its owner. */
  lemma MakeIsAllowed(site: Site, w: World, key: string, c: Call)
    requires Sane(site, w) && MayMake(site, w, key, c)
    ensures var phase, solo := w.sys.running[key].phase, w.solos[key];
            var run := RunFor(site, phase, solo.start);
            && run.IsSound() && run.Allows(w.cloud, c) && Permitted(run, solo.start, solo.calls + [c])
            && SameView(OwnerOf(site.cfg, phase.svc), Solo(solo.start, solo.calls + [c]).Now(), Apply(w.cloud, c))
  {
    hide AllKnown, Known, OwnerOf, RunFor, SameView, Safe, OwnTargets, NotShared, Inv, MayTouch, Run.Allows,
      Run.IsSound, Apply, Steady;
    var phase, solo := w.sys.running[key].phase, w.solos[key];
    assert Tracked(site, w.cloud, phase, solo);
    RunForMeans(site, phase, solo.start);
    var run := RunFor(site, phase, solo.start);
    EveryRunIsHarmless(run, solo.start, solo.calls, |solo.calls|);
    assert solo.calls[..|solo.calls|] == solo.calls;
    ViewPermits(run, solo.Now(), w.cloud, c);
    AllowedIsTouch(run, solo.Now(), c);
    AllowedIsTouch(run, w.cloud, c);
    OwnCallKeepsView(run.Owner(), solo.Now(), w.cloud, c);
    var calls := solo.calls + [c];
    assert calls[..|calls| - 1] == solo.calls;
  }

  /** The call is a run of one call for its service. */
  lemma MakeIsRun(site: Site, w: World, key: string, c: Call)
    requires Sane(site, w) && MayMake(site, w, key, c)
    ensures w.sys.running[key].phase.svc in site.all && RanFor(site, w.sys.running[key].phase.svc, w.cloud, [c])
    ensures ApplyAll(w.cloud, [c]) == Apply(w.cloud, c)
  {
    hide AllKnown, Known, OwnerOf, RunFor, SameView, CloudSafe, Inv, MayTouch, Run.Allows, Sound, Apply, WellFormed;
    var phase, solo := w.sys.running[key].phase, w.solos[key];
    assert Tracked(site, w.cloud, phase, solo);
    MakeIsAllowed(site, w, key, c);
    RunForMeans(site, phase, solo.start);
    var run := RunFor(site, phase, solo.start);
    OneCall(run, w.cloud, c);
    PermittedIsTouch(run, w.cloud, [c]);
    if Steady(site, phase.svc.uid) {
      CallKeepsInv(run, w.cloud, c);
    }
  }

  /** A sync or a deletion is, as if alone, a run for its service; that the service's objects stay unique is a
      property of planned runs. */
  lemma SyncIsRun(site: Site, phase: Resync.Phase, s: State, calls: seq<Call>)
    requires Acting(phase) && phase.svc in site.all && CloudGood(site, s)
    requires RunFor(site, phase, s).IsSound() && Permitted(RunFor(site, phase, s), s, calls)
    ensures RanFor(site, phase.svc, s, calls)
    ensures phase.Applying? && Steady(site, phase.svc.uid) ==> RunFor(site, phase, s).Ensure?
  {
    hide CloudSafe, Permitted, Inv, OwnerOf, ApplyAll, Sound, WellFormed, RunFor;
    RunForMeans(site, phase, s);
    PermittedIsTouch(RunFor(site, phase, s), s, calls);
    if Steady(site, phase.svc.uid) {
      PrefixesSafe(RunFor(site, phase, s), s, calls, |calls|);
      assert calls[..|calls|] == calls;
    }
  }

  /** Other runs under way see nothing of the call. */
  lemma MakeKeepsTracked(site: Site, w: World, key: string, c: Call)
    requires Sane(site, w) && MayMake(site, w, key, c)
    ensures AllTracked(site, Do(w, Make(key, c)))
  {
    hide AllKnown, Known, OwnerOf, RunFor, SameView, CloudGood, Safe, Inv, MayMake, RanFor, Run.IsSound, Apply, Steady,
      Permitted;
    MayMakeHas(site, w, key, c);
    var w' := Do(w, Make(key, c));
    MakeIsAllowed(site, w, key, c);
    MakeIsRun(site, w, key, c);
    KnownMeans(site, w.sys);
    assert Tracked(site, w.cloud, w.sys.running[key].phase, w.solos[key]);
    forall k | k in w.solos && k != key
      ensures Tracked(site, w'.cloud, w.sys.running[k].phase, w.solos[k])
    {
      assert Tracked(site, w.cloud, w.sys.running[k].phase, w.solos[k]);
      var svc, other := w.sys.running[key].phase.svc, w.sys.running[k].phase.svc;
      KeysApart(site, svc, other);
      OthersSeeTheSame(site, svc, w.cloud, [c], other);
      SameViewOn(OwnerOf(site.cfg, other), w.solos[k].Now(), w.cloud, w'.cloud);
    }
  }

  lemma MakeKeepsSane(site: Site, w: World, key: string, c: Call)
    requires Sane(site, w) && MayMake(site, w, key, c)
    ensures Sane(site, Do(w, Make(key, c)))
  {
    hide AllKnown, Known, CloudGood, AllTracked, MayMake, RanFor, Apply;
    MakeIsRun(site, w, key, c);
    MakeKeepsTracked(site, w, key, c);
    MayMakeHas(site, w, key, c);
    RunKeepsCloudGood(site, w.sys.running[key].phase.svc, w.cloud, [c]);
  }

  lemma MayMakeHas(site: Site, w: World, key: string, c: Call)
    requires MayMake(site, w, key, c)
    ensures key in w.sys.running && Acting(w.sys.running[key].phase) && key in w.solos
  {}

  // ---------------------------------------------------------------- every move keeps the invariant

  lemma BeginTracked(site: Site, w: World, phase: Resync.Phase)
    requires Sane(site, w) && Acting(phase) && phase.svc in site.all
    ensures Tracked(site, w.cloud, phase, Solo(w.cloud, []))
  {
    hide AllKnown, Known, AllTracked, RunFor, OwnerOf, SameView, Inv, OwnTargets, NotShared, Run.IsSound, WellFormed,
      Safe;
    RunForMeans(site, phase, w.cloud);
    SameViewOfSame(OwnerOf(site.cfg, phase.svc), w.cloud);
  }

  lemma SyncStepLeavesOthers(w: World, step: Resync.Step, k: string)
    requires Resync.Enabled(w.sys, step) && AboutSync(step) && k != KeyOf(step)
    ensures var w' := Do(w, Step(step));
            && (k in w'.sys.running <==> k in w.sys.running)
            && (k in w.sys.running ==> w'.sys.running[k] == w.sys.running[k])
            && (k in w'.solos <==> k in w.solos) && (k in w.solos ==> w'.solos[k] == w.solos[k])
  {
    hide Resync.Do, Resync.Enabled, Service.Key;
    var sys', key := Resync.Do(w.sys, step), KeyOf(step);
    SyncStepMovesOne(w.sys, step);
    assert k in sys'.running <==> k in sys'.running - {key};
    assert k in w.sys.running <==> k in w.sys.running - {key};
    assert k in w.sys.running ==> (w.sys.running - {key})[k] == (sys'.running - {key})[k];
  }

  /** The sync of one key begins or ends to change the cloud; the others go on. */
  lemma SyncStepKeepsTracked(site: Site, w: World, step: Resync.Step)
    requires Sane(site, w) && StepAllowed(site, w, step) && AboutSync(step)
    ensures AllTracked(site, Do(w, Step(step)))
  {
    hide Sane, Tracked, Resync.Do, Resync.Enabled, Reached, Service.Key, Acting;
    var w', key := Do(w, Step(step)), KeyOf(step);
    SaneParts(site, w);
    OwnSyncTracked(site, w, step);
    forall k | k != key
      ensures k in w'.sys.running <==> k in w.sys.running
      ensures k in w.sys.running ==> w'.sys.running[k] == w.sys.running[k]
      ensures k in w'.solos <==> k in w.solos
      ensures k in w.solos ==> w'.solos[k] == w.solos[k]
    {
      SyncStepLeavesOthers(w, step, k);
    }
  }

  lemma SaneParts(site: Site, w: World)
    requires Sane(site, w)
    ensures Known(site, w.sys) && AllTracked(site, w)
  {}

  /** The step's own key is tracked exactly while it changes the cloud. */
  lemma OwnSyncTracked(site: Site, w: World, step: Resync.Step)
    requires Sane(site, w) && StepAllowed(site, w, step) && AboutSync(step)
    ensures var w', key := Do(w, Step(step)), KeyOf(step);
            && (key in w'.solos ==> key in w'.sys.running
                                    && Tracked(site, w'.cloud, w'.sys.running[key].phase, w'.solos[key]))
            && (key in w'.sys.running && Acting(w'.sys.running[key].phase) ==> key in w'.solos)
  {
    hide AllKnown, CloudGood, Tracked, Reached, Resync.Do, Service.Key;
    var w', key := Do(w, Step(step)), KeyOf(step);
    KnownMeans(site, w.sys);
    OwnSyncAfter(w.sys, step);
    TrackedActs(site, w);
    if step.Filter? || step.DeleteStart? {
      BeginTracked(site, w, w'.sys.running[key].phase);
    }
  }

  lemma TrackedActs(site: Site, w: World)
    requires AllTracked(site, w)
    ensures forall k | k in w.solos :: k in w.sys.running && Acting(w.sys.running[k].phase)
  {
    assert forall k | k in w.solos :: Tracked(site, w.cloud, w.sys.running[k].phase, w.solos[k]);
  }

  /** A key's sync changes the cloud exactly from the steps that record where it begins to those that forget it. */
  lemma OwnSyncAfter(sys: Resync.System, step: Resync.Step)
    requires Resync.Enabled(sys, step) && AboutSync(step)
    ensures var key, sys' := KeyOf(step), Resync.Do(sys, step);
            && (step.Filter? ==> key in sys'.running && sys'.running[key].phase.Applying?
                                 && key in sys.running && sys.running[key].phase.Filtering?
                                 && sys'.running[key].phase.svc == sys.running[key].phase.svc)
            && (step.DeleteStart? ==> key in sys'.running && sys'.running[key].phase == Resync.Deleting(step.svc))
            && (step.Finish? || step.DeleteEnd? ==> key !in sys'.running)
            && (step.Get? || step.Fetch? || step.FetchFails? || step.ControllerStart? ==>
                  && (key in sys.running ==> sys.running[key].phase.Fetching?)
                  && (key in sys'.running ==> !Acting(sys'.running[key].phase)))
  {
    hide Decide, Service.Key, Resync.Processing;
  }

  lemma StepKeepsTracked(site: Site, w: World, step: Resync.Step)
    requires Sane(site, w) && StepAllowed(site, w, step)
    ensures AllTracked(site, Do(w, Step(step)))
  {
    hide AllKnown, Known, CloudGood, Tracked, Reached, Resync.Do, Service.Key;
    if AboutSync(step) {
      SyncStepKeepsTracked(site, w, step);
    } else {
      OtherStepsMoveNoSync(w.sys, step);
    }
  }

  lemma MoveKeepsSane(site: Site, w: World, m: Move)
    requires Sane(site, w) && Allowed(site, w, m)
    ensures Sane(site, Do(w, m))
  {
    hide AllKnown, Known, CloudGood, AllTracked, MayMake, StepAllowed;
    match m
    case Step(step) =>
      KnownStep(site, w, step);
      StepKeepsTracked(site, w, step);
    case Make(key, c) => MakeKeepsSane(site, w, key, c);
  }

  // ---------------------------------------------------------------- every move keeps what was synced

  lemma MakeKeepsSynced(site: Site, w: World, key: string, c: Call, k: string)
    requires Sane(site, w) && MayMake(site, w, key, c) && AsSynced(site, w, k)
    ensures AsSynced(site, Do(w, Make(key, c)), k)
  {
    hide AllKnown, CloudGood, AllTracked, MayMake, RanFor, Apply, StillConverged;
    MayMakeHas(site, w, key, c);
    MakeIsRun(site, w, key, c);
    KnownMeans(site, w.sys);
    if k in w.sys.applied && !BeingUpdated(w.sys, k) {
      if k != key {
        KeysApart(site, w.sys.running[key].phase.svc, w.sys.applied[k].svc);
      }
      OtherStaysAsSynced(site, w.sys.running[key].phase.svc, w.cloud, [c], w.sys.applied[k]);
    }
  }

  /** A sync that succeeds leaves the cloud as its service wants it for its nodes: what it reached as if alone,
      it reached. */
  lemma SyncConverges(site: Site, w: World, key: string)
    requires Sane(site, w) && StepAllowed(site, w, Resync.Finish(key, true))
    ensures w.sys.running[key].phase.Applying?
    ensures var Applying(svc, nodes, decision) := w.sys.running[key].phase;
            StillConverged(site, Resync.LastSync(svc, nodes, decision), w.cloud)
  {
    hide AllKnown, Known, CloudGood, RunFor, SameView, OwnerOf, Converged, WellFormed, Inv, Safe, Run.IsSound,
      Permitted;
    var phase := w.sys.running[key].phase;
    assert Tracked(site, w.cloud, phase, w.solos[key]);
    if Steady(site, phase.svc.uid) {
      RunForMeans(site, phase, w.solos[key].start);
      ViewDecidesConverged(site, phase.svc, phase.decision.Apply(phase.nodes), w.solos[key].Now(), w.cloud);
    }
  }

  lemma FinishKeepsSynced(site: Site, w: World, key: string, ok: bool, k: string)
    requires Sane(site, w) && StepAllowed(site, w, Resync.Finish(key, ok)) && (k == key || AsSynced(site, w, k))
    ensures AsSynced(site, Do(w, Step(Resync.Finish(key, ok))), k)
  {
    hide Sane, StillConverged, Reached, Resync.Do;
    SyncStepMovesOne(w.sys, Resync.Finish(key, ok));
    FinishApplies(w.sys, key, ok);
    if ok {
      SyncConverges(site, w, key);
    }
    var sys' := Resync.Do(w.sys, Resync.Finish(key, ok));
    assert k != key ==> (k in w.sys.running - {key} <==> k in w.sys.running);
    assert k != key && k in w.sys.running ==> (sys'.running - {key})[k] == (w.sys.running - {key})[k];
  }

  lemma StepKeepsSynced(site: Site, w: World, step: Resync.Step, k: string)
    requires Sane(site, w) && StepAllowed(site, w, step) && AsSynced(site, w, k)
    ensures AsSynced(site, Do(w, Step(step)), k)
  {
    hide AllKnown, CloudGood, AllTracked, StillConverged, Reached, Resync.Do, Service.Key;
    var sys' := Resync.Do(w.sys, step);
    if step.Finish? {
      FinishKeepsSynced(site, w, step.key, step.ok, k);
    } else if !AboutSync(step) {
      OtherStepsMoveNoSync(w.sys, step);
      OtherStepsApplyNothing(w.sys, step);
    } else {
      SyncStepMovesOne(w.sys, step);
      OwnSyncAfter(w.sys, step);
      if step.DeleteStart? {
        DeleteStartApplies(w.sys, step.svc);
      } else {
        OtherStepsApplyNothing(w.sys, step);
      }
      var key := KeyOf(step);
      assert k != key ==> (k in w.sys.running - {key} <==> k in w.sys.running);
      assert k != key ==> (k in sys'.running - {key} <==> k in sys'.running);
      assert k != key && k in w.sys.running ==> (sys'.running - {key})[k] == (w.sys.running - {key})[k];
    }
  }

  lemma MoveKeepsSynced(site: Site, w: World, m: Move, k: string)
    requires Sane(site, w) && Allowed(site, w, m) && AsSynced(site, w, k)
    ensures AsSynced(site, Do(w, m), k)
  {
    hide Sane, AsSynced, MayMake, StepAllowed;
    match m
    case Step(step) => StepKeepsSynced(site, w, step, k);
    case Make(key, c) => MakeKeepsSynced(site, w, key, c, k);
  }

  lemma MoveKeepsGood(site: Site, w: World, m: Move)
    requires Good(site, w) && Allowed(site, w, m)
    ensures Good(site, Do(w, m))
  {
    hide Sane, AsSynced, Allowed, Do;
    AllowedIsPossible(site, w, m);
    MoveKeepsSane(site, w, m);
    forall k
      ensures AsSynced(site, Do(w, m), k)
    {
      MoveKeepsSynced(site, w, m, k);
    }
  }

  /** On every run of the controller, whose syncs and deletions for different services make their calls in any
      order, at every moment: nothing dangles in the cloud and no service's objects are mixed up with another's,
      whatever the services ask for and whatever fails; and the cloud is as wanted by the last successful sync
      of every steady service whose last sync succeeded, unless another is under way. */
  lemma {:induction false} RunKeepsGood(site: Site, worlds: seq<World>, moves: seq<Move>, i: nat)
    requires IsRun(site, worlds, moves) && Good(site, worlds[0]) && i < |worlds|
    ensures Good(site, worlds[i])
  {
    hide Good, Allowed, Do;
    if i > 0 {
      RunKeepsGood(site, worlds, moves, i - 1);
      MoveKeepsGood(site, worlds[i - 1], moves[i - 1]);
    }
  }

  lemma {:induction false} RunKeepsSane(site: Site, worlds: seq<World>, moves: seq<Move>, i: nat)
    requires IsRun(site, worlds, moves) && Sane(site, worlds[0]) && i < |worlds|
    ensures Sane(site, worlds[i])
  {
    hide Sane, Allowed, Do;
    if i > 0 {
      RunKeepsSane(site, worlds, moves, i - 1);
      MoveKeepsSane(site, worlds[i - 1], moves[i - 1]);
    }
  }

  // ---------------------------------------------------------------- the watcher and the reconciler meet

  predicate UndisturbedMove(w: World, m: Move) {
    m.Step? ==> Resync.Undisturbed(w.sys, m.step)
  }

  lemma {:induction false} RunKeepsAgreement(site: Site, worlds: seq<World>, moves: seq<Move>, i: nat)
    requires IsRun(site, worlds, moves) && Start(site, worlds[0]) && i < |worlds|
    requires forall j | 0 <= j < |moves| :: UndisturbedMove(worlds[j], moves[j])
    ensures Resync.Inv(worlds[i].sys)
  {
    hide MayMake, Reached, Resync.Do, Resync.Inv, Apply, Start, Resync.Undisturbed;
    if i == 0 {
      StartAgrees(site, worlds[0]);
    } else {
      RunKeepsAgreement(site, worlds, moves, i - 1);
      assert Allowed(site, worlds[i - 1], moves[i - 1]) && UndisturbedMove(worlds[i - 1], moves[i - 1]);
      if moves[i - 1].Step? {
        Resync.StepKeepsInv(worlds[i - 1].sys, moves[i - 1].step);
      }
    }
  }

  lemma StartAgrees(site: Site, w: World)
    requires Start(site, w)
    ensures Resync.Inv(w.sys)
  {}

  /** Nothing about the key is on its way, queued or to be tried again, and no sync of it is under way. */
  predicate Quiescent(sys: Resync.System, k: string) {
    !Resync.Owed(sys, k) && !Resync.Syncing(sys, k)
  }

  /** Where the last sync of a steady service left the cloud, it still is. */
  lemma LastSyncInOrder(site: Site, w: World, k: string) returns (lb: string)
    requires Sane(site, w) && AsSynced(site, w, k) && k in w.sys.applied && !BeingUpdated(w.sys, k)
    requires Steady(site, w.sys.applied[k].svc.uid)
    ensures var last := w.sys.applied[k];
            && lb in w.cloud.lbs && OwnLb(OwnerOf(site.cfg, last.svc), w.cloud.lbs[lb])
            && InOrder(site.cfg, last.svc, last.decision.Apply(last.nodes), w.cloud, lb)
  {
    hide AllKnown, CloudSafe, AllTracked, Inv, OwnerOf, OwnLb, InOrder, Steady, Converged, Resync.WellKeyed;
    var last := w.sys.applied[k];
    lb := ConvergedIsInOrder(site.cfg, last.svc, last.decision.Apply(last.nodes), site.subnets, w.cloud);
  }

  /** On every undisturbed run of the whole controller, whatever the syncs of all services did, in whatever order
      their calls were made and however many failed: when nothing is left to do for a Local service synced since
      it was tracked, the cloud is in order for the version and the nodes of its last sync, and of these nodes
      exactly those that the current endpoint slices admit are attached, in order, to each of its ports' target
      groups. */
  lemma QuiescentAttachments(site: Site, worlds: seq<World>, moves: seq<Move>, i: nat, k: string) returns (lb: string)
    requires IsRun(site, worlds, moves) && Start(site, worlds[0]) && i < |worlds|
    requires forall j | 0 <= j < |moves| :: UndisturbedMove(worlds[j], moves[j])
    requires var sys := worlds[i].sys;
             && k in sys.services && Resync.Local(sys.services[k]) && k in sys.synced && Quiescent(sys, k)
             && Steady(site, sys.services[k].uid)
    ensures var sys, s := worlds[i].sys, worlds[i].cloud;
            && k in sys.applied
            && var svc, last := sys.services[k], sys.applied[k];
               && last.svc.uid == svc.uid && lb in s.lbs && OwnLb(OwnerOf(site.cfg, svc), s.lbs[lb])
               && InOrder(site.cfg, last.svc, Decide(svc, sys.slices).Apply(last.nodes), s, lb)
  {
    hide Start, Sane, AsSynced, UndisturbedMove, Resync.Inv, Resync.Owed, IsRun, Steady, InOrder, OwnLb, Decide;
    var w := worlds[i];
    StartIsGood(site, worlds[0]);
    RunKeepsGood(site, worlds, moves, i);
    RunKeepsAgreement(site, worlds, moves, i);
    AgreesMeans(w.sys, k);
    AllAreKnown(site, w, k);
    lb := LastSyncInOrder(site, w, k);
    KnownSame(site.cfg, site.all, w.sys.services[k], w.sys.applied[k].svc);
  }

  lemma AgreesMeans(sys: Resync.System, k: string)
    requires Resync.Inv(sys) && k in sys.synced && k in sys.services && Resync.Local(sys.services[k])
             && Quiescent(sys, k)
    ensures k in sys.applied && sys.applied[k].svc.uid == sys.services[k].uid
    ensures sys.applied[k].decision == Decide(sys.services[k], sys.slices)
  {
    assert Resync.Agrees(sys, k);
  }

  lemma AllAreKnown(site: Site, w: World, k: string)
    requires Sane(site, w) && k in w.sys.services && k in w.sys.applied
    ensures AllKnown(site.all) && w.sys.services[k] in site.all && w.sys.applied[k].svc in site.all
  {}

  // ---------------------------------------------------------------- the periodic scan repairs everything

  predicate QuietMove(m: Move) {
    m.Step? ==> Resync.Quiet(m.step)
  }

  /** While a drain goes on, the key is on its way to the current version and decision, and until a sync of it
      succeeds another is to come; from then on the cloud is as that sync left it. */
  ghost predicate Draining(site: Site, start: Resync.System, w: World, k: string) {
    && w.sys.services == start.services && w.sys.slices == start.slices && Resync.Settling(w.sys, k)
    && (Resync.Coming(w.sys, k) || AsSynced(site, w, k))
  }

  lemma MoveKeepsDraining(site: Site, start: Resync.System, w: World, m: Move, k: string)
    requires Sane(site, w) && Allowed(site, w, m) && QuietMove(m)
    requires Resync.IsLocal(start, k) && Draining(site, start, w, k)
    ensures Draining(site, start, Do(w, m), k)
  {
    hide Sane, AsSynced, MayMake, Reached, Resync.Settling, Resync.Coming, Resync.Do, Resync.Enabled, Resync.Quiet,
      Apply;
    AllowedIsPossible(site, w, m);
    if AsSynced(site, w, k) {
      MoveKeepsSynced(site, w, m, k);
    }
    if m.Step? {
      Resync.QuietStepSettles(w.sys, m.step, k);
      if m.step == Resync.Finish(k, true) {
        FinishKeepsSynced(site, w, k, true, k);
      } else if Resync.Coming(w.sys, k) {
        Resync.ComingUntilSynced(w.sys, m.step, k);
      }
    } else {
      MakeLeavesSystem(w, m);
    }
  }

  lemma MakeLeavesSystem(w: World, m: Move)
    requires Possible(w, m) && m.Make?
    ensures Do(w, m).sys == w.sys
  {}

  lemma {:induction false} DrainKeepsDraining(site: Site, start: Resync.System, worlds: seq<World>, moves: seq<Move>,
                                              i: nat, k: string)
    requires IsRun(site, worlds, moves) && Sane(site, worlds[0]) && i < |worlds|
    requires forall j | 0 <= j < |moves| :: QuietMove(moves[j])
    requires Resync.IsLocal(start, k) && Draining(site, start, worlds[0], k)
    ensures Draining(site, start, worlds[i], k)
  {
    hide Sane, Allowed, Do, Draining, QuietMove;
    if i > 0 {
      DrainKeepsDraining(site, start, worlds, moves, i - 1, k);
      RunKeepsSane(site, worlds, moves, i - 1);
      MoveKeepsDraining(site, start, worlds[i - 1], moves[i - 1], k);
    }
  }

  /** From any state of the watcher and the queue, whatever was applied before and whatever is under way, one
      periodic scan followed by a drain in which reads succeed leaves the cloud in order for the current version
      of every steady Local service, with exactly the nodes of its last sync attached that the current slices
      admit. */
  lemma ScanAndDrainAttach(site: Site, start: World, worlds: seq<World>, moves: seq<Move>, k: string)
    returns (lb: string)
    requires Sane(site, start) && IsRun(site, worlds, moves) && worlds[0] == Do(start, Step(Resync.Scan))
    requires forall j | 0 <= j < |moves| :: QuietMove(moves[j])
    requires Resync.Drained(worlds[|moves|].sys)
    requires k in start.sys.services && Resync.Local(start.sys.services[k]) && Steady(site, start.sys.services[k].uid)
    ensures var svc, end, s := start.sys.services[k], worlds[|moves|].sys, worlds[|moves|].cloud;
            && end.services == start.sys.services && end.slices == start.sys.slices && Resync.UpdatedFor(end, k)
            && lb in s.lbs && OwnLb(OwnerOf(site.cfg, svc), s.lbs[lb])
            && InOrder(site.cfg, svc, Decide(svc, end.slices).Apply(end.applied[k].nodes), s, lb)
  {
    hide Sane, AsSynced, MayMake, QuietMove, Steady, InOrder, OwnLb, Decide, OwnerOf;
    MoveKeepsSane(site, start, Step(Resync.Scan));
    DrainKeepsDraining(site, start.sys, worlds, moves, |moves|, k);
    RunKeepsSane(site, worlds, moves, |moves|);
    lb := LastSyncInOrder(site, worlds[|moves|], k);
  }

  // ---------------------------------------------------------------- nobody's objects

  predicate LbClaimed(site: Site, lb: LoadBalancer) {
    exists a :: a in site.all && OwnLb(OwnerOf(site.cfg, a), lb)
  }

  predicate ListenerClaimed(site: Site, lbs: map<string, LoadBalancer>, l: Listener) {
    l.lb in lbs && LbClaimed(site, lbs[l.lb])
  }

  predicate GroupClaimed(site: Site, g: Group) {
    exists a :: a in site.all && OwnGroup(OwnerOf(site.cfg, a), g)
  }

  predicate SgClaimed(site: Site, sg: SecurityGroup) {
    exists a :: a in site.all && OwnSg(OwnerOf(site.cfg, a), sg)
  }

  /** The cloud without the objects of any service. */
  function Unclaimed(site: Site, s: State): State {
    State(map id | id in s.lbs && !LbClaimed(site, s.lbs[id]) :: s.lbs[id],
          map id | id in s.listeners && !ListenerClaimed(site, s.lbs, s.listeners[id]) :: s.listeners[id],
          map id | id in s.groups && !GroupClaimed(site, s.groups[id]) :: s.groups[id],
          map id | id in s.sgs && !SgClaimed(site, s.sgs[id]) :: s.sgs[id])
  }

  /** Whatever is nobody's is not the owner's, so it stays. */
  lemma UnclaimedStays(site: Site, svc: Service, s: State, s': State)
    requires svc in site.all && Safe(s) && Foreign(OwnerOf(site.cfg, svc), s') == Foreign(OwnerOf(site.cfg, svc), s)
    ensures forall id | id in s.lbs && !LbClaimed(site, s.lbs[id]) :: id in s'.lbs && s'.lbs[id] == s.lbs[id]
    ensures forall id | id in s.listeners && !ListenerClaimed(site, s.lbs, s.listeners[id]) ::
              id in s'.listeners && s'.listeners[id] == s.listeners[id]
                && !ListenerClaimed(site, s'.lbs, s'.listeners[id])
    ensures forall id | id in s.groups && !GroupClaimed(site, s.groups[id]) ::
              id in s'.groups && s'.groups[id] == s.groups[id]
    ensures forall id | id in s.sgs && !SgClaimed(site, s.sgs[id]) :: id in s'.sgs && s'.sgs[id] == s.sgs[id]
  {
    hide OwnLb, OwnGroup, OwnSg, OwnerOf;
    var o := OwnerOf(site.cfg, svc);
    forall id | id in s.lbs && !LbClaimed(site, s.lbs[id])
      ensures id in s'.lbs && s'.lbs[id] == s.lbs[id]
    {
      assert id in Foreign(o, s).lbs;
    }
    forall id | id in s.listeners && !ListenerClaimed(site, s.lbs, s.listeners[id])
      ensures id in s'.listeners && s'.listeners[id] == s.listeners[id]
      ensures s.listeners[id].lb in s'.lbs && s'.lbs[s.listeners[id].lb] == s.lbs[s.listeners[id].lb]
    {
      assert id in Foreign(o, s).listeners && s.listeners[id].lb in Foreign(o, s).lbs;
    }
    forall id | id in s.groups && !GroupClaimed(site, s.groups[id])
      ensures id in s'.groups && s'.groups[id] == s.groups[id]
    {
      assert id in Foreign(o, s).groups;
    }
    forall id | id in s.sgs && !SgClaimed(site, s.sgs[id])
      ensures id in s'.sgs && s'.sgs[id] == s.sgs[id]
    {
      assert id in Foreign(o, s).sgs;
    }
  }

  lemma RunLeavesUnclaimed(site: Site, svc: Service, s: State, calls: seq<Call>)
    requires svc in site.all && Safe(s) && RanFor(site, svc, s, calls)
    ensures Unclaimed(site, ApplyAll(s, calls)) == Unclaimed(site, s)
  {
    hide Safe, Foreign, OwnerOf, Unclaimed, ApplyAll, Permitted;
    var s' := ApplyAll(s, calls);
    EveryRunIsHarmless(Touch(OwnerOf(site.cfg, svc)), s, calls, |calls|);
    assert calls[..|calls|] == calls;
    SameForeignSameUnclaimed(site, svc, s, s');
  }

  lemma SameForeignSameUnclaimed(site: Site, svc: Service, s: State, s': State)
    requires svc in site.all && Safe(s) && Safe(s')
    requires Foreign(OwnerOf(site.cfg, svc), s') == Foreign(OwnerOf(site.cfg, svc), s)
    ensures Unclaimed(site, s') == Unclaimed(site, s)
  {
    hide Safe, Foreign, OwnerOf, LbClaimed, ListenerClaimed, GroupClaimed, SgClaimed;
    UnclaimedStays(site, svc, s, s');
    UnclaimedStays(site, svc, s', s);
    var u, u' := Unclaimed(site, s), Unclaimed(site, s');
    assert u'.lbs == u.lbs && u'.listeners == u.listeners && u'.groups == u.groups && u'.sgs == u.sgs;
  }

  lemma MoveLeavesUnclaimed(site: Site, w: World, m: Move)
    requires Sane(site, w) && Allowed(site, w, m)
    ensures Unclaimed(site, Do(w, m).cloud) == Unclaimed(site, w.cloud)
  {
    hide Known, AllTracked, Unclaimed, Safe, Apply, ApplyAll, OwnTargets, NotShared, OwnerOf, MayMake, RanFor,
      Resync.Do;
    if m.Make? {
      MayMakeHas(site, w, m.key, m.call);
      MakeIsRun(site, w, m.key, m.call);
      RunLeavesUnclaimed(site, w.sys.running[m.key].phase.svc, w.cloud, [m.call]);
    }
  }

  /** On every run of the whole controller, objects that belong to no service of the cluster stay exactly
      as they are. */
  lemma {:induction false} StrangersUntouched(site: Site, worlds: seq<World>, moves: seq<Move>, i: nat)
    requires IsRun(site, worlds, moves) && Sane(site, worlds[0]) && i < |worlds|
    ensures Unclaimed(site, worlds[i].cloud) == Unclaimed(site, worlds[0].cloud)
  {
    hide Sane, Allowed, Do, Unclaimed;
    if i > 0 {
      StrangersUntouched(site, worlds, moves, i - 1);
      RunKeepsSane(site, worlds, moves, i - 1);
      MoveLeavesUnclaimed(site, worlds[i - 1], moves[i - 1]);
    }
  }

  // ---------------------------------------------------------------- a first sync

  lemma EmptyStart(site: Site, svc: Service)
    requires site.all == {svc}
    ensures Start(site, World(Resync.INIT, EMPTY, map[]))
  {
    assert Compatible(svc, svc);
  }

  lemma FirstReconciles(cfg: Config, svc: Service, nodes: seq<Node>, subnets: seq<Subnet>) returns (calls: seq<Call>)
    requires |svc.ports| == 1 && !svc.settings.createSecurityGroup && SubnetFor(cfg, svc) == "" && subnets != []
    ensures Reconciles(cfg, svc, nodes, subnets, EMPTY, [], ApplyAll(EMPTY, calls), calls, true)
  {
    hide Sound, Inv, Safe, Foreign, Permitted, ApplyAll, OwnerOf, Converged, FirstRun, SubnetFor;
    FirstReconcile(cfg, svc, nodes, subnets);
    OwnerOfPlan(cfg, svc, nodes, subnets);
    calls := FirstRun(PlanOf(cfg, svc, nodes, subnets));
    EmptyIsSafe();
    RanIsHarmless(Ensure(PlanOf(cfg, svc, nodes, subnets)), EMPTY, [], ApplyAll(EMPTY, calls), calls);
  }

  lemma EmptyIsSafe()
    ensures Safe(EMPTY)
  {}

  lemma TrackedSystem(svc: Service)
    requires Resync.Local(svc) && Resync.SlashFree(svc)
    ensures var k := svc.Key();
            var s0 := Resync.INIT;
            var s1 := s0.(services := map[k := svc], serviceEvents := [Watcher.Add(Watcher.Object(svc))]);
            && Resync.Enabled(s0, Resync.SetService(svc)) && Resync.Do(s0, Resync.SetService(svc)) == s1
            && Resync.Enabled(s1, Resync.DeliverService)
            && Resync.Do(s1, Resync.DeliverService)
               == s0.(services := map[k := svc], seen := map[k := svc], tracked := {k})
  {
    hide Service.Key;
  }

  lemma SyncedSystem(svc: Service, nodes: seq<Node>, s2: Resync.System)
    requires Resync.Local(svc) && s2 == Resync.INIT.(services := s2.services, seen := s2.seen, tracked := {svc.Key()})
    requires s2.services == map[svc.Key() := svc]
    ensures var k := svc.Key();
            var s3 := s2.(running := map[k := Resync.Sync(Resync.Filtering(svc, nodes), false, true)]);
            var s4 := s2.(running := map[k := Resync.Sync(Resync.Applying(svc, nodes, KeepAll), false, true)]);
            && Resync.Enabled(s2, Resync.ControllerStart(k, nodes))
               && Resync.Do(s2, Resync.ControllerStart(k, nodes)) == s3
            && Resync.Enabled(s3, Resync.Filter(k)) && Resync.Do(s3, Resync.Filter(k)) == s4
            && Resync.Enabled(s4, Resync.Finish(k, true))
            && Resync.Do(s4, Resync.Finish(k, true))
               == s2.(applied := map[k := Resync.LastSync(svc, nodes, KeepAll)], synced := {k})
  {
    hide Service.Key;
    assert Selected(map[], svc.namespace, svc.name) == {};
  }

  lemma OnePortIsSteady(site: Site, svc: Service)
    requires site.all == {svc} && |svc.ports| == 1
    ensures Steady(site, svc.uid)
  {
    hide MatchingExact;
    MatchingExactly(site.cfg, svc);
  }

  /** Four moves take a Local service from nothing to where its first update can be made. */
  lemma FirstDecision(site: Site, svc: Service, nodes: seq<Node>) returns (worlds: seq<World>, moves: seq<Move>)
    requires site.all == {svc} && Resync.Local(svc) && Resync.SlashFree(svc)
    ensures IsRun(site, worlds, moves) && Start(site, worlds[0])
    ensures forall j | 0 <= j < |moves| :: UndisturbedMove(worlds[j], moves[j])
    ensures var k, services, w := svc.Key(), map[svc.Key() := svc], worlds[|moves|];
            && w.cloud == EMPTY && w.solos == map[k := Solo(EMPTY, [])]
            && w.sys == Resync.INIT.(services := services, seen := services, tracked := {k},
                 running := map[k := Resync.Sync(Resync.Applying(svc, nodes, KeepAll), false, true)])
  {
    hide MayMake, Reached, Start, Resync.Do, Resync.Enabled, Service.Key;
    var k := svc.Key();
    EmptyStart(site, svc);
    TrackedSystem(svc);
    worlds, moves := [World(Resync.INIT, EMPTY, map[])], [];
    worlds, moves := ExtendWith(site, worlds, moves, Step(Resync.SetService(svc)));
    worlds, moves := ExtendWith(site, worlds, moves, Step(Resync.DeliverService));
    SyncedSystem(svc, nodes, worlds[2].sys);
    worlds, moves := ExtendWith(site, worlds, moves, Step(Resync.ControllerStart(k, nodes)));
    worlds, moves := ExtendWith(site, worlds, moves, Step(Resync.Filter(k)));
  }

  /** Five more take a service with one port to where nothing is left to do: the four calls of its first run, and
      the end of its sync. */
  lemma FirstSync(site: Site, svc: Service, nodes: seq<Node>) returns (worlds: seq<World>, moves: seq<Move>)
    requires site.all == {svc} && Resync.Local(svc) && Resync.SlashFree(svc) && site.subnets != []
    requires |svc.ports| == 1 && !svc.settings.createSecurityGroup && SubnetFor(site.cfg, svc) == ""
    ensures IsRun(site, worlds, moves) && Start(site, worlds[0])
    ensures forall j | 0 <= j < |moves| :: UndisturbedMove(worlds[j], moves[j])
    ensures var sys, k := worlds[|moves|].sys, svc.Key();
            k in sys.services && sys.services[k] == svc && k in sys.synced && Quiescent(sys, k) && Steady(site, svc.uid)
  {
    hide Reconciles, MayMake, Reached, RunFor, ApplyAll, Start, Resync.Do, Resync.Enabled, Service.Key, Decision.Apply,
      Steady;
    OnePortIsSteady(site, svc);
    worlds, moves := FirstDecision(site, svc, nodes);
    var k, sys := svc.Key(), worlds[|moves|].sys;
    SyncedSystem(svc, nodes, sys.(running := map[]));
    var calls := FirstReconciles(site.cfg, svc, nodes, site.subnets);
    KeepEverything(nodes);
    ReconcileIsSync(site, sys.running[k].phase, EMPTY, [], ApplyAll(EMPTY, calls), calls, true);
    assert calls[0..] == calls;
    var before := worlds;
    worlds := MakeCalls(site, worlds, moves, k, calls);
    assert forall j | 0 <= j < |moves| :: worlds[j] == before[j];
    moves := moves + Makes(k, calls);
    worlds, moves := ExtendWith(site, worlds, moves, Step(Resync.Finish(k, true)));
  }
}
