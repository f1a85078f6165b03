/** The queue part of pkg/provider/loadbalancer.go: the worker that drains the resync queue and the
    periodic scan that fills it, as moves of the whole controller. */
module Worker {
  import opened GoText
  import opened Kubernetes
  import opened NodeFilter
  import Watcher
  import Resync
  import opened Cloud
  import opened Plan
  import opened Metadata
  import opened Desired
  import opened Controller
  import opened Lifecycle
  import opened Isolation
  import opened Cluster

  datatype Outcome = Dropped | Failed | Updated

  /** The phase in which the worker's Get leaves a key. */
  const TAKEN := Resync.Sync(Resync.Fetching, true, false)

  // ---------------------------------------------------------------- the worker's steps

  /** What the worker's objects show of the system. */
  ghost predicate Shows(sys: Resync.System, services: map<string, Service>, slices: map<string, EndpointSlice>,
                        dirty: set<string>, delayed: set<string>, processing: set<string>) {
    && sys.services == services && sys.slices == slices && sys.dirty == dirty && sys.delayed == delayed
    && Resync.Processing(sys) == processing
  }

  lemma GetShows(sys: Resync.System, key: string)
    requires Resync.Processing(sys) == {} && key in sys.dirty && key !in sys.running
    ensures Resync.Enabled(sys, Resync.Get(key))
    ensures var sys' := Resync.Do(sys, Resync.Get(key));
            && Shows(sys', sys.services, sys.slices, sys.dirty - {key}, sys.delayed, {key})
            && key in sys'.running && sys'.running[key] == TAKEN && sys'.running - {key} == sys.running
  {
    var sys' := Resync.Do(sys, Resync.Get(key));
    assert forall k | k != key :: k in Resync.Processing(sys') <==> k in Resync.Processing(sys);
  }

  /** Reading drops the key when there is no load balancer service, and a failing read drops it anyway. */
  lemma DropShows(sys: Resync.System, key: string, step: Resync.Step)
    requires key in sys.running && sys.running[key] == TAKEN
    requires || step == Resync.FetchFails(key)
             || (step.Fetch? && step.key == key && !Resync.IsLoadBalancer(sys.services, key))
    ensures Resync.Enabled(sys, step)
    ensures var sys' := Resync.Do(sys, step);
            && Shows(sys', sys.services, sys.slices, sys.dirty, sys.delayed, Resync.Processing(sys) - {key})
            && sys'.running == sys.running - {key}
  {}

  lemma FetchShows(sys: Resync.System, key: string, nodes: seq<Node>)
    requires key in sys.running && sys.running[key] == TAKEN && Resync.IsLoadBalancer(sys.services, key)
    ensures Resync.Enabled(sys, Resync.Fetch(key, nodes))
    ensures var sys' := Resync.Do(sys, Resync.Fetch(key, nodes));
            && Shows(sys', sys.services, sys.slices, sys.dirty, sys.delayed, Resync.Processing(sys))
            && sys'.running - {key} == sys.running - {key} && key in sys'.running && sys'.running[key].queued
            && sys'.running[key].phase == Resync.Filtering(sys.services[key], nodes)
  {
    var sys' := Resync.Do(sys, Resync.Fetch(key, nodes));
    assert forall k :: k in Resync.Processing(sys') <==> k in Resync.Processing(sys);
  }

  lemma FilterShows(sys: Resync.System, key: string)
    requires key in sys.running && sys.running[key].queued && sys.running[key].phase.Filtering?
    ensures Resync.Enabled(sys, Resync.Filter(key))
    ensures var sys' := Resync.Do(sys, Resync.Filter(key));
            var Filtering(svc, nodes) := sys.running[key].phase;
            && Shows(sys', sys.services, sys.slices, sys.dirty, sys.delayed, Resync.Processing(sys))
            && sys'.running - {key} == sys.running - {key} && key in sys'.running && sys'.running[key].queued
            && sys'.running[key].phase == Resync.Applying(svc, nodes, Decide(svc, sys.slices))
  {
    var sys' := Resync.Do(sys, Resync.Filter(key));
    assert forall k :: k in Resync.Processing(sys') <==> k in Resync.Processing(sys);
  }

  lemma FinishShows(sys: Resync.System, key: string, ok: bool)
    requires key in sys.running && sys.running[key].queued && sys.running[key].phase.Applying?
    ensures Resync.Enabled(sys, Resync.Finish(key, ok))
    ensures var sys' := Resync.Do(sys, Resync.Finish(key, ok));
            && Shows(sys', sys.services, sys.slices, sys.dirty, if ok then sys.delayed else sys.delayed + {key},
                     Resync.Processing(sys) - {key})
            && sys'.running == sys.running - {key}
  {}

  lemma ScanShows(sys: Resync.System)
    ensures Shows(Resync.Do(sys, Resync.Scan), sys.services, sys.slices, sys.dirty + Resync.ScanKeys(sys.services),
                  sys.delayed, Resync.Processing(sys))
  {}

  predicate Extends(before: seq<Move>, after: seq<Move>) {
    |before| <= |after| && after[..|before|] == before
  }

  lemma ExtendsOn(a: seq<Move>, b: seq<Move>, m: Move, c: seq<Move>)
    requires Extends(a, b) && Extends(b + [m], c)
    ensures Extends(a, c)
  {
    assert c[..|b|] == (b + [m])[..|b|] == b;
    assert c[..|a|] == b[..|a|];
  }

  lemma ExtendsItself(a: seq<Move>)
    ensures Extends(a, a)
  {}

  // ---------------------------------------------------------------- the worker

  class ResyncWorker {
    const cfg: Config
    const cloud: Cloud
    const nodeFilter: NodeFilter
    const queue: Watcher.WorkQueue
    /** Every version of every service there will be. */
    ghost const all: set<Service>
    /** What reads of the API server see. */
    var services: map<string, Service>
    var nodes: seq<Node>
    /** How many reads of the API server have failed. */
    ghost var failures: nat
    /** The run of the whole controller so far: its states, and the moves between them. */
    ghost var worlds: seq<World>
    ghost var moves: seq<Move>
    /** The state it has led to. */
    ghost var now: World

    constructor (cfg: Config, cloud: Cloud, nodeFilter: NodeFilter, queue: Watcher.WorkQueue, ghost all: set<Service>)
      requires Start(Site(cfg, cloud.subnets, all), World(Resync.INIT, cloud.now, map[])) && nodeFilter.cache == map[]
      requires queue.dirty == queue.processing == queue.delayed == {}
      ensures Valid() && worlds == [World(Resync.INIT, cloud.now, map[])] && moves == []
      ensures this.cfg == cfg && this.cloud == cloud && this.nodeFilter == nodeFilter && this.queue == queue
              && this.all == all
      ensures services == map[] && nodes == [] && failures == 0
    {
      this.cfg, this.cloud, this.nodeFilter, this.queue, this.all := cfg, cloud, nodeFilter, queue, all;
      services, nodes, failures := map[], [], 0;
      now := World(Resync.INIT, cloud.now, map[]);
      worlds, moves := [World(Resync.INIT, cloud.now, map[])], [];
      new;
      StartIsGood(TheSite(), worlds[0]);
      assert Resync.Processing(Resync.INIT) == {};
    }

    ghost function TheSite(): Site {
      Site(cfg, cloud.subnets, all)
    }

    ghost predicate HasRun()
      reads this`worlds, this`moves, this`now
    {
      IsRun(TheSite(), worlds, moves) && Good(TheSite(), worlds[0]) && worlds[|moves|] == now
    }

    /** The run has led to this cloud and to these queues, and to the caches as they are. */
    ghost predicate Fits(s: State, dirty: set<string>, delayed: set<string>, processing: set<string>)
      reads this`worlds, this`moves, this`now, this`services, nodeFilter`cache
    {
      HasRun() && now.cloud == s && Shows(now.sys, services, nodeFilter.cache, dirty, delayed, processing)
    }

    /** A run of the whole controller has led to what there is now. */
    ghost predicate Valid()
      reads this`worlds, this`moves, this`now, this`services, cloud`now, nodeFilter`cache, queue
    {
      Fits(cloud.now, queue.dirty, queue.delayed, queue.processing)
    }

    /** The same, but for a key that is done with and still to be reported so. */
    ghost predicate ValidBut(key: string)
      reads this`worlds, this`moves, this`now, this`services, cloud`now, nodeFilter`cache, queue
    {
      Fits(cloud.now, queue.dirty, queue.delayed, queue.processing - {key})
    }

    lemma IsGood()
      requires HasRun()
      ensures Good(TheSite(), now)
    {
      hide Good, Allowed, Cluster.Do;
      RunKeepsGood(TheSite(), worlds, moves, |moves|);
    }

    lemma ReadyMeans()
      ensures queue.Ready() == queue.dirty - queue.processing
    {}

    lemma ValidMeans()
      ensures Valid() <==> Fits(cloud.now, queue.dirty, queue.delayed, queue.processing)
    {}

    lemma ValidButMeans(key: string)
      ensures ValidBut(key) <==> Fits(cloud.now, queue.dirty, queue.delayed, queue.processing - {key})
    {}

    /** Whatever the services ask for, nothing dangles. */
    lemma IsSafe()
      requires Valid()
      ensures Safe(cloud.now)
    {
      hide Known, IsRun, Safe, Shows;
      IsGood();
    }

    /** Services are filed under their keys. */
    lemma KeysAreKeys()
      requires Valid()
      ensures forall key | key in services :: services[key].Key() == key
    {
      hide Known, IsRun, CloudGood;
      IsGood();
      KnownMeans(TheSite(), now.sys);
    }

    /** Records a move. */
    ghost method Advance(m: Move)
      requires HasRun() && Allowed(TheSite(), now, m)
      modifies this`worlds, this`moves, this`now
      ensures moves == old(moves) + [m] && HasRun() && now == Cluster.Do(old(now), m)
    {
      hide RunFor, Reached, Resync.Do, Apply, Good;
      ExtendRun(TheSite(), worlds, moves, m);
      worlds, moves, now := worlds + [Cluster.Do(worlds[|moves|], m)], moves + [m], Cluster.Do(now, m);
    }

    /** The nodes a resync attaches for the service: ready, and admitted by the current slices. */
    ghost function Admitted(svc: Service): seq<Node>
      reads this`nodes, nodeFilter`cache
    {
      Decide(svc, nodeFilter.cache).Apply(Keep(nodes, IsNodeReady))
    }

    /** The key names a load balancer service, and the cloud is as that service wants it. */
    ghost predicate InLine(key: string)
      reads this`services, this`nodes, cloud`now, nodeFilter`cache
    {
      InLineIn(cloud.now, key)
    }

    ghost predicate InLineIn(s: State, key: string)
      reads this`services, this`nodes, nodeFilter`cache
    {
      Resync.IsLoadBalancer(services, key) && Converged(cfg, services[key], Admitted(services[key]), cloud.subnets, s)
    }

    /** The cloud is in order for the service, field by field, with those nodes attached that are ready and host an
        endpoint of the service's, as far as that matters to it. */
    ghost predicate InOrderFor(svc: Service, ready: seq<Node>, admitted: seq<Node>, lb: string)
      reads this`nodes, cloud`now, nodeFilter`cache
    {
      && ReadyAmong(nodes, ready) && FilteredFor(nodeFilter.cache, svc, ready, admitted)
      && lb in cloud.now.lbs && OwnLb(OwnerOf(cfg, svc), cloud.now.lbs[lb])
      && InOrder(cfg, svc, admitted, cloud.now, lb)
    }

    /** What being in line means for a service all of whose versions are well-formed. */
    lemma InLineMeans(key: string) returns (ready: seq<Node>, admitted: seq<Node>, lb: string)
      requires Valid() && InLine(key) && Steady(TheSite(), services[key].uid)
      ensures InOrderFor(services[key], ready, admitted, lb)
    {
      hide IsRun, CloudGood, AllKnown, Known, Steady, Converged, Inv, OwnerOf, OwnLb, InOrder, Keep, Decide,
        Decision.Apply, FilteredFor, ReadyAmong, Resync.WellKeyed;
      IsGood();
      KnownMeans(TheSite(), now.sys);
      SteadyIsUnique(TheSite(), now.cloud, services[key]);
      ready, admitted := Keep(nodes, IsNodeReady), Admitted(services[key]);
      KeptAreReady(nodes);
      DecisionMeans(nodeFilter.cache, services[key], ready);
      lb := ConvergedIsInOrder(cfg, services[key], admitted, cloud.subnets, cloud.now);
    }

    /** Reads the service; that fails also if it is not there. */
    method GetService(namespace: string, name: string) returns (svc: Result<Service>)
      modifies this`failures
      ensures svc.Ok? ==> ServiceKey(namespace, name) in services && svc.value == services[ServiceKey(namespace, name)]
      ensures failures >= old(failures)
      ensures svc.Err? ==> failures > old(failures) || ServiceKey(namespace, name) !in services
    {
      var fails: bool := *;
      var key := ServiceKey(namespace, name);
      failures := failures + if fails then 1 else 0;
      return if fails || key !in services then Err else Ok(services[key]);
    }

    method ListNodes() returns (r: Result<seq<Node>>)
      modifies this`failures
      ensures failures == old(failures) + if r.Ok? then 0 else 1
      ensures r.Ok? ==> r.value == nodes
    {
      var fails: bool := *;
      failures := failures + if fails then 1 else 0;
      return if fails then Err else Ok(nodes);
    }

    /** The worker has taken the key and not yet read the service. */
    ghost predicate HasTaken(key: string)
      reads this`now
    {
      key in now.sys.running && now.sys.running[key] == TAKEN
    }

    /** Every key of a service has two parts. */
    lemma KeyHasTwoParts(key: string)
      requires Valid() && key in services
      ensures |Split(key, "/")| == 2
    {
      hide Split, Good;
      IsGood();
      KeyOfKnown(TheSite(), now, key);
    }

    /** The moves of a resync that got as far as the update: read, filter, and the calls of the update. */
    ghost function ResyncMoves(key: string, ok: bool, calls: seq<Call>): seq<Move>
      reads this`nodes
    {
      ReadMoves(key) + Makes(key, calls) + [Step(Resync.Finish(key, ok))]
    }

    ghost function ReadMoves(key: string): seq<Move>
      reads this`nodes
    {
      [Step(Resync.Fetch(key, Keep(nodes, IsNodeReady))), Step(Resync.Filter(key))]
    }

    /** What a resync with this outcome adds to the run, and the calls to the log. */
    ghost predicate ResyncMade(key: string, outcome: Outcome, before: seq<Move>, l: seq<Call>)
      reads this`moves, this`nodes, cloud`log
    {
      if outcome.Dropped? then
        moves == before + [Step(Resync.FetchFails(key))] || moves == before + [Step(Resync.Fetch(key, []))]
      else
        |l| <= |cloud.log| && moves == before + ResyncMoves(key, outcome.Updated?, cloud.log[|l|..])
    }

    /** Records that there is no load balancer service to read, or that reading it or the nodes failed. */
    ghost method Drop(key: string)
      requires Valid() && HasTaken(key)
      modifies this`worlds, this`moves, this`now
      ensures ResyncMade(key, Dropped, old(moves), cloud.log) && ValidBut(key)
      ensures now.sys.running == old(now.sys.running) - {key}
    {
      hide IsRun, Good, Resync.Do, Resync.IsLoadBalancer;
      var step := if Resync.IsLoadBalancer(services, key) then Resync.FetchFails(key) else Resync.Fetch(key, []);
      DropShows(now.sys, key, step);
      Advance(Step(step));
    }

    lemma ResyncExtends(key: string, outcome: Outcome, before: seq<Move>, l: seq<Call>)
      requires ResyncMade(key, outcome, before, l)
      ensures Extends(before, moves)
    {}

    /** Reads and filters for a service that is there. */
    ghost method ReadAndFilter(key: string)
      requires Valid() && HasTaken(key) && Resync.IsLoadBalancer(services, key)
      modifies this`worlds, this`moves, this`now
      ensures moves == old(moves) + ReadMoves(key) && Valid()
      ensures now.sys.running - {key} == old(now.sys.running) - {key}
      ensures now.cloud == cloud.now && key in now.solos && now.solos[key] == Solo(cloud.now, [])
      ensures key in now.sys.running
      ensures now.sys.running[key].queued
              && now.sys.running[key].phase == Resync.Applying(services[key], Keep(nodes, IsNodeReady),
                                                                 Decide(services[key], nodeFilter.cache))
    {
      hide IsRun, Good, Resync.Do, Keep, Decide;
      FetchShows(now.sys, key, Keep(nodes, IsNodeReady));
      Advance(Step(Resync.Fetch(key, Keep(nodes, IsNodeReady))));
      FilterShows(now.sys, key);
      Advance(Step(Resync.Filter(key)));
    }

    /** The update has ended: the sync was right for its service, and left the others as they were. */
    lemma SyncKeepsInLine(phase: Resync.Phase, key: string, calls: seq<Call>, ok: bool)
      requires HasRun() && now.sys.services == services && Resync.IsLoadBalancer(services, key)
      requires phase == Resync.Applying(services[key], Keep(nodes, IsNodeReady),
                                        Decide(services[key], nodeFilter.cache))
      requires RunFor(TheSite(), phase, now.cloud).IsSound()
      requires Permitted(RunFor(TheSite(), phase, now.cloud), now.cloud, calls)
      requires ok ==> Reached(TheSite(), phase, Solo(now.cloud, calls))
      ensures ok && Steady(TheSite(), services[key].uid) ==> InLineIn(ApplyAll(now.cloud, calls), key)
      ensures forall j | j != key && InLineIn(now.cloud, j) :: InLineIn(ApplyAll(now.cloud, calls), j)
    {
      hide AllKnown, CloudGood, AllTracked, RunFor, RanFor, Steady, ApplyAll, Converged, Known, Keep, Decide,
        Decision.Apply, AsSynced, IsRun, Permitted;
      IsGood();
      KnownMeans(TheSite(), now.sys);
      SyncIsRun(TheSite(), phase, now.cloud, calls);
      forall j | j != key && InLineIn(now.cloud, j)
        ensures InLineIn(ApplyAll(now.cloud, calls), j)
      {
        KeysApart(TheSite(), services[key], services[j]);
        Cluster.OtherStaysConverged(TheSite(), services[key], now.cloud, calls, services[j], Admitted(services[j]));
      }
    }

    /** Records the calls of a sync. */
    ghost method MakeAll(key: string, calls: seq<Call>)
      requires HasRun() && key in now.sys.running && Acting(now.sys.running[key].phase)
      requires key in now.solos && now.solos[key] == Solo(now.cloud, [])
      requires var run := RunFor(TheSite(), now.sys.running[key].phase, now.cloud);
               run.IsSound() && Permitted(run, now.cloud, calls)
      modifies this`worlds, this`moves, this`now
      ensures HasRun() && moves == old(moves) + Makes(key, calls)
      ensures now == AfterCalls(old(now), key, calls)
    {
      hide Allowed, Good, RunFor, ApplyAll, Cluster.Do;
      worlds := MakeCalls(TheSite(), worlds, moves, key, calls);
      moves := moves + Makes(key, calls);
      now := worlds[|moves|];
    }

    /** Records that the update has ended. */
    ghost method FinishSync(key: string, before: seq<Move>, l: seq<Call>, ok: bool)
      requires moves == before + ReadMoves(key)
      requires Fits(now.cloud, queue.dirty, queue.delayed, queue.processing)
      requires Resync.IsLoadBalancer(services, key) && key in now.sys.running && now.sys.running[key].queued
      requires now.sys.running[key].phase == Resync.Applying(services[key], Keep(nodes, IsNodeReady),
                                                               Decide(services[key], nodeFilter.cache))
      requires key in now.solos && now.solos[key] == Solo(now.cloud, [])
      requires Reconciles(cfg, services[key], Admitted(services[key]), cloud.subnets, now.cloud, l, cloud.now,
                          cloud.log, ok)
      modifies this`worlds, this`moves, this`now
      ensures ResyncMade(key, if ok then Updated else Failed, before, l)
      ensures Fits(cloud.now, queue.dirty, if ok then queue.delayed else queue.delayed + {key},
                   queue.processing - {key})
      ensures now.sys.running == old(now.sys.running) - {key}
      ensures ok && Steady(TheSite(), services[key].uid) ==> InLine(key)
      ensures forall j | j != key && old(InLineIn(now.cloud, j)) :: InLine(j)
    {
      hide IsRun, Good, Resync.Do, Keep, Decide, Reconciles, InLineIn, Steady, ApplyAll, RunFor, Reached, MayMake,
        Resync.IsLoadBalancer, Permitted, Run.IsSound;
      var phase := now.sys.running[key].phase;
      ReconcileIsSync(TheSite(), phase, now.cloud, l, cloud.now, cloud.log, ok);
      var calls := cloud.log[|l|..];
      SyncKeepsInLine(phase, key, calls, ok);
      FinishShows(now.sys, key, ok);
      MakeAll(key, calls);
      Advance(Step(Resync.Finish(key, ok)));
    }

    /** Reconciles the service that the key names with the nodes that are ready and admitted by the
        slices; a failed update is queued again with back-off, a failed read is not. What it does are the
        moves of one sync: a read that ends it, or a read, the filtering, the update's calls, and its end. */
    method ProcessServiceResync(serviceKey: string) returns (outcome: Outcome)
      requires Valid() && HasTaken(serviceKey)
      modifies cloud, queue`delayed, nodeFilter`failures, this`failures, this`worlds, this`moves, this`now
      ensures ValidBut(serviceKey) && now.sys.running == old(now.sys.running) - {serviceKey}
      ensures ResyncMade(serviceKey, outcome, old(moves), old(cloud.log))
      ensures queue.delayed == old(queue.delayed) + if outcome.Failed? then {serviceKey} else {}
      ensures outcome.Dropped? ==>
                cloud.now == old(cloud.now)
                && (failures > old(failures) || !Resync.IsLoadBalancer(services, serviceKey))
      ensures outcome.Failed? ==>
                && serviceKey in services
                && (|| cloud.failures > old(cloud.failures) || nodeFilter.failures > old(nodeFilter.failures)
                    || !CanBeMet(cfg, services[serviceKey], old(cloud.now))
                    || !HasLb(OwnerOf(cfg, services[serviceKey]), old(cloud.now)))
      ensures outcome.Updated? ==>
                serviceKey in services && (Steady(TheSite(), services[serviceKey].uid) ==> InLine(serviceKey))
      ensures forall key | key != serviceKey && old(InLine(key)) :: InLine(key)
    {
      hide Fits, HasTaken, Steady, InLineIn, OwnerOf, Reconciles, Decide, Keep, Decision.Apply, Split, ServiceKey,
        HasLb, CanBeMet, Resync.Do, ReadMoves, ResyncMade, ReadyAmong, IsNodeReady, OwnLb, Permitted;
      var parts := Split(serviceKey, "/");
      if |parts| != 2 {
        if serviceKey in services {
          KeyHasTwoParts(serviceKey);
        }
        Drop(serviceKey);
        return Dropped;
      }
      PartsRejoin(serviceKey, parts);
      var svc := GetService(parts[0], parts[1]);
      if svc.Err? || !svc.value.isLoadBalancer {
        Drop(serviceKey);
        return Dropped;
      }
      var listed := ListNodes();
      if listed.Err? {
        Drop(serviceKey);
        return Dropped;
      }
      var readyNodes := FilterReadyNodes(listed.value);
      ghost var before, l := moves, cloud.log;
      IsSafe();
      ReadAndFilter(serviceKey);
      var ok := UpdateLoadBalancer(cloud, nodeFilter, cfg, svc.value, readyNodes);
      FinishSync(serviceKey, before, l, ok);
      if !ok {
        queue.AddRateLimited(serviceKey);
        return Failed;
      }
      return Updated;
    }

    /** Takes keys from the queue and processes them until it is stopped or nothing is ready; while
        nobody adds to the queue, each key is processed once, and each service whose update succeeded
        is still as wanted at the end, whatever was done for the others after it. */
    method ProcessServiceQueue() returns (stopped: bool, ghost outcomes: map<string, Outcome>)
      requires Valid() && queue.processing == {} && queue.dirty !! now.sys.running.Keys
      modifies cloud, queue, nodeFilter`failures, this`failures, this`worlds, this`moves, this`now
      ensures Valid() && queue.processing == {} && now.sys.running == old(now.sys.running)
      ensures Extends(old(moves), moves)
      ensures !stopped ==> queue.dirty == {}
      ensures queue.dirty !! outcomes.Keys && queue.dirty + outcomes.Keys == old(queue.dirty)
      ensures queue.delayed == old(queue.delayed) + set key | key in outcomes && outcomes[key].Failed?
      ensures Reported(outcomes)
    {
      hide *;
      ExtendsItself(moves);
      outcomes := map[];
      NothingAccounted(queue.dirty, queue.delayed);
      ReportedMeans(outcomes);
      stopped := *;
      while !stopped
        invariant Valid() && queue.processing == {} && now.sys.running == old(now.sys.running)
        invariant Extends(old(moves), moves)
        invariant Accounted(old(queue.dirty), old(queue.delayed), queue.dirty, queue.delayed, outcomes)
        invariant Reported(outcomes)
        decreases !stopped, queue.dirty
      {
        ValidMeans();
        ReadyMeans();
        ghost var dirty, delayed, soFar := queue.dirty, queue.delayed, moves;
        AccountedMeans(old(queue.dirty), old(queue.delayed), dirty, delayed, outcomes);
        ReportedMeans(outcomes);
        var serviceKey := queue.Get();
        if serviceKey.None? {
          return;
        }
        assert queue.dirty + {serviceKey.value} == dirty;
        Take(serviceKey.value);
        ghost var taken, l := moves, cloud.log;
        var outcome := ProcessServiceResync(serviceKey.value);
        ValidButMeans(serviceKey.value);
        ResyncExtends(serviceKey.value, outcome, taken, l);
        ExtendsOn(old(moves), soFar, Step(Resync.Get(serviceKey.value)), moves);
        queue.Done(serviceKey.value);
        ValidMeans();
        AccountedOn(old(queue.dirty), old(queue.delayed), dirty, delayed, outcomes, serviceKey.value, outcome);
        outcomes := outcomes[serviceKey.value := outcome];
        ReportedMeans(outcomes);
        stopped := *;
      }
      AccountedMeans(old(queue.dirty), old(queue.delayed), queue.dirty, queue.delayed, outcomes);
    }

    /** Services whose update is reported as a success are in line. */
    lemma ReportedMeans(outcomes: map<string, Outcome>)
      ensures Reported(outcomes) <==>
              forall key | key in outcomes && outcomes[key].Updated? ::
                key in services && (Steady(TheSite(), services[key].uid) ==> InLine(key))
    {}

    ghost predicate Reported(outcomes: map<string, Outcome>)
      reads this`services, this`nodes, cloud`now, nodeFilter`cache
    {
      forall key | key in outcomes && outcomes[key].Updated? ::
        key in services && (Steady(TheSite(), services[key].uid) ==> InLine(key))
    }

    /** Records that the worker has taken a key from the queue. */
    ghost method Take(key: string)
      requires Fits(cloud.now, queue.dirty + {key}, queue.delayed, {})
      requires key !in queue.dirty && queue.processing == {key} && key !in now.sys.running
      modifies this`worlds, this`moves, this`now
      ensures moves == old(moves) + [Step(Resync.Get(key))] && Valid() && HasTaken(key)
      ensures now.sys.running - {key} == old(now.sys.running)
    {
      hide IsRun, Good, Resync.Do, Resync.Processing;
      GetShows(now.sys, key);
      assert queue.dirty + {key} - {key} == queue.dirty;
      Advance(Step(Resync.Get(key)));
    }

    /** Queues every load balancer service with Local policy; if the listing fails, none. */
    method EnqueueLocalTrafficPolicyLoadBalancers() returns (ok: bool)
      requires Valid()
      modifies queue`dirty, this`failures, this`worlds, this`moves, this`now
      ensures failures == old(failures) + if ok then 0 else 1
      ensures queue.dirty == if ok then old(queue.dirty) + Resync.ScanKeys(services) else old(queue.dirty)
      ensures ok ==> forall key :: key in queue.dirty <==>
                key in old(queue.dirty)
                || (key in services && services[key].isLoadBalancer && services[key].localPolicy)
      ensures Valid() && moves == if ok then old(moves) + [Step(Resync.Scan)] else old(moves)
    {
      hide Fits;
      ok := *;
      if !ok {
        failures := failures + 1;
        return;
      }
      KeysAreKeys();
      var keys := Enumerate(services.Keys);
      var i := 0;
      while i < |keys|
        invariant 0 <= i <= |keys|
        modifies queue`dirty
        invariant queue.dirty == old(queue.dirty) + set j | 0 <= j < i && Resync.Local(services[keys[j]]) :: keys[j]
      {
        var svc := services[keys[i]];
        if svc.isLoadBalancer && svc.localPolicy {
          queue.Add(svc.Key());
        }
        i := i + 1;
      }
      RecordScan(old(queue.dirty));
    }

    /** Records that the scan has queued its keys. */
    ghost method RecordScan(dirty: set<string>)
      requires Fits(cloud.now, dirty, queue.delayed, queue.processing)
               && queue.dirty == dirty + Resync.ScanKeys(services)
      modifies this`worlds, this`moves, this`now
      ensures Valid() && moves == old(moves) + [Step(Resync.Scan)]
    {
      hide Good, IsRun, Resync.Do;
      ScanShows(now.sys);
      Advance(Step(Resync.Scan));
    }
  }

  /** Each key that was queued still is, or has been processed, and those that failed are backing off. */
  predicate Accounted(dirty0: set<string>, delayed0: set<string>, dirty: set<string>, delayed: set<string>,
                      outcomes: map<string, Outcome>) {
    && dirty !! outcomes.Keys && dirty + outcomes.Keys == dirty0
    && delayed == delayed0 + set key | key in outcomes && outcomes[key].Failed?
  }

  lemma NothingAccounted(dirty: set<string>, delayed: set<string>)
    ensures Accounted(dirty, delayed, dirty, delayed, map[])
  {}

  lemma AccountedMeans(dirty0: set<string>, delayed0: set<string>, dirty: set<string>, delayed: set<string>,
                       outcomes: map<string, Outcome>)
    requires Accounted(dirty0, delayed0, dirty, delayed, outcomes)
    ensures dirty !! outcomes.Keys && dirty + outcomes.Keys == dirty0
    ensures delayed == delayed0 + set key | key in outcomes && outcomes[key].Failed?
  {}

  lemma AccountedOn(dirty0: set<string>, delayed0: set<string>, dirty: set<string>, delayed: set<string>,
                    outcomes: map<string, Outcome>, key: string, outcome: Outcome)
    requires Accounted(dirty0, delayed0, dirty, delayed, outcomes) && key in dirty
    ensures Accounted(dirty0, delayed0, dirty - {key}, delayed + if outcome.Failed? then {key} else {},
                      outcomes[key := outcome])
  {}

  lemma KeyOfKnown(site: Site, w: World, key: string)
    requires Good(site, w) && key in w.sys.services
    ensures |Split(key, "/")| == 2
  {
    var svc := w.sys.services[key];
    assert svc.Key() == key && Resync.SlashFree(svc);
    ServiceKeyRoundTrip(svc.namespace, svc.name);
  }

  lemma PartsRejoin(key: string, parts: seq<string>)
    requires parts == Split(key, "/") && |parts| == 2
    ensures ServiceKey(parts[0], parts[1]) == key
  {
    JoinSplit(key, "/");
    assert parts[1..] == [parts[1]];
  }
}
