/** The watcher, the resync queue and its worker, and the service controller beside them as one
    transition system: informer events are delivered in order after the caches changed, and what a
    sync reads and what it does are separate steps that events and other services' syncs may fall
    between. Two syncs of one service do not overlap. */
module Resync {
  import opened GoText
  import opened Kubernetes
  import opened NodeFilter
  import opened Watcher

  /** How far a sync is: the service and nodes it works with, and then which of the nodes the slices admit.
      Or it deletes the load balancer of a service. */
  datatype Phase =
    | Fetching
    | Filtering(svc: Service, nodes: seq<Node>)
    | Applying(svc: Service, nodes: seq<Node>, decision: Decision)
    | Deleting(svc: Service)

  /** queued: by the worker, and not by the service controller.
      since: the service was tracked when this sync read it, and has been tracked ever since. */
  datatype Sync = Sync(phase: Phase, queued: bool, since: bool)

  /** What a load balancer was last updated for. */
  datatype LastSync = LastSync(svc: Service, nodes: seq<Node>, decision: Decision)

  datatype System = System(
    services: map<string, Service>,          // the API server's services, by key
    seen: map<string, Service>,              // the services as the delivered events show them
    serviceEvents: seq<Event<Service>>,      // service events on their way to the handlers
    slices: map<string, EndpointSlice>,      // the slice cache that Filter lists
    sliceEvents: seq<Event<EndpointSlice>>,  // slice events on their way to the handlers
    tracked: set<string>,                    // localTrafficServices
    dirty: set<string>,                      // queued, or to be queued again once done
    delayed: set<string>,                    // backing off after a failed update
    retrying: set<string>,                   // to be tried again by the service controller
    running: map<string, Sync>,              // the syncs under way, by key
    applied: map<string, LastSync>,          // each service's last update, if none has failed since
    synced: set<string>)                     // updated at least once since tracked

  const INIT := System(map[], map[], [], map[], [], {}, {}, {}, {}, map[], map[], {})

  datatype Step =
    | SetService(svc: Service)
    | RemoveService(key: string, tombstone: bool)
    | SetSlice(id: string, slice: EndpointSlice)
    | RemoveSlice(id: string, tombstone: bool)
    | DeliverService
    | DeliverSlice
    | Get(key: string)
    | Fetch(key: string, nodes: seq<Node>)
    | FetchFails(key: string)
    | Filter(key: string)
    | Finish(key: string, ok: bool)
    | BackedOff(key: string)
    | Scan
    | ControllerStart(key: string, nodes: seq<Node>)
    | DeleteStart(svc: Service)
    | DeleteEnd(key: string, ok: bool)

  // ---------------------------------------------------------------- what each step does

  predicate Local(svc: Service) {
    svc.isLoadBalancer && svc.localPolicy
  }

  function LocalKeys(services: map<string, Service>): set<string> {
    set k | k in services && services[k].localPolicy
  }

  predicate SlashFree(svc: Service) {
    '/' !in svc.namespace && '/' !in svc.name
  }

  /** The keys that the worker has taken from the queue and is not done with. */
  function Processing(s: System): set<string> {
    set k | k in s.running && s.running[k].queued
  }

  /** Forgets that a key was synced: its tracking, or its load balancer, has ended. */
  function Forget(s: System, keys: set<string>): System {
    s.(synced := s.synced - keys,
       running := map k | k in s.running :: if k in keys then s.running[k].(since := false) else s.running[k])
  }

  function EventKey(e: Event<Service>): Option<string> {
    match e
    case Add(Object(s)) => Some(s.Key())
    case Update(_, Object(t)) => Some(t.Key())
    case Delete(Object(s)) => Some(s.Key())
    case Delete(Tombstone(k)) => Some(k)
    case _ => None
  }

  function SeenAfter(seen: map<string, Service>, e: Event<Service>): map<string, Service> {
    match e
    case Add(Object(s)) => seen[s.Key() := s]
    case Update(_, Object(t)) => seen[t.Key() := t]
    case Delete(Object(s)) => seen - {s.Key()}
    case Delete(Tombstone(k)) => seen - {k}
    case _ => seen
  }

  /** This version of the service, or another of the same UID, is there and wants a load balancer. */
  predicate Wanted(services: map<string, Service>, svc: Service) {
    var k := svc.Key();
    k in services && services[k].isLoadBalancer && services[k].uid == svc.uid
  }

  predicate IsLoadBalancer(services: map<string, Service>, k: string) {
    k in services && services[k].isLoadBalancer
  }

  predicate Enabled(s: System, step: Step) {
    match step
    case SetService(svc) => SlashFree(svc) && (svc.Key() in s.services ==> s.services[svc.Key()].uid == svc.uid)
    case RemoveService(key, _) => key in s.services
    case SetSlice(id, slice) => '/' !in slice.namespace
    case RemoveSlice(id, _) => id in s.slices
    case DeliverService => s.serviceEvents != []
    case DeliverSlice => s.sliceEvents != []
    case Get(key) => Processing(s) == {} && key in s.dirty && key !in s.running
    case Fetch(key, _) => key in s.running && s.running[key].phase.Fetching?
    case FetchFails(key) => key in s.running && s.running[key].phase.Fetching?
    case Filter(key) => key in s.running && s.running[key].phase.Filtering?
    case Finish(key, ok) =>
      key in s.running && (s.running[key].phase.Applying? || (s.running[key].phase.Filtering? && !ok))
    case BackedOff(key) => key in s.delayed
    case Scan => true
    case ControllerStart(key, _) => IsLoadBalancer(s.services, key) && key !in s.running
    case DeleteStart(svc) => SlashFree(svc) && !Wanted(s.services, svc) && svc.Key() !in s.running
    case DeleteEnd(key, _) => key in s.running && s.running[key].phase.Deleting?
  }

  function Do(s: System, step: Step): System
    requires Enabled(s, step)
  {
    match step
    case SetService(svc) => DoSetService(s, svc)
    case RemoveService(key, tombstone) => DoRemoveService(s, key, tombstone)
    case SetSlice(id, slice) => DoSetSlice(s, id, slice)
    case RemoveSlice(id, tombstone) => DoRemoveSlice(s, id, tombstone)
    case DeliverService => DoDeliverService(s)
    case DeliverSlice => DoDeliverSlice(s)
    case Get(key) => DoGet(s, key)
    case Fetch(key, nodes) => DoFetch(s, key, nodes)
    case FetchFails(key) => s.(running := s.running - {key})
    case Filter(key) => DoFilter(s, key)
    case Finish(key, ok) => DoFinish(s, key, ok)
    case BackedOff(key) => DoBackedOff(s, key)
    case Scan => DoScan(s)
    case ControllerStart(key, nodes) => DoControllerStart(s, key, nodes)
    case DeleteStart(svc) => DoDeleteStart(s, svc)
    case DeleteEnd(key, ok) => DoDeleteEnd(s, key, ok)
  }

  function DoSetService(s: System, svc: Service): System {
    var k := svc.Key();
    var event := if k in s.services then Update(Object(s.services[k]), Object(svc)) else Add(Object(svc));
    var s' := s.(services := s.services[k := svc], serviceEvents := s.serviceEvents + [event]);
    if svc.isLoadBalancer then s' else Forget(s', {k})
  }

  function DoRemoveService(s: System, key: string, tombstone: bool): System
    requires key in s.services
  {
    s.(services := s.services - {key},
       serviceEvents := s.serviceEvents + [Delete(if tombstone then Tombstone(key) else Object(s.services[key]))])
  }

  function DoSetSlice(s: System, id: string, slice: EndpointSlice): System {
    var event := if id in s.slices then Update(Object(s.slices[id]), Object(slice)) else Add(Object(slice));
    s.(slices := s.slices[id := slice], sliceEvents := s.sliceEvents + [event])
  }

  function DoRemoveSlice(s: System, id: string, tombstone: bool): System
    requires id in s.slices
  {
    s.(slices := s.slices - {id},
       sliceEvents := s.sliceEvents + [Delete(if tombstone then Tombstone(id) else Object(s.slices[id]))])
  }

  function DoDeliverService(s: System): System
    requires s.serviceEvents != []
  {
    var e := s.serviceEvents[0];
    var tracked' := TrackedAfter(s.tracked, e);
    Forget(s.(serviceEvents := s.serviceEvents[1..], seen := SeenAfter(s.seen, e),
              tracked := tracked', dirty := s.dirty + ServiceTriggers(e)),
           s.tracked - tracked')
  }

  function DoDeliverSlice(s: System): System
    requires s.sliceEvents != []
  {
    s.(sliceEvents := s.sliceEvents[1..], dirty := s.dirty + SliceTriggers(s.sliceEvents[0]) * s.tracked)
  }

  function DoGet(s: System, key: string): System {
    s.(dirty := s.dirty - {key}, running := s.running[key := Sync(Fetching, true, false)])
  }

  /** The worker reads the service and the nodes; a service that is gone or no load balancer ends the sync. */
  function DoFetch(s: System, key: string, nodes: seq<Node>): System {
    if IsLoadBalancer(s.services, key)
    then s.(running := s.running[key := Sync(Filtering(s.services[key], nodes), true, key in s.tracked)])
    else s.(running := s.running - {key})
  }

  function DoFilter(s: System, key: string): System
    requires key in s.running && s.running[key].phase.Filtering?
  {
    var Filtering(svc, nodes) := s.running[key].phase;
    s.(running := s.running[key := s.running[key].(phase := Applying(svc, nodes, Decide(svc, s.slices)))])
  }

  /** The update of the load balancer ends; one that failed, or for which listing the slices failed, is
      tried again by whoever made it. */
  function DoFinish(s: System, key: string, ok: bool): System
    requires key in s.running && (ok ==> s.running[key].phase.Applying?)
  {
    var s' := s.(running := s.running - {key});
    if ok then
      var Applying(svc, nodes, decision) := s.running[key].phase;
      s'.(applied := s.applied[key := LastSync(svc, nodes, decision)],
          synced := if s.running[key].since then s.synced + {key} else s.synced)
    else if s.running[key].queued then s'.(applied := s.applied - {key}, delayed := s.delayed + {key})
    else s'.(applied := s.applied - {key}, retrying := s.retrying + {key})
  }

  function DoBackedOff(s: System, key: string): System {
    s.(delayed := s.delayed - {key}, dirty := s.dirty + {key})
  }

  function DoScan(s: System): System {
    s.(dirty := s.dirty + ScanKeys(s.services))
  }

  /** The services the periodic scan queues. */
  function ScanKeys(services: map<string, Service>): set<string> {
    set k | k in services && Local(services[k])
  }

  /** The service controller syncs a service for whatever reason: a change of the service or of the nodes,
      or a retry. */
  function DoControllerStart(s: System, key: string, nodes: seq<Node>): System
    requires IsLoadBalancer(s.services, key)
  {
    s.(retrying := s.retrying - {key},
       running := s.running[key := Sync(Filtering(s.services[key], nodes), false, key in s.tracked)])
  }

  /** The service controller deletes the load balancer of a service that no longer wants one. */
  function DoDeleteStart(s: System, svc: Service): System {
    var k := svc.Key();
    s.(applied := if k in s.applied && s.applied[k].svc.uid == svc.uid then s.applied - {k} else s.applied,
       running := s.running[k := Sync(Deleting(svc), false, false)])
  }

  function DoDeleteEnd(s: System, key: string, ok: bool): System {
    s.(running := s.running - {key},
       retrying := if !ok then s.retrying + {key}
                   else if IsLoadBalancer(s.services, key) then s.retrying
                   else s.retrying - {key})
  }

  /** A run: every state follows from the one before by an enabled step. */
  ghost predicate IsRun(states: seq<System>, steps: seq<Step>) {
    && |states| == |steps| + 1
    && forall i | 0 <= i < |steps| :: Enabled(states[i], steps[i]) && states[i + 1] == Do(states[i], steps[i])
  }

  // ---------------------------------------------------------------- the tracked set

  /** The event follows from the view of what came before: its old object is the last one seen. */
  predicate Legal(seen: map<string, Service>, e: Event<Service>) {
    match e
    case Add(Object(s)) => s.Key() !in seen
    case Update(Object(s), Object(t)) => t.Key() in seen && seen[t.Key()] == s
    case Delete(Object(s)) => s.Key() in seen && seen[s.Key()] == s
    case Delete(Tombstone(k)) => true
    case _ => false
  }

  predicate AllLegal(seen: map<string, Service>, events: seq<Event<Service>>)
    decreases |events|
  {
    events == [] || (Legal(seen, events[0]) && AllLegal(SeenAfter(seen, events[0]), events[1..]))
  }

  function SeenAfterAll(seen: map<string, Service>, events: seq<Event<Service>>): map<string, Service>
    decreases |events|
  {
    if events == [] then seen else SeenAfterAll(SeenAfter(seen, events[0]), events[1..])
  }

  function TrackedAfterAll(tracked: set<string>, events: seq<Event<Service>>): set<string>
    decreases |events|
  {
    if events == [] then tracked else TrackedAfterAll(TrackedAfter(tracked, events[0]), events[1..])
  }

  predicate IsTombstone(e: Event<Service>) {
    e.Delete? && e.obj.Tombstone?
  }

  predicate KeysMatch(services: map<string, Service>) {
    forall k | k in services :: services[k].Key() == k
  }

  /** One handled event keeps the tracked set equal to the Local keys of what has been seen; a
      tombstone, which the handler drops, may leave too many. */
  lemma TrackedStep(seen: map<string, Service>, tracked: set<string>, e: Event<Service>)
    requires KeysMatch(seen) && Legal(seen, e)
    ensures KeysMatch(SeenAfter(seen, e))
    ensures tracked == LocalKeys(seen) && !IsTombstone(e) ==> TrackedAfter(tracked, e) == LocalKeys(SeenAfter(seen, e))
    ensures tracked >= LocalKeys(seen) ==> TrackedAfter(tracked, e) >= LocalKeys(SeenAfter(seen, e))
  {}

  /** Over every history of events, the tracked set ends as the keys of the services now Local, and,
      if deletes may arrive as tombstones, still as a superset of them. */
  lemma {:induction false} TrackedSetIsLocalKeys(seen: map<string, Service>, tracked: set<string>,
                                                 events: seq<Event<Service>>)
    requires KeysMatch(seen) && AllLegal(seen, events)
    ensures tracked == LocalKeys(seen) && (forall e | e in events :: !IsTombstone(e))
            ==> TrackedAfterAll(tracked, events) == LocalKeys(SeenAfterAll(seen, events))
    ensures tracked >= LocalKeys(seen) ==> TrackedAfterAll(tracked, events) >= LocalKeys(SeenAfterAll(seen, events))
    decreases |events|
  {
    if events != [] {
      TrackedStep(seen, tracked, events[0]);
      TrackedSetIsLocalKeys(SeenAfter(seen, events[0]), TrackedAfter(tracked, events[0]), events[1..]);
      assert events[0] in events;
      assert forall e | e in events[1..] :: e in events;
    }
  }

  lemma {:induction false} AppendLegal(seen: map<string, Service>, events: seq<Event<Service>>, e: Event<Service>)
    requires AllLegal(seen, events) && Legal(SeenAfterAll(seen, events), e)
    ensures AllLegal(seen, events + [e])
    ensures SeenAfterAll(seen, events + [e]) == SeenAfter(SeenAfterAll(seen, events), e)
    decreases |events|
  {
    if events == [] {
      assert ([e])[1..] == [];
    } else {
      AppendLegal(SeenAfter(seen, events[0]), events[1..], e);
      assert (events + [e])[1..] == events[1..] + [e];
    }
  }

  // ---------------------------------------------------------------- agreement

  /** An undelivered event will make the watcher act on the key, or ends its tracking. */
  predicate Pending(sliceEvents: seq<Event<EndpointSlice>>, serviceEvents: seq<Event<Service>>, k: string) {
    || (exists i :: 0 <= i < |sliceEvents| && k in SliceTriggers(sliceEvents[i]))
    || (exists i :: 0 <= i < |serviceEvents| && Moves(serviceEvents[i], k))
  }

  predicate Undelivered(s: System, k: string) {
    Pending(s.sliceEvents, s.serviceEvents, k)
  }

  /** The event adds or deletes the service or takes its policy into or out of Local. */
  predicate Moves(e: Event<Service>, k: string) {
    EventKey(e) == Some(k) && (e.Update? ==> k in ServiceTriggers(e))
  }

  /** Another sync of the key is still to come, apart from one that may be running. */
  predicate Owed(s: System, k: string) {
    k in s.dirty || k in s.delayed || k in s.retrying || Undelivered(s, k)
  }

  /** The sync is for the service as it is, as far as the choice of nodes goes, or the service is not Local. */
  predicate InForce(s: System, k: string, svc: Service) {
    k in s.services && Local(s.services[k]) ==> svc.localPolicy && svc.uid == s.services[k].uid
  }

  predicate DecisionInForce(s: System, k: string, svc: Service, d: Decision) {
    k in s.services && Local(s.services[k]) ==> svc.uid == s.services[k].uid && d == Decide(s.services[k], s.slices)
  }

  /** What must hold of a running sync, if it is to count, unless another is owed. */
  predicate SyncAgrees(s: System, k: string, sync: Sync) {
    sync.since && !Owed(s, k) ==>
      match sync.phase
      case Fetching => true
      case Filtering(svc, _) => InForce(s, k, svc)
      case Applying(svc, _, d) => DecisionInForce(s, k, svc, d)
      case Deleting(_) => true
  }

  predicate AppliedAgrees(s: System, k: string) {
    k in s.services && Local(s.services[k]) ==>
      k in s.applied && DecisionInForce(s, k, s.applied[k].svc, s.applied[k].decision)
  }

  /** The theorem's conclusion for one key. */
  predicate Agrees(s: System, k: string) {
    Owed(s, k) || Syncing(s, k) || AppliedAgrees(s, k)
  }

  /** A sync of the key is under way, and not just a deletion. */
  predicate Syncing(s: System, k: string) {
    k in s.running && !s.running[k].phase.Deleting?
  }

  predicate Counts(s: System, k: string) {
    k in s.synced || (k in s.running && s.running[k].since)
  }

  /** Services, the view of them that the events on their way lead to, and the tracked set. */
  ghost predicate Views(s: System) {
    && WellKeyed(s) && KeysMatch(s.seen)
    && AllLegal(s.seen, s.serviceEvents) && SeenAfterAll(s.seen, s.serviceEvents) == s.services
    && (forall i | 0 <= i < |s.serviceEvents| :: !IsTombstone(s.serviceEvents[i]))
    && s.tracked == LocalKeys(s.seen)
  }

  ghost predicate WellKeyed(s: System) {
    KeysMatch(s.services) && forall k | k in s.services :: SlashFree(s.services[k])
  }

  /** What holds of the syncs of one key, apart from the agreement itself. */
  predicate KeySyncs(s: System, k: string) {
    && (Counts(s, k) ==> k in s.tracked && (k in s.services ==> s.services[k].isLoadBalancer))
    && (k in s.running ==>
          var sync := s.running[k];
          && SyncAgrees(s, k, sync)
          && (!sync.phase.Fetching? ==>
                && sync.phase.svc.Key() == k && SlashFree(sync.phase.svc)
                && (k in s.synced && !sync.phase.Deleting? ==> sync.since)))
  }

  ghost predicate Syncs(s: System) {
    && (forall id | id in s.slices :: '/' !in s.slices[id].namespace && ClearSlice(s.slices[id]))
    && forall k :: KeySyncs(s, k)
  }

  ghost predicate Inv(s: System) {
    Views(s) && Syncs(s) && forall k | k in s.synced :: Agrees(s, k)
  }

  /** The steps on which the agreement rests: no failing read, no tombstone, slices that keep their
      owner and whose endpoints are clear. */
  predicate Undisturbed(s: System, step: Step) {
    !step.FetchFails? && Readable(s, step)
  }

  /** The same without the condition on reads. */
  predicate Readable(s: System, step: Step) {
    match step
    case RemoveService(_, tombstone) => !tombstone
    case RemoveSlice(_, tombstone) => !tombstone
    case SetSlice(id, slice) => ClearSlice(slice) && (id in s.slices ==> SameOwner(s.slices[id], slice))
    case _ => true
  }

  // ---------------------------------------------------------------- decisions under changes

  lemma SameKeySameDecision(a: Service, b: Service, cache: map<string, EndpointSlice>)
    requires a.Key() == b.Key() && '/' !in a.namespace && '/' !in b.namespace
    requires a.localPolicy == b.localPolicy
    ensures Decide(a, cache) == Decide(b, cache)
  {
    KeyInjective(a.namespace, a.name, b.namespace, b.name);
  }

  predicate SelectedBy(svc: Service, slice: EndpointSlice) {
    slice.namespace == svc.namespace && slice.ServiceName() == Some(svc.name)
  }

  /** The lister's selector and the watcher's key pick the same slices for a service. */
  lemma SelectorMatchesKey(svc: Service, slice: EndpointSlice)
    requires '/' !in svc.namespace && '/' !in slice.namespace
    ensures SelectedBy(svc, slice) <==> slice.Key() == Some(svc.Key())
  {
    if slice.ServiceName().Some? {
      KeyInjective(svc.namespace, svc.name, slice.namespace, slice.ServiceName().value);
    }
  }

  lemma UnselectedSliceIrrelevant(svc: Service, cache: map<string, EndpointSlice>, cache': map<string, EndpointSlice>,
                                  id: string)
    requires cache - {id} == cache' - {id}
    requires id in cache ==> !SelectedBy(svc, cache[id])
    requires id in cache' ==> !SelectedBy(svc, cache'[id])
    ensures Decide(svc, cache') == Decide(svc, cache)
  {
    var ids := Selected(cache, svc.namespace, svc.name);
    assert forall i | i != id :: (i in cache <==> i in cache - {id}) && (i in cache' <==> i in cache' - {id});
    assert forall i | i in cache && i != id :: cache[i] == (cache - {id})[i];
    assert forall i | i in cache' && i != id :: cache'[i] == (cache' - {id})[i];
    assert Selected(cache', svc.namespace, svc.name) == ids;
    assert ReadyNames(cache', ids) == ReadyNames(cache, ids);
  }

  /** A slice change whose event would not trigger a service leaves that service's decision alone. */
  lemma SilentSliceChange(s: System, step: Step, svc: Service)
    requires Enabled(s, step) && Readable(s, step) && (step.SetSlice? || step.RemoveSlice?)
    requires '/' !in svc.namespace
    requires forall id | id in s.slices :: '/' !in s.slices[id].namespace && ClearSlice(s.slices[id])
    requires var events := Do(s, step).sliceEvents; svc.Key() !in SliceTriggers(events[|events| - 1])
    ensures Decide(svc, Do(s, step).slices) == Decide(svc, s.slices)
  {
    var id, slices' := step.id, Do(s, step).slices;
    if id in s.slices {
      SelectorMatchesKey(svc, s.slices[id]);
    }
    if step.SetSlice? {
      SelectorMatchesKey(svc, step.slice);
    }
    if step.SetSlice? && id in s.slices && WatchedHosts(s.slices[id]) == WatchedHosts(step.slice) {
      ClearSliceHosts(s.slices[id]);
      ClearSliceHosts(step.slice);
      SameHostsSameDecision(svc, s.slices, id, step.slice);
    } else {
      assert s.slices - {id} == slices' - {id};
      UnselectedSliceIrrelevant(svc, s.slices, slices', id);
    }
  }

  // ---------------------------------------------------------------- what each step keeps

  lemma PendingAppendedSlice(s: System, s': System, k: string)
    requires s'.serviceEvents == s.serviceEvents
    requires |s'.sliceEvents| == |s.sliceEvents| + 1 && s'.sliceEvents[..|s.sliceEvents|] == s.sliceEvents
    ensures Undelivered(s', k) <==> Undelivered(s, k) || k in SliceTriggers(s'.sliceEvents[|s.sliceEvents|])
  {
    assert forall i | 0 <= i < |s.sliceEvents| :: s'.sliceEvents[i] == s.sliceEvents[i];
  }

  lemma PendingAppendedService(s: System, s': System, k: string)
    requires s'.sliceEvents == s.sliceEvents
    requires |s'.serviceEvents| == |s.serviceEvents| + 1 && s'.serviceEvents[..|s.serviceEvents|] == s.serviceEvents
    ensures Undelivered(s', k) <==> Undelivered(s, k) || Moves(s'.serviceEvents[|s.serviceEvents|], k)
  {
    assert forall i | 0 <= i < |s.serviceEvents| :: s'.serviceEvents[i] == s.serviceEvents[i];
  }

  lemma PendingDelivered(s: System, s': System, k: string)
    requires || (s.serviceEvents == s'.serviceEvents && s.sliceEvents != [] && s'.sliceEvents == s.sliceEvents[1..])
             || (s.sliceEvents == s'.sliceEvents && s.serviceEvents != [] && s'.serviceEvents == s.serviceEvents[1..])
    ensures Undelivered(s, k) ==>
              || Undelivered(s', k)
              || (s.sliceEvents != s'.sliceEvents && k in SliceTriggers(s.sliceEvents[0]))
              || (s.serviceEvents != s'.serviceEvents && Moves(s.serviceEvents[0], k))
  {
    if s.serviceEvents == s'.serviceEvents {
      assert forall i | 0 < i < |s.sliceEvents| :: s.sliceEvents[i] == s'.sliceEvents[i - 1];
    } else {
      assert forall i | 0 < i < |s.serviceEvents| :: s.serviceEvents[i] == s'.serviceEvents[i - 1];
    }
  }

  /** What one step does to agreement on one key, for keys that were synced before and after. */
  ghost predicate KeepsAgreement(s: System, s': System, k: string) {
    && (Agrees(s, k) ==> Agrees(s', k))
    && (!Owed(s, k) && !Syncing(s, k) && !Owed(s', k) && !Syncing(s', k) ==>
          (IsLocal(s, k) <==> IsLocal(s', k)) && (AppliedAgrees(s, k) <==> AppliedAgrees(s', k)))
  }

  predicate IsLocal(s: System, k: string) {
    k in s.services && Local(s.services[k])
  }

  /** One step keeps what the agreement needs, and the agreement on every key that stays synced. */
  ghost predicate StepKeeps(s: System, s': System) {
    Syncs(s') && forall k | k in s.synced && k in s'.synced :: KeepsAgreement(s, s', k)
  }

  /** The queues, the syncs and the last updates have the same to say about the key. */
  predicate SameFor(s: System, s': System, k: string) {
    && (k in s.dirty <==> k in s'.dirty) && (k in s.delayed <==> k in s'.delayed)
    && (k in s.retrying <==> k in s'.retrying) && (k in s.synced <==> k in s'.synced)
    && (k in s.running <==> k in s'.running) && (k in s.running ==> s.running[k] == s'.running[k])
    && (k in s.applied <==> k in s'.applied) && (k in s.applied ==> s.applied[k] == s'.applied[k])
  }

  /** The step changed nothing that bears on keys other than this one. */
  ghost predicate OnlyAbout(s: System, s': System, key: string) {
    && s' == s.(dirty := s'.dirty, delayed := s'.delayed, retrying := s'.retrying, running := s'.running,
                applied := s'.applied, synced := s'.synced)
    && forall k | k != key :: SameFor(s, s', k)
  }

  lemma OthersKeep(s: System, s': System, key: string, k: string)
    requires OnlyAbout(s, s', key) && KeySyncs(s, k) && k != key
    ensures KeySyncs(s', k) && KeepsAgreement(s, s', k)
  {
    hide Decide, Pending, SlashFree;
    assert SameFor(s, s', k);
  }

  lemma KeepsAllButKey(s: System, s': System, key: string)
    requires Syncs(s) && OnlyAbout(s, s', key) && KeySyncs(s', key)
    ensures Syncs(s')
    ensures forall k | k != key :: KeepsAgreement(s, s', k)
  {
    hide KeySyncs, OnlyAbout, KeepsAgreement;
    SlicesOfOnlyAbout(s, s', key);
    forall k | k != key
      ensures KeySyncs(s', k) && KeepsAgreement(s, s', k)
    {
      OthersKeep(s, s', key, k);
    }
  }

  lemma SlicesOfOnlyAbout(s: System, s': System, key: string)
    requires OnlyAbout(s, s', key)
    ensures s'.slices == s.slices
  {}

  lemma SliceStepKeeps(s: System, step: Step)
    requires WellKeyed(s) && Syncs(s) && Enabled(s, step) && Readable(s, step) && (step.SetSlice? || step.RemoveSlice?)
    ensures StepKeeps(s, Do(s, step))
  {
    var s' := Do(s, step);
    forall k
      ensures Undelivered(s', k) <==> Undelivered(s, k) || k in SliceTriggers(s'.sliceEvents[|s.sliceEvents|])
    {
      PendingAppendedSlice(s, s', k);
    }
    forall k | k in s.services && !Undelivered(s', k)
      ensures Decide(s.services[k], s'.slices) == Decide(s.services[k], s.slices)
    {
      SilentSliceChange(s, step, s.services[k]);
    }
    forall k
      ensures KeySyncs(s', k) && (k in s.synced ==> KeepsAgreement(s, s', k))
    {
      assert KeySyncs(s, k) && (Owed(s, k) ==> Owed(s', k));
    }
  }

  lemma SetServiceKeepsViews(s: System, svc: Service)
    requires Views(s) && Enabled(s, SetService(svc))
    ensures Views(DoSetService(s, svc))
  {
    hide AllLegal, SeenAfterAll, Decide, ServiceKey;
    var s' := DoSetService(s, svc);
    AppendLegal(s.seen, s.serviceEvents, s'.serviceEvents[|s.serviceEvents|]);
  }

  lemma SetServiceKeeps(s: System, svc: Service)
    requires WellKeyed(s) && Syncs(s) && Enabled(s, SetService(svc))
    ensures StepKeeps(s, DoSetService(s, svc))
  {
    hide Decide, SliceTriggers, ClearSlice, Pending, ServiceKey;
    var s' := DoSetService(s, svc);
    var k := svc.Key();
    var e := s'.serviceEvents[|s.serviceEvents|];
    forall j
      ensures Undelivered(s', j) <==> Undelivered(s, j) || Moves(e, j)
    {
      PendingAppendedService(s, s', j);
    }
    if !Moves(e, k) {
      SameKeySameDecision(s.services[k], svc, s.slices);
    }
    forall j
      ensures KeySyncs(s', j) && (j in s'.synced ==> KeepsAgreement(s, s', j))
    {
      assert KeySyncs(s, j) && (Owed(s, j) ==> Owed(s', j));
    }
  }

  lemma RemoveServiceKeepsViews(s: System, key: string)
    requires Views(s) && key in s.services
    ensures Views(DoRemoveService(s, key, false))
  {
    var s' := DoRemoveService(s, key, false);
    AppendLegal(s.seen, s.serviceEvents, s'.serviceEvents[|s.serviceEvents|]);
  }

  lemma RemoveServiceKeeps(s: System, key: string)
    requires WellKeyed(s) && Syncs(s) && key in s.services
    ensures StepKeeps(s, DoRemoveService(s, key, false))
  {
    var s' := DoRemoveService(s, key, false);
    var e := s'.serviceEvents[|s.serviceEvents|];
    forall j
      ensures Undelivered(s', j) <==> Undelivered(s, j) || Moves(e, j)
    {
      PendingAppendedService(s, s', j);
    }
    forall j
      ensures KeySyncs(s', j) && KeepsAgreement(s, s', j)
    {
      assert KeySyncs(s, j) && (Owed(s, j) ==> Owed(s', j));
    }
  }

  lemma DeliverSliceKeeps(s: System)
    requires Syncs(s) && Enabled(s, DeliverSlice)
    ensures StepKeeps(s, DoDeliverSlice(s))
  {
    var s' := DoDeliverSlice(s);
    forall k
      ensures KeySyncs(s', k) && (k in s'.synced ==> KeepsAgreement(s, s', k))
    {
      assert KeySyncs(s, k);
      PendingDelivered(s, s', k);
    }
  }

  lemma DeliverServiceKeepsViews(s: System)
    requires Views(s) && Enabled(s, DeliverService)
    ensures Views(DoDeliverService(s))
  {
    var s' := DoDeliverService(s);
    TrackedStep(s.seen, s.tracked, s.serviceEvents[0]);
    assert forall i | 0 <= i < |s'.serviceEvents| :: s'.serviceEvents[i] == s.serviceEvents[i + 1];
  }

  /** An event about a service that stays tracked through it either queues the service or moves nothing. */
  lemma DeliveredStillOwed(s: System, k: string)
    requires Views(s) && Enabled(s, DeliverService)
    requires k in s.tracked && k in DoDeliverService(s).tracked && Owed(s, k)
    ensures Owed(DoDeliverService(s), k)
  {
    PendingDelivered(s, DoDeliverService(s), k);
  }

  lemma DeliverServiceKeeps(s: System)
    requires Views(s) && Syncs(s) && Enabled(s, DeliverService)
    ensures StepKeeps(s, DoDeliverService(s))
  {
    var s' := DoDeliverService(s);
    forall k
      ensures KeySyncs(s', k) && (k in s'.synced ==> KeepsAgreement(s, s', k))
    {
      assert KeySyncs(s, k);
      if Counts(s', k) && Owed(s, k) {
        DeliveredStillOwed(s, k);
      }
    }
  }

  lemma ScanKeeps(s: System)
    requires Syncs(s)
    ensures StepKeeps(s, DoScan(s))
  {
    var s' := DoScan(s);
    forall k
      ensures KeySyncs(s', k) && KeepsAgreement(s, s', k)
    {
      assert KeySyncs(s, k);
    }
  }

  lemma QueueStepKeeps(s: System, step: Step, key: string)
    requires Syncs(s) && Enabled(s, step) && (step.BackedOff? || step.Get? || step.FetchFails?) && step.key == key
    ensures Syncs(Do(s, step))
    ensures forall k | !(step.FetchFails? && k == key) :: KeepsAgreement(s, Do(s, step), k)
  {
    var s' := Do(s, step);
    assert KeySyncs(s, key) && OnlyAbout(s, s', key);
    KeepsAllButKey(s, s', key);
  }

  lemma DeleteStartKeeps(s: System, svc: Service)
    requires Syncs(s) && Enabled(s, DeleteStart(svc))
    ensures StepKeeps(s, DoDeleteStart(s, svc))
  {
    var key := svc.Key();
    assert KeySyncs(s, key) && OnlyAbout(s, DoDeleteStart(s, svc), key);
    KeepsAllButKey(s, DoDeleteStart(s, svc), key);
  }

  lemma DeleteEndKeeps(s: System, key: string, ok: bool)
    requires Syncs(s) && Enabled(s, DeleteEnd(key, ok))
    ensures StepKeeps(s, DoDeleteEnd(s, key, ok))
  {
    assert KeySyncs(s, key) && OnlyAbout(s, DoDeleteEnd(s, key, ok), key);
    KeepsAllButKey(s, DoDeleteEnd(s, key, ok), key);
  }

  lemma ControllerStartKeeps(s: System, key: string, nodes: seq<Node>)
    requires WellKeyed(s) && Syncs(s) && Enabled(s, ControllerStart(key, nodes))
    ensures StepKeeps(s, DoControllerStart(s, key, nodes))
  {
    assert KeySyncs(s, key) && OnlyAbout(s, DoControllerStart(s, key, nodes), key);
    KeepsAllButKey(s, DoControllerStart(s, key, nodes), key);
  }

  lemma FetchKeeps(s: System, key: string, nodes: seq<Node>)
    requires WellKeyed(s) && Syncs(s) && Enabled(s, Fetch(key, nodes))
    ensures StepKeeps(s, DoFetch(s, key, nodes))
  {
    assert KeySyncs(s, key) && OnlyAbout(s, DoFetch(s, key, nodes), key);
    KeepsAllButKey(s, DoFetch(s, key, nodes), key);
  }

  lemma FilterKeeps(s: System, key: string)
    requires WellKeyed(s) && Syncs(s) && Enabled(s, Filter(key))
    ensures StepKeeps(s, DoFilter(s, key))
  {
    var svc := s.running[key].phase.svc;
    assert KeySyncs(s, key) && OnlyAbout(s, DoFilter(s, key), key);
    if key in s.services && Local(s.services[key]) && svc.localPolicy {
      SameKeySameDecision(svc, s.services[key], s.slices);
    }
    KeepsAllButKey(s, DoFilter(s, key), key);
  }

  /** Finishing a sync keeps the agreement, and also a service synced for the first time agrees. */
  lemma FinishKeeps(s: System, key: string, ok: bool)
    requires Syncs(s) && Enabled(s, Finish(key, ok))
    ensures StepKeeps(s, DoFinish(s, key, ok))
    ensures key in DoFinish(s, key, ok).synced ==> Agrees(DoFinish(s, key, ok), key)
  {
    assert KeySyncs(s, key) && OnlyAbout(s, DoFinish(s, key, ok), key);
    KeepsAllButKey(s, DoFinish(s, key, ok), key);
  }

  lemma OtherStepsKeepViews(s: System, step: Step)
    requires Views(s) && Enabled(s, step)
    requires !step.SetService? && !step.RemoveService? && !step.DeliverService?
    ensures Views(Do(s, step))
  {
    var s' := Do(s, step);
    assert s'.services == s.services && s'.seen == s.seen && s'.serviceEvents == s.serviceEvents
           && s'.tracked == s.tracked;
  }

  lemma StepKeepsViews(s: System, step: Step)
    requires Views(s) && Enabled(s, step) && Readable(s, step)
    ensures Views(Do(s, step))
  {
    if step.SetService? {
      SetServiceKeepsViews(s, step.svc);
    } else if step.RemoveService? {
      RemoveServiceKeepsViews(s, step.key);
    } else if step.DeliverService? {
      DeliverServiceKeepsViews(s);
    } else {
      OtherStepsKeepViews(s, step);
    }
  }

  /** Only finishing a sync makes a service count as synced. */
  lemma SyncedByFinish(s: System, step: Step, k: string)
    requires Enabled(s, step) && k in Do(s, step).synced && k !in s.synced
    ensures step.Finish? && step.key == k && Syncing(s, k)
  {}

  lemma ViewsKeyed(s: System)
    requires Views(s)
    ensures WellKeyed(s)
  {}

  lemma StepKeepsSyncs(s: System, step: Step)
    requires Views(s) && Syncs(s) && Enabled(s, step) && Readable(s, step)
    ensures Syncs(Do(s, step))
    ensures forall k | k in s.synced && k in Do(s, step).synced && step != FetchFails(k) ::
              KeepsAgreement(s, Do(s, step), k)
    ensures forall k | k !in s.synced && k in Do(s, step).synced :: Agrees(Do(s, step), k)
  {
    hide Views, Syncs, WellKeyed, KeepsAgreement, Agrees;
    ViewsKeyed(s);
    forall k | k !in s.synced && k in Do(s, step).synced
      ensures Agrees(Do(s, step), k)
    {
      SyncedByFinish(s, step, k);
      FinishKeeps(s, step.key, step.ok);
    }
    match step
    case SetService(svc) => SetServiceKeeps(s, svc);
    case RemoveService(key, _) => RemoveServiceKeeps(s, key);
    case SetSlice(_, _) => SliceStepKeeps(s, step);
    case RemoveSlice(_, _) => SliceStepKeeps(s, step);
    case DeliverService => DeliverServiceKeeps(s);
    case DeliverSlice => DeliverSliceKeeps(s);
    case Get(key) => QueueStepKeeps(s, step, key);
    case BackedOff(key) => QueueStepKeeps(s, step, key);
    case Scan => ScanKeeps(s);
    case FetchFails(key) => QueueStepKeeps(s, step, key);
    case DeleteStart(svc) => DeleteStartKeeps(s, svc);
    case DeleteEnd(key, ok) => DeleteEndKeeps(s, key, ok);
    case ControllerStart(key, nodes) => ControllerStartKeeps(s, key, nodes);
    case Fetch(key, nodes) => FetchKeeps(s, key, nodes);
    case Filter(key) => FilterKeeps(s, key);
    case Finish(key, ok) => FinishKeeps(s, key, ok);
  }

  lemma StepKeepsInv(s: System, step: Step)
    requires Inv(s) && Enabled(s, step) && Undisturbed(s, step)
    ensures Inv(Do(s, step))
  {
    hide Views, Syncs, Agrees;
    StepKeepsViews(s, step);
    StepKeepsSyncs(s, step);
  }

  lemma {:induction false} RunKeepsInv(states: seq<System>, steps: seq<Step>, i: nat)
    requires IsRun(states, steps) && states[0] == INIT && i < |states|
    requires forall j | 0 <= j < |steps| :: Undisturbed(states[j], steps[j])
    ensures Inv(states[i])
  {
    if i > 0 {
      RunKeepsInv(states, steps, i - 1);
      StepKeepsInv(states[i - 1], steps[i - 1]);
    }
  }

  // ---------------------------------------------------------------- main results

  /** On every undisturbed run, at every moment, each Local service synced since it was tracked has an
      event on its way, is queued, being synced or to be tried again, or was last updated for this very
      service with exactly the decision the current slices give. */
  lemma QuiescentAgreement(states: seq<System>, steps: seq<Step>, i: nat, k: string)
    requires IsRun(states, steps) && states[0] == INIT && i < |states|
    requires forall j | 0 <= j < |steps| :: Undisturbed(states[j], steps[j])
    requires var s := states[i]; k in s.services && Local(s.services[k]) && k in s.synced
    ensures var s := states[i];
            || Undelivered(s, k)
            || k in s.dirty || k in s.delayed || k in s.retrying || Syncing(s, k)
            || (k in s.applied && s.applied[k].svc.uid == s.services[k].uid
                && s.applied[k].decision == Decide(s.services[k], s.slices))
  {
    RunKeepsInv(states, steps, i);
    assert Agrees(states[i], k);
  }

  /** Once every event is delivered, the tracked set is exactly the keys of the Local services. */
  lemma QuiescentTracking(states: seq<System>, steps: seq<Step>, i: nat)
    requires IsRun(states, steps) && states[0] == INIT && i < |states|
    requires forall j | 0 <= j < |steps| :: Undisturbed(states[j], steps[j])
    requires states[i].serviceEvents == []
    ensures states[i].tracked == LocalKeys(states[i].services)
  {
    RunKeepsInv(states, steps, i);
  }

  // ---------------------------------------------------------------- failing reads

  /** Step j was a failing read for the key, and from then to moment i no sync of it was owed or running. */
  ghost predicate LostAt(states: seq<System>, steps: seq<Step>, j: nat, i: nat, k: string)
    requires |states| == |steps| + 1 && i < |states|
  {
    j < i && steps[j] == FetchFails(k) && forall m | j < m <= i :: !Owed(states[m], k) && !Syncing(states[m], k)
  }

  lemma {:induction false} RunKeepsSyncs(states: seq<System>, steps: seq<Step>, i: nat)
    requires IsRun(states, steps) && states[0] == INIT && i < |states|
    requires forall j | 0 <= j < |steps| :: Readable(states[j], steps[j])
    ensures Views(states[i]) && Syncs(states[i])
  {
    if i > 0 {
      RunKeepsSyncs(states, steps, i - 1);
      StepKeepsViews(states[i - 1], steps[i - 1]);
      StepKeepsSyncs(states[i - 1], steps[i - 1]);
    }
  }

  /** A synced service agrees unless it was lost. */
  lemma {:induction false} AgreesUnlessLost(states: seq<System>, steps: seq<Step>, i: nat, k: string)
    requires IsRun(states, steps) && states[0] == INIT && i < |states| && k in states[i].synced
    requires forall j | 0 <= j < |steps| :: Readable(states[j], steps[j])
    ensures Agrees(states[i], k) || exists j: nat :: LostAt(states, steps, j, i, k)
  {
    hide Do, Views, Syncs, Owed, AppliedAgrees, Undisturbed;
    if i > 0 {
      var s, step := states[i - 1], steps[i - 1];
      RunKeepsSyncs(states, steps, i - 1);
      StepKeepsSyncs(s, step);
      if k in s.synced {
        AgreesUnlessLost(states, steps, i - 1, k);
        if step == FetchFails(k) {
          assert Agrees(states[i], k) || LostAt(states, steps, i - 1, i, k);
        } else if !Agrees(s, k) {
          var j: nat :| LostAt(states, steps, j, i - 1, k);
          assert Agrees(states[i], k) || LostAt(states, steps, j, i, k);
        }
      }
    }
  }

  lemma LostByStep(s: System, step: Step, k: string)
    requires Views(s) && Syncs(s) && Enabled(s, step) && Readable(s, step) && k in Do(s, step).synced
    requires step == FetchFails(k) || (!Owed(s, k) && !Syncing(s, k))
    requires !Owed(Do(s, step), k) && !Syncing(Do(s, step), k)
    ensures k in s.synced
    ensures var s' := Do(s, step);
            (IsLocal(s, k) <==> IsLocal(s', k)) && (AppliedAgrees(s, k) <==> AppliedAgrees(s', k))
  {
    hide Views, Syncs, Owed, AppliedAgrees, IsLocal, Readable;
    if k !in s.synced {
      SyncedByFinish(s, step, k);
    }
    if step == FetchFails(k) {
      SameServicesSameAgreement(s, Do(s, step), k);
    } else {
      StepKeepsSyncs(s, step);
    }
  }

  lemma SameServicesSameAgreement(s: System, s': System, k: string)
    requires s'.services == s.services && s'.slices == s.slices && s'.applied == s.applied
    ensures (IsLocal(s, k) <==> IsLocal(s', k)) && (AppliedAgrees(s, k) <==> AppliedAgrees(s', k))
  {}

  /** While a service is lost, whether its last update is current does not change. */
  lemma {:induction false} LostStaysAsItWas(states: seq<System>, steps: seq<Step>, j: nat, i: nat, k: string)
    requires IsRun(states, steps) && states[0] == INIT && i < |states| && k in states[i].synced
    requires forall j | 0 <= j < |steps| :: Readable(states[j], steps[j])
    requires LostAt(states, steps, j, i, k)
    ensures IsLocal(states[i], k) <==> IsLocal(states[j], k)
    ensures AppliedAgrees(states[i], k) <==> AppliedAgrees(states[j], k)
    decreases i
  {
    hide Views, Syncs, Owed, AppliedAgrees, IsLocal, Readable, Do;
    RunKeepsSyncs(states, steps, i - 1);
    LostByStep(states[i - 1], steps[i - 1], k);
    if j < i - 1 {
      LostStaysAsItWas(states, steps, j, i - 1, k);
    }
  }

  /** When reads of the API server fail: a synced Local service agrees, at any moment of any run, if and
      only if no failing read has lost it, or its last update was current when the read failed. */
  lemma FailedReadExactly(states: seq<System>, steps: seq<Step>, i: nat, k: string)
    requires IsRun(states, steps) && states[0] == INIT && i < |states|
    requires forall j | 0 <= j < |steps| :: Readable(states[j], steps[j])
    requires var s := states[i]; k in s.services && Local(s.services[k]) && k in s.synced
    ensures Agrees(states[i], k) <==> forall j: nat | LostAt(states, steps, j, i, k) :: UpToDate(states[j], k)
  {
    hide Views, Syncs, Owed, Readable;
    AgreesUnlessLost(states, steps, i, k);
    forall j: nat | LostAt(states, steps, j, i, k)
      ensures AppliedAgrees(states[i], k) <==> UpToDate(states[j], k)
    {
      LostStaysAsItWas(states, steps, j, i, k);
    }
  }

  /** The last update of the load balancer was for this service and for the nodes the slices admit now. */
  predicate UpToDate(s: System, k: string) {
    && k in s.services && k in s.applied && s.applied[k].svc.uid == s.services[k].uid
    && s.applied[k].decision == Decide(s.services[k], s.slices)
  }

  // ---------------------------------------------------------------- self-stabilisation

  /** Steps of a drain: nothing in the API server or the slice cache changes, and reads succeed. */
  predicate Quiet(step: Step) {
    !step.SetService? && !step.RemoveService? && !step.SetSlice? && !step.RemoveSlice? && !step.FetchFails?
  }

  /** The last update was for the current version of the service and the current slices. */
  predicate UpdatedFor(s: System, k: string) {
    && k in s.services && k in s.applied && s.applied[k].svc == s.services[k]
    && s.applied[k].decision == Decide(s.services[k], s.slices)
  }

  /** The key is queued or to be tried again, or the running or the last sync of it is right. */
  predicate Settling(s: System, k: string) {
    || k in s.dirty || k in s.delayed || k in s.retrying
    || (if Syncing(s, k) then
          match s.running[k].phase
          case Fetching => true
          case Filtering(svc, _) => k in s.services && svc == s.services[k]
          case Applying(svc, _, d) => k in s.services && svc == s.services[k] && d == Decide(svc, s.slices)
          case Deleting(_) => false
        else UpdatedFor(s, k))
  }

  lemma DeliveryLeavesSettling(s: System, step: Step, k: string)
    requires Enabled(s, step) && (step.DeliverService? || step.DeliverSlice?) && Settling(s, k)
    ensures Do(s, step).services == s.services && Do(s, step).slices == s.slices
    ensures Settling(Do(s, step), k)
  {
    hide Decide, SliceTriggers, ServiceTriggers, TrackedAfter;
  }

  lemma ReadLeavesSettling(s: System, step: Step, k: string)
    requires Enabled(s, step) && (step.Fetch? || step.ControllerStart?)
    requires k in s.services && Local(s.services[k]) && Settling(s, k)
    ensures Do(s, step).services == s.services && Do(s, step).slices == s.slices
    ensures Settling(Do(s, step), k)
  {
    hide Decide, Processing;
  }

  lemma SyncLeavesSettling(s: System, step: Step, k: string)
    requires Enabled(s, step) && (step.Filter? || step.Finish?)
    requires k in s.services && Local(s.services[k]) && Settling(s, k)
    ensures Do(s, step).services == s.services && Do(s, step).slices == s.slices
    ensures Settling(Do(s, step), k)
  {
    hide Decide, Processing;
  }

  lemma QuietStepSettles(s: System, step: Step, k: string)
    requires Enabled(s, step) && Quiet(step) && k in s.services && Local(s.services[k]) && Settling(s, k)
    ensures Do(s, step).services == s.services && Do(s, step).slices == s.slices
    ensures Settling(Do(s, step), k)
  {
    if step.DeliverService? || step.DeliverSlice? {
      DeliveryLeavesSettling(s, step, k);
    } else if step.Fetch? || step.ControllerStart? {
      ReadLeavesSettling(s, step, k);
    } else if step.Filter? || step.Finish? {
      SyncLeavesSettling(s, step, k);
    } else {
      hide Decide;
    }
  }

  /** A sync of the key is under way or still to come. */
  predicate Coming(s: System, k: string) {
    k in s.dirty || k in s.delayed || k in s.retrying || Syncing(s, k)
  }

  /** In a drain, only the success of a sync ends the wait for one. */
  lemma ComingUntilSynced(s: System, step: Step, k: string)
    requires Enabled(s, step) && Quiet(step) && IsLocal(s, k) && Coming(s, k) && step != Finish(k, true)
    ensures Coming(Do(s, step), k)
  {
    hide Decide, Processing, SliceTriggers, ServiceTriggers, TrackedAfter;
  }

  lemma {:induction false} DrainSettles(states: seq<System>, steps: seq<Step>, i: nat, k: string)
    requires IsRun(states, steps) && i < |states| && forall j | 0 <= j < |steps| :: Quiet(steps[j])
    requires k in states[0].services && Local(states[0].services[k]) && Settling(states[0], k)
    ensures states[i].services == states[0].services && states[i].slices == states[0].slices
    ensures Settling(states[i], k)
  {
    if i > 0 {
      DrainSettles(states, steps, i - 1, k);
      QuietStepSettles(states[i - 1], steps[i - 1], k);
    }
  }

  /** Nothing is queued, to be tried again or running. */
  predicate Drained(s: System) {
    s.dirty == {} && s.delayed == {} && s.retrying == {} && s.running == map[]
  }

  /** From any state at all, whatever is tracked, queued, running or applied, one periodic scan followed by
      a drain leaves every Local load balancer service last updated for its current version, with the
      decision of the current slices. */
  lemma ScanAndDrainStabilise(start: System, states: seq<System>, steps: seq<Step>, k: string)
    requires IsRun(states, steps) && states[0] == Do(start, Scan) && forall j | 0 <= j < |steps| :: Quiet(steps[j])
    requires Drained(states[|steps|])
    requires k in start.services && Local(start.services[k])
    ensures var end := states[|steps|];
            end.services == start.services && end.slices == start.slices && UpdatedFor(end, k)
  {
    DrainSettles(states, steps, |steps|, k);
  }

  // ---------------------------------------------------------------- what a failing read does

  function OnNode(node: string): EndpointSlice {
    PlainSlice([Endpoint(Some(node), Some(true), None)])
  }

  lemma OnNodeKey(node: string)
    ensures OnNode(node).Key() == Some("ns/svc")
  {
    assert ServiceKey("ns", "svc") == "ns/svc";
  }

  lemma DecisionOfOne(cache: map<string, EndpointSlice>, node: string)
    requires cache == map["a" := OnNode(node)]
    ensures Decide(LocalService(PLAIN_SETTINGS), cache) == Only({node})
  {
    HostsOfOne(OnNode(node).endpoints[0]);
    assert Selected(cache, "ns", "svc") == {"a"};
    assert ReadyNames(cache, {"a"}) == Hosts(cache["a"]);
  }

  lemma Extend(states: seq<System>, steps: seq<Step>, step: Step) returns (states': seq<System>, steps': seq<Step>)
    requires IsRun(states, steps) && Enabled(states[|steps|], step)
    ensures steps' == steps + [step] && IsRun(states', steps')
    ensures states'[0] == states[0] && states'[|steps'|] == Do(states[|steps|], step)
  {
    states', steps' := states + [Do(states[|steps|], step)], steps + [step];
  }

  /** A run at whose end a Local service is tracked. */
  lemma TrackedRun() returns (states: seq<System>, steps: seq<Step>)
    ensures IsRun(states, steps) && states[0] == INIT
    ensures var services := map["ns/svc" := LocalService(PLAIN_SETTINGS)];
            states[|steps|] == INIT.(services := services, seen := services, tracked := {"ns/svc"})
  {
    var svc := LocalService(PLAIN_SETTINGS);
    assert svc.Key() == "ns/svc";
    states, steps := [INIT], [];
    states, steps := Extend(states, steps, SetService(svc));
    assert states[|steps|].serviceEvents == [Add(Object(svc))];
    states, steps := Extend(states, steps, DeliverService);
  }

  /** A run that tracks a Local service, shows it a pod on node m, and syncs it. */
  lemma SyncedRun() returns (states: seq<System>, steps: seq<Step>)
    ensures IsRun(states, steps) && states[0] == INIT
    ensures var svc := LocalService(PLAIN_SETTINGS);
            var services := map["ns/svc" := svc];
            states[|steps|] == System(services, services, [], map["a" := OnNode("m")], [], {"ns/svc"}, {"ns/svc"}, {},
                                      {}, map[], map["ns/svc" := LastSync(svc, [], Only({"m"}))], {"ns/svc"})
  {
    states, steps := TrackedRun();
    OnNodeKey("m");
    states, steps := Extend(states, steps, SetSlice("a", OnNode("m")));
    assert states[|steps|].sliceEvents == [Add(Object(OnNode("m")))];
    states, steps := Extend(states, steps, DeliverSlice);
    DecisionOfOne(states[|steps|].slices, "m");
    states, steps := Extend(states, steps, ControllerStart("ns/svc", []));
    states, steps := Extend(states, steps, Filter("ns/svc"));
    states, steps := Extend(states, steps, Finish("ns/svc", true));
    assert states[|steps|].running == map[];
  }

  /** Without the read assumption agreement is lost for good: the pod moves to node n, the API server
      fails one read, and then every event is delivered, nothing is queued or running, and the load
      balancer is still set up for node m. Only the periodic scan repairs this. */
  lemma FailedReadLosesResync() returns (states: seq<System>, steps: seq<Step>)
    ensures IsRun(states, steps) && states[0] == INIT
    ensures var end := states[|steps|];
            Drained(end) && IsLocal(end, "ns/svc") && "ns/svc" in end.synced && !Agrees(end, "ns/svc")
  {
    states, steps := SyncedRun();
    OnNodeKey("n");
    states, steps := Extend(states, steps, SetSlice("a", OnNode("n")));
    states, steps := Extend(states, steps, DeliverSlice);
    states, steps := Extend(states, steps, Get("ns/svc"));
    assert states[|steps|].dirty == {};
    DecisionOfOne(states[|steps|].slices, "n");
    states, steps := Extend(states, steps, FetchFails("ns/svc"));
    assert states[|steps|].running == map[];
  }
}
