/** pkg/provider/endpointslices.go: the informer event handlers, the set of services with
    externalTrafficPolicy=Local, and the test for changed node assignments. */
module Watcher {
  import opened GoText
  import opened Kubernetes
  import opened NodeFilter

  // ---------------------------------------------------------------- change detection

  /** The watcher counts an endpoint only when Ready is present and true; it never looks at Terminating. */
  predicate Watched(e: Endpoint) {
    e.nodeName.Some? && e.ready.Some? && e.ready.value
  }

  function WatchedHosts(slice: EndpointSlice): set<string> {
    set i | 0 <= i < |slice.endpoints| && Watched(slice.endpoints[i]) :: slice.endpoints[i].nodeName.value
  }

  method AddWatchedHosts(slice: EndpointSlice) returns (nodes: set<string>)
    ensures nodes == WatchedHosts(slice)
  {
    nodes := {};
    var i := 0;
    while i < |slice.endpoints|
      invariant 0 <= i <= |slice.endpoints|
      invariant nodes == set j | 0 <= j < i && Watched(slice.endpoints[j]) :: slice.endpoints[j].nodeName.value
    {
      var ep := slice.endpoints[i];
      if ep.nodeName.Some? && ep.ready.Some? && ep.ready.value {
        nodes := nodes + {ep.nodeName.value};
      }
      i := i + 1;
    }
  }

  /** The slice has an endpoint on the node that says it is ready. */
  predicate ReadyOn(slice: EndpointSlice, node: string) {
    exists i :: 0 <= i < |slice.endpoints|
                && slice.endpoints[i].nodeName == Some(node) && slice.endpoints[i].ready == Some(true)
  }

  ghost predicate AssignmentChanged(oldSlice: EndpointSlice, newSlice: EndpointSlice) {
    exists node :: ReadyOn(oldSlice, node) != ReadyOn(newSlice, node)
  }

  lemma WatchedHostsExactly(slice: EndpointSlice, node: string)
    ensures node in WatchedHosts(slice) <==> ReadyOn(slice, node)
  {
    if i :| 0 <= i < |slice.endpoints|
            && slice.endpoints[i].nodeName == Some(node) && slice.endpoints[i].ready == Some(true) {
      assert Watched(slice.endpoints[i]);
    }
  }

  lemma ChangedExactly(oldSlice: EndpointSlice, newSlice: EndpointSlice)
    ensures WatchedHosts(oldSlice) != WatchedHosts(newSlice) <==> AssignmentChanged(oldSlice, newSlice)
  {
    hide WatchedHosts, ReadyOn;
    forall node
      ensures node in WatchedHosts(oldSlice) <==> ReadyOn(oldSlice, node)
      ensures node in WatchedHosts(newSlice) <==> ReadyOn(newSlice, node)
    {
      WatchedHostsExactly(oldSlice, node);
      WatchedHostsExactly(newSlice, node);
    }
    assert WatchedHosts(oldSlice) != WatchedHosts(newSlice) ==>
             exists node :: (node in WatchedHosts(oldSlice)) != (node in WatchedHosts(newSlice));
  }

  lemma {:induction false} SubsetOfSameSize<T>(a: set<T>, b: set<T>)
    requires |a| == |b| && a <= b
    ensures a == b
  {
    if a != {} {
      var x :| x in a;
      SubsetOfSameSize(a - {x}, b - {x});
    }
  }

  /** Comparing sizes and then one inclusion decides equality of the watched node sets. */
  method HasNodeAssignmentChanged(oldSlice: EndpointSlice, newSlice: EndpointSlice) returns (changed: bool)
    ensures changed <==> WatchedHosts(oldSlice) != WatchedHosts(newSlice)
    ensures changed <==> AssignmentChanged(oldSlice, newSlice)
  {
    ChangedExactly(oldSlice, newSlice);
    var oldNodes := AddWatchedHosts(oldSlice);
    var newNodes := AddWatchedHosts(newSlice);
    if |oldNodes| != |newNodes| {
      return true;
    }
    var left := oldNodes;
    while left != {}
      invariant left <= oldNodes
      invariant oldNodes - left <= newNodes
    {
      var nodeName :| nodeName in left;
      if nodeName !in newNodes {
        return true;
      }
      left := left - {nodeName};
    }
    SubsetOfSameSize(oldNodes, newNodes);
    return false;
  }

  /** The endpoint conditions under which watcher and filter read an endpoint alike. */
  predicate Clear(e: Endpoint) {
    var terminating := e.terminating.Some? && e.terminating.value;
    e.nodeName.Some? ==> if e.ready.Some? then !(e.ready.value && terminating) else terminating
  }

  predicate ClearSlice(slice: EndpointSlice) {
    forall i | 0 <= i < |slice.endpoints| :: Clear(slice.endpoints[i])
  }

  lemma ClearReadsAlike(e: Endpoint)
    ensures Clear(e) <==> (Watched(e) <==> Counted(e))
  {}

  lemma ClearSliceHosts(slice: EndpointSlice)
    requires ClearSlice(slice)
    ensures WatchedHosts(slice) == Hosts(slice)
  {
    forall i | 0 <= i < |slice.endpoints|
      ensures Watched(slice.endpoints[i]) <==> Counted(slice.endpoints[i])
    {
      ClearReadsAlike(slice.endpoints[i]);
    }
  }

  predicate SameOwner(a: EndpointSlice, b: EndpointSlice) {
    a.namespace == b.namespace && a.ServiceName() == b.ServiceName()
  }

  /** A slice update that keeps owner and counted hosts leaves every service's decision alone. */
  lemma SameHostsSameDecision(svc: Service, cache: map<string, EndpointSlice>, id: string, slice: EndpointSlice)
    requires id in cache && SameOwner(cache[id], slice) && Hosts(cache[id]) == Hosts(slice)
    ensures Decide(svc, cache[id := slice]) == Decide(svc, cache)
  {
    var cache' := cache[id := slice];
    var ids := Selected(cache, svc.namespace, svc.name);
    assert Selected(cache', svc.namespace, svc.name) == ids;
    assert forall i | i in ids :: Hosts(cache'[i]) == Hosts(cache[i]);
    assert ReadyNames(cache', ids) == ReadyNames(cache, ids);
  }

  /** Change detection refines the filter: an update it stays silent on gives the same nodes,
      for every node list and whatever the other slices are. */
  lemma ChangeDetectionRefinesFilter(svc: Service, cache: map<string, EndpointSlice>, id: string,
                                     slice: EndpointSlice, nodes: seq<Node>)
    requires id in cache && SameOwner(cache[id], slice)
    requires ClearSlice(cache[id]) && ClearSlice(slice)
    requires WatchedHosts(cache[id]) == WatchedHosts(slice)
    ensures Decide(svc, cache[id := slice]).Apply(nodes) == Decide(svc, cache).Apply(nodes)
  {
    ClearSliceHosts(cache[id]);
    ClearSliceHosts(slice);
    SameHostsSameDecision(svc, cache, id, slice);
  }

  /** Endpoint i of a slice of clear endpoints is replaced by e, the watcher stays silent, and yet
      the filtered node list changes. */
  ghost predicate Missed(e: Endpoint, svc: Service, cache: map<string, EndpointSlice>, id: string, i: nat,
                         nodes: seq<Node>) {
    && id in cache && i < |cache[id].endpoints| && ClearSlice(cache[id])
    && var slice := WithEndpoint(cache[id], i, e);
       WatchedHosts(slice) == WatchedHosts(cache[id])
       && Decide(svc, cache[id := slice]).Apply(nodes) != Decide(svc, cache).Apply(nodes)
  }

  ghost predicate NeverMissed(e: Endpoint) {
    forall svc, cache, id, i, nodes :: !Missed(e, svc, cache, id, i, nodes)
  }

  function WithEndpoint(slice: EndpointSlice, i: nat, e: Endpoint): EndpointSlice
    requires i < |slice.endpoints|
  {
    slice.(endpoints := slice.endpoints[i := e])
  }

  function PlainSlice(endpoints: seq<Endpoint>): EndpointSlice {
    EndpointSlice("ns", map[LABEL_SERVICE_NAME := "svc"], endpoints)
  }

  function LocalService(settings: Settings): Service {
    Service("ns", "svc", "uid", "lb", true, true, [], 0, map[], settings)
  }

  const PLAIN_SETTINGS := Settings(6000, 10000, false, Some("ROUND_ROBIN"), false, "/healthz", -1, "http",
                                   5, 10, 2, 3, "", false, None, false, "")

  /** An endpoint the two readings disagree on can replace a clear one unnoticed while the node it
      names enters or leaves the filtered list. */
  lemma UnclearIsMissed(e: Endpoint) returns (svc: Service, cache: map<string, EndpointSlice>, nodes: seq<Node>)
    requires !Clear(e)
    ensures Missed(e, svc, cache, "a", 0, nodes)
  {
    var n := e.nodeName.value;
    var m := n + "x";
    svc := LocalService(PLAIN_SETTINGS);
    // Ready and terminating replaces plain ready; an absent Ready replaces plain not ready.
    var d := Endpoint(Some(n), Some(e.ready.Some?), None);
    cache := map["a" := PlainSlice([d]), "b" := PlainSlice([Endpoint(Some(m), Some(true), None)])];
    nodes := [Node(n, "", [])];
    var cache' := cache["a" := WithEndpoint(cache["a"], 0, e)];
    assert WatchedHosts(cache["a"]) == (if e.ready.Some? then {n} else {}) == WatchedHosts(cache'["a"]) by {
      assert cache["a"].endpoints[0] == d && cache'["a"].endpoints[0] == e;
    }
    HostsOfOne(d);
    HostsOfOne(e);
    HostsOfOne(Endpoint(Some(m), Some(true), None));
    assert WithEndpoint(cache["a"], 0, e) == PlainSlice([e]);
    DecisionOfTwo(svc, cache, d, Endpoint(Some(m), Some(true), None));
    DecisionOfTwo(svc, cache', e, Endpoint(Some(m), Some(true), None));
    assert nodes[0] in Decide(svc, cache).Apply(nodes) <==> Counted(d);
    assert nodes[0] in Decide(svc, cache').Apply(nodes) <==> Counted(e);
  }

  lemma HostsOfOne(e: Endpoint)
    ensures Hosts(PlainSlice([e])) == if Counted(e) then {e.nodeName.value} else {}
  {
    var s := PlainSlice([e]);
    assert s.endpoints[0] == e;
  }

  lemma DecisionOfTwo(svc: Service, cache: map<string, EndpointSlice>, e: Endpoint, f: Endpoint)
    requires svc == LocalService(PLAIN_SETTINGS) && cache == map["a" := PlainSlice([e]), "b" := PlainSlice([f])]
    requires Counted(f)
    ensures Decide(svc, cache) == Only(if Counted(e) then {e.nodeName.value, f.nodeName.value} else {f.nodeName.value})
  {
    HostsOfOne(e);
    HostsOfOne(f);
    assert Selected(cache, svc.namespace, svc.name) == {"a", "b"};
    assert ReadyNames(cache, {"a", "b"}) == Hosts(cache["a"]) + Hosts(cache["b"]);
  }

  /** The watcher never misses an endpoint exactly when the endpoint's conditions are clear. */
  lemma NeverMissedExactly(e: Endpoint)
    ensures NeverMissed(e) <==> Clear(e)
  {
    if Clear(e) {
      forall svc: Service, cache: map<string, EndpointSlice>, id: string, i: nat, nodes: seq<Node>
        ensures !Missed(e, svc, cache, id, i, nodes)
      {
        if id in cache && i < |cache[id].endpoints| && ClearSlice(cache[id]) {
          var slice := WithEndpoint(cache[id], i, e);
          if WatchedHosts(slice) == WatchedHosts(cache[id]) {
            ChangeDetectionRefinesFilter(svc, cache, id, slice, nodes);
          }
        }
      }
    } else {
      var svc, cache, nodes := UnclearIsMissed(e);
    }
  }

  // ---------------------------------------------------------------- events

  /** What an informer hands to a handler: an object, or a tombstone for one whose delete it missed. */
  datatype Object<T> = Object(value: T) | Tombstone(key: string)

  datatype Event<T> = Add(obj: Object<T>) | Update(before: Object<T>, after: Object<T>) | Delete(obj: Object<T>)

  function OptionSet<T>(o: Option<T>): set<T> {
    if o.Some? then {o.value} else {}
  }

  /** The slice's namespace and service-name label, printed, are the key. */
  predicate IsFor(slice: EndpointSlice, key: string) {
    LABEL_SERVICE_NAME in slice.labels && key == slice.namespace + "/" + slice.labels[LABEL_SERVICE_NAME]
  }

  /** The service keys a slice event asks to resync. */
  function SliceTriggers(e: Event<EndpointSlice>): set<string> {
    match e
    case Add(Object(s)) => OptionSet(s.Key())
    case Delete(Object(s)) => OptionSet(s.Key())
    case Update(Object(s), Object(t)) => if WatchedHosts(s) != WatchedHosts(t) then OptionSet(t.Key()) else {}
    case _ => {}
  }

  /** The service keys a service event asks to resync: those whose policy crosses into or out of Local. */
  function ServiceTriggers(e: Event<Service>): set<string> {
    match e
    case Update(Object(s), Object(t)) => if s.localPolicy != t.localPolicy then {t.Key()} else {}
    case _ => {}
  }

  /** The tracked set after a service event. */
  function TrackedAfter(tracked: set<string>, e: Event<Service>): set<string> {
    match e
    case Add(Object(s)) => if s.localPolicy then tracked + {s.Key()} else tracked
    case Update(Object(s), Object(t)) =>
      if !s.localPolicy && t.localPolicy then tracked + {t.Key()}
      else if s.localPolicy && !t.localPolicy then tracked - {t.Key()}
      else tracked
    case Delete(Object(s)) => tracked - {s.Key()}
    case _ => tracked
  }

  // ---------------------------------------------------------------- the resync queue

  /** The contract of client-go's rate-limited work queue, as far as the controller uses it. */
  class WorkQueue {
    /** Keys that need processing. */
    var dirty: set<string>
    /** Keys handed out by Get and not yet Done. */
    var processing: set<string>
    /** Keys waiting out their back-off. */
    var delayed: set<string>

    constructor ()
      ensures dirty == processing == delayed == {}
    {
      dirty, processing, delayed := {}, {}, {};
    }

    /** Keys that Get may hand out. */
    function Ready(): set<string>
      reads this
    {
      dirty - processing
    }

    method Add(key: string)
      modifies this`dirty
      ensures dirty == old(dirty) + {key}
    {
      dirty := dirty + {key};
    }

    method Get() returns (key: Option<string>)
      modifies this`dirty, this`processing
      ensures key.None? ==> Ready() == {} && unchanged(this)
      ensures key.Some? ==> key.value in old(Ready())
      ensures key.Some? ==> dirty == old(dirty) - {key.value} && processing == old(processing) + {key.value}
    {
      if Ready() == {} {
        return None;
      }
      var k :| k in Ready();
      dirty, processing := dirty - {k}, processing + {k};
      return Some(k);
    }

    method Done(key: string)
      modifies this`processing
      ensures processing == old(processing) - {key}
    {
      processing := processing - {key};
    }

    method AddRateLimited(key: string)
      modifies this`delayed
      ensures delayed == old(delayed) + {key}
    {
      delayed := delayed + {key};
    }
  }

  // ---------------------------------------------------------------- the handlers

  class EndpointSliceWatcher {
    var localTrafficServices: set<string>
    /** The resync callback adds to this queue. */
    const queue: WorkQueue

    constructor (queue: WorkQueue)
      ensures this.queue == queue && localTrafficServices == {}
    {
      this.queue := queue;
      localTrafficServices := {};
    }

    method OnEndpointSliceChange(key: Option<string>)
      modifies queue`dirty
      ensures queue.dirty == old(queue.dirty) + OptionSet(key) * localTrafficServices
    {
      if key.Some? && key.value in localTrafficServices {
        queue.Add(key.value);
      }
    }

    method HandleEndpointSliceAdd(obj: Object<EndpointSlice>)
      modifies queue`dirty
      ensures queue.dirty == old(queue.dirty) + SliceTriggers(Add(obj)) * localTrafficServices
      ensures forall key :: key in queue.dirty <==>
                key in old(queue.dirty) || (obj.Object? && IsFor(obj.value, key) && key in localTrafficServices)
    {
      if obj.Object? {
        OnEndpointSliceChange(obj.value.Key());
      }
    }

    method HandleEndpointSliceUpdate(oldObj: Object<EndpointSlice>, newObj: Object<EndpointSlice>)
      modifies queue`dirty
      ensures queue.dirty == old(queue.dirty) + SliceTriggers(Update(oldObj, newObj)) * localTrafficServices
      ensures forall key :: key in queue.dirty <==>
                || key in old(queue.dirty)
                || (oldObj.Object? && newObj.Object? && IsFor(newObj.value, key) && key in localTrafficServices
                    && AssignmentChanged(oldObj.value, newObj.value))
    {
      hide AssignmentChanged;
      if !oldObj.Object? || !newObj.Object? {
        return;
      }
      var serviceKey := newObj.value.Key();
      if serviceKey.None? || serviceKey.value !in localTrafficServices {
        return;
      }
      var changed := HasNodeAssignmentChanged(oldObj.value, newObj.value);
      if changed {
        queue.Add(serviceKey.value);
      }
    }

    method HandleEndpointSliceDelete(obj: Object<EndpointSlice>)
      modifies queue`dirty
      ensures queue.dirty == old(queue.dirty) + SliceTriggers(Delete(obj)) * localTrafficServices
      ensures forall key :: key in queue.dirty <==>
                key in old(queue.dirty) || (obj.Object? && IsFor(obj.value, key) && key in localTrafficServices)
    {
      if obj.Object? {
        OnEndpointSliceChange(obj.value.Key());
      }
    }

    method HandleServiceAdd(obj: Object<Service>)
      modifies this
      ensures localTrafficServices == TrackedAfter(old(localTrafficServices), Add(obj))
      ensures forall key :: key in localTrafficServices <==>
                key in old(localTrafficServices) || (obj.Object? && obj.value.localPolicy && key == obj.value.Key())
    {
      if obj.Object? && obj.value.localPolicy {
        localTrafficServices := localTrafficServices + {obj.value.Key()};
      }
    }

    method HandleServiceUpdate(oldObj: Object<Service>, newObj: Object<Service>)
      modifies this, queue`dirty
      ensures localTrafficServices == TrackedAfter(old(localTrafficServices), Update(oldObj, newObj))
      ensures queue.dirty == old(queue.dirty) + ServiceTriggers(Update(oldObj, newObj))
      ensures oldObj.Object? && newObj.Object? && oldObj.value.localPolicy != newObj.value.localPolicy ==>
                && queue.dirty == old(queue.dirty) + {newObj.value.Key()}
                && localTrafficServices
                   == if newObj.value.localPolicy then old(localTrafficServices) + {newObj.value.Key()}
                      else old(localTrafficServices) - {newObj.value.Key()}
      ensures !(oldObj.Object? && newObj.Object? && oldObj.value.localPolicy != newObj.value.localPolicy) ==>
                queue.dirty == old(queue.dirty) && localTrafficServices == old(localTrafficServices)
    {
      if !oldObj.Object? || !newObj.Object? {
        return;
      }
      var serviceKey := newObj.value.Key();
      if !oldObj.value.localPolicy && newObj.value.localPolicy {
        localTrafficServices := localTrafficServices + {serviceKey};
        queue.Add(serviceKey);
      }
      if oldObj.value.localPolicy && !newObj.value.localPolicy {
        localTrafficServices := localTrafficServices - {serviceKey};
        queue.Add(serviceKey);
      }
    }

    method HandleServiceDelete(obj: Object<Service>)
      modifies this
      ensures localTrafficServices == TrackedAfter(old(localTrafficServices), Delete(obj))
      ensures forall key :: key in localTrafficServices <==>
                key in old(localTrafficServices) && !(obj.Object? && key == obj.value.Key())
    {
      if obj.Object? {
        localTrafficServices := localTrafficServices - {obj.value.Key()};
      }
    }
  }
}
