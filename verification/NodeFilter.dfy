/** pkg/provider/nodefilter.go: which nodes a service's load balancer may send traffic to. */
module NodeFilter {
  import opened GoText
  import opened Kubernetes

  /** What the endpoint slices say about a service's nodes. */
  datatype Decision = KeepAll | Only(names: set<string>) {
    predicate Admits(node: Node) {
      KeepAll? || node.name in names
    }

    function Apply(nodes: seq<Node>): seq<Node> {
      Keep(nodes, n => Admits(n))
    }
  }

  /** Filter counts an endpoint unless it is known not ready or known terminating. */
  predicate Counted(e: Endpoint) {
    && e.nodeName.Some?
    && !(e.ready.Some? && !e.ready.value)
    && !(e.terminating.Some? && e.terminating.value)
  }

  function Hosts(slice: EndpointSlice): set<string> {
    set i | 0 <= i < |slice.endpoints| && Counted(slice.endpoints[i]) :: slice.endpoints[i].nodeName.value
  }

  /** The slices the lister's label selector picks for a service. */
  function Selected(cache: map<string, EndpointSlice>, namespace: string, name: string): (ids: set<string>)
    ensures ids <= cache.Keys
  {
    set id | id in cache && cache[id].namespace == namespace && cache[id].ServiceName() == Some(name)
  }

  function Elements(ids: seq<string>): set<string> {
    set id | id in ids
  }

  function ReadyNames(cache: map<string, EndpointSlice>, ids: set<string>): set<string>
    requires ids <= cache.Keys
  {
    set id, n | id in ids && n in Hosts(cache[id]) :: n
  }

  function Decide(svc: Service, cache: map<string, EndpointSlice>): Decision {
    if !svc.localPolicy then KeepAll
    else
      var names := ReadyNames(cache, Selected(cache, svc.namespace, svc.name));
      if names == {} then KeepAll else Only(names)
  }

  lemma {:induction false} KeepEverything(nodes: seq<Node>)
    ensures KeepAll.Apply(nodes) == nodes
  {
    if nodes != [] {
      KeepEverything(nodes[..|nodes| - 1]);
    }
  }

  /** A slice of the service, of its namespace and with its name as the service-name label, has an endpoint on
      the node that is neither known not to be ready nor known to be terminating. */
  predicate HostsEndpoint(cache: map<string, EndpointSlice>, svc: Service, node: string) {
    exists id, i ::
      && id in cache && cache[id].namespace == svc.namespace
      && LABEL_SERVICE_NAME in cache[id].labels && cache[id].labels[LABEL_SERVICE_NAME] == svc.name
      && 0 <= i < |cache[id].endpoints| && cache[id].endpoints[i].nodeName == Some(node)
      && cache[id].endpoints[i].ready != Some(false) && cache[id].endpoints[i].terminating != Some(true)
  }

  lemma HostsExactly(slice: EndpointSlice, node: string)
    ensures node in Hosts(slice) <==>
            exists i :: 0 <= i < |slice.endpoints| && slice.endpoints[i].nodeName == Some(node)
                        && slice.endpoints[i].ready != Some(false) && slice.endpoints[i].terminating != Some(true)
  {
    if i :| 0 <= i < |slice.endpoints| && slice.endpoints[i].nodeName == Some(node)
            && slice.endpoints[i].ready != Some(false) && slice.endpoints[i].terminating != Some(true) {
      assert Counted(slice.endpoints[i]);
    }
  }

  lemma ReadyNamesExactly(cache: map<string, EndpointSlice>, svc: Service, node: string)
    ensures node in ReadyNames(cache, Selected(cache, svc.namespace, svc.name)) <==> HostsEndpoint(cache, svc, node)
  {
    forall id | id in cache
      ensures id in Selected(cache, svc.namespace, svc.name) <==>
              && cache[id].namespace == svc.namespace
              && LABEL_SERVICE_NAME in cache[id].labels && cache[id].labels[LABEL_SERVICE_NAME] == svc.name
    {}
    forall id | id in cache
      ensures node in Hosts(cache[id]) <==>
              exists i :: 0 <= i < |cache[id].endpoints| && cache[id].endpoints[i].nodeName == Some(node)
                          && cache[id].endpoints[i].ready != Some(false)
                          && cache[id].endpoints[i].terminating != Some(true)
    {
      HostsExactly(cache[id], node);
    }
    hide Selected, Hosts;
  }

  /** Which nodes a decision lets through: all of them without Local policy, and all of them too if no node hosts
      an endpoint; otherwise exactly those that do. */
  ghost predicate FilteredFor(cache: map<string, EndpointSlice>, svc: Service, nodes: seq<Node>, filtered: seq<Node>) {
    && (!svc.localPolicy ==> filtered == nodes)
    && ((forall name :: !HostsEndpoint(cache, svc, name)) ==> filtered == nodes)
    && (svc.localPolicy && (exists name :: HostsEndpoint(cache, svc, name)) ==>
          PickedFrom(filtered, nodes, (n: Node) => HostsEndpoint(cache, svc, n.name)))
  }

  /** The decision, in terms of the endpoints. */
  lemma DecisionMeans(cache: map<string, EndpointSlice>, svc: Service, nodes: seq<Node>)
    ensures FilteredFor(cache, svc, nodes, Decide(svc, cache).Apply(nodes))
  {
    hide HostsEndpoint;
    KeepEverything(nodes);
    var names := ReadyNames(cache, Selected(cache, svc.namespace, svc.name));
    forall node
      ensures node in names <==> HostsEndpoint(cache, svc, node)
    {
      ReadyNamesExactly(cache, svc, node);
    }
    if svc.localPolicy && names != {} {
      var name :| name in names;
      assert HostsEndpoint(cache, svc, name);
      KeepPicks(nodes, n => Only(names).Admits(n));
      PickedBySame(Only(names).Apply(nodes), nodes, n => Only(names).Admits(n),
                   (n: Node) => HostsEndpoint(cache, svc, n.name));
    }
  }

  method AddHosts(slice: EndpointSlice, names: set<string>) returns (r: set<string>)
    ensures r == names + Hosts(slice)
  {
    r := names;
    var i := 0;
    while i < |slice.endpoints|
      invariant 0 <= i <= |slice.endpoints|
      invariant r == names + set j | 0 <= j < i && Counted(slice.endpoints[j]) :: slice.endpoints[j].nodeName.value
    {
      var ep := slice.endpoints[i];
      i := i + 1;
      if ep.nodeName.None? {
        continue;
      }
      if ep.ready.Some? && !ep.ready.value {
        continue;
      }
      if ep.terminating.Some? && ep.terminating.value {
        continue;
      }
      r := r + {ep.nodeName.value};
    }
  }

  class NodeFilter {
    /** The informer cache behind the slice lister. */
    var cache: map<string, EndpointSlice>
    /** How often listing has failed. */
    ghost var failures: nat

    method ListSlices(svc: Service) returns (r: Result<seq<string>>)
      modifies this`failures
      ensures failures == old(failures) + if r.Ok? then 0 else 1
      ensures r.Ok? ==> forall id :: id in r.value <==> id in Selected(cache, svc.namespace, svc.name)
    {
      var fails: bool := *;
      if fails {
        failures := failures + 1;
        return Err;
      }
      var ids := Enumerate(Selected(cache, svc.namespace, svc.name));
      return Ok(ids);
    }

    method CollectReady(ids: seq<string>) returns (names: set<string>)
      requires forall id | id in ids :: id in cache
      ensures names == ReadyNames(cache, Elements(ids))
    {
      names := {};
      var i := 0;
      while i < |ids|
        invariant 0 <= i <= |ids|
        invariant names == ReadyNames(cache, Elements(ids[..i]))
      {
        var before := Elements(ids[..i]);
        assert Elements(ids[..i + 1]) == before + {ids[i]};
        names := AddHosts(cache[ids[i]], names);
        assert names == ReadyNames(cache, before + {ids[i]});
        i := i + 1;
      }
      assert ids[..i] == ids;
    }

    /** Filter keeps, in order, the nodes the current slices admit; listing the slices may fail. */
    method Filter(svc: Service, nodes: seq<Node>) returns (r: Result<seq<Node>>)
      modifies this`failures
      ensures failures == old(failures) + if r.Ok? then 0 else 1
      ensures r.Ok? ==> r.value == Decide(svc, cache).Apply(nodes)
      ensures r.Ok? ==> FilteredFor(cache, svc, nodes, r.value)
    {
      KeepEverything(nodes);
      DecisionMeans(cache, svc, nodes);
      hide FilteredFor;
      if !svc.localPolicy {
        return Ok(nodes);
      }
      var slices := ListSlices(svc);
      if slices.Err? {
        return Err;
      }
      assert Elements(slices.value) == Selected(cache, svc.namespace, svc.name);
      if |slices.value| == 0 {
        return Ok(nodes);
      }
      var readyNodes := CollectReady(slices.value);
      if readyNodes == {} {
        return Ok(nodes);
      }
      var decision := Only(readyNodes);
      var filtered: seq<Node> := [];
      var i := 0;
      while i < |nodes|
        invariant 0 <= i <= |nodes|
        invariant filtered == decision.Apply(nodes[..i])
      {
        assert nodes[..i + 1][..i] == nodes[..i];
        if nodes[i].name in readyNodes {
          filtered := filtered + [nodes[i]];
        }
        i := i + 1;
      }
      assert nodes[..i] == nodes;
      return Ok(filtered);
    }
  }
}
