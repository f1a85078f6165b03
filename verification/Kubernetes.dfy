/** The parts of the Kubernetes objects that the controller reads. */
module Kubernetes {
  import opened GoText

  datatype ServicePort = ServicePort(name: string, protocol: string, port: int32, nodePort: int32)

  /** Annotations after the getters of loadbalancer_features.go have parsed them and put in the
      defaults. policy is None when the annotation names no known policy. */
  datatype Settings = Settings(
    idleConnectionTimeout: int,
    maxConnections: int,
    enableProxyProtocol: bool,
    policy: Option<string>,
    healthCheckEnabled: bool,
    healthCheckPath: string,
    healthCheckPort: int,
    healthCheckProtocol: string,
    healthCheckTimeoutSeconds: int,
    healthCheckPeriodSeconds: int,
    healthCheckHealthyThreshold: int,
    healthCheckUnhealthyThreshold: int,
    subnet: string,
    internal: bool,
    securityGroups: Option<string>,
    createSecurityGroup: bool,
    reservedIP: string)

  /** lbName is the name that cloudprovider.DefaultLoadBalancerName gives the service;
      localPolicy says externalTrafficPolicy=Local. */
  datatype Service = Service(
    namespace: string,
    name: string,
    uid: string,
    lbName: string,
    isLoadBalancer: bool,
    localPolicy: bool,
    ports: seq<ServicePort>,
    healthCheckNodePort: int32,
    annotations: map<string, string>,
    settings: Settings)
  {
    function Key(): string {
      ServiceKey(namespace, name)
    }
  }

  datatype Condition = Condition(kind: string, status: string)

  datatype Node = Node(name: string, providerID: string, conditions: seq<Condition>)

  datatype Endpoint = Endpoint(nodeName: Option<string>, ready: Option<bool>, terminating: Option<bool>)

  datatype EndpointSlice = EndpointSlice(
    namespace: string,
    labels: map<string, string>,
    endpoints: seq<Endpoint>)
  {
    /** The service the slice belongs to, by its service-name label. */
    function ServiceName(): Option<string> {
      if LABEL_SERVICE_NAME in labels then Some(labels[LABEL_SERVICE_NAME]) else None
    }

    function Key(): Option<string> {
      if ServiceName().Some? then Some(ServiceKey(namespace, ServiceName().value)) else None
    }
  }

  const LABEL_SERVICE_NAME := "kubernetes.io/service-name"

  /** With slash-free namespaces the printed key determines namespace and name. */
  lemma KeyInjective(ns: string, name: string, ns': string, name': string)
    requires '/' !in ns && '/' !in ns'
    ensures ServiceKey(ns, name) == ServiceKey(ns', name') <==> ns == ns' && name == name'
  {
    var a, b := ServiceKey(ns, name), ServiceKey(ns', name');
    assert a[|ns|] == '/' && b[|ns'|] == '/';
    assert forall i | 0 <= i < |ns| :: a[i] == ns[i] && ns[i] in ns;
    assert forall i | 0 <= i < |ns'| :: b[i] == ns'[i] && ns'[i] in ns';
    if a == b {
      assert |ns| == |ns'|;
      assert a[..|ns|] == ns && b[..|ns'|] == ns';
      assert a[|ns| + 1..] == name && b[|ns'| + 1..] == name';
    }
  }

  /** Some order of the elements of a set, each once. */
  method Enumerate<T(==)>(elements: set<T>) returns (order: seq<T>)
    ensures forall x :: x in order <==> x in elements
    ensures forall i, j | 0 <= i < j < |order| :: order[i] != order[j]
  {
    order := [];
    var left := elements;
    while left != {}
      invariant left <= elements
      invariant forall x :: x in order <==> x in elements - left
      invariant forall i, j | 0 <= i < j < |order| :: order[i] != order[j]
    {
      var x :| x in left;
      assert x !in order;
      order := order + [x];
      left := left - {x};
    }
  }

  // ---------------------------------------------------------------- ready nodes

  predicate IsNodeReady(node: Node) {
    exists i :: 0 <= i < |node.conditions| && node.conditions[i] == Condition("Ready", "True")
  }

  /** The nodes that pass a test, in order. */
  function Keep(nodes: seq<Node>, test: Node -> bool): (kept: seq<Node>)
    ensures forall n :: n in kept <==> n in nodes && test(n)
  {
    if nodes == [] then []
    else
      assert nodes == nodes[..|nodes| - 1] + [nodes[|nodes| - 1]];
      Keep(nodes[..|nodes| - 1], test) + if test(nodes[|nodes| - 1]) then [nodes[|nodes| - 1]] else []
  }

  lemma {:induction false} KeepPicks(nodes: seq<Node>, test: Node -> bool)
    ensures PickedFrom(Keep(nodes, test), nodes, test)
  {
    hide PickedFrom;
    if nodes == [] {
      PickedNothing(test);
    } else {
      var init, last := nodes[..|nodes| - 1], nodes[|nodes| - 1];
      KeepPicks(init, test);
      PickedOn(Keep(init, test), init, test, last);
      assert nodes == init + [last];
    }
  }

  method NodeReadiness(node: Node) returns (ready: bool)
    ensures ready <==> IsNodeReady(node)
  {
    var i := 0;
    while i < |node.conditions|
      invariant 0 <= i <= |node.conditions|
      invariant forall j | 0 <= j < i :: node.conditions[j] != Condition("Ready", "True")
    {
      if node.conditions[i].kind == "Ready" && node.conditions[i].status == "True" {
        return true;
      }
      i := i + 1;
    }
    return false;
  }

  /** The nodes with a condition that says they are ready, in order. */
  ghost predicate ReadyAmong(nodes: seq<Node>, ready: seq<Node>) {
    PickedFrom(ready, nodes, (n: Node) => Condition("Ready", "True") in n.conditions)
  }

  lemma KeptAreReady(nodes: seq<Node>)
    ensures ReadyAmong(nodes, Keep(nodes, IsNodeReady))
  {
    hide PickedFrom, Keep;
    KeepPicks(nodes, IsNodeReady);
    PickedBySame(Keep(nodes, IsNodeReady), nodes, IsNodeReady, (n: Node) => Condition("Ready", "True") in n.conditions);
  }

  method FilterReadyNodes(nodes: seq<Node>) returns (readyNodes: seq<Node>)
    ensures readyNodes == Keep(nodes, IsNodeReady) && ReadyAmong(nodes, readyNodes)
  {
    KeptAreReady(nodes);
    hide ReadyAmong;
    readyNodes := [];
    var i := 0;
    while i < |nodes|
      invariant 0 <= i <= |nodes|
      invariant readyNodes == Keep(nodes[..i], IsNodeReady)
    {
      assert nodes[..i + 1][..i] == nodes[..i];
      var ready := NodeReadiness(nodes[i]);
      if ready {
        readyNodes := readyNodes + [nodes[i]];
      }
      i := i + 1;
    }
    assert nodes[..i] == nodes;
  }
}
