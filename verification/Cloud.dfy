/** The cloud behind the IaaS client: its objects, the calls that change them, and a client whose
    every call may fail, with the change lost or made. */
module Cloud {
  import opened GoText
  import opened Kubernetes

  type Labels = map<string, string>

  datatype LoadBalancer = LoadBalancer(
    vpc: string, name: string, description: string, labels: Labels, annotations: Labels,
    subnet: string, internal: bool, securityGroups: seq<string>, reservedIP: string)

  datatype ListenerSpec = ListenerSpec(
    name: string, description: string, labels: Labels, annotations: Labels, port: int, protocol: string,
    allowedSources: seq<string>, connectionIdleTimeout: int, maxConnections: int)

  /** A listener of load balancer lb that forwards to target group target. */
  datatype Listener = Listener(lb: string, spec: ListenerSpec, target: string)

  datatype HealthCheck = HealthCheck(
    port: int, protocol: string, path: string, timeoutSeconds: int, periodSeconds: int,
    healthyThreshold: int, unhealthyThreshold: int)

  datatype GroupSpec = GroupSpec(
    name: string, description: string, protocol: string, targetPort: int, labels: Labels, annotations: Labels,
    healthCheck: Option<HealthCheck>, enableProxyProtocol: bool, policy: string)
  {
    /** Target groups are told apart by protocol and port. */
    function Key(): (string, int) {
      (protocol, targetPort)
    }
  }

  datatype Group = Group(vpc: string, spec: GroupSpec, attached: seq<string>)

  datatype Rule = Rule(
    name: string, ipv6: bool, protocol: string, priority: int, remote: string, portMin: int, portMax: int)

  datatype SecurityGroup = SecurityGroup(
    vpc: string, name: string, description: string, labels: Labels, annotations: Labels,
    allowSameGroup: bool, ingress: seq<Rule>, egress: seq<Rule>)

  /** Everything the cloud holds, by identity. */
  datatype State = State(
    lbs: map<string, LoadBalancer>,
    listeners: map<string, Listener>,
    groups: map<string, Group>,
    sgs: map<string, SecurityGroup>)

  /** A change to the cloud. Attachments are set as a whole; deleting a load balancer takes its listeners along. */
  datatype Call =
    | CreateGroup(id: string, group: Group)
    | UpdateGroup(id: string, groupSpec: GroupSpec)
    | SetAttachments(id: string, servers: seq<string>)
    | DeleteGroup(id: string)
    | CreateListener(id: string, listener: Listener)
    | UpdateListener(id: string, listenerSpec: ListenerSpec, target: string)
    | DeleteListener(id: string)
    | CreateLb(id: string, lb: LoadBalancer)
    | UpdateLb(id: string, lb: LoadBalancer)
    | DeleteLb(id: string)
    | CreateSg(id: string, sg: SecurityGroup)
    | UpdateSg(id: string, sg: SecurityGroup)
    | DeleteSg(id: string)

  predicate IsCreate(c: Call) {
    c.CreateGroup? || c.CreateListener? || c.CreateLb? || c.CreateSg?
  }

  predicate IsDelete(c: Call) {
    c.DeleteGroup? || c.DeleteListener? || c.DeleteLb? || c.DeleteSg?
  }

  /** A call that names no existing object changes nothing. */
  function Apply(s: State, c: Call): State {
    match c
    case CreateGroup(id, group) => s.(groups := s.groups[id := group])
    case UpdateGroup(id, spec) =>
      if id in s.groups then s.(groups := s.groups[id := s.groups[id].(spec := spec)]) else s
    case SetAttachments(id, servers) =>
      if id in s.groups then s.(groups := s.groups[id := s.groups[id].(attached := servers)]) else s
    case DeleteGroup(id) => s.(groups := s.groups - {id})
    case CreateListener(id, listener) => s.(listeners := s.listeners[id := listener])
    case UpdateListener(id, spec, target) =>
      if id in s.listeners
      then s.(listeners := s.listeners[id := s.listeners[id].(spec := spec, target := target)])
      else s
    case DeleteListener(id) => s.(listeners := s.listeners - {id})
    case CreateLb(id, lb) => s.(lbs := s.lbs[id := lb])
    case UpdateLb(id, lb) => if id in s.lbs then s.(lbs := s.lbs[id := lb]) else s
    case DeleteLb(id) =>
      s.(lbs := s.lbs - {id},
         listeners := map l | l in s.listeners && s.listeners[l].lb != id :: s.listeners[l])
    case CreateSg(id, sg) => s.(sgs := s.sgs[id := sg])
    case UpdateSg(id, sg) => if id in s.sgs then s.(sgs := s.sgs[id := sg]) else s
    case DeleteSg(id) => s.(sgs := s.sgs - {id})
  }

  function ApplyAll(s: State, calls: seq<Call>): State {
    if calls == [] then s else Apply(ApplyAll(s, calls[..|calls| - 1]), calls[|calls| - 1])
  }

  // ---------------------------------------------------------------- labels and filters

  /** matchLabels: a label the object does not have reads as the empty string. */
  predicate Matches(expected: Labels, actual: Labels) {
    forall k | k in expected :: (if k in actual then actual[k] else "") == expected[k]
  }

  /** The API's label filter: the object has every one of the labels. */
  predicate Carries(expected: Labels, actual: Labels) {
    forall k | k in expected :: k in actual && actual[k] == expected[k]
  }

  method MatchLabels(expectedLabels: Labels, actualLabels: Labels) returns (r: bool)
    ensures r <==> Matches(expectedLabels, actualLabels)
  {
    var left := expectedLabels.Keys;
    while left != {}
      invariant left <= expectedLabels.Keys
      invariant forall k | k in expectedLabels && k !in left ::
                  (if k in actualLabels then actualLabels[k] else "") == expectedLabels[k]
    {
      var k :| k in left;
      if (if k in actualLabels then actualLabels[k] else "") != expectedLabels[k] {
        return false;
      }
      left := left - {k};
    }
    return true;
  }

  // ---------------------------------------------------------------- the client

  /** What the call did: it was made (and logged), or it failed and changed nothing. A failed call may
      have been made all the same, with only its answer lost. */
  predicate Issued(s: State, log: seq<Call>, c: Call, ok: bool, s': State, log': seq<Call>) {
    || (s' == Apply(s, c) && log' == log + [c])
    || (!ok && s' == s && log' == log)
  }

  /** An identity as listings and answers carry it. */
  datatype Item<T> = Item(identity: string, value: T)

  datatype Subnet = Subnet(identity: string, slug: string)

  ghost predicate Lists<T>(items: seq<Item<T>>, all: map<string, T>, ids: set<string>)
    requires ids <= all.Keys
  {
    && (forall i | 0 <= i < |items| :: items[i].identity in ids && items[i].value == all[items[i].identity])
    && (forall id | id in ids :: exists i :: 0 <= i < |items| && items[i].identity == id)
    && (forall i, j | 0 <= i < j < |items| :: items[i].identity != items[j].identity)
  }

  function GroupIds(s: State, vpc: Option<string>, labels: Labels): (ids: set<string>)
    ensures ids <= s.groups.Keys
  {
    set id | id in s.groups && (vpc.None? || s.groups[id].vpc == vpc.value) && Carries(labels, s.groups[id].spec.labels)
  }

  function ListenerIds(s: State, lb: string): (ids: set<string>)
    ensures ids <= s.listeners.Keys
  {
    set id | id in s.listeners && s.listeners[id].lb == lb
  }

  function LbIds(s: State, vpc: string): (ids: set<string>)
    ensures ids <= s.lbs.Keys
  {
    set id | id in s.lbs && s.lbs[id].vpc == vpc
  }

  function SgIds(s: State, vpc: string, labels: Option<Labels>): (ids: set<string>)
    ensures ids <= s.sgs.Keys
  {
    set id | id in s.sgs && s.sgs[id].vpc == vpc && (labels.None? || Carries(labels.value, s.sgs[id].labels))
  }

  /** The listeners that forward to a group, as the group's listing shows them. */
  function ListenersOf(s: State, group: string): set<string> {
    set l | l in s.listeners && s.listeners[l].target == group
  }

  /** A group as its listing shows it, with the listeners that use it. */
  datatype ListedGroup = ListedGroup(group: Group, listeners: set<string>)

  function ListedGroups(s: State): (m: map<string, ListedGroup>)
    ensures m.Keys == s.groups.Keys
  {
    map id | id in s.groups :: ListedGroup(s.groups[id], ListenersOf(s, id))
  }

  lemma {:induction false} LongerThanAll(used: set<string>) returns (n: nat)
    ensures forall x | x in used :: |x| <= n
  {
    if used == {} {
      n := 0;
    } else {
      var x :| x in used;
      var m := LongerThanAll(used - {x});
      n := if |x| > m then |x| else m;
    }
  }

  lemma FreshIdentityExists(used: set<string>)
    ensures exists id :: id != "" && id !in used
  {
    var n := LongerThanAll(used);
    var id := seq(n + 1, _ => 'x');
    assert id != "" && id !in used;
  }

  class Cloud {
    var now: State
    /** The calls made so far, in order. */
    ghost var log: seq<Call>
    /** How many calls have failed so far, and how often waiting for the cloud took too long. */
    ghost var failures: nat
    /** The load balancer whose status was read last, and whether it was ready. */
    ghost var lastStatus: Option<(string, bool)>
    /** The subnets of the VPC. */
    const subnets: seq<Subnet>

    constructor (now: State, subnets: seq<Subnet>)
      ensures this.now == now && this.subnets == subnets && log == [] && failures == 0 && lastStatus == None
    {
      this.now, this.subnets, log, failures, lastStatus := now, subnets, [], 0, None;
    }

    /** Makes the call or fails; every changing method of the client goes through here. */
    method Send(c: Call) returns (ok: bool)
      modifies this
      ensures Issued(old(now), old(log), c, ok, now, log)
      ensures failures == old(failures) + if ok then 0 else 1
    {
      var made: bool := *;
      var answered: bool := *;
      if made {
        now := Apply(now, c);
        log := log + [c];
      }
      ok := made && answered;
      failures := failures + if ok then 0 else 1;
    }

    method NewIdentity(used: set<string>) returns (id: string)
      ensures id != "" && id !in used
    {
      FreshIdentityExists(used);
      id :| id != "" && id !in used;
    }

    /** Whether a load balancer's answer shows it ready, with an external address. */
    method ShowsReady(lb: string) returns (ready: bool)
      modifies this`lastStatus
      ensures lastStatus == Some((lb, ready))
    {
      ready := *;
      lastStatus := Some((lb, ready));
    }

    /** The time for waiting is up. */
    method TimeUp()
      modifies this`failures
      ensures failures == old(failures) + 1
    {
      failures := failures + 1;
    }

    method ListItems<T>(all: map<string, T>, ids: set<string>) returns (r: Result<seq<Item<T>>>)
      requires ids <= all.Keys
      modifies this`failures
      ensures failures == old(failures) + if r.Ok? then 0 else 1
      ensures r.Ok? ==> Lists(r.value, all, ids)
    {
      var fails: bool := *;
      if fails {
        failures := failures + 1;
        return Err;
      }
      var order := Enumerate(ids);
      var items: seq<Item<T>> := [];
      var i := 0;
      while i < |order|
        invariant 0 <= i == |items| <= |order|
        invariant forall j | 0 <= j < i :: items[j] == Item(order[j], all[order[j]])
      {
        items := items + [Item(order[i], all[order[i]])];
        i := i + 1;
      }
      forall id | id in ids
        ensures exists j :: 0 <= j < |items| && items[j].identity == id
      {
        assert id in order;
        var j :| 0 <= j < |order| && order[j] == id;
        assert items[j].identity == id;
      }
      return Ok(items);
    }

    method GetVpcSubnets() returns (r: Result<seq<Subnet>>)
      modifies this`failures
      ensures failures == old(failures) + if r.Ok? then 0 else 1
      ensures r.Ok? ==> r.value == subnets
    {
      var fails: bool := *;
      failures := failures + if fails then 1 else 0;
      return if fails then Err else Ok(subnets);
    }

    method ListTargetGroups(vpc: Option<string>, labels: Labels) returns (r: Result<seq<Item<ListedGroup>>>)
      modifies this`failures
      ensures failures == old(failures) + if r.Ok? then 0 else 1
      ensures r.Ok? ==> Lists(r.value, ListedGroups(now), GroupIds(now, vpc, labels))
    {
      r := ListItems(ListedGroups(now), GroupIds(now, vpc, labels));
    }

    method ListListeners(lb: string) returns (r: Result<seq<Item<Listener>>>)
      modifies this`failures
      ensures failures == old(failures) + if r.Ok? then 0 else 1
      ensures r.Ok? ==> Lists(r.value, now.listeners, ListenerIds(now, lb))
    {
      r := ListItems(now.listeners, ListenerIds(now, lb));
    }

    method ListLoadbalancers(vpc: string) returns (r: Result<seq<Item<LoadBalancer>>>)
      modifies this`failures
      ensures failures == old(failures) + if r.Ok? then 0 else 1
      ensures r.Ok? ==> Lists(r.value, now.lbs, LbIds(now, vpc))
    {
      r := ListItems(now.lbs, LbIds(now, vpc));
    }

    method ListSecurityGroups(vpc: string, labels: Option<Labels>) returns (r: Result<seq<Item<SecurityGroup>>>)
      modifies this`failures
      ensures failures == old(failures) + if r.Ok? then 0 else 1
      ensures r.Ok? ==> Lists(r.value, now.sgs, SgIds(now, vpc, labels))
    {
      r := ListItems(now.sgs, SgIds(now, vpc, labels));
    }

    /** Creating calls answer with the new identity; a lost answer leaves the object under an identity
        the caller does not learn. */
    method CreateTargetGroup(group: Group) returns (r: Result<string>, ghost id: string)
      modifies this
      ensures failures == old(failures) + if r.Ok? then 0 else 1
      ensures id != "" && id !in old(now).groups && (r.Ok? ==> r.value == id)
      ensures Issued(old(now), old(log), CreateGroup(id, group), r.Ok?, now, log)
    {
      var newId := NewIdentity(now.groups.Keys);
      var ok := Send(CreateGroup(newId, group));
      return if ok then Ok(newId) else Err, newId;
    }

    method CreateListener(listener: Listener) returns (r: Result<string>, ghost id: string)
      modifies this
      ensures failures == old(failures) + if r.Ok? then 0 else 1
      ensures id != "" && id !in old(now).listeners && (r.Ok? ==> r.value == id)
      ensures Issued(old(now), old(log), Call.CreateListener(id, listener), r.Ok?, now, log)
    {
      var newId := NewIdentity(now.listeners.Keys);
      var ok := Send(Call.CreateListener(newId, listener));
      return if ok then Ok(newId) else Err, newId;
    }

    method CreateLoadbalancer(lb: LoadBalancer) returns (r: Result<string>, ghost id: string)
      modifies this
      ensures failures == old(failures) + if r.Ok? then 0 else 1
      ensures id != "" && id !in old(now).lbs && (r.Ok? ==> r.value == id)
      ensures Issued(old(now), old(log), CreateLb(id, lb), r.Ok?, now, log)
    {
      var newId := NewIdentity(now.lbs.Keys);
      var ok := Send(CreateLb(newId, lb));
      return if ok then Ok(newId) else Err, newId;
    }

    method CreateSecurityGroup(sg: SecurityGroup) returns (r: Result<string>, ghost id: string)
      modifies this
      ensures failures == old(failures) + if r.Ok? then 0 else 1
      ensures id != "" && id !in old(now).sgs && (r.Ok? ==> r.value == id)
      ensures Issued(old(now), old(log), CreateSg(id, sg), r.Ok?, now, log)
    {
      var newId := NewIdentity(now.sgs.Keys);
      var ok := Send(CreateSg(newId, sg));
      return if ok then Ok(newId) else Err, newId;
    }
  }
}
