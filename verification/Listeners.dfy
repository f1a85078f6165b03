/** pkg/provider/loadbalancer_listeners.go: bringing a load balancer's listeners in line. */
module Listeners {
  import opened GoText
  import opened Kubernetes
  import opened Cloud
  import opened Plan
  import opened Runs
  import opened Metadata
  import opened Desired
  import opened TargetGroups

  // ---------------------------------------------------------------- maps keyed by port

  /** The map a loop over listeners builds; the last of several listeners with one port stays. */
  function PortMap(specs: seq<ListenerSpec>): map<int, ListenerSpec> {
    if specs == [] then map[]
    else
      var last := specs[|specs| - 1];
      PortMap(specs[..|specs| - 1])[last.port := last]
  }

  method IndexByPort(specs: seq<ListenerSpec>) returns (m: map<int, ListenerSpec>)
    ensures m == PortMap(specs)
  {
    m := map[];
    var i := 0;
    while i < |specs|
      invariant 0 <= i <= |specs|
      invariant m == PortMap(specs[..i])
    {
      assert specs[..i + 1][..i] == specs[..i];
      m := m[specs[i].port := specs[i]];
      i := i + 1;
    }
    assert specs[..i] == specs;
  }

  predicate HasPort(specs: seq<ListenerSpec>, port: int) {
    exists i :: 0 <= i < |specs| && specs[i].port == port
  }

  lemma {:induction false} PortMapLookup(specs: seq<ListenerSpec>, port: int)
    ensures port in PortMap(specs) <==> HasPort(specs, port)
    ensures port in PortMap(specs) ==> PortMap(specs)[port] in specs && PortMap(specs)[port].port == port
  {
    if specs != [] {
      var init, last := specs[..|specs| - 1], specs[|specs| - 1];
      assert specs == init + [last];
      PortMapLookup(init, port);
    }
  }

  lemma DesiredListenerPort(cfg: Config, svc: Service, port: ServicePort)
    ensures DesiredListener(cfg, svc, port).port == port.port
            && DesiredListener(cfg, svc, port).protocol == Lower(port.protocol)
  {}

  lemma HasOwnPort(specs: seq<ListenerSpec>, i: nat)
    requires i < |specs|
    ensures HasPort(specs, specs[i].port)
  {}

  /** Among the ports of a service, which differ in number or protocol, the map by port number keeps
      every listener exactly when the numbers alone differ: a TCP and a UDP port of one number lose one. */
  lemma PortMapFaithfulExactly(cfg: Config, svc: Service)
    requires forall i, j | 0 <= i < j < |svc.ports| ::
               (svc.ports[i].port, Lower(svc.ports[i].protocol)) != (svc.ports[j].port, Lower(svc.ports[j].protocol))
    ensures var specs := DesiredListeners(cfg, svc);
            (forall i | 0 <= i < |specs| ::
               specs[i].port in PortMap(specs) && PortMap(specs)[specs[i].port] == specs[i])
            <==> DistinctPorts(svc)
  {
    hide PortMap, DesiredListeners, DesiredListener, HasPort, Lower;
    var specs := DesiredListeners(cfg, svc);
    forall i | 0 <= i < |specs|
      ensures specs[i].port == svc.ports[i].port as int && specs[i].protocol == Lower(svc.ports[i].protocol)
      ensures specs[i].port in PortMap(specs) && PortMap(specs)[specs[i].port] in specs
      ensures PortMap(specs)[specs[i].port].port == specs[i].port
    {
      assert specs[i] == DesiredListener(cfg, svc, svc.ports[i]);
      DesiredListenerPort(cfg, svc, svc.ports[i]);
      HasOwnPort(specs, i);
      PortMapLookup(specs, specs[i].port);
    }
  }

  /** A DNS service with TCP and UDP on port 53: only the UDP listener is left in the map, and in a
      reconcile the TCP listener is turned into it. */
  lemma TcpAndUdpOnOnePort(cfg: Config, svc: Service)
    requires svc.ports == [ServicePort("dns-tcp", "TCP", 53, 30053), ServicePort("dns", "UDP", 53, 30054)]
    ensures !DistinctPorts(svc)
    ensures PortMap(DesiredListeners(cfg, svc)) == map[53 := DesiredListener(cfg, svc, svc.ports[1])]
  {
    hide DesiredListener;
    assert svc.ports[0].port == svc.ports[1].port;
    var specs := DesiredListeners(cfg, svc);
    DesiredListenerPort(cfg, svc, svc.ports[0]);
    DesiredListenerPort(cfg, svc, svc.ports[1]);
    assert specs[..1][..0] == [] && PortMap(specs[..1]) == map[53 := specs[0]];
  }

  // ---------------------------------------------------------------- which group a listener forwards to

  /** The first of the groups whose labels match, or "". */
  function FirstMatch(labels: Labels, tgs: seq<Item<GroupSpec>>): string {
    if tgs == [] then ""
    else if Matches(labels, tgs[0].value.labels) then tgs[0].identity
    else FirstMatch(labels, tgs[1..])
  }

  /** The identity is that of a group with matching labels before which no group's match, or "" if none's do. */
  predicate IsFirstMatch(labels: Labels, tgs: seq<Item<GroupSpec>>, identity: string) {
    || (identity == "" && forall i | 0 <= i < |tgs| :: !Matches(labels, tgs[i].value.labels))
    || exists i :: 0 <= i < |tgs| && tgs[i].identity == identity && Matches(labels, tgs[i].value.labels)
                   && forall j | 0 <= j < i :: !Matches(labels, tgs[j].value.labels)
  }

  lemma {:induction false} FirstMatchIsFirst(labels: Labels, tgs: seq<Item<GroupSpec>>)
    ensures IsFirstMatch(labels, tgs, FirstMatch(labels, tgs))
  {
    hide Matches;
    if tgs != [] && !Matches(labels, tgs[0].value.labels) {
      var rest := tgs[1..];
      FirstMatchIsFirst(labels, rest);
      assert forall i | 1 <= i < |tgs| :: tgs[i] == rest[i - 1];
      if i :| 0 <= i < |rest| && rest[i].identity == FirstMatch(labels, rest) && Matches(labels, rest[i].value.labels)
              && forall j | 0 <= j < i :: !Matches(labels, rest[j].value.labels) {
        assert tgs[i + 1] == rest[i];
        assert forall j | 0 <= j < i + 1 :: !Matches(labels, tgs[j].value.labels);
      }
    }
  }

  method GetTargetGroupIdentityForListener(cfg: Config, svc: Service, listener: ListenerSpec, tgs: seq<Item<GroupSpec>>)
    returns (identity: string)
    ensures identity == FirstMatch(GroupLabels(cfg, svc, listener.port, listener.protocol), tgs)
    ensures IsFirstMatch(GroupLabels(cfg, svc, listener.port, listener.protocol), tgs, identity)
  {
    hide GroupLabels, Matches, LabelledForPort, IsFirstMatch;
    var labels := GetLabelsForVpcLoadbalancerTargetGroup(cfg, svc, listener.port, listener.protocol);
    FirstMatchIsFirst(labels, tgs);
    var i := 0;
    while i < |tgs|
      invariant 0 <= i <= |tgs|
      invariant FirstMatch(labels, tgs) == FirstMatch(labels, tgs[i..])
    {
      var matching := MatchLabels(labels, tgs[i].value.labels);
      if matching {
        return tgs[i].identity;
      }
      assert tgs[i..][1..] == tgs[i + 1..];
      i := i + 1;
    }
    return "";
  }

  lemma {:induction false} FirstMatchFound(labels: Labels, tgs: seq<Item<GroupSpec>>, t: nat)
    requires t < |tgs| && Matches(labels, tgs[t].value.labels)
    ensures exists u ::
              0 <= u < |tgs| && Matches(labels, tgs[u].value.labels) && FirstMatch(labels, tgs) == tgs[u].identity
  {
    hide Matches;
    if !Matches(labels, tgs[0].value.labels) {
      FirstMatchFound(labels, tgs[1..], t - 1);
      var u :| 0 <= u < |tgs[1..]| && Matches(labels, tgs[1..][u].value.labels)
        && FirstMatch(labels, tgs[1..]) == tgs[1..][u].identity;
      assert tgs[u + 1] == tgs[1..][u];
    }
  }

  /** The plan is for these ports. */
  predicate PlansPorts(cfg: Config, svc: Service, p: Plan) {
    p.groups == DesiredGroups(cfg, svc) && p.listeners == DesiredListeners(cfg, svc)
  }

  /** The labels a listener searches by, and those of a planned group. */
  lemma SearchTakes(cfg: Config, svc: Service, p: Plan, i: nat, j: nat)
    requires PlansPorts(cfg, svc, p) && i < |p.listeners| && j < |p.listeners|
    ensures |svc.ports| == |p.groups| == |p.listeners|
    ensures Matches(GroupLabels(cfg, svc, p.listeners[i].port, p.listeners[i].protocol), p.groups[j].labels)
       <==> TakesGroupOf(cfg, svc, i, j)
  {
    hide Matches, GroupLabels, DesiredGroups, DesiredListeners;
    assert p.listeners[i] == DesiredListener(cfg, svc, svc.ports[i])
           && p.groups[j] == DesiredGroup(cfg, svc, svc.ports[j]);
  }

  /** Once a run's groups are ready, the search by labels gives every planned listener its own port's group. */
  lemma ListenerGetsItsGroup(cfg: Config, svc: Service, p: Plan, groups: map<string, Group>, tgs: seq<Item<GroupSpec>>,
                             i: nat)
    requires PlansPorts(cfg, svc, p) && MatchingExact(cfg, svc) && GroupsReady(p, groups, tgs) && i < |p.listeners|
    ensures var target := FirstMatch(GroupLabels(cfg, svc, p.listeners[i].port, p.listeners[i].protocol), tgs);
            target != "" && ReadyGroup(p, groups, i, target) && ReadyListener(p, groups, p.listeners[i], target)
  {
    hide Matches, GroupLabels, FirstMatch, DesiredGroups, DesiredListeners, PlansPorts, TakesGroupOf;
    var labels := GroupLabels(cfg, svc, p.listeners[i].port, p.listeners[i].protocol);
    SearchTakes(cfg, svc, p, i, i);
    forall t | 0 <= t < |tgs|
      ensures Matches(labels, tgs[t].value.labels) <==> tgs[t].value == p.groups[i]
      ensures ReadyItem(p, groups, tgs[t])
    {
      assert ReadyItem(p, groups, tgs[t]);
      var j :| 0 <= j < |p.groups| && p.groups[j] == tgs[t].value;
      SearchTakes(cfg, svc, p, i, j);
    }
    assert Provides(tgs, p.groups[i]);
    var t :| 0 <= t < |tgs| && tgs[t].value == p.groups[i];
    FirstMatchFound(labels, tgs, t);
  }

  /** What the search finds is one of the run's groups, whatever the labels are. */
  lemma {:induction false} FirstMatchIsReady(p: Plan, groups: map<string, Group>, labels: Labels,
                                             tgs: seq<Item<GroupSpec>>)
    requires Proper(p) && ItemsReady(p, groups, tgs) && FirstMatch(labels, tgs) != ""
    ensures OwnTarget(p.owner, groups, FirstMatch(labels, tgs))
  {
    hide Matches;
    assert ReadyItem(p, groups, tgs[0]);
    if !Matches(labels, tgs[0].value.labels) {
      assert forall t | 0 <= t < |tgs[1..]| :: tgs[1..][t] == tgs[t + 1];
      FirstMatchIsReady(p, groups, labels, tgs[1..]);
    }
  }

  /** The groups can be forwarded to by the load balancer's listeners; for a run that follows the plan
      there is one for every port, and it is found. */
  ghost predicate Prepared(cfg: Config, svc: Service, p: Plan, run: Run, s: State, lb: string,
                           tgs: seq<Item<GroupSpec>>) {
    && For(run, p) && PlansPorts(cfg, svc, p) && lb in s.lbs && OwnLb(p.owner, s.lbs[lb])
       && ItemsReady(p, s.groups, tgs)
    && (run.Ensure? ==> MatchingExact(cfg, svc) && GroupsReady(p, s.groups, tgs))
  }

  lemma PreparedMeans(cfg: Config, svc: Service, p: Plan, run: Run, s: State, lb: string, tgs: seq<Item<GroupSpec>>)
    requires Prepared(cfg, svc, p, run, s, lb, tgs)
    ensures PlansPorts(cfg, svc, p) && lb in s.lbs && OwnLb(p.owner, s.lbs[lb]) && ItemsReady(p, s.groups, tgs)
    ensures For(run, p) && run.IsSound() && Proper(p) && |p.groups| == |p.listeners|
    ensures run.Ensure? ==> run == Ensure(p) && Sound(p) && MatchingExact(cfg, svc) && GroupsReady(p, s.groups, tgs)
    ensures !run.Ensure? ==> run == Touch(p.owner)
  {}

  lemma TouchMay(o: Owner, s: State, c: Call)
    ensures Touch(o).IsSound() && (Touch(o).Allows(s, c) <==> MayTouch(o, s, c))
  {}

  /** Looking a wanted port up and searching its group gives a listener as planned. */
  lemma WantedPortFound(cfg: Config, svc: Service, p: Plan, groups: map<string, Group>, tgs: seq<Item<GroupSpec>>,
                        port: int)
    requires Sound(p) && PlansPorts(cfg, svc, p) && MatchingExact(cfg, svc) && GroupsReady(p, groups, tgs)
    ensures port in PortMap(p.listeners) <==> WantsPort(p, port)
    ensures port in PortMap(p.listeners) ==>
              var spec := PortMap(p.listeners)[port];
              var target := FirstMatch(GroupLabels(cfg, svc, spec.port, spec.protocol), tgs);
              spec.port == port && target != "" && ReadyListener(p, groups, spec, target)
  {
    hide PortMap, PlansPorts, MatchingExact, GroupsReady, FirstMatch, GroupLabels, ReadyListener, ReadyGroup;
    PortMapLookup(p.listeners, port);
    if port in PortMap(p.listeners) {
      var i :| 0 <= i < |p.listeners| && p.listeners[i] == PortMap(p.listeners)[port];
      ListenerGetsItsGroup(cfg, svc, p, groups, tgs, i);
    }
  }

  // ---------------------------------------------------------------- updating and deleting what is there

  function Listed(existing: seq<Item<Listener>>): (specs: seq<ListenerSpec>)
    ensures |specs| == |existing|
    ensures forall k | 0 <= k < |existing| :: specs[k] == existing[k].value.spec
  {
    seq(|existing|, k requires 0 <= k < |existing| => existing[k].value.spec)
  }

  /** A wanted listener as the comparison with the listing sees it: it has no identity yet. */
  function AsListed(specs: seq<ListenerSpec>): (items: seq<Item<Listener>>)
    ensures |items| == |specs|
    ensures forall i | 0 <= i < |items| :: items[i] == Item("", Listener("", specs[i], ""))
  {
    seq(|specs|, i requires 0 <= i < |specs| => Item("", Listener("", specs[i], "")))
  }

  /** The comparison finds wanted and existing listeners equal only if there are none of either. */
  lemma EqualOnlyIfEmpty(s: State, lb: string, desired: seq<ListenerSpec>, existing: seq<Item<Listener>>)
    requires Named(s) && Lists(existing, s.listeners, ListenerIds(s, lb))
    ensures AsListed(desired) == existing <==> desired == [] && existing == []
  {
    if existing != [] && |desired| == |existing| {
      assert existing[0].identity in s.listeners && AsListed(desired)[0].identity == "";
    }
  }

  /** An existing listener was deleted if its port is not wanted; otherwise it is still there and serves
      that port as planned. */
  predicate Replaced(p: Plan, groups: map<string, Group>, listeners: map<string, Listener>, item: Item<Listener>)
    requires |p.groups| == |p.listeners|
  {
    && (item.identity in listeners <==> WantsPort(p, item.value.spec.port))
    && (item.identity in listeners ==>
          ReadyListener(p, groups, listeners[item.identity].spec, listeners[item.identity].target))
  }

  /** The listeners are among those at the start, each with its load balancer and port. */
  predicate NoneNew(was: map<string, Listener>, listeners: map<string, Listener>) {
    forall l | l in listeners :: l in was && listeners[l].lb == was[l].lb && listeners[l].spec.port == was[l].spec.port
  }

  /** The listed listeners from n on are as listed, and nothing but listeners has changed. */
  predicate Remaining(s0: State, s: State, existing: seq<Item<Listener>>, n: nat) {
    && s == s0.(listeners := s.listeners)
    && (forall k | n <= k < |existing| ::
          existing[k].identity in s.listeners && s.listeners[existing[k].identity] == existing[k].value)
  }

  /** After the first n listed listeners were updated or deleted. */
  predicate Diffing(p: Plan, s0: State, s: State, existing: seq<Item<Listener>>, n: nat)
    requires |p.groups| == |p.listeners| && n <= |existing|
  {
    && Remaining(s0, s, existing, n) && NoneNew(s0.listeners, s.listeners)
    && (forall k | 0 <= k < n :: Replaced(p, s.groups, s.listeners, existing[k]))
  }

  /** The listing shows the load balancer's listeners. */
  ghost predicate ListsListeners(s: State, lb: string, existing: seq<Item<Listener>>) {
    Lists(existing, s.listeners, ListenerIds(s, lb))
  }

  lemma DiffingStarts(p: Plan, s0: State, lb: string, existing: seq<Item<Listener>>)
    requires |p.groups| == |p.listeners| && ListsListeners(s0, lb, existing)
    ensures Diffing(p, s0, s0, existing, 0) && Remaining(s0, s0, existing, 0)
  {}

  /** A listed listener may be touched by any run. */
  lemma TouchedListener(o: Owner, s0: State, s: State, lb: string, existing: seq<Item<Listener>>, n: nat,
                        spec: ListenerSpec, target: string)
    requires ListsListeners(s0, lb, existing) && n < |existing| && Remaining(s0, s, existing, n)
    requires lb in s0.lbs && OwnLb(o, s0.lbs[lb])
    ensures MayTouch(o, s, DeleteListener(existing[n].identity))
    ensures Remaining(s0, Apply(s, DeleteListener(existing[n].identity)), existing, n + 1)
    ensures OwnTarget(o, s.groups, target) ==> MayTouch(o, s, UpdateListener(existing[n].identity, spec, target))
    ensures Remaining(s0, Apply(s, UpdateListener(existing[n].identity, spec, target)), existing, n + 1)
  {
    hide OwnLb, OwnTarget;
  }

  lemma DeletedListener(p: Plan, s0: State, s: State, lb: string, existing: seq<Item<Listener>>, n: nat)
    requires Sound(p) && ListsListeners(s0, lb, existing) && n < |existing| && Diffing(p, s0, s, existing, n)
    requires lb in s0.lbs && OwnLb(p.owner, s0.lbs[lb]) && !WantsPort(p, existing[n].value.spec.port)
    ensures Ensure(p).Allows(s, DeleteListener(existing[n].identity))
    ensures Apply(s, DeleteListener(existing[n].identity)).groups == s.groups
    ensures Diffing(p, s0, Apply(s, DeleteListener(existing[n].identity)), existing, n + 1)
  {
    hide Sound, WantsPort, ReadyListener, OwnLb;
    SoundRun(p);
    var s' := Apply(s, DeleteListener(existing[n].identity));
    forall k | 0 <= k < n
      ensures Replaced(p, s'.groups, s'.listeners, existing[k])
    {
      assert Replaced(p, s.groups, s.listeners, existing[k]) && existing[k].identity != existing[n].identity;
    }
  }

  lemma UpdatedListener(p: Plan, s0: State, s: State, lb: string, existing: seq<Item<Listener>>, n: nat,
                        spec: ListenerSpec, target: string)
    requires Sound(p) && ListsListeners(s0, lb, existing) && n < |existing| && Diffing(p, s0, s, existing, n)
    requires lb in s0.lbs && OwnLb(p.owner, s0.lbs[lb]) && ReadyListener(p, s.groups, spec, target)
    requires spec.port == existing[n].value.spec.port && WantsPort(p, spec.port)
    ensures Ensure(p).Allows(s, UpdateListener(existing[n].identity, spec, target))
    ensures Apply(s, UpdateListener(existing[n].identity, spec, target)).groups == s.groups
    ensures Diffing(p, s0, Apply(s, UpdateListener(existing[n].identity, spec, target)), existing, n + 1)
  {
    hide Sound, WantsPort, ReadyListener, OwnLb;
    SoundRun(p);
    var s' := Apply(s, UpdateListener(existing[n].identity, spec, target));
    forall k | 0 <= k < n
      ensures Replaced(p, s'.groups, s'.listeners, existing[k])
    {
      assert Replaced(p, s.groups, s.listeners, existing[k]) && existing[k].identity != existing[n].identity;
    }
  }

  // ---------------------------------------------------------------- creating the missing ones

  /** After the first n wanted listeners were looked at and the missing ones created. */
  predicate Filling(p: Plan, s0: State, s: State, lb: string, existing: seq<Item<Listener>>, n: nat)
    requires |p.groups| == |p.listeners| && n <= |p.listeners|
  {
    && s == s0.(listeners := s.listeners)
    && (forall l | l in s.listeners && s.listeners[l].lb == lb ::
          && ReadyListener(p, s.groups, s.listeners[l].spec, s.listeners[l].target)
          && (HasPort(Listed(existing), s.listeners[l].spec.port)
              || HasPort(p.listeners[..n], s.listeners[l].spec.port)))
    && (forall i | 0 <= i < |p.listeners| && (i < n || HasPort(Listed(existing), p.listeners[i].port)) ::
        PortServed(p, s, lb, i))
  }

  /** A port that was listed and is wanted is served by its old listener. */
  lemma ListedPortServed(p: Plan, s0: State, s: State, lb: string, existing: seq<Item<Listener>>, i: nat)
    requires Sound(p) && ListsListeners(s0, lb, existing) && Diffing(p, s0, s, existing, |existing|)
    requires i < |p.listeners| && HasPort(Listed(existing), p.listeners[i].port)
    ensures PortServed(p, s, lb, i)
  {
    var k :| 0 <= k < |existing| && Listed(existing)[k].port == p.listeners[i].port;
    assert WantsPort(p, existing[k].value.spec.port);
    assert Replaced(p, s.groups, s.listeners, existing[k]);
    var l := s.listeners[existing[k].identity];
    assert l.lb == lb && l.spec.port == p.listeners[i].port;
    var j :| 0 <= j < |p.listeners| && p.listeners[j] == l.spec && ReadyGroup(p, s.groups, j, l.target);
    assert j == i;
  }

  lemma DiffingDone(p: Plan, s0: State, s: State, lb: string, existing: seq<Item<Listener>>)
    requires Sound(p) && ListsListeners(s0, lb, existing) && Diffing(p, s0, s, existing, |existing|)
    ensures Filling(p, s0, s, lb, existing, 0)
  {
    hide Sound, WantsPort, ReadyListener, PortServed;
    SoundRun(p);
    forall i | 0 <= i < |p.listeners| && HasPort(Listed(existing), p.listeners[i].port)
      ensures PortServed(p, s, lb, i)
    {
      ListedPortServed(p, s0, s, lb, existing, i);
    }
    forall l | l in s.listeners && s.listeners[l].lb == lb
      ensures ReadyListener(p, s.groups, s.listeners[l].spec, s.listeners[l].target)
      ensures HasPort(Listed(existing), s.listeners[l].spec.port)
    {
      assert l in ListenerIds(s0, lb);
      var k :| 0 <= k < |existing| && existing[k].identity == l;
      assert Replaced(p, s.groups, s.listeners, existing[k]) && Listed(existing)[k].port == s.listeners[l].spec.port;
    }
  }

  lemma HasPortAmongMore(specs: seq<ListenerSpec>, n: nat)
    requires n < |specs|
    ensures forall port :: HasPort(specs[..n + 1], port) <==> HasPort(specs[..n], port) || specs[n].port == port
  {
    assert specs[..n + 1][n] == specs[n] && forall i | 0 <= i < n :: specs[..n + 1][i] == specs[..n][i];
  }

  lemma PlannedIsReady(p: Plan, groups: map<string, Group>, n: nat, target: string)
    requires Sound(p) && n < |p.listeners| && ReadyGroup(p, groups, n, target)
    ensures ReadyListener(p, groups, p.listeners[n], target) && !HasPort(p.listeners[..n], p.listeners[n].port)
  {}

  lemma PortsStayServed(p: Plan, s: State, lb: string, id: string, listener: Listener)
    requires |p.groups| == |p.listeners| && id !in s.listeners
    ensures forall i | 0 <= i < |p.listeners| && PortServed(p, s, lb, i) ::
              PortServed(p, Apply(s, CreateListener(id, listener)), lb, i)
  {
    hide ReadyGroup;
    var s' := Apply(s, CreateListener(id, listener));
    forall i | 0 <= i < |p.listeners| && PortServed(p, s, lb, i)
      ensures PortServed(p, s', lb, i)
    {
      var l :| l in s.listeners && s.listeners[l].lb == lb && s.listeners[l].spec == p.listeners[i]
               && ReadyGroup(p, s.groups, i, s.listeners[l].target);
      assert s'.listeners[l] == s.listeners[l];
    }
  }

  lemma CreatedListener(p: Plan, s0: State, s: State, lb: string, existing: seq<Item<Listener>>, n: nat, id: string,
                        target: string)
    requires Sound(p) && n < |p.listeners| && Filling(p, s0, s, lb, existing, n)
             && !HasPort(Listed(existing), p.listeners[n].port)
    requires lb in s0.lbs && OwnLb(p.owner, s0.lbs[lb]) && ReadyGroup(p, s.groups, n, target) && id != ""
             && id !in s.listeners
    ensures Ensure(p).Allows(s, CreateListener(id, Listener(lb, p.listeners[n], target)))
    ensures Apply(s, CreateListener(id, Listener(lb, p.listeners[n], target))).groups == s.groups
    ensures Filling(p, s0, Apply(s, CreateListener(id, Listener(lb, p.listeners[n], target))), lb, existing, n + 1)
  {
    hide OwnLb, ReadyGroup, ReadyListener, HasPort, Sound;
    SoundRun(p);
    PlannedIsReady(p, s.groups, n, target);
    HasPortAmongMore(p.listeners, n);
    PortsStayServed(p, s, lb, id, Listener(lb, p.listeners[n], target));
    var s' := Apply(s, CreateListener(id, Listener(lb, p.listeners[n], target)));
    assert s'.listeners[id].spec == p.listeners[n] && PortServed(p, s', lb, n);
  }

  lemma KeptListener(p: Plan, s0: State, s: State, lb: string, existing: seq<Item<Listener>>, n: nat)
    requires Sound(p) && n < |p.listeners| && Filling(p, s0, s, lb, existing, n)
             && HasPort(Listed(existing), p.listeners[n].port)
    ensures Filling(p, s0, s, lb, existing, n + 1)
  {
    hide HasPort, Sound, PortServed, ReadyListener;
    SoundRun(p);
    HasPortAmongMore(p.listeners, n);
  }

  lemma FillingDone(p: Plan, s0: State, s: State, lb: string, existing: seq<Item<Listener>>)
    requires Sound(p) && Filling(p, s0, s, lb, existing, |p.listeners|)
    ensures ListenersSettled(p, s, lb)
  {
    hide HasPort, Sound, PortServed, ReadyListener;
    SoundRun(p);
  }

  /** How far the loop over the listed listeners is: what remains for any run, and what is done for one
      that follows the plan. */
  ghost predicate Looping(p: Plan, run: Run, s0: State, s: State, existing: seq<Item<Listener>>, n: nat) {
    && |p.groups| == |p.listeners| && n <= |existing| && Remaining(s0, s, existing, n)
    && (run.Ensure? ==> Diffing(p, s0, s, existing, n))
  }

  lemma MayDelete(p: Plan, run: Run, s0: State, s: State, lb: string, existing: seq<Item<Listener>>, n: nat)
    requires For(run, p) && ListsListeners(s0, lb, existing) && n < |existing| && Looping(p, run, s0, s, existing, n)
    requires lb in s0.lbs && OwnLb(p.owner, s0.lbs[lb]) && !WantsPort(p, existing[n].value.spec.port)
    ensures run.IsSound() && run.Allows(s, DeleteListener(existing[n].identity))
    ensures Looping(p, run, s0, Apply(s, DeleteListener(existing[n].identity)), existing, n + 1)
  {
    hide *;
    RunsFor(run, p);
    LoopingMeans(p, run, s0, s, existing, n);
    TouchMay(p.owner, s, DeleteListener(existing[n].identity));
    TouchedListener(p.owner, s0, s, lb, existing, n, existing[n].value.spec, "");
    if run.Ensure? {
      DeletedListener(p, s0, s, lb, existing, n);
    }
    LoopingMeans(p, run, s0, Apply(s, DeleteListener(existing[n].identity)), existing, n + 1);
  }

  lemma LoopingMeans(p: Plan, run: Run, s0: State, s: State, existing: seq<Item<Listener>>, n: nat)
    requires |p.groups| == |p.listeners| && n <= |existing|
    ensures Looping(p, run, s0, s, existing, n) <==>
            Remaining(s0, s, existing, n) && (run.Ensure? ==> Diffing(p, s0, s, existing, n))
  {}

  /** The search for a wanted port's group ends with a group the listener may be pointed to; a run that
      follows the plan finds it. */
  lemma SearchEnds(cfg: Config, svc: Service, p: Plan, run: Run, s: State, lb: string, tgs: seq<Item<GroupSpec>>,
                   port: int)
    requires Prepared(cfg, svc, p, run, s, lb, tgs)
    ensures port in PortMap(p.listeners) <==> WantsPort(p, port)
    ensures port in PortMap(p.listeners) ==>
              var spec := PortMap(p.listeners)[port];
              var target := FirstMatch(GroupLabels(cfg, svc, spec.port, spec.protocol), tgs);
              && spec.port == port && (target != "" ==> OwnTarget(p.owner, s.groups, target))
              && |p.groups| == |p.listeners|
              && (run.Ensure? ==> target != "" && ReadyListener(p, s.groups, spec, target))
  {
    hide PortMap, PlansPorts, MatchingExact, GroupsReady, FirstMatch, GroupLabels, ReadyListener, ReadyGroup,
      ItemsReady, OwnTarget, Sound, Proper, For, Prepared, HasPort;
    PreparedMeans(cfg, svc, p, run, s, lb, tgs);
    PortMapLookup(p.listeners, port);
    PortIsWanted(p, port);
    if port in PortMap(p.listeners) {
      var spec := PortMap(p.listeners)[port];
      var labels := GroupLabels(cfg, svc, spec.port, spec.protocol);
      if FirstMatch(labels, tgs) != "" {
        FirstMatchIsReady(p, s.groups, labels, tgs);
      }
      if run.Ensure? {
        WantedPortFound(cfg, svc, p, s.groups, tgs, port);
      }
    }
  }

  lemma PortIsWanted(p: Plan, port: int)
    ensures HasPort(p.listeners, port) <==> WantsPort(p, port)
  {}

  lemma MayUpdate(p: Plan, run: Run, s0: State, s: State, lb: string, existing: seq<Item<Listener>>, n: nat,
                  spec: ListenerSpec, target: string)
    requires For(run, p) && ListsListeners(s0, lb, existing) && n < |existing| && Looping(p, run, s0, s, existing, n)
    requires lb in s0.lbs && OwnLb(p.owner, s0.lbs[lb]) && OwnTarget(p.owner, s.groups, target)
    requires |p.groups| == |p.listeners| && spec.port == existing[n].value.spec.port && WantsPort(p, spec.port)
    requires run.Ensure? ==> ReadyListener(p, s.groups, spec, target)
    ensures run.IsSound() && run.Allows(s, UpdateListener(existing[n].identity, spec, target))
    ensures Looping(p, run, s0, Apply(s, UpdateListener(existing[n].identity, spec, target)), existing, n + 1)
  {
    hide *;
    RunsFor(run, p);
    LoopingMeans(p, run, s0, s, existing, n);
    TouchMay(p.owner, s, UpdateListener(existing[n].identity, spec, target));
    TouchedListener(p.owner, s0, s, lb, existing, n, spec, target);
    if run.Ensure? {
      UpdatedListener(p, s0, s, lb, existing, n, spec, target);
    }
    LoopingMeans(p, run, s0, Apply(s, UpdateListener(existing[n].identity, spec, target)), existing, n + 1);
  }

  /** Without a group to point to, a listener is passed over; a run that follows the plan always has one. */
  lemma PassedOver(p: Plan, run: Run, s0: State, s: State, existing: seq<Item<Listener>>, n: nat)
    requires !run.Ensure? && n < |existing| && Looping(p, run, s0, s, existing, n)
    ensures Looping(p, run, s0, s, existing, n + 1)
  {}

  lemma ListenersOnly(p: Plan, run: Run, s0: State, s: State, existing: seq<Item<Listener>>, n: nat)
    requires Looping(p, run, s0, s, existing, n)
    ensures s == s0.(listeners := s.listeners)
  {}

  /** Brings one listed listener up to date, or deletes it. */
  method UpdateOrDelete(cloud: Cloud, cfg: Config, svc: Service, ghost p: Plan, ghost run: Run, lb: string,
                        desiredMap: map<int, ListenerSpec>, tgs: seq<Item<GroupSpec>>, ghost s0: State,
                        existing: seq<Item<Listener>>, k: nat) returns (ok: bool)
    requires Prepared(cfg, svc, p, run, s0, lb, tgs) && run.IsSound() && desiredMap == PortMap(p.listeners)
    requires ListsListeners(s0, lb, existing) && k < |existing| && Looping(p, run, s0, cloud.now, existing, k)
    modifies cloud
    ensures cloud.failures == old(cloud.failures) + if ok then 0 else 1
    ensures Ran(run, old(cloud.now), old(cloud.log), cloud.now, cloud.log)
    ensures ok ==> Looping(p, run, s0, cloud.now, existing, k + 1)
  {
    hide *;
    PreparedMeans(cfg, svc, p, run, s0, lb, tgs);
    ghost var s, l := cloud.now, cloud.log;
    ListenersOnly(p, run, s0, s, existing, k);
    RanNothing(run, s, l);
    var item := existing[k];
    var port := item.value.spec.port;
    SearchEnds(cfg, svc, p, run, s0, lb, tgs, port);
    if port !in desiredMap {
      MayDelete(p, run, s0, s, lb, existing, k);
      ok := cloud.Send(DeleteListener(item.identity));
      WasIssued(s, l, DeleteListener(item.identity), ok, cloud.now, cloud.log);
      RanCall(run, s, l, s, l, DeleteListener(item.identity), ok, cloud.now, cloud.log);
    } else {
      var spec := desiredMap[port];
      var target := GetTargetGroupIdentityForListener(cfg, svc, spec, tgs);
      if target == "" {
        PassedOver(p, run, s0, s, existing, k);
        return true;
      }
      MayUpdate(p, run, s0, s, lb, existing, k, spec, target);
      ok := cloud.Send(UpdateListener(item.identity, spec, target));
      WasIssued(s, l, UpdateListener(item.identity, spec, target), ok, cloud.now, cloud.log);
      RanCall(run, s, l, s, l, UpdateListener(item.identity, spec, target), ok, cloud.now, cloud.log);
    }
  }

  lemma WasIssued(s: State, l: seq<Call>, c: Call, ok: bool, s': State, l': seq<Call>)
    requires Issued(s, l, c, ok, s', l')
    ensures ok ==> s' == Apply(s, c)
  {}

  method UpdateAndDelete(cloud: Cloud, cfg: Config, svc: Service, ghost p: Plan, ghost run: Run, lb: string,
                         desired: seq<ListenerSpec>, tgs: seq<Item<GroupSpec>>, existing: seq<Item<Listener>>)
    returns (ok: bool)
    requires Prepared(cfg, svc, p, run, cloud.now, lb, tgs) && run.IsSound() && desired == p.listeners
    requires ListsListeners(cloud.now, lb, existing)
    modifies cloud
    ensures cloud.failures == old(cloud.failures) + if ok then 0 else 1
    ensures Ran(run, old(cloud.now), old(cloud.log), cloud.now, cloud.log)
    ensures ok ==> Looping(p, run, old(cloud.now), cloud.now, existing, |existing|)
  {
    hide *;
    PreparedMeans(cfg, svc, p, run, cloud.now, lb, tgs);
    ghost var s0, l0 := cloud.now, cloud.log;
    RanNothing(run, s0, l0);
    DiffingStarts(p, s0, lb, existing);
    LoopingMeans(p, run, s0, s0, existing, 0);
    var desiredMap := IndexByPort(desired);
    var i := 0;
    while i < |existing|
      invariant 0 <= i <= |existing|
      invariant Ran(run, s0, l0, cloud.now, cloud.log)
      invariant cloud.failures == old(cloud.failures)
      invariant Looping(p, run, s0, cloud.now, existing, i)
    {
      ghost var s1, l1 := cloud.now, cloud.log;
      ok := UpdateOrDelete(cloud, cfg, svc, p, run, lb, desiredMap, tgs, s0, existing, i);
      RanOn(run, s0, l0, s1, l1, cloud.now, cloud.log);
      if !ok {
        return false;
      }
      i := i + 1;
    }
    return true;
  }

  /** How far the loop over the wanted listeners is. */
  ghost predicate Completing(p: Plan, run: Run, s0: State, s: State, lb: string, existing: seq<Item<Listener>>,
                             n: nat) {
    && |p.groups| == |p.listeners| && n <= |p.listeners| && s == s0.(listeners := s.listeners)
    && (run.Ensure? ==> Filling(p, s0, s, lb, existing, n))
  }

  lemma CompletingMeans(p: Plan, run: Run, s0: State, s: State, lb: string, existing: seq<Item<Listener>>, n: nat)
    requires |p.groups| == |p.listeners| && n <= |p.listeners|
    ensures Completing(p, run, s0, s, lb, existing, n) <==>
            s == s0.(listeners := s.listeners) && (run.Ensure? ==> Filling(p, s0, s, lb, existing, n))
  {}

  lemma TouchCreates(o: Owner, s: State, lb: string, id: string, spec: ListenerSpec, target: string)
    requires lb in s.lbs && OwnLb(o, s.lbs[lb]) && OwnTarget(o, s.groups, target) && id != "" && id !in s.listeners
    ensures MayTouch(o, s, CreateListener(id, Listener(lb, spec, target)))
    ensures var s' := Apply(s, CreateListener(id, Listener(lb, spec, target))); s' == s.(listeners := s'.listeners)
  {}

  lemma MayCreate(p: Plan, run: Run, s0: State, s: State, lb: string, existing: seq<Item<Listener>>, n: nat,
                  id: string, target: string)
    requires For(run, p) && n < |p.listeners| && Completing(p, run, s0, s, lb, existing, n)
    requires |p.groups| == |p.listeners| && !HasPort(Listed(existing), p.listeners[n].port)
    requires lb in s0.lbs && OwnLb(p.owner, s0.lbs[lb]) && OwnTarget(p.owner, s.groups, target)
    requires id != "" && id !in s.listeners && (run.Ensure? ==> ReadyGroup(p, s.groups, n, target))
    ensures run.IsSound() && run.Allows(s, CreateListener(id, Listener(lb, p.listeners[n], target)))
    ensures Completing(p, run, s0, Apply(s, CreateListener(id, Listener(lb, p.listeners[n], target))), lb, existing,
                       n + 1)
  {
    hide *;
    RunsFor(run, p);
    CompletingMeans(p, run, s0, s, lb, existing, n);
    TouchMay(p.owner, s, CreateListener(id, Listener(lb, p.listeners[n], target)));
    TouchCreates(p.owner, s, lb, id, p.listeners[n], target);
    if run.Ensure? {
      CreatedListener(p, s0, s, lb, existing, n, id, target);
    }
    CompletingMeans(p, run, s0, Apply(s, CreateListener(id, Listener(lb, p.listeners[n], target))), lb, existing,
                    n + 1);
  }

  lemma StillCompleting(p: Plan, run: Run, s0: State, s: State, lb: string, existing: seq<Item<Listener>>, n: nat)
    requires For(run, p) && n < |p.listeners| && Completing(p, run, s0, s, lb, existing, n)
    requires run.Ensure? ==> HasPort(Listed(existing), p.listeners[n].port)
    ensures Completing(p, run, s0, s, lb, existing, n + 1)
  {
    hide HasPort, Filling, Sound;
    if run.Ensure? {
      KeptListener(p, s0, s, lb, existing, n);
    }
  }

  /** The same search for a listener that is to be created. */
  lemma SearchForNew(cfg: Config, svc: Service, p: Plan, run: Run, s: State, lb: string, tgs: seq<Item<GroupSpec>>,
                     n: nat)
    requires Prepared(cfg, svc, p, run, s, lb, tgs) && n < |p.listeners|
    ensures var target := FirstMatch(GroupLabels(cfg, svc, p.listeners[n].port, p.listeners[n].protocol), tgs);
            && (target != "" ==> OwnTarget(p.owner, s.groups, target))
            && n < |p.groups| && (run.Ensure? ==> target != "" && ReadyGroup(p, s.groups, n, target))
  {
    hide *;
    PreparedMeans(cfg, svc, p, run, s, lb, tgs);
    var labels := GroupLabels(cfg, svc, p.listeners[n].port, p.listeners[n].protocol);
    if FirstMatch(labels, tgs) != "" {
      FirstMatchIsReady(p, s.groups, labels, tgs);
    }
    if run.Ensure? {
      ListenerGetsItsGroup(cfg, svc, p, s.groups, tgs, n);
    }
  }

  /** Creates the wanted listener n if its port was not listed. */
  method CreateIfMissing(cloud: Cloud, cfg: Config, svc: Service, ghost p: Plan, ghost run: Run, lb: string,
                         listener: ListenerSpec, isListed: bool, tgs: seq<Item<GroupSpec>>, ghost s0: State,
                         ghost existing: seq<Item<Listener>>, ghost n: nat) returns (ok: bool)
    requires Prepared(cfg, svc, p, run, s0, lb, tgs) && run.IsSound() && n < |p.listeners| && listener == p.listeners[n]
    requires isListed <==> HasPort(Listed(existing), listener.port)
    requires Completing(p, run, s0, cloud.now, lb, existing, n)
    modifies cloud
    ensures cloud.failures == old(cloud.failures) + if ok then 0 else 1
    ensures Ran(run, old(cloud.now), old(cloud.log), cloud.now, cloud.log)
    ensures ok ==> Completing(p, run, s0, cloud.now, lb, existing, n + 1)
  {
    hide *;
    PreparedMeans(cfg, svc, p, run, s0, lb, tgs);
    ghost var s, l := cloud.now, cloud.log;
    CompletingMeans(p, run, s0, s, lb, existing, n);
    RanNothing(run, s, l);
    if isListed {
      StillCompleting(p, run, s0, s, lb, existing, n);
      return true;
    }
    SearchForNew(cfg, svc, p, run, s0, lb, tgs, n);
    var target := GetTargetGroupIdentityForListener(cfg, svc, listener, tgs);
    if target == "" {
      StillCompleting(p, run, s0, s, lb, existing, n);
      return true;
    }
    var created;
    ghost var id;
    created, id := cloud.CreateListener(Listener(lb, listener, target));
    MayCreate(p, run, s0, s, lb, existing, n, id, target);
    WasIssued(s, l, CreateListener(id, Listener(lb, listener, target)), created.Ok?, cloud.now, cloud.log);
    RanCall(run, s, l, s, l, CreateListener(id, Listener(lb, listener, target)), created.Ok?, cloud.now, cloud.log);
    return created.Ok?;
  }

  method CreateMissingListeners(cloud: Cloud, cfg: Config, svc: Service, ghost p: Plan, ghost run: Run, lb: string,
                                desired: seq<ListenerSpec>, tgs: seq<Item<GroupSpec>>, ghost s0: State,
                                existing: seq<Item<Listener>>) returns (ok: bool)
    requires Prepared(cfg, svc, p, run, s0, lb, tgs) && run.IsSound() && desired == p.listeners
    requires Completing(p, run, s0, cloud.now, lb, existing, 0)
    modifies cloud
    ensures cloud.failures == old(cloud.failures) + if ok then 0 else 1
    ensures Ran(run, old(cloud.now), old(cloud.log), cloud.now, cloud.log)
    ensures ok ==> Completing(p, run, s0, cloud.now, lb, existing, |p.listeners|)
  {
    hide *;
    ghost var s1, l1 := cloud.now, cloud.log;
    RanNothing(run, s1, l1);
    var existingMap := IndexByPort(Listed(existing));
    var i := 0;
    while i < |desired|
      invariant 0 <= i <= |desired|
      invariant Ran(run, s1, l1, cloud.now, cloud.log)
      invariant cloud.failures == old(cloud.failures)
      invariant Completing(p, run, s0, cloud.now, lb, existing, i)
    {
      ghost var s2, l2 := cloud.now, cloud.log;
      PortMapLookup(Listed(existing), desired[i].port);
      ok := CreateIfMissing(cloud, cfg, svc, p, run, lb, desired[i], desired[i].port in existingMap, tgs, s0, existing,
                            i);
      RanOn(run, s1, l1, s2, l2, cloud.now, cloud.log);
      if !ok {
        return false;
      }
      i := i + 1;
    }
    return true;
  }

  /** Once every listed listener was looked at, the loop over the wanted ones starts. */
  lemma LoopingDone(p: Plan, run: Run, s0: State, s: State, lb: string, existing: seq<Item<Listener>>)
    requires For(run, p) && ListsListeners(s0, lb, existing) && Looping(p, run, s0, s, existing, |existing|)
    ensures Completing(p, run, s0, s, lb, existing, 0)
  {
    hide *;
    RunsFor(run, p);
    LoopingMeans(p, run, s0, s, existing, |existing|);
    ListenersOnly(p, run, s0, s, existing, |existing|);
    if run.Ensure? {
      DiffingDone(p, s0, s, lb, existing);
    }
    CompletingMeans(p, run, s0, s, lb, existing, 0);
  }

  lemma CompletingDone(p: Plan, run: Run, s0: State, s: State, lb: string, existing: seq<Item<Listener>>)
    requires For(run, p) && Completing(p, run, s0, s, lb, existing, |p.listeners|)
    ensures |p.groups| == |p.listeners| && s == s0.(listeners := s.listeners)
    ensures run.Ensure? ==> ListenersSettled(p, s, lb)
  {
    hide *;
    RunsFor(run, p);
    CompletingMeans(p, run, s0, s, lb, existing, |p.listeners|);
    if run.Ensure? {
      FillingDone(p, s0, s, lb, existing);
    }
  }

  /** Updates the listeners whose ports stay, deletes the others and creates the missing ones. A run that
      follows the plan leaves each pointing to its own port's group with the servers attached. */
  method UpdateVpcLoadbalancerListener(cloud: Cloud, cfg: Config, svc: Service, ghost p: Plan, ghost run: Run,
                                       lb: string, desired: seq<ListenerSpec>, tgs: seq<Item<GroupSpec>>)
    returns (ok: bool)
    requires Prepared(cfg, svc, p, run, cloud.now, lb, tgs) && run.IsSound() && |p.groups| == |p.listeners|
    requires desired == p.listeners && Named(cloud.now)
    modifies cloud
    ensures cloud.failures == old(cloud.failures) + if ok then 0 else 1
    ensures Ran(run, old(cloud.now), old(cloud.log), cloud.now, cloud.log)
    ensures ok ==> cloud.now == old(cloud.now).(listeners := cloud.now.listeners)
    ensures ok && run.Ensure? ==> ListenersSettled(p, cloud.now, lb)
  {
    hide *;
    PreparedMeans(cfg, svc, p, run, cloud.now, lb, tgs);
    ghost var s0, l0 := cloud.now, cloud.log;
    RanNothing(run, s0, l0);
    var existing := cloud.ListListeners(lb);
    if existing.Err? {
      return false;
    }
    EqualOnlyIfEmpty(s0, lb, desired, existing.value);
    ListingListsListeners(s0, lb, existing.value);
    DiffingStarts(p, s0, lb, existing.value);
    LoopingMeans(p, run, s0, s0, existing.value, 0);
    if AsListed(desired) != existing.value {
      ok := UpdateAndDelete(cloud, cfg, svc, p, run, lb, desired, tgs, existing.value);
      if !ok {
        return false;
      }
    }
    ghost var s1, l1 := cloud.now, cloud.log;
    LoopingDone(p, run, s0, s1, lb, existing.value);
    ok := CreateMissingListeners(cloud, cfg, svc, p, run, lb, desired, tgs, s0, existing.value);
    RanOn(run, s0, l0, s1, l1, cloud.now, cloud.log);
    if ok {
      CompletingDone(p, run, s0, cloud.now, lb, existing.value);
    }
  }

  lemma ListingListsListeners(s: State, lb: string, existing: seq<Item<Listener>>)
    requires Lists(existing, s.listeners, ListenerIds(s, lb))
    ensures ListsListeners(s, lb, existing)
  {}
}
