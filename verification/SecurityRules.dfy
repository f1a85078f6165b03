/** pkg/provider/loadbalancer.go, buildIngressRulesFromListeners: the managed security group's ingress rules. */
module SecurityRules {
  import opened GoText
  import opened Cloud
  import opened Acl

  function RuleOf(isIPv6: string -> bool, l: ListenerSpec, source: string): Rule {
    Rule(Lower(l.protocol) + "-" + Decimal(l.port), isIPv6(source), if Lower(l.protocol) == "udp" then "udp" else "tcp",
         100, source, ToInt32(l.port), ToInt32(l.port))
  }

  function RulesFor(isIPv6: string -> bool, l: ListenerSpec): seq<Rule> {
    FirstRules(isIPv6, l, |l.allowedSources|)
  }

  function FirstRules(isIPv6: string -> bool, l: ListenerSpec, n: nat): seq<Rule>
    requires n <= |l.allowedSources|
  {
    seq(n, i requires 0 <= i < n => RuleOf(isIPv6, l, l.allowedSources[i]))
  }

  lemma OneMoreRule(isIPv6: string -> bool, before: seq<Rule>, l: ListenerSpec, n: nat)
    requires n < |l.allowedSources|
    ensures before + FirstRules(isIPv6, l, n) + [RuleOf(isIPv6, l, l.allowedSources[n])]
         == before + FirstRules(isIPv6, l, n + 1)
  {}

  lemma OneMoreListener(isIPv6: string -> bool, listeners: seq<ListenerSpec>, n: nat)
    requires n < |listeners|
    ensures IngressRules(isIPv6, listeners[..n + 1])
         == IngressRules(isIPv6, listeners[..n]) + RulesFor(isIPv6, listeners[n])
  {
    assert listeners[..n + 1][..n] == listeners[..n];
  }

  /** One rule per listener and source, in order. */
  function IngressRules(isIPv6: string -> bool, listeners: seq<ListenerSpec>): seq<Rule> {
    if listeners == [] then []
    else
      var init, l := listeners[..|listeners| - 1], listeners[|listeners| - 1];
      IngressRules(isIPv6, init) + RulesFor(isIPv6, l)
  }

  /** The rule admits the source to the listener's port, in the source's address family; it is for udp if the
      listener is, and otherwise for tcp. */
  predicate RuleAsked(isIPv6: string -> bool, l: ListenerSpec, source: string, r: Rule) {
    && r.name == Lower(l.protocol) + "-" + Decimal(l.port) && r.priority == 100
    && r.remote == source && (r.ipv6 <==> isIPv6(source))
    && r.portMin == ToInt32(l.port) && r.portMax == ToInt32(l.port)
    && (Lower(l.protocol) == "udp" ==> r.protocol == "udp") && (Lower(l.protocol) != "udp" ==> r.protocol == "tcp")
  }

  lemma RuleOfIsAsked(isIPv6: string -> bool, l: ListenerSpec, source: string, r: Rule)
    ensures RuleAsked(isIPv6, l, source, r) <==> r == RuleOf(isIPv6, l, source)
  {}

  /** The rules are those asked for by some listener for one of its sources. */
  ghost predicate RulesAsked(isIPv6: string -> bool, listeners: seq<ListenerSpec>, rules: seq<Rule>) {
    forall r :: r in rules <==> exists l, source :: l in listeners && source in l.allowedSources
                                                    && RuleAsked(isIPv6, l, source, r)
  }

  lemma IngressRulesAreAsked(isIPv6: string -> bool, listeners: seq<ListenerSpec>)
    ensures RulesAsked(isIPv6, listeners, IngressRules(isIPv6, listeners))
  {
    hide RuleAsked, RuleOf, IngressRules;
    forall r
      ensures r in IngressRules(isIPv6, listeners) <==>
              exists l, source :: l in listeners && source in l.allowedSources && RuleAsked(isIPv6, l, source, r)
    {
      RulesAreSources(isIPv6, listeners, r);
      forall l, source
        ensures RuleAsked(isIPv6, l, source, r) <==> r == RuleOf(isIPv6, l, source)
      {
        RuleOfIsAsked(isIPv6, l, source, r);
      }
    }
  }

  lemma NoRulesYet(isIPv6: string -> bool)
    ensures IngressRules(isIPv6, []) == []
  {}

  lemma NoRulesFor(isIPv6: string -> bool, l: ListenerSpec, before: seq<Rule>)
    ensures before + FirstRules(isIPv6, l, 0) == before
    ensures RulesFor(isIPv6, l) == FirstRules(isIPv6, l, |l.allowedSources|)
  {}

  method BuildIngressRulesFromListeners(isIPv6: string -> bool, listeners: seq<ListenerSpec>) returns (rules: seq<Rule>)
    ensures rules == IngressRules(isIPv6, listeners) && RulesAsked(isIPv6, listeners, rules)
  {
    IngressRulesAreAsked(isIPv6, listeners);
    hide RulesAsked, IngressRules, RulesFor, FirstRules, Decimal, Lower;
    rules := [];
    NoRulesYet(isIPv6);
    var i := 0;
    while i < |listeners|
      invariant 0 <= i <= |listeners|
      invariant rules == IngressRules(isIPv6, listeners[..i])
    {
      var l := listeners[i];
      ghost var before := rules;
      NoRulesFor(isIPv6, l, before);
      OneMoreListener(isIPv6, listeners, i);
      var j := 0;
      while j < |l.allowedSources|
        invariant 0 <= j <= |l.allowedSources|
        invariant rules == before + FirstRules(isIPv6, l, j)
      {
        OneMoreRule(isIPv6, before, l, j);
        var src := l.allowedSources[j];
        var protocol := "tcp";
        if Lower(l.protocol) == "udp" {
          protocol := "udp";
        }
        rules := rules + [Rule(Lower(l.protocol) + "-" + Decimal(l.port), isIPv6(src), protocol, 100, src,
                               ToInt32(l.port), ToInt32(l.port))];
        j := j + 1;
      }
      i := i + 1;
    }
    assert listeners[..i] == listeners;
  }

  /** Every rule comes from a source of a listener, and every source of a listener has its rule. */
  lemma {:induction false} RulesAreSources(isIPv6: string -> bool, listeners: seq<ListenerSpec>, r: Rule)
    ensures r in IngressRules(isIPv6, listeners)
       <==> exists l, source :: l in listeners && source in l.allowedSources && r == RuleOf(isIPv6, l, source)
  {
    if listeners != [] {
      var init, last := listeners[..|listeners| - 1], listeners[|listeners| - 1];
      assert listeners == init + [last];
      RulesAreSources(isIPv6, init, r);
      RulesOfOne(isIPv6, last, r);
    }
  }

  lemma RulesOfOne(isIPv6: string -> bool, l: ListenerSpec, r: Rule)
    ensures r in RulesFor(isIPv6, l) <==> exists source :: source in l.allowedSources && r == RuleOf(isIPv6, l, source)
  {
    if source :| source in l.allowedSources && r == RuleOf(isIPv6, l, source) {
      var i :| 0 <= i < |l.allowedSources| && l.allowedSources[i] == source;
      assert RulesFor(isIPv6, l)[i] == r;
    }
  }

  // ---------------------------------------------------------------- what rules and ACLs admit

  predicate RulesAdmit(rules: seq<Rule>, protocol: string, port: int, source: string) {
    exists r :: r in rules && r.protocol == protocol && r.portMin <= port <= r.portMax && r.remote == source
  }

  /** An ACL without sources admits every source. */
  predicate AclAdmits(listeners: seq<ListenerSpec>, protocol: string, port: int, source: string) {
    exists l :: l in listeners && Lower(l.protocol) == protocol && l.port == port
                && (l.allowedSources == [] || source in l.allowedSources)
  }

  predicate Representable(l: ListenerSpec) {
    l.allowedSources != [] && (Lower(l.protocol) == "tcp" || Lower(l.protocol) == "udp")
  }

  predicate Int32Ports(listeners: seq<ListenerSpec>) {
    forall l | l in listeners :: -0x8000_0000 <= l.port < 0x8000_0000
  }

  lemma RulesAdmitListedSources(isIPv6: string -> bool, listeners: seq<ListenerSpec>, protocol: string, port: int,
                                source: string)
    requires Int32Ports(listeners)
    ensures RulesAdmit(IngressRules(isIPv6, listeners), protocol, port, source)
       <==> exists l :: l in listeners && (if Lower(l.protocol) == "udp" then "udp" else "tcp") == protocol
                        && l.port == port
                        && source in l.allowedSources
  {
    var rules := IngressRules(isIPv6, listeners);
    if r :| r in rules && r.protocol == protocol && r.portMin <= port <= r.portMax && r.remote == source {
      RulesAreSources(isIPv6, listeners, r);
    }
    if l :| l in listeners && (if Lower(l.protocol) == "udp" then "udp" else "tcp") == protocol && l.port == port
            && source in l.allowedSources {
      RulesAreSources(isIPv6, listeners, RuleOf(isIPv6, l, source));
    }
  }

  ghost predicate SameMeaning(isIPv6: string -> bool, listeners: seq<ListenerSpec>) {
    forall protocol, port, source ::
      RulesAdmit(IngressRules(isIPv6, listeners), protocol, port, source) <==>
        AclAdmits(listeners, protocol, port, source)
  }

  lemma UnlistedSource(listeners: seq<ListenerSpec>) returns (source: string)
    ensures forall l | l in listeners :: source !in l.allowedSources
  {
    var used := set l, x | l in listeners && x in l.allowedSources :: x;
    FreshIdentityExists(used);
    source :| source != "" && source !in used;
  }

  /** A listener without sources, or one that is neither tcp nor udp, admits what no rule admits. */
  lemma UnrepresentableDiffers(isIPv6: string -> bool, listeners: seq<ListenerSpec>, l: ListenerSpec)
    requires Int32Ports(listeners) && l in listeners && !Representable(l)
    ensures !SameMeaning(isIPv6, listeners)
  {
    var source := UnlistedSource(listeners);
    if l.allowedSources != [] {
      source := l.allowedSources[0];
    }
    assert AclAdmits(listeners, Lower(l.protocol), l.port, source);
    RulesAdmitListedSources(isIPv6, listeners, Lower(l.protocol), l.port, source);
  }

  /** The managed security group admits exactly what the listeners' ACLs admit if and only if every
      listener names at least one source and is tcp or udp. */
  lemma RulesMeanAclsExactly(isIPv6: string -> bool, listeners: seq<ListenerSpec>)
    requires Int32Ports(listeners)
    ensures SameMeaning(isIPv6, listeners) <==> forall l | l in listeners :: Representable(l)
  {
    if l :| l in listeners && !Representable(l) {
      UnrepresentableDiffers(isIPv6, listeners, l);
    } else {
      forall protocol, port, source
        ensures RulesAdmit(IngressRules(isIPv6, listeners), protocol, port, source) <==>
                AclAdmits(listeners, protocol, port, source)
      {
        RulesAdmitListedSources(isIPv6, listeners, protocol, port, source);
      }
    }
  }

  /** Distinct ports and de-duplicated sources give rules without duplicates. */
  lemma {:induction false} RulesHaveNoDuplicates(isIPv6: string -> bool, listeners: seq<ListenerSpec>)
    requires Int32Ports(listeners)
    requires forall i, j | 0 <= i < j < |listeners| :: listeners[i].port != listeners[j].port
    requires forall i | 0 <= i < |listeners| :: NoDuplicates(listeners[i].allowedSources)
    ensures NoDuplicates(IngressRules(isIPv6, listeners))
  {
    if listeners != [] {
      var init, last := listeners[..|listeners| - 1], listeners[|listeners| - 1];
      assert listeners == init + [last];
      RulesHaveNoDuplicates(isIPv6, init);
      var rules := IngressRules(isIPv6, init);
      forall i | 0 <= i < |rules|
        ensures rules[i].portMin != last.port
      {
        RulesAreSources(isIPv6, init, rules[i]);
      }
    }
  }
}
