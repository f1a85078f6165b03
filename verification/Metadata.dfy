/** pkg/provider/metadata.go: the labels that mark a service's cloud objects as its own and tell its
    target groups apart. */
module Metadata {
  import opened GoText
  import opened Kubernetes
  import opened Cloud

  /** The controller's configuration. validCidr and isIPv6 stand for net.ParseCIDR. */
  datatype Config = Config(
    cluster: string,
    vpcIdentity: string,
    defaultSubnet: string,
    additionalLabels: Labels,
    validCidr: string -> bool,
    isIPv6: string -> bool)

  const LABEL_CLUSTER := "k8s.thalassa.cloud/kubernetes-cluster"
  const LABEL_MANAGED := "k8s.thalassa.cloud/cloud-provider-managed"
  const LABEL_NAME := "k8s.thalassa.cloud/kubernetes-service-name"
  const LABEL_NAMESPACE := "k8s.thalassa.cloud/kubernetes-service-namespace"
  const LABEL_UID := "k8s.thalassa.cloud/kubernetes-service-uid"
  const LABEL_PORT := "k8s.thalassa.cloud/kubernetes-service-port"
  const LABEL_PROTOCOL := "k8s.thalassa.cloud/kubernetes-service-protocol"

  function IdentityLabels(cfg: Config, svc: Service): Labels {
    map[LABEL_CLUSTER := cfg.cluster, LABEL_MANAGED := "true", LABEL_NAME := svc.name,
        LABEL_NAMESPACE := svc.namespace, LABEL_UID := svc.uid]
  }

  function PortLabels(port: int, protocol: string): Labels {
    map[LABEL_PORT := Decimal(port), LABEL_PROTOCOL := Lower(protocol)]
  }

  /** The service's identity labels win over additional labels of the same key. */
  function LbLabels(cfg: Config, svc: Service): Labels {
    cfg.additionalLabels + IdentityLabels(cfg, svc)
  }

  /** All labels already there win over the port labels. */
  function GroupLabels(cfg: Config, svc: Service, port: int, protocol: string): Labels {
    PortLabels(port, protocol) + LbLabels(cfg, svc)
  }

  // ---------------------------------------------------------------- what the labels say

  predicate Says(labels: Labels, key: string, value: string) {
    key in labels && labels[key] == value
  }

  predicate SaysWhose(cfg: Config, svc: Service, labels: Labels) {
    && Says(labels, LABEL_CLUSTER, cfg.cluster) && Says(labels, LABEL_MANAGED, "true")
    && Says(labels, LABEL_NAME, svc.name) && Says(labels, LABEL_NAMESPACE, svc.namespace)
    && Says(labels, LABEL_UID, svc.uid)
  }

  const IDENTITY_KEYS: set<string> := {LABEL_CLUSTER, LABEL_MANAGED, LABEL_NAME, LABEL_NAMESPACE, LABEL_UID}

  /** The labels say whose the object is; additional labels of other keys are there as configured, and no others. */
  predicate LabelledFor(cfg: Config, svc: Service, labels: Labels) {
    && SaysWhose(cfg, svc, labels)
    && (forall k | k in cfg.additionalLabels && k !in IDENTITY_KEYS :: Says(labels, k, cfg.additionalLabels[k]))
    && labels.Keys <= IDENTITY_KEYS + cfg.additionalLabels.Keys
  }

  /** The same, and besides they say which port it is for, unless an additional label takes that place. */
  predicate LabelledForPort(cfg: Config, svc: Service, port: int, protocol: string, labels: Labels) {
    && SaysWhose(cfg, svc, labels)
    && (forall k | k in cfg.additionalLabels && k !in IDENTITY_KEYS :: Says(labels, k, cfg.additionalLabels[k]))
    && (LABEL_PORT !in cfg.additionalLabels ==> Says(labels, LABEL_PORT, Decimal(port)))
    && (LABEL_PROTOCOL !in cfg.additionalLabels ==> Says(labels, LABEL_PROTOCOL, Lower(protocol)))
    && labels.Keys <= IDENTITY_KEYS + cfg.additionalLabels.Keys + {LABEL_PORT, LABEL_PROTOCOL}
  }

  lemma LbLabelsMean(cfg: Config, svc: Service)
    ensures LabelledFor(cfg, svc, LbLabels(cfg, svc))
  {
    var labels := IdentityLabels(cfg, svc);
    assert labels.Keys == IDENTITY_KEYS;
  }

  lemma GroupLabelsMean(cfg: Config, svc: Service, port: int, protocol: string)
    ensures LabelledForPort(cfg, svc, port, protocol, GroupLabels(cfg, svc, port, protocol))
  {
    LbLabelsMean(cfg, svc);
    IdentityHasNoPort(cfg, svc);
    hide Decimal, Lower;
  }

  /** Adds the entries of extra whose keys are not taken. */
  method AddMissing(labels: Labels, extra: Labels) returns (r: Labels)
    ensures r == extra + labels
  {
    r := labels;
    var left := extra.Keys;
    while left != {}
      invariant left <= extra.Keys
      invariant r == (map k | k in extra && k !in left :: extra[k]) + labels
    {
      var key :| key in left;
      if key !in r {
        r := r[key := extra[key]];
      }
      left := left - {key};
    }
    assert (map k | k in extra && k !in left :: extra[k]) == extra;
  }

  method GetLabelsForVpcLoadbalancer(cfg: Config, svc: Service) returns (labels: Labels)
    ensures labels == LbLabels(cfg, svc) && LabelledFor(cfg, svc, labels)
  {
    LbLabelsMean(cfg, svc);
    labels := AddMissing(IdentityLabels(cfg, svc), cfg.additionalLabels);
  }

  method GetLabelsForVpcLoadbalancerTargetGroup(cfg: Config, svc: Service, port: int, protocol: string)
    returns (labels: Labels)
    ensures labels == GroupLabels(cfg, svc, port, protocol) && LabelledForPort(cfg, svc, port, protocol, labels)
  {
    GroupLabelsMean(cfg, svc, port, protocol);
    hide LabelledForPort;
    labels := GetLabelsForVpcLoadbalancer(cfg, svc);
    labels := AddMissing(labels, PortLabels(port, protocol));
  }

  /** Whatever the additional labels are, a group's labels carry the service's. */
  lemma GroupLabelsCarryIdentity(cfg: Config, svc: Service, port: int, protocol: string)
    ensures Carries(LbLabels(cfg, svc), GroupLabels(cfg, svc, port, protocol))
    ensures Carries(IdentityLabels(cfg, svc), GroupLabels(cfg, svc, port, protocol))
  {}

  /** An object labelled for a service of another UID is not this service's, whatever the additional
      labels are: neither the API's filter nor matchLabels takes it. */
  lemma OtherUidIsForeign(cfg: Config, svc: Service, labels: Labels)
    requires LABEL_UID in labels && labels[LABEL_UID] != svc.uid
    ensures !Carries(LbLabels(cfg, svc), labels) && !Matches(LbLabels(cfg, svc), labels)
  {
    assert LABEL_UID in LbLabels(cfg, svc) && LbLabels(cfg, svc)[LABEL_UID] == svc.uid;
  }

  /** matchLabels takes more than the API's filter does exactly when some label it expects is empty and
      missing from the object. */
  lemma MatchesVersusCarries(expected: Labels, actual: Labels)
    ensures Carries(expected, actual) <==> Matches(expected, actual) && expected.Keys <= actual.Keys
    ensures (forall k | k in expected :: expected[k] != "") ==>
              (Matches(expected, actual) <==> Carries(expected, actual))
  {}

  /** The labels of two ports are taken for each other exactly when each of the port and the protocol
      is the same or masked by an additional label. */
  lemma PortsConfusedExactly(cfg: Config, svc: Service, port: int, protocol: string, port': int, protocol': string)
    ensures Matches(GroupLabels(cfg, svc, port, protocol), GroupLabels(cfg, svc, port', protocol'))
       <==> && (port == port' || LABEL_PORT in cfg.additionalLabels)
            && (Lower(protocol) == Lower(protocol') || LABEL_PROTOCOL in cfg.additionalLabels)
  {
    var a, b := GroupLabels(cfg, svc, port, protocol), GroupLabels(cfg, svc, port', protocol');
    SameApartFromPortLabels(cfg, svc, port, protocol, port', protocol');
    assert Matches(a, b) <==> a[LABEL_PORT] == b[LABEL_PORT] && a[LABEL_PROTOCOL] == b[LABEL_PROTOCOL];
    if Decimal(port) == Decimal(port') {
      DecimalInjective(port, port');
    }
  }

  lemma IdentityHasNoPort(cfg: Config, svc: Service)
    ensures LABEL_PORT !in IdentityLabels(cfg, svc) && LABEL_PROTOCOL !in IdentityLabels(cfg, svc)
            && LABEL_PORT != LABEL_PROTOCOL
  {}

  lemma SameApartFromPortLabels(cfg: Config, svc: Service, port: int, protocol: string, port': int, protocol': string)
    ensures var a, b := GroupLabels(cfg, svc, port, protocol), GroupLabels(cfg, svc, port', protocol');
            && a.Keys == b.Keys && LABEL_PORT in a && LABEL_PROTOCOL in a
            && (forall k | k in a && k != LABEL_PORT && k != LABEL_PROTOCOL :: a[k] == b[k])
            && (if LABEL_PORT in cfg.additionalLabels then a[LABEL_PORT] == b[LABEL_PORT]
                else a[LABEL_PORT] == Decimal(port) && b[LABEL_PORT] == Decimal(port'))
            && (if LABEL_PROTOCOL in cfg.additionalLabels then a[LABEL_PROTOCOL] == b[LABEL_PROTOCOL]
                else a[LABEL_PROTOCOL] == Lower(protocol) && b[LABEL_PROTOCOL] == Lower(protocol'))
  {
    hide Decimal, Lower, IdentityLabels;
    IdentityHasNoPort(cfg, svc);
  }

  /** A listener's protocol is already lower-case, so searching by it computes the labels the port got. */
  lemma GroupLabelsOfLowered(cfg: Config, svc: Service, port: int, protocol: string)
    ensures GroupLabels(cfg, svc, port, Lower(protocol)) == GroupLabels(cfg, svc, port, protocol)
  {
    LowerIdempotent(protocol);
  }
}
