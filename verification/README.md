# A verified model of the Thalassa cloud controller's load balancers

The repository is a Kubernetes cloud controller. For every Service of type LoadBalancer it keeps a
load balancer, listeners, target groups and (optionally) a managed security group in the cloud in
line with the Service, and for Services with `externalTrafficPolicy: Local` it watches endpoint
slices and re-attaches nodes when pods move. This project models both halves in Dafny and proves
what they keep and what they reach.

`dafny verify dfyconfig.toml` verifies the whole project.

## How it is built

**The reconciler** works on the class `Cloud.Cloud`: maps of load balancers, listeners, target groups
and security groups, listings in any order, fresh identities, a ghost log of the calls made, and a
failure possible on every call, with the change lost or made. The methods of `TargetGroups`,
`Listeners`, `LoadBalancers` and `Controller` follow the Go functions loop by loop. Each is proved to
make only calls that `Plan` allows in the state it makes them in (`Runs.Ran`), to reach its part of the
wanted state when it succeeds, and to fail only when a call fails or the service asks for what is not
there. There are two permissions. `Plan.MayTouch` is the weak one: it touches the owner's objects only,
points listeners only at the owner's existing groups, and deletes only groups that are not in use. Every
reconcile and delete of every service has it, in every cloud where nothing dangles. `Plan.MayEnsure` says
in addition that the calls follow the service's plan; a reconcile has it for a well-formed service whose
objects are not there twice. What any such run does, whole or cut off after any call, is then proved once
about `Plan`:

- for every service and every cloud in which nothing dangles, every prefix leaves no listener dangling,
  leaves everyone else's objects alone, and makes no second load balancer or security group;
- a planned run also keeps ports and (protocol, port) keys unique, keeps the listeners of lasting ports,
  and points none at a group before the servers of this run are attached to it;
- a settled cloud is changed by no further planned run;
- after any number of interrupted attempts for any versions of the service, one successful attempt
  leaves the cloud in order for the last version, with at most one load balancer ever created;
- ensure, then delete restores the cloud, exactly if the delete finds a load balancer or nothing to delete;
- runs for one service leave every other service's objects unique and its wanted state intact (`Isolation`),
  since they leave it all that it sees; and what a service sees is all that its own runs, its wanted state and
  its permissions depend on (`Views`).

What is wanted is stated twice. `Desired` computes the plan as the code does, and next to it are predicates that say
field by field what the service's annotations and ports ask for, without the functions the plan is computed with:
`ListenerAsked`, `GroupAsked`, `LbAsked`, `SubnetAsked`, `AttachesAsked`, `SgAsked`, on top of `Acl.Reading` (where a
source stands in the annotations), `Metadata.LabelledFor` and `NodeFilter.FilteredFor`. The methods promise both, every
planned call is shown to be one that these predicates ask for (`Lifecycle.EveryCallIsAsked`), and convergence is
restated in them (`Lifecycle.InOrder`).

**The watcher and the resync queue** are the handlers of `Watcher`, tied to specification functions, and
the transition system `Resync` built from those functions: events delivered in order, and syncs by the
worker and by the service controller, whose reads, filtering and end are separate steps, with failures,
back-off, retries, and the periodic scan.

**Cluster** joins the halves, call by call: its state is a state of `Resync`, the cloud, and what each sync or
deletion under way has done so far as if it were alone. A move is a step of `Resync` or one call of a sync or
deletion; those of different services make their calls in any order. A sync makes the calls that a run for its
service would make alone, since every listing it goes by shows it what it would see alone
(`Isolation.SameListings`); the contracts of the methods in `Controller` say what that is
(`Cluster.ReconcileIsSync`, `Cluster.DeleteIsDeletion`). Amid the others' calls each of them is still permitted and
has the same effect for its service (`Cluster.MakeIsAllowed`), and a sync that succeeds leaves the cloud as wanted
(`Cluster.SyncConverges`). Every run of this system keeps the cloud safe for all services, and as wanted by the
last successful sync of every service whose versions are well-formed; so the attachments at rest follow without
any assumption about the cloud. The methods of `Worker` record what they do as moves of this system and are
proved to be runs of it.

## What the code needs

For safety:

- Nothing in the cloud dangles and identities are non-empty, listings show the stored records, and deleting
  a load balancer removes its listeners.
- Two runs for the same service do not overlap, nothing else changes its objects, and the cloud gives every new
  object an identity that no other has. Runs for different services may overlap: the methods of `Controller` are
  proved as if alone, and `Cluster` interleaves their calls.
- Services have UIDs of their own, and load balancer names of their own (the names are made from the UIDs).
  At the start of a run of `Cluster` no load balancer counts as two services', and services' listeners
  forward to their own groups.

To follow its plan and converge, in addition (`Controller.WellFormed`):

- Service ports have distinct numbers, and distinct (protocol, node port) pairs. The code's maps are
  keyed by these, and without them listeners or groups are lost: `Listeners.PortMapFaithfulExactly`,
  `Listeners.TcpAndUdpOnOnePort`, `TargetGroups.KeyMapFaithfulExactly`, `TargetGroups.NoNodePortsOneGroup`,
  `Desired.PlanSoundExactly`, and `Lifecycle.ServedOnlyIfDistinct`: no well-formed cloud can serve all ports
  of a service without them.
- The labels of a service's target groups tell its ports apart. Labels that are already there win, so with the
  port label among `additionalLabels` they do so only for a service with a single port, or with one port per
  protocol: `Desired.MatchingExactly` is exact.
- Nothing of the service's is in the cloud twice.

And for the queue: informers update the cache before they call handlers and deliver events in order; the work
queue keeps its dirty, processing and back-off sets as client-go documents.

## Where code and documentation differ

The model follows the code.

- The annotation guide says both that per-port ACLs are combined with the global ones and that they take
  precedence (docs/loadbalancer-annotations.md:712-714); the code takes the union: `Acl.CombinedIsAsked`.
- The guide says invalid annotation values make the update fail (line 704) and that invalid CIDRs are
  skipped (line 714); the code skips them. A port's list is empty, which admits everyone, exactly when no
  annotation for it has an entry that is neither blank nor invalid: `Acl.OpenExactly`, with a network that
  lacks its prefix length as the example in `Acl.TypoLeavesOpen`.
- README.md says the managed security group is cleaned up automatically. A failing deletion is swallowed
  (`Controller.DeleteManagedSecurityGroup`), and a delete that finds no load balancer stops before it looks
  for groups (`Plan.CutOffBeforeLbLeaks`). A delete in which no call fails restores the cloud if and only if
  it finds a load balancer or there is nothing to delete: `Plan.EnsureThenDelete`, `Lifecycle.DeleteRestores`.
- The managed security group has a rule only per listed source, so a listener without an ACL, which admits
  everyone, gets no rule, and an SCTP listener gets a TCP rule: `SecurityRules.RulesMeanAclsExactly` says
  exactly when rules and ACLs agree.
- A node registered by another provider is attached as if it were this provider's:
  `ProviderId.SplitAcceptsForeignProviders`.
- The subnet annotation is matched by identity or slug when a load balancer is created, but the update
  that follows compares it with the identity alone and sends it as one (pkg/provider/loadbalancer.go:344,
  578). A load balancer just created is in a subnet of the VPC if and only if the service asks for none or
  gives its identity: `Controller.EnsureLoadBalancer`, `LoadBalancers.CreatedThenUpdated`, with a slug as the
  example in `Lifecycle.SlugIsNoIdentity`. The model's cloud stores what it is sent.
- A failed read of the API server drops a resync for good, until the periodic scan:
  `Resync.FailedReadLosesResync` is such a run, and `Resync.FailedReadExactly` says for every run when a service
  is out of step: exactly when a read failed while its last update was stale and nothing has been owed since.
- The watcher reads an endpoint without a Ready condition, or one both ready and terminating, differently
  from the node filter: `Watcher.NeverMissedExactly` says exactly which endpoints it can miss.

## Model

| member | source | states |
|---|---|---|
| Controller.EnsureLoadBalancer | pkg/provider/loadbalancer.go:100-172 | for every service and every cloud in which nothing dangles, whatever fails on the way: only the service's own objects were touched, nothing dangles, others' objects are untouched; for a well-formed service without duplicates only planned calls were made and success means the cloud is as the service and the nodes its slices admit want it; a load balancer it created is, field by field, as the service asks for it, is in a subnet of the VPC exactly if none was asked for or one by its identity, and was last seen ready; it fails only if a call or the slice listing fails, the wait runs out, or policy, security groups or subnet asked for do not exist |
| Controller.UpdateLoadBalancer | pkg/provider/loadbalancer.go:178-197 | the same for an update, which without a load balancer fails and changes nothing |
| Controller.EnsureLoadBalancerDeleted | pkg/provider/loadbalancer.go:199-265 | in every cloud in which nothing dangles only the service's own load balancers, unused groups and security groups are deleted; without a load balancer nothing is done; success means load balancer and unused groups are gone; with no failing call, and at most one security group of the service's, as its own runs leave, the cloud is what it was without everything of the service's that nobody else uses |
| Controller.UpdateVpcLoadbalancerListenersAndTargetGroups | pkg/provider/loadbalancer.go:488-539 | for any service: groups, then listeners, then garbage, then the load balancer, touching the service's objects only; a success leaves the load balancer in the subnet, with the address and with the security groups asked for and otherwise as it was; a planned run that succeeds settles all of it; it fails only if a call fails or the annotations ask for what is not there |
| Controller.CollectedSettles | pkg/provider/loadbalancer_targetgroups.go:120-154 | collecting garbage leaves every port served and no unused stale group |
| Controller.WaitUntilReady | pkg/provider/loadbalancer.go:134-155 | the poll never dereferences a missing load balancer, changes nothing, succeeds only once the status last read was that of a load balancer of the service's that is ready, and gives up only on a failed read or when time is up |
| Controller.WaitUntilGone | pkg/provider/loadbalancer.go:219-233 | the wait ends well only when no load balancer of the service is left |
| Controller.DeleteUnusedTargetGroups | pkg/provider/loadbalancer.go:235-259 | deletes exactly the service's groups, in any VPC, that no listener uses |
| Controller.DeleteManagedSecurityGroup | pkg/provider/loadbalancer.go:912-920 | without a failing call the service's security group, if there is at most one, is gone and nothing else has changed; what was torn down stays so |
| Lifecycle.RetryConverges | pkg/provider/loadbalancer.go:100-172 | crash and retry: after any interrupted reconciles of any versions, one that succeeds leaves the service in order, field by field, for its version and nodes, with at most one load balancer ever created and others' objects untouched |
| Lifecycle.EveryPrefixIsSafe | pkg/provider/loadbalancer.go:508-519 | after every call of a planned reconcile: well-formed, no dangling listener, others untouched, lasting ports keep their listeners |
| Lifecycle.EveryPrefixIsHarmless | pkg/provider/loadbalancer.go:100-265 | after every call of any reconcile or delete of any service nothing dangles and others' objects are untouched |
| Lifecycle.ReconcileAgain | pkg/provider/loadbalancer_listeners.go:51-112 | a second reconcile of a converged cloud creates and deletes nothing and changes nothing, even if cut off |
| Lifecycle.DeleteRestores | pkg/provider/loadbalancer.go:199-265 | ensure any number of times, then delete with no failing call: the cloud is back as it was if and only if the delete finds a load balancer or there is nothing of the service's |
| Lifecycle.SlugIsNoIdentity | pkg/provider/loadbalancer.go:578 | a subnet asked for by slug is found at creation and yet leaves a converged load balancer in no subnet of the VPC |
| Lifecycle.SlugIsReached | pkg/provider/loadbalancer.go:340-357 | five allowed calls reach such a cloud from the empty one |
| Lifecycle.ConvergedIsInOrder | pkg/provider/loadbalancer.go:488-605 | convergence in the service's own terms, field by field: one load balancer, in the subnet, with the address and the security groups asked for; the managed security group with its egress open and one ingress rule for each port and each source that an annotation lists for it; listeners for exactly the service's ports, each with its port's protocol, name, labels, limits and sources, and forwarding to a group with its port's node port, labels, health check, proxy protocol and policy and with the nodes' machines attached in order; no unused stale group |
| Lifecycle.EveryCallIsAsked | pkg/provider/loadbalancer.go:488-605 | every call of every planned reconcile, also of one that is cut off, is one the service asks for when it is made: whatever it creates or updates is, field by field, as the annotations say (a load balancer internal exactly if the annotation says so, in a subnet that answers the request, with the listed security groups and then the managed one), and it deletes only what no port of the service is for |
| Lifecycle.InOrderAdmitsExactly | pkg/provider/loadbalancer.go:870-899 | in a cloud in order the managed security group admits a source to a port over a protocol if and only if the source is an entry that counts of an annotation for a port of the service's with that number, and the protocol is udp for udp and tcp for anything else |
| Lifecycle.ServedOnlyIfDistinct | pkg/provider/loadbalancer_targetgroups.go:177-185 | the port preconditions are necessary: all ports can be served only if their numbers and (protocol, node port) pairs differ |
| Lifecycle.ReconcileIsAttempt | pkg/provider/loadbalancer.go:488-539 | every reconcile of any service, whatever became of it, is an attempt of the crash-and-retry history, a planned one where plans are followed |
| Lifecycle.FirstReconcile | pkg/provider/loadbalancer.go:119-132 | four allowed calls bring a service with one port up in an empty cloud, so converged clouds are reachable |
| Plan.EveryRunIsHarmless | pkg/provider/metadata.go:12-27 | every prefix of any run for any service, in any cloud in which nothing dangles, leaves no listener dangling and everyone else's objects unchanged |
| Plan.EveryRunKeepsOne | pkg/provider/loadbalancer.go:114-128 | no run makes a second load balancer or security group for its service |
| Plan.PrefixesSafe | pkg/provider/loadbalancer_targetgroups.go:136-152 | every prefix of a planned run's or a delete's calls keeps the cloud well-formed and others' objects unchanged |
| Plan.CallKeepsInv | pkg/provider/loadbalancer_listeners.go:51-112 | one allowed call of an ensure or delete run keeps referential integrity, unique ports and keys, one load balancer and security group, and the frame |
| Plan.MakeBeforeBreak | pkg/provider/loadbalancer.go:508-519 | at every prefix lasting ports keep their listeners' identity, and any touched listener points to a group with this run's servers |
| Plan.SettledCallIsNoOp | pkg/provider/loadbalancer_targetgroups.go:190-261 | in a settled cloud every allowed call is an update that changes nothing |
| Plan.Idempotence | pkg/provider/loadbalancer_targetgroups.go:190-261 | a run on a settled cloud changes nothing and issues no create and no delete |
| Plan.HistorySafe | pkg/provider/loadbalancer.go:100-265 | any history of interrupted planned ensure and delete runs keeps the cloud well-formed and others' objects unchanged |
| Plan.EveryHistoryIsHarmless | pkg/provider/loadbalancer.go:100-265 | any history of interrupted runs for one service, planned or not, leaves nothing dangling and others' objects unchanged |
| Plan.AtMostOneLbCreated | pkg/provider/loadbalancer.go:114-128 | any history of interrupted ensure runs creates at most one load balancer |
| Plan.CrashAndRetry | pkg/provider/loadbalancer.go:488-539 | the crash-and-retry theorem about plans |
| Plan.EnsureThenDelete | pkg/provider/loadbalancer.go:199-265 | from a cloud without objects of the service, after any history of runs, a delete with no failing call restores the cloud if and only if it finds a load balancer or owns nothing |
| Plan.CutOffBeforeLbLeaks | pkg/provider/loadbalancer.go:206 | a first ensure cut off between security group and load balancer leaves a cloud in which a delete finds no load balancer and leaves the group |
| Isolation.OthersUndisturbed | pkg/provider/metadata.go:12-27 | any run for one service, well-formed or not, however far it gets, keeps another service's objects unique if they were and its cloud as wanted if it was |
| Isolation.RunKeepsCloudSafe | pkg/provider/metadata.go:12-27 | any run for one of many services keeps the cloud safe for all: nothing dangles, listeners forward to their own service's groups, no load balancer is shared |
| Isolation.DifferentUidsUnlike | pkg/provider/metadata.go:12-27 | no labels pass the filters of two services with different UIDs, whatever the additional labels |
| Isolation.PlanStaysClear | pkg/provider/loadbalancer.go:289-308 | the load balancer one service creates is not taken for another's, by labels or by name |
| Worker.ResyncWorker.ProcessServiceResync | pkg/provider/loadbalancer.go:632-673 | what it does are the moves of one sync of the whole controller: a read that ends it, or read, filter, the calls made one by one, and the end; success for a well-formed service leaves it in line with the ready nodes its slices admit; only a failed update is queued again; a key is dropped only on a failed read or if it names no load balancer service; other services in line stay so |
| Worker.ResyncWorker.InLineMeans | pkg/provider/loadbalancer.go:632-698 | being in line, for a well-formed service, means: of the nodes those with a true Ready condition, and of these for a Local service those that host an endpoint of its slices if any does, are attached to the groups of a cloud that is in order for it, field by field |
| Worker.ResyncWorker.ProcessServiceQueue | pkg/provider/loadbalancer.go:614-629 | draining is a run of the whole controller that processes each queued key once, leaves failed ones backing off, and every well-formed service updated in the drain is still in line at its end |
| Worker.ResyncWorker.EnqueueLocalTrafficPolicyLoadBalancers | pkg/provider/loadbalancer.go:716-734 | the scan is a move of the whole controller and queues exactly the keys of the services of type LoadBalancer with Local policy |
| Cluster.RunKeepsGood | pkg/provider/loadbalancer.go:608-673 | on every run of the whole controller, whose syncs and deletions for different services interleave call by call, at every moment: the cloud is safe for all services, nothing of a well-formed service's is there twice, and the cloud is still as wanted by the last successful sync of every such service, for the version and the nodes of that sync, unless another is under way |
| Cluster.MoveKeepsGood | pkg/provider/loadbalancer.go:632-673 | every move, be it one call of a sync or a deletion, or its failing end, keeps that |
| Cluster.ReconcileIsSync | pkg/provider/loadbalancer.go:100-197 | the calls an ensure or update made are those of a sync, and its success is the sync's |
| Cluster.DeleteIsDeletion | pkg/provider/loadbalancer.go:199-265 | the calls a delete made are those of a deletion |
| Cluster.MakeIsAllowed | pkg/provider/loadbalancer.go:488-539 | a call that a run may make next were it alone, it may make amid the calls of all other services' runs, with the same effect for its owner |
| Cluster.SyncConverges | pkg/provider/loadbalancer.go:178-197 | a planned sync that succeeds leaves the cloud as wanted, whatever calls of others were made between its own |
| Views.ViewPermits | pkg/provider/metadata.go:12-27 | whether a planned, deleting or other run may make a call depends only on what its owner sees and on identities being new |
| Views.ViewDecidesSettled | pkg/provider/metadata.go:12-27 | whether the cloud is as a plan wants it depends only on what its owner sees |
| Views.OwnCallKeepsView | pkg/provider/metadata.go:12-27 | one call has the same effect on what its owner sees wherever it sees the same |
| Isolation.RunKeepsView | pkg/provider/metadata.go:12-27 | any run for one service leaves all that another sees as it was, the users of its target groups included |
| Isolation.SameListings | pkg/provider/loadbalancer.go:267-320 | every listing that a reconcile or delete goes by shows the same wherever its service sees the same |
| Cluster.QuiescentAttachments | pkg/provider/loadbalancer.go:632-673 | on every undisturbed run, with nothing assumed of the cloud or of the order of calls: when nothing is left to do for a synced Local service, the cloud is in order for the version and nodes of its last sync, and its groups have attached exactly those of the nodes that the current slices admit |
| Cluster.ScanAndDrainAttach | pkg/provider/loadbalancer.go:716-758 | from any state of watcher and queue, whatever was applied before and is under way, one scan and a drain leave the cloud in order for the current version of every well-formed Local service, with the nodes the current slices admit attached |
| Cluster.StrangersUntouched | pkg/provider/metadata.go:12-27 | on every run of the whole controller objects that belong to no service stay exactly as they are |
| Cluster.SyncIsRun | pkg/provider/loadbalancer.go:632-673 | a sync or deletion of any service is, as if alone, a run for it; for a well-formed service it keeps its objects unique |
| Cluster.OtherStaysConverged | pkg/provider/loadbalancer.go:632-673 | a run for one service leaves the cloud as wanted for another for which it was |
| Cluster.FirstSync | pkg/provider/loadbalancer.go:119-132 | nine moves, four of them calls, take a Local service from nothing to rest, so the states the theorems speak of are reached |
| TargetGroups.CreateOrUpdateTargetGroups | pkg/provider/loadbalancer_targetgroups.go:156-266 | success changes groups only, makes every group of the service with a wanted key as planned with all servers attached, and hands on one for every port |
| TargetGroups.CleanupUnusedTargetGroups | pkg/provider/loadbalancer_targetgroups.go:120-154 | success removes exactly the service's groups in the VPC without listeners and without a key to keep |
| TargetGroups.UpgradeTargetGroupAttachments | pkg/provider/loadbalancer_targetgroups.go:268-298 | sets the attachments to the nodes' machine identities in order |
| TargetGroups.CreateMissing | pkg/provider/loadbalancer_targetgroups.go:190-219 | after the loop exactly the missing keys have new groups, created empty and then attached, and nothing else changed |
| TargetGroups.UpdateExisting | pkg/provider/loadbalancer_targetgroups.go:222-261 | after the loop every listed group with a wanted key is as planned and handed on |
| TargetGroups.KeyMapLookup | pkg/provider/loadbalancer_targetgroups.go:136-146 | the map by "protocol:port" finds a group exactly when one has that protocol and port |
| TargetGroups.KeyMapFaithfulExactly | pkg/provider/loadbalancer_targetgroups.go:177-185 | the map gives every group back exactly when the (protocol, port) pairs are distinct |
| TargetGroups.NoNodePortsOneGroup | pkg/provider/loadbalancer_targetgroups.go:182-185 | two TCP ports without node ports share one map entry and one is lost |
| TargetGroups.ListedExactly | pkg/provider/loadbalancer_targetgroups.go:161-192 | a key is in the map of listed groups exactly when the service has such a group in the VPC |
| Listeners.UpdateVpcLoadbalancerListener | pkg/provider/loadbalancer_listeners.go:33-114 | success changes listeners only and leaves exactly the wanted ports, each as planned and forwarding to its own port's ready group |
| Listeners.UpdateOrDelete | pkg/provider/loadbalancer_listeners.go:53-85 | a listed listener with an unwanted port is deleted, one with a wanted port updated and pointed to that port's group |
| Listeners.CreateIfMissing | pkg/provider/loadbalancer_listeners.go:89-111 | a wanted listener is created exactly when its port was not listed |
| Listeners.GetTargetGroupIdentityForListener | pkg/provider/loadbalancer_listeners.go:16-31 | the group it gives matches the listener's labels and no group before it does; there is none exactly when no group matches |
| Listeners.ListenerGetsItsGroup | pkg/provider/loadbalancer_listeners.go:16-31 | for every well-formed port list the search by labels gives the ready group of the listener's own port |
| Listeners.EqualOnlyIfEmpty | pkg/provider/loadbalancer_listeners.go:51 | the DeepEqual shortcut is taken only when no listener is wanted and none exists |
| Listeners.PortMapLookup | pkg/provider/loadbalancer_listeners.go:41-49 | the map by port finds a listener exactly when one has that port |
| Listeners.PortMapFaithfulExactly | pkg/provider/loadbalancer_listeners.go:41-49 | the map keeps every listener of a service exactly when its port numbers are distinct |
| Listeners.TcpAndUdpOnOnePort | pkg/provider/loadbalancer_listeners.go:41-44 | a TCP and a UDP port of one number leave one map entry |
| LoadBalancers.FetchVpcLoadbalancerFromCloud | pkg/provider/loadbalancer.go:267-311 | finds one exactly when there is one, by labels if any has them, else by name |
| LoadBalancers.FindManagedSecurityGroup | pkg/provider/loadbalancer.go:847-867 | finds one of the service's exactly when there is one |
| LoadBalancers.EnsureManagedSecurityGroup | pkg/provider/loadbalancer.go:775-844 | success leaves the service's security group with the service's labels, one ingress rule for each port and each source that an annotation lists for it, and open egress; an existing one keeps its name and description, a new one has its name cut to 16 characters; every other group is as it was, and no other kind of call is made |
| LoadBalancers.VerifySecurityGroupsExist | pkg/provider/loadbalancer.go:407-439 | says yes exactly when all listed groups are in the VPC, unless the listing fails |
| LoadBalancers.CreateVpcLoadbalancer | pkg/provider/loadbalancer.go:329-404 | the new load balancer, and any that was created although the answer got lost, is internal exactly if the annotation says so, has the service's name, labels and reserved address, is in a subnet that answers the request or else the first, and has the security groups of the annotation in order and then the managed one; it fails only if a call fails or a security group or the subnet does not exist |
| LoadBalancers.ChosenSubnet | pkg/provider/loadbalancer.go:340-357 | the subnet is the first with the requested identity or slug, or the first of all if none is requested; none is found exactly when there is none |
| LoadBalancers.CreatedThenUpdated | pkg/provider/loadbalancer.go:575-585 | a load balancer created in the chosen subnet and then updated is in a subnet of the VPC exactly when none was requested or one by its identity |
| LoadBalancers.UpdateVpcLoadbalancer | pkg/provider/loadbalancer.go:541-605 | success leaves the load balancer in the requested subnet or else where it was, under the service's reserved address and with the annotation's security groups and then the managed one, its other fields unchanged, and the managed security group as the service asks for it, whether or not an update was sent |
| Cloud.MatchLabels | pkg/provider/loadbalancer.go:313-320 | true exactly when every expected label is matched, a missing one reading as empty |
| Metadata.GetLabelsForVpcLoadbalancer | pkg/provider/metadata.go:12-27 | the labels say cluster, namespace, name and UID of the service; additional labels of other keys are as configured, and there are no others |
| Metadata.GetLabelsForVpcLoadbalancerTargetGroup | pkg/provider/metadata.go:34-46 | the same, and the labels name the port and protocol except where an additional label has that key |
| Metadata.OtherUidIsForeign | pkg/provider/metadata.go:12-27 | an object labelled with another UID is taken by neither filter, whatever the additional labels |
| Metadata.MatchesVersusCarries | pkg/provider/loadbalancer.go:313-320 | matchLabels and the API filter differ exactly on empty labels missing from the object |
| Metadata.PortsConfusedExactly | pkg/provider/metadata.go:34-46 | labels of two ports match exactly when port and protocol are each the same or masked by an additional label |
| Desired.DesiredVpcLoadbalancerListener | pkg/provider/loadbalancer_listeners.go:116-155 | despite appends onto one shared slice, each port's listener has, field by field, the port's name, number, protocol and labels and the service's timeout and connection limit, and a source is allowed if and only if it is an entry that counts, trimmed, of the global, by-name or by-number annotation for the port, in this order and without duplicates |
| Desired.CollectSources | pkg/provider/loadbalancer_listeners.go:118-138 | after all rounds each port's slice shows exactly the sources that stand in the global, by-name or by-number annotation for the port, in order of first occurrence and without duplicates, in memory the global slice does not share |
| Desired.GetDesiredVpcLoadbalancerTargetGroups | pkg/provider/loadbalancer_targetgroups.go:24-118 | an error exactly for an unknown policy, else one group per port with its node port, protocol, name and labels and the service's policy and proxy protocol; with a positive health check node port there is a check over http, on the annotated port if that is positive and otherwise on the node port; without one there is a check if and only if checks are enabled and a port other than -1 is given, on that port and protocol; path, timings and thresholds are the annotations' |
| Desired.NewSgIsAsked | pkg/provider/loadbalancer.go:785-837 | the planned security group has one rule for each port and each source that stands in an annotation for it, without duplicates if the ports are distinct, in the source's address family, and open egress |
| Desired.ChosenIsAsked | pkg/provider/loadbalancer.go:340-357 | the chosen subnet answers the annotation's request, or without one the configuration's, or without either is the first |
| Desired.AttachTargets | pkg/provider/loadbalancer_targetgroups.go:271-287 | in order, for exactly the nodes whose provider ID is cut in two by the one "://" in it, what follows it |
| Desired.AttachmentsOfOwnNodes | pkg/provider/loadbalancer_targetgroups.go:271-287 | nodes registered by this provider are attached by exactly their machine identities |
| Desired.PlanSoundExactly | pkg/provider/loadbalancer_targetgroups.go:177-185 | a service's plan is sound exactly when its ports and its (protocol, node port) pairs are distinct |
| Desired.MatchingExactly | pkg/provider/loadbalancer_listeners.go:16-31 | with distinct port numbers, listener-to-group matching is exact if and only if the port label is not an additional label, or there is at most one port, or no two ports share a protocol and the protocol label is not an additional label |
| Desired.VersionsShareOwner | pkg/provider/metadata.go:12-27 | all versions of a service own the same cloud objects |
| Acl.Append | pkg/provider/loadbalancer_listeners.go:138 | Go's append: it may write into a shared array behind the slice, never into what the slice shows |
| Acl.RemoveDuplicateStrings | pkg/provider/loadbalancer_listeners.go:208-220 | the order-preserving de-duplication, in fresh memory |
| Acl.DedupKeepsOrder | pkg/provider/loadbalancer_listeners.go:208-220 | entries come in the order of their first occurrence |
| Acl.DedupNoDuplicates | pkg/provider/loadbalancer_listeners.go:208-220 | no entry comes twice |
| Acl.DedupAbsorbs | pkg/provider/loadbalancer_listeners.go:138 | de-duplicating the appended part first changes nothing |
| Acl.CombineForPort | pkg/provider/loadbalancer_listeners.go:132-138 | one round gives its port exactly the sources that count of the three annotations, global before by-name before by-number and without duplicates, and leaves what the global slice shows unchanged |
| Acl.CombinedIsAsked | pkg/provider/loadbalancer_listeners.go:132-138 | a source is among the combined ones if and only if it stands in the global, by-name or by-number annotation; sources come in the order in which they first stand there, and none twice |
| Acl.TrimSpaceCuts | pkg/provider/loadbalancer_listeners.go:191 | trimming cuts blanks off both ends and leaves none there |
| Acl.GetPerPortAclAllowedSources | pkg/provider/loadbalancer_listeners.go:158-183 | by-name then by-number sources, de-duplicated |
| Acl.ParseAclSources | pkg/provider/loadbalancer_listeners.go:186-205 | a text is kept if and only if it is what remains of an entry between commas, neither blank nor invalid, with the blanks around it cut off |
| Acl.KeptEntries | pkg/provider/loadbalancer_listeners.go:190-202 | what is kept are, in order, the trimmed texts of exactly those entries that are neither blank nor invalid |
| Acl.ParseJoin | pkg/provider/loadbalancer_listeners.go:186-205 | parsing the comma-join of clean sources gives them back |
| Acl.ParseJoinParse | pkg/provider/loadbalancer_listeners.go:186-205 | parse, join, parse is parse, for every text |
| Acl.KeepsNothingExactly | pkg/provider/loadbalancer_listeners.go:190-202 | parsing leaves nothing exactly when every entry is blank or invalid |
| Acl.OpenExactly | pkg/provider/loadbalancer_listeners.go:186-205 | for every notion of a valid CIDR, a port's list of sources is empty exactly when every entry of each annotation present for it is blank or invalid |
| Acl.TypoLeavesOpen | pkg/provider/loadbalancer_listeners.go:196-200 | a global annotation that lists a network without its prefix length leaves the listener open, where the network itself would close it |
| SecurityRules.BuildIngressRulesFromListeners | pkg/provider/loadbalancer.go:870-899 | a rule is built if and only if it admits one source of one listener to the listener's port, in the source's address family, for udp if the listener is and otherwise for tcp |
| SecurityRules.RulesAreSources | pkg/provider/loadbalancer.go:873-896 | there is a rule exactly for each source of each listener |
| SecurityRules.RulesMeanAclsExactly | pkg/provider/loadbalancer.go:870-899 | the rules admit what the ACLs admit if and only if every listener is tcp or udp and lists a source |
| SecurityRules.RulesHaveNoDuplicates | pkg/provider/loadbalancer.go:873-896 | distinct ports and de-duplicated sources give no rule twice |
| ProviderId.ParserUndoesPrinter | pkg/provider/instancesv2.go:176-187 | the parser undoes the printer exactly on the regular expression's alphabet |
| ProviderId.SplitAgreesWithParser | pkg/provider/loadbalancer_targetgroups.go:272-286 | on every accepted provider ID the split gives two parts and the same identity |
| ProviderId.AttachmentExactly | pkg/provider/loadbalancer_targetgroups.go:272-286 | the split reads an identity off a text if and only if the text holds the separator exactly once, and the identity is what follows it |
| ProviderId.ReadingsAgreeExactly | pkg/provider/loadbalancer_targetgroups.go:272-286 | both readings give the same identity exactly on printed forms |
| ProviderId.SplitAcceptsForeignProviders | pkg/provider/loadbalancer_targetgroups.go:277-286 | the split attaches other providers' nodes, which the parser rejects |
| GoText.GroupKeyInjective | pkg/provider/loadbalancer_targetgroups.go:136-146 | "protocol:port" keys stand for the pair injectively |
| GoText.ServiceKeyRoundTrip | pkg/provider/loadbalancer.go:632-640 | splitting a printed service key gives its halves back exactly when neither holds a slash |
| GoText.JoinSplit | pkg/provider/loadbalancer.go:634 | joining the parts of a key gives the key back |
| NodeFilter.NodeFilter.Filter | pkg/provider/nodefilter.go:19-70 | without Local policy all nodes are kept; also if no slice of the service's has an endpoint that is neither known not to be ready nor known to be terminating; otherwise exactly the nodes named by such an endpoint, in order |
| NodeFilter.DecisionMeans | pkg/provider/nodefilter.go:25-69 | the decision behind every reconcile lets through those nodes and no others |
| Kubernetes.FilterReadyNodes | pkg/provider/loadbalancer.go:675-698 | exactly the nodes that have a condition of type Ready with status True, in order |
| Watcher.HasNodeAssignmentChanged | pkg/provider/endpointslices.go:226-256 | comparing sizes and one inclusion decides equality of the ready node sets |
| Watcher.ChangedExactly | pkg/provider/endpointslices.go:211-256 | an update counts as a change if and only if some node has a ready endpoint in one of the two slices and not in the other |
| Watcher.ChangeDetectionRefinesFilter | pkg/provider/endpointslices.go:226-256 | an update found unchanged, of clear endpoints under one label, leaves Filter's list as it was for every node list and all other slices |
| Watcher.NeverMissedExactly | pkg/provider/endpointslices.go:231-242 | the watcher can miss an endpoint exactly when it has no Ready and is not terminating, or is ready and terminating |
| Watcher.EndpointSliceWatcher.HandleEndpointSliceAdd | pkg/provider/endpointslices.go:74-91 | queues the slice's service exactly if it is tracked |
| Watcher.EndpointSliceWatcher.HandleEndpointSliceUpdate | pkg/provider/endpointslices.go:94-125 | queues the slice's service exactly if it is tracked and some node has become ready or has stopped being so; nothing else is queued |
| Watcher.EndpointSliceWatcher.HandleEndpointSliceDelete | pkg/provider/endpointslices.go:128-145 | queues the slice's service if it is tracked; tombstones are dropped |
| Watcher.EndpointSliceWatcher.HandleServiceAdd | pkg/provider/endpointslices.go:148-161 | tracks a Local service without queueing it |
| Watcher.EndpointSliceWatcher.HandleServiceUpdate | pkg/provider/endpointslices.go:164-195 | a change of policy queues the service and starts or ends its being tracked; any other update does neither |
| Watcher.EndpointSliceWatcher.HandleServiceDelete | pkg/provider/endpointslices.go:198-208 | stops tracking the service; tombstones are dropped |
| Resync.TrackedSetIsLocalKeys | pkg/provider/endpointslices.go:148-208 | over every legal event history the tracked set is the keys of the Local services, and with tombstones still a superset |
| Resync.QuiescentAgreement | pkg/provider/loadbalancer.go:608-673 | at every moment of an undisturbed run each synced Local service has an event under way, is queued, being synced or to be tried again, or was last updated for this service with the current slices' decision |
| Resync.QuiescentTracking | pkg/provider/endpointslices.go:148-208 | with every event delivered the tracked set is exactly the Local services |
| Resync.StepKeepsInv | pkg/provider/endpointslices.go:74-208 | every undisturbed step keeps the invariant behind the agreement |
| Resync.ScanAndDrainStabilise | pkg/provider/loadbalancer.go:716-758 | from any state at all, one scan and a drain leave every Local load balancer service last updated for its current version with the current slices' decision |
| Resync.FailedReadExactly | pkg/provider/loadbalancer.go:642-647 | over every run with failing reads, a synced Local service agrees at a moment if and only if no read has failed for it with nothing owed since, or its last update was current when that read failed |
| Resync.AgreesUnlessLost | pkg/provider/loadbalancer.go:642-661 | at every moment every synced service agrees unless a failing read has lost it |
| Resync.FailedReadLosesResync | pkg/provider/loadbalancer.go:642-661 | a concrete run in which one failed read leaves a load balancer stale with nothing queued |

## Left out

- Controller.EnsureLoadBalancerDeleted: that a security group is left after a failed deletion is allowed, because the code does not report the failure.
- Controller.UpdateVpcLoadbalancerListenersAndTargetGroups: the branch for a nil load balancer, which no caller takes; which listeners a service with equal port numbers ends up with is not stated beyond the map lemmas.
- Plan.EnsureThenDelete: speaks of deletes in which no call fails; Plan.TornDownRestores says what a delete with an unreported failure restores.
- Plan.AtMostOneLbCreated: counts over planned ensure runs; a delete in between makes room for another load balancer.
- Resync.QuiescentAgreement: assumes that reads succeed (Resync.FailedReadExactly does not), that deletes do not arrive as tombstones, that slices keep their service-name label, and that endpoints are clear.
- Resync.ScanAndDrainStabilise: says where a drain ends, not that it ends; there is no real time.
- Cluster.MoveKeepsGood: that a sync makes the calls it would make alone rests on Isolation.SameListings and on the methods being proved for uninterrupted runs; they are not run against a cloud that changes under them.
- Worker.ResyncWorker.ProcessServiceQueue: events that queue keys while the loop runs are moves of Cluster, not of the loop, and no key is taken that the service controller is syncing.
- The service controller itself: its syncs, retries and deletions are steps of Resync, with its cache of services taken to be current; a service that is deleted and created again arrives as two events, and one under deletion counts as gone.
- NodeFilter.NodeFilter.Filter: node sets are Dafny sets and the order of map iteration is not modelled.
- GoText.Lower: lower-cases ASCII only.
- Text is sequences of characters, not UTF-8 bytes; security group names are cut by characters.
- Status reporting (`GetLoadBalancer`, ingress lists), annotation getters, `net.ParseCIDR`, `DefaultLoadBalancerName` and the poll intervals: parameters of the model.
- DeleteProtection and object versions of cloud records, which are passed through.
- Instance existence, shutdown and metadata, machine lookup, configuration, the HTTP client and start-up.
- Two runs for the same service at once: the code takes no lock, and the model assumes they are serialised.
