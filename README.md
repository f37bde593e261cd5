# A verified model of the serverscom api-gateway-controller reconcile core

The api-gateway-controller watches Kubernetes Gateway API objects (Gateway,
HTTPRoute, Service, Secret). It keeps one servers.com L7 load balancer, plus
its custom TLS certificates, in step with each Gateway its controller owns.
This Dafny project models the controller's decision logic and proves
properties of it:

- **Matching primitives** (`Matching`): wildcard host matching, the listener
  namespace policy, route-to-Gateway attachment, HTTPS listener validation and
  error joining.
- **Topology build** (`Topology`, `TopologyBuild`, `TopologyProperties`):
  `buildGatewayInfo` turns the listeners, the attached HTTPRoutes, their
  Services and the node addresses into a hostname → vhost map. Each vhost has
  an SSL flag, ports and paths. The Go loops are methods whose postconditions
  tie them to recursive specification functions. The properties of those
  functions are lemmas.
- **TLS resolution** (`TlsResolver`): `buildTLSInfo` collects every listener
  problem before failing, and aborts at once on a Secret read failure.
- **Reconcile** (`Reconciler`, `ReconcileProperties`): one pass of
  `Reconcile`, in order:
  - deletion cleanup;
  - the ownership check;
  - the finalizer;
  - validation;
  - TLS sync;
  - load-balancer sync;
  - status.

  The pass is a value, `ReconcileSpec`. It records every call it makes
  (metadata and status patches, events, `EnsureTLS`, `EnsureLB`, `DeleteLB`)
  and what it returns. `GatewayReconciler` is a class that performs the pass
  on a Gateway object whose finalizers and conditions it updates in place.
- **Event mappers** (`Mappers`): the HTTPRoute, Service and Secret watch
  handlers, which turn an event into the keys of the managed Gateways to
  reconcile.
- **Load-balancer translation and synchronisation** (`LbTranslate`,
  `LbManager`):
  - `translateGatewayToLBInput` builds vhost zones and upstream zones.
  - `getLoadBalancerName` builds the load balancer's name.
  - `EnsureLB` and `DeleteLB` run against a `Provider` class that holds the
    provider's load-balancer records.
- **TLS material and synchronisation** (`TlsMaterial`, `TlsManager`):
  - whitespace stripping and PEM block splitting, on the textual
    `-----BEGIN`/`-----END` boundaries of section 2 of RFC 7468;
  - fingerprinting and certificate validation;
  - the find/update/create cycle of `EnsureTLS` against a `CertStore` class
    that holds the provider's custom certificates.

Cluster reads come from an immutable snapshot, `Kube.Cluster`. It has one
failure flag for each list or read that can fail. The answers of the provider
and the API server are inputs: `Reconciler.Collaborators`, and the failure
fields of `Provider` and `CertStore`. PEM decoding, X.509 parsing and SHA-1
are left uninterpreted, as the arrow-typed fields of `TlsMaterial.Codec`.

## Model

Source paths are relative to the repository root.

| member | source | states |
|---|---|---|
| Kube.GetGateway | internal/gateway/controller/gateway.go:74-77 | the Gateway found has the requested namespace and name; none is found exactly when no Gateway of the snapshot has both |
| ProviderApi.IgnoreNotFound | internal/utils/utils.go:13-19 | the error vanishes exactly when it is the provider's NotFound; every other error is returned unchanged |
| ProviderApi.LabelMatches | internal/service/lb/manager.go:94-99 | a record labelled key=value is selected by the label selector "key=value" |
| Ownership.IsManagedGateway | internal/gateway/controller/gateway.go:190-207 | an error exactly when the class read fails (a missing class is not an error); true exactly when the class exists, its controller name is ours, and the class-name restriction is empty or equal |
| Matching.HostMatchesEmptyAndSelf | internal/gateway/controller/helpers.go:83-89 | an empty listener host matches every host, and every host matches itself |
| Matching.WildcardMatchesSubdomains | internal/gateway/controller/helpers.go:90-94 | "*."+s matches every host of the form p+"."+s |
| Matching.WildcardMatchesOnlySubdomains | internal/gateway/controller/helpers.go:90-94 | a host matched by "*."+s is longer than s, ends with s, and has a '.' just before it |
| Matching.WildcardExcludesApex | internal/gateway/controller/helpers.go:90-94 | "*."+s does not match the bare s |
| Matching.DistinctConcreteHostsDoNotMatch | internal/gateway/controller/helpers.go:83-94 | a non-empty, non-wildcard listener host matches no other host |
| Matching.NamespacePolicyAllSame | internal/gateway/controller/helpers.go:37-51 | "All" admits every namespace; "Same" and every unknown policy admit exactly the listener's own namespace |
| Matching.NamespacePolicySelector | internal/gateway/controller/helpers.go:43-49 | "Selector" admits exactly when every selector pair equals the namespace label, a missing label reading as ""; an empty selector, or one contained in the labels, always admits |
| Matching.AnyParentTargets | internal/gateway/controller/helpers.go:13-34 | the route is attached exactly when some parentRef has kind absent or "Gateway", group absent or the Gateway API group, the Gateway's name, and the Gateway's namespace (defaulting to the route's) |
| Matching.ValidateHTTPSListenerAccepts | internal/gateway/controller/helpers.go:55-69 | no error exactly when the listener is not HTTPS, or it has a non-empty hostname, a TLS block and mode Terminate |
| Matching.ValidateHTTPSListenerOrder | internal/gateway/controller/helpers.go:59-67 | for HTTPS the checks run in order: missing hostname, then missing TLS, then a mode other than Terminate, each with its own error |
| Matching.JoinErrorsAppend | internal/gateway/controller/helpers.go:72-80 | joining distributes over concatenation of the error lists |
| Matching.JoinErrorsAt | internal/gateway/controller/helpers.go:72-80 | error i contributes exactly the line "- "+msg+"\n", between the lines of the errors before and after it |
| Matching.JoinErrorsEmpty | internal/gateway/controller/helpers.go:72-80 | the joined text is empty exactly when there are no errors |
| Text.TrimSpaceFacts | internal/service/tls/helpers.go:126 | strings.TrimSpace yields a contiguous slice of its input whose first and last characters are not white space |
| Text.TrimSpaceOfTrimmed | internal/service/tls/helpers.go:126 | trimming a trimmed string changes nothing |
| Text.Split | internal/service/tls/helpers.go:90 | strings.Split yields at least one part, and no part contains the separator |
| Text.JoinSplit | internal/service/tls/helpers.go:125-131 | joining the parts of a split with the same separator gives back the input |
| Text.SplitJoin | internal/service/tls/helpers.go:116-119 | splitting a join of separator-free parts gives back the parts |
| Text.JoinNoTrailingSeparator | internal/service/tls/helpers.go:116-119 | a join of non-empty, separator-free parts does not end in the separator |
| Text.ToLower | internal/gateway/controller/gateway.go:158 | strings.ToLower keeps the length and lowers each character (ASCII) |
| Text.RemoveAll | internal/service/lb/helpers.go:89 | strings.Replace with "" and -1 removes every occurrence, keeps every other character, and never lengthens |
| Text.NatToString | internal/service/lb/helpers.go:29 | "%d" of a natural number is a non-empty string of decimal digits |
| Text.Atoi | internal/service/lb/helpers.go:70 | strconv.Atoi succeeds only within the int64 range, and fails on the empty string and on anything that is not a sign followed by decimal digits |
| Topology.FirstNodeIp | internal/gateway/controller/gateway.go:531-536 | a node contributes nothing exactly when it has no ExternalIP or InternalIP address, else the first such address |
| Topology.NodeIpList | internal/gateway/controller/gateway.go:529-537 | at most one IP per node, each the first ExternalIP/InternalIP address of some node |
| Topology.GetNodesIpList | internal/gateway/controller/gateway.go:523-539 | a list failure is returned as the error; otherwise the loop yields NodeIpList of the nodes |
| Topology.ToListenerInfo | internal/gateway/controller/gateway.go:264-288 | name, protocol and port are copied; a missing hostname is ""; the policy defaults to "Same"; a selector appears only for From=Selector with MatchLabels |
| Topology.PrepareListenerInfos | internal/gateway/controller/gateway.go:256-289 | the listener loop computes PrepareListeners, whose failure and content the PrepareListeners lemmas state |
| Topology.FirstInvalidHost | internal/gateway/controller/gateway.go:307-313 | no offender exactly when every hostname is non-empty without '*'; an offender is a listed invalid hostname |
| Topology.MatchedListenersMembers | internal/gateway/controller/gateway.go:332-345 | the matched listeners are exactly the listeners that pass the sectionName, namespace-policy and hostMatches filters |
| Topology.PortsFor | internal/gateway/controller/gateway.go:357-364 | the ports are exactly those of the matched listeners of the chosen protocol (HTTPS when SSL, else HTTP) |
| Topology.NewPortsMembers | internal/gateway/controller/gateway.go:374-382 | the ports appended are exactly the new ports not already present |
| Topology.MatchPathsMembers | internal/gateway/controller/gateway.go:435-448 | at most one path per match; the paths are exactly the values of matches with a path, a value, and type PathPrefix (the default) |
| Topology.FindNodePort | internal/gateway/controller/gateway.go:416-430 | "port not found" exactly when no service port has the wanted number; else the first such port decides: NodePort 0 is an error, otherwise its NodePort |
| Topology.PathInfos | internal/gateway/controller/gateway.go:450-457 | one PathInfo per path, in order, each with the Service, the NodePort and the node IPs |
| TopologyBuild.CollectSectionNames | internal/gateway/controller/gateway.go:315-320 | the loop collects the set of sectionNames the parentRefs carry |
| TopologyBuild.MatchListeners | internal/gateway/controller/gateway.go:332-345 | the loop yields MatchedListeners (see MatchedListenersMembers) |
| TopologyBuild.SslAndPorts | internal/gateway/controller/gateway.go:350-364 | SSL is whether some matched listener is HTTPS, and the ports are PortsFor of that choice |
| TopologyBuild.MergeVHostPorts | internal/gateway/controller/gateway.go:374-382 | the loop yields MergePorts (see MergePortsShape) |
| TopologyBuild.ResolveNodePort | internal/gateway/controller/gateway.go:416-427 | the early-exit scan yields FindNodePort |
| TopologyBuild.CollectPaths | internal/gateway/controller/gateway.go:431-449 | the loop yields "/" for a rule without matches, else the MatchPaths of its matches |
| TopologyBuild.ResolveRule | internal/gateway/controller/gateway.go:389-457 | the rule step equals RulePaths: skipped without backends, errors for a group, a missing Service and the port cases, else the PathInfos |
| TopologyBuild.ProcessHostname | internal/gateway/controller/gateway.go:326-458 | the hostname step equals HostStep: claim check, claim, listener match, vhost create or merge, and paths |
| TopologyBuild.AppendRulesPaths | internal/gateway/controller/gateway.go:389-458 | the rules loop appends RulesPaths to the vhost's paths, or stops at the first rule error |
| TopologyBuild.ProcessRoute | internal/gateway/controller/gateway.go:299-459 | the route step equals RouteStep: skip if unattached, hostname checks, namespace labels, then every hostname |
| TopologyBuild.BuildGatewayInfo | internal/gateway/controller/gateway.go:248-468 | the method computes BuildSpec, whose properties the TopologyProperties lemmas state |
| TopologyProperties.PrepareListenersFails | internal/gateway/controller/gateway.go:259-263 | the listener pass fails exactly when a listener name repeats, or repeats a name already seen |
| TopologyProperties.PrepareListenersMaps | internal/gateway/controller/gateway.go:264-288 | on success there is one ListenerInfo per listener, in order, each ToListenerInfo of it |
| TopologyProperties.PrepareListenersSpec | internal/gateway/controller/gateway.go:256-289 | both of the above together |
| TopologyProperties.BuildFailsOnDuplicateListener | internal/gateway/controller/gateway.go:250-262 | a repeated listener name fails the build, with the duplicate-listener error once the nodes were listed |
| TopologyProperties.PrepareListenersFailsWithDuplicate | internal/gateway/controller/gateway.go:260-262 | the only error of the listener pass is the duplicate-listener error |
| TopologyProperties.RoutesFoldFailsOnRejected | internal/gateway/controller/gateway.go:299-325 | an attached route with no hostnames, an empty hostname or one containing '*', or a namespace whose labels cannot be read fails the route loop wherever it stands |
| TopologyProperties.BuildFailsOnRejectedRoute | internal/gateway/controller/gateway.go:299-325 | such a route anywhere in the cluster fails the whole build |
| TopologyProperties.AttachedOnly | internal/gateway/controller/gateway.go:300-302 | the attached routes are exactly the routes that pass isRouteAttachedToGateway |
| TopologyProperties.RoutesFoldIgnoresUnattached | internal/gateway/controller/gateway.go:299-302 | the route loop gives the same outcome over only the attached routes: unattached routes contribute nothing |
| TopologyProperties.UnservedHostnameOnlyClaims | internal/gateway/controller/gateway.go:326-348 | a hostname with no candidate listener is only claimed (the claim comes before matching), with no vhost change and no error |
| TopologyProperties.NoCandidateNoMatch | internal/gateway/controller/gateway.go:332-347 | without a candidate listener nothing is matched |
| TopologyProperties.ClaimConflictByName | internal/gateway/controller/gateway.go:327-329 | a claimed hostname fails with a domain conflict exactly when the claiming route's Name differs |
| TopologyProperties.RulesPathsErrors | internal/gateway/controller/gateway.go:389-457 | the rule pass never reports a domain conflict |
| TopologyProperties.NewVHostShape | internal/gateway/controller/gateway.go:349-372 | a new vhost has SSL exactly when some candidate listener is HTTPS, ports exactly those of the candidates of the chosen protocol, and the route's rule paths |
| TopologyProperties.HasHttpsMember | internal/gateway/controller/gateway.go:350-356 | the SSL scan is true exactly when some matched listener is HTTPS |
| TopologyProperties.MergePortsShape | internal/gateway/controller/gateway.go:374-382 | merging keeps the existing ports as a prefix, appends only absent ports, and yields the union |
| TopologyProperties.MergedVHostShape | internal/gateway/controller/gateway.go:365-457 | merging into an existing vhost keeps its host, turns SSL on but never off, preserves earlier ports and paths as prefixes, appends only new ports, and appends the route's paths |
| TopologyProperties.RulePathsResolved | internal/gateway/controller/gateway.go:397-430 | a resolved rule used the first backend: core group, an existing Service, the first port with the wanted number (explicit, else the first service port) and a non-zero NodePort |
| TopologyProperties.RuleUsesFirstBackendOnly | internal/gateway/controller/gateway.go:397 | backends after the first do not change a rule's outcome |
| TopologyProperties.RulesPathsCarry | internal/gateway/controller/gateway.go:450-457 | every path appended carries the node IP list and a non-zero NodePort |
| TopologyProperties.HostStepFacts | internal/gateway/controller/gateway.go:326-458 | a hostname step keeps the building invariant, keeps earlier claims, and claims the hostname for the route's Name |
| TopologyProperties.HostsFoldFacts | internal/gateway/controller/gateway.go:326-459 | after a route's hostnames, each is claimed by the route, earlier claims stay, and nothing else is claimed |
| TopologyProperties.RouteStepFacts | internal/gateway/controller/gateway.go:299-459 | a route step keeps the invariant; an attached route claims all its hostnames, an unattached route claims none |
| TopologyProperties.RoutesFoldFacts | internal/gateway/controller/gateway.go:299-460 | after the route loop, every hostname of every attached route is claimed by that route's Name, and only such hostnames are claimed |
| TopologyProperties.BuiltStateFacts | internal/gateway/controller/gateway.go:248-467 | a successful build carries the Gateway's uid, name and namespace with the final vhosts, and the claims of the route loop |
| TopologyProperties.BuiltVHosts | internal/gateway/controller/gateway.go:461-467 | in a built Gateway, each vhost is keyed by its host, which some attached route lists, and each path carries the node IPs and a non-zero NodePort |
| TopologyProperties.VHostsOfState | internal/gateway/controller/gateway.go:365-386 | the building invariant, with claims only by attached routes, gives those vhost properties |
| TopologyProperties.BuiltHostnamesUniquePerName | internal/gateway/controller/gateway.go:327-330 | in a successful build, two attached routes that list the same hostname have the same Name |
| TlsResolver.SecretRefName | internal/gateway/controller/gateway.go:495-502 | a non-empty name is that of a Secret-kind, core-group certificate reference; with no such reference the name is "" |
| TlsResolver.Outcomes | internal/gateway/controller/gateway.go:477-514 | one outcome per listener, in order, each the per-listener decision |
| TlsResolver.ResolveListener | internal/gateway/controller/gateway.go:477-514 | the loop body computes the per-listener outcome: skipped, problem, external id, Secret, or Secret read failure |
| TlsResolver.BuildTLSInfo | internal/gateway/controller/gateway.go:471-520 | the loop computes BuildTLSSpec, whose properties the lemmas below state |
| TlsResolver.TlsFoldFails | internal/gateway/controller/gateway.go:507-510 | the fold aborts exactly when some listener's Secret read fails, and then with that error |
| TlsResolver.TlsFoldErrs | internal/gateway/controller/gateway.go:481-506 | the collected errors are the listener problems, in listener order |
| TlsResolver.TlsFoldKeys | internal/gateway/controller/gateway.go:485-513 | every resolved listener's hostname is in the result, and every entry comes from a resolved listener |
| TlsResolver.ResolvedShape | internal/gateway/controller/gateway.go:477-513 | a resolved listener is HTTPS, has that hostname and a TLS block; a non-empty external id wins with no Secret; otherwise the entry carries the Secret named by the first Secret reference, read in the Gateway's namespace |
| TlsResolver.BuildTLSInfoSpec | internal/gateway/controller/gateway.go:507-519 | success exactly when no Secret read fails and no problem was collected; a read failure is reported as such; otherwise the joined validation errors |
| TlsResolver.BuildTLSInfoKeys | internal/gateway/controller/gateway.go:477-519 | on success the hostnames are exactly those of the HTTPS listeners |
| TlsResolver.HttpsOutcome | internal/gateway/controller/gateway.go:477-513 | an HTTPS listener with neither a problem nor a read failure is resolved under its own hostname |
| Reconciler.FindCondition | internal/gateway/controller/gateway.go:106 | the condition found has the requested type and is present; none is found only when no condition has that type |
| Reconciler.SetCondition | internal/gateway/controller/gateway.go:557-566 | an upsert by type: a condition of a new type is appended, otherwise the length is kept; afterwards the type reads as the new condition and every other type reads as before |
| Reconciler.RemoveFinalizer | internal/gateway/controller/gateway.go:238-239 | the finalizer is gone, every other finalizer is kept, and the list never grows |
| Reconciler.GatewayReconciler.Cleanup | internal/gateway/controller/gateway.go:232-245 | DeleteLB by the Gateway label, then, only if that worked, the finalizer removal patch; the object's finalizers are updated and the first error returned |
| Reconciler.GatewayReconciler.SetGatewayStatusCondition | internal/gateway/controller/gateway.go:551-567 | the object's conditions get the upsert and one status patch is issued; the patch error is returned |
| Reconciler.GatewayReconciler.RecordEvent | internal/gateway/controller/gateway.go:125 | one event is recorded |
| Reconciler.GatewayReconciler.Program | internal/gateway/controller/gateway.go:165-186 | the Programmed=True write with the addresses, then the Synced event, as ProgramSpec |
| Reconciler.GatewayReconciler.NotProgrammed | internal/gateway/controller/gateway.go:143-163 | a Programmed=False write and its warning event, requeued after 10s, as NotProgrammedSpec |
| Reconciler.GatewayReconciler.SyncLb | internal/gateway/controller/gateway.go:149-186 | the calls from EnsureLB on, as LbSpec |
| Reconciler.GatewayReconciler.Sync | internal/gateway/controller/gateway.go:138-186 | the calls from Accepted=True on, as SyncSpec |
| Reconciler.GatewayReconciler.Validate | internal/gateway/controller/gateway.go:123-186 | the calls from buildTLSInfo on, as ValidateSpec |
| Reconciler.GatewayReconciler.ReleaseGateway | internal/gateway/controller/gateway.go:92-112 | the unmanaged branch, as UnmanagedSpec |
| Reconciler.GatewayReconciler.AddFinalizer | internal/gateway/controller/gateway.go:114-121 | the finalizer is appended and one metadata patch is issued |
| Reconciler.GatewayReconciler.FinalizeAndValidate | internal/gateway/controller/gateway.go:114-186 | a Gateway without the finalizer: finalizer patch, then validation, as ManagedSpec |
| Reconciler.GatewayReconciler.Manage | internal/gateway/controller/gateway.go:114-186 | the managed branch, as ManagedSpec |
| Reconciler.GatewayReconciler.Reconcile | internal/gateway/controller/gateway.go:73-187 | the calls made and the result returned are those of ReconcileSpec, whose properties the ReconcileProperties lemmas state |
| ReconcileProperties.SetConditionTwice | internal/gateway/controller/gateway.go:557-566 | writing a condition of one type keeps an earlier write of another type |
| ReconcileProperties.RemoveAbsentFinalizer | internal/gateway/controller/gateway.go:238-239 | removing an absent finalizer changes nothing |
| ReconcileProperties.AddThenRemoveFinalizer | internal/gateway/controller/gateway.go:117 | adding then removing the finalizer restores the original list |
| ReconcileProperties.RemoveFinalizerAppend | internal/gateway/controller/gateway.go:239 | removal ignores a trailing copy of the finalizer |
| ReconcileProperties.NotProgrammedFacts | internal/gateway/controller/gateway.go:143-163 | a status patch with Programmed=False (reason, message, generation) and other conditions kept, then a warning event, then requeue after 10s |
| ReconcileProperties.ProgramFacts | internal/gateway/controller/gateway.go:165-186 | Programmed=True with the load balancer's addresses in order, other conditions kept; the Synced event exactly when the patch worked; the patch error is returned with no requeue |
| ReconcileProperties.LbFacts | internal/gateway/controller/gateway.go:149-163 | EnsureLB first; requeue after 10s exactly on an LB error or a lower-cased status other than "active", with no error returned |
| ReconcileProperties.LbCalls | internal/gateway/controller/gateway.go:149-186 | from EnsureLB on, no DeleteLB, no metadata patch and no EnsureTLS |
| ReconcileProperties.SyncTlsFailedFacts | internal/gateway/controller/gateway.go:139-147 | Accepted=True, then EnsureTLS; its failure skips EnsureLB and requeues after 10s |
| ReconcileProperties.SyncTlsOkShape | internal/gateway/controller/gateway.go:139-150 | Accepted=True, EnsureTLS, then EnsureLB with the certificate ids EnsureTLS returned |
| ReconcileProperties.SyncTlsOkCalls | internal/gateway/controller/gateway.go:141-156 | after a TLS success EnsureLB is called, and no DeleteLB or metadata patch |
| ReconcileProperties.SyncTlsOkRequeue | internal/gateway/controller/gateway.go:149-186 | after a TLS success the pass requeues after 10s exactly when the LB fails or is not active |
| ReconcileProperties.SyncFacts | internal/gateway/controller/gateway.go:138-186 | the sync pass in one statement: order, EnsureLB exactly after a TLS success, and requeue after 10s exactly on trouble |
| ReconcileProperties.ValidateFailedFacts | internal/gateway/controller/gateway.go:123-136 | a TLS or topology failure records an event, then writes Accepted=False with the event's message and reason InvalidTLS (checked first) or InvalidGateway; no provider call, no metadata patch, no requeue |
| ReconcileProperties.ValidateFacts | internal/gateway/controller/gateway.go:123-139 | validation never patches metadata or deletes, and with both builds successful proceeds to the sync pass |
| ReconcileProperties.SyncProgrammed | internal/gateway/controller/gateway.go:158-186 | with TLS and LB synced and the LB active, the fourth call writes Programmed=True with the addresses and keeps Accepted=True; the patch error is returned with no requeue |
| ReconcileProperties.FetchFailureOrMissing | internal/gateway/controller/gateway.go:74-77 | a Get error is returned, and a missing Gateway ends the pass quietly; either way no call is made |
| ReconcileProperties.DeletionRunsCleanupOnly | internal/gateway/controller/gateway.go:80-85 | a Gateway being deleted with the finalizer: DeleteLB, then, if it worked, the finalizer removal; nothing else, no requeue |
| ReconcileProperties.UnmanagedFacts | internal/gateway/controller/gateway.go:92-112 | the unmanaged branch: DeleteLB first, never EnsureTLS or EnsureLB, no requeue; when cleanup works, the finalizer removal and then Programmed=False with NoLongerManaged and the controller name, returning the status patch error |
| ReconcileProperties.UnmanagedIsReleased | internal/gateway/controller/gateway.go:87-112 | a Gateway the ownership check rejects goes through that branch |
| ReconcileProperties.ManagedPass | internal/gateway/controller/gateway.go:114-136 | a managed Gateway with the finalizer goes straight to validation; without it the finalizer patch comes first, and a patch error ends the pass |
| ReconcileProperties.ValidationPass | internal/gateway/controller/gateway.go:114-136 | past the finalizer step the pass is the optional finalizer patch followed by validation |
| ReconcileProperties.FinalizerBeforeTls | internal/gateway/controller/gateway.go:114-123 | the finalizer is added before any TLS work and only once |
| ReconcileProperties.NoFinalizerPatchWhenPresent | internal/gateway/controller/gateway.go:115 | a Gateway that has the finalizer is never patched for it |
| ReconcileProperties.InvalidGatewayStopsBeforeProviders | internal/gateway/controller/gateway.go:123-136 | an invalid Gateway ends with Accepted=False (InvalidTLS or InvalidGateway), no provider call and no requeue |
| ReconcileProperties.SyncStage | internal/gateway/controller/gateway.go:138-186 | with both builds successful the pass is the optional finalizer patch followed by the sync pass |
| ReconcileProperties.SyncOrder | internal/gateway/controller/gateway.go:138-142 | Accepted=True is written right before EnsureTLS, which gets the TLS info |
| ReconcileProperties.SyncLbOrder | internal/gateway/controller/gateway.go:141-150 | EnsureLB is called exactly when EnsureTLS succeeded, right after it, with the built topology and the returned ids; no DeleteLB |
| ReconcileProperties.ValidatedRequeue | internal/gateway/controller/gateway.go:123-186 | past the finalizer step, the pass requeues after 10s exactly when it reaches sync and TLS or LB is not ready, never with an error |
| ReconcileProperties.RequeueIff | internal/gateway/controller/gateway.go:73-187 | any pass requeues after 10s exactly when it reached sync and hit trouble; the delay is 0 or 10s |
| ReconcileProperties.NoSyncNoEnsureTls | internal/gateway/controller/gateway.go:73-136 | a pass that does not reach sync never calls EnsureTLS |
| ReconcileProperties.SyncIssuesEnsureTls | internal/gateway/controller/gateway.go:138-142 | a pass that reaches sync calls EnsureTLS |
| ReconcileProperties.EnsureTlsIff | internal/gateway/controller/gateway.go:73-142 | EnsureTLS is called exactly when the pass reaches sync |
| ReconcileProperties.ProgrammedOnActive | internal/gateway/controller/gateway.go:158-186 | an active LB ends the pass with Programmed=True, the addresses and Accepted=True, and the patch error (if any) with no requeue |
| Mappers.ParentKey | internal/gateway/controller/handlers.go:157-162 | a parent key always contains the "/" separator |
| Mappers.ParentKeys | internal/gateway/controller/handlers.go:148-165 | at most one key per parentRef; the keys are exactly ns+"/"+name of the refs whose kind is absent or Gateway and group absent or the Gateway API group, ns defaulting to the route's |
| Mappers.ParentKeysConcat | internal/gateway/controller/handlers.go:150-163 | the keys follow the parentRef order |
| Mappers.ParentKeysOne | internal/gateway/controller/handlers.go:150-163 | one parentRef gives its key when it names a Gateway, else nothing |
| Mappers.AttachedGatewayIsParent | internal/gateway/controller/handlers.go:148-165 | the key of a Gateway a route is attached to is among the route's parent keys |
| Mappers.SplitKeyOfJoin | internal/gateway/controller/handlers.go:22 | SplitMetaNamespaceKey inverts ns+"/"+name for separator-free parts |
| Mappers.JoinOfSplitKey | internal/gateway/controller/handlers.go:22 | a split key with a separator is namespace+"/"+name of its parts |
| Mappers.SplitKeyRejectsTwoSeparators | internal/gateway/controller/handlers.go:22-25 | a key with two separators is rejected |
| Mappers.AnyBackendRefers | internal/gateway/controller/handlers.go:170-186 | true exactly when some backendRef of the rule has a core group, the Service's name, and its namespace (defaulting to the route's) |
| Mappers.AnyRuleRefers | internal/gateway/controller/handlers.go:168-189 | true exactly when some backendRef of any rule, not only the first, refers to the Service |
| Mappers.AnyCertRefers | internal/gateway/controller/handlers.go:197-207 | true exactly when some certificateRef has the Secret's name and its namespace (defaulting to the Gateway's); kind and group are not checked |
| Mappers.AnyListenerRefers | internal/gateway/controller/handlers.go:192-211 | true exactly when some listener with a TLS block has such a certificateRef |
| Mappers.KeyRequest | internal/gateway/controller/handlers.go:22-44 | a key yields a request exactly when it splits and names an existing, managed Gateway, and then that Gateway's key |
| Mappers.FindGatewaysForHTTPRoute | internal/gateway/controller/handlers.go:16-52 | the loop yields RouteRequests of the parent keys |
| Mappers.RouteRequestsConcat | internal/gateway/controller/handlers.go:21-49 | requests follow the key order |
| Mappers.RouteRequestsMembers | internal/gateway/controller/handlers.go:21-49 | a Gateway is requested exactly when some parent key names it and qualifies |
| Mappers.RouteRequestsAllManaged | internal/gateway/controller/handlers.go:21-49 | when every key qualifies there is one request per key: duplicates are not removed |
| Mappers.FindGatewaysForService | internal/gateway/controller/handlers.go:55-110 | the loops yield ServiceRequests |
| Mappers.KeyStepFacts | internal/gateway/controller/handlers.go:73-105 | one key step keeps the processed-set invariant and adds exactly the Gateway the key qualifies for |
| Mappers.KeysFoldFacts | internal/gateway/controller/handlers.go:73-106 | a route's keys add exactly the Gateways they qualify for, with the invariant kept |
| Mappers.RoutesFoldFacts | internal/gateway/controller/handlers.go:67-107 | the route loop adds exactly the Gateways that some referencing route yields |
| Mappers.ServiceRequestsFacts | internal/gateway/controller/handlers.go:55-110 | no Gateway is requested twice, and a Gateway is requested exactly when the route list worked and some route referencing the Service has it as a qualifying parent |
| Mappers.ListInNamespace | internal/gateway/controller/handlers.go:117-121 | the list is exactly the Gateways of the Secret's namespace |
| Mappers.FindGatewaysForSecret | internal/gateway/controller/handlers.go:113-145 | the loop yields SecretRequests |
| Mappers.SecretScanMembers | internal/gateway/controller/handlers.go:123-142 | the scan yields exactly the managed Gateways that reference the Secret |
| Mappers.SecretRequestsFacts | internal/gateway/controller/handlers.go:113-145 | a Gateway is requested exactly when the list worked and it is in the Secret's namespace, references the Secret and is managed |
| LbTranslate.ToInt32 | internal/service/lb/helpers.go:40 | the int32 conversion wraps modulo 2^32 into the int32 range and keeps values already in it |
| LbTranslate.ZoneOf | internal/service/lb/helpers.go:34-47 | a path's upstream zone has the path's upstream id |
| LbTranslate.VHostZoneOf | internal/service/lb/helpers.go:52-59 | the vhost zone has domains [host], the vhost's SSL flag and its ports |
| LbTranslate.RegisterFacts | internal/service/lb/helpers.go:34-47 | the upstream ids are exactly the earlier ones and those of the paths; earlier zones are never replaced; each new zone is that of some path |
| LbTranslate.RegisterFirstWins | internal/service/lb/helpers.go:34-47 | the first path with an id defines that upstream zone |
| LbTranslate.LocationId | internal/service/lb/helpers.go:69-73 | the location id is the parsed SC_LOCATION_ID value, or 1 when it does not parse |
| LbTranslate.Cut | internal/service/lb/helpers.go:90-92 | the name is cut to its first 32 characters |
| LbTranslate.GetLoadBalancerName | internal/service/lb/helpers.go:87-94 | the name starts with "gw-", is 4 to 35 characters long, and has no '-' after the prefix |
| LbTranslate.GetLoadBalancerNameShort | internal/service/lb/helpers.go:87-94 | a short uid without dashes gives "gw-a"+uid |
| LbTranslate.GetLoadBalancerNameIgnoresDashes | internal/service/lb/helpers.go:89 | uids that differ only in dashes give the same name |
| LbTranslate.GetLoadBalancerNameTruncates | internal/service/lb/helpers.go:90-92 | uids that agree in their first 31 dash-free characters give the same name |
| LbTranslate.UpstreamsOf | internal/service/lb/helpers.go:35-42 | the loop yields one upstream per node IP, in order, with the NodePort and weight 1 |
| LbTranslate.RegisterPath | internal/service/lb/helpers.go:34-47 | a path's zone is registered only when its id is new |
| LbTranslate.VisitPaths | internal/service/lb/helpers.go:27-48 | the paths loop yields one location zone per path in order, and the registrations of all the paths |
| LbTranslate.TranslateHost | internal/service/lb/helpers.go:19-59 | a vhost's upstreams are always registered; it yields a zone only when it has ports and paths |
| LbTranslate.CollectUpstreams | internal/service/lb/helpers.go:62-65 | the upstream zones listed are exactly the map's, each once |
| LbTranslate.Translate | internal/service/lb/helpers.go:15-84 | the result is an admissible translation: with no vhost that has both ports and paths, the empty-zones error and no input; otherwise an input named by getLoadBalancerName, labelled with the Gateway uid, with the parsed location, every servable vhost's zone (distinct domains) and every path's upstream zone, and the Atoi error alongside exactly when the location does not parse |
| LbTranslate.UpstreamZonesOfMap | internal/service/lb/helpers.go:62-65 | the listed upstream zones have distinct ids, each is the zone of some path, and every path's upstream id has a zone |
| LbTranslate.EmptyZonesMeansNoServableHost | internal/service/lb/helpers.go:66-68 | zero vhost zones or zero upstream zones means no vhost has both ports and paths |
| LbTranslate.VHostZoneListed | internal/service/lb/helpers.go:49-59 | every vhost with ports and paths has its zone in the output |
| LbTranslate.TranslatedRoutesEveryPath | internal/service/lb/helpers.go:27-59 | a servable host's zone is "vhost-zone-"+host with one location per path, in order, each pointing at an upstream zone of the output |
| LbTranslate.TranslatedCertIds | internal/service/lb/helpers.go:20-26 | a zone's certificate id is the host's id when SSL and known, else "" |
| LbTranslate.TranslatedUpstreams | internal/service/lb/helpers.go:34-47 | each upstream member is a node IP of a path with that id, with the int32 NodePort and weight 1 |
| LbTranslate.TranslatedBadLocation | internal/service/lb/helpers.go:69-83 | an unparsable location gives location 1 and Atoi's error alongside the input |
| LbTranslate.OutOfRangeLocation | internal/service/lb/helpers.go:70-73 | a 20-digit location id is well-formed but fails to parse, so its error is the out-of-range one, not a syntax error |
| LbManager.Filter | internal/service/lb/manager.go:94-99 | the listing is exactly the records the label selector picks |
| LbManager.Created | internal/service/lb/manager.go:45 | a created record is an L7 load balancer carrying the input's labels |
| LbManager.Applied | internal/service/lb/manager.go:77 | an update keeps the id, type, labels and status, and takes the new name and zones |
| LbManager.UpdateOf | internal/service/lb/manager.go:64-75 | the update carries the input's name and zones, and SharedCluster=true when there is no cluster id |
| LbManager.EnsurePlan | internal/service/lb/manager.go:34-77 | list error: fail; zero records: create, unless translation failed; more than one: fail; one inactive: wait with its status; one active: update it, unless translation failed |
| LbManager.DeleteStepAsWrittenPanicsOnEmptyListing | internal/service/lb/manager.go:87-90 | DeleteLB as written reaches lbs[0] on an empty listing |
| LbManager.DeleteStepOf | internal/service/lb/manager.go:82-91 | NotFound is ignored, other list errors returned, more than one record is an error, exactly one is deleted, and an empty listing is a successful no-op |
| LbManager.DeleteStepAgrees | internal/service/lb/manager.go:82-91 | the corrected step agrees with the written one wherever the written one does not fail |
| LbManager.Provider.Listed | internal/service/lb/manager.go:94-99 | a list failure exactly when one is configured; otherwise the records the selector picks |
| LbManager.Provider.CreateL7 | internal/service/lb/manager.go:45 | on success a record built from the input, with the provider's next id, is appended and returned; a failure changes nothing |
| LbManager.Provider.UpdateL7 | internal/service/lb/manager.go:77 | the record with the id is replaced by its update; a failure or an unknown id changes nothing |
| LbManager.Provider.DeleteL7 | internal/service/lb/manager.go:90 | the records with the id are removed; a failure changes nothing |
| LbManager.CreatedSelectedOnlyByItsGateway | internal/service/lb/helpers.go:79-81 | a created load balancer is selected by its own Gateway's selector and no other |
| LbManager.TranslatedInputLabels | internal/service/lb/helpers.go:74-82 | a successful translation is labelled with the Gateway uid and named by getLoadBalancerName |
| LbManager.BadLocationNeverReachesProvider | internal/service/lb/manager.go:41-44 | with an unparsable location no create or update is planned |
| LbManager.Manager.EnsureLB | internal/service/lb/manager.go:33-78 | the provider changes exactly as EnsurePlan says (create, update, or nothing), the answer is the one the code returns, and at most one record per selector is kept |
| LbManager.Manager.DeleteLB | internal/service/lb/manager.go:82-91 | the provider changes exactly as DeleteStepOf says; after a delete no record is selected; at most one record per selector is kept |
| LbManager.CreateKeepsAtMostOne | internal/service/lb/manager.go:39-46 | creating only when the Gateway has no record keeps at most one record per selector |
| LbManager.UpdateKeepsAtMostOne | internal/service/lb/manager.go:58-77 | an update keeps at most one record per selector |
| LbManager.DeleteKeepsAtMostOne | internal/service/lb/manager.go:87-90 | a delete keeps at most one record per selector |
| LbManager.DeleteEmptiesListing | internal/service/lb/manager.go:90 | deleting the single selected record empties the selection |
| TlsMaterial.MarkersExclusive | internal/service/tls/helpers.go:91-108 | no line starts with both "-----BEGIN" and "-----END" |
| TlsMaterial.KeptLinesTrimmed | internal/service/tls/helpers.go:126-129 | the kept lines are non-empty and trimmed |
| TlsMaterial.StrippedLines | internal/service/tls/helpers.go:123-132 | the lines of the stripped text are exactly the trimmed non-empty input lines, in order |
| TlsMaterial.StrippedLinesTrimmed | internal/service/tls/helpers.go:123-132 | the stripped text has no empty line, and every line is trimmed |
| TlsMaterial.StrippedNoTrailingNewline | internal/service/tls/helpers.go:131 | the stripped text does not end in a newline |
| TlsMaterial.StripIdempotent | internal/service/tls/helpers.go:123-132 | stripping twice equals stripping once |
| TlsMaterial.StripSpaces | internal/service/tls/helpers.go:123-132 | the loop yields Stripped |
| TlsMaterial.FoldSkips | internal/service/tls/helpers.go:95-97 | lines before any BEGIN line are dropped |
| TlsMaterial.FoldInBlock | internal/service/tls/helpers.go:99-101 | inside the first block every line goes, trimmed, to the primary |
| TlsMaterial.FoldLaterBlocks | internal/service/tls/helpers.go:99-108 | after the first END line the primary is final, and only lines inside later blocks go to the chain |
| TlsMaterial.CertPartsNoBlock | internal/service/tls/helpers.go:111-113 | with no BEGIN line both parts are nil |
| TlsMaterial.FoldSplitsFirstBlock | internal/service/tls/helpers.go:90-109 | the primary is the first BEGIN line through the first END line, inclusive; the chain is the lines of the later blocks |
| TlsMaterial.FoldUnclosedBlock | internal/service/tls/helpers.go:90-109 | an unclosed first block runs to the end, and there is no chain |
| TlsMaterial.CertPartsFirstBlock | internal/service/tls/helpers.go:82-120 | the primary is the first block joined by "\n"; the chain is nil exactly when no later block has a line |
| TlsMaterial.CertPartsNoTrailingNewline | internal/service/tls/helpers.go:115-119 | neither part is empty or ends in a newline |
| TlsMaterial.SplitCerts | internal/service/tls/helpers.go:82-120 | the loop yields CertPartsOf |
| TlsMaterial.FindCertificate | internal/service/tls/helpers.go:68-79 | bytes exactly when the first decoded block has type CERTIFICATE, and then that block's bytes |
| TlsMaterial.Hex | internal/service/tls/helpers.go:32 | "%x" gives two lowercase hex digits per byte |
| TlsMaterial.HexInjective | internal/service/tls/helpers.go:32 | equal hex strings come from equal bytes |
| TlsMaterial.GetPemFingerprint | internal/service/tls/helpers.go:27-36 | "" when the stripped text has no CERTIFICATE block, else the hex of its SHA-1 |
| TlsMaterial.FingerprintShape | internal/service/tls/helpers.go:27-36 | the fingerprint is empty exactly when no certificate is found, else 40 characters |
| TlsMaterial.FingerprintsIdentifyDigests | internal/service/tls/helpers.go:31-32 | equal fingerprints mean equal SHA-1 digests |
| TlsMaterial.ValidateCertificate | internal/service/tls/helpers.go:39-65 | valid exactly when there is a primary block, it decodes, its type is CERTIFICATE, X.509 parsing succeeds, and there is a DNS name |
| TlsMaterial.ValidHasPrimary | internal/service/tls/helpers.go:39-53 | a valid certificate has a primary block in which a certificate is found |
| TlsMaterial.NoBlockIsRejected | internal/service/tls/helpers.go:40-44 | text without a BEGIN line is rejected with the "can't find certificate" error |
| TlsMaterial.CustomToSslCertificate | internal/service/tls/helpers.go:14-24 | ID, Name, Sha1Fingerprint, Labels, Expires, Created and Updated are copied unchanged |
| TlsMaterial.CustomToSslCertificateForgetsKeys | internal/service/tls/helpers.go:14-24 | two custom certificates convert alike exactly when they differ at most in their key material |
| TlsManager.ChainKeyOf | internal/service/tls/manager.go:130-132 | the chain is sent exactly when it is non-empty |
| TlsManager.FreshId | internal/service/tls/manager.go:153 | the provider's new id is longer than, hence different from, every existing id |
| TlsManager.FindOf | internal/service/tls/manager.go:103-122 | NotFound reads as no certificate and other list errors are returned; otherwise none exactly when the listing is empty, and the one found is listed and carries the fingerprint whenever some listed certificate does |
| TlsManager.IndexOfFingerprint | internal/service/tls/manager.go:112-116 | the scan stops at the first certificate with the fingerprint |
| TlsManager.SecretPlanOf | internal/service/tls/manager.go:88-98 | fail on a lookup error; reuse a hit with the same fingerprint; renew a different one by its id; else create |
| TlsManager.CertStore.GetCustom | internal/service/tls/manager.go:73 | found exactly when the read works and a record has the id, and then that record |
| TlsManager.CertStore.Collect | internal/service/tls/manager.go:105-108 | a list error exactly when one is configured |
| TlsManager.CertStore.UpdateCustom | internal/service/tls/manager.go:133 | the record with the id is renewed with the new material and its fingerprint; a failure or an unknown id changes nothing |
| TlsManager.CertStore.CreateCustom | internal/service/tls/manager.go:153 | a fresh record with the name, labels, material and fingerprint is appended; a failure changes nothing |
| TlsManager.PrecheckError | internal/service/tls/manager.go:45-59 | no error exactly when there is a Secret with tls.crt and tls.key and its certificate validates |
| TlsManager.Manager.GetById | internal/service/tls/manager.go:72-79 | found exactly when GetCustom finds the record, and then its converted record, which has that id |
| TlsManager.Manager.FindCertificate | internal/service/tls/manager.go:103-122 | the loop computes FindOf of the label-filtered custom listing |
| TlsManager.Manager.UpdateCertificateForSecret | internal/service/tls/manager.go:125-138 | the store record with the id is renewed (chain only when non-empty) and returned converted; a failure changes nothing |
| TlsManager.Manager.CreateCertificateForSecret | internal/service/tls/manager.go:141-158 | a record named "gw-secret-"+uid, labelled with the Secret uid, is appended and returned converted; a failure changes nothing |
| TlsManager.Manager.EnsureCertificateForSecret | internal/service/tls/manager.go:83-99 | the store changes exactly as SecretPlanOf says: nothing on failure or reuse, a renewal in place, or one new record |
| TlsManager.Manager.EnsureHost | internal/service/tls/manager.go:36-66 | an external id is looked up with no write; a missing Secret, certificate or key, or an invalid certificate, fails before any write; otherwise the id names a record labelled with the Secret uid and carrying its leaf fingerprint (the first such record when the listing worked); when such a record already existed, nothing is written and its id is returned |
| TlsManager.Manager.EnsureHostTwice | internal/service/tls/manager.go:88-98 | handling a hostname twice with unchanged material: once the first turn succeeds, the second writes nothing and returns the same id |
| TlsManager.Manager.EnsureSecretHost | internal/service/tls/manager.go:45-66 | the Secret-backed host: prechecks first, then the upload under the fingerprint of the primary block only; the id names an upload of that Secret carrying that fingerprint; an upload already current is reused with no write; only records of that Secret are touched |
| TlsManager.Manager.EnsureUpload | internal/service/tls/manager.go:60-66 | the id returned names a record labelled with the Secret uid whose stored fingerprint is fp, and after a successful listing it is the first such record; if one existed before, the store is unchanged and its id is returned; otherwise a record of that Secret is renewed or one is created |
| TlsManager.Manager.EnsureTLS | internal/service/tls/manager.go:34-69 | on success the keys are exactly the input hosts, each mapped to the id of a record that serves it (the external id's record, or one labelled with the host's Secret uid) after its prechecks passed; when every Secret's current material is already uploaded, nothing is written and each Secret-backed host gets that upload's id; a failure is some host's error; only records of the input Secrets are changed or added |
| TlsManager.ListingFingerprint | internal/service/tls/manager.go:112-116 | the scan finds the first labelled record with the fingerprint, if any |
| TlsManager.ListingHead | internal/service/tls/manager.go:117-120 | the first listed certificate is the first labelled record |
| TlsManager.ListingMember | internal/service/tls/manager.go:104-108 | every listed certificate is a labelled record of the store |
| TlsManager.ReuseWhenCurrent | internal/service/tls/manager.go:92-94 | a labelled record with the same fingerprint is reused without a write |
| TlsManager.RenewedIsReused | internal/service/tls/manager.go:95-96 | the renewed record is the first labelled one; stored under the fingerprint fp, it becomes the first current record, and repeating the call with the same material reuses it |
| TlsManager.CreatedIsReused | internal/service/tls/manager.go:98 | after a create under fp, the new record is the first current one, and repeating the call with the same material reuses it |
| TlsManager.ReusedIsCurrent | internal/service/tls/manager.go:92-94 | what is reused is the first record of the Secret that carries the fingerprint |
| TlsManager.FreshKeepsDistinct | internal/service/tls/manager.go:153 | a record with a fresh id keeps the store's ids distinct |
| TlsManager.RenewOutcome | internal/service/tls/manager.go:95-96 | a renewal rewrites a record of that Secret only, and keeps ids distinct |
| TlsManager.CreateOutcome | internal/service/tls/manager.go:141-158 | a created record carries the Secret's label, keeps ids distinct, and touches nothing else |

## Left out

- Only the seven core files are modelled: the controller's `gateway.go`,
  `handlers.go` and `helpers.go`, and the two LB and two TLS service files.
  Process start-up (`cmd/main.go`), flags, environment loading and client
  construction are not part of this model. Neither is `gateway_class.go`,
  whose only decision repeats the controller-name check of
  `isManagedGateway`.
- `SetupWithManager` and `managedPredicate` are not modelled. They wire
  controller-runtime watches and hold no reconcile logic.
- Kubernetes Get, List and Patch calls are not modelled as I/O.
  - Reads come from the `Kube.Cluster` snapshot.
  - Writes are recorded as `Reconciler.Action`s.
  - Merge-patch semantics, the event recorder and logging are left out.
  - `meta.SetStatusCondition` is an upsert by type, without timestamps.
- The answers of the provider and the API server are only partly modelled.
  - In a reconcile pass they are the `Collaborators` inputs.
  - In the managers they are the failure fields of `Provider` and
    `CertStore`. Context cancellation and timeouts are not modelled.
- PEM decoding, X.509 parsing and SHA-1 are uninterpreted functions in
  `TlsMaterial.Codec`. The provider is assumed to fingerprint uploaded
  material as the controller's own `getPemFingerprint` does: the codec of
  `TlsManager.Manager` is, by definition, the codec of its `CertStore`.
- `CertStore` holds only custom certificates. The type=custom filter is
  implied.
- Distinct record ids (`CertStore.Valid`) are an assumption about the
  provider, not something the code checks.
- The provider chooses the ids of new certificates and load balancers:
  `FreshId`, and `Provider.nextId`. Timestamps of new or renewed certificates
  are left empty.
- Go map iteration order is not modelled.
  - `EnsureTLS` handles the hosts in an arbitrary order.
  - Translation states its zone lists as sets, without order. The vhost zones
    are distinct by domain; the upstream zones are distinct by id.
  - No property names which host's error `EnsureTLS` reports, only that it is
    some host's.
- TlsManager.Manager.EnsureTLS: on failure the contract does not state which
  hosts were handled before the failing one. It states only that every change
  is confined to the input Secrets' records. Earlier uploads are not undone,
  as in the code.
- TlsManager.Manager.EnsureTLS: on success it states for every Secret-backed
  host only that the id names a record labelled with that Secret. That this
  record carries the Secret's current leaf fingerprint is stated per host, by
  `EnsureHost`. It is not stated for the whole map, because a later host whose
  Secret has the same uid but other material renews that same record. The
  whole-map statement is the idempotent case: when every Secret is already
  uploaded, nothing is written.
- `SC_LOCATION_ID` is the string parameter `loc` of `LbTranslate.Translate`
  and `LbManager.Manager.EnsureLB`. The environment read and its default "1"
  happen outside the model.
- Text.Atoi: its contract states the range, and that anything other than an
  optional sign followed by decimal digits fails. The parsed value is
  modelled in the body, but no lemma is about it.
- LbTranslate.AtoiError: the message is "value out of range" for a
  well-formed numeral outside 64 bits, else "invalid syntax", as in Go. The
  string is quoted with plain double quotes, so `strconv.Quote`'s escaping of
  quotes, backslashes and non-printable characters is not modelled.
- Case folding (`strings.ToLower`, `strings.EqualFold`) is ASCII only.
- Go's `%q` is approximated by `Matching.Quote`, with no escaping of special
  characters. Go's `%v` of wrapped errors is plain concatenation.
- The returned `*L7LoadBalancer` is reduced to the fields reconcile reads:
  `Reconciler.LbStatus` (status and external addresses).
- Mappers.KeyRequest is the loop body shared by the HTTPRoute and Service
  mappers. Log lines, and the difference between NotFound and other Get
  errors, are dropped: both skip the key.
- In `findCertificate` the label-selector text is modelled by the
  `Labelled` predicate. No other provider-side filtering is modelled.

### Where the code and the design description disagree (the model follows the code)

- Hostname uniqueness is checked by route `Name` only, not by namespace and
  name. Two attached routes with the same Name in different namespaces may
  share a hostname without error.
  `TopologyProperties.ClaimConflictByName` and
  `TopologyProperties.BuiltHostnamesUniquePerName` state this behaviour.
- Ports are not de-duplicated within one route's matched listeners. Only
  ports merged into an existing vhost are checked against those already
  present (`Topology.PortsFor`, `TopologyProperties.MergePortsShape`).
- `DeleteLB` is described as treating an empty listing as success. The code
  indexes `lbs[0]` without a guard (see Findings).

## Findings

| source | as written | input that shows it | evidently intended | confidence | as-written member | corrected member |
|---|---|---|---|---|---|---|
| internal/service/lb/manager.go:87-90 | after the more-than-one check, `lbs[0].ID` is read without checking that the list is non-empty | the list call succeeds with no load balancer, e.g. cleanup of a Gateway whose load balancer was never created; reading lbs[0] is an index-out-of-range panic | an empty listing is a successful no-op, like the NotFound case | not executed | LbManager.DeleteStepAsWrittenPanicsOnEmptyListing | LbManager.DeleteStepOf |
