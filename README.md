# Gardener control-plane rules, modelled in Dafny

This project models three parts of Gardener, the Kubernetes-based system that manages "Shoot" clusters
whose control planes run on "Seed" clusters:

- **Botanist's kube-apiserver configuration** (`pkg/operation/botanist/kubeapiserver.go`). It covers:
  - how the configured admission plugins are merged into the defaults;
  - the API audiences, which always include `gardener`;
  - the audit-policy lookup, which tolerates a missing ConfigMap only while the Shoot is being deleted;
  - the autoscaling decision table;
  - the scaling class and the CPU and memory requests derived from it;
  - the server-certificate names and addresses;
  - the service-account settings and the signing-key lookup;
  - the replica decision.
- **The DeletionConfirmation admission plugin** (`plugin/pkg/global/deletionconfirmation/admission.go`).
  A DELETE of a Shoot, Project or ShootState is admitted only if the object was read, from the cache or
  live, and passed the confirmation check. A collection delete is admitted only if every listed object
  would be admitted on its own. While the informer caches are not ready every such request is refused.
- **The node agent's event handling for the operating system config**
  (`pkg/nodeagent/controller/operatingsystemconfig/add.go`). It covers:
  - which Secret events are reconciled;
  - the jitter delay. Each node agent sorts the node list by name and delays by
    `min + index * (max - min) / n` seconds. The delays of all agents are thus spread evenly over the
    sync jitter period.

Files:

- `wrappers.dfy`: `Option` and `Result`.
- `admission_plugins.dfy`: the merge, as a loop method proved against a left-fold function.
- `kubeapiserver.dfy`: the rest of the kube-apiserver configuration.
- `deletion_confirmation.dfy`: the plugin.
  - It is a class with the injected listers, client and ready function.
  - A class for the package-level list of ready functions.
  - `Validate` is a recursive method, proved equal to the decision function `Admission`.
- `name_order.dfy`: Go's lexicographic string order, and the sort by name with its uniqueness.
- `operating_system_config.dfy`: the event filter, the work queue, the delayer (which caches the last
  node list) and the event handler.

Lookups against the API server, the informer caches and `CheckIfDeletionIsConfirmed` are model inputs.
They are functions passed as parameters, or a `Backend` value holding the answers for one request.
Feature gates, Shoot fields and the Seed's DNS setting are plain parameters. Go's `float64` is modelled
as `real`.

## Model

| member | source | states |
|---|---|---|
| AdmissionPluginMerge.ComputeAdmissionPlugins | pkg/operation/botanist/kubeapiserver.go:126-144 | the nested loops compute exactly the fold `MergePlugins`: each configured plugin overwrites the first plugin with its name, or is appended |
| AdmissionPluginMerge.FindName | pkg/operation/botanist/kubeapiserver.go:130-136 | the inner search finds the first plugin with the name, and finds nothing exactly when no plugin has it |
| AdmissionPluginMerge.MergeOneNames | pkg/operation/botanist/kubeapiserver.go:127-141 | one step keeps every name at its index, and appends the plugin's name exactly when it was new |
| AdmissionPluginMerge.MergeNames | pkg/operation/botanist/kubeapiserver.go:126-144 | the merged names are the default names, index for index, followed by the new configured names in the order they first occur |
| AdmissionPluginMerge.NewNamesFacts | pkg/operation/botanist/kubeapiserver.go:138-140 | the appended names are distinct, all new, all taken from the configured plugins, and together with the defaults they cover every configured name |
| AdmissionPluginMerge.MergeKeepsUntouched | pkg/operation/botanist/kubeapiserver.go:130-136 | a default whose name is never configured stays as it was, at its index |
| AdmissionPluginMerge.FindNameStable | pkg/operation/botanist/kubeapiserver.go:127-141 | once a name is present, merging never moves its first position |
| AdmissionPluginMerge.MergeLastConfiguredWins | pkg/operation/botanist/kubeapiserver.go:127-141 | at the position of a configured name sits the last configured plugin with that name |
| AdmissionPluginMerge.MergeOverridesInPlace | pkg/operation/botanist/kubeapiserver.go:131-134 | a configured plugin that overrides a default replaces it at the default's own index |
| AdmissionPluginMerge.MergeProperties | pkg/operation/botanist/kubeapiserver.go:126-144 | the merge holds the defaults' names as a prefix, at most all configured plugins more, untouched defaults, and every configured name |
| KubeAPIServer.EnsureGardenerAudience | pkg/operation/botanist/kubeapiserver.go:76-81 | the configured audiences come back extended only by `gardener`, which is then present; they come back unchanged exactly when it was already there |
| KubeAPIServer.APIAudiences | pkg/operation/botanist/kubeapiserver.go:63-81 | `kubernetes` and `gardener` when nothing is configured; otherwise the configured list with `gardener` appended exactly when it is missing; `gardener` always present |
| KubeAPIServer.EnsureGardenerAudienceIdempotent | pkg/operation/botanist/kubeapiserver.go:78-80 | adding the gardener audience twice changes nothing more |
| KubeAPIServer.DefaultKubeAPIServer | pkg/operation/botanist/kubeapiserver.go:53-124 | without a kube-apiserver section the defaults are used; with one, the plugins are the merge, the audiences as above, and an audit error aborts; `gardener` is always an audience and no default plugin is lost |
| KubeAPIServer.ComputeAuditConfig | pkg/operation/botanist/kubeapiserver.go:146-170 | no config without a ConfigMap reference; a policy exactly when the ConfigMap is found with a `policy` entry; a NotFound is tolerated exactly when the Shoot is being deleted; every other failure, and a missing entry, is an error |
| KubeAPIServer.ParseScalingClass | pkg/operation/botanist/kubeapiserver.go:231-236 | a class is read exactly for the five valid names, and it is the class that name denotes |
| KubeAPIServer.ScalingClassRoundTrip | pkg/operation/botanist/kubeapiserver.go:231-271 | every class name reads back as that class |
| KubeAPIServer.ScalingClassForNodeCount | pkg/operation/botanist/kubeapiserver.go:236-249 | the class is small, medium, large, xlarge or 2xlarge exactly for up to 2, 10, 50, 100 nodes, and above |
| KubeAPIServer.EffectiveScalingClass | pkg/operation/botanist/kubeapiserver.go:236-249 | a valid annotated class wins; otherwise the node count decides |
| KubeAPIServer.ResourcesRequirementsForKubeAPIServer | pkg/operation/botanist/kubeapiserver.go:229-279 | the requests are those of the annotated class, or else of the node-count class; always between 800m/800Mi and 3000m/5200Mi |
| KubeAPIServer.RequestsMonotone | pkg/operation/botanist/kubeapiserver.go:251-271 | a bigger class never asks for less CPU or memory |
| KubeAPIServer.ScalingClassMonotone | pkg/operation/botanist/kubeapiserver.go:237-248 | more nodes never give a smaller class |
| KubeAPIServer.ResourcesMonotoneInNodeCount | pkg/operation/botanist/kubeapiserver.go:229-279 | without a valid annotation, growing the node count never lowers the requests |
| KubeAPIServer.ComputeAutoscalingConfig | pkg/operation/botanist/kubeapiserver.go:172-227 | the whole decision table: replica bounds 1..4, raised to 2 for production and to 4 by the scale-down-disabled annotation; managed-seed overrides; the HVPA gate; fixed replicas and pinned 1750m/2Gi only for a managed seed without HVPA; the node count that sizes the requests |
| KubeAPIServer.ComputeReplicas | pkg/operation/botanist/kubeapiserver.go:386-406 | each case of the ordered decision table and the replica count it yields |
| KubeAPIServer.AwakeShootKeepsAReplica | pkg/operation/botanist/kubeapiserver.go:386-406 | an awake Shoot with a positive minimum is never given zero replicas |
| KubeAPIServer.HibernatedShootNeverScalesUp | pkg/operation/botanist/kubeapiserver.go:386-406 | a hibernated Shoot gets zero, or keeps what its Deployment runs |
| KubeAPIServer.ComputeServerCertificateConfig | pkg/operation/botanist/kubeapiserver.go:310-337 | the exact IP and DNS lists; without shoot DNS the API server address is covered as an IP or as a name; the number of entries |
| KubeAPIServer.ComputeServiceAccountConfig | pkg/operation/botanist/kubeapiserver.go:339-368 | the default issuer and each configured override; a signing key exactly when the Secret is found with its entry; the lookup error or the missing-entry error otherwise, with the settings filled so far |
| DeletionConfirmation.ReadyFuncRegistry.AllSynced | plugin/pkg/global/deletionconfirmation/admission.go:189-196 | the aggregate ready function holds exactly when every registered informer has synced |
| DeletionConfirmation.DeletionConfirmation.constructor | plugin/pkg/global/deletionconfirmation/admission.go:57-61 | a new plugin has nothing injected |
| DeletionConfirmation.DeletionConfirmation.AssignReadyFunc | plugin/pkg/global/deletionconfirmation/admission.go:63-67 | sets the ready function and nothing else |
| DeletionConfirmation.DeletionConfirmation.SetCoreInformerFactory | plugin/pkg/global/deletionconfirmation/admission.go:69-86 | sets the three listers and registers the three informers' sync state in the shared registry |
| DeletionConfirmation.DeletionConfirmation.SetCoreClientSet | plugin/pkg/global/deletionconfirmation/admission.go:88-91 | sets the client and nothing else |
| DeletionConfirmation.DeletionConfirmation.ValidateInitialization | plugin/pkg/global/deletionconfirmation/admission.go:93-108 | no error exactly when all four dependencies are set; otherwise the first missing one, in the source's order |
| DeletionConfirmation.DeletionConfirmation.WaitForReady | plugin/pkg/global/deletionconfirmation/admission.go:198-200 | the readiness the installed ready function reports |
| DeletionConfirmation.DeletionConfirmation.Validate | plugin/pkg/global/deletionconfirmation/admission.go:113-268 | installs the aggregate ready function when none is set, changes no other field, and returns exactly the decision `Admission` |
| DeletionConfirmation.UnrelatedKindsAdmitted | plugin/pkg/global/deletionconfirmation/admission.go:183-184 | kinds other than Shoot, Project and ShootState always pass |
| DeletionConfirmation.NotReadyIsForbidden | plugin/pkg/global/deletionconfirmation/admission.go:198-200 | before the caches are ready every relevant request is Forbidden |
| DeletionConfirmation.CollectErrorsCharacterized | plugin/pkg/global/deletionconfirmation/admission.go:220-238 | the collected errors are empty exactly when every object passes, and are exactly the refusals of the objects that do not |
| DeletionConfirmation.CollectionDelete | plugin/pkg/global/deletionconfirmation/admission.go:208-244 | a list failure is returned; otherwise admitted exactly when each listed object is; a refusal is Forbidden with exactly the objects' errors; an empty collection passes |
| DeletionConfirmation.CachedConfirmedAdmitted | plugin/pkg/global/deletionconfirmation/admission.go:246-251 | a confirmed cached copy is admitted, whatever the live client would say |
| DeletionConfirmation.CacheFailureReturned | plugin/pkg/global/deletionconfirmation/admission.go:252-254 | a cache error other than NotFound is returned, whatever the live client would say |
| DeletionConfirmation.LiveLookupDecides | plugin/pkg/global/deletionconfirmation/admission.go:256-267 | after a cache miss or an unconfirmed cached copy: a live error is returned, an unconfirmed live copy is Forbidden, a confirmed one is admitted |
| DeletionConfirmation.NamedDeleteAdmittedIffConfirmed | plugin/pkg/global/deletionconfirmation/admission.go:246-267 | a named delete is admitted exactly when the cached copy, or else the live copy, is confirmed |
| DeletionConfirmation.AdmittedOnlyIfConfirmed | plugin/pkg/global/deletionconfirmation/admission.go:187-267 | an admitted collection delete was ready, and each of its objects was read and confirmed |
| NameOrder.LessTotal | pkg/nodeagent/controller/operatingsystemconfig/add.go:162 | two names are equal or one comes first |
| NameOrder.LessTransitive | pkg/nodeagent/controller/operatingsystemconfig/add.go:162 | the name order is transitive |
| NameOrder.SortByName | pkg/nodeagent/controller/operatingsystemconfig/add.go:162 | sorting gives an ascending permutation of the names |
| NameOrder.SortedUnique | pkg/nodeagent/controller/operatingsystemconfig/add.go:162 | two ascending sequences with the same names are equal |
| NameOrder.SortByNameOrderIndependent | pkg/nodeagent/controller/operatingsystemconfig/add.go:162-163 | the sorted node list does not depend on the order the nodes were listed in |
| OperatingSystemConfig.SecretPredicate | pkg/nodeagent/controller/operatingsystemconfig/add.go:72-92 | creations pass; deletions and generic events do not; an update passes exactly when both objects are Secrets whose operating system config bytes differ |
| OperatingSystemConfig.UnchangedOSCIsFiltered | pkg/nodeagent/controller/operatingsystemconfig/add.go:87 | an absent key and an empty value count as the same bytes, so such an update is filtered out |
| OperatingSystemConfig.ReconcileRequest | pkg/nodeagent/controller/operatingsystemconfig/add.go:94-99 | the request carries the object's name and namespace |
| OperatingSystemConfig.TruncatedSeconds | pkg/nodeagent/controller/operatingsystemconfig/add.go:108 | whole seconds of the jitter period, truncated toward zero |
| OperatingSystemConfig.IndexOf | pkg/nodeagent/controller/operatingsystemconfig/add.go:166-168 | the first index of the node, and -1 exactly when it is not listed |
| OperatingSystemConfig.MapToDelay | pkg/nodeagent/controller/operatingsystemconfig/add.go:166-172 | the linear mapping of the node's index; in [min, max) for a listed node, below min for an unlisted one |
| OperatingSystemConfig.WorkQueue.Add | pkg/nodeagent/controller/operatingsystemconfig/add.go:117 | appends the request with no delay |
| OperatingSystemConfig.WorkQueue.AddAfter | pkg/nodeagent/controller/operatingsystemconfig/add.go:132 | appends the request with its delay |
| OperatingSystemConfig.Delayer.Compute | pkg/nodeagent/controller/operatingsystemconfig/add.go:151-173 | no node name gives no delay and no listing; otherwise the sorted new list replaces the cache, or a failed listing falls back to it, and the delay is that of the node's index in the cached list |
| OperatingSystemConfig.JitterHandler.constructor | pkg/nodeagent/controller/operatingsystemconfig/add.go:104-109 | the delayer spans zero to the whole seconds of the sync jitter period, with no cached list |
| OperatingSystemConfig.JitterHandler.OnCreate | pkg/nodeagent/controller/operatingsystemconfig/add.go:112-117 | a creation with an object is enqueued at once; one without an object is ignored |
| OperatingSystemConfig.JitterHandler.OnUpdate | pkg/nodeagent/controller/operatingsystemconfig/add.go:119-134 | enqueued after the jitter delay exactly when the config bytes changed; otherwise the queue and the delayer's cache stay as they were |
| OperatingSystemConfig.HandlerAgreesWithPredicate | pkg/nodeagent/controller/operatingsystemconfig/add.go:76-88 | the handler enqueues an update exactly when the event filter lets it through |
| OperatingSystemConfig.LinearDelayInRange | pkg/nodeagent/controller/operatingsystemconfig/add.go:170-171 | every listed node waits at least min and less than max; exactly min when min and max meet |
| OperatingSystemConfig.LinearDelayEvenlySpaced | pkg/nodeagent/controller/operatingsystemconfig/add.go:170-171 | consecutive nodes are `(max - min) / n` seconds apart |
| OperatingSystemConfig.LinearDelayMonotone | pkg/nodeagent/controller/operatingsystemconfig/add.go:170-171 | a later node never waits less, and waits strictly longer when max > min |
| OperatingSystemConfig.MissingNodeDelayBelowMinimum | pkg/nodeagent/controller/operatingsystemconfig/add.go:166-171 | a node missing from the list gets index -1 and a delay below min |
| OperatingSystemConfig.DistinctNodesGetDistinctDelays | pkg/nodeagent/controller/operatingsystemconfig/add.go:156-171 | agents that list the same nodes in any order give different nodes different delays |

## Left out

- The fan-out of the collection delete to goroutines is a sequential loop. The model collects the
  errors in list order; the source collects them in arrival order, so their order is not modelled.
- `WaitForReady`'s polling with a timeout is one evaluation of the ready function, in an `Environment`
  fixed for the request.
- The informer factories, listers, the live client and `CheckIfDeletionIsConfirmed` are abstract
  answers. The per-kind lister code is one `Backend` per request.
- `Register`, `NewFactory` and the DELETE-only operation filter of `New` are not modelled. They are the
  plugin's registration with the API server.
- DeletionConfirmation.Validate: requires that every listed object has a non-empty name. The API server
  never stores an object without one. Without that, the source would not terminate: the per-object
  `Validate` of a listed object with an empty name takes the collection branch again, lists again and
  spawns goroutines again, without end (admission.go:208-225).
- `computeKubeAPIServerImages`, `computeKubeAPIServerSNIConfig`, `DeployKubeAPIServer`,
  `DeleteKubeAPIServer`, `WakeUpKubeAPIServer` and `ScaleKubeAPIServerToOne` are not modelled. They
  produce image references or drive the deployment flow.
- The fields `DefaultKubeAPIServer` only passes through are not modelled: event TTL, feature gates,
  OIDC, requests, runtime config, watch cache sizes, VPN settings, anonymous and basic authentication.
- `computeKubeAPIServerAdmissionPlugins` writes into the caller's slice and may share its backing array.
  The model works on values, so the aliasing is not captured. The same holds for appending to the
  configured audience list.
- Several constants come from other Go packages; the model fixes their values:
  - the `gardener` audience and the annotation keys of the scaling class and of scale-down-disabled,
    from `v1beta1constants`;
  - the `signing-key` data key, from `kubeapiserver`;
  - the `osc.yaml` data key, from `nodeagentv1alpha1`;
  - `GetAPIServerDomain`, from `gutil`, taken as `"api." + domain`.
- The `int32` widths of replica counts and node counts are not modelled; integers are unbounded.
- KubeAPIServer.ComputeServerCertificateConfig: requires a DNS domain whenever an external cluster
  domain is set. The source dereferences it without a check.
- KubeAPIServer.ComputeAutoscalingConfig: the managed seed's minimum replicas are a plain integer. The
  source dereferences it without a nil check.
- OperatingSystemConfig.Delayer.Compute: requires that the list in effect exists and is not empty.
  - A failed first listing dereferences a nil list in the source.
  - An empty list makes the float division infinite or NaN, which `real` cannot express.
- OperatingSystemConfig.JitterHandler.OnUpdate: carries the same requirement whenever it calls the
  delayer.
- The conversion of the float delay to a `time.Duration` is not modelled, nor float rounding.
- The work queue only records what was added. Its de-duplication, timing and rate limiting are not
  modelled, and neither is how it treats a delay of zero or less.
- The controller wiring in `AddToManager` is not modelled: the Secret source, the additional
  create/update predicate and the concurrency option.
- A nil or typed-nil object inside a Secret type assertion is not distinguished from a missing object.
