# KubeSphere virtualization control plane, modelled in Dafny

KubeSphere's virtualization extension manages virtual machines on Kubernetes. Its objects are
VirtualMachine, VirtualDisk, VirtualNet, VMSnapshot and VMTemplate. Their API has two
revisions: v1alpha1, and the v1beta1 storage hub.

This project models the parts of the control plane that decide what happens to those objects:

- **Schemas** (`V1Alpha1`, `V1Beta1`). The object datatypes of both revisions. Their validation
  annotations become validity predicates: enum sets, minimum list lengths, ranges and patterns.
  Their default annotations become defaulting functions. The patterns are small recognisers
  (`Patterns`).
- **Conversion** (`Conversion`). Every ConvertTo/ConvertFrom pair between the revisions. These are
  total, field-by-field copies, and the model proves both round trips are the identity.
- **Reconcilers** (`VMController`, `SnapshotController`, `TemplateController`, with the finalizer
  and condition helpers in `Lifecycle`):
  - Each reconciler is a class. It holds an oracle `env` that answers every store or backend
    call, and a `trace` that records the calls in order.
  - Each method is proved to append exactly the calls of a specification function. Lemmas about
    those functions state the ordering and crash-safety facts.
- **Admission webhooks** (`VMWebhook`, `SnapshotWebhook`, `TemplateWebhook`, over `Admission`).
  These are defaulting and validation decisions. The virtual machine webhook is a class that
  records the node lists it issues.
- **Gateway** (`GatewayClient`, `GatewayHandlers`, `GatewayDTO`, `Auth`):
  - cluster-list normalisation, list options and the per-cluster fan-out of the VM list;
  - the power-state update and the console URL;
  - the cluster-label fallback applied to created objects;
  - the request-to-object builders;
  - bearer-token extraction.

The code's behaviour is followed throughout. In particular a failed backing-resource phase of
the VM reconciler returns its error without touching the conditions
(`VMController.BackingEnsureVMLast`).

## Model

| member | source | states |
|---|---|---|
| Auth.TrimSpace | pkg/virtualization/gateway/middleware/auth.go:65 | the result is a contiguous piece of the input; everything before and after it is white space; it neither starts nor ends with white space; all-space input gives "" and space-free input is returned whole |
| Auth.ExtractBearer | pkg/virtualization/gateway/middleware/auth.go:61-66 | a header without the "bearer " prefix (any ASCII case) yields ""; otherwise the token is the rest of the header, trimmed; a token never begins or ends with white space |
| Auth.SchemeWithoutToken | pkg/virtualization/gateway/middleware/auth.go:62-65 | "Bearer" with no space, and "Bearer" followed only by spaces, both yield no token |
| Auth.TrimTok | pkg/virtualization/gateway/middleware/auth.go:65 | trimming " tok " gives "tok" |
| Auth.TokenInAnyCase | pkg/virtualization/gateway/middleware/auth.go:62-65 | "BEARER  tok " yields "tok": the scheme matches in upper case and the surrounding spaces are dropped |
| Auth.OtherSchemeRejected | pkg/virtualization/gateway/middleware/auth.go:62-64 | a header with another scheme ("Basic abc") yields no token |
| Conversion.MapSeq | api/virtualization/v1alpha1/conversion.go:77-107 | the list helpers keep length and order: output element i is the conversion of input element i |
| Conversion.ConvertAll | api/virtualization/v1alpha1/conversion.go:77-91 | the index loop that fills a fresh slice produces exactly the element-wise conversion of the input list |
| Conversion.MapSeqInverse | api/virtualization/v1alpha1/conversion.go:77-107 | when the element conversions are mutually inverse, converting a list there and back restores it |
| Conversion.ConvertNUMAToBeta | api/virtualization/v1alpha1/conversion.go:165-179 | the NUMA helper (absent stays absent, cells copied by a loop) computes the hub NUMA spec |
| Conversion.ConvertNUMAToAlpha | api/virtualization/v1alpha1/conversion.go:181-195 | the reverse NUMA helper computes the alpha NUMA spec |
| Conversion.VirtualMachineConvertTo | api/virtualization/v1alpha1/conversion.go:10-41 | conversion to the hub never fails and yields the field-wise hub image of the VM |
| Conversion.VirtualMachineConvertFrom | api/virtualization/v1alpha1/conversion.go:44-75 | conversion from the hub never fails and yields the field-wise alpha image |
| Conversion.VMTemplateConvertTo | api/virtualization/v1alpha1/conversion.go:373-395 | template conversion to the hub never fails, and its disk loop yields the hub image |
| Conversion.VMTemplateConvertFrom | api/virtualization/v1alpha1/conversion.go:397-419 | template conversion from the hub never fails |
| Conversion.VirtualMachineToHub | api/virtualization/v1alpha1/conversion.go:10-41 | the hub image of a VM converts back to the same VM: metadata, every spec field (lists, NUMA, cloud-init, console, live migration, probes, KubeVirt) and every status field |
| Conversion.VirtualMachineFromHub | api/virtualization/v1alpha1/conversion.go:44-75 | the v1alpha1 image of a hub VM is schema-valid exactly when the hub VM is schema-valid and both its probes meet the v1alpha1 minimum of 1; the schemas differ in nothing else |
| Conversion.VirtualDiskToHub | api/virtualization/v1alpha1/conversion.go:295-307 | the hub image of a VirtualDisk converts back to the same VirtualDisk |
| Conversion.VirtualDiskFromHub | api/virtualization/v1alpha1/conversion.go:309-321 | conversion fills in no default: the v1alpha1 image needs no access-mode or volume-mode default exactly when the hub object gives both; metadata and conditions are kept |
| Conversion.VirtualNetToHub | api/virtualization/v1alpha1/conversion.go:323-334 | the hub image of a VirtualNet converts back to the same VirtualNet, and is schema-valid exactly when the VirtualNet is |
| Conversion.VirtualNetFromHub | api/virtualization/v1alpha1/conversion.go:336-347 | the v1alpha1 image of a hub VirtualNet is schema-valid exactly when the hub object is |
| Conversion.VMSnapshotToHub | api/virtualization/v1alpha1/conversion.go:349-359 | the hub image of a VMSnapshot converts back to the same VMSnapshot |
| Conversion.VMSnapshotFromHub | api/virtualization/v1alpha1/conversion.go:361-371 | the v1alpha1 image keeps a valid source reference exactly when the hub has one, keeps ReadyToUse, and needs no retain-policy default exactly when the hub object gives one |
| Conversion.VMTemplateToHub | api/virtualization/v1alpha1/conversion.go:373-395 | the hub image of a VMTemplate converts back to the same VMTemplate |
| Conversion.VMTemplateFromHub | api/virtualization/v1alpha1/conversion.go:397-419 | the v1alpha1 image keeps every template disk in place with its name, size and type, and keeps the networks, the four constraint bounds and the UI hints |
| Conversion.NUMARoundTrip | api/virtualization/v1alpha1/conversion.go:165-195 | NUMA alpha to hub to alpha, and hub to alpha to hub, are both the identity, absent included |
| Conversion.VirtualMachineHubRoundTrip | api/virtualization/v1alpha1/conversion.go:10-75 | hub to alpha to hub restores the whole hub VM |
| Conversion.VirtualMachineToHubKeepsShape | api/virtualization/v1alpha1/conversion.go:10-41 | each optional part keeps its presence (NUMA, cloud-init and its secret refs, console, live migration, both probes, NADRef); KubeVirt, SSH keys, enums and status fields are copied verbatim; every list keeps its length |
| Conversion.VirtualDiskHubRoundTrip | api/virtualization/v1alpha1/conversion.go:295-321 | a hub VirtualDisk converted to v1alpha1 and back is unchanged |
| Conversion.VirtualNetHubRoundTrip | api/virtualization/v1alpha1/conversion.go:323-347 | a hub VirtualNet converted to v1alpha1 and back is unchanged |
| Conversion.VMSnapshotHubRoundTrip | api/virtualization/v1alpha1/conversion.go:349-371 | a hub VMSnapshot converted to v1alpha1 and back is unchanged, source, included disks, retain policy and ReadyToUse included |
| Conversion.VMTemplateHubRoundTrip | api/virtualization/v1alpha1/conversion.go:373-419 | a hub VMTemplate converted to v1alpha1 and back is unchanged, parameters, template disks, constraints and UI hints included |
| Conversion.ElementConversionKeepsValidity | api/virtualization/v1alpha1/virtualmachine_types.go:137-250 | each disk, network, GPU and NUMA cell is alpha-valid after conversion exactly when it is hub-valid |
| Conversion.VirtualMachineToHubPreservesValidity | api/virtualization/v1beta1/virtualmachine_types.go:44-226 | every schema-valid alpha VM converts to a schema-valid hub VM |
| Conversion.ZeroProbePeriodIsHubOnly | api/virtualization/v1beta1/virtualmachine_types.go:91-95 | the hub admits a zero probe period, which the alpha schema refuses after conversion |
| GatewayClient.NormalizeClusters | pkg/virtualization/gateway/client/k8s.go:178-202 | the loop with its seen-set and early return computes the normalised cluster list |
| GatewayClient.AllWins | pkg/virtualization/gateway/client/k8s.go:188-191 | once an "all" entry remains, the result is exactly ["all"] |
| GatewayClient.OnlyEmptyKeepsNothing | pkg/virtualization/gateway/client/k8s.go:184-200 | empty entries add nothing to the result |
| GatewayClient.NormalizedProperties | pkg/virtualization/gateway/client/k8s.go:178-202 | all-empty or empty input gives nothing; any "all" gives ["all"]; otherwise the result holds exactly the non-empty entries, without duplicates, first occurrences in input order, as a subsequence of the input |
| GatewayClient.ListOptionsForProperties | pkg/virtualization/gateway/client/k8s.go:166-176 | a namespace option is present exactly when the namespace is non-empty; a cluster-label filter is present exactly when the normalised list is one real cluster, and it carries that cluster; nothing else is produced |
| GatewayClient.BuildListOptions | pkg/virtualization/gateway/client/k8s.go:166-176 | the appending construction yields the list options described above |
| GatewayClient.SeveralClustersUnfiltered | pkg/virtualization/gateway/client/k8s.go:171-174 | with two or more normalised clusters no label filter is added |
| GatewayClient.MapForbidden | pkg/virtualization/gateway/client/k8s.go:73-89 | a forbidden API error becomes the gateway's forbidden error; every other error is passed on unchanged |
| GatewayClient.ClusterOptions | pkg/virtualization/gateway/client/k8s.go:157-158 | each fan-out step lists with the options of the namespace and that single cluster |
| GatewayClient.Store.constructor | pkg/virtualization/gateway/client/k8s.go:61-63 | a store starts with no calls made |
| GatewayClient.Store.List | pkg/virtualization/gateway/client/k8s.go:148 | one list call is recorded and answered by the store |
| GatewayClient.Store.ListVirtualMachines | pkg/virtualization/gateway/client/k8s.go:144-164 | the VM list makes exactly the calls of its specification and returns its outcome |
| GatewayClient.Store.FanOutLists | pkg/virtualization/gateway/client/k8s.go:154-163 | the per-cluster loop makes exactly the fan-out's calls and returns its outcome |
| GatewayClient.Store.UpdatePowerState | pkg/virtualization/gateway/client/k8s.go:73-89 | the read-modify-write makes exactly the calls of its specification and returns its error |
| GatewayClient.FanOutCalls | pkg/virtualization/gateway/client/k8s.go:155-160 | call i lists cluster i with that cluster's options; there is at least one call and never more calls than clusters |
| GatewayClient.FanOutSucceeds | pkg/virtualization/gateway/client/k8s.go:154-163 | the fan-out succeeds exactly when every cluster's list succeeds, and then it made one call per cluster |
| GatewayClient.FanOutFails | pkg/virtualization/gateway/client/k8s.go:158-160 | a failed fan-out returns the error of the last cluster it listed, all earlier clusters listed fine, and there is no partial result |
| GatewayClient.FanOutGathers | pkg/virtualization/gateway/client/k8s.go:161 | a successful fan-out returns the clusters' items concatenated in cluster order |
| GatewayClient.FanOutFiltersEachCluster | pkg/virtualization/gateway/client/k8s.go:157-158 | each per-cluster list filters on that cluster's label, and on the namespace exactly when one is given |
| GatewayClient.SingleListWhenOneCluster | pkg/virtualization/gateway/client/k8s.go:146-152 | with at most one normalised cluster there is exactly one list call, with the request's options |
| GatewayClient.UpdatePowerStateProperties | pkg/virtualization/gateway/client/k8s.go:73-89 | the VM is read first; a failed read ends the call; otherwise the update writes the VM with only its power state changed; a forbidden error from either step maps to the forbidden error |
| GatewayClient.Console | pkg/virtualization/gateway/client/k8s.go:96-98 | the console URL is "/console/" then the namespace, then "/", then the name |
| GatewayClient.ConsoleInjective | pkg/virtualization/gateway/client/k8s.go:96-98 | for slash-free namespaces, distinct VMs get distinct console URLs |
| GatewayDTO.OwnershipLabels | pkg/virtualization/gateway/dto/types.go:97-106 | the workspace, project and cluster labels are present exactly when the request field is non-empty, each carrying that value, and no other key appears |
| GatewayDTO.ToVirtualMachine | pkg/virtualization/gateway/dto/types.go:96-133 | name from the request, namespace from the route, ownership labels, every spec field copied verbatim, empty status |
| GatewayDTO.ToVirtualDisk | pkg/virtualization/gateway/dto/types.go:135-156 | the same envelope, with the disk spec copied from the request |
| GatewayDTO.ToVirtualNet | pkg/virtualization/gateway/dto/types.go:158-178 | the same envelope, with the network spec copied from the request |
| GatewayDTO.ToVMSnapshot | pkg/virtualization/gateway/dto/types.go:180-199 | the same envelope; the source is the named VM in the route's namespace; disks and retain policy are copied; ReadyToUse starts false |
| GatewayDTO.ToVMTemplate | pkg/virtualization/gateway/dto/types.go:201-220 | the same envelope, with parameters, constraints and UI hints copied |
| GatewayDTO.FromList | pkg/virtualization/gateway/dto/types.go:222-240 | the result equals the list's items, element by element, in order |
| GatewayDTO.BuiltSnapshotAdmission | pkg/virtualization/gateway/dto/types.go:180-199 | a snapshot built for the route's namespace is admitted unchanged exactly when it lists disks, and is otherwise denied for having none |
| GatewayHandlers.Resource.constructor | pkg/virtualization/gateway/handlers.go:60 | a resource holds the metadata it was built with |
| GatewayHandlers.FallbackLabels | pkg/virtualization/gateway/handlers.go:67-77 | when clusters were requested, no non-empty cluster label exists, and the raw first entry is neither "" nor "all", the cluster label is set to that entry; otherwise the labels are untouched; other labels never change |
| GatewayHandlers.ApplyClusterFallback | pkg/virtualization/gateway/handlers.go:60-78 | no object, or no clusters, changes nothing; otherwise only the object's labels change, as above |
| GatewayHandlers.FallbackStable | pkg/virtualization/gateway/handlers.go:71 | applying the fallback twice is the same as once, and an existing non-empty cluster label is never overwritten |
| GatewayHandlers.FallbackUsesRawFirstEntry | pkg/virtualization/gateway/handlers.go:72-75 | the raw first entry decides even where the normalised filter differs: ["", "east"] writes nothing, and ["east", "all"] writes "east" |
| GatewayHandlers.FallbackAgreesWithFilter | pkg/virtualization/gateway/handlers.go:72-75 | without "all", the label written is the first cluster of the normalised filter |
| Lifecycle.AddFinalizer | controllers/virtualization/virtualmachine_controller.go:57-63 | the token is present afterwards; it is appended only if missing; nothing else in the metadata changes |
| Lifecycle.RemoveFinalizerProperties | controllers/virtualization/virtualmachine_controller.go:66-70 | removal drops every copy of the token and keeps the other tokens and all other metadata; removing a freshly added token restores the metadata |
| Lifecycle.SetStatusConditionProperties | controllers/virtualization/virtualmachine_controller.go:133-143 | the condition of that type carries the new status, reason and message; its transition time changes only when the status does; conditions of other types are untouched; the list grows only when the type is new |
| Lifecycle.SetStatusConditionIdempotent | controllers/virtualization/virtualmachine_controller.go:133-143 | recording the same condition twice is the same as once |
| Patterns.ResourceNameIsOptionalResourceName | api/virtualization/v1alpha1/virtualnet_types.go:35 | every `<vendor>/<resource>` name is accepted where the name is optional |
| Patterns.OptionalResourceNameAcceptsLongerValues | api/virtualization/v1alpha1/virtualnet_types.go:35 | because the pattern is searched rather than matched whole, "a/b/c" is accepted, though it is not a `<vendor>/<resource>` name |
| Patterns.CpuQuantityExamples | api/virtualization/v1beta1/vmtemplate_types.go:26 | "4" and "500m" are CPU quantities; "04" and "m" are not |
| Patterns.CpuSetJoin | api/virtualization/v1alpha1/virtualmachine_types.go:229 | two CPU sets joined by a comma form a CPU set |
| Patterns.AnchoredQuantitiesRejectLeadingJunk | api/virtualization/v1alpha1/virtualmachine_types.go:51-55 | the anchored CPU, memory and disk-size patterns refuse any value that starts with a non-digit |
| Patterns.AnchoredListsRejectLeadingJunk | api/virtualization/v1alpha1/virtualmachine_types.go:229-248 | the anchored CPU-set and device-name patterns refuse any value that starts with a character outside their classes |
| Patterns.SearchedPatternsIgnorePrefix | api/virtualization/v1alpha1/virtualmachine_types.go:60 | the searched CPU-model, NIC-model and bandwidth patterns accept a longer value whenever it ends with a non-empty accepted value |
| Patterns.SearchedOptionalsIgnorePrefix | api/virtualization/v1alpha1/virtualmachine_types.go:289 | the searched optional device-name and optional memory patterns accept a longer value whenever it ends with a non-empty accepted value |
| Patterns.PositiveMemoryIsMemoryQuantity | api/virtualization/v1alpha1/virtualmachine_types.go:232 | every positive memory size is a VM memory quantity and an accepted optional size; "0Mi" is a memory quantity but not positive |
| SnapshotController.VMSnapshotReconciler.constructor | controllers/virtualization/vmsnapshot_controller.go:19-23 | a reconciler starts with no calls made |
| SnapshotController.VMSnapshotReconciler.Issue | controllers/virtualization/vmsnapshot_controller.go:99-103 | one store or backend call is recorded, and its error is the oracle's answer |
| SnapshotController.VMSnapshotReconciler.Reconcile | controllers/virtualization/vmsnapshot_controller.go:30-84 | a pass makes exactly the calls of its specification and returns its result and error |
| SnapshotController.LookupOutcomesAndNoRequeue | controllers/virtualization/vmsnapshot_controller.go:31-37 | a missing snapshot is a no-op without error; a failed read returns its error; the snapshot reconciler never asks for a timed requeue |
| SnapshotController.FinalizerPersistedBeforeSync | controllers/virtualization/vmsnapshot_controller.go:39-45 | a live snapshot without the finalizer gets it written first; a failed write ends the pass; otherwise Sync follows |
| SnapshotController.DeletionWithFinalizer | controllers/virtualization/vmsnapshot_controller.go:46-56 | DeleteSnapshot runs first; if it fails, the finalizer stays and its error is returned; otherwise the finalizer is removed; Sync is never called |
| SnapshotController.DeletionWithoutFinalizer | controllers/virtualization/vmsnapshot_controller.go:46-57 | a deleting snapshot without the finalizer is a no-op |
| SnapshotController.SyncRecordsReady | controllers/virtualization/vmsnapshot_controller.go:58-83 | after Sync one status write records Ready; on failure it is False/SyncFailed with the error's message, ReadyToUse is unchanged and the error is returned; on success it is True/Synced and ReadyToUse is set |
| SnapshotWebhook.Handle | webhooks/virtualization/vmsnapshot_webhook.go:22-44 | an undecodable request is a bad request; a snapshot is admitted exactly when its source namespace is empty or the request's, and it lists disks; the admitted snapshot is the input with its source namespace set to the request's namespace and nothing else changed (source name, disks, retain policy, metadata and status kept); a denial gives one of the two reasons |
| SnapshotWebhook.DenialReasons | webhooks/virtualization/vmsnapshot_webhook.go:32-38 | a foreign source namespace is denied for that reason before the disk check; otherwise an empty disk list is denied |
| SnapshotWebhook.HandleIdempotent | webhooks/virtualization/vmsnapshot_webhook.go:28-44 | resubmitting an admitted snapshot admits it unchanged |
| TemplateController.VMTemplateReconciler.constructor | controllers/virtualization/vmtemplate_controller.go:19-23 | a reconciler starts with no calls made |
| TemplateController.VMTemplateReconciler.Issue | controllers/virtualization/vmtemplate_controller.go:97-101 | one store or backend call is recorded, and its error is the oracle's answer |
| TemplateController.VMTemplateReconciler.Reconcile | controllers/virtualization/vmtemplate_controller.go:29-82 | a pass makes exactly the calls of its specification and returns its result and error |
| TemplateController.LookupOutcomesAndNoRequeue | controllers/virtualization/vmtemplate_controller.go:30-36 | a missing template is a no-op without error; a failed read returns its error; the template reconciler never asks for a timed requeue |
| TemplateController.FinalizerPersistedBeforeSync | controllers/virtualization/vmtemplate_controller.go:38-44 | a live template without the finalizer gets it written first; a failed write ends the pass; otherwise Sync follows |
| TemplateController.DeletionWithFinalizer | controllers/virtualization/vmtemplate_controller.go:45-55 | RemoveTemplate runs first; if it fails, the finalizer stays and its error is returned; otherwise the finalizer is removed; Sync is never called |
| TemplateController.DeletionWithoutFinalizer | controllers/virtualization/vmtemplate_controller.go:45-56 | a deleting template without the finalizer is a no-op |
| TemplateController.SyncRecordsReady | controllers/virtualization/vmtemplate_controller.go:57-81 | after Sync one status write records Ready and changes nothing else; on failure it is False/SyncFailed with the error's message and the error is returned; on success it is True/Synced |
| TemplateWebhook.StringLessStrict | webhooks/virtualization/vmtemplate_webhook.go:33 | the string order used for the bounds is strict, so equal bounds never compare as less |
| TemplateWebhook.PrefixIsLess | webhooks/virtualization/vmtemplate_webhook.go:33 | a proper prefix sorts before the longer string |
| TemplateWebhook.Handle | webhooks/virtualization/vmtemplate_webhook.go:22-42 | an undecodable request is a bad request; a template is admitted exactly when it names CPU and memory and it does not have both CPU bounds with the maximum sorting before the minimum; an admitted template is returned unchanged |
| TemplateWebhook.SchemaValidTemplateDeniedOnlyForBounds | api/virtualization/v1beta1/vmtemplate_types.go:26-30 | a schema-valid template always names CPU and memory, so it can be denied only for its CPU bounds |
| TemplateWebhook.BoundsThatPass | webhooks/virtualization/vmtemplate_webhook.go:32-36 | equal CPU bounds, or either bound left empty, never cause a denial |
| TemplateWebhook.StringOrderNotNumeric | webhooks/virtualization/vmtemplate_webhook.go:33 | maximum "10" with minimum "9" is denied, because the comparison is on strings |
| TemplateWebhook.MemoryBoundsIgnored | webhooks/virtualization/vmtemplate_webhook.go:32-36 | the memory bounds never change the decision |
| V1Alpha1.SpecDefaultsProperties | api/virtualization/v1alpha1/virtualmachine_types.go:49-275 | omitted power state, NUMA policy, disk bus and disk cache take Running, none, virtio and none; given values are kept; the disk list keeps its length; each probe and the console are present after defaulting exactly when before; a present console has VNC and serial on; defaulting twice changes nothing |
| V1Alpha1.ProbeDefaultsProperties | api/virtualization/v1alpha1/virtualmachine_types.go:125-134 | for both the liveness and the readiness probe, a zero period, timeout or failure threshold becomes 10, 30 or 3 and a non-zero one is kept; a probe with no negative field defaults to one that meets the minimum of 1 |
| V1Alpha1.DefaultsKeepValidity | api/virtualization/v1alpha1/virtualmachine_types.go:49-122 | a spec the schema accepts already has power state, NUMA policy, disk bus and cache and probe fields filled in, so defaulting changes only its console switches, and the defaulted spec is still accepted |
| V1Alpha1.DiskDefaultsInEnums | api/virtualization/v1alpha1/virtualmachine_types.go:137-147 | defaulting a disk lands its bus and cache inside their enums, and is idempotent |
| V1Alpha1.VirtualDiskDefaultsProperties | api/virtualization/v1alpha1/virtualdisk_types.go:20-36 | omitted access and volume modes take ReadWriteOnce and Filesystem; given modes and all other fields are kept; a valid spec is unchanged; omitted-or-enum modes default into a valid spec |
| V1Alpha1.VMSnapshotDefaultsProperties | api/virtualization/v1alpha1/vmsnapshot_types.go:20-28 | an omitted retain policy becomes Retain and a given one is kept; the schema accepts a snapshot with no included disks |
| V1Beta1.SpecDefaultsProperties | api/virtualization/v1beta1/virtualmachine_types.go:44-204 | the hub defaults power state, NUMA policy, disk bus and disk cache as the alpha revision does (Running, none, virtio, none), keeps given values and the disk count, turns a present console's VNC and serial on, but declares no probe or hugepages defaults (both probes and hugepages are left as given); defaulting twice changes nothing |
| V1Beta1.DefaultsKeepValidity | api/virtualization/v1beta1/virtualmachine_types.go:44-106 | a hub spec the schema accepts is changed by defaulting only in its console switches, and stays accepted |
| VMController.VirtualMachineReconciler.constructor | controllers/virtualization/virtualmachine_controller.go:23-29 | a reconciler starts with no calls made |
| VMController.VirtualMachineReconciler.Issue | controllers/virtualization/virtualmachine_controller.go:158-175 | one store or backend call is recorded, and its error is the oracle's answer |
| VMController.VirtualMachineReconciler.Lookup | controllers/virtualization/virtualmachine_controller.go:49 | the read is recorded and answered by the store |
| VMController.VirtualMachineReconciler.TeardownVM | controllers/virtualization/virtualmachine_controller.go:145-150 | teardown makes exactly Cleanup then, if it succeeded, DeleteOwnedVolumes, and returns the first error |
| VMController.VirtualMachineReconciler.EnsureDisks | controllers/virtualization/virtualmachine_controller.go:91-102 | the disk loop makes exactly the disk phase's calls and returns its error |
| VMController.VirtualMachineReconciler.ValidateNetworks | controllers/virtualization/virtualmachine_controller.go:104-110 | the network loop makes exactly the network phase's calls and returns its error |
| VMController.VirtualMachineReconciler.EnsureBackingResources | controllers/virtualization/virtualmachine_controller.go:90-113 | disks, then networks, then EnsureVM, stopping at the first error |
| VMController.VirtualMachineReconciler.SyncPowerState | controllers/virtualization/virtualmachine_controller.go:115-131 | makes exactly the power phase's calls and returns its updated VM and error |
| VMController.VirtualMachineReconciler.SetCondition | controllers/virtualization/virtualmachine_controller.go:133-143 | records the Ready condition in the VM and issues one status write, whose error is ignored |
| VMController.VirtualMachineReconciler.Orchestrate | controllers/virtualization/virtualmachine_controller.go:77-87 | makes exactly the orchestration's calls and returns its result and error |
| VMController.VirtualMachineReconciler.Reconcile | controllers/virtualization/virtualmachine_controller.go:46-88 | a pass makes exactly the calls of its specification and returns its result and error |
| VMController.LookupOutcomes | controllers/virtualization/virtualmachine_controller.go:49-55 | a missing VM is a no-op without error; a failed read returns its error |
| VMController.FinalizerPersistedFirst | controllers/virtualization/virtualmachine_controller.go:57-63 | a live VM without the finalizer gets it written before any backend call; a failed write ends the pass; otherwise the same pass continues into orchestration |
| VMController.DeletionWithFinalizer | controllers/virtualization/virtualmachine_controller.go:64-75 | Cleanup, then DeleteOwnedVolumes, then finalizer removal, each only if the previous step succeeded; a failed step's error is returned and the finalizer stays; no provisioning or power call is ever made |
| VMController.DeletionWithoutFinalizer | controllers/virtualization/virtualmachine_controller.go:64-75 | a deleting VM without the finalizer is a no-op |
| VMController.DiskPhaseCalls | controllers/virtualization/virtualmachine_controller.go:91-102 | the disk phase calls only EnsureDataVolume, on this VM, for its system and data disks |
| VMController.DiskPhaseAllSucceed | controllers/virtualization/virtualmachine_controller.go:91-102 | with known disk types and succeeding backends, EnsureDataVolume is called once per system or data disk, in declaration order, and ephemeral disks are skipped |
| VMController.UnsupportedDiskStops | controllers/virtualization/virtualmachine_controller.go:91-102 | an unknown disk type fails the phase, and only disks before it were provisioned |
| VMController.NetPhaseCalls | controllers/virtualization/virtualmachine_controller.go:104-110 | the network phase validates only SR-IOV networks, in the VM's namespace |
| VMController.NetPhaseAllSucceed | controllers/virtualization/virtualmachine_controller.go:104-110 | with succeeding validations, every SR-IOV network is validated once, in order |
| VMController.BackingEnsureVMLast | controllers/virtualization/virtualmachine_controller.go:77-113 | EnsureVM is called exactly when every disk and network passed, and is the phase's last call; the phase writes nothing; a phase failure returns its error without setting any condition |
| VMController.UnsupportedDiskAbortsBeforeEnsureVM | controllers/virtualization/virtualmachine_controller.go:91-112 | an unknown disk type aborts before EnsureVM and before any network call |
| VMController.PowerSpecProperties | controllers/virtualization/virtualmachine_controller.go:115-131 | Running calls PowerOn only; Stopped calls PowerOff only; any other value is an unknown-power-state error with no call; the status power state changes only after the backend call succeeded, followed by one status write |
| VMController.OrchestrateRecordsReady | controllers/virtualization/virtualmachine_controller.go:77-87 | after the backing phase, a power-sync failure records Ready=False/PowerSyncFailed with the error's message and returns the error; success records Ready=True/PowerSynced and requeues after one minute |
| VMController.FinalizerRemovedOnlyAfterTeardown | controllers/virtualization/virtualmachine_controller.go:64-75 | any write without the finalizer is the fourth call of a pass whose Cleanup and DeleteOwnedVolumes both succeeded |
| VMController.LiveWritesKeepFinalizer | controllers/virtualization/virtualmachine_controller.go:57-87 | for a VM not being deleted, every object write carries the finalizer |
| VMController.BackingLeavesObject | controllers/virtualization/virtualmachine_controller.go:90-113 | the backing phase neither reads nor writes the object and never tears it down |
| VMController.OrchestrateWritesOnlyStatus | controllers/virtualization/virtualmachine_controller.go:77-87 | orchestration writes only the status, never the object, and never tears it down |
| VMWebhook.Select | webhooks/virtualization/virtualmachine_webhook.go:71 | a node list holds exactly the cluster's nodes that match the query |
| VMWebhook.Defaulted | webhooks/virtualization/virtualmachine_webhook.go:52-60 | an empty NUMA policy becomes none and an empty power state Running; non-empty values and everything else are untouched |
| VMWebhook.DefaultedIdempotent | webhooks/virtualization/virtualmachine_webhook.go:52-60 | defaulting twice is the same as once; it agrees with the hub schema's defaults; the power state is never left empty |
| VMWebhook.VirtualMachineWebhook.constructor | webhooks/virtualization/virtualmachine_webhook.go:21-24 | a webhook starts with no node lists issued |
| VMWebhook.VirtualMachineWebhook.List | webhooks/virtualization/virtualmachine_webhook.go:71 | a node list is recorded; it returns the cluster's error or the matching nodes |
| VMWebhook.VirtualMachineWebhook.ValidateSRIOV | webhooks/virtualization/virtualmachine_webhook.go:62-79 | the network loop issues exactly the SR-IOV check's lists and returns its first error |
| VMWebhook.VirtualMachineWebhook.ValidateHugePages | webhooks/virtualization/virtualmachine_webhook.go:81-97 | the node loop issues exactly the hugepages check's list and returns its error |
| VMWebhook.VirtualMachineWebhook.Handle | webhooks/virtualization/virtualmachine_webhook.go:26-50 | the response and the lists issued are those of the handler's specification |
| VMWebhook.OnlyCreateAndUpdateValidated | webhooks/virtualization/virtualmachine_webhook.go:26-43 | an undecodable request is a bad request; other operations are admitted after defaulting with no lookups; an admitted VM is the defaulted one |
| VMWebhook.SRIOVCheckedBeforeHugepages | webhooks/virtualization/virtualmachine_webhook.go:37-42 | on create and update, an SR-IOV denial is returned before any hugepages lookup; otherwise the VM is admitted exactly when the hugepages check passes |
| VMWebhook.NoSRIOVNetworksPass | webhooks/virtualization/virtualmachine_webhook.go:62-79 | a VM without SR-IOV networks passes without any node lookup |
| VMWebhook.SRIOVDecision | webhooks/virtualization/virtualmachine_webhook.go:67-77 | for the first SR-IOV network, a missing NADRef is denied without lookup; with a NADRef and no sriov.capable node it is denied after one lookup |
| VMWebhook.SRIOVPassesWithCapableNodes | webhooks/virtualization/virtualmachine_webhook.go:62-79 | when capable nodes exist, the check passes exactly when every SR-IOV network has a NADRef, and otherwise fails for the missing NADRef |
| VMWebhook.HugePagesDecision | webhooks/virtualization/virtualmachine_webhook.go:81-97 | empty hugepages pass with no lookup; otherwise one node list is made, and the VM passes exactly when some node has a nonzero allocatable amount of that page size |

## Left out

- Store and backend calls are oracles. Every Get, Update, status write, list and backend call is answered by a function fixed at construction time. Optimistic concurrency and resource versions are not modelled. Neither is an Update writing the server's copy back into the object, nor parallel workers.
- Conflict retries: the code has none and returns every error to the platform's requeue, as the model does.
- Clocks: the controllers' clock is a field of the oracle. Condition transition times are opaque values. The library's choice of the current time when none is given is not modelled.
- `metav1.SetStatusCondition` is modelled as "replace the condition of the same type, keeping its transition time when the status is unchanged". Its other internals are not modelled.
- Webhook decoding and responses: a payload that fails to decode is an input. JSON marshalling, its 500 error and the JSON patch that `PatchResponseFromRaw` computes are not modelled. An admitted object is the response `Patched(obj)`, the object the patch would produce.
- VMWebhook.Defaulted: returns the defaulted VM as a value instead of mutating the decoded object in place, since nothing else holds a reference to it.
- SnapshotWebhook.Handle: the source-namespace defaulting is a value update for the same reason.
- `resource.Quantity`: allocatable hugepages are natural numbers. An absent resource and a zero quantity both mean "not advertised".
- Schema patterns are hand-written recognisers that read each pattern under unanchored search, not a general regular-expression engine.
- Go's nil versus empty slices and maps is not modelled. For example, absent GPUs come back from conversion as an empty list, and a nil label map becomes an empty one.
- The contents of the KubeVirt raw extension are opaque and only copied.
- Auth.ExtractBearer: the prefix test folds ASCII letters only. No other character lowers to a letter of "bearer " or to a space, so the result is the same. Invalid UTF-8 is not modelled, because strings are sequences of characters.
- Integer widths: int32 fields are a bounded newtype. No arithmetic is done on them, so there is no wrap-around to model.
- `GinMiddleware` is not part of this model: the TokenReview call and the impersonation headers are network I/O.
- The audit middleware, the router, `respond`, `respondError`, `ensureAuditID`, `queryOptions`, the HTTP handlers and `OpenAPISchema` are not part of this model. They are HTTP plumbing, random identifiers and a static schema map.
- ListDisks, ListNetworks, ListSnapshots, ListTemplates and the Create calls are not part of this model: each is a single store call without logic. ListVMs is `ListVirtualMachines`.
- MigrateVM is a placeholder that returns no error, and is not modelled.
- The v1beta1 `Hub()` markers have no behaviour.
- Resource kinds without a schema in the repository are inferred from the converters: v1beta1 VirtualDisk, v1beta1 VMSnapshot and v1alpha1 VMTemplate.
