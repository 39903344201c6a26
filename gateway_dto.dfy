/** The gateway's request payloads and the builders that turn them into hub objects. Each
    builder labels the object with the owning workspace, project and cluster the request
    names, sets the name from the request and the namespace from the route, and copies the
    spec fields verbatim. */
module GatewayDTO {
  import opened Common
  import B = V1Beta1
  import Admission
  import SnapshotWebhook

  const LabelWorkspace := "kubesphere.io/workspace"
  const LabelProject := "kubesphere.io/project"
  const LabelCluster := "kubesphere.io/cluster"

  datatype VirtualMachineRequest = VirtualMachineRequest(
    name: string,
    workspace: string,
    project: string,
    cluster: string,
    cpu: string,
    memory: string,
    cpuModel: string,
    dedicated: bool,
    numaPolicy: string,
    numa: Option<B.NUMASpec>,
    hugepages: string,
    gpus: seq<B.GPUDevice>,
    disks: seq<B.VirtualMachineDisk>,
    nets: seq<B.VirtualMachineNetwork>,
    cloudInit: Option<B.CloudInitSpec>,
    console: Option<B.ConsoleDevices>,
    migration: Option<B.LiveMigrationSpec>,
    liveness: Option<B.Probe>,
    readiness: Option<B.Probe>,
    powerState: B.PowerState,
    kubeVirt: Option<RawExtension>)

  datatype VirtualDiskRequest = VirtualDiskRequest(
    name: string, workspace: string, project: string, cluster: string,
    backing: string, size: string, accessMode: string, volumeMode: string, storageClass: string)

  datatype VirtualNetRequest = VirtualNetRequest(
    name: string, workspace: string, project: string, cluster: string,
    nadTemplate: string, bandwidth: Option<int32>, vlan: Option<int32>, sriovResource: string)

  datatype VMSnapshotRequest = VMSnapshotRequest(
    name: string, workspace: string, project: string, cluster: string,
    sourceName: string, includedDisks: seq<string>, retainPolicy: string)

  datatype VMTemplateRequest = VMTemplateRequest(
    name: string, workspace: string, project: string, cluster: string,
    parameters: B.TemplateParameters, constraints: B.TemplateConstraints, uiHints: map<string, string>)

  /** The ownership labels: one per non-empty request field, carrying that field's value,
      and nothing else. */
  function OwnershipLabels(workspace: string, project: string, cluster: string): (r: map<string, string>)
    ensures LabelWorkspace in r <==> workspace != ""
    ensures LabelProject in r <==> project != ""
    ensures LabelCluster in r <==> cluster != ""
    ensures LabelWorkspace in r ==> r[LabelWorkspace] == workspace
    ensures LabelProject in r ==> r[LabelProject] == project
    ensures LabelCluster in r ==> r[LabelCluster] == cluster
    ensures r.Keys <= {LabelWorkspace, LabelProject, LabelCluster}
  {
    var w: map<string, string> := if workspace != "" then map[LabelWorkspace := workspace] else map[];
    var p := if project != "" then w[LabelProject := project] else w;
    if cluster != "" then p[LabelCluster := cluster] else p
  }

  /** The envelope every builder produces. */
  predicate BuiltMeta(m: ObjectMeta, namespace: string, name: string, workspace: string, project: string, cluster: string) {
    m == NewMeta(name, namespace, OwnershipLabels(workspace, project, cluster))
  }

  function ToVirtualMachine(namespace: string, req: VirtualMachineRequest): (vm: B.VirtualMachine)
    ensures BuiltMeta(vm.meta, namespace, req.name, req.workspace, req.project, req.cluster)
    ensures vm.meta.finalizers == [] && vm.meta.deletionTimestamp.None?
    ensures vm.spec.cpu == req.cpu && vm.spec.memory == req.memory && vm.spec.cpuModel == req.cpuModel
    ensures vm.spec.dedicatedCPUPlacement == req.dedicated && vm.spec.numaPolicy == req.numaPolicy
    ensures vm.spec.numa == req.numa && vm.spec.hugepages == req.hugepages && vm.spec.gpus == req.gpus
    ensures vm.spec.disks == req.disks && vm.spec.nets == req.nets && vm.spec.cloudInit == req.cloudInit
    ensures vm.spec.console == req.console && vm.spec.liveMigration == req.migration
    ensures vm.spec.livenessProbe == req.liveness && vm.spec.readinessProbe == req.readiness
    ensures vm.spec.powerState == req.powerState && vm.spec.kubeVirt == req.kubeVirt
    ensures vm.status == B.VirtualMachineStatus([], "", "", "")
  {
    B.VirtualMachine(
      NewMeta(req.name, namespace, OwnershipLabels(req.workspace, req.project, req.cluster)),
      B.VirtualMachineSpec(req.cpu, req.memory, req.cpuModel, req.dedicated, req.numaPolicy, req.numa,
        req.hugepages, req.gpus, req.disks, req.nets, req.cloudInit, req.console, req.migration,
        req.liveness, req.readiness, req.powerState, req.kubeVirt),
      B.VirtualMachineStatus([], "", "", ""))
  }

  function ToVirtualDisk(namespace: string, req: VirtualDiskRequest): (d: B.VirtualDisk)
    ensures BuiltMeta(d.meta, namespace, req.name, req.workspace, req.project, req.cluster)
    ensures d.spec.backing == req.backing && d.spec.size == req.size && d.spec.accessMode == req.accessMode
    ensures d.spec.volumeMode == req.volumeMode && d.spec.storageClass == req.storageClass
    ensures d.status.conditions == []
  {
    B.VirtualDisk(
      NewMeta(req.name, namespace, OwnershipLabels(req.workspace, req.project, req.cluster)),
      B.VirtualDiskSpec(req.backing, req.size, req.accessMode, req.volumeMode, req.storageClass),
      B.VirtualDiskStatus([]))
  }

  function ToVirtualNet(namespace: string, req: VirtualNetRequest): (n: B.VirtualNet)
    ensures BuiltMeta(n.meta, namespace, req.name, req.workspace, req.project, req.cluster)
    ensures n.spec.nadTemplate == req.nadTemplate && n.spec.bandwidthLimit == req.bandwidth
    ensures n.spec.vlan == req.vlan && n.spec.sriovResource == req.sriovResource
    ensures n.status.conditions == []
  {
    B.VirtualNet(
      NewMeta(req.name, namespace, OwnershipLabels(req.workspace, req.project, req.cluster)),
      B.VirtualNetSpec(req.nadTemplate, req.bandwidth, req.vlan, req.sriovResource),
      B.VirtualNetStatus([]))
  }

  /** The snapshot's source is the VM of the given name in the route's namespace. */
  function ToVMSnapshot(namespace: string, req: VMSnapshotRequest): (s: B.VMSnapshot)
    ensures BuiltMeta(s.meta, namespace, req.name, req.workspace, req.project, req.cluster)
    ensures s.spec.sourceRef == B.NamespacedName(namespace, req.sourceName)
    ensures s.spec.sourceRef.namespace == s.meta.namespace
    ensures s.spec.includedDisks == req.includedDisks && s.spec.retainPolicy == req.retainPolicy
    ensures s.status == B.VMSnapshotStatus([], false)
  {
    B.VMSnapshot(
      NewMeta(req.name, namespace, OwnershipLabels(req.workspace, req.project, req.cluster)),
      B.VMSnapshotSpec(B.NamespacedName(namespace, req.sourceName), req.includedDisks, req.retainPolicy),
      B.VMSnapshotStatus([], false))
  }

  function ToVMTemplate(namespace: string, req: VMTemplateRequest): (t: B.VMTemplate)
    ensures BuiltMeta(t.meta, namespace, req.name, req.workspace, req.project, req.cluster)
    ensures t.spec.parameters == req.parameters && t.spec.constraints == req.constraints
    ensures t.spec.uiHints == req.uiHints
    ensures t.status.conditions == []
  {
    B.VMTemplate(
      NewMeta(req.name, namespace, OwnershipLabels(req.workspace, req.project, req.cluster)),
      B.VMTemplateSpec(req.parameters, req.constraints, req.uiHints),
      B.VMTemplateStatus([]))
  }

  /** From*List: the items of a list response, in the store's order. */
  function FromList<T>(list: ObjectList<T>): (r: seq<T>)
    ensures |r| == |list.items|
    ensures forall i :: 0 <= i < |r| ==> r[i] == list.items[i]
  {
    [] + list.items
  }

  /** A snapshot built from a request and submitted in the route's namespace already names
      its source there: the snapshot webhook admits it unchanged exactly when it lists disks. */
  lemma BuiltSnapshotAdmission(namespace: string, req: VMSnapshotRequest, op: Admission.Operation)
    ensures var s := ToVMSnapshot(namespace, req);
      var r := SnapshotWebhook.Handle(Admission.Request(op, namespace, Admission.Decoded(s)));
      && (req.includedDisks != [] ==> r == Admission.Patched(s))
      && (req.includedDisks == [] ==> r == Admission.Denied(SnapshotWebhook.NoDisks))
  {
  }
}
