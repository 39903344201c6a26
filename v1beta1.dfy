/** The v1beta1 revision (the hub and storage revision) of the virtualization resources:
    their shapes, the validity their schema annotations impose on a stored object, and
    the schema defaults. Unlike v1alpha1, a probe here has neither minimums nor defaults. */
module V1Beta1 {
  import opened Common
  import Patterns

  type PowerState = string

  const PowerStateRunning: PowerState := "Running"
  const PowerStateStopped: PowerState := "Stopped"

  const ConditionTypePowerOperation := "PowerOperation"
  const ConditionTypeMigration := "Migration"
  const ConditionReasonProgressing := "Progressing"
  const ConditionReasonReady := "Ready"
  const ConditionReasonFailed := "Failed"

  datatype NamespacedName = NamespacedName(namespace: string, name: string)

  datatype LocalObjectReference = LocalObjectReference(name: string)

  datatype Probe = Probe(periodSeconds: int32, timeoutSeconds: int32, failureThreshold: int32)

  datatype VirtualMachineDisk = VirtualMachineDisk(
    diskType: string,
    bus: string,
    cache: string,
    ioThread: bool,
    bootOrder: Option<int32>,
    hotplug: bool,
    diskRef: LocalObjectReference)

  datatype VirtualMachineNetwork = VirtualMachineNetwork(
    netType: string,
    nadRef: Option<NamespacedName>,
    model: string,
    bandwidth: string,
    sriovResource: string,
    multiqueue: bool)

  datatype NUMACell = NUMACell(id: int32, cpus: string, memory: string, threadsPerCore: Option<int32>)

  datatype NUMASpec = NUMASpec(cells: seq<NUMACell>)

  datatype GPUDevice = GPUDevice(name: string, deviceType: string, resourceName: string)

  datatype CloudInitSpec = CloudInitSpec(
    userData: string,
    networkData: string,
    sshAuthorizedKeys: seq<string>,
    userDataSecretRef: Option<NamespacedName>,
    networkDataSecretRef: Option<NamespacedName>)

  datatype ConsoleDevices = ConsoleDevices(vnc: bool, serial: bool, consoleType: string)

  datatype LiveMigrationSpec = LiveMigrationSpec(
    enabled: bool,
    bandwidth: string,
    completionTimeoutSeconds: Option<int32>,
    allowPostCopy: bool,
    autoConverge: bool)

  datatype VirtualMachineSpec = VirtualMachineSpec(
    cpu: string,
    memory: string,
    cpuModel: string,
    dedicatedCPUPlacement: bool,
    numaPolicy: string,
    numa: Option<NUMASpec>,
    hugepages: string,
    gpus: seq<GPUDevice>,
    disks: seq<VirtualMachineDisk>,
    nets: seq<VirtualMachineNetwork>,
    cloudInit: Option<CloudInitSpec>,
    console: Option<ConsoleDevices>,
    liveMigration: Option<LiveMigrationSpec>,
    livenessProbe: Option<Probe>,
    readinessProbe: Option<Probe>,
    powerState: PowerState,
    kubeVirt: Option<RawExtension>)

  datatype VirtualMachineStatus = VirtualMachineStatus(
    conditions: seq<Condition>,
    powerState: PowerState,
    phase: string,
    migrationState: string)

  datatype VirtualMachine = VirtualMachine(meta: ObjectMeta, spec: VirtualMachineSpec, status: VirtualMachineStatus)

  datatype VirtualDiskSpec = VirtualDiskSpec(
    backing: string,
    size: string,
    accessMode: string,
    volumeMode: string,
    storageClass: string)

  datatype VirtualDiskStatus = VirtualDiskStatus(conditions: seq<Condition>)

  datatype VirtualDisk = VirtualDisk(meta: ObjectMeta, spec: VirtualDiskSpec, status: VirtualDiskStatus)

  datatype VirtualNetSpec = VirtualNetSpec(
    nadTemplate: string,
    bandwidthLimit: Option<int32>,
    vlan: Option<int32>,
    sriovResource: string)

  datatype VirtualNetStatus = VirtualNetStatus(conditions: seq<Condition>)

  datatype VirtualNet = VirtualNet(meta: ObjectMeta, spec: VirtualNetSpec, status: VirtualNetStatus)

  datatype VMSnapshotSpec = VMSnapshotSpec(sourceRef: NamespacedName, includedDisks: seq<string>, retainPolicy: string)

  datatype VMSnapshotStatus = VMSnapshotStatus(conditions: seq<Condition>, readyToUse: bool)

  datatype VMSnapshot = VMSnapshot(meta: ObjectMeta, spec: VMSnapshotSpec, status: VMSnapshotStatus)

  // The v1beta1 disk and snapshot schemas are not part of this model; their shapes are
  // the ones the converters read and write.
  datatype TemplateDisk = TemplateDisk(name: string, size: string, diskType: string)

  datatype TemplateParameters = TemplateParameters(
    cpu: string,
    memory: string,
    os: string,
    image: string,
    networks: seq<string>,
    disks: seq<TemplateDisk>)

  datatype TemplateConstraints = TemplateConstraints(minCPU: string, maxCPU: string, minMemory: string, maxMemory: string)

  datatype VMTemplateSpec = VMTemplateSpec(
    parameters: TemplateParameters,
    constraints: TemplateConstraints,
    uiHints: map<string, string>)

  datatype VMTemplateStatus = VMTemplateStatus(conditions: seq<Condition>)

  datatype VMTemplate = VMTemplate(meta: ObjectMeta, spec: VMTemplateSpec, status: VMTemplateStatus)

  // ---------------------------------------------------------------------------------
  // Validity of a stored object (after schema defaulting)
  // ---------------------------------------------------------------------------------

  predicate ValidPowerState(p: PowerState) { p == PowerStateRunning || p == PowerStateStopped }

  predicate ValidNamespacedName(r: NamespacedName) { |r.namespace| >= 1 && |r.name| >= 1 }

  predicate ValidOptionalRef(r: Option<NamespacedName>) { r.Some? ==> ValidNamespacedName(r.value) }

  predicate ValidDisk(d: VirtualMachineDisk) {
    && d.diskType in {"system", "data", "ephemeral"}
    && d.bus in {"virtio", "sata", "scsi"}
    && d.cache in {"none", "writeback", "writethrough", "directsync"}
    && (d.bootOrder.Some? ==> d.bootOrder.value >= 1)
    && |d.diskRef.name| >= 1
  }

  predicate ValidNetwork(n: VirtualMachineNetwork) {
    && n.netType in {"bridge", "masquerade", "sriov"}
    && ValidOptionalRef(n.nadRef)
    && Patterns.NicModel(n.model)
    && Patterns.Bandwidth(n.bandwidth)
  }

  predicate ValidNUMACell(c: NUMACell) {
    && c.id >= 0
    && Patterns.CpuSet(c.cpus)
    && Patterns.PositiveMemory(c.memory)
    && (c.threadsPerCore.Some? ==> c.threadsPerCore.value >= 1)
  }

  predicate ValidNUMA(n: NUMASpec) {
    |n.cells| >= 1 && forall i :: 0 <= i < |n.cells| ==> ValidNUMACell(n.cells[i])
  }

  predicate ValidGPU(g: GPUDevice) {
    |g.name| >= 1 && g.deviceType in {"vgpu", "passthrough"} && Patterns.ResourceName(g.resourceName)
  }

  predicate ValidCloudInit(c: CloudInitSpec) {
    ValidOptionalRef(c.userDataSecretRef) && ValidOptionalRef(c.networkDataSecretRef)
  }

  predicate ValidConsole(c: ConsoleDevices) { c.consoleType in {"", "spice"} }

  predicate ValidLiveMigration(l: LiveMigrationSpec) {
    Patterns.OptionalPositiveMemory(l.bandwidth) &&
    (l.completionTimeoutSeconds.Some? ==> l.completionTimeoutSeconds.value >= 0)
  }

  /** As in v1alpha1, except that probes are unconstrained. */
  predicate ValidVirtualMachineSpec(s: VirtualMachineSpec) {
    && Patterns.CpuQuantity(s.cpu)
    && Patterns.MemoryQuantity(s.memory)
    && Patterns.CpuModel(s.cpuModel)
    && s.numaPolicy in {"none", "strict", "best-effort"}
    && (s.numa.Some? ==> ValidNUMA(s.numa.value))
    && s.hugepages in {"", "1Gi", "2Mi"}
    && (forall i :: 0 <= i < |s.gpus| ==> ValidGPU(s.gpus[i]))
    && |s.disks| >= 1
    && (forall i :: 0 <= i < |s.disks| ==> ValidDisk(s.disks[i]))
    && |s.nets| >= 1
    && (forall i :: 0 <= i < |s.nets| ==> ValidNetwork(s.nets[i]))
    && (s.cloudInit.Some? ==> ValidCloudInit(s.cloudInit.value))
    && (s.console.Some? ==> ValidConsole(s.console.value))
    && (s.liveMigration.Some? ==> ValidLiveMigration(s.liveMigration.value))
    && ValidPowerState(s.powerState)
  }

  predicate ValidVirtualMachineStatus(s: VirtualMachineStatus) { s.powerState == "" || ValidPowerState(s.powerState) }

  predicate ValidVirtualMachine(vm: VirtualMachine) {
    ValidVirtualMachineSpec(vm.spec) && ValidVirtualMachineStatus(vm.status)
  }

  predicate ValidVirtualNetSpec(s: VirtualNetSpec) {
    && |s.nadTemplate| >= 1
    && (s.bandwidthLimit.Some? ==> s.bandwidthLimit.value >= 1)
    && (s.vlan.Some? ==> 0 <= s.vlan.value <= 4094)
    && Patterns.OptionalResourceName(s.sriovResource)
  }

  predicate ValidTemplateDisk(d: TemplateDisk) {
    |d.name| >= 1 && Patterns.DiskSize(d.size) && d.diskType in {"system", "data", "ephemeral"}
  }

  /** Constraint bounds are omitted when empty; a given bound must match its pattern. */
  predicate ValidTemplateConstraints(c: TemplateConstraints) {
    && (c.minCPU == "" || Patterns.CpuQuantity(c.minCPU))
    && (c.maxCPU == "" || Patterns.CpuQuantity(c.maxCPU))
    && (c.minMemory == "" || Patterns.PositiveMemory(c.minMemory))
    && (c.maxMemory == "" || Patterns.PositiveMemory(c.maxMemory))
  }

  predicate ValidVMTemplateSpec(s: VMTemplateSpec) {
    && Patterns.CpuQuantity(s.parameters.cpu)
    && Patterns.PositiveMemory(s.parameters.memory)
    && |s.parameters.os| >= 1
    && |s.parameters.image| >= 1
    && (forall i :: 0 <= i < |s.parameters.disks| ==> ValidTemplateDisk(s.parameters.disks[i]))
    && ValidTemplateConstraints(s.constraints)
  }

  // ---------------------------------------------------------------------------------
  // Schema defaults: an omitted (empty) field takes its declared default
  // ---------------------------------------------------------------------------------

  function DefaultString(s: string, d: string): string { if s == "" then d else s }

  function DiskDefaults(d: VirtualMachineDisk): VirtualMachineDisk {
    d.(bus := DefaultString(d.bus, "virtio"), cache := DefaultString(d.cache, "none"))
  }

  /** A boolean whose default is `true` is omitted when `false`, so it always reads back `true`. */
  function ConsoleDefaults(c: ConsoleDevices): ConsoleDevices {
    c.(vnc := true, serial := true)
  }

  function SpecDefaults(s: VirtualMachineSpec): VirtualMachineSpec {
    s.(numaPolicy := DefaultString(s.numaPolicy, "none"),
       disks := seq(|s.disks|, i requires 0 <= i < |s.disks| => DiskDefaults(s.disks[i])),
       console := if s.console.Some? then Some(ConsoleDefaults(s.console.value)) else None,
       powerState := DefaultString(s.powerState, PowerStateRunning))
  }

  /** Defaulting fills the omitted power state, NUMA policy, disk bus and disk cache, turns
      both console devices on, keeps given values, leaves probes untouched (this revision
      declares no probe defaults) and is idempotent. */
  lemma SpecDefaultsProperties(s: VirtualMachineSpec)
    ensures SpecDefaults(SpecDefaults(s)) == SpecDefaults(s)
    ensures SpecDefaults(s).powerState == (if s.powerState == "" then PowerStateRunning else s.powerState)
    ensures SpecDefaults(s).numaPolicy == (if s.numaPolicy == "" then "none" else s.numaPolicy)
    ensures SpecDefaults(s).livenessProbe == s.livenessProbe
    ensures SpecDefaults(s).readinessProbe == s.readinessProbe
    ensures SpecDefaults(s).hugepages == s.hugepages
    ensures |SpecDefaults(s).disks| == |s.disks|
    ensures forall i :: 0 <= i < |s.disks| ==>
      SpecDefaults(s).disks[i].bus == (if s.disks[i].bus == "" then "virtio" else s.disks[i].bus) &&
      SpecDefaults(s).disks[i].cache == (if s.disks[i].cache == "" then "none" else s.disks[i].cache)
    ensures SpecDefaults(s).console.Some? <==> s.console.Some?
    ensures SpecDefaults(s).console.Some? ==>
      SpecDefaults(s).console.value == s.console.value.(vnc := true, serial := true)
  {
    var d := SpecDefaults(s);
    assert SpecDefaults(d).disks == d.disks;
  }

  /** A spec the schema accepts already has every defaulted field filled in, so defaulting
      can change only its console switches, and it stays accepted. */
  lemma DefaultsKeepValidity(s: VirtualMachineSpec)
    requires ValidVirtualMachineSpec(s)
    ensures ValidVirtualMachineSpec(SpecDefaults(s))
    ensures SpecDefaults(s).(console := s.console) == s
  {
    assert SpecDefaults(s).disks == s.disks;
  }
}
