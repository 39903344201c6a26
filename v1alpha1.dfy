/** The v1alpha1 revision of the virtualization resources: their shapes, the validity
    their schema annotations impose on a stored object, and the schema defaults.
    Enum-typed fields stay strings, so a value outside an enum is representable (the
    control plane has explicit error paths for such values). */
module V1Alpha1 {
  import opened Common
  import Patterns

  type PowerState = string

  const PowerStateRunning: PowerState := "Running"
  const PowerStateStopped: PowerState := "Stopped"

  datatype NamespacedName = NamespacedName(namespace: string, name: string)

  datatype LocalObjectReference = LocalObjectReference(name: string)

  datatype Probe = Probe(periodSeconds: int32, timeoutSeconds: int32, failureThreshold: int32)

  datatype VirtualMachineDisk = VirtualMachineDisk(
    diskType: string,
    bus: string,
    cache: string,
    ioThread: bool,
    bootOrder: Option<int32>,
    hotplug: bool,
    diskRef: LocalObjectReference)

  datatype VirtualMachineNetwork = VirtualMachineNetwork(
    netType: string,
    nadRef: Option<NamespacedName>,
    model: string,
    bandwidth: string,
    sriovResource: string,
    multiqueue: bool)

  datatype NUMACell = NUMACell(id: int32, cpus: string, memory: string, threadsPerCore: Option<int32>)

  datatype NUMASpec = NUMASpec(cells: seq<NUMACell>)

  datatype GPUDevice = GPUDevice(name: string, deviceType: string, resourceName: string)

  datatype CloudInitSpec = CloudInitSpec(
    userData: string,
    networkData: string,
    sshAuthorizedKeys: seq<string>,
    userDataSecretRef: Option<NamespacedName>,
    networkDataSecretRef: Option<NamespacedName>)

  datatype ConsoleDevices = ConsoleDevices(vnc: bool, serial: bool, consoleType: string)

  datatype LiveMigrationSpec = LiveMigrationSpec(
    enabled: bool,
    bandwidth: string,
    completionTimeoutSeconds: Option<int32>,
    allowPostCopy: bool,
    autoConverge: bool)

  datatype VirtualMachineSpec = VirtualMachineSpec(
    cpu: string,
    memory: string,
    cpuModel: string,
    dedicatedCPUPlacement: bool,
    numaPolicy: string,
    numa: Option<NUMASpec>,
    hugepages: string,
    gpus: seq<GPUDevice>,
    disks: seq<VirtualMachineDisk>,
    nets: seq<VirtualMachineNetwork>,
    cloudInit: Option<CloudInitSpec>,
    console: Option<ConsoleDevices>,
    liveMigration: Option<LiveMigrationSpec>,
    livenessProbe: Option<Probe>,
    readinessProbe: Option<Probe>,
    powerState: PowerState,
    kubeVirt: Option<RawExtension>)

  datatype VirtualMachineStatus = VirtualMachineStatus(
    conditions: seq<Condition>,
    powerState: PowerState,
    phase: string,
    migrationState: string)

  datatype VirtualMachine = VirtualMachine(meta: ObjectMeta, spec: VirtualMachineSpec, status: VirtualMachineStatus)

  datatype VirtualDiskSpec = VirtualDiskSpec(
    backing: string,
    size: string,
    accessMode: string,
    volumeMode: string,
    storageClass: string)

  datatype VirtualDiskStatus = VirtualDiskStatus(conditions: seq<Condition>)

  datatype VirtualDisk = VirtualDisk(meta: ObjectMeta, spec: VirtualDiskSpec, status: VirtualDiskStatus)

  datatype VirtualNetSpec = VirtualNetSpec(
    nadTemplate: string,
    bandwidthLimit: Option<int32>,
    vlan: Option<int32>,
    sriovResource: string)

  datatype VirtualNetStatus = VirtualNetStatus(conditions: seq<Condition>)

  datatype VirtualNet = VirtualNet(meta: ObjectMeta, spec: VirtualNetSpec, status: VirtualNetStatus)

  datatype VMSnapshotSpec = VMSnapshotSpec(sourceRef: NamespacedName, includedDisks: seq<string>, retainPolicy: string)

  datatype VMSnapshotStatus = VMSnapshotStatus(conditions: seq<Condition>, readyToUse: bool)

  datatype VMSnapshot = VMSnapshot(meta: ObjectMeta, spec: VMSnapshotSpec, status: VMSnapshotStatus)

  // The v1alpha1 template schema is not part of this model; its shape is the one its
  // converters read and write.
  datatype TemplateDisk = TemplateDisk(name: string, size: string, diskType: string)

  datatype TemplateParameters = TemplateParameters(
    cpu: string,
    memory: string,
    os: string,
    image: string,
    networks: seq<string>,
    disks: seq<TemplateDisk>)

  datatype TemplateConstraints = TemplateConstraints(minCPU: string, maxCPU: string, minMemory: string, maxMemory: string)

  datatype VMTemplateSpec = VMTemplateSpec(
    parameters: TemplateParameters,
    constraints: TemplateConstraints,
    uiHints: map<string, string>)

  datatype VMTemplateStatus = VMTemplateStatus(conditions: seq<Condition>)

  datatype VMTemplate = VMTemplate(meta: ObjectMeta, spec: VMTemplateSpec, status: VMTemplateStatus)

  // ---------------------------------------------------------------------------------
  // Validity of a stored object (after schema defaulting)
  // ---------------------------------------------------------------------------------

  predicate ValidPowerState(p: PowerState) { p == PowerStateRunning || p == PowerStateStopped }

  predicate ValidNamespacedName(r: NamespacedName) { |r.namespace| >= 1 && |r.name| >= 1 }

  predicate ValidOptionalRef(r: Option<NamespacedName>) { r.Some? ==> ValidNamespacedName(r.value) }

  predicate ValidProbe(p: Probe) { p.periodSeconds >= 1 && p.timeoutSeconds >= 1 && p.failureThreshold >= 1 }

  predicate ValidOptionalProbe(p: Option<Probe>) { p.Some? ==> ValidProbe(p.value) }

  predicate ValidDisk(d: VirtualMachineDisk) {
    && d.diskType in {"system", "data", "ephemeral"}
    && d.bus in {"virtio", "sata", "scsi"}
    && d.cache in {"none", "writeback", "writethrough", "directsync"}
    && (d.bootOrder.Some? ==> d.bootOrder.value >= 1)
    && |d.diskRef.name| >= 1
  }

  predicate ValidNetwork(n: VirtualMachineNetwork) {
    && n.netType in {"bridge", "masquerade", "sriov"}
    && ValidOptionalRef(n.nadRef)
    && Patterns.NicModel(n.model)
    && Patterns.Bandwidth(n.bandwidth)
  }

  predicate ValidNUMACell(c: NUMACell) {
    && c.id >= 0
    && Patterns.CpuSet(c.cpus)
    && Patterns.PositiveMemory(c.memory)
    && (c.threadsPerCore.Some? ==> c.threadsPerCore.value >= 1)
  }

  predicate ValidNUMA(n: NUMASpec) {
    |n.cells| >= 1 && forall i :: 0 <= i < |n.cells| ==> ValidNUMACell(n.cells[i])
  }

  predicate ValidGPU(g: GPUDevice) {
    |g.name| >= 1 && g.deviceType in {"vgpu", "passthrough"} && Patterns.ResourceName(g.resourceName)
  }

  predicate ValidCloudInit(c: CloudInitSpec) {
    ValidOptionalRef(c.userDataSecretRef) && ValidOptionalRef(c.networkDataSecretRef)
  }

  predicate ValidConsole(c: ConsoleDevices) { c.consoleType in {"", "spice"} }

  predicate ValidLiveMigration(l: LiveMigrationSpec) {
    Patterns.OptionalPositiveMemory(l.bandwidth) &&
    (l.completionTimeoutSeconds.Some? ==> l.completionTimeoutSeconds.value >= 0)
  }

  predicate ValidVirtualMachineSpec(s: VirtualMachineSpec) {
    && Patterns.CpuQuantity(s.cpu)
    && Patterns.MemoryQuantity(s.memory)
    && Patterns.CpuModel(s.cpuModel)
    && s.numaPolicy in {"none", "strict", "best-effort"}
    && (s.numa.Some? ==> ValidNUMA(s.numa.value))
    && s.hugepages in {"", "1Gi", "2Mi"}
    && (forall i :: 0 <= i < |s.gpus| ==> ValidGPU(s.gpus[i]))
    && |s.disks| >= 1
    && (forall i :: 0 <= i < |s.disks| ==> ValidDisk(s.disks[i]))
    && |s.nets| >= 1
    && (forall i :: 0 <= i < |s.nets| ==> ValidNetwork(s.nets[i]))
    && (s.cloudInit.Some? ==> ValidCloudInit(s.cloudInit.value))
    && (s.console.Some? ==> ValidConsole(s.console.value))
    && (s.liveMigration.Some? ==> ValidLiveMigration(s.liveMigration.value))
    && ValidOptionalProbe(s.livenessProbe)
    && ValidOptionalProbe(s.readinessProbe)
    && ValidPowerState(s.powerState)
  }

  /** The observed power state is omitted when empty; otherwise it is one of the enum. */
  predicate ValidVirtualMachineStatus(s: VirtualMachineStatus) { s.powerState == "" || ValidPowerState(s.powerState) }

  predicate ValidVirtualMachine(vm: VirtualMachine) {
    ValidVirtualMachineSpec(vm.spec) && ValidVirtualMachineStatus(vm.status)
  }

  /** The storage class is omitted when empty, so its minimum length never rejects a value. */
  predicate ValidVirtualDiskSpec(s: VirtualDiskSpec) {
    && s.backing in {"DataVolume", "PVC", "Blank"}
    && Patterns.DiskSize(s.size)
    && s.accessMode in {"ReadWriteOnce", "ReadOnlyMany", "ReadWriteMany"}
    && s.volumeMode in {"Block", "Filesystem"}
  }

  predicate ValidVirtualNetSpec(s: VirtualNetSpec) {
    && |s.nadTemplate| >= 1
    && (s.bandwidthLimit.Some? ==> s.bandwidthLimit.value >= 1)
    && (s.vlan.Some? ==> 0 <= s.vlan.value <= 4094)
    && Patterns.OptionalResourceName(s.sriovResource)
  }

  /** `includedDisks` may be empty here; only the admission hook insists on a disk. */
  predicate ValidVMSnapshotSpec(s: VMSnapshotSpec) {
    ValidNamespacedName(s.sourceRef) && s.retainPolicy in {"Retain", "Delete"}
  }

  // ---------------------------------------------------------------------------------
  // Schema defaults: an omitted (empty) field takes its declared default
  // ---------------------------------------------------------------------------------

  function DefaultString(s: string, d: string): string { if s == "" then d else s }

  function DefaultInt(x: int32, d: int32): int32 { if x == 0 then d else x }

  function ProbeDefaults(p: Probe): Probe {
    Probe(DefaultInt(p.periodSeconds, 10), DefaultInt(p.timeoutSeconds, 30), DefaultInt(p.failureThreshold, 3))
  }

  function OptionalProbeDefaults(p: Option<Probe>): Option<Probe> {
    if p.Some? then Some(ProbeDefaults(p.value)) else None
  }

  function DiskDefaults(d: VirtualMachineDisk): VirtualMachineDisk {
    d.(bus := DefaultString(d.bus, "virtio"), cache := DefaultString(d.cache, "none"))
  }

  /** A boolean whose default is `true` is omitted when `false`, so it always reads back `true`. */
  function ConsoleDefaults(c: ConsoleDevices): ConsoleDevices {
    c.(vnc := true, serial := true)
  }

  function SpecDefaults(s: VirtualMachineSpec): VirtualMachineSpec {
    s.(numaPolicy := DefaultString(s.numaPolicy, "none"),
       disks := seq(|s.disks|, i requires 0 <= i < |s.disks| => DiskDefaults(s.disks[i])),
       console := if s.console.Some? then Some(ConsoleDefaults(s.console.value)) else None,
       livenessProbe := OptionalProbeDefaults(s.livenessProbe),
       readinessProbe := OptionalProbeDefaults(s.readinessProbe),
       powerState := DefaultString(s.powerState, PowerStateRunning))
  }

  function VirtualDiskSpecDefaults(s: VirtualDiskSpec): VirtualDiskSpec {
    s.(accessMode := DefaultString(s.accessMode, "ReadWriteOnce"), volumeMode := DefaultString(s.volumeMode, "Filesystem"))
  }

  function VMSnapshotSpecDefaults(s: VMSnapshotSpec): VMSnapshotSpec {
    s.(retainPolicy := DefaultString(s.retainPolicy, "Retain"))
  }

  /** Defaulting fills the omitted power state, NUMA policy, disk bus and disk cache, turns
      both console devices on, keeps every value that was given and which optional parts
      are present; applying it again changes nothing. */
  lemma SpecDefaultsProperties(s: VirtualMachineSpec)
    ensures SpecDefaults(SpecDefaults(s)) == SpecDefaults(s)
    ensures s.powerState == "" ==> SpecDefaults(s).powerState == PowerStateRunning
    ensures s.powerState != "" ==> SpecDefaults(s).powerState == s.powerState
    ensures s.numaPolicy == "" ==> SpecDefaults(s).numaPolicy == "none"
    ensures s.numaPolicy != "" ==> SpecDefaults(s).numaPolicy == s.numaPolicy
    ensures |SpecDefaults(s).disks| == |s.disks|
    ensures forall i :: 0 <= i < |s.disks| ==>
      SpecDefaults(s).disks[i].bus == (if s.disks[i].bus == "" then "virtio" else s.disks[i].bus) &&
      SpecDefaults(s).disks[i].cache == (if s.disks[i].cache == "" then "none" else s.disks[i].cache)
    ensures SpecDefaults(s).livenessProbe.Some? <==> s.livenessProbe.Some?
    ensures SpecDefaults(s).readinessProbe.Some? <==> s.readinessProbe.Some?
    ensures SpecDefaults(s).console.Some? <==> s.console.Some?
    ensures SpecDefaults(s).console.Some? ==>
      SpecDefaults(s).console.value == s.console.value.(vnc := true, serial := true)
  {
    var d := SpecDefaults(s);
    assert SpecDefaults(d).disks == d.disks;
  }

  /** A spec the schema accepts already has every defaulted field filled in, so defaulting
      can change only its console switches, and it stays accepted. */
  lemma DefaultsKeepValidity(s: VirtualMachineSpec)
    requires ValidVirtualMachineSpec(s)
    ensures ValidVirtualMachineSpec(SpecDefaults(s))
    ensures SpecDefaults(s).(console := s.console) == s
  {
    assert SpecDefaults(s).disks == s.disks;
  }

  /** An omitted probe period, timeout or failure threshold takes 10, 30 and 3; a given value
      is kept; a probe whose fields are not negative defaults to one the schema accepts. */
  lemma ProbeDefaultsProperties(s: VirtualMachineSpec)
    ensures s.livenessProbe.Some? ==> var p := s.livenessProbe.value;
      SpecDefaults(s).livenessProbe == Some(Probe(
        if p.periodSeconds == 0 then 10 else p.periodSeconds,
        if p.timeoutSeconds == 0 then 30 else p.timeoutSeconds,
        if p.failureThreshold == 0 then 3 else p.failureThreshold))
    ensures s.readinessProbe.Some? ==> var p := s.readinessProbe.value;
      SpecDefaults(s).readinessProbe == Some(Probe(
        if p.periodSeconds == 0 then 10 else p.periodSeconds,
        if p.timeoutSeconds == 0 then 30 else p.timeoutSeconds,
        if p.failureThreshold == 0 then 3 else p.failureThreshold))
    ensures (s.livenessProbe.Some? && s.livenessProbe.value.periodSeconds >= 0 &&
             s.livenessProbe.value.timeoutSeconds >= 0 && s.livenessProbe.value.failureThreshold >= 0)
            ==> ValidProbe(SpecDefaults(s).livenessProbe.value)
    ensures (s.readinessProbe.Some? && s.readinessProbe.value.periodSeconds >= 0 &&
             s.readinessProbe.value.timeoutSeconds >= 0 && s.readinessProbe.value.failureThreshold >= 0)
            ==> ValidProbe(SpecDefaults(s).readinessProbe.value)
  {
  }

  /** Disk-level defaults are idempotent and land inside the bus and cache enums. */
  lemma DiskDefaultsInEnums(d: VirtualMachineDisk)
    requires d.bus in {"", "virtio", "sata", "scsi"}
    requires d.cache in {"", "none", "writeback", "writethrough", "directsync"}
    ensures DiskDefaults(d).bus in {"virtio", "sata", "scsi"}
    ensures DiskDefaults(d).cache in {"none", "writeback", "writethrough", "directsync"}
    ensures DiskDefaults(DiskDefaults(d)) == DiskDefaults(d)
  {
  }

  /** A VirtualDisk's omitted access and volume modes take ReadWriteOnce and Filesystem, given
      modes are kept, a spec the schema accepts is left as it is, and defaulting a spec whose
      modes are omitted or in their enums yields modes in the enums. */
  lemma VirtualDiskDefaultsProperties(d: VirtualDiskSpec)
    ensures VirtualDiskSpecDefaults(d).accessMode == (if d.accessMode == "" then "ReadWriteOnce" else d.accessMode)
    ensures VirtualDiskSpecDefaults(d).volumeMode == (if d.volumeMode == "" then "Filesystem" else d.volumeMode)
    ensures VirtualDiskSpecDefaults(d).(accessMode := d.accessMode, volumeMode := d.volumeMode) == d
    ensures ValidVirtualDiskSpec(d) ==> VirtualDiskSpecDefaults(d) == d
    ensures d.accessMode in {"", "ReadWriteOnce", "ReadOnlyMany", "ReadWriteMany"} &&
            d.volumeMode in {"", "Block", "Filesystem"} &&
            d.backing in {"DataVolume", "PVC", "Blank"} && Patterns.DiskSize(d.size)
            ==> ValidVirtualDiskSpec(VirtualDiskSpecDefaults(d))
  {
  }

  /** A VMSnapshot's omitted retain policy becomes Retain and a given one is kept; the schema
      accepts a snapshot that lists no disks (only the admission hook refuses one). */
  lemma VMSnapshotDefaultsProperties(s: VMSnapshotSpec)
    ensures VMSnapshotSpecDefaults(s).retainPolicy == (if s.retainPolicy == "" then "Retain" else s.retainPolicy)
    ensures VMSnapshotSpecDefaults(s).(retainPolicy := s.retainPolicy) == s
    ensures ValidNamespacedName(s.sourceRef) && s.retainPolicy in {"", "Retain", "Delete"} ==>
      ValidVMSnapshotSpec(VMSnapshotSpecDefaults(s))
    ensures ValidVMSnapshotSpec(VMSnapshotSpec(NamespacedName("default", "vm"), [], "Retain"))
  {
  }
}
