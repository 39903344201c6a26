/** Conversion between the v1alpha1 revision and the v1beta1 hub. Every conversion is a
    total, field-by-field copy: it never fails, fills no default and drops nothing, so
    each round trip is the identity. */
module Conversion {
  import opened Common
  import A = V1Alpha1
  import B = V1Beta1

  // ---------------------------------------------------------------------------------
  // Element-wise list conversion
  // ---------------------------------------------------------------------------------

  /** The list whose element i is `f` applied to element i of `xs`. */
  function MapSeq<X, Y>(xs: seq<X>, f: X -> Y): (r: seq<Y>)
    ensures |r| == |xs|
    ensures forall i :: 0 <= i < |xs| ==> r[i] == f(xs[i])
  {
    seq(|xs|, i requires 0 <= i < |xs| => f(xs[i]))
  }

  /** The list helpers: a freshly made slice of the input's length, filled by index. */
  method ConvertAll<X, Y(0)>(xs: seq<X>, f: X -> Y) returns (out: seq<Y>)
    ensures out == MapSeq(xs, f)
  {
    var buf := new Y[|xs|];
    var i := 0;
    while i < |xs|
      invariant 0 <= i <= |xs|
      invariant forall j :: 0 <= j < i ==> buf[j] == f(xs[j])
    {
      buf[i] := f(xs[i]);
      i := i + 1;
    }
    out := buf[..];
  }

  /** Converting element-wise with `f` and then with a left inverse `g` restores the list. */
  lemma MapSeqInverse<X, Y>(xs: seq<X>, f: X -> Y, g: Y -> X)
    requires forall x :: g(f(x)) == x
    ensures MapSeq(MapSeq(xs, f), g) == xs
  {
    var ys := MapSeq(MapSeq(xs, f), g);
    assert |ys| == |xs|;
    forall i | 0 <= i < |xs| ensures ys[i] == xs[i] {
      assert ys[i] == g(f(xs[i]));
    }
  }

  // ---------------------------------------------------------------------------------
  // Field copies, alpha to hub and back
  // ---------------------------------------------------------------------------------

  function RefToBeta(r: A.NamespacedName): B.NamespacedName { B.NamespacedName(r.namespace, r.name) }
  function RefToAlpha(r: B.NamespacedName): A.NamespacedName { A.NamespacedName(r.namespace, r.name) }

  function OptRefToBeta(r: Option<A.NamespacedName>): Option<B.NamespacedName> {
    if r.Some? then Some(RefToBeta(r.value)) else None
  }
  function OptRefToAlpha(r: Option<B.NamespacedName>): Option<A.NamespacedName> {
    if r.Some? then Some(RefToAlpha(r.value)) else None
  }

  function DiskToBeta(d: A.VirtualMachineDisk): B.VirtualMachineDisk {
    B.VirtualMachineDisk(d.diskType, d.bus, d.cache, d.ioThread, d.bootOrder, d.hotplug,
      B.LocalObjectReference(d.diskRef.name))
  }
  function DiskToAlpha(d: B.VirtualMachineDisk): A.VirtualMachineDisk {
    A.VirtualMachineDisk(d.diskType, d.bus, d.cache, d.ioThread, d.bootOrder, d.hotplug,
      A.LocalObjectReference(d.diskRef.name))
  }

  function NetToBeta(n: A.VirtualMachineNetwork): B.VirtualMachineNetwork {
    B.VirtualMachineNetwork(n.netType, OptRefToBeta(n.nadRef), n.model, n.bandwidth, n.sriovResource, n.multiqueue)
  }
  function NetToAlpha(n: B.VirtualMachineNetwork): A.VirtualMachineNetwork {
    A.VirtualMachineNetwork(n.netType, OptRefToAlpha(n.nadRef), n.model, n.bandwidth, n.sriovResource, n.multiqueue)
  }

  function ProbeToBeta(p: Option<A.Probe>): Option<B.Probe> {
    if p.None? then None
    else Some(B.Probe(p.value.periodSeconds, p.value.timeoutSeconds, p.value.failureThreshold))
  }
  function ProbeToAlpha(p: Option<B.Probe>): Option<A.Probe> {
    if p.None? then None
    else Some(A.Probe(p.value.periodSeconds, p.value.timeoutSeconds, p.value.failureThreshold))
  }

  function CellToBeta(c: A.NUMACell): B.NUMACell { B.NUMACell(c.id, c.cpus, c.memory, c.threadsPerCore) }
  function CellToAlpha(c: B.NUMACell): A.NUMACell { A.NUMACell(c.id, c.cpus, c.memory, c.threadsPerCore) }

  function NUMAToBeta(n: Option<A.NUMASpec>): Option<B.NUMASpec> {
    if n.None? then None else Some(B.NUMASpec(MapSeq(n.value.cells, CellToBeta)))
  }
  function NUMAToAlpha(n: Option<B.NUMASpec>): Option<A.NUMASpec> {
    if n.None? then None else Some(A.NUMASpec(MapSeq(n.value.cells, CellToAlpha)))
  }

  function GPUToBeta(g: A.GPUDevice): B.GPUDevice { B.GPUDevice(g.name, g.deviceType, g.resourceName) }
  function GPUToAlpha(g: B.GPUDevice): A.GPUDevice { A.GPUDevice(g.name, g.deviceType, g.resourceName) }

  function CloudInitToBeta(c: Option<A.CloudInitSpec>): Option<B.CloudInitSpec> {
    if c.None? then None
    else Some(B.CloudInitSpec(c.value.userData, c.value.networkData, c.value.sshAuthorizedKeys,
      OptRefToBeta(c.value.userDataSecretRef), OptRefToBeta(c.value.networkDataSecretRef)))
  }
  function CloudInitToAlpha(c: Option<B.CloudInitSpec>): Option<A.CloudInitSpec> {
    if c.None? then None
    else Some(A.CloudInitSpec(c.value.userData, c.value.networkData, c.value.sshAuthorizedKeys,
      OptRefToAlpha(c.value.userDataSecretRef), OptRefToAlpha(c.value.networkDataSecretRef)))
  }

  function ConsoleToBeta(c: Option<A.ConsoleDevices>): Option<B.ConsoleDevices> {
    if c.None? then None else Some(B.ConsoleDevices(c.value.vnc, c.value.serial, c.value.consoleType))
  }
  function ConsoleToAlpha(c: Option<B.ConsoleDevices>): Option<A.ConsoleDevices> {
    if c.None? then None else Some(A.ConsoleDevices(c.value.vnc, c.value.serial, c.value.consoleType))
  }

  function LiveMigrationToBeta(l: Option<A.LiveMigrationSpec>): Option<B.LiveMigrationSpec> {
    if l.None? then None
    else Some(B.LiveMigrationSpec(l.value.enabled, l.value.bandwidth, l.value.completionTimeoutSeconds,
      l.value.allowPostCopy, l.value.autoConverge))
  }
  function LiveMigrationToAlpha(l: Option<B.LiveMigrationSpec>): Option<A.LiveMigrationSpec> {
    if l.None? then None
    else Some(A.LiveMigrationSpec(l.value.enabled, l.value.bandwidth, l.value.completionTimeoutSeconds,
      l.value.allowPostCopy, l.value.autoConverge))
  }

  function TemplateDiskToBeta(d: A.TemplateDisk): B.TemplateDisk { B.TemplateDisk(d.name, d.size, d.diskType) }
  function TemplateDiskToAlpha(d: B.TemplateDisk): A.TemplateDisk { A.TemplateDisk(d.name, d.size, d.diskType) }

  // ---------------------------------------------------------------------------------
  // Whole objects
  // ---------------------------------------------------------------------------------

  /** A VM's hub image; converting it back restores metadata, every spec field and every
      status field. */
  function VirtualMachineToHub(src: A.VirtualMachine): (r: B.VirtualMachine)
    ensures VirtualMachineFromHub(r) == src
  {
    var s := src.spec;
    NUMARoundTrip(s.numa, None);
    MapSeqInverse(s.gpus, GPUToBeta, GPUToAlpha);
    MapSeqInverse(s.disks, DiskToBeta, DiskToAlpha);
    MapSeqInverse(s.nets, NetToBeta, NetToAlpha);
    B.VirtualMachine(
      src.meta,
      B.VirtualMachineSpec(s.cpu, s.memory, s.cpuModel, s.dedicatedCPUPlacement, s.numaPolicy,
        NUMAToBeta(s.numa), s.hugepages, MapSeq(s.gpus, GPUToBeta), MapSeq(s.disks, DiskToBeta),
        MapSeq(s.nets, NetToBeta), CloudInitToBeta(s.cloudInit), ConsoleToBeta(s.console),
        LiveMigrationToBeta(s.liveMigration), ProbeToBeta(s.livenessProbe), ProbeToBeta(s.readinessProbe),
        s.powerState, s.kubeVirt),
      B.VirtualMachineStatus(src.status.conditions, src.status.powerState, src.status.phase,
        src.status.migrationState))
  }

  /** A hub VM's alpha image. It is a valid v1alpha1 VM exactly when the hub VM is valid
      and its probes also meet the v1alpha1 minimums: the two schemas differ in nothing else. */
  function VirtualMachineFromHub(src: B.VirtualMachine): (r: A.VirtualMachine)
    ensures A.ValidVirtualMachine(r) <==> B.ValidVirtualMachine(src) && HubProbesMeetAlphaMinimum(src.spec)
  {
    var s := src.spec;
    ElementConversionKeepsValidity(s);
    A.VirtualMachine(
      src.meta,
      A.VirtualMachineSpec(s.cpu, s.memory, s.cpuModel, s.dedicatedCPUPlacement, s.numaPolicy,
        NUMAToAlpha(s.numa), s.hugepages, MapSeq(s.gpus, GPUToAlpha), MapSeq(s.disks, DiskToAlpha),
        MapSeq(s.nets, NetToAlpha), CloudInitToAlpha(s.cloudInit), ConsoleToAlpha(s.console),
        LiveMigrationToAlpha(s.liveMigration), ProbeToAlpha(s.livenessProbe), ProbeToAlpha(s.readinessProbe),
        s.powerState, s.kubeVirt),
      A.VirtualMachineStatus(src.status.conditions, src.status.powerState, src.status.phase,
        src.status.migrationState))
  }

  /** A VirtualDisk's hub image; converting it back restores it. */
  function VirtualDiskToHub(src: A.VirtualDisk): (r: B.VirtualDisk)
    ensures VirtualDiskFromHub(r) == src
  {
    var s := src.spec;
    B.VirtualDisk(src.meta, B.VirtualDiskSpec(s.backing, s.size, s.accessMode, s.volumeMode, s.storageClass),
      B.VirtualDiskStatus(src.status.conditions))
  }

  /** A hub VirtualDisk's alpha image. Conversion fills in no default, so the image is left
      as it is by the v1alpha1 defaults exactly when the hub object gives both modes. */
  function VirtualDiskFromHub(src: B.VirtualDisk): (r: A.VirtualDisk)
    ensures A.VirtualDiskSpecDefaults(r.spec) == r.spec <==> src.spec.accessMode != "" && src.spec.volumeMode != ""
    ensures r.meta == src.meta && r.status.conditions == src.status.conditions
  {
    var s := src.spec;
    A.VirtualDisk(src.meta, A.VirtualDiskSpec(s.backing, s.size, s.accessMode, s.volumeMode, s.storageClass),
      A.VirtualDiskStatus(src.status.conditions))
  }

  /** A VirtualNet's hub image; converting it back restores it, and the two revisions'
      schemas accept the object and its image together. */
  function VirtualNetToHub(src: A.VirtualNet): (r: B.VirtualNet)
    ensures VirtualNetFromHub(r) == src
    ensures B.ValidVirtualNetSpec(r.spec) <==> A.ValidVirtualNetSpec(src.spec)
  {
    var s := src.spec;
    B.VirtualNet(src.meta, B.VirtualNetSpec(s.nadTemplate, s.bandwidthLimit, s.vlan, s.sriovResource),
      B.VirtualNetStatus(src.status.conditions))
  }

  /** A hub VirtualNet's alpha image, valid exactly when the hub object is. */
  function VirtualNetFromHub(src: B.VirtualNet): (r: A.VirtualNet)
    ensures A.ValidVirtualNetSpec(r.spec) <==> B.ValidVirtualNetSpec(src.spec)
  {
    var s := src.spec;
    A.VirtualNet(src.meta, A.VirtualNetSpec(s.nadTemplate, s.bandwidthLimit, s.vlan, s.sriovResource),
      A.VirtualNetStatus(src.status.conditions))
  }

  /** A VMSnapshot's hub image; converting it back restores it. */
  function VMSnapshotToHub(src: A.VMSnapshot): (r: B.VMSnapshot)
    ensures VMSnapshotFromHub(r) == src
  {
    var s := src.spec;
    B.VMSnapshot(src.meta, B.VMSnapshotSpec(RefToBeta(s.sourceRef), s.includedDisks, s.retainPolicy),
      B.VMSnapshotStatus(src.status.conditions, src.status.readyToUse))
  }

  /** A hub VMSnapshot's alpha image: its source reference is valid exactly when the hub's
      is, its readiness is kept, and, since conversion fills in no default, the v1alpha1
      retain-policy default leaves it as it is exactly when the hub object gives a policy. */
  function VMSnapshotFromHub(src: B.VMSnapshot): (r: A.VMSnapshot)
    ensures A.ValidNamespacedName(r.spec.sourceRef) <==> B.ValidNamespacedName(src.spec.sourceRef)
    ensures r.status.readyToUse == src.status.readyToUse
    ensures A.VMSnapshotSpecDefaults(r.spec) == r.spec <==> src.spec.retainPolicy != ""
  {
    var s := src.spec;
    A.VMSnapshot(src.meta, A.VMSnapshotSpec(RefToAlpha(s.sourceRef), s.includedDisks, s.retainPolicy),
      A.VMSnapshotStatus(src.status.conditions, src.status.readyToUse))
  }

  /** A VMTemplate's hub image; converting it back restores parameters, template disks,
      constraints, UI hints and status. */
  function VMTemplateToHub(src: A.VMTemplate): (r: B.VMTemplate)
    ensures VMTemplateFromHub(r) == src
  {
    var p := src.spec.parameters;
    MapSeqInverse(p.disks, TemplateDiskToBeta, TemplateDiskToAlpha);
    var c := src.spec.constraints;
    B.VMTemplate(src.meta,
      B.VMTemplateSpec(
        B.TemplateParameters(p.cpu, p.memory, p.os, p.image, p.networks, MapSeq(p.disks, TemplateDiskToBeta)),
        B.TemplateConstraints(c.minCPU, c.maxCPU, c.minMemory, c.maxMemory),
        src.spec.uiHints),
      B.VMTemplateStatus(src.status.conditions))
  }

  /** A hub VMTemplate's alpha image keeps every template disk in place, and the networks,
      constraint bounds and UI hints as they are. */
  function VMTemplateFromHub(src: B.VMTemplate): (r: A.VMTemplate)
    ensures |r.spec.parameters.disks| == |src.spec.parameters.disks|
    ensures forall i :: 0 <= i < |src.spec.parameters.disks| ==>
      var d, e := r.spec.parameters.disks[i], src.spec.parameters.disks[i];
      d.name == e.name && d.size == e.size && d.diskType == e.diskType
    ensures r.spec.parameters.networks == src.spec.parameters.networks
    ensures r.spec.constraints.minCPU == src.spec.constraints.minCPU && r.spec.constraints.maxCPU == src.spec.constraints.maxCPU
    ensures r.spec.constraints.minMemory == src.spec.constraints.minMemory && r.spec.constraints.maxMemory == src.spec.constraints.maxMemory
    ensures r.spec.uiHints == src.spec.uiHints
  {
    var p := src.spec.parameters;
    var c := src.spec.constraints;
    A.VMTemplate(src.meta,
      A.VMTemplateSpec(
        A.TemplateParameters(p.cpu, p.memory, p.os, p.image, p.networks, MapSeq(p.disks, TemplateDiskToAlpha)),
        A.TemplateConstraints(c.minCPU, c.maxCPU, c.minMemory, c.maxMemory),
        src.spec.uiHints),
      A.VMTemplateStatus(src.status.conditions))
  }

  // ---------------------------------------------------------------------------------
  // The conversion entry points built from the list helpers
  // ---------------------------------------------------------------------------------

  method ConvertNUMAToBeta(numa: Option<A.NUMASpec>) returns (r: Option<B.NUMASpec>)
    ensures r == NUMAToBeta(numa)
  {
    if numa.None? {
      return None;
    }
    var cells := ConvertAll(numa.value.cells, CellToBeta);
    r := Some(B.NUMASpec(cells));
  }

  method ConvertNUMAToAlpha(numa: Option<B.NUMASpec>) returns (r: Option<A.NUMASpec>)
    ensures r == NUMAToAlpha(numa)
  {
    if numa.None? {
      return None;
    }
    var cells := ConvertAll(numa.value.cells, CellToAlpha);
    r := Some(A.NUMASpec(cells));
  }

  /** VirtualMachine.ConvertTo: never fails, and produces the hub image of `src`. */
  method VirtualMachineConvertTo(src: A.VirtualMachine) returns (dst: B.VirtualMachine, err: Option<string>)
    ensures err == None
    ensures dst == VirtualMachineToHub(src)
  {
    var s := src.spec;
    var numa := ConvertNUMAToBeta(s.numa);
    var gpus := ConvertAll(s.gpus, GPUToBeta);
    var disks := ConvertAll(s.disks, DiskToBeta);
    var nets := ConvertAll(s.nets, NetToBeta);
    var spec := B.VirtualMachineSpec(s.cpu, s.memory, s.cpuModel, s.dedicatedCPUPlacement, s.numaPolicy,
      numa, s.hugepages, gpus, disks, nets, CloudInitToBeta(s.cloudInit), ConsoleToBeta(s.console),
      LiveMigrationToBeta(s.liveMigration), ProbeToBeta(s.livenessProbe), ProbeToBeta(s.readinessProbe),
      s.powerState, None);
    if s.kubeVirt.Some? {
      spec := spec.(kubeVirt := Some(s.kubeVirt.value));
    }
    dst := B.VirtualMachine(src.meta, spec,
      B.VirtualMachineStatus(src.status.conditions, src.status.powerState, src.status.phase, src.status.migrationState));
    err := None;
  }

  /** VirtualMachine.ConvertFrom: never fails, and produces the alpha image of `src`. */
  method VirtualMachineConvertFrom(src: B.VirtualMachine) returns (dst: A.VirtualMachine, err: Option<string>)
    ensures err == None
    ensures dst == VirtualMachineFromHub(src)
  {
    var s := src.spec;
    var numa := ConvertNUMAToAlpha(s.numa);
    var gpus := ConvertAll(s.gpus, GPUToAlpha);
    var disks := ConvertAll(s.disks, DiskToAlpha);
    var nets := ConvertAll(s.nets, NetToAlpha);
    var spec := A.VirtualMachineSpec(s.cpu, s.memory, s.cpuModel, s.dedicatedCPUPlacement, s.numaPolicy,
      numa, s.hugepages, gpus, disks, nets, CloudInitToAlpha(s.cloudInit), ConsoleToAlpha(s.console),
      LiveMigrationToAlpha(s.liveMigration), None, None, s.powerState, None);
    spec := spec.(livenessProbe := ProbeToAlpha(s.livenessProbe), readinessProbe := ProbeToAlpha(s.readinessProbe));
    if s.kubeVirt.Some? {
      spec := spec.(kubeVirt := Some(s.kubeVirt.value));
    }
    dst := A.VirtualMachine(src.meta, spec,
      A.VirtualMachineStatus(src.status.conditions, src.status.powerState, src.status.phase, src.status.migrationState));
    err := None;
  }

  /** VMTemplate.ConvertTo: never fails, and produces the hub image of `src`. */
  method VMTemplateConvertTo(src: A.VMTemplate) returns (dst: B.VMTemplate, err: Option<string>)
    ensures err == None
    ensures dst == VMTemplateToHub(src)
  {
    var p := src.spec.parameters;
    var c := src.spec.constraints;
    var disks := ConvertAll(p.disks, TemplateDiskToBeta);
    dst := B.VMTemplate(src.meta,
      B.VMTemplateSpec(
        B.TemplateParameters(p.cpu, p.memory, p.os, p.image, p.networks, disks),
        B.TemplateConstraints(c.minCPU, c.maxCPU, c.minMemory, c.maxMemory),
        src.spec.uiHints),
      B.VMTemplateStatus(src.status.conditions));
    err := None;
  }

  /** VMTemplate.ConvertFrom: never fails, and produces the alpha image of `src`. */
  method VMTemplateConvertFrom(src: B.VMTemplate) returns (dst: A.VMTemplate, err: Option<string>)
    ensures err == None
    ensures dst == VMTemplateFromHub(src)
  {
    var p := src.spec.parameters;
    var c := src.spec.constraints;
    var disks := ConvertAll(p.disks, TemplateDiskToAlpha);
    dst := A.VMTemplate(src.meta,
      A.VMTemplateSpec(
        A.TemplateParameters(p.cpu, p.memory, p.os, p.image, p.networks, disks),
        A.TemplateConstraints(c.minCPU, c.maxCPU, c.minMemory, c.maxMemory),
        src.spec.uiHints),
      A.VMTemplateStatus(src.status.conditions));
    err := None;
  }

  // ---------------------------------------------------------------------------------
  // Round trips
  // ---------------------------------------------------------------------------------

  lemma NUMARoundTrip(n: Option<A.NUMASpec>, m: Option<B.NUMASpec>)
    ensures NUMAToAlpha(NUMAToBeta(n)) == n
    ensures NUMAToBeta(NUMAToAlpha(m)) == m
  {
    if n.Some? { MapSeqInverse(n.value.cells, CellToBeta, CellToAlpha); }
    if m.Some? { MapSeqInverse(m.value.cells, CellToAlpha, CellToBeta); }
  }

  /** hub -> alpha -> hub is the identity, as alpha -> hub -> alpha is. */
  lemma VirtualMachineHubRoundTrip(vm: B.VirtualMachine)
    ensures VirtualMachineToHub(VirtualMachineFromHub(vm)) == vm
  {
    var s := vm.spec;
    NUMARoundTrip(None, s.numa);
    MapSeqInverse(s.gpus, GPUToAlpha, GPUToBeta);
    MapSeqInverse(s.disks, DiskToAlpha, DiskToBeta);
    MapSeqInverse(s.nets, NetToAlpha, NetToBeta);
    var h := VirtualMachineToHub(VirtualMachineFromHub(vm));
    assert h.spec == s;
  }

  /** Conversion fills in no default: every optional part is present in the image exactly
      when it is present in the source, every enum-valued field is copied as is, and the
      lists keep their length. */
  lemma VirtualMachineToHubKeepsShape(vm: A.VirtualMachine)
    ensures var h := VirtualMachineToHub(vm);
      && (h.spec.numa.Some? <==> vm.spec.numa.Some?)
      && (h.spec.cloudInit.Some? <==> vm.spec.cloudInit.Some?)
      && (h.spec.console.Some? <==> vm.spec.console.Some?)
      && (h.spec.liveMigration.Some? <==> vm.spec.liveMigration.Some?)
      && (h.spec.livenessProbe.Some? <==> vm.spec.livenessProbe.Some?)
      && (h.spec.readinessProbe.Some? <==> vm.spec.readinessProbe.Some?)
      && h.spec.kubeVirt == vm.spec.kubeVirt
      && (vm.spec.cloudInit.Some? ==>
            (h.spec.cloudInit.value.userDataSecretRef.Some? <==> vm.spec.cloudInit.value.userDataSecretRef.Some?) &&
            (h.spec.cloudInit.value.networkDataSecretRef.Some? <==> vm.spec.cloudInit.value.networkDataSecretRef.Some?) &&
            h.spec.cloudInit.value.sshAuthorizedKeys == vm.spec.cloudInit.value.sshAuthorizedKeys)
      && h.spec.powerState == vm.spec.powerState
      && h.spec.numaPolicy == vm.spec.numaPolicy
      && h.spec.hugepages == vm.spec.hugepages
      && |h.spec.disks| == |vm.spec.disks|
      && |h.spec.nets| == |vm.spec.nets|
      && |h.spec.gpus| == |vm.spec.gpus|
      && (vm.spec.numa.Some? ==> |h.spec.numa.value.cells| == |vm.spec.numa.value.cells|)
      && (forall i :: 0 <= i < |vm.spec.disks| ==>
            h.spec.disks[i].bus == vm.spec.disks[i].bus && h.spec.disks[i].cache == vm.spec.disks[i].cache &&
            h.spec.disks[i].diskType == vm.spec.disks[i].diskType)
      && (forall i :: 0 <= i < |vm.spec.nets| ==> (h.spec.nets[i].nadRef.Some? <==> vm.spec.nets[i].nadRef.Some?))
      && h.status.conditions == vm.status.conditions
      && h.status.powerState == vm.status.powerState
      && h.status.phase == vm.status.phase
      && h.status.migrationState == vm.status.migrationState
  {
  }

  lemma VirtualDiskHubRoundTrip(h: B.VirtualDisk)
    ensures VirtualDiskToHub(VirtualDiskFromHub(h)) == h
  {
  }

  lemma VirtualNetHubRoundTrip(h: B.VirtualNet)
    ensures VirtualNetToHub(VirtualNetFromHub(h)) == h
  {
  }

  lemma VMSnapshotHubRoundTrip(h: B.VMSnapshot)
    ensures VMSnapshotToHub(VMSnapshotFromHub(h)) == h
  {
  }

  lemma VMTemplateHubRoundTrip(h: B.VMTemplate)
    ensures VMTemplateToHub(VMTemplateFromHub(h)) == h
  {
    MapSeqInverse(h.spec.parameters.disks, TemplateDiskToAlpha, TemplateDiskToBeta);
  }

  // ---------------------------------------------------------------------------------
  // Validity across revisions
  // ---------------------------------------------------------------------------------

  /** The v1alpha1 probe constraints, read on a hub object. */
  predicate HubProbesMeetAlphaMinimum(s: B.VirtualMachineSpec) {
    && (s.livenessProbe.Some? ==>
          s.livenessProbe.value.periodSeconds >= 1 && s.livenessProbe.value.timeoutSeconds >= 1 &&
          s.livenessProbe.value.failureThreshold >= 1)
    && (s.readinessProbe.Some? ==>
          s.readinessProbe.value.periodSeconds >= 1 && s.readinessProbe.value.timeoutSeconds >= 1 &&
          s.readinessProbe.value.failureThreshold >= 1)
  }

  /** Each disk, network, GPU and NUMA cell of a hub spec is valid exactly when its
      v1alpha1 image is. */
  lemma ElementConversionKeepsValidity(s: B.VirtualMachineSpec)
    ensures forall i :: 0 <= i < |s.disks| ==> (A.ValidDisk(DiskToAlpha(s.disks[i])) <==> B.ValidDisk(s.disks[i]))
    ensures forall i :: 0 <= i < |s.nets| ==> (A.ValidNetwork(NetToAlpha(s.nets[i])) <==> B.ValidNetwork(s.nets[i]))
    ensures forall i :: 0 <= i < |s.gpus| ==> (A.ValidGPU(GPUToAlpha(s.gpus[i])) <==> B.ValidGPU(s.gpus[i]))
    ensures s.numa.Some? ==> forall i :: 0 <= i < |s.numa.value.cells| ==>
      (A.ValidNUMACell(CellToAlpha(s.numa.value.cells[i])) <==> B.ValidNUMACell(s.numa.value.cells[i]))
  {
  }

  /** Every valid v1alpha1 VM converts to a valid hub VM. */
  lemma VirtualMachineToHubPreservesValidity(vm: A.VirtualMachine)
    requires A.ValidVirtualMachine(vm)
    ensures B.ValidVirtualMachine(VirtualMachineToHub(vm))
  {
  }

  /** The revision difference: a hub VM with a zero probe period is valid in the hub but its
      v1alpha1 image violates the v1alpha1 probe minimum. */
  lemma ZeroProbePeriodIsHubOnly(vm: B.VirtualMachine)
    requires B.ValidVirtualMachine(vm)
    requires vm.spec.livenessProbe == Some(B.Probe(0, 30, 3))
    ensures !A.ValidVirtualMachine(VirtualMachineFromHub(vm))
  {
  }
}
