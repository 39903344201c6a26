/** The VirtualMachine reconciler: a finalizer-driven pass that either tears the backend
    down (object being deleted) or provisions disks, checks SR-IOV networks, ensures the
    backend VM, drives its power state and records a Ready condition.

    The store and the backend clients are oracles: `lookup` answers the opening Get and
    `respond` answers every later call. The reconciler records each call it makes, with the
    object it passes, in `trace`; the functions below say which calls a pass makes and in
    which order, and the lemmas state the ordering and crash-safety facts about them. */
module VMController {
  import opened Common
  import opened Lifecycle
  import B = V1Beta1

  const VMFinalizer := "virtualization.kubesphere.io/vm-cleanup"

  type VM = B.VirtualMachine

  const UnsupportedDiskType := "unsupported disk type "
  const UnknownPowerState := "unknown power state "

  /** A call into the store (`Get`, `Update`, `UpdateStatus`) or a backend client. */
  datatype Call =
    | Get(key: ObjectKey)
    | Update(obj: VM)
    | UpdateStatus(obj: VM)
    | EnsureDataVolume(obj: VM, disk: B.VirtualMachineDisk)
    | ValidateSRIOVNetwork(namespace: string, net: B.VirtualMachineNetwork)
    | EnsureVM(obj: VM)
    | PowerOn(obj: VM)
    | PowerOff(obj: VM)
    | Cleanup(obj: VM)
    | DeleteOwnedVolumes(obj: VM)

  /** The collaborators: the store's answer to a Get, every other call's outcome, and the clock. */
  datatype Environment = Environment(lookup: ObjectKey -> GetResult<VM>, respond: Call -> Outcome, clock: Time)

  /** Calls that provision or drive the VM, as opposed to store writes and teardown. */
  predicate IsOrchestration(c: Call) {
    c.EnsureDataVolume? || c.ValidateSRIOVNetwork? || c.EnsureVM? || c.PowerOn? || c.PowerOff?
  }

  /** Disk types backed by a data volume. */
  predicate Provisioned(diskType: string) { diskType == "system" || diskType == "data" }

  predicate Succeeds(env: Environment, c: Call) { env.respond(c).Ok? }

  /** One call and the error it ends with. */
  function Step(env: Environment, c: Call): Phase<Call> { Phase([c], ErrorOf(env.respond(c))) }

  // ---------------------------------------------------------------------------------
  // The steps of a pass
  // ---------------------------------------------------------------------------------

  /** teardownVM: Cleanup, then DeleteOwnedVolumes only if Cleanup succeeded. */
  function TeardownSpec(env: Environment, vm: VM): Phase<Call> {
    if !Succeeds(env, Cleanup(vm)) then Step(env, Cleanup(vm))
    else Prepend([Cleanup(vm)], Step(env, DeleteOwnedVolumes(vm)))
  }

  /** The disk loop of ensureBackingResources, from the given disk on. */
  function DiskPhase(env: Environment, vm: VM, disks: seq<B.VirtualMachineDisk>): Phase<Call>
    decreases |disks|
  {
    if disks == [] then Phase([], None)
    else if Provisioned(disks[0].diskType) then
      var c := EnsureDataVolume(vm, disks[0]);
      if !Succeeds(env, c) then Step(env, c) else Prepend([c], DiskPhase(env, vm, disks[1..]))
    else if disks[0].diskType == "ephemeral" then DiskPhase(env, vm, disks[1..])
    else Phase([], Some(UnsupportedDiskType + disks[0].diskType))
  }

  /** The network loop of ensureBackingResources, from the given network on. */
  function NetPhase(env: Environment, vm: VM, nets: seq<B.VirtualMachineNetwork>): Phase<Call>
    decreases |nets|
  {
    if nets == [] then Phase([], None)
    else if nets[0].netType == "sriov" then
      var c := ValidateSRIOVNetwork(vm.meta.namespace, nets[0]);
      if !Succeeds(env, c) then Step(env, c) else Prepend([c], NetPhase(env, vm, nets[1..]))
    else NetPhase(env, vm, nets[1..])
  }

  /** ensureBackingResources: disks, then networks, then EnsureVM. */
  function BackingSpec(env: Environment, vm: VM): Phase<Call> {
    var disks := DiskPhase(env, vm, vm.spec.disks);
    if disks.err.Some? then disks
    else
      var nets := NetPhase(env, vm, vm.spec.nets);
      if nets.err.Some? then Prepend(disks.calls, nets)
      else Prepend(disks.calls + nets.calls, Step(env, EnsureVM(vm)))
  }

  /** The calls of syncPowerState and the object as it stands afterwards. */
  datatype PowerSync = PowerSync(phase: Phase<Call>, vm: VM)

  /** syncPowerState: the power call the desired state names, then (only after it succeeds)
      the observed state is set to the desired one and the status written. */
  function PowerSpec(env: Environment, vm: VM): PowerSync {
    var p := vm.spec.powerState;
    if p != B.PowerStateRunning && p != B.PowerStateStopped then
      PowerSync(Phase([], Some(UnknownPowerState + p)), vm)
    else
      var c := if p == B.PowerStateRunning then PowerOn(vm) else PowerOff(vm);
      if !Succeeds(env, c) then PowerSync(Step(env, c), vm)
      else
        var synced := vm.(status := vm.status.(powerState := p));
        PowerSync(Prepend([c], Step(env, UpdateStatus(synced))), synced)
  }

  /** The object with a Ready condition recorded, stamped with the clock. */
  function WithReady(env: Environment, vm: VM, status: ConditionStatus, reason: string, message: string): VM {
    vm.(status := vm.status.(conditions :=
      SetStatusCondition(vm.status.conditions, Condition("Ready", status, reason, message, env.clock))))
  }

  /** The orchestration part of Reconcile, for a live object that carries the finalizer. */
  function OrchestrateSpec(env: Environment, vm: VM): Pass<Call> {
    var backing := BackingSpec(env, vm);
    if backing.err.Some? then Pass(backing.calls, NoRequeue, backing.err)
    else
      var power := PowerSpec(env, vm);
      if power.phase.err.Some? then
        var failed := WithReady(env, power.vm, ConditionFalse, "PowerSyncFailed", power.phase.err.value);
        Pass(backing.calls + power.phase.calls + [UpdateStatus(failed)], NoRequeue, power.phase.err)
      else
        var ready := WithReady(env, power.vm, ConditionTrue, "PowerSynced", "VirtualMachine power reconciled");
        Pass(backing.calls + power.phase.calls + [UpdateStatus(ready)], RequeueAfterOneMinute, None)
  }

  /** A whole Reconcile pass for the object named by `key`. */
  function ReconcileSpec(env: Environment, key: ObjectKey): Pass<Call> {
    match env.lookup(key)
    case NotFound => Pass([Get(key)], NoRequeue, None)
    case GetFailed(m) => Pass([Get(key)], NoRequeue, Some(m))
    case Found(vm) =>
      if !BeingDeleted(vm.meta) then
        if !ContainsFinalizer(vm.meta, VMFinalizer) then
          var added := vm.(meta := AddFinalizer(vm.meta, VMFinalizer));
          if !Succeeds(env, Update(added)) then Pass([Get(key), Update(added)], NoRequeue, ErrorOf(env.respond(Update(added))))
          else
            var rest := OrchestrateSpec(env, added);
            Pass([Get(key), Update(added)] + rest.calls, rest.result, rest.err)
        else
          var rest := OrchestrateSpec(env, vm);
          Pass([Get(key)] + rest.calls, rest.result, rest.err)
      else if ContainsFinalizer(vm.meta, VMFinalizer) then
        var teardown := TeardownSpec(env, vm);
        if teardown.err.Some? then Pass([Get(key)] + teardown.calls, NoRequeue, teardown.err)
        else
          var removed := vm.(meta := RemoveFinalizer(vm.meta, VMFinalizer));
          Pass([Get(key)] + teardown.calls + [Update(removed)], NoRequeue, ErrorOf(env.respond(Update(removed))))
      else Pass([Get(key)], NoRequeue, None)
  }

  // ---------------------------------------------------------------------------------
  // The reconciler
  // ---------------------------------------------------------------------------------

  class VirtualMachineReconciler {
    const env: Environment
    /** Every call made so far, in order. */
    var trace: seq<Call>

    constructor (env: Environment)
      ensures this.env == env && trace == []
    {
      this.env := env;
      trace := [];
    }

    /** Issues one call to the store or a backend and reports its error. */
    method Issue(c: Call) returns (err: Option<string>)
      modifies this
      ensures trace == old(trace) + [c]
      ensures err == ErrorOf(env.respond(c))
    {
      trace := trace + [c];
      err := ErrorOf(env.respond(c));
    }

    method Lookup(key: ObjectKey) returns (r: GetResult<VM>)
      modifies this
      ensures trace == old(trace) + [Get(key)]
      ensures r == env.lookup(key)
    {
      trace := trace + [Get(key)];
      r := env.lookup(key);
    }

    method TeardownVM(vm: VM) returns (err: Option<string>)
      modifies this
      ensures trace == old(trace) + TeardownSpec(env, vm).calls
      ensures err == TeardownSpec(env, vm).err
    {
      err := Issue(Cleanup(vm));
      if err.Some? {
        return;
      }
      err := Issue(DeleteOwnedVolumes(vm));
    }

    /** The disk loop of ensureBackingResources. */
    method EnsureDisks(vm: VM) returns (err: Option<string>)
      modifies this
      ensures trace == old(trace) + DiskPhase(env, vm, vm.spec.disks).calls
      ensures err == DiskPhase(env, vm, vm.spec.disks).err
    {
      var disks := vm.spec.disks;
      ghost var done: seq<Call> := [];
      var i := 0;
      while i < |disks|
        invariant 0 <= i <= |disks|
        invariant trace == old(trace) + done
        invariant DiskPhase(env, vm, disks) == Prepend(done, DiskPhase(env, vm, disks[i..]))
      {
        var d := disks[i];
        assert disks[i..][1..] == disks[i + 1..];
        if Provisioned(d.diskType) {
          err := Issue(EnsureDataVolume(vm, d));
          done := done + [EnsureDataVolume(vm, d)];
          if err.Some? {
            return;
          }
        } else if d.diskType != "ephemeral" {
          err := Some(UnsupportedDiskType + d.diskType);
          return;
        }
        i := i + 1;
      }
      assert disks[i..] == [];
      err := None;
    }

    /** The network loop of ensureBackingResources. */
    method ValidateNetworks(vm: VM) returns (err: Option<string>)
      modifies this
      ensures trace == old(trace) + NetPhase(env, vm, vm.spec.nets).calls
      ensures err == NetPhase(env, vm, vm.spec.nets).err
    {
      var nets := vm.spec.nets;
      ghost var done: seq<Call> := [];
      var j := 0;
      while j < |nets|
        invariant 0 <= j <= |nets|
        invariant trace == old(trace) + done
        invariant NetPhase(env, vm, nets) == Prepend(done, NetPhase(env, vm, nets[j..]))
      {
        var n := nets[j];
        assert nets[j..][1..] == nets[j + 1..];
        if n.netType == "sriov" {
          err := Issue(ValidateSRIOVNetwork(vm.meta.namespace, n));
          done := done + [ValidateSRIOVNetwork(vm.meta.namespace, n)];
          if err.Some? {
            return;
          }
        }
        j := j + 1;
      }
      assert nets[j..] == [];
      err := None;
    }

    method EnsureBackingResources(vm: VM) returns (err: Option<string>)
      modifies this
      ensures trace == old(trace) + BackingSpec(env, vm).calls
      ensures err == BackingSpec(env, vm).err
    {
      err := EnsureDisks(vm);
      if err.Some? {
        return;
      }
      err := ValidateNetworks(vm);
      if err.Some? {
        return;
      }
      err := Issue(EnsureVM(vm));
    }

    method SyncPowerState(vm: VM) returns (synced: VM, err: Option<string>)
      modifies this
      ensures trace == old(trace) + PowerSpec(env, vm).phase.calls
      ensures synced == PowerSpec(env, vm).vm
      ensures err == PowerSpec(env, vm).phase.err
    {
      synced := vm;
      if vm.spec.powerState == B.PowerStateRunning {
        err := Issue(PowerOn(vm));
      } else if vm.spec.powerState == B.PowerStateStopped {
        err := Issue(PowerOff(vm));
      } else {
        err := Some(UnknownPowerState + vm.spec.powerState);
        return;
      }
      if err.Some? {
        return;
      }
      synced := vm.(status := vm.status.(powerState := vm.spec.powerState));
      err := Issue(UpdateStatus(synced));
    }

    /** Records a Ready condition and writes the status, ignoring the write's error. */
    method SetCondition(vm: VM, status: ConditionStatus, reason: string, message: string) returns (updated: VM)
      modifies this
      ensures updated == WithReady(env, vm, status, reason, message)
      ensures trace == old(trace) + [UpdateStatus(updated)]
    {
      var condition := Condition("Ready", status, reason, message, env.clock);
      updated := vm.(status := vm.status.(conditions := SetStatusCondition(vm.status.conditions, condition)));
      var _ := Issue(UpdateStatus(updated));
    }

    method Orchestrate(vm: VM) returns (result: ReconcileResult, err: Option<string>)
      modifies this
      ensures trace == old(trace) + OrchestrateSpec(env, vm).calls
      ensures result == OrchestrateSpec(env, vm).result && err == OrchestrateSpec(env, vm).err
    {
      err := EnsureBackingResources(vm);
      if err.Some? {
        return NoRequeue, err;
      }
      var synced;
      synced, err := SyncPowerState(vm);
      if err.Some? {
        var _ := SetCondition(synced, ConditionFalse, "PowerSyncFailed", err.value);
        return NoRequeue, err;
      }
      var _ := SetCondition(synced, ConditionTrue, "PowerSynced", "VirtualMachine power reconciled");
      return RequeueAfterOneMinute, None;
    }

    method Reconcile(key: ObjectKey) returns (result: ReconcileResult, err: Option<string>)
      modifies this
      ensures trace == old(trace) + ReconcileSpec(env, key).calls
      ensures result == ReconcileSpec(env, key).result && err == ReconcileSpec(env, key).err
    {
      var got := Lookup(key);
      if got.NotFound? {
        return NoRequeue, None;
      } else if got.GetFailed? {
        return NoRequeue, Some(got.message);
      }
      var vm := got.obj;
      if !BeingDeleted(vm.meta) {
        if !ContainsFinalizer(vm.meta, VMFinalizer) {
          vm := vm.(meta := AddFinalizer(vm.meta, VMFinalizer));
          err := Issue(Update(vm));
          if err.Some? {
            return NoRequeue, err;
          }
        }
      } else {
        if ContainsFinalizer(vm.meta, VMFinalizer) {
          err := TeardownVM(vm);
          if err.Some? {
            return NoRequeue, err;
          }
          vm := vm.(meta := RemoveFinalizer(vm.meta, VMFinalizer));
          err := Issue(Update(vm));
          if err.Some? {
            return NoRequeue, err;
          }
        }
        return NoRequeue, None;
      }
      result, err := Orchestrate(vm);
    }
  }

  // ---------------------------------------------------------------------------------
  // Properties of a pass
  // ---------------------------------------------------------------------------------

  /** A missing object ends the pass quietly after the lookup; a failed lookup returns its error. */
  lemma LookupOutcomes(env: Environment, key: ObjectKey)
    ensures env.lookup(key).NotFound? ==> ReconcileSpec(env, key) == Pass([Get(key)], NoRequeue, None)
    ensures env.lookup(key).GetFailed? ==>
      ReconcileSpec(env, key) == Pass([Get(key)], NoRequeue, Some(env.lookup(key).message))
  {
  }

  /** A live object without the finalizer gets it persisted before any backend call; a failed
      write ends the pass, otherwise the same pass orchestrates the updated object. */
  lemma FinalizerPersistedFirst(env: Environment, key: ObjectKey)
    requires env.lookup(key).Found?
    requires !BeingDeleted(env.lookup(key).obj.meta) && !ContainsFinalizer(env.lookup(key).obj.meta, VMFinalizer)
    ensures var vm := env.lookup(key).obj;
      var added := vm.(meta := AddFinalizer(vm.meta, VMFinalizer));
      var pass := ReconcileSpec(env, key);
      && ContainsFinalizer(added.meta, VMFinalizer)
      && pass.calls[..2] == [Get(key), Update(added)]
      && (!Succeeds(env, Update(added)) ==> pass.calls == [Get(key), Update(added)] && pass.err.Some?)
      && (Succeeds(env, Update(added)) ==>
            pass.calls[2..] == OrchestrateSpec(env, added).calls &&
            pass.err == OrchestrateSpec(env, added).err && pass.result == OrchestrateSpec(env, added).result)
  {
    var vm := env.lookup(key).obj;
    var added := vm.(meta := AddFinalizer(vm.meta, VMFinalizer));
    var pass := ReconcileSpec(env, key);
    if Succeeds(env, Update(added)) {
      assert pass.calls == [Get(key), Update(added)] + OrchestrateSpec(env, added).calls;
    }
  }

  /** Deleting an object that carries the finalizer: Cleanup first, DeleteOwnedVolumes only
      after Cleanup succeeded, and the finalizer is dropped (and persisted) only after both
      succeeded; a failure keeps the finalizer and returns the error. Nothing is provisioned
      or powered. */
  lemma DeletionWithFinalizer(env: Environment, key: ObjectKey)
    requires env.lookup(key).Found?
    requires BeingDeleted(env.lookup(key).obj.meta) && ContainsFinalizer(env.lookup(key).obj.meta, VMFinalizer)
    ensures var vm := env.lookup(key).obj;
      var removed := vm.(meta := RemoveFinalizer(vm.meta, VMFinalizer));
      var pass := ReconcileSpec(env, key);
      && pass.result == NoRequeue
      && (!Succeeds(env, Cleanup(vm)) ==>
            pass.calls == [Get(key), Cleanup(vm)] && pass.err == ErrorOf(env.respond(Cleanup(vm))))
      && (Succeeds(env, Cleanup(vm)) && !Succeeds(env, DeleteOwnedVolumes(vm)) ==>
            pass.calls == [Get(key), Cleanup(vm), DeleteOwnedVolumes(vm)] &&
            pass.err == ErrorOf(env.respond(DeleteOwnedVolumes(vm))))
      && (Succeeds(env, Cleanup(vm)) && Succeeds(env, DeleteOwnedVolumes(vm)) ==>
            pass.calls == [Get(key), Cleanup(vm), DeleteOwnedVolumes(vm), Update(removed)] &&
            !ContainsFinalizer(removed.meta, VMFinalizer) &&
            pass.err == ErrorOf(env.respond(Update(removed))))
      && (forall i :: 0 <= i < |pass.calls| ==> !IsOrchestration(pass.calls[i]))
  {
    var vm := env.lookup(key).obj;
    RemoveFinalizerProperties(vm.meta, VMFinalizer);
  }

  /** Deleting an object without the finalizer does nothing after the lookup. */
  lemma DeletionWithoutFinalizer(env: Environment, key: ObjectKey)
    requires env.lookup(key).Found?
    requires BeingDeleted(env.lookup(key).obj.meta) && !ContainsFinalizer(env.lookup(key).obj.meta, VMFinalizer)
    ensures ReconcileSpec(env, key) == Pass([Get(key)], NoRequeue, None)
  {
  }

  /** Every call of the disk loop is an EnsureDataVolume for a system or data disk of the list. */
  lemma {:induction false} DiskPhaseCalls(env: Environment, vm: VM, disks: seq<B.VirtualMachineDisk>)
    ensures forall c :: c in DiskPhase(env, vm, disks).calls ==>
      c.EnsureDataVolume? && c.obj == vm && c.disk in disks && Provisioned(c.disk.diskType)
    decreases |disks|
  {
    if disks != [] {
      DiskPhaseCalls(env, vm, disks[1..]);
    }
  }

  /** The EnsureDataVolume calls one per system or data disk, in declaration order. */
  function ProvisionCalls(vm: VM, disks: seq<B.VirtualMachineDisk>): seq<Call>
    decreases |disks|
  {
    if disks == [] then []
    else if Provisioned(disks[0].diskType) then [EnsureDataVolume(vm, disks[0])] + ProvisionCalls(vm, disks[1..])
    else ProvisionCalls(vm, disks[1..])
  }

  /** With known disk types and every data volume call succeeding, the disk loop calls
      EnsureDataVolume exactly once per system or data disk, in order, skipping ephemeral
      disks, and succeeds. */
  lemma {:induction false} DiskPhaseAllSucceed(env: Environment, vm: VM, disks: seq<B.VirtualMachineDisk>)
    requires forall i :: 0 <= i < |disks| ==> disks[i].diskType in {"system", "data", "ephemeral"}
    requires forall d :: d in disks && Provisioned(d.diskType) ==> Succeeds(env, EnsureDataVolume(vm, d))
    ensures DiskPhase(env, vm, disks) == Phase(ProvisionCalls(vm, disks), None)
    decreases |disks|
  {
    if disks != [] {
      assert disks[0] in disks;
      assert forall i :: 0 <= i < |disks[1..]| ==> disks[1..][i] == disks[i + 1];
      DiskPhaseAllSucceed(env, vm, disks[1..]);
    }
  }

  /** A disk of unsupported type fails the loop, and no disk after it is touched. */
  lemma {:induction false} UnsupportedDiskStops(env: Environment, vm: VM, disks: seq<B.VirtualMachineDisk>, k: nat)
    requires k < |disks| && disks[k].diskType !in {"system", "data", "ephemeral"}
    ensures DiskPhase(env, vm, disks).err.Some?
    ensures forall c :: c in DiskPhase(env, vm, disks).calls ==> c.EnsureDataVolume? && c.disk in disks[..k]
    decreases k
  {
    DiskPhaseCalls(env, vm, disks);
    if k > 0 && (Provisioned(disks[0].diskType) || disks[0].diskType == "ephemeral") {
      UnsupportedDiskStops(env, vm, disks[1..], k - 1);
      assert disks[1..][..k - 1] == disks[1..k];
      DiskPhaseCalls(env, vm, disks[1..]);
    }
  }

  /** Every call of the network loop validates an sriov network of the list, in the VM's namespace. */
  lemma {:induction false} NetPhaseCalls(env: Environment, vm: VM, nets: seq<B.VirtualMachineNetwork>)
    ensures forall c :: c in NetPhase(env, vm, nets).calls ==>
      c.ValidateSRIOVNetwork? && c.namespace == vm.meta.namespace && c.net in nets && c.net.netType == "sriov"
    decreases |nets|
  {
    if nets != [] {
      NetPhaseCalls(env, vm, nets[1..]);
    }
  }

  /** The networks the loop validates: every sriov network, in declaration order. */
  function SRIOVCalls(vm: VM, nets: seq<B.VirtualMachineNetwork>): seq<Call>
    decreases |nets|
  {
    if nets == [] then []
    else if nets[0].netType == "sriov" then [ValidateSRIOVNetwork(vm.meta.namespace, nets[0])] + SRIOVCalls(vm, nets[1..])
    else SRIOVCalls(vm, nets[1..])
  }

  /** When every validation succeeds, the network loop validates exactly the sriov networks. */
  lemma {:induction false} NetPhaseAllSucceed(env: Environment, vm: VM, nets: seq<B.VirtualMachineNetwork>)
    requires forall n :: n in nets && n.netType == "sriov" ==> Succeeds(env, ValidateSRIOVNetwork(vm.meta.namespace, n))
    ensures NetPhase(env, vm, nets) == Phase(SRIOVCalls(vm, nets), None)
    decreases |nets|
  {
    if nets != [] {
      assert nets[0] in nets;
      assert forall n :: n in nets[1..] ==> n in nets;
      NetPhaseAllSucceed(env, vm, nets[1..]);
    }
  }

  /** EnsureVM is called only after every disk and network passed, and then as the last call
      of the phase; a failure in this phase is returned without any status write. */
  lemma BackingEnsureVMLast(env: Environment, vm: VM)
    ensures EnsureVM(vm) in BackingSpec(env, vm).calls <==>
      DiskPhase(env, vm, vm.spec.disks).err.None? && NetPhase(env, vm, vm.spec.nets).err.None?
    ensures EnsureVM(vm) in BackingSpec(env, vm).calls ==>
      BackingSpec(env, vm).calls[|BackingSpec(env, vm).calls| - 1] == EnsureVM(vm)
    ensures forall c :: c in BackingSpec(env, vm).calls ==> !c.UpdateStatus? && !c.Update?
    ensures BackingSpec(env, vm).err.Some? ==>
      OrchestrateSpec(env, vm) == Pass(BackingSpec(env, vm).calls, NoRequeue, BackingSpec(env, vm).err)
  {
    DiskPhaseCalls(env, vm, vm.spec.disks);
    NetPhaseCalls(env, vm, vm.spec.nets);
  }

  /** An unsupported disk type aborts before EnsureVM and before any later disk. */
  lemma UnsupportedDiskAbortsBeforeEnsureVM(env: Environment, vm: VM, k: nat)
    requires k < |vm.spec.disks| && vm.spec.disks[k].diskType !in {"system", "data", "ephemeral"}
    ensures EnsureVM(vm) !in BackingSpec(env, vm).calls
    ensures forall c :: c in BackingSpec(env, vm).calls ==> c.EnsureDataVolume? && c.disk in vm.spec.disks[..k]
    ensures OrchestrateSpec(env, vm).err.Some? && OrchestrateSpec(env, vm).calls == BackingSpec(env, vm).calls
  {
    UnsupportedDiskStops(env, vm, vm.spec.disks, k);
    BackingEnsureVMLast(env, vm);
  }

  /** Running drives PowerOn only, Stopped PowerOff only, anything else is an error with no
      call; the observed state is set to the desired one only after the power call succeeded. */
  lemma PowerSpecProperties(env: Environment, vm: VM)
    ensures var ps := PowerSpec(env, vm); var p := vm.spec.powerState;
      && (p == B.PowerStateRunning ==> ps.phase.calls[0] == PowerOn(vm) && (forall c :: c in ps.phase.calls ==> !c.PowerOff?))
      && (p == B.PowerStateStopped ==> ps.phase.calls[0] == PowerOff(vm) && (forall c :: c in ps.phase.calls ==> !c.PowerOn?))
      && (p != B.PowerStateRunning && p != B.PowerStateStopped ==>
            ps.phase.calls == [] && ps.phase.err == Some(UnknownPowerState + p) && ps.vm == vm)
      && (ps.vm.status.powerState != vm.status.powerState ==> Succeeds(env, ps.phase.calls[0]))
      && (ps.vm != vm ==>
            ps.vm == vm.(status := vm.status.(powerState := p)) && |ps.phase.calls| == 2 &&
            ps.phase.calls[1] == UpdateStatus(ps.vm))
  {
  }

  /** After the backing phase: a power failure records Ready=False/PowerSyncFailed with the
      error's message and returns the error; success records Ready=True/PowerSynced and
      requeues after one minute, whatever the outcome of the condition's status write. */
  lemma OrchestrateRecordsReady(env: Environment, vm: VM)
    requires BackingSpec(env, vm).err.None?
    ensures var pass := OrchestrateSpec(env, vm); var ps := PowerSpec(env, vm);
      var last := pass.calls[|pass.calls| - 1];
      var ready := FindCondition(last.obj.status.conditions, "Ready");
      && last.UpdateStatus?
      && ready.Some? && last.obj.status.powerState == ps.vm.status.powerState
      && (ps.phase.err.Some? ==>
            pass.err == ps.phase.err && pass.result == NoRequeue &&
            ready.value.status == ConditionFalse && ready.value.reason == "PowerSyncFailed" &&
            ready.value.message == ps.phase.err.value)
      && (ps.phase.err.None? ==>
            pass.err == None && pass.result == RequeueAfterOneMinute &&
            ready.value.status == ConditionTrue && ready.value.reason == "PowerSynced")
  {
    var ps := PowerSpec(env, vm);
    if ps.phase.err.Some? {
      SetStatusConditionProperties(ps.vm.status.conditions,
        Condition("Ready", ConditionFalse, "PowerSyncFailed", ps.phase.err.value, env.clock));
    } else {
      SetStatusConditionProperties(ps.vm.status.conditions,
        Condition("Ready", ConditionTrue, "PowerSynced", "VirtualMachine power reconciled", env.clock));
    }
  }

  /** In every pass, a write that drops the finalizer is the fourth call, after a successful
      Cleanup and a successful DeleteOwnedVolumes of the fetched object. */
  lemma FinalizerRemovedOnlyAfterTeardown(env: Environment, key: ObjectKey)
    ensures var pass := ReconcileSpec(env, key);
      forall i :: 0 <= i < |pass.calls| && pass.calls[i].Update? && !ContainsFinalizer(pass.calls[i].obj.meta, VMFinalizer) ==>
        && env.lookup(key).Found?
        && i == 3
        && pass.calls[1] == Cleanup(env.lookup(key).obj) && Succeeds(env, Cleanup(env.lookup(key).obj))
        && pass.calls[2] == DeleteOwnedVolumes(env.lookup(key).obj) && Succeeds(env, DeleteOwnedVolumes(env.lookup(key).obj))
  {
    if env.lookup(key).Found? && !BeingDeleted(env.lookup(key).obj.meta) {
      LiveWritesKeepFinalizer(env, key);
    }
  }

  /** While the object is live, every write of the object carries the finalizer. */
  lemma LiveWritesKeepFinalizer(env: Environment, key: ObjectKey)
    requires env.lookup(key).Found? && !BeingDeleted(env.lookup(key).obj.meta)
    ensures var pass := ReconcileSpec(env, key);
      forall i :: 0 <= i < |pass.calls| && pass.calls[i].Update? ==> ContainsFinalizer(pass.calls[i].obj.meta, VMFinalizer)
  {
    var pass := ReconcileSpec(env, key);
    var vm := env.lookup(key).obj;
    var target := if ContainsFinalizer(vm.meta, VMFinalizer) then vm else vm.(meta := AddFinalizer(vm.meta, VMFinalizer));
    OrchestrateWritesOnlyStatus(env, target);
    var rest := OrchestrateSpec(env, target);
    assert forall c :: c in rest.calls ==> !c.Update?;
    if !ContainsFinalizer(vm.meta, VMFinalizer) && Succeeds(env, Update(target)) {
      assert pass.calls == [Get(key), Update(target)] + rest.calls;
      assert forall i :: 2 <= i < |pass.calls| ==> pass.calls[i] == rest.calls[i - 2];
    } else if ContainsFinalizer(vm.meta, VMFinalizer) {
      assert pass.calls == [Get(key)] + rest.calls;
      assert forall i :: 1 <= i < |pass.calls| ==> pass.calls[i] == rest.calls[i - 1];
    }
  }

  /** A call that neither reads nor writes the object itself, nor tears it down. */
  predicate LeavesObject(c: Call) {
    !c.Update? && !c.Get? && !c.Cleanup? && !c.DeleteOwnedVolumes?
  }

  /** The backing resources are ensured without touching the object. */
  lemma BackingLeavesObject(env: Environment, vm: VM)
    ensures forall c :: c in BackingSpec(env, vm).calls ==> LeavesObject(c)
  {
    DiskPhaseCalls(env, vm, vm.spec.disks);
    NetPhaseCalls(env, vm, vm.spec.nets);
  }

  /** Orchestration writes only the status subresource, never the object itself. */
  lemma OrchestrateWritesOnlyStatus(env: Environment, vm: VM)
    ensures forall c :: c in OrchestrateSpec(env, vm).calls ==> LeavesObject(c)
  {
    BackingLeavesObject(env, vm);
    var power := PowerSpec(env, vm);
    assert forall c :: c in power.phase.calls ==> LeavesObject(c);
  }
}
