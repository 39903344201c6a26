/** The VirtualMachine admission webhook: defaults the power state and NUMA policy, then, on
    create and update, checks that SR-IOV networks name an attachment and that the cluster
    has SR-IOV capable nodes, and that some node offers the requested hugepages.

    The node list comes from the store: `nodes` is the cluster's node list and `listError`
    says which list queries fail. Every query the webhook makes is recorded in `queries`. */
module VMWebhook {
  import opened Common
  import opened Admission
  import B = V1Beta1

  type VM = B.VirtualMachine

  const NadRefRequired := "SR-IOV network requires nadRef"
  const NoSRIOVNodes := "no sriov.capable=true nodes available for SR-IOV network"
  const NoHugepagesNodes := "no nodes advertise hugepages "

  /** The part of a node the webhook reads: its labels and allocatable quantities. */
  datatype Node = Node(name: string, labels: map<string, string>, allocatable: map<string, nat>)

  /** A node list query: all nodes, or the nodes carrying one label value. */
  datatype ListQuery = ListAll | ListMatching(key: string, value: string)

  const SRIOVCapable := ListMatching("sriov.capable", "true")

  predicate Matches(n: Node, q: ListQuery) {
    q.ListAll? || (q.key in n.labels && n.labels[q.key] == q.value)
  }

  /** The nodes a successful query returns, in the store's order. */
  function Select(nodes: seq<Node>, q: ListQuery): (r: seq<Node>)
    ensures forall n :: n in r <==> n in nodes && Matches(n, q)
    decreases |nodes|
  {
    if nodes == [] then []
    else if Matches(nodes[0], q) then [nodes[0]] + Select(nodes[1..], q)
    else Select(nodes[1..], q)
  }

  /** The cluster as the webhook sees it. */
  datatype Cluster = Cluster(nodes: seq<Node>, listError: ListQuery -> Option<string>)

  /** The queries a check makes, in order, and the denial it ends with, if any. */
  datatype Check = Check(queries: seq<ListQuery>, err: Option<string>)

  // ---------------------------------------------------------------------------------
  // Defaulting
  // ---------------------------------------------------------------------------------

  /** defaultVirtualMachine: an empty NUMA policy becomes `none` and an empty power state
      `Running`; nothing else changes. */
  function Defaulted(vm: VM): (r: VM)
    ensures r.spec.numaPolicy == (if vm.spec.numaPolicy == "" then "none" else vm.spec.numaPolicy)
    ensures r.spec.powerState == (if vm.spec.powerState == "" then B.PowerStateRunning else vm.spec.powerState)
    ensures r.meta == vm.meta && r.status == vm.status
    ensures r.spec.(numaPolicy := vm.spec.numaPolicy, powerState := vm.spec.powerState) == vm.spec
  {
    var numa := if vm.spec.numaPolicy == "" then "none" else vm.spec.numaPolicy;
    var power := if vm.spec.powerState == "" then B.PowerStateRunning else vm.spec.powerState;
    vm.(spec := vm.spec.(numaPolicy := numa, powerState := power))
  }

  /** Defaulting twice changes nothing further, and it agrees with the schema defaults of
      the hub revision on the two fields it fills. */
  lemma DefaultedIdempotent(vm: VM)
    ensures Defaulted(Defaulted(vm)) == Defaulted(vm)
    ensures Defaulted(vm).spec.powerState == B.SpecDefaults(vm.spec).powerState
    ensures Defaulted(vm).spec.numaPolicy == B.SpecDefaults(vm.spec).numaPolicy
    ensures Defaulted(vm).spec.powerState != ""
  {
    B.SpecDefaultsProperties(vm.spec);
  }

  // ---------------------------------------------------------------------------------
  // The checks
  // ---------------------------------------------------------------------------------

  /** validateSRIOV, from the given network on: each sriov network needs a NAD reference and
      a non-empty list of SR-IOV capable nodes. */
  function SRIOVCheck(cluster: Cluster, nets: seq<B.VirtualMachineNetwork>): Check
    decreases |nets|
  {
    if nets == [] then Check([], None)
    else if nets[0].netType != "sriov" then SRIOVCheck(cluster, nets[1..])
    else if nets[0].nadRef.None? then Check([], Some(NadRefRequired))
    else if cluster.listError(SRIOVCapable).Some? then Check([SRIOVCapable], cluster.listError(SRIOVCapable))
    else if Select(cluster.nodes, SRIOVCapable) == [] then Check([SRIOVCapable], Some(NoSRIOVNodes))
    else
      var rest := SRIOVCheck(cluster, nets[1..]);
      Check([SRIOVCapable] + rest.queries, rest.err)
  }

  /** The loop step of validateSRIOV: what network `i` contributes, given the queries made
      for the networks before it. */
  lemma SRIOVStep(cluster: Cluster, nets: seq<B.VirtualMachineNetwork>, i: nat, done: seq<ListQuery>)
    requires i < |nets|
    requires SRIOVCheck(cluster, nets) ==
      Check(done + SRIOVCheck(cluster, nets[i..]).queries, SRIOVCheck(cluster, nets[i..]).err)
    ensures var rest := SRIOVCheck(cluster, nets[i + 1..]);
      var whole := SRIOVCheck(cluster, nets);
      if nets[i].netType != "sriov" then whole == Check(done + rest.queries, rest.err)
      else if nets[i].nadRef.None? then whole == Check(done, Some(NadRefRequired))
      else if cluster.listError(SRIOVCapable).Some? then whole == Check(done + [SRIOVCapable], cluster.listError(SRIOVCapable))
      else if Select(cluster.nodes, SRIOVCapable) == [] then whole == Check(done + [SRIOVCapable], Some(NoSRIOVNodes))
      else whole == Check(done + [SRIOVCapable] + rest.queries, rest.err)
  {
    assert nets[i..][1..] == nets[i + 1..];
    assert done + ([SRIOVCapable] + SRIOVCheck(cluster, nets[i + 1..]).queries)
      == done + [SRIOVCapable] + SRIOVCheck(cluster, nets[i + 1..]).queries;
  }

  /** The allocatable resource name of a hugepage size. */
  function HugepagesResource(size: string): string { "hugepages-" + size }

  predicate Advertises(n: Node, size: string) {
    HugepagesResource(size) in n.allocatable && n.allocatable[HugepagesResource(size)] != 0
  }

  /** validateHugePages: no size asks for nothing; otherwise some node must offer a nonzero
      quantity of that hugepage size. */
  function HugePagesCheck(cluster: Cluster, vm: VM): Check {
    var size := vm.spec.hugepages;
    if size == "" then Check([], None)
    else if cluster.listError(ListAll).Some? then Check([ListAll], cluster.listError(ListAll))
    else if exists n :: n in cluster.nodes && Advertises(n, size) then Check([ListAll], None)
    else Check([ListAll], Some(NoHugepagesNodes + size))
  }

  /** Handle: decode, default, and on create or update run the SR-IOV check and then the
      hugepages check; the first denial is the answer. */
  function HandleSpec(cluster: Cluster, req: Request<VM>): (Response<VM>, seq<ListQuery>) {
    match req.payload
    case DecodeFailed(m) => (Errored(BadRequest, m), [])
    case Decoded(obj) =>
      var vm := Defaulted(obj);
      if req.operation != Create && req.operation != Update then (Patched(vm), [])
      else
        var sriov := SRIOVCheck(cluster, vm.spec.nets);
        if sriov.err.Some? then (Denied(sriov.err.value), sriov.queries)
        else
          var huge := HugePagesCheck(cluster, vm);
          if huge.err.Some? then (Denied(huge.err.value), sriov.queries + huge.queries)
          else (Patched(vm), sriov.queries + huge.queries)
  }

  class VirtualMachineWebhook {
    const cluster: Cluster
    /** Every node list query made so far, in order. */
    var queries: seq<ListQuery>

    constructor (cluster: Cluster)
      ensures this.cluster == cluster && queries == []
    {
      this.cluster := cluster;
      queries := [];
    }

    method List(q: ListQuery) returns (items: seq<Node>, err: Option<string>)
      modifies this
      ensures queries == old(queries) + [q]
      ensures err == cluster.listError(q)
      ensures err.None? ==> items == Select(cluster.nodes, q)
    {
      queries := queries + [q];
      err := cluster.listError(q);
      items := if err.None? then Select(cluster.nodes, q) else [];
    }

    method ValidateSRIOV(vm: VM) returns (err: Option<string>)
      modifies this
      ensures queries == old(queries) + SRIOVCheck(cluster, vm.spec.nets).queries
      ensures err == SRIOVCheck(cluster, vm.spec.nets).err
    {
      var nets := vm.spec.nets;
      ghost var done: seq<ListQuery> := [];
      var i := 0;
      while i < |nets|
        invariant 0 <= i <= |nets|
        invariant queries == old(queries) + done
        invariant SRIOVCheck(cluster, nets) ==
          Check(done + SRIOVCheck(cluster, nets[i..]).queries, SRIOVCheck(cluster, nets[i..]).err)
      {
        var net := nets[i];
        SRIOVStep(cluster, nets, i, done);
        if net.netType == "sriov" {
          if net.nadRef.None? {
            return Some(NadRefRequired);
          }
          var nodeList, listErr := List(SRIOVCapable);
          done := done + [SRIOVCapable];
          if listErr.Some? {
            return listErr;
          }
          if |nodeList| == 0 {
            return Some(NoSRIOVNodes);
          }
        }
        i := i + 1;
      }
      assert nets[i..] == [];
      return None;
    }

    method ValidateHugePages(vm: VM) returns (err: Option<string>)
      modifies this
      ensures queries == old(queries) + HugePagesCheck(cluster, vm).queries
      ensures err == HugePagesCheck(cluster, vm).err
    {
      var size := vm.spec.hugepages;
      if size == "" {
        return None;
      }
      var nodes, listErr := List(ListAll);
      if listErr.Some? {
        return listErr;
      }
      assert forall n :: n in nodes <==> n in cluster.nodes;
      var i := 0;
      while i < |nodes|
        invariant 0 <= i <= |nodes|
        invariant forall j :: 0 <= j < i ==> !Advertises(nodes[j], size)
      {
        var node := nodes[i];
        if HugepagesResource(size) in node.allocatable {
          if node.allocatable[HugepagesResource(size)] != 0 {
            return None;
          }
        }
        i := i + 1;
      }
      return Some(NoHugepagesNodes + size);
    }

    method Handle(req: Request<VM>) returns (resp: Response<VM>)
      modifies this
      ensures resp == HandleSpec(cluster, req).0
      ensures queries == old(queries) + HandleSpec(cluster, req).1
    {
      if req.payload.DecodeFailed? {
        return Errored(BadRequest, req.payload.message);
      }
      var vm := Defaulted(req.payload.obj);
      if req.operation == Create || req.operation == Update {
        var err := ValidateSRIOV(vm);
        if err.Some? {
          return Denied(err.value);
        }
        err := ValidateHugePages(vm);
        if err.Some? {
          return Denied(err.value);
        }
      }
      return Patched(vm);
    }
  }

  // ---------------------------------------------------------------------------------
  // Properties
  // ---------------------------------------------------------------------------------

  /** Only create and update are validated; any other operation admits the defaulted object
      without consulting nodes. A decoding failure is a bad request. */
  lemma OnlyCreateAndUpdateValidated(cluster: Cluster, req: Request<VM>)
    ensures req.payload.DecodeFailed? ==> HandleSpec(cluster, req) == (Errored(BadRequest, req.payload.message), [])
    ensures req.payload.Decoded? && req.operation != Create && req.operation != Update ==>
      HandleSpec(cluster, req) == (Patched(Defaulted(req.payload.obj)), [])
    ensures HandleSpec(cluster, req).0.Patched? ==> req.payload.Decoded? && HandleSpec(cluster, req).0.obj == Defaulted(req.payload.obj)
  {
  }

  /** The checks see the defaulted object, and the SR-IOV check runs first: its denial is the
      answer and the hugepages check then consults no node. */
  lemma SRIOVCheckedBeforeHugepages(cluster: Cluster, req: Request<VM>)
    requires req.payload.Decoded? && (req.operation == Create || req.operation == Update)
    ensures var vm := Defaulted(req.payload.obj);
      var sriov := SRIOVCheck(cluster, vm.spec.nets);
      && (sriov.err.Some? ==> HandleSpec(cluster, req) == (Denied(sriov.err.value), sriov.queries))
      && (sriov.err.None? ==>
            HandleSpec(cluster, req).1 == sriov.queries + HugePagesCheck(cluster, vm).queries &&
            (HandleSpec(cluster, req).0.Patched? <==> HugePagesCheck(cluster, vm).err.None?))
  {
  }

  predicate HasSRIOV(nets: seq<B.VirtualMachineNetwork>) {
    exists i :: 0 <= i < |nets| && nets[i].netType == "sriov"
  }

  /** Without sriov networks the SR-IOV check passes without consulting nodes. */
  lemma {:induction false} NoSRIOVNetworksPass(cluster: Cluster, nets: seq<B.VirtualMachineNetwork>)
    requires !HasSRIOV(nets)
    ensures SRIOVCheck(cluster, nets) == Check([], None)
    decreases |nets|
  {
    if nets != [] {
      assert nets[0].netType != "sriov";
      assert !HasSRIOV(nets[1..]) by {
        forall i | 0 <= i < |nets[1..]| ensures nets[1..][i].netType != "sriov" {
          assert nets[1..][i] == nets[i + 1];
        }
      }
      NoSRIOVNetworksPass(cluster, nets[1..]);
    }
  }

  /** With a healthy node list: an sriov network without a NAD reference is denied for that
      reason when it is the first sriov network; with a NAD reference on every sriov network,
      the check passes exactly when some node is labelled `sriov.capable=true`. */
  lemma {:induction false} SRIOVDecision(cluster: Cluster, nets: seq<B.VirtualMachineNetwork>, k: nat)
    requires cluster.listError(SRIOVCapable).None?
    requires k < |nets| && nets[k].netType == "sriov"
    requires forall i :: 0 <= i < k ==> nets[i].netType != "sriov"
    ensures nets[k].nadRef.None? ==> SRIOVCheck(cluster, nets) == Check([], Some(NadRefRequired))
    ensures nets[k].nadRef.Some? && Select(cluster.nodes, SRIOVCapable) == [] ==>
      SRIOVCheck(cluster, nets) == Check([SRIOVCapable], Some(NoSRIOVNodes))
    decreases k
  {
    if k > 0 {
      assert nets[0].netType != "sriov";
      SRIOVDecision(cluster, nets[1..], k - 1);
    }
  }

  /** With a healthy node list and SR-IOV capable nodes present, every sriov network having a
      NAD reference is exactly what makes the check pass. */
  lemma {:induction false} SRIOVPassesWithCapableNodes(cluster: Cluster, nets: seq<B.VirtualMachineNetwork>)
    requires cluster.listError(SRIOVCapable).None? && Select(cluster.nodes, SRIOVCapable) != []
    ensures SRIOVCheck(cluster, nets).err.None? <==>
      forall i :: 0 <= i < |nets| && nets[i].netType == "sriov" ==> nets[i].nadRef.Some?
    ensures SRIOVCheck(cluster, nets).err.Some? ==> SRIOVCheck(cluster, nets).err == Some(NadRefRequired)
    decreases |nets|
  {
    if nets != [] {
      SRIOVPassesWithCapableNodes(cluster, nets[1..]);
      assert forall i :: 1 <= i < |nets| ==> nets[i] == nets[1..][i - 1];
    }
  }

  /** No hugepage size passes without a lookup; otherwise, with a healthy node list, the check
      passes exactly when some node offers a nonzero quantity of `hugepages-<size>`. */
  lemma HugePagesDecision(cluster: Cluster, vm: VM)
    ensures vm.spec.hugepages == "" ==> HugePagesCheck(cluster, vm) == Check([], None)
    ensures vm.spec.hugepages != "" && cluster.listError(ListAll).None? ==>
      HugePagesCheck(cluster, vm).queries == [ListAll] &&
      (HugePagesCheck(cluster, vm).err.None? <==>
        exists n :: n in cluster.nodes && HugepagesResource(vm.spec.hugepages) in n.allocatable &&
          n.allocatable[HugepagesResource(vm.spec.hugepages)] > 0)
  {
  }
}
