/** The VMTemplate admission webhook: a template must name its CPU and memory, and when
    both CPU bounds are given the upper one must not sort before the lower one. The bounds are
    compared as strings, byte by byte (Go's string ordering), not as quantities. */
module TemplateWebhook {
  import opened Admission
  import B = V1Beta1

  type Template = B.VMTemplate

  const ParametersRequired := "parameters.cpu and parameters.memory must be specified"
  const MaxBelowMin := "constraints.maxCPU must be >= minCPU"

  /** Go's `<` on strings: lexicographic on the encoded bytes. UTF-8 keeps code point order,
      so comparing characters gives the same answer. */
  predicate StringLess(a: string, b: string)
    decreases |a|
  {
    if b == [] then false
    else if a == [] then true
    else if a[0] != b[0] then a[0] < b[0]
    else StringLess(a[1..], b[1..])
  }

  /** The ordering is strict: never both ways, and never a string against itself. */
  lemma {:induction false} StringLessStrict(a: string, b: string)
    ensures !(StringLess(a, b) && StringLess(b, a))
    ensures !StringLess(a, a)
    decreases |a|
  {
    if a != [] && b != [] && a[0] == b[0] {
      StringLessStrict(a[1..], b[1..]);
    }
    if a != [] {
      StringLessStrict(a[1..], a[1..]);
    }
  }

  /** A proper prefix sorts first. */
  lemma {:induction false} PrefixIsLess(a: string, b: string)
    requires |b| > 0
    ensures StringLess(a, a + b)
    decreases |a|
  {
    if a != [] {
      assert (a + b)[1..] == a[1..] + b;
      PrefixIsLess(a[1..], b);
    }
  }

  function Handle(req: Request<Template>): (r: Response<Template>)
    ensures req.payload.DecodeFailed? ==> r == Errored(BadRequest, req.payload.message)
    ensures r.Patched? <==>
      req.payload.Decoded? &&
      req.payload.obj.spec.parameters.cpu != "" && req.payload.obj.spec.parameters.memory != "" &&
      !(req.payload.obj.spec.constraints.maxCPU != "" && req.payload.obj.spec.constraints.minCPU != "" &&
        StringLess(req.payload.obj.spec.constraints.maxCPU, req.payload.obj.spec.constraints.minCPU))
    ensures r.Patched? ==> r.obj == req.payload.obj
    ensures r.Denied? ==> r.reason in {ParametersRequired, MaxBelowMin}
  {
    match req.payload
    case DecodeFailed(m) => Errored(BadRequest, m)
    case Decoded(t) =>
      var p := t.spec.parameters;
      var c := t.spec.constraints;
      if p.cpu == "" || p.memory == "" then Denied(ParametersRequired)
      else if c.maxCPU != "" && c.minCPU != "" && StringLess(c.maxCPU, c.minCPU) then Denied(MaxBelowMin)
      else Patched(t)
  }

  /** A template the schema accepts always names its CPU and memory, so the hook can deny it
      only for its CPU bounds. */
  lemma SchemaValidTemplateDeniedOnlyForBounds(req: Request<Template>)
    requires req.payload.Decoded? && B.ValidVMTemplateSpec(req.payload.obj.spec)
    ensures Handle(req).Denied? ==> Handle(req).reason == MaxBelowMin
    ensures Handle(req).Patched? || Handle(req).Denied?
  {
  }

  /** Equal bounds, and either bound left empty, never deny; the memory bounds are never
      consulted. */
  lemma BoundsThatPass(req: Request<Template>)
    requires req.payload.Decoded?
    requires req.payload.obj.spec.parameters.cpu != "" && req.payload.obj.spec.parameters.memory != ""
    requires var c := req.payload.obj.spec.constraints; c.maxCPU == c.minCPU || c.maxCPU == "" || c.minCPU == ""
    ensures Handle(req) == Patched(req.payload.obj)
  {
    var c := req.payload.obj.spec.constraints;
    StringLessStrict(c.maxCPU, c.minCPU);
  }

  /** Because the bounds are compared as strings, maxCPU "10" sorts before minCPU "9" and the
      template is denied, though ten CPUs are more than nine. */
  lemma StringOrderNotNumeric(req: Request<Template>)
    requires req.payload.Decoded?
    requires req.payload.obj.spec.parameters.cpu != "" && req.payload.obj.spec.parameters.memory != ""
    requires req.payload.obj.spec.constraints.maxCPU == "10" && req.payload.obj.spec.constraints.minCPU == "9"
    ensures Handle(req) == Denied(MaxBelowMin)
  {
    assert StringLess("10", "9");
  }

  /** The memory constraints never change the answer. */
  lemma MemoryBoundsIgnored(req: Request<Template>, minMemory: string, maxMemory: string)
    requires req.payload.Decoded?
    ensures var t := req.payload.obj;
      var t' := t.(spec := t.spec.(constraints := t.spec.constraints.(minMemory := minMemory, maxMemory := maxMemory)));
      Handle(req).Patched? <==> Handle(Request(req.operation, req.namespace, Decoded(t'))).Patched?
  {
  }
}
