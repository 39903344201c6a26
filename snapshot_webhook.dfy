/** The VMSnapshot admission webhook: an empty source namespace is filled with the request's
    namespace, a source in another namespace is denied, and so is a snapshot naming no disks. */
module SnapshotWebhook {
  import opened Admission
  import B = V1Beta1

  type Snapshot = B.VMSnapshot

  const NamespaceMismatch := "sourceRef namespace must match snapshot namespace"
  const NoDisks := "includedDisks must not be empty to ensure deterministic backups"

  /** The snapshot with its source namespace defaulted to the request's namespace. */
  function WithSourceNamespace(s: Snapshot, namespace: string): Snapshot {
    if s.spec.sourceRef.namespace == "" then s.(spec := s.spec.(sourceRef := s.spec.sourceRef.(namespace := namespace)))
    else s
  }

  function Handle(req: Request<Snapshot>): (r: Response<Snapshot>)
    ensures req.payload.DecodeFailed? ==> r == Errored(BadRequest, req.payload.message)
    ensures r.Patched? <==>
      req.payload.Decoded? &&
      req.payload.obj.spec.sourceRef.namespace in {"", req.namespace} &&
      |req.payload.obj.spec.includedDisks| > 0
    ensures r.Patched? ==> var o := req.payload.obj;
      r.obj == o.(spec := o.spec.(sourceRef := o.spec.sourceRef.(namespace := req.namespace)))
    ensures r.Denied? ==> r.reason in {NamespaceMismatch, NoDisks}
  {
    match req.payload
    case DecodeFailed(m) => Errored(BadRequest, m)
    case Decoded(obj) =>
      var s := WithSourceNamespace(obj, req.namespace);
      if s.spec.sourceRef.namespace != req.namespace then Denied(NamespaceMismatch)
      else if |s.spec.includedDisks| == 0 then Denied(NoDisks)
      else Patched(s)
  }

  /** The namespace check comes first: a foreign source is denied for that reason whatever
      the disks; a matching source with no disks is denied for the disks. */
  lemma DenialReasons(req: Request<Snapshot>)
    requires req.payload.Decoded?
    ensures var src := req.payload.obj.spec.sourceRef.namespace;
      && (src != "" && src != req.namespace ==> Handle(req) == Denied(NamespaceMismatch))
      && ((src == "" || src == req.namespace) && req.payload.obj.spec.includedDisks == [] ==> Handle(req) == Denied(NoDisks))
  {
  }

  /** Admitting is stable: a snapshot the webhook admitted is admitted again unchanged. */
  lemma HandleIdempotent(req: Request<Snapshot>)
    requires Handle(req).Patched?
    ensures Handle(Request(req.operation, req.namespace, Decoded(Handle(req).obj))) == Handle(req)
  {
  }
}
