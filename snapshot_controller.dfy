/** The VMSnapshot reconciler: a finalizer-driven pass that deletes the backend snapshot
    before releasing the object, or syncs it and records a Ready condition and ReadyToUse.
    The store and the snapshot backend are oracles; every call is recorded in `trace`. */
module SnapshotController {
  import opened Common
  import opened Lifecycle
  import B = V1Beta1

  const SnapshotFinalizer := "virtualization.kubesphere.io/vmsnapshot-cleanup"

  type Snapshot = B.VMSnapshot

  datatype Call =
    | Get(key: ObjectKey)
    | Update(obj: Snapshot)
    | UpdateStatus(obj: Snapshot)
    | Sync(obj: Snapshot)
    | DeleteSnapshot(obj: Snapshot)

  datatype Environment = Environment(lookup: ObjectKey -> GetResult<Snapshot>, respond: Call -> Outcome, clock: Time)

  predicate Succeeds(env: Environment, c: Call) { env.respond(c).Ok? }

  /** The snapshot with a Ready condition recorded, stamped with the clock. */
  function WithReady(env: Environment, s: Snapshot, status: ConditionStatus, reason: string, message: string): Snapshot {
    s.(status := s.status.(conditions :=
      SetStatusCondition(s.status.conditions, Condition("Ready", status, reason, message, env.clock))))
  }

  /** The sync step for a live snapshot carrying the finalizer. A failed Sync records
      Ready=False and returns Sync's error (the status write's own error is dropped); a
      successful one records Ready=True, sets ReadyToUse and returns the status write's error. */
  function SyncSpec(env: Environment, s: Snapshot): Pass<Call> {
    if !Succeeds(env, Sync(s)) then
      var failed := WithReady(env, s, ConditionFalse, "SyncFailed", env.respond(Sync(s)).message);
      Pass([Sync(s), UpdateStatus(failed)], NoRequeue, ErrorOf(env.respond(Sync(s))))
    else
      var ready := WithReady(env, s, ConditionTrue, "Synced", "Snapshot reconciled");
      var ready' := ready.(status := ready.status.(readyToUse := true));
      Pass([Sync(s), UpdateStatus(ready')], NoRequeue, ErrorOf(env.respond(UpdateStatus(ready'))))
  }

  function ReconcileSpec(env: Environment, key: ObjectKey): Pass<Call> {
    match env.lookup(key)
    case NotFound => Pass([Get(key)], NoRequeue, None)
    case GetFailed(m) => Pass([Get(key)], NoRequeue, Some(m))
    case Found(s) =>
      if !BeingDeleted(s.meta) then
        if !ContainsFinalizer(s.meta, SnapshotFinalizer) then
          var added := s.(meta := AddFinalizer(s.meta, SnapshotFinalizer));
          if !Succeeds(env, Update(added)) then Pass([Get(key), Update(added)], NoRequeue, ErrorOf(env.respond(Update(added))))
          else
            var rest := SyncSpec(env, added);
            Pass([Get(key), Update(added)] + rest.calls, rest.result, rest.err)
        else
          var rest := SyncSpec(env, s);
          Pass([Get(key)] + rest.calls, rest.result, rest.err)
      else if ContainsFinalizer(s.meta, SnapshotFinalizer) then
        if !Succeeds(env, DeleteSnapshot(s)) then
          Pass([Get(key), DeleteSnapshot(s)], NoRequeue, ErrorOf(env.respond(DeleteSnapshot(s))))
        else
          var removed := s.(meta := RemoveFinalizer(s.meta, SnapshotFinalizer));
          Pass([Get(key), DeleteSnapshot(s), Update(removed)], NoRequeue, ErrorOf(env.respond(Update(removed))))
      else Pass([Get(key)], NoRequeue, None)
  }

  class VMSnapshotReconciler {
    const env: Environment
    /** Every call made so far, in order. */
    var trace: seq<Call>

    constructor (env: Environment)
      ensures this.env == env && trace == []
    {
      this.env := env;
      trace := [];
    }

    method Issue(c: Call) returns (err: Option<string>)
      modifies this
      ensures trace == old(trace) + [c]
      ensures err == ErrorOf(env.respond(c))
    {
      trace := trace + [c];
      err := ErrorOf(env.respond(c));
    }

    method Reconcile(key: ObjectKey) returns (result: ReconcileResult, err: Option<string>)
      modifies this
      ensures trace == old(trace) + ReconcileSpec(env, key).calls
      ensures result == ReconcileSpec(env, key).result && err == ReconcileSpec(env, key).err
    {
      trace := trace + [Get(key)];
      var got := env.lookup(key);
      if got.NotFound? {
        return NoRequeue, None;
      } else if got.GetFailed? {
        return NoRequeue, Some(got.message);
      }
      var snapshot := got.obj;
      if !BeingDeleted(snapshot.meta) {
        if !ContainsFinalizer(snapshot.meta, SnapshotFinalizer) {
          snapshot := snapshot.(meta := AddFinalizer(snapshot.meta, SnapshotFinalizer));
          err := Issue(Update(snapshot));
          if err.Some? {
            return NoRequeue, err;
          }
        }
      } else {
        if ContainsFinalizer(snapshot.meta, SnapshotFinalizer) {
          err := Issue(DeleteSnapshot(snapshot));
          if err.Some? {
            return NoRequeue, err;
          }
          snapshot := snapshot.(meta := RemoveFinalizer(snapshot.meta, SnapshotFinalizer));
          err := Issue(Update(snapshot));
          if err.Some? {
            return NoRequeue, err;
          }
        }
        return NoRequeue, None;
      }
      err := Issue(Sync(snapshot));
      if err.Some? {
        var failed := WithReady(env, snapshot, ConditionFalse, "SyncFailed", err.value);
        var _ := Issue(UpdateStatus(failed));
        return NoRequeue, err;
      }
      snapshot := WithReady(env, snapshot, ConditionTrue, "Synced", "Snapshot reconciled");
      snapshot := snapshot.(status := snapshot.status.(readyToUse := true));
      err := Issue(UpdateStatus(snapshot));
      if err.Some? {
        return NoRequeue, err;
      }
      return NoRequeue, None;
    }
  }

  // ---------------------------------------------------------------------------------
  // Properties of a pass
  // ---------------------------------------------------------------------------------

  /** A missing snapshot is a quiet no-op; a failed lookup returns its error; no pass ever
      asks for a timed requeue. */
  lemma LookupOutcomesAndNoRequeue(env: Environment, key: ObjectKey)
    ensures env.lookup(key).NotFound? ==> ReconcileSpec(env, key) == Pass([Get(key)], NoRequeue, None)
    ensures env.lookup(key).GetFailed? ==>
      ReconcileSpec(env, key) == Pass([Get(key)], NoRequeue, Some(env.lookup(key).message))
    ensures ReconcileSpec(env, key).result == NoRequeue
  {
  }

  /** A live snapshot without the finalizer gets it persisted before Sync; a failed write ends
      the pass before Sync. */
  lemma FinalizerPersistedBeforeSync(env: Environment, key: ObjectKey)
    requires env.lookup(key).Found?
    requires !BeingDeleted(env.lookup(key).obj.meta) && !ContainsFinalizer(env.lookup(key).obj.meta, SnapshotFinalizer)
    ensures var s := env.lookup(key).obj;
      var added := s.(meta := AddFinalizer(s.meta, SnapshotFinalizer));
      var pass := ReconcileSpec(env, key);
      && ContainsFinalizer(added.meta, SnapshotFinalizer)
      && pass.calls[1] == Update(added)
      && (!Succeeds(env, Update(added)) ==> pass.calls == [Get(key), Update(added)] && pass.err.Some?)
      && (Succeeds(env, Update(added)) ==> pass.calls[2] == Sync(added))
  {
  }

  /** Deleting a snapshot that carries the finalizer: DeleteSnapshot before the finalizer is
      dropped; if it fails, the finalizer stays and its error is returned; Sync is never called. */
  lemma DeletionWithFinalizer(env: Environment, key: ObjectKey)
    requires env.lookup(key).Found?
    requires BeingDeleted(env.lookup(key).obj.meta) && ContainsFinalizer(env.lookup(key).obj.meta, SnapshotFinalizer)
    ensures var s := env.lookup(key).obj;
      var removed := s.(meta := RemoveFinalizer(s.meta, SnapshotFinalizer));
      var pass := ReconcileSpec(env, key);
      && pass.calls[1] == DeleteSnapshot(s)
      && (!Succeeds(env, DeleteSnapshot(s)) ==>
            pass.calls == [Get(key), DeleteSnapshot(s)] && pass.err == ErrorOf(env.respond(DeleteSnapshot(s))))
      && (Succeeds(env, DeleteSnapshot(s)) ==>
            pass.calls == [Get(key), DeleteSnapshot(s), Update(removed)] && !ContainsFinalizer(removed.meta, SnapshotFinalizer))
      && (forall i :: 0 <= i < |pass.calls| ==> !pass.calls[i].Sync?)
  {
    RemoveFinalizerProperties(env.lookup(key).obj.meta, SnapshotFinalizer);
  }

  /** Deleting a snapshot without the finalizer does nothing after the lookup. */
  lemma DeletionWithoutFinalizer(env: Environment, key: ObjectKey)
    requires env.lookup(key).Found?
    requires BeingDeleted(env.lookup(key).obj.meta) && !ContainsFinalizer(env.lookup(key).obj.meta, SnapshotFinalizer)
    ensures ReconcileSpec(env, key) == Pass([Get(key)], NoRequeue, None)
  {
  }

  /** A failed Sync records Ready=False/SyncFailed with Sync's message, leaves ReadyToUse as it
      was and returns Sync's error; a successful one records Ready=True/Synced and sets
      ReadyToUse, returning only the status write's error. */
  lemma SyncRecordsReady(env: Environment, s: Snapshot)
    ensures var pass := SyncSpec(env, s);
      var written := pass.calls[1].obj;
      var ready := FindCondition(written.status.conditions, "Ready");
      && pass.calls[0] == Sync(s) && pass.calls[1].UpdateStatus? && |pass.calls| == 2
      && written.meta == s.meta && written.spec == s.spec
      && ready.Some?
      && (!Succeeds(env, Sync(s)) ==>
            ready.value.status == ConditionFalse && ready.value.reason == "SyncFailed" &&
            ready.value.message == env.respond(Sync(s)).message &&
            written.status.readyToUse == s.status.readyToUse &&
            pass.err == Some(env.respond(Sync(s)).message))
      && (Succeeds(env, Sync(s)) ==>
            ready.value.status == ConditionTrue && ready.value.reason == "Synced" &&
            written.status.readyToUse &&
            pass.err == ErrorOf(env.respond(pass.calls[1])))
  {
    if !Succeeds(env, Sync(s)) {
      SetStatusConditionProperties(s.status.conditions,
        Condition("Ready", ConditionFalse, "SyncFailed", env.respond(Sync(s)).message, env.clock));
    } else {
      SetStatusConditionProperties(s.status.conditions,
        Condition("Ready", ConditionTrue, "Synced", "Snapshot reconciled", env.clock));
    }
  }
}
