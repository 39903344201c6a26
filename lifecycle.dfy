/** The object-lifecycle vocabulary the reconcilers share: finalizer tokens on an object's
    metadata, status conditions keyed by type, the result of a store lookup and of a
    reconcile pass. */
module Lifecycle {
  import opened Common

  // ---------------------------------------------------------------------------------
  // Finalizers
  // ---------------------------------------------------------------------------------

  predicate ContainsFinalizer(m: ObjectMeta, f: string) { f in m.finalizers }

  /** The object is being deleted: its deletion timestamp is set. */
  predicate BeingDeleted(m: ObjectMeta) { m.deletionTimestamp.Some? }

  /** Adds the token at the end unless it is already present. */
  function AddFinalizer(m: ObjectMeta, f: string): (r: ObjectMeta)
    ensures ContainsFinalizer(r, f)
    ensures forall g :: ContainsFinalizer(r, g) <==> ContainsFinalizer(m, g) || g == f
    ensures ContainsFinalizer(m, f) ==> r == m
    ensures !ContainsFinalizer(m, f) ==> r.finalizers == m.finalizers + [f]
    ensures r.(finalizers := m.finalizers) == m
  {
    if f in m.finalizers then m else m.(finalizers := m.finalizers + [f])
  }

  /** The list without any occurrence of `f`, the others in their order. */
  function Without(xs: seq<string>, f: string): seq<string> {
    if xs == [] then []
    else if xs[0] == f then Without(xs[1..], f)
    else [xs[0]] + Without(xs[1..], f)
  }

  /** Removing a token drops every occurrence of it and keeps every other token, in order. */
  lemma {:induction false} WithoutProperties(xs: seq<string>, f: string)
    ensures f !in Without(xs, f)
    ensures forall g :: g != f ==> (g in Without(xs, f) <==> g in xs)
    ensures |Without(xs, f)| <= |xs|
    ensures f !in xs ==> Without(xs, f) == xs
    decreases |xs|
  {
    if xs != [] {
      WithoutProperties(xs[1..], f);
      assert xs == [xs[0]] + xs[1..];
    }
  }

  /** Removing a token that is not in the list and was appended last restores the list. */
  lemma {:induction false} WithoutAppended(xs: seq<string>, f: string)
    requires f !in xs
    ensures Without(xs + [f], f) == xs
    decreases |xs|
  {
    if xs == [] {
      assert [f][1..] == [];
    } else {
      assert (xs + [f])[1..] == xs[1..] + [f];
      WithoutAppended(xs[1..], f);
    }
  }

  function RemoveFinalizer(m: ObjectMeta, f: string): ObjectMeta {
    m.(finalizers := Without(m.finalizers, f))
  }

  /** After removal the token is gone, no other token is touched, and nothing else in the
      envelope changes; removing what was just added restores the envelope. */
  lemma RemoveFinalizerProperties(m: ObjectMeta, f: string)
    ensures !ContainsFinalizer(RemoveFinalizer(m, f), f)
    ensures forall g :: g != f ==> (ContainsFinalizer(RemoveFinalizer(m, f), g) <==> ContainsFinalizer(m, g))
    ensures RemoveFinalizer(m, f).(finalizers := m.finalizers) == m
    ensures !ContainsFinalizer(m, f) ==> RemoveFinalizer(AddFinalizer(m, f), f) == m
  {
    WithoutProperties(m.finalizers, f);
    if !ContainsFinalizer(m, f) {
      WithoutAppended(m.finalizers, f);
    }
  }

  // ---------------------------------------------------------------------------------
  // Status conditions
  // ---------------------------------------------------------------------------------

  /** The first condition of the given type, if any. */
  function FindCondition(conds: seq<Condition>, ctype: string): Option<Condition> {
    if conds == [] then None
    else if conds[0].ctype == ctype then Some(conds[0])
    else FindCondition(conds[1..], ctype)
  }

  /** Records `c`: the first condition of the same type takes `c`'s status, reason and
      message, and `c`'s timestamp only if the status changes; with no condition of that
      type, `c` is appended. */
  function SetStatusCondition(conds: seq<Condition>, c: Condition): seq<Condition> {
    if conds == [] then [c]
    else if conds[0].ctype == c.ctype then
      var existing := conds[0];
      var time := if existing.status != c.status then c.lastTransitionTime else existing.lastTransitionTime;
      [Condition(c.ctype, c.status, c.reason, c.message, time)] + conds[1..]
    else [conds[0]] + SetStatusCondition(conds[1..], c)
  }

  /** After recording `c`, looking up its type yields `c`'s status, reason and message; the
      timestamp moves only when the status changed; every other type reads as before; the
      list grows by one exactly when the type was absent. */
  lemma {:induction false} SetStatusConditionProperties(conds: seq<Condition>, c: Condition)
    ensures var r := FindCondition(SetStatusCondition(conds, c), c.ctype);
      && r.Some?
      && r.value.status == c.status && r.value.reason == c.reason && r.value.message == c.message
      && r.value.lastTransitionTime ==
           (if FindCondition(conds, c.ctype).Some? && FindCondition(conds, c.ctype).value.status == c.status
            then FindCondition(conds, c.ctype).value.lastTransitionTime else c.lastTransitionTime)
    ensures forall t :: t != c.ctype ==> FindCondition(SetStatusCondition(conds, c), t) == FindCondition(conds, t)
    ensures |SetStatusCondition(conds, c)| == |conds| + (if FindCondition(conds, c.ctype).None? then 1 else 0)
    decreases |conds|
  {
    if conds != [] && conds[0].ctype != c.ctype {
      SetStatusConditionProperties(conds[1..], c);
      var r := SetStatusCondition(conds, c);
      assert r[1..] == SetStatusCondition(conds[1..], c);
    } else if conds != [] {
      var r := SetStatusCondition(conds, c);
      assert r[1..] == conds[1..];
    }
  }

  /** Recording the same condition twice is the same as recording it once. */
  lemma {:induction false} SetStatusConditionIdempotent(conds: seq<Condition>, c: Condition)
    ensures SetStatusCondition(SetStatusCondition(conds, c), c) == SetStatusCondition(conds, c)
    decreases |conds|
  {
    if conds != [] && conds[0].ctype != c.ctype {
      SetStatusConditionIdempotent(conds[1..], c);
      var r := SetStatusCondition(conds, c);
      assert r[0] == conds[0] && r[1..] == SetStatusCondition(conds[1..], c);
    } else if conds != [] {
      var r := SetStatusCondition(conds, c);
      assert r[1..] == conds[1..];
    }
  }

  // ---------------------------------------------------------------------------------
  // Lookups and pass results
  // ---------------------------------------------------------------------------------

  /** The store lookup that opens every pass. */
  datatype GetResult<T> = Found(obj: T) | NotFound | GetFailed(message: string)

  /** A reconcile result: requeue after this many seconds, 0 meaning no timed requeue. */
  datatype ReconcileResult = ReconcileResult(requeueAfter: nat)

  const NoRequeue := ReconcileResult(0)
  const RequeueAfterOneMinute := ReconcileResult(60)

  /** The calls a step issues, in order, and the error it ends with, if any. */
  datatype Phase<C> = Phase(calls: seq<C>, err: Option<string>)

  function Prepend<C>(done: seq<C>, p: Phase<C>): Phase<C> { Phase(done + p.calls, p.err) }

  /** What a pass did: the calls in order, the result and the returned error. */
  datatype Pass<C> = Pass(calls: seq<C>, result: ReconcileResult, err: Option<string>)

  /** The message of a failed call, `None` for success. */
  function ErrorOf(o: Outcome): Option<string> { if o.Fail? then Some(o.message) else None }
}
