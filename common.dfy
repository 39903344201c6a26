/** Vocabulary shared by both API revisions and by the control plane:
    optional values, 32-bit integers, the object envelope (metadata) and
    status conditions. */
module Common {

  /** A Go pointer or an optional field: absent or present. */
  datatype Option<T> = None | Some(value: T)

  /** The outcome of a call that returns only an `error`. */
  datatype Outcome = Ok | Fail(message: string)

  /** Go's `int32`; schema fields of that width are copied, never computed on. */
  newtype int32 = x: int | -0x8000_0000 <= x < 0x8000_0000

  /** A timestamp; the model never inspects it, it only compares and copies it. */
  type Time = nat

  /** The identity of a namespaced object (a reconcile request key). */
  datatype ObjectKey = ObjectKey(namespace: string, name: string)

  /** The part of the generic object envelope the control plane looks at. */
  datatype ObjectMeta = ObjectMeta(
    name: string,
    namespace: string,
    labels: map<string, string>,
    finalizers: seq<string>,
    deletionTimestamp: Option<Time>)

  /** The status value of a condition. */
  datatype ConditionStatus = ConditionTrue | ConditionFalse | ConditionUnknown

  /** A condition record: typed, reasoned, timestamped. */
  datatype Condition = Condition(
    ctype: string,
    status: ConditionStatus,
    reason: string,
    message: string,
    lastTransitionTime: Time)

  /** An opaque backend-specific fragment, carried through by deep copy. */
  datatype RawExtension = RawExtension(raw: seq<bv8>)

  /** A list response: its items in the order the store returned them. */
  datatype ObjectList<T> = ObjectList(items: seq<T>)

  /** The empty object envelope of a newly built object. */
  function NewMeta(name: string, namespace: string, labels: map<string, string>): ObjectMeta
  {
    ObjectMeta(name, namespace, labels, [], None)
  }
}
