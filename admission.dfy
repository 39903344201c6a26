/** The admission-review vocabulary the webhooks share. A request carries its operation, its
    namespace and the decoded object (or the decoder's error); a response admits the object
    as the webhook leaves it (the patch from the submitted object to this one), denies it
    with a reason, or reports an error with an HTTP status code. */
module Admission {

  datatype Operation = Create | Update | Delete | Connect

  datatype Decoded<T> = Decoded(obj: T) | DecodeFailed(message: string)

  datatype Request<T> = Request(operation: Operation, namespace: string, payload: Decoded<T>)

  datatype Response<T> = Patched(obj: T) | Denied(reason: string) | Errored(code: int, message: string)

  const BadRequest := 400
}
