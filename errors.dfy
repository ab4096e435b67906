/**
 * The exceptions a client call can end in, as one tagged type: the
 * Kubernetes `ApiException` that the clients let through, the two
 * resource-specific not-found exceptions, and the two `TimeoutError`s of
 * the condition wait.
 */
module Errors {

  datatype Failure =
    | ApiException(status: int, reason: string)
    | SandboxNotFound(name: string, namespace: string)
    | SandboxSetNotFound(name: string, namespace: string)
      /** The deadline passed with the condition still unmet. */
    | ConditionTimeout(conditionType: string, conditionStatus: string, name: string, namespace: string)
      /** The watch ended without the condition being met. */
    | ResourceNeverSeen(name: string, namespace: string)
  {
    /** Both wait failures are Python's built-in `TimeoutError`. */
    predicate IsTimeoutError() {
      ConditionTimeout? || ResourceNeverSeen?
    }

    /** The exception's message as the clients format it (an `ApiException` keeps its reason). */
    function Message(): string {
      match this
      case ApiException(_, reason) => reason
      case SandboxNotFound(name, ns) =>
        "Sandbox '" + name + "' not found in namespace '" + ns + "'"
      case SandboxSetNotFound(name, ns) =>
        "SandboxSet '" + name + "' not found in namespace '" + ns + "'"
      case ConditionTimeout(ct, cs, name, ns) =>
        "Timeout waiting for condition " + ct + "=" + cs + " for resource " + name + " in namespace " + ns
      case ResourceNeverSeen(name, ns) =>
        "Unable to find resource " + name + " in namespace " + ns
    }
  }

  /** A value returned, or an exception raised. */
  /** The failures the Kubernetes client itself raises. */
  type ApiFailure = f: Failure | f.ApiException? witness ApiException(0, "")

  datatype Result<+T> = Ok(value: T) | Err(error: Failure)

  /** An `ApiException` whose HTTP status is 404. */
  predicate IsNotFound<T>(r: Result<T>) {
    r.Err? && r.error.ApiException? && r.error.status == 404
  }

  /**
   * The `except ApiException as e: if e.status == 404: raise ...; raise`
   * block of the `get_*` methods: a 404 becomes `notFound`, every other
   * outcome is returned or raised as it was.
   */
  function TranslateNotFound<T>(reply: Result<T>, notFound: Failure): (r: Result<T>)
    ensures IsNotFound(reply) ==> r == Err(notFound)
    ensures !IsNotFound(reply) ==> r == reply
  {
    if IsNotFound(reply) then Err(notFound) else reply
  }

  /**
   * The two timeouts of the condition wait are the same Python exception
   * type; only their messages tell them apart, and those always differ.
   */
  lemma TimeoutMessagesDiffer(ct: string, cs: string, name: string, ns: string, name': string, ns': string)
    ensures ConditionTimeout(ct, cs, name, ns).IsTimeoutError() && ResourceNeverSeen(name', ns').IsTimeoutError()
    ensures ConditionTimeout(ct, cs, name, ns).Message() != ResourceNeverSeen(name', ns').Message()
  {
    var deadline := ConditionTimeout(ct, cs, name, ns).Message();
    var unseen := ResourceNeverSeen(name', ns').Message();
    assert deadline[0] == 'T';
    assert unseen[0] == 'U';
  }
}
