/** Fixed coordinates and defaults of the agents API clients. */
module Constants {

  const SandboxApiGroup: string := "agents.kruise.io"
  const SandboxApiVersion: string := "v1alpha1"
  const SandboxPlural: string := "sandboxes"

  const SandboxSetApiGroup: string := "agents.kruise.io"
  const SandboxSetApiVersion: string := "v1alpha1"
  const SandboxSetPlural: string := "sandboxsets"

  /** Namespace a client uses when it is constructed without one. */
  const DefaultNamespace: string := "default"

  /** Content type `patch_*` sends unless the caller names another. */
  const MergePatchContentType: string := "application/merge-patch+json"

  /** Defaults of `wait_for_*_condition`. */
  const DefaultConditionStatus: string := "True"
  const DefaultWaitTimeout: int := 300

  /** The watch event type after which a watch stops. */
  const ErrorEventType: string := "ERROR"
}
