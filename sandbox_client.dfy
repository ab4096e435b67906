/**
 * `SandboxClient`: the base client fixed to `agents.kruise.io/v1alpha1`
 * `sandboxes`, with `get_sandbox` turning a 404 into `SandboxNotFoundException`.
 */
module SandboxClient {
  import opened Wrappers
  import opened Json
  import opened Errors
  import opened KubeApi
  import opened Constants
  import opened BaseClient

  const SandboxCoordinate: Coordinate := Coordinate(SandboxApiGroup, SandboxApiVersion, SandboxPlural)

  /** A base client whose coordinate is the Sandbox collection. */
  type SandboxClient = c: Client | c.coord == SandboxCoordinate
    witness Client(SandboxCoordinate, DefaultNamespace)

  /** `SandboxClient(namespace)`; `None` stands for the omitted argument. */
  function New(namespace: Option<string>): (c: SandboxClient)
    ensures c.coord == Coordinate("agents.kruise.io", "v1alpha1", "sandboxes")
    ensures namespace.None? ==> c.namespace == "default"
    ensures namespace.Some? ==> c.namespace == namespace.value
  {
    Client(SandboxCoordinate, namespace.GetOr(DefaultNamespace))
  }

  function CreateSandbox(c: SandboxClient, api: Api, body: Value, namespace: Option<string>): (o: Outcome<Result<Value>>)
    ensures o.call == CreateCall(Coordinate("agents.kruise.io", "v1alpha1", "sandboxes"),
                                 EffectiveNamespace(c.namespace, namespace), body)
    ensures o.result == api(o.call)
  {
    CreateResource(c, api, body, namespace)
  }

  /**
   * `get_sandbox`: one get call; the document or any non-404 failure comes
   * back unchanged, a 404 becomes `SandboxNotFound` naming the resource
   * and the resolved namespace.
   */
  function GetSandbox(c: SandboxClient, api: Api, name: string, namespace: Option<string>): (o: Outcome<Result<Value>>)
    ensures o.call == GetCall(Coordinate("agents.kruise.io", "v1alpha1", "sandboxes"),
                              EffectiveNamespace(c.namespace, namespace), name)
    ensures api(o.call).Ok? ==> o.result == api(o.call)
    ensures IsNotFound(api(o.call)) ==>
              o.result == Err(SandboxNotFound(name, EffectiveNamespace(c.namespace, namespace)))
    ensures api(o.call).Err? && !IsNotFound(api(o.call)) ==> o.result == api(o.call)
  {
    var ns := EffectiveNamespace(c.namespace, namespace);
    var got := GetResource(c, api, name, namespace);
    Outcome(got.call, TranslateNotFound(got.result, SandboxNotFound(name, ns)))
  }

  function UpdateSandbox(c: SandboxClient, api: Api, name: string, body: Value, namespace: Option<string>): (o: Outcome<Result<Value>>)
    ensures o.call == PatchCall(Coordinate("agents.kruise.io", "v1alpha1", "sandboxes"),
                                EffectiveNamespace(c.namespace, namespace), name, body, None)
    ensures o.result == api(o.call)
  {
    UpdateResource(c, api, name, body, namespace)
  }

  function UpdateSandboxStatus(c: SandboxClient, api: Api, name: string, body: Value, namespace: Option<string>): (o: Outcome<Result<Value>>)
    ensures o.call == PatchStatusCall(Coordinate("agents.kruise.io", "v1alpha1", "sandboxes"),
                                      EffectiveNamespace(c.namespace, namespace), name, body)
    ensures o.result == api(o.call)
  {
    UpdateResourceStatus(c, api, name, body, namespace)
  }

  function DeleteSandbox(c: SandboxClient, api: Api, name: string, namespace: Option<string>,
                         gracePeriodSeconds: Option<int>): (o: Outcome<Result<Value>>)
    ensures o.call == DeleteCall(Coordinate("agents.kruise.io", "v1alpha1", "sandboxes"),
                                 EffectiveNamespace(c.namespace, namespace), name,
                                 DefaultDeleteOptions.(gracePeriodSeconds := gracePeriodSeconds))
    ensures o.result == api(o.call)
  {
    DeleteResource(c, api, name, namespace, gracePeriodSeconds)
  }

  function ListSandboxes(c: SandboxClient, api: Api, namespace: Option<string>,
                         labelSelector: Option<string>, fieldSelector: Option<string>): (o: Outcome<Result<Value>>)
    ensures o.call == ListCall(Coordinate("agents.kruise.io", "v1alpha1", "sandboxes"),
                               EffectiveNamespace(c.namespace, namespace), labelSelector, fieldSelector)
    ensures o.result == api(o.call)
  {
    ListResources(c, api, namespace, labelSelector, fieldSelector)
  }

  /** `watch_sandboxes`: exactly the events, and the exception, of the base watch. */
  method WatchSandboxes(c: SandboxClient, watchApi: WatchApi, namespace: Option<string>, labelSelector: Option<string>,
                        fieldSelector: Option<string>, timeoutSeconds: Option<int>)
    returns (o: Outcome<Stream>)
    ensures o.call == WatchCall(Coordinate("agents.kruise.io", "v1alpha1", "sandboxes"),
                                EffectiveNamespace(c.namespace, namespace), labelSelector, fieldSelector, timeoutSeconds)
    ensures o.result == Watched(watchApi(o.call))
  {
    o := WatchResources(c, watchApi, namespace, labelSelector, fieldSelector, timeoutSeconds);
  }

  function PatchSandbox(c: SandboxClient, api: Api, name: string, body: Value, namespace: Option<string>,
                        contentType: string): (o: Outcome<Result<Value>>)
    ensures o.call == PatchCall(Coordinate("agents.kruise.io", "v1alpha1", "sandboxes"),
                                EffectiveNamespace(c.namespace, namespace), name, body, Some(contentType))
    ensures o.result == api(o.call)
  {
    PatchResource(c, api, name, body, namespace, contentType)
  }

  function DeleteCollectionSandboxes(c: SandboxClient, api: Api, namespace: Option<string>,
                                     labelSelector: Option<string>, fieldSelector: Option<string>): (o: Outcome<Result<Value>>)
    ensures o.call == DeleteCollectionCall(Coordinate("agents.kruise.io", "v1alpha1", "sandboxes"),
                                           EffectiveNamespace(c.namespace, namespace), labelSelector, fieldSelector)
    ensures o.result == api(o.call)
  {
    DeleteCollectionResources(c, api, namespace, labelSelector, fieldSelector)
  }

  /** `wait_for_sandbox_condition`: the base wait on the Sandbox collection. */
  method WaitForSandboxCondition(c: SandboxClient, watchApi: WatchApi, now: Clock, name: string, conditionType: string,
                                 conditionStatus: string, timeout: int, namespace: Option<string>)
    returns (o: Outcome<Result<Value>>)
    ensures o.call == WatchCall(Coordinate("agents.kruise.io", "v1alpha1", "sandboxes"),
                                EffectiveNamespace(c.namespace, namespace), None, Some("metadata.name=" + name), None)
    ensures var watched := Watched(watchApi(o.call));
      o.result == WaitSpec(watched.events, watched.raised, now, 1, now(0) + timeout as real, name,
                           EffectiveNamespace(c.namespace, namespace), conditionType, conditionStatus)
  {
    o := WaitForResourceCondition(c, watchApi, now, name, conditionType, conditionStatus, timeout, namespace);
  }
}
