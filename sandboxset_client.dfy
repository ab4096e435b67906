/**
 * `SandboxSetClient`: the base client fixed to `agents.kruise.io/v1alpha1`
 * `sandboxsets`, with `get_sandboxset` turning a 404 into
 * `SandboxSetNotFoundException`, plus scaling and reading the replica count.
 */
module SandboxSetClient {
  import opened Wrappers
  import opened Json
  import opened Errors
  import opened KubeApi
  import opened Constants
  import opened BaseClient

  const SandboxSetCoordinate: Coordinate := Coordinate(SandboxSetApiGroup, SandboxSetApiVersion, SandboxSetPlural)

  /** A base client whose coordinate is the SandboxSet collection. */
  type SandboxSetClient = c: Client | c.coord == SandboxSetCoordinate
    witness Client(SandboxSetCoordinate, DefaultNamespace)

  /** `SandboxSetClient(namespace)`; `None` stands for the omitted argument. */
  function New(namespace: Option<string>): (c: SandboxSetClient)
    ensures c.coord == Coordinate("agents.kruise.io", "v1alpha1", "sandboxsets")
    ensures namespace.None? ==> c.namespace == "default"
    ensures namespace.Some? ==> c.namespace == namespace.value
  {
    Client(SandboxSetCoordinate, namespace.GetOr(DefaultNamespace))
  }

  function CreateSandboxSet(c: SandboxSetClient, api: Api, body: Value, namespace: Option<string>): (o: Outcome<Result<Value>>)
    ensures o.call == CreateCall(Coordinate("agents.kruise.io", "v1alpha1", "sandboxsets"),
                                 EffectiveNamespace(c.namespace, namespace), body)
    ensures o.result == api(o.call)
  {
    CreateResource(c, api, body, namespace)
  }

  /**
   * `get_sandboxset`: one get call; the document or any non-404 failure
   * comes back unchanged, a 404 becomes `SandboxSetNotFound` naming the
   * resource and the resolved namespace.
   */
  function GetSandboxSet(c: SandboxSetClient, api: Api, name: string, namespace: Option<string>): (o: Outcome<Result<Value>>)
    ensures o.call == GetCall(Coordinate("agents.kruise.io", "v1alpha1", "sandboxsets"),
                              EffectiveNamespace(c.namespace, namespace), name)
    ensures api(o.call).Ok? ==> o.result == api(o.call)
    ensures IsNotFound(api(o.call)) ==>
              o.result == Err(SandboxSetNotFound(name, EffectiveNamespace(c.namespace, namespace)))
    ensures api(o.call).Err? && !IsNotFound(api(o.call)) ==> o.result == api(o.call)
  {
    var ns := EffectiveNamespace(c.namespace, namespace);
    var got := GetResource(c, api, name, namespace);
    Outcome(got.call, TranslateNotFound(got.result, SandboxSetNotFound(name, ns)))
  }

  function UpdateSandboxSet(c: SandboxSetClient, api: Api, name: string, body: Value, namespace: Option<string>): (o: Outcome<Result<Value>>)
    ensures o.call == PatchCall(Coordinate("agents.kruise.io", "v1alpha1", "sandboxsets"),
                                EffectiveNamespace(c.namespace, namespace), name, body, None)
    ensures o.result == api(o.call)
  {
    UpdateResource(c, api, name, body, namespace)
  }

  function UpdateSandboxSetStatus(c: SandboxSetClient, api: Api, name: string, body: Value, namespace: Option<string>): (o: Outcome<Result<Value>>)
    ensures o.call == PatchStatusCall(Coordinate("agents.kruise.io", "v1alpha1", "sandboxsets"),
                                      EffectiveNamespace(c.namespace, namespace), name, body)
    ensures o.result == api(o.call)
  {
    UpdateResourceStatus(c, api, name, body, namespace)
  }

  function DeleteSandboxSet(c: SandboxSetClient, api: Api, name: string, namespace: Option<string>,
                            gracePeriodSeconds: Option<int>): (o: Outcome<Result<Value>>)
    ensures o.call == DeleteCall(Coordinate("agents.kruise.io", "v1alpha1", "sandboxsets"),
                                 EffectiveNamespace(c.namespace, namespace), name,
                                 DefaultDeleteOptions.(gracePeriodSeconds := gracePeriodSeconds))
    ensures o.result == api(o.call)
  {
    DeleteResource(c, api, name, namespace, gracePeriodSeconds)
  }

  function ListSandboxSets(c: SandboxSetClient, api: Api, namespace: Option<string>,
                           labelSelector: Option<string>, fieldSelector: Option<string>): (o: Outcome<Result<Value>>)
    ensures o.call == ListCall(Coordinate("agents.kruise.io", "v1alpha1", "sandboxsets"),
                               EffectiveNamespace(c.namespace, namespace), labelSelector, fieldSelector)
    ensures o.result == api(o.call)
  {
    ListResources(c, api, namespace, labelSelector, fieldSelector)
  }

  /** `watch_sandboxsets`: exactly the events, and the exception, of the base watch. */
  method WatchSandboxSets(c: SandboxSetClient, watchApi: WatchApi, namespace: Option<string>, labelSelector: Option<string>,
                          fieldSelector: Option<string>, timeoutSeconds: Option<int>)
    returns (o: Outcome<Stream>)
    ensures o.call == WatchCall(Coordinate("agents.kruise.io", "v1alpha1", "sandboxsets"),
                                EffectiveNamespace(c.namespace, namespace), labelSelector, fieldSelector, timeoutSeconds)
    ensures o.result == Watched(watchApi(o.call))
  {
    o := WatchResources(c, watchApi, namespace, labelSelector, fieldSelector, timeoutSeconds);
  }

  function PatchSandboxSet(c: SandboxSetClient, api: Api, name: string, body: Value, namespace: Option<string>,
                           contentType: string): (o: Outcome<Result<Value>>)
    ensures o.call == PatchCall(Coordinate("agents.kruise.io", "v1alpha1", "sandboxsets"),
                                EffectiveNamespace(c.namespace, namespace), name, body, Some(contentType))
    ensures o.result == api(o.call)
  {
    PatchResource(c, api, name, body, namespace, contentType)
  }

  function DeleteCollectionSandboxSets(c: SandboxSetClient, api: Api, namespace: Option<string>,
                                       labelSelector: Option<string>, fieldSelector: Option<string>): (o: Outcome<Result<Value>>)
    ensures o.call == DeleteCollectionCall(Coordinate("agents.kruise.io", "v1alpha1", "sandboxsets"),
                                           EffectiveNamespace(c.namespace, namespace), labelSelector, fieldSelector)
    ensures o.result == api(o.call)
  {
    DeleteCollectionResources(c, api, namespace, labelSelector, fieldSelector)
  }

  /** `wait_for_sandboxset_condition`: the base wait on the SandboxSet collection. */
  method WaitForSandboxSetCondition(c: SandboxSetClient, watchApi: WatchApi, now: Clock, name: string, conditionType: string,
                                    conditionStatus: string, timeout: int, namespace: Option<string>)
    returns (o: Outcome<Result<Value>>)
    ensures o.call == WatchCall(Coordinate("agents.kruise.io", "v1alpha1", "sandboxsets"),
                                EffectiveNamespace(c.namespace, namespace), None, Some("metadata.name=" + name), None)
    ensures var watched := Watched(watchApi(o.call));
      o.result == WaitSpec(watched.events, watched.raised, now, 1, now(0) + timeout as real, name,
                           EffectiveNamespace(c.namespace, namespace), conditionType, conditionStatus)
  {
    o := WaitForResourceCondition(c, watchApi, now, name, conditionType, conditionStatus, timeout, namespace);
  }

  /**
   * `scale_sandboxset`: a single patch of the named SandboxSet whose body
   * is `{"spec": {"replicas": replicas}}` and nothing more, sent without a
   * content type; the reply comes back unchanged.
   */
  function ScaleSandboxSet(c: SandboxSetClient, api: Api, name: string, replicas: int, namespace: Option<string>): (o: Outcome<Result<Value>>)
    ensures o.call.PatchCall? && o.call.coord == Coordinate("agents.kruise.io", "v1alpha1", "sandboxsets")
    ensures o.call.namespace == EffectiveNamespace(c.namespace, namespace) && o.call.name == name
    ensures o.call.contentType == None
    ensures o.call.body.Obj? && o.call.body.fields.Keys == {"spec"}
    ensures o.call.body.fields["spec"].Obj? && o.call.body.fields["spec"].fields.Keys == {"replicas"}
    ensures Path(o.call.body, ["spec", "replicas"]) == Some(Int(replicas))
    ensures o.result == api(o.call)
  {
    var ns := EffectiveNamespace(c.namespace, namespace);
    var patchBody := Single("spec", Single("replicas", Int(replicas)));
    assert ["spec", "replicas"][1..] == ["replicas"] && ["replicas"][1..] == [];
    var call := PatchCall(c.coord, ns, name, patchBody, None);
    Outcome(call, api(call))
  }

  /**
   * `get_sandboxset_replicas`: `spec.replicas` of the fetched SandboxSet
   * when it is there, 0 when `spec` or `replicas` is missing; a failure of
   * the get (including the translated not-found) is raised, never read as 0.
   */
  function GetSandboxSetReplicas(c: SandboxSetClient, api: Api, name: string, namespace: Option<string>): (o: Outcome<Result<Value>>)
    ensures o.call == GetCall(Coordinate("agents.kruise.io", "v1alpha1", "sandboxsets"),
                              EffectiveNamespace(c.namespace, namespace), name)
    ensures var reply := api(o.call);
      && (reply.Ok? && Path(reply.value, ["spec", "replicas"]).Some? ==>
            o.result == Ok(Path(reply.value, ["spec", "replicas"]).value))
      && (reply.Ok? && Path(reply.value, ["spec", "replicas"]).None? ==> o.result == Ok(Int(0)))
      && (IsNotFound(reply) ==> o.result == Err(SandboxSetNotFound(name, EffectiveNamespace(c.namespace, namespace))))
      && (reply.Err? && !IsNotFound(reply) ==> o.result == reply)
  {
    var got := GetSandboxSet(c, api, name, namespace);
    assert ["spec", "replicas"][0] == "spec" && ["spec", "replicas"][1..] == ["replicas"] && ["replicas"][1..] == [];
    match got.result
    case Err(e) => Outcome(got.call, Err(e))
    case Ok(sandboxset) =>
      var spec := GetOr(sandboxset, "spec", Obj(map[]));
      Outcome(got.call, Ok(GetOr(spec, "replicas", Int(0))))
  }

  /**
   * Scaling and reading back agree: if the server applies the scale body
   * as a JSON merge patch to whatever SandboxSet it stored and then serves
   * the result to the next get, `get_sandboxset_replicas` returns exactly
   * the requested count.
   */
  lemma ScaleThenGetReplicas(c: SandboxSetClient, api: Api, name: string, replicas: int, namespace: Option<string>,
                             stored: Value)
    requires api(GetSandboxSetReplicas(c, api, name, namespace).call) ==
             Ok(MergePatch(stored, ScaleSandboxSet(c, api, name, replicas, namespace).call.body))
    ensures GetSandboxSetReplicas(c, api, name, namespace).result == Ok(Int(replicas))
  {
    MergePatchSetsPath(stored, "spec", "replicas", Int(replicas));
  }

  /** Scaling a two-replica SandboxSet to five reads back five. */
  lemma ScaleTwoToFive(c: SandboxSetClient, api: Api, namespace: Option<string>)
    requires api(GetSandboxSetReplicas(c, api, "demo", namespace).call) ==
             Ok(MergePatch(Obj(map["metadata" := Single("name", Str("demo")), "spec" := Single("replicas", Int(2))]),
                           ScaleSandboxSet(c, api, "demo", 5, namespace).call.body))
    ensures GetSandboxSetReplicas(c, api, "demo", namespace).result == Ok(Int(5))
  {
    ScaleThenGetReplicas(c, api, "demo", 5, namespace,
                         Obj(map["metadata" := Single("name", Str("demo")), "spec" := Single("replicas", Int(2))]));
  }
}
